/**
 * Ordered listings of finite sets: what a database returns for
 * `ORDER BY … LIMIT n` over a set of rows, given a strict total order on
 * the rows. `Listing` is the whole ordered result; `TakeLeast` computes a
 * prefix of it by repeatedly selecting the least remaining row.
 */
module Ordering {

  ghost predicate StrictTotalOrder<T(!new)>(lt: (T, T) -> bool)
  {
    (forall a :: !lt(a, a)) &&
    (forall a, b, c :: lt(a, b) && lt(b, c) ==> lt(a, c)) &&
    (forall a, b :: a != b ==> lt(a, b) || lt(b, a))
  }

  predicate IsLeast<T(==)>(x: T, s: set<T>, lt: (T, T) -> bool)
  {
    x in s && forall y :: y in s && y != x ==> lt(x, y)
  }

  /** `xs` is strictly increasing. */
  ghost predicate Increasing<T>(xs: seq<T>, lt: (T, T) -> bool)
  {
    forall i, j :: 0 <= i < j < |xs| ==> lt(xs[i], xs[j])
  }

  lemma LeastExists<T(!new)>(s: set<T>, lt: (T, T) -> bool)
    requires StrictTotalOrder(lt) && s != {}
    ensures exists x :: IsLeast(x, s, lt)
  {
    var x :| x in s;
    if s == {x} {
      assert IsLeast(x, s, lt);
    } else {
      var rest := s - {x};
      LeastExists(rest, lt);
      var m :| IsLeast(m, rest, lt);
      if lt(m, x) {
        assert IsLeast(m, s, lt);
      } else {
        assert IsLeast(x, s, lt);
      }
    }
  }

  lemma LeastUnique<T(!new)>(x: T, y: T, s: set<T>, lt: (T, T) -> bool)
    requires StrictTotalOrder(lt) && IsLeast(x, s, lt) && IsLeast(y, s, lt)
    ensures x == y
  {
  }

  ghost function Least<T(!new)>(s: set<T>, lt: (T, T) -> bool): (x: T)
    requires StrictTotalOrder(lt) && s != {}
    ensures IsLeast(x, s, lt)
  {
    LeastExists(s, lt);
    var x :| IsLeast(x, s, lt);
    x
  }

  /** The elements of `s` in increasing order. */
  ghost function Listing<T(!new)>(s: set<T>, lt: (T, T) -> bool): (xs: seq<T>)
    requires StrictTotalOrder(lt)
    decreases |s|
  {
    if s == {} then []
    else
      var x := Least(s, lt);
      [x] + Listing(s - {x}, lt)
  }

  /** A listing holds each element of the set once, in increasing order. */
  lemma {:induction false} ListingProperties<T(!new)>(s: set<T>, lt: (T, T) -> bool)
    requires StrictTotalOrder(lt)
    ensures |Listing(s, lt)| == |s|
    ensures forall x :: x in Listing(s, lt) <==> x in s
    ensures Increasing(Listing(s, lt), lt)
    decreases |s|
  {
    if s != {} {
      var x := Least(s, lt);
      var rest := s - {x};
      ListingProperties(rest, lt);
      var xs := Listing(s, lt);
      assert xs == [x] + Listing(rest, lt);
      forall i, j | 0 <= i < j < |xs| ensures lt(xs[i], xs[j]) {
        if i == 0 {
          assert xs[j] in rest;
        } else {
          assert xs[i] == Listing(rest, lt)[i - 1] && xs[j] == Listing(rest, lt)[j - 1];
        }
      }
    }
  }

  /** An increasing sequence is the listing of its own elements: the order
      alone decides where each element goes. */
  lemma {:induction false} IncreasingIsListing<T(!new)>(xs: seq<T>, s: set<T>, lt: (T, T) -> bool)
    requires StrictTotalOrder(lt) && Increasing(xs, lt)
    requires forall x :: x in xs <==> x in s
    ensures xs == Listing(s, lt)
    decreases |xs|
  {
    if xs == [] {
      assert forall x :: x !in s;
    } else {
      var x := xs[0];
      assert IsLeast(x, s, lt) by {
        forall y | y in s && y != x ensures lt(x, y) {
          var j :| 0 <= j < |xs| && xs[j] == y;
          assert j != 0;
        }
      }
      LeastUnique(x, Least(s, lt), s, lt);
      var rest := xs[1..];
      forall y ensures y in rest <==> y in s - {x} {
        if y in rest {
          var j :| 0 <= j < |rest| && rest[j] == y;
          assert lt(xs[0], xs[j + 1]);
        }
        if y in s - {x} {
          assert y in xs;
          var j :| 0 <= j < |xs| && xs[j] == y;
          assert j != 0;
          assert rest[j - 1] == y;
        }
      }
      assert Increasing(rest, lt) by {
        forall i, j | 0 <= i < j < |rest| ensures lt(rest[i], rest[j]) {
          assert rest[i] == xs[i + 1] && rest[j] == xs[j + 1];
        }
      }
      IncreasingIsListing(rest, s - {x}, lt);
    }
  }

  /** In an increasing sequence, the order of two elements is the order of
      their positions. */
  lemma IncreasingIndex<T(!new)>(xs: seq<T>, lt: (T, T) -> bool, a: int, b: int)
    requires StrictTotalOrder(lt) && Increasing(xs, lt)
    requires 0 <= a < |xs| && 0 <= b < |xs| && lt(xs[a], xs[b])
    ensures a < b
  {
  }

  /** The elements of `s` that come after `x`. */
  ghost function Above<T(!new)>(s: set<T>, lt: (T, T) -> bool, x: T): set<T>
  {
    set y | y in s && lt(x, y)
  }

  /** What comes after the `i`-th element of a listing is listed by the rest
      of the listing. */
  lemma {:induction false} ListingSuffix<T(!new)>(s: set<T>, lt: (T, T) -> bool, i: nat)
    requires StrictTotalOrder(lt) && i < |Listing(s, lt)|
    ensures Listing(Above(s, lt, Listing(s, lt)[i]), lt) == Listing(s, lt)[i + 1..]
  {
    var listing := Listing(s, lt);
    var after := Above(s, lt, listing[i]);
    ListingProperties(s, lt);
    var tail := listing[i + 1..];
    forall x
      ensures x in tail <==> x in after
    {
      if x in tail {
        var j :| 0 <= j < |tail| && tail[j] == x;
        assert tail[j] == listing[i + 1 + j];
      }
      if x in after {
        var j :| 0 <= j < |listing| && listing[j] == x;
        IncreasingIndex(listing, lt, i, j);
        assert tail[j - i - 1] == x;
      }
    }
    assert Increasing(tail, lt) by {
      forall a, b | 0 <= a < b < |tail| ensures lt(tail[a], tail[b]) {
        assert tail[a] == listing[i + 1 + a] && tail[b] == listing[i + 1 + b];
      }
    }
    IncreasingIsListing(tail, after, lt);
  }

  function Take<T>(xs: seq<T>, n: nat): (r: seq<T>)
    ensures |r| == if |xs| < n then |xs| else n
    ensures r == xs[..|r|]
  {
    if |xs| <= n then xs else xs[..n]
  }

  /** The first `n` elements of `s` in increasing order: `ORDER BY … LIMIT n`. */
  method TakeLeast<T(==,!new)>(s: set<T>, n: nat, lt: (T, T) -> bool) returns (page: seq<T>)
    requires StrictTotalOrder(lt)
    ensures page == Take(Listing(s, lt), n)
  {
    page := [];
    var rest := s;
    while |page| < n && rest != {}
      invariant Listing(s, lt) == page + Listing(rest, lt)
      invariant |page| <= n
      decreases |rest|
    {
      LeastExists(rest, lt);
      var x :| IsLeast(x, rest, lt);
      LeastUnique(x, Least(rest, lt), rest, lt);
      assert Listing(rest, lt) == [x] + Listing(rest - {x}, lt);
      page := page + [x];
      rest := rest - {x};
    }
    if rest == {} {
      assert Listing(s, lt) == page;
    } else {
      assert Listing(s, lt)[..n] == page;
    }
  }

  /** The elements of a finite set in some order, each once: the order in
      which a query without `ORDER BY` returns its rows. */
  method Enumerate<T(==)>(s: set<T>) returns (xs: seq<T>)
    ensures |xs| == |s|
    ensures forall x :: x in xs <==> x in s
    ensures forall i, j :: 0 <= i < j < |xs| ==> xs[i] != xs[j]
  {
    xs := [];
    var rest := s;
    while rest != {}
      invariant rest <= s
      invariant forall x :: x in xs <==> x in s - rest
      invariant forall i, j :: 0 <= i < j < |xs| ==> xs[i] != xs[j]
      invariant |xs| + |rest| == |s|
      decreases |rest|
    {
      var x :| x in rest;
      xs := xs + [x];
      rest := rest - {x};
    }
  }

  /** `ORDER BY rank DESC LIMIT n` when `rank` does not order every pair:
      the `n` elements of highest rank (all of them when there are fewer),
      highest first, elements of equal rank in no promised order. */
  ghost predicate TopRanked<T(!new)>(s: set<T>, rank: T -> int, n: nat, xs: seq<T>)
  {
    && |xs| == (if |s| < n then |s| else n)
    && (forall i, j :: 0 <= i < j < |xs| ==> xs[i] != xs[j])
    && (forall i :: 0 <= i < |xs| ==> xs[i] in s)
    && (forall i, j :: 0 <= i < j < |xs| ==> rank(xs[j]) <= rank(xs[i]))
    && (forall i, y :: 0 <= i < |xs| && y in s && y !in xs ==> rank(y) <= rank(xs[i]))
  }

  predicate IsTop<T(!new)>(x: T, s: set<T>, rank: T -> int)
  {
    x in s && forall y :: y in s ==> rank(y) <= rank(x)
  }

  lemma {:induction false} TopExists<T(!new)>(s: set<T>, rank: T -> int)
    requires s != {}
    ensures exists x :: IsTop(x, s, rank)
    decreases |s|
  {
    var x :| x in s;
    if s == {x} {
      assert IsTop(x, s, rank);
    } else {
      TopExists(s - {x}, rank);
      var y :| IsTop(y, s - {x}, rank);
      if rank(x) > rank(y) {
        assert IsTop(x, s, rank);
      } else {
        assert IsTop(y, s, rank);
      }
    }
  }

  /** Selects the top `n` elements one at a time, any of the highest
      remaining ones each time. */
  method TakeTop<T(==,!new)>(s: set<T>, rank: T -> int, n: nat) returns (xs: seq<T>)
    ensures TopRanked(s, rank, n, xs)
  {
    xs := [];
    var rest := s;
    while |xs| < n && rest != {}
      invariant rest <= s && |xs| + |rest| == |s| && |xs| <= n
      invariant forall x :: x in s ==> (x in rest <==> x !in xs)
      invariant forall i, j :: 0 <= i < j < |xs| ==> xs[i] != xs[j]
      invariant forall i :: 0 <= i < |xs| ==> xs[i] in s
      invariant forall i, j :: 0 <= i < j < |xs| ==> rank(xs[j]) <= rank(xs[i])
      invariant forall i, y :: 0 <= i < |xs| && y in rest ==> rank(y) <= rank(xs[i])
      decreases |rest|
    {
      TopExists(rest, rank);
      var x :| IsTop(x, rest, rank);
      xs := xs + [x];
      rest := rest - {x};
    }
  }

  lemma {:induction false} DistinctCard<T>(xs: seq<T>)
    requires forall i, j :: 0 <= i < j < |xs| ==> xs[i] != xs[j]
    ensures |set i | 0 <= i < |xs| :: xs[i]| == |xs|
  {
    if xs != [] {
      var init := xs[..|xs| - 1];
      DistinctCard(init);
      var a := set i | 0 <= i < |init| :: init[i];
      var b := set i | 0 <= i < |xs| :: xs[i];
      assert b == a + {xs[|xs| - 1]};
      assert xs[|xs| - 1] !in a;
    }
  }

  lemma {:induction false} SubsetCard<T>(a: set<T>, b: set<T>)
    requires a <= b
    ensures |a| <= |b|
    decreases |b|
  {
    if a != {} {
      var x :| x in a;
      SubsetCard(a - {x}, b - {x});
    }
  }

  /** Under the limit nothing is cut: every element is selected. */
  lemma FewAllTaken<T(!new)>(s: set<T>, rank: T -> int, n: nat, xs: seq<T>)
    requires TopRanked(s, rank, n, xs) && |s| <= n
    ensures forall x :: x in s <==> x in xs
  {
    var taken := set i | 0 <= i < |xs| :: xs[i];
    DistinctCard(xs);
    assert taken <= s;
    if x :| x in s && x !in taken {
      SubsetCard(taken, s - {x});
    }
    assert taken == s;
    forall x | x in s ensures x in xs {
      assert x in taken;
    }
  }

  /** The order of ids. */
  predicate IdBefore(a: nat, b: nat)
  {
    a < b
  }

  lemma IdBeforeIsTotal()
    ensures StrictTotalOrder(IdBefore)
  {
  }

  /** The ids of `s` in ascending order. */
  ghost function Ascending(s: set<nat>): seq<nat>
  {
    IdBeforeIsTotal();
    Listing(s, IdBefore)
  }

  /** `ORDER BY id`: each id of the set once, smallest first. */
  method SortIds(s: set<nat>) returns (xs: seq<nat>)
    ensures xs == Ascending(s)
    ensures |xs| == |s| && forall x :: x in xs <==> x in s
    ensures forall i, j :: 0 <= i < j < |xs| ==> xs[i] < xs[j]
  {
    IdBeforeIsTotal();
    ListingProperties(s, IdBefore);
    xs := TakeLeast(s, |s|, IdBefore);
  }
}
