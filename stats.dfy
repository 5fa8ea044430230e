/**
 * Organization usage statistics (src/handlers/organizations/stats.rs): the
 * grouped counters of an organization bucketed into the last 30 days or the
 * last 12 months, one JSON object per bucket holding a count per counter
 * name and a "date" caption.
 */
module Stats {
  import opened Wrappers
  import opened Errors
  import opened Store
  import Ordering

  /** A row of the grouped query: the bucket key of its date (a day number,
      or a "%Y-%m-01" month string), the counter name and the summed count. */
  datatype Row<K> = Row(key: K, name: string, value: nat)

  /** A value of a bucket object: a count, or the date caption. */
  datatype Json = Num(n: nat) | Str(s: string)

  /** The sum of the values of the rows with this key and name. */
  function Total<K(==)>(rows: seq<Row<K>>, key: K, name: string): nat
  {
    if rows == [] then 0
    else
      var last := rows[|rows| - 1];
      Total(rows[..|rows| - 1], key, name) + (if last.key == key && last.name == name then last.value else 0)
  }

  /** The names of the rows with this key. */
  function NamesAt<K(==)>(rows: seq<Row<K>>, key: K): (names: set<string>)
    ensures forall n :: n in names <==> exists i :: 0 <= i < |rows| && rows[i].key == key && rows[i].name == n
  {
    set i | 0 <= i < |rows| && rows[i].key == key :: rows[i].name
  }

  /** The names of all rows. */
  function Names<K>(rows: seq<Row<K>>): (names: set<string>)
    ensures forall n :: n in names <==> exists i :: 0 <= i < |rows| && rows[i].name == n
  {
    set i | 0 <= i < |rows| :: rows[i].name
  }

  /** The count of each name present under `key`. */
  function Counts<K(==)>(rows: seq<Row<K>>, key: K): map<string, Json>
  {
    map n | n in NamesAt(rows, key) :: Num(Total(rows, key, n))
  }

  lemma CountsOtherKey<K>(rows: seq<Row<K>>, row: Row<K>, key: K)
    requires row.key != key
    ensures Counts(rows + [row], key) == Counts(rows, key)
  {
    NamesAtStep(rows, row, key);
    var before, after := Counts(rows, key), Counts(rows + [row], key);
    forall n | n in after ensures after[n] == before[n] {
      TotalStep(rows, row, key, n);
    }
    assert after.Keys == before.Keys;
  }

  lemma CountsSameKey<K>(rows: seq<Row<K>>, row: Row<K>, key: K)
    requires row.key == key
    ensures Counts(rows + [row], key) == Counts(rows, key)[row.name := Num(Total(rows, key, row.name) + row.value)]
  {
    NamesAtStep(rows, row, key);
    var before, after := Counts(rows, key), Counts(rows + [row], key);
    var expected := before[row.name := Num(Total(rows, key, row.name) + row.value)];
    assert after.Keys == expected.Keys;
    forall n | n in after ensures after[n] == expected[n] {
      TotalStep(rows, row, key, n);
      if n != row.name {
        assert n in before;
      }
    }
  }

  lemma TotalStep<K>(rows: seq<Row<K>>, row: Row<K>, key: K, name: string)
    ensures Total(rows + [row], key, name) == Total(rows, key, name) + (if row.key == key && row.name == name then row.value else 0)
  {
    assert (rows + [row])[..|rows|] == rows;
  }

  lemma NamesAtStep<K>(rows: seq<Row<K>>, row: Row<K>, key: K)
    ensures NamesAt(rows + [row], key) == NamesAt(rows, key) + (if row.key == key then {row.name} else {})
  {
    var more := rows + [row];
    forall n ensures n in NamesAt(more, key) <==> n in NamesAt(rows, key) || (row.key == key && n == row.name) {
      if n in NamesAt(more, key) && !(row.key == key && n == row.name) {
        var i :| 0 <= i < |more| && more[i].key == key && more[i].name == n;
        assert i < |rows| && rows[i] == more[i];
      }
      if n in NamesAt(rows, key) {
        var i :| 0 <= i < |rows| && rows[i].key == key && rows[i].name == n;
        assert more[i] == rows[i];
      }
      if row.key == key && n == row.name {
        assert more[|rows|] == row;
      }
    }
  }

  lemma NamesStep<K>(rows: seq<Row<K>>, row: Row<K>)
    ensures Names(rows + [row]) == Names(rows) + {row.name}
  {
    var more := rows + [row];
    forall n ensures n in Names(more) <==> n in Names(rows) || n == row.name {
      if n in Names(more) && n != row.name {
        var i :| 0 <= i < |more| && more[i].name == n;
        assert i < |rows| && rows[i] == more[i];
      }
      if n in Names(rows) {
        var i :| 0 <= i < |rows| && rows[i].name == n;
        assert more[i] == rows[i];
      }
      if n == row.name {
        assert more[|rows|] == row;
      }
    }
  }

  /** The bucket object for `key`: a count for each name present under that
      key, and the label under "date", which replaces a counter of that name. */
  function Bucket<K(==)>(rows: seq<Row<K>>, key: K, caption: string): map<string, Json>
  {
    Counts(rows, key)["date" := Str(caption)]
  }

  /** A name without rows under the key has no entry: buckets are not
      zero-filled. Every other name carries its total. */
  lemma BucketEntries<K>(rows: seq<Row<K>>, key: K, caption: string, name: string)
    requires name != "date"
    ensures name in Bucket(rows, key, caption) <==>
              exists i :: 0 <= i < |rows| && rows[i].key == key && rows[i].name == name
    ensures name in Bucket(rows, key, caption) ==> Bucket(rows, key, caption)[name] == Num(Total(rows, key, name))
    ensures Bucket(rows, key, caption)["date"] == Str(caption)
  {
  }

  /** A total is zero exactly when no row with value contributes to it. */
  lemma {:induction false} TotalZero<K>(rows: seq<Row<K>>, key: K, name: string)
    ensures Total(rows, key, name) == 0 <==>
              forall i :: 0 <= i < |rows| && rows[i].key == key && rows[i].name == name ==> rows[i].value == 0
  {
    if rows != [] {
      var init := rows[..|rows| - 1];
      TotalZero(init, key, name);
      assert forall i :: 0 <= i < |init| ==> init[i] == rows[i];
    }
  }

  lemma {:induction false} TotalAbsent<K>(rows: seq<Row<K>>, key: K, name: string)
    requires name !in NamesAt(rows, key)
    ensures Total(rows, key, name) == 0
  {
    if rows != [] {
      var init := rows[..|rows| - 1];
      assert forall i :: 0 <= i < |init| ==> init[i] == rows[i];
      TotalAbsent(init, key, name);
    }
  }

  /** The counts and names of one more row of `rows`. */
  lemma PrefixStep<K>(rows: seq<Row<K>>, i: nat)
    requires i < |rows|
    ensures Counts(rows[..i + 1], rows[i].key) ==
              Counts(rows[..i], rows[i].key)[rows[i].name := Num(Total(rows[..i], rows[i].key, rows[i].name) + rows[i].value)]
    ensures forall key :: key != rows[i].key ==> Counts(rows[..i + 1], key) == Counts(rows[..i], key)
    ensures Names(rows[..i + 1]) == Names(rows[..i]) + {rows[i].name}
  {
    assert rows[..i + 1] == rows[..i] + [rows[i]];
    CountsSameKey(rows[..i], rows[i], rows[i].key);
    forall key | key != rows[i].key ensures Counts(rows[..i + 1], key) == Counts(rows[..i], key) {
      CountsOtherKey(rows[..i], rows[i], key);
    }
    NamesStep(rows[..i], rows[i]);
  }

  /** The inner loop: fills one bucket from the rows, collecting every row's
      name on the way. */
  method FillBucket<K(==)>(rows: seq<Row<K>>, key: K, caption: string) returns (bucket: map<string, Json>, names: set<string>)
    ensures bucket == Bucket(rows, key, caption)
    ensures names == Names(rows)
  {
    var counts: map<string, Json> := map[];
    names := {};
    for i := 0 to |rows|
      invariant counts == Counts(rows[..i], key)
      invariant names == Names(rows[..i])
    {
      var row := rows[i];
      PrefixStep(rows, i);
      names := names + {row.name};
      if row.key == key {
        var sofar := if row.name in counts then counts[row.name].n else 0;
        assert sofar == Total(rows[..i], key, row.name) by {
          if row.name !in counts {
            TotalAbsent(rows[..i], key, row.name);
          }
        }
        counts := counts[row.name := Num(sofar + row.value)];
      }
    }
    assert rows[..|rows|] == rows;
    bucket := counts["date" := Str(caption)];
  }

  function Reverse<T>(xs: seq<T>): (r: seq<T>)
    ensures |r| == |xs| && forall i :: 0 <= i < |xs| ==> r[i] == xs[|xs| - 1 - i]
  {
    if xs == [] then [] else Reverse(xs[1..]) + [xs[0]]
  }

  /** `get_daily`: one bucket per day from 29 days before `today` to `today`,
      oldest first; `caption` formats a day ("%b %d"). */
  method Daily(rows: seq<Row<int>>, today: int, caption: int -> string)
    returns (dataset: seq<map<string, Json>>, names: set<string>)
    ensures |dataset| == 30
    ensures forall i :: 0 <= i < 30 ==> dataset[i] == Bucket(rows, today - 29 + i, caption(today - 29 + i))
    ensures names == Names(rows)
  {
    var newestFirst: seq<map<string, Json>> := [];
    names := {};
    for j := 0 to 30
      invariant |newestFirst| == j
      invariant forall k :: 0 <= k < j ==> newestFirst[k] == Bucket(rows, today - k, caption(today - k))
      invariant names == if j == 0 then {} else Names(rows)
    {
      var bucket, seen := FillBucket(rows, today - j, caption(today - j));
      names := names + seen;
      newestFirst := newestFirst + [bucket];
    }
    dataset := Reverse(newestFirst);
  }

  /** `get_monthly`: twelve buckets for the days 0, 30, …, 330 days before
      `today`, oldest first; a row belongs to a bucket when its month key is
      that day's `monthKey` ("%Y-%m-01"), and `caption` formats the day ("%b %Y"). */
  method Monthly(rows: seq<Row<string>>, today: int, monthKey: int -> string, caption: int -> string)
    returns (dataset: seq<map<string, Json>>, names: set<string>)
    ensures |dataset| == 12
    ensures forall i :: 0 <= i < 12 ==>
              var day := today - 30 * (11 - i);
              dataset[i] == Bucket(rows, monthKey(day), caption(day))
    ensures names == Names(rows)
  {
    var newestFirst: seq<map<string, Json>> := [];
    names := {};
    for j := 0 to 12
      invariant |newestFirst| == j
      invariant forall k :: 0 <= k < j ==> newestFirst[k] == Bucket(rows, monthKey(today - 30 * k), caption(today - 30 * k))
      invariant names == if j == 0 then {} else Names(rows)
    {
      var day := today - 30 * j;
      var bucket, seen := FillBucket(rows, monthKey(day), caption(day));
      names := names + seen;
      newestFirst := newestFirst + [bucket];
    }
    dataset := Reverse(newestFirst);
  }

  /** `date_naive()` of a UTC time given in seconds: its day number. */
  function DayOf(t: Time): int
  {
    t / 86400
  }

  /** The counters both queries read: the organization's rows of one
      category. */
  function FilteredIds(stats: map<Id, OrganizationStat>, org: Id, category: string): set<Id>
  {
    set k | k in stats && stats[k].organizationId == org && stats[k].category == category
  }

  ghost function FilteredRows(stats: map<Id, OrganizationStat>, org: Id, category: string): (ss: seq<OrganizationStat>)
    ensures forall i :: 0 <= i < |ss| ==> ss[i].organizationId == org && ss[i].category == category
  {
    var ids := Ordering.Ascending(FilteredIds(stats, org, category));
    Ordering.IdBeforeIsTotal();
    Ordering.ListingProperties(FilteredIds(stats, org, category), Ordering.IdBefore);
    assert forall i :: 0 <= i < |ids| ==> ids[i] in FilteredIds(stats, org, category);
    RowsOf(stats, ids)
  }

  function RowsOf(stats: map<Id, OrganizationStat>, ids: seq<Id>): (ss: seq<OrganizationStat>)
    requires forall k :: k in ids ==> k in stats
    ensures |ss| == |ids| && forall i :: 0 <= i < |ids| ==> ss[i] == stats[ids[i]]
  {
    seq(|ids|, i requires 0 <= i < |ids| => stats[ids[i]])
  }

  /** What a counter is grouped by besides its name: its date in the daily
      query, the "%Y-%m-01" month of its day in the monthly one. */
  datatype GroupKey = At(date: Time) | InMonth(month: string)

  type Group = (GroupKey, string)

  /** `monthKey` is `None` for the daily grouping. */
  function GroupOf(monthKey: Option<int -> string>, s: OrganizationStat): Group
  {
    (if monthKey.None? then At(s.date) else InMonth(monthKey.value(DayOf(s.date))), s.name)
  }

  function Groups(ss: seq<OrganizationStat>, monthKey: Option<int -> string>): set<Group>
  {
    set i | 0 <= i < |ss| :: GroupOf(monthKey, ss[i])
  }

  /** `SUM(count)` over the rows of a group. */
  function GroupSum(ss: seq<OrganizationStat>, monthKey: Option<int -> string>, g: Group): (sum: nat)
    ensures (forall i :: 0 <= i < |ss| && GroupOf(monthKey, ss[i]) == g ==> ss[i].count == 0) ==> sum == 0
    ensures forall i :: 0 <= i < |ss| && GroupOf(monthKey, ss[i]) == g ==> ss[i].count <= sum
  {
    if ss == [] then 0
    else
      var last := ss[|ss| - 1];
      GroupSum(ss[..|ss| - 1], monthKey, g) + (if GroupOf(monthKey, last) == g then last.count else 0)
  }

  /** The latest date among the rows of a group, `None` when it has none. */
  function Latest(ss: seq<OrganizationStat>, monthKey: Option<int -> string>, g: Group): (t: Option<Time>)
    ensures t.None? <==> forall i :: 0 <= i < |ss| ==> GroupOf(monthKey, ss[i]) != g
    ensures t.Some? ==> exists i :: 0 <= i < |ss| && GroupOf(monthKey, ss[i]) == g && ss[i].date == t.value
    ensures t.Some? ==> forall i :: 0 <= i < |ss| && GroupOf(monthKey, ss[i]) == g ==> ss[i].date <= t.value
  {
    if ss == [] then None
    else
      var init := ss[..|ss| - 1];
      var last := ss[|ss| - 1];
      var before := Latest(init, monthKey, g);
      assert forall i :: 0 <= i < |init| ==> init[i] == ss[i];
      if GroupOf(monthKey, last) != g then before
      else if before.Some? && before.value >= last.date then before
      else Some(last.date)
  }

  /** The date a group is ordered by. */
  function Rank(ss: seq<OrganizationStat>, monthKey: Option<int -> string>, g: Group): int
  {
    Latest(ss, monthKey, g).UnwrapOr(0)
  }

  /** The date a group is ordered by, as a ranking. */
  function RankOf(ss: seq<OrganizationStat>, monthKey: Option<int -> string>): Group -> int
  {
    g => Rank(ss, monthKey, g)
  }

  /** The grouped query of `get_daily` (`monthKey == None`, `n == 30`) and
      `get_monthly` (`n == 12`): the organization's counters of the
      category, grouped, and `ORDER BY date DESC LIMIT n` over the groups. */
  method Fetch(stats: map<Id, OrganizationStat>, org: Id, category: string, monthKey: Option<int -> string>, n: nat)
    returns (ss: seq<OrganizationStat>, gs: seq<Group>)
    ensures ss == FilteredRows(stats, org, category)
    ensures Ordering.TopRanked(Groups(ss, monthKey), RankOf(ss, monthKey), n, gs)
  {
    var ids := Ordering.SortIds(FilteredIds(stats, org, category));
    ss := RowsOf(stats, ids);
    gs := Ordering.TakeTop(Groups(ss, monthKey), RankOf(ss, monthKey), n);
  }

  /** Every daily group is keyed by a date, every monthly one by a month. */
  lemma GroupKeys(ss: seq<OrganizationStat>, monthKey: Option<int -> string>, gs: seq<Group>)
    requires forall i :: 0 <= i < |gs| ==> gs[i] in Groups(ss, monthKey)
    ensures monthKey.None? ==> forall i :: 0 <= i < |gs| ==> gs[i].0.At?
    ensures monthKey.Some? ==> forall i :: 0 <= i < |gs| ==> gs[i].0.InMonth?
  {
    forall i | 0 <= i < |gs| ensures gs[i].0.At? == monthKey.None? {
      var j :| 0 <= j < |ss| && GroupOf(monthKey, ss[j]) == gs[i];
    }
  }

  /** A group of a single row sums to that row's count: with the unique
      index on (organization, category, name, date) this is every daily
      group. */
  lemma {:induction false} GroupSumSingle(ss: seq<OrganizationStat>, monthKey: Option<int -> string>, k: nat)
    requires k < |ss|
    requires forall i :: 0 <= i < |ss| && i != k ==> GroupOf(monthKey, ss[i]) != GroupOf(monthKey, ss[k])
    ensures GroupSum(ss, monthKey, GroupOf(monthKey, ss[k])) == ss[k].count
  {
    var g := GroupOf(monthKey, ss[k]);
    var init := ss[..|ss| - 1];
    assert forall i :: 0 <= i < |init| ==> init[i] == ss[i];
    if k < |ss| - 1 {
      GroupSumSingle(init, monthKey, k);
    } else {
      assert GroupSum(init, monthKey, g) == 0;
    }
  }

  /** Under the limit nothing is cut: a category with at most `n` groups
      has all of them fetched. */
  lemma FewGroupsAllFetched(ss: seq<OrganizationStat>, monthKey: Option<int -> string>, n: nat, gs: seq<Group>, k: nat)
    requires Ordering.TopRanked(Groups(ss, monthKey), RankOf(ss, monthKey), n, gs)
    requires |Groups(ss, monthKey)| <= n && k < |ss|
    ensures GroupOf(monthKey, ss[k]) in gs
  {
    Ordering.FewAllTaken(Groups(ss, monthKey), RankOf(ss, monthKey), n, gs);
  }

  /** A group is cut only for a group no older than it: every fetched group
      has a row at least as recent as every row of an unfetched one. */
  lemma CutGroupsAreOlder(ss: seq<OrganizationStat>, monthKey: Option<int -> string>, n: nat, gs: seq<Group>, k: nat, j: nat)
    requires Ordering.TopRanked(Groups(ss, monthKey), RankOf(ss, monthKey), n, gs)
    requires k < |ss| && GroupOf(monthKey, ss[k]) !in gs && j < |gs|
    ensures exists i :: 0 <= i < |ss| && GroupOf(monthKey, ss[i]) == gs[j] && ss[k].date <= ss[i].date
  {
    var h := GroupOf(monthKey, ss[k]);
    assert h in Groups(ss, monthKey);
    assert RankOf(ss, monthKey)(h) <= RankOf(ss, monthKey)(gs[j]);
    var i :| 0 <= i < |ss| && GroupOf(monthKey, ss[i]) == gs[j] && ss[i].date == Latest(ss, monthKey, gs[j]).value;
  }

  /** The rows `get_daily` buckets: each fetched group with its sum, keyed by
      its day. */
  function DailyRows(ss: seq<OrganizationStat>, gs: seq<Group>): (rows: seq<Row<int>>)
    requires forall i :: 0 <= i < |gs| ==> gs[i].0.At?
    ensures |rows| == |gs|
  {
    seq(|gs|, i requires 0 <= i < |gs| => Row(DayOf(gs[i].0.date), gs[i].1, GroupSum(ss, None, gs[i])))
  }

  /** The rows `get_monthly` buckets: each fetched group with its sum, keyed
      by its month. */
  function MonthlyRows(ss: seq<OrganizationStat>, monthKey: int -> string, gs: seq<Group>): (rows: seq<Row<string>>)
    requires forall i :: 0 <= i < |gs| ==> gs[i].0.InMonth?
    ensures |rows| == |gs|
  {
    seq(|gs|, i requires 0 <= i < |gs| => Row(gs[i].0.month, gs[i].1, GroupSum(ss, Some(monthKey), gs[i])))
  }

  datatype UsageQuery = UsageQuery(grouping: string, category: Option<string>)

  datatype Usage = Usage(dataset: seq<map<string, Json>>, names: set<string>)

  /** The date formats, which the model does not compute: captions of a day
      ("%b %d", "%b %Y") and the "%Y-%m-01" key of a day's month. */
  datatype Sources = Sources(
    dayLabel: int -> string,
    monthLabel: int -> string,
    monthKey: int -> string)

  /** `get_stats`: members only; the category defaults to "event"; the
      grouping is "daily" or "monthly". `today` is the current day number. */
  method GetStats(db: Database, uid: Id, org: Id, q: UsageQuery, today: int, src: Sources) returns (r: Result<Usage>)
    ensures uid !in db.users ==> r == Err(LoginRequired)
    ensures uid in db.users && (org !in db.organizations || (uid, org) !in db.memberships) ==> r == Err(NotFound)
    ensures uid in db.users && org in db.organizations && (uid, org) in db.memberships ==>
              (q.grouping != "daily" && q.grouping != "monthly" <==> r == Err(New("Invalid grouping")))
    ensures r.Ok? && q.grouping == "daily" ==>
              var ss := FilteredRows(db.organizationStats, org, q.category.UnwrapOr("event"));
              exists gs: seq<Group> ::
                && Ordering.TopRanked(Groups(ss, None), RankOf(ss, None), 30, gs)
                && (forall i :: 0 <= i < |gs| ==> gs[i].0.At?)
                && var rows := DailyRows(ss, gs);
                && r.value.names == Names(rows)
                && |r.value.dataset| == 30
                && forall i :: 0 <= i < 30 ==>
                     r.value.dataset[i] == Bucket(rows, today - 29 + i, src.dayLabel(today - 29 + i))
    ensures r.Ok? && q.grouping != "daily" ==>
              var ss := FilteredRows(db.organizationStats, org, q.category.UnwrapOr("event"));
              exists gs: seq<Group> ::
                && Ordering.TopRanked(Groups(ss, Some(src.monthKey)), RankOf(ss, Some(src.monthKey)), 12, gs)
                && (forall i :: 0 <= i < |gs| ==> gs[i].0.InMonth?)
                && var rows := MonthlyRows(ss, src.monthKey, gs);
                && r.value.names == Names(rows)
                && |r.value.dataset| == 12
                && forall i :: 0 <= i < 12 ==>
                     var day := today - 30 * (11 - i);
                     r.value.dataset[i] == Bucket(rows, src.monthKey(day), src.monthLabel(day))
  {
    var _ :- CurrentUser(db, uid);
    if org !in db.organizations || (uid, org) !in db.memberships {
      return Err(NotFound);
    }
    var category := q.category.UnwrapOr("event");
    if q.grouping == "daily" {
      var ss, gs := Fetch(db.organizationStats, org, category, None, 30);
      GroupKeys(ss, None, gs);
      var dataset, names := Daily(DailyRows(ss, gs), today, src.dayLabel);
      r := Ok(Usage(dataset, names));
    } else if q.grouping == "monthly" {
      var ss, gs := Fetch(db.organizationStats, org, category, Some(src.monthKey), 12);
      GroupKeys(ss, Some(src.monthKey), gs);
      var dataset, names := Monthly(MonthlyRows(ss, src.monthKey, gs), today, src.monthKey, src.monthLabel);
      r := Ok(Usage(dataset, names));
    } else {
      r := Err(New("Invalid grouping"));
    }
  }
}
