/**
 * The reports API (src/handlers/reports.rs): the paginated list of the
 * caller's reports, and bulk delete and resolve of the caller's reports.
 *
 * The list is ordered unseen first, then most recently seen first, then by
 * descending id, and is paginated by keyset: the cursor names the last
 * report of a page, and the next page holds the reports that come strictly
 * after it in that order.
 */
module Reports {
  import opened Wrappers
  import opened Store
  import Text
  import Ordering

  /** The position of a report in the listing order; also the pagination
      cursor, which the client receives as JSON. */
  datatype Cursor = Cursor(reportId: Id, seen: int, lastSeen: Time)

  function KeyOf(id: Id, r: Report): Cursor
  {
    Cursor(id, r.isSeen, r.lastSeen)
  }

  /** `ORDER BY is_seen ASC, last_seen DESC, project_report_id DESC`. */
  predicate Precedes(a: Cursor, b: Cursor)
  {
    a.seen < b.seen ||
    (a.seen == b.seen && (a.lastSeen > b.lastSeen || (a.lastSeen == b.lastSeen && a.reportId > b.reportId)))
  }

  lemma PrecedesIsTotal()
    ensures Ordering.StrictTotalOrder(Precedes)
  {
    forall a: Cursor, b: Cursor | a != b
      ensures Precedes(a, b) || Precedes(b, a)
    {
      if a.seen == b.seen && a.lastSeen == b.lastSeen {
        assert a.reportId != b.reportId;
      }
    }
  }

  /** The cursor condition of `list`: `is_seen > seen`, or the same
      `is_seen` and an earlier `last_seen`, or both the same and a smaller id.
      It keeps exactly the rows that come strictly after the cursor in the
      listing order. */
  function AfterCursor(row: Cursor, c: Cursor): (after: bool)
    ensures after <==> Precedes(c, row)
  {
    row.seen > c.seen ||
    (row.seen == c.seen && row.lastSeen < c.lastSeen) ||
    (row.seen == c.seen && row.lastSeen == c.lastSeen && row.reportId < c.reportId)
  }

  /** The rows in listing order. */
  ghost function Listed(rows: set<Cursor>): seq<Cursor>
  {
    PrecedesIsTotal();
    Ordering.Listing(rows, Precedes)
  }

  /** The query string of `list`. */
  datatype ListQuery = ListQuery(
    cursor: Option<string>,
    projectId: Option<Id>,
    term: Option<string>,
    resolved: Option<nat>)

  /** The environment joined to a report (a left join). */
  function EnvironmentOf(db: Database, r: Report): Option<Environment>
    reads db`environments
  {
    if r.environmentId.Some? && r.environmentId.value in db.environments
    then Some(db.environments[r.environmentId.value]) else None
  }

  /** The report belongs to a project of an organization `uid` is a member of. */
  predicate Owns(db: Database, uid: Id, r: Report)
    reads db
  {
    r.projectId in db.projects && (uid, db.projects[r.projectId].organizationId) in db.memberships
  }

  /** Every filter of `list` except the cursor; the term is matched with
      `LIKE '%term%'` against the title and the environment's name. */
  predicate Matches(db: Database, uid: Id, q: ListQuery, r: Report)
    reads db
  {
    Owns(db, uid, r) &&
    r.isResolved == q.resolved.UnwrapOr(0) &&
    (q.projectId.Some? ==> r.projectId == q.projectId.value) &&
    (q.term.Some? && q.term.value != [] ==>
       Text.Like(r.title, "%" + q.term.value + "%") ||
       (EnvironmentOf(db, r).Some? && Text.Like(EnvironmentOf(db, r).value.name, "%" + q.term.value + "%")))
  }

  /** The positions of the reports the query selects, before the cursor. */
  function Matching(db: Database, uid: Id, q: ListQuery): set<Cursor>
    reads db
  {
    set k | k in db.reports && Matches(db, uid, q, db.reports[k]) :: KeyOf(k, db.reports[k])
  }

  /** The rows after the cursor, if there is one. */
  function Remaining(rows: set<Cursor>, cursor: Option<Cursor>): set<Cursor>
  {
    if cursor.None? then rows else set k | k in rows && AfterCursor(k, cursor.value)
  }

  /** One entry of the response: the report, its environment and, when the
      list is not restricted to one project, its project. */
  datatype Summary = Summary(reportId: Id, report: Report, project: Option<Project>, env: Option<Environment>)

  function SummaryOf(db: Database, q: ListQuery, id: Id): Summary
    reads db
    requires id in db.reports
  {
    var r := db.reports[id];
    Summary(id, r,
      if q.projectId.None? && r.projectId in db.projects then Some(db.projects[r.projectId]) else None,
      EnvironmentOf(db, r))
  }

  /** Every selected position names a stored report. */
  lemma MatchingStored(db: Database, uid: Id, q: ListQuery, cursor: Option<Cursor>)
    ensures forall c :: c in Remaining(Matching(db, uid, q), cursor) ==> c.reportId in db.reports
  {
  }

  /** Listing stored positions yields stored positions. */
  lemma ListedStored(db: Database, rows: set<Cursor>)
    requires forall c :: c in rows ==> c.reportId in db.reports
    ensures forall i :: 0 <= i < |Listed(rows)| ==> Listed(rows)[i].reportId in db.reports
  {
    PrecedesIsTotal();
    Ordering.ListingProperties(rows, Precedes);
    forall i | 0 <= i < |Listed(rows)| ensures Listed(rows)[i].reportId in db.reports {
      assert Listed(rows)[i] in rows;
    }
  }

  /** The first page of `rows` (at most ten, in listing order) and, when more
      rows follow, the cursor of its last row. */
  method Page(db: Database, q: ListQuery, rows: set<Cursor>, encode: Cursor -> string)
    returns (reports: seq<Summary>, next: Option<string>)
    requires forall c :: c in rows ==> c.reportId in db.reports
    ensures var listing := Listed(rows);
      && |reports| == (if |listing| < 10 then |listing| else 10)
      && (forall i :: 0 <= i < |reports| ==>
            listing[i].reportId in db.reports && reports[i] == SummaryOf(db, q, listing[i].reportId))
      && (next.Some? <==> |listing| > 10)
      && (next.Some? ==> next.value == encode(listing[9]))
  {
    PrecedesIsTotal();
    var fetched := Ordering.TakeLeast(rows, 11, Precedes);
    ghost var listing := Listed(rows);
    ListedStored(db, rows);
    reports, next := [], None;
    var i := 0;
    while i < |fetched| && i < 10
      invariant 0 <= i <= |fetched| && i <= 10
      invariant |reports| == i
      invariant forall j :: 0 <= j < i ==>
                  listing[j].reportId in db.reports && reports[j] == SummaryOf(db, q, listing[j].reportId)
      invariant i > 0 ==> next == Some(encode(listing[i - 1]))
    {
      var key := fetched[i];
      assert key == listing[i];
      next := Some(encode(key));
      reports := reports + [SummaryOf(db, q, key.reportId)];
      i := i + 1;
    }
    if |fetched| < 11 {
      next := None;
    }
  }

  /** `list`. `decode` parses a cursor string (`None` when it does not parse)
      and `encode` prints one. */
  method List(db: Database, uid: Id, q: ListQuery, decode: string -> Option<Cursor>, encode: Cursor -> string)
    returns (reports: seq<Summary>, next: Option<string>)
    ensures var cursor := if q.cursor.Some? then decode(q.cursor.value) else None;
      var listing := Listed(Remaining(Matching(db, uid, q), cursor));
      && |reports| == (if |listing| < 10 then |listing| else 10)
      && (forall i :: 0 <= i < |reports| ==>
            listing[i].reportId in db.reports && reports[i] == SummaryOf(db, q, listing[i].reportId))
      && (next.Some? <==> |listing| > 10)
      && (next.Some? ==> next.value == encode(listing[9]))
  {
    var cursor := if q.cursor.Some? then decode(q.cursor.value) else None;
    MatchingStored(db, uid, q, cursor);
    reports, next := Page(db, q, Remaining(Matching(db, uid, q), cursor), encode);
  }

  /** The page after a cursor taken from the listing starts right after that
      row: following `next` neither repeats nor skips a report. */
  lemma {:induction false} NextPageContinues(rows: set<Cursor>, i: nat)
    requires i < |Listed(rows)|
    ensures Listed(Remaining(rows, Some(Listed(rows)[i]))) == Listed(rows)[i + 1..]
  {
    PrecedesIsTotal();
    var listing := Ordering.Listing(rows, Precedes);
    Ordering.ListingSuffix(rows, Precedes, i);
    assert Remaining(rows, Some(listing[i])) == Ordering.Above(rows, Precedes, listing[i]);
  }

  /** Following `next`: when the cursor string of a listed row reads back as
      that row, the query repeated with it lists exactly the rows after it. */
  lemma NextQueryContinues(db: Database, uid: Id, q: ListQuery, decode: string -> Option<Cursor>,
                           encode: Cursor -> string, i: nat)
    requires i < |Listed(Matching(db, uid, q))|
    requires decode(encode(Listed(Matching(db, uid, q))[i])) == Some(Listed(Matching(db, uid, q))[i])
    ensures var q' := q.(cursor := Some(encode(Listed(Matching(db, uid, q))[i])));
      Listed(Remaining(Matching(db, uid, q'), decode(q'.cursor.value))) == Listed(Matching(db, uid, q))[i + 1..]
  {
    var q' := q.(cursor := Some(encode(Listed(Matching(db, uid, q))[i])));
    assert Matching(db, uid, q') == Matching(db, uid, q);
    NextPageContinues(Matching(db, uid, q), i);
  }

  /** The caller's reports among the requested ids. */
  function Owned(db: Database, uid: Id, ids: seq<Id>): set<Id>
    reads db
  {
    set k | k in db.reports && k in ids && Owns(db, uid, db.reports[k])
  }

  /** `delete`: removes the requested reports the caller owns and counts them. */
  method Delete(db: Database, uid: Id, ids: seq<Id>) returns (deleted: nat)
    modifies db`reports
    ensures deleted == |old(Owned(db, uid, ids))|
    ensures db.reports == map k | k in old(db.reports) && k !in old(Owned(db, uid, ids)) :: old(db.reports)[k]
  {
    var owned := Owned(db, uid, ids);
    db.reports := map k | k in db.reports && k !in owned :: db.reports[k];
    deleted := |owned|;
  }

  /** `resolve`: marks the requested reports the caller owns as resolved
      and counts them. */
  method Resolve(db: Database, uid: Id, ids: seq<Id>) returns (resolved: nat)
    modifies db`reports
    ensures resolved == |old(Owned(db, uid, ids))|
    ensures db.reports.Keys == old(db.reports).Keys
    ensures forall k :: k in db.reports ==>
              db.reports[k] == if k in old(Owned(db, uid, ids)) then old(db.reports)[k].(isResolved := 1)
                               else old(db.reports)[k]
  {
    var owned := Owned(db, uid, ids);
    db.reports := map k | k in db.reports :: if k in owned then db.reports[k].(isResolved := 1) else db.reports[k];
    resolved := |owned|;
  }
}
