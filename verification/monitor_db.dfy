/** The `monitor_event_groups` table of `monitor/manage_monitor_db.py`,
    held in memory: rows in insertion order, the next AUTOINCREMENT id,
    insert-or-ignore on the unique `event_group_id`, the query for pending
    groups ordered by arrival, and the update that marks a group done. */
module MonitorDb {
  import opened PyJson

  datatype Row = Row(
    id: nat,
    monitorId: string,
    eventGroupId: string,
    metadata: Option<string>,
    receivedAt: string,
    processed: int)

  /** The dict `fetch_unprocessed_event_groups` returns for one row. */
  datatype Pending = Pending(monitorId: string, eventGroupId: string, metadata: Option<string>, receivedAt: string)

  predicate HasGroup(rows: seq<Row>, g: string)
  {
    exists i :: 0 <= i < |rows| && rows[i].eventGroupId == g
  }

  /** The UNIQUE constraint on `event_group_id`. */
  predicate UniqueGroups(rows: seq<Row>)
  {
    forall i, j :: 0 <= i < j < |rows| ==> rows[i].eventGroupId != rows[j].eventGroupId
  }

  /** The metadata column: the JSON text of a truthy dict, NULL otherwise. */
  function StoredMetadata(metadata: Json, dumps: Json -> string): (r: Option<string>)
    ensures r.None? <==> !Truthy(metadata)
    ensures r.Some? ==> r.value == dumps(metadata)
  {
    if Truthy(metadata) then Some(dumps(metadata)) else None
  }

  /** `INSERT OR IGNORE`: a row whose group is already stored is dropped. */
  function InsertOrIgnore(rows: seq<Row>, row: Row): (r: seq<Row>)
    ensures HasGroup(rows, row.eventGroupId) ==> r == rows
    ensures !HasGroup(rows, row.eventGroupId) ==> r == rows + [row]
    ensures UniqueGroups(rows) ==> UniqueGroups(r)
  {
    if HasGroup(rows, row.eventGroupId) then rows else rows + [row]
  }

  /** Saving a group a second time, whatever its other columns, changes
      nothing: saving is idempotent. */
  lemma SaveIsIdempotent(rows: seq<Row>, first: Row, again: Row)
    requires again.eventGroupId == first.eventGroupId
    ensures InsertOrIgnore(InsertOrIgnore(rows, first), again) == InsertOrIgnore(rows, first)
  {
    var r := InsertOrIgnore(rows, first);
    if !HasGroup(rows, first.eventGroupId) {
      assert r[|r| - 1].eventGroupId == again.eventGroupId;
    }
  }

  /** `UPDATE ... SET processed = 1 WHERE event_group_id = g`, row by row. */
  function Marked(rows: seq<Row>, g: string): (r: seq<Row>)
    ensures |r| == |rows|
    ensures forall i :: 0 <= i < |rows| ==> r[i] == if rows[i].eventGroupId == g then rows[i].(processed := 1) else rows[i]
  {
    if rows == [] then []
    else
      var n := |rows| - 1;
      var last := if rows[n].eventGroupId == g then rows[n].(processed := 1) else rows[n];
      Marked(rows[..n], g) + [last]
  }

  /** Marking an unknown group changes nothing. */
  lemma MarkUnknownIsNoOp(rows: seq<Row>, g: string)
    requires !HasGroup(rows, g)
    ensures Marked(rows, g) == rows
  {
  }

  /** Lexicographic order of the `received_at` text, as SQLite's default
      collation compares it. */
  predicate LexLe(a: string, b: string)
  {
    if a == [] then true
    else if b == [] then false
    else if a[0] != b[0] then a[0] < b[0]
    else LexLe(a[1..], b[1..])
  }

  lemma {:induction false} LexLeTotal(a: string, b: string)
    ensures LexLe(a, b) || LexLe(b, a)
  {
    if a != [] && b != [] && a[0] == b[0] {
      LexLeTotal(a[1..], b[1..]);
    }
  }

  lemma {:induction false} LexLeTransitive(a: string, b: string, c: string)
    requires LexLe(a, b) && LexLe(b, c)
    ensures LexLe(a, c)
  {
    if a != [] && b != [] && c != [] && a[0] == b[0] && b[0] == c[0] {
      LexLeTransitive(a[1..], b[1..], c[1..]);
    }
  }

  predicate SortedByArrival(ps: seq<Pending>)
  {
    forall i, j :: 0 <= i < j < |ps| ==> LexLe(ps[i].receivedAt, ps[j].receivedAt)
  }

  function PendingOf(row: Row): Pending
  {
    Pending(row.monitorId, row.eventGroupId, row.metadata, row.receivedAt)
  }

  /** The pending rows, in table order. */
  function Unprocessed(rows: seq<Row>): (r: seq<Pending>)
    ensures forall p :: p in r <==> exists i :: 0 <= i < |rows| && rows[i].processed == 0 && p == PendingOf(rows[i])
  {
    if rows == [] then []
    else
      var n := |rows| - 1;
      var before := Unprocessed(rows[..n]);
      assert forall i :: 0 <= i < n ==> rows[..n][i] == rows[i];
      if rows[n].processed == 0 then before + [PendingOf(rows[n])] else before
  }

  /** Puts `p` after every entry that arrived no later than it. */
  function Insert(ps: seq<Pending>, p: Pending): (r: seq<Pending>)
    ensures multiset(r) == multiset(ps) + multiset{p}
    ensures SortedByArrival(ps) ==> SortedByArrival(r)
  {
    if ps == [] then [p]
    else if !LexLe(ps[0].receivedAt, p.receivedAt) then
      LexLeTotal(ps[0].receivedAt, p.receivedAt);
      InsertBeforeSmallest(ps, p);
      [p] + ps
    else
      var rest := Insert(ps[1..], p);
      assert ps == [ps[0]] + ps[1..];
      InsertAfterHead(ps, p, rest);
      [ps[0]] + rest
  }

  lemma InsertBeforeSmallest(ps: seq<Pending>, p: Pending)
    requires ps != [] && LexLe(p.receivedAt, ps[0].receivedAt)
    ensures SortedByArrival(ps) ==> SortedByArrival([p] + ps)
  {
    if SortedByArrival(ps) {
      forall j | 0 < j < |ps| + 1
        ensures LexLe(p.receivedAt, ([p] + ps)[j].receivedAt)
      {
        if j > 1 {
          LexLeTransitive(p.receivedAt, ps[0].receivedAt, ps[j - 1].receivedAt);
        }
      }
    }
  }

  lemma InsertAfterHead(ps: seq<Pending>, p: Pending, rest: seq<Pending>)
    requires ps != [] && LexLe(ps[0].receivedAt, p.receivedAt)
    requires multiset(rest) == multiset(ps[1..]) + multiset{p}
    requires SortedByArrival(ps[1..]) ==> SortedByArrival(rest)
    ensures SortedByArrival(ps) ==> SortedByArrival([ps[0]] + rest)
  {
    if SortedByArrival(ps) {
      assert SortedByArrival(ps[1..]);
      forall j | 0 <= j < |rest|
        ensures LexLe(ps[0].receivedAt, rest[j].receivedAt)
      {
        assert rest[j] in multiset(rest);
        if rest[j] != p {
          assert rest[j] in multiset(ps[1..]);
          var k :| 0 <= k < |ps[1..]| && ps[1..][k] == rest[j];
          assert ps[k + 1] == rest[j];
        }
      }
    }
  }

  /** `SELECT ... WHERE processed = 0 ORDER BY received_at ASC`. Rows with
      equal `received_at` come out in table order. */
  function Fetch(rows: seq<Row>): (r: seq<Pending>)
  {
    if rows == [] then []
    else
      var n := |rows| - 1;
      if rows[n].processed == 0 then Insert(Fetch(rows[..n]), PendingOf(rows[n])) else Fetch(rows[..n])
  }

  /** The query returns exactly the pending rows, each once, in ascending
      order of arrival. */
  lemma {:induction false} FetchIsSortedPermutation(rows: seq<Row>)
    ensures SortedByArrival(Fetch(rows))
    ensures multiset(Fetch(rows)) == multiset(Unprocessed(rows))
  {
    if rows != [] {
      FetchIsSortedPermutation(rows[..|rows| - 1]);
    }
  }

  /** Once a group is marked, the query no longer returns it. */
  lemma MarkedGroupIsNotFetched(rows: seq<Row>, g: string, p: Pending)
    requires p in Fetch(Marked(rows, g))
    ensures p.eventGroupId != g
  {
    FetchIsSortedPermutation(Marked(rows, g));
    assert p in multiset(Unprocessed(Marked(rows, g)));
  }

  /** A newly saved group is pending and is returned by the query. */
  lemma SavedGroupIsFetched(rows: seq<Row>, row: Row)
    requires !HasGroup(rows, row.eventGroupId) && row.processed == 0
    ensures PendingOf(row) in Fetch(InsertOrIgnore(rows, row))
  {
    var r := InsertOrIgnore(rows, row);
    assert r[|r| - 1] == row;
    FetchIsSortedPermutation(r);
    assert PendingOf(row) in multiset(Unprocessed(r));
  }

  /** Line 91: metadata longer than 50 characters shows as its first 50
      and `...`; other metadata as it is; NULL as the empty string. */
  function DisplayMetadata(metadata: Option<string>): (r: string)
    ensures metadata.None? ==> r == ""
    ensures metadata.Some? && |metadata.value| <= 50 ==> r == metadata.value
    ensures metadata.Some? && |metadata.value| > 50 ==> |r| == 53 && r[..50] == metadata.value[..50] && r[50..] == "..."
    ensures |r| <= 53
  {
    match metadata
    case None => ""
    case Some(s) => if |s| > 50 then s[..50] + "..." else s
  }

  class EventGroupTable {
    var rows: seq<Row>
    var nextId: nat

    /** Group ids are unique and every row id was handed out before `nextId`. */
    ghost predicate Valid()
      reads this
    {
      && UniqueGroups(rows)
      && 0 < nextId
      && (forall i :: 0 <= i < |rows| ==> 0 < rows[i].id < nextId)
      && (forall i, j :: 0 <= i < j < |rows| ==> rows[i].id < rows[j].id)
    }

    /** `init_db`: an empty table. */
    constructor ()
      ensures Valid() && rows == [] && nextId == 1
    {
      rows, nextId := [], 1;
    }

    /** `save_event_group`, with `receivedAt` the UTC time text the source
        reads from the clock and `dumps` standing for `json.dumps`. */
    method SaveEventGroup(monitorId: string, eventGroupId: string, metadata: Json, receivedAt: string,
                          dumps: Json -> string)
      modifies this
      requires Valid()
      ensures Valid()
      ensures rows == InsertOrIgnore(old(rows),
                Row(old(nextId), monitorId, eventGroupId, StoredMetadata(metadata, dumps), receivedAt, 0))
      ensures nextId == if HasGroup(old(rows), eventGroupId) then old(nextId) else old(nextId) + 1
    {
      var row := Row(nextId, monitorId, eventGroupId, StoredMetadata(metadata, dumps), receivedAt, 0);
      if !HasGroup(rows, eventGroupId) {
        rows := rows + [row];
        nextId := nextId + 1;
      }
    }

    /** `fetch_unprocessed_event_groups` */
    method FetchUnprocessedEventGroups() returns (r: seq<Pending>)
      ensures SortedByArrival(r)
      ensures multiset(r) == multiset(Unprocessed(rows))
    {
      r := Fetch(rows);
      FetchIsSortedPermutation(rows);
    }

    /** `mark_event_group_processed` */
    method MarkEventGroupProcessed(g: string)
      modifies this
      requires Valid()
      ensures Valid()
      ensures rows == Marked(old(rows), g) && nextId == old(nextId)
    {
      rows := Marked(rows, g);
    }
  }
}
