/**
 * The persistent event queue: one SQLite table `events(_id, data,
 * created_at, automatic_data)` with an AUTOINCREMENT key.
 *
 * The table is a sequence of records in ascending id order plus the next id
 * the AUTOINCREMENT counter will hand out and whether the database file
 * exists.  Each operation has a pure specification function over `DbState`;
 * the `Store` class mutates its fields in place and is proved to follow
 * those functions.  Storage faults, free space and the clock are inputs.
 */
module EventStore {
  import opened Wrappers
  import Json
  import opened JavaInt

  /** Result codes of `addJSON`. */
  const DB_UPDATE_ERROR: int := -1
  const DB_OUT_OF_MEMORY_ERROR: int := -2
  const DB_UNDEFINED_CODE: int := -3

  /** At most this many rows are read for one upload. */
  const PAGE_LIMIT: nat := 50

  /** A row's `data` column: JSON text that parses, or text that does not. */
  datatype Payload = Parsed(event: Json.Value) | Unreadable

  datatype Record = Record(id: nat, data: Payload, createdAt: int, automatic: bool)

  /** What the file system reports about the database file. */
  datatype Disk = Disk(usableSpace: int, fileLength: int)

  /** The whole persistent state: table rows, AUTOINCREMENT counter, file presence. */
  datatype DbState = DbState(rows: seq<Record>, nextId: nat, fileExists: bool)

  /**
   * One page read for upload: the id of the last row of the page, the rows
   * of the page that decoded, and the number of rows matching the filter.
   */
  datatype Batch = Batch(lastId: nat, events: seq<Json.Value>, count: nat)

  /** The state after the database file is deleted: no rows, counter reset. */
  const Deleted: DbState := DbState([], 1, false)

  predicate IdsAscending(rows: seq<Record>) {
    forall i, j :: 0 <= i < j < |rows| ==> rows[i].id < rows[j].id
  }

  /** Ids are positive, ascending and below the counter; no file means no rows. */
  predicate WellFormed(t: DbState) {
    && IdsAscending(t.rows)
    && t.nextId >= 1
    && (forall r :: r in t.rows ==> 1 <= r.id < t.nextId)
    && (!t.fileExists ==> t.rows == [] && t.nextId == 1)
  }

  // ---------------------------------------------------------------------
  // Filtering

  /** The rows of `rows` that satisfy `keep`, in their original order. */
  function Where(rows: seq<Record>, keep: Record -> bool): (r: seq<Record>)
    ensures |r| <= |rows|
    ensures forall x :: x in r <==> x in rows && keep(x)
    ensures IdsAscending(rows) ==> IdsAscending(r)
  {
    if rows == [] then []
    else
      var rest := Where(rows[1..], keep);
      assert IdsAscending(rows) ==> IdsAscending([rows[0]] + rest) by {
        if IdsAscending(rows) {
          forall x | x in rest ensures rows[0].id < x.id {
            var k :| 0 <= k < |rows[1..]| && rows[1..][k] == x;
            assert rows[k + 1] == x;
          }
          ConsAscending(rows[0], rest);
        }
      }
      if keep(rows[0]) then [rows[0]] + rest else rest
  }

  lemma ConsAscending(x: Record, s: seq<Record>)
    requires IdsAscending(s) && forall y :: y in s ==> x.id < y.id
    ensures IdsAscending([x] + s)
  {
    var r := [x] + s;
    forall i, j | 0 <= i < j < |r| ensures r[i].id < r[j].id {
      assert r[j] == s[j - 1] && s[j - 1] in s;
      if i > 0 {
        assert r[i] == s[i - 1];
      }
    }
  }

  /** Rows read when uploading: all rows, or only the non-automatic ones. */
  function MatchFilter(includeAutomatic: bool): Record -> bool {
    (r: Record) => includeAutomatic || !r.automatic
  }

  /** The rows the upload query selects, in id order. */
  function Matching(rows: seq<Record>, includeAutomatic: bool): (m: seq<Record>)
    ensures forall x :: x in m <==> x in rows && (includeAutomatic || !x.automatic)
    ensures IdsAscending(rows) ==> IdsAscending(m)
  {
    Where(rows, MatchFilter(includeAutomatic))
  }

  // ---------------------------------------------------------------------
  // Ordering by created_at (the time index breaks ties by row id)

  /** `a` comes no later than `b` in `ORDER BY created_at` over the time index. */
  predicate Before(a: Record, b: Record) {
    a.createdAt < b.createdAt || (a.createdAt == b.createdAt && a.id <= b.id)
  }

  predicate SortedByTime(s: seq<Record>) {
    forall i, j :: 0 <= i < j < |s| ==> Before(s[i], s[j])
  }

  function Insert(x: Record, s: seq<Record>): (r: seq<Record>)
    ensures multiset(r) == multiset(s) + multiset{x}
    ensures |r| == |s| + 1
  {
    if s == [] || Before(x, s[0]) then [x] + s
    else
      assert s == [s[0]] + s[1..];
      [s[0]] + Insert(x, s[1..])
  }

  /** The rows in the order the time index returns them. */
  function SortByTime(s: seq<Record>): (r: seq<Record>)
    ensures multiset(r) == multiset(s)
    ensures |r| == |s|
  {
    if s == [] then []
    else
      assert s == [s[0]] + s[1..];
      Insert(s[0], SortByTime(s[1..]))
  }

  lemma {:induction false} InsertSorted(x: Record, s: seq<Record>)
    requires SortedByTime(s)
    ensures SortedByTime(Insert(x, s))
  {
    if s == [] || Before(x, s[0]) {
      forall j | 1 <= j < |s| + 1 ensures Before(x, ([x] + s)[j]) {
        assert Before(s[0], s[j - 1]);
      }
    } else {
      InsertSorted(x, s[1..]);
      var tail := Insert(x, s[1..]);
      forall j | 0 <= j < |tail| ensures Before(s[0], tail[j]) {
        assert tail[j] in multiset(tail);
        assert tail[j] in multiset(s[1..]) + multiset{x};
        if tail[j] in multiset(s[1..]) {
          var k :| 0 <= k < |s[1..]| && s[1..][k] == tail[j];
          assert Before(s[0], s[k + 1]);
        }
      }
    }
  }

  /** The page order really is ascending created_at (then id), and loses or adds no row. */
  lemma {:induction false} SortByTimeSorted(s: seq<Record>)
    ensures SortedByTime(SortByTime(s))
  {
    if s != [] {
      SortByTimeSorted(s[1..]);
      InsertSorted(s[0], SortByTime(s[1..]));
    }
  }

  /** Rows already in time order come back unchanged. */
  lemma {:induction false} SortByTimeOfSorted(s: seq<Record>)
    requires SortedByTime(s)
    ensures SortByTime(s) == s
  {
    if s != [] {
      SortByTimeOfSorted(s[1..]);
      assert s == [s[0]] + s[1..];
    }
  }

  // ---------------------------------------------------------------------
  // Reading one page

  /** The rows the paged query returns: the oldest PAGE_LIMIT matching rows. */
  function Page(rows: seq<Record>, includeAutomatic: bool): (p: seq<Record>)
    ensures |p| == Min(PAGE_LIMIT, |Matching(rows, includeAutomatic)|)
    ensures SortedByTime(p)
    ensures forall x :: x in p ==> x in rows && MatchFilter(includeAutomatic)(x)
  {
    var sorted := SortByTime(Matching(rows, includeAutomatic));
    SortByTimeSorted(Matching(rows, includeAutomatic));
    var p := sorted[..Min(PAGE_LIMIT, |sorted|)];
    assert forall x :: x in p ==> x in multiset(sorted);
    p
  }

  /**
   * The page is the oldest matching rows: no row is read twice, and every
   * matching row left out of the page comes after every row in it.
   */
  lemma PageIsOldest(rows: seq<Record>, includeAutomatic: bool)
    ensures var p := Page(rows, includeAutomatic);
            var m := Matching(rows, includeAutomatic);
            && multiset(p) <= multiset(m)
            && forall x, y :: x in p && y in m && y !in p ==> Before(x, y)
  {
    var m := Matching(rows, includeAutomatic);
    var sorted := SortByTime(m);
    SortByTimeSorted(m);
    var n := Min(PAGE_LIMIT, |sorted|);
    assert sorted == sorted[..n] + sorted[n..];
    assert multiset(sorted) == multiset(sorted[..n]) + multiset(sorted[n..]);
    OldestFirst(sorted, n, m);
  }

  /** A prefix of a time-ordered permutation comes before every row it leaves out. */
  lemma OldestFirst(sorted: seq<Record>, n: nat, m: seq<Record>)
    requires SortedByTime(sorted) && multiset(sorted) == multiset(m) && n <= |sorted|
    ensures forall x, y :: x in sorted[..n] && y in m && y !in sorted[..n] ==> Before(x, y)
  {
    forall x, y | x in sorted[..n] && y in m && y !in sorted[..n] ensures Before(x, y) {
      var i :| 0 <= i < n && sorted[..n][i] == x;
      assert y in multiset(sorted);
      var j :| 0 <= j < |sorted| && sorted[j] == y;
      assert forall k :: 0 <= k < n ==> sorted[..n][k] == sorted[k];
    }
  }

  /** The events of the rows whose data parses, in page order. */
  function Decoded(page: seq<Record>): (r: seq<Json.Value>)
    ensures |r| <= |page|
    ensures (forall x :: x in page ==> x.data.Parsed?) ==> |r| == |page|
    ensures (exists x :: x in page && x.data.Parsed?) <==> |r| > 0
  {
    if page == [] then []
    else
      var init := page[..|page| - 1];
      var last := page[|page| - 1];
      assert forall x :: x in init ==> x in page;
      assert forall x :: x in page ==> x == last || x in init;
      Decoded(init) + (if last.data.Parsed? then [last.data.event] else [])
  }

  /** Exactly the events of the rows whose data parses. */
  lemma {:induction false} DecodedEvents(page: seq<Record>)
    ensures forall e :: e in Decoded(page) <==> exists x :: x in page && x.data == Parsed(e)
  {
    if page != [] {
      var init := page[..|page| - 1];
      var last := page[|page| - 1];
      DecodedEvents(init);
      assert page == init + [last];
      assert forall x :: x in page <==> x == last || x in init;
    }
  }

  /** Decoding a page is decoding its parts in order: the events keep the page order. */
  lemma {:induction false} DecodedAppend(a: seq<Record>, b: seq<Record>)
    ensures Decoded(a + b) == Decoded(a) + Decoded(b)
  {
    if b != [] {
      var init := b[..|b| - 1];
      assert (a + b)[..|a + b| - 1] == a + init;
      assert (a + b)[|a + b| - 1] == b[|b| - 1];
      DecodedAppend(a, init);
    } else {
      assert a + b == a;
    }
  }

  /** A single row decodes to its event, or to nothing when its data does not parse. */
  lemma DecodedSingle(x: Record)
    ensures Decoded([x]) == if x.data.Parsed? then [x.data.event] else []
  {
    assert [x][..0] == [];
  }

  /**
   * `generateDataString`: the batch for the next upload, or None when the
   * query fails or no row of the page decodes.
   */
  function ReadBatch(rows: seq<Record>, includeAutomatic: bool, fault: bool): (b: Option<Batch>)
    ensures fault ==> b.None?
    ensures Matching(rows, includeAutomatic) == [] ==> b.None?
    ensures b.Some? ==> 1 <= |b.value.events| <= PAGE_LIMIT
    ensures b.Some? ==> b.value.count == |Matching(rows, includeAutomatic)| >= |b.value.events|
    ensures b.Some? ==> exists x :: x in rows && x.id == b.value.lastId && MatchFilter(includeAutomatic)(x)
  {
    if fault then None
    else
      var page := Page(rows, includeAutomatic);
      var events := Decoded(page);
      if page == [] || events == [] then None
      else
        assert page[|page| - 1] in page;
        Some(Batch(page[|page| - 1].id, events, |Matching(rows, includeAutomatic)|))
  }

  /**
   * A batch is read exactly when the query succeeds and some row of the page
   * parses; it carries the id of the page's last row and the page's parsed
   * events in page order.
   */
  lemma ReadBatchOfPage(rows: seq<Record>, includeAutomatic: bool, fault: bool)
    ensures var b := ReadBatch(rows, includeAutomatic, fault);
            var p := Page(rows, includeAutomatic);
            && (b.Some? <==> !fault && exists x :: x in p && x.data.Parsed?)
            && (b.Some? ==> b.value.lastId == p[|p| - 1].id && b.value.events == Decoded(p))
  {
  }

  /**
   * The cursor loop of `generateDataString` over the rows of a page:
   * remembers the id of the last row and collects the rows that decode.
   */
  method CollectPage(page: seq<Record>) returns (lastId: Option<nat>, events: seq<Json.Value>)
    ensures lastId == if page == [] then None else Some(page[|page| - 1].id)
    ensures events == Decoded(page)
  {
    lastId := None;
    events := [];
    var i := 0;
    while i < |page|
      invariant 0 <= i <= |page|
      invariant lastId == if i == |page| && page != [] then Some(page[|page| - 1].id) else None
      invariant events == Decoded(page[..i])
    {
      if i == |page| - 1 {
        lastId := Some(page[i].id);
      }
      assert page[..i + 1][..i] == page[..i];
      if page[i].data.Parsed? {
        events := events + [page[i].data.event];
      }
      i := i + 1;
    }
    assert page[..i] == page;
  }

  // ---------------------------------------------------------------------
  // Writing

  /** Whether there is room to store more events. */
  function BelowMemThreshold(fileExists: bool, disk: Disk, minimumDatabaseLimit: int): (ok: bool)
    ensures !fileExists ==> ok
    ensures fileExists ==>
      (ok <==> disk.fileLength <= disk.usableSpace || disk.fileLength <= minimumDatabaseLimit)
  {
    !fileExists || Max(disk.usableSpace, minimumDatabaseLimit) >= disk.fileLength
  }

  /** `addJSON`: the new state and the code returned. */
  function Add(t: DbState, event: Json.Value, automatic: bool, now: int,
               disk: Disk, minimumDatabaseLimit: int, fault: bool): (res: (DbState, int))
    requires WellFormed(t)
    ensures WellFormed(res.0)
    ensures !BelowMemThreshold(t.fileExists, disk, minimumDatabaseLimit) ==> res == (t, DB_OUT_OF_MEMORY_ERROR)
    ensures BelowMemThreshold(t.fileExists, disk, minimumDatabaseLimit) && fault ==> res == (Deleted, DB_UPDATE_ERROR)
    ensures BelowMemThreshold(t.fileExists, disk, minimumDatabaseLimit) && !fault ==>
      && res.0.rows == t.rows + [Record(t.nextId, Parsed(event), now, automatic)]
      && res.1 == |res.0.rows| >= 1
  {
    if !BelowMemThreshold(t.fileExists, disk, minimumDatabaseLimit) then (t, DB_OUT_OF_MEMORY_ERROR)
    else if fault then (Deleted, DB_UPDATE_ERROR)
    else
      var rows := t.rows + [Record(t.nextId, Parsed(event), now, automatic)];
      (DbState(rows, t.nextId + 1, true), |rows|)
  }

  /** A write that succeeds keeps the counter and leaves the rows `keep` selects. */
  function Delete(t: DbState, keep: Record -> bool, fault: bool): (u: DbState)
    requires WellFormed(t)
    ensures WellFormed(u)
    ensures fault ==> u == Deleted
    ensures !fault ==> u.nextId == t.nextId && u.fileExists
    ensures !fault ==> forall x :: x in u.rows <==> x in t.rows && keep(x)
  {
    if fault then Deleted else DbState(Where(t.rows, keep), t.nextId, true)
  }

  /** Rows kept by `cleanupEvents(lastId, includeAutomatic)`. */
  function AfterWatermark(lastId: int, includeAutomatic: bool): Record -> bool {
    (r: Record) => !(r.id <= lastId && (includeAutomatic || !r.automatic))
  }

  /** Rows kept by `cleanupEvents(time)`. */
  function NewerThan(time: int): Record -> bool {
    (r: Record) => r.createdAt > time
  }

  /** Rows kept by `cleanupAutomaticEvents`. */
  function NotAutomatic(): Record -> bool {
    (r: Record) => !r.automatic
  }

  /** `cleanupEvents(lastId, includeAutomatic)`. */
  function DeleteUpTo(t: DbState, lastId: int, includeAutomatic: bool, fault: bool): (u: DbState)
    requires WellFormed(t)
    ensures WellFormed(u)
    ensures fault ==> u == Deleted
    ensures !fault ==> u.nextId == t.nextId && u.fileExists
    ensures !fault ==> forall x :: x in u.rows <==> x in t.rows && !(x.id <= lastId && (includeAutomatic || !x.automatic))
  {
    Delete(t, AfterWatermark(lastId, includeAutomatic), fault)
  }

  /** `cleanupEvents(time)`. */
  function DeleteOlder(t: DbState, time: int, fault: bool): (u: DbState)
    requires WellFormed(t)
    ensures WellFormed(u)
    ensures fault ==> u == Deleted
    ensures !fault ==> u.nextId == t.nextId && u.fileExists
    ensures !fault ==> forall x :: x in u.rows <==> x in t.rows && x.createdAt > time
  {
    Delete(t, NewerThan(time), fault)
  }

  /** `cleanupAllEvents`. */
  function DeleteAll(t: DbState, fault: bool): (u: DbState)
    requires WellFormed(t)
    ensures WellFormed(u)
    ensures u.rows == []
    ensures fault ==> u == Deleted
    ensures !fault ==> u.nextId == t.nextId && u.fileExists
  {
    if fault then Deleted else DbState([], t.nextId, true)
  }

  /** `cleanupAutomaticEvents`. */
  function DeleteAutomatic(t: DbState, fault: bool): (u: DbState)
    requires WellFormed(t)
    ensures WellFormed(u)
    ensures fault ==> u == Deleted
    ensures !fault ==> u.nextId == t.nextId && u.fileExists
    ensures !fault ==> forall x :: x in u.rows <==> x in t.rows && !x.automatic
  {
    Delete(t, NotAutomatic(), fault)
  }

  // ---------------------------------------------------------------------
  // Properties of the specification

  /** `cleanupEvents(lastId, include)` removes exactly the matching rows with id <= lastId. */
  lemma DeleteUpToExactly(t: DbState, lastId: int, includeAutomatic: bool, x: Record)
    requires WellFormed(t) && x in t.rows
    ensures x !in DeleteUpTo(t, lastId, includeAutomatic, false).rows
            <==> x.id <= lastId && (includeAutomatic || !x.automatic)
    ensures DeleteUpTo(t, lastId, includeAutomatic, false).nextId == t.nextId
  {
  }

  /** `cleanupEvents(time)` removes exactly the rows created at or before `time`, of either origin. */
  lemma DeleteOlderExactly(t: DbState, time: int, x: Record)
    requires WellFormed(t) && x in t.rows
    ensures x !in DeleteOlder(t, time, false).rows <==> x.createdAt <= time
  {
  }

  /** `cleanupAutomaticEvents` removes the automatic rows and only those. */
  lemma DeleteAutomaticExactly(t: DbState, x: Record)
    requires WellFormed(t) && x in t.rows
    ensures x !in DeleteAutomatic(t, false).rows <==> x.automatic
  {
  }

  /** Every write leaves a subset of the rows it started from. */
  lemma DeleteShrinks(t: DbState, keep: Record -> bool, fault: bool)
    requires WellFormed(t)
    ensures forall x :: x in Delete(t, keep, fault).rows ==> x in t.rows
    ensures |Delete(t, keep, fault).rows| <= |t.rows|
  {
  }

  /** The row whose id the batch reports is removed when the batch is deleted. */
  lemma {:induction false} BatchDeletionShrinks(t: DbState, includeAutomatic: bool, fault: bool)
    requires WellFormed(t)
    requires ReadBatch(t.rows, includeAutomatic, false).Some?
    ensures |DeleteUpTo(t, ReadBatch(t.rows, includeAutomatic, false).value.lastId, includeAutomatic, fault).rows| < |t.rows|
  {
    var b := ReadBatch(t.rows, includeAutomatic, false).value;
    var x :| x in t.rows && x.id == b.lastId && MatchFilter(includeAutomatic)(x);
    var u := DeleteUpTo(t, b.lastId, includeAutomatic, fault);
    if !fault {
      WhereDrops(t.rows, AfterWatermark(b.lastId, includeAutomatic), x);
    }
  }

  /** Filtering out a row that is present makes the sequence strictly shorter. */
  lemma {:induction false} WhereDrops(rows: seq<Record>, keep: Record -> bool, x: Record)
    requires x in rows && !keep(x)
    ensures |Where(rows, keep)| < |rows|
  {
    if rows[0] != x {
      WhereDrops(rows[1..], keep, x);
    }
  }

  /** Rows that were stored in creation order. */
  predicate MonotoneClock(rows: seq<Record>) {
    forall i, j :: 0 <= i < j < |rows| ==> rows[i].createdAt <= rows[j].createdAt
  }

  lemma {:induction false} WhereMonotone(rows: seq<Record>, keep: Record -> bool)
    requires MonotoneClock(rows) && IdsAscending(rows)
    ensures MonotoneClock(Where(rows, keep))
  {
    if rows != [] {
      WhereMonotone(rows[1..], keep);
      var rest := Where(rows[1..], keep);
      forall x | x in rest ensures rows[0].createdAt <= x.createdAt {
        var k :| 0 <= k < |rows[1..]| && rows[1..][k] == x;
        assert rows[0].createdAt <= rows[k + 1].createdAt;
      }
    }
  }

  /** When rows were stored in creation order, the page is the oldest matching rows in id order. */
  lemma PageUnderMonotoneClock(t: DbState, includeAutomatic: bool)
    requires WellFormed(t) && MonotoneClock(t.rows)
    ensures var m := Matching(t.rows, includeAutomatic);
            Page(t.rows, includeAutomatic) == m[..Min(PAGE_LIMIT, |m|)]
  {
    var m := Matching(t.rows, includeAutomatic);
    WhereMonotone(t.rows, MatchFilter(includeAutomatic));
    assert SortedByTime(m);
    SortByTimeOfSorted(m);
  }

  /**
   * When rows were stored in creation order, deleting up to the batch's
   * last id removes exactly the rows of the page.
   */
  lemma BatchDeletesPageUnderMonotoneClock(t: DbState, includeAutomatic: bool, x: Record)
    requires WellFormed(t) && MonotoneClock(t.rows)
    requires ReadBatch(t.rows, includeAutomatic, false).Some?
    requires x in t.rows
    ensures x !in DeleteUpTo(t, ReadBatch(t.rows, includeAutomatic, false).value.lastId, includeAutomatic, false).rows
            <==> x in Page(t.rows, includeAutomatic)
  {
    var m := Matching(t.rows, includeAutomatic);
    var p := Page(t.rows, includeAutomatic);
    var lastId := ReadBatch(t.rows, includeAutomatic, false).value.lastId;
    assert 1 <= |p| && lastId == p[|p| - 1].id by {
      ReadBatchOfPage(t.rows, includeAutomatic, false);
    }
    assert p == m[..|p|] by {
      PageUnderMonotoneClock(t, includeAutomatic);
    }
    assert x !in DeleteUpTo(t, lastId, includeAutomatic, false).rows
           <==> x.id <= lastId && MatchFilter(includeAutomatic)(x);
    assert x in m <==> MatchFilter(includeAutomatic)(x);
    PrefixUpToLast(m, |p|, x);
  }

  /** In an id-ascending sequence, the rows of a prefix are those with an id up to its last one. */
  lemma PrefixUpToLast(m: seq<Record>, n: nat, x: Record)
    requires IdsAscending(m) && 1 <= n <= |m|
    ensures x in m ==> (x.id <= m[n - 1].id <==> x in m[..n])
  {
    if x in m {
      var i :| 0 <= i < |m| && m[i] == x;
      if i < n {
        assert m[..n][i] == x;
        assert i == n - 1 || m[i].id < m[n - 1].id;
      } else {
        assert forall j :: 0 <= j < n ==> m[..n][j].id <= m[n - 1].id < x.id;
      }
    }
  }

  // ---------------------------------------------------------------------
  // The adapter

  class Store {
    var rows: seq<Record>
    var nextId: nat
    var fileExists: bool
    const minimumDatabaseLimit: int

    function State(): DbState
      reads this
    {
      DbState(rows, nextId, fileExists)
    }

    ghost predicate Valid()
      reads this
    {
      WellFormed(State())
    }

    /** Opens the database that `initial` describes (possibly none yet). */
    constructor (initial: DbState, minimumDatabaseLimit: int)
      requires WellFormed(initial)
      ensures Valid() && State() == initial
      ensures this.minimumDatabaseLimit == minimumDatabaseLimit
    {
      rows, nextId, fileExists := initial.rows, initial.nextId, initial.fileExists;
      this.minimumDatabaseLimit := minimumDatabaseLimit;
    }

    method AddJSON(event: Json.Value, automatic: bool, now: int, disk: Disk, fault: bool)
      returns (code: int)
      requires Valid()
      modifies this
      ensures Valid()
      ensures (State(), code) == Add(old(State()), event, automatic, now, disk, minimumDatabaseLimit, fault)
    {
      if !BelowMemThreshold(fileExists, disk, minimumDatabaseLimit) {
        return DB_OUT_OF_MEMORY_ERROR;
      }
      if fault {
        DeleteDB();
        return DB_UPDATE_ERROR;
      }
      rows := rows + [Record(nextId, Parsed(event), now, automatic)];
      nextId := nextId + 1;
      fileExists := true;
      code := |rows|;
    }

    /** `cleanupEvents(lastId, includeAutomatic)`. */
    method CleanupUpTo(lastId: int, includeAutomatic: bool, fault: bool)
      requires Valid()
      modifies this
      ensures Valid()
      ensures State() == DeleteUpTo(old(State()), lastId, includeAutomatic, fault)
    {
      if fault {
        DeleteDB();
      } else {
        rows := Where(rows, AfterWatermark(lastId, includeAutomatic));
        fileExists := true;
      }
    }

    /** `cleanupEvents(time)`. */
    method CleanupOlderThan(time: int, fault: bool)
      requires Valid()
      modifies this
      ensures Valid()
      ensures State() == DeleteOlder(old(State()), time, fault)
    {
      if fault {
        DeleteDB();
      } else {
        rows := Where(rows, NewerThan(time));
        fileExists := true;
      }
    }

    /** `cleanupAllEvents`. */
    method CleanupAll(fault: bool)
      requires Valid()
      modifies this
      ensures Valid()
      ensures State() == DeleteAll(old(State()), fault)
    {
      if fault {
        DeleteDB();
      } else {
        rows := [];
        fileExists := true;
      }
    }

    /** `cleanupAutomaticEvents`. */
    method CleanupAutomatic(fault: bool)
      requires Valid()
      modifies this
      ensures Valid()
      ensures State() == DeleteAutomatic(old(State()), fault)
    {
      if fault {
        DeleteDB();
      } else {
        rows := Where(rows, NotAutomatic());
        fileExists := true;
      }
    }

    /** `deleteDB`: the file goes, and with it every row and the id counter. */
    method DeleteDB()
      modifies this
      ensures Valid()
      ensures State() == Deleted
    {
      rows, nextId, fileExists := [], 1, false;
    }

    /**
     * `generateDataString`.  Opening the database for reading creates the
     * file; a failing query leaves the rows as they were.
     */
    method GenerateDataString(includeAutomatic: bool, fault: bool) returns (b: Option<Batch>)
      requires Valid()
      modifies this
      ensures Valid()
      ensures State() == old(State()).(fileExists := true)
      ensures b == ReadBatch(old(rows), includeAutomatic, fault)
    {
      fileExists := true;
      if fault {
        return None;
      }
      var page := Page(rows, includeAutomatic);
      var lastId, events := CollectPage(page);
      if lastId.Some? && events != [] {
        b := Some(Batch(lastId.value, events, |Matching(rows, includeAutomatic)|));
      } else {
        b := None;
      }
    }
  }
}
