/** Reading a growing log page by page with the last GlobalID as cursor. */
module Cursor {
  import opened Common
  import opened Events
  import opened EventLog
  import opened MemStore

  /** A reader's position and everything it has handed on so far. */
  datatype Reader = Reader(lastID: nat, emitted: seq<Event>)

  const START := Reader(0, [])

  function Take(r: Reader, page: seq<Event>): Reader {
    Reader(NextID(r.lastID, page), r.emitted + page)
  }

  /** One page is fetched from each successive snapshot of the table. */
  function ReadPages(tables: seq<seq<Event>>, limit: int, t: Option<Uuid>): Reader {
    if tables == [] then START
    else
      var r := ReadPages(tables[..|tables| - 1], limit, t);
      Take(r, EventLog.FetchAfter(tables[|tables| - 1], r.lastID, limit, t))
  }

  lemma ReadPagesPush(tables: seq<seq<Event>>, rows: seq<Event>, limit: int, t: Option<Uuid>)
    ensures var r := ReadPages(tables, limit, t);
            ReadPages(tables + [rows], limit, t) == Take(r, EventLog.FetchAfter(rows, r.lastID, limit, t))
  {
    assert (tables + [rows])[..|tables|] == tables;
  }

  function Previous(tables: seq<seq<Event>>): seq<Event> {
    if |tables| < 2 then [] else tables[|tables| - 2]
  }

  /** Snapshots are sorted and never lose a row. */
  ghost predicate Growing(tables: seq<seq<Event>>) {
    tables != [] ==>
      var last := tables[|tables| - 1];
      && Growing(tables[..|tables| - 1])
      && Ascending(last)
      && forall e :: e in Previous(tables) ==> e in last
  }

  /** No visible row ever turns up at or below the cursor. */
  ghost predicate ArriveAboveCursor(tables: seq<seq<Event>>, limit: int, t: Option<Uuid>) {
    tables != [] ==>
      var init := tables[..|tables| - 1];
      && ArriveAboveCursor(init, limit, t)
      && forall e :: e in tables[|tables| - 1] && e !in Previous(tables) && Visible(t, e)
                     ==> ReadPages(init, limit, t).lastID < e.globalID
  }

  function UpTo(lastID: nat, t: Option<Uuid>): Event -> bool {
    (e: Event) => e.globalID <= lastID && Visible(t, e)
  }

  // ---- sorted rows ----

  lemma FirstIsLeast(rows: seq<Event>)
    requires Ascending(rows) && rows != []
    ensures Ascending(rows[1..])
    ensures forall e :: e in rows[1..] <==> e in rows && e != rows[0]
    ensures forall e :: e in rows ==> rows[0].globalID <= e.globalID
  {
    assert forall i :: 0 < i < |rows| ==> rows[0] != rows[i] && rows[i] == rows[1..][i - 1];
  }

  lemma LastIsGreatest(rows: seq<Event>)
    requires Ascending(rows)
    ensures forall e :: e in rows ==> e.globalID <= NextID(0, rows)
  {
  }

  lemma {:induction false} SameRows(a: seq<Event>, b: seq<Event>)
    requires Ascending(a) && Ascending(b)
    requires forall e :: e in a <==> e in b
    ensures a == b
  {
    assert |a| > 0 ==> a[0] in a;
    assert |b| > 0 ==> b[0] in b;
    if a != [] && b != [] {
      FirstIsLeast(a);
      FirstIsLeast(b);
      SameRows(a[1..], b[1..]);
      assert a == [a[0]] + a[1..] && b == [b[0]] + b[1..];
    }
  }

  lemma AppendAscending(a: seq<Event>, b: seq<Event>, lastID: nat)
    requires Ascending(a) && Ascending(b)
    requires forall e :: e in a ==> e.globalID <= lastID
    requires forall e :: e in b ==> lastID < e.globalID
    ensures Ascending(a + b)
  {
    assert forall i :: 0 <= i < |a| ==> a[i] in a;
    assert forall i :: 0 <= i < |b| ==> b[i] in b;
  }

  /** The first rows of a sorted sequence are those up to the last of them. */
  lemma FirstRows(rows: seq<Event>, n: nat)
    requires Ascending(rows) && 0 < n <= |rows|
    ensures Ascending(rows[..n])
    ensures forall e :: e in rows[..n] <==> e in rows && e.globalID <= rows[n - 1].globalID
  {
    forall e | e in rows && e.globalID <= rows[n - 1].globalID ensures e in rows[..n] {
      var i :| 0 <= i < |rows| && rows[i] == e;
      assert i < n;
      assert rows[..n][i] == e;
    }
  }

  function NextID(lastID: nat, page: seq<Event>): nat {
    if page == [] then lastID else page[|page| - 1].globalID
  }

  /** A page holds exactly the visible rows between the old cursor and the new one. */
  lemma PageContents(rows: seq<Event>, lastID: nat, limit: int, t: Option<Uuid>)
    requires Ascending(rows)
    ensures var page := EventLog.FetchAfter(rows, lastID, limit, t);
            && lastID <= NextID(lastID, page)
            && Ascending(page)
            && (forall e :: e in page <==> e in rows && Visible(t, e) && lastID < e.globalID <= NextID(lastID, page))
  {
    var past := Filter(PastCursor(lastID, t), rows);
    FilterAscending(PastCursor(lastID, t), rows);
    var page := EventLog.FetchAfter(rows, lastID, limit, t);
    if past != [] {
      assert page == past[..|page|];
      FirstRows(past, |page|);
      assert page[|page| - 1] in past;
    }
  }

  /** Moving the cursor over a page adds exactly that page to the rows at or below it. */
  lemma PageExtends(rows: seq<Event>, lastID: nat, limit: int, t: Option<Uuid>)
    requires Ascending(rows)
    ensures var page := EventLog.FetchAfter(rows, lastID, limit, t);
            Filter(UpTo(NextID(lastID, page), t), rows) == Filter(UpTo(lastID, t), rows) + page
  {
    var page := EventLog.FetchAfter(rows, lastID, limit, t);
    var next := NextID(lastID, page);
    PageContents(rows, lastID, limit, t);
    FilterAscending(UpTo(next, t), rows);
    FilterAscending(UpTo(lastID, t), rows);
    AppendAscending(Filter(UpTo(lastID, t), rows), page, lastID);
    SameRows(Filter(UpTo(next, t), rows), Filter(UpTo(lastID, t), rows) + page);
  }

  // ---- any sequence of snapshots ----

  /** A reader whose cursor is the last id it handed on, in ascending order. */
  ghost predicate InStep(r: Reader) {
    Ascending(r.emitted) && r.lastID == NextID(0, r.emitted)
  }

  lemma TakeKeepsInStep(r: Reader, rows: seq<Event>, limit: int, t: Option<Uuid>)
    requires InStep(r) && Ascending(rows)
    ensures InStep(Take(r, EventLog.FetchAfter(rows, r.lastID, limit, t)))
  {
    PageContents(rows, r.lastID, limit, t);
    LastIsGreatest(r.emitted);
    AppendAscending(r.emitted, EventLog.FetchAfter(rows, r.lastID, limit, t), r.lastID);
  }

  /** The cursor hands on strictly increasing ids, so no event twice, whatever the snapshots were. */
  lemma {:induction false} EmittedAscending(tables: seq<seq<Event>>, limit: int, t: Option<Uuid>)
    requires forall i :: 0 <= i < |tables| ==> Ascending(tables[i])
    ensures InStep(ReadPages(tables, limit, t))
  {
    if tables != [] {
      var init := tables[..|tables| - 1];
      EmittedAscending(init, limit, t);
      TakeKeepsInStep(ReadPages(init, limit, t), tables[|tables| - 1], limit, t);
    }
  }

  lemma {:induction false} GrowingAscending(tables: seq<seq<Event>>)
    requires Growing(tables)
    ensures forall i :: 0 <= i < |tables| ==> Ascending(tables[i])
  {
    if tables != [] {
      GrowingAscending(tables[..|tables| - 1]);
    }
  }

  function Last(tables: seq<seq<Event>>): seq<Event> {
    if tables == [] then [] else tables[|tables| - 1]
  }

  /** Nothing is invented: what was handed on is in the newest snapshot and visible. */
  lemma {:induction false} EmittedSound(tables: seq<seq<Event>>, limit: int, t: Option<Uuid>)
    requires Growing(tables)
    ensures forall e :: e in ReadPages(tables, limit, t).emitted
                        ==> e in Last(tables) && Visible(t, e) && e.globalID <= ReadPages(tables, limit, t).lastID
  {
    if tables != [] {
      var init := tables[..|tables| - 1];
      EmittedSound(init, limit, t);
      PageContents(tables[|tables| - 1], ReadPages(init, limit, t).lastID, limit, t);
    }
  }

  /**
   * The cursor is complete, missing no visible row at or below it, exactly when no row
   * became visible at or below the position the cursor had by then.
   */
  lemma {:induction false} CompleteIffNoLateRow(tables: seq<seq<Event>>, limit: int, t: Option<Uuid>)
    requires Growing(tables)
    ensures Complete(tables, limit, t) <==> ArriveAboveCursor(tables, limit, t)
  {
    if tables != [] {
      var init, rows := tables[..|tables| - 1], tables[|tables| - 1];
      var r := ReadPages(init, limit, t);
      CompleteIffNoLateRow(init, limit, t);
      PageExtends(rows, r.lastID, limit, t);
      CancelSuffix(r.emitted, Filter(UpTo(r.lastID, t), rows), EventLog.FetchAfter(rows, r.lastID, limit, t));
      CompleteStep(init, rows, limit, t);
    }
  }

  lemma CancelSuffix<T>(a: seq<T>, b: seq<T>, suffix: seq<T>)
    ensures a + suffix == b + suffix <==> a == b
  {
    if a + suffix == b + suffix {
      assert |a| == |b|;
      assert a == (a + suffix)[..|a|] && b == (b + suffix)[..|b|];
    }
  }

  ghost predicate Complete(tables: seq<seq<Event>>, limit: int, t: Option<Uuid>) {
    var r := ReadPages(tables, limit, t);
    r.emitted == Filter(UpTo(r.lastID, t), Last(tables))
  }

  /** The next snapshot keeps the reader complete exactly when none of its new rows is late. */
  lemma CompleteStep(tables: seq<seq<Event>>, rows: seq<Event>, limit: int, t: Option<Uuid>)
    requires Growing(tables) && Ascending(rows)
    requires forall e :: e in Last(tables) ==> e in rows
    ensures var r := ReadPages(tables, limit, t);
            r.emitted == Filter(UpTo(r.lastID, t), rows)
            <==> Complete(tables, limit, t)
                 && forall e :: e in rows && e !in Last(tables) && Visible(t, e) ==> r.lastID < e.globalID
  {
    var r := ReadPages(tables, limit, t);
    GrowingAscending(tables);
    EmittedAscending(tables, limit, t);
    EmittedSound(tables, limit, t);
    FilterAscending(UpTo(r.lastID, t), rows);
    FilterAscending(UpTo(r.lastID, t), Last(tables));
    if r.emitted == Filter(UpTo(r.lastID, t), rows) {
      SameRows(r.emitted, Filter(UpTo(r.lastID, t), Last(tables)));
    } else if Complete(tables, limit, t) && forall e :: e in rows && e !in Last(tables) && Visible(t, e) ==> r.lastID < e.globalID {
      SameRows(r.emitted, Filter(UpTo(r.lastID, t), rows));
    }
  }

  /** Ids that become visible in order are enough: each new row above every row seen before. */
  ghost predicate ArriveInIdOrder(tables: seq<seq<Event>>) {
    tables != [] ==>
      && ArriveInIdOrder(tables[..|tables| - 1])
      && forall e, d :: e in tables[|tables| - 1] && e !in Previous(tables) && d in Previous(tables)
                        ==> d.globalID < e.globalID
  }

  lemma {:induction false} InIdOrderComplete(tables: seq<seq<Event>>, limit: int, t: Option<Uuid>)
    requires Growing(tables) && ArriveInIdOrder(tables)
    ensures ArriveAboveCursor(tables, limit, t)
  {
    if tables != [] {
      var init := tables[..|tables| - 1];
      InIdOrderComplete(init, limit, t);
      EmittedSound(init, limit, t);
      GrowingAscending(init);
      EmittedAscending(init, limit, t);
      var r := ReadPages(init, limit, t);
      assert Last(init) == Previous(tables);
      assert r.emitted != [] ==> r.emitted[|r.emitted| - 1] in Last(init);
    }
  }

  // ---- the in-memory log ----

  /** Snapshots of the in-memory log: each a prefix of the next, numbered by position. */
  ghost predicate LogHistory(logs: seq<seq<Event>>) {
    logs != [] ==>
      && LogHistory(logs[..|logs| - 1])
      && WellNumbered(logs[|logs| - 1])
      && Previous(logs) <= logs[|logs| - 1]
  }

  lemma PrefixArrivals(prev: seq<Event>, log: seq<Event>)
    requires WellNumbered(log) && prev <= log
    ensures Ascending(log)
    ensures forall e :: e in prev ==> e in log
    ensures forall e, d :: e in log && e !in prev && d in prev ==> d.globalID < e.globalID
  {
    forall d | d in prev ensures d in log && d.globalID <= |prev| {
      var j :| 0 <= j < |prev| && prev[j] == d;
      assert log[j] == d;
    }
    assert forall j :: 0 <= j < |prev| ==> prev[j] in prev && prev[j] == log[j];
    assert forall e :: e in log && e !in prev ==> |prev| < e.globalID;
  }

  lemma {:induction false} LogHistoryInOrder(logs: seq<seq<Event>>)
    requires LogHistory(logs)
    ensures Growing(logs) && ArriveInIdOrder(logs)
  {
    if logs != [] {
      LogHistoryInOrder(logs[..|logs| - 1]);
      PrefixArrivals(Previous(logs), logs[|logs| - 1]);
    }
  }

  /**
   * Paging the in-memory log, with commits landing between any two pages, hands on the
   * tenant's log: each event once, in order, with no gap; all of it once a page is empty.
   */
  lemma PagingNeverGaps(logs: seq<seq<Event>>, limit: int, t: Option<Uuid>)
    requires LogHistory(logs)
    ensures var r := ReadPages(logs, limit, t);
            && r.emitted == Filter(UpTo(r.lastID, t), Last(logs))
            && r.emitted <= Filter(VisibleTo(t), Last(logs))
            && (EventLog.FetchAfter(Last(logs), r.lastID, limit, t) == [] ==> r.emitted == Filter(VisibleTo(t), Last(logs)))
  {
    LogHistoryInOrder(logs);
    InIdOrderComplete(logs, limit, t);
    CompleteIffNoLateRow(logs, limit, t);
    GrowingAscending(logs);
    var log, r := Last(logs), ReadPages(logs, limit, t);
    SplitAtCursor(log, r.lastID, t);
  }

  lemma SplitAtCursor(log: seq<Event>, lastID: nat, t: Option<Uuid>)
    requires Ascending(log)
    ensures Filter(VisibleTo(t), log) == Filter(UpTo(lastID, t), log) + Filter(PastCursor(lastID, t), log)
  {
    FilterAscending(VisibleTo(t), log);
    FilterAscending(UpTo(lastID, t), log);
    FilterAscending(PastCursor(lastID, t), log);
    AppendAscending(Filter(UpTo(lastID, t), log), Filter(PastCursor(lastID, t), log), lastID);
    SameRows(Filter(VisibleTo(t), log), Filter(UpTo(lastID, t), log) + Filter(PastCursor(lastID, t), log));
  }

  method NextPage(store: Store, lastID: nat, limit: int, opts: seq<StoreOption>)
    returns (page: seq<DomainEvent>, next: nat)
    requires store.Valid() && limit >= 1
    ensures var t, log := Resolve(opts).tenantID, store.Log();
            && Filter(UpTo(next, t), log) == Filter(UpTo(lastID, t), log) + Values(page)
            && (page != [] ==> lastID < next <= |log|)
            && (page == [] ==> next == lastID && Filter(UpTo(lastID, t), log) == Filter(VisibleTo(t), log))
  {
    page := store.FetchAfter(lastID, limit, opts);
    ghost var t, log := Resolve(opts).tenantID, store.Log();
    ghost var values := Values(page);
    PageExtends(log, lastID, limit, t);
    PageContents(log, lastID, limit, t);
    SplitAtCursor(log, lastID, t);
    next := lastID;
    if |page| > 0 {
      assert values[|page| - 1] in values;
      next := page[|page| - 1].globalID;
    }
  }

  /** The catch-up loop of a poller: it ends, having read the whole visible log. */
  method PageAll(store: Store, limit: int, opts: seq<StoreOption>) returns (out: seq<DomainEvent>)
    requires store.Valid() && limit >= 1
    ensures Values(out) == Filter(VisibleTo(Resolve(opts).tenantID), store.Log())
  {
    var lastID := 0;
    out := [];
    FilterNone(UpTo(0, Resolve(opts).tenantID), store.Log());
    while true
      invariant lastID <= |store.Log()|
      invariant Values(out) == Filter(UpTo(lastID, Resolve(opts).tenantID), store.Log())
      decreases |store.Log()| - lastID
    {
      var page, next := NextPage(store, lastID, limit, opts);
      if |page| == 0 {
        return;
      }
      assert Values(out + page) == Values(out) + Values(page);
      out, lastID := out + page, next;
    }
  }

  // ---- the Postgres stream ----

  const DRAIN_LIMIT := 500

  /** How many more events the consumer takes before the context is cancelled, if it ever is. */
  type Patience = Option<nat>

  /** What the consumer has taken of a page. */
  function Taken(events: seq<Event>, patience: Patience): seq<Event> {
    if patience.Some? && patience.value < |events| then events[..patience.value] else events
  }

  /** Hands a page to the consumer one event at a time, moving the cursor with each. */
  method Send(events: seq<Event>, cursor: nat, patience: Patience) returns (out: seq<Event>, lastID: nat, cancelled: bool)
    ensures out == Taken(events, patience) && lastID == NextID(cursor, out)
    ensures cancelled <==> out != events
  {
    out, lastID := [], cursor;
    for i := 0 to |events|
      invariant out == events[..i] && lastID == NextID(cursor, out)
      invariant patience.Some? ==> i <= patience.value
    {
      if patience == Some(i) {
        return out, lastID, true;
      }
      out := out + [events[i]];
      lastID := events[i].globalID;
    }
    cancelled := false;
  }

  /** One turn of the drain loop: fetch past the cursor from the current snapshot and send the page. */
  method DrainPage(ghost read: seq<seq<Event>>, rows: seq<Event>, lastID: nat, t: Option<Uuid>, patience: Patience)
    returns (page: seq<Event>, next: nat, cancelled: bool)
    requires lastID == ReadPages(read, DRAIN_LIMIT, t).lastID
    ensures var r, all := ReadPages(read, DRAIN_LIMIT, t), EventLog.FetchAfter(rows, lastID, DRAIN_LIMIT, t);
            && page == Taken(all, patience) && next == NextID(lastID, page)
            && (cancelled <==> page != all)
            && (!cancelled ==> Reader(next, r.emitted + page) == ReadPages(read + [rows], DRAIN_LIMIT, t))
  {
    var events := EventLog.FetchAfter(rows, lastID, DRAIN_LIMIT, t);
    page, next, cancelled := Send(events, lastID, patience);
    ReadPagesPush(read, rows, DRAIN_LIMIT, t);
  }

  /**
   * One call of the stream's drain loop, resuming at the cursor left by the pages read
   * before. Each FetchAfter sees the next snapshot of the table; the call ends at an empty
   * page, when the observed snapshots run out, or in the middle of a page when the context is
   * cancelled: part is then what the consumer took of that page.
   */
  method Drain(ghost before: seq<seq<Event>>, tables: seq<seq<Event>>, cursor: nat, t: Option<Uuid>, patience: Patience)
    returns (out: seq<Event>, lastID: nat, fetched: nat, cancelled: bool, ghost read: seq<seq<Event>>, ghost part: seq<Event>)
    requires cursor == ReadPages(before, DRAIN_LIMIT, t).lastID
    ensures fetched <= |tables| && read == before + tables[..fetched]
    ensures var r := ReadPages(read, DRAIN_LIMIT, t);
            && ReadPages(before, DRAIN_LIMIT, t).emitted + out == r.emitted + part && lastID == NextID(r.lastID, part)
            && (!cancelled ==> part == [] && (fetched < |tables| ==> EventLog.FetchAfter(tables[fetched], lastID, DRAIN_LIMIT, t) == []))
            && (cancelled ==> fetched < |tables| && part < EventLog.FetchAfter(tables[fetched], r.lastID, DRAIN_LIMIT, t))
    ensures patience.Some? ==> |out| <= patience.value && (cancelled ==> |out| == patience.value)
  {
    out, lastID, fetched, cancelled, read, part := [], cursor, 0, false, before, [];
    var left: Patience := patience;
    ghost var sent := ReadPages(before, DRAIN_LIMIT, t).emitted;
    while fetched < |tables|
      invariant fetched <= |tables| && read == before + tables[..fetched] && part == [] && !cancelled
      invariant Reader(lastID, sent + out) == ReadPages(read, DRAIN_LIMIT, t)
      invariant left.Some? == patience.Some?
      invariant patience.Some? ==> |out| + left.value == patience.value && |out| <= patience.value
    {
      var page, next, stopped := DrainPage(read, tables[fetched], lastID, t, left);
      Associative(sent, out, page);
      if stopped {
        out, lastID, cancelled, part := out + page, next, true, page;
        return;
      }
      if |page| == 0 {
        return;
      }
      NextPrefix(before, tables, fetched);
      read := read + [tables[fetched]];
      out, lastID, fetched := out + page, next, fetched + 1;
      left := if left.Some? then Some(left.value - |page|) else None;
    }
  }
}
