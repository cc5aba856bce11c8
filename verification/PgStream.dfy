/** A drained stream over the very table that interleaved transactions are writing. */
module PgStream {
  import opened Common
  import opened Events
  import opened EventLog
  import opened PgCommit
  import opened Cursor

  // ---- the order rows are read in ----

  function InsertByID(sorted: seq<Event>, e: Event): seq<Event> {
    if sorted == [] then [e]
    else
      var init, last := sorted[..|sorted| - 1], sorted[|sorted| - 1];
      if last.globalID < e.globalID then sorted + [e] else InsertByID(init, e) + [last]
  }

  /** ORDER BY global_id. */
  function ByID(rows: seq<Event>): seq<Event> {
    if rows == [] then [] else InsertByID(ByID(rows[..|rows| - 1]), rows[|rows| - 1])
  }

  /** No two events share an id. */
  ghost predicate Apart(es: seq<Event>, fs: seq<Event>) {
    forall e, f :: e in es && f in fs ==> e.globalID != f.globalID
  }

  ghost predicate DistinctIDs(rows: seq<Event>) {
    && (forall e :: e in rows ==> 1 <= e.globalID)
    && forall i, j :: 0 <= i < j < |rows| ==> rows[i].globalID != rows[j].globalID
  }

  lemma {:induction false} InsertAdds(sorted: seq<Event>, e: Event, x: Event)
    ensures x in InsertByID(sorted, e) <==> x in sorted || x == e
  {
    if sorted != [] {
      var init := sorted[..|sorted| - 1];
      assert sorted == init + [sorted[|sorted| - 1]];
      InsertAdds(init, e, x);
    }
  }

  lemma {:induction false} InsertKeepsOrder(sorted: seq<Event>, e: Event)
    requires Ascending(sorted) && 1 <= e.globalID && forall x :: x in sorted ==> x.globalID != e.globalID
    ensures Ascending(InsertByID(sorted, e))
  {
    if sorted != [] {
      var init, last := sorted[..|sorted| - 1], sorted[|sorted| - 1];
      if last.globalID < e.globalID {
        LastIsGreatest(sorted);
        AppendAscending(sorted, [e], last.globalID);
      } else {
        assert last in sorted;
        InsertKeepsOrder(init, e);
        forall x | x in InsertByID(init, e) ensures x.globalID <= last.globalID - 1 {
          InsertAdds(init, e, x);
        }
        AppendAscending(InsertByID(init, e), [last], last.globalID - 1);
      }
    }
  }

  lemma {:induction false} ByIDOrders(rows: seq<Event>)
    requires DistinctIDs(rows)
    ensures Ascending(ByID(rows))
    ensures forall x :: x in ByID(rows) <==> x in rows
  {
    if rows != [] {
      var init, last := rows[..|rows| - 1], rows[|rows| - 1];
      assert rows == init + [last];
      ByIDOrders(init);
      forall e | e in ByID(init) ensures e.globalID != last.globalID {
        var i :| 0 <= i < |init| && init[i] == e;
        assert rows[i].globalID != rows[|rows| - 1].globalID;
      }
      InsertKeepsOrder(ByID(init), last);
      forall x ensures x in ByID(rows) <==> x in rows {
        InsertAdds(ByID(init), last, x);
      }
    }
  }

  // ---- no id is given twice ----

  ghost predicate Drawn(lastID: nat, es: seq<Event>) {
    forall e :: e in es ==> 1 <= e.globalID <= lastID
  }

  ghost predicate TxIDs(s: PgCommit.State, t: nat)
    requires t in s.txs
  {
    s.txs[t].phase == Checked ==>
      var mine := s.txs[t].inserted;
      && Drawn(s.lastID, mine) && DistinctIDs(mine) && Apart(mine, s.rows)
      && forall u :: u in s.txs && u != t && s.txs[u].phase == Checked ==> Apart(mine, s.txs[u].inserted)
  }

  ghost predicate IDInv(s: PgCommit.State) {
    && Drawn(s.lastID, s.rows) && DistinctIDs(s.rows)
    && forall t :: t in s.txs ==> TxIDs(s, t)
  }

  lemma DistinctConcat(a: seq<Event>, b: seq<Event>)
    requires DistinctIDs(a) && DistinctIDs(b) && Apart(b, a)
    ensures DistinctIDs(a + b)
  {
    forall i, j | 0 <= i < j < |a + b| ensures (a + b)[i].globalID != (a + b)[j].globalID {
      if i < |a| <= j {
        assert a[i] in a && b[j - |a|] in b;
      }
    }
  }

  /** A newly drawn id is nobody's yet. */
  lemma NextIsApart(es: seq<Event>, mine: seq<Event>, e: Event, lastID: nat)
    requires Drawn(lastID, es) && Apart(es, mine) && e.globalID == lastID + 1
    ensures Apart(es, mine + [e]) && Apart(mine + [e], es)
  {
    assert forall f :: f in mine + [e] <==> f in mine || f == e;
  }

  lemma DrawMore(s: PgCommit.State, s': PgCommit.State, t: nat, e: Event)
    requires IDInv(s) && t in s.txs && s.txs[t].phase == Checked && e.globalID == s.lastID + 1
    requires s'.rows == s.rows && s'.lastID == s.lastID + 1
    requires s'.txs == s.txs[t := s.txs[t].(inserted := s.txs[t].inserted + [e])]
    ensures IDInv(s')
  {
    var mine := s.txs[t].inserted;
    assert TxIDs(s, t);
    assert forall f :: f in mine + [e] <==> f in mine || f == e;
    DistinctConcat(mine, [e]);
    forall u | u in s'.txs ensures TxIDs(s', u) {
      assert TxIDs(s, u);
      NextIsApart(s.rows, mine, e, s.lastID);
      if u == t {
        forall v | v in s.txs && v != t && s.txs[v].phase == Checked ensures Apart(mine + [e], s.txs[v].inserted) {
          assert TxIDs(s, v);
          NextIsApart(s.txs[v].inserted, mine, e, s.lastID);
        }
      } else if s.txs[u].phase == Checked {
        NextIsApart(s.txs[u].inserted, mine, e, s.lastID);
      }
    }
  }

  /** Steps that draw no id for a row and write none. */
  lemma NothingDrawn(s: PgCommit.State, s': PgCommit.State)
    requires IDInv(s) && s'.rows == s.rows && s'.lastID >= s.lastID
    requires forall t :: t in s'.txs && s'.txs[t].phase == Checked ==>
               s'.txs[t].inserted == [] || (t in s.txs && s.txs[t].phase == Checked && s'.txs[t].inserted == s.txs[t].inserted)
    ensures IDInv(s')
  {
    forall t | t in s'.txs ensures TxIDs(s', t) {
      if t in s.txs {
        assert TxIDs(s, t);
      }
    }
  }

  lemma InsertKeepsIDs(h: Uuid -> int, s: PgCommit.State, t: nat)
    requires IDInv(s)
    ensures IDInv(PgCommit.Do(h, s, Insert(t)))
  {
    var s' := PgCommit.Do(h, s, Insert(t));
    if s' != s {
      if s'.txs[t].phase == Checked {
        DrawMore(s, s', t, s'.txs[t].inserted[|s.txs[t].inserted|]);
      } else {
        NothingDrawn(s, s');
      }
    }
  }

  lemma CommitKeepsIDs(h: Uuid -> int, s: PgCommit.State, t: nat)
    requires IDInv(s)
    ensures IDInv(PgCommit.Do(h, s, CommitTx(t)))
  {
    var s' := PgCommit.Do(h, s, CommitTx(t));
    if s' != s {
      assert TxIDs(s, t);
      var mine := s.txs[t].inserted;
      assert s'.rows == s.rows + mine;
      DistinctConcat(s.rows, mine);
      forall u | u in s'.txs ensures TxIDs(s', u) {
        assert TxIDs(s, u);
        if u != t && s.txs[u].phase == Checked {
          assert Apart(s.txs[u].inserted, mine) && Apart(s.txs[u].inserted, s.rows);
          assert forall f :: f in s'.rows ==> f in s.rows || f in mine;
        }
      }
    }
  }

  lemma StepKeepsIDs(h: Uuid -> int, s: PgCommit.State, step: PgCommit.Step)
    requires IDInv(s) && PgCommit.Inv(h, s)
    ensures IDInv(PgCommit.Do(h, s, step))
  {
    match step {
      case Insert(t) => InsertKeepsIDs(h, s, t);
      case CommitTx(t) => CommitKeepsIDs(h, s, t);
      case CheckVersion(t) => CheckDrawsNothing(h, s, t);
      case _ => OthersDrawNothing(h, s, step);
    }
  }

  lemma CheckDrawsNothing(h: Uuid -> int, s: PgCommit.State, t: nat)
    requires IDInv(s) && PgCommit.Inv(h, s)
    ensures IDInv(PgCommit.Do(h, s, CheckVersion(t)))
  {
    if t in s.txs {
      assert TxInv(h, s, t, s.txs[t]);
    }
    NothingDrawn(s, PgCommit.Do(h, s, CheckVersion(t)));
  }

  lemma OthersDrawNothing(h: Uuid -> int, s: PgCommit.State, step: PgCommit.Step)
    requires IDInv(s) && !step.Insert? && !step.CommitTx? && !step.CheckVersion?
    ensures IDInv(PgCommit.Do(h, s, step))
  {
    NothingDrawn(s, PgCommit.Do(h, s, step));
  }

  // ---- transactions and pages interleaved ----

  /** The stream's reader pages through the table while transactions go on. */
  datatype State = Following(pg: PgCommit.State, reader: Reader)

  datatype Step = Write(step: PgCommit.Step) | Page

  const INITIAL := Following(PgCommit.INITIAL, START)

  /** A page is one FetchAfter of the drain loop, forwarded to the consumer. */
  ghost function Do(h: Uuid -> int, t: Option<Uuid>, s: State, step: Step): State {
    match step
    case Write(step) => s.(pg := PgCommit.Do(h, s.pg, step))
    case Page => s.(reader := Take(s.reader, EventLog.FetchAfter(ByID(s.pg.rows), s.reader.lastID, DRAIN_LIMIT, t)))
  }

  ghost function Exec(h: Uuid -> int, t: Option<Uuid>, steps: seq<Step>): State {
    if steps == [] then INITIAL else Do(h, t, Exec(h, t, steps[..|steps| - 1]), steps[|steps| - 1])
  }

  /** A committed, visible row at or below the cursor that the consumer never got. */
  ghost predicate Missed(t: Option<Uuid>, s: State) {
    exists e :: e in s.pg.rows && Visible(t, e) && e.globalID <= s.reader.lastID && e !in s.reader.emitted
  }

  /** A transaction commits a visible row at or below where the cursor already is. */
  ghost predicate Late(h: Uuid -> int, t: Option<Uuid>, s: State, step: Step) {
    && step.Write?
    && exists e :: e in PgCommit.Do(h, s.pg, step.step).rows && e !in s.pg.rows && Visible(t, e) && e.globalID <= s.reader.lastID
  }

  ghost predicate NeverLate(h: Uuid -> int, t: Option<Uuid>, steps: seq<Step>) {
    steps != [] ==>
      && NeverLate(h, t, steps[..|steps| - 1])
      && !Late(h, t, Exec(h, t, steps[..|steps| - 1]), steps[|steps| - 1])
  }

  ghost predicate Inv(h: Uuid -> int, t: Option<Uuid>, s: State) {
    && PgCommit.Inv(h, s.pg) && IDInv(s.pg)
    && InStep(s.reader)
    && forall e :: e in s.reader.emitted ==> e in s.pg.rows && Visible(t, e) && e.globalID <= s.reader.lastID
  }

  lemma RowsGrow(h: Uuid -> int, s: PgCommit.State, step: PgCommit.Step)
    ensures s.rows <= PgCommit.Do(h, s, step).rows
  {
  }

  lemma PageStep(h: Uuid -> int, t: Option<Uuid>, s: State)
    requires Inv(h, t, s)
    ensures Inv(h, t, Do(h, t, s, Page))
    ensures Missed(t, Do(h, t, s, Page)) <==> Missed(t, s)
  {
    var s', rows := Do(h, t, s, Page), ByID(s.pg.rows);
    ByIDOrders(s.pg.rows);
    PageContents(rows, s.reader.lastID, DRAIN_LIMIT, t);
    TakeKeepsInStep(s.reader, rows, DRAIN_LIMIT, t);
  }

  lemma WriteStep(h: Uuid -> int, t: Option<Uuid>, s: State, step: PgCommit.Step)
    requires Inv(h, t, s)
    ensures Inv(h, t, Do(h, t, s, Write(step)))
    ensures Missed(t, Do(h, t, s, Write(step))) <==> Missed(t, s) || Late(h, t, s, Write(step))
  {
    PgCommit.StepKeepsInv(h, s.pg, step);
    StepKeepsIDs(h, s.pg, step);
    RowsGrow(h, s.pg, step);
  }

  lemma CompleteUnlessMissed(h: Uuid -> int, t: Option<Uuid>, s: State)
    requires Inv(h, t, s) && !Missed(t, s)
    ensures s.reader.emitted == Filter(UpTo(s.reader.lastID, t), ByID(s.pg.rows))
  {
    ByIDOrders(s.pg.rows);
    FilterAscending(UpTo(s.reader.lastID, t), ByID(s.pg.rows));
    SameRows(s.reader.emitted, Filter(UpTo(s.reader.lastID, t), ByID(s.pg.rows)));
  }

  /**
   * Over interleaved transactions and pages: what the consumer got is in strictly ascending id
   * order, and a row is missed if and only if some transaction committed a visible id at or
   * below the cursor. As long as none does, the consumer has every visible row up to there.
   */
  lemma {:induction false} MissedIffLate(h: Uuid -> int, t: Option<Uuid>, steps: seq<Step>)
    ensures var s := Exec(h, t, steps);
            && Inv(h, t, s)
            && Ascending(s.reader.emitted)
            && (Missed(t, s) <==> !NeverLate(h, t, steps))
            && (NeverLate(h, t, steps) ==> s.reader.emitted == Filter(UpTo(s.reader.lastID, t), ByID(s.pg.rows)))
  {
    if steps != [] {
      var init, step := steps[..|steps| - 1], steps[|steps| - 1];
      MissedIffLate(h, t, init);
      match step {
        case Page => PageStep(h, t, Exec(h, t, init));
        case Write(step) => WriteStep(h, t, Exec(h, t, init), step);
      }
    }
    if !Missed(t, Exec(h, t, steps)) {
      CompleteUnlessMissed(h, t, Exec(h, t, steps));
    }
  }

  /** A committed row that the consumer may see and the cursor has not passed. */
  predicate Due(t: Option<Uuid>, s: State, e: Event) {
    e in s.pg.rows && Readable(e, t) && s.reader.lastID < e.globalID
  }

  /**
   * In every run a page hands on the next rows that are due, in id order: all of them, or as
   * many as a page holds. So the stream cannot stay behind a table that stands still.
   */
  lemma PageHandsOnNext(h: Uuid -> int, t: Option<Uuid>, steps: seq<Step>)
    ensures var s, s' := Exec(h, t, steps), Do(h, t, Exec(h, t, steps), Page);
            var page := s'.reader.emitted[|s.reader.emitted|..];
            && s'.pg == s.pg && s.reader.emitted <= s'.reader.emitted
            && Ascending(page) && |page| <= DRAIN_LIMIT
            && (forall e :: e in page <==> Due(t, s, e) && e.globalID <= s'.reader.lastID)
            && (|page| < DRAIN_LIMIT ==> forall e :: Due(t, s, e) ==> e in page)
            && (|page| < DRAIN_LIMIT ==> forall e :: !Due(t, s', e))
  {
    var s := Exec(h, t, steps);
    var rows := ByID(s.pg.rows);
    MissedIffLate(h, t, steps);
    ByIDOrders(s.pg.rows);
    FetchAfterHolds(rows, s.reader.lastID, DRAIN_LIMIT, t);
    PageContents(rows, s.reader.lastID, DRAIN_LIMIT, t);
    var page := EventLog.FetchAfter(rows, s.reader.lastID, DRAIN_LIMIT, t);
    assert (s.reader.emitted + page)[|s.reader.emitted|..] == page;
    forall e | |page| < DRAIN_LIMIT && Due(t, s, e) ensures e in page {
      assert e in EventLog.FetchAfter(rows, s.reader.lastID, 0, t);
    }
  }

  // ---- a run that misses a row ----

  function Plain(a: Uuid, globalID: nat): Event {
    Event(globalID, NIL_UUID, a, 1, "x", Doc(map[]), None, NoManifest, false)
  }

  function First(a: Uuid): Request {
    Request(a, [Plain(a, 0)], 0, None)
  }

  /** Two transactions, of aggregates 1 and 2, each in some phase with what it has inserted. */
  function Two(rows: seq<Event>, lastID: nat, locks: map<int, nat>, p1: Phase, ins1: seq<Event>, p2: Phase, ins2: seq<Event>, done: seq<Request>): PgCommit.State {
    PgCommit.State(rows, lastID, locks, map[1 := Tx(First(1), p1, ins1), 2 := Tx(First(2), p2, ins2)], done)
  }

  function Number(): Uuid -> int {
    (a: Uuid) => a as int
  }

  lemma ExecPush(h: Uuid -> int, t: Option<Uuid>, steps: seq<Step>, step: Step)
    ensures Exec(h, t, steps + [step]) == Do(h, t, Exec(h, t, steps), step)
  {
    assert (steps + [step])[..|steps|] == steps;
  }

  const OPENING: seq<Step> := [] + [Write(Begin(1, First(1)))] + [Write(Begin(2, First(2)))] + [Write(PgCommit.Lock(1))] + [Write(PgCommit.Lock(2))]

  lemma Opened()
    ensures Exec(Number(), None, OPENING) == Following(Two([], 0, map[1 := 1, 2 := 2], Locked, [], Locked, [], []), START)
  {
    ExecPush(Number(), None, [], Write(Begin(1, First(1))));
    ExecPush(Number(), None, [] + [Write(Begin(1, First(1)))], Write(Begin(2, First(2))));
    ExecPush(Number(), None, [] + [Write(Begin(1, First(1)))] + [Write(Begin(2, First(2)))], Write(PgCommit.Lock(1)));
    ExecPush(Number(), None, [] + [Write(Begin(1, First(1)))] + [Write(Begin(2, First(2)))] + [Write(PgCommit.Lock(1))], Write(PgCommit.Lock(2)));
  }

  const CHECKED: seq<Step> := OPENING + [Write(CheckVersion(1))] + [Write(CheckVersion(2))]

  lemma BothChecked()
    ensures Exec(Number(), None, CHECKED) == Following(Two([], 0, map[1 := 1, 2 := 2], Checked, [], Checked, [], []), START)
  {
    Opened();
    ExecPush(Number(), None, OPENING, Write(CheckVersion(1)));
    ExecPush(Number(), None, OPENING + [Write(CheckVersion(1))], Write(CheckVersion(2)));
  }

  /** Ids are drawn at insert: aggregate 1's row gets id 1 and aggregate 2's row id 2. */
  const INSERTED: seq<Step> := CHECKED + [Write(Insert(1))] + [Write(Insert(2))]

  lemma InsertOne()
    ensures PgCommit.Do(Number(), Two([], 0, map[1 := 1, 2 := 2], Checked, [], Checked, [], []), Insert(1))
            == Two([], 1, map[1 := 1, 2 := 2], Checked, [Plain(1, 1)], Checked, [], [])
  {
    assert Stamp(None, First(1).batch[0]).(globalID := 1) == Plain(1, 1);
    assert [] + [Plain(1, 1)] == [Plain(1, 1)];
  }

  lemma InsertTwo()
    ensures PgCommit.Do(Number(), Two([], 1, map[1 := 1, 2 := 2], Checked, [Plain(1, 1)], Checked, [], []), Insert(2))
            == Two([], 2, map[1 := 1, 2 := 2], Checked, [Plain(1, 1)], Checked, [Plain(2, 2)], [])
  {
    assert Stamp(None, First(2).batch[0]).(globalID := 2) == Plain(2, 2);
    assert [] + [Plain(2, 2)] == [Plain(2, 2)];
  }

  lemma BothInserted()
    ensures Exec(Number(), None, INSERTED)
            == Following(Two([], 2, map[1 := 1, 2 := 2], Checked, [Plain(1, 1)], Checked, [Plain(2, 2)], []), START)
  {
    BothChecked();
    ExecPush(Number(), None, CHECKED, Write(Insert(1)));
    InsertOne();
    ExecPush(Number(), None, CHECKED + [Write(Insert(1))], Write(Insert(2)));
    InsertTwo();
  }

  /** Id 2 commits, the drain reads it, and only then does id 1 commit. */
  const OVERTAKEN: seq<Step> := INSERTED + [Write(CommitTx(2))] + [Page] + [Write(CommitTx(1))]

  lemma CommitTwo()
    ensures PgCommit.Do(Number(), Two([], 2, map[1 := 1, 2 := 2], Checked, [Plain(1, 1)], Checked, [Plain(2, 2)], []), CommitTx(2))
            == Two([Plain(2, 2)], 2, map[1 := 1], Checked, [Plain(1, 1)], Committed, [Plain(2, 2)], [First(2)])
  {
    assert [] + [Plain(2, 2)] == [Plain(2, 2)] && [] + [First(2)] == [First(2)];
    assert map[1 := 1, 2 := 2] - {2} == map[1 := 1];
  }

  lemma PageOfOne(e: Event)
    requires e.globalID >= 1
    ensures EventLog.FetchAfter(ByID([e]), 0, DRAIN_LIMIT, None) == [e]
  {
    assert [e][..0] == [];
    FilterPush(PastCursor(0, None), [], e);
    assert [] + [e] == [e];
  }

  lemma Overtook()
    ensures Exec(Number(), None, INSERTED + [Write(CommitTx(2))] + [Page])
            == Following(Two([Plain(2, 2)], 2, map[1 := 1], Checked, [Plain(1, 1)], Committed, [Plain(2, 2)], [First(2)]), Reader(2, [Plain(2, 2)]))
  {
    BothInserted();
    ExecPush(Number(), None, INSERTED, Write(CommitTx(2)));
    CommitTwo();
    ExecPush(Number(), None, INSERTED + [Write(CommitTx(2))], Page);
    PageOfOne(Plain(2, 2));
    assert [] + [Plain(2, 2)] == [Plain(2, 2)];
  }

  lemma CommitOne()
    ensures PgCommit.Do(Number(), Two([Plain(2, 2)], 2, map[1 := 1], Checked, [Plain(1, 1)], Committed, [Plain(2, 2)], [First(2)]), CommitTx(1)).rows
            == [Plain(2, 2), Plain(1, 1)]
  {
    assert [Plain(2, 2)] + [Plain(1, 1)] == [Plain(2, 2), Plain(1, 1)];
  }

  lemma RowMissed()
    ensures var s := Exec(Number(), None, OVERTAKEN);
            && s.pg.rows == [Plain(2, 2), Plain(1, 1)] && s.reader == Reader(2, [Plain(2, 2)])
            && Missed(None, s) && !NeverLate(Number(), None, OVERTAKEN)
  {
    Overtook();
    ExecPush(Number(), None, INSERTED + [Write(CommitTx(2))] + [Page], Write(CommitTx(1)));
    CommitOne();
    assert Plain(1, 1) in Exec(Number(), None, OVERTAKEN).pg.rows;
    MissedIffLate(Number(), None, OVERTAKEN);
  }
}
