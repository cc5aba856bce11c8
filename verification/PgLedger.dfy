/** The Postgres ledger: appenders whose lock, tail read, insert and commit interleave. */
module PgLedger {
  import opened Common
  import opened ShredChain

  datatype Entry = Entry(piiID: Uuid, erasedAt: Time, origin: uint64)

  datatype Phase = Begun | Locked | TailRead(prev: Digest) | Inserted(row: Row) | Committed | RolledBack

  /** A row of the table, and the time its appender gave. */
  datatype Row = Row(id: nat, record: ShredRecord, appended: Time)

  datatype Tx = Tx(entry: Entry, phase: Phase)

  /**
   * rows: the committed table, in commit order; holder: who has the table's advisory lock.
   * committed only describes the run: the transactions that committed, in that order.
   */
  datatype State = State(rows: seq<Row>, lastID: nat, holder: Option<nat>, txs: map<nat, Tx>, committed: seq<nat>)

  datatype Step = Begin(t: nat, entry: Entry) | Lock(t: nat) | ReadTail(t: nat) | Insert(t: nat) | CommitTx(t: nat) | Rollback(t: nat)

  const INITIAL := State([], 0, None, map[], [])

  /** SELECT hash ... ORDER BY id DESC LIMIT 1, or the zero hash when there is no row. */
  function Newest(rows: seq<Row>): Option<Row> {
    if rows == [] then None
    else
      var best, last := Newest(rows[..|rows| - 1]), rows[|rows| - 1];
      if best.Some? && last.id < best.value.id then best else Some(last)
  }

  function End(s: State, t: nat, phase: Phase): State
    requires t in s.txs
  {
    s.(holder := if s.holder == Some(t) then None else s.holder, txs := s.txs[t := s.txs[t].(phase := phase)])
  }

  /**
   * One step of one transaction; a step that is not enabled changes nothing. store is what the
   * column keeps of a time; the hash is taken over the time as given.
   */
  function Do(h: Hash, store: Time -> Time, s: State, step: Step): State {
    if step.Begin? then (if step.t in s.txs then s else s.(txs := s.txs[step.t := Tx(step.entry, Begun)]))
    else if step.t !in s.txs then s
    else
      var t, tx := step.t, s.txs[step.t];
      match step
      case Lock(_) =>
        if tx.phase == Begun && s.holder.None?
        then s.(holder := Some(t), txs := s.txs[t := tx.(phase := Locked)]) else s
      case ReadTail(_) =>
        if tx.phase != Locked then s
        else
          var tail := Newest(s.rows);
          s.(txs := s.txs[t := tx.(phase := TailRead(if tail.Some? then tail.value.record.hash else ZERO))])
      case Insert(_) =>
        if !tx.phase.TailRead? then s
        else
          var e, prev := tx.entry, tx.phase.prev;
          var r := ShredRecord(e.piiID, store(e.erasedAt), e.origin, prev, h(HashInput(prev, e.piiID, e.erasedAt, e.origin)));
          s.(lastID := s.lastID + 1, txs := s.txs[t := tx.(phase := Inserted(Row(s.lastID + 1, r, e.erasedAt)))])
      case CommitTx(_) =>
        if tx.phase.Inserted? then End(s, t, Committed).(rows := s.rows + [tx.phase.row], committed := s.committed + [t]) else s
      case Rollback(_) => if tx.phase != Committed then End(s, t, RolledBack) else s
  }

  function Exec(h: Hash, store: Time -> Time, steps: seq<Step>): State {
    if steps == [] then INITIAL else Do(h, store, Exec(h, store, steps[..|steps| - 1]), steps[|steps| - 1])
  }

  lemma ExecPush(h: Hash, store: Time -> Time, steps: seq<Step>, step: Step)
    ensures Exec(h, store, steps + [step]) == Do(h, store, Exec(h, store, steps), step)
  {
    assert (steps + [step])[..|steps|] == steps;
  }

  function Records(rows: seq<Row>): seq<ShredRecord> {
    seq(|rows|, i requires 0 <= i < |rows| => rows[i].record)
  }

  /** The records as they were hashed, with the times that were given. */
  function Hashed(rows: seq<Row>): seq<ShredRecord> {
    seq(|rows|, i requires 0 <= i < |rows| => rows[i].record.(erasedAt := rows[i].appended))
  }

  ghost predicate IdOrder(rows: seq<Row>) {
    forall i, j :: 0 <= i < j < |rows| ==> rows[i].id < rows[j].id
  }

  predicate KeepsSecond(store: Time -> Time, t: Time) {
    Seconds(store(t)) == Seconds(t)
  }

  ghost predicate RowInv(store: Time -> Time, row: Row) {
    row.record.erasedAt == store(row.appended)
  }

  /** Between lock and commit the tail cannot move: what was read is still the tail. */
  ghost predicate TxInv(h: Hash, store: Time -> Time, s: State, t: nat, tx: Tx) {
    var phase := tx.phase;
    && (phase == Locked || phase.TailRead? || phase.Inserted? <==> s.holder == Some(t))
    && (phase.TailRead? ==> phase.prev == TailHash(Hashed(s.rows)))
    && (phase.Inserted? ==>
          var r := phase.row.record.(erasedAt := phase.row.appended);
          && (forall r :: r in s.rows ==> r.id < phase.row.id) && phase.row.id <= s.lastID
          && RowInv(store, phase.row) && phase.row.appended == tx.entry.erasedAt
          && r.prevHash == TailHash(Hashed(s.rows)) && r.hash == h(InputOf(r)))
  }

  ghost predicate Inv(h: Hash, store: Time -> Time, s: State) {
    && IdOrder(s.rows)
    && (forall r :: r in s.rows ==> r.id <= s.lastID && RowInv(store, r))
    && Chained(h, Hashed(s.rows))
    && (s.holder.Some? ==> s.holder.value in s.txs)
    && forall t :: t in s.txs ==> TxInv(h, store, s, t, s.txs[t])
  }

  lemma {:induction false} NewestIsLast(rows: seq<Row>)
    requires IdOrder(rows)
    ensures Newest(rows) == if rows == [] then None else Some(rows[|rows| - 1])
  {
    if rows != [] {
      NewestIsLast(rows[..|rows| - 1]);
    }
  }

  lemma CommitKeepsChain(h: Hash, rows: seq<Row>, row: Row)
    requires Chained(h, Hashed(rows))
    requires var r := row.record.(erasedAt := row.appended); r.prevHash == TailHash(Hashed(rows)) && r.hash == h(InputOf(r))
    ensures Chained(h, Hashed(rows + [row]))
  {
    var r := row.record.(erasedAt := row.appended);
    assert Hashed(rows + [row]) == Hashed(rows) + [r];
    AppendKeepsChain(h, Hashed(rows), r);
  }

  /** Only the holder of the lock moves the table, so the others' view of it stands. */
  lemma OthersUndisturbed(h: Hash, store: Time -> Time, s: State, s': State, t: nat)
    requires forall u :: u in s.txs ==> TxInv(h, store, s, u, s.txs[u])
    requires t in s'.txs && TxInv(h, store, s', t, s'.txs[t])
    requires s'.txs.Keys == s.txs.Keys + {t} && forall u :: u in s.txs && u != t ==> s'.txs[u] == s.txs[u]
    requires s'.rows == s.rows || s.holder == Some(t)
    requires s'.lastID >= s.lastID
    requires s'.holder == s.holder || (s.holder == None && s'.holder == Some(t)) || (s.holder == Some(t) && s'.holder == None)
    ensures forall u :: u in s'.txs ==> TxInv(h, store, s', u, s'.txs[u])
  {
    forall u | u in s'.txs ensures TxInv(h, store, s', u, s'.txs[u]) {
      if u != t {
        assert TxInv(h, store, s, u, s.txs[u]);
      }
    }
  }

  lemma CommitKeepsRows(h: Hash, store: Time -> Time, s: State, t: nat)
    requires Inv(h, store, s) && t in s.txs && s.txs[t].phase.Inserted?
    ensures var rows := s.rows + [s.txs[t].phase.row];
            IdOrder(rows) && (forall r :: r in rows ==> r.id <= s.lastID && RowInv(store, r)) && Chained(h, Hashed(rows))
  {
    assert TxInv(h, store, s, t, s.txs[t]);
    CommitKeepsChain(h, s.rows, s.txs[t].phase.row);
  }

  /** The transaction that moves keeps its part of the invariant. */
  lemma OwnTxInv(h: Hash, store: Time -> Time, s: State, step: Step)
    requires Inv(h, store, s) && step.t in s.txs && !step.Begin? && !step.CommitTx? && !step.Rollback?
    ensures var s' := Do(h, store, s, step); TxInv(h, store, s', step.t, s'.txs[step.t])
  {
    assert TxInv(h, store, s, step.t, s.txs[step.t]);
    NewestIsLast(s.rows);
  }

  /** What the column does to times plays no part in how rows are linked. */
  lemma StepKeepsInv(h: Hash, store: Time -> Time, s: State, step: Step)
    requires Inv(h, store, s)
    ensures Inv(h, store, Do(h, store, s, step))
  {
    var s', t := Do(h, store, s, step), step.t;
    if s' != s {
      if t in s.txs {
        assert TxInv(h, store, s, t, s.txs[t]);
      }
      match step {
        case Begin(_, _) =>
        case CommitTx(_) => CommitKeepsRows(h, store, s, t);
        case Rollback(_) =>
        case _ => OwnTxInv(h, store, s, step);
      }
      OthersUndisturbed(h, store, s, s', t);
    }
  }

  lemma {:induction false} EveryRun(h: Hash, store: Time -> Time, steps: seq<Step>)
    ensures Inv(h, store, Exec(h, store, steps))
  {
    if steps != [] {
      EveryRun(h, store, steps[..|steps| - 1]);
      StepKeepsInv(h, store, Exec(h, store, steps[..|steps| - 1]), steps[|steps| - 1]);
    }
  }

  /**
   * However appenders interleave and wherever they roll back, and whatever the column does to
   * times, the committed rows are in id order, so Entries returns them as committed, and they
   * pass the chain check exactly when each stored time kept its second (or the hash collides).
   */
  lemma RowsChainIffSecondsKept(h: Hash, store: Time -> Time, steps: seq<Step>)
    ensures var rows := Exec(h, store, steps).rows;
            && IdOrder(rows)
            && (forall row :: row in rows ==> row.record.erasedAt == store(row.appended))
            && (Chained(h, Records(rows)) <==> forall i :: 0 <= i < |rows| ==> TimeHolds(h, Hashed(rows)[i], Records(rows)[i]))
  {
    EveryRun(h, store, steps);
    var rows := Exec(h, store, steps).rows;
    ChainedIffSecondsKept(h, Hashed(rows), Records(rows));
  }

  // ---- whose rows they are ----

  /** The row keeps what its appender gave, the time as the column keeps it. */
  ghost predicate RowOf(store: Time -> Time, row: Row, e: Entry) {
    && row.record.piiID == e.piiID && row.record.origin == e.origin
    && row.record.erasedAt == store(e.erasedAt) && row.appended == e.erasedAt
  }

  ghost predicate CommittedInv(s: State) {
    && (forall i, j :: 0 <= i < j < |s.committed| ==> s.committed[i] != s.committed[j])
    && (forall t :: t in s.committed <==> t in s.txs && s.txs[t].phase == Committed)
  }

  ghost predicate EntriesInv(store: Time -> Time, s: State) {
    && CommittedInv(s)
    && |s.rows| == |s.committed|
    && (forall i :: 0 <= i < |s.rows| ==> s.committed[i] in s.txs && RowOf(store, s.rows[i], s.txs[s.committed[i]].entry))
    && (forall t :: t in s.txs && s.txs[t].phase.Inserted? ==> RowOf(store, s.txs[t].phase.row, s.txs[t].entry))
  }

  lemma StepKeepsEntries(h: Hash, store: Time -> Time, s: State, step: Step)
    requires EntriesInv(store, s)
    ensures EntriesInv(store, Do(h, store, s, step))
    ensures forall t :: t in Do(h, store, s, step).txs ==>
              if t in s.txs then Do(h, store, s, step).txs[t].entry == s.txs[t].entry
              else step == Begin(t, Do(h, store, s, step).txs[t].entry)
  {
    var s' := Do(h, store, s, step);
    if step.CommitTx? && s' != s {
      assert s'.committed == s.committed + [step.t];
      assert step.t !in s.committed;
    }
  }

  lemma {:induction false} EveryRunsEntries(h: Hash, store: Time -> Time, steps: seq<Step>)
    ensures EntriesInv(store, Exec(h, store, steps))
    ensures forall t :: t in Exec(h, store, steps).txs ==> Begin(t, Exec(h, store, steps).txs[t].entry) in steps
  {
    if steps != [] {
      EveryRunsEntries(h, store, steps[..|steps| - 1]);
      StepKeepsEntries(h, store, Exec(h, store, steps[..|steps| - 1]), steps[|steps| - 1]);
    }
  }

  /** The entries of the committed transactions, in commit order. */
  function EntriesOf(s: State): seq<Entry>
    requires forall t :: t in s.committed ==> t in s.txs
  {
    seq(|s.committed|, i requires 0 <= i < |s.committed| => s.txs[s.committed[i]].entry)
  }

  /** What the in-memory ledger holds after appending the entries one after another. */
  function Appended(h: Hash, es: seq<Entry>): seq<ShredRecord> {
    if es == [] then []
    else
      var before, e := Appended(h, es[..|es| - 1]), es[|es| - 1];
      before + [NextRecord(h, before, e.piiID, e.erasedAt, e.origin)]
  }

  /** A chain is determined by what its records say besides the links. */
  lemma {:induction false} ChainIsAppended(h: Hash, rs: seq<ShredRecord>, es: seq<Entry>)
    requires Chained(h, rs) && |rs| == |es|
    requires forall i :: 0 <= i < |rs| ==> rs[i].piiID == es[i].piiID && rs[i].erasedAt == es[i].erasedAt && rs[i].origin == es[i].origin
    ensures rs == Appended(h, es)
  {
    if rs != [] {
      var n := |rs| - 1;
      PrefixesChained(h, rs, n);
      ChainIsAppended(h, rs[..n], es[..n]);
      assert Linked(h, rs, n);
      assert rs == rs[..n] + [rs[n]];
    }
  }

  /**
   * After every run the rows are, in commit order, the entries of the transactions that
   * committed, each once and as Append was given it; hashed, they are what the in-memory
   * ledger holds after appending those entries one after another.
   */
  lemma RowsAreAppends(h: Hash, store: Time -> Time, steps: seq<Step>)
    ensures var s := Exec(h, store, steps);
            && (forall i, j :: 0 <= i < j < |s.committed| ==> s.committed[i] != s.committed[j])
            && (forall t :: t in s.committed <==> t in s.txs && s.txs[t].phase == Committed)
            && (forall t :: t in s.txs ==> Begin(t, s.txs[t].entry) in steps)
            && |s.rows| == |EntriesOf(s)| == |s.committed|
            && (forall i :: 0 <= i < |s.rows| ==> RowOf(store, s.rows[i], EntriesOf(s)[i]))
            && Hashed(s.rows) == Appended(h, EntriesOf(s))
  {
    var s := Exec(h, store, steps);
    EveryRun(h, store, steps);
    EveryRunsEntries(h, store, steps);
    ChainIsAppended(h, Hashed(s.rows), EntriesOf(s));
  }

  /** One call of Append, nobody between. */
  function Alone(t: nat, e: Entry): seq<Step> {
    [] + [Begin(t, e)] + [Lock(t)] + [ReadTail(t)] + [Insert(t)] + [CommitTx(t)]
  }

  /** The row an append adds. */
  function NextRow(h: Hash, store: Time -> Time, s: State, e: Entry): Row {
    Row(s.lastID + 1, NextRecord(h, Hashed(s.rows), e.piiID, e.erasedAt, e.origin).(erasedAt := store(e.erasedAt)), e.erasedAt)
  }

  lemma AloneFrom(h: Hash, store: Time -> Time, s: State, t: nat, e: Entry)
    requires IdOrder(s.rows) && t !in s.txs && s.holder.None?
    ensures var locked := Do(h, store, Do(h, store, s, Begin(t, e)), Lock(t));
            var s' := Do(h, store, Do(h, store, Do(h, store, locked, ReadTail(t)), Insert(t)), CommitTx(t));
            && s'.rows == s.rows + [NextRow(h, store, s, e)] && s'.committed == s.committed + [t]
            && s'.holder.None? && t in s'.txs && s'.txs[t] == Tx(e, Committed)
  {
    NewestIsLast(s.rows);
  }

  /**
   * From any state of any run in which the lock is free, an append that nobody interrupts adds
   * its row after the others, linked to the last of them, and gives the lock back.
   */
  lemma AppendsWhenFree(h: Hash, store: Time -> Time, steps: seq<Step>, t: nat, e: Entry)
    requires t !in Exec(h, store, steps).txs && Exec(h, store, steps).holder.None?
    ensures var s, s' := Exec(h, store, steps), Exec(h, store, steps + Alone(t, e));
            && s'.rows == s.rows + [NextRow(h, store, s, e)] && s'.committed == s.committed + [t]
            && s'.holder.None? && t in s'.txs && s'.txs[t] == Tx(e, Committed)
  {
    EveryRun(h, store, steps);
    AloneFrom(h, store, Exec(h, store, steps), t, e);
    AloneUnrolled(h, store, steps, t, e);
  }

  lemma AloneUnrolled(h: Hash, store: Time -> Time, steps: seq<Step>, t: nat, e: Entry)
    ensures var locked := Do(h, store, Do(h, store, Exec(h, store, steps), Begin(t, e)), Lock(t));
            Exec(h, store, steps + Alone(t, e)) == Do(h, store, Do(h, store, Do(h, store, locked, ReadTail(t)), Insert(t)), CommitTx(t))
  {
    var begun := steps + [Begin(t, e)];
    assert steps + Alone(t, e) == begun + [Lock(t)] + [ReadTail(t)] + [Insert(t)] + [CommitTx(t)];
    ExecPush(h, store, steps, Begin(t, e));
    ExecPush(h, store, begun, Lock(t));
    ExecPush(h, store, begun + [Lock(t)], ReadTail(t));
    ExecPush(h, store, begun + [Lock(t)] + [ReadTail(t)], Insert(t));
    ExecPush(h, store, begun + [Lock(t)] + [ReadTail(t)] + [Insert(t)], CommitTx(t));
  }

  // ---- times ----

  ghost predicate AllTimes(s: State, p: Time -> bool) {
    && (forall row :: row in s.rows ==> p(row.appended))
    && (forall t :: t in s.txs ==> p(s.txs[t].entry.erasedAt))
  }

  /** Rows hold times that calls of Append gave, so whatever is true of those is true of them. */
  lemma {:induction false} TimesWereGiven(h: Hash, store: Time -> Time, steps: seq<Step>, p: Time -> bool)
    requires forall i :: 0 <= i < |steps| && steps[i].Begin? ==> p(steps[i].entry.erasedAt)
    ensures AllTimes(Exec(h, store, steps), p)
  {
    if steps != [] {
      var init, step := steps[..|steps| - 1], steps[|steps| - 1];
      TimesWereGiven(h, store, init, p);
      EveryRun(h, store, init);
      var s := Exec(h, store, init);
      if !step.Begin? && step.t in s.txs {
        assert TxInv(h, store, s, step.t, s.txs[step.t]);
      }
    }
  }

  /** So callers whose times all keep their second always leave a ledger that passes. */
  lemma RowsAlwaysChain(h: Hash, store: Time -> Time, steps: seq<Step>)
    requires forall i :: 0 <= i < |steps| && steps[i].Begin? ==> KeepsSecond(store, steps[i].entry.erasedAt)
    ensures Chained(h, Records(Exec(h, store, steps).rows))
  {
    var rows := Exec(h, store, steps).rows;
    RowsChainIffSecondsKept(h, store, steps);
    TimesWereGiven(h, store, steps, (t: Time) => KeepsSecond(store, t));
    forall i | 0 <= i < |rows| ensures TimeHolds(h, Hashed(rows)[i], Records(rows)[i]) {
      assert rows[i] in rows;
    }
  }

  // ---- a column of microseconds ----

  const MICROSECOND := 1_000

  /** A TIMESTAMPTZ keeps the nearest microsecond. */
  function ToMicros(t: Time): Time {
    var r := (t + MICROSECOND / 2) / MICROSECOND * MICROSECOND;
    if r / SECOND < 0x8000_0000_0000_0000 then r else t
  }

  /** The last half microsecond of a second is stored in the next one; no other time changes second. */
  lemma ToMicrosKeepsSecondIff(t: Time)
    requires Seconds(t) < 0x7FFF_FFFF_FFFF_FFFF
    ensures KeepsSecond(ToMicros, t) <==> t % SECOND < SECOND - MICROSECOND / 2
    ensures !KeepsSecond(ToMicros, t) ==> ToMicros(t) == (Seconds(t) + 1) * SECOND
  {
    var n, f := t / SECOND, t % SECOND;
    var r := (f + MICROSECOND / 2) / MICROSECOND * MICROSECOND;
    assert (t + MICROSECOND / 2) / MICROSECOND == n * (SECOND / MICROSECOND) + (f + MICROSECOND / 2) / MICROSECOND;
    assert ToMicros(t) == n * SECOND + r;
    assert 0 <= r <= SECOND;
    assert r == SECOND <==> f >= SECOND - MICROSECOND / 2;
  }

  lemma FirstAppend(h: Hash, store: Time -> Time, t: nat, e: Entry)
    ensures Exec(h, store, Alone(t, e)).rows
            == [Row(1, ShredRecord(e.piiID, store(e.erasedAt), e.origin, ZERO, h(HashInput(ZERO, e.piiID, e.erasedAt, e.origin))), e.erasedAt)]
  {
    AppendsWhenFree(h, store, [], t, e);
    assert [] + Alone(t, e) == Alone(t, e);
  }

  /**
   * So one erasure in the last half microsecond of any second leaves a ledger that fails the check.
   */
  lemma LateErasureBreaksChain(h: Hash, t: nat, e: Entry)
    requires Seconds(e.erasedAt) < 0x7FFF_FFFF_FFFF_FFFF && e.erasedAt % SECOND >= SECOND - MICROSECOND / 2
    ensures var rows := Exec(h, ToMicros, Alone(t, e)).rows;
            && |rows| == 1 && RowOf(ToMicros, rows[0], e) && rows[0].record.erasedAt == (Seconds(e.erasedAt) + 1) * SECOND
            && (!Chained(h, Records(rows)) || Breaks(h, Collision(InputOf(Hashed(rows)[0]), InputOf(Records(rows)[0]))))
  {
    FirstAppend(h, ToMicros, t, e);
    RowsChainIffSecondsKept(h, ToMicros, Alone(t, e));
    ToMicrosKeepsSecondIff(e.erasedAt);
  }

  /** Say subject 7's, by event 42, 400 nanoseconds before the second is out. */
  lemma LateErasureOfSubject7(h: Hash, t: nat, e: Entry)
    requires e == Entry(7, 999_999_600, 42)
    ensures var rows := Exec(h, ToMicros, Alone(t, e)).rows;
            && |rows| == 1 && rows[0].appended == 999_999_600 && !KeepsSecond(ToMicros, rows[0].appended)
            && rows[0].record.piiID == 7 && rows[0].record.origin == 42 && rows[0].record.erasedAt == SECOND
  {
    LateErasureBreaksChain(h, t, e);
  }
}
