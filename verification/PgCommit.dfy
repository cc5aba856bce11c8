/**
 * Postgres commits as transactions whose steps interleave: begin, take the aggregate's
 * advisory lock, read the current version, insert row by row, commit or roll back. Each
 * statement reads committed rows only; a rollback may come at any point before the commit.
 */
module PgCommit {
  import opened Common
  import opened Events
  import opened EventLog

  datatype Request = Request(aggregateID: Uuid, batch: seq<Event>, expected: nat, tenant: Option<Uuid>)

  datatype Phase = Begun | Locked | Checked | Committed | RolledBack

  datatype Tx = Tx(request: Request, phase: Phase, inserted: seq<Event>)

  /** rows: the committed table in commit order; locks: advisory lock number to its holder. */
  datatype State = State(rows: seq<Event>, lastID: nat, locks: map<int, nat>, txs: map<nat, Tx>, committed: seq<Request>)

  datatype Step =
    | Begin(t: nat, request: Request)
    | Lock(t: nat)
    | CheckVersion(t: nat)
    | Insert(t: nat)
    | CommitTx(t: nat)
    | Rollback(t: nat)

  const INITIAL := State([], 0, map[], map[], [])

  /** The rows a commit's version query looks at. */
  function InScope(a: Uuid, t: Option<Uuid>): Event -> bool {
    (e: Event) => e.aggregateID == a && (t.Some? ==> e.tenantID == t.value)
  }

  function MaxVersion(rows: seq<Event>): nat {
    if rows == [] then 0
    else
      var m, v := MaxVersion(rows[..|rows| - 1]), rows[|rows| - 1].version;
      if m < v then v else m
  }

  function RowsOf(rows: seq<Event>, a: Uuid): seq<Event> {
    Filter(OfAggregate(a), rows)
  }

  /** The batch RecordThat builds: one aggregate, versions following the expected one. */
  ghost predicate WellFormed(r: Request) {
    && r.batch != []
    && forall i :: 0 <= i < |r.batch| ==> r.batch[i].aggregateID == r.aggregateID && r.batch[i].version == r.expected + 1 + i
  }

  /** UNIQUE (aggregate_id, aggregate_version). */
  ghost predicate Taken(rows: seq<Event>, e: Event) {
    exists r :: r in rows && r.aggregateID == e.aggregateID && r.version == e.version
  }

  function Holds(phase: Phase): bool {
    phase == Locked || phase == Checked
  }

  /** Ending a transaction releases its lock; how it ended decides whether its rows exist. */
  function End(h: Uuid -> int, s: State, t: nat, phase: Phase): State
    requires t in s.txs
  {
    var tx := s.txs[t];
    s.(locks := if Holds(tx.phase) then s.locks - {h(tx.request.aggregateID)} else s.locks,
       txs := s.txs[t := tx.(phase := phase)])
  }

  /** One step of one transaction, h being hashtext; a step that is not enabled changes nothing. */
  ghost function Do(h: Uuid -> int, s: State, step: Step): State {
    if step.Begin? then
      if step.t !in s.txs && WellFormed(step.request)
      then s.(txs := s.txs[step.t := Tx(step.request, Begun, [])]) else s
    else if step.t !in s.txs then s
    else
      var t, tx := step.t, s.txs[step.t];
      var r := tx.request;
      match step
      case Lock(_) =>
        if tx.phase == Begun && h(r.aggregateID) !in s.locks
        then s.(locks := s.locks[h(r.aggregateID) := t], txs := s.txs[t := tx.(phase := Locked)]) else s
      case CheckVersion(_) =>
        if tx.phase != Locked then s
        else if MaxVersion(Filter(InScope(r.aggregateID, r.tenant), s.rows)) != r.expected then End(h, s, t, RolledBack)
        else s.(txs := s.txs[t := tx.(phase := Checked)])
      case Insert(_) =>
        if tx.phase != Checked || |tx.inserted| >= |r.batch| then s
        else
          var e := Stamp(r.tenant, r.batch[|tx.inserted|]).(globalID := s.lastID + 1);
          if Taken(s.rows, e) then End(h, s, t, RolledBack).(lastID := s.lastID + 1)
          else if exists u :: u in s.txs && u != t && s.txs[u].phase == Checked && Taken(s.txs[u].inserted, e) then s
          else s.(lastID := s.lastID + 1, txs := s.txs[t := tx.(inserted := tx.inserted + [e])])
      case CommitTx(_) =>
        if tx.phase == Checked && |tx.inserted| == |r.batch|
        then End(h, s, t, Committed).(rows := s.rows + tx.inserted, committed := s.committed + [r]) else s
      case Rollback(_) =>
        if tx.phase != Committed then End(h, s, t, RolledBack) else s
  }

  ghost function Exec(h: Uuid -> int, steps: seq<Step>): State {
    if steps == [] then INITIAL else Do(h, Exec(h, steps[..|steps| - 1]), steps[|steps| - 1])
  }

  // ---- the invariant ----

  ghost predicate Contiguous(rows: seq<Event>, a: Uuid) {
    forall i :: 0 <= i < |RowsOf(rows, a)| ==> RowsOf(rows, a)[i].version == i + 1
  }

  /** What the first n inserts of a request wrote, up to the ids drawn for them. */
  ghost predicate Wrote(r: Request, inserted: seq<Event>) {
    && |inserted| <= |r.batch|
    && forall i :: 0 <= i < |inserted| ==> inserted[i] == Stamp(r.tenant, r.batch[i]).(globalID := inserted[i].globalID)
  }

  ghost predicate TxInv(h: Uuid -> int, s: State, t: nat, tx: Tx) {
    && WellFormed(tx.request)
    && Wrote(tx.request, tx.inserted)
    && (Holds(tx.phase) <==> h(tx.request.aggregateID) in s.locks && s.locks[h(tx.request.aggregateID)] == t)
    && (tx.phase == Begun || tx.phase == Locked ==> tx.inserted == [])
    && (tx.phase == Checked ==>
          var n := |RowsOf(s.rows, tx.request.aggregateID)|;
          tx.request.expected <= n && (tx.inserted != [] ==> tx.request.expected == n))
  }

  function NoIDs(es: seq<Event>): seq<Event> {
    seq(|es|, i requires 0 <= i < |es| => es[i].(globalID := 0))
  }

  /** The committed requests' batches, one after another. */
  function Written(committed: seq<Request>): seq<Event> {
    if committed == [] then []
    else
      var r := committed[|committed| - 1];
      Written(committed[..|committed| - 1]) + NoIDs(StampAll(r.tenant, r.batch))
  }

  /** Commits to one aggregate start where the earlier ones ended. */
  ghost predicate Chained(committed: seq<Request>) {
    forall i, j :: 0 <= i < j < |committed| && committed[i].aggregateID == committed[j].aggregateID
                   ==> committed[i].expected + |committed[i].batch| <= committed[j].expected
  }

  ghost predicate RowsInv(s: State) {
    && (forall a :: Contiguous(s.rows, a))
    && NoIDs(s.rows) == Written(s.committed)
    && Chained(s.committed)
    && forall i :: 0 <= i < |s.committed| ==>
         s.committed[i].batch != []
         && s.committed[i].expected + |s.committed[i].batch| <= |RowsOf(s.rows, s.committed[i].aggregateID)|
  }

  /** Every lock is held by a transaction of an aggregate that maps to it. */
  ghost predicate LockInv(h: Uuid -> int, s: State) {
    forall k :: k in s.locks ==> s.locks[k] in s.txs && h(s.txs[s.locks[k]].request.aggregateID) == k
  }

  ghost predicate Inv(h: Uuid -> int, s: State) {
    && RowsInv(s)
    && LockInv(h, s)
    && forall t :: t in s.txs ==> TxInv(h, s, t, s.txs[t])
  }

  // ---- versions ----

  lemma {:induction false} MaxVersionBound(rows: seq<Event>, n: nat)
    requires forall e :: e in rows ==> e.version <= n
    ensures MaxVersion(rows) <= n
    ensures (exists e :: e in rows && e.version == n) ==> MaxVersion(rows) == n
  {
    if rows != [] {
      var init := rows[..|rows| - 1];
      assert rows == init + [rows[|rows| - 1]];
      MaxVersionBound(init, n);
    }
  }

  /** A version query never sees past the aggregate's tip, and sees the tip when all rows are in scope. */
  lemma VersionQuery(rows: seq<Event>, a: Uuid, t: Option<Uuid>)
    requires Contiguous(rows, a)
    ensures MaxVersion(Filter(InScope(a, t), rows)) <= |RowsOf(rows, a)|
    ensures (forall e :: e in rows && e.aggregateID == a ==> InScope(a, t)(e))
            ==> MaxVersion(Filter(InScope(a, t), rows)) == |RowsOf(rows, a)|
  {
    var mine, scope := RowsOf(rows, a), Filter(InScope(a, t), rows);
    forall e | e in scope ensures e.version <= |mine| {
      FilterMember(InScope(a, t), rows, e);
      FilterMember(OfAggregate(a), rows, e);
    }
    MaxVersionBound(scope, |mine|);
    if forall e :: e in rows && e.aggregateID == a ==> InScope(a, t)(e) {
      FilterSame(InScope(a, t), OfAggregate(a), rows);
      if mine != [] {
        assert mine[|mine| - 1] in scope;
      }
    }
  }

  /** The unique constraint rejects exactly the versions up to the aggregate's tip. */
  lemma TakenIff(rows: seq<Event>, e: Event)
    requires Contiguous(rows, e.aggregateID)
    ensures Taken(rows, e) <==> 1 <= e.version <= |RowsOf(rows, e.aggregateID)|
  {
    var mine := RowsOf(rows, e.aggregateID);
    if Taken(rows, e) {
      var r :| r in rows && r.aggregateID == e.aggregateID && r.version == e.version;
      FilterMember(OfAggregate(e.aggregateID), rows, r);
    }
    if 1 <= e.version <= |mine| {
      FilterMember(OfAggregate(e.aggregateID), rows, mine[e.version - 1]);
    }
  }

  // ---- steps ----

  /** Steps that leave the table alone and change one transaction and at most its own lock. */
  lemma TxStep(h: Uuid -> int, s: State, s': State, t: nat)
    requires Inv(h, s) && s'.rows == s.rows && s'.committed == s.committed
    requires t in s'.txs && TxInv(h, s', t, s'.txs[t])
    requires forall u :: u in s'.txs && u != t ==> u in s.txs && s'.txs[u] == s.txs[u]
    requires s.txs.Keys <= s'.txs.Keys && (t in s.txs ==> s'.txs[t].request == s.txs[t].request)
    requires var k := h(s'.txs[t].request.aggregateID);
             && s'.locks - {k} == s.locks - {k}
             && (k in s.locks && s.locks[k] != t ==> s'.locks == s.locks)
             && (k in s'.locks ==> s'.locks[k] == t || s'.locks == s.locks)
    ensures Inv(h, s')
  {
    var k := h(s'.txs[t].request.aggregateID);
    forall j | j != k ensures (j in s'.locks <==> j in s.locks) && (j in s.locks ==> s'.locks[j] == s.locks[j]) {
      assert j in s.locks <==> j in s.locks - {k};
      assert j in s'.locks <==> j in s'.locks - {k};
      assert j in s.locks ==> (s.locks - {k})[j] == (s'.locks - {k})[j];
    }
    forall u | u in s'.txs && u != t ensures TxInv(h, s', u, s'.txs[u]) {
      assert TxInv(h, s, u, s.txs[u]);
    }
  }

  lemma EndKeepsInv(h: Uuid -> int, s: State, t: nat)
    requires Inv(h, s) && t in s.txs && s.txs[t].phase != Committed
    ensures Inv(h, End(h, s, t, RolledBack))
  {
    TxStep(h, s, End(h, s, t, RolledBack), t);
  }

  lemma InsertStep(h: Uuid -> int, s: State, t: nat)
    requires Inv(h, s)
    ensures Inv(h, Do(h, s, Insert(t)))
  {
    var s' := Do(h, s, Insert(t));
    if s' != s {
      var tx := s.txs[t];
      var e := Stamp(tx.request.tenant, tx.request.batch[|tx.inserted|]).(globalID := s.lastID + 1);
      if Taken(s.rows, e) {
        EndKeepsInv(h, s, t);
        TxStep(h, End(h, s, t, RolledBack), s', t);
      } else {
        assert Contiguous(s.rows, e.aggregateID);
        TakenIff(s.rows, e);
        TxStep(h, s, s', t);
      }
    }
  }

  /** Committing extends the one aggregate, whose lock the transaction holds, and no other. */
  lemma ExtendRows(rows: seq<Event>, tx: Tx, a: Uuid)
    requires WellFormed(tx.request) && Wrote(tx.request, tx.inserted)
    ensures RowsOf(rows + tx.inserted, a) == RowsOf(rows, a) + (if a == tx.request.aggregateID then tx.inserted else [])
  {
    FilterConcat(OfAggregate(a), rows, tx.inserted);
    if a == tx.request.aggregateID {
      FilterAll(OfAggregate(a), tx.inserted);
    } else {
      FilterNone(OfAggregate(a), tx.inserted);
    }
  }

  lemma CommitWritten(s: State, tx: Tx)
    requires NoIDs(s.rows) == Written(s.committed)
    requires Wrote(tx.request, tx.inserted) && |tx.inserted| == |tx.request.batch|
    ensures NoIDs(s.rows + tx.inserted) == Written(s.committed + [tx.request])
  {
    var r := tx.request;
    assert (s.committed + [r])[..|s.committed|] == s.committed;
    assert NoIDs(tx.inserted) == NoIDs(StampAll(r.tenant, r.batch));
    assert NoIDs(s.rows + tx.inserted) == NoIDs(s.rows) + NoIDs(tx.inserted);
  }

  lemma CommitRows(s: State, tx: Tx)
    requires RowsInv(s) && WellFormed(tx.request) && Wrote(tx.request, tx.inserted)
    requires |tx.inserted| == |tx.request.batch|
    requires tx.request.expected == |RowsOf(s.rows, tx.request.aggregateID)|
    ensures RowsInv(s.(rows := s.rows + tx.inserted, committed := s.committed + [tx.request]))
    ensures forall a :: a != tx.request.aggregateID ==> RowsOf(s.rows + tx.inserted, a) == RowsOf(s.rows, a)
  {
    forall a ensures RowsOf(s.rows + tx.inserted, a) == RowsOf(s.rows, a) + (if a == tx.request.aggregateID then tx.inserted else []) {
      ExtendRows(s.rows, tx, a);
    }
    CommitWritten(s, tx);
    forall a ensures Contiguous(s.rows + tx.inserted, a) {
      assert Contiguous(s.rows, a);
    }
  }

  lemma CommitStep(h: Uuid -> int, s: State, t: nat)
    requires Inv(h, s)
    ensures Inv(h, Do(h, s, CommitTx(t)))
  {
    var s' := Do(h, s, CommitTx(t));
    if s' != s {
      var tx := s.txs[t];
      assert TxInv(h, s, t, tx);
      CommitRows(s, tx);
      forall u | u in s'.txs ensures TxInv(h, s', u, s'.txs[u]) {
        assert TxInv(h, s, u, s.txs[u]);
      }
    }
  }

  lemma BeginStep(h: Uuid -> int, s: State, t: nat, r: Request)
    requires Inv(h, s)
    ensures Inv(h, Do(h, s, Begin(t, r)))
  {
    var s', k := Do(h, s, Begin(t, r)), h(r.aggregateID);
    if s' != s {
      assert k in s.locks ==> s.locks[k] in s.txs;
      TxStep(h, s, s', t);
    }
  }

  lemma LockStep(h: Uuid -> int, s: State, t: nat)
    requires Inv(h, s)
    ensures Inv(h, Do(h, s, Lock(t)))
  {
    var s' := Do(h, s, Lock(t));
    if s' != s {
      TxStep(h, s, s', t);
    }
  }

  lemma CheckStep(h: Uuid -> int, s: State, t: nat)
    requires Inv(h, s)
    ensures Inv(h, Do(h, s, CheckVersion(t)))
  {
    var s' := Do(h, s, CheckVersion(t));
    if s' != s {
      var r := s.txs[t].request;
      assert Contiguous(s.rows, r.aggregateID);
      VersionQuery(s.rows, r.aggregateID, r.tenant);
      TxStep(h, s, s', t);
    }
  }

  lemma StepKeepsInv(h: Uuid -> int, s: State, step: Step)
    requires Inv(h, s)
    ensures Inv(h, Do(h, s, step))
  {
    match step {
      case Begin(t, r) => BeginStep(h, s, t, r);
      case Lock(t) => LockStep(h, s, t);
      case CheckVersion(t) => CheckStep(h, s, t);
      case Insert(t) => InsertStep(h, s, t);
      case CommitTx(t) => CommitStep(h, s, t);
      case Rollback(t) =>
        if t in s.txs && s.txs[t].phase != Committed {
          EndKeepsInv(h, s, t);
        }
    }
  }

  lemma {:induction false} EveryRun(h: Uuid -> int, steps: seq<Step>)
    ensures Inv(h, Exec(h, steps))
  {
    if steps != [] {
      EveryRun(h, steps[..|steps| - 1]);
      StepKeepsInv(h, Exec(h, steps[..|steps| - 1]), steps[|steps| - 1]);
    }
  }

  // ---- results ----

  /** In every interleaving each aggregate's committed versions are 1, 2, 3, ... in commit order. */
  lemma VersionsContiguous(h: Uuid -> int, steps: seq<Step>, a: Uuid)
    ensures Contiguous(Exec(h, steps).rows, a)
  {
    EveryRun(h, steps);
  }

  /** Of all the commits that expect the same version of an aggregate, at most one succeeds. */
  lemma OneWinner(h: Uuid -> int, steps: seq<Step>, i: nat, j: nat)
    requires i < |Exec(h, steps).committed| && j < |Exec(h, steps).committed|
    ensures var c := Exec(h, steps).committed;
            c[i].aggregateID == c[j].aggregateID && c[i].expected == c[j].expected ==> i == j
  {
    EveryRun(h, steps);
  }

  /** The table is exactly the committed batches, each whole: a batch that did not commit left nothing. */
  lemma AllOrNothing(h: Uuid -> int, steps: seq<Step>)
    ensures NoIDs(Exec(h, steps).rows) == Written(Exec(h, steps).committed)
  {
    EveryRun(h, steps);
  }

  // ---- what the lock adds when each aggregate lives in one tenant ----

  ghost predicate OneTenant(home: Uuid -> Uuid, r: Request) {
    && (r.tenant.Some? ==> r.tenant.value == home(r.aggregateID))
    && forall e :: e in r.batch ==> Stamp(r.tenant, e).tenantID == home(r.aggregateID)
  }

  ghost predicate HomeInv(home: Uuid -> Uuid, s: State) {
    && (forall e :: e in s.rows ==> e.tenantID == home(e.aggregateID))
    && (forall t :: t in s.txs ==> OneTenant(home, s.txs[t].request))
    && forall t :: t in s.txs && s.txs[t].phase == Checked
                   ==> s.txs[t].request.expected == |RowsOf(s.rows, s.txs[t].request.aggregateID)|
  }

  lemma InsertedAtHome(home: Uuid -> Uuid, r: Request, inserted: seq<Event>)
    requires OneTenant(home, r) && WellFormed(r) && Wrote(r, inserted)
    ensures forall e :: e in inserted ==> e.tenantID == home(e.aggregateID)
  {
    forall i | 0 <= i < |inserted| ensures inserted[i].tenantID == home(inserted[i].aggregateID) {
      assert r.batch[i] in r.batch;
    }
  }

  /** The lock keeps every other checked transaction off the aggregate that is committing. */
  lemma OthersStillMatch(h: Uuid -> int, home: Uuid -> Uuid, s: State, t: nat, u: nat)
    requires Inv(h, s) && HomeInv(home, s) && RowsInv(s)
    requires t in s.txs && s.txs[t].phase == Checked && |s.txs[t].inserted| == |s.txs[t].request.batch|
    requires u in s.txs && u != t && s.txs[u].phase == Checked
    ensures s.txs[u].request.expected == |RowsOf(s.rows + s.txs[t].inserted, s.txs[u].request.aggregateID)|
  {
    assert TxInv(h, s, t, s.txs[t]) && TxInv(h, s, u, s.txs[u]);
    CommitRows(s, s.txs[t]);
  }

  lemma CommitKeepsHome(h: Uuid -> int, home: Uuid -> Uuid, s: State, t: nat)
    requires Inv(h, s) && HomeInv(home, s)
    requires t in s.txs && s.txs[t].phase == Checked && |s.txs[t].inserted| == |s.txs[t].request.batch|
    ensures HomeInv(home, Do(h, s, CommitTx(t)))
  {
    var s', tx := Do(h, s, CommitTx(t)), s.txs[t];
    assert TxInv(h, s, t, tx);
    InsertedAtHome(home, tx.request, tx.inserted);
    forall u | u in s'.txs && s'.txs[u].phase == Checked
      ensures s'.txs[u].request.expected == |RowsOf(s'.rows, s'.txs[u].request.aggregateID)|
    {
      OthersStillMatch(h, home, s, t, u);
    }
  }

  lemma StepKeepsHome(h: Uuid -> int, home: Uuid -> Uuid, s: State, step: Step)
    requires Inv(h, s) && HomeInv(home, s)
    requires step.Begin? ==> OneTenant(home, step.request)
    ensures HomeInv(home, Do(h, s, step))
  {
    match step {
      case CheckVersion(t) => CheckKeepsHome(h, home, s, t);
      case CommitTx(t) =>
        if Do(h, s, step) != s {
          CommitKeepsHome(h, home, s, t);
        }
      case _ => OtherStepsKeepHome(h, home, s, step);
    }
  }

  lemma CheckKeepsHome(h: Uuid -> int, home: Uuid -> Uuid, s: State, t: nat)
    requires Inv(h, s) && HomeInv(home, s)
    ensures HomeInv(home, Do(h, s, CheckVersion(t)))
  {
    if t in s.txs {
      var r := s.txs[t].request;
      assert Contiguous(s.rows, r.aggregateID);
      VersionQuery(s.rows, r.aggregateID, r.tenant);
    }
  }

  lemma OtherStepsKeepHome(h: Uuid -> int, home: Uuid -> Uuid, s: State, step: Step)
    requires HomeInv(home, s) && !step.CheckVersion? && !step.CommitTx?
    requires step.Begin? ==> OneTenant(home, step.request)
    ensures HomeInv(home, Do(h, s, step))
  {
  }

  lemma {:induction false} EveryHomeRun(h: Uuid -> int, home: Uuid -> Uuid, steps: seq<Step>)
    requires forall i :: 0 <= i < |steps| && steps[i].Begin? ==> OneTenant(home, steps[i].request)
    ensures HomeInv(home, Exec(h, steps))
  {
    if steps != [] {
      EveryHomeRun(h, home, steps[..|steps| - 1]);
      EveryRun(h, steps[..|steps| - 1]);
      StepKeepsHome(h, home, Exec(h, steps[..|steps| - 1]), steps[|steps| - 1]);
    }
  }

  /**
   * The lock makes the version check final: a transaction that has passed it still matches
   * the table until it ends, so the unique constraint never rejects any of its inserts.
   */
  lemma CheckNeverRaces(h: Uuid -> int, home: Uuid -> Uuid, steps: seq<Step>, t: nat)
    requires forall i :: 0 <= i < |steps| && steps[i].Begin? ==> OneTenant(home, steps[i].request)
    requires t in Exec(h, steps).txs && Exec(h, steps).txs[t].phase == Checked
    ensures var s := Exec(h, steps);
            var tx := s.txs[t];
            && tx.request.expected == |RowsOf(s.rows, tx.request.aggregateID)|
            && forall i :: 0 <= i < |tx.request.batch| ==> !Taken(s.rows, tx.request.batch[i])
  {
    EveryRun(h, steps);
    EveryHomeRun(h, home, steps);
    var s := Exec(h, steps);
    var r := s.txs[t].request;
    assert TxInv(h, s, t, s.txs[t]);
    assert Contiguous(s.rows, r.aggregateID);
    forall i | 0 <= i < |r.batch| ensures !Taken(s.rows, r.batch[i]) {
      TakenIff(s.rows, r.batch[i]);
    }
  }
}
