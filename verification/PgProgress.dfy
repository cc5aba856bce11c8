/** What gets through: when a Postgres commit passes its check, and that it then cannot fail. */
module PgProgress {
  import opened Common
  import opened Events
  import opened EventLog
  import opened PgCommit
  import opened PgRefines

  /** Every aggregate is worked on under one tenant. */
  ghost predicate HomeRun(home: Uuid -> Uuid, steps: seq<Step>) {
    forall i :: 0 <= i < |steps| && steps[i].Begin? ==> OneTenant(home, steps[i].request)
  }

  lemma ExecPush(h: Uuid -> int, steps: seq<Step>, step: Step)
    ensures Exec(h, steps + [step]) == Do(h, Exec(h, steps), step)
  {
    assert (steps + [step])[..|steps|] == steps;
  }

  // ---- one step ----

  /** A row of aggregate a and of tenant t, or of any tenant when there is no t. */
  predicate Counts(e: Event, a: Uuid, t: Option<Uuid>) {
    e.aggregateID == a && (t.None? || e.tenantID == t.value)
  }

  /** n is the highest version among those rows, or 0 when there is none. */
  ghost predicate Highest(rows: seq<Event>, a: Uuid, t: Option<Uuid>, n: nat) {
    && (forall e :: e in rows && Counts(e, a, t) ==> e.version <= n)
    && (n == 0 || exists e :: e in rows && Counts(e, a, t) && e.version == n)
  }

  lemma HighestPush(init: seq<Event>, last: Event, a: Uuid, t: Option<Uuid>, n: nat)
    requires Highest(init, a, t, n)
    ensures Highest(init + [last], a, t, if Counts(last, a, t) && n < last.version then last.version else n)
  {
    var rows := init + [last];
    assert rows[|init|] in rows;
    forall e | e in init && e.version == n ensures e in rows {
    }
  }

  lemma {:induction false} QueryFindsHighest(rows: seq<Event>, a: Uuid, t: Option<Uuid>)
    ensures Highest(rows, a, t, MaxVersion(Filter(InScope(a, t), rows)))
  {
    if rows != [] {
      var init, last := rows[..|rows| - 1], rows[|rows| - 1];
      assert rows == init + [last];
      QueryFindsHighest(init, a, t);
      HighestPush(init, last, a, t, MaxVersion(Filter(InScope(a, t), init)));
      FilterPush(InScope(a, t), init, last);
      assert Filter(InScope(a, t), init) + [] == Filter(InScope(a, t), init);
      MaxPush(Filter(InScope(a, t), init), last);
    }
  }

  lemma MaxPush(rows: seq<Event>, e: Event)
    ensures MaxVersion(rows + [e]) == if MaxVersion(rows) < e.version then e.version else MaxVersion(rows)
  {
    assert (rows + [e])[..|rows|] == rows;
  }

  lemma OneHighest(rows: seq<Event>, a: Uuid, t: Option<Uuid>, m: nat, n: nat)
    requires Highest(rows, a, t, m) && Highest(rows, a, t, n)
    ensures m == n
  {
  }

  /**
   * In every run, whoever works on what, a locked transaction passes its check if and only if
   * the version it expects is the highest among the aggregate's rows of its tenant, or of all
   * tenants when it names none, and 0 if there is no such row.
   */
  lemma CheckPassesIff(h: Uuid -> int, steps: seq<Step>, t: nat)
    requires t in Exec(h, steps).txs && Exec(h, steps).txs[t].phase == Locked
    ensures var s, s' := Exec(h, steps), Do(h, Exec(h, steps), CheckVersion(t));
            var r := s.txs[t].request;
            && t in s'.txs && s'.txs[t].request == r && s'.rows == s.rows && s'.committed == s.committed
            && s'.txs[t].phase == if Highest(s.rows, r.aggregateID, r.tenant, r.expected) then Checked else RolledBack
  {
    var s := Exec(h, steps);
    var r := s.txs[t].request;
    QueryFindsHighest(s.rows, r.aggregateID, r.tenant);
    if Highest(s.rows, r.aggregateID, r.tenant, r.expected) {
      OneHighest(s.rows, r.aggregateID, r.tenant, r.expected, MaxVersion(Filter(InScope(r.aggregateID, r.tenant), s.rows)));
    }
  }

  ghost predicate AtHome(home: Uuid -> Uuid, rows: seq<Event>) {
    forall e :: e in rows ==> e.tenantID == home(e.aggregateID)
  }

  lemma CheckAtTip(h: Uuid -> int, home: Uuid -> Uuid, s: State, t: nat)
    requires t in s.txs && s.txs[t].phase == Locked && OneTenant(home, s.txs[t].request)
    requires AtHome(home, s.rows) && Contiguous(s.rows, s.txs[t].request.aggregateID)
    ensures var tx := s.txs[t];
            Do(h, s, CheckVersion(t))
            == (if tx.request.expected == |RowsOf(s.rows, tx.request.aggregateID)|
                then s.(txs := s.txs[t := tx.(phase := Checked)])
                else s.(txs := s.txs[t := tx.(phase := RolledBack)], locks := s.locks - {h(tx.request.aggregateID)}))
  {
    var r := s.txs[t].request;
    VersionQuery(s.rows, r.aggregateID, r.tenant);
  }

  /** With one tenant per aggregate that is the number of rows the aggregate has. */
  lemma CheckPassesIffAtTip(h: Uuid -> int, home: Uuid -> Uuid, steps: seq<Step>, t: nat)
    requires HomeRun(home, steps)
    requires t in Exec(h, steps).txs && Exec(h, steps).txs[t].phase == Locked
    ensures var s, s' := Exec(h, steps), Do(h, Exec(h, steps), CheckVersion(t));
            var tx := s.txs[t];
            s' == (if tx.request.expected == |RowsOf(s.rows, tx.request.aggregateID)|
                   then s.(txs := s.txs[t := tx.(phase := Checked)])
                   else s.(txs := s.txs[t := tx.(phase := RolledBack)], locks := s.locks - {h(tx.request.aggregateID)}))
  {
    EveryRun(h, steps);
    EveryHomeRun(h, home, steps);
    assert Contiguous(Exec(h, steps).rows, Exec(h, steps).txs[t].request.aggregateID);
    CheckAtTip(h, home, Exec(h, steps), t);
  }

  /** Nobody else can be inserting into an aggregate whose lock is held. */
  lemma OthersElsewhere(h: Uuid -> int, s: State, t: nat, u: nat, e: Event)
    requires Inv(h, s) && t in s.txs && s.txs[t].phase == Checked && e.aggregateID == s.txs[t].request.aggregateID
    requires u in s.txs && u != t && s.txs[u].phase == Checked
    ensures !Taken(s.txs[u].inserted, e)
  {
    assert TxInv(h, s, t, s.txs[t]) && TxInv(h, s, u, s.txs[u]);
  }

  /** The state once t has inserted n events of its batch, drawing the next n ids. */
  function Inserted(s: State, t: nat, n: nat): State
    requires t in s.txs && n <= |s.txs[t].request.batch|
  {
    var r := s.txs[t].request;
    s.(lastID := s.lastID + n, txs := s.txs[t := s.txs[t].(inserted := Number(StampAll(r.tenant, r.batch), s.lastID)[..n])])
  }

  /** Nobody has, or is about to have, the versions t is about to write. */
  ghost predicate Unopposed(s: State, t: nat)
    requires t in s.txs
  {
    forall e: Event :: e.aggregateID == s.txs[t].request.aggregateID && e.version > s.txs[t].request.expected ==>
      !Taken(s.rows, e) && forall u :: u in s.txs && u != t && s.txs[u].phase == Checked ==> !Taken(s.txs[u].inserted, e)
  }

  lemma CheckedIsUnopposed(h: Uuid -> int, home: Uuid -> Uuid, s: State, t: nat)
    requires Inv(h, s) && HomeInv(home, s) && t in s.txs && s.txs[t].phase == Checked
    ensures Unopposed(s, t) && WellFormed(s.txs[t].request)
  {
    var r := s.txs[t].request;
    assert TxInv(h, s, t, s.txs[t]) && Contiguous(s.rows, r.aggregateID);
    forall e: Event | e.aggregateID == r.aggregateID && e.version > r.expected
      ensures !Taken(s.rows, e) && forall u :: u in s.txs && u != t && s.txs[u].phase == Checked ==> !Taken(s.txs[u].inserted, e)
    {
      TakenIff(s.rows, e);
      forall u | u in s.txs && u != t && s.txs[u].phase == Checked ensures !Taken(s.txs[u].inserted, e) {
        OthersElsewhere(h, s, t, u, e);
      }
    }
  }

  lemma InsertLandsAt(h: Uuid -> int, s: State, t: nat, e: Event)
    requires t in s.txs && s.txs[t].phase == Checked && WellFormed(s.txs[t].request) && Unopposed(s, t)
    requires |s.txs[t].inserted| < |s.txs[t].request.batch|
    requires e == Stamp(s.txs[t].request.tenant, s.txs[t].request.batch[|s.txs[t].inserted|]).(globalID := s.lastID + 1)
    ensures Do(h, s, Insert(t)) == s.(lastID := s.lastID + 1, txs := s.txs[t := s.txs[t].(inserted := s.txs[t].inserted + [e])])
  {
  }

  /**
   * Once the check is passed nothing the others do can stop the transaction: its next insert
   * neither conflicts nor waits, and writes the next event of its batch under the next id.
   */
  lemma InsertLands(h: Uuid -> int, home: Uuid -> Uuid, steps: seq<Step>, t: nat)
    requires HomeRun(home, steps)
    requires t in Exec(h, steps).txs && Exec(h, steps).txs[t].phase == Checked
    requires |Exec(h, steps).txs[t].inserted| < |Exec(h, steps).txs[t].request.batch|
    ensures var s := Exec(h, steps);
            var tx := s.txs[t];
            var e := Stamp(tx.request.tenant, tx.request.batch[|tx.inserted|]).(globalID := s.lastID + 1);
            Do(h, s, Insert(t)) == s.(lastID := s.lastID + 1, txs := s.txs[t := tx.(inserted := tx.inserted + [e])])
  {
    var s := Exec(h, steps);
    var tx := s.txs[t];
    EveryRun(h, steps);
    EveryHomeRun(h, home, steps);
    CheckedIsUnopposed(h, home, s, t);
    InsertLandsAt(h, s, t, Stamp(tx.request.tenant, tx.request.batch[|tx.inserted|]).(globalID := s.lastID + 1));
  }

  // ---- a whole commit ----

  ghost function Run(h: Uuid -> int): seq<Step> -> State {
    steps => Exec(h, steps)
  }

  lemma StepLeads(h: Uuid -> int, s: State, step: Step)
    ensures Leads(Run(h), [step], s, Do(h, s, step))
  {
    forall steps | Run(h)(steps) == s ensures Run(h)(steps + [step]) == Do(h, s, step) {
      ExecPush(h, steps, step);
    }
  }

  function Inserts(t: nat, n: nat): seq<Step> {
    Blocks(_ => [Insert(t)], n)
  }

  lemma OneMoreInserted(s: State, t: nat, n: nat)
    requires t in s.txs && n < |s.txs[t].request.batch|
    ensures var r, now := s.txs[t].request, Inserted(s, t, n);
            var e := Stamp(r.tenant, r.batch[n]).(globalID := now.lastID + 1);
            now.(lastID := now.lastID + 1, txs := now.txs[t := now.txs[t].(inserted := now.txs[t].inserted + [e])]) == Inserted(s, t, n + 1)
  {
    var r := s.txs[t].request;
    var all := Number(StampAll(r.tenant, r.batch), s.lastID);
    assert all[..n + 1] == all[..n] + [all[n]];
  }

  lemma NextInsert(h: Uuid -> int, s: State, t: nat, n: nat)
    requires t in s.txs && s.txs[t].phase == Checked && n < |s.txs[t].request.batch|
    requires WellFormed(s.txs[t].request) && Unopposed(s, t)
    ensures Do(h, Inserted(s, t, n), Insert(t)) == Inserted(s, t, n + 1)
  {
    var now, r := Inserted(s, t, n), s.txs[t].request;
    InsertLandsAt(h, now, t, Stamp(r.tenant, r.batch[n]).(globalID := now.lastID + 1));
    OneMoreInserted(s, t, n);
  }

  lemma InsertsLand(h: Uuid -> int, s: State, t: nat)
    requires t in s.txs && s.txs[t].phase == Checked && s.txs[t].inserted == []
    requires WellFormed(s.txs[t].request) && Unopposed(s, t)
    ensures Leads(Run(h), Inserts(t, |s.txs[t].request.batch|), s, Inserted(s, t, |s.txs[t].request.batch|))
  {
    var n := |s.txs[t].request.batch|;
    var at := (k: nat) => if k <= n then Inserted(s, t, k) else s;
    assert s.txs[t := s.txs[t]] == s.txs;
    assert at(0) == s;
    forall k: nat | k < n ensures Leads(Run(h), [Insert(t)], at(k), at(k + 1)) {
      NextInsert(h, s, t, k);
      StepLeads(h, at(k), Insert(t));
    }
    BlocksLead(Run(h), _ => [Insert(t)], at, n);
  }

  /** The steps of one commit, nobody between. */
  function Alone(t: nat, r: Request): seq<Step> {
    [Begin(t, r)] + [Lock(t)] + [CheckVersion(t)] + Inserts(t, |r.batch|) + [CommitTx(t)]
  }

  /** Its first three steps. */
  function UpToCheck(steps: seq<Step>, t: nat, r: Request): seq<Step> {
    steps + [Begin(t, r)] + [Lock(t)] + [CheckVersion(t)]
  }

  lemma AloneUnrolled(steps: seq<Step>, t: nat, r: Request)
    ensures steps + Alone(t, r) == UpToCheck(steps, t, r) + Inserts(t, |r.batch|) + [CommitTx(t)]
  {
  }

  /** The transaction holds its lock. */
  function LockedBy(h: Uuid -> int, s: State, t: nat, r: Request): State {
    s.(locks := s.locks[h(r.aggregateID) := t], txs := s.txs[t := Tx(r, Locked, [])])
  }

  lemma BeginAndLock(h: Uuid -> int, s: State, t: nat, r: Request)
    requires t !in s.txs && WellFormed(r) && h(r.aggregateID) !in s.locks
    ensures Leads(Run(h), [Begin(t, r)] + [Lock(t)], s, LockedBy(h, s, t, r))
  {
    var begun := s.(txs := s.txs[t := Tx(r, Begun, [])]);
    assert begun.txs[t := Tx(r, Locked, [])] == s.txs[t := Tx(r, Locked, [])];
    StepLeads(h, s, Begin(t, r));
    StepLeads(h, begun, Lock(t));
    LeadsThen(Run(h), [Begin(t, r)], [Lock(t)], s, begun, LockedBy(h, s, t, r));
  }

  /** The state its check leaves. */
  function CheckedBy(h: Uuid -> int, s: State, t: nat, r: Request): State {
    if r.expected == |RowsOf(s.rows, r.aggregateID)|
    then s.(locks := s.locks[h(r.aggregateID) := t], txs := s.txs[t := Tx(r, Checked, [])])
    else s.(txs := s.txs[t := Tx(r, RolledBack, [])])
  }

  lemma CheckFromLock(h: Uuid -> int, home: Uuid -> Uuid, s: State, t: nat, r: Request)
    requires OneTenant(home, r) && AtHome(home, s.rows) && Contiguous(s.rows, r.aggregateID) && h(r.aggregateID) !in s.locks
    ensures Do(h, LockedBy(h, s, t, r), CheckVersion(t)) == CheckedBy(h, s, t, r)
  {
    CheckAtTip(h, home, LockedBy(h, s, t, r), t);
    assert s.locks[h(r.aggregateID) := t] - {h(r.aggregateID)} == s.locks;
    assert LockedBy(h, s, t, r).txs[t := Tx(r, Checked, [])] == s.txs[t := Tx(r, Checked, [])];
    assert LockedBy(h, s, t, r).txs[t := Tx(r, RolledBack, [])] == s.txs[t := Tx(r, RolledBack, [])];
  }

  lemma CheckLeads(h: Uuid -> int, home: Uuid -> Uuid, s: State, t: nat, r: Request)
    requires WellFormed(r) && OneTenant(home, r) && AtHome(home, s.rows) && Contiguous(s.rows, r.aggregateID)
    requires t !in s.txs && h(r.aggregateID) !in s.locks
    ensures Leads(Run(h), [Begin(t, r)] + [Lock(t)] + [CheckVersion(t)], s, CheckedBy(h, s, t, r))
  {
    BeginAndLock(h, s, t, r);
    CheckFromLock(h, home, s, t, r);
    StepLeads(h, LockedBy(h, s, t, r), CheckVersion(t));
    LeadsThen(Run(h), [Begin(t, r)] + [Lock(t)], [CheckVersion(t)], s, LockedBy(h, s, t, r), CheckedBy(h, s, t, r));
  }

  lemma CheckedAlone(h: Uuid -> int, home: Uuid -> Uuid, steps: seq<Step>, s: State, t: nat, r: Request)
    requires HomeRun(home, steps) && WellFormed(r) && OneTenant(home, r) && s == Exec(h, steps)
    requires t !in s.txs && h(r.aggregateID) !in s.locks
    ensures HomeRun(home, UpToCheck(steps, t, r))
    ensures Exec(h, UpToCheck(steps, t, r)) == CheckedBy(h, s, t, r)
  {
    EveryRun(h, steps);
    EveryHomeRun(h, home, steps);
    assert Contiguous(s.rows, r.aggregateID);
    CheckLeads(h, home, s, t, r);
    assert Run(h)(steps) == s;
    assert UpToCheck(steps, t, r) == steps + ([Begin(t, r)] + [Lock(t)] + [CheckVersion(t)]);
  }

  /** After a refused check the rest of the commit does nothing. */
  lemma InsertsAfterRollback(h: Uuid -> int, s: State, t: nat, n: nat)
    requires t in s.txs && s.txs[t].phase == RolledBack
    ensures Leads(Run(h), Inserts(t, n), s, s)
  {
    StepLeads(h, s, Insert(t));
    BlocksLead(Run(h), _ => [Insert(t)], _ => s, n);
  }

  /** The single log's answer to a request is decided by the table's rows. */
  lemma LogAcceptsIffAtTip(h: Uuid -> int, home: Uuid -> Uuid, steps: seq<Step>, r: Request)
    requires HomeRun(home, steps) && WellFormed(r) && OneTenant(home, r)
    ensures var s := Exec(h, steps);
            EventLog.Commit(Serial(s.committed), r.batch, r.expected, r.tenant).Ok?
            <==> r.expected == |RowsOf(s.rows, r.aggregateID)|
  {
    var s := Exec(h, steps);
    EveryRun(h, steps);
    EveryHomeRun(h, home, steps);
    RefinesOneLog(h, home, steps);
    assert Contiguous(s.rows, r.aggregateID) && r.batch[0] in r.batch;
    VersionOfTable(home, s.rows, r.aggregateID);
    VersionIgnoresIDs(s.rows, Serial(s.committed), StreamKey(home(r.aggregateID), r.aggregateID));
  }

  /** A transaction that has inserted its whole batch commits it. */
  lemma CommitLands(h: Uuid -> int, s: State, t: nat)
    requires t in s.txs && s.txs[t].phase == Checked && |s.txs[t].inserted| == |s.txs[t].request.batch|
    ensures var s', tx := Do(h, s, CommitTx(t)), s.txs[t];
            && s'.rows == s.rows + tx.inserted && s'.committed == s.committed + [tx.request]
            && s'.txs == s.txs[t := tx.(phase := Committed)] && s'.locks == s.locks - {h(tx.request.aggregateID)}
  {
  }

  /** The commit from its check on. */
  lemma CheckedCommits(h: Uuid -> int, home: Uuid -> Uuid, steps: seq<Step>, s: State, t: nat)
    requires HomeRun(home, steps) && s == Exec(h, steps)
    requires t in s.txs && s.txs[t].phase == Checked && s.txs[t].inserted == []
    ensures var tx := s.txs[t];
            var s' := Exec(h, steps + Inserts(t, |tx.request.batch|) + [CommitTx(t)]);
            && t in s'.txs && s'.txs[t].phase == Committed && s'.locks == s.locks - {h(tx.request.aggregateID)}
            && s'.rows == s.rows + Number(StampAll(tx.request.tenant, tx.request.batch), s.lastID)
            && s'.committed == s.committed + [tx.request]
  {
    var r := s.txs[t].request;
    EveryRun(h, steps);
    EveryHomeRun(h, home, steps);
    CheckedIsUnopposed(h, home, s, t);
    InsertsLand(h, s, t);
    assert Run(h)(steps) == s;
    assert Number(StampAll(r.tenant, r.batch), s.lastID)[..|r.batch|] == Number(StampAll(r.tenant, r.batch), s.lastID);
    ExecPush(h, steps + Inserts(t, |r.batch|), CommitTx(t));
    CommitLands(h, Inserted(s, t, |r.batch|), t);
  }

  lemma RefusedStays(h: Uuid -> int, steps: seq<Step>, s: State, t: nat, n: nat)
    requires s == Exec(h, steps) && t in s.txs && s.txs[t].phase == RolledBack
    ensures Exec(h, steps + Inserts(t, n) + [CommitTx(t)]) == s
  {
    InsertsAfterRollback(h, s, t, n);
    assert Run(h)(steps) == s;
    ExecPush(h, steps + Inserts(t, n), CommitTx(t));
  }

  lemma AcceptedAlone(h: Uuid -> int, home: Uuid -> Uuid, steps: seq<Step>, s: State, t: nat, r: Request)
    requires HomeRun(home, steps) && WellFormed(r) && OneTenant(home, r) && s == Exec(h, steps)
    requires t !in s.txs && h(r.aggregateID) !in s.locks && r.expected == |RowsOf(s.rows, r.aggregateID)|
    ensures var s' := Exec(h, steps + Alone(t, r));
            && t in s'.txs && s'.txs[t].phase == Committed && s'.locks == s.locks
            && s'.rows == s.rows + Number(StampAll(r.tenant, r.batch), s.lastID) && s'.committed == s.committed + [r]
  {
    CheckedAlone(h, home, steps, s, t, r);
    AloneUnrolled(steps, t, r);
    CheckedCommits(h, home, UpToCheck(steps, t, r), Exec(h, UpToCheck(steps, t, r)), t);
    assert s.locks[h(r.aggregateID) := t] - {h(r.aggregateID)} == s.locks;
  }

  lemma RefusedAlone(h: Uuid -> int, home: Uuid -> Uuid, steps: seq<Step>, s: State, t: nat, r: Request)
    requires HomeRun(home, steps) && WellFormed(r) && OneTenant(home, r) && s == Exec(h, steps)
    requires t !in s.txs && h(r.aggregateID) !in s.locks && r.expected != |RowsOf(s.rows, r.aggregateID)|
    ensures var s' := Exec(h, steps + Alone(t, r));
            && t in s'.txs && s'.txs[t].phase == RolledBack && s'.locks == s.locks
            && s'.rows == s.rows && s'.committed == s.committed
  {
    CheckedAlone(h, home, steps, s, t, r);
    AloneUnrolled(steps, t, r);
    RefusedStays(h, UpToCheck(steps, t, r), Exec(h, UpToCheck(steps, t, r)), t, |r.batch|);
  }

  /**
   * From any state of any run, others in progress or not: a commit whose lock is free and that
   * nobody interrupts succeeds if and only if the single log accepts the request. Then the
   * table gains its batch, stamped and under the next ids; otherwise it is left as it was.
   */
  lemma CommitsIffLogAccepts(h: Uuid -> int, home: Uuid -> Uuid, steps: seq<Step>, t: nat, r: Request)
    requires HomeRun(home, steps) && WellFormed(r) && OneTenant(home, r)
    requires t !in Exec(h, steps).txs && h(r.aggregateID) !in Exec(h, steps).locks
    ensures var s, s' := Exec(h, steps), Exec(h, steps + Alone(t, r));
            && t in s'.txs && s'.locks == s.locks
            && if EventLog.Commit(Serial(s.committed), r.batch, r.expected, r.tenant).Ok?
               then && s'.txs[t].phase == Committed
                    && s'.rows == s.rows + Number(StampAll(r.tenant, r.batch), s.lastID)
                    && s'.committed == s.committed + [r]
               else s'.txs[t].phase == RolledBack && s'.rows == s.rows && s'.committed == s.committed
  {
    var s := Exec(h, steps);
    LogAcceptsIffAtTip(h, home, steps, r);
    if r.expected == |RowsOf(s.rows, r.aggregateID)| {
      AcceptedAlone(h, home, steps, s, t, r);
    } else {
      RefusedAlone(h, home, steps, s, t, r);
    }
  }
}
