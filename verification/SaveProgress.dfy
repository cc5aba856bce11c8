/** What a client of the sealed ledger gets done: loading, issuing commands, and saving a batch of any size. */
module SaveProgress {
  import opened Common
  import opened Events
  import opened EventLog
  import opened Aggregate
  import opened Pii
  import opened PiiStore
  import opened LedgerErasure
  import opened SealedLedger
  import AccountRuns
  import CommitRefines
  import CommitProgress
  import ErasureVerifier
  import Sh = Shredding
  import Plain = Serializability

  ghost function Run(env: Sh.Env): seq<Step> -> State {
    steps => Exec(env, steps)
  }

  lemma StepLeads(env: Sh.Env, s: State, step: Step, s': State)
    requires Do(env, s, step) == s'
    ensures Leads(Run(env), [step], s, s')
  {
    forall steps | Run(env)(steps) == s ensures Run(env)(steps + [step]) == s' {
      assert (steps + [step])[..|steps|] == steps;
    }
  }

  // ---- loading and issuing ----

  /** A load that does not fall back gives the client the serial account, unless an event cannot be read back. */
  lemma LoadsSerialIffClear(env: Sh.Env, steps: seq<Step>, c: nat, k: StreamKey)
    requires Deciphers(env.c) && env.reg == REGISTRY && !ClientOf(Exec(env, steps), c).Saving?
    requires !Plain.FallsBack(Exec(env, steps).sh.log, k)
    ensures var s, s' := Exec(env, steps), Do(env, Exec(env, steps), Load(c, k));
            && s'.sh == s.sh && s'.saved == s.saved
            && ClientOf(s', c) == if !AllClear(env, s.sh.keys, Stream(s.sh.log, k)) then Away
                                  else if Stream(s.sh.plain, k) == [] then Holding(k, Agg(k.aggregateID, 0, Amounts(0, false), []), [])
                                  else Holding(k, Agg(k.aggregateID, |Stream(s.sh.plain, k)|, Plain.Serial(AMOUNTS, s.saved, k).state, []), [])
  {
    LoadIsSerialIffClear(env, steps, k);
  }

  /**
   * What a command does to the account a client holds: its amounts move by exactly what the
   * command says, and what is recorded names the account as its subject.
   */
  lemma IssuesCommand(env: Sh.Env, s: State, c: nat, cmd: AccountRuns.AccountCommand)
    requires ClientOf(s, c).Holding?
    ensures var s' := Do(env, s, Issue(c, cmd));
            var client, client' := ClientOf(s, c), ClientOf(s', c);
            && s'.sh == s.sh && s'.saved == s.saved && client'.Holding? && client'.key == client.key
            && client'.cmds == client.cmds + [Deciding(cmd)]
            && client.agg.uncommitted <= client'.agg.uncommitted
            && (client'.agg != client.agg ==>
                  && client'.agg.version == client.agg.version + 1 && |client'.agg.uncommitted| == |client.agg.uncommitted| + 1
                  && var e := client'.agg.uncommitted[|client.agg.uncommitted|];
                  && e.piiID == Some(client.key.aggregateID) && e.aggregateID == client.agg.id && e.version == client'.agg.version
                  && Sh.Unsealed(e) && e.payload.Doc?)
            && var a, a' := client.agg.state, client'.agg.state;
            match cmd
            case Open(name, email, opening) =>
              if !a.isOpen && name != "" && email != "" then client'.agg != client.agg && a' == Amounts(opening, true) else client'.agg == client.agg
            case RecordTransaction(amount, _) =>
              if a.isOpen && amount != 0 then client'.agg != client.agg && a'.isOpen && (a'.balance - (a.balance + amount)) % 0x1_0000_0000_0000_0000 == 0
              else client'.agg == client.agg
            case RequestHolderErasure =>
              if a.isOpen then client'.agg != client.agg && a' == a else client'.agg == client.agg
  {
  }

  // ---- a client's steps are its call's ----

  /** The call's own steps in the store, before or after its batch is stored. */
  predicate OwnStep(w: Sh.Step, x: nat, stored: bool) {
    && !w.Begin? && !w.StoreCommit? && w.x == x
    && (w.SealNext? <==> !stored)
  }

  /** The client's step that takes a step of its call. */
  function ByClient(c: nat, w: Sh.Step): Step {
    match w
    case Begin(x, _, _, _) => Save(c, x)
    case SealNext(_, supply) => SealNext(c, supply)
    case StoreCommit(_) => StoreCommit(c)
    case ForgetNext(_) => ForgetNext(c)
    case RecordNext(_, now) => RecordNext(c, now)
  }

  function AllByClient(c: nat, ws: seq<Sh.Step>): seq<Step> {
    seq(|ws|, i requires 0 <= i < |ws| => ByClient(c, ws[i]))
  }

  /** The client is in a call of Save that works as transaction x. */
  predicate InCall(s: State, c: nat, x: nat, stored: bool) {
    c in s.clients && s.clients[c].Saving? && s.clients[c].x == x && s.clients[c].stored == stored
  }

  lemma StepByClient(env: Sh.Env, s: State, c: nat, x: nat, stored: bool, w: Sh.Step)
    requires InCall(s, c, x, stored) && OwnStep(w, x, stored)
    requires var sh' := Sh.Do(env, s.sh, w); x in sh'.txs && sh'.txs[x].phase != Sh.Failed
    ensures Do(env, s, ByClient(c, w)) == s.(sh := Sh.Do(env, s.sh, w))
  {
  }

  lemma FailureStays(env: Sh.Env, sh: Sh.State, x: nat, w: Sh.Step)
    requires x in sh.txs
    ensures x in Sh.Do(env, sh, w).txs
    ensures sh.txs[x].phase == Sh.Failed ==> Sh.Do(env, sh, w).txs[x].phase == Sh.Failed
  {
  }

  lemma {:induction false} TxStays(env: Sh.Env, sh: Sh.State, x: nat, ws: seq<Sh.Step>)
    requires x in sh.txs
    ensures x in CommitRefines.RunFrom(env, sh, ws).txs
  {
    if ws != [] {
      TxStays(env, sh, x, ws[..|ws| - 1]);
      FailureStays(env, CommitRefines.RunFrom(env, sh, ws[..|ws| - 1]), x, ws[|ws| - 1]);
    }
  }

  /** A call that has not failed has taken all its steps in the store through its client. */
  lemma {:induction false} StepsByClient(env: Sh.Env, s: State, c: nat, x: nat, stored: bool, ws: seq<Sh.Step>)
    requires InCall(s, c, x, stored) && x in s.sh.txs
    requires forall w :: w in ws ==> OwnStep(w, x, stored)
    requires var sh' := CommitRefines.RunFrom(env, s.sh, ws); x in sh'.txs && sh'.txs[x].phase != Sh.Failed
    ensures Leads(Run(env), AllByClient(c, ws), s, s.(sh := CommitRefines.RunFrom(env, s.sh, ws)))
  {
    if ws == [] {
      assert forall before: seq<Step> :: before + [] == before;
    } else {
      var init, w := ws[..|ws| - 1], ws[|ws| - 1];
      var mid := CommitRefines.RunFrom(env, s.sh, init);
      TxStays(env, s.sh, x, init);
      FailureStays(env, mid, x, w);
      StepsByClient(env, s, c, x, stored, init);
      StepByClient(env, s.(sh := mid), c, x, stored, w);
      StepLeads(env, s.(sh := mid), ByClient(c, w), s.(sh := Sh.Do(env, mid, w)));
      LeadsThen(Run(env), AllByClient(c, init), [ByClient(c, w)], s, s.(sh := mid), s.(sh := Sh.Do(env, mid, w)));
      assert AllByClient(c, ws) == AllByClient(c, init) + [ByClient(c, w)];
    }
  }

  lemma {:induction false} SealStepsAreOwn(x: nat, draws: Draws, n: nat)
    ensures forall w :: w in CommitRefines.SealSteps(x, draws, n) ==> OwnStep(w, x, false)
  {
    if n > 0 {
      SealStepsAreOwn(x, draws, n - 1);
    }
  }

  lemma EraseStepsAreOwn(env: Sh.Env, x: nat, draws: Draws, batch: seq<Event>)
    ensures forall w :: w in CommitRefines.EraseSteps(env, x, draws, batch, |batch|) ==> OwnStep(w, x, true)
  {
    CommitRefines.AllErasing(env, x, draws, batch, |batch|);
    forall w | w in CommitRefines.EraseSteps(env, x, draws, batch, |batch|) ensures OwnStep(w, x, true) {
      assert CommitRefines.Erasing(x, w);
    }
  }

  // ---- a whole call ----

  function UpToStore(c: nat, x: nat, draws: Draws, n: nat): seq<Step> {
    [Save(c, x)] + AllByClient(c, CommitRefines.SealSteps(x, draws, n)) + [StoreCommit(c)]
  }

  /** The steps of one call of Save, nobody between. */
  function SaveSteps(env: Sh.Env, c: nat, x: nat, draws: Draws, batch: seq<Event>): seq<Step> {
    UpToStore(c, x, draws, |batch|) + AllByClient(c, CommitRefines.EraseSteps(env, x, draws, batch, |batch|)) + [Return(c)]
  }

  /** What a call may be made with: something to save, all of it as recorded, and a free number. */
  ghost predicate MaySave(env: Sh.Env, s: State, c: nat, x: nat, draws: Draws) {
    && ClientOf(s, c).Holding? && x !in s.sh.txs
    && var a := ClientOf(s, c).agg;
    && a.uncommitted != [] && |a.uncommitted| <= a.version && (forall e :: e in a.uncommitted ==> Sh.Unsealed(e))
    && AllSupplied(env.reg, draws, a.uncommitted) && CommitProgress.NoErasureFails(env, draws, a.uncommitted)
  }

  function Calling(s: State, c: nat, x: nat, sh: Sh.State, stored: bool): State
    requires ClientOf(s, c).Holding?
  {
    var client := ClientOf(s, c);
    Put(s, c, Saving(client.key, client.agg, client.cmds, x, stored)).(sh := sh)
  }

  lemma SaveBegins(env: Sh.Env, s: State, c: nat, x: nat, draws: Draws)
    requires MaySave(env, s, c, x, draws)
    ensures var client := ClientOf(s, c);
            var a := client.agg;
            var begin := Sh.Begin(x, a.uncommitted, a.version - |a.uncommitted|, Some(client.key.tenantID));
            Do(env, s, Save(c, x)) == Calling(s, c, x, Sh.Do(env, s.sh, begin), false) && x in Sh.Do(env, s.sh, begin).txs
  {
  }

  /** Saving and sealing, up to the commit of the store. */
  lemma SealsForCall(env: Sh.Env, s: State, c: nat, x: nat, draws: Draws, sealed: Sh.State)
    requires MaySave(env, s, c, x, draws) && x in sealed.txs && sealed.txs[x].phase == Sh.Preparing
    requires var a := ClientOf(s, c).agg;
             var begin := Sh.Begin(x, a.uncommitted, a.version - |a.uncommitted|, Some(ClientOf(s, c).key.tenantID));
             sealed == CommitRefines.RunFrom(env, Sh.Do(env, s.sh, begin), CommitRefines.SealSteps(x, draws, |a.uncommitted|))
    ensures Leads(Run(env), UpToStore(c, x, draws, |ClientOf(s, c).agg.uncommitted|), s,
                  Do(env, Calling(s, c, x, sealed, false), StoreCommit(c)))
  {
    var a := ClientOf(s, c).agg;
    var n, begin := |a.uncommitted|, Sh.Begin(x, a.uncommitted, a.version - |a.uncommitted|, Some(ClientOf(s, c).key.tenantID));
    var begun := Calling(s, c, x, Sh.Do(env, s.sh, begin), false);
    SaveBegins(env, s, c, x, draws);
    StepLeads(env, s, Save(c, x), begun);
    SealStepsAreOwn(x, draws, n);
    StepsByClient(env, begun, c, x, false, CommitRefines.SealSteps(x, draws, n));
    var ready := Calling(s, c, x, sealed, false);
    assert begun.(sh := sealed) == ready;
    StepLeads(env, ready, StoreCommit(c), Do(env, ready, StoreCommit(c)));
    LeadsThen(Run(env), [Save(c, x)], AllByClient(c, CommitRefines.SealSteps(x, draws, n)), s, begun, ready);
    LeadsThen(Run(env), [Save(c, x)] + AllByClient(c, CommitRefines.SealSteps(x, draws, n)), [StoreCommit(c)], s, ready, Do(env, ready, StoreCommit(c)));
  }

  /** From the store's acceptance to the call's return. */
  lemma ErasesForCall(env: Sh.Env, s: State, c: nat, x: nat, draws: Draws, batch: seq<Event>)
    requires InCall(s, c, x, true) && x in s.sh.txs
    requires var sh' := CommitRefines.RunFrom(env, s.sh, CommitRefines.EraseSteps(env, x, draws, batch, |batch|));
             x in sh'.txs && ErasureVerifier.Returned(sh'.txs[x])
    ensures var sh' := CommitRefines.RunFrom(env, s.sh, CommitRefines.EraseSteps(env, x, draws, batch, |batch|));
            Leads(Run(env), AllByClient(c, CommitRefines.EraseSteps(env, x, draws, batch, |batch|)) + [Return(c)], s,
                  Put(s.(sh := sh'), c, Holding(s.clients[c].key, s.clients[c].agg.(uncommitted := []), [])))
  {
    var ws := CommitRefines.EraseSteps(env, x, draws, batch, |batch|);
    var done := s.(sh := CommitRefines.RunFrom(env, s.sh, ws));
    EraseStepsAreOwn(env, x, draws, batch);
    StepsByClient(env, s, c, x, true, ws);
    var after := Put(done, c, Holding(s.clients[c].key, s.clients[c].agg.(uncommitted := []), []));
    StepLeads(env, done, Return(c), after);
    LeadsThen(Run(env), AllByClient(c, ws), [Return(c)], s, done, after);
  }

  /** A client whose call was refused is away, and its remaining steps do nothing. */
  lemma {:induction false} RefusedStays(env: Sh.Env, s: State, c: nat, steps: seq<Step>)
    requires ClientOf(s, c) == Away && forall step :: step in steps ==> step.c == c && (step.ForgetNext? || step.RecordNext? || step.Return?)
    ensures Leads(Run(env), steps, s, s)
  {
    if steps == [] {
      assert forall before: seq<Step> :: before + [] == before;
    } else {
      var init, last := steps[..|steps| - 1], steps[|steps| - 1];
      RefusedStays(env, s, c, init);
      StepLeads(env, s, last, s);
      LeadsThen(Run(env), init, [last], s, s, s);
      assert steps == init + [last];
    }
  }

  /** What the store's commit makes of the call. */
  lemma StoresForCall(env: Sh.Env, s: State, c: nat, x: nat)
    requires InCall(s, c, x, false) && x in s.sh.txs && s.sh.txs[x].phase == Sh.Preparing && s.sh.txs[x].at == |s.sh.txs[x].batch|
    ensures var sh', client := Sh.Do(env, s.sh, Sh.StoreCommit(x)), s.clients[c];
            && x in sh'.txs
            && Do(env, s, StoreCommit(c))
               == if EventLog.Commit(s.sh.log, s.sh.txs[x].batch, s.sh.txs[x].expected, s.sh.txs[x].tenant).Ok?
                  then Put(s.(sh := sh'), c, client.(stored := true)).(saved := s.saved + [Plain.Txn(client.key, client.cmds)])
                  else Put(s.(sh := sh'), c, Away)
  {
  }

  /** sealed is the store once the call has sealed its whole batch. */
  ghost predicate Ready(env: Sh.Env, s: State, c: nat, x: nat, draws: Draws, sealed: Sh.State)
    requires ClientOf(s, c).Holding? && |ClientOf(s, c).agg.uncommitted| <= ClientOf(s, c).agg.version
  {
    var a := ClientOf(s, c).agg;
    var batch := a.uncommitted;
    var begin := Sh.Begin(x, batch, a.version - |batch|, Some(ClientOf(s, c).key.tenantID));
    && sealed == CommitRefines.RunFrom(env, Sh.Do(env, s.sh, begin), CommitRefines.SealSteps(x, draws, |batch|))
    && x in sealed.txs && sealed.txs[x].phase == Sh.Preparing && sealed.txs[x].at == |sealed.txs[x].batch| == |batch|
    && forall i :: 0 <= i < |batch| ==> sealed.txs[x].batch[i].name == batch[i].name && sealed.txs[x].batch[i].piiID == batch[i].piiID
  }

  predicate Accepts(sealed: Sh.State, x: nat)
    requires x in sealed.txs
  {
    var tx := sealed.txs[x];
    EventLog.Commit(sealed.log, tx.batch, tx.expected, tx.tenant).Ok?
  }

  function AfterErasing(env: Sh.Env, sealed: Sh.State, x: nat, draws: Draws, batch: seq<Event>): Sh.State {
    CommitRefines.RunFrom(env, Sh.Do(env, sealed, Sh.StoreCommit(x)), CommitRefines.EraseSteps(env, x, draws, batch, |batch|))
  }

  /** The client goes on from what it saved. */
  function Returned(s: State, c: nat, sh: Sh.State): State
    requires ClientOf(s, c).Holding?
  {
    var client := ClientOf(s, c);
    Put(s, c, Holding(client.key, client.agg.(uncommitted := []), [])).(sh := sh, saved := s.saved + [Plain.Txn(client.key, client.cmds)])
  }

  lemma ErasingReturns(env: Sh.Env, sealed: Sh.State, x: nat, draws: Draws, batch: seq<Event>)
    requires x in sealed.txs && sealed.txs[x].phase == Sh.Preparing && sealed.txs[x].at == |sealed.txs[x].batch| == |batch|
    requires forall i :: 0 <= i < |batch| ==> sealed.txs[x].batch[i].name == batch[i].name && sealed.txs[x].batch[i].piiID == batch[i].piiID
    requires Accepts(sealed, x) && CommitProgress.NoErasureFails(env, draws, batch)
    ensures var sh' := AfterErasing(env, sealed, x, draws, batch); x in sh'.txs && ErasureVerifier.Returned(sh'.txs[x])
  {
    CommitProgress.ErasesAll(env, Sh.Do(env, sealed, Sh.StoreCommit(x)), x, draws, batch);
  }

  lemma SavesWhenAccepted(env: Sh.Env, s: State, c: nat, x: nat, draws: Draws, sealed: Sh.State)
    requires MaySave(env, s, c, x, draws) && Ready(env, s, c, x, draws, sealed) && Accepts(sealed, x)
    ensures var batch := ClientOf(s, c).agg.uncommitted;
            Leads(Run(env), SaveSteps(env, c, x, draws, batch), s, Returned(s, c, AfterErasing(env, sealed, x, draws, batch)))
  {
    var client, batch := ClientOf(s, c), ClientOf(s, c).agg.uncommitted;
    var ready := Calling(s, c, x, sealed, false);
    var stored := Do(env, ready, StoreCommit(c));
    SealsForCall(env, s, c, x, draws, sealed);
    StoresForCall(env, ready, c, x);
    ErasingReturns(env, sealed, x, draws, batch);
    ErasesForCall(env, stored, c, x, draws, batch);
    var erase, after := AllByClient(c, CommitRefines.EraseSteps(env, x, draws, batch, |batch|)), Returned(s, c, AfterErasing(env, sealed, x, draws, batch));
    ReturnedAlike(s, c, x, sealed, stored, after);
    LeadsThen(Run(env), UpToStore(c, x, draws, |batch|), erase + [Return(c)], s, stored, after);
    assert SaveSteps(env, c, x, draws, batch) == UpToStore(c, x, draws, |batch|) + (erase + [Return(c)]);
  }

  lemma ReturnedAlike(s: State, c: nat, x: nat, sealed: Sh.State, stored: State, after: State)
    requires ClientOf(s, c).Holding? && after == Returned(s, c, after.sh)
    requires var client := Calling(s, c, x, sealed, false).clients[c];
             stored == Put(Calling(s, c, x, sealed, false).(sh := stored.sh), c, client.(stored := true))
                         .(saved := s.saved + [Plain.Txn(client.key, client.cmds)])
    ensures Put(stored.(sh := after.sh), c, Holding(stored.clients[c].key, stored.clients[c].agg.(uncommitted := []), [])) == after
  {
  }

  lemma RefusedIsAway(env: Sh.Env, s: State, c: nat, x: nat, sealed: Sh.State)
    requires ClientOf(s, c).Holding? && x in sealed.txs && sealed.txs[x].phase == Sh.Preparing && sealed.txs[x].at == |sealed.txs[x].batch|
    requires !Accepts(sealed, x)
    ensures Do(env, Calling(s, c, x, sealed, false), StoreCommit(c)) == Put(s, c, Away).(sh := Sh.Do(env, sealed, Sh.StoreCommit(x)))
  {
    StoresForCall(env, Calling(s, c, x, sealed, false), c, x);
  }

  lemma RestIsErasing(env: Sh.Env, c: nat, x: nat, draws: Draws, batch: seq<Event>)
    ensures forall step :: step in AllByClient(c, CommitRefines.EraseSteps(env, x, draws, batch, |batch|)) + [Return(c)] ==>
              step.c == c && (step.ForgetNext? || step.RecordNext? || step.Return?)
  {
    var ws := CommitRefines.EraseSteps(env, x, draws, batch, |batch|);
    EraseStepsAreOwn(env, x, draws, batch);
    forall i | 0 <= i < |ws| ensures var step := AllByClient(c, ws)[i]; step.c == c && (step.ForgetNext? || step.RecordNext?) {
      assert ws[i] in ws;
    }
  }

  lemma LeavesWhenRefused(env: Sh.Env, s: State, c: nat, x: nat, draws: Draws, sealed: Sh.State)
    requires MaySave(env, s, c, x, draws) && Ready(env, s, c, x, draws, sealed) && !Accepts(sealed, x)
    ensures Leads(Run(env), SaveSteps(env, c, x, draws, ClientOf(s, c).agg.uncommitted), s,
                  Put(s, c, Away).(sh := Sh.Do(env, sealed, Sh.StoreCommit(x))))
  {
    var batch := ClientOf(s, c).agg.uncommitted;
    var ready := Calling(s, c, x, sealed, false);
    var away := Put(s, c, Away).(sh := Sh.Do(env, sealed, Sh.StoreCommit(x)));
    SealsForCall(env, s, c, x, draws, sealed);
    RefusedIsAway(env, s, c, x, sealed);
    var rest := AllByClient(c, CommitRefines.EraseSteps(env, x, draws, batch, |batch|)) + [Return(c)];
    RestIsErasing(env, c, x, draws, batch);
    RefusedStays(env, away, c, rest);
    LeadsThen(Run(env), UpToStore(c, x, draws, |batch|), rest, s, away, away);
    assert SaveSteps(env, c, x, draws, batch) == UpToStore(c, x, draws, |batch|) + rest;
  }

  /** A client of a reachable state holds what it has not saved as it was recorded. */
  lemma HoldsAsRecorded(env: Sh.Env, steps: seq<Step>, c: nat)
    requires Deciphers(env.c) && env.reg == REGISTRY && ClientOf(Exec(env, steps), c).Holding?
    ensures var s := Exec(env, steps);
            var k, a := ClientOf(s, c).key, ClientOf(s, c).agg;
            && |a.uncommitted| <= a.version && (forall e :: e in a.uncommitted ==> Sh.Unsealed(e))
            && (a.uncommitted != [] ==>
                  (EventLog.Commit(s.sh.plain, a.uncommitted, a.version - |a.uncommitted|, Some(k.tenantID)).Ok?
                   <==> |Stream(s.sh.plain, k)| + |a.uncommitted| == a.version))
  {
    var s := Exec(env, steps);
    var zs, ws := Simulates(env, _ => NIL_UUID, steps);
    AmountsRoundTrip();
    Plain.EveryRun(AMOUNTS, zs);
    var z := Plain.Exec(AMOUNTS, zs);
    assert z.clients[c] == Abstract(s.clients[c]);
    var k, a := ClientOf(s, c).key, ClientOf(s, c).agg;
    assert Plain.ClientInv(AMOUNTS, z.log, z.clients[c]) && Plain.StreamInv(AMOUNTS, z.log, z.saved, k);
    if a.uncommitted != [] {
      assert KeyOf(Stamp(Some(k.tenantID), a.uncommitted[0])) == k;
    }
  }

  /** sealed is sh with the call's batch sealed, and what the store makes of it is what a plain one would. */
  ghost predicate Agreed(env: Sh.Env, sh: Sh.State, x: nat, batch: seq<Event>, expected: nat, t: Option<Uuid>, draws: Draws, sealed: Sh.State) {
    && sealed == CommitRefines.RunFrom(env, Sh.Do(env, sh, Sh.Begin(x, batch, expected, t)), CommitRefines.SealSteps(x, draws, |batch|))
    && x in sealed.txs && sealed.txs[x].phase == Sh.Preparing && sealed.txs[x].at == |sealed.txs[x].batch| == |batch|
    && (forall i :: 0 <= i < |batch| ==> sealed.txs[x].batch[i].name == batch[i].name && sealed.txs[x].batch[i].piiID == batch[i].piiID)
    && var plainly := EventLog.Commit(sh.plain, batch, expected, t);
    && (Accepts(sealed, x) <==> plainly.Ok?)
    && (plainly.Ok? ==> AfterErasing(env, sealed, x, draws, batch).plain == plainly.value)
    && (plainly.Err? ==> var sh' := Sh.Do(env, sealed, Sh.StoreCommit(x)); sh'.plain == sh.plain && sh'.log == sh.log)
  }

  lemma StoreAgrees(env: Sh.Env, ws: seq<Sh.Step>, x: nat, batch: seq<Event>, expected: nat, t: Option<Uuid>, draws: Draws) returns (sealed: Sh.State)
    requires x !in Sh.Exec(env, ws).txs && (forall e :: e in batch ==> Sh.Unsealed(e)) && AllSupplied(env.reg, draws, batch)
    ensures Agreed(env, Sh.Exec(env, ws), x, batch, expected, t, draws, sealed)
  {
    sealed := CommitProgress.Sealed(env, ws, x, batch, expected, t, draws);
    CommitsAgree(env, sealed, x);
    CommitRefines.AllErasing(env, x, draws, batch, |batch|);
    CommitProgress.ErasingStoresNothing(env, Sh.Do(env, sealed, Sh.StoreCommit(x)), x, CommitRefines.EraseSteps(env, x, draws, batch, |batch|));
  }

  /** The state a call that nobody interrupts ends in. */
  ghost function Outcome(env: Sh.Env, s: State, c: nat, x: nat, draws: Draws, sealed: Sh.State): State
    requires ClientOf(s, c).Holding? && x in sealed.txs
  {
    if Accepts(sealed, x) then Returned(s, c, AfterErasing(env, sealed, x, draws, ClientOf(s, c).agg.uncommitted))
    else Put(s, c, Away).(sh := Sh.Do(env, sealed, Sh.StoreCommit(x)))
  }

  lemma CallLeads(env: Sh.Env, s: State, c: nat, x: nat, draws: Draws, sealed: Sh.State)
    requires MaySave(env, s, c, x, draws) && Ready(env, s, c, x, draws, sealed)
    ensures Leads(Run(env), SaveSteps(env, c, x, draws, ClientOf(s, c).agg.uncommitted), s, Outcome(env, s, c, x, draws, sealed))
  {
    if Accepts(sealed, x) {
      SavesWhenAccepted(env, s, c, x, draws, sealed);
    } else {
      LeavesWhenRefused(env, s, c, x, draws, sealed);
    }
  }

  lemma CallEnds(env: Sh.Env, steps: seq<Step>, s: State, c: nat, x: nat, draws: Draws, sealed: Sh.State)
    requires s == Exec(env, steps) && MaySave(env, s, c, x, draws) && Ready(env, s, c, x, draws, sealed)
    ensures Exec(env, steps + SaveSteps(env, c, x, draws, ClientOf(s, c).agg.uncommitted)) == Outcome(env, s, c, x, draws, sealed)
  {
    CallLeads(env, s, c, x, draws, sealed);
    assert Run(env)(steps) == s;
  }

  /** What a call that went through, or was refused, leaves behind. */
  ghost predicate SavedIf(accepted: bool, s: State, s': State, c: nat)
    requires ClientOf(s, c).Holding? && |ClientOf(s, c).agg.uncommitted| <= ClientOf(s, c).agg.version
  {
    var k, a := ClientOf(s, c).key, ClientOf(s, c).agg;
    if accepted then
      && Ok(s'.sh.plain) == EventLog.Commit(s.sh.plain, a.uncommitted, a.version - |a.uncommitted|, Some(k.tenantID))
      && s'.saved == s.saved + [Plain.Txn(k, ClientOf(s, c).cmds)]
      && ClientOf(s', c) == Holding(k, a.(uncommitted := []), [])
    else s'.sh.plain == s.sh.plain && s'.sh.log == s.sh.log && s'.saved == s.saved && ClientOf(s', c) == Away
  }

  lemma OutcomeSaved(env: Sh.Env, s: State, c: nat, x: nat, draws: Draws, sealed: Sh.State)
    requires MaySave(env, s, c, x, draws)
    requires var a := ClientOf(s, c).agg;
             Agreed(env, s.sh, x, a.uncommitted, a.version - |a.uncommitted|, Some(ClientOf(s, c).key.tenantID), draws, sealed)
    ensures Ready(env, s, c, x, draws, sealed)
    ensures SavedIf(Accepts(sealed, x), s, Outcome(env, s, c, x, draws, sealed), c)
    ensures var a := ClientOf(s, c).agg;
            Accepts(sealed, x) <==> EventLog.Commit(s.sh.plain, a.uncommitted, a.version - |a.uncommitted|, Some(ClientOf(s, c).key.tenantID)).Ok?
  {
  }

  lemma StoreRun(env: Sh.Env, steps: seq<Step>) returns (ws: seq<Sh.Step>)
    requires Deciphers(env.c) && env.reg == REGISTRY
    ensures Exec(env, steps).sh == Sh.Exec(env, ws)
  {
    var zs;
    zs, ws := Simulates(env, _ => NIL_UUID, steps);
  }

  lemma MaySaveReached(env: Sh.Env, steps: seq<Step>, s: State, c: nat, x: nat, draws: Draws)
    requires Deciphers(env.c) && env.reg == REGISTRY && s == Exec(env, steps)
    requires ClientOf(s, c).Holding? && ClientOf(s, c).agg.uncommitted != [] && x !in s.sh.txs
    requires AllSupplied(env.reg, draws, ClientOf(s, c).agg.uncommitted) && CommitProgress.NoErasureFails(env, draws, ClientOf(s, c).agg.uncommitted)
    ensures MaySave(env, s, c, x, draws)
  {
    HoldsAsRecorded(env, steps, c);
  }

  lemma CallConcludes(env: Sh.Env, steps: seq<Step>, s: State, c: nat, x: nat, draws: Draws, sealed: Sh.State)
    requires s == Exec(env, steps) && MaySave(env, s, c, x, draws)
    requires var a := ClientOf(s, c).agg;
             Agreed(env, s.sh, x, a.uncommitted, a.version - |a.uncommitted|, Some(ClientOf(s, c).key.tenantID), draws, sealed)
    ensures var a := ClientOf(s, c).agg;
            SavedIf(EventLog.Commit(s.sh.plain, a.uncommitted, a.version - |a.uncommitted|, Some(ClientOf(s, c).key.tenantID)).Ok?,
                    s, Exec(env, steps + SaveSteps(env, c, x, draws, a.uncommitted)), c)
  {
    OutcomeSaved(env, s, c, x, draws, sealed);
    CallEnds(env, steps, s, c, x, draws, sealed);
  }

  /** The same condition as a plain store's. */
  lemma SavesIffAccepted(env: Sh.Env, steps: seq<Step>, s: State, c: nat, x: nat, draws: Draws)
    requires Deciphers(env.c) && env.reg == REGISTRY && s == Exec(env, steps) && MaySave(env, s, c, x, draws)
    ensures var a := ClientOf(s, c).agg;
            SavedIf(EventLog.Commit(s.sh.plain, a.uncommitted, a.version - |a.uncommitted|, Some(ClientOf(s, c).key.tenantID)).Ok?,
                    s, Exec(env, steps + SaveSteps(env, c, x, draws, a.uncommitted)), c)
  {
    var a, t := ClientOf(s, c).agg, Some(ClientOf(s, c).key.tenantID);
    var ws := StoreRun(env, steps);
    var sealed := StoreAgrees(env, ws, x, a.uncommitted, a.version - |a.uncommitted|, t, draws);
    CallConcludes(env, steps, s, c, x, draws, sealed);
  }

  /**
   * From any state of any run, a call of Save that nobody interrupts and nothing fails for goes
   * through, whatever the size of its batch, if and only if nobody has saved to the stream since
   * it was loaded. What a plain store would then hold is recorded, the client's commands count
   * as saved and it goes on from there; otherwise nothing is logged and it must load anew.
   */
  lemma SavesIffAtTip(env: Sh.Env, steps: seq<Step>, s: State, c: nat, x: nat, draws: Draws)
    requires Deciphers(env.c) && env.reg == REGISTRY && s == Exec(env, steps)
    requires ClientOf(s, c).Holding? && ClientOf(s, c).agg.uncommitted != [] && x !in s.sh.txs
    requires AllSupplied(env.reg, draws, ClientOf(s, c).agg.uncommitted) && CommitProgress.NoErasureFails(env, draws, ClientOf(s, c).agg.uncommitted)
    ensures var a := ClientOf(s, c).agg;
            && |a.uncommitted| <= a.version
            && SavedIf(|Stream(s.sh.plain, ClientOf(s, c).key)| + |a.uncommitted| == a.version, s,
                       Exec(env, steps + SaveSteps(env, c, x, draws, a.uncommitted)), c)
  {
    MaySaveReached(env, steps, s, c, x, draws);
    HoldsAsRecorded(env, steps, c);
    SavesIffAccepted(env, steps, s, c, x, draws);
  }
}
