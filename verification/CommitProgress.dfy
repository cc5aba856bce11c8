/** When a call of the sealed store's Commit goes through, and what it then has done. */
module CommitProgress {
  import opened Common
  import opened Events
  import opened EventLog
  import opened Pii
  import opened PiiStore
  import opened Shredding
  import opened CommitRefines
  import SealedLedger
  import ErasureVerifier

  lemma {:induction false} SealStepsStoreNothing(env: Env, s: State, x: nat, draws: Draws, n: nat)
    ensures RunFrom(env, s, SealSteps(x, draws, n)).plain == s.plain
  {
    if n > 0 {
      SealStepsStoreNothing(env, s, x, draws, n - 1);
      RunOneMore(env, s, SealSteps(x, draws, n - 1), SealNext(x, draws.supply(n - 1)));
      PlainGrowsBy(env, RunFrom(env, s, SealSteps(x, draws, n - 1)), SealNext(x, draws.supply(n - 1)));
    }
  }

  lemma {:induction false} ErasingStoresNothing(env: Env, s: State, x: nat, steps: seq<Step>)
    requires forall step :: step in steps ==> Erasing(x, step)
    ensures RunFrom(env, s, steps).plain == s.plain
  {
    if steps != [] {
      ErasingStoresNothing(env, s, x, steps[..|steps| - 1]);
      assert Erasing(x, steps[|steps| - 1]);
      PlainGrowsBy(env, RunFrom(env, s, steps[..|steps| - 1]), steps[|steps| - 1]);
    }
  }

  /** Neither a Forget nor an Append the call makes fails. */
  ghost predicate NoErasureFails(env: Env, draws: Draws, batch: seq<Event>) {
    forall i :: 0 <= i < |batch| && ErasureVerifier.AsksErasure(env, batch[i]) ==> !draws.forgetFails(i) && (env.mounted ==> !draws.appendFails(i))
  }

  lemma {:induction false} NeverStops(env: Env, draws: Draws, batch: seq<Event>, n: nat)
    requires n <= |batch| && NoErasureFails(env, draws, batch)
    ensures !StoppedBefore(env, draws, batch, n)
  {
    if n > 0 {
      NeverStops(env, draws, batch, n - 1);
    }
  }

  /** The call once it has sealed its whole batch. */
  lemma Sealed(env: Env, steps: seq<Step>, x: nat, batch: seq<Event>, expected: nat, t: Option<Uuid>, draws: Draws) returns (s: State)
    requires x !in Exec(env, steps).txs && (forall e :: e in batch ==> Unsealed(e)) && AllSupplied(env.reg, draws, batch)
    ensures s == RunFrom(env, Do(env, Exec(env, steps), Begin(x, batch, expected, t)), SealSteps(x, draws, |batch|))
    ensures Inv(env, s) && s.log == Exec(env, steps).log && s.plain == Exec(env, steps).plain
    ensures x in s.txs && s.txs[x].phase == Preparing && s.txs[x].at == |batch| == |s.txs[x].batch|
    ensures s.txs[x].plain == batch && s.txs[x].expected == expected && s.txs[x].tenant == t
    ensures forall i :: 0 <= i < |batch| ==> s.txs[x].batch[i].name == batch[i].name && s.txs[x].batch[i].piiID == batch[i].piiID
    ensures Exec(env, steps + CommitSteps(env, x, batch, expected, t, draws))
            == RunFrom(env, Do(env, s, StoreCommit(x)), EraseSteps(env, x, draws, batch, |batch|))
  {
    var before := Exec(env, steps);
    var begun := Do(env, before, Begin(x, batch, expected, t));
    s := RunFrom(env, begun, SealSteps(x, draws, |batch|));
    EveryRun(env, steps);
    SealingSucceeds(env.c, env.reg, draws, before.keys, batch, |batch|);
    SealingKeepsEnvelopes(env.c, env.reg, draws, before.keys, batch, |batch|);
    CommitUnrolled(env, steps, x, batch, expected, t, draws);
    SoloSeal(env, begun, x, draws, |batch|);
    SealStepsStoreNothing(env, begun, x, draws, |batch|);
    StepKeepsInv(env, before, Begin(x, batch, expected, t));
    SealStepsKeepInv(env, begun, x, draws, |batch|);
  }

  lemma {:induction false} SealStepsKeepInv(env: Env, s: State, x: nat, draws: Draws, n: nat)
    requires Inv(env, s)
    ensures Inv(env, RunFrom(env, s, SealSteps(x, draws, n)))
  {
    if n > 0 {
      SealStepsKeepInv(env, s, x, draws, n - 1);
      RunOneMore(env, s, SealSteps(x, draws, n - 1), SealNext(x, draws.supply(n - 1)));
      StepKeepsInv(env, RunFrom(env, s, SealSteps(x, draws, n - 1)), SealNext(x, draws.supply(n - 1)));
    }
  }

  /**
   * From any state of any run, a call that nobody interrupts and nothing fails for goes through
   * if and only if a plain store, holding the log as recorded, would accept the batch as
   * recorded. The log as recorded then grows by what that store would add, and the call has
   * returned nil, each erasure it was asked for done; a refused call leaves the log as it was.
   */
  lemma CommitsIffPlainAccepts(env: Env, steps: seq<Step>, x: nat, batch: seq<Event>, expected: nat, t: Option<Uuid>, draws: Draws)
    requires x !in Exec(env, steps).txs && (forall e :: e in batch ==> Unsealed(e)) && AllSupplied(env.reg, draws, batch)
    requires NoErasureFails(env, draws, batch)
    ensures var s, s' := Exec(env, steps), Exec(env, steps + CommitSteps(env, x, batch, expected, t, draws));
            var plainly := EventLog.Commit(s.plain, batch, expected, t);
            && x in s'.txs
            && if plainly.Ok? then s'.plain == plainly.value && ErasureVerifier.Returned(s'.txs[x])
               else s'.plain == s.plain && s'.log == s.log && s'.txs[x].phase == Failed
  {
    var s := Sealed(env, steps, x, batch, expected, t, draws);
    var stored := Do(env, s, StoreCommit(x));
    SealedLedger.CommitsAgree(env, s, x);
    AllErasing(env, x, draws, batch, |batch|);
    ErasingStoresNothing(env, stored, x, EraseSteps(env, x, draws, batch, |batch|));
    if stored.txs[x].phase == Failed {
      FailedStays(env, stored, x, EraseSteps(env, x, draws, batch, |batch|));
    } else {
      ErasesAll(env, stored, x, draws, batch);
    }
  }

  lemma ErasesAll(env: Env, s: State, x: nat, draws: Draws, batch: seq<Event>)
    requires x in s.txs && s.txs[x].phase == Forgetting && s.txs[x].at == 0 && |s.txs[x].batch| == |batch|
    requires forall i :: 0 <= i < |batch| ==> s.txs[x].batch[i].name == batch[i].name && s.txs[x].batch[i].piiID == batch[i].piiID
    requires NoErasureFails(env, draws, batch)
    ensures var s' := RunFrom(env, s, EraseSteps(env, x, draws, batch, |batch|));
            x in s'.txs && ErasureVerifier.Returned(s'.txs[x])
  {
    SameSteps(env, x, draws, batch, s.txs[x].batch, |batch|);
    SoloErase(env, s, x, draws, |batch|);
    NeverStops(env, draws, batch, |batch|);
  }
}
