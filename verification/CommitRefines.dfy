/** The sealed store's Commit, run alone, is a run of the interleaved machine. */
module CommitRefines {
  import opened Common
  import opened Events
  import opened EventLog
  import opened ShredChain
  import opened PiiStore
  import opened Shredding

  function RunFrom(env: Env, s: State, steps: seq<Step>): State {
    if steps == [] then s else Do(env, RunFrom(env, s, steps[..|steps| - 1]), steps[|steps| - 1])
  }

  lemma RunOneMore(env: Env, s: State, steps: seq<Step>, step: Step)
    ensures RunFrom(env, s, steps + [step]) == Do(env, RunFrom(env, s, steps), step)
  {
    assert (steps + [step])[..|steps|] == steps;
  }

  lemma {:induction false} ExecThenRun(env: Env, before: seq<Step>, more: seq<Step>)
    ensures Exec(env, before + more) == RunFrom(env, Exec(env, before), more)
  {
    if more == [] {
      assert before + more == before;
    } else {
      assert (before + more)[..|before + more| - 1] == before + more[..|more| - 1];
      ExecThenRun(env, before, more[..|more| - 1]);
    }
  }

  lemma {:induction false} RunThenRun(env: Env, s: State, first: seq<Step>, more: seq<Step>)
    ensures RunFrom(env, s, first + more) == RunFrom(env, RunFrom(env, s, first), more)
  {
    if more == [] {
      assert first + more == first;
    } else {
      assert (first + more)[..|first + more| - 1] == first + more[..|more| - 1];
      RunThenRun(env, s, first, more[..|more| - 1]);
    }
  }

  // ---- the steps of one call ----

  function SealSteps(x: nat, draws: Draws, n: nat): seq<Step> {
    if n == 0 then [] else SealSteps(x, draws, n - 1) + [SealNext(x, draws.supply(n - 1))]
  }

  /** The i-th event's turn in the second loop: no call, a Forget, or a Forget and an Append that succeed. */
  function EraseStepsOf(env: Env, x: nat, draws: Draws, e: Event, i: nat): seq<Step> {
    if !Erases(env.reg, e) then [ForgetNext(x)]
    else if draws.forgetFails(i) then []
    else if !env.mounted || draws.appendFails(i) then [ForgetNext(x)]
    else [ForgetNext(x), RecordNext(x, draws.now(i))]
  }

  predicate StopsAt(env: Env, draws: Draws, e: Event, i: nat) {
    Erases(env.reg, e) && (draws.forgetFails(i) || (env.mounted && draws.appendFails(i)))
  }

  predicate StoppedBefore(env: Env, draws: Draws, batch: seq<Event>, n: nat)
    requires n <= |batch|
  {
    n > 0 && (StoppedBefore(env, draws, batch, n - 1) || StopsAt(env, draws, batch[n - 1], n - 1))
  }

  /** The call returns at the first failure. */
  function EraseSteps(env: Env, x: nat, draws: Draws, batch: seq<Event>, n: nat): seq<Step>
    requires n <= |batch|
  {
    if n == 0 then []
    else
      EraseSteps(env, x, draws, batch, n - 1)
      + if StoppedBefore(env, draws, batch, n - 1) then [] else EraseStepsOf(env, x, draws, batch[n - 1], n - 1)
  }

  function CommitSteps(env: Env, x: nat, batch: seq<Event>, expected: nat, t: Option<Uuid>, draws: Draws): seq<Step> {
    [Begin(x, batch, expected, t)] + SealSteps(x, draws, |batch|) + [StoreCommit(x)] + EraseSteps(env, x, draws, batch, |batch|)
  }

  /** What a call sees of the ledger: nothing where none is mounted. */
  function LedgerOf(env: Env, s: State): Option<seq<ShredRecord>> {
    if env.mounted then Some(s.ledger) else None
  }

  /** One SealNext does what one turn of Commit's first loop does. */
  lemma SealStepMatches(env: Env, s: State, x: nat, draws: Draws)
    requires x in s.txs && s.txs[x].phase == Preparing && s.txs[x].at < |s.txs[x].batch|
    requires |s.txs[x].under| == |s.txs[x].batch|
    ensures var tx := s.txs[x];
            var r := Do(env, s, SealNext(x, draws.supply(tx.at)));
            var done := SealOne(env.c, env.reg, draws, Sealing(s.keys, tx.batch, None), tx.at);
            && r.keys == done.keys && r.log == s.log && r.ledger == s.ledger && r.shredded == s.shredded
            && x in r.txs
            && |r.txs[x].under| == |tx.under|
            && r.txs[x] == if done.error.Some? then tx.(phase := Failed)
                           else tx.(batch := done.batch, under := r.txs[x].under, at := tx.at + 1)
  {
  }

  /** An event's steps do what one turn of its second loop does. */
  lemma EraseStepMatches(env: Env, s: State, x: nat, draws: Draws)
    requires x in s.txs && s.txs[x].phase == Forgetting && s.txs[x].at < |s.txs[x].batch|
    ensures var tx := s.txs[x];
            var e := tx.batch[tx.at];
            var r := RunFrom(env, s, EraseStepsOf(env, x, draws, e, tx.at));
            var after := EraseOne(env.h, env.reg, draws, Shreds(s.keys, LedgerOf(env, s), None), e, tx.at);
            && r.keys == after.keys && LedgerOf(env, r) == after.records && r.log == s.log
            && (after.error.Some? <==> StopsAt(env, draws, e, tx.at))
            && (after.error.None? ==> x in r.txs && r.txs[x] == tx.(at := tx.at + 1))
  {
    var e := s.txs[x].batch[s.txs[x].at];
    RunOneMore(env, s, [], ForgetNext(x));
    assert [] + [ForgetNext(x)] == [ForgetNext(x)];
    if Erases(env.reg, e) {
      var record := RecordNext(x, draws.now(s.txs[x].at));
      RunOneMore(env, s, [ForgetNext(x)], record);
      assert [ForgetNext(x)] + [record] == [ForgetNext(x), record];
    }
  }

  /** r is s after its transaction x sealed n events, or failed trying. */
  predicate SealedSoFar(s: State, r: State, x: nat, done: Sealing, n: nat)
    requires x in s.txs
  {
    && r.keys == done.keys && r.log == s.log && r.ledger == s.ledger && r.shredded == s.shredded
    && x in r.txs
    && |r.txs[x].under| == |s.txs[x].under|
    && if done.error.Some? then r.txs[x].phase == Failed
       else r.txs[x] == s.txs[x].(batch := done.batch, under := r.txs[x].under, at := n)
  }

  lemma SoloSealStep(env: Env, s: State, r: State, x: nat, draws: Draws, done: Sealing, i: nat)
    requires x in s.txs && s.txs[x].phase == Preparing && i < |s.txs[x].batch| == |done.batch|
    requires SealedSoFar(s, r, x, done, i)
    requires |s.txs[x].under| == |s.txs[x].batch|
    ensures SealedSoFar(s, Do(env, r, SealNext(x, draws.supply(i))), x,
                        if done.error.Some? then done else SealOne(env.c, env.reg, draws, done, i), i + 1)
  {
    if done.error.None? {
      SealStepMatches(env, r, x, draws);
    }
  }

  lemma {:induction false} SoloSeal(env: Env, s: State, x: nat, draws: Draws, n: nat)
    requires x in s.txs && s.txs[x].at == 0 && s.txs[x].phase == Preparing && n <= |s.txs[x].batch|
    requires |s.txs[x].under| == |s.txs[x].batch|
    ensures SealedSoFar(s, RunFrom(env, s, SealSteps(x, draws, n)), x, SealUpTo(env.c, env.reg, draws, s.keys, s.txs[x].batch, n), n)
  {
    if n > 0 {
      var batch, i := s.txs[x].batch, n - 1;
      var r, done := RunFrom(env, s, SealSteps(x, draws, i)), SealUpTo(env.c, env.reg, draws, s.keys, batch, i);
      SoloSeal(env, s, x, draws, i);
      RunOneMore(env, s, SealSteps(x, draws, i), SealNext(x, draws.supply(i)));
      SealingKeepsEnvelopes(env.c, env.reg, draws, s.keys, batch, i);
      assert done.batch[i] == batch[i] && batch[i] in batch;
      SoloSealStep(env, s, r, x, draws, done, i);
    }
  }

  lemma {:induction false} SoloErase(env: Env, s: State, x: nat, draws: Draws, n: nat)
    requires x in s.txs && s.txs[x].at == 0 && s.txs[x].phase == Forgetting && n <= |s.txs[x].batch|
    ensures var r, tx := RunFrom(env, s, EraseSteps(env, x, draws, s.txs[x].batch, n)), s.txs[x];
            var after := EraseUpTo(env.h, env.reg, draws, Shreds(s.keys, LedgerOf(env, s), None), tx.batch, n);
            && r.keys == after.keys && LedgerOf(env, r) == after.records && r.log == s.log
            && (after.error.Some? <==> StoppedBefore(env, draws, tx.batch, n))
            && (after.error.None? ==> x in r.txs && r.txs[x] == tx.(at := n))
  {
    if n > 0 {
      var batch := s.txs[x].batch;
      var before := EraseSteps(env, x, draws, batch, n - 1);
      SoloErase(env, s, x, draws, n - 1);
      var r := RunFrom(env, s, before);
      if EraseUpTo(env.h, env.reg, draws, Shreds(s.keys, LedgerOf(env, s), None), batch, n - 1).error.Some? {
        assert before + [] == before;
      } else {
        RunThenRun(env, s, before, EraseStepsOf(env, x, draws, batch[n - 1], n - 1));
        EraseStepMatches(env, r, x, draws);
      }
    }
  }

  /** Whether an event asks for an erasure is not for sealing, stamping or numbering to change. */
  lemma {:induction false} SameSteps(env: Env, x: nat, draws: Draws, a: seq<Event>, b: seq<Event>, n: nat)
    requires |a| == |b| && n <= |a|
    requires forall i :: 0 <= i < |a| ==> a[i].name == b[i].name && a[i].piiID == b[i].piiID
    ensures StoppedBefore(env, draws, a, n) <==> StoppedBefore(env, draws, b, n)
    ensures EraseSteps(env, x, draws, a, n) == EraseSteps(env, x, draws, b, n)
  {
    if n > 0 {
      SameSteps(env, x, draws, a, b, n - 1);
    }
  }

  predicate Erasing(x: nat, step: Step) {
    (step.ForgetNext? || step.RecordNext?) && step.x == x
  }

  lemma {:induction false} AllErasing(env: Env, x: nat, draws: Draws, batch: seq<Event>, n: nat)
    requires n <= |batch|
    ensures forall step :: step in EraseSteps(env, x, draws, batch, n) ==> Erasing(x, step)
  {
    if n > 0 {
      AllErasing(env, x, draws, batch, n - 1);
    }
  }

  lemma {:induction false} FailedStays(env: Env, s: State, x: nat, steps: seq<Step>)
    requires x in s.txs && s.txs[x].phase == Failed
    requires forall step :: step in steps ==> Erasing(x, step)
    ensures RunFrom(env, s, steps) == s
  {
    if steps != [] {
      FailedStays(env, s, x, steps[..|steps| - 1]);
      assert Erasing(x, steps[|steps| - 1]);
    }
  }

  lemma CommitUnrolled(env: Env, steps: seq<Step>, x: nat, batch: seq<Event>, expected: nat, t: Option<Uuid>, draws: Draws)
    ensures var s1 := Do(env, Exec(env, steps), Begin(x, batch, expected, t));
            var s3 := Do(env, RunFrom(env, s1, SealSteps(x, draws, |batch|)), StoreCommit(x));
            Exec(env, steps + CommitSteps(env, x, batch, expected, t, draws)) == RunFrom(env, s3, EraseSteps(env, x, draws, batch, |batch|))
  {
    var s := Exec(env, steps);
    var begin, seal, erase := [Begin(x, batch, expected, t)], SealSteps(x, draws, |batch|), EraseSteps(env, x, draws, batch, |batch|);
    ExecThenRun(env, steps, begin + seal + [StoreCommit(x)] + erase);
    RunThenRun(env, s, begin + seal + [StoreCommit(x)], erase);
    RunOneMore(env, s, begin + seal, StoreCommit(x));
    RunThenRun(env, s, begin, seal);
    RunOneMore(env, s, [], begin[0]);
    assert [] + begin == begin;
  }

  /** StoreCommit and the second loop, once every event is sealed as done says. */
  lemma SoloStore(env: Env, s: State, x: nat, batch: seq<Event>, draws: Draws)
    requires x in s.txs && s.txs[x].phase == Preparing && s.txs[x].at == |s.txs[x].batch| == |batch|
    requires forall i :: 0 <= i < |batch| ==> s.txs[x].batch[i].name == batch[i].name && s.txs[x].batch[i].piiID == batch[i].piiID
    ensures var tx, r := s.txs[x], RunFrom(env, Do(env, s, StoreCommit(x)), EraseSteps(env, x, draws, batch, |batch|));
            var outcome := EventLog.Commit(s.log, tx.batch, tx.expected, tx.tenant);
            && (outcome.Err? ==> r.log == s.log && r.keys == s.keys && r.ledger == s.ledger)
            && (outcome.Ok? ==>
                  var after := EraseUpTo(env.h, env.reg, draws, Shreds(s.keys, LedgerOf(env, s), None),
                                         Number(StampAll(tx.tenant, tx.batch), |s.log|), |batch|);
                  r.log == outcome.value && r.keys == after.keys && LedgerOf(env, r) == after.records)
  {
    var s' := Do(env, s, StoreCommit(x));
    if s'.txs[x].phase == Failed {
      AllErasing(env, x, draws, batch, |batch|);
      FailedStays(env, s', x, EraseSteps(env, x, draws, batch, |batch|));
    } else {
      SameSteps(env, x, draws, batch, s'.txs[x].batch, |batch|);
      SoloErase(env, s', x, draws, |batch|);
    }
  }

  /**
   * From any reachable state, the log, keys and ledger that the sealed store's Commit is proved
   * to leave are those of a reachable state of the machine, so all that holds in every run of
   * the machine holds after every call: whether sealing fails, the store refuses, the call
   * stops while shredding, or it returns nil.
   */
  lemma CommitIsARun(env: Env, steps: seq<Step>, x: nat, batch: seq<Event>, expected: nat, t: Option<Uuid>, draws: Draws)
    requires x !in Exec(env, steps).txs && (forall e :: e in batch ==> Unsealed(e))
    ensures var s, s' := Exec(env, steps), Exec(env, steps + CommitSteps(env, x, batch, expected, t, draws));
            var done := SealUpTo(env.c, env.reg, draws, s.keys, batch, |batch|);
            var outcome := EventLog.Commit(s.log, done.batch, expected, t);
            && (done.error.Some? || outcome.Err? ==> s'.log == s.log && s'.keys == done.keys && s'.ledger == s.ledger)
            && (done.error.None? && outcome.Ok? ==>
                  var after := EraseUpTo(env.h, env.reg, draws, Shreds(done.keys, LedgerOf(env, s), None),
                                         Number(StampAll(t, done.batch), |s.log|), |batch|);
                  s'.log == outcome.value && s'.keys == after.keys && LedgerOf(env, s') == after.records)
  {
    CommitUnrolled(env, steps, x, batch, expected, t, draws);
    var s1 := Do(env, Exec(env, steps), Begin(x, batch, expected, t));
    SoloSeal(env, s1, x, draws, |batch|);
    var s2 := RunFrom(env, s1, SealSteps(x, draws, |batch|));
    if s2.txs[x].phase == Failed {
      AllErasing(env, x, draws, batch, |batch|);
      FailedStays(env, s2, x, EraseSteps(env, x, draws, batch, |batch|));
    } else {
      SealingKeepsEnvelopes(env.c, env.reg, draws, s1.keys, batch, |batch|);
      SoloStore(env, s2, x, batch, draws);
    }
  }
}
