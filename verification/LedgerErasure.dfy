/** The example ledger on the sealed store: balances survive the erasure of their holders. */
module LedgerErasure {
  import opened Common
  import opened Events
  import opened Aggregate
  import opened Ledger
  import opened Pii
  import opened PiiStore
  import opened Shredding

  const REGISTRY: Registry := map[
    ACCOUNT_OPENED := Kind(HOLDER_FIELDS, false),
    TRANSACTION_RECORDED := Kind([], false),
    ERASURE_REQUESTED := Kind([], true)]

  /** The log as it was recorded, before any sealing. */
  function RecordedLog(env: Env, s: State): seq<Event> {
    seq(|s.plain|, i requires 0 <= i < |s.plain| => AsRecorded(env, s.plain[i]))
  }

  /** What the sealed store returns of each event is a read the projector is built for. */
  lemma ReadsAreReadOf(env: Env, steps: seq<Step>, i: nat)
    requires Deciphers(env.c) && env.reg == REGISTRY && NeverReseals(env, steps) && i < |Exec(env, steps).log|
    ensures var s := Exec(env, steps);
            && |s.plain| == |s.log|
            && OpenEvent(env.c, s.keys, s.log[i]) == Ok(ReadBack(env, s.shredded, s.plain[i], s.log[i]))
            && ReadOf(AsRecorded(env, s.plain[i]), ReadBack(env, s.shredded, s.plain[i], s.log[i]))
  {
    EveryReadAnswers(env, steps, i);
    ReadsExactly(env, steps, i);
  }

  /**
   * After any run of commits and erasures over any number of accounts, none of which seals
   * anything anew for an erased holder, rebuilding the book
   * from the store gives every account the balance its history has as it was recorded.
   */
  lemma BookSurvivesErasure(env: Env, steps: seq<Step>, id: Uuid)
    requires Deciphers(env.c) && env.reg == REGISTRY && NeverReseals(env, steps)
    requires forall a :: Replay(ACCOUNT, ACCOUNT.zero, Facts(Filter(OfAggregate(a), RecordedLog(env, Exec(env, steps))))).Ok?
    ensures var s := Exec(env, steps);
            var read, log := OpenAll(env.c, s.keys, s.log), RecordedLog(env, s);
            && read.Ok?
            && Mirrors(ProjectAll(read.value), id, Filter(OfAggregate(id), log), Filter(OfAggregate(id), read.value),
                       Replay(ACCOUNT, ACCOUNT.zero, Facts(Filter(OfAggregate(id), log))).value)
  {
    var s := Exec(env, steps);
    WholeLogReads(env, steps);
    var copies, log := OpenAll(env.c, s.keys, s.log).value, RecordedLog(env, s);
    forall i | 0 <= i < |log| ensures ReadOf(log[i], copies[i]) {
      ReadsAreReadOf(env, steps, i);
    }
    BookEqualsReplay(log, copies, id);
  }

  predicate SameAmounts(a: Account, b: Account) {
    a.balance == b.balance && a.isOpen == b.isOpen
  }

  lemma AppliesAlike(a: Account, a': Account, e: Event, read: Event)
    requires SameAmounts(a, a') && ReadOf(e, read) && ApplyFact(ACCOUNT, a, FactOf(e)).Ok?
    ensures var r := ApplyFact(ACCOUNT, a', FactOf(read));
            r.Ok? && SameAmounts(ApplyFact(ACCOUNT, a, FactOf(e)).value, r.value)
  {
    ReadKeepsAmounts(e, read);
  }

  /** Replaying an account from the store keeps working, and gives its balance, after its holder is erased. */
  lemma {:induction false} ReplaySurvivesErasure(log: seq<Event>, copies: seq<Event>, id: Uuid)
    requires |copies| == |log| && forall i :: 0 <= i < |log| ==> ReadOf(log[i], copies[i])
    requires Replay(ACCOUNT, ACCOUNT.zero, Facts(Filter(OfAggregate(id), log))).Ok?
    ensures var now := Replay(ACCOUNT, ACCOUNT.zero, Facts(Filter(OfAggregate(id), copies)));
            now.Ok? && SameAmounts(Replay(ACCOUNT, ACCOUNT.zero, Facts(Filter(OfAggregate(id), log))).value, now.value)
  {
    if log != [] {
      var n := |log| - 1;
      ReplayPush(ACCOUNT, log, id);
      ReplaySurvivesErasure(log[..n], copies[..n], id);
      if log[n].aggregateID == id {
        var mine, mine' := Filter(OfAggregate(id), log[..n]), Filter(OfAggregate(id), copies[..n]);
        AppliesAlike(Replay(ACCOUNT, ACCOUNT.zero, Facts(mine)).value, Replay(ACCOUNT, ACCOUNT.zero, Facts(mine')).value, log[n], copies[n]);
        var facts := Facts(mine' + [copies[n]]);
        assert facts[..|mine'|] == Facts(mine') && facts[|mine'|] == FactOf(copies[n]);
      }
    }
  }
}
