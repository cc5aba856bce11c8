/** The erasure verifier: what a proof of erasure rests on, and when one is to be had. */
module ErasureVerifier {
  import opened Common
  import opened Events
  import opened EventLog
  import opened MemStore
  import opened Pii
  import opened PiiStore
  import opened ShredChain
  import opened Shredding
  import KeyRings

  datatype Proof = Proof(subject: Uuid, erasures: seq<ShredRecord>, keyForgotten: bool, eventsUnrecoverable: bool)

  datatype VerifyError =
    | LedgerUnreadable | ChainBroken(at: nat) | NoErasureRecord | KeyUnreadable
    | EventsUnreadable(cause: PiiError) | KeyStillExists | EventsStillDecrypt

  /** Which of the verifier's reads fail: the ledger's, its own of the key, the store's of each event's key. */
  datatype Faults = Faults(ledger: bool, key: bool, events: nat -> bool)

  function OfSubject(p: Uuid): ShredRecord -> bool {
    (r: ShredRecord) => r.piiID == p
  }

  function Erasures(records: seq<ShredRecord>, p: Uuid): seq<ShredRecord> {
    Filter(OfSubject(p), records)
  }

  /** No event with a manifest still reads as anything but unrecoverable. */
  predicate AllFlagged(es: seq<Event>) {
    forall e :: e in es ==> e.manifest.NoManifest? || e.piiUnrecoverable
  }

  /** Every manifest-bearing event of the subject reads back flagged; so do none at all. */
  ghost predicate Unrecoverable(c: Cipher, keys: KeyMap, log: seq<Event>, p: Uuid) {
    match OpenRead(c, keys, FetchByPii(log, p, None))
    case Ok(es) => AllFlagged(es)
    case Err(e) => e == NotStored(SubjectNotFound)
  }

  predicate OnRecord(records: seq<ShredRecord>, p: Uuid) {
    exists r :: r in records && r.piiID == p
  }

  /** The evidence a nil error stands for. */
  ghost predicate Established(c: Cipher, h: Hash, keys: KeyMap, log: seq<Event>, records: seq<ShredRecord>, p: Uuid) {
    && Chained(h, records)
    && OnRecord(records, p)
    && p !in keys
    && Unrecoverable(c, keys, log, p)
  }

  class Verifier {
    const events: PiiEventStore
    const keys: KeyRings.KeyRing
    const ledger: ErasureLedger

    constructor (events: PiiEventStore, keys: KeyRings.KeyRing, ledger: ErasureLedger)
      ensures this.events == events && this.keys == keys && this.ledger == ledger
    {
      this.events, this.keys, this.ledger := events, keys, ledger;
    }

    /** The subject's records, in ledger order. */
    method CollectErasures(all: seq<ShredRecord>, p: Uuid) returns (out: seq<ShredRecord>)
      ensures out == Erasures(all, p)
    {
      out := [];
      for i := 0 to |all|
        invariant out == Filter(OfSubject(p), all[..i])
      {
        FilterStep(OfSubject(p), all, i);
        if all[i].piiID == p {
          out := out + [all[i]];
        }
      }
      assert all[..|all|] == all;
    }

    method CheckFlags(es: seq<DomainEvent>) returns (flagged: bool)
      ensures flagged == AllFlagged(Values(es))
    {
      for i := 0 to |es|
        invariant AllFlagged(Values(es)[..i])
      {
        var e := es[i];
        assert Values(es)[i] == e.Value();
        assert Values(es)[..i + 1] == Values(es)[..i] + [e.Value()];
        if !e.manifest.NoManifest? && !e.piiUnrecoverable {
          assert e.Value() in Values(es);
          return false;
        }
      }
      assert Values(es)[..|es|] == Values(es);
      flagged := true;
    }

    /**
     * Where nothing fails to be read the error is None exactly when every condition is met, and
     * otherwise names the first that is not, in the order ledger, chain, record, key, readable
     * events, key gone, flags. The proof says as much as was checked by then: nothing when
     * something could not be read or the chain is broken.
     */
    method Verify(p: Uuid, faults: Faults) returns (proof: Option<Proof>, error: Option<VerifyError>)
      requires events.store.Valid() && keys == events.ring
      ensures error.None? ==> Established(events.c, ledger.h, keys.keys, events.store.Log(), ledger.records, p)
      ensures !faults.ledger && !faults.key && (forall i :: !faults.events(i)) ==>
                (error.None? <==> Established(events.c, ledger.h, keys.keys, events.store.Log(), ledger.records, p))
      ensures error == Some(LedgerUnreadable) <==> faults.ledger
      ensures error.Some? && error.value.ChainBroken? <==> !faults.ledger && !Chained(ledger.h, ledger.records)
      ensures error == Some(NoErasureRecord)
              <==> !faults.ledger && Chained(ledger.h, ledger.records) && !OnRecord(ledger.records, p)
      ensures !faults.ledger && Chained(ledger.h, ledger.records) && OnRecord(ledger.records, p) ==>
                var read := OpenReadOr(events.c, keys.keys, faults.events, FetchByPii(events.store.Log(), p, None));
                var unrecoverable := Unrecoverable(events.c, keys.keys, events.store.Log(), p);
                if faults.key then proof == None && error == Some(KeyUnreadable)
                else if read.Err? && read.error.Unopenable? then proof == None && error == Some(EventsUnreadable(read.error.opening))
                else
                  && proof == Some(Proof(p, Erasures(ledger.records, p), p !in keys.keys, unrecoverable))
                  && (error == Some(KeyStillExists) <==> p in keys.keys)
                  && (error == Some(EventsStillDecrypt) <==> p !in keys.keys && !unrecoverable)
      ensures faults.ledger || !Chained(ledger.h, ledger.records) ==> proof == None
      ensures error == Some(NoErasureRecord) ==> proof == Some(Proof(p, [], false, false))
    {
      if faults.ledger {
        return None, Some(LedgerUnreadable);
      }
      var all := ledger.Entries();
      var broken := CheckShredChain(ledger.h, all);
      if broken.Some? {
        return None, Some(ChainBroken(broken.value));
      }
      var erasures := CollectErasures(all, p);
      assert forall r :: r in erasures <==> r in all && r.piiID == p by {
        forall r ensures r in erasures <==> r in all && r.piiID == p {
          FilterMember(OfSubject(p), all, r);
        }
      }
      if |erasures| == 0 {
        return Some(Proof(p, [], false, false)), Some(NoErasureRecord);
      }
      assert erasures[0] in erasures;
      if faults.key {
        return None, Some(KeyUnreadable);
      }
      var key := keys.Get(p);
      var keyForgotten := key.None?;
      ReadsAgree(events.c, keys.keys, faults.events, FetchByPii(events.store.Log(), p, None));
      var unrecoverable, unreadable := CheckEvents(p, faults);
      if unreadable.Some? {
        return None, Some(EventsUnreadable(unreadable.value));
      }
      proof := Some(Proof(p, erasures, keyForgotten, unrecoverable));
      error := if !keyForgotten then Some(KeyStillExists) else if !unrecoverable then Some(EventsStillDecrypt) else None;
    }

    /** The part of Verify that reads the subject's events. */
    method CheckEvents(p: Uuid, faults: Faults) returns (unrecoverable: bool, unreadable: Option<PiiError>)
      requires events.store.Valid() && keys == events.ring
      ensures var read := OpenReadOr(events.c, keys.keys, faults.events, FetchByPii(events.store.Log(), p, None));
              if read.Err? && read.error.Unopenable? then unreadable == Some(read.error.opening)
              else unreadable == None && unrecoverable == if read.Ok? then AllFlagged(read.value) else read.error == NotStored(SubjectNotFound)
    {
      var found := events.FetchByPiiID(p, [], faults.events);
      unrecoverable, unreadable := true, None;
      if found.Err? {
        if found.error != NotStored(SubjectNotFound) {
          unreadable := Some(found.error.opening);
        }
      } else {
        unrecoverable := CheckFlags(found.value);
      }
    }
  }

  /** A read that succeeds is what a read with nothing failing gives. */
  lemma ReadsAgree(c: Cipher, keys: KeyMap, fails: nat -> bool, found: Result<seq<Event>, StoreError>)
    ensures var r := OpenReadOr(c, keys, fails, found);
            && (r.Ok? || r.error.NotStored? ==> r == OpenRead(c, keys, found))
            && ((forall i :: !fails(i)) ==> r == OpenRead(c, keys, found))
  {
    if found.Ok? {
      FailuresOnlyFail(c, keys, fails, found.value);
    }
  }

  // ---- when the conditions are met ----

  /** A manifest that Open reads as one of its own. */
  predicate NamesFields(m: Manifest) {
    m.Fields? && m.names != []
  }

  /** An event that comes back flagged, or was never marked as sealed, once its key is gone. */
  predicate Flaggable(e: Event) {
    e.piiUnrecoverable || e.manifest.NoManifest? || NamesFields(e.manifest)
  }

  /** With the key gone every event of the subject opens, flagged where Open recognises its manifest. */
  lemma {:induction false} OpenWithoutKey(c: Cipher, keys: KeyMap, es: seq<Event>, p: Uuid)
    requires p !in keys && forall e :: e in es ==> e.piiID == Some(p)
    ensures OpenAll(c, keys, es).Ok?
    ensures AllFlagged(OpenAll(c, keys, es).value) <==> forall e :: e in es ==> Flaggable(e)
  {
    if es != [] {
      var init, last := es[..|es| - 1], es[|es| - 1];
      assert es == init + [last];
      OpenWithoutKey(c, keys, init, p);
      var read := OpenEvent(c, keys, last).value;
      assert OpenAll(c, keys, es).value == OpenAll(c, keys, init).value + [read];
      assert read.manifest.NoManifest? || read.piiUnrecoverable <==> Flaggable(last);
    }
  }

  /**
   * With the key gone every read of the subject succeeds, and the events are unrecoverable
   * unless one carries a manifest that names nothing: Open leaves such an event unflagged.
   */
  lemma UnrecoverableIffManifestsName(c: Cipher, keys: KeyMap, log: seq<Event>, p: Uuid)
    requires p !in keys
    ensures Unrecoverable(c, keys, log, p) <==> forall e :: e in log && e.piiID == Some(p) ==> Flaggable(e)
  {
    var mine := Filter(HasPii(p), log);
    assert Filter(VisibleTo(None), mine) == mine by {
      FilterAll(VisibleTo(None), mine);
    }
    forall e ensures e in mine <==> e in log && e.piiID == Some(p) {
      FilterMember(HasPii(p), log, e);
    }
    OpenWithoutKey(c, keys, mine, p);
  }

  /** An event that names a subject, of a type that asks for the subject's erasure. */
  predicate AsksErasure(env: Env, e: Event) {
    e.piiID.Some? && e.name in env.reg && env.reg[e.name].requestsErasure
  }

  /** The verdict on a reachable state's three stores. */
  ghost predicate Proved(env: Env, s: State, p: Uuid) {
    Established(env.c, env.h, s.keys, s.log, s.ledger, p)
  }

  /**
   * At any moment of any run, whatever it does: the chain is valid; every record comes from a
   * logged erasure request of its subject, whose key was forgotten; and erasure is proved for
   * exactly the subjects on record that have no key. A run that seals nothing anew for a
   * shredded subject never gives one a key, so then erasure is proved for all on record.
   */
  lemma ProvedIffRecorded(env: Env, steps: seq<Step>, p: Uuid)
    ensures var s := Exec(env, steps);
            && Chained(env.h, s.ledger)
            && (forall r :: r in s.ledger ==>
                  r.piiID in s.shredded &&
                  exists e :: Logged(s.log, e) && AsksErasure(env, e) && e.piiID == Some(r.piiID) && r.origin == e.globalID % 0x1_0000_0000_0000_0000)
            && (Proved(env, s, p) <==> OnRecord(s.ledger, p) && p !in s.keys)
            && (NeverReseals(env, steps) ==> (Proved(env, s, p) <==> OnRecord(s.ledger, p)))
  {
    EveryRun(env, steps);
    var s := Exec(env, steps);
    assert forall r :: r in s.ledger ==> RecordInv(env, s.log, s.shredded, r);
    if p !in s.keys {
      UnrecoverableIffManifestsName(env.c, s.keys, s.log, p);
      forall e | e in s.log ensures Flaggable(e) {
        var i :| 0 <= i < |s.log| && s.log[i] == e;
        assert SealOf(env, s.under[i], s.plain[i], s.log[i]);
        if Seals(env, s.plain[i]) {
          SealIsShredded(env, s.under[i], s.plain[i], s.log[i]);
        }
      }
    }
    if NeverReseals(env, steps) {
      RunKeepsKept(env, steps);
    }
  }

  /** A Commit that has returned nil. */
  predicate Returned(tx: Tx) {
    tx.phase == Forgetting && tx.at == |tx.batch|
  }

  lemma ReturnedHasErased(env: Env, s: State, x: nat, e: Event)
    requires Inv(env, s) && x in s.txs && Returned(s.txs[x]) && e in s.txs[x].batch && AsksErasure(env, e)
    ensures Logged(s.log, e) && ErasedBy(env, s, e)
  {
    var tx := s.txs[x];
    assert TxInv(env, s, tx);
    var i :| 0 <= i < |tx.batch| && tx.batch[i] == e;
    assert Erases(env.reg, tx.batch[i]);
  }

  /**
   * Once a Commit holding an erasure request has returned nil, a record naming that very event
   * is there for good, and from then on Verify proves the subject erased exactly while it has
   * no key: always, unless a later event of the subject is sealed, which issues it another.
   */
  lemma CommittedErasureIsProved(env: Env, steps: seq<Step>, more: seq<Step>, x: nat, e: Event)
    requires env.mounted
    requires x in Exec(env, steps).txs && Returned(Exec(env, steps).txs[x])
    requires e in Exec(env, steps).txs[x].batch && AsksErasure(env, e)
    ensures var s := Exec(env, steps + more);
            && Logged(s.log, e) && e.piiID.value in s.shredded
            && (exists r :: r in Erasures(s.ledger, e.piiID.value) && r.origin == e.globalID % 0x1_0000_0000_0000_0000)
            && (Proved(env, s, e.piiID.value) <==> e.piiID.value !in s.keys)
            && (NeverReseals(env, steps + more) ==> Proved(env, s, e.piiID.value))
  {
    var s, s' := Exec(env, steps), Exec(env, steps + more);
    EveryRun(env, steps);
    ReturnedHasErased(env, s, x, e);
    NothingUndone(env, steps, more);
    ProvedIffRecorded(env, steps + more, e.piiID.value);
    var r :| r in s.ledger && r.piiID == e.piiID.value && r.origin == Origin(e);
    FilterMember(OfSubject(e.piiID.value), s'.ledger, r);
  }
}
