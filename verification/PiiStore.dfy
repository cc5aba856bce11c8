/** The store decorator that seals on commit, opens on read, and shreds on an erasure request. */
module PiiStore {
  import opened Common
  import opened Events
  import opened EventLog
  import opened MemStore
  import opened Pii
  import opened ShredChain
  import KeyRings

  /** What the registry's payload type of an event name declares. */
  datatype Kind = Kind(piiFields: seq<string>, requestsErasure: bool)

  type Registry = map<string, Kind>

  function PiiFieldsOf(reg: Registry, e: Event): seq<string> {
    if e.name in reg then reg[e.name].piiFields else []
  }

  predicate Erases(reg: Registry, e: Event) {
    e.piiID.Some? && e.name in reg && reg[e.name].requestsErasure
  }

  /** The ledger's 64-bit field for the event that asked for the erasure. */
  function Origin(e: Event): uint64 {
    e.globalID % 0x1_0000_0000_0000_0000
  }

  /**
   * What one call meets outside for its i-th event: what sealing it needs, the time, and
   * whether forgetting its subject's key or recording the erasure fails.
   */
  datatype Draws = Draws(
    supply: nat -> Supply, now: nat -> Time,
    forgetFails: nat -> bool, appendFails: nat -> bool)

  datatype EraseError = ForgetFailed | AppendFailed

  datatype CommitError = SealFailed(sealing: PiiError) | Refused(refusal: StoreError) | EraseFailed(erasing: EraseError)

  datatype ReadError = NotStored(missing: StoreError) | Unopenable(opening: PiiError)

  // ---- the two halves of Commit around the wrapped store's ----

  datatype Sealing = Sealing(keys: KeyMap, batch: seq<Event>, error: Option<PiiError>)

  function SealOne(c: Cipher, reg: Registry, draws: Draws, s: Sealing, i: nat): Sealing
    requires i < |s.batch|
  {
    var e := s.batch[i];
    var names := PiiFieldsOf(reg, e);
    var keys := IssueKey(s.keys, e, names, draws.supply(i));
    match SealEvent(c, keys, draws.supply(i), names, e)
    case Err(error) => Sealing(keys, s.batch, Some(error))
    case Ok(sealed) => Sealing(keys, s.batch[i := sealed], None)
  }

  function SealUpTo(c: Cipher, reg: Registry, draws: Draws, keys: KeyMap, batch: seq<Event>, i: nat): (s: Sealing)
    requires i <= |batch|
    ensures |s.batch| == |batch|
  {
    if i == 0 then Sealing(keys, batch, None)
    else
      var s := SealUpTo(c, reg, draws, keys, batch, i - 1);
      if s.error.Some? then s else SealOne(c, reg, draws, s, i - 1)
  }

  datatype Shreds = Shreds(keys: KeyMap, records: Option<seq<ShredRecord>>, error: Option<EraseError>)

  /**
   * Forgets the key of an erasure request's subject and, where a ledger is mounted, records it.
   * When the record cannot be appended the key is gone all the same.
   */
  function EraseOne(h: Hash, reg: Registry, draws: Draws, s: Shreds, e: Event, i: nat): Shreds {
    if !Erases(reg, e) then s
    else if draws.forgetFails(i) then s.(error := Some(ForgetFailed))
    else
      var forgotten := s.(keys := s.keys - {e.piiID.value});
      match s.records
      case None => forgotten
      case Some(rs) =>
        if draws.appendFails(i) then forgotten.(error := Some(AppendFailed))
        else forgotten.(records := Some(rs + [NextRecord(h, rs, e.piiID.value, draws.now(i), Origin(e))]))
  }

  function EraseUpTo(h: Hash, reg: Registry, draws: Draws, s: Shreds, batch: seq<Event>, i: nat): Shreds
    requires i <= |batch|
  {
    if i == 0 then s
    else
      var before := EraseUpTo(h, reg, draws, s, batch, i - 1);
      if before.error.Some? then before else EraseOne(h, reg, draws, before, batch[i - 1], i - 1)
  }

  lemma {:induction false} ErasingStops(h: Hash, reg: Registry, draws: Draws, s: Shreds, batch: seq<Event>, i: nat, n: nat)
    requires i <= n <= |batch| && EraseUpTo(h, reg, draws, s, batch, i).error.Some?
    ensures EraseUpTo(h, reg, draws, s, batch, n) == EraseUpTo(h, reg, draws, s, batch, i)
  {
    if i < n {
      ErasingStops(h, reg, draws, s, batch, i, n - 1);
    }
  }

  lemma {:induction false} SealingStops(c: Cipher, reg: Registry, draws: Draws, keys: KeyMap, batch: seq<Event>, i: nat, n: nat)
    requires i <= n <= |batch| && SealUpTo(c, reg, draws, keys, batch, i).error.Some?
    ensures SealUpTo(c, reg, draws, keys, batch, n) == SealUpTo(c, reg, draws, keys, batch, i)
  {
    if i < n {
      SealingStops(c, reg, draws, keys, batch, i, n - 1);
    }
  }

  /** Sealing changes payloads and manifests only, and only up to where it got. */
  lemma {:induction false} SealingKeepsEnvelopes(c: Cipher, reg: Registry, draws: Draws, keys: KeyMap, batch: seq<Event>, i: nat)
    requires i <= |batch|
    ensures var s := SealUpTo(c, reg, draws, keys, batch, i);
            forall j :: 0 <= j < |batch| ==>
              && s.batch[j] == batch[j].(payload := s.batch[j].payload, manifest := s.batch[j].manifest)
              && (j >= i ==> s.batch[j] == batch[j])
  {
    if i > 0 {
      SealingKeepsEnvelopes(c, reg, draws, keys, batch, i - 1);
    }
  }

  /** Where an event has declared fields, it is an object and nothing that sealing it needs fails. */
  ghost predicate AllSupplied(reg: Registry, draws: Draws, batch: seq<Event>) {
    forall i :: 0 <= i < |batch| && batch[i].piiID.Some? && batch[i].name in reg && reg[batch[i].name].piiFields != [] ==>
      batch[i].payload.Doc? && Supplied(draws.supply(i), batch[i].payload.fields, reg[batch[i].name].piiFields)
  }

  /** Then the whole batch is sealed. */
  lemma {:induction false} SealingSucceeds(c: Cipher, reg: Registry, draws: Draws, keys: KeyMap, batch: seq<Event>, i: nat)
    requires i <= |batch| && AllSupplied(reg, draws, batch) && forall p :: p in keys ==> Usable(keys[p])
    ensures var s := SealUpTo(c, reg, draws, keys, batch, i);
            s.error.None? && forall p :: p in s.keys ==> Usable(s.keys[p])
  {
    if i > 0 {
      SealingSucceeds(c, reg, draws, keys, batch, i - 1);
      SealingKeepsEnvelopes(c, reg, draws, keys, batch, i - 1);
      var s, e := SealUpTo(c, reg, draws, keys, batch, i - 1), batch[i - 1];
      assert s.batch[i - 1] == e;
      if e.payload.Doc? && Supplied(draws.supply(i - 1), e.payload.fields, PiiFieldsOf(reg, e)) {
        SealSeals(c, s.keys, draws.supply(i - 1), PiiFieldsOf(reg, e), e);
      }
    }
  }

  lemma SealingKeepsStream(c: Cipher, reg: Registry, draws: Draws, keys: KeyMap, batch: seq<Event>, t: Option<Uuid>)
    requires SingleStream(t, batch)
    ensures SingleStream(t, SealUpTo(c, reg, draws, keys, batch, |batch|).batch)
  {
    SealingKeepsEnvelopes(c, reg, draws, keys, batch, |batch|);
    var sealed := SealUpTo(c, reg, draws, keys, batch, |batch|).batch;
    forall i | 0 <= i < |batch| ensures KeyOf(Stamp(t, sealed[i])) == KeyOf(Stamp(t, batch[i])) {
    }
  }

  // ---- reads ----

  /** Every event opened, or the first failure. */
  function OpenAll(c: Cipher, keys: KeyMap, es: seq<Event>): Result<seq<Event>, PiiError> {
    if es == [] then Ok([])
    else
      var init := OpenAll(c, keys, es[..|es| - 1]);
      if init.Err? then init
      else
        match OpenEvent(c, keys, es[|es| - 1])
        case Err(e) => Err(e)
        case Ok(o) => Ok(init.value + [o])
  }

  /** The same when reading the i-th event's key may fail. */
  function OpenAllOr(c: Cipher, keys: KeyMap, fails: nat -> bool, es: seq<Event>): Result<seq<Event>, PiiError> {
    if es == [] then Ok([])
    else
      var n := |es| - 1;
      var init := OpenAllOr(c, keys, fails, es[..n]);
      if init.Err? then init
      else
        match OpenEventOr(c, keys, fails(n), es[n])
        case Err(e) => Err(e)
        case Ok(o) => Ok(init.value + [o])
  }

  lemma {:induction false} OpenAllStops(c: Cipher, keys: KeyMap, fails: nat -> bool, es: seq<Event>, i: nat)
    requires i <= |es| && OpenAllOr(c, keys, fails, es[..i]).Err?
    ensures OpenAllOr(c, keys, fails, es) == OpenAllOr(c, keys, fails, es[..i])
  {
    if i == |es| {
      assert es[..i] == es;
    } else {
      assert es[..|es| - 1][..i] == es[..i];
      OpenAllStops(c, keys, fails, es[..|es| - 1], i);
    }
  }

  lemma OpenAllStep(c: Cipher, keys: KeyMap, fails: nat -> bool, es: seq<Event>, i: nat)
    requires i < |es|
    ensures var init := OpenAllOr(c, keys, fails, es[..i]);
            OpenAllOr(c, keys, fails, es[..i + 1])
            == if init.Err? then init
               else match OpenEventOr(c, keys, fails(i), es[i]) { case Err(e) => Err(e) case Ok(o) => Ok(init.value + [o]) }
  {
    assert es[..i + 1][..i] == es[..i];
  }

  /** Failures to read a key can only take answers away. */
  lemma {:induction false} FailuresOnlyFail(c: Cipher, keys: KeyMap, fails: nat -> bool, es: seq<Event>)
    ensures var r := OpenAllOr(c, keys, fails, es);
            && (r.Ok? || r.error != KeyStoreFailed ==> r == OpenAll(c, keys, es))
            && ((forall i :: 0 <= i < |es| && NeedsKey(es[i]) ==> !fails(i)) ==> r == OpenAll(c, keys, es))
  {
    if es != [] {
      FailuresOnlyFail(c, keys, fails, es[..|es| - 1]);
    }
  }

  lemma {:induction false} OpenAllPointwise(c: Cipher, keys: KeyMap, es: seq<Event>)
    ensures OpenAll(c, keys, es).Ok? <==> forall i :: 0 <= i < |es| ==> OpenEvent(c, keys, es[i]).Ok?
    ensures OpenAll(c, keys, es).Ok? ==>
              && |OpenAll(c, keys, es).value| == |es|
              && forall i :: 0 <= i < |es| ==> OpenEvent(c, keys, es[i]) == Ok(OpenAll(c, keys, es).value[i])
  {
    if es != [] {
      var init := es[..|es| - 1];
      OpenAllPointwise(c, keys, init);
      assert forall i :: 0 <= i < |init| ==> init[i] == es[i];
    }
  }

  function OpenRead(c: Cipher, keys: KeyMap, found: Result<seq<Event>, StoreError>): Result<seq<Event>, ReadError> {
    match found
    case Err(e) => Err(NotStored(e))
    case Ok(es) => match OpenAll(c, keys, es) { case Err(e) => Err(Unopenable(e)) case Ok(os) => Ok(os) }
  }

  function OpenReadOr(c: Cipher, keys: KeyMap, fails: nat -> bool, found: Result<seq<Event>, StoreError>): Result<seq<Event>, ReadError> {
    match found
    case Err(e) => Err(NotStored(e))
    case Ok(es) => match OpenAllOr(c, keys, fails, es) { case Err(e) => Err(Unopenable(e)) case Ok(os) => Ok(os) }
  }

  /** A method's answer, made of fresh copies, is the given one. */
  ghost predicate Answers(r: Result<seq<DomainEvent>, ReadError>, spec: Result<seq<Event>, ReadError>)
    reads if r.Ok? then set e | e in r.value else {}
  {
    && (r.Ok? <==> spec.Ok?)
    && (r.Ok? ==> Values(r.value) == spec.value)
    && (r.Err? ==> r.error == spec.error)
  }

  class PiiEventStore {
    const c: Cipher
    const reg: Registry
    const store: Store
    const ring: KeyRings.KeyRing
    const ledger: ErasureLedger?

    constructor (c: Cipher, reg: Registry, store: Store, ring: KeyRings.KeyRing, ledger: ErasureLedger?)
      ensures this.c == c && this.reg == reg && this.store == store && this.ring == ring && this.ledger == ledger
    {
      this.c, this.reg, this.store, this.ring, this.ledger := c, reg, store, ring, ledger;
    }

    ghost function Hasher(): Hash {
      if ledger == null then _ => ZERO else ledger.h
    }

    ghost function Records(): Option<seq<ShredRecord>>
      reads ledger
    {
      if ledger == null then None else Some(ledger.records)
    }

    /** One turn of Commit's first loop. */
    method SealNext(events: seq<DomainEvent>, i: nat, draws: Draws) returns (error: Option<PiiError>)
      requires Distinct(events) && i < |events|
      modifies ring, events[i]
      ensures Sealing(ring.keys, Values(events), error) == SealOne(c, reg, draws, Sealing(old(ring.keys), old(Values(events)), None), i)
    {
      var e := events[i];
      ghost var was := Values(events);
      assert was[i] == e.Value();
      var names := if e.name in reg then reg[e.name].piiFields else [];
      var r := Seal(c, ring, e, names, draws.supply(i));
      assert Values(events) == was[i := e.Value()];
      error := if r.Err? then Some(r.error) else None;
    }

    /** Seals every event in place, stopping at the first that cannot be. */
    method SealAll(events: seq<DomainEvent>, draws: Draws) returns (error: Option<PiiError>)
      requires Distinct(events)
      modifies ring, events
      ensures var s := SealUpTo(c, reg, draws, old(ring.keys), old(Values(events)), |events|);
              ring.keys == s.keys && Values(events) == s.batch && error == s.error
    {
      ghost var keys, batch := ring.keys, Values(events);
      for i := 0 to |events|
        invariant SealUpTo(c, reg, draws, keys, batch, i) == Sealing(ring.keys, Values(events), None)
      {
        error := SealNext(events, i, draws);
        if error.Some? {
          SealingStops(c, reg, draws, keys, batch, i + 1, |events|);
          return;
        }
      }
      error := None;
    }

    /** Shreds the subject of every committed erasure request, stopping at the first failure. */
    method EraseAll(events: seq<DomainEvent>, draws: Draws) returns (error: Option<EraseError>)
      requires store.Valid()
      modifies ring, if ledger == null then {} else {ledger}
      ensures store.Valid() && store.Log() == old(store.Log()) && Values(events) == old(Values(events))
      ensures EraseUpTo(Hasher(), reg, draws, Shreds(old(ring.keys), old(Records()), None), Values(events), |events|)
              == Shreds(ring.keys, Records(), error)
    {
      ghost var start, batch := Shreds(ring.keys, Records(), None), Values(events);
      error := None;
      for i := 0 to |events|
        invariant Values(events) == batch && error == None
        invariant EraseUpTo(Hasher(), reg, draws, start, batch, i) == Shreds(ring.keys, Records(), None)
      {
        error := EraseNext(events[i], i, draws);
        assert batch[i] == events[i].Value();
        if error.Some? {
          ErasingStops(Hasher(), reg, draws, start, batch, i + 1, |events|);
          store.Untouched();
          return;
        }
      }
      store.Untouched();
    }

    /** One turn of Commit's second loop. */
    method EraseNext(e: DomainEvent, i: nat, draws: Draws) returns (error: Option<EraseError>)
      modifies ring, if ledger == null then {} else {ledger}
      ensures Shreds(ring.keys, Records(), error)
              == EraseOne(Hasher(), reg, draws, Shreds(old(ring.keys), old(Records()), None), e.Value(), i)
    {
      if e.piiID.None? || e.name !in reg || !reg[e.name].requestsErasure {
        return None;
      }
      var id := e.piiID.value;
      if draws.forgetFails(i) {
        return Some(ForgetFailed);
      }
      ring.Forget(id);
      if ledger != null {
        if draws.appendFails(i) {
          return Some(AppendFailed);
        }
        ledger.Append(id, draws.now(i), e.globalID % 0x1_0000_0000_0000_0000);
      }
      error := None;
    }

    method Commit(events: seq<DomainEvent>, expectedVersion: nat, opts: seq<StoreOption>, draws: Draws)
      returns (r: Result<(), CommitError>)
      requires store.Valid()
      requires Distinct(events) && forall e :: e in events ==> e !in store.all
      requires SingleStream(Resolve(opts).tenantID, Values(events))
      modifies store, ring, events, if ledger == null then {} else {ledger}
      ensures store.Valid()
      ensures var s := SealUpTo(c, reg, draws, old(ring.keys), old(Values(events)), |events|);
              var t := Resolve(opts).tenantID;
              var outcome := EventLog.Commit(old(store.Log()), s.batch, expectedVersion, t);
              && (s.error.Some? ==>
                    && r == Err(SealFailed(s.error.value)) && Values(events) == s.batch
                    && store.Log() == old(store.Log()) && ring.keys == s.keys && Records() == old(Records()))
              && (s.error.None? && outcome.Err? ==>
                    && r == Err(Refused(outcome.error)) && Values(events) == StampAll(t, s.batch)
                    && store.Log() == old(store.Log()) && ring.keys == s.keys && Records() == old(Records()))
              && (s.error.None? && outcome.Ok? ==>
                    var after := EraseUpTo(Hasher(), reg, draws, Shreds(s.keys, old(Records()), None),
                                           Number(StampAll(t, s.batch), |old(store.Log())|), |events|);
                    && store.Log() == outcome.value && ring.keys == after.keys && Records() == after.records
                    && r == if after.error.None? then Ok(()) else Err(EraseFailed(after.error.value)))
    {
      SealingKeepsStream(c, reg, draws, ring.keys, Values(events), Resolve(opts).tenantID);
      var error := SealAll(events, draws);
      store.Untouched();
      if error.Some? {
        return Err(SealFailed(error.value));
      }
      r := CommitSealed(events, expectedVersion, opts, draws);
    }

    /** Commit from there on: the wrapped store's commit, then the shreds it calls for. */
    method CommitSealed(events: seq<DomainEvent>, expectedVersion: nat, opts: seq<StoreOption>, draws: Draws)
      returns (r: Result<(), CommitError>)
      requires store.Valid()
      requires Distinct(events) && forall e :: e in events ==> e !in store.all
      requires SingleStream(Resolve(opts).tenantID, Values(events))
      modifies store, ring, events, if ledger == null then {} else {ledger}
      ensures store.Valid()
      ensures var t := Resolve(opts).tenantID;
              var outcome := EventLog.Commit(old(store.Log()), old(Values(events)), expectedVersion, t);
              && (outcome.Err? ==>
                    && r == Err(Refused(outcome.error)) && Values(events) == StampAll(t, old(Values(events)))
                    && store.Log() == old(store.Log()) && ring.keys == old(ring.keys) && Records() == old(Records()))
              && (outcome.Ok? ==>
                    var after := EraseUpTo(Hasher(), reg, draws, Shreds(old(ring.keys), old(Records()), None),
                                           Number(StampAll(t, old(Values(events))), |old(store.Log())|), |events|);
                    && store.Log() == outcome.value && ring.keys == after.keys && Records() == after.records
                    && r == if after.error.None? then Ok(()) else Err(EraseFailed(after.error.value)))
    {
      var committed := store.Commit(events, expectedVersion, opts);
      assert ring.keys == old(ring.keys) && Records() == old(Records());
      if committed.Err? {
        return Err(Refused(committed.error));
      }
      var stopped := EraseAll(events, draws);
      r := if stopped.None? then Ok(()) else Err(EraseFailed(stopped.value));
    }

    method OpenEach(events: seq<DomainEvent>, fails: nat -> bool) returns (r: Result<seq<DomainEvent>, PiiError>)
      ensures var spec := OpenAllOr(c, ring.keys, fails, Values(events));
              && (r.Ok? <==> spec.Ok?)
              && (r.Ok? ==> Values(r.value) == spec.value && fresh(r.value))
              && (r.Err? ==> r.error == spec.error)
    {
      ghost var es := Values(events);
      var out := [];
      for i := 0 to |events|
        invariant fresh(out) && Values(events) == es
        invariant OpenAllOr(c, ring.keys, fails, es[..i]) == Ok(Values(out))
      {
        assert es[i] == events[i].Value();
        OpenAllStep(c, ring.keys, fails, es, i);
        ghost var was := Values(out);
        var o := Open(c, ring, events[i], fails(i));
        if o.Err? {
          OpenAllStops(c, ring.keys, fails, es, i + 1);
          return Err(o.error);
        }
        out := out + [o.value];
        assert Values(out) == was + [o.value.Value()];
      }
      assert es[..|events|] == es;
      r := Ok(out);
    }

    method Load(id: Uuid, opts: seq<StoreOption>, fails: nat -> bool) returns (r: Result<seq<DomainEvent>, ReadError>)
      requires store.Valid()
      ensures r.Ok? ==> fresh(r.value)
      ensures Answers(r, OpenReadOr(c, ring.keys, fails, EventLog.Load(store.Log(), id, Resolve(opts).tenantID)))
    {
      var found := store.Load(id, opts);
      if found.Err? {
        return Err(NotStored(found.error));
      }
      var read := OpenEach(found.value, fails);
      r := if read.Ok? then Ok(read.value) else Err(Unopenable(read.error));
    }

    method FetchAfter(lastID: nat, limit: int, opts: seq<StoreOption>, fails: nat -> bool) returns (r: Result<seq<DomainEvent>, ReadError>)
      requires store.Valid()
      ensures r.Ok? ==> fresh(r.value)
      ensures Answers(r, OpenReadOr(c, ring.keys, fails, Ok(EventLog.FetchAfter(store.Log(), lastID, limit, Resolve(opts).tenantID))))
    {
      var found := store.FetchAfter(lastID, limit, opts);
      var read := OpenEach(found, fails);
      r := if read.Ok? then Ok(read.value) else Err(Unopenable(read.error));
    }

    method FetchByPiiID(p: Uuid, opts: seq<StoreOption>, fails: nat -> bool) returns (r: Result<seq<DomainEvent>, ReadError>)
      requires store.Valid()
      ensures r.Ok? ==> fresh(r.value)
      ensures Answers(r, OpenReadOr(c, ring.keys, fails, FetchByPii(store.Log(), p, Resolve(opts).tenantID)))
    {
      var found := store.FetchByPiiID(p, opts);
      if found.Err? {
        return Err(NotStored(found.error));
      }
      var read := OpenEach(found.value, fails);
      r := if read.Ok? then Ok(read.value) else Err(Unopenable(read.error));
    }
  }
}
