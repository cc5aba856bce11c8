/** Event-sourced aggregates: recording, replay, and the repository's load and save. */
module Aggregate {
  import opened Common
  import opened Events
  import opened EventLog
  import opened MemStore

  /** What the log keeps of a domain event: its name and its JSON payload. */
  datatype Fact = Fact(name: string, payload: Payload)

  /**
   * A concrete aggregate type: its zero value, its Apply (None when Apply returns an error,
   * in which case it has changed nothing), and the payload codec behind the event registry.
   */
  datatype Domain<!S(!new), !D(!new)> = Domain(
    zero: S,
    apply: (S, D) -> Option<S>,
    encode: D -> Fact,
    decode: Fact -> Option<D>)

  ghost predicate RoundTrips<S(!new), D(!new)>(dom: Domain<S, D>) {
    forall d :: dom.decode(dom.encode(d)) == Some(d)
  }

  function FactOf(e: Event): Fact {
    Fact(e.name, e.payload)
  }

  function Facts(es: seq<Event>): seq<Fact> {
    seq(|es|, i requires 0 <= i < |es| => FactOf(es[i]))
  }

  datatype LoadError = NotFound | UnknownOrMalformed | ApplyFailed

  function ApplyFact<S(!new), D(!new)>(dom: Domain<S, D>, s: S, f: Fact): Result<S, LoadError> {
    match dom.decode(f)
    case None => Err(UnknownOrMalformed)
    case Some(d) => match dom.apply(s, d) { case None => Err(ApplyFailed) case Some(s') => Ok(s') }
  }

  function Replay<S(!new), D(!new)>(dom: Domain<S, D>, s: S, facts: seq<Fact>): Result<S, LoadError> {
    if facts == [] then Ok(s)
    else
      var r := Replay(dom, s, facts[..|facts| - 1]);
      if r.Ok? then ApplyFact(dom, r.value, facts[|facts| - 1]) else r
  }

  /** Replay got as far as the state s, and no further than the i-th fact. */
  ghost predicate StoppedAt<S(!new), D(!new)>(dom: Domain<S, D>, start: S, facts: seq<Fact>, i: nat, s: S) {
    i < |facts| && Replay(dom, start, facts[..i]) == Ok(s) && ApplyFact(dom, s, facts[i]).Err?
  }

  lemma {:induction false} ReplayConcat<S(!new), D(!new)>(dom: Domain<S, D>, s: S, a: seq<Fact>, b: seq<Fact>)
    ensures var r := Replay(dom, s, a);
            Replay(dom, s, a + b) == if r.Ok? then Replay(dom, r.value, b) else r
  {
    if b == [] {
      assert a + b == a;
    } else {
      assert (a + b)[..|a + b| - 1] == a + b[..|b| - 1];
      ReplayConcat(dom, s, a, b[..|b| - 1]);
    }
  }

  /** The last event of a log extends the replay of its own aggregate only. */
  lemma ReplayPush<S(!new), D(!new)>(dom: Domain<S, D>, log: seq<Event>, id: Uuid)
    requires log != []
    requires Replay(dom, dom.zero, Facts(Filter(OfAggregate(id), log))).Ok?
    ensures var init, e := log[..|log| - 1], log[|log| - 1];
            var r := Replay(dom, dom.zero, Facts(Filter(OfAggregate(id), init)));
            && r.Ok?
            && (e.aggregateID != id ==> Filter(OfAggregate(id), log) == Filter(OfAggregate(id), init))
            && (e.aggregateID == id ==>
                  && Filter(OfAggregate(id), log) == Filter(OfAggregate(id), init) + [e]
                  && ApplyFact(dom, r.value, FactOf(e)) == Replay(dom, dom.zero, Facts(Filter(OfAggregate(id), log))))
  {
    var init, e := log[..|log| - 1], log[|log| - 1];
    var mine := Filter(OfAggregate(id), init);
    if e.aggregateID == id {
      var facts := Facts(mine + [e]);
      assert facts[..|mine|] == Facts(mine);
      assert facts[|facts| - 1] == FactOf(e);
    }
  }

  /** An aggregate as a value: BaseAggregate's fields and the embedding struct's state. */
  datatype Agg<S> = Agg(id: Uuid, version: nat, state: S, uncommitted: seq<Event>)

  function NewEvent(id: Uuid, version: nat, f: Fact, pii: Option<Uuid>): Event {
    Event(0, NIL_UUID, id, version, f.name, f.payload, pii, NoManifest, false)
  }

  function Record<S(!new), D(!new)>(dom: Domain<S, D>, a: Agg<S>, d: D, pii: Option<Uuid>): Agg<S> {
    match dom.apply(a.state, d)
    case None => a
    case Some(s) => Agg(a.id, a.version + 1, s, a.uncommitted + [NewEvent(a.id, a.version + 1, dom.encode(d), pii)])
  }

  function LoadAgg<S(!new), D(!new)>(dom: Domain<S, D>, log: seq<Event>, id: Uuid, t: Option<Uuid>): Result<Agg<S>, LoadError> {
    match EventLog.Load(log, id, t)
    case Err(_) => Err(NotFound)
    case Ok(es) =>
      match Replay(dom, dom.zero, Facts(es))
      case Err(e) => Err(e)
      case Ok(s) => Ok(Agg(id, es[|es| - 1].version, s, []))
  }

  class AggregateRoot<S(!new), D(!new)> {
    const dom: Domain<S, D>
    var id: Uuid
    var version: nat
    var state: S
    var uncommitted: seq<DomainEvent>

    constructor (dom: Domain<S, D>, id: Uuid)
      ensures this.dom == dom && Model() == Agg(id, 0, dom.zero, []) && uncommitted == []
    {
      this.dom := dom;
      this.id, version, state, uncommitted := id, 0, dom.zero, [];
    }

    ghost function Model(): Agg<S>
      reads this, uncommitted
    {
      Agg(id, version, state, Values(uncommitted))
    }

    /** Applies the event; only when that succeeds is it buffered under the next version. */
    method RecordThat(d: D, pii: Option<Uuid>) returns (ok: bool)
      modifies this
      ensures Model() == Record(dom, old(Model()), d, pii)
      ensures ok == dom.apply(old(state), d).Some?
      ensures !ok ==> unchanged(this)
      ensures ok ==> exists e :: fresh(e) && uncommitted == old(uncommitted) + [e]
    {
      version := version + 1;
      var applied := dom.apply(state, d);
      if applied.None? {
        version := version - 1;
        return false;
      }
      state := applied.value;
      var e := new DomainEvent(NewEvent(id, version, dom.encode(d), pii));
      uncommitted := uncommitted + [e];
      assert Values(uncommitted) == old(Values(uncommitted)) + [e.Value()];
      ok := true;
    }

    /** Replays stored events through Apply, taking the version of each; stops at the first failure. */
    method LoadFromHistory(events: seq<DomainEvent>) returns (r: Result<(), LoadError>)
      modifies this
      ensures uncommitted == old(uncommitted) && id == old(id)
      ensures var spec := Replay(dom, old(state), Facts(old(Values(events))));
              && (r.Ok? <==> spec.Ok?)
              && (r.Ok? ==> state == spec.value)
              && (r.Err? ==> r.error == spec.error)
      ensures r.Ok? ==> version == if events == [] then old(version) else events[|events| - 1].version
      ensures r.Err? ==> exists i :: 0 <= i < |events| && StoppedAt(dom, old(state), Facts(old(Values(events))), i, state)
                                     && version == if i == 0 then old(version) else events[i - 1].version
    {
      ghost var facts := Facts(Values(events));
      for i := 0 to |events|
        invariant uncommitted == old(uncommitted) && id == old(id)
        invariant Replay(dom, old(state), facts[..i]) == Ok(state)
        invariant version == if i == 0 then old(version) else events[i - 1].version
      {
        var e := events[i];
        assert FactOf(e.Value()) == facts[i];
        assert facts[..i + 1][..i] == facts[..i];
        ReplayConcat(dom, old(state), facts[..i + 1], facts[i + 1..]);
        assert facts[..i + 1] + facts[i + 1..] == facts;
        var decoded := dom.decode(Fact(e.name, e.payload));
        if decoded.None? {
          assert StoppedAt(dom, old(state), facts, i, state);
          return Err(UnknownOrMalformed);
        }
        var applied := dom.apply(state, decoded.value);
        if applied.None? {
          assert StoppedAt(dom, old(state), facts, i, state);
          return Err(ApplyFailed);
        }
        state := applied.value;
        version := e.version;
      }
      assert facts[..|events|] == facts;
      r := Ok(());
    }
  }

  /** Repository.Load: fetch the history and replay it into a fresh aggregate. */
  method Load<S(!new), D(!new)>(store: Store, dom: Domain<S, D>, id: Uuid, opts: seq<StoreOption>)
    returns (r: Result<AggregateRoot<S, D>, LoadError>)
    requires store.Valid()
    ensures var spec := LoadAgg(dom, store.Log(), id, Resolve(opts).tenantID);
            && (r.Ok? <==> spec.Ok?)
            && (r.Ok? ==> fresh(r.value) && r.value.Model() == spec.value)
            && (r.Err? ==> r.error == spec.error)
  {
    var events := store.Load(id, opts);
    if events.Err? {
      return Err(NotFound);
    }
    var agg := new AggregateRoot(dom, id);
    ghost var values := Values(events.value);
    var replayed := agg.LoadFromHistory(events.value);
    if replayed.Err? {
      return Err(replayed.error);
    }
    assert values[|values| - 1].version == agg.version;
    r := Ok(agg);
  }

  /** Repository.Save: commit the buffer against the version it was built on; clear it on success. */
  method Save<S(!new), D(!new)>(store: Store, agg: AggregateRoot<S, D>, opts: seq<StoreOption>)
    returns (r: Result<(), StoreError>)
    requires store.Valid()
    requires |agg.uncommitted| <= agg.version
    requires Distinct(agg.uncommitted) && forall e :: e in agg.uncommitted ==> e !in store.all
    requires SingleStream(Resolve(opts).tenantID, Values(agg.uncommitted))
    modifies store, agg`uncommitted, agg.uncommitted
    ensures store.Valid()
    ensures var batch := old(Values(agg.uncommitted));
            var spec := EventLog.Commit(old(store.Log()), batch, agg.version - |batch|, Resolve(opts).tenantID);
            && (r.Ok? <==> spec.Ok?)
            && (r.Ok? ==> store.Log() == spec.value && agg.uncommitted == [])
            && (r.Err? ==> r.error == spec.error && store.Log() == old(store.Log()) && agg.uncommitted == old(agg.uncommitted)
                           && Values(agg.uncommitted) == StampAll(Resolve(opts).tenantID, batch))
  {
    var events := agg.uncommitted;
    if |events| == 0 {
      return Ok(());
    }
    r := store.Commit(events, agg.version - |events|, opts);
    if r.Ok? {
      agg.uncommitted := [];
    }
  }
}
