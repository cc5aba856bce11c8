/** The in-memory event store: one log, two indexes over it, and a global counter. */
module MemStore {
  import opened Common
  import opened Events
  import opened EventLog

  /** The envelopes whose value satisfies p, in order; vs[i] is the value of es[i]. */
  ghost function Select(p: Event -> bool, es: seq<DomainEvent>, vs: seq<Event>): seq<DomainEvent>
    requires |es| == |vs|
  {
    if es == [] then []
    else
      var n := |es| - 1;
      var init := Select(p, es[..n], vs[..n]);
      if p(vs[n]) then init + [es[n]] else init
  }

  lemma SelectPush(p: Event -> bool, es: seq<DomainEvent>, vs: seq<Event>, e: DomainEvent, v: Event)
    requires |es| == |vs|
    ensures Select(p, es + [e], vs + [v]) == Select(p, es, vs) + (if p(v) then [e] else [])
  {
    assert (es + [e])[..|es|] == es && (vs + [v])[..|vs|] == vs;
  }

  lemma {:induction false} SelectMember(p: Event -> bool, es: seq<DomainEvent>, vs: seq<Event>)
    requires |es| == |vs|
    ensures forall e :: e in Select(p, es, vs) ==> e in es
  {
    if es != [] {
      SelectMember(p, es[..|es| - 1], vs[..|es| - 1]);
    }
  }

  lemma {:induction false} SelectValues(p: Event -> bool, es: seq<DomainEvent>)
    ensures Values(Select(p, es, Values(es))) == Filter(p, Values(es))
  {
    if es != [] {
      var init := es[..|es| - 1];
      SelectValues(p, init);
      assert Values(es)[..|es| - 1] == Values(init);
    }
  }

  lemma ValuesConcat(a: seq<DomainEvent>, b: seq<DomainEvent>)
    ensures Values(a + b) == Values(a) + Values(b)
  {
  }

  function Lookup<K, V>(m: map<K, seq<V>>, k: K): seq<V> {
    if k in m then m[k] else []
  }

  class Store {
    var all: seq<DomainEvent>
    var byAggregate: map<StreamKey, seq<DomainEvent>>
    var byPii: map<Uuid, seq<DomainEvent>>
    var nextGlobalID: nat

    ghost predicate Valid()
      reads this, all
    {
      && Distinct(all)
      && nextGlobalID == |all|
      && WellNumbered(Log())
      && Indexed(all, Log())
    }

    /** Both indexes are the given log filtered by their key. */
    ghost predicate Indexed(es: seq<DomainEvent>, vs: seq<Event>)
      requires |es| == |vs|
      reads this
    {
      && (forall k: StreamKey :: Lookup(byAggregate, k) == Select(HasKey(k), es, vs))
      && (forall p: Uuid :: Lookup(byPii, p) == Select(HasPii(p), es, vs))
    }

    ghost function Log(): seq<Event>
      reads this`all, all
    {
      Values(all)
    }

    constructor ()
      ensures Valid() && Log() == [] && all == []
    {
      all, byAggregate, byPii, nextGlobalID := [], map[], map[], 0;
    }

    /** What touches neither the store nor its events leaves the log as it was. */
    twostate lemma Untouched()
      requires old(Valid()) && unchanged(this) && unchanged(set e | e in all)
      ensures Valid() && Log() == old(Log())
    {
      assert forall i :: 0 <= i < |all| ==> all[i] in all;
    }

    /** Stamps the call's tenant onto untenanted events, in place. */
    method StampTenant(events: seq<DomainEvent>, t: Option<Uuid>)
      requires Distinct(events)
      modifies events
      ensures Values(events) == StampAll(t, old(Values(events)))
    {
      if t.Some? {
        for i := 0 to |events|
          invariant forall j :: 0 <= j < i ==> events[j].Value() == Stamp(t, old(events[j].Value()))
          invariant forall j :: i <= j < |events| ==> events[j].Value() == old(events[j].Value())
        {
          if events[i].tenantID == NIL_UUID {
            events[i].tenantID := t.value;
          }
        }
      }
    }

    /** One turn of Commit's loop: number the event, log it and index it. */
    method Append(key: StreamKey, e: DomainEvent)
      requires Valid()
      requires e !in all && KeyOf(e.Value()) == key
      modifies this, e
      ensures Valid()
      ensures all == old(all) + [e]
      ensures e.Value() == old(e.Value()).(globalID := |old(all)| + 1)
      ensures Log() == old(Log()) + [e.Value()]
    {
      ghost var before := all;
      nextGlobalID := nextGlobalID + 1;
      e.globalID := nextGlobalID;
      all := all + [e];
      ghost var v := e.Value();
      Index(before, old(Log()), key, e);
      assert Log() == old(Log()) + [v] by {
        assert forall i :: 0 <= i < |before| ==> before[i] in before;
      }
      assert WellNumbered(old(Log()) + [v]);
    }

    method Index(ghost before: seq<DomainEvent>, ghost vs: seq<Event>, key: StreamKey, e: DomainEvent)
      requires |before| == |vs| && Indexed(before, vs) && KeyOf(e.Value()) == key
      modifies this`byAggregate, this`byPii
      ensures Indexed(before + [e], vs + [e.Value()])
    {
      byAggregate := byAggregate[key := (if key in byAggregate then byAggregate[key] else []) + [e]];
      if e.piiID.Some? {
        var p := e.piiID.value;
        byPii := byPii[p := (if p in byPii then byPii[p] else []) + [e]];
      }
      forall k: StreamKey ensures Lookup(byAggregate, k) == Select(HasKey(k), before + [e], vs + [e.Value()]) {
        SelectPush(HasKey(k), before, vs, e, e.Value());
      }
      forall p: Uuid ensures Lookup(byPii, p) == Select(HasPii(p), before + [e], vs + [e.Value()]) {
        SelectPush(HasPii(p), before, vs, e, e.Value());
      }
    }

    method StreamVersion(key: StreamKey) returns (v: nat)
      requires Valid()
      ensures v == CurrentVersion(Log(), key)
    {
      var current := if key in byAggregate then byAggregate[key] else [];
      assert current == Lookup(byAggregate, key);
      SelectValues(HasKey(key), all);
      v := 0;
      if |current| > 0 {
        v := current[|current| - 1].version;
        assert Values(current)[|current| - 1].version == v;
      }
    }

    method Commit(events: seq<DomainEvent>, expectedVersion: nat, opts: seq<StoreOption>) returns (r: Result<(), StoreError>)
      requires Valid()
      requires Distinct(events) && forall e :: e in events ==> e !in all
      requires SingleStream(Resolve(opts).tenantID, Values(events))
      modifies this, events
      ensures Valid()
      ensures var t := Resolve(opts).tenantID;
              var outcome := EventLog.Commit(old(Log()), old(Values(events)), expectedVersion, t);
              && (r.Ok? <==> outcome.Ok?)
              && (r.Ok? ==> all == old(all) + events && Log() == outcome.value
                            && Values(events) == Number(StampAll(t, old(Values(events))), |old(Log())|))
              && (r.Err? ==> r.error == outcome.error && unchanged(this) && Log() == old(Log())
                             && Values(events) == StampAll(t, old(Values(events))))
    {
      if |events| == 0 {
        assert all + events == all;
        return Ok(());
      }
      var cfg := ResolveStoreConfig(opts);
      StampTenant(events, cfg.tenantID);
      assert Log() == old(Log()) by {
        assert forall i :: 0 <= i < |all| ==> all[i] in all;
      }
      ghost var batch := old(Values(events));
      assert Valid() && forall i :: 0 <= i < |events| ==> Values(events)[i] == Stamp(cfg.tenantID, batch[i]);

      var key := StreamKey(events[0].tenantID, events[0].aggregateID);
      var currentVersion := StreamVersion(key);
      if currentVersion != expectedVersion {
        return Err(ConcurrencyConflict);
      }
      AppendAll(key, events);
      r := Ok(());
    }

    /** Commit's loop, run with the lock held. */
    method AppendAll(key: StreamKey, events: seq<DomainEvent>)
      requires Valid()
      requires Distinct(events) && forall e :: e in events ==> e !in all
      requires forall i :: 0 <= i < |events| ==> KeyOf(Values(events)[i]) == key
      modifies this, events
      ensures Valid()
      ensures all == old(all) + events
      ensures Values(events) == Number(old(Values(events)), |old(all)|)
      ensures Log() == old(Log()) + Values(events)
    {
      ghost var numbered := Number(Values(events), |all|);
      for i := 0 to |events|
        invariant Valid()
        invariant all == old(all) + events[..i]
        invariant Log() == old(Log()) + numbered[..i]
        invariant forall j :: i <= j < |events| ==> events[j].Value() == old(events[j].Value())
      {
        assert events[i].Value() == old(Values(events))[i];
        Append(key, events[i]);
        NextPrefix(old(Log()), numbered, i);
        NextPrefix(old(all), events, i);
        assert numbered[i] == events[i].Value();
      }
      assert numbered[..|events|] == numbered && events[..|events|] == events;
      ValuesConcat(old(all), events);
      assert Values(events) == Log()[|old(all)|..] == numbered;
    }

    method Load(id: Uuid, opts: seq<StoreOption>) returns (r: Result<seq<DomainEvent>, StoreError>)
      requires Valid()
      ensures var spec := EventLog.Load(Log(), id, Resolve(opts).tenantID);
              && (r.Ok? <==> spec.Ok?)
              && (r.Ok? ==> Values(r.value) == spec.value && forall e :: e in r.value ==> e in all)
              && (r.Err? ==> r.error == spec.error)
    {
      var cfg := ResolveStoreConfig(opts);
      var tenant := if cfg.tenantID.Some? then cfg.tenantID.value else NIL_UUID;
      var key := StreamKey(tenant, id);
      SelectValues(HasKey(key), all);
      SelectMember(HasKey(key), all, Log());
      var events := Lookup(byAggregate, key);
      if |events| == 0 && cfg.tenantID.Some? {
        var global := StreamKey(GLOBAL_TENANT, id);
        SelectValues(HasKey(global), all);
        SelectMember(HasKey(global), all, Log());
        events := Lookup(byAggregate, global);
      }
      if |events| == 0 {
        return Err(AggregateNotFound);
      }
      r := Ok(events);
    }

    method FetchAfter(lastID: nat, limit: int, opts: seq<StoreOption>) returns (out: seq<DomainEvent>)
      requires Valid()
      ensures Values(out) == EventLog.FetchAfter(Log(), lastID, limit, Resolve(opts).tenantID)
      ensures forall e :: e in out ==> e in all
    {
      var cfg := ResolveStoreConfig(opts);
      ghost var p := PastCursor(lastID, cfg.tenantID);
      out := [];
      var i := 0;
      while i < |all|
        invariant 0 <= i <= |all|
        invariant Values(out) == Filter(p, Log()[..i])
        invariant limit > 0 ==> |out| < limit
        invariant forall e :: e in out ==> e in all
      {
        var e := all[i];
        assert Log()[i] == e.Value();
        FilterStep(p, Log(), i);
        if e.globalID <= lastID {
        } else if cfg.tenantID.Some? && e.tenantID != cfg.tenantID.value && e.tenantID != GLOBAL_TENANT {
        } else {
          out := out + [e];
          if limit > 0 && |out| >= limit {
            return;
          }
        }
        i := i + 1;
      }
      assert Log()[..|all|] == Log();
    }

    method FetchByPiiID(p: Uuid, opts: seq<StoreOption>) returns (r: Result<seq<DomainEvent>, StoreError>)
      requires Valid()
      ensures var spec := FetchByPii(Log(), p, Resolve(opts).tenantID);
              && (r.Ok? <==> spec.Ok?)
              && (r.Ok? ==> Values(r.value) == spec.value && forall e :: e in r.value ==> e in all)
              && (r.Err? ==> r.error == spec.error)
    {
      var cfg := ResolveStoreConfig(opts);
      SelectValues(HasPii(p), all);
      SelectMember(HasPii(p), all, Log());
      var found := Lookup(byPii, p);
      ghost var vs := Values(found);
      var out := [];
      for i := 0 to |found|
        invariant Values(out) == Filter(VisibleTo(cfg.tenantID), vs[..i])
        invariant forall e :: e in out ==> e in all
      {
        var e := found[i];
        FilterStep(VisibleTo(cfg.tenantID), vs, i);
        if !(cfg.tenantID.Some? && e.tenantID != cfg.tenantID.value && e.tenantID != GLOBAL_TENANT) {
          out := out + [e];
        }
      }
      assert vs[..|found|] == vs;
      if |out| == 0 {
        return Err(SubjectNotFound);
      }
      r := Ok(out);
    }
  }
}
