/** A store bound to one tenant, whatever options its caller passes. */
module TenantScope {
  import opened Common
  import opened Events
  import opened EventLog
  import opened MemStore

  /** The caller's options with the bound tenant appended last. */
  function Bound(tenantID: Uuid, opts: seq<StoreOption>): seq<StoreOption> {
    opts + [WithTenant(tenantID)]
  }

  lemma BoundTenantWins(tenantID: Uuid, opts: seq<StoreOption>)
    ensures Resolve(Bound(tenantID, opts)).tenantID == Some(tenantID)
  {
    assert Bound(tenantID, opts)[..|opts|] == opts;
  }

  lemma ReadsStayInScope(log: seq<Event>, tenantID: Uuid, lastID: nat, limit: int, id: Uuid, p: Uuid)
    ensures forall e :: e in EventLog.FetchAfter(log, lastID, limit, Some(tenantID)) ==> Readable(e, Some(tenantID))
    ensures EventLog.Load(log, id, Some(tenantID)).Ok? ==>
              forall e :: e in EventLog.Load(log, id, Some(tenantID)).value ==> Readable(e, Some(tenantID)) && e.aggregateID == id
    ensures FetchByPii(log, p, Some(tenantID)).Ok? ==>
              forall e :: e in FetchByPii(log, p, Some(tenantID)).value ==> Readable(e, Some(tenantID)) && e.piiID == Some(p)
  {
    FetchAfterHolds(log, lastID, limit, Some(tenantID));
    LoadHolds(log, id, Some(tenantID));
    FetchByPiiHolds(log, p, Some(tenantID));
  }

  /**
   * Binding the tenant decides where a commit writes only for events that carry no tenant of
   * their own: one already stamped for another tenant stays there. All of a commit lands in
   * the bound tenant if and only if no event of the batch names another.
   */
  lemma CommitStaysInTenantIff(log: seq<Event>, batch: seq<Event>, expected: nat, tenantID: Uuid)
    requires EventLog.Commit(log, batch, expected, Some(tenantID)).Ok?
    ensures var log' := EventLog.Commit(log, batch, expected, Some(tenantID)).value;
            && log <= log'
            && ((forall e :: e in log'[|log|..] ==> e.tenantID == tenantID)
                <==> forall e :: e in batch ==> e.tenantID == NIL_UUID || e.tenantID == tenantID)
  {
    var added := Number(StampAll(Some(tenantID), batch), |log|);
    assert EventLog.Commit(log, batch, expected, Some(tenantID)).value[|log|..] == added;
    if forall e :: e in added ==> e.tenantID == tenantID {
      forall e | e in batch ensures e.tenantID == NIL_UUID || e.tenantID == tenantID {
        var i :| 0 <= i < |batch| && batch[i] == e;
        assert added[i] in added;
      }
    }
  }

  /** An event recorded for tenant 2 and committed through a store bound to tenant 1 stays tenant 2's. */
  lemma ForeignEventEscapes()
    ensures var e := Event(0, 2, 9, 1, "x", Doc(map[]), None, NoManifest, false);
            var r := EventLog.Commit([], [e], 0, Resolve(Bound(1, [])).tenantID);
            && r.Ok? && |r.value| == 1 && r.value[0].tenantID == 2
            && !Visible(Some(1), r.value[0])
  {
    var e := Event(0, 2, 9, 1, "x", Doc(map[]), None, NoManifest, false);
    BoundTenantWins(1, []);
    assert Stream([], KeyOf(e)) == [];
  }

  class TenantScopedStore {
    const store: Store
    const tenantID: Uuid

    constructor (store: Store, tenantID: Uuid)
      ensures this.store == store && this.tenantID == tenantID
    {
      this.store, this.tenantID := store, tenantID;
    }

    method Commit(events: seq<DomainEvent>, expectedVersion: nat, opts: seq<StoreOption>) returns (r: Result<(), StoreError>)
      requires store.Valid()
      requires Distinct(events) && forall e :: e in events ==> e !in store.all
      requires SingleStream(Some(tenantID), Values(events))
      modifies store, events
      ensures store.Valid()
      ensures var outcome := EventLog.Commit(old(store.Log()), old(Values(events)), expectedVersion, Some(tenantID));
              && (r.Ok? <==> outcome.Ok?)
              && store.Log() == (if r.Ok? then outcome.value else old(store.Log()))
              && (r.Err? ==> r.error == outcome.error)
    {
      BoundTenantWins(tenantID, opts);
      r := store.Commit(events, expectedVersion, Bound(tenantID, opts));
    }

    method Load(id: Uuid, opts: seq<StoreOption>) returns (r: Result<seq<DomainEvent>, StoreError>)
      requires store.Valid()
      ensures var spec := EventLog.Load(store.Log(), id, Some(tenantID));
              && (r.Ok? <==> spec.Ok?)
              && (r.Ok? ==> Values(r.value) == spec.value && forall e :: e in Values(r.value) ==> Readable(e, Some(tenantID)))
              && (r.Err? ==> r.error == spec.error)
    {
      BoundTenantWins(tenantID, opts);
      ReadsStayInScope(store.Log(), tenantID, 0, 0, id, NIL_UUID);
      r := store.Load(id, Bound(tenantID, opts));
    }

    method FetchAfter(lastID: nat, limit: int, opts: seq<StoreOption>) returns (out: seq<DomainEvent>)
      requires store.Valid()
      ensures Values(out) == EventLog.FetchAfter(store.Log(), lastID, limit, Some(tenantID))
      ensures forall e :: e in Values(out) ==> Readable(e, Some(tenantID))
    {
      BoundTenantWins(tenantID, opts);
      ReadsStayInScope(store.Log(), tenantID, lastID, limit, NIL_UUID, NIL_UUID);
      out := store.FetchAfter(lastID, limit, Bound(tenantID, opts));
    }

    method FetchByPiiID(p: Uuid, opts: seq<StoreOption>) returns (r: Result<seq<DomainEvent>, StoreError>)
      requires store.Valid()
      ensures var spec := FetchByPii(store.Log(), p, Some(tenantID));
              && (r.Ok? <==> spec.Ok?)
              && (r.Ok? ==> Values(r.value) == spec.value && forall e :: e in Values(r.value) ==> Readable(e, Some(tenantID)))
              && (r.Err? ==> r.error == spec.error)
    {
      BoundTenantWins(tenantID, opts);
      ReadsStayInScope(store.Log(), tenantID, 0, 0, NIL_UUID, p);
      r := store.FetchByPiiID(p, Bound(tenantID, opts));
    }
  }
}
