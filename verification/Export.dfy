/** A subject's file: everything the log holds about one person, aggregate by aggregate. */
module Export {
  import opened Common
  import opened Events
  import opened EventLog
  import opened PiiStore
  import Aggregate
  import Serializability

  /** One aggregate's slice of the file. */
  datatype AggregateHistory = AggregateHistory(key: StreamKey, events: seq<Event>)

  /** The keys of a sequence of events, each where it first occurs. */
  function FirstSeen(es: seq<Event>): seq<StreamKey> {
    if es == [] then []
    else
      var ks, k := FirstSeen(es[..|es| - 1]), KeyOf(es[|es| - 1]);
      if k in ks then ks else ks + [k]
  }

  function Keys(groups: seq<AggregateHistory>): seq<StreamKey> {
    seq(|groups|, i requires 0 <= i < |groups| => groups[i].key)
  }

  /** The groups stand in first-seen order, and each is exactly its own key's events. */
  ghost predicate Partitions(groups: seq<AggregateHistory>, es: seq<Event>)
  {
    && Keys(groups) == FirstSeen(es)
    && forall g :: g in groups ==> g.events == Filter(HasKey(g.key), es)
  }

  /** firstSeen maps each key to the position of its group. */
  ghost predicate Positions(firstSeen: map<StreamKey, nat>, ks: seq<StreamKey>) {
    && (forall i :: 0 <= i < |ks| ==> ks[i] in firstSeen && firstSeen[ks[i]] == i)
    && forall k :: k in firstSeen ==> firstSeen[k] < |ks| && ks[firstSeen[k]] == k
  }

  /** An event of a new key opens an empty group, which is what that key has so far. */
  method FindGroup(groups: seq<AggregateHistory>, firstSeen: map<StreamKey, nat>, key: StreamKey, ghost before: seq<Event>)
    returns (groups': seq<AggregateHistory>, firstSeen': map<StreamKey, nat>, idx: nat)
    requires Partitions(groups, before) && Positions(firstSeen, Keys(groups))
    ensures Positions(firstSeen', Keys(groups'))
    ensures Keys(groups') == FirstSeen(before) + (if key in FirstSeen(before) then [] else [key])
    ensures idx < |groups'| && groups'[idx].key == key
    ensures forall j :: 0 <= j < |groups'| && j != idx ==> Keys(groups')[j] != key
    ensures forall g :: g in groups' ==> g.events == Filter(HasKey(g.key), before)
  {
    groups', firstSeen' := groups, firstSeen;
    assert key in firstSeen <==> key in Keys(groups);
    if key !in firstSeen {
      NoneYet(before, key);
      firstSeen' := firstSeen[key := |groups|];
      groups' := groups + [AggregateHistory(key, [])];
      assert Keys(groups') == Keys(groups) + [key];
      assert forall g :: g in groups' ==> g in groups || g == AggregateHistory(key, []);
    }
    idx := firstSeen'[key];
    assert Keys(groups')[idx] == groups'[idx].key;
  }

  /** Export's grouping loop over the subject's events. */
  method Group(events: seq<DomainEvent>) returns (groups: seq<AggregateHistory>)
    ensures Partitions(groups, Values(events))
  {
    ghost var vs := Values(events);
    groups := [];
    var firstSeen: map<StreamKey, nat> := map[];
    for i := 0 to |events|
      invariant Partitions(groups, vs[..i])
      invariant Positions(firstSeen, Keys(groups))
    {
      var ev := events[i];
      assert vs[i] == ev.Value() && vs[..i + 1][..i] == vs[..i];
      var idx: nat;
      groups, firstSeen, idx := FindGroup(groups, firstSeen, StreamKey(ev.tenantID, ev.aggregateID), vs[..i]);
      GroupStep(groups, vs, i, idx);
      groups := groups[idx := groups[idx].(events := groups[idx].events + [ev.Value()])];
    }
    assert vs[..|events|] == vs;
  }

  /** A group gains the next event exactly when the event has its key. */
  lemma GroupStep(groups: seq<AggregateHistory>, es: seq<Event>, i: nat, idx: nat)
    requires i < |es| && idx < |groups| && groups[idx].key == KeyOf(es[i])
    requires forall g :: g in groups ==> g.events == Filter(HasKey(g.key), es[..i])
    requires forall j :: 0 <= j < |groups| && j != idx ==> Keys(groups)[j] != KeyOf(es[i])
    ensures var grown := groups[idx := groups[idx].(events := groups[idx].events + [es[i]])];
            && Keys(grown) == Keys(groups)
            && forall g :: g in grown ==> g.events == Filter(HasKey(g.key), es[..i + 1])
  {
    var grown := groups[idx := groups[idx].(events := groups[idx].events + [es[i]])];
    forall j | 0 <= j < |groups| ensures grown[j].events == Filter(HasKey(grown[j].key), es[..i + 1]) {
      assert groups[j] in groups && Keys(groups)[j] == groups[j].key;
      FilterStep(HasKey(groups[j].key), es, i);
    }
  }

  /** SubjectExporter.Export over the sealed store. */
  method Export(lookup: PiiEventStore, p: Uuid, opts: seq<StoreOption>, fails: nat -> bool) returns (r: Result<seq<AggregateHistory>, ReadError>)
    requires lookup.store.Valid()
    ensures var found := OpenReadOr(lookup.c, lookup.ring.keys, fails, FetchByPii(lookup.store.Log(), p, Resolve(opts).tenantID));
            && (r.Ok? <==> found.Ok?)
            && (r.Ok? ==> Partitions(r.value, found.value))
            && (r.Err? ==> r.error == found.error)
  {
    var events := lookup.FetchByPiiID(p, opts, fails);
    if events.Err? {
      return Err(events.error);
    }
    var groups := Group(events.value);
    r := Ok(groups);
  }

  // ---- what such a grouping is worth ----

  lemma {:induction false} NoneYet(es: seq<Event>, k: StreamKey)
    ensures k in FirstSeen(es) <==> exists e :: e in es && KeyOf(e) == k
    ensures k !in FirstSeen(es) <==> Filter(HasKey(k), es) == []
  {
    if es != [] {
      var init := es[..|es| - 1];
      NoneYet(init, k);
      assert es == init + [es[|es| - 1]];
    }
  }

  lemma {:induction false} KeysAreDistinct(es: seq<Event>)
    ensures forall i, j :: 0 <= i < j < |FirstSeen(es)| ==> FirstSeen(es)[i] != FirstSeen(es)[j]
  {
    if es != [] {
      KeysAreDistinct(es[..|es| - 1]);
    }
  }

  /** Where each key's group starts: the groups stand in the order of their first events. */
  lemma {:induction false} KeysInFirstSeenOrder(es: seq<Event>, j: nat)
    requires j < |FirstSeen(es)|
    ensures exists n :: 0 <= n < |es| && KeyOf(es[n]) == FirstSeen(es)[j] && FirstSeen(es[..n]) == FirstSeen(es)[..j]
  {
    var n := |es| - 1;
    var ks := FirstSeen(es[..n]);
    if j < |ks| {
      KeysInFirstSeenOrder(es[..n], j);
      var m :| 0 <= m < n && KeyOf(es[..n][m]) == ks[j] && FirstSeen(es[..n][..m]) == ks[..j];
      assert es[..n][..m] == es[..m] && FirstSeen(es)[..j] == ks[..j];
    } else {
      assert FirstSeen(es)[..j] == ks;
    }
  }

  /** How often x stands in the groups of the given keys, all together. */
  ghost function Listed(ks: seq<StreamKey>, es: seq<Event>, x: Event): nat {
    if ks == [] then 0 else Listed(ks[..|ks| - 1], es, x) + multiset(Filter(HasKey(ks[|ks| - 1]), es))[x]
  }

  lemma {:induction false} ListedInOwnGroup(es: seq<Event>, k: StreamKey, x: Event)
    ensures multiset(Filter(HasKey(k), es))[x] == if KeyOf(x) == k then multiset(es)[x] else 0
  {
    if es != [] {
      ListedInOwnGroup(es[..|es| - 1], k, x);
      assert es == es[..|es| - 1] + [es[|es| - 1]];
    }
  }

  lemma {:induction false} ListedByDistinctKeys(ks: seq<StreamKey>, es: seq<Event>, x: Event)
    requires forall i, j :: 0 <= i < j < |ks| ==> ks[i] != ks[j]
    ensures Listed(ks, es, x) == if KeyOf(x) in ks then multiset(es)[x] else 0
  {
    if ks != [] {
      ListedByDistinctKeys(ks[..|ks| - 1], es, x);
      ListedInOwnGroup(es, ks[|ks| - 1], x);
      assert ks == ks[..|ks| - 1] + [ks[|ks| - 1]];
    }
  }

  /** Nothing is lost and nothing is listed twice: each event is in the groups as often as among the events. */
  lemma NothingLostOrDoubled(es: seq<Event>, x: Event)
    ensures Listed(FirstSeen(es), es, x) == multiset(es)[x]
  {
    KeysAreDistinct(es);
    ListedByDistinctKeys(FirstSeen(es), es, x);
    NoneYet(es, KeyOf(x));
  }

  ghost predicate VersionsAscend(es: seq<Event>) {
    forall i, j :: 0 <= i < j < |es| ==> es[i].version < es[j].version
  }

  lemma {:induction false} FilterKeepsVersionsAscending(p: Event -> bool, es: seq<Event>)
    requires VersionsAscend(es)
    ensures VersionsAscend(Filter(p, es))
  {
    if es != [] {
      var init := es[..|es| - 1];
      FilterKeepsVersionsAscending(p, init);
      forall i | 0 <= i < |Filter(p, init)| ensures Filter(p, init)[i] in init {
        FilterMember(p, init, Filter(p, init)[i]);
      }
      assert forall e :: e in init ==> e.version < es[|init|].version;
    }
  }

  lemma {:induction false} FiltersCommute(p: Event -> bool, q: Event -> bool, es: seq<Event>)
    ensures Filter(p, Filter(q, es)) == Filter(q, Filter(p, es))
  {
    if es != [] {
      var init, e := es[..|es| - 1], es[|es| - 1];
      FiltersCommute(p, q, init);
      FilterPush(p, Filter(q, init), e);
      FilterPush(q, Filter(p, init), e);
    }
  }

  /** A group of a subject's file is in ascending version order whenever the log's stream is. */
  lemma GroupsAscend(log: seq<Event>, p: Uuid, t: Option<Uuid>, k: StreamKey)
    requires VersionsAscend(Stream(log, k))
    ensures VersionsAscend(Filter(HasKey(k), Filter(VisibleTo(t), Filter(HasPii(p), log))))
  {
    var mine := Filter(HasPii(p), log);
    FiltersCommute(HasKey(k), VisibleTo(t), mine);
    FiltersCommute(HasKey(k), HasPii(p), log);
    FilterKeepsVersionsAscending(HasPii(p), Stream(log, k));
    FilterKeepsVersionsAscending(VisibleTo(t), Filter(HasPii(p), Stream(log, k)));
  }

  /** Which it is after any interleaving of clients that load, record and save. */
  lemma ExportOfAnyRunAscends<S(!new), D(!new)>(
    dom: Aggregate.Domain<S, D>, steps: seq<Serializability.Step<S, D>>, p: Uuid, t: Option<Uuid>, k: StreamKey)
    requires Aggregate.RoundTrips(dom)
    ensures VersionsAscend(Filter(HasKey(k), Filter(VisibleTo(t), Filter(HasPii(p), Serializability.Exec(dom, steps).log))))
  {
    Serializability.Serializable(dom, steps, k);
    GroupsAscend(Serializability.Exec(dom, steps).log, p, t, k);
  }
}
