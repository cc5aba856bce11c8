/** One event's way through the read-side machine is one call of the dispatcher. */
module DispatchRuns {
  import opened Common
  import opened Events
  import opened Dispatcher
  import opened Users
  import opened Waiters
  import opened ReadYourWrites

  /** What the projectors act on. */
  datatype World = World(views: Views, calls: seq<Call>)

  function WorldOf(s: State): World {
    World(s.views, s.calls)
  }

  /** The machine's roles as listeners; any other projector leaves the world alone and may fail. */
  function ListenerOf(handle: Handler, role: Role, ok: bool): Listener<World> {
    Listener(Projector, (w: World, e: Event) =>
      match role
      case UpdateViews => (match handle(w.views, e) { case None => (w, false) case Some(v) => (w.(views := v), true) })
      case NotifyWaiters => (w.(calls := w.calls + [Notified(e.aggregateID, e.version)]), true)
      case Other => (w, ok))
  }

  function ListenersOf(handle: Handler, chain: seq<Role>, ok: nat -> bool): (ps: seq<Listener<World>>)
    ensures |ps| == |chain|
  {
    seq(|chain|, i requires 0 <= i < |chain| => ListenerOf(handle, chain[i], ok(i)))
  }

  function Turns(ok: nat -> bool, n: nat): seq<Step> {
    if n == 0 then [] else Turns(ok, n - 1) + [RunNext(ok(n - 1))]
  }

  function RunFrom(handle: Handler, regs: seq<Registered>, s: State, steps: seq<Step>): State {
    if steps == [] then s else Do(handle, regs, RunFrom(handle, regs, s, steps[..|steps| - 1]), steps[|steps| - 1])
  }

  function Matching(name: string): Registered -> bool {
    (r: Registered) => PatternMatches(r.pattern, name)
  }

  function Roles(regs: seq<Registered>): seq<Role> {
    seq(|regs|, i requires 0 <= i < |regs| => regs[i].role)
  }

  /** The machine's chain holds the registrations the dispatcher looks up, in its order. */
  lemma {:induction false} ChainIsLookup(regs: seq<Registered>, name: string)
    ensures Chain(regs, name) == Roles(Filter(Matching(name), regs))
  {
    if regs != [] {
      var init, last := regs[..|regs| - 1], regs[|regs| - 1];
      ChainIsLookup(init, name);
      assert Roles(Filter(Matching(name), init) + [last]) == Roles(Filter(Matching(name), init)) + [last.role];
    }
  }

  /** r is s once the first n listeners of e's chain have had their turn. */
  ghost predicate HadTurns(handle: Handler, s: State, r: State, e: Event, chain: seq<Role>, ok: nat -> bool, n: nat, ran: nat)
    requires n <= |chain|
  {
    && r.current == Some(e) && r.queue == chain[n..]
    && Progress(ListenersOf(handle, chain[..n], ok), WorldOf(s), e, WorldOf(r), !r.failed, ran)
  }

  lemma NextTurn(handle: Handler, regs: seq<Registered>, s: State, r: State, e: Event, chain: seq<Role>, ok: nat -> bool, n: nat, ran: nat)
    returns (ran': nat)
    requires n < |chain| && HadTurns(handle, s, r, e, chain, ok, n, ran)
    ensures HadTurns(handle, s, Do(handle, regs, r, RunNext(ok(n))), e, chain, ok, n + 1, ran')
  {
    var ps, p := ListenersOf(handle, chain[..n], ok), ListenerOf(handle, chain[n], ok(n));
    assert ListenersOf(handle, chain[..n + 1], ok) == ps + [p];
    ProgressPush(ps, p, WorldOf(s), e, WorldOf(r), !r.failed, ran);
    assert chain[n..] == [chain[n]] + chain[n + 1..];
    var r' := Do(handle, regs, r, RunNext(ok(n)));
    assert r'.queue == chain[n + 1..];
    if r.failed {
      ran' := ran;
    } else {
      ran' := ran + 1;
      assert p.handle(WorldOf(r), e) == (WorldOf(r'), !r'.failed);
    }
  }

  lemma {:induction false} TurnsMatch(handle: Handler, regs: seq<Registered>, s: State, first: State, e: Event, chain: seq<Role>, ok: nat -> bool, n: nat)
    returns (ran: nat)
    requires n <= |chain| && HadTurns(handle, s, first, e, chain, ok, 0, 0)
    ensures HadTurns(handle, s, RunFrom(handle, regs, first, Turns(ok, n)), e, chain, ok, n, ran)
  {
    if n == 0 {
      ran := 0;
    } else {
      ran := TurnsMatch(handle, regs, s, first, e, chain, ok, n - 1);
      OneMoreTurn(handle, regs, first, ok, n);
      ran := NextTurn(handle, regs, s, RunFrom(handle, regs, first, Turns(ok, n - 1)), e, chain, ok, n - 1, ran);
    }
  }

  lemma OneMoreTurn(handle: Handler, regs: seq<Registered>, s: State, ok: nat -> bool, n: nat)
    requires n > 0
    ensures RunFrom(handle, regs, s, Turns(ok, n)) == Do(handle, regs, RunFrom(handle, regs, s, Turns(ok, n - 1)), RunNext(ok(n - 1)))
  {
    var before := Turns(ok, n - 1);
    assert Turns(ok, n)[..|before|] == before;
  }

  lemma NoTurnsYet(handle: Handler, regs: seq<Registered>, s: State, e: Event, ok: nat -> bool)
    requires s.queue == [] && Seen(s.seen, e.aggregateID) < e.version
    ensures HadTurns(handle, s, Do(handle, regs, s, Dispatch(e)), e, Chain(regs, e.name), ok, 0, 0)
  {
    var chain := Chain(regs, e.name);
    assert chain[0..] == chain && chain[..0] == [];
    assert ListenersOf(handle, chain[..0], ok) == [];
  }

  /**
   * From any idle state, dispatching an event and giving each listener of its chain its turn
   * leaves the views and the notifier as Dispatch is proved to leave them: each projector
   * after the one before it, up to and including the first failure.
   */
  lemma DispatchIsOneCall(handle: Handler, regs: seq<Registered>, s: State, e: Event, ok: nat -> bool)
    returns (ran: nat)
    requires s.queue == [] && Seen(s.seen, e.aggregateID) < e.version
    ensures var chain := Roles(Filter(Matching(e.name), regs));
            var r := RunFrom(handle, regs, Do(handle, regs, s, Dispatch(e)), Turns(ok, |chain|));
            && r.queue == []
            && Progress(ListenersOf(handle, chain, ok), WorldOf(s), e, WorldOf(r), !r.failed, ran)
  {
    ChainIsLookup(regs, e.name);
    var chain := Chain(regs, e.name);
    NoTurnsYet(handle, regs, s, e, ok);
    ran := TurnsMatch(handle, regs, s, Do(handle, regs, s, Dispatch(e)), e, chain, ok, |chain|);
    assert chain[..|chain|] == chain;
  }

  // ---- nobody waits in vain ----

  /** After n turns of e's chain: the notifier, if it was among them and none failed, has been called. */
  predicate Woken(r: State, e: Event, chain: seq<Role>, n: nat)
    requires n <= |chain|
  {
    && r.current == Some(e) && r.queue == chain[n..]
    && (!r.failed && NotifyWaiters in chain[..n] ==> Notified(e.aggregateID, e.version) in r.calls)
  }

  lemma TurnWakes(handle: Handler, regs: seq<Registered>, r: State, e: Event, chain: seq<Role>, n: nat, ok: bool)
    requires n < |chain| && Woken(r, e, chain, n)
    ensures Woken(Do(handle, regs, r, RunNext(ok)), e, chain, n + 1)
  {
    assert chain[..n + 1] == chain[..n] + [chain[n]];
    assert chain[n..] == [chain[n]] + chain[n + 1..];
  }

  lemma {:induction false} NotifiersHaveRun(handle: Handler, regs: seq<Registered>, first: State, e: Event, chain: seq<Role>, ok: nat -> bool, n: nat)
    requires n <= |chain| && Woken(first, e, chain, 0)
    ensures Woken(RunFrom(handle, regs, first, Turns(ok, n)), e, chain, n)
  {
    if n > 0 {
      NotifiersHaveRun(handle, regs, first, e, chain, ok, n - 1);
      TurnWakes(handle, regs, RunFrom(handle, regs, first, Turns(ok, n - 1)), e, chain, n - 1, ok(n - 1));
      OneMoreTurn(handle, regs, first, ok, n);
    }
  }

  lemma CallsOnlyGrow(handle: Handler, regs: seq<Registered>, s: State, step: Step)
    ensures s.calls <= Do(handle, regs, s, step).calls
  {
  }

  lemma {:induction false} NotifiedStays(handle: Handler, regs: seq<Registered>, s: State, more: seq<Step>, c: Call)
    requires c in s.calls
    ensures c in RunFrom(handle, regs, s, more).calls
  {
    if more != [] {
      NotifiedStays(handle, regs, s, more[..|more| - 1], c);
      CallsOnlyGrow(handle, regs, RunFrom(handle, regs, s, more[..|more| - 1]), more[|more| - 1]);
    }
  }

  /**
   * Once an event has gone through a chain that holds the notifier, and no listener failed,
   * every channel for its aggregate at its version or below is closed at every later moment,
   * whether it was asked for before the event, meanwhile, or only then.
   */
  lemma NobodyWaitsInVain(handle: Handler, regs: seq<Registered>, s: State, e: Event, ok: nat -> bool, r: State, more: seq<Step>, ch: nat)
    requires s.queue == [] && Seen(s.seen, e.aggregateID) < e.version
    requires NotifyWaiters in Roles(Filter(Matching(e.name), regs))
    requires r == RunFrom(handle, regs, Do(handle, regs, s, Dispatch(e)), Turns(ok, |Filter(Matching(e.name), regs)|)) && !r.failed
    requires ch < |Subscriptions(RunFrom(handle, regs, r, more).calls)|
    ensures var calls := RunFrom(handle, regs, r, more).calls;
            var sub := Subscriptions(calls)[ch];
            sub.id == e.aggregateID && sub.minVersion <= e.version ==> ch in Waiters.Exec(calls).closed
  {
    ChainIsLookup(regs, e.name);
    var chain := Chain(regs, e.name);
    assert chain[..|chain|] == chain && chain[0..] == chain;
    NotifiersHaveRun(handle, regs, Do(handle, regs, s, Dispatch(e)), e, chain, ok, |chain|);
    NotifiedStays(handle, regs, r, more, Notified(e.aggregateID, e.version));
    MaxNotifiedMeaning(RunFrom(handle, regs, r, more).calls, e.aggregateID);
    EveryHistory(RunFrom(handle, regs, r, more).calls, ch);
  }

  /** Asking for a channel makes one, whatever state the loop is in. */
  lemma AwaitAsks(handle: Handler, regs: seq<Registered>, s: State, id: Uuid, minVersion: nat)
    ensures var s' := Do(handle, regs, s, Await(id, minVersion));
            && Subscriptions(s'.calls) == Subscriptions(s.calls) + [Subscription(id, minVersion)]
            && s' == s.(calls := s'.calls)
  {
    var calls := s.calls + [Subscribed(id, minVersion)];
    assert calls[..|s.calls|] == s.calls;
  }
}
