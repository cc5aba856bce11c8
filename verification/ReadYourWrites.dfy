/**
 * The read side in motion: one dispatch loop runs each event through its listeners one at a
 * time while any number of handlers subscribe to the notifier in between.
 */
module ReadYourWrites {
  import opened Common
  import opened Events
  import opened Dispatcher
  import opened Aggregate
  import opened Users
  import opened Waiters

  /** The projectors that matter here; the reactors are detached and touch neither view nor notifier. */
  datatype Role = UpdateViews | NotifyWaiters | Other

  datatype Registered = Registered(pattern: string, role: Role)

  datatype State = State(
    views: Views,
    calls: seq<Call>,         // every call the notifier has had, in order
    current: Option<Event>,
    queue: seq<Role>,         // projectors still to run for the current event
    failed: bool,             // one of them has returned an error
    seen: map<Uuid, nat>,     // highest version dispatched per aggregate
    dispatched: seq<Event>,
    handled: seq<Event>)      // those the view projector has been given

  datatype Step = Dispatch(e: Event) | RunNext(otherSucceeds: bool) | Await(id: Uuid, minVersion: nat)

  const INITIAL := State(map[], [], None, [], false, map[], [], [])

  /** A view projector's Handle: the views after it, or None when it returns an error. */
  type Handler = (Views, Event) -> Option<Views>

  /** Handling an event moves its aggregate's view to the event's version and no other view. */
  ghost predicate Tracks(handle: Handler) {
    forall views, e, id :: handle(views, e).Some? ==>
      ViewVersion(handle(views, e).value, id) == if id == e.aggregateID then e.version else ViewVersion(views, id)
  }

  function Chain(regs: seq<Registered>, name: string): seq<Role> {
    if regs == [] then []
    else
      var init, last := Chain(regs[..|regs| - 1], name), regs[|regs| - 1];
      if PatternMatches(last.pattern, name) then init + [last.role] else init
  }

  function Seen(seen: map<Uuid, nat>, id: Uuid): nat {
    if id in seen then seen[id] else 0
  }

  /**
   * One atomic step; a step that is not enabled changes nothing. The loop takes the next event
   * once its chain is done, and gets each aggregate's versions in ascending order.
   */
  function Do(handle: Handler, regs: seq<Registered>, s: State, step: Step): State {
    match step
    case Dispatch(e) =>
      if s.queue == [] && Seen(s.seen, e.aggregateID) < e.version
      then s.(current := Some(e), queue := Chain(regs, e.name), failed := false,
              seen := s.seen[e.aggregateID := e.version], dispatched := s.dispatched + [e])
      else s
    case RunNext(otherSucceeds) =>
      if s.queue == [] || s.current.None? then s
      else
        var rest := s.(queue := s.queue[1..]);
        if s.failed then rest
        else
          var e := s.current.value;
          (match s.queue[0]
           case UpdateViews =>
             var given := rest.(handled := s.handled + [e]);
             (match handle(s.views, e) { case None => given.(failed := true) case Some(v) => given.(views := v) })
           case NotifyWaiters => rest.(calls := s.calls + [Notified(e.aggregateID, e.version)])
           case Other => rest.(failed := !otherSucceeds))
    case Await(id, v) => s.(calls := s.calls + [Subscribed(id, v)])
  }

  function Exec(handle: Handler, regs: seq<Registered>, steps: seq<Step>): State {
    if steps == [] then INITIAL else Do(handle, regs, Exec(handle, regs, steps[..|steps| - 1]), steps[|steps| - 1])
  }

  /** No notifier in the chain comes before its first view update. */
  predicate Guarded(queue: seq<Role>) {
    queue != [] ==> queue[0] == UpdateViews || (queue[0] == Other && Guarded(queue[1..]))
  }

  /** A handler that sees its channel closed finds its write, or a later one, in the view. */
  ghost predicate Safe(s: State) {
    forall ch :: 0 <= ch < |Subscriptions(s.calls)| && ch in Waiters.Exec(s.calls).closed ==>
      var sub := Subscriptions(s.calls)[ch];
      sub.minVersion >= 1 ==> sub.id in s.views && s.views[sub.id].version >= sub.minVersion
  }

  /** No aggregate has been notified past its view, nor its view moved past what was dispatched. */
  ghost predicate InStep(calls: seq<Call>, views: Views, seen: map<Uuid, nat>) {
    forall id :: MaxNotified(calls, id) <= ViewVersion(views, id) <= Seen(seen, id)
  }

  ghost predicate Inv(s: State) {
    && InStep(s.calls, s.views, s.seen)
    && (s.queue != [] && s.current.Some? ==>
          var e := s.current.value;
          && Seen(s.seen, e.aggregateID) == e.version
          && (s.failed || Guarded(s.queue) || ViewVersion(s.views, e.aggregateID) == e.version))
  }

  lemma UserProjectorTracks()
    ensures Tracks(Users.Handle)
  {
  }

  lemma CallPush(calls: seq<Call>, c: Call)
    ensures forall id :: MaxNotified(calls + [c], id)
                         == if c.Notified? && c.id == id && MaxNotified(calls, id) < c.version then c.version else MaxNotified(calls, id)
  {
    assert (calls + [c])[..|calls|] == calls;
  }

  lemma UpdateKeepsInStep(handle: Handler, calls: seq<Call>, views: Views, seen: map<Uuid, nat>, e: Event)
    requires Tracks(handle) && InStep(calls, views, seen) && Seen(seen, e.aggregateID) == e.version
    requires handle(views, e).Some?
    ensures InStep(calls, handle(views, e).value, seen)
    ensures ViewVersion(handle(views, e).value, e.aggregateID) == e.version
  {
    var views' := handle(views, e).value;
    assert ViewVersion(views', e.aggregateID) == e.version;
    forall id ensures MaxNotified(calls, id) <= ViewVersion(views', id) <= Seen(seen, id) {
      assert ViewVersion(views', id) == if id == e.aggregateID then e.version else ViewVersion(views, id);
    }
  }

  lemma CallKeepsInStep(calls: seq<Call>, views: Views, seen: map<Uuid, nat>, c: Call)
    requires InStep(calls, views, seen)
    requires c.Notified? ==> c.version <= ViewVersion(views, c.id)
    ensures InStep(calls + [c], views, seen)
  {
    CallPush(calls, c);
  }

  /** One listener of the chain runs while none has failed. */
  lemma RunKeepsInv(handle: Handler, regs: seq<Registered>, s: State, ok: bool)
    requires Tracks(handle) && Inv(s) && s.queue != [] && s.current.Some? && !s.failed
    ensures Inv(Do(handle, regs, s, RunNext(ok)))
  {
    var e := s.current.value;
    match s.queue[0] {
      case UpdateViews =>
        if handle(s.views, e).Some? {
          UpdateKeepsInStep(handle, s.calls, s.views, s.seen, e);
        }
      case NotifyWaiters =>
        CallKeepsInStep(s.calls, s.views, s.seen, Notified(e.aggregateID, e.version));
      case Other =>
    }
  }

  lemma StepKeepsInv(handle: Handler, regs: seq<Registered>, s: State, step: Step)
    requires Tracks(handle) && Inv(s)
    requires step.Dispatch? ==> Guarded(Chain(regs, step.e.name))
    ensures Inv(Do(handle, regs, s, step))
  {
    match step {
      case Dispatch(e) =>
        assert InStep(s.calls, s.views, Do(handle, regs, s, step).seen);
      case RunNext(ok) =>
        if s.queue != [] && s.current.Some? && !s.failed {
          RunKeepsInv(handle, regs, s, ok);
        }
      case Await(id, v) => CallKeepsInStep(s.calls, s.views, s.seen, Subscribed(id, v));
    }
  }

  lemma {:induction false} EveryRun(handle: Handler, regs: seq<Registered>, steps: seq<Step>)
    requires Tracks(handle)
    requires forall i :: 0 <= i < |steps| && steps[i].Dispatch? ==> Guarded(Chain(regs, steps[i].e.name))
    ensures Inv(Exec(handle, regs, steps))
  {
    if steps != [] {
      EveryRun(handle, regs, steps[..|steps| - 1]);
      StepKeepsInv(handle, regs, Exec(handle, regs, steps[..|steps| - 1]), steps[|steps| - 1]);
    }
  }

  /**
   * Read your writes: in every interleaving, even if some dispatches returned errors, whenever
   * the channel from Await(id, v), v >= 1, is closed, the view of id is at version v or later.
   */
  lemma ClosedMeansProjected(handle: Handler, regs: seq<Registered>, steps: seq<Step>)
    requires Tracks(handle)
    requires forall i :: 0 <= i < |steps| && steps[i].Dispatch? ==> Guarded(Chain(regs, steps[i].e.name))
    ensures Safe(Exec(handle, regs, steps))
  {
    EveryRun(handle, regs, steps);
    var s := Exec(handle, regs, steps);
    forall ch | 0 <= ch < |Subscriptions(s.calls)| && ch in Waiters.Exec(s.calls).closed
      ensures var sub := Subscriptions(s.calls)[ch];
              sub.minVersion >= 1 ==> sub.id in s.views && s.views[sub.id].version >= sub.minVersion
    {
      EveryHistory(s.calls, ch);
      var sub := Subscriptions(s.calls)[ch];
      assert MaxNotified(s.calls, sub.id) <= ViewVersion(s.views, sub.id);
    }
  }

  // ---- the registration order is exactly what it takes ----

  ghost predicate OnlyNamed(steps: seq<Step>, name: string) {
    forall i :: 0 <= i < |steps| && steps[i].Dispatch? ==> steps[i].e.name == name
  }

  function FirstEvent(name: string): Event {
    Event(1, NIL_UUID, 0, 1, name, Doc(map[]), None, NoManifest, false)
  }

  function Prelude(name: string, k: nat): seq<Step> {
    if k == 0 then [Await(0, 1), Dispatch(FirstEvent(name))] else Prelude(name, k - 1) + [RunNext(true)]
  }

  lemma ExecPush(handle: Handler, regs: seq<Registered>, steps: seq<Step>, step: Step)
    ensures Exec(handle, regs, steps + [step]) == Do(handle, regs, Exec(handle, regs, steps), step)
  {
    assert (steps + [step])[..|steps|] == steps;
  }

  /** The state once k of the chain's listeners have run, none of them a view update or notifier. */
  function Reached(regs: seq<Registered>, name: string, k: nat): State
    requires k <= |Chain(regs, name)|
  {
    State(map[], [Subscribed(0, 1)], Some(FirstEvent(name)), Chain(regs, name)[k..], false, map[0 := 1], [FirstEvent(name)], [])
  }

  lemma PreludeStarts(handle: Handler, regs: seq<Registered>, name: string)
    ensures Exec(handle, regs, Prelude(name, 0)) == Reached(regs, name, 0)
  {
    ExecPush(handle, regs, [], Await(0, 1));
    ExecPush(handle, regs, [Await(0, 1)], Dispatch(FirstEvent(name)));
    assert [] + [Await(0, 1)] == [Await(0, 1)];
    assert [Await(0, 1)] + [Dispatch(FirstEvent(name))] == Prelude(name, 0);
    assert Chain(regs, name)[0..] == Chain(regs, name);
    assert INITIAL.calls + [Subscribed(0, 1)] == [Subscribed(0, 1)];
    assert [] + [FirstEvent(name)] == [FirstEvent(name)];
  }

  lemma OthersPass(handle: Handler, regs: seq<Registered>, name: string, k: nat)
    requires k < |Chain(regs, name)| && Chain(regs, name)[k] == Other
    ensures Do(handle, regs, Reached(regs, name, k), RunNext(true)) == Reached(regs, name, k + 1)
  {
  }

  /** Until the first notifier runs, nothing has happened to the views or the notifier. */
  lemma {:induction false} BeforeNotifier(handle: Handler, regs: seq<Registered>, name: string, k: nat)
    requires k <= |Chain(regs, name)|
    requires forall i :: 0 <= i < k ==> Chain(regs, name)[i] == Other
    ensures Exec(handle, regs, Prelude(name, k)) == Reached(regs, name, k)
  {
    if k == 0 {
      PreludeStarts(handle, regs, name);
    } else {
      BeforeNotifier(handle, regs, name, k - 1);
      ExecPush(handle, regs, Prelude(name, k - 1), RunNext(true));
      OthersPass(handle, regs, name, k - 1);
    }
  }

  lemma {:induction false} PreludeNamed(name: string, k: nat)
    ensures OnlyNamed(Prelude(name, k), name)
  {
    if k > 0 {
      PreludeNamed(name, k - 1);
    }
  }

  lemma UnguardedBreaks(handle: Handler, regs: seq<Registered>, name: string, j: nat)
    requires j < |Chain(regs, name)| && Chain(regs, name)[j] == NotifyWaiters
    requires forall i :: 0 <= i < j ==> Chain(regs, name)[i] == Other
    ensures OnlyNamed(Prelude(name, j + 1), name) && !Safe(Exec(handle, regs, Prelude(name, j + 1)))
  {
    var calls := [Subscribed(0, 1)] + [Notified(0, 1)];
    PreludeNamed(name, j + 1);
    BeforeNotifier(handle, regs, name, j);
    ExecPush(handle, regs, Prelude(name, j), RunNext(true));
    assert Exec(handle, regs, Prelude(name, j + 1)).calls == calls;
    assert calls[..1] == [Subscribed(0, 1)] && calls[..1][..0] == [];
    assert Subscriptions(calls[..1]) == [Subscription(0, 1)];
    CallPush([Subscribed(0, 1)], Notified(0, 1));
    assert MaxNotified(calls[..1], 0) == 0;
    EveryHistory(calls, 0);
  }

  /**
   * For events of one name, a closed channel always means a projected write if and only if, in
   * registration order, a view update matching that name precedes every matching notifier.
   */
  lemma SafeIffGuarded(handle: Handler, regs: seq<Registered>, name: string)
    requires Tracks(handle)
    ensures Guarded(Chain(regs, name)) <==> forall steps :: OnlyNamed(steps, name) ==> Safe(Exec(handle, regs, steps))
  {
    if Guarded(Chain(regs, name)) {
      forall steps | OnlyNamed(steps, name) ensures Safe(Exec(handle, regs, steps)) {
        ClosedMeansProjected(handle, regs, steps);
      }
    } else {
      var j := FirstNotifier(Chain(regs, name));
      UnguardedBreaks(handle, regs, name, j);
    }
  }

  lemma {:induction false} FirstNotifier(queue: seq<Role>) returns (j: nat)
    requires !Guarded(queue)
    ensures j < |queue| && queue[j] == NotifyWaiters && forall i :: 0 <= i < j ==> queue[i] == Other
  {
    j := 0;
    if queue[0] == Other {
      j := FirstNotifier(queue[1..]);
      j := j + 1;
    }
  }

  /** The order the example wires up: its user projector, then the notifier for every event. */
  lemma {:induction false} ExampleIsSafe(steps: seq<Step>)
    requires forall i :: 0 <= i < |steps| && steps[i].Dispatch? ==> "user." <= steps[i].e.name
    ensures Safe(Exec(Users.Handle, [Registered("user.*", UpdateViews), Registered("*", NotifyWaiters)], steps))
  {
    var regs := [Registered("user.*", UpdateViews), Registered("*", NotifyWaiters)];
    forall i | 0 <= i < |steps| && steps[i].Dispatch? ensures Guarded(Chain(regs, steps[i].e.name)) {
      var name := steps[i].e.name;
      assert regs[..1] == [Registered("user.*", UpdateViews)] && regs[..1][..0] == [];
      assert "user.*"[..5] == "user." && "*"[..0] == "";
      assert Chain(regs[..1], name) == [UpdateViews];
      assert Chain(regs, name) == [UpdateViews, NotifyWaiters];
    }
    UserProjectorTracks();
    ClosedMeansProjected(Users.Handle, regs, steps);
  }

  // ---- what the view holds by then ----

  /** The view projector comes first in the chain, and once. */
  predicate UpdatesFirst(queue: seq<Role>) {
    queue != [] && queue[0] == UpdateViews && UpdateViews !in queue[1..]
  }

  /** Of what was dispatched only the current event may still be waiting for the view projector. */
  predicate Pending(s: State) {
    if UpdateViews in s.queue
    then UpdatesFirst(s.queue) && !s.failed && s.current.Some? && s.dispatched == s.handled + [s.current.value]
    else s.dispatched == s.handled
  }

  lemma ProjectPush(events: seq<Event>, e: Event)
    ensures ProjectAll(events + [e])
            == match Users.Handle(ProjectAll(events), e) { case None => ProjectAll(events) case Some(v) => v }
  {
    assert (events + [e])[..|events|] == events;
  }

  /** Only the view projector touches the views, and it is given each event it counts as handled. */
  lemma HandlesOne(handle: Handler, regs: seq<Registered>, s: State, step: Step)
    ensures var s' := Do(handle, regs, s, step);
            || (s'.handled == s.handled && s'.views == s.views)
            || (s.current.Some? && s'.handled == s.handled + [s.current.value]
                && s'.views == match handle(s.views, s.current.value) { case None => s.views case Some(v) => v })
  {
  }

  lemma {:induction false} ViewsAreProjected(regs: seq<Registered>, steps: seq<Step>)
    ensures Exec(Users.Handle, regs, steps).views == ProjectAll(Exec(Users.Handle, regs, steps).handled)
  {
    if steps != [] {
      var init, step := steps[..|steps| - 1], steps[|steps| - 1];
      var s := Exec(Users.Handle, regs, init);
      ViewsAreProjected(regs, init);
      HandlesOne(Users.Handle, regs, s, step);
      if s.current.Some? {
        ProjectPush(s.handled, s.current.value);
      }
    }
  }

  lemma {:induction false} HandledInOrder(handle: Handler, regs: seq<Registered>, steps: seq<Step>)
    requires forall i :: 0 <= i < |steps| && steps[i].Dispatch? ==> UpdatesFirst(Chain(regs, steps[i].e.name))
    ensures Pending(Exec(handle, regs, steps))
  {
    if steps != [] {
      var init, step := steps[..|steps| - 1], steps[|steps| - 1];
      HandledInOrder(handle, regs, init);
      var s := Exec(handle, regs, init);
      if step.Dispatch? {
        assert UpdatesFirst(Chain(regs, step.e.name));
      }
      if s.queue != [] {
        assert s.queue == [s.queue[0]] + s.queue[1..];
      }
    }
  }

  lemma {:induction false} PrefixReplays(log: seq<Event>, n: nat, id: Uuid)
    requires n <= |log| && Replay(USER, USER.zero, Facts(Filter(OfAggregate(id), log))).Ok?
    ensures Replay(USER, USER.zero, Facts(Filter(OfAggregate(id), log[..n]))).Ok?
  {
    if n == |log| {
      assert log[..n] == log;
    } else {
      ReplayPush(USER, log, id);
      PrefixReplays(log[..|log| - 1], n, id);
      assert log[..|log| - 1][..n] == log[..n];
    }
  }

  /**
   * Read your writes, contents and all: the dispatch loop follows a log whose streams replay,
   * the view projector registered first. Whenever the channel from Await(id, v), v >= 1, is
   * closed, the view of id is the user that replaying its events, up to a version no lower
   * than v, gives: the first events of its stream in the log, the latest of them at that version.
   */
  lemma ClosedMeansReplayed(regs: seq<Registered>, steps: seq<Step>, log: seq<Event>, ch: nat)
    requires forall i :: 0 <= i < |steps| && steps[i].Dispatch? ==> UpdatesFirst(Chain(regs, steps[i].e.name))
    requires Exec(Users.Handle, regs, steps).dispatched <= log
    requires forall a :: Replay(USER, USER.zero, Facts(Filter(OfAggregate(a), log))).Ok?
    requires var s := Exec(Users.Handle, regs, steps);
             ch < |Subscriptions(s.calls)| && ch in Waiters.Exec(s.calls).closed && Subscriptions(s.calls)[ch].minVersion >= 1
    ensures var s := Exec(Users.Handle, regs, steps);
            var sub := Subscriptions(s.calls)[ch];
            var mine := Filter(OfAggregate(sub.id), s.handled);
            && mine <= Filter(OfAggregate(sub.id), log)
            && mine != [] && mine[|mine| - 1].version >= sub.minVersion
            && var r := Replay(USER, USER.zero, Facts(mine));
               r.Ok? && Users.Mirrors(s.views, sub.id, mine, r.value)
  {
    var s := Exec(Users.Handle, regs, steps);
    var sub := Subscriptions(s.calls)[ch];
    UserProjectorTracks();
    ClosedMeansProjected(Users.Handle, regs, steps);
    ViewsAreProjected(regs, steps);
    HandledInOrder(Users.Handle, regs, steps);
    assert s.handled <= s.dispatched <= log;
    assert s.handled == log[..|s.handled|];
    forall a ensures Replay(USER, USER.zero, Facts(Filter(OfAggregate(a), s.handled))).Ok? {
      PrefixReplays(log, |s.handled|, a);
    }
    ViewsEqualReplay(s.handled, sub.id);
    FilterPrefix(OfAggregate(sub.id), s.handled, log);
  }
}
