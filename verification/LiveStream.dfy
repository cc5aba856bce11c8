/**
 * The in-memory store under concurrency: one commit at a time holds the lock and sends each
 * new event to every registered subscriber, while subscriber goroutines forward, filter,
 * are cancelled and unregister at any moment in between.
 */
module LiveStream {
  import opened Common
  import opened Events
  import opened EventLog

  const LIVE_BUFFER := 64

  datatype Subscription = Subscription(
    tenant: Option<Uuid>,
    backlog: seq<Event>,    // replayed history not yet forwarded
    live: seq<Event>,       // the 64-slot channel Commit sends to
    inHand: seq<Event>,     // taken from live, being offered to the consumer
    delivered: seq<Event>,  // what the consumer has received
    cancelled: bool,
    running: bool,          // the forwarding goroutine has not returned
    registered: bool)

  datatype Request = Request(batch: seq<Event>, expected: nat, tenant: Option<Uuid>)

  /** The commit that holds the lock: events appended so far, and who has yet to get the last one. */
  datatype Writer = Idle | Committing(base: seq<Event>, request: Request, appended: nat, owed: set<nat>)

  datatype State = State(log: seq<Event>, subs: seq<Subscription>, writer: Writer, accepted: seq<Request>)

  datatype Step =
    | BeginCommit(request: Request)
    | AppendEvent
    | Send(i: nat)
    | EndCommit
    | Subscribe(tenant: Option<Uuid>)
    | Unregister(i: nat)
    | Local(i: nat, act: Act)

  /** What one subscription's goroutine, consumer or canceller does on its own. */
  datatype Act = ForwardBacklog | TakeLive | ForwardLive | Cancel | Return

  const INITIAL := State([], [], Idle, [])

  function Numbered(r: Request, last: nat): seq<Event> {
    Number(StampAll(r.tenant, r.batch), last)
  }

  ghost predicate Acceptable(log: seq<Event>, r: Request) {
    && r.batch != []
    && SingleStream(r.tenant, r.batch)
    && EventLog.Commit(log, r.batch, r.expected, r.tenant).Ok?
  }

  function Registered(subs: seq<Subscription>): set<nat> {
    set i: nat | i < |subs| && subs[i].registered
  }

  function Own(sub: Subscription, act: Act): Subscription {
    match act
    case ForwardBacklog =>
      if sub.running && sub.backlog != []
      then sub.(backlog := sub.backlog[1..], delivered := sub.delivered + sub.backlog[..1]) else sub
    case TakeLive =>
      if sub.running && sub.backlog == [] && sub.inHand == [] && sub.live != []
      then sub.(live := sub.live[1..], inHand := if Visible(sub.tenant, sub.live[0]) then sub.live[..1] else []) else sub
    case ForwardLive =>
      if sub.running && sub.inHand != []
      then sub.(inHand := [], delivered := sub.delivered + sub.inHand) else sub
    case Cancel => sub.(cancelled := true)
    case Return => if sub.cancelled then sub.(running := false) else sub
  }

  /** One atomic step; a step that is not enabled changes nothing. */
  ghost function Do(s: State, step: Step): State {
    match step
    case BeginCommit(r) =>
      if s.writer.Idle? && Acceptable(s.log, r) then s.(writer := Committing(s.log, r, 0, {})) else s
    case AppendEvent =>
      if s.writer.Committing? && s.writer.owed == {} && s.writer.appended < |s.writer.request.batch| then
        var e := Numbered(s.writer.request, |s.writer.base|)[s.writer.appended];
        s.(log := s.log + [e], writer := s.writer.(appended := s.writer.appended + 1, owed := Registered(s.subs)))
      else s
    case Send(i) =>
      if s.writer.Committing? && i in s.writer.owed && i < |s.subs| && s.log != [] && |s.subs[i].live| < LIVE_BUFFER then
        var sub := s.subs[i];
        s.(subs := s.subs[i := sub.(live := sub.live + s.log[|s.log| - 1..])],
           writer := s.writer.(owed := s.writer.owed - {i}))
      else s
    case EndCommit =>
      if s.writer.Committing? && s.writer.owed == {} && s.writer.appended == |s.writer.request.batch|
      then s.(writer := Idle, accepted := s.accepted + [s.writer.request]) else s
    case Subscribe(t) =>
      if s.writer.Idle?
      then s.(subs := s.subs + [Subscription(t, Filter(VisibleTo(t), s.log), [], [], [], false, true, true)]) else s
    case Unregister(i) =>
      if s.writer.Idle? && i < |s.subs| && !s.subs[i].running
      then s.(subs := s.subs[i := s.subs[i].(registered := false)]) else s
    case Local(i, act) =>
      if i < |s.subs| then s.(subs := s.subs[i := Own(s.subs[i], act)]) else s
  }

  ghost function Exec(steps: seq<Step>): State {
    if steps == [] then INITIAL else Do(Exec(steps[..|steps| - 1]), steps[|steps| - 1])
  }

  // ---- the invariant ----

  /** The event the running commit has yet to send to subscriber i. */
  ghost function OwedTo(s: State, i: nat): seq<Event> {
    if s.writer.Committing? && i in s.writer.owed && s.log != [] then s.log[|s.log| - 1..] else []
  }

  /** Everything between the log and the consumer, oldest first. */
  function Pipeline(sub: Subscription, owed: seq<Event>): seq<Event> {
    sub.delivered + sub.inHand + sub.backlog + Filter(VisibleTo(sub.tenant), sub.live + owed)
  }

  ghost predicate SubInv(log: seq<Event>, sub: Subscription, owed: seq<Event>) {
    && |sub.live| <= LIVE_BUFFER
    && (sub.inHand != [] ==> sub.backlog == [])
    && (!sub.cancelled ==> sub.running)
    && (sub.running ==> sub.registered)
    && sub.delivered <= Filter(VisibleTo(sub.tenant), log)
    && (sub.running ==> Pipeline(sub, owed) == Filter(VisibleTo(sub.tenant), log))
  }

  /** Whole commits applied one after another to the single log. */
  function Serial(requests: seq<Request>): seq<Event> {
    if requests == [] then []
    else
      var log, r := Serial(requests[..|requests| - 1]), requests[|requests| - 1];
      var next := EventLog.Commit(log, r.batch, r.expected, r.tenant);
      if next.Ok? then next.value else log
  }

  ghost predicate WriterInv(s: State) {
    match s.writer
    case Idle => s.log == Serial(s.accepted)
    case Committing(base, r, appended, owed) =>
      && base == Serial(s.accepted)
      && Acceptable(base, r)
      && appended <= |r.batch|
      && s.log == base + Numbered(r, |base|)[..appended]
      && (forall i :: i in owed ==> i < |s.subs|)
      && (appended == 0 ==> owed == {})
  }

  ghost predicate Inv(s: State) {
    && WellNumbered(s.log)
    && WriterInv(s)
    && SubsInv(s)
  }

  ghost predicate SubsInv(s: State) {
    forall i :: 0 <= i < |s.subs| ==> SubInv(s.log, s.subs[i], OwedTo(s, i))
  }

  lemma ForwardBacklogKeeps(log: seq<Event>, sub: Subscription, owed: seq<Event>)
    requires SubInv(log, sub, owed) && sub.running && sub.backlog != []
    ensures SubInv(log, Own(sub, ForwardBacklog), owed)
  {
    var sub' := Own(sub, ForwardBacklog);
    var rest := Filter(VisibleTo(sub.tenant), sub.live + owed);
    assert sub.inHand == [];
    assert sub'.delivered + sub'.backlog == sub.delivered + sub.backlog;
    assert sub'.delivered <= sub'.delivered + sub'.inHand + sub'.backlog + rest;
    assert Pipeline(sub', owed) == Pipeline(sub, owed);
  }

  lemma TakeLiveKeeps(log: seq<Event>, sub: Subscription, owed: seq<Event>)
    requires SubInv(log, sub, owed) && sub.running && sub.backlog == [] && sub.inHand == [] && sub.live != []
    ensures SubInv(log, Own(sub, TakeLive), owed)
  {
    var sub' := Own(sub, TakeLive);
    HeadFiltered(VisibleTo(sub.tenant), sub.live, owed);
    Regroup(sub.delivered, sub'.inHand, Filter(VisibleTo(sub.tenant), sub'.live + owed));
    assert Pipeline(sub', owed) == Pipeline(sub, owed);
  }

  lemma Regroup(a: seq<Event>, b: seq<Event>, c: seq<Event>)
    ensures a + [] + [] + (b + c) == a + b + [] + c
  {
  }

  lemma HeadFiltered(p: Event -> bool, live: seq<Event>, owed: seq<Event>)
    requires live != []
    ensures Filter(p, live + owed) == (if p(live[0]) then live[..1] else []) + Filter(p, live[1..] + owed)
  {
    assert live + owed == [live[0]] + (live[1..] + owed);
    assert live[..1] == [live[0]];
    FilterConcat(p, [live[0]], live[1..] + owed);
  }

  lemma ForwardLiveKeeps(log: seq<Event>, sub: Subscription, owed: seq<Event>)
    requires SubInv(log, sub, owed) && sub.running && sub.inHand != []
    ensures SubInv(log, Own(sub, ForwardLive), owed)
  {
    var sub' := Own(sub, ForwardLive);
    var rest := Filter(VisibleTo(sub.tenant), sub.live + owed);
    assert sub'.delivered <= sub'.delivered + sub'.inHand + sub'.backlog + rest;
    assert Pipeline(sub', owed) == Pipeline(sub, owed);
  }

  lemma OwnKeepsSubInv(log: seq<Event>, sub: Subscription, owed: seq<Event>, act: Act)
    requires SubInv(log, sub, owed)
    ensures SubInv(log, Own(sub, act), owed)
  {
    if Own(sub, act) != sub {
      match act {
        case ForwardBacklog => ForwardBacklogKeeps(log, sub, owed);
        case TakeLive => TakeLiveKeeps(log, sub, owed);
        case ForwardLive => ForwardLiveKeeps(log, sub, owed);
        case _ =>
      }
    }
  }

  /** A new log entry is owed to every registered subscriber, which keeps its pipeline complete. */
  lemma AppendKeepsSubInv(log: seq<Event>, sub: Subscription, e: Event)
    requires SubInv(log, sub, [])
    ensures SubInv(log + [e], sub, if sub.registered then [e] else [])
  {
    var vis := VisibleTo(sub.tenant);
    FilterConcat(vis, log, [e]);
    FilterConcat(vis, sub.live, [e]);
    assert sub.live + [] == sub.live;
    if sub.registered {
      assert Pipeline(sub, [e]) == Pipeline(sub, []) + Filter(vis, [e]);
    }
  }

  lemma SendKeepsSubInv(log: seq<Event>, sub: Subscription, owed: seq<Event>)
    requires SubInv(log, sub, owed) && |owed| == 1 && |sub.live| < LIVE_BUFFER
    ensures SubInv(log, sub.(live := sub.live + owed), [])
  {
    assert sub.live + owed + [] == sub.live + owed;
  }

  lemma AppendSubs(s: State, s': State, e: Event)
    requires SubsInv(s) && s'.subs == s.subs && s'.log == s.log + [e]
    requires s.writer.Committing? && s.writer.owed == {}
    requires s'.writer.Committing? && s'.writer.owed == Registered(s.subs)
    ensures SubsInv(s')
  {
    forall i | 0 <= i < |s'.subs| ensures SubInv(s'.log, s'.subs[i], OwedTo(s', i)) {
      assert OwedTo(s, i) == [] && OwedTo(s', i) == if s.subs[i].registered then [e] else [];
      AppendKeepsSubInv(s.log, s.subs[i], e);
    }
  }

  lemma AppendStep(s: State)
    requires Inv(s)
    ensures Inv(Do(s, AppendEvent))
  {
    var s' := Do(s, AppendEvent);
    if s' != s {
      var e := s'.log[|s.log|];
      assert s'.log == s.log + [e];
      var all := Numbered(s.writer.request, |s.writer.base|);
      assert all[..s'.writer.appended] == all[..s.writer.appended] + [e];
      AppendSubs(s, s', e);
    }
  }

  /** Replacing one subscription, with the log and what the others are owed unchanged. */
  lemma ReplaceSub(s: State, s': State, i: nat)
    requires SubsInv(s) && i < |s.subs| == |s'.subs|
    requires s'.log == s.log
    requires forall j :: 0 <= j < |s.subs| && j != i ==> s'.subs[j] == s.subs[j] && OwedTo(s', j) == OwedTo(s, j)
    requires SubInv(s.log, s'.subs[i], OwedTo(s', i))
    ensures SubsInv(s')
  {
    forall j | 0 <= j < |s'.subs| ensures SubInv(s'.log, s'.subs[j], OwedTo(s', j)) {
      if j != i {
        assert SubInv(s.log, s.subs[j], OwedTo(s, j));
      }
    }
  }

  lemma SendStep(s: State, i: nat)
    requires Inv(s)
    ensures Inv(Do(s, Send(i)))
  {
    var s' := Do(s, Send(i));
    if s' != s {
      SendKeepsSubInv(s.log, s.subs[i], OwedTo(s, i));
      ReplaceSub(s, s', i);
    }
  }

  lemma EndStep(s: State)
    requires Inv(s)
    ensures Inv(Do(s, EndCommit))
  {
    var s' := Do(s, EndCommit);
    if s' != s {
      var r, base := s.writer.request, s.writer.base;
      assert s'.accepted[..|s.accepted|] == s.accepted;
      assert Numbered(r, |base|)[..|r.batch|] == Numbered(r, |base|);
      assert forall i :: 0 <= i < |s.subs| ==> OwedTo(s', i) == OwedTo(s, i);
    }
  }

  /** A new subscriber starts with the whole visible log as its backlog. */
  lemma StartsComplete(log: seq<Event>, t: Option<Uuid>)
    ensures SubInv(log, Subscription(t, Filter(VisibleTo(t), log), [], [], [], false, true, true), [])
  {
    assert [] + [] + Filter(VisibleTo(t), log) + Filter(VisibleTo(t), []) == Filter(VisibleTo(t), log);
  }

  lemma SubscribeStep(s: State, t: Option<Uuid>)
    requires Inv(s)
    ensures Inv(Do(s, Subscribe(t)))
  {
    var s' := Do(s, Subscribe(t));
    if s' != s {
      StartsComplete(s.log, t);
      forall i | 0 <= i < |s'.subs| ensures SubInv(s'.log, s'.subs[i], OwedTo(s', i)) {
        if i < |s.subs| {
          assert SubInv(s.log, s.subs[i], OwedTo(s, i));
        }
      }
    }
  }

  /** A subscriber may be replaced by any other in the same place of the same pipeline. */
  lemma SwapSub(s: State, i: nat, sub: Subscription)
    requires Inv(s) && i < |s.subs| && SubInv(s.log, sub, OwedTo(s, i))
    ensures Inv(s.(subs := s.subs[i := sub]))
  {
    var s' := s.(subs := s.subs[i := sub]);
    assert forall j :: 0 <= j < |s.subs| ==> OwedTo(s', j) == OwedTo(s, j);
    ReplaceSub(s, s', i);
  }

  lemma LocalStep(s: State, i: nat, act: Act)
    requires Inv(s) && i < |s.subs|
    ensures Inv(Do(s, Local(i, act)))
  {
    OwnKeepsSubInv(s.log, s.subs[i], OwedTo(s, i), act);
    SwapSub(s, i, Own(s.subs[i], act));
  }

  lemma UnregisterStep(s: State, i: nat)
    requires Inv(s)
    ensures Inv(Do(s, Unregister(i)))
  {
    if s.writer.Idle? && i < |s.subs| && !s.subs[i].running {
      SwapSub(s, i, s.subs[i].(registered := false));
    }
  }

  lemma BeginStep(s: State, r: Request)
    requires Inv(s)
    ensures Inv(Do(s, BeginCommit(r)))
  {
    var s' := Do(s, BeginCommit(r));
    assert forall j :: 0 <= j < |s.subs| ==> OwedTo(s', j) == OwedTo(s, j);
  }

  lemma StepKeepsInv(s: State, step: Step)
    requires Inv(s)
    ensures Inv(Do(s, step))
  {
    match step {
      case BeginCommit(r) => BeginStep(s, r);
      case AppendEvent => AppendStep(s);
      case Send(i) => SendStep(s, i);
      case EndCommit => EndStep(s);
      case Subscribe(t) => SubscribeStep(s, t);
      case Unregister(i) => UnregisterStep(s, i);
      case Local(i, act) => if i < |s.subs| { LocalStep(s, i, act); }
    }
  }

  lemma {:induction false} EveryRun(steps: seq<Step>)
    ensures Inv(Exec(steps))
  {
    if steps != [] {
      EveryRun(steps[..|steps| - 1]);
      StepKeepsInv(Exec(steps[..|steps| - 1]), steps[|steps| - 1]);
    }
  }

  // ---- what subscribers and readers can rely on ----

  /**
   * In every interleaving, what a subscriber has received, cancelled or not, is a prefix of
   * its tenant's log, in strictly ascending GlobalID order; while it is not cancelled nothing
   * is missing between the log and the consumer.
   */
  lemma StreamIsGapFree(steps: seq<Step>, i: nat)
    requires i < |Exec(steps).subs|
    ensures var s := Exec(steps);
            var sub := s.subs[i];
            && sub.delivered <= Filter(VisibleTo(sub.tenant), s.log)
            && (forall a, b :: 0 <= a < b < |sub.delivered| ==> sub.delivered[a].globalID < sub.delivered[b].globalID)
            && (!sub.cancelled ==>
                  sub.delivered + sub.inHand + sub.backlog
                    + Filter(VisibleTo(sub.tenant), sub.live) + Filter(VisibleTo(sub.tenant), OwedTo(s, i))
                  == Filter(VisibleTo(sub.tenant), s.log))
  {
    var s := Exec(steps);
    var sub := s.subs[i];
    var vis := VisibleTo(sub.tenant);
    EveryRun(steps);
    FilterAscending(vis, s.log);
    var seen := Filter(vis, s.log);
    assert forall a :: 0 <= a < |sub.delivered| ==> sub.delivered[a] == seen[a];
    FilterConcat(vis, sub.live, OwedTo(s, i));
  }

  /**
   * In terms of the log: all a subscriber receives is of its tenant or shared, and while it is
   * not cancelled each such event of the log has been received, is on its way, or is being sent.
   */
  lemma SubscriberIsOwed(steps: seq<Step>, i: nat)
    requires i < |Exec(steps).subs|
    ensures var s := Exec(steps);
            var sub := s.subs[i];
            && (forall e :: e in sub.delivered ==> e in s.log && Readable(e, sub.tenant))
            && (!sub.cancelled ==> forall e ::
                  e in sub.delivered + sub.inHand + sub.backlog || (e in sub.live + OwedTo(s, i) && Readable(e, sub.tenant))
                  <==> e in s.log && Readable(e, sub.tenant))
  {
    var s := Exec(steps);
    var sub := s.subs[i];
    var vis := VisibleTo(sub.tenant);
    EveryRun(steps);
    forall e ensures vis(e) <==> Readable(e, sub.tenant) {
    }
    forall e ensures e in Filter(vis, s.log) <==> e in s.log && Readable(e, sub.tenant) {
      FilterMember(vis, s.log, e);
    }
    forall e ensures e in Filter(vis, sub.live + OwedTo(s, i)) <==> e in sub.live + OwedTo(s, i) && Readable(e, sub.tenant) {
      FilterMember(vis, sub.live + OwedTo(s, i), e);
    }
    forall e | e in sub.delivered ensures e in Filter(vis, s.log) {
    }
    if !sub.cancelled {
      assert Pipeline(sub, OwedTo(s, i)) == Filter(vis, s.log);
    }
  }

  /** Whenever the lock is free the log is exactly the accepted commits, each applied whole. */
  lemma CommitsAreAtomic(steps: seq<Step>)
    ensures Exec(steps).writer.Idle? ==> Exec(steps).log == Serial(Exec(steps).accepted)
    ensures Exec(steps).writer.Committing? ==> Serial(Exec(steps).accepted) <= Exec(steps).log
  {
    EveryRun(steps);
  }

  ghost predicate Extends(s: State, s': State) {
    && s.log <= s'.log
    && |s.subs| <= |s'.subs|
    && forall i :: 0 <= i < |s.subs| ==>
         s'.subs[i].tenant == s.subs[i].tenant && s.subs[i].delivered <= s'.subs[i].delivered
  }

  lemma StepExtends(s: State, step: Step)
    ensures Extends(s, Do(s, step))
  {
  }

  /** Nothing logged or received is ever taken back. */
  lemma {:induction false} OnlyGrows(steps: seq<Step>, more: seq<Step>)
    ensures Extends(Exec(steps), Exec(steps + more))
  {
    if more == [] {
      assert steps + more == steps;
    } else {
      var init, last := more[..|more| - 1], more[|more| - 1];
      OnlyGrows(steps, init);
      StepExtends(Exec(steps + init), last);
      assert steps + more == (steps + init) + [last];
      assert ((steps + init) + [last])[..|steps + init|] == steps + init;
    }
  }
}
