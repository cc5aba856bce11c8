/** What gets through: an accepted commit reaches the log, and subscribers receive it. */
module LiveProgress {
  import opened Common
  import opened Events
  import opened EventLog
  import opened LiveStream

  ghost function Run(): seq<Step> -> State {
    steps => Exec(steps)
  }

  lemma StepLeads(s: State, step: Step, s': State)
    requires Do(s, step) == s'
    ensures Leads(Run(), [step], s, s')
  {
    forall steps | Run()(steps) == s ensures Run()(steps + [step]) == s' {
      assert (steps + [step])[..|steps|] == steps;
    }
  }

  // ---- subscribers ----

  /** The goroutine's turn: offer what is in hand, then the next of the backlog, then take the next live event. */
  function Turn(sub: Subscription): Subscription {
    Own(Own(Own(sub, ForwardLive), ForwardBacklog), TakeLive)
  }

  function Turned(sub: Subscription, n: nat): Subscription {
    if n == 0 then sub else Turn(Turned(sub, n - 1))
  }

  function Ahead(sub: Subscription): nat {
    |sub.backlog| + 2 * |sub.live| + |sub.inHand|
  }

  lemma TurnMoves(sub: Subscription)
    requires sub.running
    ensures var sub' := Turn(sub);
            && sub'.running && sub'.cancelled == sub.cancelled && sub'.tenant == sub.tenant
            && (Ahead(sub) > 0 ==> Ahead(sub') < Ahead(sub))
            && (Ahead(sub) == 0 ==> Ahead(sub') == 0)
  {
  }

  lemma {:induction false} TurnsEmpty(sub: Subscription, n: nat)
    requires sub.running
    ensures var sub' := Turned(sub, n);
            && sub'.running && sub'.cancelled == sub.cancelled && sub'.tenant == sub.tenant
            && Ahead(sub') <= if n <= Ahead(sub) then Ahead(sub) - n else 0
  {
    if n > 0 {
      TurnsEmpty(sub, n - 1);
      TurnMoves(Turned(sub, n - 1));
    }
  }

  function TurnSteps(i: nat): seq<Step> {
    [Local(i, ForwardLive)] + [Local(i, ForwardBacklog)] + [Local(i, TakeLive)]
  }

  lemma TurnLeads(s: State, i: nat)
    requires i < |s.subs|
    ensures Leads(Run(), TurnSteps(i), s, s.(subs := s.subs[i := Turn(s.subs[i])]))
  {
    var s1 := s.(subs := s.subs[i := Own(s.subs[i], ForwardLive)]);
    var s2 := s.(subs := s.subs[i := Own(s1.subs[i], ForwardBacklog)]);
    StepLeads(s, Local(i, ForwardLive), s1);
    StepLeads(s1, Local(i, ForwardBacklog), s2);
    StepLeads(s2, Local(i, TakeLive), s.(subs := s.subs[i := Turn(s.subs[i])]));
    LeadsThen(Run(), [Local(i, ForwardLive)], [Local(i, ForwardBacklog)], s, s1, s2);
    LeadsThen(Run(), [Local(i, ForwardLive)] + [Local(i, ForwardBacklog)], [Local(i, TakeLive)], s, s2, s.(subs := s.subs[i := Turn(s.subs[i])]));
  }

  function Turns(i: nat, n: nat): seq<Step> {
    Blocks(_ => TurnSteps(i), n)
  }

  function AfterTurns(s: State, i: nat, n: nat): State
    requires i < |s.subs|
  {
    s.(subs := s.subs[i := Turned(s.subs[i], n)])
  }

  ghost predicate Advances(s: State, i: nat, n: nat)
    requires i < |s.subs|
  {
    Leads(Run(), TurnSteps(i), AfterTurns(s, i, n), AfterTurns(s, i, n + 1))
  }

  lemma NextTurn(s: State, i: nat, n: nat)
    requires i < |s.subs|
    ensures Advances(s, i, n)
  {
    var now := AfterTurns(s, i, n);
    TurnLeads(now, i);
    assert now.subs[i := Turn(now.subs[i])] == s.subs[i := Turned(s.subs[i], n + 1)];
  }

  lemma TurnsLead(s: State, i: nat, n: nat)
    requires i < |s.subs| && forall k :: 0 <= k < n ==> Advances(s, i, k)
    ensures Leads(Run(), Turns(i, n), AfterTurns(s, i, 0), AfterTurns(s, i, n))
  {
    var at := (k: nat) => AfterTurns(s, i, k);
    forall k: nat | k < n ensures Leads(Run(), TurnSteps(i), at(k), at(k + 1)) {
      assert Advances(s, i, k);
    }
    BlocksLead(Run(), _ => TurnSteps(i), at, n);
  }

  lemma NoTurnsYet(s: State, i: nat)
    requires i < |s.subs|
    ensures AfterTurns(s, i, 0) == s
  {
  }

  /**
   * From any state of any run, a subscriber that is not cancelled and left to its own turns has
   * soon received exactly what its tenant may read of the log, unless an event is being sent.
   */
  lemma SubscriberCatchesUp(steps: seq<Step>, i: nat)
    requires i < |Exec(steps).subs| && !Exec(steps).subs[i].cancelled && OwedTo(Exec(steps), i) == []
    ensures var s := Exec(steps);
            var s' := Exec(steps + Turns(i, Ahead(s.subs[i])));
            && s'.log == s.log && |s'.subs| == |s.subs| && s'.subs[i].tenant == s.subs[i].tenant
            && Ascending(s'.subs[i].delivered)
            && forall e :: e in s'.subs[i].delivered <==> e in s.log && Readable(e, s.subs[i].tenant)
  {
    var s := Exec(steps);
    var sub, n := s.subs[i], Ahead(s.subs[i]);
    EveryRun(steps);
    assert SubInv(s.log, sub, OwedTo(s, i));
    forall k | 0 <= k < n ensures Advances(s, i, k) {
      NextTurn(s, i, k);
    }
    TurnsLead(s, i, n);
    NoTurnsYet(s, i);
    assert Run()(steps) == s;
    TurnsEmpty(sub, n);
    EveryRun(steps + Turns(i, n));
    var s' := Exec(steps + Turns(i, n));
    assert SubInv(s'.log, s'.subs[i], OwedTo(s', i)) && OwedTo(s', i) == [];
    assert s'.subs[i].delivered == Filter(VisibleTo(sub.tenant), s.log);
    FilterAscending(VisibleTo(sub.tenant), s.log);
    forall e ensures e in s'.subs[i].delivered <==> e in s.log && Readable(e, sub.tenant) {
      FilterMember(VisibleTo(sub.tenant), s.log, e);
    }
  }

  // ---- commits ----

  /** Every registered subscriber has room for n more events. */
  ghost predicate Room(s: State, n: nat) {
    forall i :: 0 <= i < |s.subs| && s.subs[i].registered ==> |s.subs[i].live| + n <= LIVE_BUFFER
  }

  function Got(sub: Subscription, e: Event): Subscription {
    if sub.registered then sub.(live := sub.live + [e]) else sub
  }

  /** The commit has sent e to the first n subscribers. */
  function Sent(s: State, e: Event, n: nat): State
    requires s.writer.Committing?
  {
    s.(subs := seq(|s.subs|, i requires 0 <= i < |s.subs| => if i < n then Got(s.subs[i], e) else s.subs[i]),
       writer := s.writer.(owed := set i | i in s.writer.owed && i >= n))
  }

  /** Send(i) does nothing where subscriber i is not registered. */
  lemma NextSend(s: State, e: Event, n: nat)
    requires s.writer.Committing? && s.writer.owed == Registered(s.subs) && s.log != [] && s.log[|s.log| - 1] == e
    requires n < |s.subs| && Room(s, 1)
    ensures Do(Sent(s, e, n), Send(n)) == Sent(s, e, n + 1)
  {
    var now, next := Sent(s, e, n), Sent(s, e, n + 1);
    assert s.log[|s.log| - 1..] == [e];
    if s.subs[n].registered {
      assert next.subs == now.subs[n := Got(s.subs[n], e)];
      assert next.writer.owed == now.writer.owed - {n};
    } else {
      assert next.subs == now.subs;
      assert next.writer.owed == now.writer.owed;
    }
  }

  /** Appending the next event of the batch and sending it to everybody. */
  function EventSteps(n: nat): seq<Step> {
    [AppendEvent] + Blocks(i => [Send(i)], n)
  }

  lemma SendsLead(s: State, e: Event)
    requires s.writer.Committing? && s.writer.owed == Registered(s.subs) && s.log != [] && s.log[|s.log| - 1] == e && Room(s, 1)
    ensures Leads(Run(), Blocks(i => [Send(i)], |s.subs|), s, Sent(s, e, |s.subs|))
  {
    var at := (n: nat) => Sent(s, e, n);
    assert Sent(s, e, 0).subs == s.subs && Sent(s, e, 0).writer.owed == s.writer.owed;
    assert at(0) == s;
    forall n: nat | n < |s.subs| ensures Leads(Run(), [Send(n)], at(n), at(n + 1)) {
      NextSend(s, e, n);
      StepLeads(at(n), Send(n), at(n + 1));
    }
    BlocksLead(Run(), i => [Send(i)], at, |s.subs|);
  }

  /** The commit of r once it has appended and sent its first n events. */
  function Underway(s: State, r: Request, n: nat): State
    requires n <= |r.batch|
  {
    var es := Numbered(r, |s.log|)[..n];
    s.(log := s.log + es,
       subs := seq(|s.subs|, i requires 0 <= i < |s.subs| => if s.subs[i].registered then s.subs[i].(live := s.subs[i].live + es) else s.subs[i]),
       writer := Committing(s.log, r, n, {}))
  }

  lemma NextEvent(s: State, r: Request, n: nat)
    requires s.writer.Idle? && n < |r.batch| && Room(s, |r.batch|)
    ensures Leads(Run(), EventSteps(|s.subs|), Underway(s, r, n), Underway(s, r, n + 1))
  {
    var now, next := Underway(s, r, n), Underway(s, r, n + 1);
    var e := Numbered(r, |s.log|)[n];
    var appended := now.(log := now.log + [e], writer := now.writer.(appended := n + 1, owed := Registered(now.subs)));
    StepLeads(now, AppendEvent, appended);
    assert Room(appended, 1);
    SendsLead(appended, e);
    SentAll(s, r, n, appended);
    LeadsThen(Run(), [AppendEvent], Blocks(i => [Send(i)], |s.subs|), now, appended, next);
  }

  lemma SentAll(s: State, r: Request, n: nat, appended: State)
    requires s.writer.Idle? && n < |r.batch|
    requires var now := Underway(s, r, n);
             appended == now.(log := now.log + [Numbered(r, |s.log|)[n]], writer := now.writer.(appended := n + 1, owed := Registered(now.subs)))
    ensures Sent(appended, Numbered(r, |s.log|)[n], |s.subs|) == Underway(s, r, n + 1)
  {
    var all := Numbered(r, |s.log|);
    var sent, next := Sent(appended, all[n], |s.subs|), Underway(s, r, n + 1);
    assert all[..n + 1] == all[..n] + [all[n]];
    assert sent.log == next.log;
    assert sent.subs == next.subs by {
      forall i | 0 <= i < |s.subs| ensures sent.subs[i] == next.subs[i] {
        assert s.subs[i].live + all[..n] + [all[n]] == s.subs[i].live + all[..n + 1];
      }
    }
    assert sent.writer.owed == {};
  }

  /** A commit that nobody gets in the way of. */
  function CommitSteps(r: Request, subs: nat): seq<Step> {
    [BeginCommit(r)] + Blocks(_ => EventSteps(subs), |r.batch|) + [EndCommit]
  }

  /**
   * From any state of any run in which the lock is free and the subscribers have room, a batch
   * that EventLog.Commit accepts gets through: the log becomes what that function answers, the
   * lock is free again, and every registered subscriber's channel has gained the whole batch.
   */
  lemma CommitGetsThrough(steps: seq<Step>, r: Request)
    requires Exec(steps).writer.Idle? && Room(Exec(steps), |r.batch|)
    requires r.batch != [] && SingleStream(r.tenant, r.batch)
    requires EventLog.Commit(Exec(steps).log, r.batch, r.expected, r.tenant).Ok?
    ensures var s := Exec(steps);
            var s' := Exec(steps + CommitSteps(r, |s.subs|));
            && Ok(s'.log) == EventLog.Commit(s.log, r.batch, r.expected, r.tenant)
            && s'.writer.Idle? && s'.accepted == s.accepted + [r]
            && |s'.subs| == |s.subs|
            && forall i :: 0 <= i < |s.subs| && s.subs[i].registered ==> s'.subs[i].live == s.subs[i].live + s'.log[|s.log|..]
  {
    var s, n := Exec(steps), |r.batch|;
    var done := Underway(s, r, n);
    var end := done.(writer := Idle, accepted := s.accepted + [r]);
    var at := (k: nat) => if k <= n then Underway(s, r, k) else s;
    BeginLeads(s, r);
    forall k: nat | k < n ensures Leads(Run(), EventSteps(|s.subs|), at(k), at(k + 1)) {
      NextEvent(s, r, k);
    }
    BlocksLead(Run(), _ => EventSteps(|s.subs|), at, n);
    StepLeads(done, EndCommit, end);
    LeadsThen(Run(), [BeginCommit(r)], Blocks(_ => EventSteps(|s.subs|), n), s, at(0), done);
    LeadsThen(Run(), [BeginCommit(r)] + Blocks(_ => EventSteps(|s.subs|), n), [EndCommit], s, done, end);
    assert Run()(steps) == s;
    assert Numbered(r, |s.log|)[..n] == Numbered(r, |s.log|);
  }

  lemma BeginLeads(s: State, r: Request)
    requires s.writer.Idle? && Acceptable(s.log, r)
    ensures Leads(Run(), [BeginCommit(r)], s, Underway(s, r, 0))
  {
    var begun := Underway(s, r, 0);
    assert begun.log == s.log;
    assert begun.subs == s.subs by {
      forall i | 0 <= i < |s.subs| ensures begun.subs[i] == s.subs[i] {
        assert s.subs[i].live + [] == s.subs[i].live;
      }
    }
    StepLeads(s, BeginCommit(r), begun);
  }
}
