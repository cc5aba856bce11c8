/** Versioned waiters: a channel closes once its aggregate has been projected far enough. */
module Waiters {
  import opened Common

  /** Channels are numbered in the order they are made. */
  type Channel = nat

  datatype Waiter = Waiter(minVersion: nat, ch: Channel)

  /** A call of Subscribe: the i-th one made channel i. */
  datatype Subscription = Subscription(id: Uuid, minVersion: nat)

  datatype Model = Model(
    lastProjected: map<Uuid, nat>,
    waiters: map<Uuid, seq<Waiter>>,
    made: seq<Subscription>,
    closed: set<Channel>)

  const EMPTY := Model(map[], map[], [], {})

  function Projected(m: Model, id: Uuid): nat {
    if id in m.lastProjected then m.lastProjected[id] else 0
  }

  function Waiting(m: Model, id: Uuid): seq<Waiter> {
    if id in m.waiters then m.waiters[id] else []
  }

  function Unsatisfied(version: nat): Waiter -> bool {
    (w: Waiter) => version < w.minVersion
  }

  ghost function Satisfied(ws: seq<Waiter>, version: nat): set<Channel> {
    set w | w in ws && w.minVersion <= version :: w.ch
  }

  ghost function Subscribe(m: Model, id: Uuid, minVersion: nat): Model {
    var made, ch := m.made + [Subscription(id, minVersion)], |m.made|;
    if minVersion <= Projected(m, id) then m.(made := made, closed := m.closed + {ch})
    else m.(made := made, waiters := m.waiters[id := Waiting(m, id) + [Waiter(minVersion, ch)]])
  }

  ghost function Notify(m: Model, id: Uuid, version: nat): Model {
    var rest := Filter(Unsatisfied(version), Waiting(m, id));
    m.(lastProjected := if Projected(m, id) < version then m.lastProjected[id := version] else m.lastProjected,
       waiters := if rest == [] then m.waiters - {id} else m.waiters[id := rest],
       closed := m.closed + Satisfied(Waiting(m, id), version))
  }

  /** A channel is closed exactly when its aggregate has been projected to its version; else it waits. */
  ghost predicate ChannelInv(m: Model, ch: Channel)
    requires ch < |m.made|
  {
    var sub := m.made[ch];
    && (ch in m.closed <==> sub.minVersion <= Projected(m, sub.id))
    && (ch !in m.closed ==> Waiter(sub.minVersion, ch) in Waiting(m, sub.id))
  }

  /** An aggregate's waiters are open channels of its own subscriptions, in the order they subscribed. */
  ghost predicate ListInv(m: Model, id: Uuid) {
    && InOrder(Waiting(m, id))
    && (id in m.waiters ==> m.waiters[id] != [])
    && forall w :: w in Waiting(m, id) ==>
         w.ch < |m.made| && m.made[w.ch] == Subscription(id, w.minVersion) && w.ch !in m.closed
  }

  ghost predicate Consistent(m: Model) {
    && (forall ch :: ch in m.closed ==> ch < |m.made|)
    && (forall ch :: 0 <= ch < |m.made| ==> ChannelInv(m, ch))
    && (forall id :: ListInv(m, id))
  }

  ghost predicate InOrder(ws: seq<Waiter>) {
    forall i, j :: 0 <= i < j < |ws| ==> ws[i].ch < ws[j].ch
  }

  // ---- every history of calls ----

  datatype Call = Subscribed(id: Uuid, minVersion: nat) | Notified(id: Uuid, version: nat)

  ghost function Exec(calls: seq<Call>): Model {
    if calls == [] then EMPTY
    else
      var m := Exec(calls[..|calls| - 1]);
      match calls[|calls| - 1]
      case Subscribed(id, v) => Subscribe(m, id, v)
      case Notified(id, v) => Notify(m, id, v)
  }

  function Subscriptions(calls: seq<Call>): seq<Subscription> {
    if calls == [] then []
    else
      var init, c := Subscriptions(calls[..|calls| - 1]), calls[|calls| - 1];
      if c.Subscribed? then init + [Subscription(c.id, c.minVersion)] else init
  }

  /** The highest version of the aggregate any notification carried. */
  function MaxNotified(calls: seq<Call>, id: Uuid): nat {
    if calls == [] then 0
    else
      var m, c := MaxNotified(calls[..|calls| - 1], id), calls[|calls| - 1];
      if c.Notified? && c.id == id && m < c.version then c.version else m
  }

  lemma PushInOrder(ws: seq<Waiter>, w: Waiter)
    requires InOrder(ws) && forall x :: x in ws ==> x.ch < w.ch
    ensures InOrder(ws + [w])
    ensures forall x :: x in ws + [w] <==> x in ws || x == w
  {
  }

  lemma SubscribeKeepsConsistent(m: Model, id: Uuid, v: nat)
    requires Consistent(m)
    ensures Consistent(Subscribe(m, id, v))
  {
    var m' := Subscribe(m, id, v);
    forall j ensures ListInv(m', j) {
      assert ListInv(m, j);
      if j == id && Projected(m, id) < v {
        PushInOrder(Waiting(m, id), Waiter(v, |m.made|));
      }
    }
    forall ch | 0 <= ch < |m'.made| ensures ChannelInv(m', ch) {
      if ch < |m.made| {
        assert ChannelInv(m, ch);
      }
    }
  }

  lemma {:induction false} UnsatisfiedInOrder(ws: seq<Waiter>, version: nat)
    requires InOrder(ws)
    ensures InOrder(Filter(Unsatisfied(version), ws))
    ensures forall w :: w in Filter(Unsatisfied(version), ws) <==> w in ws && version < w.minVersion
  {
    if ws != [] {
      var init, last := ws[..|ws| - 1], ws[|ws| - 1];
      assert ws == init + [last];
      UnsatisfiedInOrder(init, version);
      assert forall w :: w in init ==> w.ch < last.ch;
    }
  }

  lemma NotifyKeepsConsistent(m: Model, id: Uuid, v: nat)
    requires Consistent(m)
    ensures Consistent(Notify(m, id, v))
  {
    var m' := Notify(m, id, v);
    assert ListInv(m, id);
    UnsatisfiedInOrder(Waiting(m, id), v);
    forall j ensures ListInv(m', j) {
      assert ListInv(m, j);
      assert Waiting(m', j) == if j == id then Filter(Unsatisfied(v), Waiting(m, id)) else Waiting(m, j);
    }
    forall ch | 0 <= ch < |m.made| ensures ChannelInv(m', ch) {
      assert ChannelInv(m, ch);
      var w := Waiter(m.made[ch].minVersion, ch);
      assert ch !in m.closed ==> (ch in Satisfied(Waiting(m, id), v) <==> m.made[ch].id == id && w.minVersion <= v);
    }
  }

  lemma {:induction false} HistoryConsistent(calls: seq<Call>)
    ensures var m := Exec(calls);
            && Consistent(m)
            && m.made == Subscriptions(calls)
            && (forall id :: Projected(m, id) == MaxNotified(calls, id))
  {
    if calls != [] {
      var init, last := calls[..|calls| - 1], calls[|calls| - 1];
      HistoryConsistent(init);
      match last {
        case Subscribed(id, v) => SubscribeKeepsConsistent(Exec(init), id, v);
        case Notified(id, v) => NotifyKeepsConsistent(Exec(init), id, v);
      }
    }
  }

  /**
   * After any history of calls, every channel ever returned is closed exactly when some
   * notification of its aggregate, before or after the subscription, carried its minimum
   * version or more; the others are the waiters stored, in the order they subscribed.
   */
  lemma EveryHistory(calls: seq<Call>, ch: Channel)
    requires ch < |Subscriptions(calls)|
    ensures var m, sub := Exec(calls), Subscriptions(calls)[ch];
            && (ch in m.closed <==> sub.minVersion <= MaxNotified(calls, sub.id))
            && (ch in m.closed <==> Waiter(sub.minVersion, ch) !in Waiting(m, sub.id))
            && InOrder(Waiting(m, sub.id))
  {
    HistoryConsistent(calls);
    var m, sub := Exec(calls), Subscriptions(calls)[ch];
    assert ChannelInv(m, ch) && ListInv(m, sub.id);
  }

  /** What the maximum means: it is 0 or was notified, and nothing notified is above it. */
  lemma {:induction false} MaxNotifiedMeaning(calls: seq<Call>, id: Uuid)
    ensures var m := MaxNotified(calls, id);
            && (m == 0 || Notified(id, m) in calls)
            && forall v: nat :: Notified(id, v) in calls ==> v <= m
  {
    if calls != [] {
      var init := calls[..|calls| - 1];
      MaxNotifiedMeaning(init, id);
      assert calls == init + [calls[|calls| - 1]];
    }
  }
}

/** The notifier as the object that holds the waiters. */
module Notifier {
  import opened Common
  import opened Waiters

  lemma SatisfiedStep(ws: seq<Waiter>, i: nat, version: nat)
    requires i < |ws|
    ensures Satisfied(ws[..i + 1], version)
            == Satisfied(ws[..i], version) + (if ws[i].minVersion <= version then {ws[i].ch} else {})
    ensures InOrder(ws) ==> ws[i].ch !in Satisfied(ws[..i], version)
  {
    assert ws[..i + 1] == ws[..i] + [ws[i]];
  }

  class EventNotifier {
    var lastProjected: map<Uuid, nat>
    var waiters: map<Uuid, seq<Waiter>>
    var next: Channel
    var closed: set<Channel>
    ghost var made: seq<Subscription>

    ghost function Contents(): Model
      reads this
    {
      Model(lastProjected, waiters, made, closed)
    }

    ghost predicate Valid()
      reads this
    {
      next == |made| && Consistent(Contents())
    }

    constructor ()
      ensures Valid() && Contents() == EMPTY
    {
      lastProjected, waiters, next, closed, made := map[], map[], 0, {}, [];
    }

    /** Closing a channel twice would panic, so every caller must know it is open. */
    method Close(ch: Channel)
      requires ch !in closed
      modifies this`closed
      ensures closed == old(closed) + {ch}
    {
      closed := closed + {ch};
    }

    method Subscribe(id: Uuid, minVersion: nat) returns (ch: Channel)
      requires Valid()
      modifies this
      ensures Valid() && ch == |old(made)|
      ensures Contents() == Waiters.Subscribe(old(Contents()), id, minVersion)
    {
      SubscribeKeepsConsistent(Contents(), id, minVersion);
      ch := next;
      next, made := next + 1, made + [Subscription(id, minVersion)];
      if minVersion <= (if id in lastProjected then lastProjected[id] else 0) {
        Close(ch);
        return;
      }
      waiters := waiters[id := (if id in waiters then waiters[id] else []) + [Waiter(minVersion, ch)]];
    }

    /** Closes the satisfied waiters and moves the others, in order, to the front of the same slice. */
    method Compact(pending: array<Waiter>, version: nat) returns (kept: nat)
      requires forall i :: 0 <= i < pending.Length ==> pending[i].ch !in closed
      requires InOrder(pending[..])
      modifies pending, this`closed
      ensures kept <= pending.Length
      ensures pending[..kept] == Filter(Unsatisfied(version), old(pending[..]))
      ensures closed == old(closed) + Satisfied(old(pending[..]), version)
    {
      ghost var all := pending[..];
      kept := 0;
      for i := 0 to pending.Length
        invariant kept <= i
        invariant forall k :: i <= k < pending.Length ==> pending[k] == all[k]
        invariant pending[..kept] == Filter(Unsatisfied(version), all[..i])
        invariant closed == old(closed) + Satisfied(all[..i], version)
      {
        var w := pending[i];
        assert w == all[i];
        FilterStep(Unsatisfied(version), all, i);
        SatisfiedStep(all, i, version);
        if w.minVersion <= version {
          Close(w.ch);
        } else {
          pending[kept] := w;
          kept := kept + 1;
        }
      }
      assert all[..pending.Length] == all;
    }

    method Notify(id: Uuid, version: nat)
      requires Valid()
      modifies this
      ensures Valid() && next == old(next)
      ensures Contents() == Waiters.Notify(old(Contents()), id, version)
    {
      ghost var m := Contents();
      NotifyKeepsConsistent(m, id, version);
      if (if id in lastProjected then lastProjected[id] else 0) < version {
        lastProjected := lastProjected[id := version];
      }
      var slice := if id in waiters then waiters[id] else [];
      assert slice == Waiting(m, id);
      if |slice| == 0 {
        assert waiters == waiters - {id};
        assert m.closed + Satisfied([], version) == m.closed;
        return;
      }
      var pending := new Waiter[|slice|](i requires 0 <= i < |slice| => slice[i]);
      assert pending[..] == slice;
      assert ListInv(m, id);
      assert forall i :: 0 <= i < |slice| ==> slice[i] in Waiting(m, id);
      var kept := Compact(pending, version);
      if kept == 0 {
        waiters := waiters - {id};
      } else {
        waiters := waiters[id := pending[..kept]];
      }
    }
  }
}
