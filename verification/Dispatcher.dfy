/** Fanning one event out: projectors in registration order up to the first failure, reactors regardless. */
module Dispatcher {
  import opened Common
  import opened Events

  /** An exact name, or a prefix when the pattern ends in '*'. */
  predicate PatternMatches(pattern: string, name: string) {
    pattern == name || (|pattern| > 0 && pattern[|pattern| - 1] == '*' && pattern[..|pattern| - 1] <= name)
  }

  lemma PatternMatchesIff(pattern: string, name: string)
    ensures PatternMatches(pattern, name) <==> pattern == name || exists prefix :: pattern == prefix + "*" && prefix <= name
  {
    if PatternMatches(pattern, name) && pattern != name {
      assert pattern == pattern[..|pattern| - 1] + "*";
    }
  }

  datatype Kind = Projector | Reactor

  /** A listener acts on the read-side state W and reports whether it succeeded. */
  datatype Listener<!W> = Listener(kind: Kind, handle: (W, Event) -> (W, bool))

  datatype Registration<!W> = Registration(pattern: string, listener: Listener<W>)

  function MatchedBy<W>(name: string): Registration<W> -> bool {
    (r: Registration<W>) => PatternMatches(r.pattern, name)
  }

  function Listeners<W>(rs: seq<Registration<W>>): seq<Listener<W>> {
    seq(|rs|, i requires 0 <= i < |rs| => rs[i].listener)
  }

  function IsProjector<W>(): Listener<W> -> bool {
    (l: Listener<W>) => l.kind == Projector
  }

  function IsReactor<W>(): Listener<W> -> bool {
    (l: Listener<W>) => l.kind == Reactor
  }

  // ---- who is called ----

  /** The listeners of one kind that an event of the name calls. */
  function Called<W>(rs: seq<Registration<W>>, name: string, kind: Kind): seq<Listener<W>> {
    if rs == [] then []
    else
      var r := rs[|rs| - 1];
      Called(rs[..|rs| - 1], name, kind) + if r.listener.kind == kind && PatternMatches(r.pattern, name) then [r.listener] else []
  }

  /** Where they are registered. */
  function Places<W>(rs: seq<Registration<W>>, name: string, kind: Kind): seq<nat> {
    if rs == [] then []
    else
      var r := rs[|rs| - 1];
      Places(rs[..|rs| - 1], name, kind) + if r.listener.kind == kind && PatternMatches(r.pattern, name) then [|rs| - 1] else []
  }

  lemma {:induction false} PlacesAscend<W>(rs: seq<Registration<W>>, name: string, kind: Kind)
    ensures var ls, at := Called(rs, name, kind), Places(rs, name, kind);
            && |ls| == |at|
            && (forall j, k :: 0 <= j < k < |at| ==> at[j] < at[k])
            && forall j :: 0 <= j < |at| ==> at[j] < |rs| && ls[j] == rs[at[j]].listener
  {
    if rs != [] {
      PlacesAscend(rs[..|rs| - 1], name, kind);
    }
  }

  lemma {:induction false} PlacesMatch<W>(rs: seq<Registration<W>>, name: string, kind: Kind, i: nat)
    ensures i in Places(rs, name, kind) <==> i < |rs| && rs[i].listener.kind == kind && PatternMatches(rs[i].pattern, name)
  {
    if rs != [] {
      PlacesMatch(rs[..|rs| - 1], name, kind, i);
    }
  }

  /** They are all and only the registered listeners of that kind whose pattern matches, in order. */
  lemma CalledAre<W>(rs: seq<Registration<W>>, name: string, kind: Kind)
    ensures var ls, at := Called(rs, name, kind), Places(rs, name, kind);
            && |ls| == |at|
            && (forall j, k :: 0 <= j < k < |at| ==> at[j] < at[k])
            && (forall j :: 0 <= j < |at| ==> at[j] < |rs| && ls[j] == rs[at[j]].listener)
            && forall i: nat :: i in at <==> i < |rs| && rs[i].listener.kind == kind && PatternMatches(rs[i].pattern, name)
  {
    PlacesAscend(rs, name, kind);
    forall i: nat ensures i in Places(rs, name, kind) <==> i < |rs| && rs[i].listener.kind == kind && PatternMatches(rs[i].pattern, name) {
      PlacesMatch(rs, name, kind, i);
    }
  }

  /** Looking the listeners up and then telling the kinds apart calls exactly those. */
  lemma {:induction false} LookupCalls<W>(rs: seq<Registration<W>>, name: string)
    ensures var matching := Listeners(Filter(MatchedBy(name), rs));
            && Filter(IsProjector(), matching) == Called(rs, name, Projector)
            && Filter(IsReactor(), matching) == Called(rs, name, Reactor)
  {
    if rs != [] {
      var init, r := rs[..|rs| - 1], rs[|rs| - 1];
      LookupCalls(init, name);
      var matching := Listeners(Filter(MatchedBy(name), init));
      if PatternMatches(r.pattern, name) {
        assert Listeners(Filter(MatchedBy(name), init) + [r]) == matching + [r.listener];
        FilterPush(IsProjector(), matching, r.listener);
        FilterPush(IsReactor(), matching, r.listener);
      }
    }
  }

  // ---- the projector chain ----

  /** The state after all of ps have run, each on what the one before left. */
  function After<W>(ps: seq<Listener<W>>, w: W, e: Event): W {
    if ps == [] then w else ps[|ps| - 1].handle(After(ps[..|ps| - 1], w, e), e).0
  }

  /** The k-th projector, run after the k before it, reports an error. */
  predicate FailsAt<W>(ps: seq<Listener<W>>, k: nat, w: W, e: Event)
    requires k < |ps|
  {
    !ps[k].handle(After(ps[..k], w, e), e).1
  }

  class EventDispatcher<W> {
    var registrations: seq<Registration<W>>
    var withSideEffects: bool

    constructor ()
      ensures registrations == [] && withSideEffects
    {
      registrations, withSideEffects := [], true;
    }

    method HandleSideEffects(v: bool)
      modifies this
      ensures withSideEffects == v && registrations == old(registrations)
    {
      withSideEffects := v;
    }

    method Subscribe(pattern: string, listener: Listener<W>)
      modifies this
      ensures registrations == old(registrations) + [Registration(pattern, listener)]
      ensures withSideEffects == old(withSideEffects)
    {
      registrations := registrations + [Registration(pattern, listener)];
    }

    method GetListenersForEvent(e: Event) returns (out: seq<Listener<W>>)
      ensures out == Listeners(Filter(MatchedBy(e.name), registrations))
    {
      out := [];
      for i := 0 to |registrations|
        invariant out == Listeners(Filter(MatchedBy(e.name), registrations[..i]))
      {
        var r := registrations[i];
        FilterStep(MatchedBy(e.name), registrations, i);
        if PatternMatches(r.pattern, e.name) {
          out := out + [r.listener];
        }
      }
      assert registrations[..|registrations|] == registrations;
    }

    /**
     * ran is how many projectors ran. Each ran on what the previous one left, in registration
     * order; all of them ran unless one failed, and that one was the last. Every matching
     * reactor was started, unless side effects are off, whatever the projectors did.
     */
    method Dispatch(w: W, e: Event) returns (w': W, ok: bool, started: seq<Listener<W>>, ran: nat)
      ensures started == if withSideEffects then Called(registrations, e.name, Reactor) else []
      ensures Progress(Called(registrations, e.name, Projector), w, e, w', ok, ran)
    {
      var listeners := GetListenersForEvent(e);
      ghost var ps: seq<Listener<W>> := [];
      w', ok, started, ran := w, true, [], 0;
      for i := 0 to |listeners|
        invariant ps == Filter(IsProjector(), listeners[..i])
        invariant started == if withSideEffects then Filter(IsReactor(), listeners[..i]) else []
        invariant Progress(ps, w, e, w', ok, ran)
      {
        var h := listeners[i];
        FilterStep(IsProjector(), listeners, i);
        FilterStep(IsReactor(), listeners, i);
        if h.kind == Reactor {
          if !withSideEffects {
            continue;
          }
          started := started + [h];
          continue;
        }
        ProgressPush(ps, h, w, e, w', ok, ran);
        ps := ps + [h];
        if !ok {
          continue;
        }
        var r := h.handle(w', e);
        w', ok, ran := r.0, r.1, ran + 1;
      }
      assert listeners[..|listeners|] == listeners;
      LookupCalls(registrations, e.name);
    }
  }

  /** The projector chain so far: run to its end, or stopped at its first failure. */
  ghost predicate Progress<W>(ps: seq<Listener<W>>, w: W, e: Event, w': W, ok: bool, ran: nat) {
    && ran <= |ps|
    && w' == After(ps[..ran], w, e)
    && (forall k :: 0 <= k < ran ==> (FailsAt(ps, k, w, e) <==> !ok && k == ran - 1))
    && (ok ==> ran == |ps|)
    && (!ok ==> ran > 0)
  }

  lemma ProgressPush<W>(ps: seq<Listener<W>>, h: Listener<W>, w: W, e: Event, w': W, ok: bool, ran: nat)
    requires Progress(ps, w, e, w', ok, ran)
    ensures !ok ==> Progress(ps + [h], w, e, w', ok, ran)
    ensures ok ==> var r := h.handle(w', e); Progress(ps + [h], w, e, r.0, r.1, ran + 1)
  {
    var ps' := ps + [h];
    assert forall k :: 0 <= k <= |ps| ==> ps'[..k] == ps[..k];
    assert forall k :: 0 <= k < |ps| ==> (FailsAt(ps', k, w, e) <==> FailsAt(ps, k, w, e));
    assert ps'[..|ps'|] == ps';
    assert ps[..|ps|] == ps;
  }

  /** The user example's email reactor is started for a user registered with side effects on. */
  method WelcomeMailIsStarted<W>(mail: (W, Event) -> (W, bool), w: W, e: Event) returns (started: seq<Listener<W>>)
    requires e.name == "user.registered"
    ensures started == [Listener(Reactor, mail)]
  {
    var d := new EventDispatcher<W>();
    d.Subscribe("user.registered", Listener(Reactor, mail));
    var _, _, out, _ := d.Dispatch(w, e);
    started := out;
    CalledAre(d.registrations, "user.registered", Reactor);
    assert 0 in Places(d.registrations, "user.registered", Reactor);
  }
}
