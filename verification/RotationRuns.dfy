/**
 * One rotation of the wrapping key while the ring stays in use: forgets and puts land between
 * any two of the rotation's own calls on the underlying store.
 */
module RotationRuns {
  import opened Common
  import opened LabelFrame
  import opened KeyRings

  /** Turning: the listed subjects, whose turn it is, and the blob read and re-wrapped but not yet written. */
  datatype Phase = Idle | Turning(subjects: seq<Uuid>, at: nat, held: Option<Bytes>) | Done | Stopped

  /** keys is the underlying store; plain is what its callers have put and not forgotten. */
  datatype State = State(keys: map<Uuid, Bytes>, plain: map<Uuid, Bytes>, phase: Phase)

  datatype Step =
    | List(order: seq<Uuid>)
    | GetNext(draw: nat)
    | PutNext
    | Finish
    | Fail
    | Forget(id: Uuid)
    | Put(id: Uuid, key: Bytes, draw: nat)

  datatype Env = Env(old': Wrapper, new': Wrapper)

  function Active(env: Env, phase: Phase): Wrapper {
    if phase == Done then env.new' else env.old'
  }

  /** What GetNext has in hand afterwards: the subject's key framed anew, unless anything fails. */
  function Reframed(env: Env, keys: map<Uuid, Bytes>, id: Uuid, draw: nat): Option<Bytes> {
    if id !in keys || Open(env.old', keys[id]).Err? then None
    else
      match env.new'.wrap(draw, Open(env.old', keys[id]).value)
      case None => None
      case Some(blob) => Some(Encode(env.new'.tag, blob))
  }

  /** One atomic step; a step that is not enabled changes nothing. */
  function Do(env: Env, s: State, step: Step): State {
    match step
    case Forget(id) => s.(keys := s.keys - {id}, plain := s.plain - {id})
    case Put(id, key, draw) =>
      var w := Active(env, s.phase);
      (match w.wrap(draw, key)
       case None => s
       case Some(blob) => s.(keys := s.keys[id := Encode(w.tag, blob)], plain := s.plain[id := key]))
    case List(order) => if s.phase == Idle && Lists(order, s.keys) then s.(phase := Turning(order, 0, None)) else s
    case Fail => if s.phase.Turning? then s.(phase := Stopped) else s
    case GetNext(draw) =>
      if s.phase.Turning? && s.phase.at < |s.phase.subjects| && s.phase.held.None? then
        var held := Reframed(env, s.keys, s.phase.subjects[s.phase.at], draw);
        s.(phase := if held.None? then Stopped else s.phase.(held := held))
      else s
    case PutNext =>
      if InHand(s.phase) then
        s.(keys := s.keys[s.phase.subjects[s.phase.at] := s.phase.held.value], phase := s.phase.(at := s.phase.at + 1, held := None))
      else s
    case Finish =>
      if s.phase.Turning? && s.phase.at == |s.phase.subjects| then s.(phase := Done) else s
  }

  predicate InHand(phase: Phase) {
    phase.Turning? && phase.at < |phase.subjects| && phase.held.Some?
  }

  function Exec(env: Env, s: State, steps: seq<Step>): State {
    if steps == [] then s else Do(env, Exec(env, s, steps[..|steps| - 1]), steps[|steps| - 1])
  }

  lemma ExecPush(env: Env, s: State, steps: seq<Step>, step: Step)
    ensures Exec(env, s, steps + [step]) == Do(env, Exec(env, s, steps), step)
  {
    assert (steps + [step])[..|steps|] == steps;
  }

  /** Nobody's key is stored but for those put and not forgotten since. */
  predicate NoneReturned(s: State) {
    s.keys.Keys == s.plain.Keys
  }

  // ---- forgetting during a rotation ----

  /** The step forgets the subject whose blob the rotation has read and not yet written back. */
  predicate InWindow(s: State, step: Step) {
    step.Forget? && InHand(s.phase) && s.phase.subjects[s.phase.at] == step.id
  }

  predicate WindowFree(env: Env, s: State, steps: seq<Step>) {
    steps != [] ==>
      && WindowFree(env, s, steps[..|steps| - 1])
      && !InWindow(Exec(env, s, steps[..|steps| - 1]), steps[|steps| - 1])
  }

  /** Nothing stored was forgotten, nor is the rotation about to store something that was. */
  predicate Settled(env: Env, s: State) {
    NoneReturned(s) && NoneReturned(Do(env, s, PutNext))
  }

  ghost predicate AlwaysSettled(env: Env, s: State, steps: seq<Step>) {
    steps != [] ==> AlwaysSettled(env, s, steps[..|steps| - 1]) && Settled(env, Exec(env, s, steps))
  }

  lemma StepSettledIff(env: Env, s: State, step: Step)
    requires Settled(env, s)
    ensures Settled(env, Do(env, s, step)) <==> !InWindow(s, step)
  {
    var s' := Do(env, s, step);
    if InHand(s.phase) {
      assert s.phase.subjects[s.phase.at] in Do(env, s, PutNext).keys;
    }
    if InHand(s'.phase) {
      var id := s'.phase.subjects[s'.phase.at];
      assert Do(env, s', PutNext).keys.Keys == s'.keys.Keys + {id};
    }
    match step {
      case Put(_, _, _) => assert s'.keys.Keys == s'.plain.Keys;
      case Forget(id) => assert s'.keys.Keys == s.keys.Keys - {id} && s'.plain.Keys == s.plain.Keys - {id};
      case PutNext => assert s'.keys.Keys == s.plain.Keys;
      case _ =>
    }
  }

  /**
   * Over any run of a rotation, forgets and puts: a forgotten key is back, or in the rotation's
   * hand to be written back next, at some moment if and only if some Forget fell between the
   * rotation's read and write of that very subject.
   */
  lemma {:induction false} AtRiskIffInWindow(env: Env, s: State, steps: seq<Step>)
    requires Settled(env, s)
    ensures AlwaysSettled(env, s, steps) <==> WindowFree(env, s, steps)
    ensures WindowFree(env, s, steps) ==> Settled(env, Exec(env, s, steps))
  {
    if steps != [] {
      var init := steps[..|steps| - 1];
      AtRiskIffInWindow(env, s, init);
      if WindowFree(env, s, init) {
        StepSettledIff(env, Exec(env, s, init), steps[|steps| - 1]);
      }
    }
  }

  /** The rotation writes a subject that has been forgotten since it was read, and not put since. */
  predicate WritesBack(s: State, step: Step) {
    step.PutNext? && InHand(s.phase) && s.phase.subjects[s.phase.at] !in s.plain
  }

  predicate NeverWritesBack(env: Env, s: State, steps: seq<Step>) {
    steps != [] ==>
      && NeverWritesBack(env, s, steps[..|steps| - 1])
      && !WritesBack(Exec(env, s, steps[..|steps| - 1]), steps[|steps| - 1])
  }

  ghost predicate NeverReturns(env: Env, s: State, steps: seq<Step>) {
    NoneReturned(Exec(env, s, steps)) && (steps != [] ==> NeverReturns(env, s, steps[..|steps| - 1]))
  }

  /**
   * And it is really stored again at some moment if and only if the rotation goes on to that
   * write: one that stops there, or finds the subject put anew, brings nothing back. Without a
   * Forget in the window it never comes to such a write.
   */
  lemma {:induction false} ForgottenReturnsIffWritten(env: Env, s: State, steps: seq<Step>)
    requires NoneReturned(s)
    ensures NeverReturns(env, s, steps) <==> NeverWritesBack(env, s, steps)
    ensures Settled(env, s) && WindowFree(env, s, steps) ==> NeverWritesBack(env, s, steps)
  {
    if steps != [] {
      var init, step := steps[..|steps| - 1], steps[|steps| - 1];
      ForgottenReturnsIffWritten(env, s, init);
      var e := Exec(env, s, init);
      if NeverWritesBack(env, s, init) {
        StepReturnsIff(env, e, step);
      }
      if Settled(env, s) && WindowFree(env, s, steps) {
        AtRiskIffInWindow(env, s, init);
        if InHand(e.phase) {
          assert e.phase.subjects[e.phase.at] in Do(env, e, PutNext).keys;
        }
      }
    }
  }

  lemma StepReturnsIff(env: Env, s: State, step: Step)
    requires NoneReturned(s)
    ensures NoneReturned(Do(env, s, step)) <==> !WritesBack(s, step)
  {
    var s' := Do(env, s, step);
    match step {
      case Put(_, _, _) => assert s'.keys.Keys == s'.plain.Keys;
      case Forget(id) => assert s'.keys.Keys == s.keys.Keys - {id} && s'.plain.Keys == s.plain.Keys - {id};
      case PutNext =>
        if InHand(s.phase) {
          assert s'.keys.Keys == s.keys.Keys + {s.phase.subjects[s.phase.at]};
        }
      case _ =>
    }
  }

  // ---- putting during a rotation ----

  /** A put that the rotation takes along: before it lists, at a listed subject still to come, or after it. */
  predicate Lands(phase: Phase, id: Uuid) {
    phase.Turning? ==>
      && phase.at <= |phase.subjects| && id in phase.subjects[phase.at..]
      && !(InHand(phase) && phase.subjects[phase.at] == id)
  }

  ghost predicate Fits(w: Wrapper) {
    Lawful(w) && |w.tag| < LABEL_LIMIT
  }

  predicate Answers(w: Wrapper, keys: map<Uuid, Bytes>, plain: map<Uuid, Bytes>, id: Uuid) {
    id in keys && id in plain && Open(w, keys[id]) == Ok(plain[id])
  }

  /** Each subject's key opens: under the new wrapper once its turn is over, else under the old. */
  ghost predicate KeyInv(env: Env, s: State, id: Uuid) {
    match s.phase
    case Idle => Answers(env.old', s.keys, s.plain, id)
    case Done => Answers(env.new', s.keys, s.plain, id)
    case Stopped => Answers(env.old', s.keys, s.plain, id) || Answers(env.new', s.keys, s.plain, id)
    case Turning(subjects, at, _) =>
      at <= |subjects| && if id in subjects[..at] then Answers(env.new', s.keys, s.plain, id)
                          else id in subjects[at..] && Answers(env.old', s.keys, s.plain, id)
  }

  ghost predicate Inv(env: Env, s: State) {
    && NoneReturned(s)
    && (forall id :: id in s.keys ==> KeyInv(env, s, id))
    && (s.phase.Turning? ==>
          && s.phase.at <= |s.phase.subjects|
          && (forall i, j :: 0 <= i < j < |s.phase.subjects| ==> s.phase.subjects[i] != s.phase.subjects[j])
          && (s.phase.held.Some? ==>
                && InHand(s.phase) && s.phase.subjects[s.phase.at] in s.plain
                && Open(env.new', s.phase.held.value) == Ok(s.plain[s.phase.subjects[s.phase.at]])))
  }

  lemma FramedOpens(w: Wrapper, draw: nat, key: Bytes)
    requires Fits(w) && w.wrap(draw, key).Some?
    ensures Open(w, Encode(w.tag, w.wrap(draw, key).value)) == Ok(key)
  {
    DecodeUndoesEncode(w.tag, w.wrap(draw, key).value);
  }

  lemma NextTurn(subjects: seq<Uuid>, at: nat)
    requires at < |subjects|
    requires forall i, j :: 0 <= i < j < |subjects| ==> subjects[i] != subjects[j]
    ensures forall id :: id in subjects[..at + 1] <==> id in subjects[..at] || id == subjects[at]
    ensures forall id :: id in subjects[at..] <==> id == subjects[at] || id in subjects[at + 1..]
    ensures subjects[at] !in subjects[..at]
  {
    assert subjects[..at + 1] == subjects[..at] + [subjects[at]] && subjects[at..] == [subjects[at]] + subjects[at + 1..];
  }

  lemma TurnKeepsInv(env: Env, s: State)
    requires Inv(env, s) && InHand(s.phase)
    ensures Inv(env, Do(env, s, PutNext))
  {
    var s', me := Do(env, s, PutNext), s.phase.subjects[s.phase.at];
    NextTurn(s.phase.subjects, s.phase.at);
    assert me in s.keys && s'.keys.Keys == s.keys.Keys;
    forall id | id in s'.keys ensures KeyInv(env, s', id) {
      assert KeyInv(env, s, id);
    }
  }

  lemma GetKeepsInv(env: Env, s: State, draw: nat)
    requires Fits(env.new') && Inv(env, s)
    ensures Inv(env, Do(env, s, GetNext(draw)))
  {
    var s' := Do(env, s, GetNext(draw));
    if s'.phase.Turning? && s' != s {
      var id := s.phase.subjects[s.phase.at];
      NextTurn(s.phase.subjects, s.phase.at);
      assert KeyInv(env, s, id);
      FramedOpens(env.new', draw, s.plain[id]);
    }
    SameKeysInv(env, s, s');
  }

  /** Moving on without touching the store, at the same turn or with the rotation over. */
  lemma SameKeysInv(env: Env, s: State, s': State)
    requires Inv(env, s) && s'.keys == s.keys && s'.plain == s.plain
    requires s'.phase == s.phase || s'.phase == Stopped
             || (s.phase.Turning? && s'.phase.Turning? && s'.phase.subjects == s.phase.subjects && s'.phase.at == s.phase.at)
             || (s.phase == Idle && s'.phase.Turning? && s'.phase.at == 0 && Lists(s'.phase.subjects, s.keys))
             || (s.phase.Turning? && s.phase.at == |s.phase.subjects| && s'.phase == Done)
    ensures forall id :: id in s'.keys ==> KeyInv(env, s', id)
  {
    forall id | id in s'.keys ensures KeyInv(env, s', id) {
      assert KeyInv(env, s, id);
    }
  }

  lemma ForgetKeepsInv(env: Env, s: State, id: Uuid)
    requires Inv(env, s) && !InWindow(s, Forget(id))
    ensures Inv(env, Do(env, s, Forget(id)))
  {
    var s' := Do(env, s, Forget(id));
    assert s'.keys.Keys == s'.plain.Keys;
    forall k | k in s'.keys ensures KeyInv(env, s', k) {
      assert KeyInv(env, s, k);
    }
  }

  lemma PutKeepsInv(env: Env, s: State, id: Uuid, key: Bytes, draw: nat)
    requires Fits(env.old') && Fits(env.new') && Inv(env, s) && Lands(s.phase, id)
    ensures Inv(env, Do(env, s, Put(id, key, draw)))
  {
    var s', w := Do(env, s, Put(id, key, draw)), Active(env, s.phase);
    if w.wrap(draw, key).Some? {
      FramedOpens(w, draw, key);
      assert s'.keys.Keys == s'.plain.Keys;
      if s.phase.Turning? {
        assert forall i, j :: 0 <= i < s.phase.at <= j < |s.phase.subjects| ==> s.phase.subjects[i] != s.phase.subjects[j];
        assert id !in s.phase.subjects[..s.phase.at];
      }
      forall k | k in s'.keys ensures KeyInv(env, s', k) {
        if k != id {
          assert KeyInv(env, s, k);
        }
      }
    }
  }

  /** Another blob with the same key, under the old wrapper, for a subject still to come. */
  lemma NewBlobKeepsInv(env: Env, s: State, id: Uuid, blob: Bytes)
    requires Inv(env, s) && s.phase.Turning? && id in s.keys && id !in s.phase.subjects[..s.phase.at] && id in s.phase.subjects[s.phase.at..]
    requires Open(env.old', blob) == Ok(s.plain[id])
    ensures Inv(env, s.(keys := s.keys[id := blob]))
  {
    var s' := s.(keys := s.keys[id := blob]);
    assert s'.keys.Keys == s.keys.Keys;
    forall k | k in s'.keys ensures KeyInv(env, s', k) {
      assert KeyInv(env, s, k);
    }
  }

  /** Putting again the very key the rotation has in hand changes nothing it will not rewrite. */
  lemma SamePutKeepsInv(env: Env, s: State, id: Uuid, key: Bytes, draw: nat)
    requires Fits(env.old') && Inv(env, s) && InHand(s.phase) && s.phase.subjects[s.phase.at] == id
    requires id in s.plain && s.plain[id] == key
    ensures Inv(env, Do(env, s, Put(id, key, draw)))
  {
    if env.old'.wrap(draw, key).Some? {
      FramedOpens(env.old', draw, key);
      NextTurn(s.phase.subjects, s.phase.at);
      NewBlobKeepsInv(env, s, id, Encode(env.old'.tag, env.old'.wrap(draw, key).value));
    }
    SamePut(env, s, id, key, draw);
  }

  lemma SamePut(env: Env, s: State, id: Uuid, key: Bytes, draw: nat)
    requires s.phase.Turning? && id in s.plain && s.plain[id] == key
    ensures var wrapped := env.old'.wrap(draw, key);
            Do(env, s, Put(id, key, draw)) == if wrapped.None? then s else s.(keys := s.keys[id := Encode(env.old'.tag, wrapped.value)])
  {
    assert s.plain[id := key] == s.plain;
  }

  /** A put that changes no answer the rotation gives: it fails, lands, or repeats the key in hand. */
  predicate PutHarmless(env: Env, s: State, id: Uuid, key: Bytes, draw: nat) {
    || Active(env, s.phase).wrap(draw, key).None?
    || Lands(s.phase, id)
    || (InHand(s.phase) && s.phase.subjects[s.phase.at] == id && id in s.plain && s.plain[id] == key)
  }

  predicate Harmless(env: Env, s: State, step: Step) {
    && !InWindow(s, step)
    && (step.Put? ==> PutHarmless(env, s, step.id, step.key, step.draw))
  }

  lemma HarmlessKeepsInv(env: Env, s: State, step: Step)
    requires Fits(env.old') && Fits(env.new') && Inv(env, s) && Harmless(env, s, step)
    ensures Inv(env, Do(env, s, step))
  {
    match step {
      case PutNext =>
        if InHand(s.phase) {
          TurnKeepsInv(env, s);
        }
      case GetNext(draw) => GetKeepsInv(env, s, draw);
      case Put(id, key, draw) =>
        if Lands(s.phase, id) {
          PutKeepsInv(env, s, id, key, draw);
        } else if Active(env, s.phase).wrap(draw, key).Some? {
          SamePutKeepsInv(env, s, id, key, draw);
        }
      case Forget(id) => ForgetKeepsInv(env, s, id);
      case _ => SameKeysInv(env, s, Do(env, s, step));
    }
  }

  /** A put that does not land leaves a key under the old label where the new one will be in force, or one about to be overwritten. */
  lemma HarmfulPutBreaksInv(env: Env, s: State, id: Uuid, key: Bytes, draw: nat)
    requires Fits(env.old') && env.old'.tag != env.new'.tag && Inv(env, s) && !PutHarmless(env, s, id, key, draw)
    ensures !Inv(env, Do(env, s, Put(id, key, draw)))
  {
    var s' := Do(env, s, Put(id, key, draw));
    DecodeUndoesEncode(env.old'.tag, env.old'.wrap(draw, key).value);
    assert s'.keys[id] == Encode(env.old'.tag, env.old'.wrap(draw, key).value) && s'.plain[id] == key;
    if InHand(s.phase) && s.phase.subjects[s.phase.at] == id {
      assert Open(env.new', s.phase.held.value) == Ok(s.plain[id]);
    } else {
      assert id !in s.phase.subjects[s.phase.at..];
      assert !KeyInv(env, s', id);
    }
  }

  lemma HarmlessIff(env: Env, s: State, step: Step)
    requires Fits(env.old') && Fits(env.new') && env.old'.tag != env.new'.tag && Inv(env, s)
    ensures Inv(env, Do(env, s, step)) <==> Harmless(env, s, step)
  {
    if Harmless(env, s, step) {
      HarmlessKeepsInv(env, s, step);
    } else if step.Put? && !PutHarmless(env, s, step.id, step.key, step.draw) {
      HarmfulPutBreaksInv(env, s, step.id, step.key, step.draw);
    }
  }

  predicate AllHarmless(env: Env, s: State, steps: seq<Step>) {
    steps != [] ==>
      && AllHarmless(env, s, steps[..|steps| - 1])
      && Harmless(env, Exec(env, s, steps[..|steps| - 1]), steps[|steps| - 1])
  }

  ghost predicate AlwaysInv(env: Env, s: State, steps: seq<Step>) {
    Inv(env, Exec(env, s, steps)) && (steps != [] ==> AlwaysInv(env, s, steps[..|steps| - 1]))
  }

  /**
   * Between two labels, every caller's key is all along where the rotation needs it if and only
   * if every forget misses the window and every put is harmless.
   */
  lemma {:induction false} KeysSafeIffHarmless(env: Env, s: State, steps: seq<Step>)
    requires Fits(env.old') && Fits(env.new') && env.old'.tag != env.new'.tag && Inv(env, s)
    ensures AlwaysInv(env, s, steps) <==> AllHarmless(env, s, steps)
  {
    if steps != [] {
      var init := steps[..|steps| - 1];
      KeysSafeIffHarmless(env, s, init);
      if AllHarmless(env, s, init) {
        HarmlessIff(env, Exec(env, s, init), steps[|steps| - 1]);
      }
    }
  }

  /**
   * What that is worth to the ring's callers, at any moment of such a run. Before the rotation
   * and after it every subject gets the key last put for it, and forgotten subjects none. While
   * it goes on, and between two labels, exactly the subjects whose turn is over cannot be read.
   */
  lemma AnswersWhileSafe(env: Env, s: State, id: Uuid)
    requires Inv(env, s)
    ensures var answer := Lookup(s.keys, Active(env, s.phase), id);
            var expected: Result<Option<Bytes>, KeyError> := Ok(if id in s.plain then Some(s.plain[id]) else None);
            && (s.phase == Idle || s.phase == Done ==> answer == expected)
            && (s.phase.Turning? && env.old'.tag != env.new'.tag ==>
                  answer == if id in s.keys && id in s.phase.subjects[..s.phase.at] then Err(LabelMismatch) else expected)
  {
    if id in s.keys {
      assert KeyInv(env, s, id);
    }
  }

  // ---- a rotation left to itself ----

  ghost function Run(env: Env, s: State): seq<Step> -> State {
    steps => Exec(env, s, steps)
  }

  lemma StepLeads(env: Env, start: State, s: State, step: Step, s': State)
    requires Do(env, s, step) == s'
    ensures Leads(Run(env, start), [step], s, s')
  {
    forall steps | Run(env, start)(steps) == s ensures Run(env, start)(steps + [step]) == s' {
      ExecPush(env, start, steps, step);
    }
  }

  /** The store once the first n of the listed subjects have had their turn. */
  function After(keys: map<Uuid, Bytes>, order: seq<Uuid>, blobs: seq<Bytes>, n: nat): map<Uuid, Bytes>
    requires n <= |order| == |blobs|
  {
    if n == 0 then keys else After(keys, order, blobs, n - 1)[order[n - 1] := blobs[n - 1]]
  }

  lemma {:induction false} AfterTurnsOne(keys: map<Uuid, Bytes>, order: seq<Uuid>, blobs: seq<Bytes>, n: nat)
    requires Lists(order, keys) && n <= |order| == |blobs|
    ensures var now := After(keys, order, blobs, n);
            && now.Keys == keys.Keys
            && (forall i :: 0 <= i < n ==> now[order[i]] == blobs[i])
            && (forall i :: n <= i < |order| ==> now[order[i]] == keys[order[i]])
  {
    if n > 0 {
      AfterTurnsOne(keys, order, blobs, n - 1);
    }
  }

  /** blobs are the listed keys re-wrapped, which they can all be. */
  ghost predicate Reframes(env: Env, keys: map<Uuid, Bytes>, order: seq<Uuid>, draws: nat -> nat, blobs: seq<Bytes>) {
    |blobs| == |order| && forall i :: 0 <= i < |order| ==> Reframed(env, keys, order[i], draws(i)) == Some(blobs[i])
  }

  function AtTurn(s: State, order: seq<Uuid>, blobs: seq<Bytes>, n: nat): State
    requires n <= |order| == |blobs|
  {
    State(After(s.keys, order, blobs, n), s.plain, Turning(order, n, None))
  }

  function TurnSteps(draws: nat -> nat): nat -> seq<Step> {
    (i: nat) => [GetNext(draws(i))] + [PutNext]
  }

  /** What GetNext has in hand depends on that subject's blob alone. */
  lemma ReframedAlike(env: Env, a: map<Uuid, Bytes>, b: map<Uuid, Bytes>, id: Uuid, draw: nat)
    requires id in a && id in b && a[id] == b[id]
    ensures Reframed(env, a, id, draw) == Reframed(env, b, id, draw)
  {
  }

  /** The n-th turn reads what was listed, whoever's turn came before. */
  lemma TurnReframes(env: Env, keys: map<Uuid, Bytes>, order: seq<Uuid>, draws: nat -> nat, blobs: seq<Bytes>, n: nat)
    requires Lists(order, keys) && Reframes(env, keys, order, draws, blobs) && n < |order|
    ensures Reframed(env, After(keys, order, blobs, n), order[n], draws(n)) == Some(blobs[n])
  {
    AfterTurnsOne(keys, order, blobs, n);
    ReframedAlike(env, keys, After(keys, order, blobs, n), order[n], draws(n));
  }

  ghost predicate TurnLeads(env: Env, s: State, order: seq<Uuid>, draws: nat -> nat, blobs: seq<Bytes>, n: nat)
    requires n < |order| == |blobs|
  {
    Leads(Run(env, s), TurnSteps(draws)(n), AtTurn(s, order, blobs, n), AtTurn(s, order, blobs, n + 1))
  }

  lemma GetHolds(env: Env, s: State, order: seq<Uuid>, n: nat, draw: nat, blob: Bytes)
    requires n < |order| && s.phase == Turning(order, n, None) && Reframed(env, s.keys, order[n], draw) == Some(blob)
    ensures Do(env, s, GetNext(draw)) == s.(phase := Turning(order, n, Some(blob)))
  {
  }

  lemma PutWrites(env: Env, s: State, order: seq<Uuid>, n: nat, blob: Bytes)
    requires n < |order| && s.phase == Turning(order, n, Some(blob))
    ensures Do(env, s, PutNext) == State(s.keys[order[n] := blob], s.plain, Turning(order, n + 1, None))
  {
  }

  lemma OneTurn(env: Env, s: State, order: seq<Uuid>, draws: nat -> nat, blobs: seq<Bytes>, n: nat)
    requires n < |order| == |blobs| && Reframed(env, After(s.keys, order, blobs, n), order[n], draws(n)) == Some(blobs[n])
    ensures TurnLeads(env, s, order, draws, blobs, n)
  {
    var now := AtTurn(s, order, blobs, n);
    var holding := now.(phase := Turning(order, n, Some(blobs[n])));
    GetHolds(env, now, order, n, draws(n), blobs[n]);
    PutWrites(env, holding, order, n, blobs[n]);
    StepLeads(env, s, now, GetNext(draws(n)), holding);
    StepLeads(env, s, holding, PutNext, AtTurn(s, order, blobs, n + 1));
    LeadsThen(Run(env, s), [GetNext(draws(n))], [PutNext], now, holding, AtTurn(s, order, blobs, n + 1));
  }

  lemma TurnsLead(env: Env, s: State, order: seq<Uuid>, draws: nat -> nat, blobs: seq<Bytes>)
    requires |order| == |blobs| && forall n :: 0 <= n < |order| ==> TurnLeads(env, s, order, draws, blobs, n)
    ensures Leads(Run(env, s), Blocks(TurnSteps(draws), |order|), AtTurn(s, order, blobs, 0), AtTurn(s, order, blobs, |order|))
  {
    var at := (n: nat) => if n <= |order| then AtTurn(s, order, blobs, n) else s;
    forall n: nat | n < |order| ensures Leads(Run(env, s), TurnSteps(draws)(n), at(n), at(n + 1)) {
      assert TurnLeads(env, s, order, draws, blobs, n);
    }
    BlocksLead(Run(env, s), TurnSteps(draws), at, |order|);
  }

  function RotateSteps(order: seq<Uuid>, draws: nat -> nat): seq<Step> {
    [List(order)] + Blocks(TurnSteps(draws), |order|) + [Finish]
  }

  lemma RotateLeads(env: Env, s: State, order: seq<Uuid>, draws: nat -> nat, last: State)
    requires s.phase == Idle && Lists(order, s.keys) && last.phase == Turning(order, |order|, None)
    requires Leads(Run(env, s), Blocks(TurnSteps(draws), |order|), s.(phase := Turning(order, 0, None)), last)
    ensures Leads(Run(env, s), RotateSteps(order, draws), s, last.(phase := Done))
  {
    var turns := Blocks(TurnSteps(draws), |order|);
    StepLeads(env, s, s, List(order), s.(phase := Turning(order, 0, None)));
    StepLeads(env, s, last, Finish, last.(phase := Done));
    LeadsThen(Run(env, s), [List(order)], turns, s, s.(phase := Turning(order, 0, None)), last);
    LeadsThen(Run(env, s), [List(order)] + turns, [Finish], s, last, last.(phase := Done));
  }

  /**
   * Nobody using the ring meanwhile, a rotation over keys that can all be re-wrapped runs to its
   * end, whatever their number and order, and leaves the store as one call of Rotate is proved
   * to: every key re-wrapped, none lost, none added.
   */
  lemma RotationRunsToEnd(env: Env, s: State, order: seq<Uuid>, draws: nat -> nat, blobs: seq<Bytes>)
    requires Lawful(env.new') && s.phase == Idle && Lists(order, s.keys) && Reframes(env, s.keys, order, draws, blobs)
    ensures var e := Exec(env, s, RotateSteps(order, draws));
            e.phase == Done && e.plain == s.plain && Rotated(s.keys, e.keys, env.old', env.new')
  {
    forall n | 0 <= n < |order| ensures TurnLeads(env, s, order, draws, blobs, n) {
      TurnReframes(env, s.keys, order, draws, blobs, n);
      OneTurn(env, s, order, draws, blobs, n);
    }
    TurnsLead(env, s, order, draws, blobs);
    RotateLeads(env, s, order, draws, AtTurn(s, order, blobs, |order|));
    assert Run(env, s)([]) == s && [] + RotateSteps(order, draws) == RotateSteps(order, draws);
    AllRewrapped(env, s.keys, order, draws, blobs);
  }

  lemma AllRewrapped(env: Env, keys: map<Uuid, Bytes>, order: seq<Uuid>, draws: nat -> nat, blobs: seq<Bytes>)
    requires Lawful(env.new') && Lists(order, keys) && Reframes(env, keys, order, draws, blobs)
    ensures Rotated(keys, After(keys, order, blobs, |order|), env.old', env.new')
  {
    AfterTurnsOne(keys, order, blobs, |order|);
    forall id | id in keys ensures Rewrapped(keys[id], After(keys, order, blobs, |order|)[id], env.old', env.new') {
      var i :| 0 <= i < |order| && order[i] == id;
      ReframedIsRewrapped(env, keys, id, draws(i));
    }
  }

  lemma ReframedIsRewrapped(env: Env, keys: map<Uuid, Bytes>, id: Uuid, draw: nat)
    requires Lawful(env.new') && id in keys && Reframed(env, keys, id, draw).Some?
    ensures Rewrapped(keys[id], Reframed(env, keys, id, draw).value, env.old', env.new')
  {
  }

  // ---- runs that go wrong ----

  /** The only subject, listed as order says, is forgotten between its blob's read and write. */
  function ForgottenMeanwhile(order: seq<Uuid>, draw: nat): seq<Step>
    requires |order| == 1
  {
    [List(order)] + [GetNext(draw)] + [Forget(order[0])] + [PutNext] + [Finish]
  }

  lemma ForgottenIsWrittenBack(env: Env, s: State, order: seq<Uuid>, draw: nat, framed: Bytes)
    requires s.phase == Idle && |order| == 1 && Lists(order, s.keys) && Reframed(env, s.keys, order[0], draw) == Some(framed)
    ensures Exec(env, s, ForgottenMeanwhile(order, draw)) == State((s.keys - {order[0]})[order[0] := framed], s.plain - {order[0]}, Done)
  {
    var id := order[0];
    var listed, held := s.(phase := Turning(order, 0, None)), s.(phase := Turning(order, 0, Some(framed)));
    var gone := State(s.keys - {id}, s.plain - {id}, Turning(order, 0, Some(framed)));
    var back := State((s.keys - {id})[id := framed], s.plain - {id}, Turning(order, 1, None));
    StepLeads(env, s, s, List(order), listed);
    GetHolds(env, listed, order, 0, draw, framed);
    StepLeads(env, s, listed, GetNext(draw), held);
    StepLeads(env, s, held, Forget(id), gone);
    PutWrites(env, gone, order, 0, framed);
    StepLeads(env, s, gone, PutNext, back);
    StepLeads(env, s, back, Finish, back.(phase := Done));
    LeadsThen(Run(env, s), [List(order)], [GetNext(draw)], s, listed, held);
    LeadsThen(Run(env, s), [List(order)] + [GetNext(draw)], [Forget(id)], s, held, gone);
    LeadsThen(Run(env, s), [List(order)] + [GetNext(draw)] + [Forget(id)], [PutNext], s, gone, back);
    LeadsThen(Run(env, s), [List(order)] + [GetNext(draw)] + [Forget(id)] + [PutNext], [Finish], s, back, back.(phase := Done));
    assert Run(env, s)([]) == s && [] + ForgottenMeanwhile(order, draw) == ForgottenMeanwhile(order, draw);
  }

  /** A subject's key is forgotten while the rotation has it in hand, and comes back for good. */
  lemma ForgottenKeyComesBack(env: Env, id: Uuid, blob: Bytes, key: Bytes, draw: nat)
    requires Fits(env.old') && Fits(env.new') && Open(env.old', blob) == Ok(key) && env.new'.wrap(draw, key).Some?
    ensures var s := State(map[id := blob], map[id := key], Idle);
            var e := Exec(env, s, ForgottenMeanwhile([id], draw));
            Inv(env, s) && e.phase == Done && e.plain == map[] && Lookup(e.keys, env.new', id) == Ok(Some(key))
  {
    var s := State(map[id := blob], map[id := key], Idle);
    FramedOpens(env.new', draw, key);
    ForgottenIsWrittenBack(env, s, [id], draw, Reframed(env, s.keys, id, draw).value);
  }

  /** A subject gets its key after the listing: the rotation is done and the key cannot be read. */
  lemma LatePutIsStranded(env: Env, id: Uuid, key: Bytes, draw: nat)
    requires Fits(env.old') && env.old'.tag != env.new'.tag && env.old'.wrap(draw, key).Some?
    ensures var s := State(map[], map[], Idle);
            var e := Exec(env, s, [List([])] + [Put(id, key, draw)] + [Finish]);
            Inv(env, s) && e.phase == Done && e.plain == map[id := key] && Lookup(e.keys, env.new', id) == Err(LabelMismatch)
  {
    var s := State(map[], map[], Idle);
    DecodeUndoesEncode(env.old'.tag, env.old'.wrap(draw, key).value);
    ExecPush(env, s, [], List([]));
    assert [] + [List([])] == [List([])];
    ExecPush(env, s, [List([])], Put(id, key, draw));
    ExecPush(env, s, [List([])] + [Put(id, key, draw)], Finish);
  }

  function StoppedAtSecond(order: seq<Uuid>, draw: nat): seq<Step> {
    [List(order)] + [GetNext(draw)] + [PutNext] + [Fail]
  }

  lemma StopsAtSecond(env: Env, s: State, order: seq<Uuid>, draw: nat)
    requires s.phase == Idle && |order| == 2 && Lists(order, s.keys) && Reframed(env, s.keys, order[0], draw).Some?
    ensures Exec(env, s, StoppedAtSecond(order, draw))
            == State(s.keys[order[0] := Reframed(env, s.keys, order[0], draw).value], s.plain, Stopped)
  {
    ExecPush(env, s, [], List(order));
    assert [] + [List(order)] == [List(order)];
    ExecPush(env, s, [List(order)], GetNext(draw));
    ExecPush(env, s, [List(order)] + [GetNext(draw)], PutNext);
    ExecPush(env, s, [List(order)] + [GetNext(draw)] + [PutNext], Fail);
  }

  /** A rotation stopped at its second subject: no later one, under any wrapper, gets past the first. */
  lemma StoppedRotationCannotRerun(env: Env, id: Uuid, id': Uuid, blob: Bytes, key: Bytes, draw: nat)
    requires Fits(env.old') && Fits(env.new') && env.old'.tag != env.new'.tag && id != id'
    requires Open(env.old', blob) == Ok(key) && env.new'.wrap(draw, key).Some?
    ensures var s := State(map[id := blob, id' := blob], map[id := key, id' := key], Idle);
            var e := Exec(env, s, StoppedAtSecond([id, id'], draw));
            && e.phase == Stopped
            && Lookup(e.keys, env.old', id) == Err(LabelMismatch) && Lookup(e.keys, env.old', id') == Ok(Some(key))
            && forall last, x :: !Rotated(e.keys, last, env.old', x)
  {
    var s := State(map[id := blob, id' := blob], map[id := key, id' := key], Idle);
    StopsAtSecond(env, s, [id, id'], draw);
    DecodeUndoesEncode(env.new'.tag, env.new'.wrap(draw, key).value);
    var e := Exec(env, s, StoppedAtSecond([id, id'], draw));
    assert Open(env.old', e.keys[id]) == Err(LabelMismatch);
    assert id in e.keys;
  }

  /** A wrapper that changes nothing but the label. */
  function Labelled(tag: Bytes): Wrapper {
    Wrapper(tag, (draw, key) => Some(key), blob => Some(blob))
  }

  /** All three happen between wrappers as plain as can be. */
  lemma TheyAllHappen()
    ensures var env := Env(Labelled([1]), Labelled([2]));
            Fits(env.old') && Fits(env.new') && env.old'.tag != env.new'.tag
            && Open(env.old', Encode([1], [7])) == Ok([7]) && env.new'.wrap(0, [7]).Some? && env.old'.wrap(0, [7]).Some?
  {
    DecodeUndoesEncode([1], [7]);
    assert [1][0] == 1 && [2][0] == 2;
  }
}
