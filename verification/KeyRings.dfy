/** The 2-byte length, label, blob frame a wrapped key is stored in. */
module LabelFrame {
  import opened Common

  const LABEL_LIMIT := 65536

  /** The length field keeps only the low 16 bits of the label's length. */
  function Encode(tag: Bytes, blob: Bytes): Bytes {
    var n := |tag| % LABEL_LIMIT;
    [n / 256, n % 256] + tag + blob
  }

  datatype Frame = Frame(tag: Bytes, blob: Bytes)

  function Decode(b: Bytes): Option<Frame> {
    if |b| < 2 then None
    else
      var n := (b[0] as int) * 256 + b[1];
      if n > |b| - 2 then None else Some(Frame(b[2..2 + n], b[2 + n..]))
  }

  /** Fills one buffer, as the length, then the label, then the blob are copied in. */
  method EncodeBuffer(tag: Bytes, blob: Bytes) returns (out: array<byte>)
    ensures fresh(out) && out[..] == Encode(tag, blob)
  {
    out := new byte[2 + |tag| + |blob|](_ => 0);
    var n := |tag| % LABEL_LIMIT;
    out[0], out[1] := n / 256, n % 256;
    for i := 0 to |tag|
      invariant out[0] == n / 256 && out[1] == n % 256
      invariant forall k :: 0 <= k < i ==> out[2 + k] == tag[k]
    {
      out[2 + i] := tag[i];
    }
    for i := 0 to |blob|
      invariant out[0] == n / 256 && out[1] == n % 256
      invariant forall k :: 0 <= k < |tag| ==> out[2 + k] == tag[k]
      invariant forall k :: 0 <= k < i ==> out[2 + |tag| + k] == blob[k]
    {
      out[2 + |tag| + i] := blob[i];
    }
  }

  /** The label as its frame keeps it: cut to what its length field can say. */
  function Framed(tag: Bytes): Bytes {
    tag[..|tag| % LABEL_LIMIT]
  }

  /** Nothing bounds a label's length; from 65536 bytes on its tail is read back as part of the blob. */
  lemma DecodeOfEncode(tag: Bytes, blob: Bytes)
    ensures Decode(Encode(tag, blob)) == Some(Frame(Framed(tag), tag[|tag| % LABEL_LIMIT..] + blob))
  {
    var x, n := Encode(tag, blob), |tag| % LABEL_LIMIT;
    assert (x[0] as int) * 256 + x[1] == n;
    assert x[2..] == tag + blob;
    assert x[2..2 + n] == tag[..n] && x[2 + n..] == tag[n..] + blob;
  }

  /** A framed label survives the round trip exactly when its length fits the length field. */
  lemma DecodeUndoesEncode(tag: Bytes, blob: Bytes)
    ensures Decode(Encode(tag, blob)) == Some(Frame(tag, blob)) <==> |tag| < LABEL_LIMIT
    ensures Framed(tag) == tag <==> |tag| < LABEL_LIMIT
  {
    DecodeOfEncode(tag, blob);
    assert |Framed(tag)| == |tag| % LABEL_LIMIT;
    if |tag| < LABEL_LIMIT {
      assert tag[..|tag|] == tag && tag[|tag|..] + blob == blob;
    }
  }

  lemma EncodeUndoesDecode(x: Bytes)
    requires Decode(x).Some?
    ensures |Decode(x).value.tag| < LABEL_LIMIT
    ensures Encode(Decode(x).value.tag, Decode(x).value.blob) == x
  {
    var n := (x[0] as int) * 256 + x[1];
    assert n / 256 == x[0] && n % 256 == x[1];
  }

  /** Decode rejects exactly the byte strings that frame no label and blob. */
  lemma RejectsNonFrames(x: Bytes)
    ensures Decode(x).None? <==> forall tag, blob :: |tag| < LABEL_LIMIT ==> Encode(tag, blob) != x
  {
    if Decode(x).Some? {
      EncodeUndoesDecode(x);
    } else {
      forall tag, blob | |tag| < LABEL_LIMIT ensures Encode(tag, blob) != x {
        DecodeUndoesEncode(tag, blob);
      }
    }
  }
}

/** The key rings: the in-memory one, and the one that wraps every key before storing it. */
module KeyRings {
  import opened Common
  import opened LabelFrame

  class KeyRing {
    var keys: map<Uuid, Bytes>

    constructor ()
      ensures keys == map[]
    {
      keys := map[];
    }

    method Get(id: Uuid) returns (key: Option<Bytes>)
      ensures key == if id in keys then Some(keys[id]) else None
    {
      key := if id in keys then Some(keys[id]) else None;
    }

    method Put(id: Uuid, key: Bytes)
      modifies this
      ensures keys == old(keys)[id := key]
    {
      keys := keys[id := key];
    }

    method Forget(id: Uuid)
      modifies this
      ensures keys == old(keys) - {id}
    {
      keys := keys - {id};
    }

    /** Every subject with a key, once each, in no particular order. */
    method Subjects() returns (out: seq<Uuid>)
      ensures Lists(out, keys) && |out| == |keys|
    {
      out := [];
      var rest := keys.Keys;
      while rest != {}
        invariant rest <= keys.Keys && |out| + |rest| == |keys.Keys|
        invariant forall id :: id in out <==> id in keys && id !in rest
        invariant forall i, j :: 0 <= i < j < |out| ==> out[i] != out[j]
        decreases rest
      {
        var id :| id in rest;
        out := out + [id];
        rest := rest - {id};
      }
    }
  }

  /** A key-encryption key behind a label. Each Wrap draws a nonce and may fail, as a remote KMS may. */
  datatype Wrapper = Wrapper(tag: Bytes, wrap: (nat, Bytes) -> Option<Bytes>, unwrap: Bytes -> Option<Bytes>)

  ghost predicate Lawful(w: Wrapper) {
    forall draw, key :: w.wrap(draw, key).Some? ==> w.unwrap(w.wrap(draw, key).value) == Some(key)
  }

  datatype KeyError = StoreFailed | CorruptBlob | LabelMismatch | UnwrapFailed | WrapFailed

  /** The key a stored blob yields under a wrapper. */
  function Open(w: Wrapper, stored: Bytes): Result<Bytes, KeyError> {
    match Decode(stored)
    case None => Err(CorruptBlob)
    case Some(f) =>
      if f.tag != w.tag then Err(LabelMismatch)
      else match w.unwrap(f.blob) { case None => Err(UnwrapFailed) case Some(key) => Ok(key) }
  }

  /** What Get answers: no key for a subject without one, its key, or the reason it cannot be read. */
  function Lookup(keys: map<Uuid, Bytes>, w: Wrapper, id: Uuid): Result<Option<Bytes>, KeyError> {
    if id !in keys then Ok(None)
    else match Open(w, keys[id]) { case Err(e) => Err(e) case Ok(key) => Ok(Some(key)) }
  }

  /** Which calls on the underlying store fail, by the order they are made. */
  datatype Faults = Faults(list: bool, get: nat -> bool, put: nat -> bool)

  class WrappedKeyRing {
    const keys: KeyRing
    var wrapper: Wrapper

    constructor (keys: KeyRing, wrapper: Wrapper)
      ensures this.keys == keys && this.wrapper == wrapper
    {
      this.keys, this.wrapper := keys, wrapper;
    }

    /** fails says whether the call on the underlying store fails. */
    method Get(id: Uuid, fails: bool) returns (r: Result<Option<Bytes>, KeyError>)
      ensures r == if fails then Err(StoreFailed) else Lookup(keys.keys, wrapper, id)
    {
      if fails {
        return Err(StoreFailed);
      }
      var stored := keys.Get(id);
      if stored.None? {
        return Ok(None);
      }
      var frame := Decode(stored.value);
      if frame.None? {
        return Err(CorruptBlob);
      }
      if frame.value.tag != wrapper.tag {
        return Err(LabelMismatch);
      }
      var key := wrapper.unwrap(frame.value.blob);
      if key.None? {
        return Err(UnwrapFailed);
      }
      r := Ok(key);
    }

    method Put(id: Uuid, key: Bytes, draw: nat, fails: bool) returns (r: Result<(), KeyError>)
      requires Lawful(wrapper)
      modifies keys
      ensures r == if wrapper.wrap(draw, key).None? then Err(WrapFailed) else if fails then Err(StoreFailed) else Ok(())
      ensures r.Err? ==> keys.keys == old(keys.keys)
      ensures r.Ok? ==> keys.keys - {id} == old(keys.keys) - {id}
      ensures r.Ok? ==> Lookup(keys.keys, wrapper, id) == if |wrapper.tag| < LABEL_LIMIT then Ok(Some(key)) else Err(LabelMismatch)
    {
      var wrapped := wrapper.wrap(draw, key);
      if wrapped.None? {
        return Err(WrapFailed);
      }
      DecodeUndoesEncode(wrapper.tag, wrapped.value);
      DecodeOfEncode(wrapper.tag, wrapped.value);
      var framed := EncodeBuffer(wrapper.tag, wrapped.value);
      if fails {
        return Err(StoreFailed);
      }
      keys.Put(id, framed[..]);
      r := Ok(());
    }

    method Forget(id: Uuid, fails: bool) returns (r: Result<(), KeyError>)
      modifies keys
      ensures r.Ok? <==> !fails
      ensures r.Ok? ==> Lookup(keys.keys, wrapper, id) == Ok(None) && keys.keys == old(keys.keys) - {id}
      ensures r.Err? ==> r.error == StoreFailed && keys.keys == old(keys.keys)
    {
      if fails {
        return Err(StoreFailed);
      }
      keys.Forget(id);
      r := Ok(());
    }

    /**
     * One subject's turn: open the stored blob under the old wrapper, store it under the new one.
     * A subject forgotten since the listing has no blob, which reads as a corrupt one.
     */
    method Rewrap(id: Uuid, newWrapper: Wrapper, i: nat, faults: Faults) returns (r: Result<(), KeyError>)
      requires Lawful(newWrapper)
      modifies keys
      ensures keys.keys.Keys == old(keys.keys.Keys)
      ensures forall s :: s in keys.keys && s != id ==> keys.keys[s] == old(keys.keys)[s]
      ensures r.Ok? ==> id in keys.keys && Rewrapped(old(keys.keys)[id], keys.keys[id], wrapper, newWrapper)
      ensures r.Ok? ==> !faults.get(i) && !faults.put(i)
      ensures r.Err? ==> keys.keys == old(keys.keys)
      ensures r.Err? && id in keys.keys && Open(wrapper, keys.keys[id]).Ok?
              ==> FailsAt(faults, newWrapper, i, Open(wrapper, keys.keys[id]).value)
    {
      if faults.get(i) {
        return Err(StoreFailed);
      }
      var stored := keys.Get(id);
      var frame := Decode(if stored.Some? then stored.value else []);
      if frame.None? {
        return Err(CorruptBlob);
      }
      if frame.value.tag != wrapper.tag {
        return Err(LabelMismatch);
      }
      var key := wrapper.unwrap(frame.value.blob);
      if key.None? {
        return Err(UnwrapFailed);
      }
      var wrapped := newWrapper.wrap(i, key.value);
      if wrapped.None? {
        return Err(WrapFailed);
      }
      if faults.put(i) {
        return Err(StoreFailed);
      }
      var framed := EncodeBuffer(newWrapper.tag, wrapped.value);
      keys.Put(id, framed[..]);
      r := Ok(());
    }

    /**
     * Re-wraps every key, stopping at the first failure. The wrapper is switched only at the
     * very end; whatever happens, every blob is either untouched or re-wrapped with its key kept.
     */
    method Rotate(newWrapper: Wrapper, faults: Faults) returns (r: Result<(), KeyError>)
      requires Lawful(newWrapper)
      modifies this, keys
      ensures r.Ok? ==> wrapper == newWrapper && Rotated(old(keys.keys), keys.keys, old(wrapper), newWrapper)
      ensures r.Err? ==> wrapper == old(wrapper) && MidRotation(old(keys.keys), keys.keys, wrapper, newWrapper)
      ensures r.Ok? ==> !faults.list && NoFault(faults, |old(keys.keys)|)
      ensures r.Err? && Readable(old(keys.keys), old(wrapper))
              ==> faults.list || exists order :: Lists(order, old(keys.keys)) && OutsideCause(order, old(keys.keys), old(wrapper), newWrapper, faults)
    {
      if faults.list {
        return Err(StoreFailed);
      }
      var subjects := keys.Subjects();
      r := RewrapAll(subjects, newWrapper, faults);
      if r.Ok? {
        wrapper := newWrapper;
      }
    }

    /** Rotate's loop over the subjects it listed. */
    method RewrapAll(subjects: seq<Uuid>, newWrapper: Wrapper, faults: Faults) returns (r: Result<(), KeyError>)
      requires Lawful(newWrapper)
      requires Lists(subjects, keys.keys) && |subjects| == |keys.keys|
      modifies keys
      ensures r.Ok? ==> Rotated(old(keys.keys), keys.keys, wrapper, newWrapper) && NoFault(faults, |old(keys.keys)|)
      ensures r.Err? ==> MidRotation(old(keys.keys), keys.keys, wrapper, newWrapper)
      ensures r.Err? && Readable(old(keys.keys), wrapper) ==> OutsideCause(subjects, old(keys.keys), wrapper, newWrapper, faults)
    {
      ghost var before := keys.keys;
      for i := 0 to |subjects|
        invariant NoFault(faults, i)
        invariant Turned(before, keys.keys, wrapper, newWrapper, subjects, i)
      {
        ghost var id, was := subjects[i], keys.keys;
        r := Rewrap(subjects[i], newWrapper, i, faults);
        if r.Err? {
          Stopped(before, keys.keys, wrapper, newWrapper, subjects, i);
          if Open(wrapper, before[id]).Ok? {
            FailureIsOutside(subjects, before, wrapper, newWrapper, faults, i);
          }
          return;
        }
        TurnStep(before, was, keys.keys, wrapper, newWrapper, subjects, i);
      }
      Stopped(before, keys.keys, wrapper, newWrapper, subjects, |subjects|);
      r := Ok(());
    }
  }

  // ---- rotation, as a relation between key stores ----

  /** now frames, under the new wrapper's label, the key that was holds under the old one. */
  ghost predicate Rewrapped(was: Bytes, now: Bytes, w: Wrapper, w': Wrapper) {
    && Open(w, was).Ok?
    && exists blob :: now == Encode(w'.tag, blob) && w'.unwrap(blob) == Some(Open(w, was).value)
  }

  /** Such a blob opens to the same key under the new wrapper, if the frame could hold its label. */
  lemma RewrappedOpens(was: Bytes, now: Bytes, w: Wrapper, w': Wrapper)
    requires Rewrapped(was, now, w, w')
    ensures Open(w', now) == if |w'.tag| < LABEL_LIMIT then Open(w, was) else Err(LabelMismatch)
    ensures Decode(now).Some? && Decode(now).value.tag == Framed(w'.tag)
  {
    var blob :| now == Encode(w'.tag, blob) && w'.unwrap(blob) == Some(Open(w, was).value);
    DecodeUndoesEncode(w'.tag, blob);
    DecodeOfEncode(w'.tag, blob);
  }

  ghost predicate Rotated(before: map<Uuid, Bytes>, after: map<Uuid, Bytes>, w: Wrapper, w': Wrapper) {
    && after.Keys == before.Keys
    && forall id :: id in before ==> Rewrapped(before[id], after[id], w, w')
  }

  ghost predicate MidRotation(before: map<Uuid, Bytes>, after: map<Uuid, Bytes>, w: Wrapper, w': Wrapper) {
    && after.Keys == before.Keys
    && forall id :: id in before ==> after[id] == before[id] || Rewrapped(before[id], after[id], w, w')
  }

  /** The blobs before position i were re-wrapped and the rest were not touched. */
  ghost predicate Turned(before: map<Uuid, Bytes>, now: map<Uuid, Bytes>, w: Wrapper, w': Wrapper, subjects: seq<Uuid>, i: nat) {
    && now.Keys == before.Keys && i <= |subjects|
    && (forall id :: id in subjects <==> id in before)
    && (forall j :: 0 <= j < i ==> Rewrapped(before[subjects[j]], now[subjects[j]], w, w'))
    && (forall j :: i <= j < |subjects| ==> now[subjects[j]] == before[subjects[j]])
  }

  lemma TurnStep(before: map<Uuid, Bytes>, was: map<Uuid, Bytes>, now: map<Uuid, Bytes>, w: Wrapper, w': Wrapper, subjects: seq<Uuid>, i: nat)
    requires Turned(before, was, w, w', subjects, i) && i < |subjects|
    requires forall k, l :: 0 <= k < l < |subjects| ==> subjects[k] != subjects[l]
    requires now.Keys == was.Keys && forall s :: s in now && s != subjects[i] ==> now[s] == was[s]
    requires Rewrapped(was[subjects[i]], now[subjects[i]], w, w')
    ensures Turned(before, now, w, w', subjects, i + 1)
  {
    forall j | 0 <= j < i + 1 ensures Rewrapped(before[subjects[j]], now[subjects[j]], w, w') {
      assert j < i ==> subjects[j] != subjects[i];
    }
  }

  lemma Stopped(before: map<Uuid, Bytes>, after: map<Uuid, Bytes>, w: Wrapper, w': Wrapper, subjects: seq<Uuid>, i: nat)
    requires Turned(before, after, w, w', subjects, i)
    ensures MidRotation(before, after, w, w')
    ensures i == |subjects| ==> Rotated(before, after, w, w')
  {
    forall id | id in before
      ensures after[id] == before[id] || Rewrapped(before[id], after[id], w, w')
      ensures i == |subjects| ==> Rewrapped(before[id], after[id], w, w')
    {
      var j :| 0 <= j < |subjects| && subjects[j] == id;
    }
  }

  /** The i-th subject's turn meets a failure that is not the stored blob's. */
  ghost predicate FailsAt(faults: Faults, w': Wrapper, i: nat, key: Bytes) {
    faults.get(i) || faults.put(i) || w'.wrap(i, key).None?
  }

  /** None of the first n subjects' calls on the store fails. */
  ghost predicate NoFault(faults: Faults, n: nat) {
    forall i :: 0 <= i < n ==> !faults.get(i) && !faults.put(i)
  }

  predicate Lists(order: seq<Uuid>, keys: map<Uuid, Bytes>) {
    && (forall id :: id in order ==> id in keys) && (forall id :: id in keys ==> id in order)
    && forall i, j :: 0 <= i < j < |order| ==> order[i] != order[j]
  }

  /** A call the rotation makes for the i-th subject it listed failed, at that subject's key. */
  ghost predicate OutsideCause(order: seq<Uuid>, keys: map<Uuid, Bytes>, w: Wrapper, w': Wrapper, faults: Faults) {
    exists i :: 0 <= i < |order| && order[i] in keys && Open(w, keys[order[i]]).Ok?
                && FailsAt(faults, w', i, Open(w, keys[order[i]]).value)
  }

  lemma FailureIsOutside(order: seq<Uuid>, keys: map<Uuid, Bytes>, w: Wrapper, w': Wrapper, faults: Faults, i: nat)
    requires i < |order| && order[i] in keys && Open(w, keys[order[i]]).Ok?
    requires FailsAt(faults, w', i, Open(w, keys[order[i]]).value)
    ensures OutsideCause(order, keys, w, w', faults)
  {
  }

  /**
   * A rotation that succeeds changes no subject's answer: same key, or still none if forgotten.
   * Under a label no frame can hold it succeeds just the same, and no key is found again.
   */
  lemma RotationKeepsAnswers(before: map<Uuid, Bytes>, after: map<Uuid, Bytes>, w: Wrapper, w': Wrapper, id: Uuid)
    requires Rotated(before, after, w, w')
    ensures Lookup(before, w, id).Ok?
    ensures Lookup(after, w', id) == if id in before && |w'.tag| >= LABEL_LIMIT then Err(LabelMismatch) else Lookup(before, w, id)
  {
    if id in before {
      RewrappedOpens(before[id], after[id], w, w');
    }
  }

  /** A rotation that fails part-way loses no key: each still opens under the old or the new wrapper. */
  lemma NoKeyLost(before: map<Uuid, Bytes>, after: map<Uuid, Bytes>, w: Wrapper, w': Wrapper, id: Uuid)
    requires MidRotation(before, after, w, w')
    requires id in before && Open(w, before[id]).Ok?
    ensures id in after
    ensures Open(w, after[id]) == Open(w, before[id])
            || Open(w', after[id]) == if |w'.tag| < LABEL_LIMIT then Open(w, before[id]) else Err(LabelMismatch)
  {
    if after[id] != before[id] {
      RewrappedOpens(before[id], after[id], w, w');
    }
  }

  ghost predicate Readable(keys: map<Uuid, Bytes>, w: Wrapper) {
    forall id :: id in keys ==> Open(w, keys[id]).Ok?
  }

  /**
   * The comment on Rotate promises that running it again with the same new wrapper converges.
   * It can only if every blob still opens under the wrapper in force, which it does if and
   * only if the blobs the failed run re-wrapped carry that wrapper's label and unwrap under
   * it; with two labels, if and only if no stored blob carries the new one.
   */
  lemma RerunConvergesIff(before: map<Uuid, Bytes>, after: map<Uuid, Bytes>, w: Wrapper, w': Wrapper)
    requires MidRotation(before, after, w, w') && Readable(before, w)
    ensures Readable(after, w)
            <==> forall id :: id in after && after[id] != before[id]
                              ==> w.tag == Framed(w'.tag) && w.unwrap(Decode(after[id]).value.blob).Some?
    ensures w.tag != Framed(w'.tag) ==>
              (Readable(after, w) <==> forall id :: id in after ==> Decode(after[id]).Some? && Decode(after[id]).value.tag != Framed(w'.tag))
    ensures !Readable(after, w) ==> forall last, x :: !Rotated(after, last, w, x)
  {
    forall id | id in after && after[id] != before[id]
      ensures Decode(after[id]).Some? && Decode(after[id]).value.tag == Framed(w'.tag)
    {
      RewrappedOpens(before[id], after[id], w, w');
    }
    forall last, x | Rotated(after, last, w, x) ensures Readable(after, w) {
      forall id | id in after ensures Open(w, after[id]).Ok? {
        assert Rewrapped(after[id], last[id], w, x);
      }
    }
  }
}
