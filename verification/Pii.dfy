/** Sealing and opening of an event's declared payload fields, over an abstract cipher. */
module Pii {
  import opened Common
  import opened Events
  import KeyRings

  type KeyMap = map<Uuid, Bytes>

  /**
   * AES in Galois/Counter Mode (sections 7.1 and 7.2 of NIST SP 800-38D) with the nonce and the
   * Base64 text folded in: enc of a key, a nonce and a JSON value; dec answers None on any failure.
   */
  datatype Cipher = Cipher(enc: (Bytes, nat, Json) -> string, dec: (Bytes, string) -> Option<Json>)

  /** AES takes keys of three sizes. */
  predicate Usable(key: Bytes) {
    |key| == 16 || |key| == 24 || |key| == 32
  }

  /** Decryption undoes encryption; nothing shorter than a nonce decrypts, nor anything under a bad key. */
  ghost predicate Deciphers(c: Cipher) {
    && (forall k, n, m :: Usable(k) ==> c.dec(k, c.enc(k, n, m)) == Some(m))
    && (forall k, s :: !Usable(k) || s == "" ==> c.dec(k, s) == None)
  }

  /** A ciphertext carries a nonce and a tag, so it is longer than the string it encrypts. */
  ghost predicate Expands(c: Cipher) {
    forall k, n, s :: |c.enc(k, n, JStr(s))| > |s|
  }

  datatype PiiError = MalformedPayload | BadKey | DecryptFailed | KeyStoreFailed | NoRandomness

  type Fields = map<string, Json>

  // ---- the two loops, field by field ----

  function SealField(c: Cipher, key: Bytes, nonce: nat, f: string, doc: Fields): Fields {
    if f in doc then doc[f := JStr(c.enc(key, nonce, doc[f]))] else doc
  }

  /** The i-th declared name uses the i-th nonce; a name declared twice is encrypted twice. */
  function SealFields(c: Cipher, key: Bytes, nonce: nat -> nat, names: seq<string>, doc: Fields): Fields {
    if names == [] then doc
    else
      var n := |names| - 1;
      SealField(c, key, nonce(n), names[n], SealFields(c, key, nonce, names[..n], doc))
  }

  /** A value decoded into a Go string: null leaves it empty, and anything else is not a string. */
  function AsString(j: Json): Option<string> {
    match j
    case JNull => Some("")
    case JStr(s) => Some(s)
    case _ => None
  }

  function OpenField(c: Cipher, key: Bytes, f: string, doc: Fields): Option<Fields> {
    if f !in doc || AsString(doc[f]).None? then Some(doc)
    else
      match c.dec(key, AsString(doc[f]).value)
      case None => None
      case Some(m) => Some(doc[f := m])
  }

  function OpenFields(c: Cipher, key: Bytes, names: seq<string>, doc: Fields): Option<Fields> {
    if names == [] then Some(doc)
    else
      var n := |names| - 1;
      match OpenFields(c, key, names[..n], doc)
      case None => None
      case Some(d) => OpenField(c, key, names[n], d)
  }

  /** Some declared field is there to be encrypted. */
  predicate Touches(names: seq<string>, doc: Fields) {
    exists f :: f in names && f in doc
  }

  // ---- Seal and Open on event values ----

  predicate NeedsSeal(e: Event, names: seq<string>) {
    e.piiID.Some? && names != []
  }

  /**
   * What one call of Seal meets outside: whether reading the key fails, the key to issue (None
   * when randomness fails), whether storing it fails, and the nonces, any of which may fail.
   */
  datatype Supply = Supply(getFails: bool, key: Option<Bytes32>, putFails: bool, nonce: nat -> nat, nonceFails: nat -> bool)

  function IssueKey(keys: KeyMap, e: Event, names: seq<string>, supply: Supply): KeyMap {
    if NeedsSeal(e, names) && e.piiID.value !in keys && !supply.getFails && supply.key.Some? && !supply.putFails
    then keys[e.piiID.value := supply.key.value] else keys
  }

  predicate NonceFails(supply: Supply, names: seq<string>, doc: Fields) {
    exists i :: 0 <= i < |names| && names[i] in doc && supply.nonceFails(i)
  }

  /** The event as Seal leaves it, keys being the ring once a key may have been issued. */
  function SealEvent(c: Cipher, keys: KeyMap, supply: Supply, names: seq<string>, e: Event): Result<Event, PiiError> {
    if !NeedsSeal(e, names) then Ok(e)
    else if supply.getFails then Err(KeyStoreFailed)
    else if e.piiID.value !in keys then Err(if supply.key.None? then NoRandomness else KeyStoreFailed)
    else if e.payload.Malformed? then Err(MalformedPayload)
    else if !Usable(keys[e.piiID.value]) && Touches(names, e.payload.fields) then Err(BadKey)
    else if NonceFails(supply, names, e.payload.fields) then Err(NoRandomness)
    else Ok(e.(payload := Doc(SealFields(c, keys[e.piiID.value], supply.nonce, names, e.payload.fields)), manifest := Manifest.Fields(names)))
  }

  /** Whether Open has to read a key. */
  predicate NeedsKey(e: Event) {
    e.piiID.Some? && e.manifest.Fields? && e.manifest.names != []
  }

  function OpenEvent(c: Cipher, keys: KeyMap, e: Event): Result<Event, PiiError> {
    if !NeedsKey(e) then Ok(e)
    else if e.piiID.value !in keys then Ok(e.(piiUnrecoverable := true))
    else if e.payload.Malformed? then Err(MalformedPayload)
    else
      match OpenFields(c, keys[e.piiID.value], e.manifest.names, e.payload.fields)
      case None => Err(DecryptFailed)
      case Some(doc) => Ok(e.(payload := Doc(doc)))
  }

  /** Open when reading the key may fail. */
  function OpenEventOr(c: Cipher, keys: KeyMap, fails: bool, e: Event): Result<Event, PiiError> {
    if NeedsKey(e) && fails then Err(KeyStoreFailed) else OpenEvent(c, keys, e)
  }

  /**
   * Encrypts the event's declared fields in place, issuing its subject's key if there is none.
   * On an error the event is left alone, though the key may have been issued by then.
   */
  method Seal(c: Cipher, ring: KeyRings.KeyRing, event: DomainEvent, names: seq<string>, supply: Supply)
    returns (r: Result<(), PiiError>)
    modifies ring, event
    ensures ring.keys == IssueKey(old(ring.keys), old(event.Value()), names, supply)
    ensures var spec := SealEvent(c, ring.keys, supply, names, old(event.Value()));
            && (r.Ok? <==> spec.Ok?)
            && event.Value() == (if r.Ok? then spec.value else old(event.Value()))
            && (r.Err? ==> r.error == spec.error)
  {
    if event.piiID.None? || |names| == 0 {
      return Ok(());
    }
    var id := event.piiID.value;
    if supply.getFails {
      return Err(KeyStoreFailed);
    }
    var key := ring.Get(id);
    if key.None? {
      if supply.key.None? {
        return Err(NoRandomness);
      }
      if supply.putFails {
        return Err(KeyStoreFailed);
      }
      ring.Put(id, supply.key.value);
      key := Some(supply.key.value);
    }
    if event.payload.Malformed? {
      return Err(MalformedPayload);
    }
    var sealed := SealLoop(c, key.value, names, supply, event.payload.fields);
    if sealed.Err? {
      return Err(sealed.error);
    }
    event.payload := Doc(sealed.value);
    event.manifest := Manifest.Fields(names);
    r := Ok(());
  }

  /** Seal's loop over the declared names. */
  method SealLoop(c: Cipher, key: Bytes, names: seq<string>, supply: Supply, fields: Fields) returns (r: Result<Fields, PiiError>)
    ensures r == if !Usable(key) && Touches(names, fields) then Err(BadKey)
                 else if NonceFails(supply, names, fields) then Err(NoRandomness)
                 else Ok(SealFields(c, key, supply.nonce, names, fields))
  {
    var doc := fields;
    for i := 0 to |names|
      invariant doc == SealFields(c, key, supply.nonce, names[..i], fields)
      invariant doc.Keys == fields.Keys
      invariant Usable(key) || forall j :: 0 <= j < i ==> names[j] !in fields
      invariant forall j :: 0 <= j < i ==> names[j] !in fields || !supply.nonceFails(j)
    {
      assert names[..i + 1][..i] == names[..i];
      if names[i] in doc {
        if !Usable(key) {
          assert names[i] in names && names[i] in fields;
          return Err(BadKey);
        }
        if supply.nonceFails(i) {
          return Err(NoRandomness);
        }
        doc := doc[names[i] := JStr(c.enc(key, supply.nonce(i), doc[names[i]]))];
      }
    }
    assert names[..|names|] == names;
    r := Ok(doc);
  }

  /** Decrypts a copy of the event for a read; the stored event is not touched. */
  method Open(c: Cipher, ring: KeyRings.KeyRing, event: DomainEvent, fails: bool) returns (r: Result<DomainEvent, PiiError>)
    ensures var spec := OpenEventOr(c, ring.keys, fails, event.Value());
            && (r.Ok? <==> spec.Ok?)
            && (r.Ok? ==> fresh(r.value) && r.value.Value() == spec.value)
            && (r.Err? ==> r.error == spec.error)
  {
    var out := new DomainEvent(event.Value());
    if event.piiID.None? || event.manifest.NoManifest? {
      return Ok(out);
    }
    if event.manifest.Foreign? {
      return Ok(out);
    }
    var names := event.manifest.names;
    if |names| == 0 {
      return Ok(out);
    }
    if fails {
      return Err(KeyStoreFailed);
    }
    var key := ring.Get(event.piiID.value);
    if key.None? {
      out.piiUnrecoverable := true;
      return Ok(out);
    }
    if event.payload.Malformed? {
      return Err(MalformedPayload);
    }
    var doc := event.payload.fields;
    for i := 0 to |names|
      invariant OpenFields(c, key.value, names[..i], event.payload.fields) == Some(doc)
      invariant out.Value() == event.Value()
    {
      OpenFieldsStep(c, key.value, names, i, event.payload.fields);
      if names[i] !in doc {
        continue;
      }
      var ciphertext := AsString(doc[names[i]]);
      if ciphertext.None? {
        continue;
      }
      var plaintext := c.dec(key.value, ciphertext.value);
      if plaintext.None? {
        return Err(DecryptFailed);
      }
      doc := doc[names[i] := plaintext.value];
    }
    assert names[..|names|] == names;
    out.payload := Doc(doc);
    r := Ok(out);
  }

  /** One more name, and once a prefix of the names fails the whole list does. */
  lemma {:induction false} OpenFieldsStep(c: Cipher, key: Bytes, names: seq<string>, i: nat, doc: Fields)
    requires i < |names|
    ensures var before := OpenFields(c, key, names[..i], doc);
            OpenFields(c, key, names[..i + 1], doc) == if before.None? then None else OpenField(c, key, names[i], before.value)
    ensures OpenFields(c, key, names[..i + 1], doc).None? ==> OpenFields(c, key, names, doc).None?
  {
    assert names[..i + 1][..i] == names[..i];
    if i + 1 == |names| {
      assert names[..i + 1] == names;
    } else {
      OpenFieldsStep(c, key, names[..|names| - 1], i, doc);
      assert names[..|names| - 1][..i + 1] == names[..i + 1];
    }
  }

  // ---- layers ----

  /** The nonces the occurrences of f are encrypted with, first layer first. */
  function Nonces(nonce: nat -> nat, names: seq<string>, f: string): seq<nat> {
    if names == [] then []
    else
      var n := |names| - 1;
      Nonces(nonce, names[..n], f) + (if names[n] == f then [nonce(n)] else [])
  }

  /** v under one layer of encryption per nonce. */
  function Wrap(c: Cipher, key: Bytes, ns: seq<nat>, v: Json): Json {
    if ns == [] then v else JStr(c.enc(key, ns[|ns| - 1], Wrap(c, key, ns[..|ns| - 1], v)))
  }

  lemma {:induction false} NoncesPrefix(nonce: nat -> nat, names: seq<string>, i: nat, f: string)
    requires i <= |names|
    ensures Nonces(nonce, names[..i], f) <= Nonces(nonce, names, f)
    ensures Nonces(nonce, names, f) == [] <==> f !in names
  {
    if names != [] {
      var n := |names| - 1;
      assert names == names[..n] + [names[n]];
      if i < |names| {
        assert names[..n][..i] == names[..i];
        NoncesPrefix(nonce, names[..n], i, f);
      } else {
        assert names[..i] == names;
        NoncesPrefix(nonce, names[..n], n, f);
      }
    }
  }

  /** A field declared k times gains exactly k layers; a field not declared is untouched. */
  lemma {:induction false} SealAddsLayers(c: Cipher, key: Bytes, nonce: nat -> nat, names: seq<string>, doc: Fields)
    ensures var d := SealFields(c, key, nonce, names, doc);
            && d.Keys == doc.Keys
            && forall f :: f in doc ==> d[f] == Wrap(c, key, Nonces(nonce, names, f), doc[f])
                                        && (f !in names ==> d[f] == doc[f])
                                        && (f in names ==> d[f].JStr?)
  {
    if names != [] {
      var n := |names| - 1;
      var d0, d := SealFields(c, key, nonce, names[..n], doc), SealFields(c, key, nonce, names, doc);
      SealAddsLayers(c, key, nonce, names[..n], doc);
      assert names == names[..n] + [names[n]];
      forall f | f in doc ensures d[f] == Wrap(c, key, Nonces(nonce, names, f), doc[f]) && (f in names ==> d[f].JStr?) {
        var ns := Nonces(nonce, names[..n], f);
        assert (ns + [nonce(n)])[..|ns|] == ns;
        assert d0[f] == Wrap(c, key, ns, doc[f]);
        if names[n] == f {
          assert Nonces(nonce, names, f) == ns + [nonce(n)];
          assert d[f] == JStr(c.enc(key, nonce(n), d0[f]));
          assert Wrap(c, key, ns + [nonce(n)], doc[f]) == JStr(c.enc(key, nonce(n), Wrap(c, key, ns, doc[f])));
        } else {
          assert d[f] == d0[f];
          assert Nonces(nonce, names, f) == ns;
          assert f in names ==> f in names[..n];
        }
      }
    }
  }

  /** w is v encrypted k times over under the key. */
  ghost predicate Layers(c: Cipher, key: Bytes, k: nat, v: Json, w: Json) {
    if k == 0 then w == v
    else exists n, u :: Layers(c, key, k - 1, v, u) && w == JStr(c.enc(key, n, u))
  }

  lemma {:induction false} WrapIsLayers(c: Cipher, key: Bytes, ns: seq<nat>, v: Json)
    ensures Layers(c, key, |ns|, v, Wrap(c, key, ns, v))
  {
    if ns != [] {
      WrapIsLayers(c, key, ns[..|ns| - 1], v);
    }
  }

  lemma {:induction false} NoncesCount(nonce: nat -> nat, names: seq<string>, f: string)
    ensures |Nonces(nonce, names, f)| == multiset(names)[f]
  {
    if names != [] {
      NoncesCount(nonce, names[..|names| - 1], f);
      assert names == names[..|names| - 1] + [names[|names| - 1]];
    }
  }

  /** Every field is encrypted as often as it is declared, and there are no other fields. */
  ghost predicate Enciphered(c: Cipher, key: Bytes, names: seq<string>, doc: Fields, sealed: Fields) {
    sealed.Keys == doc.Keys && forall f :: f in doc ==> Layers(c, key, multiset(names)[f], doc[f], sealed[f])
  }

  lemma SealEnciphers(c: Cipher, key: Bytes, nonce: nat -> nat, names: seq<string>, doc: Fields)
    ensures Enciphered(c, key, names, doc, SealFields(c, key, nonce, names, doc))
  {
    var sealed := SealFields(c, key, nonce, names, doc);
    SealAddsLayers(c, key, nonce, names, doc);
    forall f | f in doc ensures Layers(c, key, multiset(names)[f], doc[f], sealed[f]) {
      WrapIsLayers(c, key, Nonces(nonce, names, f), doc[f]);
      NoncesCount(nonce, names, f);
    }
  }

  /** v after Open has met its field k times. */
  function Unwrap(c: Cipher, key: Bytes, k: nat, v: Json): Option<Json> {
    if k == 0 then Some(v)
    else
      match Unwrap(c, key, k - 1, v)
      case None => None
      case Some(u) => Decrypted(c, key, u)
  }

  /** Each occurrence takes the outermost remaining layer off. */
  lemma {:induction false} UnwrapPeels(c: Cipher, key: Bytes, ns: seq<nat>, v: Json, k: nat)
    requires Deciphers(c) && Usable(key) && k <= |ns|
    ensures Unwrap(c, key, k, Wrap(c, key, ns, v)) == Some(Wrap(c, key, ns[..|ns| - k], v))
  {
    if k == 0 {
      assert ns[..|ns|] == ns;
    } else {
      UnwrapPeels(c, key, ns, v, k - 1);
      var m := |ns| - (k - 1);
      assert ns[..m][..m - 1] == ns[..|ns| - k];
    }
  }

  /** f's value after Open has gone through the names. */
  function Opened(c: Cipher, key: Bytes, nonce: nat -> nat, names: seq<string>, f: string, v: Json): Option<Json> {
    Unwrap(c, key, |Nonces(nonce, names, f)|, v)
  }

  function Decrypted(c: Cipher, key: Bytes, v: Json): Option<Json> {
    if AsString(v).None? then Some(v) else c.dec(key, AsString(v).value)
  }

  lemma OpenedStep(c: Cipher, key: Bytes, nonce: nat -> nat, names: seq<string>, f: string, v: Json)
    requires names != [] && Opened(c, key, nonce, names, f, v).Some?
    ensures var before := Opened(c, key, nonce, names[..|names| - 1], f, v);
            && before.Some?
            && Opened(c, key, nonce, names, f, v)
               == if names[|names| - 1] == f then Decrypted(c, key, before.value) else before
  {
  }

  /** The fields do not interfere: each is opened as often as it is declared. */
  lemma {:induction false} OpenTakesLayers(c: Cipher, key: Bytes, nonce: nat -> nat, names: seq<string>, doc: Fields)
    requires forall f :: f in doc ==> Opened(c, key, nonce, names, f, doc[f]).Some?
    ensures var r := OpenFields(c, key, names, doc);
            && r.Some? && r.value.Keys == doc.Keys
            && forall f :: f in doc ==> Opened(c, key, nonce, names, f, doc[f]) == Some(r.value[f])
  {
    if names == [] {
      assert forall f :: Nonces(nonce, names, f) == [];
    } else {
      var n := |names| - 1;
      forall f | f in doc ensures Opened(c, key, nonce, names[..n], f, doc[f]).Some? {
        OpenedStep(c, key, nonce, names, f, doc[f]);
      }
      OpenTakesLayers(c, key, nonce, names[..n], doc);
      var d, g := OpenFields(c, key, names[..n], doc).value, names[n];
      if g in doc {
        OpenedStep(c, key, nonce, names, g, doc[g]);
        assert d[g := d[g]] == d;
        assert OpenField(c, key, g, d) == Some(d[g := Decrypted(c, key, d[g]).value]);
      }
      forall f | f in doc ensures Opened(c, key, nonce, names, f, doc[f]) == Some(OpenFields(c, key, names, doc).value[f]) {
        OpenedStep(c, key, nonce, names, f, doc[f]);
      }
    }
  }

  /**
   * Opening undoes sealing for every document and every list of names, whether a name is
   * absent from the document or listed many times.
   */
  lemma OpenUndoesSeal(c: Cipher, key: Bytes, nonce: nat -> nat, names: seq<string>, doc: Fields)
    requires Deciphers(c) && Usable(key)
    ensures OpenFields(c, key, names, SealFields(c, key, nonce, names, doc)) == Some(doc)
  {
    var sealed := SealFields(c, key, nonce, names, doc);
    SealAddsLayers(c, key, nonce, names, doc);
    forall f | f in doc ensures Opened(c, key, nonce, names, f, sealed[f]) == Some(doc[f]) {
      UnwrapPeels(c, key, Nonces(nonce, names, f), doc[f], |Nonces(nonce, names, f)|);
    }
    OpenTakesLayers(c, key, nonce, names, sealed);
    assert OpenFields(c, key, names, sealed).value == doc;
  }

  /** A field that Open would try to decrypt and cannot. */
  predicate Rejects(c: Cipher, key: Bytes, doc: Fields, f: string) {
    f in doc && AsString(doc[f]).Some? && c.dec(key, AsString(doc[f]).value).None?
  }

  predicate Rejected(c: Cipher, key: Bytes, names: seq<string>, doc: Fields) {
    exists f :: f in names && Rejects(c, key, doc, f)
  }

  predicate NamedOnce(names: seq<string>) {
    forall i, j :: 0 <= i < j < |names| ==> names[i] != names[j]
  }

  /**
   * Opening fails at any declared field the key rejects; where each name is listed once, it
   * fails at nothing else. A field not named yet is as it was stored.
   */
  lemma {:induction false} OpenFailsIffRejected(c: Cipher, key: Bytes, names: seq<string>, doc: Fields)
    ensures Rejected(c, key, names, doc) ==> OpenFields(c, key, names, doc).None?
    ensures NamedOnce(names) ==> (OpenFields(c, key, names, doc).None? <==> Rejected(c, key, names, doc))
    ensures OpenFields(c, key, names, doc).Some? ==>
              var d := OpenFields(c, key, names, doc).value;
              d.Keys == doc.Keys && forall f :: f in doc && f !in names ==> d[f] == doc[f]
  {
    if names != [] {
      var n := |names| - 1;
      var init, g := names[..n], names[n];
      OpenFailsIffRejected(c, key, init, doc);
      assert names == init + [g];
      assert Rejected(c, key, names, doc) <==> Rejected(c, key, init, doc) || Rejects(c, key, doc, g);
      assert NamedOnce(names) ==> g !in init;
    }
  }

  /**
   * What another key makes of fields sealed under one. With nothing encrypted, nothing is lost.
   * Otherwise opening fails unless each of these very ciphertexts opens under both keys.
   */
  lemma OtherKeyOpens(c: Cipher, key: Bytes, other: Bytes, nonce: nat -> nat, names: seq<string>, doc: Fields)
    ensures var sealed := SealFields(c, key, nonce, names, doc);
            && (!Touches(names, doc) ==> OpenFields(c, other, names, sealed) == Some(doc))
            && (Rejected(c, other, names, sealed) ==> OpenFields(c, other, names, sealed).None?)
            && (NamedOnce(names) ==> (OpenFields(c, other, names, sealed).None? <==> Rejected(c, other, names, sealed)))
  {
    SealAddsLayers(c, key, nonce, names, doc);
    OpenFailsIffRejected(c, other, names, SealFields(c, key, nonce, names, doc));
    if !Touches(names, doc) {
      assert SealFields(c, key, nonce, names, doc) == doc;
      NothingToOpen(c, other, names, doc);
    }
  }

  lemma {:induction false} NothingToOpen(c: Cipher, key: Bytes, names: seq<string>, doc: Fields)
    requires !Touches(names, doc)
    ensures OpenFields(c, key, names, doc) == Some(doc)
  {
    if names != [] {
      var n := |names| - 1;
      assert names[n] in names;
      assert !Touches(names[..n], doc);
      NothingToOpen(c, key, names[..n], doc);
    }
  }

  // ---- on events ----

  /** What the call needs from outside to seal: keys and nonces, where it comes to that. */
  predicate Supplied(supply: Supply, doc: Fields, names: seq<string>) {
    && !supply.getFails && supply.key.Some? && !supply.putFails
    && forall i :: 0 <= i < |names| && names[i] in doc ==> !supply.nonceFails(i)
  }

  /**
   * Whatever else the event is, Seal seals it if it names a subject, its type declares fields,
   * and its payload is an object: under the key the subject has, or a new one if it has none.
   * It leaves the rest of the event and every other subject's key alone, and what it made is
   * read back as it was. It leaves every event without a subject or declared fields alone.
   */
  lemma SealSeals(c: Cipher, keys: KeyMap, supply: Supply, names: seq<string>, e: Event)
    requires e.payload.Doc? && Supplied(supply, e.payload.fields, names)
    requires e.piiID.Some? && e.piiID.value in keys ==> Usable(keys[e.piiID.value])
    ensures var keys' := IssueKey(keys, e, names, supply);
            var sealed := SealEvent(c, keys', supply, names, e);
            if e.piiID.None? || |names| == 0 then keys' == keys && sealed == Ok(e)
            else
              var id := e.piiID.value;
              && keys' == keys[id := if id in keys then keys[id] else supply.key.value]
              && sealed.Ok? && sealed.value.payload.Doc?
              && sealed.value == e.(payload := sealed.value.payload, manifest := Manifest.Fields(names))
              && Enciphered(c, keys'[id], names, e.payload.fields, sealed.value.payload.fields)
              && (Deciphers(c) ==> OpenEvent(c, keys', sealed.value) == Ok(e.(manifest := Manifest.Fields(names))))
              && OpenEvent(c, keys' - {id}, sealed.value) == Ok(sealed.value.(piiUnrecoverable := true))
  {
    if e.piiID.Some? && |names| > 0 {
      var keys', id := IssueKey(keys, e, names, supply), e.piiID.value;
      SealEnciphers(c, keys'[id], supply.nonce, names, e.payload.fields);
      assert id in keys ==> keys[id := keys[id]] == keys;
      if Deciphers(c) {
        OpenUndoesSeal(c, keys'[id], supply.nonce, names, e.payload.fields);
      }
    }
  }

  /** An address changed by version 2 of user 7, of which only the address is declared. */
  lemma ChangedEmailIsSealed(c: Cipher, supply: Supply)
    requires Supplied(supply, map["email" := JStr("a@b.c")], ["email"])
    ensures var e := Event(0, NIL_UUID, 1, 2, "user.email_changed", Doc(map["email" := JStr("a@b.c")]), Some(7), NoManifest, false);
            var keys := IssueKey(map[], e, ["email"], supply);
            keys == map[7 := supply.key.value]
            && exists n :: SealEvent(c, keys, supply, ["email"], e)
                           == Ok(e.(payload := Doc(map["email" := JStr(c.enc(keys[7], n, JStr("a@b.c")))]), manifest := Manifest.Fields(["email"])))
  {
    var doc := map["email" := JStr("a@b.c")];
    assert ["email"][..0] == [] && SealFields(c, supply.key.value, supply.nonce, ["email"][..0], doc) == doc;
    assert SealFields(c, supply.key.value, supply.nonce, ["email"], doc)
           == map["email" := JStr(c.enc(supply.key.value, supply.nonce(0), JStr("a@b.c")))];
  }

  /** When something is missing, the error says what, in the order Seal comes to need it. */
  lemma SealFailsWith(c: Cipher, keys: KeyMap, supply: Supply, names: seq<string>, e: Event)
    requires e.piiID.Some? && |names| > 0
    ensures var id, r := e.piiID.value, SealEvent(c, IssueKey(keys, e, names, supply), supply, names, e);
            && (supply.getFails ==> r == Err(KeyStoreFailed) && IssueKey(keys, e, names, supply) == keys)
            && (!supply.getFails && id !in keys && supply.key.None? ==> r == Err(NoRandomness))
            && (!supply.getFails && id !in keys && supply.key.Some? && supply.putFails ==> r == Err(KeyStoreFailed))
            && (!supply.getFails && id !in keys && (supply.key.None? || supply.putFails) ==> IssueKey(keys, e, names, supply) == keys)
            && (!supply.getFails && id in keys && e.payload.Malformed? ==> r == Err(MalformedPayload))
            && (!supply.getFails && id in keys && e.payload.Doc? && !Usable(keys[id]) ==>
                  (r == Err(BadKey) <==> exists f :: f in names && f in e.payload.fields))
            && (!supply.getFails && id in keys && e.payload.Doc? && Usable(keys[id]) ==>
                  (r == Err(NoRandomness) <==> exists i :: 0 <= i < |names| && names[i] in e.payload.fields && supply.nonceFails(i))
                  && (r.Err? ==> r == Err(NoRandomness)))
  {
  }

  /** With the key at hand a read of a sealed event is the event as given to Seal, plus its manifest. */
  lemma OpenUndoesSealEvent(c: Cipher, keys: KeyMap, supply: Supply, names: seq<string>, e: Event, later: KeyMap)
    requires Deciphers(c) && NeedsSeal(e, names)
    requires SealEvent(c, keys, supply, names, e).Ok? && Usable(keys[e.piiID.value])
    ensures e.payload.Doc?
    ensures e.piiID.value in later && later[e.piiID.value] == keys[e.piiID.value]
            ==> OpenEvent(c, later, SealEvent(c, keys, supply, names, e).value) == Ok(e.(manifest := Manifest.Fields(names)))
    ensures e.piiID.value !in later
            ==> var sealed := SealEvent(c, keys, supply, names, e).value;
                OpenEvent(c, later, sealed) == Ok(sealed.(piiUnrecoverable := true))
  {
    OpenUndoesSeal(c, keys[e.piiID.value], supply.nonce, names, e.payload.fields);
  }

  /**
   * A subject that is sealed again after being forgotten gets another key. From then on an
   * event sealed under the first one, which came back flagged before, fails to open whenever
   * the new key rejects one of its ciphertexts, and never when it has none.
   */
  lemma ReissuedKeyFailsIffRejected(c: Cipher, keys: KeyMap, supply: Supply, names: seq<string>, e: Event, later: KeyMap)
    requires Deciphers(c) && NeedsSeal(e, names) && e.piiID.value in later
    requires SealEvent(c, keys, supply, names, e).Ok? && Usable(keys[e.piiID.value])
    ensures var sealed, id := SealEvent(c, keys, supply, names, e).value, e.piiID.value;
            var read := OpenEvent(c, later, sealed);
            && (read.Err? ==> read == Err(DecryptFailed) && Touches(names, e.payload.fields) && later[id] != keys[id])
            && (Rejected(c, later[id], names, sealed.payload.fields) ==> read.Err?)
            && (NamedOnce(names) ==> (read.Err? <==> Rejected(c, later[id], names, sealed.payload.fields)))
  {
    OtherKeyOpens(c, keys[e.piiID.value], later[e.piiID.value], supply.nonce, names, e.payload.fields);
    OpenUndoesSeal(c, keys[e.piiID.value], supply.nonce, names, e.payload.fields);
  }

  /**
   * A commit that is refused leaves its events sealed, and a retry seals them once more, under
   * a manifest that still lists each name once. Reading such an event gives back what was
   * recorded if and only if it holds none of the declared fields.
   */
  lemma SealedTwiceReadsBackIffUntouched(c: Cipher, keys: KeyMap, supply: Supply, again: Supply, names: seq<string>, e: Event)
    requires Deciphers(c) && Expands(c) && NeedsSeal(e, names)
    requires SealEvent(c, keys, supply, names, e).Ok? && Usable(keys[e.piiID.value])
    requires SealEvent(c, keys, again, names, SealEvent(c, keys, supply, names, e).value).Ok?
    ensures var once := SealEvent(c, keys, supply, names, e);
            && OpenEvent(c, keys, SealEvent(c, keys, again, names, once.value).value) == once
            && (once.value.payload == e.payload <==> !Touches(names, e.payload.fields))
  {
    var key, doc := keys[e.piiID.value], e.payload.fields;
    var once := SealFields(c, key, supply.nonce, names, doc);
    OpenUndoesSeal(c, key, again.nonce, names, once);
    SealAddsLayers(c, key, supply.nonce, names, doc);
    forall f | f in doc ensures once[f] == doc[f] <==> f !in names {
      if f in names {
        NoncesPrefix(supply.nonce, names, |names|, f);
        WrapGrows(c, key, Nonces(supply.nonce, names, f), doc[f]);
      }
    }
    if !Touches(names, doc) {
      assert once == doc;
    }
  }

  lemma {:induction false} WrapGrows(c: Cipher, key: Bytes, ns: seq<nat>, v: Json)
    requires Expands(c)
    ensures v.JStr? ==> Wrap(c, key, ns, v).JStr? && |Wrap(c, key, ns, v).s| >= |v.s|
    ensures ns != [] ==> Wrap(c, key, ns, v) != v
  {
    if ns != [] {
      WrapGrows(c, key, ns[..|ns| - 1], v);
    }
  }

  // ---- at one input ----

  const SAMPLE := Event(0, NIL_UUID, 1, 1, "user.registered", Doc(map["email" := JStr("a@b.c"), "name" := JStr("A")]), Some(1), NoManifest, false)

  const OTHER_KEY: Bytes32 := ZERO_BYTES[0 := 1]

  /** Nothing fails. */
  function Plenty(key: Bytes32, nonce: nat -> nat): Supply {
    Supply(false, Some(key), false, nonce, _ => false)
  }

  /**
   * Forgotten, the sample reads back flagged; once its subject has been sealed anew, not at
   * all, unless its one ciphertext happens to open under the new key as well.
   */
  lemma ReissuedKeyLosesSample(c: Cipher, nonce: nat -> nat)
    requires Deciphers(c)
    ensures var sealed := SealEvent(c, map[1 := ZERO_BYTES], Plenty(ZERO_BYTES, nonce), ["email"], SAMPLE);
            && sealed.Ok?
            && OpenEvent(c, map[], sealed.value) == Ok(sealed.value.(piiUnrecoverable := true))
            && (OpenEvent(c, map[1 := OTHER_KEY], sealed.value) == Err(DecryptFailed)
                <==> c.dec(OTHER_KEY, c.enc(ZERO_BYTES, nonce(0), JStr("a@b.c"))).None?)
  {
    var doc := SAMPLE.payload.fields;
    var sealed := SealFields(c, ZERO_BYTES, nonce, ["email"], doc);
    assert ["email"][..0] == [] && "email" in doc;
    assert SealFields(c, ZERO_BYTES, nonce, ["email"][..0], doc) == doc;
    assert sealed == doc["email" := JStr(c.enc(ZERO_BYTES, nonce(0), doc["email"]))];
    ReissuedKeyFailsIffRejected(c, map[1 := ZERO_BYTES], Plenty(ZERO_BYTES, nonce), ["email"], SAMPLE, map[1 := OTHER_KEY]);
    assert "email" in ["email"];
    assert Rejected(c, OTHER_KEY, ["email"], sealed) <==> Rejects(c, OTHER_KEY, sealed, "email");
  }

  /** Sealed by a commit that is refused and again by its retry, the sample reads back as ciphertext. */
  lemma RetriedSampleReadsCiphertext(c: Cipher, nonce: nat -> nat, again: nat -> nat)
    requires Deciphers(c) && Expands(c)
    ensures var keys := map[1 := ZERO_BYTES];
            var once := SealEvent(c, keys, Plenty(ZERO_BYTES, nonce), ["email"], SAMPLE);
            && once.Ok? && SealEvent(c, keys, Plenty(ZERO_BYTES, again), ["email"], once.value).Ok?
            && var read := OpenEvent(c, keys, SealEvent(c, keys, Plenty(ZERO_BYTES, again), ["email"], once.value).value);
               read.Ok? && !read.value.piiUnrecoverable && read.value.payload != SAMPLE.payload
  {
    assert "email" in ["email"] && "email" in SAMPLE.payload.fields;
    SealedTwiceReadsBackIffUntouched(c, map[1 := ZERO_BYTES], Plenty(ZERO_BYTES, nonce), Plenty(ZERO_BYTES, again), ["email"], SAMPLE);
  }

  // ---- the laws do not contradict each other ----

  function Ones(n: nat): string {
    seq(n, i => '1')
  }

  /** A JSON value as text that no other value has. */
  function Text(m: Json): string {
    match m
    case JNull => "n"
    case JStr(s) => "s" + s
    case JOther(t) => "o" + t
    case JNum(n) => if n >= 0 then "p" + Ones(n) else "m" + Ones(-n)
  }

  function KeyText(k: Bytes): string {
    seq(|k|, i requires 0 <= i < |k| => (k[i] as int) as char)
  }

  /** No secret is kept, but the key and the value can each be told from the text. */
  function Plainly(k: Bytes, m: Json): string {
    Ones(|k|) + "." + KeyText(k) + Text(m)
  }

  lemma DotAfterOnes(k: Bytes, m: Json)
    ensures forall i :: 0 <= i < |k| ==> Plainly(k, m)[i] == '1'
    ensures Plainly(k, m)[|k|] == '.'
  {
  }

  lemma PlainlyInjective(k: Bytes, m: Json, k': Bytes, m': Json)
    requires Plainly(k, m) == Plainly(k', m')
    ensures k == k' && m == m'
  {
    var s := Plainly(k, m);
    DotAfterOnes(k, m);
    DotAfterOnes(k', m');
    assert KeyText(k) == s[|k| + 1..2 * |k| + 1] == KeyText(k');
    forall i | 0 <= i < |k| ensures k[i] == k'[i] {
      assert KeyText(k)[i] == KeyText(k')[i];
      assert KeyText(k)[i] as int == k[i] as int && KeyText(k')[i] as int == k'[i] as int;
    }
    assert Text(m) == s[2 * |k| + 1..] == Text(m');
    assert Text(m)[0] == Text(m')[0] && Text(m)[1..] == Text(m')[1..];
    if m.JNum? {
      assert |Text(m)| == |Text(m')|;
    }
  }

  /** And a cipher may well give each ciphertext to one key only. */
  lemma CiphersExist()
    ensures exists c :: Deciphers(c) && Expands(c) && forall k, k', n, m :: k != k' ==> c.dec(k', c.enc(k, n, m)) == None
  {
    var c := Cipher(
      (k, n, m) => Plainly(k, m),
      (k, s) => if Usable(k) && exists m :: s == Plainly(k, m) then var m :| s == Plainly(k, m); Some(m) else None);
    forall k, k', m, m' | Plainly(k, m) == Plainly(k', m') ensures k == k' && m == m' {
      PlainlyInjective(k, m, k', m');
    }
    forall k, n, m | Usable(k) ensures c.dec(k, c.enc(k, n, m)) == Some(m) {
      assert c.enc(k, n, m) == Plainly(k, m);
    }
    assert Deciphers(c) && Expands(c) && forall k, k', n, m :: k != k' ==> c.dec(k', c.enc(k, n, m)) == None;
  }
}
