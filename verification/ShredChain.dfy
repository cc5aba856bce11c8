/** The erasure ledger's records and the hash chain that links them. */
module ShredChain {
  import opened Common

  type Digest = Bytes32

  const ZERO: Digest := ZERO_BYTES

  /** SHA-256 (section 6.2 of FIPS 180-4), about which nothing is assumed. */
  type Hash = Bytes -> Digest

  const SECOND := 1_000_000_000

  /** Nanoseconds since the Unix epoch, within the range of a 64-bit count of seconds. */
  type Time = t: int | -0x8000_0000_0000_0000 <= t / SECOND < 0x8000_0000_0000_0000

  function Seconds(t: Time): int {
    t / SECOND
  }

  datatype ShredRecord = ShredRecord(piiID: Uuid, erasedAt: Time, origin: uint64, prevHash: Digest, hash: Digest)

  // ---- the hashed layout ----

  function Power256(width: nat): nat {
    if width == 0 then 1 else 256 * Power256(width - 1)
  }

  /** The low width bytes of n, most significant first. */
  function BigEndian(n: nat, width: nat): (r: Bytes)
    ensures |r| == width
  {
    if width == 0 then [] else BigEndian(n / 256, width - 1) + [n % 256]
  }

  /** The number that bytes spell, the most significant first. */
  function ValueOf(bytes: Bytes): nat {
    if bytes == [] then 0 else ValueOf(bytes[..|bytes| - 1]) * 256 + bytes[|bytes| - 1]
  }

  lemma {:induction false} BigEndianSpells(n: nat, width: nat)
    requires n < Power256(width)
    ensures ValueOf(BigEndian(n, width)) == n
  {
    if width > 0 {
      var high := BigEndian(n / 256, width - 1);
      assert (high + [n % 256])[..width - 1] == high;
      BigEndianSpells(n / 256, width - 1);
    }
  }

  /** A signed 64-bit count of seconds, reinterpreted as unsigned. */
  function UnsignedSeconds(t: Time): uint64 {
    Seconds(t) % 0x1_0000_0000_0000_0000
  }

  /** previous link (32 bytes), subject (16), whole second (8), origin (8). */
  function HashInput(prev: Digest, piiID: Uuid, erasedAt: Time, origin: uint64): (r: Bytes)
    ensures |r| == 64
  {
    prev + BigEndian(piiID, 16) + BigEndian(UnsignedSeconds(erasedAt), 8) + BigEndian(origin, 8)
  }

  lemma Widths()
    ensures Power256(8) == 0x1_0000_0000_0000_0000
    ensures Power256(16) == 0x1_0000_0000_0000_0000_0000_0000_0000_0000
  {
    assert Power256(4) == 0x1_0000_0000;
    assert Power256(8) == 256 * (256 * (256 * (256 * Power256(4))));
    assert Power256(12) == 256 * (256 * (256 * (256 * Power256(8))));
    assert Power256(16) == 256 * (256 * (256 * (256 * Power256(12))));
  }

  /** The 64 bytes: where each field is, and what number its bytes spell. */
  lemma LayoutSpells(prev: Digest, piiID: Uuid, erasedAt: Time, origin: uint64)
    ensures var x, seconds := HashInput(prev, piiID, erasedAt, origin), erasedAt / SECOND;
            && x[..32] == prev
            && ValueOf(x[32..48]) == piiID
            && ValueOf(x[48..56]) == (if seconds >= 0 then seconds else seconds + 0x1_0000_0000_0000_0000)
            && ValueOf(x[56..]) == origin
  {
    var x := HashInput(prev, piiID, erasedAt, origin);
    assert x[..32] == prev;
    assert x[32..48] == BigEndian(piiID, 16);
    assert x[48..56] == BigEndian(UnsignedSeconds(erasedAt), 8);
    assert x[56..] == BigEndian(origin, 8);
    Widths();
    BigEndianSpells(piiID, 16);
    BigEndianSpells(UnsignedSeconds(erasedAt), 8);
    BigEndianSpells(origin, 8);
  }

  /** So equal inputs have equal fields. */
  lemma LayoutInjective(p: Digest, i: Uuid, t: Time, o: uint64, p': Digest, i': Uuid, t': Time, o': uint64)
    requires HashInput(p, i, t, o) == HashInput(p', i', t', o')
    ensures p == p' && i == i' && Seconds(t) == Seconds(t') && o == o'
  {
    LayoutSpells(p, i, t, o);
    LayoutSpells(p', i', t', o');
  }

  /** Copies src into buf at offset. */
  method CopyInto(buf: array<byte>, offset: nat, src: Bytes)
    requires offset + |src| <= buf.Length
    modifies buf
    ensures buf[offset..offset + |src|] == src
    ensures buf[..offset] == old(buf[..offset])
  {
    for k := 0 to |src|
      invariant buf[offset..offset + k] == src[..k]
      invariant buf[..offset] == old(buf[..offset])
    {
      buf[offset + k] := src[k];
    }
  }

  /** Fills the 64-byte buffer field by field and hashes it. */
  method ShredRecordHash(h: Hash, prev: Digest, piiID: Uuid, erasedAt: Time, origin: uint64) returns (r: Digest)
    ensures r == h(HashInput(prev, piiID, erasedAt, origin))
  {
    var buf := new byte[64](_ => 0);
    CopyInto(buf, 0, prev);
    CopyInto(buf, 32, BigEndian(piiID, 16));
    assert buf[..48] == prev + BigEndian(piiID, 16);
    CopyInto(buf, 48, BigEndian(UnsignedSeconds(erasedAt), 8));
    assert buf[..56] == buf[..48] + buf[48..56];
    CopyInto(buf, 56, BigEndian(origin, 8));
    assert buf[..64] == buf[..56] + buf[56..64];
    assert buf[..] == buf[..64];
    r := h(buf[..]);
  }

  // ---- the chain ----

  function TailHash(rs: seq<ShredRecord>): Digest {
    if rs == [] then ZERO else rs[|rs| - 1].hash
  }

  function InputOf(r: ShredRecord): Bytes {
    HashInput(r.prevHash, r.piiID, r.erasedAt, r.origin)
  }

  ghost predicate Linked(h: Hash, rs: seq<ShredRecord>, i: nat)
    requires i < |rs|
  {
    rs[i].prevHash == TailHash(rs[..i]) && rs[i].hash == h(InputOf(rs[i]))
  }

  ghost predicate Chained(h: Hash, rs: seq<ShredRecord>) {
    forall i :: 0 <= i < |rs| ==> Linked(h, rs, i)
  }

  /** The index of the first broken link, or None when every link holds. */
  method CheckShredChain(h: Hash, rs: seq<ShredRecord>) returns (broken: Option<nat>)
    ensures broken.None? <==> Chained(h, rs)
    ensures broken.Some? ==> broken.value < |rs| && !Linked(h, rs, broken.value)
                             && forall i :: 0 <= i < broken.value ==> Linked(h, rs, i)
  {
    var prev := ZERO;
    for i := 0 to |rs|
      invariant prev == TailHash(rs[..i])
      invariant forall j :: 0 <= j < i ==> Linked(h, rs, j)
    {
      var r := rs[i];
      if r.prevHash != prev {
        assert !Linked(h, rs, i);
        return Some(i);
      }
      var want := ShredRecordHash(h, prev, r.piiID, r.erasedAt, r.origin);
      if r.hash != want {
        assert !Linked(h, rs, i);
        return Some(i);
      }
      prev := r.hash;
    }
    broken := None;
  }

  /** The record Append adds after the given ones. */
  function NextRecord(h: Hash, rs: seq<ShredRecord>, piiID: Uuid, erasedAt: Time, origin: uint64): ShredRecord {
    var prev := TailHash(rs);
    ShredRecord(piiID, erasedAt, origin, prev, h(HashInput(prev, piiID, erasedAt, origin)))
  }

  lemma AppendKeepsChain(h: Hash, rs: seq<ShredRecord>, r: ShredRecord)
    requires Chained(h, rs)
    ensures Chained(h, rs + [r]) <==> r.prevHash == TailHash(rs) && r.hash == h(InputOf(r))
  {
    var rs' := rs + [r];
    assert rs'[..|rs|] == rs;
    forall i | 0 <= i < |rs| ensures Linked(h, rs', i) {
      assert Linked(h, rs, i) && rs'[..i] == rs[..i];
    }
    assert Chained(h, rs') ==> Linked(h, rs', |rs|);
  }

  /** A chain says nothing about records cut off its end: every prefix of it is one too. */
  lemma PrefixesChained(h: Hash, rs: seq<ShredRecord>, n: nat)
    requires Chained(h, rs) && n <= |rs|
    ensures Chained(h, rs[..n])
  {
    forall i | 0 <= i < n ensures Linked(h, rs[..n], i) {
      assert Linked(h, rs, i) && rs[..n][..i] == rs[..i];
    }
  }

  // ---- tamper evidence ----

  datatype Break = Collision(x: Bytes, y: Bytes) | ZeroPreimage(x: Bytes)

  /** A failure of the hash itself, exhibited on 64-byte inputs. */
  predicate Breaks(h: Hash, b: Break) {
    match b
    case Collision(x, y) => |x| == |y| == 64 && x != y && h(x) == h(y)
    case ZeroPreimage(x) => |x| == 64 && h(x) == ZERO
  }

  predicate SameRecord(a: ShredRecord, b: ShredRecord) {
    && a.piiID == b.piiID && Seconds(a.erasedAt) == Seconds(b.erasedAt) && a.origin == b.origin
    && a.prevHash == b.prevHash && a.hash == b.hash
  }

  predicate SameLedger(a: seq<ShredRecord>, b: seq<ShredRecord>) {
    |a| == |b| && forall i :: 0 <= i < |a| ==> SameRecord(a[i], b[i])
  }

  /**
   * Two valid chains with the same last hash are the same ledger, record by record and to the
   * second; otherwise walking them back finds an input pair or input that breaks the hash.
   */
  function Compare(h: Hash, a: seq<ShredRecord>, b: seq<ShredRecord>): (r: Option<Break>)
    requires Chained(h, a) && Chained(h, b) && TailHash(a) == TailHash(b)
    ensures r.None? ==> SameLedger(a, b)
    ensures r.Some? ==> Breaks(h, r.value)
  {
    if a == [] && b == [] then None
    else if a == [] then assert Linked(h, b, |b| - 1); Some(ZeroPreimage(InputOf(b[|b| - 1])))
    else if b == [] then assert Linked(h, a, |a| - 1); Some(ZeroPreimage(InputOf(a[|a| - 1])))
    else
      var ra, rb := a[|a| - 1], b[|b| - 1];
      assert Linked(h, a, |a| - 1) && Linked(h, b, |b| - 1);
      if InputOf(ra) != InputOf(rb) then Some(Collision(InputOf(ra), InputOf(rb)))
      else
        LayoutInjective(ra.prevHash, ra.piiID, ra.erasedAt, ra.origin, rb.prevHash, rb.piiID, rb.erasedAt, rb.origin);
        PrefixesChained(h, a, |a| - 1);
        PrefixesChained(h, b, |b| - 1);
        Compare(h, a[..|a| - 1], b[..|b| - 1])
  }

  /** The same ledger with other times stored in it. */
  predicate DifferOnlyInTime(a: seq<ShredRecord>, b: seq<ShredRecord>) {
    |a| == |b| && forall i :: 0 <= i < |a| ==> b[i] == a[i].(erasedAt := b[i].erasedAt)
  }

  /** A stored time still hashes to the record's hash: it kept its second, or the hash collides. */
  predicate TimeHolds(h: Hash, a: ShredRecord, b: ShredRecord) {
    Seconds(a.erasedAt) == Seconds(b.erasedAt) || Breaks(h, Collision(InputOf(a), InputOf(b)))
  }

  /**
   * A valid chain whose stored times changed is still valid exactly when every time kept its
   * second; any other outcome exhibits a collision at the record where it happened.
   */
  lemma ChainedIffSecondsKept(h: Hash, a: seq<ShredRecord>, b: seq<ShredRecord>)
    requires Chained(h, a) && DifferOnlyInTime(a, b)
    ensures Chained(h, b) <==> forall i :: 0 <= i < |a| ==> TimeHolds(h, a[i], b[i])
  {
    forall i | 0 <= i < |a| ensures Linked(h, b, i) <==> TimeHolds(h, a[i], b[i]) {
      assert Linked(h, a, i) && TailHash(b[..i]) == TailHash(a[..i]);
      if InputOf(a[i]) == InputOf(b[i]) {
        LayoutInjective(a[i].prevHash, a[i].piiID, a[i].erasedAt, a[i].origin, b[i].prevHash, b[i].piiID, b[i].erasedAt, b[i].origin);
      }
    }
  }

  // ---- the in-memory ledger ----

  class ErasureLedger {
    const h: Hash
    var records: seq<ShredRecord>

    constructor (h: Hash)
      ensures this.h == h && records == [] && Chained(h, records)
    {
      this.h := h;
      records := [];
    }

    method Append(piiID: Uuid, erasedAt: Time, origin: uint64)
      modifies this
      ensures records == old(records) + [NextRecord(h, old(records), piiID, erasedAt, origin)]
      ensures Chained(h, old(records)) ==> Chained(h, records)
    {
      var prev := if |records| > 0 then records[|records| - 1].hash else ZERO;
      var hash := ShredRecordHash(h, prev, piiID, erasedAt, origin);
      ghost var r := NextRecord(h, records, piiID, erasedAt, origin);
      if Chained(h, records) {
        AppendKeepsChain(h, records, r);
      }
      records := records + [ShredRecord(piiID, erasedAt, origin, prev, hash)];
    }

    method Entries() returns (out: seq<ShredRecord>)
      ensures out == records
    {
      out := records;
    }
  }
}
