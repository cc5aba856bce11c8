/** The event envelope, its stored value, and the per-call store options. */
module Events {
  import opened Common

  /** One JSON value. Only strings and integers are looked into; key order and whitespace are not kept. */
  datatype Json = JNull | JStr(s: string) | JNum(n: int) | JOther(text: string)

  /** A payload column: a JSON object, or bytes that do not decode to one. */
  datatype Payload = Doc(fields: map<string, Json>) | Malformed

  /** The pii_fields column: absent, a manifest naming payload fields, or JSON of another shape. */
  datatype Manifest = NoManifest | Fields(names: seq<string>) | Foreign

  datatype Event = Event(
    globalID: nat,
    tenantID: Uuid,
    aggregateID: Uuid,
    version: nat,
    name: string,
    payload: Payload,
    piiID: Option<Uuid>,
    manifest: Manifest,
    piiUnrecoverable: bool)

  /** The reserved tenant whose events every tenant may read. */
  const GLOBAL_TENANT: Uuid := NIL_UUID

  /** One aggregate's stream within one tenant. */
  datatype StreamKey = StreamKey(tenantID: Uuid, aggregateID: Uuid)

  datatype StoreError = ConcurrencyConflict | AggregateNotFound | SubjectNotFound

  function KeyOf(e: Event): StreamKey {
    StreamKey(e.tenantID, e.aggregateID)
  }

  /** The guard of every scoped read. */
  predicate Visible(t: Option<Uuid>, e: Event) {
    t == None || e.tenantID == t.value || e.tenantID == GLOBAL_TENANT
  }

  function VisibleTo(t: Option<Uuid>): Event -> bool {
    (e: Event) => Visible(t, e)
  }

  function HasKey(k: StreamKey): Event -> bool {
    (e: Event) => KeyOf(e) == k
  }

  function OfAggregate(a: Uuid): Event -> bool {
    (e: Event) => e.aggregateID == a
  }

  function HasPii(p: Uuid): Event -> bool {
    (e: Event) => e.piiID == Some(p)
  }

  /** What a cursor read keeps: events past the cursor that the tenant may see. */
  function PastCursor(lastID: nat, t: Option<Uuid>): Event -> bool {
    (e: Event) => lastID < e.globalID && Visible(t, e)
  }

  // ---- store options ----

  datatype StoreOption = WithTenant(tenantID: Uuid) | WithAllTenants

  datatype StoreConfig = StoreConfig(tenantID: Option<Uuid>, allTenants: bool)

  function ApplyOption(c: StoreConfig, o: StoreOption): StoreConfig {
    match o
    case WithTenant(t) => c.(tenantID := Some(t))
    case WithAllTenants => c.(allTenants := true)
  }

  function Resolve(opts: seq<StoreOption>): StoreConfig {
    if opts == [] then StoreConfig(None, false)
    else ApplyOption(Resolve(opts[..|opts| - 1]), opts[|opts| - 1])
  }

  /** The last tenant named wins; the flag for all tenants, once given, stays. */
  lemma {:induction false} ResolveIs(opts: seq<StoreOption>)
    ensures var c := Resolve(opts);
            && (c.allTenants <==> WithAllTenants in opts)
            && match c.tenantID
               case None => forall i :: 0 <= i < |opts| ==> !opts[i].WithTenant?
               case Some(t) => exists i :: 0 <= i < |opts| && opts[i] == WithTenant(t) && forall j :: i < j < |opts| ==> !opts[j].WithTenant?
  {
    if opts != [] {
      var init, last := opts[..|opts| - 1], opts[|opts| - 1];
      ResolveIs(init);
      assert opts == init + [last];
      if last.WithAllTenants? && Resolve(init).tenantID.Some? {
        var i :| 0 <= i < |init| && init[i] == WithTenant(Resolve(init).tenantID.value) && forall j :: i < j < |init| ==> !init[j].WithTenant?;
        assert opts[i] == init[i];
      }
    }
  }

  method ResolveStoreConfig(opts: seq<StoreOption>) returns (c: StoreConfig)
    ensures c == Resolve(opts)
  {
    c := StoreConfig(None, false);
    for i := 0 to |opts|
      invariant c == Resolve(opts[..i])
    {
      assert opts[..i + 1][..i] == opts[..i];
      c := ApplyOption(c, opts[i]);
    }
    assert opts[..|opts|] == opts;
  }

  /** The mutable envelope that commands build, Seal encrypts and Commit numbers. */
  class DomainEvent {
    var globalID: nat
    var tenantID: Uuid
    var aggregateID: Uuid
    var version: nat
    var name: string
    var payload: Payload
    var piiID: Option<Uuid>
    var manifest: Manifest
    var piiUnrecoverable: bool

    constructor (v: Event)
      ensures Value() == v
    {
      globalID, tenantID, aggregateID, version := v.globalID, v.tenantID, v.aggregateID, v.version;
      name, payload, piiID := v.name, v.payload, v.piiID;
      manifest, piiUnrecoverable := v.manifest, v.piiUnrecoverable;
    }

    function Value(): Event
      reads this
    {
      Event(globalID, tenantID, aggregateID, version, name, payload, piiID, manifest, piiUnrecoverable)
    }
  }

  /** The values a sequence of envelopes currently holds. */
  ghost function Values(es: seq<DomainEvent>): (r: seq<Event>)
    reads es
    ensures |r| == |es|
  {
    seq(|es|, i requires 0 <= i < |es| reads es => es[i].Value())
  }

  ghost predicate Distinct(es: seq<DomainEvent>) {
    forall i, j :: 0 <= i < j < |es| ==> es[i] != es[j]
  }
}
