/**
 * Any number of sealed commits and erasures in progress at once, one key, store or ledger
 * operation at a time, whatever they do to each other. The one premise is that every event is
 * handed to Commit once, as recorded.
 */
module Shredding {
  import opened Common
  import opened Events
  import opened EventLog
  import opened Pii
  import opened PiiStore
  import opened ShredChain

  datatype Phase = Preparing | Forgetting | Recording | Failed

  /**
   * A call of Commit: the events as recorded, as they now are, the key each was sealed under,
   * and the index it works at.
   */
  datatype Tx = Tx(
    plain: seq<Event>, batch: seq<Event>, under: seq<Option<Bytes>>,
    expected: nat, tenant: Option<Uuid>, at: nat, phase: Phase)

  /**
   * log, keys and ledger are the three stores. The rest only describes the run: the log as it
   * would be unsealed, the key each of its events was sealed under, and the subjects whose key
   * was ever forgotten.
   */
  datatype State = State(
    log: seq<Event>, keys: KeyMap, ledger: seq<ShredRecord>,
    plain: seq<Event>, under: seq<Option<Bytes>>, shredded: set<Uuid>, txs: map<nat, Tx>)

  datatype Step =
    | Begin(x: nat, batch: seq<Event>, expected: nat, tenant: Option<Uuid>)
    | SealNext(x: nat, supply: Supply)
    | StoreCommit(x: nat)
    | ForgetNext(x: nat)
    | RecordNext(x: nat, now: Time)

  const INITIAL := State([], map[], [], [], [], {}, map[])

  /** The cipher, the hash, the event registry, and whether an erasure ledger is mounted. */
  datatype Env = Env(c: Cipher, h: Hash, reg: Registry, mounted: bool)

  /** As RecordThat leaves an event: not sealed. */
  predicate Unsealed(e: Event) {
    e.manifest.NoManifest? && !e.piiUnrecoverable
  }

  predicate Seals(env: Env, e: Event) {
    NeedsSeal(e, PiiFieldsOf(env.reg, e))
  }

  function Unkeyed(n: nat): seq<Option<Bytes>> {
    seq(n, i => None)
  }

  function DoSeal(env: Env, s: State, x: nat, supply: Supply): State
    requires x in s.txs && s.txs[x].at < |s.txs[x].batch| == |s.txs[x].under|
  {
    var tx := s.txs[x];
    var e, names := tx.batch[tx.at], PiiFieldsOf(env.reg, tx.batch[tx.at]);
    var keys := IssueKey(s.keys, e, names, supply);
    var tx' :=
      match SealEvent(env.c, keys, supply, names, e)
      case Err(_) => tx.(phase := Failed)
      case Ok(sealed) =>
        var under := if NeedsSeal(e, names) && e.piiID.value in keys then Some(keys[e.piiID.value]) else None;
        tx.(batch := tx.batch[tx.at := sealed], under := tx.under[tx.at := under], at := tx.at + 1);
    s.(keys := keys, txs := s.txs[x := tx'])
  }

  function DoStore(s: State, x: nat): State
    requires x in s.txs
  {
    var tx := s.txs[x];
    match EventLog.Commit(s.log, tx.batch, tx.expected, tx.tenant)
    case Err(_) => s.(txs := s.txs[x := tx.(phase := Failed)])
    case Ok(log) =>
      var batch := Number(StampAll(tx.tenant, tx.batch), |s.log|);
      var plain := Number(StampAll(tx.tenant, tx.plain), |s.log|);
      s.(log := log, plain := s.plain + plain, under := s.under + tx.under,
         txs := s.txs[x := tx.(plain := plain, batch := batch, at := 0, phase := Forgetting)])
  }

  function DoForget(env: Env, s: State, x: nat): State
    requires x in s.txs && s.txs[x].at < |s.txs[x].batch|
  {
    var tx := s.txs[x];
    var e := tx.batch[tx.at];
    if Erases(env.reg, e) then
      var next := if env.mounted then tx.(phase := Recording) else tx.(at := tx.at + 1);
      s.(keys := s.keys - {e.piiID.value}, shredded := s.shredded + {e.piiID.value}, txs := s.txs[x := next])
    else s.(txs := s.txs[x := tx.(at := tx.at + 1)])
  }

  function DoRecord(env: Env, s: State, x: nat, now: Time): State
    requires x in s.txs && s.txs[x].at < |s.txs[x].batch| && s.txs[x].batch[s.txs[x].at].piiID.Some?
  {
    var tx := s.txs[x];
    var e := tx.batch[tx.at];
    s.(ledger := s.ledger + [NextRecord(env.h, s.ledger, e.piiID.value, now, Origin(e))],
       txs := s.txs[x := tx.(at := tx.at + 1, phase := Forgetting)])
  }

  /** A step that is not enabled changes nothing. */
  function Do(env: Env, s: State, step: Step): State {
    if step.Begin? then
      if step.x !in s.txs && (forall e :: e in step.batch ==> Unsealed(e))
      then s.(txs := s.txs[step.x := Tx(step.batch, step.batch, Unkeyed(|step.batch|), step.expected, step.tenant, 0, Preparing)])
      else s
    else if step.x !in s.txs then s
    else
      var tx := s.txs[step.x];
      var more := tx.at < |tx.batch|;
      match step
      case SealNext(x, supply) => if tx.phase == Preparing && more && |tx.under| == |tx.batch| then DoSeal(env, s, x, supply) else s
      case StoreCommit(x) => if tx.phase == Preparing && !more then DoStore(s, x) else s
      case ForgetNext(x) => if tx.phase == Forgetting && more then DoForget(env, s, x) else s
      case RecordNext(x, now) =>
        if tx.phase == Recording && more && tx.batch[tx.at].piiID.Some? then DoRecord(env, s, x, now) else s
  }

  function Exec(env: Env, steps: seq<Step>): State {
    if steps == [] then INITIAL else Do(env, Exec(env, steps[..|steps| - 1]), steps[|steps| - 1])
  }

  // ---- the invariant ----

  ghost predicate SealedWith(env: Env, key: Bytes, nonce: nat -> nat, p: Event, e: Event) {
    && p.payload.Doc?
    && e == p.(payload := Doc(SealFields(env.c, key, nonce, PiiFieldsOf(env.reg, p), p.payload.fields)),
               manifest := Manifest.Fields(PiiFieldsOf(env.reg, p)))
  }

  /** e is what Seal makes of the unsealed event p under the given key. */
  ghost predicate SealOf(env: Env, under: Option<Bytes>, p: Event, e: Event) {
    && Unsealed(p)
    && if !Seals(env, p) then e == p && under.None?
       else under.Some? && Usable(under.value) && exists nonce :: SealedWith(env, under.value, nonce, p, e)
  }

  /** The first n events are sealed, the others as recorded. */
  ghost predicate SealedUpTo(env: Env, under: seq<Option<Bytes>>, plain: seq<Event>, batch: seq<Event>, n: nat) {
    && |plain| == |batch| == |under|
    && (forall i :: 0 <= i < |batch| && i < n ==> SealOf(env, under[i], plain[i], batch[i]))
    && (forall i :: n <= i < |batch| ==> batch[i] == plain[i] && Unsealed(plain[i]))
  }

  ghost predicate Logged(log: seq<Event>, e: Event) {
    1 <= e.globalID <= |log| && log[e.globalID - 1] == e
  }

  ghost predicate Recorded(ledger: seq<ShredRecord>, e: Event) {
    e.piiID.Some? && exists r :: r in ledger && r.piiID == e.piiID.value && r.origin == Origin(e)
  }

  /** A stored batch is in the log, and the erasures it asked for so far are done and on record. */
  ghost predicate Stored(env: Env, s: State, tx: Tx) {
    && tx.at <= |tx.batch|
    && (forall e :: e in tx.batch ==> Logged(s.log, e))
    && (forall i :: 0 <= i < tx.at ==> Erases(env.reg, tx.batch[i]) ==> ErasedBy(env, s, tx.batch[i]))
  }

  ghost predicate ErasedBy(env: Env, s: State, e: Event)
    requires Erases(env.reg, e)
  {
    e.piiID.value in s.shredded && (env.mounted ==> Recorded(s.ledger, e))
  }

  ghost predicate TxInv(env: Env, s: State, tx: Tx) {
    match tx.phase
    case Failed => true
    case Preparing => tx.at <= |tx.batch| && SealedUpTo(env, tx.under, tx.plain, tx.batch, tx.at)
    case Forgetting => Stored(env, s, tx)
    case Recording =>
      && env.mounted && Stored(env, s, tx) && tx.at < |tx.batch|
      && Erases(env.reg, tx.batch[tx.at]) && tx.batch[tx.at].piiID.value in s.shredded
  }

  ghost predicate KeysInv(keys: KeyMap) {
    forall p :: p in keys ==> Usable(keys[p])
  }

  /** Every record names a shredded subject and the logged event that asked for it. */
  ghost predicate RecordInv(env: Env, log: seq<Event>, shredded: set<Uuid>, r: ShredRecord) {
    && r.piiID in shredded
    && exists e :: Logged(log, e) && Erases(env.reg, e) && e.piiID == Some(r.piiID) && Origin(e) == r.origin
  }

  ghost predicate Inv(env: Env, s: State) {
    && WellNumbered(s.log)
    && SealedUpTo(env, s.under, s.plain, s.log, |s.log|)
    && KeysInv(s.keys)
    && Chained(env.h, s.ledger)
    && (forall r :: r in s.ledger ==> RecordInv(env, s.log, s.shredded, r))
    && forall x :: x in s.txs ==> TxInv(env, s, s.txs[x])
  }

  // ---- one step at a time ----

  /** What only ever grows. */
  ghost predicate Grows(s: State, s': State) {
    s.log <= s'.log && s.plain <= s'.plain && s.under <= s'.under && s.ledger <= s'.ledger && s.shredded <= s'.shredded
  }

  lemma TxGrows(env: Env, s: State, s': State, tx: Tx)
    requires Grows(s, s') && TxInv(env, s, tx)
    ensures TxInv(env, s', tx)
  {
    if tx.phase == Forgetting || tx.phase == Recording {
      forall e | e in tx.batch ensures Logged(s'.log, e) {
        assert Logged(s.log, e);
      }
      forall i | 0 <= i < tx.at && Erases(env.reg, tx.batch[i]) ensures ErasedBy(env, s', tx.batch[i]) {
        assert ErasedBy(env, s, tx.batch[i]);
      }
    }
  }

  lemma RecordGrows(env: Env, s: State, s': State, r: ShredRecord)
    requires Grows(s, s') && RecordInv(env, s.log, s.shredded, r)
    ensures RecordInv(env, s'.log, s'.shredded, r)
  {
    var e :| Logged(s.log, e) && Erases(env.reg, e) && e.piiID == Some(r.piiID) && Origin(e) == r.origin;
    assert Logged(s'.log, e);
  }

  /** The parts of the invariant that a growing state keeps by growing. */
  lemma Regrow(env: Env, s: State, s': State, x: nat)
    requires Inv(env, s) && Grows(s, s')
    requires x in s'.txs && s'.txs.Keys == s.txs.Keys + {x} && TxInv(env, s', s'.txs[x])
    requires forall y :: y in s.txs && y != x ==> s'.txs[y] == s.txs[y]
    ensures forall y :: y in s'.txs ==> TxInv(env, s', s'.txs[y])
    ensures forall r :: r in s.ledger ==> RecordInv(env, s'.log, s'.shredded, r)
  {
    forall y | y in s'.txs ensures TxInv(env, s', s'.txs[y]) {
      if y != x {
        TxGrows(env, s, s', s.txs[y]);
      }
    }
    forall r | r in s.ledger ensures RecordInv(env, s'.log, s'.shredded, r) {
      RecordGrows(env, s, s', r);
    }
  }

  lemma SealingGivesSealOf(env: Env, keys: KeyMap, supply: Supply, p: Event)
    requires Unsealed(p) && KeysInv(keys)
    requires SealEvent(env.c, keys, supply, PiiFieldsOf(env.reg, p), p).Ok?
    ensures SealOf(env, if Seals(env, p) then Some(keys[p.piiID.value]) else None, p,
                   SealEvent(env.c, keys, supply, PiiFieldsOf(env.reg, p), p).value)
  {
    if Seals(env, p) {
      assert SealedWith(env, keys[p.piiID.value], supply.nonce, p, SealEvent(env.c, keys, supply, PiiFieldsOf(env.reg, p), p).value);
    }
  }

  lemma SealKeepsInv(env: Env, s: State, x: nat, supply: Supply)
    requires Inv(env, s)
    requires x in s.txs && s.txs[x].phase == Preparing && s.txs[x].at < |s.txs[x].batch| == |s.txs[x].under|
    ensures Inv(env, DoSeal(env, s, x, supply)) && Grows(s, DoSeal(env, s, x, supply))
  {
    var s', tx := DoSeal(env, s, x, supply), s.txs[x];
    var e, names := tx.batch[tx.at], PiiFieldsOf(env.reg, tx.batch[tx.at]);
    assert TxInv(env, s, tx);
    if SealEvent(env.c, s'.keys, supply, names, e).Ok? {
      SealingGivesSealOf(env, s'.keys, supply, e);
      assert SealedUpTo(env, s'.txs[x].under, tx.plain, s'.txs[x].batch, tx.at + 1);
    }
    Regrow(env, s, s', x);
  }

  lemma StoringKeepsSeal(env: Env, under: Option<Bytes>, p: Event, e: Event, tenantID: Uuid, globalID: nat)
    requires SealOf(env, under, p, e)
    ensures SealOf(env, under, p.(tenantID := tenantID, globalID := globalID), e.(tenantID := tenantID, globalID := globalID))
    ensures e.tenantID == p.tenantID
  {
    if Seals(env, p) {
      var nonce :| SealedWith(env, under.value, nonce, p, e);
      assert SealedWith(env, under.value, nonce, p.(tenantID := tenantID, globalID := globalID), e.(tenantID := tenantID, globalID := globalID));
    }
  }

  lemma StoringKeepsSeals(env: Env, under: seq<Option<Bytes>>, plain: seq<Event>, batch: seq<Event>, t: Option<Uuid>, last: nat)
    requires SealedUpTo(env, under, plain, batch, |batch|)
    ensures SealedUpTo(env, under, Number(StampAll(t, plain), last), Number(StampAll(t, batch), last), |batch|)
  {
    var plain', batch' := Number(StampAll(t, plain), last), Number(StampAll(t, batch), last);
    forall i | 0 <= i < |batch| ensures SealOf(env, under[i], plain'[i], batch'[i]) {
      StoringKeepsSeal(env, under[i], plain[i], batch[i], plain'[i].tenantID, last + 1 + i);
      assert plain'[i] == plain[i].(tenantID := plain'[i].tenantID, globalID := last + 1 + i);
      assert batch'[i] == batch[i].(tenantID := plain'[i].tenantID, globalID := last + 1 + i);
    }
  }

  lemma StoredIsLogged(log: seq<Event>, batch: seq<Event>)
    requires WellNumbered(log + batch)
    ensures forall e :: e in batch ==> Logged(log + batch, e)
  {
    forall e | e in batch ensures Logged(log + batch, e) {
      var i :| 0 <= i < |batch| && batch[i] == e;
      assert (log + batch)[|log| + i] == e;
    }
  }

  lemma SealedConcat(env: Env, k: seq<Option<Bytes>>, p: seq<Event>, e: seq<Event>, k': seq<Option<Bytes>>, p': seq<Event>, e': seq<Event>)
    requires SealedUpTo(env, k, p, e, |e|) && SealedUpTo(env, k', p', e', |e'|)
    ensures SealedUpTo(env, k + k', p + p', e + e', |e + e'|)
  {
  }

  lemma StoreKeepsInv(env: Env, s: State, x: nat)
    requires Inv(env, s) && x in s.txs && s.txs[x].phase == Preparing && s.txs[x].at == |s.txs[x].batch|
    ensures Inv(env, DoStore(s, x)) && Grows(s, DoStore(s, x))
  {
    var s', tx := DoStore(s, x), s.txs[x];
    assert TxInv(env, s, tx);
    if EventLog.Commit(s.log, tx.batch, tx.expected, tx.tenant).Ok? {
      var batch, plain := Number(StampAll(tx.tenant, tx.batch), |s.log|), Number(StampAll(tx.tenant, tx.plain), |s.log|);
      CommitKeepsNumbering(s.log, tx.batch, tx.expected, tx.tenant);
      StoringKeepsSeals(env, tx.under, tx.plain, tx.batch, tx.tenant, |s.log|);
      assert s'.log == s.log + batch && s'.plain == s.plain + plain;
      StoredIsLogged(s.log, batch);
      SealedConcat(env, s.under, s.plain, s.log, tx.under, plain, batch);
    }
    Regrow(env, s, s', x);
  }

  lemma ForgetKeepsInv(env: Env, s: State, x: nat)
    requires Inv(env, s) && x in s.txs && s.txs[x].phase == Forgetting && s.txs[x].at < |s.txs[x].batch|
    ensures Inv(env, DoForget(env, s, x)) && Grows(s, DoForget(env, s, x))
  {
    var s', tx := DoForget(env, s, x), s.txs[x];
    TxGrows(env, s, s', tx);
    Regrow(env, s, s', x);
  }

  lemma RecordingIsRecorded(env: Env, s: State, x: nat, now: Time)
    requires x in s.txs && s.txs[x].phase == Recording && TxInv(env, s, s.txs[x])
    ensures var s' := DoRecord(env, s, x, now); TxInv(env, s', s'.txs[x])
  {
    var s', tx := DoRecord(env, s, x, now), s.txs[x];
    assert s'.ledger[|s.ledger|] in s'.ledger && Recorded(s'.ledger, tx.batch[tx.at]);
    forall i | 0 <= i < tx.at && Erases(env.reg, tx.batch[i]) ensures ErasedBy(env, s', tx.batch[i]) {
      assert ErasedBy(env, s, tx.batch[i]);
    }
  }

  lemma RecordKeepsInv(env: Env, s: State, x: nat, now: Time)
    requires Inv(env, s) && x in s.txs && s.txs[x].phase == Recording && TxInv(env, s, s.txs[x])
    ensures Inv(env, DoRecord(env, s, x, now)) && Grows(s, DoRecord(env, s, x, now))
  {
    var s', tx := DoRecord(env, s, x, now), s.txs[x];
    assert Logged(s.log, tx.batch[tx.at]);
    AppendKeepsChain(env.h, s.ledger, s'.ledger[|s.ledger|]);
    assert RecordInv(env, s'.log, s'.shredded, s'.ledger[|s.ledger|]);
    RecordingIsRecorded(env, s, x, now);
    Regrow(env, s, s', x);
  }

  lemma StepKeepsInv(env: Env, s: State, step: Step)
    requires Inv(env, s)
    ensures Inv(env, Do(env, s, step)) && Grows(s, Do(env, s, step))
  {
    var s' := Do(env, s, step);
    if s' != s {
      match step {
        case Begin(x, batch, _, _) =>
          assert SealedUpTo(env, Unkeyed(|batch|), batch, batch, 0);
          Regrow(env, s, s', x);
        case SealNext(x, supply) => SealKeepsInv(env, s, x, supply);
        case StoreCommit(x) =>
          assert TxInv(env, s, s.txs[x]);
          StoreKeepsInv(env, s, x);
        case ForgetNext(x) => ForgetKeepsInv(env, s, x);
        case RecordNext(x, now) =>
          assert TxInv(env, s, s.txs[x]);
          RecordKeepsInv(env, s, x, now);
      }
    }
  }

  lemma {:induction false} EveryRun(env: Env, steps: seq<Step>)
    ensures Inv(env, Exec(env, steps))
  {
    if steps != [] {
      EveryRun(env, steps[..|steps| - 1]);
      StepKeepsInv(env, Exec(env, steps[..|steps| - 1]), steps[|steps| - 1]);
    }
  }

  /** A record, a logged event and the fact of a shred are there for good. */
  lemma {:induction false} NothingUndone(env: Env, steps: seq<Step>, more: seq<Step>)
    ensures Grows(Exec(env, steps), Exec(env, steps + more))
  {
    if more == [] {
      assert steps + more == steps;
    } else {
      var init := more[..|more| - 1];
      NothingUndone(env, steps, init);
      EveryRun(env, steps + init);
      assert (steps + more)[..|steps + more| - 1] == steps + init;
      StepKeepsInv(env, Exec(env, steps + init), more[|more| - 1]);
    }
  }

  // ---- what a read gives back ----

  /** The event as recorded, with the manifest that sealing leaves on it. */
  function AsRecorded(env: Env, p: Event): Event {
    if Seals(env, p) then p.(manifest := Manifest.Fields(PiiFieldsOf(env.reg, p))) else p
  }

  /** Everything but the declared fields is as recorded. */
  ghost predicate Undeclared(env: Env, p: Event, read: Event) {
    && read == AsRecorded(env, p).(payload := read.payload, piiUnrecoverable := read.piiUnrecoverable)
    && (Seals(env, p) ==> p.payload.Doc? && read.payload.Doc? && read.payload.fields.Keys == p.payload.fields.Keys)
    && (Seals(env, p) ==> forall f :: f in p.payload.fields && f !in PiiFieldsOf(env.reg, p) ==> read.payload.fields[f] == p.payload.fields[f])
  }

  /** A shredded subject's event: flagged, with strings for the declared fields. */
  ghost predicate Shredded(env: Env, p: Event, read: Event) {
    && read.piiUnrecoverable && Seals(env, p) && Undeclared(env, p, read)
    && forall f :: f in p.payload.fields && f in PiiFieldsOf(env.reg, p) ==> read.payload.fields[f].JStr?
  }

  lemma SealIsShredded(env: Env, under: Option<Bytes>, p: Event, e: Event)
    requires SealOf(env, under, p, e) && Seals(env, p)
    ensures Shredded(env, p, e.(piiUnrecoverable := true))
    ensures e.piiID == p.piiID && e.manifest == Manifest.Fields(PiiFieldsOf(env.reg, p)) && e.payload.Doc?
  {
    var nonce :| SealedWith(env, under.value, nonce, p, e);
    SealAddsLayers(env.c, under.value, nonce, PiiFieldsOf(env.reg, p), p.payload.fields);
  }

  /** What is read of an event sealed under one key while its subject has the given key. */
  lemma ReadUnder(env: Env, under: Bytes, p: Event, e: Event, keys: KeyMap)
    requires Deciphers(env.c) && SealOf(env, Some(under), p, e) && Seals(env, p) && p.piiID.value in keys
    ensures var key, names, read := keys[p.piiID.value], PiiFieldsOf(env.reg, p), OpenEvent(env.c, keys, e);
            && e.payload.Doc? && p.payload.Doc?
            && (key == under || !Touches(names, p.payload.fields) ==> read == Ok(AsRecorded(env, p)))
            && (read.Err? ==> read == Err(DecryptFailed) && key != under && Touches(names, p.payload.fields))
            && (Rejected(env.c, key, names, e.payload.fields) ==> read.Err?)
            && (NamedOnce(names) ==> (read.Err? <==> Rejected(env.c, key, names, e.payload.fields)))
            && (read.Ok? ==> Undeclared(env, p, read.value) && !read.value.piiUnrecoverable)
  {
    var key, names := keys[p.piiID.value], PiiFieldsOf(env.reg, p);
    var nonce :| SealedWith(env, under, nonce, p, e);
    SealIsShredded(env, Some(under), p, e);
    OpenUndoesSeal(env.c, under, nonce, names, p.payload.fields);
    OtherKeyOpens(env.c, under, key, nonce, names, p.payload.fields);
    OpenFailsIffRejected(env.c, key, names, e.payload.fields);
  }

  /**
   * Over every run, whatever it does, reading a logged event gives exactly this: the event as
   * recorded if it declares nothing; the sealed event, flagged, while its subject has no key;
   * the event as recorded while the subject has the key it was sealed under, or if none of the
   * declared fields was there. Otherwise the subject was issued another key meanwhile, and the
   * read fails exactly when that key rejects one of the event's ciphertexts.
   */
  lemma ReadsExactly(env: Env, steps: seq<Step>, i: nat)
    requires Deciphers(env.c) && i < |Exec(env, steps).log|
    ensures var s := Exec(env, steps);
            && |s.plain| == |s.under| == |s.log|
            && var p, e, names, read := s.plain[i], s.log[i], PiiFieldsOf(env.reg, s.plain[i]), OpenEvent(env.c, s.keys, s.log[i]);
            && KeyOf(e) == KeyOf(p) && e.version == p.version && e.piiID == p.piiID && Unsealed(p)
            && (!Seals(env, p) ==> read == Ok(p) && e == p)
            && (Seals(env, p) ==>
                  && p.payload.Doc? && e.payload.Doc? && s.under[i].Some?
                  && var id := p.piiID.value;
                  && (id !in s.keys ==> read == Ok(e.(piiUnrecoverable := true)) && Shredded(env, p, read.value))
                  && (id in s.keys ==>
                        && (s.keys[id] == s.under[i].value || !Touches(names, p.payload.fields) ==> read == Ok(AsRecorded(env, p)))
                        && (read.Err? ==> read == Err(DecryptFailed) && s.keys[id] != s.under[i].value && Touches(names, p.payload.fields))
                        && (Rejected(env.c, s.keys[id], names, e.payload.fields) ==> read.Err?)
                        && (NamedOnce(names) ==> (read.Err? <==> Rejected(env.c, s.keys[id], names, e.payload.fields)))
                        && (read.Ok? ==> Undeclared(env, p, read.value) && !read.value.piiUnrecoverable)))
  {
    EveryRun(env, steps);
    var s := Exec(env, steps);
    var p, e := s.plain[i], s.log[i];
    assert SealOf(env, s.under[i], p, e);
    if Seals(env, p) {
      SealIsShredded(env, s.under[i], p, e);
      if p.piiID.value in s.keys {
        ReadUnder(env, s.under[i].value, p, e, s.keys);
      }
    }
  }

  /**
   * What is in the log of each event as recorded, over every run. An event that names a subject
   * and whose type declares fields carries their list, and each of them is there as often
   * encrypted as it is listed, under a key of that subject; while the subject has no key a read
   * gives exactly that, flagged. Every other event is logged and read as recorded.
   */
  lemma DeclaredFieldsAreEnciphered(env: Env, steps: seq<Step>, i: nat)
    requires i < |Exec(env, steps).log|
    ensures var s := Exec(env, steps);
            && |s.plain| == |s.under| == |s.log|
            && var p, e := s.plain[i], s.log[i];
            if p.piiID.Some? && p.name in env.reg && env.reg[p.name].piiFields != [] then
              var names := env.reg[p.name].piiFields;
              && p.payload.Doc? && e.payload.Doc? && s.under[i].Some?
              && e == p.(payload := e.payload, manifest := Manifest.Fields(names))
              && Enciphered(env.c, s.under[i].value, names, p.payload.fields, e.payload.fields)
              && (p.piiID.value !in s.keys ==> OpenEvent(env.c, s.keys, e) == Ok(e.(piiUnrecoverable := true)))
            else e == p && OpenEvent(env.c, s.keys, e) == Ok(p)
  {
    EveryRun(env, steps);
    var s := Exec(env, steps);
    var p, e := s.plain[i], s.log[i];
    assert SealOf(env, s.under[i], p, e);
    if Seals(env, p) {
      var nonce :| SealedWith(env, s.under[i].value, nonce, p, e);
      SealEnciphers(env.c, s.under[i].value, nonce, PiiFieldsOf(env.reg, p), p.payload.fields);
    }
  }

  /** Some call of Commit was handed p, which then got the call's tenant and its place in the log. */
  ghost predicate WasGiven(steps: seq<Step>, p: Event, globalID: nat) {
    exists x, batch, expected, t, k :: Begin(x, batch, expected, t) in steps && 0 <= k < |batch|
                                       && p == Stamp(t, batch[k]).(globalID := globalID)
  }

  ghost predicate TxGiven(steps: seq<Step>, x: nat, tx: Tx) {
    tx.phase == Preparing ==> Begin(x, tx.plain, tx.expected, tx.tenant) in steps
  }

  ghost predicate AllGiven(steps: seq<Step>, plain: seq<Event>) {
    forall i :: 0 <= i < |plain| ==> WasGiven(steps, plain[i], i + 1)
  }

  /** And those are the events that commits were handed. */
  lemma {:induction false} PlainWasGiven(env: Env, steps: seq<Step>)
    ensures var s := Exec(env, steps);
            && |s.plain| == |s.log|
            && AllGiven(steps, s.plain)
            && forall x :: x in s.txs ==> TxGiven(steps, x, s.txs[x])
  {
    EveryRun(env, steps);
    if steps != [] {
      var init, step := steps[..|steps| - 1], steps[|steps| - 1];
      PlainWasGiven(env, init);
      assert steps == init + [step];
      EveryRun(env, init);
      StepWasGiven(env, init, Exec(env, init), step);
      StepGivesTxs(env, init, Exec(env, init), step);
    }
  }

  lemma GivenStays(steps: seq<Step>, step: Step, p: Event, globalID: nat)
    requires WasGiven(steps, p, globalID)
    ensures WasGiven(steps + [step], p, globalID)
  {
    var x, batch, expected, t, k :| Begin(x, batch, expected, t) in steps && 0 <= k < |batch|
                                     && p == Stamp(t, batch[k]).(globalID := globalID);
    assert Begin(x, batch, expected, t) in steps + [step];
  }

  lemma StoredWasGiven(steps: seq<Step>, x: nat, plain: seq<Event>, expected: nat, t: Option<Uuid>, last: nat)
    requires Begin(x, plain, expected, t) in steps
    ensures forall i :: 0 <= i < |plain| ==> WasGiven(steps, Number(StampAll(t, plain), last)[i], last + 1 + i)
  {
  }

  lemma StepGivesTxs(env: Env, init: seq<Step>, s: State, step: Step)
    requires forall x :: x in s.txs ==> TxGiven(init, x, s.txs[x])
    ensures var s' := Do(env, s, step); forall x :: x in s'.txs ==> TxGiven(init + [step], x, s'.txs[x])
  {
    assert (init + [step])[|init|] == step;
  }

  lemma GivenConcat(steps: seq<Step>, plain: seq<Event>, added: seq<Event>)
    requires AllGiven(steps, plain) && forall i :: 0 <= i < |added| ==> WasGiven(steps, added[i], |plain| + 1 + i)
    ensures AllGiven(steps, plain + added)
  {
  }

  lemma PlainGrowsBy(env: Env, s: State, step: Step)
    ensures var s' := Do(env, s, step);
            || s'.plain == s.plain
            || (step.StoreCommit? && step.x in s.txs && s.txs[step.x].phase == Preparing
                && s'.plain == s.plain + Number(StampAll(s.txs[step.x].tenant, s.txs[step.x].plain), |s.log|))
  {
  }

  lemma StepWasGiven(env: Env, init: seq<Step>, s: State, step: Step)
    requires |s.plain| == |s.log| && AllGiven(init, s.plain)
    requires forall x :: x in s.txs ==> TxGiven(init, x, s.txs[x])
    ensures AllGiven(init + [step], Do(env, s, step).plain)
  {
    PlainGrowsBy(env, s, step);
    forall i | 0 <= i < |s.plain| ensures WasGiven(init + [step], s.plain[i], i + 1) {
      GivenStays(init, step, s.plain[i], i + 1);
    }
    if Do(env, s, step).plain != s.plain {
      var tx := s.txs[step.x];
      assert TxGiven(init, step.x, tx);
      StoredWasGiven(init + [step], step.x, tx.plain, tx.expected, tx.tenant, |s.log|);
      GivenConcat(init + [step], s.plain, Number(StampAll(tx.tenant, tx.plain), |s.log|));
    }
  }

  /**
   * A step changes what reading an event already in the log gives only by forgetting the key
   * of that event's own subject, or by sealing another event of a subject that has none. So
   * shredding one subject changes no read of any other.
   */
  lemma OnlyOwnKeyChangesRead(env: Env, steps: seq<Step>, step: Step, i: nat)
    requires i < |Exec(env, steps).log|
    ensures var s, s' := Exec(env, steps), Exec(env, steps + [step]);
            && i < |s'.log| && s'.log[i] == s.log[i]
            && (OpenEvent(env.c, s'.keys, s'.log[i]) == OpenEvent(env.c, s.keys, s.log[i])
                || (s.log[i].piiID.Some? &&
                    var id := s.log[i].piiID.value;
                    || (step.ForgetNext? && s'.shredded == s.shredded + {id} && s'.keys == s.keys - {id})
                    || (step.SealNext? && id !in s.keys && id in s'.keys && s'.keys - {id} == s.keys)))
  {
    var s, s' := Exec(env, steps), Exec(env, steps + [step]);
    assert (steps + [step])[..|steps|] == steps;
    EveryRun(env, steps);
    StepKeepsInv(env, s, step);
    KeysOfStep(s, s', env, step);
    if s.log[i].piiID.None? || KeyOfSubject(s'.keys, s.log[i].piiID.value) == KeyOfSubject(s.keys, s.log[i].piiID.value) {
      OnlyKeyMatters(env.c, s.keys, s'.keys, s.log[i]);
    }
  }

  function KeyOfSubject(keys: KeyMap, id: Uuid): Option<Bytes> {
    if id in keys then Some(keys[id]) else None
  }

  /** A step forgets one key, issues one, or leaves the ring alone. */
  lemma KeysOfStep(s: State, s': State, env: Env, step: Step)
    requires s' == Do(env, s, step)
    ensures || s'.keys == s.keys
            || (step.ForgetNext? && exists id :: s'.shredded == s.shredded + {id} && s'.keys == s.keys - {id})
            || (step.SealNext? && exists id :: id !in s.keys && id in s'.keys && s'.keys - {id} == s.keys)
  {
    if step.ForgetNext? && s'.keys != s.keys {
      var tx := s.txs[step.x];
      var id := tx.batch[tx.at].piiID.value;
      assert s'.shredded == s.shredded + {id} && s'.keys == s.keys - {id};
    }
    if step.SealNext? && s'.keys != s.keys {
      var tx := s.txs[step.x];
      var id := tx.batch[tx.at].piiID.value;
      assert id !in s.keys && id in s'.keys && s'.keys - {id} == s.keys;
    }
  }

  lemma OnlyKeyMatters(c: Cipher, keys: KeyMap, keys': KeyMap, e: Event)
    requires e.piiID.Some? ==> KeyOfSubject(keys, e.piiID.value) == KeyOfSubject(keys', e.piiID.value)
    ensures OpenEvent(c, keys, e) == OpenEvent(c, keys', e)
  {
  }

  // ---- runs that seal no event of a subject already shredded ----

  /** The step would seal an event of a subject whose key was forgotten, which issues it another. */
  predicate Reseals(env: Env, s: State, step: Step) {
    && step.SealNext? && step.x in s.txs && s.txs[step.x].phase == Preparing && s.txs[step.x].at < |s.txs[step.x].batch|
    && var e := s.txs[step.x].batch[s.txs[step.x].at];
    Seals(env, e) && e.piiID.value in s.shredded
  }

  predicate NeverReseals(env: Env, steps: seq<Step>) {
    steps != [] ==>
      && NeverReseals(env, steps[..|steps| - 1])
      && !Reseals(env, Exec(env, steps[..|steps| - 1]), steps[|steps| - 1])
  }

  /** A sealed event's subject still has the key it was sealed under, or was shredded and has none. */
  ghost predicate KeyKept(keys: KeyMap, shredded: set<Uuid>, piiID: Option<Uuid>, under: Option<Bytes>) {
    under.Some? ==>
      && piiID.Some?
      && if piiID.value in shredded then piiID.value !in keys else piiID.value in keys && keys[piiID.value] == under.value
  }

  ghost predicate KeysKept(keys: KeyMap, shredded: set<Uuid>, es: seq<Event>, under: seq<Option<Bytes>>, n: nat) {
    |es| == |under| && forall i :: 0 <= i < |es| && i < n ==> KeyKept(keys, shredded, es[i].piiID, under[i])
  }

  ghost predicate Kept(s: State) {
    && (forall id :: id in s.keys ==> id !in s.shredded)
    && KeysKept(s.keys, s.shredded, s.log, s.under, |s.log|)
    && forall x :: x in s.txs && s.txs[x].phase == Preparing ==>
         KeysKept(s.keys, s.shredded, s.txs[x].batch, s.txs[x].under, s.txs[x].at)
  }

  /** What one forgotten, or one newly issued, key does to events that keep theirs. */
  lemma KeyKeptStays(keys: KeyMap, shredded: set<Uuid>, keys': KeyMap, shredded': set<Uuid>, es: seq<Event>, under: seq<Option<Bytes>>, n: nat)
    requires KeysKept(keys, shredded, es, under, n)
    requires || (keys' == keys && shredded' == shredded)
             || (exists id :: shredded' == shredded + {id} && keys' == keys - {id})
             || (exists id :: shredded' == shredded && id !in keys && id !in shredded && id in keys' && keys' - {id} == keys)
    ensures KeysKept(keys', shredded', es, under, n)
  {
    forall i | 0 <= i < |es| && i < n ensures KeyKept(keys', shredded', es[i].piiID, under[i]) {
      assert KeyKept(keys, shredded, es[i].piiID, under[i]);
      if under[i].Some? && es[i].piiID.value in keys' && es[i].piiID.value in keys {
        assert keys'[es[i].piiID.value] == keys[es[i].piiID.value];
      }
    }
  }

  lemma SealKeepsKept(env: Env, s: State, x: nat, supply: Supply)
    requires Inv(env, s) && Kept(s) && !Reseals(env, s, SealNext(x, supply))
    ensures Kept(Do(env, s, SealNext(x, supply)))
  {
    var s' := Do(env, s, SealNext(x, supply));
    if s' != s {
      var tx := s.txs[x];
      var e, names := tx.batch[tx.at], PiiFieldsOf(env.reg, tx.batch[tx.at]);
      if s'.keys != s.keys {
        var id := e.piiID.value;
        assert id !in s.keys && id !in s.shredded && id in s'.keys && s'.keys - {id} == s.keys;
      }
      KeyKeptStays(s.keys, s.shredded, s'.keys, s'.shredded, s.log, s.under, |s.log|);
      KeyKeptStays(s.keys, s.shredded, s'.keys, s'.shredded, tx.batch, tx.under, tx.at);
      forall y | y in s'.txs && s'.txs[y].phase == Preparing
        ensures KeysKept(s'.keys, s'.shredded, s'.txs[y].batch, s'.txs[y].under, s'.txs[y].at)
      {
        if y != x {
          KeyKeptStays(s.keys, s.shredded, s'.keys, s'.shredded, s.txs[y].batch, s.txs[y].under, s.txs[y].at);
        }
      }
    }
  }

  lemma KeptConcat(keys: KeyMap, shredded: set<Uuid>, a: seq<Event>, under: seq<Option<Bytes>>, b: seq<Event>, under': seq<Option<Bytes>>)
    requires KeysKept(keys, shredded, a, under, |a|) && KeysKept(keys, shredded, b, under', |b|)
    ensures KeysKept(keys, shredded, a + b, under + under', |a + b|)
  {
  }

  lemma KeptStored(keys: KeyMap, shredded: set<Uuid>, batch: seq<Event>, under: seq<Option<Bytes>>, t: Option<Uuid>, last: nat)
    requires KeysKept(keys, shredded, batch, under, |batch|)
    ensures KeysKept(keys, shredded, Number(StampAll(t, batch), last), under, |batch|)
  {
    forall i | 0 <= i < |batch| ensures KeyKept(keys, shredded, Number(StampAll(t, batch), last)[i].piiID, under[i]) {
      assert KeyKept(keys, shredded, batch[i].piiID, under[i]);
    }
  }

  lemma StoreKeepsKept(env: Env, s: State, x: nat)
    requires Inv(env, s) && Kept(s)
    ensures Kept(Do(env, s, StoreCommit(x)))
  {
    var s' := Do(env, s, StoreCommit(x));
    if s'.log != s.log || s'.under != s.under {
      var tx := s.txs[x];
      assert TxInv(env, s, tx);
      KeptStored(s.keys, s.shredded, tx.batch, tx.under, tx.tenant, |s.log|);
      KeptConcat(s.keys, s.shredded, s.log, s.under, Number(StampAll(tx.tenant, tx.batch), |s.log|), tx.under);
    }
  }

  lemma ForgetKeepsKept(env: Env, s: State, x: nat)
    requires Kept(s)
    ensures Kept(Do(env, s, ForgetNext(x)))
  {
    var s' := Do(env, s, ForgetNext(x));
    if s'.keys != s.keys || s'.shredded != s.shredded {
      var id := s.txs[x].batch[s.txs[x].at].piiID.value;
      assert s'.shredded == s.shredded + {id} && s'.keys == s.keys - {id};
      KeyKeptStays(s.keys, s.shredded, s'.keys, s'.shredded, s.log, s.under, |s.log|);
      forall y | y in s'.txs && s'.txs[y].phase == Preparing
        ensures KeysKept(s'.keys, s'.shredded, s'.txs[y].batch, s'.txs[y].under, s'.txs[y].at)
      {
        KeyKeptStays(s.keys, s.shredded, s'.keys, s'.shredded, s.txs[y].batch, s.txs[y].under, s.txs[y].at);
      }
    }
  }

  lemma {:induction false} RunKeepsKept(env: Env, steps: seq<Step>)
    requires NeverReseals(env, steps)
    ensures Inv(env, Exec(env, steps)) && Kept(Exec(env, steps))
  {
    EveryRun(env, steps);
    if steps != [] {
      var init, step := steps[..|steps| - 1], steps[|steps| - 1];
      RunKeepsKept(env, init);
      var s := Exec(env, init);
      match step {
        case SealNext(x, supply) => SealKeepsKept(env, s, x, supply);
        case StoreCommit(x) => StoreKeepsKept(env, s, x);
        case ForgetNext(x) => ForgetKeepsKept(env, s, x);
        case _ =>
      }
    }
  }

  /** What reading the log's event e must give, p being that event as it was recorded. */
  function ReadBack(env: Env, shredded: set<Uuid>, p: Event, e: Event): Event {
    if Seals(env, p) && p.piiID.value in shredded then e.(piiUnrecoverable := true) else AsRecorded(env, p)
  }

  /**
   * In every state reached without sealing anew for a shredded subject every read succeeds. It
   * gives the event as it was recorded while its subject's key is held, and the sealed event,
   * flagged, once the key is forgotten; an event with nothing declared is never affected.
   */
  lemma EveryReadAnswers(env: Env, steps: seq<Step>, i: nat)
    requires Deciphers(env.c) && NeverReseals(env, steps) && i < |Exec(env, steps).log|
    ensures var s := Exec(env, steps);
            && |s.plain| == |s.log|
            && OpenEvent(env.c, s.keys, s.log[i]) == Ok(ReadBack(env, s.shredded, s.plain[i], s.log[i]))
            && (Seals(env, s.plain[i]) ==>
                  (s.plain[i].piiID.value in s.keys <==> s.plain[i].piiID.value !in s.shredded))
            && (Seals(env, s.plain[i]) && s.plain[i].piiID.value in s.shredded ==>
                  Shredded(env, s.plain[i], ReadBack(env, s.shredded, s.plain[i], s.log[i])))
  {
    ReadsExactly(env, steps, i);
    RunKeepsKept(env, steps);
    var s := Exec(env, steps);
    assert KeyKept(s.keys, s.shredded, s.log[i].piiID, s.under[i]);
  }

  /** So does reading the whole log, or any part of it. */
  lemma WholeLogReads(env: Env, steps: seq<Step>)
    requires Deciphers(env.c) && NeverReseals(env, steps)
    ensures var s := Exec(env, steps);
            var r := OpenAll(env.c, s.keys, s.log);
            && r.Ok? && |r.value| == |s.log| == |s.plain|
            && forall i :: 0 <= i < |s.log| ==> r.value[i] == ReadBack(env, s.shredded, s.plain[i], s.log[i])
  {
    var s := Exec(env, steps);
    EveryRun(env, steps);
    OpenAllPointwise(env.c, s.keys, s.log);
    forall i | 0 <= i < |s.log| ensures OpenEvent(env.c, s.keys, s.log[i]) == Ok(ReadBack(env, s.shredded, s.plain[i], s.log[i])) {
      EveryReadAnswers(env, steps, i);
    }
  }

  /** A subject once shredded stays so: no later step brings a readable field back. */
  lemma ShreddedForGood(env: Env, steps: seq<Step>, more: seq<Step>, id: Uuid)
    requires NeverReseals(env, steps + more) && id in Exec(env, steps).shredded
    ensures id in Exec(env, steps + more).shredded && id !in Exec(env, steps + more).keys
  {
    NothingUndone(env, steps, more);
    RunKeepsKept(env, steps + more);
  }
}
