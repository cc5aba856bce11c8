/**
 * The race the sealed ledger loses: two clients open the same account at once, the first one's
 * holder is erased, and the second's commit, though refused, has sealed its event by then.
 */
module ErasureRace {
  import opened Common
  import opened Events
  import opened EventLog
  import opened Aggregate
  import opened JsonFields
  import opened Ledger
  import opened Pii
  import opened PiiStore
  import opened LedgerErasure
  import opened SealedLedger
  import ErasureVerifier
  import AccountRuns
  import ShredChain
  import Sh = Shredding
  import Plain = Serializability

  lemma ExecPush(env: Sh.Env, steps: seq<Step>, step: Step)
    ensures Exec(env, steps + [step]) == Do(env, Exec(env, steps), step)
  {
    assert (steps + [step])[..|steps|] == steps;
  }

  // ---- one event's way through the store ----

  function Begun(e: Event, expected: nat, t: Uuid): Sh.Tx {
    Sh.Tx([e], [e], [None], expected, Some(t), 0, Sh.Preparing)
  }

  function SealedTx(e: Event, sealed: Event, under: Option<Bytes>, expected: nat, t: Uuid): Sh.Tx {
    Sh.Tx([e], [sealed], [under], expected, Some(t), 1, Sh.Preparing)
  }

  function StoredTx(e: Event, stored: Event, under: Option<Bytes>, expected: nat, t: Uuid, at: nat): Sh.Tx {
    Sh.Tx([e], [stored], [under], expected, Some(t), at, Sh.Forgetting)
  }

  /** The ring once e is being sealed, the key it is sealed under, and the sealed event. */
  function RingFor(env: Sh.Env, keys: KeyMap, e: Event, supply: Supply): KeyMap {
    IssueKey(keys, e, PiiFieldsOf(env.reg, e), supply)
  }

  function UnderFor(env: Sh.Env, keys: KeyMap, e: Event, supply: Supply): Option<Bytes> {
    var ring := RingFor(env, keys, e, supply);
    if Sh.Seals(env, e) && e.piiID.value in ring then Some(ring[e.piiID.value]) else None
  }

  function SealedFor(env: Sh.Env, keys: KeyMap, e: Event, supply: Supply): Result<Event, PiiError> {
    SealEvent(env.c, RingFor(env, keys, e, supply), supply, PiiFieldsOf(env.reg, e), e)
  }

  lemma BeginsOne(env: Sh.Env, sh: Sh.State, x: nat, e: Event, expected: nat, t: Uuid)
    requires x !in sh.txs && Sh.Unsealed(e)
    ensures Sh.Do(env, sh, Sh.Begin(x, [e], expected, Some(t))) == sh.(txs := sh.txs[x := Begun(e, expected, t)])
  {
    assert Sh.Unkeyed(1) == [None];
  }

  lemma SealsOne(env: Sh.Env, sh: Sh.State, x: nat, e: Event, expected: nat, t: Uuid, supply: Supply)
    requires x in sh.txs && sh.txs[x] == Begun(e, expected, t) && SealedFor(env, sh.keys, e, supply).Ok?
    ensures Sh.Do(env, sh, Sh.SealNext(x, supply))
            == sh.(keys := RingFor(env, sh.keys, e, supply),
                   txs := sh.txs[x := SealedTx(e, SealedFor(env, sh.keys, e, supply).value, UnderFor(env, sh.keys, e, supply), expected, t)])
  {
    assert [e][0 := SealedFor(env, sh.keys, e, supply).value] == [SealedFor(env, sh.keys, e, supply).value];
    assert [None][0 := UnderFor(env, sh.keys, e, supply)] == [UnderFor(env, sh.keys, e, supply)];
  }

  function StoredAs(e: Event, t: Uuid, globalID: nat): Event {
    Stamp(Some(t), e).(globalID := globalID)
  }

  lemma NumberOne(e: Event, t: Uuid, last: nat)
    ensures Number(StampAll(Some(t), [e]), last) == [StoredAs(e, t, last + 1)]
  {
  }

  lemma StoresOne(env: Sh.Env, sh: Sh.State, x: nat, e: Event, sealed: Event, under: Option<Bytes>, expected: nat, t: Uuid)
    requires x in sh.txs && sh.txs[x] == SealedTx(e, sealed, under, expected, t)
    ensures var sh' := Sh.Do(env, sh, Sh.StoreCommit(x));
            if CurrentVersion(sh.log, KeyOf(Stamp(Some(t), sealed))) == expected then
              sh' == sh.(log := sh.log + [StoredAs(sealed, t, |sh.log| + 1)],
                         plain := sh.plain + [StoredAs(e, t, |sh.log| + 1)], under := sh.under + [under],
                         txs := sh.txs[x := StoredTx(StoredAs(e, t, |sh.log| + 1), StoredAs(sealed, t, |sh.log| + 1), under, expected, t, 0)])
            else sh' == sh.(txs := sh.txs[x := SealedTx(e, sealed, under, expected, t).(phase := Sh.Failed)])
  {
    NumberOne(e, t, |sh.log|);
    NumberOne(sealed, t, |sh.log|);
  }

  /** Forgetting and recording, where the event asks for it; otherwise both steps do nothing much. */
  lemma ErasesOne(env: Sh.Env, sh: Sh.State, x: nat, e: Event, stored: Event, under: Option<Bytes>, expected: nat, t: Uuid, now: ShredChain.Time)
    requires x in sh.txs && sh.txs[x] == StoredTx(e, stored, under, expected, t, 0)
    ensures var sh' := Sh.Do(env, Sh.Do(env, sh, Sh.ForgetNext(x)), Sh.RecordNext(x, now));
            && sh'.log == sh.log && sh'.plain == sh.plain && sh'.under == sh.under
            && sh'.txs == sh.txs[x := StoredTx(e, stored, under, expected, t, 1)]
            && sh'.keys == (if Erases(env.reg, stored) then sh.keys - {stored.piiID.value} else sh.keys)
            && sh'.shredded == (if Erases(env.reg, stored) then sh.shredded + {stored.piiID.value} else sh.shredded)
  {
    var tx := StoredTx(e, stored, under, expected, t, 1);
    var recording := StoredTx(e, stored, under, expected, t, 0).(phase := Sh.Recording);
    assert sh.txs[x := recording][x := tx] == sh.txs[x := tx];
  }

  // ---- one client's save ----

  /** Client c holds one unsaved event e of the stream k, and nothing else. */
  predicate HoldsOne(s: State, c: nat, k: StreamKey, a: Agg<Amounts>, e: Event) {
    && c in s.clients && s.clients[c].Holding? && s.clients[c].key == k && s.clients[c].agg == a
    && a.uncommitted == [e] && a.version >= 1
    && Sh.Unsealed(e) && KeyOf(Stamp(Some(k.tenantID), e)) == k
  }

  /** The state once the call has begun and sealed its event. */
  function AfterSealing(env: Sh.Env, s: State, c: nat, x: nat, supply: Supply, k: StreamKey, a: Agg<Amounts>, e: Event): State
    requires HoldsOne(s, c, k, a, e) && SealedFor(env, s.sh.keys, e, supply).Ok?
  {
    var tx := SealedTx(e, SealedFor(env, s.sh.keys, e, supply).value, UnderFor(env, s.sh.keys, e, supply), a.version - 1, k.tenantID);
    Put(s, c, Saving(k, a, s.clients[c].cmds, x, false))
      .(sh := s.sh.(keys := RingFor(env, s.sh.keys, e, supply), txs := s.sh.txs[x := tx]))
  }

  lemma SealsForClient(env: Sh.Env, s: State, c: nat, x: nat, supply: Supply, k: StreamKey, a: Agg<Amounts>, e: Event)
    requires HoldsOne(s, c, k, a, e) && x !in s.sh.txs && SealedFor(env, s.sh.keys, e, supply).Ok?
    ensures Do(env, Do(env, s, Save(c, x)), SealNext(c, supply)) == AfterSealing(env, s, c, x, supply, k, a, e)
  {
    var begun := Begun(e, a.version - 1, k.tenantID);
    var sh1 := s.sh.(txs := s.sh.txs[x := begun]);
    var s1 := Put(s, c, Saving(k, a, s.clients[c].cmds, x, false)).(sh := sh1);
    BeginsOne(env, s.sh, x, e, a.version - 1, k.tenantID);
    assert Do(env, s, Save(c, x)) == s1;
    SealsOne(env, sh1, x, e, a.version - 1, k.tenantID, supply);
    var tx := SealedTx(e, SealedFor(env, s.sh.keys, e, supply).value, UnderFor(env, s.sh.keys, e, supply), a.version - 1, k.tenantID);
    assert s.sh.txs[x := begun][x := tx] == s.sh.txs[x := tx];
  }

  /** What the call leaves behind when it returns nil. */
  ghost predicate Saved(env: Sh.Env, s: State, r: State, c: nat, x: nat, supply: Supply, k: StreamKey, a: Agg<Amounts>, e: Event) {
    var ring, under, id := RingFor(env, s.sh.keys, e, supply), UnderFor(env, s.sh.keys, e, supply), |s.sh.log| + 1;
    && SealedFor(env, s.sh.keys, e, supply).Ok?
    && r.sh.log == s.sh.log + [StoredAs(SealedFor(env, s.sh.keys, e, supply).value, k.tenantID, id)]
    && r.sh.plain == s.sh.plain + [StoredAs(e, k.tenantID, id)] && r.sh.under == s.sh.under + [under]
    && r.sh.keys == (if Erases(env.reg, e) then ring - {e.piiID.value} else ring)
    && r.sh.shredded == (if Erases(env.reg, e) then s.sh.shredded + {e.piiID.value} else s.sh.shredded)
    && r.sh.txs.Keys == s.sh.txs.Keys + {x}
    && r.clients == s.clients[c := Holding(k, a.(uncommitted := []), [])]
  }

  lemma StoresForClient(env: Sh.Env, s: State, c: nat, x: nat, supply: Supply, k: StreamKey, a: Agg<Amounts>, e: Event)
    requires HoldsOne(s, c, k, a, e) && x !in s.sh.txs && SealedFor(env, s.sh.keys, e, supply).Ok?
    requires CurrentVersion(s.sh.log, k) == a.version - 1
    ensures var sealed, under, id := SealedFor(env, s.sh.keys, e, supply).value, UnderFor(env, s.sh.keys, e, supply), |s.sh.log| + 1;
            var tx := StoredTx(StoredAs(e, k.tenantID, id), StoredAs(sealed, k.tenantID, id), under, a.version - 1, k.tenantID, 0);
            var r := Do(env, AfterSealing(env, s, c, x, supply, k, a, e), StoreCommit(c));
            && r.sh == s.sh.(log := s.sh.log + [StoredAs(sealed, k.tenantID, id)], plain := s.sh.plain + [StoredAs(e, k.tenantID, id)],
                             under := s.sh.under + [under], keys := RingFor(env, s.sh.keys, e, supply), txs := s.sh.txs[x := tx])
            && r.clients == s.clients[c := Saving(k, a, s.clients[c].cmds, x, true)]
  {
    var s2 := AfterSealing(env, s, c, x, supply, k, a, e);
    var sealed, under := SealedFor(env, s.sh.keys, e, supply).value, UnderFor(env, s.sh.keys, e, supply);
    assert sealed == e.(payload := sealed.payload, manifest := sealed.manifest);
    StoresOne(env, s2.sh, x, e, sealed, under, a.version - 1, k.tenantID);
    AcceptedForClient(env, s2, c, x);
    var sh' := Sh.Do(env, s2.sh, Sh.StoreCommit(x));
    assert s2.sh.txs[x := sh'.txs[x]] == s.sh.txs[x := sh'.txs[x]];
    assert s2.clients[c := Saving(k, a, s.clients[c].cmds, x, true)] == s.clients[c := Saving(k, a, s.clients[c].cmds, x, true)];
  }

  lemma AcceptedForClient(env: Sh.Env, s: State, c: nat, x: nat)
    requires c in s.clients && s.clients[c].Saving? && !s.clients[c].stored && s.clients[c].x == x
    requires var sh' := Sh.Do(env, s.sh, Sh.StoreCommit(x)); x in sh'.txs && sh'.txs[x].phase == Sh.Forgetting
    ensures var r := Do(env, s, StoreCommit(c));
            r.sh == Sh.Do(env, s.sh, Sh.StoreCommit(x)) && r.clients == s.clients[c := s.clients[c].(stored := true)]
  {
  }

  /** A client's call of Save that nobody gets in the way of. */
  lemma SavesForClient(env: Sh.Env, steps: seq<Step>, c: nat, x: nat, supply: Supply, now: ShredChain.Time, k: StreamKey, a: Agg<Amounts>, e: Event)
    requires HoldsOne(Exec(env, steps), c, k, a, e) && x !in Exec(env, steps).sh.txs
    requires SealedFor(env, Exec(env, steps).sh.keys, e, supply).Ok? && CurrentVersion(Exec(env, steps).sh.log, k) == a.version - 1
    ensures Saved(env, Exec(env, steps), Exec(env, SaveRun(steps, c, x, supply, now)), c, x, supply, k, a, e)
  {
    var s := Exec(env, steps);
    ExecPush(env, steps, Save(c, x));
    ExecPush(env, steps + [Save(c, x)], SealNext(c, supply));
    var sealing := steps + [Save(c, x)] + [SealNext(c, supply)];
    SealsForClient(env, s, c, x, supply, k, a, e);
    ExecPush(env, sealing, StoreCommit(c));
    StoresForClient(env, s, c, x, supply, k, a, e);
    ExecPush(env, sealing + [StoreCommit(c)], ForgetNext(c));
    ExecPush(env, sealing + [StoreCommit(c)] + [ForgetNext(c)], RecordNext(c, now));
    ExecPush(env, sealing + [StoreCommit(c)] + [ForgetNext(c)] + [RecordNext(c, now)], Return(c));
    ReturnsToClient(env, s, Exec(env, sealing + [StoreCommit(c)]), c, x, supply, now, k, a, e);
  }

  function SaveRun(steps: seq<Step>, c: nat, x: nat, supply: Supply, now: ShredChain.Time): seq<Step> {
    steps + [Save(c, x)] + [SealNext(c, supply)] + [StoreCommit(c)] + [ForgetNext(c)] + [RecordNext(c, now)] + [Return(c)]
  }

  lemma ReturnsToClient(env: Sh.Env, s: State, s3: State, c: nat, x: nat, supply: Supply, now: ShredChain.Time, k: StreamKey, a: Agg<Amounts>, e: Event)
    requires HoldsOne(s, c, k, a, e) && SealedFor(env, s.sh.keys, e, supply).Ok?
    requires var sealed, under, id := SealedFor(env, s.sh.keys, e, supply).value, UnderFor(env, s.sh.keys, e, supply), |s.sh.log| + 1;
             var tx := StoredTx(StoredAs(e, k.tenantID, id), StoredAs(sealed, k.tenantID, id), under, a.version - 1, k.tenantID, 0);
             && s3.sh == s.sh.(log := s.sh.log + [StoredAs(sealed, k.tenantID, id)], plain := s.sh.plain + [StoredAs(e, k.tenantID, id)],
                               under := s.sh.under + [under], keys := RingFor(env, s.sh.keys, e, supply), txs := s.sh.txs[x := tx])
             && s3.clients == s.clients[c := Saving(k, a, s.clients[c].cmds, x, true)]
    ensures Saved(env, s, Do(env, Do(env, Do(env, s3, ForgetNext(c)), RecordNext(c, now)), Return(c)), c, x, supply, k, a, e)
  {
    var sealed, under, id := SealedFor(env, s.sh.keys, e, supply).value, UnderFor(env, s.sh.keys, e, supply), |s.sh.log| + 1;
    var stored := StoredAs(sealed, k.tenantID, id);
    ErasesAlike(env, s.sh.keys, e, supply, k.tenantID, id);
    ErasesOne(env, s3.sh, x, StoredAs(e, k.tenantID, id), stored, under, a.version - 1, k.tenantID, now);
    ErasesForClient(env, s3, c, x, now);
    var s5 := Do(env, Do(env, s3, ForgetNext(c)), RecordNext(c, now));
    ReturnsOne(env, s5, c);
    assert s3.clients[c := Holding(k, a.(uncommitted := []), [])] == s.clients[c := Holding(k, a.(uncommitted := []), [])];
  }

  lemma ErasesAlike(env: Sh.Env, keys: KeyMap, e: Event, supply: Supply, t: Uuid, globalID: nat)
    requires SealedFor(env, keys, e, supply).Ok?
    ensures var stored := StoredAs(SealedFor(env, keys, e, supply).value, t, globalID);
            (Erases(env.reg, stored) <==> Erases(env.reg, e)) && stored.piiID == e.piiID
  {
  }

  lemma ReturnsOne(env: Sh.Env, s: State, c: nat)
    requires c in s.clients && s.clients[c].Saving? && s.clients[c].stored && s.clients[c].x in s.sh.txs
    requires var tx := s.sh.txs[s.clients[c].x]; tx.phase == Sh.Forgetting && tx.at == |tx.batch|
    ensures Do(env, s, Return(c)) == Put(s, c, Holding(s.clients[c].key, s.clients[c].agg.(uncommitted := []), []))
  {
  }

  lemma ErasesForClient(env: Sh.Env, s3: State, c: nat, x: nat, now: ShredChain.Time)
    requires c in s3.clients && s3.clients[c].Saving? && s3.clients[c].stored && s3.clients[c].x == x
    requires x in s3.sh.txs && (s3.sh.txs[x].phase == Sh.Forgetting || s3.sh.txs[x].phase == Sh.Recording)
    ensures Do(env, Do(env, s3, ForgetNext(c)), RecordNext(c, now))
            == s3.(sh := Sh.Do(env, Sh.Do(env, s3.sh, Sh.ForgetNext(x)), Sh.RecordNext(x, now)))
  {
    OwnTx(env, s3.sh, Sh.ForgetNext(x));
    OwnTx(env, Sh.Do(env, s3.sh, Sh.ForgetNext(x)), Sh.RecordNext(x, now));
  }

  // ---- a save that comes too late ----

  /** Refused for its version, it has sealed its event all the same. */
  lemma RefusedForClient(env: Sh.Env, steps: seq<Step>, c: nat, x: nat, supply: Supply, k: StreamKey, a: Agg<Amounts>, e: Event)
    requires HoldsOne(Exec(env, steps), c, k, a, e) && x !in Exec(env, steps).sh.txs
    requires SealedFor(env, Exec(env, steps).sh.keys, e, supply).Ok? && CurrentVersion(Exec(env, steps).sh.log, k) != a.version - 1
    ensures var s, r := Exec(env, steps), Exec(env, steps + [Save(c, x)] + [SealNext(c, supply)] + [StoreCommit(c)]);
            && r.sh.log == s.sh.log && r.sh.plain == s.sh.plain && r.sh.under == s.sh.under && r.sh.shredded == s.sh.shredded
            && r.sh.keys == RingFor(env, s.sh.keys, e, supply) && r.clients == s.clients[c := Away]
  {
    var s := Exec(env, steps);
    ExecPush(env, steps, Save(c, x));
    ExecPush(env, steps + [Save(c, x)], SealNext(c, supply));
    ExecPush(env, steps + [Save(c, x)] + [SealNext(c, supply)], StoreCommit(c));
    SealsForClient(env, s, c, x, supply, k, a, e);
    RefusesForClient(env, s, c, x, supply, k, a, e);
  }

  lemma RefusesForClient(env: Sh.Env, s: State, c: nat, x: nat, supply: Supply, k: StreamKey, a: Agg<Amounts>, e: Event)
    requires HoldsOne(s, c, k, a, e) && SealedFor(env, s.sh.keys, e, supply).Ok? && CurrentVersion(s.sh.log, k) != a.version - 1
    ensures var r := Do(env, AfterSealing(env, s, c, x, supply, k, a, e), StoreCommit(c));
            && r.sh.log == s.sh.log && r.sh.plain == s.sh.plain && r.sh.under == s.sh.under && r.sh.shredded == s.sh.shredded
            && r.sh.keys == RingFor(env, s.sh.keys, e, supply) && r.clients == s.clients[c := Away]
  {
    var s2, sealed := AfterSealing(env, s, c, x, supply, k, a, e), SealedFor(env, s.sh.keys, e, supply).value;
    assert sealed == e.(payload := sealed.payload, manifest := sealed.manifest);
    StoresOne(env, s2.sh, x, e, sealed, UnderFor(env, s.sh.keys, e, supply), a.version - 1, k.tenantID);
    assert s2.clients[c := Away] == s.clients[c := Away];
  }

  /**
   * From any state of any run: a refused save of an event that seals for a subject without a
   * key leaves the subject a new one. Every event of the subject in the log then fails to read
   * exactly when that key rejects one of its ciphertexts, where before it came back flagged;
   * and erasure of the subject is no longer proved.
   */
  lemma RefusedSaveReseals(env: Sh.Env, steps: seq<Step>, c: nat, x: nat, key: Bytes32, nonce: nat -> nat, k: StreamKey, a: Agg<Amounts>, e: Event, i: nat)
    requires Deciphers(env.c) && env.reg == REGISTRY
    requires HoldsOne(Exec(env, steps), c, k, a, e) && x !in Exec(env, steps).sh.txs
    requires CurrentVersion(Exec(env, steps).sh.log, k) != a.version - 1
    requires Sh.Seals(env, e) && e.payload.Doc? && e.piiID.value !in Exec(env, steps).sh.keys
    requires i < |Exec(env, steps).sh.log| == |Exec(env, steps).sh.plain|
    requires Sh.Seals(env, Exec(env, steps).sh.plain[i]) && Exec(env, steps).sh.plain[i].piiID == e.piiID
    ensures var s, r := Exec(env, steps), Exec(env, steps + [Save(c, x)] + [SealNext(c, Plenty(key, nonce))] + [StoreCommit(c)]);
            && r.sh.log == s.sh.log && r.sh.keys == s.sh.keys[e.piiID.value := key]
            && OpenEvent(env.c, s.sh.keys, s.sh.log[i]) == Ok(s.sh.log[i].(piiUnrecoverable := true))
            && s.sh.log[i].payload.Doc?
            && (OpenEvent(env.c, r.sh.keys, s.sh.log[i]) == Err(DecryptFailed)
                <==> Rejected(env.c, key, HOLDER_FIELDS, s.sh.log[i].payload.fields))
  {
    var supply := Plenty(key, nonce);
    var after := steps + [Save(c, x)] + [SealNext(c, supply)] + [StoreCommit(c)];
    var zs, ws := Simulates(env, _ => NIL_UUID, steps);
    var zs', ws' := Simulates(env, _ => NIL_UUID, after);
    SealsPlenty(env, Exec(env, steps).sh.keys, e, key, nonce);
    RefusedForClient(env, steps, c, x, supply, k, a, e);
    ReadNow(env, ws, i);
    ReadNow(env, ws', i);
  }

  /** Reading a sealed ledger event, while its subject has no key and while it has one. */
  lemma ReadNow(env: Sh.Env, ws: seq<Sh.Step>, i: nat)
    requires Deciphers(env.c) && env.reg == REGISTRY && i < |Sh.Exec(env, ws).log| == |Sh.Exec(env, ws).plain|
    requires Sh.Seals(env, Sh.Exec(env, ws).plain[i])
    ensures var sh := Sh.Exec(env, ws);
            var e, read := sh.log[i], OpenEvent(env.c, sh.keys, sh.log[i]);
            && e.payload.Doc? && e.piiID == sh.plain[i].piiID && e.piiID.Some?
            && (e.piiID.value !in sh.keys ==> read == Ok(e.(piiUnrecoverable := true)))
            && (e.piiID.value in sh.keys ==>
                  (read == Err(DecryptFailed) <==> Rejected(env.c, sh.keys[e.piiID.value], HOLDER_FIELDS, e.payload.fields)))
            && (read.Err? ==> read == Err(DecryptFailed))
  {
    Sh.ReadsExactly(env, ws, i);
    assert Sh.Exec(env, ws).plain[i].name == ACCOUNT_OPENED;
    HolderFieldsOnce();
  }

  lemma HolderFieldsOnce()
    ensures NamedOnce(HOLDER_FIELDS)
  {
    assert HOLDER_FIELDS[0][7] != HOLDER_FIELDS[1][7];
  }

  lemma SealsPlenty(env: Sh.Env, keys: KeyMap, e: Event, key: Bytes32, nonce: nat -> nat)
    requires Sh.Seals(env, e) && e.payload.Doc? && (e.piiID.value in keys ==> Usable(keys[e.piiID.value]))
    ensures SealedFor(env, keys, e, Plenty(key, nonce)).Ok?
    ensures RingFor(env, keys, e, Plenty(key, nonce)) == if e.piiID.value in keys then keys else keys[e.piiID.value := key]
  {
  }

  // ---- the two clients ----

  /** What a client records that opens the account id. */
  function Opens(id: Uuid, holder: string, email: string, balance: int64): Event {
    NewEvent(id, 1, Ledger.Encode(AccountOpened(holder, email, balance)), Some(id))
  }

  function Opened(id: Uuid, holder: string, email: string, balance: int64): Agg<Amounts> {
    Agg(id, 1, Amounts(balance, true), [Opens(id, holder, email, balance)])
  }

  lemma LoadsAndOpens(env: Sh.Env, steps: seq<Step>, c: nat, k: StreamKey, holder: string, email: string, balance: int64)
    requires Exec(env, steps).sh.log == [] && !ClientOf(Exec(env, steps), c).Saving? && holder != "" && email != ""
    ensures var s, r := Exec(env, steps), Exec(env, steps + [Load(c, k)] + [Issue(c, AccountRuns.Open(holder, email, balance))]);
            && r.sh == s.sh && r.clients.Keys == s.clients.Keys + {c} && (forall d :: d in s.clients && d != c ==> r.clients[d] == s.clients[d])
            && HoldsOne(r, c, k, Opened(k.aggregateID, holder, email, balance), Opens(k.aggregateID, holder, email, balance))
  {
    var s, cmd := Exec(env, steps), AccountRuns.Open(holder, email, balance);
    ExecPush(env, steps, Load(c, k));
    ExecPush(env, steps + [Load(c, k)], Issue(c, cmd));
    assert Stream([], k) == [] && Stream([], StreamKey(GLOBAL_TENANT, k.aggregateID)) == [];
    var none := Agg(k.aggregateID, 0, AMOUNTS.zero, []);
    assert Do(env, s, Load(c, k)) == Put(s, c, Holding(k, none, []));
    assert Plain.Issued(AMOUNTS, none, Deciding(cmd), Some(k.aggregateID)) == Opened(k.aggregateID, holder, email, balance);
  }

  function Asks(id: Uuid, version: nat): Event {
    NewEvent(id, version, Ledger.Encode(HolderErasureRequested), Some(id))
  }

  lemma AsksForErasure(env: Sh.Env, steps: seq<Step>, c: nat, k: StreamKey, version: nat, balance: int64)
    requires c in Exec(env, steps).clients
    requires Exec(env, steps).clients[c] == Holding(k, Agg(k.aggregateID, version, Amounts(balance, true), []), [])
    ensures var s, r := Exec(env, steps), Exec(env, steps + [Issue(c, AccountRuns.RequestHolderErasure)]);
            var a := Agg(k.aggregateID, version + 1, Amounts(balance, true), [Asks(k.aggregateID, version + 1)]);
            && r.sh == s.sh && r.clients == s.clients[c := r.clients[c]] && c in r.clients
            && HoldsOne(r, c, k, a, Asks(k.aggregateID, version + 1))
  {
    ExecPush(env, steps, Issue(c, AccountRuns.RequestHolderErasure));
    var a := Agg(k.aggregateID, version, Amounts(balance, true), []);
    assert Plain.Issued(AMOUNTS, a, Deciding(AccountRuns.RequestHolderErasure), Some(k.aggregateID))
           == Agg(k.aggregateID, version + 1, Amounts(balance, true), [Asks(k.aggregateID, version + 1)]);
  }

  datatype Names = Names(holder: string, email: string, balance: int64)

  /** Both have loaded the account, found nothing, and opened it. */
  function BothOpened(k: StreamKey, n: Names, n': Names): seq<Step> {
    [] + [Load(0, k)] + [Issue(0, AccountRuns.Open(n.holder, n.email, n.balance))]
       + [Load(1, k)] + [Issue(1, AccountRuns.Open(n'.holder, n'.email, n'.balance))]
  }

  /** The first has saved, requested its holder's erasure, and saved again. */
  function ThenErased(k: StreamKey, n: Names, n': Names, key: Bytes32, nonce: nat -> nat, now: ShredChain.Time): seq<Step> {
    SaveRun(SaveRun(BothOpened(k, n, n'), 0, 0, Plenty(key, nonce), now) + [Issue(0, AccountRuns.RequestHolderErasure)],
            0, 1, Plenty(key, nonce), now)
  }

  /** The second saves: refused, but not without having sealed. */
  function ThenRefused(k: StreamKey, n: Names, n': Names, key: Bytes32, key': Bytes32, nonce: nat -> nat, now: ShredChain.Time): seq<Step> {
    ThenErased(k, n, n', key, nonce, now) + [Save(1, 2)] + [SealNext(1, Plenty(key', nonce))] + [StoreCommit(1)]
  }

  lemma BothHold(env: Sh.Env, k: StreamKey, n: Names, n': Names)
    requires n.holder != "" && n.email != "" && n'.holder != "" && n'.email != ""
    ensures var s := Exec(env, BothOpened(k, n, n'));
            && s.sh == Sh.INITIAL
            && HoldsOne(s, 0, k, Opened(k.aggregateID, n.holder, n.email, n.balance), Opens(k.aggregateID, n.holder, n.email, n.balance))
            && HoldsOne(s, 1, k, Opened(k.aggregateID, n'.holder, n'.email, n'.balance), Opens(k.aggregateID, n'.holder, n'.email, n'.balance))
  {
    LoadsAndOpens(env, [], 0, k, n.holder, n.email, n.balance);
    LoadsAndOpens(env, [] + [Load(0, k)] + [Issue(0, AccountRuns.Open(n.holder, n.email, n.balance))], 1, k, n'.holder, n'.email, n'.balance);
  }

  lemma OpensSeals(env: Sh.Env, id: Uuid, n: Names)
    requires env.reg == REGISTRY
    ensures var e := Opens(id, n.holder, n.email, n.balance); Sh.Seals(env, e) && !Erases(env.reg, e) && e.payload.Doc? && e.piiID == Some(id)
    ensures PiiFieldsOf(env.reg, Opens(id, n.holder, n.email, n.balance)) == HOLDER_FIELDS
  {
  }

  lemma AsksErases(env: Sh.Env, id: Uuid, version: nat)
    requires env.reg == REGISTRY
    ensures var e := Asks(id, version); !Sh.Seals(env, e) && Erases(env.reg, e) && e.piiID == Some(id)
  {
    assert ERASURE_REQUESTED != ACCOUNT_OPENED;
  }

  /** The account of k opened by e is stored, client 0 is done with that, and client 1 is not. */
  predicate OpenedOnce(env: Sh.Env, s: State, k: StreamKey, e: Event, a: Agg<Amounts>, e': Event, a': Agg<Amounts>, key: Bytes32) {
    && |s.sh.log| == 1 && KeyOf(s.sh.log[0]) == k && s.sh.log[0].version == 1 && s.sh.plain == [StoredAs(e, k.tenantID, 1)]
    && s.sh.keys == map[k.aggregateID := key] && s.sh.shredded == {} && s.sh.txs.Keys == {0}
    && 0 in s.clients && s.clients[0] == Holding(k, a.(uncommitted := []), [])
    && HoldsOne(s, 1, k, a', e')
  }

  lemma SavedFirst(env: Sh.Env, s: State, r: State, k: StreamKey, e: Event, a: Agg<Amounts>, e': Event, a': Agg<Amounts>, key: Bytes32, nonce: nat -> nat)
    requires s.sh == Sh.INITIAL && HoldsOne(s, 0, k, a, e) && HoldsOne(s, 1, k, a', e')
    requires Saved(env, s, r, 0, 0, Plenty(key, nonce), k, a, e) && e.version == 1
    requires RingFor(env, map[], e, Plenty(key, nonce)) == map[][k.aggregateID := key] && !Erases(env.reg, e)
    ensures OpenedOnce(env, r, k, e, a, e', a', key)
  {
    var sealed := SealedFor(env, map[], e, Plenty(key, nonce)).value;
    assert sealed == e.(payload := sealed.payload, manifest := sealed.manifest);
    assert r.sh.log == [] + [StoredAs(sealed, k.tenantID, 1)] == [StoredAs(sealed, k.tenantID, 1)];
    assert r.sh.plain == [] + [StoredAs(e, k.tenantID, 1)] == [StoredAs(e, k.tenantID, 1)];
    assert KeyOf(StoredAs(sealed, k.tenantID, 1)) == KeyOf(Stamp(Some(k.tenantID), e));
  }

  /** It is stored and its holder shredded, and client 1 still knows nothing. */
  predicate OpenedAndShredded(env: Sh.Env, s: State, k: StreamKey, e: Event, e': Event, a': Agg<Amounts>) {
    && |s.sh.log| == |s.sh.plain| == 2 && KeyOf(s.sh.log[0]) == k && s.sh.plain[0] == StoredAs(e, k.tenantID, 1)
    && s.sh.keys == map[] && s.sh.shredded == {k.aggregateID} && s.sh.txs.Keys == {0, 1}
    && CurrentVersion(s.sh.log, k) == 2
    && HoldsOne(s, 1, k, a', e')
  }

  lemma ThenShredded(env: Sh.Env, steps: seq<Step>, k: StreamKey, e: Event, a: Agg<Amounts>, asks: Event, b: Agg<Amounts>, e': Event, a': Agg<Amounts>, key: Bytes32, nonce: nat -> nat, now: ShredChain.Time)
    requires var s := Exec(env, steps); OpenedOnce(env, s.(clients := s.clients[0 := Holding(k, a.(uncommitted := []), [])]), k, e, a, e', a', key)
    requires HoldsOne(Exec(env, steps), 0, k, b, asks) && b.version == 2 && asks.version == 2
    requires !Sh.Seals(env, asks) && Erases(env.reg, asks) && asks.piiID == Some(k.aggregateID)
    ensures OpenedAndShredded(env, Exec(env, SaveRun(steps, 0, 1, Plenty(key, nonce), now)), k, e, e', a')
  {
    var s := Exec(env, steps);
    VersionOfOne(s.sh.log, k);
    SavesForClient(env, steps, 0, 1, Plenty(key, nonce), now, k, b, asks);
    var r := Exec(env, SaveRun(steps, 0, 1, Plenty(key, nonce), now));
    assert SealedFor(env, s.sh.keys, asks, Plenty(key, nonce)).value == asks;
    FilterPush(HasKey(k), s.sh.log, r.sh.log[1]);
    assert r.sh.keys == map[];
  }

  /** The run so far, with the events the ledger's clients really record. */
  lemma RunToShredded(env: Sh.Env, k: StreamKey, n: Names, n': Names, key: Bytes32, nonce: nat -> nat, now: ShredChain.Time)
    requires env.reg == REGISTRY && n.holder != "" && n.email != "" && n'.holder != "" && n'.email != ""
    ensures OpenedAndShredded(env, Exec(env, ThenErased(k, n, n', key, nonce, now)), k, Opens(k.aggregateID, n.holder, n.email, n.balance),
                              Opens(k.aggregateID, n'.holder, n'.email, n'.balance), Opened(k.aggregateID, n'.holder, n'.email, n'.balance))
  {
    var e, a := Opens(k.aggregateID, n.holder, n.email, n.balance), Opened(k.aggregateID, n.holder, n.email, n.balance);
    var e', a' := Opens(k.aggregateID, n'.holder, n'.email, n'.balance), Opened(k.aggregateID, n'.holder, n'.email, n'.balance);
    var both := BothOpened(k, n, n');
    BothHold(env, k, n, n');
    OpensSeals(env, k.aggregateID, n);
    SealsPlenty(env, map[], e, key, nonce);
    SavesForClient(env, both, 0, 0, Plenty(key, nonce), now, k, a, e);
    var first := SaveRun(both, 0, 0, Plenty(key, nonce), now);
    SavedFirst(env, Exec(env, both), Exec(env, first), k, e, a, e', a', key, nonce);
    AsksForErasure(env, first, 0, k, 1, n.balance);
    AsksErases(env, k.aggregateID, 2);
    var asks := Asks(k.aggregateID, 2);
    var b, asked := Agg(k.aggregateID, 2, Amounts(n.balance, true), [asks]), first + [Issue(0, AccountRuns.RequestHolderErasure)];
    ThenShredded(env, asked, k, e, a, asks, b, e', a', key, nonce, now);
  }

  lemma VersionOfOne(log: seq<Event>, k: StreamKey)
    requires |log| == 1 && KeyOf(log[0]) == k
    ensures CurrentVersion(log, k) == log[0].version
  {
    assert log[..0] == [];
  }

  /**
   * Two clients open one account at once. The first saves, asks for its holder's erasure and
   * saves that; the second, knowing nothing of it, saves. It is refused, and yet from then on
   * the holder has a key again, though shredded, and no erasure is proved; and unless that key
   * happens to open both of the first event's ciphertexts, the account cannot be loaded, nor
   * the log be read.
   */
  lemma TwoClientsLoseTheAccount(env: Sh.Env, k: StreamKey, n: Names, n': Names, key: Bytes32, key': Bytes32, nonce: nat -> nat, now: ShredChain.Time)
    requires Deciphers(env.c) && env.reg == REGISTRY
    requires n.holder != "" && n.email != "" && n'.holder != "" && n'.email != ""
    ensures var s := Exec(env, ThenRefused(k, n, n', key, key', nonce, now));
            && k.aggregateID in s.sh.shredded && s.sh.keys == map[k.aggregateID := key'] && |s.sh.log| == 2
            && s.sh.log[0].payload.Doc? && !ErasureVerifier.Proved(env, s.sh, k.aggregateID)
            && (Rejected(env.c, key', HOLDER_FIELDS, s.sh.log[0].payload.fields) ==>
                  && LoadRead(env, s.sh, k) == Err(UnknownOrMalformed)
                  && OpenAll(env.c, s.sh.keys, s.sh.log).Err?)
  {
    var e, e', a' := Opens(k.aggregateID, n.holder, n.email, n.balance), Opens(k.aggregateID, n'.holder, n'.email, n'.balance),
                     Opened(k.aggregateID, n'.holder, n'.email, n'.balance);
    RunToShredded(env, k, n, n', key, nonce, now);
    OpensSeals(env, k.aggregateID, n);
    OpensSeals(env, k.aggregateID, n');
    var erased := ThenErased(k, n, n', key, nonce, now);
    RefusedSaveReseals(env, erased, 1, 2, key', nonce, k, a', e', 0);
    SealsPlenty(env, map[], e', key', nonce);
    RefusedForClient(env, erased, 1, 2, Plenty(key', nonce), k, a', e');
    NothingReadable(env, Exec(env, ThenRefused(k, n, n', key, key', nonce, now)), k);
  }

  /** One unreadable event and neither its stream nor the log can be read. */
  lemma NothingReadable(env: Sh.Env, s: State, k: StreamKey)
    requires s.sh.log != [] && KeyOf(s.sh.log[0]) == k
    ensures OpenEvent(env.c, s.sh.keys, s.sh.log[0]).Err? ==>
              LoadRead(env, s.sh, k) == Err(UnknownOrMalformed) && OpenAll(env.c, s.sh.keys, s.sh.log).Err?
  {
    OpenAllPointwise(env.c, s.sh.keys, s.sh.log);
    FilterMember(HasKey(k), s.sh.log, s.sh.log[0]);
    OpenAllPointwise(env.c, s.sh.keys, Stream(s.sh.log, k));
  }
}
