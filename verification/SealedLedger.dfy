/**
 * The ledger's repository over the sealed store: clients load opened histories, issue commands
 * and save sealed batches, one store operation at a time, while holders are being erased.
 */
module SealedLedger {
  import opened Common
  import opened Events
  import opened EventLog
  import opened Aggregate
  import opened JsonFields
  import opened Ledger
  import opened Pii
  import opened PiiStore
  import opened LedgerErasure
  import AccountRuns
  import ShredChain
  import Sh = Shredding
  import Plain = Serializability

  // ---- what an account does without its holder's name ----

  datatype Amounts = Amounts(balance: int64, isOpen: bool)

  function AmountsOf(a: Account): Amounts {
    Amounts(a.balance, a.isOpen)
  }

  function ApplyAmounts(a: Amounts, e: AccountEvent): Option<Amounts> {
    match e
    case AccountOpened(_, _, opening) => if a.isOpen then None else Some(Amounts(opening, true))
    case TransactionRecorded(amount, _) => if a.isOpen then Some(a.(balance := Wrap64(a.balance + amount))) else None
    case HolderErasureRequested => if a.isOpen then Some(a) else None
  }

  const AMOUNTS: Domain<Amounts, AccountEvent> := Domain(Amounts(0, false), ApplyAmounts, Ledger.Encode, Ledger.Decode)

  type Command = Plain.Command<Amounts, AccountEvent>

  function Deciding(c: AccountRuns.AccountCommand): Command {
    (a: Amounts) => AccountRuns.Records(c, a.isOpen)
  }

  lemma AmountsRoundTrip()
    ensures RoundTrips(AMOUNTS)
  {
    AccountRoundTrips();
    forall d: AccountEvent ensures AMOUNTS.decode(AMOUNTS.encode(d)) == Some(d) {
      assert ACCOUNT.decode(ACCOUNT.encode(d)) == Some(d);
    }
  }

  /** Names play no part in whether a history replays, nor in the balance it comes to. */
  lemma {:induction false} AmountsSuffice(facts: seq<Fact>)
    ensures var r, q := Replay(ACCOUNT, ACCOUNT.zero, facts), Replay(AMOUNTS, AMOUNTS.zero, facts);
            (r.Ok? <==> q.Ok?) && (r.Ok? ==> q.value == AmountsOf(r.value))
  {
    if facts != [] {
      AmountsSuffice(facts[..|facts| - 1]);
    }
  }

  /** What an event does to the amounts. */
  datatype Move = Opening(amount: int64) | Moving(amount: int64) | Staying

  function MoveOf(d: AccountEvent): Move {
    match d
    case AccountOpened(_, _, opening) => Opening(opening)
    case TransactionRecorded(amount, _) => Moving(amount)
    case HolderErasureRequested => Staying
  }

  lemma MoveDecides(a: Amounts, d: AccountEvent, d': AccountEvent)
    requires MoveOf(d) == MoveOf(d')
    ensures ApplyAmounts(a, d) == ApplyAmounts(a, d')
  {
  }

  // ---- the machine ----

  datatype Client =
    | Away
    | Holding(key: StreamKey, agg: Agg<Amounts>, cmds: seq<Command>)
    | Saving(key: StreamKey, agg: Agg<Amounts>, cmds: seq<Command>, x: nat, stored: bool)

  datatype State = State(sh: Sh.State, clients: map<nat, Client>, saved: seq<Plain.Txn<Amounts, AccountEvent>>)

  datatype Step =
    | Load(c: nat, key: StreamKey)
    | Issue(c: nat, cmd: AccountRuns.AccountCommand)
    | Save(c: nat, x: nat)
    | SealNext(c: nat, supply: Supply)
    | StoreCommit(c: nat)
    | ForgetNext(c: nat)
    | RecordNext(c: nat, now: ShredChain.Time)
    | Return(c: nat)
    | Leave(c: nat)

  const INITIAL := State(Sh.INITIAL, map[], [])

  /** Repository.Load over the sealed store: replay of the opened history. */
  function LoadRead(env: Sh.Env, sh: Sh.State, k: StreamKey): Result<Agg<Amounts>, LoadError> {
    match OpenRead(env.c, sh.keys, EventLog.Load(sh.log, k.aggregateID, Some(k.tenantID)))
    case Err(NotStored(_)) => Err(NotFound)
    case Err(Unopenable(_)) => Err(UnknownOrMalformed)
    case Ok(es) =>
      match Replay(AMOUNTS, AMOUNTS.zero, Facts(es))
      case Err(e) => Err(e)
      case Ok(a) => if es == [] then Err(NotFound) else Ok(Agg(k.aggregateID, es[|es| - 1].version, a, []))
  }

  function ClientOf(s: State, c: nat): Client {
    if c in s.clients then s.clients[c] else Away
  }

  function Put(s: State, c: nat, client: Client): State {
    s.(clients := s.clients[c := client])
  }

  /** c's call of Save has taken a step in the store; if that failed it, the client must load anew. */
  function Worked(s: State, c: nat, x: nat, sh': Sh.State): State {
    var s' := s.(sh := sh');
    if x in sh'.txs && sh'.txs[x].phase == Sh.Failed then Put(s', c, Away) else s'
  }

  /** The step was the store's commit: if it was accepted, the client's commands are saved. */
  function Stored(s: State, c: nat, client: Client, sh': Sh.State): State
    requires client.Saving?
  {
    var s' := Worked(s, c, client.x, sh');
    if client.x in sh'.txs && sh'.txs[client.x].phase == Sh.Forgetting
    then Put(s', c, client.(stored := true)).(saved := s.saved + [Plain.Txn(client.key, client.cmds)]) else s'
  }

  /** One atomic step; a step that is not enabled changes nothing. */
  function Do(env: Sh.Env, s: State, step: Step): State {
    var client := ClientOf(s, step.c);
    match step
    case Load(c, k) =>
      if client.Saving? || Plain.FallsBack(s.sh.log, k) then s
      else
        (match LoadRead(env, s.sh, k)
         case Ok(a) => Put(s, c, Holding(k, a, []))
         case Err(NotFound) => Put(s, c, Holding(k, Agg(k.aggregateID, 0, AMOUNTS.zero, []), []))
         case Err(_) => Put(s, c, Away))
    case Issue(c, cmd) =>
      if !client.Holding? then s
      else Put(s, c, Holding(client.key, Plain.Issued(AMOUNTS, client.agg, Deciding(cmd), Some(client.key.aggregateID)), client.cmds + [Deciding(cmd)]))
    case Save(c, x) =>
      if !client.Holding? || x in s.sh.txs || client.agg.uncommitted == [] || client.agg.version < |client.agg.uncommitted| then s
      else
        var a := client.agg;
        Put(s, c, Saving(client.key, a, client.cmds, x, false))
          .(sh := Sh.Do(env, s.sh, Sh.Begin(x, a.uncommitted, a.version - |a.uncommitted|, Some(client.key.tenantID))))
    case SealNext(c, supply) =>
      if client.Saving? && !client.stored then Worked(s, c, client.x, Sh.Do(env, s.sh, Sh.SealNext(client.x, supply))) else s
    case StoreCommit(c) =>
      if client.Saving? && !client.stored then Stored(s, c, client, Sh.Do(env, s.sh, Sh.StoreCommit(client.x))) else s
    case ForgetNext(c) =>
      if client.Saving? && client.stored then Worked(s, c, client.x, Sh.Do(env, s.sh, Sh.ForgetNext(client.x))) else s
    case RecordNext(c, now) =>
      if client.Saving? && client.stored then Worked(s, c, client.x, Sh.Do(env, s.sh, Sh.RecordNext(client.x, now))) else s
    case Return(c) =>
      if client.Saving? && client.stored && client.x in s.sh.txs && s.sh.txs[client.x].phase == Sh.Forgetting
         && s.sh.txs[client.x].at == |s.sh.txs[client.x].batch|
      then Put(s, c, Holding(client.key, client.agg.(uncommitted := []), [])) else s
    case Leave(c) => Put(s, c, Away)
  }

  function Exec(env: Sh.Env, steps: seq<Step>): State {
    if steps == [] then INITIAL else Do(env, Exec(env, steps[..|steps| - 1]), steps[|steps| - 1])
  }

  // ---- it simulates clients of a plain store ----

  /** The client of a store with no sealing that this one stands for. */
  function Abstract(client: Client): Plain.Client<Amounts, AccountEvent> {
    match client
    case Away => Plain.Client.Away
    case Holding(k, a, cmds) => Plain.Client.Holding(k, a, cmds)
    case Saving(k, a, cmds, _, stored) =>
      if stored then Plain.Client.Holding(k, a.(uncommitted := []), []) else Plain.Client.Holding(k, a, cmds)
  }

  type PlainState = Plain.State<Amounts, AccountEvent>

  ghost predicate ClientsMatch(clients: map<nat, Client>, plain: map<nat, Plain.Client<Amounts, AccountEvent>>) {
    plain.Keys == clients.Keys && forall c :: c in clients ==> plain[c] == Abstract(clients[c])
  }

  /** The plain store's log is the sealed one's as it was recorded. */
  ghost predicate Simulated(s: State, z: PlainState) {
    z.log == s.sh.plain && z.saved == s.saved && ClientsMatch(s.clients, z.clients)
  }

  /** A call in progress is backed by its transaction. */
  ghost predicate CallInv(sh: Sh.State, client: Client) {
    client.Saving? ==>
      && client.x in sh.txs
      && var tx, a := sh.txs[client.x], client.agg;
      if client.stored then tx.phase == Sh.Forgetting || tx.phase == Sh.Recording
      else
        && tx.phase == Sh.Preparing && tx.plain == a.uncommitted && a.uncommitted != [] && |a.uncommitted| <= a.version
        && tx.expected == a.version - |a.uncommitted| && tx.tenant == Some(client.key.tenantID)
  }

  ghost predicate CallsInv(sh: Sh.State, clients: map<nat, Client>) {
    && (forall c :: c in clients ==> CallInv(sh, clients[c]))
    && (forall c, d :: c in clients && d in clients && c != d && clients[c].Saving? && clients[d].Saving?
                       ==> clients[c].x != clients[d].x)
    && (forall c :: c in clients && clients[c].Holding? ==> forall e :: e in clients[c].agg.uncommitted ==> Sh.Unsealed(e))
  }

  // ---- commits agree ----

  /** An event without what sealing may change. */
  function Bare(e: Event): Event {
    e.(payload := Malformed, manifest := NoManifest)
  }

  function BareAll(es: seq<Event>): seq<Event> {
    seq(|es|, i requires 0 <= i < |es| => Bare(es[i]))
  }

  lemma {:induction false} StreamOfBare(log: seq<Event>, k: StreamKey)
    ensures BareAll(Stream(log, k)) == Stream(BareAll(log), k)
  {
    if log != [] {
      var n := |log| - 1;
      StreamOfBare(log[..n], k);
      assert BareAll(log)[..n] == BareAll(log[..n]);
      assert BareAll(Stream(log[..n], k) + [log[n]]) == BareAll(Stream(log[..n], k)) + [Bare(log[n])];
    }
  }

  lemma SameVersions(a: seq<Event>, b: seq<Event>, k: StreamKey)
    requires BareAll(a) == BareAll(b)
    ensures |Stream(a, k)| == |Stream(b, k)| && CurrentVersion(a, k) == CurrentVersion(b, k)
  {
    StreamOfBare(a, k);
    StreamOfBare(b, k);
    var s, s' := Stream(a, k), Stream(b, k);
    assert |BareAll(s)| == |s| && |BareAll(s')| == |s'|;
    if s != [] {
      assert BareAll(s)[|s| - 1].version == BareAll(s')[|s| - 1].version;
    }
  }

  lemma SealedIsBare(env: Sh.Env, under: seq<Option<Bytes>>, plain: seq<Event>, batch: seq<Event>, n: nat)
    requires Sh.SealedUpTo(env, under, plain, batch, n)
    ensures BareAll(batch) == BareAll(plain)
  {
    forall i | 0 <= i < |batch| ensures Bare(batch[i]) == Bare(plain[i]) {
      if i < n && Sh.Seals(env, plain[i]) {
        assert Sh.SealOf(env, under[i], plain[i], batch[i]);
        var nonce :| Sh.SealedWith(env, under[i].value, nonce, plain[i], batch[i]);
      } else if i < n {
        assert Sh.SealOf(env, under[i], plain[i], batch[i]);
      }
    }
  }

  /** The sealed store accepts a sealed batch exactly when a plain one would accept it as recorded. */
  lemma CommitsAgree(env: Sh.Env, sh: Sh.State, x: nat)
    requires Sh.Inv(env, sh) && x in sh.txs && sh.txs[x].phase == Sh.Preparing
    ensures var tx := sh.txs[x];
            && |sh.plain| == |sh.log|
            && (EventLog.Commit(sh.log, tx.batch, tx.expected, tx.tenant).Ok?
                <==> EventLog.Commit(sh.plain, tx.plain, tx.expected, tx.tenant).Ok?)
  {
    var tx := sh.txs[x];
    assert Sh.TxInv(env, sh, tx);
    SealedIsBare(env, sh.under, sh.plain, sh.log, |sh.log|);
    SealedIsBare(env, tx.under, tx.plain, tx.batch, tx.at);
    if tx.batch != [] {
      assert Bare(tx.batch[0]) == BareAll(tx.batch)[0] == BareAll(tx.plain)[0] == Bare(tx.plain[0]);
      var k := KeyOf(Stamp(tx.tenant, tx.plain[0]));
      assert KeyOf(Stamp(tx.tenant, tx.batch[0])) == k;
      SameVersions(sh.log, sh.plain, k);
    }
  }

  // ---- loads agree ----

  /** Where reading the event e, recorded as p, gives something the registry can decode, it moves what p moves. */
  ghost predicate ReadAs(env: Sh.Env, keys: KeyMap, e: Event, p: Event) {
    && KeyOf(e) == KeyOf(p) && e.version == p.version
    && var r := OpenEvent(env.c, keys, e);
    r.Ok? ==>
      && KeyOf(r.value) == KeyOf(p) && r.value.version == p.version
      && var d, d' := Decode(FactOf(p)), Decode(FactOf(r.value));
      (d.Some? && d'.Some? ==> MoveOf(d.value) == MoveOf(d'.value))
  }

  ghost predicate Aligned(env: Sh.Env, keys: KeyMap, log: seq<Event>, plain: seq<Event>) {
    |log| == |plain| && forall i :: 0 <= i < |log| ==> ReadAs(env, keys, log[i], plain[i])
  }

  /** Reading the event succeeds, with something the registry can decode. */
  ghost predicate Clear(env: Sh.Env, keys: KeyMap, e: Event) {
    OpenEvent(env.c, keys, e).Ok? && Decode(FactOf(OpenEvent(env.c, keys, e).value)).Some?
  }

  ghost predicate AllClear(env: Sh.Env, keys: KeyMap, log: seq<Event>) {
    forall e :: e in log ==> Clear(env, keys, e)
  }

  lemma UndeclaredKeepsMove(env: Sh.Env, p: Event, r: Event)
    requires env.reg == REGISTRY && Sh.Seals(env, p) && Sh.Undeclared(env, p, r)
    ensures var d, d' := Decode(FactOf(p)), Decode(FactOf(r)); d.Some? && d'.Some? ==> MoveOf(d.value) == MoveOf(d'.value)
  {
    assert p.name == ACCOUNT_OPENED && Sh.AsRecorded(env, p).name == p.name;
    assert "opening_balance_cents" !in HOLDER_FIELDS;
  }

  lemma ReachedIsAligned(env: Sh.Env, w: seq<Sh.Step>)
    requires Deciphers(env.c) && env.reg == REGISTRY
    ensures var sh := Sh.Exec(env, w); Aligned(env, sh.keys, sh.log, sh.plain)
  {
    var sh := Sh.Exec(env, w);
    Sh.EveryRun(env, w);
    forall i | 0 <= i < |sh.log| ensures ReadAs(env, sh.keys, sh.log[i], sh.plain[i]) {
      Sh.ReadsExactly(env, w, i);
      if Sh.Seals(env, sh.plain[i]) && OpenEvent(env.c, sh.keys, sh.log[i]).Ok? {
        UndeclaredKeepsMove(env, sh.plain[i], OpenEvent(env.c, sh.keys, sh.log[i]).value);
      }
    }
  }

  lemma ReplayOneMore(es: seq<Event>, e: Event)
    ensures var r := Replay(AMOUNTS, AMOUNTS.zero, Facts(es));
            Replay(AMOUNTS, AMOUNTS.zero, Facts(es + [e])) == if r.Ok? then ApplyFact(AMOUNTS, r.value, FactOf(e)) else r
  {
    var facts := Facts(es + [e]);
    assert facts[..|es|] == Facts(es) && facts[|es|] == FactOf(e);
  }

  function Replayed(es: seq<Event>): Result<Amounts, LoadError> {
    Replay(AMOUNTS, AMOUNTS.zero, Facts(es))
  }

  /** Opening and replaying a history. */
  function OpenReplayed(env: Sh.Env, keys: KeyMap, log: seq<Event>): Result<Amounts, LoadError> {
    match OpenAll(env.c, keys, log)
    case Err(_) => Err(UnknownOrMalformed)
    case Ok(read) => Replayed(read)
  }

  /** It replays as it did when recorded, or fails; it fails exactly when some event is not clear. */
  ghost predicate ReadsBack(env: Sh.Env, keys: KeyMap, log: seq<Event>, plain: seq<Event>) {
    && |log| == |plain|
    && (log != [] ==> log[|log| - 1].version == plain[|plain| - 1].version)
    && var read := OpenAll(env.c, keys, log);
    && (read.Ok? ==> |read.value| == |plain| && (plain != [] ==> read.value[|plain| - 1].version == plain[|plain| - 1].version))
    && OpenReplayed(env, keys, log) == if AllClear(env, keys, log) then Replayed(plain) else Err(UnknownOrMalformed)
  }

  lemma ReadOneMore(env: Sh.Env, keys: KeyMap, log: seq<Event>, plain: seq<Event>, e: Event, p: Event)
    requires ReadsBack(env, keys, log, plain) && ReadAs(env, keys, e, p)
    requires Replayed(plain).Ok? && Replayed(plain + [p]).Ok?
    ensures ReadsBack(env, keys, log + [e], plain + [p])
  {
    assert (log + [e])[..|log|] == log;
    ReplayOneMore(plain, p);
    assert AllClear(env, keys, log + [e]) <==> AllClear(env, keys, log) && Clear(env, keys, e);
    var read, r := OpenAll(env.c, keys, log), OpenEvent(env.c, keys, e);
    if read.Ok? && r.Ok? {
      ReplayOneMore(read.value, r.value);
      if AllClear(env, keys, log) && Clear(env, keys, e) {
        MoveDecides(Replayed(plain).value, Decode(FactOf(p)).value, Decode(FactOf(r.value)).value);
      }
    }
  }

  lemma StreamPush(log: seq<Event>, k: StreamKey)
    requires log != []
    ensures var init, e := log[..|log| - 1], log[|log| - 1];
            Stream(log, k) == if KeyOf(e) == k then Stream(init, k) + [e] else Stream(init, k)
  {
  }

  lemma {:induction false} StreamReadsBack(env: Sh.Env, keys: KeyMap, log: seq<Event>, plain: seq<Event>, k: StreamKey)
    requires Aligned(env, keys, log, plain) && Replayed(Stream(plain, k)).Ok?
    ensures ReadsBack(env, keys, Stream(log, k), Stream(plain, k))
  {
    if log != [] {
      var n := |log| - 1;
      assert ReadAs(env, keys, log[n], plain[n]);
      StreamPush(log, k);
      StreamPush(plain, k);
      var log', plain' := Stream(log[..n], k), Stream(plain[..n], k);
      if KeyOf(plain[n]) == k {
        ReplayOneMore(plain', plain[n]);
      }
      StreamReadsBack(env, keys, log[..n], plain[..n], k);
      if KeyOf(plain[n]) == k {
        ReadOneMore(env, keys, log', plain', log[n], plain[n]);
      }
    }
  }

  /**
   * Outside the fallback the repository over the sealed store loads what a plain one would, if
   * every event of the stream reads back clear; otherwise it loads nothing.
   */
  lemma LoadsAgreeIffClear(env: Sh.Env, sh: Sh.State, k: StreamKey)
    requires Aligned(env, sh.keys, sh.log, sh.plain) && Replayed(Stream(sh.plain, k)).Ok?
    ensures Plain.FallsBack(sh.log, k) <==> Plain.FallsBack(sh.plain, k)
    ensures !Plain.FallsBack(sh.plain, k) ==>
              LoadRead(env, sh, k) == if AllClear(env, sh.keys, Stream(sh.log, k)) then LoadAgg(AMOUNTS, sh.plain, k.aggregateID, Some(k.tenantID))
                                      else Err(UnknownOrMalformed)
  {
    StreamReadsBack(env, sh.keys, sh.log, sh.plain, k);
    forall i | 0 <= i < |sh.log| ensures KeyOf(sh.log[i]) == KeyOf(sh.plain[i]) {
      assert ReadAs(env, sh.keys, sh.log[i], sh.plain[i]);
    }
    SameLengths(sh.log, sh.plain, StreamKey(GLOBAL_TENANT, k.aggregateID));
  }

  lemma {:induction false} SameLengths(a: seq<Event>, b: seq<Event>, k: StreamKey)
    requires |a| == |b| && forall i :: 0 <= i < |a| ==> KeyOf(a[i]) == KeyOf(b[i])
    ensures |Stream(a, k)| == |Stream(b, k)|
  {
    if a != [] {
      SameLengths(a[..|a| - 1], b[..|b| - 1], k);
    }
  }

  // ---- the simulation ----

  /** What a step of a call leaves to everyone else's: their transactions, and the plain log unless it stores. */
  lemma OthersUnmoved(env: Sh.Env, sh: Sh.State, step: Sh.Step)
    requires !step.Begin? || step.x !in sh.txs
    ensures var sh' := Sh.Do(env, sh, step);
            && (forall x :: x in sh.txs && x != step.x ==> x in sh'.txs && sh'.txs[x] == sh.txs[x])
            && (!step.StoreCommit? ==> sh'.plain == sh.plain)
  {
  }

  /** What the caller sees of its own transaction, step by step. */
  lemma OwnTx(env: Sh.Env, sh: Sh.State, step: Sh.Step)
    requires !step.Begin? && step.x in sh.txs
    ensures var tx, sh' := sh.txs[step.x], Sh.Do(env, sh, step);
            && step.x in sh'.txs
            && var tx' := sh'.txs[step.x];
            && tx'.expected == tx.expected && tx'.tenant == tx.tenant
            && (step.SealNext? && tx.phase == Sh.Preparing ==> tx'.plain == tx.plain && (tx'.phase == Sh.Preparing || tx'.phase == Sh.Failed))
            && (!step.SealNext? && !step.StoreCommit? && (tx.phase == Sh.Forgetting || tx.phase == Sh.Recording)
                ==> tx'.phase == Sh.Forgetting || tx'.phase == Sh.Recording)
            && (step.StoreCommit? && tx.phase == Sh.Preparing ==>
                  tx' == tx || tx'.phase == Sh.Failed || tx'.phase == Sh.Forgetting)
            && (step.StoreCommit? && tx.phase == Sh.Preparing && tx'.phase != Sh.Forgetting ==> sh'.plain == sh.plain)
  {
  }

  /** Changing one client and its own transaction keeps the others' calls backed. */
  lemma OneClientMoves(s: State, s': State, c: nat, x: nat)
    requires CallsInv(s.sh, s.clients) && c in s'.clients && s'.clients.Keys == s.clients.Keys + {c}
    requires forall d :: d in s.clients && d != c ==> s'.clients[d] == s.clients[d]
    requires forall y :: y in s.sh.txs && y != x ==> y in s'.sh.txs && s'.sh.txs[y] == s.sh.txs[y]
    requires (c in s.clients && s.clients[c].Saving? && s.clients[c].x == x) || x !in s.sh.txs || s'.sh.txs == s.sh.txs
    requires CallInv(s'.sh, s'.clients[c])
    requires s'.clients[c].Saving? ==>
               s'.clients[c].x == x && ((c in s.clients && s.clients[c].Saving? && s.clients[c].x == x) || x !in s.sh.txs)
    requires s'.clients[c].Holding? ==> forall e :: e in s'.clients[c].agg.uncommitted ==> Sh.Unsealed(e)
    ensures CallsInv(s'.sh, s'.clients)
  {
    forall d | d in s'.clients && d != c ensures CallInv(s'.sh, s'.clients[d]) && (s'.clients[d].Saving? && s'.clients[c].Saving? ==> s'.clients[d].x != s'.clients[c].x) {
      assert CallInv(s.sh, s.clients[d]);
    }
  }

  lemma IssuedUnsealed(a: Agg<Amounts>, cmd: Command, pii: Option<Uuid>)
    requires forall e :: e in a.uncommitted ==> Sh.Unsealed(e)
    ensures forall e :: e in Plain.Issued(AMOUNTS, a, cmd, pii).uncommitted ==> Sh.Unsealed(e)
  {
  }

  /** Moving a client on its own, with the store left alone. */
  lemma ClientMoves(s: State, z: PlainState, c: nat, client: Client)
    requires CallsInv(s.sh, s.clients) && Simulated(s, z) && !client.Saving?
    requires client.Holding? ==> forall e :: e in client.agg.uncommitted ==> Sh.Unsealed(e)
    ensures CallsInv(s.sh, s.clients[c := client])
    ensures Simulated(Put(s, c, client), z.(clients := z.clients[c := Abstract(client)]))
  {
    OneClientMoves(s, Put(s, c, client), c, 0);
  }

  type PlainStep = Plain.Step<Amounts, AccountEvent>

  /** s' follows s as the plain store's clients follow z by the given step, or by standing still. */
  ghost predicate Follows(s': State, z: PlainState, zs: Option<PlainStep>) {
    CallsInv(s'.sh, s'.clients) && Simulated(s', if zs.None? then z else Plain.Do(AMOUNTS, z, zs.value))
  }

  /** What holds between steps. */
  ghost predicate Ready(env: Sh.Env, s: State, z: PlainState) {
    && Sh.Inv(env, s.sh) && Plain.Inv(AMOUNTS, z)
    && CallsInv(s.sh, s.clients) && Simulated(s, z)
    && Aligned(env, s.sh.keys, s.sh.log, s.sh.plain)
  }

  lemma LoadFollows(env: Sh.Env, s: State, z: PlainState, c: nat, k: StreamKey) returns (zs: Option<PlainStep>)
    requires Ready(env, s, z)
    ensures Follows(Do(env, s, Load(c, k)), z, zs) && (zs == None || zs == Some(Plain.Load(c, k)) || zs == Some(Plain.Leave(c)))
  {
    assert Plain.StreamInv(AMOUNTS, z.log, z.saved, k);
    LoadsAgreeIffClear(env, s.sh, k);
    if ClientOf(s, c).Saving? || Plain.FallsBack(z.log, k) {
      zs := None;
    } else if LoadRead(env, s.sh, k) == Err(UnknownOrMalformed) {
      zs := Some(Plain.Leave(c));
      ClientMoves(s, z, c, Away);
    } else {
      zs := Some(Plain.Load(c, k));
      Plain.LoadGivesClientInv(AMOUNTS, z, k);
      var r := LoadAgg(AMOUNTS, z.log, k.aggregateID, Some(k.tenantID));
      ClientMoves(s, z, c, Holding(k, if r.Ok? then r.value else Agg(k.aggregateID, 0, AMOUNTS.zero, []), []));
    }
  }

  lemma IssueFollows(s: State, z: PlainState, env: Sh.Env, c: nat, cmd: AccountRuns.AccountCommand) returns (zs: Option<PlainStep>)
    requires CallsInv(s.sh, s.clients) && Simulated(s, z)
    ensures Follows(Do(env, s, Issue(c, cmd)), z, zs) && (zs.Some? ==> zs.value.Issue?)
  {
    var client := ClientOf(s, c);
    if client.Holding? {
      var k, a, cmds := client.key, client.agg, client.cmds;
      zs := Some(Plain.Issue(c, Deciding(cmd), Some(k.aggregateID)));
      IssuedUnsealed(a, Deciding(cmd), Some(k.aggregateID));
      ClientMoves(s, z, c, Holding(k, Plain.Issued(AMOUNTS, a, Deciding(cmd), Some(k.aggregateID)), cmds + [Deciding(cmd)]));
    } else {
      zs := None;
    }
  }

  lemma LeaveFollows(s: State, z: PlainState, c: nat)
    requires CallsInv(s.sh, s.clients) && Simulated(s, z)
    ensures Follows(Put(s, c, Away), z, Some(Plain.Leave(c)))
  {
    ClientMoves(s, z, c, Away);
  }

  lemma SaveFollows(env: Sh.Env, s: State, z: PlainState, c: nat, x: nat)
    requires CallsInv(s.sh, s.clients) && Simulated(s, z)
    ensures Follows(Do(env, s, Save(c, x)), z, None)
  {
    var s', client := Do(env, s, Save(c, x)), ClientOf(s, c);
    if s' != s {
      var a := client.agg;
      var begin := Sh.Begin(x, a.uncommitted, a.version - |a.uncommitted|, Some(client.key.tenantID));
      OthersUnmoved(env, s.sh, begin);
      assert x in s'.sh.txs && s'.sh.txs[x].plain == a.uncommitted;
      OneClientMoves(s, s', c, x);
    }
  }

  /** The store after one step of c's call, and what has become of the call. */
  lemma CallMoves(s: State, sh': Sh.State, c: nat, client: Client)
    requires CallsInv(s.sh, s.clients) && c in s.clients && s.clients[c].Saving? && !client.Holding?
    requires forall y :: y in s.sh.txs && y != s.clients[c].x ==> y in sh'.txs && sh'.txs[y] == s.sh.txs[y]
    requires client.Saving? ==> client.x == s.clients[c].x
    requires CallInv(sh', client)
    ensures CallsInv(sh', s.clients[c := client])
  {
    OneClientMoves(s, Put(s, c, client).(sh := sh'), c, s.clients[c].x);
  }

  /** A step of a call that neither stores nor fails is not seen by the plain store's clients. */
  lemma WorkedFollows(s: State, z: PlainState, c: nat, sh': Sh.State) returns (zs: Option<PlainStep>)
    requires CallsInv(s.sh, s.clients) && Simulated(s, z) && c in s.clients && s.clients[c].Saving? && s.clients[c].x in sh'.txs
    requires forall y :: y in s.sh.txs && y != s.clients[c].x ==> y in sh'.txs && sh'.txs[y] == s.sh.txs[y]
    requires sh'.plain == s.sh.plain && (CallInv(sh', s.clients[c]) || sh'.txs[s.clients[c].x].phase == Sh.Failed)
    ensures Follows(Worked(s, c, s.clients[c].x, sh'), z, zs) && (zs == None || zs == Some(Plain.Leave(c)))
  {
    var s' := s.(sh := sh');
    if sh'.txs[s.clients[c].x].phase == Sh.Failed {
      CallMoves(s, sh', c, Away);
      assert Worked(s, c, s.clients[c].x, sh') == Put(s', c, Away);
      zs := Some(Plain.Leave(c));
    } else {
      CallMoves(s, sh', c, s.clients[c]);
      assert s.clients[c := s.clients[c]] == s.clients;
      assert Put(s', c, s.clients[c]) == s' == Worked(s, c, s.clients[c].x, sh');
      zs := None;
    }
  }

  lemma QuietWorkFollows(env: Sh.Env, s: State, z: PlainState, c: nat, step: Sh.Step) returns (zs: Option<PlainStep>)
    requires CallsInv(s.sh, s.clients) && Simulated(s, z) && c in s.clients && s.clients[c].Saving? && s.clients[c].x == step.x
    requires !step.Begin? && !step.StoreCommit? && (step.SealNext? <==> !s.clients[c].stored)
    ensures Follows(Worked(s, c, step.x, Sh.Do(env, s.sh, step)), z, zs) && (zs == None || zs == Some(Plain.Leave(c)))
  {
    assert CallInv(s.sh, s.clients[c]);
    OthersUnmoved(env, s.sh, step);
    OwnTx(env, s.sh, step);
    zs := WorkedFollows(s, z, c, Sh.Do(env, s.sh, step));
  }

  lemma StoreAccepted(env: Sh.Env, s: State, z: PlainState, c: nat)
    requires CallsInv(s.sh, s.clients) && Simulated(s, z) && Sh.Inv(env, s.sh) && c in s.clients && s.clients[c].Saving? && !s.clients[c].stored
    requires var x := s.clients[c].x;
             var sh' := Sh.Do(env, s.sh, Sh.StoreCommit(x));
             x in sh'.txs && sh'.txs[x].phase == Sh.Forgetting
             && forall y :: y in s.sh.txs && y != x ==> y in sh'.txs && sh'.txs[y] == s.sh.txs[y]
    ensures Follows(Do(env, s, StoreCommit(c)), z, Some(Plain.Save(c)))
  {
    var client := s.clients[c];
    assert CallInv(s.sh, client);
    CallMoves(s, Sh.Do(env, s.sh, Sh.StoreCommit(client.x)), c, client.(stored := true));
    CommitsAgree(env, s.sh, client.x);
    StoredIsSaved(env, s, z, c);
  }

  lemma StoreFollows(env: Sh.Env, s: State, z: PlainState, c: nat) returns (zs: Option<PlainStep>)
    requires CallsInv(s.sh, s.clients) && Simulated(s, z) && Sh.Inv(env, s.sh) && c in s.clients && s.clients[c].Saving? && !s.clients[c].stored
    ensures Follows(Do(env, s, StoreCommit(c)), z, zs) && (zs.None? || zs == Some(Plain.Leave(c)) || zs == Some(Plain.Save(c)))
  {
    var client := s.clients[c];
    var step := Sh.StoreCommit(client.x);
    var sh' := Sh.Do(env, s.sh, step);
    assert CallInv(s.sh, client);
    OthersUnmoved(env, s.sh, step);
    OwnTx(env, s.sh, step);
    if sh'.txs[client.x].phase == Sh.Forgetting {
      zs := Some(Plain.Save(c));
      StoreAccepted(env, s, z, c);
    } else {
      zs := WorkedFollows(s, z, c, sh');
      assert Do(env, s, StoreCommit(c)) == Worked(s, c, client.x, sh');
    }
  }

  /** The call's store step is the plain client's save. */
  lemma StoredIsSaved(env: Sh.Env, s: State, z: PlainState, c: nat)
    requires Simulated(s, z) && c in s.clients && s.clients[c].Saving? && !s.clients[c].stored
    requires CallInv(s.sh, s.clients[c]) && |s.sh.plain| == |s.sh.log|
    requires var tx := s.sh.txs[s.clients[c].x];
             && tx.at == |tx.batch|
             && EventLog.Commit(s.sh.log, tx.batch, tx.expected, tx.tenant).Ok?
             && EventLog.Commit(s.sh.plain, tx.plain, tx.expected, tx.tenant).Ok?
    ensures Simulated(Do(env, s, StoreCommit(c)), Plain.Do(AMOUNTS, z, Plain.Save(c)))
  {
    var client := s.clients[c];
    var tx := s.sh.txs[client.x];
    assert Plain.ClientOf(z, c) == Plain.Client.Holding(client.key, client.agg, client.cmds);
    assert EventLog.Commit(s.sh.plain, tx.plain, tx.expected, tx.tenant).value
           == s.sh.plain + Number(StampAll(tx.tenant, tx.plain), |s.sh.log|);
  }

  /** The store's own step behind a step of the machine. */
  function StoreStep(s: State, step: Step): Option<Sh.Step> {
    var client := ClientOf(s, step.c);
    match step
    case Save(c, x) =>
      if !client.Holding? || x in s.sh.txs || client.agg.uncommitted == [] || client.agg.version < |client.agg.uncommitted| then None
      else Some(Sh.Begin(x, client.agg.uncommitted, client.agg.version - |client.agg.uncommitted|, Some(client.key.tenantID)))
    case SealNext(c, supply) => if client.Saving? && !client.stored then Some(Sh.SealNext(client.x, supply)) else None
    case StoreCommit(c) => if client.Saving? && !client.stored then Some(Sh.StoreCommit(client.x)) else None
    case ForgetNext(c) => if client.Saving? && client.stored then Some(Sh.ForgetNext(client.x)) else None
    case RecordNext(c, now) => if client.Saving? && client.stored then Some(Sh.RecordNext(client.x, now)) else None
    case _ => None
  }

  lemma StoreSteps(env: Sh.Env, s: State, step: Step)
    ensures Do(env, s, step).sh == match StoreStep(s, step) { case None => s.sh case Some(w) => Sh.Do(env, s.sh, w) }
  {
  }

  lemma StepFollows(env: Sh.Env, s: State, z: PlainState, step: Step) returns (zs: Option<PlainStep>)
    requires Ready(env, s, z)
    ensures Follows(Do(env, s, step), z, zs)
    ensures zs.Some? && zs.value.Load? ==> step.Load? && zs.value.key == step.key
  {
    zs := None;
    var client := ClientOf(s, step.c);
    match step {
      case Load(c, k) => zs := LoadFollows(env, s, z, c, k);
      case Issue(c, cmd) => zs := IssueFollows(s, z, env, c, cmd);
      case Save(c, x) => SaveFollows(env, s, z, c, x);
      case SealNext(c, supply) =>
        if client.Saving? && !client.stored {
          zs := QuietWorkFollows(env, s, z, c, Sh.SealNext(client.x, supply));
        }
      case StoreCommit(c) =>
        if client.Saving? && !client.stored {
          zs := StoreFollows(env, s, z, c);
        }
      case ForgetNext(c) =>
        if client.Saving? && client.stored {
          zs := QuietWorkFollows(env, s, z, c, Sh.ForgetNext(client.x));
        }
      case RecordNext(c, now) =>
        if client.Saving? && client.stored {
          zs := QuietWorkFollows(env, s, z, c, Sh.RecordNext(client.x, now));
        }
      case Return(c) => ReturnFollows(env, s, z, c);
      case Leave(c) =>
        LeaveFollows(s, z, c);
        zs := Some(Plain.Leave(c));
    }
  }

  lemma ReturnFollows(env: Sh.Env, s: State, z: PlainState, c: nat)
    requires CallsInv(s.sh, s.clients) && Simulated(s, z)
    ensures Follows(Do(env, s, Return(c)), z, None)
  {
    var client, s' := ClientOf(s, c), Do(env, s, Return(c));
    if s' != s {
      ClientMoves(s, z, c, s'.clients[c]);
      assert z.clients[c := Abstract(s'.clients[c])] == z.clients;
    }
  }

  /** Each load is of an account under its own tenant. */
  ghost predicate AtHome(home: Uuid -> Uuid, steps: seq<Step>) {
    forall i :: 0 <= i < |steps| && steps[i].Load? ==> steps[i].key.tenantID == home(steps[i].key.aggregateID)
  }

  ghost predicate PlainAtHome(home: Uuid -> Uuid, steps: seq<PlainStep>) {
    forall i :: 0 <= i < |steps| && steps[i].Load? ==> steps[i].key.tenantID == home(steps[i].key.aggregateID)
  }

  /** The step seals an event for an account holder already erased. */
  predicate Reseals(env: Sh.Env, s: State, step: Step) {
    StoreStep(s, step).Some? && Sh.Reseals(env, s.sh, StoreStep(s, step).value)
  }

  predicate NeverReseals(env: Sh.Env, steps: seq<Step>) {
    steps != [] ==>
      && NeverReseals(env, steps[..|steps| - 1])
      && !Reseals(env, Exec(env, steps[..|steps| - 1]), steps[|steps| - 1])
  }

  /**
   * Every run of the sealed ledger, whatever it does, is, seen from its clients, a run of
   * clients of a plain store whose log holds the events as they were recorded. A client whose
   * load fails stands for one that leaves.
   */
  lemma {:induction false} Simulates(env: Sh.Env, home: Uuid -> Uuid, steps: seq<Step>) returns (zs: seq<PlainStep>, ws: seq<Sh.Step>)
    requires Deciphers(env.c) && env.reg == REGISTRY
    ensures var s := Exec(env, steps);
            s.sh == Sh.Exec(env, ws) && CallsInv(s.sh, s.clients) && Simulated(s, Plain.Exec(AMOUNTS, zs))
    ensures AtHome(home, steps) ==> PlainAtHome(home, zs)
    ensures NeverReseals(env, steps) ==> Sh.NeverReseals(env, ws)
  {
    if steps == [] {
      zs, ws := [], [];
    } else {
      var init, step := steps[..|steps| - 1], steps[|steps| - 1];
      zs, ws := Simulates(env, home, init);
      AmountsRoundTrip();
      Plain.EveryRun(AMOUNTS, zs);
      Sh.EveryRun(env, ws);
      ReachedIsAligned(env, ws);
      var s := Exec(env, init);
      var next := StepFollows(env, s, Plain.Exec(AMOUNTS, zs), step);
      StoreSteps(env, s, step);
      if next.Some? {
        Plain.ExecPush(AMOUNTS, zs, next.value);
        zs := zs + [next.value];
      }
      if StoreStep(s, step).Some? {
        assert (ws + [StoreStep(s, step).value])[..|ws|] == ws;
        ws := ws + [StoreStep(s, step).value];
      }
    }
  }

  // ---- what clients and readers can rely on ----

  /** What loading the stream should give: nothing if it is empty, or its serial version and amounts. */
  ghost function SerialLoad(s: State, k: StreamKey): Result<Agg<Amounts>, LoadError> {
    if Stream(s.sh.plain, k) == [] then Err(NotFound)
    else Ok(Agg(k.aggregateID, |Stream(s.sh.plain, k)|, Plain.Serial(AMOUNTS, s.saved, k).state, []))
  }

  /**
   * Over every run, whoever is erased and however clients interleave, conflict and retry: what
   * was saved is serial, and outside the fallback a repository load over the sealed store gives
   * exactly that, at its version and with its balance, if every event of the stream reads back
   * clear; otherwise the load fails. All events do as long as no event is sealed for a holder
   * already erased.
   */
  lemma LoadIsSerialIffClear(env: Sh.Env, steps: seq<Step>, k: StreamKey)
    requires Deciphers(env.c) && env.reg == REGISTRY && !Plain.FallsBack(Exec(env, steps).sh.log, k)
    ensures var s := Exec(env, steps);
            && LoadRead(env, s.sh, k) == (if AllClear(env, s.sh.keys, Stream(s.sh.log, k)) then SerialLoad(s, k) else Err(UnknownOrMalformed))
            && (NeverReseals(env, steps) ==> LoadRead(env, s.sh, k) == SerialLoad(s, k))
  {
    var s := Exec(env, steps);
    var zs, ws := Simulates(env, _ => NIL_UUID, steps);
    AmountsRoundTrip();
    Plain.Serializable(AMOUNTS, zs, k);
    ReachedIsAligned(env, ws);
    LoadsAgreeIffClear(env, s.sh, k);
    Plain.LoadReturnsSerialState(AMOUNTS, zs, k);
    if NeverReseals(env, steps) {
      NeverResealedIsClear(env, ws, k);
    }
  }

  /** Without resealing every event of a stream that replays reads back clear. */
  lemma NeverResealedIsClear(env: Sh.Env, ws: seq<Sh.Step>, k: StreamKey)
    requires Deciphers(env.c) && env.reg == REGISTRY && Sh.NeverReseals(env, ws)
    requires Replayed(Stream(Sh.Exec(env, ws).plain, k)).Ok?
    ensures AllClear(env, Sh.Exec(env, ws).keys, Stream(Sh.Exec(env, ws).log, k))
  {
    var sh := Sh.Exec(env, ws);
    Sh.EveryRun(env, ws);
    forall e | e in Stream(sh.log, k) ensures Clear(env, sh.keys, e) {
      FilterMember(HasKey(k), sh.log, e);
      var i :| 0 <= i < |sh.log| && sh.log[i] == e;
      ReadsAreReadOf(env, ws, i);
      Sh.ReadsExactly(env, ws, i);
      var p := sh.plain[i];
      FilterMember(HasKey(k), sh.plain, p);
      ReplayedDecodes(Stream(sh.plain, k), p);
      assert FactOf(Sh.AsRecorded(env, p)) == FactOf(p);
      ReadKeepsAmounts(Sh.AsRecorded(env, p), Sh.ReadBack(env, sh.shredded, p, e));
    }
  }

  lemma {:induction false} ReplayedDecodes(es: seq<Event>, e: Event)
    requires Replayed(es).Ok? && e in es
    ensures Decode(FactOf(e)).Some?
  {
    var n := |es| - 1;
    assert es == es[..n] + [es[n]];
    ReplayOneMore(es[..n], es[n]);
    if e != es[n] {
      ReplayedDecodes(es[..n], e);
    }
  }

  ghost predicate ClientHome(home: Uuid -> Uuid, c: Plain.Client<Amounts, AccountEvent>) {
    c.Holding? ==> c.key.tenantID == home(c.key.aggregateID)
  }

  ghost predicate HomeInv(home: Uuid -> Uuid, z: PlainState) {
    && (forall e :: e in z.log ==> e.tenantID == home(e.aggregateID))
    && forall c :: c in z.clients ==> ClientHome(home, z.clients[c])
  }

  lemma StepKeepsHome(home: Uuid -> Uuid, z: PlainState, step: PlainStep)
    requires Plain.Inv(AMOUNTS, z) && HomeInv(home, z) && (step.Load? ==> step.key.tenantID == home(step.key.aggregateID))
    ensures HomeInv(home, Plain.Do(AMOUNTS, z, step))
  {
    var client := Plain.ClientOf(z, step.c);
    if step.Save? && client.Holding? {
      var k, a := client.key, client.agg;
      assert Plain.ClientInv(AMOUNTS, z.log, client) && ClientHome(home, client);
      var added := Number(StampAll(Some(k.tenantID), a.uncommitted), |z.log|);
      forall i | 0 <= i < |added| ensures added[i].tenantID == home(added[i].aggregateID) {
        assert a.uncommitted[i] in a.uncommitted && KeyOf(added[i]) == k;
      }
    }
  }

  lemma {:induction false} PlainRunAtHome(home: Uuid -> Uuid, zs: seq<PlainStep>)
    requires PlainAtHome(home, zs)
    ensures HomeInv(home, Plain.Exec(AMOUNTS, zs))
  {
    if zs != [] {
      AmountsRoundTrip();
      Plain.EveryRun(AMOUNTS, zs[..|zs| - 1]);
      PlainRunAtHome(home, zs[..|zs| - 1]);
      StepKeepsHome(home, Plain.Exec(AMOUNTS, zs[..|zs| - 1]), zs[|zs| - 1]);
    }
  }

  lemma AccountReplays(home: Uuid -> Uuid, zs: seq<PlainStep>, recorded: seq<Event>, id: Uuid)
    requires PlainAtHome(home, zs)
    requires var log := Plain.Exec(AMOUNTS, zs).log;
             |recorded| == |log| && forall i :: 0 <= i < |log| ==> KeyOf(recorded[i]) == KeyOf(log[i]) && FactOf(recorded[i]) == FactOf(log[i])
    ensures var r := Replay(ACCOUNT, ACCOUNT.zero, Facts(Filter(OfAggregate(id), recorded)));
            r.Ok? && AmountsOf(r.value) == Plain.Serial(AMOUNTS, Plain.Exec(AMOUNTS, zs).saved, StreamKey(home(id), id)).state
  {
    var log := Plain.Exec(AMOUNTS, zs).log;
    AmountsRoundTrip();
    PlainRunAtHome(home, zs);
    Plain.Serializable(AMOUNTS, zs, StreamKey(home(id), id));
    FilterSame(OfAggregate(id), HasKey(StreamKey(home(id), id)), log);
    SameFacts(recorded, log, id);
    AmountsSuffice(Facts(Filter(OfAggregate(id), recorded)));
  }

  lemma {:induction false} SameFacts(a: seq<Event>, b: seq<Event>, id: Uuid)
    requires |a| == |b| && forall i :: 0 <= i < |a| ==> KeyOf(a[i]) == KeyOf(b[i]) && FactOf(a[i]) == FactOf(b[i])
    ensures Facts(Filter(OfAggregate(id), a)) == Facts(Filter(OfAggregate(id), b))
  {
    if a != [] {
      var n := |a| - 1;
      SameFacts(a[..n], b[..n], id);
      assert KeyOf(a[n]) == KeyOf(b[n]);
      assert Facts(Filter(OfAggregate(id), a[..n]) + [a[n]]) == Facts(Filter(OfAggregate(id), a[..n])) + [FactOf(a[n])];
      assert Facts(Filter(OfAggregate(id), b[..n]) + [b[n]]) == Facts(Filter(OfAggregate(id), b[..n])) + [FactOf(b[n])];
    }
  }

  /**
   * And a book rebuilt from the sealed store, at any moment of any run that seals no event for
   * a holder already erased, shows every account the same serial balance, with erased holders
   * shown as erased.
   */
  lemma BookIsSerial(env: Sh.Env, home: Uuid -> Uuid, steps: seq<Step>, id: Uuid)
    requires Deciphers(env.c) && env.reg == REGISTRY && AtHome(home, steps) && NeverReseals(env, steps)
    ensures var s := Exec(env, steps);
            var log, read := RecordedLog(env, s.sh), OpenAll(env.c, s.sh.keys, s.sh.log);
            var r := Replay(ACCOUNT, ACCOUNT.zero, Facts(Filter(OfAggregate(id), log)));
            && read.Ok? && r.Ok?
            && Mirrors(ProjectAll(read.value), id, Filter(OfAggregate(id), log), Filter(OfAggregate(id), read.value), r.value)
            && AmountsOf(r.value) == Plain.Serial(AMOUNTS, s.saved, StreamKey(home(id), id)).state
  {
    var zs, ws := Simulates(env, home, steps);
    var log := RecordedLog(env, Exec(env, steps).sh);
    forall a ensures Replay(ACCOUNT, ACCOUNT.zero, Facts(Filter(OfAggregate(a), log))).Ok? {
      AccountReplays(home, zs, log, a);
    }
    AccountReplays(home, zs, log, id);
    BookSurvivesErasure(env, ws, id);
  }
}
