/**
 * Any number of clients load, run commands and save in any interleaving. Whatever happens,
 * each stream is what running the saved commands one transaction after another would give.
 */
module Serializability {
  import opened Common
  import opened Events
  import opened EventLog
  import opened Aggregate

  /** A command looks at the aggregate's state and either rejects or names the event to record. */
  type Command<!S, !D> = S -> Option<D>

  datatype Client<!S(!new), !D(!new)> = Away | Holding(key: StreamKey, agg: Agg<S>, cmds: seq<Command<S, D>>)

  datatype Txn<!S(!new), !D(!new)> = Txn(key: StreamKey, cmds: seq<Command<S, D>>)

  datatype State<!S(!new), !D(!new)> = State(
    log: seq<Event>,
    clients: map<nat, Client<S, D>>,
    saved: seq<Txn<S, D>>)

  datatype Step<!S(!new), !D(!new)> =
    | Load(c: nat, key: StreamKey)
    | Issue(c: nat, cmd: Command<S, D>, pii: Option<Uuid>)
    | Save(c: nat)
    | Leave(c: nat)

  function Initial<S(!new), D(!new)>(): State<S, D> {
    State([], map[], [])
  }

  function ClientOf<S(!new), D(!new)>(s: State<S, D>, c: nat): Client<S, D> {
    if c in s.clients then s.clients[c] else Away
  }

  /** A tenant's read falls back to the shared stream only while the tenant has none of its own. */
  predicate FallsBack(log: seq<Event>, k: StreamKey) {
    Stream(log, k) == [] && Stream(log, StreamKey(GLOBAL_TENANT, k.aggregateID)) != []
  }

  function Issued<S(!new), D(!new)>(dom: Domain<S, D>, a: Agg<S>, cmd: Command<S, D>, pii: Option<Uuid>): Agg<S> {
    match cmd(a.state)
    case None => a
    case Some(d) => Record(dom, a, d, pii)
  }

  /** That guard is exact: it is when a tenant's load answers with the tenant's own stream. */
  lemma LoadReadsOwnStreamIff(log: seq<Event>, k: StreamKey)
    ensures var own := Stream(log, k);
            EventLog.Load(log, k.aggregateID, Some(k.tenantID)) == (if own == [] then Err(AggregateNotFound) else Ok(own))
            <==> !FallsBack(log, k)
  {
  }

  /**
   * One atomic step; a step that is not enabled changes nothing. A client may load anew at
   * any time, may keep recording after a save, and may retry a save that conflicted.
   */
  ghost function Do<S(!new), D(!new)>(dom: Domain<S, D>, s: State<S, D>, step: Step<S, D>): State<S, D> {
    match step
    case Load(c, k) =>
      if FallsBack(s.log, k) then s
      else
        (match LoadAgg(dom, s.log, k.aggregateID, Some(k.tenantID))
         case Ok(a) => s.(clients := s.clients[c := Holding(k, a, [])])
         case Err(NotFound) => s.(clients := s.clients[c := Holding(k, Agg(k.aggregateID, 0, dom.zero, []), [])])
         case Err(_) => s.(clients := s.clients[c := Away]))
    case Issue(c, cmd, pii) =>
      (match ClientOf(s, c)
       case Away => s
       case Holding(k, a, cmds) => s.(clients := s.clients[c := Holding(k, Issued(dom, a, cmd, pii), cmds + [cmd])]))
    case Save(c) =>
      (match ClientOf(s, c)
       case Away => s
       case Holding(k, a, cmds) =>
         if a.uncommitted == [] || a.version < |a.uncommitted| then s
         else
           match EventLog.Commit(s.log, a.uncommitted, a.version - |a.uncommitted|, Some(k.tenantID))
           case Ok(log) => State(log, s.clients[c := Holding(k, a.(uncommitted := []), [])], s.saved + [Txn(k, cmds)])
           case Err(_) => s.(clients := s.clients[c := Holding(k, a.(uncommitted := StampAll(Some(k.tenantID), a.uncommitted)), cmds)]))
    case Leave(c) => s.(clients := s.clients[c := Away])
  }

  ghost function Exec<S(!new), D(!new)>(dom: Domain<S, D>, steps: seq<Step<S, D>>): State<S, D> {
    if steps == [] then Initial() else Do(dom, Exec(dom, steps[..|steps| - 1]), steps[|steps| - 1])
  }

  // ---- the serial reference ----

  datatype Outcome<S> = Outcome(state: S, facts: seq<Fact>)

  function RunCommand<S(!new), D(!new)>(dom: Domain<S, D>, o: Outcome<S>, cmd: Command<S, D>): Outcome<S> {
    match cmd(o.state)
    case None => o
    case Some(d) => match dom.apply(o.state, d) { case None => o case Some(s) => Outcome(s, o.facts + [dom.encode(d)]) }
  }

  function RunCommands<S(!new), D(!new)>(dom: Domain<S, D>, s: S, cmds: seq<Command<S, D>>): Outcome<S> {
    if cmds == [] then Outcome(s, [])
    else RunCommand(dom, RunCommands(dom, s, cmds[..|cmds| - 1]), cmds[|cmds| - 1])
  }

  /** One client running the saved transactions of a stream, in commit order, with nobody else about. */
  function Serial<S(!new), D(!new)>(dom: Domain<S, D>, saved: seq<Txn<S, D>>, k: StreamKey): Outcome<S> {
    if saved == [] then Outcome(dom.zero, [])
    else
      var o, last := Serial(dom, saved[..|saved| - 1], k), saved[|saved| - 1];
      if last.key != k then o
      else
        var r := RunCommands(dom, o.state, last.cmds);
        Outcome(r.state, o.facts + r.facts)
  }

  // ---- the invariant ----

  ghost predicate VersionsFrom(es: seq<Event>, base: nat) {
    forall i :: 0 <= i < |es| ==> es[i].version == base + 1 + i
  }

  ghost predicate StreamInv<S(!new), D(!new)>(dom: Domain<S, D>, log: seq<Event>, saved: seq<Txn<S, D>>, k: StreamKey) {
    var o := Serial(dom, saved, k);
    && VersionsFrom(Stream(log, k), 0)
    && Facts(Stream(log, k)) == o.facts
    && Replay(dom, dom.zero, o.facts) == Ok(o.state)
  }

  ghost predicate ClientInv<S(!new), D(!new)>(dom: Domain<S, D>, log: seq<Event>, c: Client<S, D>) {
    match c
    case Away => true
    case Holding(k, a, cmds) =>
      && a.id == k.aggregateID
      && |a.uncommitted| <= a.version
      && var base := a.version - |a.uncommitted|;
      && base <= |Stream(log, k)|
      && VersionsFrom(a.uncommitted, base)
      && (forall e :: e in a.uncommitted ==> KeyOf(Stamp(Some(k.tenantID), e)) == k)
      && var start := Replay(dom, dom.zero, Facts(Stream(log, k)[..base]));
      && start.Ok?
      && RunCommands(dom, start.value, cmds) == Outcome(a.state, Facts(a.uncommitted))
  }

  ghost predicate Inv<S(!new), D(!new)>(dom: Domain<S, D>, s: State<S, D>) {
    && (forall k :: StreamInv(dom, s.log, s.saved, k))
    && (forall c :: c in s.clients ==> ClientInv(dom, s.log, s.clients[c]))
  }

  /** What commands emitted replays, from the same state, to the state they reached. */
  lemma {:induction false} EmittedReplays<S(!new), D(!new)>(dom: Domain<S, D>, s: S, cmds: seq<Command<S, D>>)
    requires RoundTrips(dom)
    ensures var o := RunCommands(dom, s, cmds); Replay(dom, s, o.facts) == Ok(o.state)
  {
    if cmds != [] {
      EmittedReplays(dom, s, cmds[..|cmds| - 1]);
      var o, cmd := RunCommands(dom, s, cmds[..|cmds| - 1]), cmds[|cmds| - 1];
      var o' := RunCommand(dom, o, cmd);
      if o' != o {
        var d := cmd(o.state).value;
        assert o'.facts[..|o.facts|] == o.facts && o'.facts[|o.facts|] == dom.encode(d);
      }
    }
  }

  lemma IssueKeepsClientInv<S(!new), D(!new)>(dom: Domain<S, D>, log: seq<Event>, k: StreamKey, a: Agg<S>, cmds: seq<Command<S, D>>, cmd: Command<S, D>, pii: Option<Uuid>)
    requires ClientInv(dom, log, Holding(k, a, cmds))
    ensures ClientInv(dom, log, Holding(k, Issued(dom, a, cmd, pii), cmds + [cmd]))
  {
    var a' := Issued(dom, a, cmd, pii);
    assert (cmds + [cmd])[..|cmds|] == cmds;
    if a'.uncommitted != a.uncommitted {
      assert a'.version - |a'.uncommitted| == a.version - |a.uncommitted|;
      assert Facts(a'.uncommitted) == Facts(a.uncommitted) + [FactOf(a'.uncommitted[|a.uncommitted|])];
    }
  }

  lemma StampedFacts(t: Option<Uuid>, es: seq<Event>, last: nat)
    ensures Facts(Number(StampAll(t, es), last)) == Facts(es) && Facts(StampAll(t, es)) == Facts(es)
  {
  }

  lemma ConflictKeepsClientInv<S(!new), D(!new)>(dom: Domain<S, D>, log: seq<Event>, k: StreamKey, a: Agg<S>, cmds: seq<Command<S, D>>)
    requires ClientInv(dom, log, Holding(k, a, cmds))
    ensures ClientInv(dom, log, Holding(k, a.(uncommitted := StampAll(Some(k.tenantID), a.uncommitted)), cmds))
  {
    StampedFacts(Some(k.tenantID), a.uncommitted, 0);
  }

  /** Growing streams never disturb a client that is still holding an older version. */
  lemma GrowthKeepsClientInv<S(!new), D(!new)>(dom: Domain<S, D>, log: seq<Event>, log': seq<Event>, c: Client<S, D>)
    requires ClientInv(dom, log, c) && log <= log'
    ensures ClientInv(dom, log', c)
  {
    if c.Holding? {
      FilterPrefix(HasKey(c.key), log, log');
      var base := c.agg.version - |c.agg.uncommitted|;
      assert Stream(log', c.key)[..base] == Stream(log, c.key)[..base];
    }
  }

  /** Committing a contiguous batch at the tip of a stream. */
  lemma TipCommit(log: seq<Event>, batch: seq<Event>, k: StreamKey)
    requires batch != [] && VersionsFrom(Stream(log, k), 0) && VersionsFrom(batch, |Stream(log, k)|)
    requires forall e :: e in batch ==> KeyOf(Stamp(Some(k.tenantID), e)) == k
    ensures var r := EventLog.Commit(log, batch, |Stream(log, k)|, Some(k.tenantID));
            && r.Ok?
            && |Stream(r.value, k)| == |Stream(log, k)| + |batch|
            && VersionsFrom(Stream(r.value, k), 0)
            && Facts(Stream(r.value, k)) == Facts(Stream(log, k)) + Facts(batch)
  {
    var t, stream := Some(k.tenantID), Stream(log, k);
    var added := Number(StampAll(t, batch), |log|);
    CommitStreams(log, batch, |stream|, t, k);
    StampedFacts(t, batch, |log|);
    assert Facts(stream + added) == Facts(stream) + Facts(added);
  }

  /** One more transaction in the serial reference, and its replay. */
  lemma SerialPush<S(!new), D(!new)>(dom: Domain<S, D>, saved: seq<Txn<S, D>>, txn: Txn<S, D>)
    requires RoundTrips(dom)
    ensures var o, o' := Serial(dom, saved, txn.key), Serial(dom, saved + [txn], txn.key);
            var r := RunCommands(dom, o.state, txn.cmds);
            && o' == Outcome(r.state, o.facts + r.facts)
            && (Replay(dom, dom.zero, o.facts) == Ok(o.state) ==> Replay(dom, dom.zero, o'.facts) == Ok(o'.state))
  {
    var o := Serial(dom, saved, txn.key);
    var r := RunCommands(dom, o.state, txn.cmds);
    assert (saved + [txn])[..|saved|] == saved;
    EmittedReplays(dom, o.state, txn.cmds);
    ReplayConcat(dom, dom.zero, o.facts, r.facts);
  }

  /** A client holding the serial state at the tip of its stream, with nothing unsaved. */
  lemma ClientAtTip<S(!new), D(!new)>(dom: Domain<S, D>, log: seq<Event>, saved: seq<Txn<S, D>>, k: StreamKey, a: Agg<S>)
    requires StreamInv(dom, log, saved, k)
    requires a == Agg(k.aggregateID, |Stream(log, k)|, Serial(dom, saved, k).state, [])
    ensures ClientInv(dom, log, Holding(k, a, []))
  {
    assert Stream(log, k)[..a.version] == Stream(log, k);
    assert Facts(a.uncommitted) == [];
  }

  lemma LoadGivesClientInv<S(!new), D(!new)>(dom: Domain<S, D>, s: State<S, D>, k: StreamKey)
    requires Inv(dom, s) && !FallsBack(s.log, k)
    ensures var r := LoadAgg(dom, s.log, k.aggregateID, Some(k.tenantID));
            && (Stream(s.log, k) == [] ==> r == Err(NotFound))
            && (Stream(s.log, k) != [] ==> r.Ok? && ClientInv(dom, s.log, Holding(k, r.value, [])))
    ensures ClientInv(dom, s.log, Client<S, D>.Holding(k, Agg(k.aggregateID, 0, dom.zero, []), []))
  {
    assert StreamInv(dom, s.log, s.saved, k);
    if Stream(s.log, k) != [] {
      ClientAtTip(dom, s.log, s.saved, k, LoadAgg(dom, s.log, k.aggregateID, Some(k.tenantID)).value);
    }
    assert Facts(Stream(s.log, k)[..0]) == [] == Facts([]);
  }

  /** A save that succeeds appends, at the tip of its stream, exactly what its commands emit there. */
  lemma SaveExtendsStream<S(!new), D(!new)>(dom: Domain<S, D>, s: State<S, D>, k: StreamKey, a: Agg<S>, cmds: seq<Command<S, D>>)
    requires RoundTrips(dom) && Inv(dom, s)
    requires ClientInv(dom, s.log, Holding(k, a, cmds)) && a.uncommitted != []
    requires EventLog.Commit(s.log, a.uncommitted, a.version - |a.uncommitted|, Some(k.tenantID)).Ok?
    ensures var log' := EventLog.Commit(s.log, a.uncommitted, a.version - |a.uncommitted|, Some(k.tenantID)).value;
            && StreamInv(dom, log', s.saved + [Txn(k, cmds)], k)
            && a.version == |Stream(log', k)|
            && a.state == Serial(dom, s.saved + [Txn(k, cmds)], k).state
  {
    var stream := Stream(s.log, k);
    assert StreamInv(dom, s.log, s.saved, k);
    assert KeyOf(Stamp(Some(k.tenantID), a.uncommitted[0])) == k;
    assert a.version - |a.uncommitted| == |stream|;
    assert stream[..|stream|] == stream;
    TipCommit(s.log, a.uncommitted, k);
    SerialPush(dom, s.saved, Txn(k, cmds));
  }

  /** The streams a save does not write are as they were, serially and in the log. */
  lemma SaveKeepsOtherStreams<S(!new), D(!new)>(dom: Domain<S, D>, s: State<S, D>, batch: seq<Event>, expected: nat, txn: Txn<S, D>, j: StreamKey)
    requires Inv(dom, s) && j != txn.key && batch != []
    requires forall e :: e in batch ==> KeyOf(Stamp(Some(txn.key.tenantID), e)) == txn.key
    requires EventLog.Commit(s.log, batch, expected, Some(txn.key.tenantID)).Ok?
    ensures StreamInv(dom, EventLog.Commit(s.log, batch, expected, Some(txn.key.tenantID)).value, s.saved + [txn], j)
  {
    assert StreamInv(dom, s.log, s.saved, j);
    CommitStreams(s.log, batch, expected, Some(txn.key.tenantID), j);
    assert (s.saved + [txn])[..|s.saved|] == s.saved;
  }

  lemma StepKeepsInv<S(!new), D(!new)>(dom: Domain<S, D>, s: State<S, D>, step: Step<S, D>)
    requires RoundTrips(dom) && Inv(dom, s)
    ensures Inv(dom, Do(dom, s, step))
  {
    match step {
      case Load(_, k) =>
        if !FallsBack(s.log, k) {
          LoadGivesClientInv(dom, s, k);
        }
      case Issue(c, cmd, pii) =>
        var client := ClientOf(s, c);
        if client.Holding? {
          IssueKeepsClientInv(dom, s.log, client.key, client.agg, client.cmds, cmd, pii);
        }
      case Save(c) => SaveStep(dom, s, c);
      case Leave(_) =>
    }
  }

  lemma SaveStep<S(!new), D(!new)>(dom: Domain<S, D>, s: State<S, D>, c: nat)
    requires RoundTrips(dom) && Inv(dom, s)
    ensures Inv(dom, Do(dom, s, Save(c)))
  {
    var client, s' := ClientOf(s, c), Do(dom, s, Save(c));
    if client.Holding? && client.agg.uncommitted != [] {
      var k, a := client.key, client.agg;
      if EventLog.Commit(s.log, a.uncommitted, a.version - |a.uncommitted|, Some(k.tenantID)).Ok? {
        SaveExtendsStream(dom, s, k, a, client.cmds);
        ClientAtTip(dom, s'.log, s'.saved, k, a.(uncommitted := []));
        forall j ensures StreamInv(dom, s'.log, s'.saved, j) {
          if j != k {
            SaveKeepsOtherStreams(dom, s, a.uncommitted, a.version - |a.uncommitted|, Txn(k, client.cmds), j);
          }
        }
        forall d | d in s'.clients && d != c ensures ClientInv(dom, s'.log, s'.clients[d]) {
          GrowthKeepsClientInv(dom, s.log, s'.log, s.clients[d]);
        }
      } else {
        ConflictKeepsClientInv(dom, s.log, k, a, client.cmds);
      }
    }
  }

  lemma {:induction false} EveryRun<S(!new), D(!new)>(dom: Domain<S, D>, steps: seq<Step<S, D>>)
    requires RoundTrips(dom)
    ensures Inv(dom, Exec(dom, steps))
  {
    if steps == [] {
      forall k: StreamKey ensures StreamInv(dom, [], Initial<S, D>().saved, k) {
        assert Stream([], k) == [];
      }
    } else {
      EveryRun(dom, steps[..|steps| - 1]);
      StepKeepsInv(dom, Exec(dom, steps[..|steps| - 1]), steps[|steps| - 1]);
    }
  }

  /**
   * Serializability: in every interleaving, each stream's versions are exactly 1..n, its
   * events are those the saved transactions emit when run alone in commit order, and
   * replaying them succeeds with the state that serial run ends in.
   */
  lemma Serializable<S(!new), D(!new)>(dom: Domain<S, D>, steps: seq<Step<S, D>>, k: StreamKey)
    requires RoundTrips(dom)
    ensures var s := Exec(dom, steps);
            var serial := Serial(dom, s.saved, k);
            && VersionsFrom(Stream(s.log, k), 0)
            && Facts(Stream(s.log, k)) == serial.facts
            && Replay(dom, dom.zero, Facts(Stream(s.log, k))) == Ok(serial.state)
  {
    EveryRun(dom, steps);
    assert StreamInv(dom, Exec(dom, steps).log, Exec(dom, steps).saved, k);
  }

  /** A read outside the fallback never fails to replay and returns the serial state and version. */
  lemma LoadReturnsSerialState<S(!new), D(!new)>(dom: Domain<S, D>, steps: seq<Step<S, D>>, k: StreamKey)
    requires RoundTrips(dom) && !FallsBack(Exec(dom, steps).log, k)
    ensures var s := Exec(dom, steps);
            LoadAgg(dom, s.log, k.aggregateID, Some(k.tenantID))
            == if Stream(s.log, k) == [] then Err(NotFound)
               else Ok(Agg(k.aggregateID, |Stream(s.log, k)|, Serial(dom, s.saved, k).state, []))
  {
    var s := Exec(dom, steps);
    EveryRun(dom, steps);
    assert StreamInv(dom, s.log, s.saved, k);
  }

  // ---- every step of a client gets somewhere ----

  /**
   * In every run a save goes through if and only if nobody has saved to the stream since it was
   * loaded. Then the stream gains exactly what was recorded and the client goes on from there;
   * otherwise the log is as it was and the client still holds what it recorded, to retry.
   */
  lemma SaveSucceedsIff<S(!new), D(!new)>(dom: Domain<S, D>, steps: seq<Step<S, D>>, c: nat)
    requires RoundTrips(dom) && ClientOf(Exec(dom, steps), c).Holding? && ClientOf(Exec(dom, steps), c).agg.uncommitted != []
    ensures var s, s' := Exec(dom, steps), Do(dom, Exec(dom, steps), Step<S, D>.Save(c));
            var k, a, cmds := ClientOf(s, c).key, ClientOf(s, c).agg, ClientOf(s, c).cmds;
            if |Stream(s.log, k)| + |a.uncommitted| == a.version then
              && s'.saved == s.saved + [Txn(k, cmds)] && ClientOf(s', c) == Holding(k, a.(uncommitted := []), [])
              && s.log <= s'.log && |s'.log| == |s.log| + |a.uncommitted|
              && Facts(Stream(s'.log, k)) == Facts(Stream(s.log, k)) + Facts(a.uncommitted)
            else
              && s'.saved == s.saved && s'.log == s.log
              && ClientOf(s', c) == Holding(k, a.(uncommitted := StampAll(Some(k.tenantID), a.uncommitted)), cmds)
  {
    var s := Exec(dom, steps);
    EveryRun(dom, steps);
    var client := ClientOf(s, c);
    var k, a := client.key, client.agg;
    assert ClientInv(dom, s.log, client) && StreamInv(dom, s.log, s.saved, k);
    assert KeyOf(Stamp(Some(k.tenantID), a.uncommitted[0])) == k;
    if |Stream(s.log, k)| + |a.uncommitted| == a.version {
      TipCommit(s.log, a.uncommitted, k);
    }
  }

  /** A command that is accepted adds its event, under the next version, to what the client will save. */
  lemma IssueRecords<S(!new), D(!new)>(dom: Domain<S, D>, s: State<S, D>, c: nat, cmd: Command<S, D>, pii: Option<Uuid>)
    requires ClientOf(s, c).Holding?
    ensures var s' := Do(dom, s, Issue(c, cmd, pii));
            var a, a' := ClientOf(s, c).agg, ClientOf(s', c).agg;
            && s'.log == s.log && s'.saved == s.saved && ClientOf(s', c).Holding? && ClientOf(s', c).key == ClientOf(s, c).key
            && ClientOf(s', c).cmds == ClientOf(s, c).cmds + [cmd]
            && if cmd(a.state).Some? && dom.apply(a.state, cmd(a.state).value).Some? then
                 && Some(a'.state) == dom.apply(a.state, cmd(a.state).value)
                 && a'.id == a.id && a'.version == a.version + 1 && |a'.uncommitted| == |a.uncommitted| + 1 && a.uncommitted <= a'.uncommitted
                 && var e := a'.uncommitted[|a.uncommitted|];
                 && FactOf(e) == dom.encode(cmd(a.state).value) && e.piiID == pii
                 && e.aggregateID == a.id && e.version == a.version + 1 && e.tenantID == NIL_UUID
                 && e.manifest.NoManifest? && !e.piiUnrecoverable
               else a' == a
  {
  }

  /** A load holds the serial state at its version, and is refused only where it would fall back. */
  lemma LoadHoldsSerialState<S(!new), D(!new)>(dom: Domain<S, D>, steps: seq<Step<S, D>>, c: nat, k: StreamKey)
    requires RoundTrips(dom) && !FallsBack(Exec(dom, steps).log, k)
    ensures var s, s' := Exec(dom, steps), Do(dom, Exec(dom, steps), Step<S, D>.Load(c, k));
            && s'.log == s.log && s'.saved == s.saved
            && ClientOf(s', c) == Holding(k, Agg(k.aggregateID, |Stream(s.log, k)|, Serial(dom, s.saved, k).state, []), [])
  {
    var s := Exec(dom, steps);
    LoadReturnsSerialState(dom, steps, k);
    if Stream(s.log, k) == [] {
      Serializable(dom, steps, k);
    }
  }

  // ---- saving what was loaded through the fallback ----

  /**
   * What the guard leaves out: an aggregate loaded through the fallback, at the version n of
   * the shared stream, is accepted into the tenant's own stream, at any later moment of the
   * run, exactly when that stream has n events by then, none of which the aggregate has seen.
   */
  lemma FallbackSaveAcceptedIff<S(!new), D(!new)>(
    dom: Domain<S, D>, steps: seq<Step<S, D>>, more: seq<Step<S, D>>, k: StreamKey, a: Agg<S>, batch: seq<Event>)
    requires RoundTrips(dom) && FallsBack(Exec(dom, steps).log, k)
    requires LoadAgg(dom, Exec(dom, steps).log, k.aggregateID, Some(k.tenantID)) == Ok(a)
    requires batch != [] && KeyOf(Stamp(Some(k.tenantID), batch[0])) == k
    ensures a.version == |Stream(Exec(dom, steps).log, StreamKey(GLOBAL_TENANT, k.aggregateID))| >= 1
    ensures EventLog.Commit(Exec(dom, steps + more).log, batch, a.version, Some(k.tenantID)).Ok?
            <==> |Stream(Exec(dom, steps + more).log, k)| == a.version
  {
    var s, later := Exec(dom, steps), Exec(dom, steps + more);
    EveryRun(dom, steps);
    EveryRun(dom, steps + more);
    assert StreamInv(dom, s.log, s.saved, StreamKey(GLOBAL_TENANT, k.aggregateID));
    assert StreamInv(dom, later.log, later.saved, k);
  }

  /** In particular it conflicts as long as that stream is still empty. */
  lemma FallbackSaveConflicts<S(!new), D(!new)>(dom: Domain<S, D>, steps: seq<Step<S, D>>, k: StreamKey, a: Agg<S>, batch: seq<Event>)
    requires RoundTrips(dom) && FallsBack(Exec(dom, steps).log, k)
    requires LoadAgg(dom, Exec(dom, steps).log, k.aggregateID, Some(k.tenantID)) == Ok(a)
    requires batch != [] && KeyOf(Stamp(Some(k.tenantID), batch[0])) == k
    ensures EventLog.Commit(Exec(dom, steps).log, batch, a.version, Some(k.tenantID)) == Err(ConcurrencyConflict)
  {
    assert steps + [] == steps;
    FallbackSaveAcceptedIff(dom, steps, [], k, a, batch);
  }

  lemma ExecPush<S(!new), D(!new)>(dom: Domain<S, D>, steps: seq<Step<S, D>>, step: Step<S, D>)
    ensures Exec(dom, steps + [step]) == Do(dom, Exec(dom, steps), step)
  {
    assert (steps + [step])[..|steps|] == steps;
  }

  /** A client that starts an aggregate with one command, and the event it then saves. */
  function FirstEvent<S(!new), D(!new)>(dom: Domain<S, D>, id: Uuid, d: D): Event {
    NewEvent(id, 1, dom.encode(d), None)
  }

  function Started<S(!new), D(!new)>(dom: Domain<S, D>, k: StreamKey, cmd: Command<S, D>, d: D, s: S): Client<S, D> {
    Holding(k, Agg(k.aggregateID, 1, s, [FirstEvent(dom, k.aggregateID, d)]), [cmd])
  }

  lemma LoadAndIssue<S(!new), D(!new)>(dom: Domain<S, D>, steps: seq<Step<S, D>>, c: nat, k: StreamKey, cmd: Command<S, D>, d: D)
    requires Exec(dom, steps).log == [] && cmd(dom.zero) == Some(d) && dom.apply(dom.zero, d).Some?
    ensures var s := Exec(dom, steps);
            Exec(dom, steps + [Load(c, k)] + [Issue(c, cmd, None)])
            == s.(clients := s.clients[c := Started(dom, k, cmd, d, dom.apply(dom.zero, d).value)])
  {
    var s := Exec(dom, steps);
    assert Stream(s.log, k) == [];
    ExecPush(dom, steps, Load(c, k));
    ExecPush(dom, steps + [Load(c, k)], Issue(c, cmd, None));
    var fresh' := Agg(k.aggregateID, 0, dom.zero, []);
    assert Do(dom, s, Load(c, k)) == s.(clients := s.clients[c := Holding(k, fresh', [])]);
    assert Issued(dom, fresh', cmd, None) == Agg(k.aggregateID, 1, dom.apply(dom.zero, d).value, [FirstEvent(dom, k.aggregateID, d)]);
    assert [] + [cmd] == [cmd];
  }

  /** The event a first save leaves in the log. */
  function FirstSaved<S(!new), D(!new)>(dom: Domain<S, D>, k: StreamKey, d: D, globalID: nat): Event {
    FirstEvent(dom, k.aggregateID, d).(tenantID := k.tenantID, globalID := globalID)
  }

  lemma CommitFirst<S(!new), D(!new)>(dom: Domain<S, D>, log: seq<Event>, k: StreamKey, d: D)
    requires Stream(log, k) == []
    ensures EventLog.Commit(log, [FirstEvent(dom, k.aggregateID, d)], 0, Some(k.tenantID)) == Ok(log + [FirstSaved(dom, k, d, |log| + 1)])
  {
    var batch := [FirstEvent(dom, k.aggregateID, d)];
    assert KeyOf(Stamp(Some(k.tenantID), batch[0])) == k;
    assert Number(StampAll(Some(k.tenantID), batch), |log|) == [FirstSaved(dom, k, d, |log| + 1)];
  }

  lemma SaveFirst<S(!new), D(!new)>(dom: Domain<S, D>, steps: seq<Step<S, D>>, c: nat, k: StreamKey, cmd: Command<S, D>, d: D, s: S)
    requires c in Exec(dom, steps).clients && Exec(dom, steps).clients[c] == Started(dom, k, cmd, d, s)
    requires Stream(Exec(dom, steps).log, k) == []
    ensures var was, now := Exec(dom, steps), Exec(dom, steps + [Save(c)]);
            && now.log == was.log + [FirstSaved(dom, k, d, |was.log| + 1)]
            && now.clients == was.clients[c := Holding(k, Agg(k.aggregateID, 1, s, []), [])]
  {
    var was := Exec(dom, steps);
    ExecPush(dom, steps, Step<S, D>.Save(c));
    CommitFirst(dom, was.log, k, d);
    assert ClientOf(was, c) == Started(dom, k, cmd, d, s);
  }

  /** Both clients start the same aggregate, the first under the shared tenant, the second under t. */
  function BothStarted<S(!new), D(!new)>(shared: StreamKey, k: StreamKey, cmd: Command<S, D>, cmd': Command<S, D>): seq<Step<S, D>> {
    [] + [Load(0, shared)] + [Issue(0, cmd, None)] + [Load(1, k)] + [Issue(1, cmd', None)]
  }

  lemma StreamOfOne(e: Event, k: StreamKey)
    ensures Stream([e], k) == if KeyOf(e) == k then [e] else []
  {
    FilterPush(HasKey(k), [], e);
    assert [] + [e] == [e];
  }

  lemma LoadOfShared<S(!new), D(!new)>(dom: Domain<S, D>, id: Uuid, t: Uuid, d: D)
    requires RoundTrips(dom) && t != GLOBAL_TENANT && dom.apply(dom.zero, d).Some?
    ensures var log := [FirstSaved(dom, StreamKey(GLOBAL_TENANT, id), d, 1)];
            && Stream(log, StreamKey(t, id)) == [] && FallsBack(log, StreamKey(t, id))
            && LoadAgg(dom, log, id, Some(t)) == Ok(Agg(id, 1, dom.apply(dom.zero, d).value, []))
  {
    var e := FirstSaved(dom, StreamKey(GLOBAL_TENANT, id), d, 1);
    StreamOfOne(e, StreamKey(t, id));
    StreamOfOne(e, StreamKey(GLOBAL_TENANT, id));
    OneEventReplays(dom, e, d);
  }

  /** The state once both have started, and the first has saved. */
  lemma SharedSavedFirst<S(!new), D(!new)>(dom: Domain<S, D>, id: Uuid, t: Uuid, cmd: Command<S, D>, d: D, cmd': Command<S, D>, d': D)
    requires cmd(dom.zero) == Some(d) && dom.apply(dom.zero, d).Some?
    requires cmd'(dom.zero) == Some(d') && dom.apply(dom.zero, d').Some?
    ensures var shared, k := StreamKey(GLOBAL_TENANT, id), StreamKey(t, id);
            var s := Exec(dom, BothStarted(shared, k, cmd, cmd') + [Save(0)]);
            && s.log == [FirstSaved(dom, shared, d, 1)]
            && 1 in s.clients && s.clients[1] == Started(dom, k, cmd', d', dom.apply(dom.zero, d').value)
  {
    var shared, k := StreamKey(GLOBAL_TENANT, id), StreamKey(t, id);
    LoadAndIssue(dom, [], 0, shared, cmd, d);
    var one := [] + [Load(0, shared)] + [Issue(0, cmd, None)];
    LoadAndIssue(dom, one, 1, k, cmd', d');
    var s := Exec(dom, BothStarted(shared, k, cmd, cmd'));
    assert Stream(s.log, shared) == [];
    SaveFirst(dom, BothStarted(shared, k, cmd, cmd'), 0, shared, cmd, d, dom.apply(dom.zero, d).value);
  }

  /**
   * A run in which it goes wrong: the shared stream is saved first, an aggregate is loaded
   * through the fallback, and then the tenant's own stream is started. From then on a save of
   * that aggregate is accepted, as version 2 of a stream whose version 1 it has not replayed.
   */
  lemma StaleFallbackSaveIsAccepted<S(!new), D(!new)>(
    dom: Domain<S, D>, id: Uuid, t: Uuid, cmd: Command<S, D>, d: D, cmd': Command<S, D>, d': D, batch: seq<Event>)
    requires RoundTrips(dom) && t != GLOBAL_TENANT
    requires cmd(dom.zero) == Some(d) && dom.apply(dom.zero, d).Some?
    requires cmd'(dom.zero) == Some(d') && dom.apply(dom.zero, d').Some?
    requires batch != [] && KeyOf(Stamp(Some(t), batch[0])) == StreamKey(t, id)
    ensures var shared, k := StreamKey(GLOBAL_TENANT, id), StreamKey(t, id);
            var loaded := BothStarted(shared, k, cmd, cmd') + [Save(0)];
            var later := loaded + [Save(1)];
            && FallsBack(Exec(dom, loaded).log, k)
            && LoadAgg(dom, Exec(dom, loaded).log, id, Some(t)) == Ok(Agg(id, 1, dom.apply(dom.zero, d).value, []))
            && Replay(dom, dom.zero, Facts(Stream(Exec(dom, later).log, k))) == Ok(dom.apply(dom.zero, d').value)
            && EventLog.Commit(Exec(dom, later).log, batch, 1, Some(t)).Ok?
  {
    var shared, k := StreamKey(GLOBAL_TENANT, id), StreamKey(t, id);
    var loaded := BothStarted(shared, k, cmd, cmd') + [Save(0)];
    SharedSavedFirst(dom, id, t, cmd, d, cmd', d');
    LoadOfShared(dom, id, t, d);
    SaveFirst(dom, loaded, 1, k, cmd', d', dom.apply(dom.zero, d').value);
    var e, e' := FirstSaved(dom, shared, d, 1), FirstSaved(dom, k, d', 2);
    FilterPush(HasKey(k), [e], e');
    assert Stream([e], k) == [] && [] + [e'] == [e'];
    OneEventReplays(dom, e', d');
    FallbackSaveAcceptedIff(dom, loaded, [Step<S, D>.Save(1)], k, Agg(id, 1, dom.apply(dom.zero, d).value, []), batch);
  }

  lemma OneEventReplays<S(!new), D(!new)>(dom: Domain<S, D>, e: Event, d: D)
    requires RoundTrips(dom) && dom.apply(dom.zero, d).Some? && FactOf(e) == dom.encode(d)
    ensures Replay(dom, dom.zero, Facts([e])) == Ok(dom.apply(dom.zero, d).value)
  {
    assert Facts([e]) == [FactOf(e)];
    assert Facts([e])[..0] == [];
  }
}
