/** What an event store promises, as functions of the single ordered log. */
module EventLog {
  import opened Common
  import opened Events

  /** GlobalIDs are exactly the positions 1, 2, 3, ... */
  ghost predicate WellNumbered(log: seq<Event>) {
    forall i :: 0 <= i < |log| ==> log[i].globalID == i + 1
  }

  function Stream(log: seq<Event>, k: StreamKey): seq<Event> {
    Filter(HasKey(k), log)
  }

  function CurrentVersion(log: seq<Event>, k: StreamKey): nat {
    var s := Stream(log, k);
    if s == [] then 0 else s[|s| - 1].version
  }

  /** The tenant of the call is stamped onto an event that carries none. */
  function Stamp(t: Option<Uuid>, e: Event): Event {
    if t.Some? && e.tenantID == NIL_UUID then e.(tenantID := t.value) else e
  }

  function StampAll(t: Option<Uuid>, batch: seq<Event>): seq<Event> {
    seq(|batch|, i requires 0 <= i < |batch| => Stamp(t, batch[i]))
  }

  function Number(batch: seq<Event>, last: nat): seq<Event> {
    seq(|batch|, i requires 0 <= i < |batch| => batch[i].(globalID := last + 1 + i))
  }

  /** Every event of a batch belongs to one aggregate of one tenant. */
  ghost predicate SingleStream(t: Option<Uuid>, batch: seq<Event>) {
    forall i :: 0 <= i < |batch| ==> KeyOf(Stamp(t, batch[i])) == KeyOf(Stamp(t, batch[0]))
  }

  function Commit(log: seq<Event>, batch: seq<Event>, expected: nat, t: Option<Uuid>): Result<seq<Event>, StoreError> {
    if batch == [] then Ok(log)
    else if CurrentVersion(log, KeyOf(Stamp(t, batch[0]))) != expected then Err(ConcurrencyConflict)
    else Ok(log + Number(StampAll(t, batch), |log|))
  }

  /** An aggregate's history: its own tenant's stream, or the global one when that is empty. */
  function Load(log: seq<Event>, id: Uuid, t: Option<Uuid>): Result<seq<Event>, StoreError> {
    var own := Stream(log, StreamKey(if t.Some? then t.value else NIL_UUID, id));
    var found := if own == [] && t.Some? then Stream(log, StreamKey(GLOBAL_TENANT, id)) else own;
    if found == [] then Err(AggregateNotFound) else Ok(found)
  }

  function FirstN<T>(s: seq<T>, limit: int): seq<T> {
    if 0 < limit < |s| then s[..limit] else s
  }

  /** A limit that is not positive means no limit. */
  function FetchAfter(log: seq<Event>, lastID: nat, limit: int, t: Option<Uuid>): seq<Event> {
    FirstN(Filter(PastCursor(lastID, t), log), limit)
  }

  function FetchByPii(log: seq<Event>, p: Uuid, t: Option<Uuid>): Result<seq<Event>, StoreError> {
    var found := Filter(VisibleTo(t), Filter(HasPii(p), log));
    if found == [] then Err(SubjectNotFound) else Ok(found)
  }

  /** Rows as ORDER BY global_id returns them: ids positive and strictly ascending. */
  ghost predicate Ascending(rows: seq<Event>) {
    && (forall i :: 0 <= i < |rows| ==> 1 <= rows[i].globalID)
    && (forall i, j :: 0 <= i < j < |rows| ==> rows[i].globalID < rows[j].globalID)
  }

  lemma {:induction false} FilterAscending(p: Event -> bool, rows: seq<Event>)
    requires Ascending(rows)
    ensures Ascending(Filter(p, rows))
    ensures forall e :: e in Filter(p, rows) <==> e in rows && p(e)
  {
    if rows != [] {
      var init, last := rows[..|rows| - 1], rows[|rows| - 1];
      FilterAscending(p, init);
      assert rows == init + [last];
      assert forall e :: e in init ==> e.globalID < last.globalID;
    }
  }

  lemma CommitKeepsNumbering(log: seq<Event>, batch: seq<Event>, expected: nat, t: Option<Uuid>)
    requires WellNumbered(log)
    ensures var r := Commit(log, batch, expected, t); r.Ok? ==> WellNumbered(r.value) && log <= r.value
  {
  }

  /** A commit to one stream extends that stream by its batch and leaves every other stream alone. */
  lemma CommitStreams(log: seq<Event>, batch: seq<Event>, expected: nat, t: Option<Uuid>, k: StreamKey)
    requires batch != [] && SingleStream(t, batch)
    requires Commit(log, batch, expected, t).Ok?
    ensures var log' := Commit(log, batch, expected, t).value;
            Stream(log', k) == Stream(log, k)
              + (if k == KeyOf(Stamp(t, batch[0])) then Number(StampAll(t, batch), |log|) else [])
  {
    var added := Number(StampAll(t, batch), |log|);
    FilterConcat(HasKey(k), log, added);
    if k == KeyOf(Stamp(t, batch[0])) {
      FilterAll(HasKey(k), added);
    } else {
      FilterNone(HasKey(k), added);
    }
  }

  // ---- what the answers hold, in terms of the log ----

  /** Everything of the tenant's own and everything shared, where a tenant is named. */
  predicate Readable(e: Event, t: Option<Uuid>) {
    match t
    case None => true
    case Some(tenant) => e.tenantID == tenant || e.tenantID == GLOBAL_TENANT
  }

  /**
   * A cursor read without a limit holds all and only the events past the cursor that the tenant
   * may read, those of the shared tenant included; a limit cuts it after that many. It is in
   * GlobalID order.
   */
  lemma FetchAfterHolds(log: seq<Event>, lastID: nat, limit: int, t: Option<Uuid>)
    ensures var all, page := FetchAfter(log, lastID, 0, t), FetchAfter(log, lastID, limit, t);
            && (forall e :: e in all <==> e in log && lastID < e.globalID && Readable(e, t))
            && page == (if limit <= 0 || |all| <= limit then all else all[..limit])
            && (Ascending(log) ==> Ascending(page))
  {
    forall e ensures e in FetchAfter(log, lastID, 0, t) <==> e in log && lastID < e.globalID && Readable(e, t) {
      FilterMember(PastCursor(lastID, t), log, e);
    }
    if Ascending(log) {
      FilterAscending(PastCursor(lastID, t), log);
    }
  }

  /** A lookup by subject finds exactly the subject's events that the tenant may read, in log order. */
  lemma FetchByPiiHolds(log: seq<Event>, p: Uuid, t: Option<Uuid>)
    ensures var r := FetchByPii(log, p, t);
            if exists e :: e in log && e.piiID == Some(p) && Readable(e, t)
            then && r.Ok?
                 && (forall e :: e in r.value <==> e in log && e.piiID == Some(p) && Readable(e, t))
                 && (Ascending(log) ==> Ascending(r.value))
            else r == Err(SubjectNotFound)
  {
    var mine := Filter(HasPii(p), log);
    forall e ensures e in Filter(VisibleTo(t), mine) <==> e in log && e.piiID == Some(p) && Readable(e, t) {
      FilterMember(HasPii(p), log, e);
      FilterMember(VisibleTo(t), mine, e);
    }
    if Filter(VisibleTo(t), mine) != [] {
      assert Filter(VisibleTo(t), mine)[0] in Filter(VisibleTo(t), mine);
    }
    if Ascending(log) {
      FilterAscending(HasPii(p), log);
      FilterAscending(VisibleTo(t), mine);
    }
  }

  ghost predicate HasStream(log: seq<Event>, tenantID: Uuid, id: Uuid) {
    exists e :: e in log && e.tenantID == tenantID && e.aggregateID == id
  }

  lemma StreamHolds(log: seq<Event>, k: StreamKey)
    ensures forall e :: e in Stream(log, k) <==> e in log && e.tenantID == k.tenantID && e.aggregateID == k.aggregateID
    ensures Ascending(log) ==> Ascending(Stream(log, k))
    ensures Stream(log, k) == [] <==> !HasStream(log, k.tenantID, k.aggregateID)
  {
    forall e ensures e in Stream(log, k) <==> e in log && e.tenantID == k.tenantID && e.aggregateID == k.aggregateID {
      FilterMember(HasKey(k), log, e);
    }
    if Stream(log, k) != [] {
      assert Stream(log, k)[0] in Stream(log, k);
    }
    if Ascending(log) {
      FilterAscending(HasKey(k), log);
    }
  }

  /**
   * A load answers with the events of the aggregate under one tenant, all of them and in log
   * order: the call's tenant if it has any, else the shared one; a call that names no tenant
   * looks at untenanted events only. With none there it is not found.
   */
  lemma LoadHolds(log: seq<Event>, id: Uuid, t: Option<Uuid>)
    ensures var r := Load(log, id, t);
            var from := if t.Some? && HasStream(log, t.value, id) then t.value else NIL_UUID;
            if HasStream(log, from, id)
            then && r.Ok?
                 && (forall e :: e in r.value <==> e in log && e.tenantID == from && e.aggregateID == id)
                 && (Ascending(log) ==> Ascending(r.value))
            else r == Err(AggregateNotFound)
  {
    StreamHolds(log, StreamKey(NIL_UUID, id));
    if t.Some? {
      StreamHolds(log, StreamKey(t.value, id));
    }
  }

  /** The log's last event of the stream is at version v; or v is 0 and it has none. */
  ghost predicate AtVersion(log: seq<Event>, tenantID: Uuid, id: Uuid, v: nat) {
    if HasStream(log, tenantID, id) then
      exists i :: 0 <= i < |log| && log[i].tenantID == tenantID && log[i].aggregateID == id && log[i].version == v
                  && forall j :: i < j < |log| ==> log[j].tenantID != tenantID || log[j].aggregateID != id
    else v == 0
  }

  lemma {:induction false} CurrentVersionIff(log: seq<Event>, k: StreamKey, v: nat)
    ensures CurrentVersion(log, k) == v <==> AtVersion(log, k.tenantID, k.aggregateID, v)
  {
    if log != [] {
      var n := |log| - 1;
      var init, last := log[..n], log[n];
      assert log == init + [last];
      if KeyOf(last) == k {
        assert last in log;
      } else {
        CurrentVersionIff(init, k, v);
        VersionElsewhere(init, last, k, v);
      }
    }
  }

  lemma VersionElsewhere(init: seq<Event>, last: Event, k: StreamKey, v: nat)
    requires KeyOf(last) != k
    ensures AtVersion(init + [last], k.tenantID, k.aggregateID, v) <==> AtVersion(init, k.tenantID, k.aggregateID, v)
  {
    var log := init + [last];
    assert forall i :: 0 <= i < |init| ==> log[i] == init[i];
    assert HasStream(log, k.tenantID, k.aggregateID) <==> HasStream(init, k.tenantID, k.aggregateID);
  }

  /**
   * A commit is accepted if and only if its stream is at the version it expects, the stream
   * being that of its first event under the tenant that event ends up with. Its events follow
   * the log, in order and under the next GlobalIDs, each under its own tenant or, having none,
   * the call's.
   */
  lemma CommitAcceptsIff(log: seq<Event>, batch: seq<Event>, expected: nat, t: Option<Uuid>)
    requires batch != []
    ensures var r := Commit(log, batch, expected, t);
            var tenantID := if t.Some? && batch[0].tenantID == NIL_UUID then t.value else batch[0].tenantID;
            if AtVersion(log, tenantID, batch[0].aggregateID, expected)
            then && r.Ok? && |r.value| == |log| + |batch| && log <= r.value
                 && forall i :: 0 <= i < |batch| ==>
                      r.value[|log| + i] == batch[i].(
                        globalID := |log| + 1 + i,
                        tenantID := if t.Some? && batch[i].tenantID == NIL_UUID then t.value else batch[i].tenantID)
            else r == Err(ConcurrencyConflict)
  {
    CurrentVersionIff(log, KeyOf(Stamp(t, batch[0])), expected);
  }
}
