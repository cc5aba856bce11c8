/** With one tenant per aggregate, interleaved transactions are commits to a single log. */
module PgRefines {
  import opened Common
  import opened Events
  import opened EventLog
  import opened PgCommit

  /** Whole commits applied one after another to one log; a conflicting one would be skipped. */
  function Serial(committed: seq<Request>): seq<Event> {
    if committed == [] then []
    else
      var log, r := Serial(committed[..|committed| - 1]), committed[|committed| - 1];
      var next := EventLog.Commit(log, r.batch, r.expected, r.tenant);
      if next.Ok? then next.value else log
  }

  /** None of them conflicts. */
  predicate AllAccepted(committed: seq<Request>) {
    committed != [] ==>
      var init, r := committed[..|committed| - 1], committed[|committed| - 1];
      AllAccepted(init) && EventLog.Commit(Serial(init), r.batch, r.expected, r.tenant).Ok?
  }

  lemma {:induction false} StreamIgnoresIDs(log: seq<Event>, k: StreamKey)
    ensures NoIDs(Stream(log, k)) == Stream(NoIDs(log), k)
  {
    if log != [] {
      var n := |log| - 1;
      StreamIgnoresIDs(log[..n], k);
      assert NoIDs(log)[..n] == NoIDs(log[..n]);
      assert NoIDs(Stream(log[..n], k) + [log[n]]) == NoIDs(Stream(log[..n], k)) + [log[n].(globalID := 0)];
    }
  }

  lemma VersionIgnoresIDs(a: seq<Event>, b: seq<Event>, k: StreamKey)
    requires NoIDs(a) == NoIDs(b)
    ensures CurrentVersion(a, k) == CurrentVersion(b, k)
  {
    StreamIgnoresIDs(a, k);
    StreamIgnoresIDs(b, k);
    var s, s' := Stream(a, k), Stream(b, k);
    assert |NoIDs(s)| == |s| && |NoIDs(s')| == |s'|;
    if s != [] {
      assert NoIDs(s)[|s| - 1].version == NoIDs(s')[|s| - 1].version;
    }
  }

  lemma VersionOfTable(home: Uuid -> Uuid, rows: seq<Event>, a: Uuid)
    requires Contiguous(rows, a) && forall e :: e in rows ==> e.tenantID == home(e.aggregateID)
    ensures CurrentVersion(rows, StreamKey(home(a), a)) == |RowsOf(rows, a)|
  {
    FilterSame(OfAggregate(a), HasKey(StreamKey(home(a), a)), rows);
  }

  lemma NoIDsConcat(a: seq<Event>, b: seq<Event>)
    ensures NoIDs(a + b) == NoIDs(a) + NoIDs(b)
  {
  }

  /** On a log that has the table's rows, the request would be accepted too. */
  lemma AcceptedByLog(home: Uuid -> Uuid, rows: seq<Event>, log: seq<Event>, r: Request)
    requires NoIDs(rows) == NoIDs(log) && forall e :: e in rows ==> e.tenantID == home(e.aggregateID)
    requires Contiguous(rows, r.aggregateID) && OneTenant(home, r) && WellFormed(r)
    requires r.expected == |RowsOf(rows, r.aggregateID)|
    ensures EventLog.Commit(log, r.batch, r.expected, r.tenant) == Ok(log + Number(StampAll(r.tenant, r.batch), |log|))
  {
    var k := KeyOf(Stamp(r.tenant, r.batch[0]));
    assert r.batch[0] in r.batch && k == StreamKey(home(r.aggregateID), r.aggregateID);
    VersionOfTable(home, rows, r.aggregateID);
    VersionIgnoresIDs(rows, log, k);
  }

  lemma CommitRefines(rows: seq<Event>, inserted: seq<Event>, committed: seq<Request>, r: Request)
    requires NoIDs(rows) == NoIDs(Serial(committed)) && AllAccepted(committed)
    requires var log := Serial(committed);
             EventLog.Commit(log, r.batch, r.expected, r.tenant) == Ok(log + Number(StampAll(r.tenant, r.batch), |log|))
    requires Wrote(r, inserted) && |inserted| == |r.batch|
    ensures NoIDs(rows + inserted) == NoIDs(Serial(committed + [r])) && AllAccepted(committed + [r])
  {
    var log := Serial(committed);
    var added := Number(StampAll(r.tenant, r.batch), |log|);
    assert (committed + [r])[..|committed|] == committed;
    assert NoIDs(inserted) == NoIDs(added);
    NoIDsConcat(rows, inserted);
    NoIDsConcat(log, added);
  }

  lemma OnlyCommitsWrite(h: Uuid -> int, s: State, step: Step)
    requires !step.CommitTx? || Do(h, s, step) == s
    ensures Do(h, s, step).rows == s.rows && Do(h, s, step).committed == s.committed
  {
  }

  /**
   * In every interleaving the table, ids aside, is what committing the successful requests one
   * after another to a single log gives, and none of them would conflict there.
   */
  lemma {:induction false} RefinesOneLog(h: Uuid -> int, home: Uuid -> Uuid, steps: seq<Step>)
    requires forall i :: 0 <= i < |steps| && steps[i].Begin? ==> OneTenant(home, steps[i].request)
    ensures var s := Exec(h, steps);
            NoIDs(s.rows) == NoIDs(Serial(s.committed)) && AllAccepted(s.committed)
  {
    if steps != [] {
      var init, step := steps[..|steps| - 1], steps[|steps| - 1];
      var s, s' := Exec(h, init), Exec(h, steps);
      RefinesOneLog(h, home, init);
      EveryRun(h, init);
      EveryHomeRun(h, home, init);
      if step.CommitTx? && s' != s {
        var tx := s.txs[step.t];
        assert TxInv(h, s, step.t, tx);
        assert Contiguous(s.rows, tx.request.aggregateID);
        AcceptedByLog(home, s.rows, Serial(s.committed), tx.request);
        CommitRefines(s.rows, tx.inserted, s.committed, tx.request);
      } else {
        OnlyCommitsWrite(h, s, step);
      }
    }
  }
}
