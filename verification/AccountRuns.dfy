/** The example ledger end to end: tellers issuing account commands concurrently, and the book. */
module AccountRuns {
  import opened Common
  import opened Events
  import opened EventLog
  import opened Aggregate
  import opened Ledger
  import opened JsonFields
  import opened Serializability

  datatype AccountCommand =
    | Open(holderName: string, holderEmail: string, openingBalance: int64)
    | RecordTransaction(amountCents: int64, description: string)
    | RequestHolderErasure

  /** What a command records on an account, or None when it is refused before recording. */
  function Records(c: AccountCommand, isOpen: bool): Option<AccountEvent> {
    match c
    case Open(name, email, opening) => if name == "" || email == "" then None else Some(AccountOpened(name, email, opening))
    case RecordTransaction(amount, description) => if amount == 0 then None else Some(TransactionRecorded(amount, description))
    case RequestHolderErasure => if !isOpen then None else Some(HolderErasureRequested)
  }

  function Decide(c: AccountCommand): Command<Account, AccountEvent> {
    (a: Account) => Records(c, a.isOpen)
  }

  /** What the commands let into the log: no account without a holder, no empty transaction. */
  predicate Permitted(f: Fact) {
    match Decode(f)
    case None => false
    case Some(AccountOpened(name, email, _)) => name != "" && email != ""
    case Some(TransactionRecorded(amount, _)) => amount != 0
    case Some(HolderErasureRequested) => true
  }

  /** Clients of the ledger issue its commands, and work each account under its own tenant. */
  ghost predicate LedgerStep(home: Uuid -> Uuid, step: Step<Account, AccountEvent>) {
    && (step.Load? ==> step.key.tenantID == home(step.key.aggregateID))
    && (step.Issue? ==> exists c :: step.cmd == Decide(c))
  }

  ghost predicate LedgerRun(home: Uuid -> Uuid, steps: seq<Step<Account, AccountEvent>>) {
    forall i :: 0 <= i < |steps| ==> LedgerStep(home, steps[i])
  }

  ghost predicate Sound(home: Uuid -> Uuid, e: Event) {
    e.tenantID == home(e.aggregateID) && Permitted(FactOf(e))
  }

  ghost predicate ClientSound(home: Uuid -> Uuid, c: Client<Account, AccountEvent>) {
    c.Holding? ==>
      && c.key.tenantID == home(c.key.aggregateID)
      && forall e :: e in c.agg.uncommitted ==> Permitted(FactOf(e))
  }

  ghost predicate AllSound(home: Uuid -> Uuid, s: State<Account, AccountEvent>) {
    && (forall e :: e in s.log ==> Sound(home, e))
    && (forall c :: c in s.clients ==> ClientSound(home, s.clients[c]))
  }

  lemma IssueKeepsPermitted(a: Agg<Account>, c: AccountCommand, pii: Option<Uuid>)
    requires forall e :: e in a.uncommitted ==> Permitted(FactOf(e))
    ensures forall e :: e in Issued(ACCOUNT, a, Decide(c), pii).uncommitted ==> Permitted(FactOf(e))
  {
    AccountRoundTrips();
    var a' := Issued(ACCOUNT, a, Decide(c), pii);
    if a'.uncommitted != a.uncommitted {
      var d := Decide(c)(a.state).value;
      assert FactOf(a'.uncommitted[|a.uncommitted|]) == ACCOUNT.encode(d);
      assert ACCOUNT.decode(ACCOUNT.encode(d)) == Some(d);
    }
  }

  /**
   * What each command records and does to the account. An account is opened once, for a named
   * holder with an address, at exactly the opening balance; a transaction moves an open
   * account's balance by exactly its amount, in 64 bits, and an empty one is refused; an erasure
   * request is recorded on an open account and changes nothing. A refused command records nothing.
   */
  lemma CommandRecords(a: Agg<Account>, c: AccountCommand, pii: Option<Uuid>)
    ensures var a' := Issued(ACCOUNT, a, Decide(c), pii);
            var added := a'.uncommitted[|a.uncommitted|..];
            && a.uncommitted <= a'.uncommitted
            && match c
               case Open(name, email, opening) =>
                 if !a.state.isOpen && name != "" && email != "" then
                   && a'.state == Account(name, email, opening, true)
                   && Names(added) == [ACCOUNT_OPENED] && a'.version == a.version + 1
                   && StringField(added[0].payload, "holder_name") == Some(name) && StringField(added[0].payload, "holder_email") == Some(email)
                   && Int64Field(added[0].payload, "opening_balance_cents") == Some(opening)
                 else a' == a
               case RecordTransaction(amount, description) =>
                 if a.state.isOpen && amount != 0 then
                   && a'.state == a.state.(balance := a'.state.balance)
                   && (a'.state.balance - (a.state.balance + amount)) % 0x1_0000_0000_0000_0000 == 0
                   && Names(added) == [TRANSACTION_RECORDED] && a'.version == a.version + 1
                   && Int64Field(added[0].payload, "amount_cents") == Some(amount)
                   && StringField(added[0].payload, "description") == Some(description)
                 else a' == a
               case RequestHolderErasure =>
                 if a.state.isOpen then a'.state == a.state && Names(added) == [Ledger.ERASURE_REQUESTED] && a'.version == a.version + 1
                 else a' == a
  {
  }

  function Names(es: seq<Event>): seq<string> {
    seq(|es|, i requires 0 <= i < |es| => es[i].name)
  }

  lemma SavedIsSound(home: Uuid -> Uuid, log: seq<Event>, k: StreamKey, batch: seq<Event>, last: nat)
    requires k.tenantID == home(k.aggregateID)
    requires forall e :: e in batch ==> KeyOf(Stamp(Some(k.tenantID), e)) == k && Permitted(FactOf(e))
    requires forall e :: e in log ==> Sound(home, e)
    ensures forall e :: e in log + Number(StampAll(Some(k.tenantID), batch), last) ==> Sound(home, e)
  {
    var added := Number(StampAll(Some(k.tenantID), batch), last);
    forall i | 0 <= i < |added| ensures Sound(home, added[i]) {
      assert batch[i] in batch && FactOf(added[i]) == FactOf(batch[i]) && KeyOf(added[i]) == k;
    }
  }

  lemma SaveKeepsSound(home: Uuid -> Uuid, s: State<Account, AccountEvent>, c: nat)
    requires Serializability.Inv(ACCOUNT, s) && AllSound(home, s)
    ensures AllSound(home, Do(ACCOUNT, s, Step<Account, AccountEvent>.Save(c)))
  {
    var client := ClientOf(s, c);
    if client.Holding? {
      var k, a := client.key, client.agg;
      assert ClientInv(ACCOUNT, s.log, client) && ClientSound(home, client);
      SavedIsSound(home, s.log, k, a.uncommitted, |s.log|);
      var stamped := StampAll(Some(k.tenantID), a.uncommitted);
      forall i | 0 <= i < |stamped| ensures Permitted(FactOf(stamped[i])) {
        assert a.uncommitted[i] in a.uncommitted && FactOf(stamped[i]) == FactOf(a.uncommitted[i]);
      }
    }
  }

  lemma StepKeepsSound(home: Uuid -> Uuid, s: State<Account, AccountEvent>, step: Step<Account, AccountEvent>)
    requires Serializability.Inv(ACCOUNT, s) && AllSound(home, s) && LedgerStep(home, step)
    ensures AllSound(home, Do(ACCOUNT, s, step))
  {
    match step {
      case Issue(c, cmd, pii) =>
        var d :| cmd == Decide(d);
        var client := ClientOf(s, c);
        if client.Holding? {
          assert ClientSound(home, client);
          IssueKeepsPermitted(client.agg, d, pii);
        }
      case Save(c) => SaveKeepsSound(home, s, c);
      case _ =>
    }
  }

  lemma {:induction false} EveryLedgerRun(home: Uuid -> Uuid, steps: seq<Step<Account, AccountEvent>>)
    requires LedgerRun(home, steps)
    ensures AllSound(home, Exec(ACCOUNT, steps))
  {
    if steps != [] {
      AccountRoundTrips();
      EveryRun(ACCOUNT, steps[..|steps| - 1]);
      EveryLedgerRun(home, steps[..|steps| - 1]);
      StepKeepsSound(home, Exec(ACCOUNT, steps[..|steps| - 1]), steps[|steps| - 1]);
    }
  }

  /** One tenant per account makes its stream all there is of it. */
  lemma StreamIsAggregate(home: Uuid -> Uuid, log: seq<Event>, id: Uuid)
    requires forall e :: e in log ==> Sound(home, e)
    ensures Filter(OfAggregate(id), log) == Stream(log, StreamKey(home(id), id))
  {
    FilterSame(OfAggregate(id), HasKey(StreamKey(home(id), id)), log);
  }

  /**
   * However the ledger's clients interleave, conflict and retry, and whoever was erased before
   * the log is read back, the book holds for each account the balance that running the saved
   * commands one after another ends with, which is its opening balance plus its amounts.
   */
  lemma BookOfAnyRun(home: Uuid -> Uuid, steps: seq<Step<Account, AccountEvent>>, copies: seq<Event>, id: Uuid)
    requires LedgerRun(home, steps)
    requires var log := Exec(ACCOUNT, steps).log; |copies| == |log| && forall i :: 0 <= i < |log| ==> ReadOf(log[i], copies[i])
    ensures var s := Exec(ACCOUNT, steps);
            var account := Serial(ACCOUNT, s.saved, StreamKey(home(id), id)).state;
            && Mirrors(ProjectAll(copies), id, Filter(OfAggregate(id), s.log), Filter(OfAggregate(id), copies), account)
            && account.balance == Wrap64(Total(Facts(Filter(OfAggregate(id), s.log))))
            && forall e :: e in s.log ==> Permitted(FactOf(e))
  {
    var s := Exec(ACCOUNT, steps);
    AccountRoundTrips();
    EveryLedgerRun(home, steps);
    forall a ensures Replay(ACCOUNT, ACCOUNT.zero, Facts(Filter(OfAggregate(a), s.log)))
                     == Ok(Serial(ACCOUNT, s.saved, StreamKey(home(a), a)).state) {
      StreamIsAggregate(home, s.log, a);
      Serializable(ACCOUNT, steps, StreamKey(home(a), a));
    }
    BookEqualsReplay(s.log, copies, id);
    BalanceIsTotal(Facts(Filter(OfAggregate(id), s.log)));
  }
}
