/** The example ledger: the Account aggregate and the statement projector that mirrors it. */
module Ledger {
  import opened Common
  import opened Events
  import opened JsonFields
  import opened Aggregate

  const ACCOUNT_OPENED := "ledger.account_opened"
  const TRANSACTION_RECORDED := "ledger.transaction_recorded"
  const ERASURE_REQUESTED := "ledger.holder_erasure_requested"

  datatype AccountEvent =
    | AccountOpened(holderName: string, holderEmail: string, openingBalance: int64)
    | TransactionRecorded(amountCents: int64, description: string)
    | HolderErasureRequested

  datatype Account = Account(holderName: string, holderEmail: string, balance: int64, isOpen: bool)

  function Apply(a: Account, e: AccountEvent): Option<Account> {
    match e
    case AccountOpened(name, email, opening) => if a.isOpen then None else Some(Account(name, email, opening, true))
    case TransactionRecorded(amount, _) => if a.isOpen then Some(a.(balance := Wrap64(a.balance + amount))) else None
    case HolderErasureRequested => if a.isOpen then Some(a) else None
  }

  function Encode(e: AccountEvent): Fact {
    match e
    case AccountOpened(name, email, opening) =>
      Fact(ACCOUNT_OPENED, Doc(map["holder_name" := JStr(name), "holder_email" := JStr(email), "opening_balance_cents" := JNum(opening)]))
    case TransactionRecorded(amount, description) =>
      Fact(TRANSACTION_RECORDED, Doc(map["amount_cents" := JNum(amount), "description" := JStr(description)]))
    case HolderErasureRequested => Fact(ERASURE_REQUESTED, Doc(map[]))
  }

  function Decode(f: Fact): Option<AccountEvent> {
    var p := f.payload;
    if f.name == ACCOUNT_OPENED then
      var name, email, opening := StringField(p, "holder_name"), StringField(p, "holder_email"), Int64Field(p, "opening_balance_cents");
      if name.Some? && email.Some? && opening.Some? then Some(AccountOpened(name.value, email.value, opening.value)) else None
    else if f.name == TRANSACTION_RECORDED then
      var amount, description := Int64Field(p, "amount_cents"), StringField(p, "description");
      if amount.Some? && description.Some? then Some(TransactionRecorded(amount.value, description.value)) else None
    else if f.name == ERASURE_REQUESTED && p.Doc? then Some(HolderErasureRequested)
    else None
  }

  const ACCOUNT: Domain<Account, AccountEvent> := Domain(Account("", "", 0, false), Apply, Encode, Decode)

  lemma AccountRoundTrips()
    ensures RoundTrips(ACCOUNT)
  {
    forall d: AccountEvent ensures ACCOUNT.decode(ACCOUNT.encode(d)) == Some(d) {
      match d {
        case AccountOpened(_, _, _) => assert ACCOUNT.encode(d).name == ACCOUNT_OPENED;
        case TransactionRecorded(_, _) => assert ACCOUNT.encode(d).name == TRANSACTION_RECORDED;
        case HolderErasureRequested => assert ACCOUNT.encode(d).name == ERASURE_REQUESTED;
      }
    }
  }

  // ---- what a history comes to ----

  /**
   * A history replays exactly when all of it can be read and it starts with the one opening,
   * whose holder the account then has.
   */
  lemma {:induction false} AccountReplaysIff(facts: seq<Fact>)
    ensures Replay(ACCOUNT, ACCOUNT.zero, facts).Ok?
            <==> forall i :: 0 <= i < |facts| ==> Decode(facts[i]).Some? && (facts[i].name == ACCOUNT_OPENED <==> i == 0)
    ensures Replay(ACCOUNT, ACCOUNT.zero, facts).Ok? ==>
              var a := Replay(ACCOUNT, ACCOUNT.zero, facts).value;
              && (a.isOpen <==> facts != [])
              && (facts != [] ==> StringField(facts[0].payload, "holder_name") == Some(a.holderName)
                                  && StringField(facts[0].payload, "holder_email") == Some(a.holderEmail))
  {
    if facts != [] {
      var init, last := facts[..|facts| - 1], facts[|facts| - 1];
      AccountReplaysIff(init);
      assert forall i :: 0 <= i < |init| ==> init[i] == facts[i];
      assert Decode(last).Some? ==> (last.name == ACCOUNT_OPENED <==> Decode(last).value.AccountOpened?);
      if init != [] {
        assert init[0] == facts[0];
      }
    }
  }

  // ---- the read model ----

  datatype AccountView = AccountView(holderName: string, balance: int64)

  type Book = map<Uuid, AccountView>

  const ERASED := "[erased]"

  /** The statement projector's Handle on the book; None is the error, which leaves the book as it was. */
  function Handle(book: Book, e: Event): Option<Book> {
    var cur := if e.aggregateID in book then book[e.aggregateID] else AccountView("", 0);
    if e.name == ERASURE_REQUESTED then Some(book[e.aggregateID := cur])
    else match Decode(FactOf(e))
    case None => None
    case Some(HolderErasureRequested) => None
    case Some(AccountOpened(name, _, opening)) =>
      Some(book[e.aggregateID := AccountView(if e.piiUnrecoverable then ERASED else name, opening)])
    case Some(TransactionRecorded(amount, _)) =>
      Some(book[e.aggregateID := cur.(balance := Wrap64(cur.balance + amount))])
  }

  class StatementBook {
    var byID: map<Uuid, AccountView>

    constructor ()
      ensures byID == map[]
    {
      byID := map[];
    }

    method Upsert(id: Uuid, v: AccountView)
      modifies this
      ensures byID == old(byID)[id := v]
    {
      byID := byID[id := v];
    }

    /** Edits a copy of the account's view and upserts it; an event it cannot read changes nothing. */
    method Project(e: Event) returns (ok: bool)
      modifies this
      ensures ok == Handle(old(byID), e).Some?
      ensures byID == if ok then Handle(old(byID), e).value else old(byID)
    {
      var cur := if e.aggregateID in byID then byID[e.aggregateID] else AccountView("", 0);
      if e.name != ERASURE_REQUESTED {
        var payload := Decode(FactOf(e));
        if payload.None? {
          return false;
        }
        match payload.value {
          case AccountOpened(name, _, opening) =>
            cur := cur.(balance := opening);
            cur := cur.(holderName := if e.piiUnrecoverable then ERASED else name);
          case TransactionRecorded(amount, _) =>
            cur := cur.(balance := Wrap64(cur.balance + amount));
          case HolderErasureRequested =>
            assert false;
        }
      }
      Upsert(e.aggregateID, cur);
      ok := true;
    }
  }

  /** Dispatching a whole stream; an event whose projection fails is skipped. */
  function ProjectAll(events: seq<Event>): Book {
    if events == [] then map[]
    else
      var book := ProjectAll(events[..|events| - 1]);
      var r := Handle(book, events[|events| - 1]);
      if r.Some? then r.value else book
  }

  // ---- the read model equals replay ----

  /** The payload fields AccountOpened declares as personal data. */
  const HOLDER_FIELDS := ["holder_name", "holder_email"]

  /**
   * read is what a read of the committed event e may return: e itself, or, after its holder
   * was erased, e flagged unrecoverable with its declared fields replaced by ciphertext.
   */
  ghost predicate ReadOf(e: Event, read: Event) {
    || (read == e && !e.piiUnrecoverable)
    || (&& read.piiUnrecoverable && read.name == e.name && read.aggregateID == e.aggregateID
        && e.payload.Doc? && read.payload.Doc?
        && read.payload.fields.Keys == e.payload.fields.Keys
        && forall k :: k in e.payload.fields ==>
             if e.name == ACCOUNT_OPENED && k in HOLDER_FIELDS then read.payload.fields[k].JStr?
             else read.payload.fields[k] == e.payload.fields[k])
  }

  lemma ReadKeepsAmounts(e: Event, read: Event)
    requires ReadOf(e, read) && Decode(FactOf(e)).Some?
    ensures Decode(FactOf(read)).Some?
    ensures match (Decode(FactOf(e)).value, Decode(FactOf(read)).value)
            case (AccountOpened(_, _, b), AccountOpened(_, _, b')) => b == b'
            case (TransactionRecorded(a, d), TransactionRecorded(a', d')) => a == a' && d == d'
            case (HolderErasureRequested, HolderErasureRequested) => true
            case _ => false
  {
    assert "holder_name" in HOLDER_FIELDS && "holder_email" in HOLDER_FIELDS;
    assert "opening_balance_cents" !in HOLDER_FIELDS;
  }

  /** What the book must say about one account whose stream replays to a. */
  ghost predicate Mirrors(book: Book, id: Uuid, stream: seq<Event>, copies: seq<Event>, a: Account) {
    && |copies| == |stream|
    && if stream == [] then id !in book && !a.isOpen
       else
         && a.isOpen && id in book
         && book[id].balance == a.balance
         && book[id].holderName == if copies[0].piiUnrecoverable then ERASED else a.holderName
  }

  /** One more event of the account that replay accepts is projected, and keeps the mirror. */
  lemma ProjectOwn(book: Book, id: Uuid, stream: seq<Event>, copies: seq<Event>, a: Account, e: Event, read: Event)
    requires Mirrors(book, id, stream, copies, a) && ReadOf(e, read) && e.aggregateID == id
    requires ApplyFact(ACCOUNT, a, FactOf(e)).Ok?
    ensures Handle(book, read).Some?
    ensures Mirrors(Handle(book, read).value, id, stream + [e], copies + [read], ApplyFact(ACCOUNT, a, FactOf(e)).value)
  {
    ReadKeepsAmounts(e, read);
    if read == e {
      assert Decode(FactOf(read)) == Decode(FactOf(e));
    }
  }

  lemma ProjectOther(book: Book, id: Uuid, stream: seq<Event>, copies: seq<Event>, a: Account, read: Event)
    requires Mirrors(book, id, stream, copies, a) && read.aggregateID != id && Handle(book, read).Some?
    ensures Mirrors(Handle(book, read).value, id, stream, copies, a)
  {
  }

  /**
   * Over any number of interleaved accounts built from accepted commands, and whichever
   * holders were erased before the log was read back, the book holds for each account the
   * balance its replay has, and its holder's name unless that read came back unrecoverable.
   */
  lemma {:induction false} BookEqualsReplay(log: seq<Event>, copies: seq<Event>, id: Uuid)
    requires |copies| == |log| && forall i :: 0 <= i < |log| ==> ReadOf(log[i], copies[i])
    requires forall a :: Replay(ACCOUNT, ACCOUNT.zero, Facts(Filter(OfAggregate(a), log))).Ok?
    ensures Mirrors(ProjectAll(copies), id, Filter(OfAggregate(id), log), Filter(OfAggregate(id), copies),
                    Replay(ACCOUNT, ACCOUNT.zero, Facts(Filter(OfAggregate(id), log))).value)
  {
    if log != [] {
      var n := |log| - 1;
      var init, e, copies0, read := log[..n], log[n], copies[..n], copies[n];
      forall a ensures Replay(ACCOUNT, ACCOUNT.zero, Facts(Filter(OfAggregate(a), init))).Ok? {
        ReplayPush(ACCOUNT, log, a);
      }
      BookEqualsReplay(init, copies0, id);
      ReplayPush(ACCOUNT, log, id);
      var mine, mine' := Filter(OfAggregate(id), init), Filter(OfAggregate(id), copies0);
      var a := Replay(ACCOUNT, ACCOUNT.zero, Facts(mine)).value;
      var book := ProjectAll(copies0);
      if e.aggregateID == id {
        ProjectOwn(book, id, mine, mine', a, e, read);
      } else if Handle(book, read).Some? {
        ProjectOther(book, id, mine, mine', a, read);
      }
    }
  }

  // ---- the balance is a sum ----

  /** What one fact adds to the balance: an opening balance, or an amount. */
  function Moved(f: Fact): int {
    match Decode(f)
    case Some(AccountOpened(_, _, opening)) => opening
    case Some(TransactionRecorded(amount, _)) => amount
    case _ => 0
  }

  /** Opening balance plus every amount, over unbounded integers. */
  function Total(facts: seq<Fact>): int {
    if facts == [] then 0 else Total(facts[..|facts| - 1]) + Moved(facts[|facts| - 1])
  }

  lemma BalanceMoves(a: Account, f: Fact)
    requires ApplyFact(ACCOUNT, a, f).Ok? && (!a.isOpen ==> a.balance == 0)
    ensures var a' := ApplyFact(ACCOUNT, a, f).value; a'.isOpen && a'.balance == Wrap64(a.balance + Moved(f))
  {
    match Decode(f).value {
      case AccountOpened(_, _, _) =>
      case TransactionRecorded(_, _) =>
      case HolderErasureRequested =>
    }
  }

  lemma WrapAbsorbs(x: int, y: int)
    ensures Wrap64(Wrap64(x) + y) == Wrap64(x + y)
  {
    var w, m := Wrap64(x) + y + 0x8000_0000_0000_0000, 0x1_0000_0000_0000_0000;
    var q := (x + 0x8000_0000_0000_0000) / m;
    assert w == x + y + 0x8000_0000_0000_0000 - q * m;
    assert (w + q * m) % m == w % m;
  }

  lemma {:induction false} BalanceIsTotal(facts: seq<Fact>)
    requires Replay(ACCOUNT, ACCOUNT.zero, facts).Ok?
    ensures Replay(ACCOUNT, ACCOUNT.zero, facts).value.balance == Wrap64(Total(facts))
    ensures Replay(ACCOUNT, ACCOUNT.zero, facts).value.isOpen <==> facts != []
  {
    if facts != [] {
      var init, f := facts[..|facts| - 1], facts[|facts| - 1];
      BalanceIsTotal(init);
      assert init == [] ==> Total(init) == 0;
      BalanceMoves(Replay(ACCOUNT, ACCOUNT.zero, init).value, f);
      WrapAbsorbs(Total(init), Moved(f));
    }
  }
}
