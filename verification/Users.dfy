/** The example user: the User aggregate, and the read model its projector keeps. */
module Users {
  import opened Common
  import opened Events
  import opened JsonFields
  import opened Aggregate

  const REGISTERED := "user.registered"
  const EMAIL_CHANGED := "user.email_changed"
  const NAME_CHANGED := "user.name_changed"
  const ERASURE_REQUESTED := "user.erasure_requested"

  datatype UserEvent =
    | UserRegistered(email: string, name: string)
    | UserEmailChanged(email: string)
    | UserNameChanged(name: string)
    | UserErasureRequested

  datatype User = User(email: string, name: string, registered: bool)

  function Apply(u: User, e: UserEvent): Option<User> {
    match e
    case UserRegistered(email, name) => if u.registered then None else Some(User(email, name, true))
    case UserEmailChanged(email) => if u.registered then Some(u.(email := email)) else None
    case UserNameChanged(name) => if u.registered then Some(u.(name := name)) else None
    case UserErasureRequested => if u.registered then Some(u) else None
  }

  function Encode(e: UserEvent): Fact {
    match e
    case UserRegistered(email, name) => Fact(REGISTERED, Doc(map["email" := JStr(email), "name" := JStr(name)]))
    case UserEmailChanged(email) => Fact(EMAIL_CHANGED, Doc(map["email" := JStr(email)]))
    case UserNameChanged(name) => Fact(NAME_CHANGED, Doc(map["name" := JStr(name)]))
    case UserErasureRequested => Fact(ERASURE_REQUESTED, Doc(map[]))
  }

  function Decode(f: Fact): Option<UserEvent> {
    var email, name := StringField(f.payload, "email"), StringField(f.payload, "name");
    if f.name == REGISTERED then
      if email.Some? && name.Some? then Some(UserRegistered(email.value, name.value)) else None
    else if f.name == EMAIL_CHANGED then
      if email.Some? then Some(UserEmailChanged(email.value)) else None
    else if f.name == NAME_CHANGED then
      if name.Some? then Some(UserNameChanged(name.value)) else None
    else if f.name == ERASURE_REQUESTED && f.payload.Doc? then Some(UserErasureRequested)
    else None
  }

  const USER: Domain<User, UserEvent> := Domain(User("", "", false), Apply, Encode, Decode)

  lemma UserRoundTrips()
    ensures RoundTrips(USER)
  {
    forall d: UserEvent ensures USER.decode(USER.encode(d)) == Some(d) {
      match d {
        case UserRegistered(_, _) => assert USER.encode(d).name == REGISTERED;
        case UserEmailChanged(_) => assert USER.encode(d).name == EMAIL_CHANGED;
        case UserNameChanged(_) => assert USER.encode(d).name == NAME_CHANGED;
        case UserErasureRequested => assert USER.encode(d).name == ERASURE_REQUESTED;
      }
    }
  }

  // ---- what a history comes to ----

  /** A history replays exactly when all of it can be read and it starts with the one registration. */
  lemma {:induction false} UserReplaysIff(facts: seq<Fact>)
    ensures Replay(USER, USER.zero, facts).Ok?
            <==> forall i :: 0 <= i < |facts| ==> Decode(facts[i]).Some? && (facts[i].name == REGISTERED <==> i == 0)
    ensures Replay(USER, USER.zero, facts).Ok? ==> (Replay(USER, USER.zero, facts).value.registered <==> facts != [])
  {
    if facts != [] {
      var init, last := facts[..|facts| - 1], facts[|facts| - 1];
      UserReplaysIff(init);
      assert forall i :: 0 <= i < |init| ==> init[i] == facts[i];
      assert Decode(last).Some? ==> (last.name == REGISTERED <==> Decode(last).value.UserRegistered?);
    }
  }

  /** The value of the field in the last fact of one of the two names. */
  function Latest(facts: seq<Fact>, a: string, b: string, field: string): Option<string> {
    if facts == [] then None
    else
      var last := facts[|facts| - 1];
      if last.name == a || last.name == b then StringField(last.payload, field) else Latest(facts[..|facts| - 1], a, b, field)
  }

  /** The user has the email, and the name, that the last event carrying one gave. */
  lemma {:induction false} UserIsLatest(facts: seq<Fact>)
    requires facts != [] && Replay(USER, USER.zero, facts).Ok?
    ensures Latest(facts, REGISTERED, EMAIL_CHANGED, "email") == Some(Replay(USER, USER.zero, facts).value.email)
    ensures Latest(facts, REGISTERED, NAME_CHANGED, "name") == Some(Replay(USER, USER.zero, facts).value.name)
  {
    UserReplaysIff(facts);
    var init, last := facts[..|facts| - 1], facts[|facts| - 1];
    if init == [] {
      assert facts == [last];
    } else {
      UserIsLatest(init);
    }
  }

  // ---- the read model ----

  datatype UserView = UserView(id: Uuid, version: nat, email: string, name: string)

  type Views = map<Uuid, UserView>

  const ERASED := "[erased]"

  function ViewVersion(views: Views, id: Uuid): nat {
    if id in views then views[id].version else 0
  }

  /** The user projector's Handle on the views; None is the error, which upserts nothing. */
  function Handle(views: Views, e: Event): Option<Views> {
    var found := if e.aggregateID in views then views[e.aggregateID] else UserView(0, 0, "", "");
    var view := found.(id := e.aggregateID, version := e.version);
    if e.name == ERASURE_REQUESTED then Some(views[e.aggregateID := view])
    else match Decode(FactOf(e))
    case Some(UserRegistered(email, name)) =>
      Some(views[e.aggregateID := view.(email := if e.piiUnrecoverable then ERASED else email, name := name)])
    case Some(UserEmailChanged(email)) =>
      Some(views[e.aggregateID := view.(email := if e.piiUnrecoverable then ERASED else email)])
    case Some(UserNameChanged(name)) => Some(views[e.aggregateID := view.(name := name)])
    case _ => None
  }

  class ReadModel {
    var views: map<Uuid, UserView>

    constructor ()
      ensures views == map[]
    {
      views := map[];
    }

    method Upsert(view: UserView)
      modifies this
      ensures views == old(views)[view.id := view]
    {
      views := views[view.id := view];
    }

    method Get(id: Uuid) returns (view: Option<UserView>)
      ensures view == if id in views then Some(views[id]) else None
    {
      view := if id in views then Some(views[id]) else None;
    }

    method Project(e: Event) returns (ok: bool)
      modifies this
      ensures ok == Handle(old(views), e).Some?
      ensures views == if ok then Handle(old(views), e).value else old(views)
    {
      var found := Get(e.aggregateID);
      var view := if found.Some? then found.value else UserView(0, 0, "", "");
      view := view.(id := e.aggregateID);
      view := view.(version := e.version);
      if e.name != ERASURE_REQUESTED {
        var payload := Decode(FactOf(e));
        match payload {
          case Some(UserRegistered(email, name)) =>
            view := view.(email := if e.piiUnrecoverable then ERASED else email);
            view := view.(name := name);
          case Some(UserEmailChanged(email)) =>
            view := view.(email := if e.piiUnrecoverable then ERASED else email);
          case Some(UserNameChanged(name)) =>
            view := view.(name := name);
          case _ =>
            return false;
        }
      }
      Upsert(view);
      ok := true;
    }
  }

  // ---- the read model equals replay ----

  function ProjectAll(events: seq<Event>): Views {
    if events == [] then map[]
    else
      var views := ProjectAll(events[..|events| - 1]);
      var r := Handle(views, events[|events| - 1]);
      if r.Some? then r.value else views
  }

  /** The last event that set the email came back from the store unrecoverable. */
  predicate EmailErased(stream: seq<Event>) {
    stream != [] &&
    var last := stream[|stream| - 1];
    if last.name == REGISTERED || last.name == EMAIL_CHANGED then last.piiUnrecoverable
    else EmailErased(stream[..|stream| - 1])
  }

  ghost predicate Mirrors(views: Views, id: Uuid, stream: seq<Event>, u: User) {
    if stream == [] then id !in views && !u.registered
    else
      && u.registered && id in views
      && views[id] == UserView(id, stream[|stream| - 1].version, if EmailErased(stream) then ERASED else u.email, u.name)
  }

  /** One more event of the user that replay accepts is projected, and keeps the mirror. */
  lemma ProjectOwn(views: Views, stream: seq<Event>, u: User, e: Event)
    requires Mirrors(views, e.aggregateID, stream, u)
    requires ApplyFact(USER, u, FactOf(e)).Ok?
    ensures Handle(views, e).Some?
    ensures Mirrors(Handle(views, e).value, e.aggregateID, stream + [e], ApplyFact(USER, u, FactOf(e)).value)
  {
    EmailErasedPush(stream, e);
    ProjectFields(views, u, e);
    var all := stream + [e];
    assert all != [] && all[|all| - 1] == e;
  }

  lemma EmailErasedPush(stream: seq<Event>, e: Event)
    ensures EmailErased(stream + [e])
            == if e.name == REGISTERED || e.name == EMAIL_CHANGED then e.piiUnrecoverable else EmailErased(stream)
  {
    assert (stream + [e])[..|stream|] == stream;
  }

  /** The view takes from an event what Apply takes, but for an email that cannot be read. */
  lemma ProjectFields(views: Views, u: User, e: Event)
    requires ApplyFact(USER, u, FactOf(e)).Ok?
    requires e.aggregateID !in views ==> !u.registered
    requires e.aggregateID in views ==> u.registered && views[e.aggregateID].name == u.name
    ensures Handle(views, e).Some? && e.aggregateID in Handle(views, e).value
    ensures var u', view := ApplyFact(USER, u, FactOf(e)).value, Handle(views, e).value[e.aggregateID];
            && u'.registered
            && view.id == e.aggregateID && view.version == e.version && view.name == u'.name
            && (if e.name == REGISTERED || e.name == EMAIL_CHANGED
                then view.email == if e.piiUnrecoverable then ERASED else u'.email
                else e.aggregateID in views && view.email == views[e.aggregateID].email && u'.email == u.email)
  {
  }

  lemma ProjectOther(views: Views, id: Uuid, stream: seq<Event>, u: User, e: Event)
    requires Mirrors(views, id, stream, u) && e.aggregateID != id && Handle(views, e).Some?
    ensures Mirrors(Handle(views, e).value, id, stream, u)
  {
  }

  /**
   * Projecting a log of any number of interleaved users, as it was read, leaves for each the
   * version, name and email that replaying its own stream through Apply gives, except that an
   * email whose latest event came back unrecoverable is shown as erased, not as ciphertext.
   */
  lemma {:induction false} ViewsEqualReplay(log: seq<Event>, id: Uuid)
    requires forall a :: Replay(USER, USER.zero, Facts(Filter(OfAggregate(a), log))).Ok?
    ensures Mirrors(ProjectAll(log), id, Filter(OfAggregate(id), log), Replay(USER, USER.zero, Facts(Filter(OfAggregate(id), log))).value)
  {
    if log != [] {
      var n := |log| - 1;
      var init, e := log[..n], log[n];
      forall a ensures Replay(USER, USER.zero, Facts(Filter(OfAggregate(a), init))).Ok? {
        ReplayPush(USER, log, a);
      }
      ViewsEqualReplay(init, id);
      ReplayPush(USER, log, id);
      var mine, views := Filter(OfAggregate(id), init), ProjectAll(init);
      var u := Replay(USER, USER.zero, Facts(mine)).value;
      if e.aggregateID == id {
        ProjectOwn(views, mine, u, e);
      } else if Handle(views, e).Some? {
        ProjectOther(views, id, mine, u, e);
      }
    }
  }
}
