/** POST /api/webhook: the identity provider's user events, applied to the
    user table keyed by the identity-provider id. */
module ClerkWebhookRoute {
  import opened Common
  import opened Model

  /** A verified user event: the identity-provider id, the email addresses
      in the order the event lists them, and the optional names. */
  datatype UserEvent =
    | UserCreated(id: string, emails: seq<string>, firstName: Option<string>, lastName: Option<string>)
    | UserUpdated(id: string, emails: seq<string>, firstName: Option<string>, lastName: Option<string>)
    | UserDeleted(id: string)
    | OtherUserEvent(kind: string)

  /** The three signature headers; a missing header is None. */
  datatype SignatureHeaders = SignatureHeaders(svixId: Option<string>, svixTimestamp: Option<string>, svixSignature: Option<string>)

  predicate HeadersPresent(h: SignatureHeaders)
  {
    Filled(h.svixId) && Filled(h.svixTimestamp) && Filled(h.svixSignature)
  }

  /** The user row an event creates: a CLIENT with the first email and the
      display name. */
  function NewClient(db: Db, id: string, emails: seq<string>, first: Option<string>, last: Option<string>): (u: User)
    requires emails != []
    ensures u.id == db.nextId && u.clerkId == id && u.email == emails[0] && u.role == CLIENT
    ensures u.name == DisplayName(first, last) && u.name != ""
  {
    User(db.nextId, id, emails[0], DisplayName(first, last), CLIENT)
  }

  /** The handler. `verified` is the outcome of the signature check; a
      failed write (reading the first email of an empty list, deleting an
      unknown user) is 500 and writes nothing. */
  function Post(db: Db, h: SignatureHeaders, verified: bool, event: UserEvent): (s: Step<Ack>)
    ensures s.reply.Failure? ==> s.db == db
    ensures s.reply.Success? ==> s.reply == Success(200, Ack)
  {
    if !HeadersPresent(h) || !verified then Step(db, Fail(400))
    else match event
      case UserCreated(id, emails, first, last) => Created(db, id, emails, first, last)
      case UserUpdated(id, emails, first, last) => Updated(db, id, emails, first, last)
      case UserDeleted(id) => Deleted(db, id)
      case OtherUserEvent(_) => Step(db, Success(200, Ack))
  }

  /** `user.created`: a known id is left alone; an unknown id with no email
      address throws on `email_addresses[0]` and is 500. */
  function Created(db: Db, id: string, emails: seq<string>, first: Option<string>, last: Option<string>): (s: Step<Ack>)
    ensures s.reply.Failure? <==> UserByClerk(db.users, id).None? && emails == []
    ensures s.reply.Failure? ==> s.db == db && s.reply.code == 500
    ensures s.reply.Success? ==> s.reply == Success(200, Ack)
  {
    if UserByClerk(db.users, id).Some? then Step(db, Success(200, Ack))
    else if emails == [] then Step(db, Fail(500))
    else Step(AddUser(db, NewClient(db, id, emails, first, last)), Success(200, Ack))
  }

  /** `user.updated`: an upsert. Both branches read `email_addresses[0]`,
      so an event with no email address is 500 whether or not the id is
      known. */
  function Updated(db: Db, id: string, emails: seq<string>, first: Option<string>, last: Option<string>): (s: Step<Ack>)
    ensures s.reply.Failure? <==> emails == []
    ensures s.reply.Failure? ==> s.db == db && s.reply.code == 500
    ensures s.reply.Success? ==> s.reply == Success(200, Ack)
  {
    var k := UserByClerk(db.users, id);
    if emails == [] then Step(db, Fail(500))
    else if k.Some? then
      var u := db.users[k.value].(email := emails[0], name := DisplayName(first, last));
      Step(db.(users := db.users[k.value := u]), Success(200, Ack))
    else Step(AddUser(db, NewClient(db, id, emails, first, last)), Success(200, Ack))
  }

  /** `user.deleted`: deleting an unknown id throws and is 500. */
  function Deleted(db: Db, id: string): (s: Step<Ack>)
    ensures s.reply.Failure? <==> UserByClerk(db.users, id).None?
    ensures s.reply.Failure? ==> s.db == db && s.reply.code == 500
    ensures s.reply.Success? ==> s.reply == Success(200, Ack)
  {
    var k := UserByClerk(db.users, id);
    if k.None? then Step(db, Fail(500))
    else Step(db.(users := db.users[..k.value] + db.users[k.value + 1..]), Success(200, Ack))
  }

  /** A missing header or a failed verification is refused with 400; an
      event of another kind is acknowledged. Neither writes. */
  lemma PostNoWrite(db: Db, h: SignatureHeaders, verified: bool, event: UserEvent)
    ensures (!HeadersPresent(h) || !verified) ==> Post(db, h, verified, event) == Step(db, Fail(400))
    ensures (HeadersPresent(h) && verified && event.OtherUserEvent?) ==>
      Post(db, h, verified, event) == Step(db, Success(200, Ack))
  {
  }

  /** The three failed writes of a verified event, each 500 with nothing
      written: creating an unknown user with no email address, updating
      with no email address, and deleting an unknown user. */
  lemma PostFailures(db: Db, h: SignatureHeaders, id: string, first: Option<string>, last: Option<string>)
    requires HeadersPresent(h)
    ensures UserByClerk(db.users, id).None? ==>
      Post(db, h, true, UserCreated(id, [], first, last)) == Step(db, Fail(500))
    ensures Post(db, h, true, UserUpdated(id, [], first, last)) == Step(db, Fail(500))
    ensures UserByClerk(db.users, id).None? ==>
      Post(db, h, true, UserDeleted(id)) == Step(db, Fail(500))
  {
  }

  /** `user.created` for an unknown id appends one CLIENT row with the
      first email and the display name; for a known id it writes nothing,
      so delivering it again changes nothing. */
  lemma CreatedInsertsOnce(db: Db, h: SignatureHeaders, id: string, emails: seq<string>, first: Option<string>, last: Option<string>)
    requires HeadersPresent(h) && emails != []
    ensures var e := UserCreated(id, emails, first, last);
      var s := Post(db, h, true, e);
      && s.reply == Success(200, Ack)
      && (UserByClerk(db.users, id).None? ==>
            s.db.users == db.users + [User(db.nextId, id, emails[0], DisplayName(first, last), CLIENT)])
      && (UserByClerk(db.users, id).Some? ==> s.db == db)
      && Post(s.db, h, true, e) == Step(s.db, Success(200, Ack))
  {
    var e := UserCreated(id, emails, first, last);
    var s := Post(db, h, true, e);
    if UserByClerk(db.users, id).None? {
      var k := |db.users|;
      assert s.db.users[k].clerkId == id;
      assert UserByClerk(s.db.users, id).Some?;
    }
  }

  /** `user.updated` on a known id changes only that row's email and name
      (id and role stay); on an unknown id it creates a CLIENT row. */
  lemma UpdatedUpserts(db: Db, h: SignatureHeaders, id: string, emails: seq<string>, first: Option<string>, last: Option<string>)
    requires HeadersPresent(h) && emails != []
    ensures var s := Post(db, h, true, UserUpdated(id, emails, first, last));
      && s.reply == Success(200, Ack)
      && (UserByClerk(db.users, id).Some? ==>
            var k := UserByClerk(db.users, id).value;
            && |s.db.users| == |db.users|
            && s.db.users[k] == db.users[k].(email := emails[0], name := DisplayName(first, last))
            && s.db.users[k].role == db.users[k].role && s.db.users[k].id == db.users[k].id
            && (forall j :: 0 <= j < |db.users| && j != k ==> s.db.users[j] == db.users[j])
            && s.db == db.(users := s.db.users))
      && (UserByClerk(db.users, id).None? ==>
            s.db.users == db.users + [User(db.nextId, id, emails[0], DisplayName(first, last), CLIENT)])
  {
    var s := Post(db, h, true, UserUpdated(id, emails, first, last));
    assert s == Updated(db, id, emails, first, last);
    var k := UserByClerk(db.users, id);
    if k.Some? {
      var u := db.users[k.value].(email := emails[0], name := DisplayName(first, last));
      assert s.db == db.(users := db.users[k.value := u]);
    } else {
      assert s.db == AddUser(db, NewClient(db, id, emails, first, last));
    }
  }

  /** `user.deleted` removes exactly the row with that id, keeping the
      other rows in order; afterwards no row has that id. */
  lemma DeletedRemoves(db: Db, h: SignatureHeaders, id: string)
    requires UniqueClerkIds(db.users)
    requires HeadersPresent(h) && UserByClerk(db.users, id).Some?
    ensures var s := Post(db, h, true, UserDeleted(id));
      var k := UserByClerk(db.users, id).value;
      && s.reply == Success(200, Ack)
      && s.db.users == db.users[..k] + db.users[k + 1..]
      && (forall j :: 0 <= j < |s.db.users| ==> s.db.users[j].clerkId != id)
      && s.db == db.(users := s.db.users)
  {
    var s := Post(db, h, true, UserDeleted(id));
    var k := UserByClerk(db.users, id).value;
    forall j | 0 <= j < |s.db.users| ensures s.db.users[j].clerkId != id {
      if j < k {
        assert s.db.users[j] == db.users[j];
      } else {
        assert s.db.users[j] == db.users[j + 1];
      }
    }
  }

  /** Every event keeps at most one user per identity-provider id, and the
      other invariants. */
  lemma PostKeepsValid(db: Db, h: SignatureHeaders, verified: bool, event: UserEvent)
    requires Valid(db)
    ensures Valid(Post(db, h, verified, event).db)
  {
    if HeadersPresent(h) && verified {
      match event {
        case UserCreated(id, emails, first, last) =>
          if UserByClerk(db.users, id).None? && emails != [] {
            AddUserKeepsValid(db, NewClient(db, id, emails, first, last));
          }
        case UserUpdated(id, emails, first, last) =>
          var k := UserByClerk(db.users, id);
          if emails != [] {
            if k.Some? {
              var u := db.users[k.value].(email := emails[0], name := DisplayName(first, last));
              UpdateUserKeepsValid(db, k.value, u, db.meta);
              assert Updated(db, id, emails, first, last).db == db.(users := db.users[k.value := u], meta := db.meta);
            } else {
              AddUserKeepsValid(db, NewClient(db, id, emails, first, last));
            }
          }
        case UserDeleted(id) =>
          var k := UserByClerk(db.users, id);
          if k.Some? {
            RemoveUserKeepsValid(db, k.value);
          }
        case OtherUserEvent(_) =>
      }
    }
  }
}
