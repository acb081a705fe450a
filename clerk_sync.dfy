/** `syncClerkUser`: make the local user row agree with the identity
    provider's user, creating it when missing. */
module ClerkSync {
  import opened Common
  import opened Model

  datatype EmailAddress = EmailAddress(id: string, address: string)

  /** The identity provider's view of a user. */
  datatype ClerkUser = ClerkUser(
    id: string, emailAddresses: seq<EmailAddress>, primaryEmailAddressId: Option<string>,
    firstName: Option<string>, lastName: Option<string>)

  /** The address of the first email entry whose id is the primary id. */
  function PrimaryEmail(u: ClerkUser): (r: Option<string>)
    ensures r.Some? <==> (exists i :: 0 <= i < |u.emailAddresses|
                                  && u.primaryEmailAddressId == Some(u.emailAddresses[i].id))
    ensures r.Some? ==> (exists i :: 0 <= i < |u.emailAddresses|
                                 && u.primaryEmailAddressId == Some(u.emailAddresses[i].id)
                                 && r.value == u.emailAddresses[i].address)
  {
    var k := FirstIndex(u.emailAddresses, (e: EmailAddress) => u.primaryEmailAddressId == Some(e.id));
    if k.Some? then Some(u.emailAddresses[k.value].address) else None
  }

  /** The state after the call and either the user row or the error thrown. */
  datatype Synced = Synced(db: Db, result: Result<User>)

  const NoUserError := "No Clerk user provided"
  const NoEmailError := "No email found for Clerk user"

  /** The call. A row whose email or name differs is overwritten with the
      new email and name and with role CLIENT; a new row also gets the
      metadata `{ userId, role: CLIENT }`. */
  function Sync(db: Db, clerkUser: Option<ClerkUser>): (s: Synced)
    ensures s.result.Err? ==> s.db == db
  {
    if clerkUser.None? then Synced(db, Err(NoUserError))
    else
      var cu := clerkUser.value;
      var email := PrimaryEmail(cu);
      if !Filled(email) then Synced(db, Err(NoEmailError))
      else
        var name := DisplayName(cu.firstName, cu.lastName);
        var k := UserByClerk(db.users, cu.id);
        if k.Some? then
          var u := db.users[k.value];
          if u.email != email.value || u.name != name then
            var u' := u.(email := email.value, name := name, role := CLIENT);
            Synced(db.(users := db.users[k.value := u']), Ok(u'))
          else Synced(db, Ok(u))
        else
          var u := User(db.nextId, cu.id, email.value, name, CLIENT);
          Synced(AddUser(db, u).(meta := db.meta[cu.id := RoleMeta(CLIENT, u.id)]), Ok(u))
  }

  /** It throws exactly when no user is given or no email entry matches
      the primary id with a non-empty address. */
  lemma SyncErrors(db: Db, clerkUser: Option<ClerkUser>)
    ensures clerkUser.None? ==> Sync(db, clerkUser) == Synced(db, Err(NoUserError))
    ensures (clerkUser.Some? && !Filled(PrimaryEmail(clerkUser.value))) ==>
      Sync(db, clerkUser) == Synced(db, Err(NoEmailError))
    ensures (clerkUser.Some? && Filled(PrimaryEmail(clerkUser.value))) ==> Sync(db, clerkUser).result.Ok?
  {
  }

  /** The returned row carries the identity-provider id, the primary email
      and the display name, and is the row stored for that id. */
  lemma SyncResult(db: Db, cu: ClerkUser)
    requires Filled(PrimaryEmail(cu))
    ensures var s := Sync(db, Some(cu));
      var u := s.result.value;
      && u.clerkId == cu.id && u.email == PrimaryEmail(cu).value
      && u.name == DisplayName(cu.firstName, cu.lastName)
      && UserByClerk(s.db.users, cu.id).Some? && s.db.users[UserByClerk(s.db.users, cu.id).value] == u
  {
    var s := Sync(db, Some(cu));
    var k := UserByClerk(db.users, cu.id);
    if k.None? {
      FirstIndexAt(s.db.users, (x: User) => x.clerkId == cu.id, |db.users|);
    } else if s.db != db {
      UserByClerkAfterUpdate(db.users, cu.id, s.result.value);
    }
  }

  /** An unknown id gets a new CLIENT row and metadata `{ userId, role }`;
      an existing row that already matches is returned with no write; an
      existing row that differs is overwritten, its role reset to CLIENT,
      whatever it was. */
  lemma SyncCases(db: Db, cu: ClerkUser)
    requires Filled(PrimaryEmail(cu))
    ensures var s := Sync(db, Some(cu));
      var email := PrimaryEmail(cu).value;
      var name := DisplayName(cu.firstName, cu.lastName);
      var k := UserByClerk(db.users, cu.id);
      && (k.None? ==>
            && s.db.users == db.users + [User(db.nextId, cu.id, email, name, CLIENT)]
            && s.db.meta == db.meta[cu.id := RoleMeta(CLIENT, db.nextId)])
      && (k.Some? && db.users[k.value].email == email && db.users[k.value].name == name ==>
            s == Synced(db, Ok(db.users[k.value])))
      && (k.Some? && (db.users[k.value].email != email || db.users[k.value].name != name) ==>
            && s.db == db.(users := db.users[k.value := s.result.value])
            && s.result.value == db.users[k.value].(email := email, name := name, role := CLIENT))
  {
  }

  /** Calling it twice with the same user leaves the state as after the
      first call and returns the same row. */
  lemma SyncTwiceSameAsOnce(db: Db, clerkUser: Option<ClerkUser>)
    ensures var s := Sync(db, clerkUser);
      Sync(s.db, clerkUser) == s
  {
    var s := Sync(db, clerkUser);
    if s.result.Ok? {
      var cu := clerkUser.value;
      SyncResult(db, cu);
      var k := UserByClerk(s.db.users, cu.id).value;
      assert s.db.users[k].email == PrimaryEmail(cu).value;
    }
  }

  /** The call keeps the invariants. */
  lemma SyncKeepsValid(db: Db, clerkUser: Option<ClerkUser>)
    requires Valid(db)
    ensures Valid(Sync(db, clerkUser).db)
  {
    var s := Sync(db, clerkUser);
    if s.db != db {
      var cu := clerkUser.value;
      var k := UserByClerk(db.users, cu.id);
      if k.Some? {
        IdsUpdate(db.users, UserKey, db.nextId, k.value, s.db.users[k.value]);
      } else {
        var u := User(db.nextId, cu.id, PrimaryEmail(cu).value, DisplayName(cu.firstName, cu.lastName), CLIENT);
        AddUserKeepsValid(db, u);
      }
    }
  }
}
