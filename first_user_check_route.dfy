/** GET /api/first-user-check: when the caller is the only user, make them
    ADMIN; otherwise report whether the caller is an ADMIN. */
module FirstUserCheckRoute {
  import opened Common
  import opened Model

  datatype FirstUserReply = FirstUserReply(isFirstUser: bool, isAdmin: bool)

  /** Is the caller the one and only user row? */
  predicate SoleUser(users: seq<User>, caller: string)
  {
    |users| == 1 && users[0].clerkId == caller
  }

  function Get(db: Db, caller: Option<string>): (s: Step<FirstUserReply>)
    ensures s.reply.Success? <==> caller.Some?
  {
    if caller.None? then Step(db, Fail(401))
    else if SoleUser(db.users, caller.value) then
      var u := db.users[0];
      if u.role != ADMIN then
        Step(db.(users := [u.(role := ADMIN)], meta := db.meta[caller.value := RoleMeta(ADMIN, u.id)]),
             Success(200, FirstUserReply(true, true)))
      else Step(db, Success(200, FirstUserReply(true, true)))
    else Step(db, Success(200, FirstUserReply(false, IsAdmin(db.users, caller.value))))
  }

  /** Without a caller the reply is 401 and nothing is written. */
  lemma GetUnauthorized(db: Db)
    ensures Get(db, None) == Step(db, Fail(401))
  {
  }

  /** The sole user is promoted: their row becomes ADMIN (nothing else in it
      changes) and their metadata becomes exactly `{ role: ADMIN, userId }`.
      Already an ADMIN, nothing is written. */
  lemma SoleUserBecomesAdmin(db: Db, caller: string)
    requires SoleUser(db.users, caller)
    ensures var s := Get(db, Some(caller));
      && s.reply == Success(200, FirstUserReply(true, true))
      && s.db.users == [db.users[0].(role := ADMIN)]
      && (db.users[0].role != ADMIN ==> s.db == db.(users := s.db.users, meta := db.meta[caller := RoleMeta(ADMIN, db.users[0].id)]))
      && (db.users[0].role == ADMIN ==> s.db == db)
  {
  }

  /** When the caller is not the sole user nothing is written, and the
      reply says whether the caller's stored role is ADMIN. */
  lemma OthersOnlyRead(db: Db, caller: string)
    requires !SoleUser(db.users, caller)
    ensures Get(db, Some(caller)) == Step(db, Success(200, FirstUserReply(false, IsAdmin(db.users, caller))))
  {
  }

  /** After any call the reply's `isAdmin` agrees with the stored role. */
  lemma ReplyMatchesStore(db: Db, caller: string)
    ensures var s := Get(db, Some(caller));
      s.reply.Success? && s.reply.body.isAdmin == IsAdmin(s.db.users, caller)
  {
  }

  /** Repeating the call writes nothing more. */
  lemma GetTwiceSameAsOnce(db: Db, caller: Option<string>)
    ensures var s := Get(db, caller);
      Get(s.db, caller) == s
  {
  }

  /** The call keeps the invariants. */
  lemma GetKeepsValid(db: Db, caller: Option<string>)
    requires Valid(db)
    ensures Valid(Get(db, caller).db)
  {
    var s := Get(db, caller);
    if s.db != db {
      IdsUpdate(db.users, UserKey, db.nextId, 0, s.db.users[0]);
    }
  }
}
