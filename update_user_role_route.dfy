/** POST /api/admin/update-user-role: an admin sets a user's role. */
module UpdateUserRoleRoute {
  import opened Common
  import opened Model

  /** The handler. `userId` and `role` are the body's fields, None when
      absent. The reply carries the updated row. */
  function Post(db: Db, caller: Option<string>, userId: Option<Id>, role: Option<string>): (s: Step<User>)
    ensures s.reply.Failure? ==> s.db == db
    ensures s.reply.Success? <==>
      caller.Some? && IsAdmin(db.users, caller.value) && userId.Some? && role.Some?
      && ParseRole(role.value).Some? && UserById(db.users, userId.value).Some?
  {
    if caller.None? then Step(db, Fail(401))
    else if !IsAdmin(db.users, caller.value) then Step(db, Fail(403))
    else if userId.None? || !Filled(role) then Step(db, Fail(400))
    else if ParseRole(role.value).None? then Step(db, Fail(400))
    else
      var k := UserById(db.users, userId.value);
      if k.None? then Step(db, Fail(404))
      else
        var r := ParseRole(role.value).value;
        var u := db.users[k.value].(role := r);
        Step(db.(users := db.users[k.value := u], meta := db.meta[u.clerkId := RoleMeta(r, u.id)]),
             Success(200, u))
  }

  /** The refusals, in the order the handler checks them. */
  lemma PostRefusals(db: Db, caller: Option<string>, userId: Option<Id>, role: Option<string>)
    ensures caller.None? ==> Post(db, caller, userId, role).reply == Fail(401)
    ensures (caller.Some? && !IsAdmin(db.users, caller.value)) ==> Post(db, caller, userId, role).reply == Fail(403)
    ensures (caller.Some? && IsAdmin(db.users, caller.value) && (userId.None? || role.None?)) ==>
      Post(db, caller, userId, role).reply == Fail(400)
    ensures (caller.Some? && IsAdmin(db.users, caller.value) && userId.Some? && role.Some?
             && ParseRole(role.value).None?) ==>
      Post(db, caller, userId, role).reply == Fail(400)
    ensures (caller.Some? && IsAdmin(db.users, caller.value) && userId.Some? && role.Some?
             && ParseRole(role.value).Some? && UserById(db.users, userId.value).None?) ==>
      Post(db, caller, userId, role).reply == Fail(404)
  {
  }

  /** On success the target row has the requested role and nothing else in
      it or in other rows changes; the target's metadata is replaced by
      exactly `{ role, userId }`, dropping any other key. */
  lemma PostSetsRole(db: Db, caller: Option<string>, userId: Option<Id>, role: Option<string>)
    requires Post(db, caller, userId, role).reply.Success?
    ensures var s := Post(db, caller, userId, role);
      var k := UserById(db.users, userId.value).value;
      var r := ParseRole(role.value).value;
      && RoleName(r) == role.value
      && |s.db.users| == |db.users|
      && s.db.users[k] == db.users[k].(role := r) && s.db.users[k].id == userId.value
      && (forall j :: 0 <= j < |db.users| && j != k ==> s.db.users[j] == db.users[j])
      && MetaOf(s.db, db.users[k].clerkId) == map["role" := role.value, "userId" := IdText(userId.value)]
      && (forall c :: c != db.users[k].clerkId ==> MetaOf(s.db, c) == MetaOf(db, c))
      && s.db == db.(users := s.db.users, meta := s.db.meta)
  {
    ParseRoleInverse(role.value);
  }

  /** Applying the same change twice gives the state of applying it once
      (also when the first call demoted the calling admin, so that the
      second is refused). */
  lemma PostTwiceSameAsOnce(db: Db, caller: Option<string>, userId: Option<Id>, role: Option<string>)
    requires Post(db, caller, userId, role).reply.Success?
    ensures var db1 := Post(db, caller, userId, role).db;
      Post(db1, caller, userId, role).db == db1
  {
    var db1 := Post(db, caller, userId, role).db;
    var k := UserById(db.users, userId.value).value;
    FirstIndexAt(db1.users, (x: User) => x.id == userId.value, k);
  }

  /** The call keeps the invariants. */
  lemma PostKeepsValid(db: Db, caller: Option<string>, userId: Option<Id>, role: Option<string>)
    requires Valid(db)
    ensures Valid(Post(db, caller, userId, role).db)
  {
    var s := Post(db, caller, userId, role);
    if s.reply.Success? {
      var k := UserById(db.users, userId.value).value;
      IdsUpdate(db.users, UserKey, db.nextId, k, s.db.users[k]);
    }
  }
}
