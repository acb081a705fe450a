/** GET /api/user/check-role: bring the role cached in the identity
    provider's metadata in line with the local user row. */
module CheckRoleRoute {
  import opened Common
  import opened Model

  datatype RoleReply = RoleReply(role: Role, userId: Id)

  /** The cached role: the metadata's `role` key, when present. */
  function CachedRole(m: Metadata): Option<string>
  {
    if "role" in m then Some(m["role"]) else None
  }

  function Get(db: Db, caller: Option<string>): (s: Step<RoleReply>)
    ensures s.db.users == db.users
  {
    if caller.None? then Step(db, Fail(401))
    else
      var k := UserByClerk(db.users, caller.value);
      if k.None? then Step(db, Fail(404))
      else
        var u := db.users[k.value];
        var m := MetaOf(db, caller.value);
        var db' := if CachedRole(m) != Some(RoleName(u.role))
          then db.(meta := db.meta[caller.value := m + RoleMeta(u.role, u.id)])
          else db;
        Step(db', Success(200, RoleReply(u.role, u.id)))
  }

  /** 401 without a caller and 404 without a user row, with no write. */
  lemma GetRefusals(db: Db, caller: Option<string>)
    ensures caller.None? ==> Get(db, caller) == Step(db, Fail(401))
    ensures (caller.Some? && UserByClerk(db.users, caller.value).None?) ==>
      Get(db, caller) == Step(db, Fail(404))
  {
  }

  /** Only the caller's metadata may change. When the cached role differs
      from the local one, `role` and `userId` are set from the row and every
      other key is kept; when they agree, nothing is written. Either way the
      cached role afterwards is the local role, which the reply returns. */
  lemma GetReconciles(db: Db, caller: string)
    requires UserByClerk(db.users, caller).Some?
    ensures var s := Get(db, Some(caller));
      var u := db.users[UserByClerk(db.users, caller).value];
      var m := MetaOf(db, caller);
      var m' := MetaOf(s.db, caller);
      && u.clerkId == caller
      && s.reply == Success(200, RoleReply(u.role, u.id))
      && CachedRole(m') == Some(RoleName(u.role))
      && (CachedRole(m) == Some(RoleName(u.role)) ==> s.db == db)
      && (CachedRole(m) != Some(RoleName(u.role)) ==>
            && m'["userId"] == IdText(u.id)
            && (forall key :: key in m && key != "role" && key != "userId" ==> key in m' && m'[key] == m[key])
            && m'.Keys == m.Keys + {"role", "userId"}
            && s.db == db.(meta := s.db.meta)
            && (forall c :: c != caller ==> MetaOf(s.db, c) == MetaOf(db, c)))
  {
  }

  /** Repeating the call writes nothing more. */
  lemma GetTwiceSameAsOnce(db: Db, caller: Option<string>)
    ensures var s := Get(db, caller);
      Get(s.db, caller) == s
  {
    var s := Get(db, caller);
    if caller.Some? && UserByClerk(db.users, caller.value).Some? {
      GetReconciles(db, caller.value);
    }
  }
}
