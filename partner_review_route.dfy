/** POST /api/partner/approve and POST /api/partner/reject: an admin
    decides on a salon. Neither looks at the salon's current status. */
module PartnerReviewRoute {
  import opened Common
  import opened Model

  const DefaultRejectionReason := "Não atende aos requisitos da plataforma"

  /** The owner's metadata with `role` set to PARTNER, other keys kept. */
  function PartnerMeta(m: Metadata): (r: Metadata)
    ensures r.Keys == m.Keys + {"role"} && r["role"] == "PARTNER"
    ensures forall key :: key in m && key != "role" ==> r[key] == m[key]
  {
    m["role" := "PARTNER"]
  }

  /** Approve: 401, 403 unless ADMIN, 400 without a salon id, 404 for an
      unknown salon; then the status becomes APPROVED and the owner's
      metadata role PARTNER. The owner's user row is not written. If the
      owner row is missing the status is already written when the call
      fails with 500. */
  function Approve(db: Db, caller: Option<string>, salonId: Option<Id>): (s: Step<Salon>)
    ensures s.db.users == db.users
  {
    if caller.None? then Step(db, Fail(401))
    else if !IsAdmin(db.users, caller.value) then Step(db, Fail(403))
    else if salonId.None? then Step(db, Fail(400))
    else
      var k := SalonById(db.salons, salonId.value);
      if k.None? then Step(db, Fail(404))
      else
        var salon := db.salons[k.value].(status := APPROVED);
        var db1 := db.(salons := db.salons[k.value := salon]);
        var o := UserById(db.users, salon.userId);
        if o.None? then Step(db1, Fail(500))
        else
          var clerkId := db.users[o.value].clerkId;
          Step(db1.(meta := db.meta[clerkId := PartnerMeta(MetaOf(db, clerkId))]), Success(200, salon))
  }

  /** The approval refusals, each with no write. */
  lemma ApproveRefusals(db: Db, caller: Option<string>, salonId: Option<Id>)
    ensures caller.None? ==> Approve(db, caller, salonId) == Step(db, Fail(401))
    ensures (caller.Some? && !IsAdmin(db.users, caller.value)) ==> Approve(db, caller, salonId) == Step(db, Fail(403))
    ensures (caller.Some? && IsAdmin(db.users, caller.value) && salonId.None?) ==>
      Approve(db, caller, salonId) == Step(db, Fail(400))
    ensures (caller.Some? && IsAdmin(db.users, caller.value) && salonId.Some?
             && SalonById(db.salons, salonId.value).None?) ==>
      Approve(db, caller, salonId) == Step(db, Fail(404))
  {
  }

  /** A found salon becomes APPROVED whatever its status was, keeping its
      other fields (the rejection reason included); other salons are
      untouched. With an owner row, the owner's metadata gets role PARTNER
      and keeps its other keys; no other metadata and no user row changes. */
  lemma ApproveEffect(db: Db, caller: string, salonId: Id)
    requires IsAdmin(db.users, caller) && SalonById(db.salons, salonId).Some?
    ensures var s := Approve(db, Some(caller), Some(salonId));
      var k := SalonById(db.salons, salonId).value;
      var o := UserById(db.users, db.salons[k].userId);
      && |s.db.salons| == |db.salons|
      && s.db.salons[k] == db.salons[k].(status := APPROVED)
      && (forall j :: 0 <= j < |db.salons| && j != k ==> s.db.salons[j] == db.salons[j])
      && s.db.users == db.users
      && (o.None? ==> s == Step(db.(salons := s.db.salons), Fail(500)))
      && (o.Some? ==>
            && s.reply == Success(200, s.db.salons[k])
            && MetaOf(s.db, db.users[o.value].clerkId) == PartnerMeta(MetaOf(db, db.users[o.value].clerkId))
            && (forall c :: c != db.users[o.value].clerkId ==> MetaOf(s.db, c) == MetaOf(db, c))
            && s.db == db.(salons := s.db.salons, meta := s.db.meta))
  {
  }

  /** Approving twice gives the state of approving once. */
  lemma ApproveTwiceSameAsOnce(db: Db, caller: Option<string>, salonId: Option<Id>)
    ensures var db1 := Approve(db, caller, salonId).db;
      Approve(db1, caller, salonId).db == db1
  {
    var db1 := Approve(db, caller, salonId).db;
    if caller.Some? && IsAdmin(db.users, caller.value) && salonId.Some? && SalonById(db.salons, salonId.value).Some? {
      var k := SalonById(db.salons, salonId.value).value;
      var salon := db.salons[k].(status := APPROVED);
      assert db1.salons == db.salons[k := salon];
      FirstIndexAt(db1.salons, (x: Salon) => x.id == salonId.value, k);
      assert db1.salons[k := db1.salons[k].(status := APPROVED)] == db1.salons;
      var o := UserById(db.users, salon.userId);
      if o.Some? {
        var c := db.users[o.value].clerkId;
        assert c in db1.meta && db1.meta[c] == PartnerMeta(MetaOf(db, c));
        assert PartnerMeta(MetaOf(db1, c)) == MetaOf(db1, c);
        assert db1.meta[c := PartnerMeta(MetaOf(db1, c))] == db1.meta;
      }
    }
  }

  /** The reason stored on rejection: the given one, or the default when
      it is missing or empty. */
  function ReasonOrDefault(reason: Option<string>): (r: string)
    ensures r != ""
    ensures Filled(reason) ==> r == reason.value
  {
    if Filled(reason) then reason.value else DefaultRejectionReason
  }

  /** Reject: the same refusals as approval, then the status becomes
      REJECTED with a reason. */
  function Reject(db: Db, caller: Option<string>, salonId: Option<Id>, reason: Option<string>): (s: Step<Salon>)
    ensures s.reply.Failure? ==> s.db == db
  {
    if caller.None? then Step(db, Fail(401))
    else if !IsAdmin(db.users, caller.value) then Step(db, Fail(403))
    else if salonId.None? then Step(db, Fail(400))
    else
      var k := SalonById(db.salons, salonId.value);
      if k.None? then Step(db, Fail(404))
      else
        var salon := db.salons[k.value].(status := REJECTED, rejectionReason := Some(ReasonOrDefault(reason)));
        Step(db.(salons := db.salons[k.value := salon]), Success(200, salon))
  }

  lemma RejectRefusals(db: Db, caller: Option<string>, salonId: Option<Id>, reason: Option<string>)
    ensures caller.None? ==> Reject(db, caller, salonId, reason).reply == Fail(401)
    ensures (caller.Some? && !IsAdmin(db.users, caller.value)) ==> Reject(db, caller, salonId, reason).reply == Fail(403)
    ensures (caller.Some? && IsAdmin(db.users, caller.value) && salonId.None?) ==>
      Reject(db, caller, salonId, reason).reply == Fail(400)
    ensures (caller.Some? && IsAdmin(db.users, caller.value) && salonId.Some?
             && SalonById(db.salons, salonId.value).None?) ==>
      Reject(db, caller, salonId, reason).reply == Fail(404)
  {
  }

  /** A found salon, in any status (APPROVED included), becomes REJECTED
      with the given or default reason; only that salon's status and
      reason change. */
  lemma RejectEffect(db: Db, caller: string, salonId: Id, reason: Option<string>)
    requires IsAdmin(db.users, caller) && SalonById(db.salons, salonId).Some?
    ensures var s := Reject(db, Some(caller), Some(salonId), reason);
      var k := SalonById(db.salons, salonId).value;
      && s.reply == Success(200, s.db.salons[k])
      && |s.db.salons| == |db.salons|
      && s.db.salons[k].status == REJECTED
      && s.db.salons[k].rejectionReason == Some(if Filled(reason) then reason.value else DefaultRejectionReason)
      && s.db.salons[k] == db.salons[k].(status := REJECTED, rejectionReason := s.db.salons[k].rejectionReason)
      && (forall j :: 0 <= j < |db.salons| && j != k ==> s.db.salons[j] == db.salons[j])
      && s.db == db.(salons := s.db.salons)
  {
  }

  /** Approval keeps the invariants. */
  lemma ApproveKeepsValid(db: Db, caller: Option<string>, salonId: Option<Id>)
    requires Valid(db)
    ensures Valid(Approve(db, caller, salonId).db)
  {
    var a := Approve(db, caller, salonId);
    if caller.Some? && IsAdmin(db.users, caller.value) && salonId.Some? && SalonById(db.salons, salonId.value).Some? {
      var k := SalonById(db.salons, salonId.value).value;
      var salon := db.salons[k].(status := APPROVED);
      UpdateSalonKeepsValid(db, k, salon, a.db.meta);
      assert a.db == db.(salons := db.salons[k := salon], meta := a.db.meta);
    }
  }

  /** Rejection keeps the invariants. */
  lemma RejectKeepsValid(db: Db, caller: Option<string>, salonId: Option<Id>, reason: Option<string>)
    requires Valid(db)
    ensures Valid(Reject(db, caller, salonId, reason).db)
  {
    var r := Reject(db, caller, salonId, reason);
    if r.db != db {
      var k := SalonById(db.salons, salonId.value).value;
      UpdateSalonKeepsValid(db, k, r.db.salons[k], db.meta);
    }
  }
}
