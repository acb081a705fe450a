/** POST /api/partner/register: a user applies to become a partner by
    registering their salon, which starts PENDING. */
module PartnerRegisterRoute {
  import opened Common
  import opened Model

  /** Monday to Saturday: the working days a new salon starts with. */
  const DefaultWorkingDays: seq<string> := ["monday", "tuesday", "wednesday", "thursday", "friday", "saturday"]

  /** `user.findUnique({ where: { id: userId, clerk_id } })`. */
  function Applicant(users: seq<User>, userId: Id, caller: string): Option<nat>
  {
    FirstIndex(users, (u: User) => u.id == userId && u.clerkId == caller)
  }

  /** The salon a registration stores. */
  function NewSalon(db: Db, b: RegistrationBody): (s: Salon)
    ensures s.id == db.nextId && s.userId == b.userId && s.status == PENDING && s.rejectionReason.None?
    ensures s.workingDays == DefaultWorkingDays
  {
    Salon(db.nextId, b.userId, b.name, b.address, b.latitude, b.longitude, b.contactInfo,
          b.description, b.pixKey, b.pixKeyType, PENDING, None, DefaultWorkingDays)
  }

  /** The handler: 401 without a caller, 404 unless the body's user id is
      the caller's own row, 400 when that user already has a salon,
      otherwise one PENDING salon is appended. */
  function Post(db: Db, caller: Option<string>, b: RegistrationBody): (s: Step<Salon>)
    ensures s.reply.Failure? ==> s.db == db
    ensures s.reply.Success? <==>
      caller.Some? && Applicant(db.users, b.userId, caller.value).Some?
      && SalonOfUser(db.salons, b.userId).None?
  {
    if caller.None? then Step(db, Fail(401))
    else if Applicant(db.users, b.userId, caller.value).None? then Step(db, Fail(404))
    else if SalonOfUser(db.salons, b.userId).Some? then Step(db, Fail(400))
    else
      var salon := NewSalon(db, b);
      Step(db.(salons := db.salons + [salon], nextId := db.nextId + 1), Success(200, salon))
  }

  /** The refusals, in the order the handler checks them. */
  lemma PostRefusals(db: Db, caller: Option<string>, b: RegistrationBody)
    ensures caller.None? ==> Post(db, caller, b) == Step(db, Fail(401))
    ensures (caller.Some? && Applicant(db.users, b.userId, caller.value).None?) ==>
      Post(db, caller, b) == Step(db, Fail(404))
    ensures (caller.Some? && Applicant(db.users, b.userId, caller.value).Some?
             && SalonOfUser(db.salons, b.userId).Some?) ==>
      Post(db, caller, b) == Step(db, Fail(400))
  {
  }

  /** A registration appends one PENDING salon owned by the applicant with
      the body's fields and the Monday-to-Saturday working days (no
      Sunday); the user rows, roles included, are not touched. */
  lemma PostAppends(db: Db, caller: Option<string>, b: RegistrationBody)
    requires Post(db, caller, b).reply.Success?
    ensures var s := Post(db, caller, b);
      var salon := s.reply.body;
      && s.db.salons == db.salons + [salon]
      && salon.userId == b.userId && salon.status == PENDING && salon.rejectionReason.None?
      && salon.name == b.name && salon.address == b.address
      && salon.latitude == b.latitude && salon.longitude == b.longitude
      && salon.contactInfo == b.contactInfo && salon.description == b.description
      && salon.pixKey == b.pixKey && salon.pixKeyType == b.pixKeyType
      && salon.workingDays == DefaultWorkingDays && "sunday" !in salon.workingDays
      && s.db == db.(salons := s.db.salons, nextId := db.nextId + 1)
  {
  }

  /** A second registration by the same user is refused with 400. */
  lemma SecondRegistrationRefused(db: Db, caller: Option<string>, b: RegistrationBody, b2: RegistrationBody)
    requires Post(db, caller, b).reply.Success? && b2.userId == b.userId
    ensures var db' := Post(db, caller, b).db;
      Post(db', caller, b2) == Step(db', Fail(400))
  {
    var db' := Post(db, caller, b).db;
    assert db'.salons[|db.salons|].userId == b.userId;
  }

  /** Registration keeps at most one salon per user, and the other
      invariants. */
  lemma PostKeepsValid(db: Db, caller: Option<string>, b: RegistrationBody)
    requires Valid(db)
    ensures Valid(Post(db, caller, b).db)
  {
    var s := Post(db, caller, b);
    if s.reply.Success? {
      var salons := s.db.salons;
      forall i, j | 0 <= i < j < |salons| ensures salons[i].userId != salons[j].userId {
        if j == |db.salons| {
          assert salons[i] == db.salons[i];
        }
      }
      IdsAppend(db.salons, SalonKey, db.nextId, salons[|db.salons|]);
      IdsFreshGrow(db, db.nextId + 1);
    }
  }
}
