/** POST /api/appointments: a signed-in client books a service of a salon
    at an instant. */
module AppointmentsRoute {
  import opened Common
  import opened Model

  /** `service.findFirst({ where: { id, salon_id } })`. */
  function ServiceInSalon(services: seq<Service>, serviceId: Id, salonId: Id): Option<nat>
  {
    FirstIndex(services, (x: Service) => x.id == serviceId && x.salonId == salonId)
  }

  /** Does this appointment hold the requested slot? */
  predicate AtSlot(a: Appointment, req: BookingRequest)
  {
    a.serviceId == req.serviceId && a.salonId == req.salonId && a.scheduledAt == req.scheduledAt
  }

  /** The appointment a successful booking stores. */
  function Booked(db: Db, userId: Id, req: BookingRequest): (a: Appointment)
    ensures a.id == db.nextId && a.userId == userId && a.status == SCHEDULED
    ensures a.serviceId == req.serviceId && a.salonId == req.salonId
    ensures a.scheduledAt == req.scheduledAt && a.priceCharged == req.priceCharged
  {
    Appointment(db.nextId, userId, req.serviceId, req.salonId, req.scheduledAt, req.priceCharged, SCHEDULED)
  }

  /** The handler: 401 without a caller, 404 without a user row, 404 when the
      service is not one of the salon's, 400 when a live appointment holds
      the slot, otherwise one SCHEDULED appointment is appended. */
  function Post(db: Db, caller: Option<string>, req: BookingRequest): (s: Step<Appointment>)
    ensures s.reply.Failure? ==> s.db == db
    ensures s.reply.Success? <==>
      caller.Some? && UserByClerk(db.users, caller.value).Some?
      && ServiceInSalon(db.services, req.serviceId, req.salonId).Some?
      && !SlotTaken(db.appointments, req.serviceId, req.salonId, req.scheduledAt)
  {
    if caller.None? then Step(db, Fail(401))
    else
      var u := UserByClerk(db.users, caller.value);
      if u.None? then Step(db, Fail(404))
      else if ServiceInSalon(db.services, req.serviceId, req.salonId).None? then Step(db, Fail(404))
      else if SlotTaken(db.appointments, req.serviceId, req.salonId, req.scheduledAt) then Step(db, Fail(400))
      else
        var a := Booked(db, db.users[u.value].id, req);
        Step(db.(appointments := db.appointments + [a], nextId := db.nextId + 1), Success(200, a))
  }

  /** Each refusal has its own status, checked in order, and writes nothing. */
  lemma PostRefusals(db: Db, caller: Option<string>, req: BookingRequest)
    ensures caller.None? ==> Post(db, caller, req) == Step(db, Fail(401))
    ensures caller.Some? && UserByClerk(db.users, caller.value).None? ==>
      Post(db, caller, req) == Step(db, Fail(404))
    ensures (caller.Some? && UserByClerk(db.users, caller.value).Some?
             && ServiceInSalon(db.services, req.serviceId, req.salonId).None?) ==>
      Post(db, caller, req) == Step(db, Fail(404))
    ensures (caller.Some? && UserByClerk(db.users, caller.value).Some?
             && ServiceInSalon(db.services, req.serviceId, req.salonId).Some?
             && SlotTaken(db.appointments, req.serviceId, req.salonId, req.scheduledAt)) ==>
      Post(db, caller, req) == Step(db, Fail(400))
  {
  }

  /** A successful booking appends exactly one SCHEDULED appointment for the
      caller's user row at the client's price, and no other table changes. */
  lemma PostAppends(db: Db, caller: Option<string>, req: BookingRequest)
    requires Post(db, caller, req).reply.Success?
    ensures var s := Post(db, caller, req);
      var u := db.users[UserByClerk(db.users, caller.value).value];
      && u.clerkId == caller.value
      && s.reply == Success(200, s.db.appointments[|db.appointments|])
      && s.db.appointments == db.appointments + [Appointment(db.nextId, u.id, req.serviceId,
           req.salonId, req.scheduledAt, req.priceCharged, SCHEDULED)]
      && s.db == db.(appointments := s.db.appointments, nextId := db.nextId + 1)
  {
  }

  /** Only a live appointment blocks a slot: when every appointment holding
      it is CANCELED, a caller with a user row books it. */
  lemma CanceledSlotIsFree(db: Db, caller: string, req: BookingRequest)
    requires UserByClerk(db.users, caller).Some?
    requires ServiceInSalon(db.services, req.serviceId, req.salonId).Some?
    requires forall i :: 0 <= i < |db.appointments| && AtSlot(db.appointments[i], req) ==>
      db.appointments[i].status == AppointmentStatus.CANCELED
    ensures Post(db, Some(caller), req).reply.Success?
  {
  }

  /** Once a slot is booked, booking it again, by anyone, is refused: with
      400 for a caller with a user row. */
  lemma RebookingRefused(db: Db, first: Option<string>, second: string, req: BookingRequest)
    requires Post(db, first, req).reply.Success?
    ensures var db' := Post(db, first, req).db;
      && Post(db', Some(second), req).reply.Failure?
      && (UserByClerk(db.users, second).Some? ==> Post(db', Some(second), req).reply == Fail(400))
  {
    var db' := Post(db, first, req).db;
    var k := |db.appointments|;
    assert db'.appointments[k].serviceId == req.serviceId;
    assert Live(db'.appointments[k]);
    assert SlotTaken(db'.appointments, req.serviceId, req.salonId, req.scheduledAt);
  }

  /** Every call keeps the state's invariants; in particular there stays at
      most one live appointment per (service, salon, instant). */
  lemma PostKeepsValid(db: Db, caller: Option<string>, req: BookingRequest)
    requires Valid(db)
    ensures Valid(Post(db, caller, req).db)
  {
    var s := Post(db, caller, req);
    if s.reply.Success? {
      var a := s.db.appointments[|db.appointments|];
      var apps := s.db.appointments;
      forall i, j | 0 <= i < j < |apps| && Live(apps[i]) && Live(apps[j])
        ensures !SameSlot(apps[i], apps[j])
      {
        if j == |db.appointments| {
          assert apps[i] == db.appointments[i];
        }
      }
      IdsAppend(db.appointments, AppointmentKey, db.nextId, a);
      IdsFreshGrow(db, db.nextId + 1);
    }
  }
}
