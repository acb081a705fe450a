/** /api/partner/services: a salon owner lists (GET) or adds (POST) the
    salon's services. */
module PartnerServicesRoute {
  import opened Common
  import opened Model
  import opened Ordering

  /** The POST body; an absent field is None. `availableDays` is the JSON
      text of the weekday list. */
  datatype ServiceBody = ServiceBody(
    salonId: Option<Id>, name: Option<string>, description: Option<string>,
    basePrice: Option<real>, durationMin: Option<int>, availableDays: Option<string>,
    availableStartTime: Option<string>, availableEndTime: Option<string>)

  /** Every required field is truthy: present, a non-empty string, a
      non-zero number. */
  predicate AllFilled(b: ServiceBody)
  {
    && b.salonId.Some? && Filled(b.name) && Filled(b.description)
    && b.basePrice.Some? && b.basePrice.value != 0.0
    && b.durationMin.Some? && b.durationMin.value != 0
    && Filled(b.availableDays) && Filled(b.availableStartTime) && Filled(b.availableEndTime)
  }

  /** The service a POST stores: exactly the supplied fields. */
  function NewService(db: Db, b: ServiceBody, now: int): (x: Service)
    requires AllFilled(b)
    ensures x.id == db.nextId && x.salonId == b.salonId.value && x.createdAt == now
  {
    Service(db.nextId, b.salonId.value, b.name.value, b.description.value, b.basePrice.value,
            b.durationMin.value, b.availableDays.value, b.availableStartTime.value,
            b.availableEndTime.value, now)
  }

  /** POST: 401, 400 when a field is missing or falsy, 404 unless the salon
      belongs to the caller (its approval status is not consulted), else
      the service is appended. */
  function Create(db: Db, caller: Option<string>, b: ServiceBody, now: int): (s: Step<Service>)
    ensures s.reply.Failure? ==> s.db == db
    ensures s.reply.Success? <==> caller.Some? && AllFilled(b) && OwnsSalon(db, b.salonId.value, caller.value)
  {
    if caller.None? then Step(db, Fail(401))
    else if !AllFilled(b) then Step(db, Fail(400))
    else if !OwnsSalon(db, b.salonId.value, caller.value) then Step(db, Fail(404))
    else
      var x := NewService(db, b, now);
      Step(db.(services := db.services + [x], nextId := db.nextId + 1), Success(200, x))
  }

  lemma CreateRefusals(db: Db, caller: Option<string>, b: ServiceBody, now: int)
    ensures caller.None? ==> Create(db, caller, b, now) == Step(db, Fail(401))
    ensures (caller.Some? && !AllFilled(b)) ==> Create(db, caller, b, now) == Step(db, Fail(400))
    ensures (caller.Some? && AllFilled(b) && !OwnsSalon(db, b.salonId.value, caller.value)) ==>
      Create(db, caller, b, now) == Step(db, Fail(404))
  {
  }

  /** A zero price or a zero duration counts as missing. */
  lemma ZeroPriceOrDurationRefused(db: Db, caller: string, b: ServiceBody, now: int)
    requires b.basePrice == Some(0.0) || b.durationMin == Some(0)
    ensures Create(db, Some(caller), b, now) == Step(db, Fail(400))
  {
  }

  /** A successful POST appends one service carrying exactly the supplied
      fields and the clock as creation time; nothing else changes. A
      negative duration is accepted. */
  lemma CreateAppends(db: Db, caller: Option<string>, b: ServiceBody, now: int)
    requires Create(db, caller, b, now).reply.Success?
    ensures var s := Create(db, caller, b, now);
      var x := s.reply.body;
      && s.db.services == db.services + [x]
      && x.salonId == b.salonId.value && x.name == b.name.value && x.description == b.description.value
      && x.basePrice == b.basePrice.value && x.durationMin == b.durationMin.value
      && x.availableDays == b.availableDays.value && x.availableStartTime == b.availableStartTime.value
      && x.availableEndTime == b.availableEndTime.value && x.createdAt == now
      && s.db == db.(services := s.db.services, nextId := db.nextId + 1)
  {
  }

  /** Creating a service keeps the invariants. */
  lemma CreateKeepsValid(db: Db, caller: Option<string>, b: ServiceBody, now: int)
    requires Valid(db)
    ensures Valid(Create(db, caller, b, now).db)
  {
    var s := Create(db, caller, b, now);
    if s.reply.Success? {
      IdsAppend(db.services, ServiceKey, db.nextId, s.reply.body);
      IdsFreshGrow(db, db.nextId + 1);
    }
  }

  /** `service.findMany({ where: { salon_id } })`. */
  function ServicesOf(services: seq<Service>, salonId: Id): (r: seq<Service>)
    ensures forall x :: multiset(r)[x] == if x.salonId == salonId then multiset(services)[x] else 0
  {
    if services == [] then []
    else
      assert services == [services[0]] + services[1..];
      (if services[0].salonId == salonId then [services[0]] else []) + ServicesOf(services[1..], salonId)
  }

  function ServiceCreated(x: Service): int { x.createdAt }

  /** GET: 401, 400 without a salon id, 404 unless the caller owns the
      salon, else the salon's services newest first. Never writes. */
  function List(db: Db, caller: Option<string>, salonId: Option<Id>): (s: Step<seq<Service>>)
    ensures s.db == db
    ensures s.reply.Success? <==> caller.Some? && salonId.Some? && OwnsSalon(db, salonId.value, caller.value)
  {
    if caller.None? then Step(db, Fail(401))
    else if salonId.None? then Step(db, Fail(400))
    else if !OwnsSalon(db, salonId.value, caller.value) then Step(db, Fail(404))
    else Step(db, Success(200, NewestFirst(ServicesOf(db.services, salonId.value), ServiceCreated)))
  }

  lemma ListRefusals(db: Db, caller: Option<string>, salonId: Option<Id>)
    ensures caller.None? ==> List(db, caller, salonId).reply == Fail(401)
    ensures (caller.Some? && salonId.None?) ==> List(db, caller, salonId).reply == Fail(400)
    ensures (caller.Some? && salonId.Some? && !OwnsSalon(db, salonId.value, caller.value)) ==>
      List(db, caller, salonId).reply == Fail(404)
  {
  }

  /** The listing holds exactly the salon's services, each as often as it
      is stored, newest first. */
  lemma ListSalonServices(db: Db, caller: string, salonId: Id)
    requires OwnsSalon(db, salonId, caller)
    ensures var r := List(db, Some(caller), Some(salonId)).reply;
      && r.Success?
      && (forall x :: multiset(r.body)[x] == if x.salonId == salonId then multiset(db.services)[x] else 0)
      && (forall i, j :: 0 <= i < j < |r.body| ==> r.body[i].createdAt >= r.body[j].createdAt)
  {
  }
}
