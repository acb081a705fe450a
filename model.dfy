/** The database tables the route handlers read and write, the identity
    provider's public metadata, the lookups the handlers perform, and the
    invariants every handler keeps: one user per identity-provider id, one
    salon per user, unique plan names, one live appointment per slot, and
    unique record ids. */
module Model {
  import opened Common

  /** Record ids. The database generates them; the model draws them from a
      counter kept in the state. */
  type Id = nat

  datatype Role = CLIENT | PARTNER | ADMIN

  /** The role as the database and the identity-provider metadata spell it. */
  function RoleName(role: Role): (s: string)
    ensures ParseRole(s) == Some(role)
  {
    match role
    case CLIENT => "CLIENT"
    case PARTNER => "PARTNER"
    case ADMIN => "ADMIN"
  }

  /** The whitelist ["CLIENT", "PARTNER", "ADMIN"].includes(role). */
  function ParseRole(s: string): (r: Option<Role>)
    ensures r.None? <==> s != "CLIENT" && s != "PARTNER" && s != "ADMIN"
  {
    if s == "CLIENT" then Some(CLIENT)
    else if s == "PARTNER" then Some(PARTNER)
    else if s == "ADMIN" then Some(ADMIN)
    else None
  }

  /** A role accepted by the whitelist is spelled exactly as its name. */
  lemma ParseRoleInverse(s: string)
    ensures ParseRole(s).Some? ==> RoleName(ParseRole(s).value) == s
  {
  }

  datatype User = User(id: Id, clerkId: string, email: string, name: string, role: Role)

  datatype SalonStatus = PENDING | APPROVED | REJECTED

  datatype Salon = Salon(
    id: Id, userId: Id, name: string, address: string,
    latitude: real, longitude: real, contactInfo: string, description: string,
    pixKey: string, pixKeyType: string, status: SalonStatus,
    rejectionReason: Option<string>, workingDays: seq<string>)

  /** A bookable service. `availableDays` is the JSON text the partner sent. */
  datatype Service = Service(
    id: Id, salonId: Id, name: string, description: string,
    basePrice: real, durationMin: int, availableDays: string,
    availableStartTime: string, availableEndTime: string, createdAt: int)

  datatype AppointmentStatus = SCHEDULED | COMPLETED | CANCELED | NO_SHOW

  datatype Appointment = Appointment(
    id: Id, userId: Id, serviceId: Id, salonId: Id,
    scheduledAt: int, priceCharged: real, status: AppointmentStatus)

  /** The body the booking card posts: service, salon, instant and the
      price the client sends. */
  datatype BookingRequest = BookingRequest(serviceId: Id, salonId: Id, scheduledAt: int, priceCharged: real)

  /** The body the partner registration form posts. */
  datatype RegistrationBody = RegistrationBody(
    userId: Id, name: string, address: string, latitude: real, longitude: real,
    contactInfo: string, description: string, pixKey: string, pixKeyType: string)

  datatype SubscriptionStatus = ACTIVE | CANCELED | EXPIRED

  datatype Subscription = Subscription(
    id: Id, userId: Id, planId: Id, startDate: int, endDate: int, status: SubscriptionStatus)

  /** A payment record. `subscriptionId` is whatever id the writer put there
      (the payment webhook stores the plan id in it). */
  datatype Payment = Payment(
    id: Id, subscriptionId: Id, amount: real, paidAt: int, payMethod: string, status: string)

  datatype Plan = Plan(
    id: Id, name: string, price: real, maxServicesPerMonth: Option<int>,
    features: string, createdAt: int)

  /** An identity-provider user's public metadata. */
  type Metadata = map<string, string>

  /** The whole persistent state: the database tables, the identity
      provider's public metadata keyed by its user id, and the id counter. */
  datatype Db = Db(
    users: seq<User>, salons: seq<Salon>, services: seq<Service>,
    appointments: seq<Appointment>, subscriptions: seq<Subscription>,
    payments: seq<Payment>, plans: seq<Plan>,
    meta: map<string, Metadata>, nextId: nat)

  const EmptyDb := Db([], [], [], [], [], [], [], map[], 0)

  /** A handler's effect: the state after the call and the response. */
  datatype Step<T> = Step(db: Db, reply: Reply<T>)

  /** The public metadata of an identity-provider user (empty when none was
      ever written). */
  function MetaOf(db: Db, clerkId: string): Metadata
  {
    if clerkId in db.meta then db.meta[clerkId] else map[]
  }

  /** Metadata `{ role, userId }` as the role-writing handlers set it. */
  function RoleMeta(role: Role, userId: Id): (m: Metadata)
    ensures m.Keys == {"role", "userId"} && m["role"] == RoleName(role) && m["userId"] == IdText(userId)
  {
    map["role" := RoleName(role), "userId" := IdText(userId)]
  }

  // ---------------------------------------------------------------------
  // Lookups (the database's findUnique / findFirst)
  // ---------------------------------------------------------------------

  /** The first index whose element satisfies `p`. */
  function FirstIndex<T>(s: seq<T>, p: T -> bool): (r: Option<nat>)
    ensures r.Some? ==> r.value < |s| && p(s[r.value]) && forall j :: 0 <= j < r.value ==> !p(s[j])
    ensures r.None? ==> forall j :: 0 <= j < |s| ==> !p(s[j])
  {
    if s == [] then None
    else if p(s[0]) then Some(0)
    else
      var rest := FirstIndex(s[1..], p);
      if rest.Some? then Some(rest.value + 1) else None
  }

  /** The lookup is pinned down by its contract: it returns the first match. */
  lemma FirstIndexAt<T>(s: seq<T>, p: T -> bool, k: nat)
    requires k < |s| && p(s[k]) && forall j :: 0 <= j < k ==> !p(s[j])
    ensures FirstIndex(s, p) == Some(k)
  {
  }

  /** Rewriting the row a lookup by identity-provider id found, keeping that
      id, leaves the lookup where it was. */
  lemma UserByClerkAfterUpdate(users: seq<User>, clerkId: string, u: User)
    requires UserByClerk(users, clerkId).Some? && u.clerkId == clerkId
    ensures var k := UserByClerk(users, clerkId).value;
      UserByClerk(users[k := u], clerkId) == Some(k)
  {
    var k := UserByClerk(users, clerkId).value;
    FirstIndexAt(users[k := u], (x: User) => x.clerkId == clerkId, k);
  }

  function UserByClerk(users: seq<User>, clerkId: string): Option<nat>
  {
    FirstIndex(users, (u: User) => u.clerkId == clerkId)
  }

  function UserById(users: seq<User>, id: Id): Option<nat>
  {
    FirstIndex(users, (u: User) => u.id == id)
  }

  function SalonById(salons: seq<Salon>, id: Id): Option<nat>
  {
    FirstIndex(salons, (s: Salon) => s.id == id)
  }

  function SalonOfUser(salons: seq<Salon>, userId: Id): Option<nat>
  {
    FirstIndex(salons, (s: Salon) => s.userId == userId)
  }

  /** Is the caller (an identity-provider id) a stored ADMIN? */
  predicate IsAdmin(users: seq<User>, clerkId: string)
  {
    var u := UserByClerk(users, clerkId);
    u.Some? && users[u.value].role == ADMIN
  }

  /** The salon with this id whose owner row has this identity-provider id. */
  predicate OwnsSalon(db: Db, salonId: Id, clerkId: string)
  {
    exists i, j :: 0 <= i < |db.salons| && 0 <= j < |db.users|
      && db.salons[i].id == salonId && db.users[j].id == db.salons[i].userId
      && db.users[j].clerkId == clerkId
  }

  /** Does a live (non-CANCELED) appointment already hold this slot? */
  predicate SlotTaken(appointments: seq<Appointment>, serviceId: Id, salonId: Id, at: int)
  {
    exists i :: 0 <= i < |appointments| && Live(appointments[i])
      && appointments[i].serviceId == serviceId && appointments[i].salonId == salonId
      && appointments[i].scheduledAt == at
  }

  predicate Live(a: Appointment) { a.status != AppointmentStatus.CANCELED }

  // ---------------------------------------------------------------------
  // Invariants
  // ---------------------------------------------------------------------

  ghost predicate UniqueClerkIds(users: seq<User>)
  {
    forall i, j :: 0 <= i < j < |users| ==> users[i].clerkId != users[j].clerkId
  }

  ghost predicate OneSalonPerUser(salons: seq<Salon>)
  {
    forall i, j :: 0 <= i < j < |salons| ==> salons[i].userId != salons[j].userId
  }

  ghost predicate UniquePlanNames(plans: seq<Plan>)
  {
    forall i, j :: 0 <= i < j < |plans| ==> plans[i].name != plans[j].name
  }

  ghost predicate SameSlot(a: Appointment, b: Appointment)
  {
    a.serviceId == b.serviceId && a.salonId == b.salonId && a.scheduledAt == b.scheduledAt
  }

  ghost predicate OneLivePerSlot(appointments: seq<Appointment>)
  {
    forall i, j :: 0 <= i < j < |appointments| && Live(appointments[i]) && Live(appointments[j])
      ==> !SameSlot(appointments[i], appointments[j])
  }

  /** Every id in a table is below the counter, and no two are equal. */
  ghost predicate IdsOk<T>(s: seq<T>, id: T -> Id, next: nat)
  {
    && (forall i :: 0 <= i < |s| ==> id(s[i]) < next)
    && (forall i, j :: 0 <= i < j < |s| ==> id(s[i]) != id(s[j]))
  }

  function UserKey(x: User): Id { x.id }
  function SalonKey(x: Salon): Id { x.id }
  function ServiceKey(x: Service): Id { x.id }
  function AppointmentKey(x: Appointment): Id { x.id }
  function SubscriptionKey(x: Subscription): Id { x.id }
  function PaymentKey(x: Payment): Id { x.id }
  function PlanKey(x: Plan): Id { x.id }

  ghost predicate IdsFresh(db: Db)
  {
    && IdsOk(db.users, UserKey, db.nextId)
    && IdsOk(db.salons, SalonKey, db.nextId)
    && IdsOk(db.services, ServiceKey, db.nextId)
    && IdsOk(db.appointments, AppointmentKey, db.nextId)
    && IdsOk(db.subscriptions, SubscriptionKey, db.nextId)
    && IdsOk(db.payments, PaymentKey, db.nextId)
    && IdsOk(db.plans, PlanKey, db.nextId)
  }

  ghost predicate Valid(db: Db)
  {
    && UniqueClerkIds(db.users)
    && OneSalonPerUser(db.salons)
    && UniquePlanNames(db.plans)
    && OneLivePerSlot(db.appointments)
    && IdsFresh(db)
  }

  lemma EmptyDbValid()
    ensures Valid(EmptyDb)
  {
  }

  // ---------------------------------------------------------------------
  // How the table operations keep the id invariant
  // ---------------------------------------------------------------------

  /** Raising the counter keeps every table's ids fresh. */
  lemma IdsGrow<T>(s: seq<T>, id: T -> Id, next: nat, next': nat)
    requires IdsOk(s, id, next) && next <= next'
    ensures IdsOk(s, id, next')
  {
  }

  /** Appending a record that takes the counter's value keeps ids fresh. */
  lemma IdsAppend<T>(s: seq<T>, id: T -> Id, next: nat, x: T)
    requires IdsOk(s, id, next) && id(x) == next
    ensures IdsOk(s + [x], id, next + 1)
  {
    var s' := s + [x];
    forall i, j | 0 <= i < j < |s'| ensures id(s'[i]) != id(s'[j]) {
      if j == |s| { assert id(s'[i]) < next; }
    }
  }

  /** Overwriting a record with one of the same id keeps ids fresh. */
  lemma IdsUpdate<T>(s: seq<T>, id: T -> Id, next: nat, k: nat, x: T)
    requires IdsOk(s, id, next) && k < |s| && id(x) == id(s[k])
    ensures IdsOk(s[k := x], id, next)
  {
    var s' := s[k := x];
    assert forall i :: 0 <= i < |s| ==> id(s'[i]) == id(s[i]);
  }

  /** Deleting a record keeps ids fresh. */
  lemma IdsRemove<T>(s: seq<T>, id: T -> Id, next: nat, k: nat)
    requires IdsOk(s, id, next) && k < |s|
    ensures IdsOk(s[..k] + s[k + 1..], id, next)
  {
    var s' := s[..k] + s[k + 1..];
    assert forall i :: 0 <= i < |s'| ==> s'[i] == s[if i < k then i else i + 1];
  }

  /** Raising the counter keeps the whole state's ids fresh. */
  lemma IdsFreshGrow(db: Db, next': nat)
    requires IdsFresh(db) && db.nextId <= next'
    ensures IdsFresh(db.(nextId := next'))
  {
    IdsGrow(db.users, UserKey, db.nextId, next');
    IdsGrow(db.salons, SalonKey, db.nextId, next');
    IdsGrow(db.services, ServiceKey, db.nextId, next');
    IdsGrow(db.appointments, AppointmentKey, db.nextId, next');
    IdsGrow(db.subscriptions, SubscriptionKey, db.nextId, next');
    IdsGrow(db.payments, PaymentKey, db.nextId, next');
    IdsGrow(db.plans, PlanKey, db.nextId, next');
  }

  /** With unique identity-provider ids, the lookup finds the one user with
      that id. */
  lemma UserByClerkUnique(users: seq<User>, clerkId: string, k: nat)
    requires UniqueClerkIds(users) && k < |users| && users[k].clerkId == clerkId
    ensures UserByClerk(users, clerkId) == Some(k)
  {
  }

  /** `user.create`: append a row, drawing its id from the counter. */
  function AddUser(db: Db, u: User): (db': Db)
    ensures db'.users == db.users + [u] && db'.nextId == db.nextId + 1
  {
    db.(users := db.users + [u], nextId := db.nextId + 1)
  }

  /** Appending a user whose identity-provider id is not yet stored, with
      the counter's value as id, keeps the invariants. */
  lemma AddUserKeepsValid(db: Db, u: User)
    requires Valid(db) && UserByClerk(db.users, u.clerkId).None? && u.id == db.nextId
    ensures Valid(AddUser(db, u))
  {
    var users := db.users + [u];
    forall i, j | 0 <= i < j < |users| ensures users[i].clerkId != users[j].clerkId {
      if j == |db.users| {
        assert users[i] == db.users[i];
      }
    }
    IdsAppend(db.users, UserKey, db.nextId, u);
    IdsFreshGrow(db, db.nextId + 1);
  }

  /** Rewriting a user row in place, keeping its id and identity-provider
      id, keeps the invariants whatever happens to the metadata. */
  lemma UpdateUserKeepsValid(db: Db, k: nat, u: User, meta: map<string, Metadata>)
    requires Valid(db) && k < |db.users| && u.id == db.users[k].id && u.clerkId == db.users[k].clerkId
    ensures Valid(db.(users := db.users[k := u], meta := meta))
  {
    IdsUpdate(db.users, UserKey, db.nextId, k, u);
    var users := db.users[k := u];
    assert forall j :: 0 <= j < |users| ==> users[j].clerkId == db.users[j].clerkId;
  }

  /** `user.delete`: removing a row keeps the invariants. */
  lemma RemoveUserKeepsValid(db: Db, k: nat)
    requires Valid(db) && k < |db.users|
    ensures Valid(db.(users := db.users[..k] + db.users[k + 1..]))
  {
    var users := db.users[..k] + db.users[k + 1..];
    forall i, j | 0 <= i < j < |users| ensures users[i].clerkId != users[j].clerkId {
      var i0 := if i < k then i else i + 1;
      var j0 := if j < k then j else j + 1;
      assert users[i] == db.users[i0] && users[j] == db.users[j0];
    }
    IdsRemove(db.users, UserKey, db.nextId, k);
  }

  /** Appending a plan with a new name, drawing its id from the counter,
      keeps the invariants. */
  lemma AddPlanKeepsValid(db: Db, p: Plan)
    requires Valid(db) && p.id == db.nextId
    requires forall i :: 0 <= i < |db.plans| ==> db.plans[i].name != p.name
    ensures Valid(db.(plans := db.plans + [p], nextId := db.nextId + 1))
  {
    var plans := db.plans + [p];
    forall i, j | 0 <= i < j < |plans| ensures plans[i].name != plans[j].name {
      if j == |db.plans| {
        assert plans[i] == db.plans[i];
      }
    }
    IdsAppend(db.plans, PlanKey, db.nextId, p);
    IdsFreshGrow(db, db.nextId + 1);
  }

  /** Rewriting a salon in place, keeping its id and owner, keeps the
      invariants whatever happens to the metadata. */
  lemma UpdateSalonKeepsValid(db: Db, k: nat, x: Salon, meta: map<string, Metadata>)
    requires Valid(db) && k < |db.salons| && x.id == db.salons[k].id && x.userId == db.salons[k].userId
    ensures Valid(db.(salons := db.salons[k := x], meta := meta))
  {
    IdsUpdate(db.salons, SalonKey, db.nextId, k, x);
    var salons := db.salons[k := x];
    assert forall j :: 0 <= j < |salons| ==> salons[j].userId == db.salons[j].userId;
  }
}
