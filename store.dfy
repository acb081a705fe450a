/** The persistent state as one mutable object, with one method per route
    handler. Each method runs the handler's checks in order against the
    tables, writes what the handler writes, and is proved to end in the
    state and reply its route module specifies; the invariants of
    `Model.Valid` hold between calls. */
module Backend {
  import opened Common
  import opened Model
  import AppointmentsRoute
  import SubscriptionCancelRoute
  import StripeWebhookRoute
  import PlanSchema
  import SubscriptionPlansRoute
  import ClerkWebhookRoute
  import ClerkSync
  import FirstUserCheckRoute
  import CheckRoleRoute
  import UpdateUserRoleRoute
  import PartnerRegisterRoute
  import PartnerReviewRoute
  import PartnerServicesRoute
  import Ordering

  class Store {
    var users: seq<User>
    var salons: seq<Salon>
    var services: seq<Service>
    var appointments: seq<Appointment>
    var subscriptions: seq<Subscription>
    var payments: seq<Payment>
    var plans: seq<Plan>
    var meta: map<string, Metadata>
    var nextId: nat

    /** The tables as a value. */
    function State(): Db
      reads this
    {
      Db(users, salons, services, appointments, subscriptions, payments, plans, meta, nextId)
    }

    ghost predicate Valid()
      reads this
    {
      Model.Valid(State())
    }

    /** An empty database with no metadata. */
    constructor()
      ensures State() == EmptyDb && Valid()
    {
      users := [];
      salons := [];
      services := [];
      appointments := [];
      subscriptions := [];
      payments := [];
      plans := [];
      meta := map[];
      nextId := 0;
    }

    /** POST /api/appointments. */
    method BookAppointment(caller: Option<string>, req: BookingRequest) returns (r: Reply<Appointment>)
      requires Valid()
      modifies this
      ensures var s := AppointmentsRoute.Post(old(State()), caller, req); State() == s.db && r == s.reply
      ensures Valid()
    {
      AppointmentsRoute.PostKeepsValid(State(), caller, req);
      r := BookAppointmentSteps(caller, req);
    }

    /** The checks and writes, in the handler's order. */
    method BookAppointmentSteps(caller: Option<string>, req: BookingRequest) returns (r: Reply<Appointment>)
      modifies this
      ensures var s := AppointmentsRoute.Post(old(State()), caller, req); State() == s.db && r == s.reply
    {
      if caller.None? { return Fail(401); }
      var u := UserByClerk(users, caller.value);
      if u.None? { return Fail(404); }
      if AppointmentsRoute.ServiceInSalon(services, req.serviceId, req.salonId).None? { return Fail(404); }
      if SlotTaken(appointments, req.serviceId, req.salonId, req.scheduledAt) { return Fail(400); }
      var a := Appointment(nextId, users[u.value].id, req.serviceId, req.salonId, req.scheduledAt,
                           req.priceCharged, SCHEDULED);
      appointments := appointments + [a];
      nextId := nextId + 1;
      r := Success(200, a);
    }

    /** POST /api/subscription/cancel. */
    method CancelSubscription(caller: Option<string>, subscriptionId: Option<Id>, now: int)
      returns (r: Reply<SubscriptionCancelRoute.Cancelled>)
      requires Valid()
      modifies this
      ensures var s := SubscriptionCancelRoute.Post(old(State()), caller, subscriptionId, now);
        State() == s.db && r == s.reply
      ensures Valid()
    {
      SubscriptionCancelRoute.PostKeepsValid(State(), caller, subscriptionId, now);
      r := CancelSubscriptionSteps(caller, subscriptionId, now);
    }

    /** The checks and writes, in the handler's order. */
    method CancelSubscriptionSteps(caller: Option<string>, subscriptionId: Option<Id>, now: int)
      returns (r: Reply<SubscriptionCancelRoute.Cancelled>)
      modifies this
      ensures var s := SubscriptionCancelRoute.Post(old(State()), caller, subscriptionId, now);
        State() == s.db && r == s.reply
    {
      if caller.None? { return Fail(401); }
      if subscriptionId.None? { return Fail(400); }
      var u := UserByClerk(users, caller.value);
      if u.None? { return Fail(404); }
      var k := SubscriptionCancelRoute.ActiveOwned(subscriptions, subscriptionId.value, users[u.value].id);
      if k.None? { return Fail(404); }
      var sub := subscriptions[k.value];
      if sub.endDate < now { return Fail(400); }
      sub := sub.(status := SubscriptionStatus.CANCELED);
      subscriptions := subscriptions[k.value := sub];
      r := Success(200, SubscriptionCancelRoute.Cancelled(sub.id, sub.status, sub.endDate, sub.planId));
    }

    /** POST /api/stripe/webhook. */
    method StripeWebhook(signatureOk: bool, event: StripeWebhookRoute.Event, now: int, monthLater: int)
      returns (r: Reply<Ack>)
      requires Valid()
      modifies this
      ensures var s := StripeWebhookRoute.Post(old(State()), signatureOk, event, now, monthLater);
        State() == s.db && r == s.reply
      ensures Valid()
    {
      StripeWebhookRoute.PostKeepsValid(State(), signatureOk, event, now, monthLater);
      r := StripeWebhookSteps(signatureOk, event, now, monthLater);
    }

    /** The checks and writes, in the handler's order. */
    method StripeWebhookSteps(signatureOk: bool, event: StripeWebhookRoute.Event, now: int, monthLater: int)
      returns (r: Reply<Ack>)
      modifies this
      ensures var s := StripeWebhookRoute.Post(old(State()), signatureOk, event, now, monthLater);
        State() == s.db && r == s.reply
    {
      if !signatureOk { return Fail(400); }
      match event {
        case CheckoutCompleted(userId, planId, amountTotal) =>
          if userId.None? || planId.None? { return Fail(400); }
          subscriptions := subscriptions + [Subscription(nextId, userId.value, planId.value, now, monthLater, ACTIVE)];
          payments := payments + [Payment(nextId + 1, planId.value, StripeWebhookRoute.AmountOf(amountTotal),
                                          now, "stripe", "COMPLETED")];
          nextId := nextId + 2;
        case SubscriptionDeleted =>
        case OtherEvent(_) =>
      }
      r := Success(200, Ack);
    }

    /** POST /api/admin/subscription-plans. */
    method CreatePlan(caller: Option<string>, body: PlanSchema.PlanBody, now: int) returns (r: Reply<Plan>)
      requires Valid()
      modifies this
      ensures var s := SubscriptionPlansRoute.Create(old(State()), caller, body, now);
        State() == s.db && r == s.reply
      ensures Valid()
    {
      SubscriptionPlansRoute.CreateKeepsValid(State(), caller, body, now);
      r := CreatePlanSteps(caller, body, now);
    }

    /** The plan POST's checks and write, in the handler's order. */
    method CreatePlanSteps(caller: Option<string>, body: PlanSchema.PlanBody, now: int) returns (r: Reply<Plan>)
      modifies this
      ensures var s := SubscriptionPlansRoute.Create(old(State()), caller, body, now);
        State() == s.db && r == s.reply
    {
      if caller.None? {
        r := Fail(401);
      } else if !IsAdmin(users, caller.value) {
        r := Fail(403);
      } else {
        var v := PlanSchema.Validate(body);
        if v.Rejected? {
          r := Failure(400, v.issues);
        } else if SubscriptionPlansRoute.PlanNamed(plans, v.data.name).Some? {
          r := Fail(409);
        } else {
          var d := v.data;
          var plan := Plan(nextId, d.name, d.price, SubscriptionPlansRoute.LimitOrNull(d.maxServicesPerMonth),
                           d.features, now);
          plans := plans + [plan];
          nextId := nextId + 1;
          r := Success(201, plan);
        }
      }
    }

    /** GET /api/admin/subscription-plans: reads only. */
    method ListPlans(caller: Option<string>) returns (r: Reply<seq<SubscriptionPlansRoute.PlanListing>>)
      ensures r == SubscriptionPlansRoute.List(State(), caller).reply
    {
      if caller.None? { return Fail(401); }
      if !IsAdmin(users, caller.value) { return Fail(403); }
      var sorted := Ordering.NewestFirst(plans, SubscriptionPlansRoute.PlanCreated);
      r := Success(200, SubscriptionPlansRoute.WithCounts(sorted, subscriptions));
    }

    /** `user.create`: append a row whose id is drawn from the counter. */
    method InsertUser(clerkId: string, email: string, name: string, role: Role) returns (u: User)
      modifies this
      ensures u == User(old(nextId), clerkId, email, name, role)
      ensures State() == AddUser(old(State()), u)
    {
      u := User(nextId, clerkId, email, name, role);
      users := users + [u];
      nextId := nextId + 1;
    }

    /** `user.update`: overwrite the row at index k. */
    method RewriteUser(k: nat, u: User)
      requires k < |users|
      modifies this
      ensures State() == old(State()).(users := old(users)[k := u])
    {
      users := users[k := u];
    }

    /** POST /api/webhook: the identity provider's user events. */
    method ClerkWebhook(h: ClerkWebhookRoute.SignatureHeaders, verified: bool, event: ClerkWebhookRoute.UserEvent)
      returns (r: Reply<Ack>)
      requires Valid()
      modifies this
      ensures var s := ClerkWebhookRoute.Post(old(State()), h, verified, event); State() == s.db && r == s.reply
      ensures Valid()
    {
      ClerkWebhookRoute.PostKeepsValid(State(), h, verified, event);
      if !ClerkWebhookRoute.HeadersPresent(h) || !verified { return Fail(400); }
      match event {
        case UserCreated(id, emails, first, last) => r := UserCreated(id, emails, first, last);
        case UserUpdated(id, emails, first, last) => r := UserUpdated(id, emails, first, last);
        case UserDeleted(id) => r := UserDeleted(id);
        case OtherUserEvent(_) => r := Success(200, Ack);
      }
    }

    method UserCreated(id: string, emails: seq<string>, first: Option<string>, last: Option<string>)
      returns (r: Reply<Ack>)
      modifies this
      ensures var s := ClerkWebhookRoute.Created(old(State()), id, emails, first, last); State() == s.db && r == s.reply
    {
      var k := UserByClerk(users, id);
      if k.Some? {
        r := Success(200, Ack);
      } else if emails == [] {
        r := Fail(500);
      } else {
        var u := InsertUser(id, emails[0], DisplayName(first, last), CLIENT);
        r := Success(200, Ack);
      }
    }

    method UserUpdated(id: string, emails: seq<string>, first: Option<string>, last: Option<string>)
      returns (r: Reply<Ack>)
      modifies this
      ensures var s := ClerkWebhookRoute.Updated(old(State()), id, emails, first, last); State() == s.db && r == s.reply
    {
      if emails == [] { return Fail(500); }
      var k := UserByClerk(users, id);
      var name := DisplayName(first, last);
      if k.Some? {
        RewriteUser(k.value, users[k.value].(email := emails[0], name := name));
      } else {
        var u := InsertUser(id, emails[0], name, CLIENT);
      }
      r := Success(200, Ack);
    }

    method UserDeleted(id: string) returns (r: Reply<Ack>)
      modifies this
      ensures var s := ClerkWebhookRoute.Deleted(old(State()), id); State() == s.db && r == s.reply
    {
      var k := UserByClerk(users, id);
      if k.None? { return Fail(500); }
      users := users[..k.value] + users[k.value + 1..];
      r := Success(200, Ack);
    }

    /** `syncClerkUser`: returns the row, or the error it throws. */
    method SyncClerkUser(clerkUser: Option<ClerkSync.ClerkUser>) returns (result: Result<User>)
      requires Valid()
      modifies this
      ensures var s := ClerkSync.Sync(old(State()), clerkUser); State() == s.db && result == s.result
      ensures Valid()
    {
      ClerkSync.SyncKeepsValid(State(), clerkUser);
      if clerkUser.None? { return Err(ClerkSync.NoUserError); }
      var email := ClerkSync.PrimaryEmail(clerkUser.value);
      if !Filled(email) { return Err(ClerkSync.NoEmailError); }
      result := SyncFound(clerkUser.value, email.value);
    }

    /** The writes `syncClerkUser` makes once the primary email is found. */
    method SyncFound(cu: ClerkSync.ClerkUser, email: string) returns (result: Result<User>)
      requires ClerkSync.PrimaryEmail(cu) == Some(email) && email != ""
      modifies this
      ensures var s := ClerkSync.Sync(old(State()), Some(cu)); State() == s.db && result == s.result
    {
      var name := DisplayName(cu.firstName, cu.lastName);
      var k := UserByClerk(users, cu.id);
      if k.Some? {
        var u := users[k.value];
        if u.email != email || u.name != name {
          u := u.(email := email, name := name, role := CLIENT);
          RewriteUser(k.value, u);
        }
        return Ok(u);
      }
      var u := InsertUser(cu.id, email, name, CLIENT);
      meta := meta[cu.id := RoleMeta(CLIENT, u.id)];
      result := Ok(u);
    }

    /** GET /api/first-user-check. */
    method FirstUserCheck(caller: Option<string>) returns (r: Reply<FirstUserCheckRoute.FirstUserReply>)
      requires Valid()
      modifies this
      ensures var s := FirstUserCheckRoute.Get(old(State()), caller); State() == s.db && r == s.reply
      ensures Valid()
    {
      FirstUserCheckRoute.GetKeepsValid(State(), caller);
      r := FirstUserCheckSteps(caller);
    }

    /** The checks and writes, in the handler's order. */
    method FirstUserCheckSteps(caller: Option<string>) returns (r: Reply<FirstUserCheckRoute.FirstUserReply>)
      modifies this
      ensures var s := FirstUserCheckRoute.Get(old(State()), caller); State() == s.db && r == s.reply
    {
      if caller.None? { return Fail(401); }
      if |users| == 1 && users[0].clerkId == caller.value {
        var u := users[0];
        if u.role != ADMIN {
          users := [u.(role := ADMIN)];
          meta := meta[caller.value := RoleMeta(ADMIN, u.id)];
        }
        return Success(200, FirstUserCheckRoute.FirstUserReply(true, true));
      }
      r := Success(200, FirstUserCheckRoute.FirstUserReply(false, IsAdmin(users, caller.value)));
    }

    /** GET /api/user/check-role. */
    method CheckRole(caller: Option<string>) returns (r: Reply<CheckRoleRoute.RoleReply>)
      requires Valid()
      modifies this
      ensures var s := CheckRoleRoute.Get(old(State()), caller); State() == s.db && r == s.reply
      ensures Valid()
    {
      if caller.None? { return Fail(401); }
      var k := UserByClerk(users, caller.value);
      if k.None? { return Fail(404); }
      var u := users[k.value];
      var m := MetaOf(State(), caller.value);
      if CheckRoleRoute.CachedRole(m) != Some(RoleName(u.role)) {
        meta := meta[caller.value := m + RoleMeta(u.role, u.id)];
      }
      r := Success(200, CheckRoleRoute.RoleReply(u.role, u.id));
    }

    /** POST /api/admin/update-user-role. */
    method UpdateUserRole(caller: Option<string>, userId: Option<Id>, role: Option<string>) returns (r: Reply<User>)
      requires Valid()
      modifies this
      ensures var s := UpdateUserRoleRoute.Post(old(State()), caller, userId, role); State() == s.db && r == s.reply
      ensures Valid()
    {
      UpdateUserRoleRoute.PostKeepsValid(State(), caller, userId, role);
      r := UpdateUserRoleSteps(caller, userId, role);
    }

    /** The checks and writes, in the handler's order. */
    method UpdateUserRoleSteps(caller: Option<string>, userId: Option<Id>, role: Option<string>) returns (r: Reply<User>)
      modifies this
      ensures var s := UpdateUserRoleRoute.Post(old(State()), caller, userId, role); State() == s.db && r == s.reply
    {
      if caller.None? { return Fail(401); }
      if !IsAdmin(users, caller.value) { return Fail(403); }
      if userId.None? || !Filled(role) { return Fail(400); }
      var parsed := ParseRole(role.value);
      if parsed.None? { return Fail(400); }
      var k := UserById(users, userId.value);
      if k.None? { return Fail(404); }
      var u := users[k.value].(role := parsed.value);
      users := users[k.value := u];
      meta := meta[u.clerkId := RoleMeta(parsed.value, u.id)];
      r := Success(200, u);
    }

    /** POST /api/partner/register. */
    method RegisterPartner(caller: Option<string>, b: RegistrationBody) returns (r: Reply<Salon>)
      requires Valid()
      modifies this
      ensures var s := PartnerRegisterRoute.Post(old(State()), caller, b); State() == s.db && r == s.reply
      ensures Valid()
    {
      PartnerRegisterRoute.PostKeepsValid(State(), caller, b);
      r := RegisterPartnerSteps(caller, b);
    }

    /** The checks and writes, in the handler's order. */
    method RegisterPartnerSteps(caller: Option<string>, b: RegistrationBody) returns (r: Reply<Salon>)
      modifies this
      ensures var s := PartnerRegisterRoute.Post(old(State()), caller, b); State() == s.db && r == s.reply
    {
      if caller.None? { return Fail(401); }
      if PartnerRegisterRoute.Applicant(users, b.userId, caller.value).None? { return Fail(404); }
      if SalonOfUser(salons, b.userId).Some? { return Fail(400); }
      var salon := Salon(nextId, b.userId, b.name, b.address, b.latitude, b.longitude, b.contactInfo,
                         b.description, b.pixKey, b.pixKeyType, PENDING, None,
                         PartnerRegisterRoute.DefaultWorkingDays);
      salons := salons + [salon];
      nextId := nextId + 1;
      r := Success(200, salon);
    }

    /** POST /api/partner/approve. */
    method ApproveSalon(caller: Option<string>, salonId: Option<Id>) returns (r: Reply<Salon>)
      requires Valid()
      modifies this
      ensures var s := PartnerReviewRoute.Approve(old(State()), caller, salonId); State() == s.db && r == s.reply
      ensures Valid()
    {
      PartnerReviewRoute.ApproveKeepsValid(State(), caller, salonId);
      r := ApproveSalonSteps(caller, salonId);
    }

    /** The approval's checks and writes, in the handler's order. */
    method ApproveSalonSteps(caller: Option<string>, salonId: Option<Id>) returns (r: Reply<Salon>)
      modifies this
      ensures var s := PartnerReviewRoute.Approve(old(State()), caller, salonId); State() == s.db && r == s.reply
    {
      if caller.None? { return Fail(401); }
      if !IsAdmin(users, caller.value) { return Fail(403); }
      if salonId.None? { return Fail(400); }
      var k := SalonById(salons, salonId.value);
      if k.None? { return Fail(404); }
      var salon := salons[k.value].(status := APPROVED);
      salons := salons[k.value := salon];
      var o := UserById(users, salon.userId);
      if o.None? { return Fail(500); }
      var clerkId := users[o.value].clerkId;
      var m := if clerkId in meta then meta[clerkId] else map[];
      meta := meta[clerkId := PartnerReviewRoute.PartnerMeta(m)];
      r := Success(200, salon);
    }

    /** POST /api/partner/reject. */
    method RejectSalon(caller: Option<string>, salonId: Option<Id>, reason: Option<string>) returns (r: Reply<Salon>)
      requires Valid()
      modifies this
      ensures var s := PartnerReviewRoute.Reject(old(State()), caller, salonId, reason);
        State() == s.db && r == s.reply
      ensures Valid()
    {
      PartnerReviewRoute.RejectKeepsValid(State(), caller, salonId, reason);
      r := RejectSalonSteps(caller, salonId, reason);
    }

    /** The checks and writes, in the handler's order. */
    method RejectSalonSteps(caller: Option<string>, salonId: Option<Id>, reason: Option<string>) returns (r: Reply<Salon>)
      modifies this
      ensures var s := PartnerReviewRoute.Reject(old(State()), caller, salonId, reason);
        State() == s.db && r == s.reply
    {
      if caller.None? { return Fail(401); }
      if !IsAdmin(users, caller.value) { return Fail(403); }
      if salonId.None? { return Fail(400); }
      var k := SalonById(salons, salonId.value);
      if k.None? { return Fail(404); }
      var salon := salons[k.value].(status := REJECTED,
                                    rejectionReason := Some(PartnerReviewRoute.ReasonOrDefault(reason)));
      salons := salons[k.value := salon];
      r := Success(200, salon);
    }

    /** POST /api/partner/services. */
    method CreateService(caller: Option<string>, b: PartnerServicesRoute.ServiceBody, now: int) returns (r: Reply<Service>)
      requires Valid()
      modifies this
      ensures var s := PartnerServicesRoute.Create(old(State()), caller, b, now); State() == s.db && r == s.reply
      ensures Valid()
    {
      PartnerServicesRoute.CreateKeepsValid(State(), caller, b, now);
      r := CreateServiceSteps(caller, b, now);
    }

    /** The checks and writes, in the handler's order. */
    method CreateServiceSteps(caller: Option<string>, b: PartnerServicesRoute.ServiceBody, now: int) returns (r: Reply<Service>)
      modifies this
      ensures var s := PartnerServicesRoute.Create(old(State()), caller, b, now); State() == s.db && r == s.reply
    {
      if caller.None? { return Fail(401); }
      if !PartnerServicesRoute.AllFilled(b) { return Fail(400); }
      if !OwnsSalon(State(), b.salonId.value, caller.value) { return Fail(404); }
      var x := Service(nextId, b.salonId.value, b.name.value, b.description.value, b.basePrice.value,
                       b.durationMin.value, b.availableDays.value, b.availableStartTime.value,
                       b.availableEndTime.value, now);
      services := services + [x];
      nextId := nextId + 1;
      r := Success(200, x);
    }

    /** GET /api/partner/services: reads only. */
    method ListServices(caller: Option<string>, salonId: Option<Id>) returns (r: Reply<seq<Service>>)
      ensures r == PartnerServicesRoute.List(State(), caller, salonId).reply
    {
      if caller.None? { return Fail(401); }
      if salonId.None? { return Fail(400); }
      if !OwnsSalon(State(), salonId.value, caller.value) { return Fail(404); }
      var own := PartnerServicesRoute.ServicesOf(services, salonId.value);
      r := Success(200, Ordering.NewestFirst(own, PartnerServicesRoute.ServiceCreated));
    }
  }
}
