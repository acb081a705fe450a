/** /api/admin/subscription-plans: an admin creates a plan (POST) or lists
    the catalogue newest first (GET). */
module SubscriptionPlansRoute {
  import opened Common
  import opened Model
  import opened PlanSchema
  import opened Ordering

  /** `subscriptionPlan.findFirst({ where: { name: { equals } } })`:
      an exact, case-sensitive match. */
  function PlanNamed(plans: seq<Plan>, name: string): Option<nat>
  {
    FirstIndex(plans, (p: Plan) => p.name == name)
  }

  /** `max_services_per_month || null`. */
  function LimitOrNull(limit: Option<int>): (r: Option<int>)
    ensures r.Some? ==> limit == r && r.value != 0
    ensures limit.Some? && limit.value != 0 ==> r == limit
  {
    if limit.Some? && limit.value != 0 then limit else None
  }

  /** POST: 401 without a caller, 403 unless the caller is a stored ADMIN,
      400 with the validation details, 409 when a plan already has the
      name, otherwise the plan is appended and 201 returned. */
  function Create(db: Db, caller: Option<string>, body: PlanBody, now: int): (s: Step<Plan>)
    ensures s.reply.Failure? ==> s.db == db
    ensures s.reply.Success? ==> s.reply.code == 201
  {
    if caller.None? then Step(db, Fail(401))
    else if !IsAdmin(db.users, caller.value) then Step(db, Fail(403))
    else match Validate(body)
      case Rejected(issues) => Step(db, Failure(400, issues))
      case Parsed(d) =>
        if PlanNamed(db.plans, d.name).Some? then Step(db, Fail(409))
        else
          var plan := Plan(db.nextId, d.name, d.price, LimitOrNull(d.maxServicesPerMonth), d.features, now);
          Step(db.(plans := db.plans + [plan], nextId := db.nextId + 1), Success(201, plan))
  }

  /** The refusals, in the order the handler checks them. */
  lemma CreateRefusals(db: Db, caller: Option<string>, body: PlanBody, now: int)
    ensures caller.None? ==> Create(db, caller, body, now) == Step(db, Fail(401))
    ensures (caller.Some? && !IsAdmin(db.users, caller.value)) ==>
      Create(db, caller, body, now) == Step(db, Fail(403))
    ensures (caller.Some? && IsAdmin(db.users, caller.value) && Issues(body) != []) ==>
      Create(db, caller, body, now) == Step(db, Failure(400, Issues(body)))
    ensures (caller.Some? && IsAdmin(db.users, caller.value) && Validate(body).Parsed?
             && PlanNamed(db.plans, Validate(body).data.name).Some?) ==>
      Create(db, caller, body, now) == Step(db, Fail(409))
  {
  }

  /** A created plan is appended with the validated values, a null limit
      when none was given, the clock as its creation time and a fresh id;
      no other table changes. */
  lemma CreateAppends(db: Db, caller: Option<string>, body: PlanBody, now: int)
    requires Create(db, caller, body, now).reply.Success?
    ensures var s := Create(db, caller, body, now);
      var d := Validate(body).data;
      && IsAdmin(db.users, caller.value)
      && (forall i :: 0 <= i < |db.plans| ==> db.plans[i].name != d.name)
      && s.db.plans == db.plans + [s.reply.body]
      && s.reply.body == Plan(db.nextId, d.name, d.price, d.maxServicesPerMonth, d.features, now)
      && s.db == db.(plans := s.db.plans, nextId := db.nextId + 1)
  {
    var d := Validate(body).data;
    ParsedData(body);
  }

  /** Plan names stay pairwise distinct, and every other invariant holds,
      after any creation attempt. */
  lemma CreateKeepsValid(db: Db, caller: Option<string>, body: PlanBody, now: int)
    requires Valid(db)
    ensures Valid(Create(db, caller, body, now).db)
  {
    var s := Create(db, caller, body, now);
    if s.reply.Success? {
      CreateAppends(db, caller, body, now);
      AddPlanKeepsValid(db, s.reply.body);
      assert s.db == db.(plans := db.plans + [s.reply.body], nextId := db.nextId + 1);
    }
  }

  /** Posting the same plan twice: the second is refused with 409. */
  lemma SecondCreateConflicts(db: Db, caller: Option<string>, body: PlanBody, now: int, later: int)
    requires Create(db, caller, body, now).reply.Success?
    ensures var db' := Create(db, caller, body, now).db;
      Create(db', caller, body, later) == Step(db', Fail(409))
  {
    var db' := Create(db, caller, body, now).db;
    assert db'.users == db.users;
    assert db'.plans[|db.plans|].name == Validate(body).data.name;
  }

  /** A listed plan with the number of subscriptions that reference it. */
  datatype PlanListing = PlanListing(plan: Plan, subscriptionCount: nat)

  /** The plan each subscription references, in order. */
  function PlanIds(subs: seq<Subscription>): (r: seq<Id>)
    ensures |r| == |subs| && forall i :: 0 <= i < |subs| ==> r[i] == subs[i].planId
  {
    seq(|subs|, i requires 0 <= i < |subs| => subs[i].planId)
  }

  /** `_count.subscriptions`: how many subscriptions reference the plan. */
  function SubscriptionsOf(subs: seq<Subscription>, planId: Id): (n: nat)
    ensures n == multiset(PlanIds(subs))[planId]
    ensures n <= |subs|
  {
    if subs == [] then 0
    else
      assert PlanIds(subs) == [subs[0].planId] + PlanIds(subs[1..]);
      (if subs[0].planId == planId then 1 else 0) + SubscriptionsOf(subs[1..], planId)
  }

  function PlanCreated(p: Plan): int { p.createdAt }

  function WithCounts(plans: seq<Plan>, subs: seq<Subscription>): (r: seq<PlanListing>)
    ensures |r| == |plans|
    ensures forall i :: 0 <= i < |r| ==> r[i].plan == plans[i] && r[i].subscriptionCount == SubscriptionsOf(subs, plans[i].id)
  {
    if plans == [] then []
    else [PlanListing(plans[0], SubscriptionsOf(subs, plans[0].id))] + WithCounts(plans[1..], subs)
  }

  /** GET: 401 without a caller, 403 unless a stored ADMIN, otherwise every
      plan with its subscription count, newest first. Never writes. */
  function List(db: Db, caller: Option<string>): (s: Step<seq<PlanListing>>)
    ensures s.db == db
  {
    if caller.None? then Step(db, Fail(401))
    else if !IsAdmin(db.users, caller.value) then Step(db, Fail(403))
    else Step(db, Success(200, WithCounts(NewestFirst(db.plans, PlanCreated), db.subscriptions)))
  }

  /** The listing holds exactly the stored plans, each once per copy,
      ordered by creation time from newest to oldest, each with its count. */
  lemma ListNewestFirst(db: Db, caller: string)
    requires IsAdmin(db.users, caller)
    ensures var r := List(db, Some(caller)).reply;
      && r.Success? && r.code == 200
      && var plans := seq(|r.body|, i requires 0 <= i < |r.body| => r.body[i].plan);
      && multiset(plans) == multiset(db.plans)
      && (forall i, j :: 0 <= i < j < |r.body| ==> r.body[i].plan.createdAt >= r.body[j].plan.createdAt)
      && (forall i :: 0 <= i < |r.body| ==> r.body[i].subscriptionCount == SubscriptionsOf(db.subscriptions, r.body[i].plan.id))
  {
    var sorted := NewestFirst(db.plans, PlanCreated);
    var r := List(db, Some(caller)).reply;
    var plans := seq(|r.body|, i requires 0 <= i < |r.body| => r.body[i].plan);
    assert plans == sorted;
  }

  /** Both handlers refuse the same callers: 401 without one, 403 for
      anyone who is not a stored ADMIN. */
  lemma ListRefusals(db: Db, caller: Option<string>)
    ensures caller.None? ==> List(db, caller).reply == Fail(401)
    ensures (caller.Some? && !IsAdmin(db.users, caller.value)) ==> List(db, caller).reply == Fail(403)
  {
  }
}
