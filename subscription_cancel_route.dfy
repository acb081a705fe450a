/** POST /api/subscription/cancel: a client cancels one of their ACTIVE
    subscriptions before it has expired. */
module SubscriptionCancelRoute {
  import opened Common
  import opened Model

  /** The reply's `subscription` object: id, new status, end date and the
      plan (by id). */
  datatype Cancelled = Cancelled(id: Id, status: SubscriptionStatus, endDate: int, planId: Id)

  /** `subscription.findFirst({ where: { id, user_id, status: "ACTIVE" } })`. */
  function ActiveOwned(subs: seq<Subscription>, subscriptionId: Id, userId: Id): Option<nat>
  {
    FirstIndex(subs, (x: Subscription) => x.id == subscriptionId && x.userId == userId && x.status == ACTIVE)
  }

  /** Is there a subscription with this id, owned by this user, still ACTIVE? */
  predicate Eligible(subs: seq<Subscription>, subscriptionId: Id, userId: Id)
  {
    exists i :: 0 <= i < |subs| && subs[i].id == subscriptionId && subs[i].userId == userId
      && subs[i].status == ACTIVE
  }

  /** The handler. `subscriptionId` is None when the body lacks it; `now` is
      the server clock. */
  function Post(db: Db, caller: Option<string>, subscriptionId: Option<Id>, now: int): (s: Step<Cancelled>)
    ensures s.reply.Failure? ==> s.db == db
    ensures s.reply.Success? ==> s.reply.code == 200 && s.db == db.(subscriptions := s.db.subscriptions)
  {
    if caller.None? then Step(db, Fail(401))
    else if subscriptionId.None? then Step(db, Fail(400))
    else
      var u := UserByClerk(db.users, caller.value);
      if u.None? then Step(db, Fail(404))
      else
        var k := ActiveOwned(db.subscriptions, subscriptionId.value, db.users[u.value].id);
        if k.None? then Step(db, Fail(404))
        else
          var sub := db.subscriptions[k.value];
          if sub.endDate < now then Step(db, Fail(400))
          else
            var sub' := sub.(status := SubscriptionStatus.CANCELED);
            Step(db.(subscriptions := db.subscriptions[k.value := sub']),
                 Success(200, Cancelled(sub'.id, sub'.status, sub'.endDate, sub'.planId)))
  }

  /** The refusals, in the order the handler checks them. */
  lemma PostRefusals(db: Db, caller: Option<string>, subscriptionId: Option<Id>, now: int)
    ensures caller.None? ==> Post(db, caller, subscriptionId, now).reply == Fail(401)
    ensures (caller.Some? && subscriptionId.None?) ==> Post(db, caller, subscriptionId, now).reply == Fail(400)
    ensures (caller.Some? && subscriptionId.Some? && UserByClerk(db.users, caller.value).None?) ==>
      Post(db, caller, subscriptionId, now).reply == Fail(404)
    ensures (caller.Some? && subscriptionId.Some? && UserByClerk(db.users, caller.value).Some?
             && !Eligible(db.subscriptions, subscriptionId.value, db.users[UserByClerk(db.users, caller.value).value].id)) ==>
      Post(db, caller, subscriptionId, now).reply == Fail(404)
  {
  }

  /** An eligible subscription is refused as expired exactly when its end
      date is strictly before now; an end date equal to now still cancels. */
  lemma ExpiryBoundary(db: Db, caller: string, subscriptionId: Id, now: int)
    requires UserByClerk(db.users, caller).Some?
    requires ActiveOwned(db.subscriptions, subscriptionId, db.users[UserByClerk(db.users, caller).value].id).Some?
    ensures var sub := db.subscriptions[ActiveOwned(db.subscriptions, subscriptionId,
                                                    db.users[UserByClerk(db.users, caller).value].id).value];
      && (Post(db, Some(caller), Some(subscriptionId), now).reply == Fail(400) <==> sub.endDate < now)
      && (Post(db, Some(caller), Some(subscriptionId), now).reply.Success? <==> now <= sub.endDate)
  {
  }

  /** A successful cancel sets one subscription, the caller's ACTIVE one
      with that id, to CANCELED; its end date and plan stay, the reply
      reports them, and every other subscription is untouched. */
  lemma PostCancelsOne(db: Db, caller: Option<string>, subscriptionId: Option<Id>, now: int)
    requires Post(db, caller, subscriptionId, now).reply.Success?
    ensures var s := Post(db, caller, subscriptionId, now);
      var u := db.users[UserByClerk(db.users, caller.value).value];
      var k := ActiveOwned(db.subscriptions, subscriptionId.value, u.id).value;
      && u.clerkId == caller.value
      && db.subscriptions[k].id == subscriptionId.value && db.subscriptions[k].userId == u.id
      && db.subscriptions[k].status == ACTIVE && now <= db.subscriptions[k].endDate
      && |s.db.subscriptions| == |db.subscriptions|
      && s.db.subscriptions[k] == db.subscriptions[k].(status := SubscriptionStatus.CANCELED)
      && (forall j :: 0 <= j < |db.subscriptions| && j != k ==> s.db.subscriptions[j] == db.subscriptions[j])
      && s.reply.body == Cancelled(subscriptionId.value, SubscriptionStatus.CANCELED,
                                   db.subscriptions[k].endDate, db.subscriptions[k].planId)
  {
  }

  /** Cancelling the same subscription again is refused with 404, because
      it is no longer ACTIVE, and changes nothing. */
  lemma CancelTwiceFails(db: Db, caller: Option<string>, subscriptionId: Option<Id>, now: int, later: int)
    requires Valid(db)
    requires Post(db, caller, subscriptionId, now).reply.Success?
    ensures var db' := Post(db, caller, subscriptionId, now).db;
      Post(db', caller, subscriptionId, later) == Step(db', Fail(404))
  {
    var db' := Post(db, caller, subscriptionId, now).db;
    var uid := db.users[UserByClerk(db.users, caller.value).value].id;
    if ActiveOwned(db'.subscriptions, subscriptionId.value, uid).Some? {
      assert false;
    }
  }

  /** Cancelling keeps the state's invariants. */
  lemma PostKeepsValid(db: Db, caller: Option<string>, subscriptionId: Option<Id>, now: int)
    requires Valid(db)
    ensures Valid(Post(db, caller, subscriptionId, now).db)
  {
    var s := Post(db, caller, subscriptionId, now);
    if s.reply.Success? {
      var u := db.users[UserByClerk(db.users, caller.value).value];
      var k := ActiveOwned(db.subscriptions, subscriptionId.value, u.id).value;
      IdsUpdate(db.subscriptions, SubscriptionKey, db.nextId, k, s.db.subscriptions[k]);
    }
  }
}
