/** POST /api/stripe/webhook: the payment provider's event callback. A
    completed checkout records a subscription and a payment; every other
    event is acknowledged without a write. */
module StripeWebhookRoute {
  import opened Common
  import opened Model

  /** The verified event. Metadata values that are absent or empty are None;
      `amountTotal` is the session total in cents (None when null). */
  datatype Event =
    | CheckoutCompleted(userId: Option<Id>, planId: Option<Id>, amountTotal: Option<int>)
    | SubscriptionDeleted
    | OtherEvent(kind: string)

  /** `session.amount_total! / 100`: cents to currency units; a null total
      divides as 0. */
  function AmountOf(amountTotal: Option<int>): (r: real)
    ensures amountTotal.Some? ==> r * 100.0 == amountTotal.value as real
    ensures amountTotal.None? ==> r == 0.0
  {
    if amountTotal.Some? then amountTotal.value as real / 100.0 else 0.0
  }

  /** The handler. `signatureOk` is the outcome of the signature check;
      `now` is the clock and `monthLater` the same instant one calendar
      month on. */
  function Post(db: Db, signatureOk: bool, event: Event, now: int, monthLater: int): (s: Step<Ack>)
    ensures s.reply.Failure? ==> s.db == db && s.reply.code == 400
    ensures s.reply.Success? ==> s.reply == Success(200, Ack)
  {
    if !signatureOk then Step(db, Fail(400))
    else match event
      case CheckoutCompleted(userId, planId, amountTotal) =>
        if userId.None? || planId.None? then Step(db, Fail(400))
        else
          var sub := Subscription(db.nextId, userId.value, planId.value, now, monthLater, ACTIVE);
          var pay := Payment(db.nextId + 1, planId.value, AmountOf(amountTotal), now, "stripe", "COMPLETED");
          Step(db.(subscriptions := db.subscriptions + [sub], payments := db.payments + [pay],
                   nextId := db.nextId + 2),
               Success(200, Ack))
      case _ => Step(db, Success(200, Ack))
  }

  /** A bad signature, or a completed checkout missing the user or plan
      metadata, is refused with 400 and writes nothing; any other event is
      acknowledged and writes nothing. */
  lemma PostNoWrite(db: Db, signatureOk: bool, event: Event, now: int, monthLater: int)
    ensures !signatureOk ==> Post(db, signatureOk, event, now, monthLater) == Step(db, Fail(400))
    ensures (signatureOk && event.CheckoutCompleted? && (event.userId.None? || event.planId.None?)) ==>
      Post(db, signatureOk, event, now, monthLater) == Step(db, Fail(400))
    ensures (signatureOk && !event.CheckoutCompleted?) ==>
      Post(db, signatureOk, event, now, monthLater) == Step(db, Success(200, Ack))
  {
  }

  /** A valid completed checkout appends exactly one ACTIVE subscription for
      the user and plan, running from now to a month later, and exactly one
      COMPLETED payment whose subscription field holds the plan id and whose
      amount is the total in currency units. Nothing else changes. */
  lemma CheckoutRecords(db: Db, user: Id, plan: Id, amountTotal: Option<int>, now: int, monthLater: int)
    ensures var s := Post(db, true, CheckoutCompleted(Some(user), Some(plan), amountTotal), now, monthLater);
      && s.reply == Success(200, Ack)
      && |s.db.subscriptions| == |db.subscriptions| + 1 && s.db.subscriptions[..|db.subscriptions|] == db.subscriptions
      && |s.db.payments| == |db.payments| + 1 && s.db.payments[..|db.payments|] == db.payments
      && var sub := s.db.subscriptions[|db.subscriptions|];
      && var pay := s.db.payments[|db.payments|];
      && sub.userId == user && sub.planId == plan && sub.status == ACTIVE
      && sub.startDate == now && sub.endDate == monthLater
      && pay.subscriptionId == plan && pay.status == "COMPLETED" && pay.payMethod == "stripe"
      && pay.paidAt == now && (amountTotal.Some? ==> pay.amount * 100.0 == amountTotal.value as real)
      && s.db.(subscriptions := db.subscriptions, payments := db.payments, nextId := db.nextId) == db
  {
  }

  /** There is no duplicate check: delivering the same completed checkout
      twice records two subscriptions and two payments. */
  lemma ReplayRecordsTwice(db: Db, user: Id, plan: Id, amountTotal: Option<int>, now: int, monthLater: int)
    ensures var e := CheckoutCompleted(Some(user), Some(plan), amountTotal);
      var db2 := Post(Post(db, true, e, now, monthLater).db, true, e, now, monthLater).db;
      && |db2.subscriptions| == |db.subscriptions| + 2
      && |db2.payments| == |db.payments| + 2
      && db2.subscriptions[|db.subscriptions|].id != db2.subscriptions[|db.subscriptions| + 1].id
  {
  }

  /** Every event keeps the state's invariants. */
  lemma PostKeepsValid(db: Db, signatureOk: bool, event: Event, now: int, monthLater: int)
    requires Valid(db)
    ensures Valid(Post(db, signatureOk, event, now, monthLater).db)
  {
    var s := Post(db, signatureOk, event, now, monthLater);
    if s.db != db {
      var sub := s.db.subscriptions[|db.subscriptions|];
      var pay := s.db.payments[|db.payments|];
      IdsFreshGrow(db, db.nextId + 2);
      IdsAppend(db.subscriptions, SubscriptionKey, db.nextId, sub);
      IdsGrow(db.subscriptions + [sub], SubscriptionKey, db.nextId + 1, db.nextId + 2);
      IdsGrow(db.payments, PaymentKey, db.nextId, db.nextId + 1);
      IdsAppend(db.payments, PaymentKey, db.nextId + 1, pay);
    }
  }
}
