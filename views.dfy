/**
 * The REST endpoints of the subscriptions API over an abstract store. Purchase
 * and the listing never write; payment creation, renewal and subscription
 * creation write exactly one row when they succeed and nothing otherwise.
 * `today` stands for `timezone.now().date()` at the time of the request.
 */
module Views {
  import opened Optional
  import opened Dates
  import opened Models
  import opened Queries

  /**
   * A request body field as a view reads it: missing, an integer, or some other
   * string. An integer arrives either as a JSON number or as a string that
   * spells it (`asText`); a lookup converts the string, so both find the same
   * plan, but only the number 0 is false in Python.
   */
  datatype FieldValue = Absent | Number(n: int, asText: bool) | Text(s: string)

  /** Python's truth value of the field (`not plan_id`): the string "0" is true. */
  predicate Truthy(v: FieldValue) {
    match v
    case Absent => false
    case Number(n, asText) => asText || n != 0
    case Text(s) => s != ""
  }

  datatype PurchaseOutcome =
    | NoPlanId
    | PurchaseBlockedActive
    | PurchaseBlockedPending
    | PurchaseFailed
    | PlanSelected(planId: int)

  function PurchaseStatusCode(o: PurchaseOutcome): int {
    match o
    case PlanSelected(_) => 200
    case PurchaseFailed => 500
    case _ => 400
  }

  /**
   * `PurchaseSubscriptionView.post`: a falsy plan id is refused first; then any
   * row of the user ending today or later; then any unverified payment; only then
   * is the plan looked up, and every lookup failure, the missing plan included,
   * lands in the blanket handler as a 500.
   */
  function DecidePurchase(subs: seq<Subscription>, payments: seq<Payment>, plans: seq<Plan>,
                          user: UserId, planId: FieldValue, today: Date): (o: PurchaseOutcome)
    ensures o == NoPlanId <==> !Truthy(planId)
    ensures o == PurchaseBlockedActive <==> Truthy(planId) && HasCurrent(subs, user, today)
    ensures o == PurchaseBlockedPending <==>
              Truthy(planId) && !HasCurrent(subs, user, today) && HasUnverified(payments, user)
    ensures o.PlanSelected? <==>
              Truthy(planId) && !HasCurrent(subs, user, today) && !HasUnverified(payments, user)
              && planId.Number? && FindPlan(plans, planId.n).Some?
    ensures o.PlanSelected? ==> planId.Number? && o.planId == planId.n
  {
    if !Truthy(planId) then NoPlanId
    else if HasCurrent(subs, user, today) then PurchaseBlockedActive
    else if HasUnverified(payments, user) then PurchaseBlockedPending
    else if planId.Text? then PurchaseFailed
    else match FindPlan(plans, planId.n)
      case None => PurchaseFailed
      case Some(plan) => PlanSelected(plan.id)
  }

  /** The uploaded `payment_proof`: absent, or a file that is or is not a readable image. */
  datatype ProofFile = NoFile | Upload(isImage: bool)

  datatype PaymentOutcome =
    | NoProof
    | NoPlan
    | PendingExists
    | ActiveExists
    | PlanInvalid
    | PlanNotFound
    | ProofRejected
    | PaymentCreated(payment: Payment)

  function PaymentStatusCode(o: PaymentOutcome): int {
    match o
    case PaymentCreated(_) => 201
    case PlanNotFound => 404
    case _ => 400
  }

  /**
   * `PaymentCreateView.create`: the file, then the `plan` key, then a pending
   * payment, then a row ending today or later, then the plan lookup (a value that
   * is not a number is a 400, an unknown id a 404), and last the serializer's
   * check of the image. Success records an unverified payment of the requester.
   */
  function DecidePayment(subs: seq<Subscription>, payments: seq<Payment>, plans: seq<Plan>,
                         user: UserId, proof: ProofFile, plan: FieldValue, today: Date): (o: PaymentOutcome)
    ensures o == NoProof <==> proof == NoFile
    ensures o == NoPlan <==> proof != NoFile && plan == Absent
    ensures o == PendingExists <==> proof != NoFile && plan != Absent && HasUnverified(payments, user)
    ensures o == ActiveExists <==>
              proof != NoFile && plan != Absent && !HasUnverified(payments, user)
              && HasCurrent(subs, user, today)
    ensures o == PlanInvalid <==>
              proof != NoFile && !HasUnverified(payments, user) && !HasCurrent(subs, user, today)
              && plan.Text?
    ensures o == PlanNotFound <==>
              proof != NoFile && !HasUnverified(payments, user) && !HasCurrent(subs, user, today)
              && plan.Number? && FindPlan(plans, plan.n).None?
    ensures o == ProofRejected <==>
              proof == Upload(false) && !HasUnverified(payments, user) && !HasCurrent(subs, user, today)
              && plan.Number? && FindPlan(plans, plan.n).Some?
    ensures o.PaymentCreated? <==>
              proof == Upload(true) && !HasUnverified(payments, user) && !HasCurrent(subs, user, today)
              && plan.Number? && FindPlan(plans, plan.n).Some?
    ensures o.PaymentCreated? ==> o.payment == NewPayment(user, plan.n)
  {
    if proof == NoFile then NoProof
    else if plan == Absent then NoPlan
    else if HasUnverified(payments, user) then PendingExists
    else if HasCurrent(subs, user, today) then ActiveExists
    else if plan.Text? then PlanInvalid
    else if FindPlan(plans, plan.n).None? then PlanNotFound
    else if !proof.isImage then ProofRejected
    else PaymentCreated(NewPayment(user, plan.n))
  }

  /** The writable fields of a `UserSubscriptionSerializer` request. */
  datatype SubscriptionRequest = SubscriptionRequest(
    user: UserId,
    planId: int,
    startDate: Option<Date>,
    endDate: Option<Date>,
    status: Option<Status>)

  datatype CreateOutcome = UnknownPlan | AlreadySubscribed | Created(sub: Subscription)

  function CreateStatusCode(o: CreateOutcome): int {
    if o.Created? then 201 else 400
  }

  /** `UserSubscriptionListCreate.perform_create`, after the serializer resolved the plan. */
  function DecideCreate(subs: seq<Subscription>, plans: seq<Plan>, req: SubscriptionRequest,
                        today: Date): (o: CreateOutcome)
    ensures o == UnknownPlan <==> FindPlan(plans, req.planId).None?
    ensures o == AlreadySubscribed <==>
              FindPlan(plans, req.planId).Some? && HasCurrent(subs, req.user, today)
    ensures o.Created? ==>
              o.sub.user == req.user && o.sub.plan in plans && o.sub.plan.id == req.planId
              && o.sub.plan == FindPlan(plans, req.planId).value
              && o.sub.startDate == req.startDate
              && o.sub.status == (if req.status.Some? then req.status.value else Active)
    ensures o.Created? && (req.endDate.Some? || req.startDate.None?) ==> o.sub.endDate == req.endDate
    ensures o.Created? && req.startDate.Some? && req.endDate.None? ==>
              o.sub.endDate == Some(AddMonths(req.startDate.value, o.sub.plan.durationMonths))
    ensures CreateStatusCode(o) == 201 <==>
              FindPlan(plans, req.planId).Some? && !HasCurrent(subs, req.user, today)
  {
    match FindPlan(plans, req.planId)
    case None => UnknownPlan
    case Some(plan) =>
      if HasCurrent(subs, req.user, today) then AlreadySubscribed
      else
        var status := if req.status.Some? then req.status.value else Active;
        Created(Saved(Subscription(req.user, plan, req.startDate, req.endDate, status)))
  }

  datatype RenewOutcome = NothingToRenew | Renewed(sub: Subscription)

  function RenewStatusCode(o: RenewOutcome): int {
    if o.Renewed? then 201 else 400
  }

  /** The database: every plan, subscription and payment row, in insertion order. */
  class Store {
    var plans: seq<Plan>
    var subscriptions: seq<Subscription>
    var payments: seq<Payment>

    /** Every subscription refers to a plan of the catalogue, and so does every payment that names one. */
    ghost predicate Valid()
      reads this
    {
      && (forall i :: 0 <= i < |subscriptions| ==> subscriptions[i].plan in plans)
      && (forall i :: 0 <= i < |payments| && payments[i].plan.Some? ==>
            FindPlan(plans, payments[i].plan.value).Some?)
    }

    constructor (plans: seq<Plan>)
      ensures Valid()
      ensures this.plans == plans && subscriptions == [] && payments == []
    {
      this.plans := plans;
      subscriptions := [];
      payments := [];
    }

    /** `UserSubscription.save`: derive the end date, then insert the row. */
    method SaveSubscription(s: Subscription)
      requires Valid() && s.plan in plans
      modifies this
      ensures Valid()
      ensures subscriptions == old(subscriptions) + [Saved(s)]
      ensures plans == old(plans) && payments == old(payments)
    {
      subscriptions := subscriptions + [Saved(s)];
    }

    /** `PurchaseSubscriptionView.post`: answers, and writes nothing whatever the answer. */
    method Purchase(user: UserId, planId: FieldValue, today: Date) returns (o: PurchaseOutcome)
      ensures o == DecidePurchase(subscriptions, payments, plans, user, planId, today)
    {
      o := DecidePurchase(subscriptions, payments, plans, user, planId, today);
    }

    /** `PaymentCreateView.create` and its `perform_create`. */
    method CreatePayment(user: UserId, proof: ProofFile, plan: FieldValue, today: Date)
      returns (o: PaymentOutcome)
      requires Valid()
      modifies this
      ensures Valid()
      ensures o == DecidePayment(old(subscriptions), old(payments), old(plans), user, proof, plan, today)
      ensures payments == if o.PaymentCreated? then old(payments) + [o.payment] else old(payments)
      ensures plans == old(plans) && subscriptions == old(subscriptions)
      ensures o.PaymentCreated? ==> CountUnverified(payments, user) == 1
    {
      o := DecidePayment(subscriptions, payments, plans, user, proof, plan, today);
      if o.PaymentCreated? {
        CountUnverifiedAppend(payments, o.payment, user);
        payments := payments + [o.payment];
      }
    }

    /**
     * `RenewSubscriptionView.post`: copies the plan of the user's row with the
     * latest end date into a new row starting today. Nothing checks whether the
     * user already holds an active subscription.
     */
    method Renew(user: UserId, today: Date) returns (o: RenewOutcome)
      requires Valid()
      modifies this
      ensures Valid()
      ensures o == NothingToRenew <==> forall i :: 0 <= i < |old(subscriptions)| ==> old(subscriptions)[i].user != user
      ensures RenewStatusCode(o) == 400 <==> forall i :: 0 <= i < |old(subscriptions)| ==> old(subscriptions)[i].user != user
      ensures o.Renewed? ==>
                && LatestOf(old(subscriptions), user).Some?
                && o.sub == Saved(NewSubscription(user, old(subscriptions)[LatestOf(old(subscriptions), user).value].plan, today))
      ensures subscriptions == if o.Renewed? then old(subscriptions) + [o.sub] else old(subscriptions)
      ensures plans == old(plans) && payments == old(payments)
    {
      var latest := LatestOf(subscriptions, user);
      if latest.None? {
        return NothingToRenew;
      }
      var renewal := NewSubscription(user, subscriptions[latest.value].plan, today);
      SaveSubscription(renewal);
      o := Renewed(Saved(renewal));
    }

    /** `UserSubscriptionListCreate` on POST. */
    method CreateSubscription(req: SubscriptionRequest, today: Date) returns (o: CreateOutcome)
      requires Valid()
      modifies this
      ensures Valid()
      ensures o == DecideCreate(old(subscriptions), old(plans), req, today)
      ensures subscriptions == if o.Created? then old(subscriptions) + [o.sub] else old(subscriptions)
      ensures plans == old(plans) && payments == old(payments)
    {
      o := DecideCreate(subscriptions, plans, req, today);
      if o.Created? {
        subscriptions := subscriptions + [o.sub];
      }
    }

    /**
     * `UserSubscriptions.get`: exactly the user's rows, latest start first. Rows
     * without a start date may come anywhere, as the database decides.
     */
    method ListSubscriptions(user: UserId) returns (r: seq<Subscription>)
      ensures multiset(r) == multiset(OwnedBy(subscriptions, user))
      ensures forall s :: multiset(r)[s] == if s.user == user then multiset(subscriptions)[s] else 0
      ensures forall s :: s in r <==> s in subscriptions && s.user == user
      ensures forall i, j :: 0 <= i < j < |r| && r[i].startDate.Some? && r[j].startDate.Some? ==>
                NotAfter(r[j].startDate.value, r[i].startDate.value)
    {
      r := SortByStartDesc(OwnedBy(subscriptions, user));
      forall s ensures s in r <==> s in OwnedBy(subscriptions, user) {
        assert s in r <==> s in multiset(r);
      }
    }
  }

  /**
   * The purchase guard reads "active" as "ends today or later", whatever the
   * status: a PENDING or CANCELED row with a future end date, which `is_active`
   * calls inactive, still blocks a purchase.
   */
  lemma {:induction false} PurchaseBlockedByInactiveRow(subs: seq<Subscription>, payments: seq<Payment>,
                                    plans: seq<Plan>, k: nat, planId: FieldValue, today: Date)
    requires k < |subs| && Truthy(planId)
    requires subs[k].status != Active && EndsOnOrAfter(subs[k], today)
    ensures !IsActive(subs[k], today)
    ensures DecidePurchase(subs, payments, plans, subs[k].user, planId, today) == PurchaseBlockedActive
  {
    OnlyActiveStatusIsActive(subs[k], today);
  }

  /** A user whose one row is a pending subscription has nothing active, yet cannot purchase. */
  lemma PendingRowBlocksPurchase(user: UserId, plan: Plan, today: Date)
    ensures var subs := [Subscription(user, plan, Some(today), Some(today), Pending)];
            && !IsActive(subs[0], today)
            && DecidePurchase(subs, [], [plan], user, Number(1, false), today) == PurchaseBlockedActive
  {
    var subs := [Subscription(user, plan, Some(today), Some(today), Pending)];
    assert EndsOnOrAfter(subs[0], today);
  }

  /**
   * An unknown plan id makes the purchase answer 500, not 404, while the same id
   * sent with a payment proof is answered 404. The string "0" is such an id: it
   * passes the purchase's truth test, which the number 0 does not.
   */
  lemma {:induction false} UnknownPlanStatusCodes(subs: seq<Subscription>, payments: seq<Payment>,
                                                  plans: seq<Plan>, user: UserId, id: int, asText: bool,
                                                  today: Date)
    requires id != 0 || asText
    requires forall i :: 0 <= i < |plans| ==> plans[i].id != id
    requires !HasCurrent(subs, user, today) && !HasUnverified(payments, user)
    ensures PurchaseStatusCode(DecidePurchase(subs, payments, plans, user, Number(id, asText), today)) == 500
    ensures PaymentStatusCode(DecidePayment(subs, payments, plans, user, Upload(true), Number(id, asText), today))
            == 404
  {
    var o := DecidePurchase(subs, payments, plans, user, Number(id, asText), today);
    assert o == PurchaseFailed;
  }

  /**
   * The number 0 is refused as a missing plan id (400), while the string "0"
   * reaches the lookup and, with no plan 0, is answered 500.
   */
  lemma ZeroPlanIdNumberOrString(subs: seq<Subscription>, payments: seq<Payment>, plans: seq<Plan>,
                                 user: UserId, today: Date)
    requires forall i :: 0 <= i < |plans| ==> plans[i].id != 0
    requires !HasCurrent(subs, user, today) && !HasUnverified(payments, user)
    ensures DecidePurchase(subs, payments, plans, user, Number(0, false), today) == NoPlanId
    ensures DecidePurchase(subs, payments, plans, user, Number(0, true), today) == PurchaseFailed
  {
  }

  /**
   * With both a current row and an unverified payment, purchase reports the
   * subscription and payment creation reports the payment: the two endpoints run
   * these two checks in opposite orders.
   */
  lemma {:induction false} GuardOrdersDiffer(subs: seq<Subscription>, payments: seq<Payment>, plans: seq<Plan>,
                                             user: UserId, proof: ProofFile, plan: FieldValue, today: Date)
    requires Truthy(plan) && proof != NoFile
    requires HasCurrent(subs, user, today) && HasUnverified(payments, user)
    ensures DecidePurchase(subs, payments, plans, user, plan, today) == PurchaseBlockedActive
    ensures DecidePayment(subs, payments, plans, user, proof, plan, today) == PendingExists
  {
    assert plan != Absent;
  }

  /**
   * A successful purchase answer never lets a payment through that the payment
   * endpoint would refuse for a pending payment or a current row: the two agree
   * whenever the plan exists and the proof is a valid image.
   */
  lemma {:induction false} PurchaseThenPaymentAgree(subs: seq<Subscription>, payments: seq<Payment>,
                                                    plans: seq<Plan>, user: UserId, id: int, asText: bool,
                                                    today: Date)
    requires DecidePurchase(subs, payments, plans, user, Number(id, asText), today).PlanSelected?
    ensures DecidePayment(subs, payments, plans, user, Upload(true), Number(id, asText), today)
            == PaymentCreated(NewPayment(user, id))
  {
    var o := DecidePurchase(subs, payments, plans, user, Number(id, asText), today);
    assert !HasCurrent(subs, user, today) && !HasUnverified(payments, user);
  }
}
