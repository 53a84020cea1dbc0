/**
 * The three stored entities of the subscriptions app: a plan in the catalogue, a
 * user's subscription to a plan, and a payment awaiting manual verification.
 */
module Models {
  import opened Optional
  import opened Dates

  type UserId = nat

  /** A catalogue entry. Its price is shown but never computed on, so it is not kept. */
  datatype Plan = Plan(id: int, name: string, durationMonths: int, active: bool)

  datatype Status = Pending | Active | Expired | Canceled

  datatype Subscription = Subscription(
    user: UserId,
    plan: Plan,
    startDate: Option<Date>,
    endDate: Option<Date>,
    status: Status)

  /** `plan` is the id of the plan paid for; `subscription` links to the subscription it verified. */
  datatype Payment = Payment(
    user: UserId,
    plan: Option<int>,
    subscription: Option<nat>,
    isVerified: bool)

  /**
   * A subscription built from a user, a plan and a start date alone, as the renewal
   * paths build one: every other field takes its declared default.
   */
  function NewSubscription(user: UserId, plan: Plan, start: Date): (s: Subscription)
    ensures s.status == Active
    ensures s.user == user && s.plan == plan && s.startDate == Some(start)
    ensures s.endDate == None
  {
    Subscription(user, plan, Some(start), None, Active)
  }

  /** A payment as first recorded: not yet verified and linked to no subscription. */
  function NewPayment(user: UserId, plan: int): (p: Payment)
    ensures !p.isVerified && p.subscription == None
    ensures p.user == user && p.plan == Some(plan)
  {
    Payment(user, Some(plan), None, false)
  }

  /** The `is_active` property: the status says ACTIVE and the end date is today or later. */
  predicate IsActive(s: Subscription, today: Date) {
    s.status == Active && s.endDate.Some? && NotAfter(today, s.endDate.value)
  }

  /** Only an ACTIVE subscription can be active, however far off its end date is. */
  lemma {:induction false} OnlyActiveStatusIsActive(s: Subscription, today: Date)
    ensures s.status != Active ==> !IsActive(s, today)
    ensures s.endDate.None? ==> !IsActive(s, today)
    ensures s.status == Active && s.endDate.Some? ==>
              (IsActive(s, today) <==> !Before(s.endDate.value, today))
  {
    if s.status == Active && s.endDate.Some? {
      NotAfterTotal(today, s.endDate.value);
    }
  }

  /**
   * What `save` writes: when a start date is set and no end date is, the end date
   * becomes the start date plus the plan's duration in calendar months; otherwise
   * the record is written as it is.
   */
  function Saved(s: Subscription): (r: Subscription)
    ensures r.user == s.user && r.plan == s.plan && r.startDate == s.startDate && r.status == s.status
    ensures s.endDate.Some? ==> r == s
    ensures s.startDate.None? ==> r == s
    ensures s.startDate.Some? && s.endDate.None? ==>
              r.endDate == Some(AddMonths(s.startDate.value, s.plan.durationMonths))
  {
    if s.startDate.Some? && s.endDate.None? then
      s.(endDate := Some(AddMonths(s.startDate.value, s.plan.durationMonths)))
    else
      s
  }

  /** Saving twice writes the same record as saving once. */
  lemma SaveIdempotent(s: Subscription)
    ensures Saved(Saved(s)) == Saved(s)
  {
  }

  /** A derived end date never precedes the start date when the duration is not negative. */
  lemma SavedEndNotBeforeStart(s: Subscription)
    requires s.startDate.Some? && s.endDate.None? && s.plan.durationMonths >= 0
    ensures Saved(s).endDate.Some?
    ensures NotAfter(s.startDate.value, Saved(s).endDate.value)
  {
    AddMonthsNotBefore(s.startDate.value, s.plan.durationMonths);
  }

  /**
   * A subscription started today on a plan of no negative duration is active
   * when saved; with a duration of zero months it ends today and still is.
   */
  lemma {:induction false} FreshSubscriptionIsActive(user: UserId, plan: Plan, today: Date)
    requires plan.durationMonths >= 0
    ensures IsActive(Saved(NewSubscription(user, plan, today)), today)
  {
    AddMonthsNotBefore(today, plan.durationMonths);
  }
}
