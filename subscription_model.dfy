/** The billing documents (src/models/Subscription.js): subscription plans, subscriptions with
    their charge history, and the payment ledger. */
module SubscriptionModel {
  import opened Common

  // ------------------------------------------------------------------ plans

  datatype BillingCycle = Monthly | Quarterly | Yearly

  datatype PlanFeatures = PlanFeatures(
    maxHackathons: int,
    maxTeamMembers: int,
    canCreateHackathons: bool,
    canInviteJudges: bool,
    analytics: bool,
    customBranding: bool,
    prioritySupport: bool,
    removeWatermark: bool)

  /** A plan. `name` and `razorpayPlanId` carry unique indexes. */
  datatype SubscriptionPlan = SubscriptionPlan(
    name: string,
    displayName: string,
    description: Option<string>,
    amount: real,
    currency: string,
    billingCycle: BillingCycle,
    razorpayPlanId: string,
    features: PlanFeatures,
    isActive: bool,
    sortOrder: int)

  /** The number of months one billing cycle covers. */
  function MonthsPerCycle(c: BillingCycle): (n: nat)
    ensures n >= 1
  {
    match c
    case Monthly => 1
    case Quarterly => 3
    case Yearly => 12
  }

  /** `getPricePerMonth`. The `default` branch of the source's switch returns the full amount;
      the schema's enum admits no other cycle, so that branch has no counterpart here. The
      monthly price spread over a whole cycle gives back the cycle's price, and a non-negative
      price stays non-negative and never exceeds the cycle's price. */
  function PricePerMonth(p: SubscriptionPlan): (r: real)
    ensures r * (MonthsPerCycle(p.billingCycle) as real) == p.amount
    ensures p.amount >= 0.0 ==> 0.0 <= r <= p.amount
  {
    match p.billingCycle
    case Monthly => p.amount
    case Quarterly => p.amount / 3.0
    case Yearly => p.amount / 12.0
  }

  // ---------------------------------------------------------- subscriptions

  /** The eight states a subscription can be in. */
  datatype SubscriptionStatus =
    Created | Authenticated | SubscriptionActive | Paused | Halted | SubscriptionCancelled | Completed | Expired

  /** The schema default of `status`. */
  const DefaultSubscriptionStatus: SubscriptionStatus := Created

  datatype ChargeStatus = ChargeAuthorized | ChargeCaptured | ChargeFailed | ChargeRefunded

  /** One entry of a subscription's `payments` history. */
  datatype Charge = Charge(
    razorpayPaymentId: string,
    amount: real,
    currency: string,
    status: ChargeStatus,
    paidAt: Time)

  /** A subscription; `plan` is the index of its plan, `razorpaySubscriptionId` is unique. */
  datatype Subscription = Subscription(
    user: UserId,
    plan: nat,
    status: SubscriptionStatus,
    razorpaySubscriptionId: string,
    razorpayCustomerId: string,
    razorpayPlanId: string,
    currentPeriodStart: Time,
    currentPeriodEnd: Time,
    startedAt: Option<Time>,
    cancelledAt: Option<Time>,
    paidCount: int,
    totalCount: int,
    payments: seq<Charge>)

  /** A subscription record as `create` completes it: no charges yet and `paidCount` at its default 0. */
  function NewSubscription(user: UserId, plan: nat, status: SubscriptionStatus, gatewayId: string,
                           customerId: string, planGatewayId: string, start: Time, end: Time,
                           totalCount: int): (s: Subscription)
    ensures s.paidCount == 0 && s.payments == [] && s.startedAt == None && s.cancelledAt == None
    ensures s.user == user && s.plan == plan && s.status == status && s.razorpaySubscriptionId == gatewayId
    ensures s.totalCount == totalCount
  {
    Subscription(user, plan, status, gatewayId, customerId, planGatewayId, start, end, None, None, 0, totalCount, [])
  }

  /** `isActive`. */
  predicate IsActive(s: Subscription)
  {
    s.status == SubscriptionActive
  }

  /** `cancel`: the status becomes cancelled and `cancelledAt` is stamped; nothing else moves. */
  function Cancel(s: Subscription, now: Time): (r: Subscription)
    ensures r.status == SubscriptionCancelled && !IsActive(r)
    ensures r.cancelledAt == Some(now)
    ensures r.(status := s.status, cancelledAt := s.cancelledAt) == s
  {
    s.(status := SubscriptionCancelled, cancelledAt := Some(now))
  }

  // ---------------------------------------------------------------- payments

  datatype PaymentKind = HackathonRegistration | SubscriptionPayment | Upgrade | OtherPayment

  datatype PaymentStatus = PaymentCreated | PaymentAuthorized | PaymentCaptured | PaymentRefundPending
                         | PaymentRefunded | PaymentFailedStatus

  /** The schema default of a payment's `status`. */
  const DefaultPaymentStatus: PaymentStatus := PaymentCreated

  /** A row of the payment ledger. */
  datatype Payment = Payment(
    user: UserId,
    kind: PaymentKind,
    hackathon: Option<HackathonId>,
    team: Option<TeamId>,
    amount: real,
    currency: string,
    status: PaymentStatus,
    razorpayOrderId: Option<string>,
    razorpayPaymentId: Option<string>,
    razorpaySignature: Option<string>,
    failureReason: Option<string>)

  // ------------------------------------------------------------ minor units

  /** The gateway counts in the currency's minor unit: the service multiplies by 100 on the
      way out and the charged webhook divides by 100 on the way in. */
  function ToMinorUnits(amount: real): real
  {
    amount * 100.0
  }

  function FromMinorUnits(minor: real): real
  {
    minor / 100.0
  }

  /** The two conversions undo each other. */
  lemma MinorUnitsRoundTrip(amount: real, minor: real)
    ensures FromMinorUnits(ToMinorUnits(amount)) == amount
    ensures ToMinorUnits(FromMinorUnits(minor)) == minor
  {
  }
}
