/** The payment handlers of src/controllers/payment.controller.js: hackathon registration orders
    and their verification, subscription plans, subscribing and cancelling, and the gateway's
    webhooks. Gateway calls are parameters: `None` is a failed call, `Some(x)` a successful one
    returning `x`; signature checks are booleans computed outside the model. */
module PaymentController {
  import opened Common
  import opened TeamModel
  import opened UserModel
  import opened SubscriptionModel
  import opened HackathonRecord
  import opened DocumentStore

  // ------------------------------------------------------- billing cycles

  /** The billing-cycle names of the plan schema's enum. */
  function CycleName(c: BillingCycle): string
  {
    match c
    case Monthly => "monthly"
    case Quarterly => "quarterly"
    case Yearly => "yearly"
  }

  /** The plan schema's enum validation of a cycle name. */
  function ParseCycle(s: string): (r: Option<BillingCycle>)
    ensures r.Some? ==> CycleName(r.value) == s
    ensures r.None? ==> s != "monthly" && s != "quarterly" && s != "yearly"
  {
    if s == "monthly" then Some(Monthly)
    else if s == "quarterly" then Some(Quarterly)
    else if s == "yearly" then Some(Yearly)
    else None
  }

  /** Every cycle name parses back to its cycle. */
  lemma CycleNameRoundTrip(c: BillingCycle)
    ensures ParseCycle(CycleName(c)) == Some(c)
  {
  }

  /** The gateway's billing periods. */
  datatype Period = PeriodMonthly | PeriodYearly

  function PeriodMonths(p: Period): nat
  {
    match p
    case PeriodMonthly => 1
    case PeriodYearly => 12
  }

  /** The (period, interval) pair `createSubscriptionPlan` sends to the gateway: monthly is every
      month, quarterly every three months, and any other name every year. */
  function PlanPeriod(cycle: string): (r: (Period, nat))
    ensures cycle == "monthly" ==> r == (PeriodMonthly, 1)
    ensures cycle == "quarterly" ==> r == (PeriodMonthly, 3)
    ensures cycle != "monthly" && cycle != "quarterly" ==> r == (PeriodYearly, 1)
  {
    (if cycle == "monthly" || cycle == "quarterly" then PeriodMonthly else PeriodYearly,
     if cycle == "quarterly" then 3 else 1)
  }

  /** For every cycle of the enum, one gateway billing spans exactly the cycle. */
  lemma PlanPeriodSpansCycle(c: BillingCycle)
    ensures var (p, n) := PlanPeriod(CycleName(c)); n * PeriodMonths(p) == MonthsPerCycle(c)
  {
  }

  /** The number of billings `subscribe` asks for: 12 monthly, 4 quarterly, otherwise 1. */
  function TotalCount(c: BillingCycle): (n: nat)
    ensures c == Monthly ==> n == 12
    ensures c == Quarterly ==> n == 4
    ensures c == Yearly ==> n == 1
  {
    match c
    case Monthly => 12
    case Quarterly => 4
    case Yearly => 1
  }

  /** Whatever the cycle, the billings of one subscription cover one year. */
  lemma SubscriptionCoversOneYear(c: BillingCycle)
    ensures TotalCount(c) * MonthsPerCycle(c) == 12
  {
  }

  // -------------------------------------------------- user status snapshot

  /** The user snapshot's status for a subscription status, when its four-value enum has one. */
  function SnapshotStatus(s: SubscriptionStatus): (r: Option<PlanStatus>)
    ensures r.Some? <==> s == SubscriptionActive || s == SubscriptionCancelled || s == Expired
    ensures s == SubscriptionActive ==> r == Some(PlanActive)
    ensures s == SubscriptionCancelled ==> r == Some(PlanCancelled)
  {
    match s
    case SubscriptionActive => Some(PlanActive)
    case SubscriptionCancelled => Some(PlanCancelled)
    case Expired => Some(PlanExpired)
    case _ => None
  }

  /** The two statuses `subscribe` and the paused webhook write into the user snapshot have no
      value there, so those saves fail validation. */
  lemma CreatedAndPausedHaveNoSnapshot()
    ensures SnapshotStatus(Created) == None && SnapshotStatus(Paused) == None
  {
  }

  /** The user with a new snapshot status. */
  function WithPlanStatus(u: User, s: PlanStatus): (v: User)
    ensures v.subscription.status == s
    ensures v.(subscription := u.subscription) == u && v.subscription.(status := u.subscription.status) == u.subscription
  {
    u.(subscription := u.subscription.(status := s))
  }

  // ------------------------------------------------- hackathon registration

  /** `createHackathonOrder`: an active member of an unpaid team opens a gateway order
      (`order` is its id, `None` a failed call). The ledger gets a `created` payment and the team
      remembers the order. The ledger position of the payment is returned. */
  method CreateHackathonOrder(db: Db, caller: UserId, teamId: TeamId, order: Option<string>)
    returns (r: Outcome<nat>)
    requires db.Valid() && caller in db.users
    modifies db
    ensures db.Valid()
    ensures r.Err? ==> db.State() == old(db.State())
    ensures teamId >= |old(db.teams)| ==> r == Err(NotFound)
    ensures teamId < |old(db.teams)| ==>
              var t := old(db.teams[teamId]);
              if !IsMember(t, caller) then r == Err(Forbidden)
              else if t.payment.status == PaymentCompleted then r == Err(BadRequest)
              else if t.hackathon !in old(db.hackathons) || order.None? then r == Err(ServerError)
              else
                r == Ok(|old(db.payments)|) &&
                db.State() == old(db.State()).(
                  payments := old(db.payments) + [Payment(caller, HackathonRegistration, Some(t.hackathon), Some(teamId),
                                                          t.payment.amount, t.payment.currency, PaymentCreated,
                                                          Some(order.value), None, None, None)],
                  teams := old(db.teams)[teamId := Saved(t.(payment := t.payment.(orderId := Some(order.value))))])
  {
    if teamId >= |db.teams| {
      return Err(NotFound);
    }
    var t := db.teams[teamId];
    if !IsMember(t, caller) {
      return Err(Forbidden);
    }
    if t.payment.status == PaymentCompleted {
      return Err(BadRequest);
    }
    // The receipt reads the populated hackathon's id; a dangling reference throws.
    if t.hackathon !in db.hackathons {
      return Err(ServerError);
    }
    if order.None? {
      return Err(ServerError);
    }
    r := Ok(|db.payments|);
    db.payments := db.payments + [Payment(caller, HackathonRegistration, Some(t.hackathon), Some(teamId),
                                          t.payment.amount, t.payment.currency, PaymentCreated,
                                          Some(order.value), None, None, None)];
    db.SaveTeam(teamId, t.(payment := t.payment.(orderId := Some(order.value))));
  }

  /** The team after a verified payment: paid by the caller now, and approved now if the
      hackathon accepts teams automatically and the team was pending. */
  function PaidTeam(t: Team, autoAccept: bool, paymentId: string, signature: string, caller: UserId, now: Time): (r: Team)
    ensures r.payment == t.payment.(status := PaymentCompleted, paymentId := Some(paymentId),
                                    signature := Some(signature), paidAt := Some(now), paidBy := Some(caller))
    ensures autoAccept && t.registrationStatus == Pending ==> r.registrationStatus == Approved && r.approvedAt == Some(now)
    ensures !(autoAccept && t.registrationStatus == Pending) ==>
              r.registrationStatus == t.registrationStatus && r.approvedAt == t.approvedAt
    ensures r.(payment := t.payment, registrationStatus := t.registrationStatus, approvedAt := t.approvedAt) == t
  {
    var paid := t.(payment := t.payment.(status := PaymentCompleted, paymentId := Some(paymentId),
                                         signature := Some(signature), paidAt := Some(now), paidBy := Some(caller)));
    if autoAccept && t.registrationStatus == Pending then paid.(registrationStatus := Approved, approvedAt := Some(now))
    else paid
  }

  /** The first ledger payment carrying the order id. */
  function PaymentForOrder(ps: seq<Payment>, order: string): Option<nat>
  {
    FindIndex(ps, (p: Payment) => p.razorpayOrderId == Some(order))
  }

  /** The first ledger payment carrying the gateway payment id. */
  function PaymentForGatewayId(ps: seq<Payment>, paymentId: string): Option<nat>
  {
    FindIndex(ps, (p: Payment) => p.razorpayPaymentId == Some(paymentId))
  }

  /** The ledger after a `findOneAndUpdate` on position `i`, or unchanged when nothing matched. */
  function UpdateAt(ps: seq<Payment>, i: Option<nat>, f: Payment -> Payment): (r: seq<Payment>)
    ensures |r| == |ps|
    ensures i.Some? && i.value < |ps| ==> r == ps[i.value := f(ps[i.value])]
    ensures !(i.Some? && i.value < |ps|) ==> r == ps
  {
    if i.Some? && i.value < |ps| then ps[i.value := f(ps[i.value])] else ps
  }

  /** `verifyHackathonPayment`: a valid signature marks the team paid (and possibly approved),
      then the first ledger payment for the order becomes captured. An invalid signature is
      refused before any read or write. */
  method VerifyHackathonPayment(db: Db, caller: UserId, signatureValid: bool, teamId: TeamId, order: string,
                                paymentId: string, signature: string, now: Time)
    returns (r: Outcome<()>)
    requires db.Valid() && caller in db.users
    modifies db
    ensures db.Valid()
    ensures r.Err? ==> db.State() == old(db.State())
    ensures !signatureValid ==> r == Err(BadRequest)
    ensures signatureValid && teamId >= |old(db.teams)| ==> r == Err(NotFound)
    ensures signatureValid && teamId < |old(db.teams)| ==>
              var t := old(db.teams[teamId]);
              if t.hackathon !in old(db.hackathons) then r == Err(ServerError)
              else
                var auto := old(db.hackathons[t.hackathon]).settings.autoAcceptTeams;
                r == Ok(()) &&
                db.State() == old(db.State()).(
                  teams := old(db.teams)[teamId := Saved(PaidTeam(t, auto, paymentId, signature, caller, now))],
                  payments := UpdateAt(old(db.payments), PaymentForOrder(old(db.payments), order),
                                       (p: Payment) => p.(status := PaymentCaptured, razorpayPaymentId := Some(paymentId),
                                                          razorpaySignature := Some(signature))))
    ensures r.Ok? ==> db.teams[teamId].payment.status == PaymentCompleted
  {
    if !signatureValid {
      return Err(BadRequest);
    }
    if teamId >= |db.teams| {
      return Err(NotFound);
    }
    var t := db.teams[teamId];
    // Reading the settings of a dangling hackathon reference throws before the save.
    if t.hackathon !in db.hackathons {
      return Err(ServerError);
    }
    var auto := db.hackathons[t.hackathon].settings.autoAcceptTeams;
    db.SaveTeam(teamId, PaidTeam(t, auto, paymentId, signature, caller, now));
    db.payments := UpdateAt(db.payments, PaymentForOrder(db.payments, order),
                            (p: Payment) => p.(status := PaymentCaptured, razorpayPaymentId := Some(paymentId),
                                               razorpaySignature := Some(signature)));
    return Ok(());
  }

  // --------------------------------------------------------------- plans

  /** `createSubscriptionPlan`: the gateway plan is created first (`gatewayPlan` is its id), then
      the plan document; an empty required field (`name`, `displayName`, the gateway id; a
      `required` validator rejects the empty string), an unknown cycle name, or a taken name or
      gateway id fails there. */
  method CreateSubscriptionPlan(db: Db, name: string, displayName: string, description: Option<string>,
                                amount: real, currency: string, cycle: string, features: PlanFeatures,
                                gatewayPlan: Option<string>)
    returns (r: Outcome<nat>)
    requires db.Valid()
    modifies db
    ensures db.Valid()
    ensures r.Err? ==> r.status == ServerError && db.State() == old(db.State())
    ensures r.Ok? <==>
              gatewayPlan.Some? && ParseCycle(cycle).Some? &&
              name != "" && displayName != "" && gatewayPlan.value != "" &&
              forall i :: 0 <= i < |old(db.plans)| ==>
                old(db.plans[i]).name != name && old(db.plans[i]).razorpayPlanId != gatewayPlan.value
    ensures r.Ok? ==>
              r.value == |old(db.plans)| &&
              db.State() == old(db.State()).(plans := old(db.plans) + [
                SubscriptionPlan(name, displayName, description, amount, currency, ParseCycle(cycle).value,
                                 gatewayPlan.value, features, true, 0)])
  {
    // The gateway receives PlanPeriod(cycle); its answer is `gatewayPlan`.
    if gatewayPlan.None? {
      return Err(ServerError);
    }
    var parsed := ParseCycle(cycle);
    if parsed.None? || name == "" || displayName == "" || gatewayPlan.value == "" {
      return Err(ServerError);
    }
    if exists i :: 0 <= i < |db.plans| && (db.plans[i].name == name || db.plans[i].razorpayPlanId == gatewayPlan.value) {
      return Err(ServerError);
    }
    r := Ok(|db.plans|);
    db.plans := db.plans + [SubscriptionPlan(name, displayName, description, amount, currency, parsed.value,
                                             gatewayPlan.value, features, true, 0)];
  }

  // ------------------------------------------------------- subscriptions

  /** A subscription of the user counts as current for `subscribe`. */
  predicate Current(s: Subscription, u: UserId)
  {
    s.user == u && (s.status == SubscriptionActive || s.status == Authenticated || s.status == Created)
  }

  /** What the gateway answers when a subscription is created. */
  datatype GatewaySubscription = GatewaySubscription(id: string, status: SubscriptionStatus, startAt: nat, endAt: nat)

  /** The customer id `subscribe` uses: the stored one if non-empty, else a new one from the
      gateway (`None` when that call fails). */
  function CustomerFor(u: User, created: Option<string>): Option<string>
  {
    if Truthy(u.subscription.razorpayCustomerId) then u.subscription.razorpayCustomerId else created
  }

  /** `subscribe`. The subscription document is written, but the following user save always fails:
      it stores the status `created`, which the snapshot's enum lacks (CreatedAndPausedHaveNoSnapshot).
      So the handler never succeeds; what it leaves behind is the new subscription. An empty
      gateway subscription id fails the `required` validator and leaves nothing behind. */
  method Subscribe(db: Db, caller: UserId, planId: nat, createdCustomer: Option<string>,
                   gateway: Option<GatewaySubscription>)
    returns (r: Outcome<()>)
    requires db.Valid() && caller in db.users
    modifies db
    ensures db.Valid()
    ensures r.Err?
    ensures planId >= |old(db.plans)| ==> r == Err(NotFound) && db.State() == old(db.State())
    ensures planId < |old(db.plans)| && (exists id :: id in old(db.subscriptions) && Current(old(db.subscriptions[id]), caller)) ==>
              r == Err(BadRequest) && db.State() == old(db.State())
    ensures r.status == ServerError ==>
              planId < |old(db.plans)| &&
              (forall id :: id in old(db.subscriptions) ==> !Current(old(db.subscriptions[id]), caller))
    ensures r.status == ServerError && db.State() != old(db.State()) ==>
              gateway.Some? &&
              var plan := old(db.plans[planId]);
              var g := gateway.value;
              CustomerFor(old(db.users[caller]), createdCustomer).Some? && g.id != "" && g.id !in old(db.subscriptions) &&
              db.State() == old(db.State()).(subscriptions := old(db.subscriptions)[g.id :=
                NewSubscription(caller, planId, g.status, g.id, CustomerFor(old(db.users[caller]), createdCustomer).value,
                                plan.razorpayPlanId, g.startAt * 1000, g.endAt * 1000, TotalCount(plan.billingCycle))])
    ensures planId < |old(db.plans)| && (forall id :: id in old(db.subscriptions) ==> !Current(old(db.subscriptions[id]), caller)) &&
            CustomerFor(old(db.users[caller]), createdCustomer).Some? && gateway.Some? && gateway.value.id != "" &&
            gateway.value.id !in old(db.subscriptions) ==>
              db.State() != old(db.State())
    ensures planId < |old(db.plans)| && (forall id :: id in old(db.subscriptions) ==> !Current(old(db.subscriptions[id]), caller)) ==>
              r == Err(ServerError)
    ensures r.status == ServerError &&
            (CustomerFor(old(db.users[caller]), createdCustomer).None? || gateway.None? || gateway.value.id == "" ||
             gateway.value.id in old(db.subscriptions)) ==>
              db.State() == old(db.State())
  {
    if planId >= |db.plans| {
      return Err(NotFound);
    }
    var plan := db.plans[planId];
    if exists id :: id in db.subscriptions && Current(db.subscriptions[id], caller) {
      return Err(BadRequest);
    }
    var customer := CustomerFor(db.users[caller], createdCustomer);
    if customer.None? {
      return Err(ServerError);
    }
    if gateway.None? {
      return Err(ServerError);
    }
    var g := gateway.value;
    // The `required` validator and the unique index on the gateway id.
    if g.id == "" || g.id in db.subscriptions {
      return Err(ServerError);
    }
    var s := NewSubscription(caller, planId, g.status, g.id, customer.value, plan.razorpayPlanId,
                             g.startAt * 1000, g.endAt * 1000, TotalCount(plan.billingCycle));
    db.subscriptions := db.subscriptions[g.id := s];
    assert g.id in db.subscriptions && g.id !in old(db.subscriptions);
    // `req.user.save()` rejects the status `created`.
    return Err(ServerError);
  }

  /** `cancelSubscription`: some active subscription of the caller is cancelled at the gateway
      (`gatewayOk`), then locally, and the caller's snapshot becomes cancelled. */
  method CancelSubscription(db: Db, caller: UserId, gatewayOk: bool, now: Time) returns (r: Outcome<string>)
    requires db.Valid() && caller in db.users
    modifies db
    ensures db.Valid()
    ensures r.Err? ==> db.State() == old(db.State())
    ensures (forall id :: id in old(db.subscriptions) ==> !(old(db.subscriptions[id]).user == caller && IsActive(old(db.subscriptions[id])))) ==>
              r == Err(NotFound)
    ensures (exists id :: id in old(db.subscriptions) && old(db.subscriptions[id]).user == caller && IsActive(old(db.subscriptions[id]))) ==>
              if !gatewayOk then r == Err(ServerError) else r.Ok?
    ensures r.Ok? ==>
              var id := r.value;
              id in old(db.subscriptions) && old(db.subscriptions[id]).user == caller && IsActive(old(db.subscriptions[id])) &&
              db.State() == old(db.State()).(
                subscriptions := old(db.subscriptions)[id := Cancel(old(db.subscriptions[id]), now)],
                users := old(db.users)[caller := WithPlanStatus(old(db.users[caller]), PlanCancelled)])
  {
    if !exists id :: id in db.subscriptions && db.subscriptions[id].user == caller && IsActive(db.subscriptions[id]) {
      return Err(NotFound);
    }
    var id :| id in db.subscriptions && db.subscriptions[id].user == caller && IsActive(db.subscriptions[id]);
    if !gatewayOk {
      return Err(ServerError);
    }
    db.subscriptions := db.subscriptions[id := Cancel(db.subscriptions[id], now)];
    db.users := db.users[caller := WithPlanStatus(db.users[caller], PlanCancelled)];
    return Ok(id);
  }

  // -------------------------------------------------------------- webhooks

  /** The events `handleWebhook` dispatches on, with the payload fields their handlers read. */
  datatype WebhookEvent =
    | OnActivated(subscriptionId: string)
    | OnCharged(subscriptionId: string, paymentId: string, amountMinor: real, currency: string, createdAtSeconds: nat)
    | OnCancelled(subscriptionId: string)
    | OnPaused(subscriptionId: string)
    | OnResumed(subscriptionId: string)
    | OnPaymentCaptured(paymentId: string)
    | OnPaymentFailed(paymentId: string, errorDescription: Option<string>)
    | OnOther(name: string)

  /** `handleSubscriptionActivated`: the subscription becomes active now; then its user's
      snapshot; then the confirmation e-mail reads the plan, which fails for a missing plan. */
  method Activated(db: Db, id: string, now: Time) returns (r: Outcome<()>)
    requires db.Valid()
    modifies db
    ensures db.Valid()
    ensures id !in old(db.subscriptions) ==> r == Ok(()) && db.State() == old(db.State())
    ensures id in old(db.subscriptions) ==>
              var s := old(db.subscriptions[id]);
              db.subscriptions == old(db.subscriptions)[id := s.(status := SubscriptionActive, startedAt := Some(now))] &&
              if s.user !in old(db.users) then
                r == Err(ServerError) && db.State() == old(db.State()).(subscriptions := db.subscriptions)
              else
                var u := old(db.users[s.user]);
                db.State() == old(db.State()).(subscriptions := db.subscriptions, users := old(db.users)[s.user :=
                  u.(subscription := u.subscription.(status := PlanActive, startDate := Some(now)))]) &&
                r == if s.plan < |old(db.plans)| then Ok(()) else Err(ServerError)
  {
    if id !in db.subscriptions {
      return Ok(());
    }
    var s := db.subscriptions[id].(status := SubscriptionActive, startedAt := Some(now));
    db.subscriptions := db.subscriptions[id := s];
    if s.user !in db.users {
      return Err(ServerError);
    }
    var u := db.users[s.user];
    db.users := db.users[s.user := u.(subscription := u.subscription.(status := PlanActive, startDate := Some(now)))];
    if s.plan >= |db.plans| {
      return Err(ServerError);
    }
    return Ok(());
  }

  /** `handleSubscriptionCharged`: one captured charge of amount/100 is recorded and the paid
      count grows by one. */
  method Charged(db: Db, id: string, paymentId: string, amountMinor: real, currency: string, createdAtSeconds: nat)
    returns (r: Outcome<()>)
    requires db.Valid()
    modifies db
    ensures db.Valid()
    ensures r == Ok(())
    ensures id !in old(db.subscriptions) ==> db.State() == old(db.State())
    ensures id in old(db.subscriptions) ==>
              var s := old(db.subscriptions[id]);
              db.State() == old(db.State()).(subscriptions := old(db.subscriptions)[id := s.(
                payments := s.payments + [Charge(paymentId, FromMinorUnits(amountMinor), currency, ChargeCaptured,
                                                 createdAtSeconds * 1000)],
                paidCount := s.paidCount + 1)])
  {
    if id !in db.subscriptions {
      return Ok(());
    }
    var s := db.subscriptions[id];
    var c := Charge(paymentId, FromMinorUnits(amountMinor), currency, ChargeCaptured, createdAtSeconds * 1000);
    db.subscriptions := db.subscriptions[id := s.(payments := s.payments + [c], paidCount := s.paidCount + 1)];
    return Ok(());
  }

  /** `handleSubscriptionCancelled`, `handleSubscriptionResumed` and `handleSubscriptionPaused`:
      the subscription gets `next` (cancelled also stamps `cancelledAt`), then its user's snapshot
      gets the matching status. The paused status has none, so that save always fails. */
  method StatusChanged(db: Db, id: string, next: SubscriptionStatus, now: Time) returns (r: Outcome<()>)
    requires next == SubscriptionCancelled || next == SubscriptionActive || next == Paused
    requires db.Valid()
    modifies db
    ensures db.Valid()
    ensures id !in old(db.subscriptions) ==> r == Ok(()) && db.State() == old(db.State())
    ensures id in old(db.subscriptions) ==>
              var s := old(db.subscriptions[id]);
              var s' := if next == SubscriptionCancelled then Cancel(s, now) else s.(status := next);
              db.subscriptions == old(db.subscriptions)[id := s'] &&
              if s.user !in old(db.users) || SnapshotStatus(next).None? then
                r == Err(ServerError) && db.State() == old(db.State()).(subscriptions := db.subscriptions)
              else
                r == Ok(()) &&
                db.State() == old(db.State()).(subscriptions := db.subscriptions, users := old(db.users)[s.user :=
                  WithPlanStatus(old(db.users[s.user]), SnapshotStatus(next).value)])
  {
    if id !in db.subscriptions {
      return Ok(());
    }
    var s := db.subscriptions[id];
    var s' := if next == SubscriptionCancelled then Cancel(s, now) else s.(status := next);
    db.subscriptions := db.subscriptions[id := s'];
    if s.user !in db.users {
      return Err(ServerError);
    }
    var status := SnapshotStatus(next);
    if status.None? {
      return Err(ServerError);
    }
    db.users := db.users[s.user := WithPlanStatus(db.users[s.user], status.value)];
    return Ok(());
  }

  /** `handlePaymentCaptured` and `handlePaymentFailed`: the first ledger payment with the gateway
      payment id becomes captured, or failed with the gateway's reason; no match changes nothing. */
  method PaymentEvent(db: Db, paymentId: string, failed: bool, reason: Option<string>) returns (r: Outcome<()>)
    requires db.Valid()
    modifies db
    ensures db.Valid()
    ensures r == Ok(())
    ensures var i := PaymentForGatewayId(old(db.payments), paymentId);
      db.State() == old(db.State()).(payments :=
        if i.None? then old(db.payments)
        else if failed then old(db.payments)[i.value := old(db.payments)[i.value].(status := PaymentFailedStatus, failureReason := reason)]
        else old(db.payments)[i.value := old(db.payments)[i.value].(status := PaymentCaptured)])
  {
    var i := PaymentForGatewayId(db.payments, paymentId);
    if i.Some? {
      var p := db.payments[i.value];
      db.payments := db.payments[i.value := if failed then p.(status := PaymentFailedStatus, failureReason := reason)
                                            else p.(status := PaymentCaptured)];
    }
    return Ok(());
  }

  /** `handleWebhook`: an invalid signature is refused before any handler runs; an event the
      switch does not know is acknowledged without any change; every other event runs its
      handler, whose failure becomes a 500. */
  method HandleWebhook(db: Db, signatureValid: bool, ev: WebhookEvent, now: Time) returns (r: Outcome<()>)
    requires db.Valid()
    modifies db
    ensures db.Valid()
    ensures !signatureValid ==> r == Err(BadRequest) && db.State() == old(db.State())
    ensures signatureValid && ev.OnOther? ==> r == Ok(()) && db.State() == old(db.State())
    ensures signatureValid && (ev.OnActivated? || ev.OnCharged? || ev.OnCancelled? || ev.OnPaused? || ev.OnResumed?) &&
            ev.subscriptionId !in old(db.subscriptions) ==>
              r == Ok(()) && db.State() == old(db.State())
    ensures signatureValid && (ev.OnActivated? || ev.OnResumed?) && ev.subscriptionId in old(db.subscriptions) ==>
              ev.subscriptionId in db.subscriptions && db.subscriptions[ev.subscriptionId].status == SubscriptionActive &&
              (old(db.subscriptions[ev.subscriptionId]).user in old(db.users) ==>
                 old(db.subscriptions[ev.subscriptionId]).user in db.users && db.users[old(db.subscriptions[ev.subscriptionId]).user].subscription.status == PlanActive)
    ensures signatureValid && ev.OnCancelled? && ev.subscriptionId in old(db.subscriptions) ==>
              ev.subscriptionId in db.subscriptions &&
              db.subscriptions[ev.subscriptionId] == Cancel(old(db.subscriptions[ev.subscriptionId]), now) &&
              (old(db.subscriptions[ev.subscriptionId]).user in old(db.users) <==> r == Ok(())) &&
              (r.Ok? ==> old(db.subscriptions[ev.subscriptionId]).user in db.users && db.users[old(db.subscriptions[ev.subscriptionId]).user].subscription.status == PlanCancelled)
    ensures signatureValid && ev.OnPaused? && ev.subscriptionId in old(db.subscriptions) ==>
              r == Err(ServerError) && ev.subscriptionId in db.subscriptions &&
              db.subscriptions[ev.subscriptionId].status == Paused && db.users == old(db.users)
    ensures signatureValid && ev.OnCharged? && ev.subscriptionId in old(db.subscriptions) ==>
              r == Ok(()) && ev.subscriptionId in db.subscriptions &&
              db.subscriptions[ev.subscriptionId].paidCount == old(db.subscriptions[ev.subscriptionId]).paidCount + 1 &&
              db.subscriptions[ev.subscriptionId].payments == old(db.subscriptions[ev.subscriptionId]).payments + [
                Charge(ev.paymentId, ev.amountMinor / 100.0, ev.currency, ChargeCaptured, ev.createdAtSeconds * 1000)]
    ensures signatureValid && (ev.OnPaymentCaptured? || ev.OnPaymentFailed?) ==>
              r == Ok(()) && |db.payments| == |old(db.payments)| &&
              var i := PaymentForGatewayId(old(db.payments), ev.paymentId);
              (i.None? ==> db.State() == old(db.State())) &&
              (i.Some? ==> db.payments[i.value].status == (if ev.OnPaymentFailed? then PaymentFailedStatus else PaymentCaptured))
    // What no event touches, and what each kind of event leaves alone.
    ensures db.teams == old(db.teams) && db.joinRequests == old(db.joinRequests) && db.hackathons == old(db.hackathons) &&
            db.nextHackathonId == old(db.nextHackathonId) && db.plans == old(db.plans)
    ensures !(ev.OnPaymentCaptured? || ev.OnPaymentFailed?) ==> db.payments == old(db.payments)
    ensures ev.OnPaymentCaptured? || ev.OnPaymentFailed? || ev.OnOther? ==>
              db.subscriptions == old(db.subscriptions) && db.users == old(db.users)
    // The whole new state for the events that re-activate a subscription.
    ensures signatureValid && ev.OnActivated? && ev.subscriptionId in old(db.subscriptions) ==>
              var s := old(db.subscriptions[ev.subscriptionId]);
              var subs := old(db.subscriptions)[ev.subscriptionId := s.(status := SubscriptionActive, startedAt := Some(now))];
              if s.user !in old(db.users) then
                r == Err(ServerError) && db.State() == old(db.State()).(subscriptions := subs)
              else
                var u := old(db.users[s.user]);
                r == (if s.plan < |old(db.plans)| then Ok(()) else Err(ServerError)) &&
                db.State() == old(db.State()).(subscriptions := subs, users := old(db.users)[s.user :=
                  u.(subscription := u.subscription.(status := PlanActive, startDate := Some(now)))])
    ensures signatureValid && ev.OnResumed? && ev.subscriptionId in old(db.subscriptions) ==>
              var s := old(db.subscriptions[ev.subscriptionId]);
              var subs := old(db.subscriptions)[ev.subscriptionId := s.(status := SubscriptionActive)];
              if s.user !in old(db.users) then
                r == Err(ServerError) && db.State() == old(db.State()).(subscriptions := subs)
              else
                r == Ok(()) &&
                db.State() == old(db.State()).(subscriptions := subs, users := old(db.users)[s.user :=
                  WithPlanStatus(old(db.users[s.user]), PlanActive)])
    // The whole new state for the other events.
    ensures signatureValid && ev.OnCancelled? && ev.subscriptionId in old(db.subscriptions) ==>
              var s := old(db.subscriptions[ev.subscriptionId]);
              r == (if s.user in old(db.users) then Ok(()) else Err(ServerError)) &&
              db.State() == old(db.State()).(
                subscriptions := old(db.subscriptions)[ev.subscriptionId := Cancel(s, now)],
                users := if s.user in old(db.users) then old(db.users)[s.user := WithPlanStatus(old(db.users[s.user]), PlanCancelled)]
                         else old(db.users))
    ensures signatureValid && ev.OnPaused? && ev.subscriptionId in old(db.subscriptions) ==>
              var s := old(db.subscriptions[ev.subscriptionId]);
              db.State() == old(db.State()).(subscriptions := old(db.subscriptions)[ev.subscriptionId := s.(status := Paused)])
    ensures signatureValid && ev.OnCharged? && ev.subscriptionId in old(db.subscriptions) ==>
              var s := old(db.subscriptions[ev.subscriptionId]);
              db.State() == old(db.State()).(subscriptions := old(db.subscriptions)[ev.subscriptionId := s.(
                payments := s.payments + [Charge(ev.paymentId, FromMinorUnits(ev.amountMinor), ev.currency, ChargeCaptured,
                                                 ev.createdAtSeconds * 1000)],
                paidCount := s.paidCount + 1)])
    ensures signatureValid && (ev.OnPaymentCaptured? || ev.OnPaymentFailed?) ==>
              var i := PaymentForGatewayId(old(db.payments), ev.paymentId);
              db.State() == old(db.State()).(payments :=
                if i.None? then old(db.payments)
                else if ev.OnPaymentFailed? then
                  old(db.payments)[i.value := old(db.payments)[i.value].(status := PaymentFailedStatus, failureReason := ev.errorDescription)]
                else old(db.payments)[i.value := old(db.payments)[i.value].(status := PaymentCaptured)])
  {
    if !signatureValid {
      return Err(BadRequest);
    }
    match ev {
      case OnActivated(id) =>
        r := Activated(db, id, now);
      case OnCharged(id, paymentId, amountMinor, currency, createdAtSeconds) =>
        r := Charged(db, id, paymentId, amountMinor, currency, createdAtSeconds);
      case OnCancelled(id) =>
        r := StatusChanged(db, id, SubscriptionCancelled, now);
      case OnPaused(id) =>
        r := StatusChanged(db, id, Paused, now);
      case OnResumed(id) =>
        r := StatusChanged(db, id, SubscriptionActive, now);
      case OnPaymentCaptured(paymentId) =>
        r := PaymentEvent(db, paymentId, false, None);
      case OnPaymentFailed(paymentId, reason) =>
        r := PaymentEvent(db, paymentId, true, reason);
      case OnOther(_) =>
        r := Ok(());
    }
  }
}
