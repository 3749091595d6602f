/**
 Subscriptions: plans, billing periods and the commands over them. A charge is an ordinary hold
 on the money ledger, keyed on the period it pays for.

 Commands are serial. A crash between taking a period's hold and capturing it is an argument of
 the command, because those are two transactions.
 */
module Subscriptions {
  import opened Common
  import opened Calendar
  import opened Money
  import opened MoneyRuns

  type Time = int
  type PlanId = nat
  type SubscriptionId = nat
  type PeriodId = nat

  /** `Offered` is stored as `active`. */
  datatype PlanStatus = Offered | Retired

  datatype Plan = Plan(interval: Interval, count: int, currency: string, amount: nat, status: PlanStatus)

  /** `Running` is stored as `active` and `Ended` as `expired`. */
  datatype SubscriptionStatus = Running | PastDue | Cancelled | Ended

  datatype Subscription = Subscription(
    owner: string,
    plan: PlanId,
    wallet: WalletId,
    status: SubscriptionStatus,
    createdAt: Time,
    cancelledAt: Option<Time>,
    cancelReason: string,
    endedAt: Option<Time>)

  /** `Waived` is stored as `voided`. */
  datatype PeriodStatus = Pending | Settled | Uncollectible | Waived

  datatype Period = Period(
    subscription: SubscriptionId,
    sequence: int,
    startsAt: Time,
    endsAt: Time,
    currency: string,
    amount: int,
    status: PeriodStatus,
    hold: Option<HoldId>,
    settledAt: Option<Time>,
    refusal: Option<Failure>)

  type Periods = map<PeriodId, Period>

  datatype Desk = Desk(
    till: Till,
    plans: map<PlanId, Plan>,
    subscriptions: map<SubscriptionId, Subscription>,
    periods: Periods,
    nextId: nat)

  const EMPTY_DESK := Desk(EMPTY_TILL, map[], map[], map[], 0)

  // ----- names -----

  function Digit(d: nat): char
    requires d < 10
  {
    "0123456789"[d]
  }

  function Decimal(n: nat): string {
    if n < 10 then [Digit(n)] else Decimal(n / 10) + [Digit(n % 10)]
  }

  const PERIOD_PREFIX := "subscription-period:"

  /** `periodChargeReference`. */
  function PeriodReference(id: PeriodId): string {
    PERIOD_PREFIX + Decimal(id)
  }

  lemma {:induction false} DecimalIsInjective(m: nat, n: nat)
    requires Decimal(m) == Decimal(n)
    ensures m == n
  {
    var a, b := Decimal(m), Decimal(n);
    assert a[|a| - 1] == Digit(m % 10) && b[|b| - 1] == Digit(n % 10);
    if m >= 10 && n >= 10 {
      assert a[..|a| - 1] == Decimal(m / 10) && b[..|b| - 1] == Decimal(n / 10);
      DecimalIsInjective(m / 10, n / 10);
    } else {
      DecimalLength(m);
      DecimalLength(n);
    }
  }

  lemma {:induction false} DecimalLength(n: nat)
    ensures |Decimal(n)| >= 1 && (|Decimal(n)| == 1 <==> n < 10)
  {
    if n >= 10 {
      DecimalLength(n / 10);
    }
  }

  lemma ReferencesDiffer(m: PeriodId, n: PeriodId)
    requires PeriodReference(m) == PeriodReference(n)
    ensures m == n
  {
    assert PeriodReference(m)[|PERIOD_PREFIX|..] == Decimal(m);
    assert PeriodReference(n)[|PERIOD_PREFIX|..] == Decimal(n);
    DecimalIsInjective(m, n);
  }

  // ----- what the store accepts -----

  predicate SubscriptionShape(s: Subscription) {
    && (s.status == Cancelled <==> s.cancelledAt.Some?)
    && (s.status == Cancelled ==> s.cancelReason != "")
    && (s.status == Running || s.status == PastDue ==> s.endedAt.None?)
  }

  predicate PeriodShape(p: Period) {
    && p.sequence > 0
    && p.startsAt < p.endsAt
    && p.amount >= 0
    && (if p.status == Settled then p.settledAt.Some? && (p.amount == 0 <==> p.hold.None?)
        else p.settledAt.None? && p.hold.None?)
    && (p.status == Uncollectible <==> p.refusal.Some?)
  }

  /** Half-open ranges overlap exactly when each starts before the other ends. */
  predicate Overlap(p: Period, q: Period) {
    p.startsAt < q.endsAt && q.startsAt < p.endsAt
  }

  predicate OverlapClash(periods: Periods, id: PeriodId, p: Period) {
    exists q :: q in periods && q != id && periods[q].subscription == p.subscription && Overlap(p, periods[q])
  }

  predicate SequenceClash(periods: Periods, id: PeriodId, p: Period) {
    exists q :: q in periods && q != id && periods[q].subscription == p.subscription
        && periods[q].sequence == p.sequence
  }

  predicate HoldClash(periods: Periods, id: PeriodId, p: Period) {
    p.hold.Some? && exists q :: q in periods && q != id && periods[q].hold == p.hold
  }

  predicate Writable(periods: Periods, id: PeriodId, p: Period) {
    PeriodShape(p) && !OverlapClash(periods, id, p) && !SequenceClash(periods, id, p) && !HoldClash(periods, id, p)
  }

  /** The deferred check: a settled period and the hold that paid for it agree. */
  predicate MoneyAgrees(p: Period, holds: map<HoldId, Hold>) {
    p.status == Settled && p.hold.Some? ==>
      && p.hold.value in holds
      && holds[p.hold.value].captured == p.amount
      && holds[p.hold.value].currency == p.currency
  }

  // ----- reading -----

  predicate Covers(p: Period, at: Time) {
    p.startsAt <= at < p.endsAt
  }

  ghost predicate IsLatest(periods: Periods, s: SubscriptionId, p: PeriodId) {
    && p in periods && periods[p].subscription == s
    && forall q :: q in periods && periods[q].subscription == s ==> periods[q].sequence <= periods[p].sequence
  }

  ghost function Latest(periods: Periods, s: SubscriptionId): Option<PeriodId> {
    if p :| IsLatest(periods, s, p) then Some(p) else None
  }

  ghost function Covering(periods: Periods, s: SubscriptionId, at: Time): Option<PeriodId> {
    if p :| p in periods && periods[p].subscription == s && Covers(periods[p], at) then Some(p) else None
  }

  // ----- collecting a period -----

  datatype Outcome = Collected | Refused(why: Failure) | Crashed | Threw | Nothing

  /** The refusals a charge turns into a record; the others reach the caller. */
  predicate IsConflict(e: Failure) {
    e == WalletNotActive || e == InsufficientBalance || e == NotCapturable || e == HoldExpired
        || e == ExceedsRemainingHold
  }

  predicate IsNotFound(e: Failure) {
    e == WalletNotFound || e == HoldNotFound
  }

  function SettledAs(p: Period, hold: Option<HoldId>, now: Time): Period {
    p.(status := Settled, hold := hold, settledAt := Some(now), refusal := None)
  }

  function UncollectibleAs(p: Period, why: Failure): Period {
    p.(status := Uncollectible, hold := None, settledAt := None, refusal := Some(why))
  }

  /** Collecting clears `past_due` and nothing else. */
  function RevivedBy(s: Subscription): Subscription {
    if s.status == PastDue then s.(status := Running) else s
  }

  function PastDueAs(s: Subscription): Subscription {
    if s.status == Running then s.(status := PastDue) else s
  }

  /** One transaction over a period and its subscription, money already applied. */
  function WriteBoth(d: Desk, id: PeriodId, p: Period, s: Subscription): Option<Desk> {
    if !Writable(d.periods, id, p) || !SubscriptionShape(s) || !MoneyAgrees(p, d.till.books.holds) then None
    else Some(d.(periods := d.periods[id := p], subscriptions := d.subscriptions[p.subscription := s]))
  }

  function CaptureAll(hold: HoldId): MoneyRuns.Command {
    CaptureHold(hold, "", None)
  }

  /** The capture and the billing record land together or not at all. */
  ghost function SettlePeriod(d: Desk, id: PeriodId, hold: Option<HoldId>, now: Time): (Desk, Outcome)
    requires id in d.periods && d.periods[id].subscription in d.subscriptions
  {
    var s := d.subscriptions[d.periods[id].subscription];
    var settled := SettledAs(d.periods[id], hold, now);
    if hold.None? then
      match WriteBoth(d, id, settled, RevivedBy(s))
      case None => (d, Threw)
      case Some(after) => (after, Collected)
    else
      match Perform(d.till.books, StageCapture(d.till.books, now, hold.value, "", None))
      case Err(e) => (d, Outcome.Refused(e))
      case Ok(_) =>
        var paid := d.(till := Step(d.till, now, CaptureAll(hold.value)));
        match WriteBoth(paid, id, settled, RevivedBy(s))
        case None => (d, Threw)
        case Some(after) => (after, Collected)
  }

  function MarkUncollectible(d: Desk, id: PeriodId, why: Failure): (Desk, Outcome)
    requires id in d.periods && d.periods[id].subscription in d.subscriptions
  {
    match WriteBoth(d, id, UncollectibleAs(d.periods[id], why), PastDueAs(d.subscriptions[d.periods[id].subscription]))
    case None => (d, Threw)
    case Some(after) => (after, Outcome.Refused(why))
  }

  function ChargeHold(d: Desk, id: PeriodId): MoneyRuns.Command
    requires id in d.periods && d.periods[id].subscription in d.subscriptions
  {
    Authorize(d.subscriptions[d.periods[id].subscription].wallet, d.periods[id].amount, PeriodReference(id), None)
  }

  /** The second half of a charge: capture what the first half held. */
  ghost function FinishCharge(d: Desk, id: PeriodId, hold: HoldId, now: Time): (Desk, Outcome)
    requires id in d.periods && d.periods[id].subscription in d.subscriptions
  {
    var (after, outcome) := SettlePeriod(d, id, Some(hold), now);
    if outcome.Refused? then
      if IsConflict(outcome.why) then MarkUncollectible(d, id, outcome.why) else (d, Threw)
    else (after, outcome)
  }

  /** `chargePeriod`; `crash` stops the process after the hold committed. */
  ghost function ChargePeriod(d: Desk, id: PeriodId, now: Time, crash: bool): (Desk, Outcome) {
    if id !in d.periods then (d, Threw)
    else
      var p := d.periods[id];
      if p.status == Settled then (d, Collected)
      else if p.status == Waived || p.subscription !in d.subscriptions then (d, Threw)
      else if p.amount == 0 then SettlePeriod(d, id, None, now)
      else
        var staged := StageAuthorize(d.till.books, now, d.till.nextId, d.subscriptions[p.subscription].wallet,
                                     p.amount, PeriodReference(id), None);
        match Perform(d.till.books, staged)
        case Err(e) => if IsConflict(e) || IsNotFound(e) then MarkUncollectible(d, id, e) else (d, Threw)
        case Ok(held) =>
          var mid := d.(till := Step(d.till, now, ChargeHold(d, id)));
          if crash then (mid, Crashed) else FinishCharge(mid, id, held.0, now)
  }

  // ----- the other commands -----

  function NewPeriod(s: SubscriptionId, plan: Plan, sequence: int, startsAt: Time, endsAt: Time): Period {
    Period(s, sequence, startsAt, endsAt, plan.currency, plan.amount, Pending, None, None, None)
  }

  predicate IsLive(s: Subscription) {
    s.status == Running || s.status == PastDue
  }

  ghost predicate MaySubscribe(d: Desk, owner: string, plan: PlanId, wallet: WalletId) {
    && plan in d.plans && d.plans[plan].status == Offered
    && wallet in d.till.books.wallets
    && d.till.books.wallets[wallet].currency == d.plans[plan].currency
    && d.till.books.wallets[wallet].owner == owner
    && (forall s :: s in d.subscriptions && d.subscriptions[s].owner == owner && d.subscriptions[s].plan == plan ==>
          !IsLive(d.subscriptions[s]))
  }

  /** Two rows in one write, then a charge that may come to anything without undoing them. */
  ghost function Subscribe(d: Desk, owner: string, plan: PlanId, wallet: WalletId, startsAt: Time, now: Time,
      crash: bool): (Desk, Outcome)
  {
    if !MaySubscribe(d, owner, plan, wallet) then (d, Threw)
    else
      match AdvanceInterval(startsAt, d.plans[plan].interval, d.plans[plan].count)
      case Err(_) => (d, Threw)
      case Ok(endsAt) =>
        var s, p := d.nextId, d.nextId + 1;
        var row := Subscription(owner, plan, wallet, Running, now, None, "", None);
        match WriteBoth(d, p, NewPeriod(s, d.plans[plan], 1, startsAt, endsAt), row)
        case None => (d, Threw)
        case Some(after) => ChargePeriod(after.(nextId := d.nextId + 2), p, now, crash)
  }

  /** Paid time is honoured to its end; unpaid time ends now and its period is voided. */
  ghost function Cancel(d: Desk, s: SubscriptionId, reason: string, now: Time): (Desk, Outcome) {
    if reason == "" || s !in d.subscriptions then (d, Threw)
    else
      var row := d.subscriptions[s];
      if row.status == Cancelled then (d, Nothing)
      else if row.status == Ended then (d, Threw)
      else
        var current := Covering(d.periods, s, now);
        var unpaid := current.Some? && d.periods[current.value].status != Settled;
        var endedAt := if current.Some? && !unpaid then d.periods[current.value].endsAt else now;
        var cancelled := row.(status := Cancelled, cancelledAt := Some(now), cancelReason := reason,
                              endedAt := Some(endedAt));
        if unpaid then
          var waived := d.periods[current.value].(status := Waived, hold := None, settledAt := None, refusal := None);
          match WriteBoth(d, current.value, waived, cancelled)
          case None => (d, Threw)
          case Some(after) => (after, Nothing)
        else if !SubscriptionShape(cancelled) then (d, Threw)
        else (d.(subscriptions := d.subscriptions[s := cancelled]), Nothing)
  }

  function ExpiredAs(s: Subscription, now: Time): Subscription {
    s.(status := Ended, cancelledAt := None, endedAt := if s.endedAt.Some? then s.endedAt else Some(now))
  }

  /** What the sweep does for one subscription. */
  ghost function RenewOne(d: Desk, s: SubscriptionId, now: Time, crash: bool): (Desk, Outcome) {
    if s !in d.subscriptions || d.subscriptions[s].status == Ended then (d, Nothing)
    else
      var row := d.subscriptions[s];
      match Latest(d.periods, s)
      case None => (d, Nothing)
      case Some(latest) =>
        if d.periods[latest].endsAt > now then (d, Nothing)
        else if row.status == Cancelled then (d.(subscriptions := d.subscriptions[s := ExpiredAs(row, now)]), Nothing)
        else if row.plan !in d.plans then (d, Nothing)
        else
          var plan := d.plans[row.plan];
          match AdvanceInterval(d.periods[latest].endsAt, plan.interval, plan.count)
          case Err(_) => (d, Threw)
          case Ok(endsAt) =>
            var next := NewPeriod(s, plan, d.periods[latest].sequence + 1, d.periods[latest].endsAt, endsAt);
            match WriteBoth(d, d.nextId, next, row)
            case None => (d, Threw)
            case Some(after) => ChargePeriod(after.(nextId := d.nextId + 1), d.nextId, now, crash)
  }

  datatype Command =
    | MoneyWork(command: MoneyRuns.Command)
    | OfferPlan(interval: Interval, count: int, currency: string, amount: nat)
    | RetirePlan(plan: PlanId)
    | SubscribeTo(owner: string, plan: PlanId, wallet: WalletId, startsAt: Time, crash: bool)
    | Charge(period: PeriodId, crash: bool)
    | CancelSubscription(subscription: SubscriptionId, reason: string)
    | Renew(subscription: SubscriptionId, crash: bool)

  ghost function DeskStep(d: Desk, now: Time, c: Command): Desk {
    match c
    case MoneyWork(command) => d.(till := Step(d.till, now, command))
    case OfferPlan(interval, count, currency, amount) =>
      if count <= 0 || amount > MAX_SAFE_INTEGER then d
      else d.(plans := d.plans[d.nextId := Plan(interval, count, currency, amount, Offered)], nextId := d.nextId + 1)
    case RetirePlan(plan) =>
      if plan !in d.plans then d else d.(plans := d.plans[plan := d.plans[plan].(status := Retired)])
    case SubscribeTo(owner, plan, wallet, startsAt, crash) => Subscribe(d, owner, plan, wallet, startsAt, now, crash).0
    case Charge(period, crash) => ChargePeriod(d, period, now, crash).0
    case CancelSubscription(s, reason) => Cancel(d, s, reason, now).0
    case Renew(s, crash) => RenewOne(d, s, now, crash).0
  }

  datatype Timed = Timed(at: Time, command: Command)

  ghost function RunDesk(log: seq<Timed>): Desk {
    if log == [] then EMPTY_DESK
    else DeskStep(RunDesk(log[..|log| - 1]), log[|log| - 1].at, log[|log| - 1].command)
  }
}
