/** The subscription row, its state machine, and what it grants at a given time. Times are microseconds. */
module Subscriptions {
  import opened Tables
  import opened Calendar

  datatype SubscriptionStatus = Trialing | Active | PastDue | Canceled | Lapsed

  datatype Source = Owner | Provider | System | Admin

  datatype Interval = Month | Year

  function Transitions(current: SubscriptionStatus): set<SubscriptionStatus> {
    match current
    case Trialing => {Active, PastDue, Lapsed, Canceled}
    case Active => {PastDue, Canceled}
    case PastDue => {Active, Canceled}
    case Lapsed => {Active}
    case Canceled => {Active}
  }

  function OverrideTransitions(current: SubscriptionStatus): set<SubscriptionStatus> {
    match current
    case Lapsed => {Trialing}
    case Canceled => {Trialing}
    case _ => {}
  }

  datatype Move = Change | Repeat | Refused

  function CheckTransition(current: SubscriptionStatus, target: SubscriptionStatus, override: bool): Move {
    if current == target then Repeat
    else if target in Transitions(current) || (override && target in OverrideTransitions(current)) then Change
    else Refused
  }

  /** The tables read by their targets: what may become each status, and what only an administrator may. */
  lemma {:induction false} MovesInto(target: SubscriptionStatus, from: SubscriptionStatus, override: bool)
    ensures CheckTransition(from, target, override) == Repeat <==> from == target
    ensures CheckTransition(from, target, override) == Change <==>
            match target
            case Trialing => override && from in {Lapsed, Canceled}
            case Active => from != Active
            case PastDue => from in {Trialing, Active}
            case Lapsed => from == Trialing
            case Canceled => from in {Trialing, Active, PastDue}
  {
  }

  const PAYMENT_PROCESSING_GRACE: int := 3 * DAY
  const RENEWAL_GRACE: int := 3 * DAY
  const PAST_DUE_GRACE: int := 7 * DAY
  const TRIAL_DAYS: int := 30

  datatype Subscription = Subscription(
    plan: string, interval: Interval, status: SubscriptionStatus,
    trialStartedAt: Option<int>, trialEndsAt: Option<int>, periodStart: Option<int>, periodEnd: Option<int>,
    cancelAtPeriodEnd: bool, canceledAt: Option<int>, endedAt: Option<int>, pendingPlan: Option<string>,
    paymentMethod: bool, provider: Option<string>, customerRef: Option<string>, subscriptionRef: Option<string>,
      version: nat)

  /** The CHECK constraints of the row. */
  predicate Checks(s: Subscription) {
    && (s.trialStartedAt.None? <==> s.trialEndsAt.None?)
    && (s.trialStartedAt.Some? ==> s.trialStartedAt.value < s.trialEndsAt.value)
    && (s.status == Trialing ==> s.trialEndsAt.Some?)
    && (s.periodStart.Some? && s.periodEnd.Some? ==> s.periodStart.value < s.periodEnd.value)
    && s.version >= 1
  }

  predicate Reached(moment: Option<int>, now: int) {
    moment.Some? && now >= moment.value
  }

  /** The status the subscription has given the time, before a sweep persists it. */
  function EffectiveStatus(s: Subscription, now: int): SubscriptionStatus {
    if s.status == Trialing && Reached(s.trialEndsAt, now) && (s.cancelAtPeriodEnd || !s.paymentMethod) then Lapsed
    else if s.status == Trialing && Reached(s.trialEndsAt, now)
      && now >= s.trialEndsAt.value + PAYMENT_PROCESSING_GRACE then Lapsed
    else if s.status == Active && Reached(s.periodEnd, now) &&
            (s.cancelAtPeriodEnd || now >= s.periodEnd.value + RENEWAL_GRACE) then Canceled
    else if s.status == PastDue && s.periodEnd.Some? && now >= s.periodEnd.value + PAST_DUE_GRACE then Canceled
    else s.status
  }

  datatype Reason = PlanRequired | TrialingReason | PaymentProcessing | ActiveReason | RenewalProcessing | PastDueReason
    | TrialExpired | SubscriptionRequired | CanceledReason

  datatype Decision = Decision(allowed: bool, reason: Reason)

  function EvaluateAccess(sub: Option<Subscription>, now: int): Decision {
    if sub.None? then Decision(false, PlanRequired)
    else
      var s := sub.value;
      match EffectiveStatus(s, now)
      case Trialing => Decision(true, if Reached(s.trialEndsAt, now) then PaymentProcessing else TrialingReason)
      case Active => Decision(true, if Reached(s.periodEnd, now) then RenewalProcessing else ActiveReason)
      case PastDue => Decision(true, PastDueReason)
      case Lapsed => Decision(false, if s.trialStartedAt.Some? then TrialExpired else SubscriptionRequired)
      case Canceled => Decision(false, CanceledReason)
  }

  /** The last moment of access a stored row holds out. */
  datatype Horizon = Never | Until(moment: int) | Forever

  function AccessHorizon(s: Subscription): Horizon {
    match s.status
    case Trialing =>
      if s.trialEndsAt.None? then Forever
      else Until(if s.cancelAtPeriodEnd || !s.paymentMethod then s.trialEndsAt.value
                 else s.trialEndsAt.value + PAYMENT_PROCESSING_GRACE)
    case Active =>
      if s.periodEnd.None? then Forever
      else Until(if s.cancelAtPeriodEnd then s.periodEnd.value else s.periodEnd.value + RENEWAL_GRACE)
    case PastDue => if s.periodEnd.None? then Forever else Until(s.periodEnd.value + PAST_DUE_GRACE)
    case _ => Never
  }

  predicate Within(h: Horizon, now: int) {
    h.Forever? || (h.Until? && now < h.moment)
  }

  /** Access is a threshold in time: it holds up to one deadline and never after. */
  lemma {:induction false} AccessIsThreshold(s: Subscription, now: int)
    ensures EvaluateAccess(Some(s), now).allowed <==> Within(AccessHorizon(s), now)
  {
  }

  /** What persisting the time-based status writes into the row. */
  function Synced(s: Subscription, now: int): Subscription {
    var target := EffectiveStatus(s, now);
    if target == s.status then s
    else s.(status := target, endedAt := if s.endedAt.Some? then s.endedAt else Some(now), pendingPlan := None)
  }

  /** The system transition a sweep makes is always an allowed one: a sweep never raises. */
  lemma {:induction false} SweepNeverRaises(s: Subscription, now: int)
    ensures CheckTransition(s.status, EffectiveStatus(s, now), false) != Refused
    ensures EffectiveStatus(s, now) != s.status ==> EffectiveStatus(s, now) in {Lapsed, Canceled}
    ensures Checks(s) ==> Checks(Synced(s, now))
  {
  }

  /** One sweep is invisible: the decision and its reason at every later time are what they would have been. */
  lemma {:induction false} SyncIsTransparent(s: Subscription, at: int, later: int)
    requires at <= later
    ensures EvaluateAccess(Some(Synced(s, at)), later) == EvaluateAccess(Some(s), later)
    ensures Synced(Synced(s, at), at) == Synced(s, at)
  {
  }

  /** The row after sweeps at all the given times, in any order. */
  function SyncedAt(s: Subscription, times: seq<int>): Subscription {
    if times == [] then s else Synced(SyncedAt(s, times[..|times| - 1]), times[|times| - 1])
  }

  /** Sweeps at any set of times leave every later decision unchanged, keep the row legal, and persist exactly the
      status that time has already decided once a sweep ran at that time. */
  lemma {:induction false} SweepsAreTransparent(s: Subscription, times: seq<int>, later: int)
    requires forall k | 0 <= k < |times| :: times[k] <= later
    ensures EvaluateAccess(Some(SyncedAt(s, times)), later) == EvaluateAccess(Some(s), later)
    ensures EffectiveStatus(SyncedAt(s, times), later) == EffectiveStatus(s, later)
    ensures later in times ==> SyncedAt(s, times).status == EffectiveStatus(s, later)
    ensures Checks(s) ==> Checks(SyncedAt(s, times))
  {
    if times != [] {
      var fewer := times[..|times| - 1];
      SweepsAreTransparent(s, fewer, later);
      SyncIsTransparent(SyncedAt(s, fewer), times[|times| - 1], later);
      SweepNeverRaises(SyncedAt(s, fewer), times[|times| - 1]);
      SyncKeepsEffective(SyncedAt(s, fewer), times[|times| - 1], later);
    }
  }

  lemma {:induction false} SyncKeepsEffective(s: Subscription, at: int, later: int)
    requires at <= later
    ensures EffectiveStatus(Synced(s, at), later) == EffectiveStatus(s, later)
    ensures at == later ==> Synced(s, at).status == EffectiveStatus(s, later)
    ensures s.status == EffectiveStatus(s, later) ==> Synced(s, at).status == EffectiveStatus(s, later)
  {
  }
}
