/** What each billing operation does to a subscription row as read, and the events it adds to the append-only log. */
module SubscriptionChanges {
  import opened Tables
  import opened Calendar
  import opened Subscriptions

  datatype EventKind =
    | TrialStarted | TrialUnavailable | LapsedEvent | PlanChangeRequested | PlanChangeScheduled | PlanChanged
    | CheckoutStarted
    | CancelScheduled | CancelReverted | PaymentMethodAdded | Activated | InvoicePaid | PaymentFailed | Ended
    | StatusOverridden | TrialExtended | PlanOverridden | AccessGranted

  datatype Detail = NoDetail | Invoice(plan: string, interval: Interval, amount: int, start: int, end: int)

  /** One event, before it gets its number. */
  datatype Entry = Entry(kind: EventKind, from: Option<SubscriptionStatus>, to: Option<SubscriptionStatus>,
                         source: Source, detail: Detail)

  datatype PriceKey = PriceKey(plan: string, interval: Interval)

  /** The active plans and prices. */
  datatype Catalog = Catalog(plans: set<string>, prices: map<PriceKey, nat>)

  predicate OnSale(c: Catalog, plan: string, interval: Interval) {
    plan in c.plans && PriceKey(plan, interval) in c.prices
  }

  /** The session's copy of the row and the events added so far. */
  datatype Edit = Edit(sub: Subscription, added: seq<Entry>)

  datatype Outcome = Rejected | Saved(edit: Edit)

  function Noted(e: Edit, kind: EventKind, source: Source, detail: Detail): Edit {
    e.(added := e.added + [Entry(kind, None, None, source, detail)])
  }

  /** The row takes the target status and the event records the move; a repeat does nothing. Callers check for
      refusals. */
  function Moved(e: Edit, target: SubscriptionStatus, kind: EventKind, source: Source): Edit {
    if e.sub.status == target then e
    else Edit(e.sub.(status := target), e.added + [Entry(kind, Some(e.sub.status), Some(target), source, NoDetail)])
  }

  function Sync(s: Subscription, now: int): Edit {
    var target := EffectiveStatus(s, now);
    if target == s.status then Edit(s, [])
    else Edit(Synced(s, now), Moved(Edit(s, []), target, LapsedEvent, System).added)
  }

  // --------------------------------------------------------------- owner actions

  function ChangePlan(s: Subscription, c: Catalog, plan: string, interval: Interval, now: int, capacity: bool,
                      provider: bool): Outcome {
    if !OnSale(c, plan, interval) then Rejected
    else
      var e := Sync(s, now);
      if e.sub.plan == plan && e.sub.interval == interval && e.sub.pendingPlan.None? then Rejected
      else if !capacity then Rejected
      else if e.sub.status in {Active, PastDue} && e.sub.subscriptionRef.Some? then
        if !provider || PriceKey(e.sub.plan, e.sub.interval) !in c.prices then Rejected
        else if interval == e.sub.interval
          && c.prices[PriceKey(plan, interval)] > c.prices[PriceKey(e.sub.plan, e.sub.interval)]
        then Saved(Noted(e, PlanChangeRequested, Owner, NoDetail))
        else Saved(Noted(e.(sub := e.sub.(pendingPlan := Some(plan))), PlanChangeScheduled, Owner, NoDetail))
      else
        Saved(Noted(e.(sub := e.sub.(plan := plan, interval := interval, pendingPlan := None)), PlanChanged, Owner,
                    NoDetail))
  }

  function CreateCheckout(s: Subscription, c: Catalog, plan: string, interval: Interval, now: int, capacity: bool,
                          provider: bool): Outcome {
    if !provider || !OnSale(c, plan, interval) then Rejected
    else
      var e := Sync(s, now);
      if e.sub.status == Active && e.sub.paymentMethod && !e.sub.cancelAtPeriodEnd then Rejected
      else if !capacity then Rejected
      else Saved(Noted(e, CheckoutStarted, Owner, NoDetail))
  }

  function SetCancel(s: Subscription, cancel: bool, now: int, provider: bool): Outcome {
    var e := Sync(s, now);
    if e.sub.status !in {Trialing, Active, PastDue} then Rejected
    else if e.sub.cancelAtPeriodEnd == cancel then Rejected
    else if e.sub.subscriptionRef.Some? && !provider then Rejected
    else Saved(Noted(e.(sub := e.sub.(cancelAtPeriodEnd := cancel, canceledAt := if cancel then Some(now) else None)),
                     if cancel then CancelScheduled else CancelReverted, Owner, NoDetail))
  }

  // -------------------------------------------------------------- provider events

  datatype BillingEvent =
    | CheckoutCompleted(customer: Option<string>, ref: Option<string>, session: Option<PriceKey>)
    | InvoicePaidEvent(paidPlan: Option<string>, paidInterval: Option<Interval>, start: Option<int>, end: Option<int>,
                       amount: Option<int>, shekels: bool)
    | InvoicePaymentFailed
    | SubscriptionCanceled(occurredAt: int)
    | SubscriptionUpdated(cancel: Option<bool>, newPlan: Option<string>, newInterval: Option<Interval>)

  /** Whether the event was applied, and the row and events it leaves in the session either way. */
  datatype Applied = Applied(processed: bool, edit: Edit)

  function ApplyCheckout(s: Subscription, event: BillingEvent, provider: string): Edit
    requires event.CheckoutCompleted?
  {
    var known := s.(provider := Some(provider),
                    customerRef := if s.customerRef.Some? then s.customerRef else event.customer,
                    subscriptionRef := if s.subscriptionRef.Some? then s.subscriptionRef else event.ref,
                    paymentMethod := true);
    var chosen := if event.session.Some? && s.status != Active
                  then known.(plan := event.session.value.plan, interval := event.session.value.interval) else known;
    var kept := if chosen.cancelAtPeriodEnd && chosen.status == Trialing
                then chosen.(cancelAtPeriodEnd := false, canceledAt := None) else chosen;
    Noted(Edit(kept, []), PaymentMethodAdded, Provider, NoDetail)
  }

  function ApplyInvoice(s: Subscription, c: Catalog, event: BillingEvent): Applied
    requires event.InvoicePaidEvent?
  {
    var plan := if event.paidPlan.Some? then event.paidPlan.value else s.plan;
    var interval := if event.paidInterval.Some? then event.paidInterval.value else s.interval;
    var same := Edit(s, []);
    if !OnSale(c, plan, interval) then Applied(false, same)
    else if !event.shekels || event.amount != Some(c.prices[PriceKey(plan, interval)]) then Applied(false, same)
    else if event.start.None? || event.end.None? || event.end.value <= event.start.value then Applied(false, same)
    else if s.periodStart == event.start && s.status == Active then Applied(true, same)
    else
      var active := Moved(same, Active, Activated, Provider);
      var paid := active.sub.(plan := plan, interval := interval, periodStart := event.start, periodEnd := event.end,
                              paymentMethod := true, endedAt := None,
                              pendingPlan := if active.sub.pendingPlan == Some(plan) then None
                                else active.sub.pendingPlan);
      Applied(true, Noted(active.(sub := paid), InvoicePaid, Provider,
                          Invoice(plan, interval, event.amount.value, event.start.value, event.end.value)))
  }

  function ApplyEvent(s: Subscription, c: Catalog, event: BillingEvent, provider: string): Applied {
    var same := Edit(s, []);
    match event
    case CheckoutCompleted(_, _, _) => Applied(true, ApplyCheckout(s, event, provider))
    case InvoicePaidEvent(_, _, _, _, _, _) => ApplyInvoice(s, c, event)
    case InvoicePaymentFailed =>
      if CheckTransition(s.status, PastDue, false) == Refused then Applied(false, same)
      else Applied(true, Moved(same, PastDue, PaymentFailed, Provider))
    case SubscriptionCanceled(occurredAt) =>
      var target := if s.status == Trialing then Lapsed else Canceled;
      if CheckTransition(s.status, target, false) == Refused then Applied(false, same)
      else
        var moved := Moved(same, target, Ended, Provider);
        Applied(true, moved.(sub :=
                             moved.sub.(endedAt := Some(occurredAt), cancelAtPeriodEnd := false, pendingPlan := None)))
    case SubscriptionUpdated(cancel, newPlan, newInterval) =>
      var flagged := if cancel.Some? then same.(sub := s.(cancelAtPeriodEnd := cancel.value)) else same;
      if newPlan.None? || newPlan.value == s.plan then Applied(true, flagged)
      else if newPlan.value !in c.plans then Applied(false, flagged)
      else
        var planned := flagged.sub.(plan := newPlan.value,
                                    interval := if newInterval.Some? then newInterval.value else s.interval,
                                    pendingPlan := if s.pendingPlan == newPlan then None else s.pendingPlan);
        Applied(true, Noted(flagged.(sub := planned), PlanChanged, Provider, NoDetail))
  }

  // -------------------------------------------------------------------- overrides

  datatype Override = ExtendTrial(days: int) | ForcePlan(forcedPlan: string) | GrantAccess(until: int) | EndNow

  // Each superadmin action, on the session after the sync.

  function Longer(sub: Subscription, days: int, now: int): Subscription {
    var from := if sub.trialEndsAt.Some? && sub.trialEndsAt.value > now then sub.trialEndsAt.value else now;
    sub.(trialEndsAt := Some(from + days * DAY), cancelAtPeriodEnd := false, endedAt := None)
  }

  function TrialExtension(e: Edit, days: int, now: int): Outcome {
    if !(1 <= days <= 90) then Rejected
    else if e.sub.trialStartedAt.None? || e.sub.status !in {Trialing, Lapsed} then Rejected
    else
      var moved := Moved(e.(sub := Longer(e.sub, days, now)), Trialing, StatusOverridden, Admin);
      Saved(Noted(moved, TrialExtended, Admin, NoDetail))
  }

  function ForcedPlan(e: Edit, c: Catalog, plan: string): Outcome {
    if plan !in c.plans then Rejected
    else Saved(Noted(e.(sub := e.sub.(plan := plan, pendingPlan := None)), PlanOverridden, Admin, NoDetail))
  }

  function AccessGrant(e: Edit, until: int, now: int): Outcome {
    if !(now < until <= now + 366 * DAY) then Rejected
    else
      var active := Moved(e, Active, StatusOverridden, Admin);
      var granted := active.sub.(periodStart := Some(now), periodEnd := Some(until), cancelAtPeriodEnd := true,
                                 endedAt := None);
      Saved(Noted(active.(sub := granted), AccessGranted, Admin, NoDetail))
  }

  function Ending(e: Edit, now: int): Outcome {
    var target := if e.sub.status == Trialing then Lapsed else Canceled;
    if CheckTransition(e.sub.status, target, false) == Refused then Rejected
    else
      var moved := Moved(e, target, StatusOverridden, Admin);
      Saved(moved.(sub := moved.sub.(endedAt := Some(now), cancelAtPeriodEnd := false)))
  }

  function AdminOverride(s: Subscription, c: Catalog, action: Override, now: int): Outcome {
    var e := Sync(s, now);
    match action
    case ExtendTrial(days) => TrialExtension(e, days, now)
    case ForcePlan(plan) => ForcedPlan(e, c, plan)
    case GrantAccess(until) => AccessGrant(e, until, now)
    case EndNow => Ending(e, now)
  }

  // ------------------------------------------------------------------- replay

  datatype Chain = Start | On(status: SubscriptionStatus) | Off

  /** The status-bearing events form a chain: a first one, then moves the table allows for their source. */
  function ChainStep(r: Chain, e: Entry): Chain {
    if e.to.None? then r
    else match r
      case Start => if e.from.None? && e.to.value in {Trialing, Lapsed} then On(e.to.value) else Off
      case On(status) =>
        if e.from == Some(status)
          && CheckTransition(status, e.to.value, e.source == Admin) == Change then On(e.to.value) else Off
      case Off => Off
  }

  /** Where the first `n` entries lead. */
  function ReplayTo(r: Chain, entries: seq<Entry>, n: nat): Chain
    requires n <= |entries|
  {
    if n == 0 then r else ChainStep(ReplayTo(r, entries, n - 1), entries[n - 1])
  }

  function Replay(r: Chain, entries: seq<Entry>): Chain {
    ReplayTo(r, entries, |entries|)
  }

  lemma {:induction false} ReplayJoined(r: Chain, a: seq<Entry>, b: seq<Entry>, n: nat)
    requires n <= |a + b|
    ensures ReplayTo(r, a + b, n) == if n <= |a| then ReplayTo(r, a, n) else ReplayTo(Replay(r, a), b, n - |a|)
  {
    if n > 0 {
      ReplayJoined(r, a, b, n - 1);
    }
  }

  lemma {:induction false} ReplayAppend(r: Chain, a: seq<Entry>, b: seq<Entry>)
    ensures Replay(r, a + b) == Replay(Replay(r, a), b)
  {
    ReplayJoined(r, a, b, |a + b|);
  }

  lemma {:induction false} ReplayNoted(r: Chain, a: seq<Entry>, e: Entry)
    ensures Replay(r, a + [e]) == ChainStep(Replay(r, a), e)
  {
    ReplayJoined(r, a, [e], |a|);
  }

  predicate Paying(e: Entry) {
    e.kind == InvoicePaid || e.kind == AccessGranted
  }

  /** An invoice event carries exactly the catalog price of its plan and interval. */
  predicate PricedEntry(c: Catalog, e: Entry) {
    e.kind == InvoicePaid ==>
      e.detail.Invoice? && PriceKey(e.detail.plan, e.detail.interval) in c.prices
      && e.detail.amount == c.prices[PriceKey(e.detail.plan, e.detail.interval)]
  }

  /** What every edit of a legal row keeps. */
  ghost predicate Legal(c: Catalog, s: Subscription, e: Edit) {
    && Checks(e.sub)
    && Replay(On(s.status), e.added) == On(e.sub.status)
    && e.sub.trialStartedAt == s.trialStartedAt && e.sub.version == s.version
    && (e.sub == s ==> forall k | 0 <= k < |e.added| :: e.added[k].to.None?)
    && (e.sub.status == Active && s.status != Active ==> exists k :: 0 <= k < |e.added| && Paying(e.added[k]))
    && (forall k | 0 <= k < |e.added| ::
        PricedEntry(c, e.added[k]) && e.added[k].kind !in {TrialStarted, TrialUnavailable})
  }

  lemma {:induction false} NoneReplay(s: Subscription)
    ensures Replay(On(s.status), []) == On(s.status)
  {
  }

  lemma {:induction false} OneReplay(r: Chain, e: Entry)
    ensures Replay(r, [e]) == ChainStep(r, e)
  {
    assert [e] == [] + [e];
    ReplayNoted(r, [], e);
  }

  lemma {:induction false} TwoReplay(r: Chain, d: Entry, e: Entry)
    ensures Replay(r, [d, e]) == ChainStep(ChainStep(r, d), e)
  {
    assert [d, e] == [d] + [e];
    ReplayNoted(r, [d], e);
    OneReplay(r, d);
  }

  /** The shape of what a sync adds. */
  lemma {:induction false} SyncParts(s: Subscription, now: int)
    ensures var e := Sync(s, now);
            if EffectiveStatus(s, now) == s.status then e == Edit(s, [])
            else e == Edit(Synced(s, now),
                           [Entry(LapsedEvent, Some(s.status), Some(EffectiveStatus(s, now)), System, NoDetail)])
  {
  }

  lemma {:induction false} SyncIsLegal(c: Catalog, s: Subscription, now: int)
    requires Checks(s)
    ensures Legal(c, s, Sync(s, now))
    ensures Sync(s, now).sub.status == EffectiveStatus(s, now)
            && Sync(s, now).sub.status in {s.status, Lapsed, Canceled}
    ensures Sync(s, now).sub.status == Active ==> s.status == Active
  {
    SyncParts(s, now);
    SweepNeverRaises(s, now);
    if EffectiveStatus(s, now) != s.status {
      OneReplay(On(s.status), Sync(s, now).added[0]);
    }
  }

  /** Adding an event that carries no status to a legal edit, with a change of the other columns. */
  lemma {:induction false} NotedIsLegal(c: Catalog, s: Subscription, e: Edit, sub: Subscription, kind: EventKind,
                                        source: Source, detail: Detail)
    requires Legal(c, s, e)
    requires Checks(sub) && sub.status == e.sub.status && sub.trialStartedAt == s.trialStartedAt
             && sub.version == s.version
    requires kind !in {TrialStarted, TrialUnavailable} && PricedEntry(c, Entry(kind, None, None, source, detail))
    requires sub == s ==> e.sub == s
    ensures Legal(c, s, Noted(e.(sub := sub), kind, source, detail))
  {
    var n := Noted(e.(sub := sub), kind, source, detail);
    var entry := Entry(kind, None, None, source, detail);
    ReplayNoted(On(s.status), e.added, entry);
    assert n.added == e.added + [entry];
    if e.sub.status == Active && s.status != Active {
      var k :| 0 <= k < |e.added| && Paying(e.added[k]);
      assert n.added[k] == e.added[k];
    }
  }

  lemma {:induction false} ChangePlanIsLegal(c: Catalog, s: Subscription, plan: string, interval: Interval, now: int,
                                             capacity: bool, provider: bool)
    requires Checks(s)
    ensures var o := ChangePlan(s, c, plan, interval, now, capacity, provider); o.Saved? ==> Legal(c, s, o.edit)
  {
    hide Legal, Replay, Sync, PricedEntry;
    SyncIsLegal(c, s, now);
    var e := Sync(s, now);
    EditFacts(c, s, e);
    var o := ChangePlan(s, c, plan, interval, now, capacity, provider);
    if o.Saved? {
      NoInvoice(c, PlanChangeRequested, Owner);
      NoInvoice(c, PlanChangeScheduled, Owner);
      NoInvoice(c, PlanChanged, Owner);
      UnsyncedBase(s, now);
      var kind := o.edit.added[|o.edit.added| - 1].kind;
      NotedIsLegal(c, s, e, o.edit.sub, kind, Owner, NoDetail);
    }
  }

  lemma {:induction false} EditFacts(c: Catalog, s: Subscription, e: Edit)
    requires Legal(c, s, e)
    ensures Checks(e.sub) && e.sub.trialStartedAt == s.trialStartedAt && e.sub.version == s.version
  {
  }

  lemma {:induction false} NoInvoice(c: Catalog, kind: EventKind, source: Source)
    requires kind != InvoicePaid
    ensures PricedEntry(c, Entry(kind, None, None, source, NoDetail))
  {
  }

  /** A sync that moved the status cannot be undone by changing other columns. */
  lemma {:induction false} UnsyncedBase(s: Subscription, now: int)
    ensures Sync(s, now).sub.status == s.status ==> Sync(s, now) == Edit(s, [])
  {
  }

  lemma {:induction false} CreateCheckoutIsLegal(c: Catalog, s: Subscription, plan: string, interval: Interval,
                                                 now: int, capacity: bool, provider: bool)
    requires Checks(s)
    ensures var o := CreateCheckout(s, c, plan, interval, now, capacity, provider); o.Saved? ==> Legal(c, s, o.edit)
  {
    hide Legal, Replay, Sync, PricedEntry;
    var e := Sync(s, now);
    SyncIsLegal(c, s, now);
    EditFacts(c, s, e);
    NoInvoice(c, CheckoutStarted, Owner);
    assert e.(sub := e.sub) == e;
    NotedIsLegal(c, s, e, e.sub, CheckoutStarted, Owner, NoDetail);
  }

  lemma {:induction false} SetCancelIsLegal(c: Catalog, s: Subscription, cancel: bool, now: int, provider: bool)
    requires Checks(s)
    ensures var o := SetCancel(s, cancel, now, provider); o.Saved? ==> Legal(c, s, o.edit)
  {
    hide Legal, Replay, Sync, PricedEntry;
    var e := Sync(s, now);
    SyncIsLegal(c, s, now);
    EditFacts(c, s, e);
    UnsyncedBase(s, now);
    var o := SetCancel(s, cancel, now, provider);
    if o.Saved? {
      var kind := if cancel then CancelScheduled else CancelReverted;
      NoInvoice(c, kind, Owner);
      NotedIsLegal(c, s, e, o.edit.sub, kind, Owner, NoDetail);
    }
  }

  lemma {:induction false} SameIsLegal(c: Catalog, s: Subscription, sub: Subscription)
    requires Checks(s) && Checks(sub) && sub.status == s.status && sub.trialStartedAt == s.trialStartedAt
             && sub.version == s.version
    ensures Legal(c, s, Edit(sub, []))
  {
    NoneReplay(s);
  }

  lemma {:induction false} ApplyCheckoutIsLegal(c: Catalog, s: Subscription, event: BillingEvent, provider: string)
    requires Checks(s) && event.CheckoutCompleted?
    ensures Legal(c, s, ApplyCheckout(s, event, provider))
  {
    hide Legal, Replay, PricedEntry;
    var e := ApplyCheckout(s, event, provider);
    SameIsLegal(c, s, s);
    NoInvoice(c, PaymentMethodAdded, Provider);
    NotedIsLegal(c, s, Edit(s, []), e.sub, PaymentMethodAdded, Provider, NoDetail);
  }

  /** What is asked of each single event of a legal edit. */
  predicate PlainEntry(c: Catalog, e: Entry) {
    PricedEntry(c, e) && e.kind !in {TrialStarted, TrialUnavailable}
  }

  lemma {:induction false} OneIsLegal(c: Catalog, s: Subscription, e: Edit)
    requires |e.added| == 1 && Checks(e.sub) && e.sub.trialStartedAt == s.trialStartedAt && e.sub.version == s.version
    requires ChainStep(On(s.status), e.added[0]) == On(e.sub.status) && PlainEntry(c, e.added[0])
    requires e.sub == s ==> e.added[0].to.None?
    requires e.sub.status == Active && s.status != Active ==> Paying(e.added[0])
    ensures Legal(c, s, e)
  {
    assert e.added == [e.added[0]];
    OneReplay(On(s.status), e.added[0]);
  }

  lemma {:induction false} TwoIsLegal(c: Catalog, s: Subscription, e: Edit)
    requires |e.added| == 2 && Checks(e.sub) && e.sub.trialStartedAt == s.trialStartedAt && e.sub.version == s.version
    requires ChainStep(ChainStep(On(s.status), e.added[0]), e.added[1]) == On(e.sub.status)
    requires PlainEntry(c, e.added[0]) && PlainEntry(c, e.added[1]) && e.sub != s && Paying(e.added[1])
    ensures Legal(c, s, e)
  {
    assert e.added == [e.added[0], e.added[1]];
    TwoReplay(On(s.status), e.added[0], e.added[1]);
  }

  /** A paid invoice: at most one status move, to active, and then the invoice event. */
  lemma {:induction false} ApplyInvoiceIsLegal(c: Catalog, s: Subscription, event: BillingEvent)
    requires Checks(s) && event.InvoicePaidEvent?
    ensures Legal(c, s, ApplyInvoice(s, c, event).edit)
  {
    hide Legal, Replay;
    var e := ApplyInvoice(s, c, event).edit;
    if e.added == [] {
      SameIsLegal(c, s, s);
    } else if s.status == Active {
      OneIsLegal(c, s, e);
    } else {
      TwoIsLegal(c, s, e);
    }
  }

  lemma {:induction false} ApplyEventIsLegal(c: Catalog, s: Subscription, event: BillingEvent, provider: string)
    requires Checks(s)
    ensures Legal(c, s, ApplyEvent(s, c, event, provider).edit)
  {
    hide Legal, ApplyCheckout, ApplyInvoice, ApplyEvent;
    match event
    case CheckoutCompleted(_, _, _) =>
      ApplyCheckoutIsLegal(c, s, event, provider);
      EventCases(c, s, event, provider);
    case InvoicePaidEvent(_, _, _, _, _, _) =>
      ApplyInvoiceIsLegal(c, s, event);
      EventCases(c, s, event, provider);
    case SubscriptionUpdated(_, _, _) =>
      UpdateIsLegal(c, s, event, provider);
    case _ =>
      EndingIsLegal(c, s, event, provider);
  }

  lemma {:induction false} EventCases(c: Catalog, s: Subscription, event: BillingEvent, provider: string)
    ensures event.CheckoutCompleted? ==> ApplyEvent(s, c, event, provider).edit == ApplyCheckout(s, event, provider)
    ensures event.InvoicePaidEvent? ==> ApplyEvent(s, c, event, provider) == ApplyInvoice(s, c, event)
  {
    hide ApplyCheckout, ApplyInvoice;
  }

  lemma {:induction false} UpdateIsLegal(c: Catalog, s: Subscription, event: BillingEvent, provider: string)
    requires Checks(s) && event.SubscriptionUpdated?
    ensures Legal(c, s, ApplyEvent(s, c, event, provider).edit)
  {
    hide Legal, Replay;
    var e := ApplyEvent(s, c, event, provider).edit;
    if e.added == [] {
      SameIsLegal(c, s, e.sub);
    } else {
      OneIsLegal(c, s, e);
    }
  }

  /** A failed payment, or the provider's cancellation. */
  lemma {:induction false} EndingIsLegal(c: Catalog, s: Subscription, event: BillingEvent, provider: string)
    requires Checks(s) && (event.InvoicePaymentFailed? || event.SubscriptionCanceled?)
    ensures Legal(c, s, ApplyEvent(s, c, event, provider).edit)
  {
    hide Legal, Replay;
    var e := ApplyEvent(s, c, event, provider).edit;
    if e.added == [] {
      SameIsLegal(c, s, e.sub);
    } else {
      OneIsLegal(c, s, e);
    }
  }

  /** A status move on top of a legal edit that the table, or the override table, allows. */
  lemma {:induction false} MovedIsLegal(c: Catalog, s: Subscription, e: Edit, sub: Subscription,
                                        target: SubscriptionStatus, source: Source)
    requires Legal(c, s, e) && Checks(e.sub) && Checks(sub)
    requires sub.status == target && sub.trialStartedAt == s.trialStartedAt && sub.version == s.version
    requires CheckTransition(e.sub.status, target, source == Admin) != Refused
    requires target == Active ==> e.sub.status == Active
    requires sub == s ==> Moved(e, target, StatusOverridden, source).added == []
    ensures Legal(c, s, Moved(e, target, StatusOverridden, source).(sub := sub))
  {
    var m := Moved(e, target, StatusOverridden, source);
    if e.sub.status != target {
      ReplayNoted(On(s.status), e.added, m.added[|e.added|]);
    } else if e.sub.status == Active && s.status != Active {
      var k :| 0 <= k < |e.added| && Paying(e.added[k]);
      assert Paying(m.added[k]);
    }
  }

  /** A move made by a superadmin after the sync, before the event that explains it. */
  lemma {:induction false} OverrideMoveIsLegal(c: Catalog, s: Subscription, now: int, sub: Subscription,
                                               target: SubscriptionStatus)
    requires Checks(s) && Checks(sub) && sub.status == target && target != Active
    requires sub.trialStartedAt == s.trialStartedAt && sub.version == s.version
    requires CheckTransition(Sync(s, now).sub.status, target, true) != Refused
    requires sub == s ==> Sync(s, now).sub.status == s.status
    ensures Legal(c, s, Moved(Sync(s, now), target, StatusOverridden, Admin).(sub := sub))
  {
    hide Legal, Replay, Checks;
    var e := Sync(s, now);
    SyncIsLegal(c, s, now);
    EditFacts(c, s, e);
    UnsyncedBase(s, now);
    MovedIsLegal(c, s, e, sub, target, Admin);
  }

  lemma {:induction false} TrialAgain(status: SubscriptionStatus)
    requires status in {Trialing, Lapsed}
    ensures CheckTransition(status, Trialing, true) != Refused
  {
  }

  lemma {:induction false} LongerFacts(sub: Subscription, days: int, now: int)
    requires Checks(sub) && sub.trialStartedAt.Some? && days >= 1
    ensures var longer := Longer(sub, days, now);
            && longer.status == sub.status && longer.trialStartedAt == sub.trialStartedAt
               && longer.version == sub.version
            && Checks(longer.(status := Trialing)) && longer.trialEndsAt != sub.trialEndsAt
  {
  }

  lemma {:induction false} TrialExtensionParts(e: Edit, days: int, now: int)
    requires TrialExtension(e, days, now).Saved?
    ensures days >= 1 && e.sub.trialStartedAt.Some? && e.sub.status in {Trialing, Lapsed}
    ensures var longer := Longer(e.sub, days, now).(status := Trialing);
            TrialExtension(e, days, now).edit ==
            Noted(Moved(e, Trialing, StatusOverridden, Admin).(sub := longer), TrialExtended, Admin, NoDetail)
  {
    MovedSub(e, Longer(e.sub, days, now), Trialing);
  }

  lemma {:induction false} LongerIsNew(s: Subscription, days: int, now: int)
    requires Checks(s) && Sync(s, now).sub.trialStartedAt.Some? && days >= 1
    ensures Longer(Sync(s, now).sub, days, now).(status := Trialing) != s
  {
    SyncParts(s, now);
    hide EffectiveStatus;
  }

  lemma {:induction false} ExtendTrialIsLegal(c: Catalog, s: Subscription, days: int, now: int)
    requires Checks(s)
    ensures var o := TrialExtension(Sync(s, now), days, now); o.Saved? ==> Legal(c, s, o.edit)
  {
    hide Legal, Replay, Sync, Moved, CheckTransition, TrialExtension, Longer, Checks;
    var e := Sync(s, now);
    SyncIsLegal(c, s, now);
    EditFacts(c, s, e);
    if TrialExtension(e, days, now).Saved? {
      TrialExtensionParts(e, days, now);
      LongerFacts(e.sub, days, now);
      LongerIsNew(s, days, now);
      TrialAgain(e.sub.status);
      var longer := Longer(e.sub, days, now).(status := Trialing);
      OverrideMoveIsLegal(c, s, now, longer, Trialing);
      NoInvoice(c, TrialExtended, Admin);
      NotedIsLegal(c, s, Moved(e, Trialing, StatusOverridden, Admin).(sub := longer), longer, TrialExtended, Admin,
                   NoDetail);
    }
  }

  /** Moving first and changing other columns after, or the other way round, is the same. */
  lemma {:induction false} MovedSub(e: Edit, sub: Subscription, target: SubscriptionStatus)
    requires sub.status == e.sub.status
    ensures Moved(e.(sub := sub), target, StatusOverridden, Admin) ==
            Moved(e, target, StatusOverridden, Admin).(sub := sub.(status := target))
  {
  }

  /** Granting access: the status move alone would leave the subscription active without a paying event, so the move and
      the grant event are taken together. */
  lemma {:induction false} GrantIsLegal(c: Catalog, s: Subscription, until: int, now: int)
    requires Checks(s)
    ensures var o := AccessGrant(Sync(s, now), until, now); o.Saved? ==> Legal(c, s, o.edit)
  {
    hide Legal, Replay, Sync;
    var e := Sync(s, now);
    SyncIsLegal(c, s, now);
    EditFacts(c, s, e);
    UnsyncedBase(s, now);
    var o := AccessGrant(e, until, now);
    if o.Saved? {
      if e.sub.status == Active {
        NoInvoice(c, AccessGranted, Admin);
        NotedIsLegal(c, s, e, o.edit.sub, AccessGranted, Admin, NoDetail);
      } else {
        GrantedIsLegal(c, s, e, o.edit);
      }
    }
  }

  lemma {:induction false} GrantedIsLegal(c: Catalog, s: Subscription, e: Edit, g: Edit)
    requires Legal(c, s, e) && Checks(g.sub) && e.sub.status != Active && g.sub.status == Active
    requires g.sub.trialStartedAt == s.trialStartedAt && g.sub.version == s.version && g.sub != s
    requires g.added == e.added + [Entry(StatusOverridden, Some(e.sub.status), Some(Active), Admin, NoDetail)]
                        + [Entry(AccessGranted, None, None, Admin, NoDetail)]
    ensures Legal(c, s, g)
  {
    var move := Entry(StatusOverridden, Some(e.sub.status), Some(Active), Admin, NoDetail);
    var grant := Entry(AccessGranted, None, None, Admin, NoDetail);
    ReplayNoted(On(s.status), e.added, move);
    ReplayNoted(On(s.status), e.added + [move], grant);
    assert Paying(g.added[|e.added| + 1]);
    forall k | 0 <= k < |g.added| ensures PlainEntry(c, g.added[k]) {
      if k < |e.added| {
        assert g.added[k] == e.added[k];
      }
    }
  }

  lemma {:induction false} ForcePlanIsLegal(c: Catalog, s: Subscription, plan: string, now: int)
    requires Checks(s)
    ensures var o := ForcedPlan(Sync(s, now), c, plan); o.Saved? ==> Legal(c, s, o.edit)
  {
    hide Legal, Replay, Sync;
    var e := Sync(s, now);
    SyncIsLegal(c, s, now);
    EditFacts(c, s, e);
    UnsyncedBase(s, now);
    NoInvoice(c, PlanOverridden, Admin);
    if ForcedPlan(e, c, plan).Saved? {
      NotedIsLegal(c, s, e, e.sub.(plan := plan, pendingPlan := None), PlanOverridden, Admin, NoDetail);
    }
  }

  lemma {:induction false} EndIsLegal(c: Catalog, s: Subscription, now: int)
    requires Checks(s)
    ensures var o := Ending(Sync(s, now), now); o.Saved? ==> Legal(c, s, o.edit)
  {
    hide Legal, Replay, Sync, Moved;
    var e := Sync(s, now);
    SyncIsLegal(c, s, now);
    EditFacts(c, s, e);
    UnsyncedBase(s, now);
    if Ending(e, now).Saved? {
      var target := if e.sub.status == Trialing then Lapsed else Canceled;
      var sub := e.sub.(endedAt := Some(now), cancelAtPeriodEnd := false);
      MovedStatus(e, target, StatusOverridden, Admin);
      OverrideMoveIsLegal(c, s, now, sub.(status := target), target);
    }
  }

  lemma {:induction false} AdminOverrideIsLegal(c: Catalog, s: Subscription, action: Override, now: int)
    requires Checks(s)
    ensures var o := AdminOverride(s, c, action, now); o.Saved? ==> Legal(c, s, o.edit)
  {
    hide Legal, Sync, TrialExtension, ForcedPlan, AccessGrant, Ending;
    match action
    case ExtendTrial(days) => ExtendTrialIsLegal(c, s, days, now);
    case ForcePlan(plan) => ForcePlanIsLegal(c, s, plan, now);
    case GrantAccess(until) => GrantIsLegal(c, s, until, now);
    case EndNow => EndIsLegal(c, s, now);
  }

  lemma {:induction false} MovedStatus(e: Edit, target: SubscriptionStatus, kind: EventKind, source: Source)
    ensures Moved(e, target, kind, source).sub == e.sub.(status := target)
  {
  }
}
