/** What each billing operation accepts and leaves behind, in the terms of the request, the event and the calendar. */
module SubscriptionAnswers {
  import opened Tables
  import opened Subscriptions
  import opened SubscriptionChanges
  import opened SubscriptionRuns
  import opened SubscriptionTheorems

  const THREE_DAYS: int := 259_200_000_000
  const SEVEN_DAYS: int := 604_800_000_000
  const THIRTY_DAYS: int := 2_592_000_000_000

  // --------------------------------------------------------------------- access

  /** A moment that has not come, or never will. */
  predicate Ahead(moment: Option<int>, grace: int, now: int) {
    moment.None? || now < moment.value + grace
  }

  /** Access and its reason over time, status by status: a trial to its end, and three days longer while its first
      payment is being processed; a paid period to its end, and three days longer while its renewal is; seven days past
      due. */
  lemma {:induction false} AccessIs(s: Subscription, now: int)
    ensures var d, trial, period := EvaluateAccess(Some(s), now), s.trialEndsAt, s.periodEnd;
            var over := Decision(false, if s.trialStartedAt.Some? then TrialExpired else SubscriptionRequired);
            match s.status
            case Trialing =>
              d == if Ahead(trial, 0, now) then Decision(true, TrialingReason)
                   else if s.paymentMethod && !s.cancelAtPeriodEnd && Ahead(trial, THREE_DAYS, now)
                   then Decision(true, PaymentProcessing) else over
            case Active =>
              d == if Ahead(period, 0, now) then Decision(true, ActiveReason)
                   else if !s.cancelAtPeriodEnd && Ahead(period, THREE_DAYS, now) then Decision(true, RenewalProcessing)
                   else Decision(false, CanceledReason)
            case PastDue =>
              d == if Ahead(period, SEVEN_DAYS, now) then Decision(true, PastDueReason)
                   else Decision(false, CanceledReason)
            case Lapsed => d == over
            case Canceled => d == Decision(false, CanceledReason)
    ensures EvaluateAccess(None, now) == Decision(false, PlanRequired)
  {
  }

  /** What time decides is written with the moment it is noticed, once, and drops a planned change. */
  lemma {:induction false} LapseIs(s: Subscription, now: int)
    ensures var e, target := Sync(s, now), EffectiveStatus(s, now);
            if target == s.status then e == Edit(s, [])
            else
              && e.sub == s.(status := target, pendingPlan := None,
                             endedAt := if s.endedAt.None? then Some(now) else s.endedAt)
              && e.added == [Entry(LapsedEvent, Some(s.status), Some(target), System, NoDetail)]
  {
  }

  // ---------------------------------------------------------------------- trial

  /** A started trial gives access for exactly thirty days, until a later change; a refused one gives none. */
  lemma {:induction false} TrialLastsThirtyDays(plan: string, interval: Interval, now: int, at: int)
    ensures EvaluateAccess(Some(NewSubscription(plan, interval, true, now)), at) ==
            if at < now + THIRTY_DAYS then Decision(true, TrialingReason) else Decision(false, TrialExpired)
    ensures EvaluateAccess(Some(NewSubscription(plan, interval, false, now)), at) ==
            Decision(false, SubscriptionRequired)
    ensures forall trial: bool ::
              var s := NewSubscription(plan, interval, trial, now);
              && s.plan == plan && s.interval == interval && s.trialStartedAt == (if trial then Some(now) else None)
              && s.periodEnd.None? && s.periodStart.None? && s.pendingPlan.None? && !s.cancelAtPeriodEnd
              && !s.paymentMethod && s.subscriptionRef.None? && s.customerRef.None? && s.provider.None?
  {
  }

  /** The identity is claimed by another business. */
  predicate Taken(claims: map<string, string>, identity: string, business: string) {
    identity in claims && claims[identity] != business
  }

  /** Onboarding a new business that goes through: it is stored with a trial exactly when its look found none of its
      identities taken by another business, and then claims them all. */
  lemma {:induction false} TrialIsGrantedIff(w: World, step: Step)
    requires w.history != [] && step.StartTrial? && Next(w, step).history != w.history
    ensures var claims, d := Seen(w, step.claimsAt).claims, Last(Next(w, step));
            var granted := forall h | h in step.hashes :: !Taken(claims, h, step.business);
            && step.business !in Last(w).subs && OnSale(step.catalog, step.plan, step.interval) && step.room
            && step.business in d.subs
            && d.subs[step.business] == NewSubscription(step.plan, step.interval, granted, step.now)
            && d.subs == Last(w).subs[step.business := d.subs[step.business]]
            && Entries(Log(d, step.business)) ==
               [if granted then Entry(TrialStarted, None, Some(Trialing), Owner, NoDetail)
                else Entry(TrialUnavailable, None, Some(Lapsed), Owner, NoDetail)]
            && d.claims == if granted then Last(w).claims + map h | h in step.hashes ::
               step.business else Last(w).claims
  {
    hide Seen, NewSubscription;
    var claims := Seen(w, step.claimsAt).claims;
    assert Claimed(claims, step.hashes, step.business) <==> exists h | h in step.hashes ::
           Taken(claims, h, step.business);
  }

  // ------------------------------------------------------------------- invoices

  /** A paid invoice that takes effect, and is not of the running period: the row is on the invoice's plan and interval
      for exactly the invoice's period, with a payment method, and no end; a change to this plan is no longer pending.
      Until the period ends access holds as active; three days longer for the renewal, unless a cancellation is set. */
  lemma {:induction false} InvoicePaysUntilItsEnd(s: Subscription, c: Catalog, event: BillingEvent, at: int)
    requires event.InvoicePaidEvent? && ApplyInvoice(s, c, event).processed
    requires !(s.status == Active && s.periodStart == event.start)
    ensures event.start.Some? && event.end.Some?
    ensures var after, e := ApplyInvoice(s, c, event).edit.sub, ApplyInvoice(s, c, event).edit;
            var plan := if event.paidPlan.None? then s.plan else event.paidPlan.value;
            var interval := if event.paidInterval.None? then s.interval else event.paidInterval.value;
            && after == s.(status := Active, plan := plan, interval := interval, periodStart := event.start,
                           periodEnd := event.end, paymentMethod := true, endedAt := None,
                           pendingPlan := if s.pendingPlan == Some(plan) then None else s.pendingPlan)
            && EvaluateAccess(Some(after), at) ==
               (if at < event.end.value then Decision(true, ActiveReason)
                else if !s.cancelAtPeriodEnd && at < event.end.value + THREE_DAYS then Decision(true, RenewalProcessing)
                else Decision(false, CanceledReason))
            && |e.added| == (if s.status == Active then 1 else 2)
            && e.added[|e.added| - 1] ==
               Entry(InvoicePaid, None, None, Provider,
                     Invoice(plan, interval, c.prices[PriceKey(plan, interval)], event.start.value,
                             event.end.value))
            && (s.status != Active ==> e.added[0] == Entry(Activated, Some(s.status), Some(Active), Provider, NoDetail))
  {
    hide Paying;
    var after := ApplyInvoice(s, c, event).edit.sub;
    InvoiceRow(s, c, event);
    hide ApplyInvoice;
    ActiveAccess(after, at);
  }

  lemma {:induction false} InvoiceRow(s: Subscription, c: Catalog, event: BillingEvent)
    requires event.InvoicePaidEvent? && ApplyInvoice(s, c, event).processed
    requires !(s.status == Active && s.periodStart == event.start)
    ensures event.start.Some? && event.end.Some?
    ensures var plan := if event.paidPlan.None? then s.plan else event.paidPlan.value;
            var interval := if event.paidInterval.None? then s.interval else event.paidInterval.value;
            && PriceKey(plan, interval) in c.prices
            && ApplyInvoice(s, c, event).edit.sub ==
               s.(status := Active, plan := plan, interval := interval, periodStart := event.start,
                  periodEnd := event.end, paymentMethod := true, endedAt := None,
                  pendingPlan := if s.pendingPlan == Some(plan) then None else s.pendingPlan)
            && var added := ApplyInvoice(s, c, event).edit.added;
               var paid := Entry(InvoicePaid, None, None, Provider,
                                 Invoice(plan, interval, c.prices[PriceKey(plan, interval)], event.start.value,
                             event.end.value));
               added == if s.status == Active then [paid]
                        else [Entry(Activated, Some(s.status), Some(Active), Provider, NoDetail), paid]
  {
  }

  lemma {:induction false} ActiveAccess(s: Subscription, at: int)
    requires s.status == Active && s.periodEnd.Some?
    ensures EvaluateAccess(Some(s), at) ==
            if at < s.periodEnd.value then Decision(true, ActiveReason)
            else if !s.cancelAtPeriodEnd && at < s.periodEnd.value + THREE_DAYS then Decision(true, RenewalProcessing)
            else Decision(false, CanceledReason)
  {
  }

  // -------------------------------------------------------------- other events

  /** A completed checkout brings the payment method and the provider's names, the first of each kind for good. The plan
      chosen in it counts unless the subscription is active already, and a cancellation set during the trial is undone.
      No other column changes. */
  lemma {:induction false} CheckoutCompletedIs(s: Subscription, c: Catalog, event: BillingEvent, name: string)
    requires event.CheckoutCompleted?
    ensures var a := ApplyEvent(s, c, event, name);
            var chosen := event.session.Some? && s.status != Active;
            var undone := s.status == Trialing && s.cancelAtPeriodEnd;
            && a.processed
            && a.edit.added == [Entry(PaymentMethodAdded, None, None, Provider, NoDetail)]
            && a.edit.sub ==
               s.(provider := Some(name), paymentMethod := true,
                  customerRef := if s.customerRef.None? then event.customer else s.customerRef,
                  subscriptionRef := if s.subscriptionRef.None? then event.ref else s.subscriptionRef,
                  plan := if chosen then event.session.value.plan else s.plan,
                  interval := if chosen then event.session.value.interval else s.interval,
                  cancelAtPeriodEnd := s.cancelAtPeriodEnd && !undone,
                  canceledAt := if undone then None else s.canceledAt)
  {
  }

  /** A failed payment makes a trialing, active or past-due subscription past due, and changes nothing else. */
  lemma {:induction false} PaymentFailedIs(s: Subscription, c: Catalog, name: string)
    ensures var a := ApplyEvent(s, c, InvoicePaymentFailed, name);
            && (a.processed <==> s.status in {Trialing, Active, PastDue})
            && a.edit.sub == (if a.processed then s.(status := PastDue) else s)
            && a.edit.added == if a.processed && s.status != PastDue
                               then [Entry(PaymentFailed, Some(s.status), Some(PastDue), Provider, NoDetail)] else []
  {
  }

  /** The provider's cancellation ends the subscription at the moment it names: a trial lapses, anything else that has
      not lapsed is canceled. */
  lemma {:induction false} ProviderCancellationIs(s: Subscription, c: Catalog, moment: int, name: string)
    ensures var a := ApplyEvent(s, c, SubscriptionCanceled(moment), name);
            var target := if s.status == Trialing then Lapsed else Canceled;
            && (a.processed <==> s.status != Lapsed)
            && a.edit.sub == (if a.processed
                              then s.(status := target, endedAt := Some(moment), cancelAtPeriodEnd := false,
                                                     pendingPlan := None) else s)
            && a.edit.added == if a.processed && s.status != target
                               then [Entry(Ended, Some(s.status), Some(target), Provider, NoDetail)] else []
  {
  }

  /** An update sets the cancellation flag if it says so, and moves to another plan if it is offered; a plan that is not
      leaves only the flag. */
  lemma {:induction false} UpdateIs(s: Subscription, c: Catalog, event: BillingEvent, name: string)
    requires event.SubscriptionUpdated?
    ensures var a := ApplyEvent(s, c, event, name);
            var moves := event.newPlan.Some? && event.newPlan.value != s.plan && event.newPlan.value in c.plans;
            && (a.processed <==> event.newPlan.None? || event.newPlan.value == s.plan || event.newPlan.value in c.plans)
            && a.edit.sub ==
               s.(cancelAtPeriodEnd := if event.cancel.Some? then event.cancel.value else s.cancelAtPeriodEnd,
                  plan := if moves then event.newPlan.value else s.plan,
                  interval := if moves && event.newInterval.Some? then event.newInterval.value else s.interval,
                  pendingPlan := if moves && s.pendingPlan == event.newPlan then None else s.pendingPlan)
            && a.edit.added == if moves then [Entry(PlanChanged, None, None, Provider, NoDetail)] else []
  {
  }

  // --------------------------------------------------------------- owner actions

  /** A plan change is accepted exactly when the plan is on sale and a change, the business fits into it, and a running
      paid subscription can be changed at the provider and has a price to compare with. */
  lemma {:induction false} PlanChangeAcceptedIff(s: Subscription, c: Catalog, plan: string, interval: Interval,
                                                 now: int,
                                                 capacity: bool, provider: bool)
    ensures var before := Sync(s, now).sub;
            var paid := before.status in {Active, PastDue} && before.subscriptionRef.Some?;
            ChangePlan(s, c, plan, interval, now, capacity, provider).Saved? <==>
            && OnSale(c, plan, interval) && capacity
            && (before.plan != plan || before.interval != interval || before.pendingPlan.Some?)
            && (paid ==> provider && PriceKey(before.plan, before.interval) in c.prices)
  {
    hide Sync;
  }

  /** What a plan change leaves: without a running paid subscription the plan changes at once; with one, a dearer plan
      of the same interval is only requested at the provider, and any other is pending. No other column changes. */
  lemma {:induction false} PlanChangeIs(s: Subscription, c: Catalog, plan: string, interval: Interval, now: int,
                                        capacity: bool, provider: bool)
    requires ChangePlan(s, c, plan, interval, now, capacity, provider).Saved?
    ensures var before, e := Sync(s, now), ChangePlan(s, c, plan, interval, now, capacity, provider).edit;
            var paid := before.sub.status in {Active, PastDue} && before.sub.subscriptionRef.Some?;
            var dearer := Dearer(c, before.sub, plan, interval);
            && e.sub == (if !paid then before.sub.(plan := plan, interval := interval, pendingPlan := None)
                         else if dearer then before.sub else before.sub.(pendingPlan := Some(plan)))
            && var kind := if !paid then PlanChanged else if dearer then PlanChangeRequested else PlanChangeScheduled;
               e.added == before.added + [Entry(kind, None, None, Owner, NoDetail)]
  {
    hide Sync;
  }

  /** A checkout is started exactly when payment is available, the plan is on sale, the business fits into it, and it is
      not active with a payment method and without a cancellation; it changes nothing but what time has decided. */
  lemma {:induction false} CheckoutAcceptedIff(s: Subscription, c: Catalog, plan: string, interval: Interval, now: int,
                                               capacity: bool, provider: bool)
    ensures var before := Sync(s, now);
            var o := CreateCheckout(s, c, plan, interval, now, capacity, provider);
            && (o.Saved? <==>
                  provider && OnSale(c, plan, interval) && capacity
                  && (before.sub.status != Active || !before.sub.paymentMethod || before.sub.cancelAtPeriodEnd))
            && (o.Saved? ==>
                  o.edit == Edit(before.sub, before.added + [Entry(CheckoutStarted, None, None, Owner, NoDetail)]))
  {
    hide Sync;
  }

  /** Cancelling at the period's end, or taking it back, is accepted exactly for a subscription in use on which it is a
      change, with the provider at hand if it knows it; it sets the flag and its time. */
  lemma {:induction false} CancelAcceptedIff(s: Subscription, cancel: bool, now: int, provider: bool)
    ensures var before, o := Sync(s, now), SetCancel(s, cancel, now, provider);
            && (o.Saved? <==>
                  before.sub.status in {Trialing, Active, PastDue} && before.sub.cancelAtPeriodEnd != cancel
                  && (before.sub.subscriptionRef.Some? ==> provider))
            && (o.Saved? ==>
                  o.edit ==
                  Edit(before.sub.(cancelAtPeriodEnd := cancel, canceledAt := if cancel then Some(now) else None),
                       before.added + [Entry(if cancel then CancelScheduled
                                             else CancelReverted, None, None, Owner, NoDetail)]))
  {
    hide Sync;
  }

  // ------------------------------------------------------------------- overrides

  /** The event of an administrator's move, if there is one. */
  function Overridden(from: SubscriptionStatus, to: SubscriptionStatus): seq<Entry> {
    if from == to then [] else [Entry(StatusOverridden, Some(from), Some(to), Admin, NoDetail)]
  }

  /** Extending a trial: by 1 to 90 days, for a business that had one and is on trial or lapsed; the days count from the
      trial's end, or from now if that has passed. */
  lemma {:induction false} ExtensionIs(s: Subscription, c: Catalog, days: int, now: int)
    ensures var synced, o := Sync(s, now), AdminOverride(s, c, ExtendTrial(days), now);
            var before := synced.sub;
            && (o.Saved? <==> 1 <= days <= 90 && before.trialStartedAt.Some? && before.status in {Trialing, Lapsed})
            && (o.Saved? ==>
                  && o.edit.sub == before.(status := Trialing, cancelAtPeriodEnd := false, endedAt := None,
                                           trialEndsAt := o.edit.sub.trialEndsAt)
                  && o.edit.sub.trialEndsAt ==
                     Some(days * 86_400_000_000 +
                          if Reached(before.trialEndsAt, now) || before.trialEndsAt.None? then now
                            else before.trialEndsAt.value)
                  && o.edit.added ==
                     synced.added + Overridden(before.status, Trialing)
                       + [Entry(TrialExtended, None, None, Admin, NoDetail)])
  {
    hide Sync;
  }

  /** Forcing a plan: any plan offered, at once. */
  lemma {:induction false} ForcedPlanIs(s: Subscription, c: Catalog, plan: string, now: int)
    ensures var before, o := Sync(s, now), AdminOverride(s, c, ForcePlan(plan), now);
            && (o.Saved? <==> plan in c.plans)
            && (o.Saved? ==> o.edit == Edit(before.sub.(plan := plan, pendingPlan := None),
                                            before.added + [Entry(PlanOverridden, None, None, Admin, NoDetail)]))
  {
    hide Sync;
  }

  /** Granting access: to a time in the next 366 days, as an active period from now that is not renewed. */
  lemma {:induction false} GrantIs(s: Subscription, c: Catalog, until: int, now: int)
    ensures var synced, o := Sync(s, now), AdminOverride(s, c, GrantAccess(until), now);
            var before := synced.sub;
            && (o.Saved? <==> now < until <= now + 31_622_400_000_000)
            && (o.Saved? ==>
                  && o.edit.sub == before.(status := Active, periodStart := Some(now), periodEnd := Some(until),
                                           cancelAtPeriodEnd := true, endedAt := None)
                  && o.edit.added ==
                     synced.added + Overridden(before.status, Active)
                       + [Entry(AccessGranted, None, None, Admin, NoDetail)])
  {
    hide Sync;
  }

  /** Ending: anything that has not lapsed, at once. */
  lemma {:induction false} EndIs(s: Subscription, c: Catalog, now: int)
    ensures var synced, o := Sync(s, now), AdminOverride(s, c, EndNow, now);
            var before := synced.sub;
            var target := if before.status == Trialing then Lapsed else Canceled;
            && (o.Saved? <==> before.status != Lapsed)
            && (o.Saved? ==>
                  o.edit == Edit(before.(status := target, endedAt := Some(now), cancelAtPeriodEnd := false),
                                 synced.added + Overridden(before.status, target)))
  {
    hide Sync;
  }
}
