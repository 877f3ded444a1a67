/** What subscription billing promises, over every run. */
module SubscriptionTheorems {
  import opened Tables
  import opened Calendar
  import opened Subscriptions
  import opened SubscriptionChanges
  import opened SubscriptionRuns

  lemma {:induction false} AccountAt(steps: seq<Step>, k: nat, b: string)
    requires k < |After(steps).history| && b in After(steps).history[k].subs
    ensures AccountInv(After(steps).history[k].subs[b], Log(After(steps).history[k], b))
  {
    hide AccountInv, Extends;
    EveryRunKeepsInvariant(steps);
    assert Past(After(steps).history[k], Last(After(steps)));
  }

  /** The event log replays to the stored status: numbers are exactly 1..n, the status-bearing events form a chain of
      moves the table allows for their source (override edges only from an administrator), and the chain ends at the
      row's status. */
  lemma {:induction false} LogReplaysToStatus(steps: seq<Step>, k: nat, b: string)
    requires k < |After(steps).history| && b in After(steps).history[k].subs
    ensures var s := After(steps).history[k];
            && (forall n | 0 <= n < |Log(s, b)| :: Log(s, b)[n].sequence == n + 1)
            && Replay(Start, Entries(Log(s, b))) == On(s.subs[b].status)
  {
    hide Replay;
    AccountAt(steps, k, b);
  }

  /** A subscription is active only after a paid invoice or a granted access. */
  lemma {:induction false} ActiveIsPaidFor(steps: seq<Step>, k: nat, b: string)
    requires k < |After(steps).history| && b in After(steps).history[k].subs
    ensures var s := After(steps).history[k];
            s.subs[b].status == Active ==> exists n :: 0 <= n < |Log(s, b)| && Paying(Log(s, b)[n].entry)
  {
    hide Replay;
    AccountAt(steps, k, b);
    var log := Log(After(steps).history[k], b);
    if After(steps).history[k].subs[b].status == Active {
      var n :| 0 <= n < |Entries(log)| && Paying(Entries(log)[n]);
      assert Paying(log[n].entry);
    }
  }

  /** The row's CHECK constraints hold in every committed state; and no operation on a legal row ever builds a row that
      violates them. */
  lemma {:induction false} RowsStayLegal(steps: seq<Step>, k: nat, b: string, c: Catalog, op: Operation, now: int)
    requires k < |After(steps).history| && b in After(steps).history[k].subs
    ensures Checks(After(steps).history[k].subs[b])
    ensures var o := Operate(op, After(steps).history[k].subs[b], c, now); o.Saved? ==> Checks(o.edit.sub)
  {
    hide Replay, Operate, Checks;
    AccountAt(steps, k, b);
    OperationIsLegal(c, op, After(steps).history[k].subs[b], now);
  }

  /** In every state: a trial, and a paid period, ends after it starts, a subscription on trial has one, and no two
      businesses share the provider's reference. */
  lemma {:induction false} RowsAreDated(steps: seq<Step>, k: nat, b: string, other: string)
    requires k < |After(steps).history| && b in After(steps).history[k].subs
    ensures var s := After(steps).history[k].subs[b];
            && s.version >= 1
            && (s.status == Trialing ==> s.trialStartedAt.Some?)
            && (s.trialStartedAt.Some? <==> s.trialEndsAt.Some?)
            && (s.trialStartedAt.Some? ==> s.trialStartedAt.value < s.trialEndsAt.value)
            && (s.periodStart.Some? && s.periodEnd.Some? ==> s.periodStart.value < s.periodEnd.value)
    ensures var subs := After(steps).history[k].subs;
            other in subs && other != b && subs[b].subscriptionRef.Some? && subs[other].provider == subs[b].provider ==>
              subs[other].subscriptionRef != subs[b].subscriptionRef
  {
    hide After;
    RefsAreUnique(steps, k);
    ChecksOf(steps, k, b);
  }

  lemma {:induction false} ChecksOf(steps: seq<Step>, k: nat, b: string)
    requires k < |After(steps).history| && b in After(steps).history[k].subs
    ensures Checks(After(steps).history[k].subs[b])
  {
    hide Checks, Replay;
    AccountAt(steps, k, b);
  }

  lemma {:induction false} RefsAreUnique(steps: seq<Step>, k: nat)
    requires k < |After(steps).history|
    ensures UniqueRefs(After(steps).history[k].subs)
  {
    hide AccountInv, Extends, UniqueRefs;
    EveryRunKeepsInvariant(steps);
    assert Past(After(steps).history[k], Last(After(steps)));
  }

  // -------------------------------------------------------------------- trials

  /** At most one trial per identity: whatever onboarding calls run, race and retry, no identity was presented for the
      started trials of two businesses. */
  lemma {:induction false} OneTrialPerIdentity(steps: seq<Step>, a: string, b: string, identity: string)
    requires a in After(steps).starts && b in After(steps).starts
    requires identity in After(steps).starts[a] && identity in After(steps).starts[b]
    ensures a == b
  {
    hide Past;
    EveryRunKeepsInvariant(steps);
  }

  lemma {:induction false} HistoryIsOrdered(steps: seq<Step>, j: nat, k: nat)
    requires j <= k < |After(steps).history|
    ensures Extends(After(steps).history[j], After(steps).history[k])
    decreases |steps|
  {
    hide Inv, Extends, TrialInv, OperateOn, SweepAll, CommitTrial, OnSale, Claimed, Seen;
    var w := After(steps);
    if k == |w.history| - 1 {
      EveryRunKeepsInvariant(steps);
      assert Past(w.history[j], Last(w));
    } else {
      HistoryIsOrdered(steps[..|steps| - 1], j, k);
    }
  }

  /** At most one trial per business: the trial start is written when the row is created and never again, so no later
      operation starts a trial where none was granted; and a row has one exactly when its log begins with
      `trial_started`. */
  lemma {:induction false} TrialStartIsWriteOnce(steps: seq<Step>, j: nat, k: nat, b: string)
    requires j <= k < |After(steps).history| && b in After(steps).history[j].subs
    ensures b in After(steps).history[k].subs
    ensures After(steps).history[k].subs[b].trialStartedAt == After(steps).history[j].subs[b].trialStartedAt
    ensures var log := Log(After(steps).history[k], b);
            && |log| > 0
            && (After(steps).history[k].subs[b].trialStartedAt.Some? <==> log[0].entry.kind == TrialStarted)
            && (forall n | 0 < n < |log| :: log[n].entry.kind != TrialStarted)
            && Log(After(steps).history[j], b) <= log
  {
    hide Replay, Inv, WorldInv, OperateOn, SweepAll, CommitTrial;
    HistoryIsOrdered(steps, j, k);
    AccountAt(steps, k, b);
    var log := Log(After(steps).history[k], b);
    forall n | 0 < n < |log| ensures log[n].entry.kind != TrialStarted {
      assert Entries(log)[n] == log[n].entry;
    }
  }

  /** Retried onboarding returns the existing subscription: nothing is written for a business that already has one,
      even when the retry's own look-up was made before the first call committed. */
  lemma {:induction false} RetriedOnboardingChangesNothing(w: World, step: Step)
    requires w.history != [] && step.StartTrial? && step.business in Last(w).subs
    ensures Next(w, step) == w
  {
  }

  /** Two racing onboardings with a common identity: once one of them has claimed it, the other one commits no trial,
      whatever it saw when it looked. */
  lemma {:induction false} ClaimedIdentityStartsNoTrial(w: World, step: Step, identity: string)
    requires w.history != [] && step.StartTrial? && identity in step.hashes && identity in Last(w).claims
    ensures Next(w, step).starts == w.starts
  {
  }

  // ------------------------------------------------------------- provider events

  /** Which events an illegal transition turns away, and that they leave row and log untouched. */
  lemma {:induction false} RejectedEventsChangeNothing(s: Subscription, c: Catalog, event: BillingEvent,
                                                       provider: string)
    requires event.InvoicePaymentFailed? || event.SubscriptionCanceled?
    ensures !ApplyEvent(s, c, event, provider).processed <==>
            s.status == Lapsed || (event.InvoicePaymentFailed? && s.status == Canceled)
    ensures !ApplyEvent(s, c, event, provider).processed ==> ApplyEvent(s, c, event, provider).edit == Edit(s, [])
  {
  }

  /** A paid invoice takes effect exactly when its plan and interval are on sale, the amount is their price in shekels,
      and the period is a real one; then the row is active for that period. */
  lemma {:induction false} InvoiceActivatesIffPriced(s: Subscription, c: Catalog, event: BillingEvent)
    requires event.InvoicePaidEvent?
    ensures var plan := if event.paidPlan.Some? then event.paidPlan.value else s.plan;
            var interval := if event.paidInterval.Some? then event.paidInterval.value else s.interval;
            var a := ApplyInvoice(s, c, event);
            && (a.processed <==>
                  OnSale(c, plan, interval) && event.shekels && event.amount == Some(c.prices[PriceKey(plan, interval)])
                  && event.start.Some? && event.end.Some? && event.start.value < event.end.value)
            && (a.processed ==> a.edit.sub.status == Active && a.edit.sub.periodStart == event.start)
            && (!a.processed ==> a.edit == Edit(s, []))
  {
  }

  // --------------------------------------------------------------- owner actions

  /** Choosing a plan or starting a checkout changes no access decision and no reason, now or later. */
  lemma {:induction false} PlanChoicesKeepAccess(s: Subscription, c: Catalog, op: Operation, now: int, later: int)
    requires (op.ChangePlanOp? || op.CheckoutOp?) && now <= later
    ensures var o := Operate(op, s, c, now);
            o.Saved? ==> EvaluateAccess(Some(o.edit.sub), later) == EvaluateAccess(Some(s), later)
  {
    hide EffectiveStatus, Synced;
    SyncIsTransparent(s, now, later);
    SyncParts(s, now);
    var o := Operate(op, s, c, now);
    if o.Saved? {
      var synced := Sync(s, now).sub;
      OtherColumnsDoNotDecide(synced, o.edit.sub, later);
    }
  }

  lemma {:induction false} OtherColumnsDoNotDecide(a: Subscription, b: Subscription, at: int)
    requires b == a.(plan := b.plan, interval := b.interval, pendingPlan := b.pendingPlan)
    ensures EvaluateAccess(Some(a), at) == EvaluateAccess(Some(b), at)
  {
  }

  // What leaves access alone, over whole runs.

  predicate SameAccess(a: Subscription, b: Subscription, at: int) {
    EvaluateAccess(Some(a), at) == EvaluateAccess(Some(b), at)
  }

  /** A step that decides nothing about this business by the given time: a sweep, a sync, a plan choice or a checkout
      made until then, or anything at all that another business does. */
  predicate Quiet(step: Step, b: string, later: int) {
    match step
    case StartTrial(_, _, _, _, _, _, _, _, _) => true
    case Operation(_, business, op, now, _, _) =>
      business != b || (now <= later && (op.SyncOp? || op.ChangePlanOp? || op.CheckoutOp?))
    case Sweep(_, now, _, _) => now <= later
  }

  lemma {:induction false} QuietEdit(s: Subscription, c: Catalog, op: Operation, now: int, later: int)
    requires now <= later && (op.SyncOp? || op.ChangePlanOp? || op.CheckoutOp?)
    ensures var o := Operate(op, s, c, now); o.Saved? ==> SameAccess(o.edit.sub, s, later)
  {
    hide ChangePlan, CreateCheckout, EffectiveStatus, EvaluateAccess, Synced;
    if op.SyncOp? {
      SyncParts(s, now);
      SyncIsTransparent(s, now, later);
    } else {
      PlanChoicesKeepAccess(s, c, op, now, later);
    }
  }

  lemma {:induction false} VersionDoesNotDecide(s: Subscription, version: nat, at: int)
    ensures SameAccess(s.(version := version), s, at)
  {
  }

  /** An accepted quiet operation, whatever stale row it was computed from. */
  lemma {:induction false} QuietOperate(s: Store, c: Catalog, business: string, op: Operation, now: int, rows: Store,
                                        logs: Store, b: string, later: int)
    requires Inv(s) && Past(rows, s) && b in s.subs && OperateOn(s, c, business, op, now, rows, logs).Some?
    requires business != b || (now <= later && (op.SyncOp? || op.ChangePlanOp? || op.CheckoutOp?))
    ensures var d := OperateOn(s, c, business, op, now, rows, logs).value;
            b in d.subs && SameAccess(d.subs[b], s.subs[b], later)
  {
    hide Inv, Past, Operate, Checks, UniqueRefs, UniqueSequences, MaxSequence, EvaluateAccess;
    PastAccount(rows, s, business);
    var read := rows.subs[business];
    var e := Operate(op, read, c, now).edit;
    if business == b && e.sub != read {
      QuietEdit(read, c, op, now, later);
      VersionDoesNotDecide(e.sub, read.version + 1, later);
    }
  }

  lemma {:induction false} QuietSweep(s: Store, businesses: seq<string>, now: int, rows: Store, logs: seq<Store>,
                                      b: string,
                                      later: int)
    requires Inv(s) && Past(rows, s) && |logs| == |businesses| && forall k | 0 <= k < |logs| :: Past(logs[k], s)
    requires SweepAll(s, businesses, now, rows, logs).Some? && b in s.subs && now <= later
    ensures var d := SweepAll(s, businesses, now, rows, logs).value;
            b in d.subs && SameAccess(d.subs[b], s.subs[b], later)
    decreases |businesses|
  {
    hide Past, Inv, Follows, OperateOn, EvaluateAccess;
    if businesses != [] {
      var next := OperateOn(s, NO_CATALOG, businesses[0], SyncOp, now, rows, logs[0]).value;
      OperateFollows(NO_CATALOG, s, businesses[0], SyncOp, now, rows, logs[0]);
      QuietOperate(s, NO_CATALOG, businesses[0], SyncOp, now, rows, logs[0], b, later);
      PastStaysPast(rows, s, next);
      forall k | 0 <= k < |logs| ensures Past(logs[k], next) {
        PastStaysPast(logs[k], s, next);
      }
      FollowsHasInv(s, next);
      QuietSweep(next, businesses[1..], now, rows, logs[1..], b, later);
    }
  }

  lemma {:induction false} QuietNext(w: World, step: Step, b: string, later: int)
    requires WorldInv(w) && b in Last(w).subs && Quiet(step, b, later)
    ensures b in Last(Next(w, step)).subs && SameAccess(Last(Next(w, step)).subs[b], Last(w).subs[b], later)
  {
    hide Past, Inv, OperateOn, SweepAll, Seen, OnSale, Claimed, TrialInv, EvaluateAccess;
    match step
    case StartTrial(_, _, _, _, _, _, _, _, _) =>
    case Operation(c, business, op, now, subAt, logAt) =>
      ReadsArePast(w, subAt);
      if OperateOn(Last(w), c, business, op, now, Seen(w, subAt), Seen(w, logAt)).Some? {
        QuietOperate(Last(w), c, business, op, now, Seen(w, subAt), Seen(w, logAt), b, later);
      }
    case Sweep(businesses, now, subAt, logsAt) =>
      ReadsArePast(w, subAt);
      forall k | 0 <= k < |SeenEach(w, logsAt)| ensures Past(SeenEach(w, logsAt)[k], Last(w)) {
        ReadsArePast(w, logsAt[k]);
      }
      if |logsAt| == |businesses| && SweepAll(Last(w), businesses, now, Seen(w, subAt), SeenEach(w, logsAt)).Some? {
        QuietSweep(Last(w), businesses, now, Seen(w, subAt), SeenEach(w, logsAt), b, later);
      }
  }

  /** Until a business's next provider event, cancellation or override, no decision about its access and no reason
      changes: a run may go on with any number of sweeps, syncs, plan choices and checkouts, from whatever stale rows,
      and with anything that happens to other businesses. */
  lemma {:induction false} QuietStepsKeepAccess(steps: seq<Step>, more: seq<Step>, b: string, later: int)
    requires b in Last(After(steps)).subs && forall k | 0 <= k < |more| :: Quiet(more[k], b, later)
    ensures b in Last(After(steps + more)).subs
    ensures EvaluateAccess(Some(Last(After(steps + more)).subs[b]), later) ==
            EvaluateAccess(Some(Last(After(steps)).subs[b]), later)
    decreases |more|
  {
    hide Next, Quiet, WorldInv, EvaluateAccess;
    if more == [] {
      assert steps + more == steps;
    } else {
      var fewer := more[..|more| - 1];
      QuietStepsKeepAccess(steps, fewer, b, later);
      assert (steps + more)[..|steps + more| - 1] == steps + fewer;
      EveryRunKeepsInvariant(steps + fewer);
      QuietNext(After(steps + fewer), more[|more| - 1], b, later);
    }
  }

  predicate EvaluatesAlike(a: Subscription, b: Subscription) {
    a.status == b.status && a.trialEndsAt == b.trialEndsAt && a.periodEnd == b.periodEnd
    && a.cancelAtPeriodEnd == b.cancelAtPeriodEnd && a.paymentMethod == b.paymentMethod
       && a.trialStartedAt == b.trialStartedAt
  }

  /** The plan costs more than the present one, at the same interval. */
  predicate Dearer(c: Catalog, s: Subscription, plan: string, interval: Interval) {
    && interval == s.interval
    && PriceKey(plan, interval) in c.prices && PriceKey(s.plan, s.interval) in c.prices
    && c.prices[PriceKey(plan, interval)] > c.prices[PriceKey(s.plan, s.interval)]
  }

  /** Without a running paid subscription a plan change applies at once. With one, an upgrade at the same interval is
      only requested from the provider, and everything else is scheduled: the row keeps its plan until an invoice says
      otherwise. */
  lemma {:induction false} PlanAppliesNowIff(s: Subscription, c: Catalog, plan: string, interval: Interval, now: int,
                                             capacity: bool, provider: bool)
    requires ChangePlan(s, c, plan, interval, now, capacity, provider).Saved?
    ensures var before := Sync(s, now).sub;
            var after := ChangePlan(s, c, plan, interval, now, capacity, provider).edit.sub;
            var paid := before.status in {Active, PastDue} && before.subscriptionRef.Some?;
            && (!paid ==> after.plan == plan && after.interval == interval && after.pendingPlan.None?)
            && (paid ==>
                  after.plan == before.plan && after.interval == before.interval && EvaluatesAlike(before, after))
            && (paid && after.pendingPlan != before.pendingPlan ==> after.pendingPlan == Some(plan))
            && (paid && after.pendingPlan == before.pendingPlan != Some(plan) ==> Dearer(c, before, plan, interval))
            && (paid && Dearer(c, before, plan, interval) ==> after == before)
  {
    hide Sync;
  }

  /** The moment a renewal or a trial is due. */
  function DueAt(s: Subscription): Option<int> {
    match s.status
    case Trialing => s.trialEndsAt
    case Active => s.periodEnd
    case _ => None
  }

  /** After a cancellation at period end, access holds exactly until the trial or period end that was paid for: the
      grace for a renewal that will not come is gone. A past-due subscription keeps its own deadline. */
  lemma {:induction false} CancelKeepsPaidTime(s: Subscription, now: int, provider: bool, at: int)
    requires SetCancel(s, true, now, provider).Saved?
    ensures var after := SetCancel(s, true, now, provider).edit.sub;
            && (DueAt(after).Some? ==> (EvaluateAccess(Some(after), at).allowed <==> at < DueAt(after).value))
            && (after.status == PastDue && at >= now ==> EvaluateAccess(Some(after), at) == EvaluateAccess(Some(s), at))
  {
    var after := SetCancel(s, true, now, provider).edit.sub;
    AccessIsThreshold(after, at);
    AccessIsThreshold(s, at);
  }

  /** A cancellation can be taken back at once if and only if the end it was set to has not been reached yet; then the
      row is as it was, but for its cancellation time. In the grace after that end, cancelling ends the subscription on
      the spot. */
  lemma {:induction false} CancelIsRevertedIff(s: Subscription, now: int, provider: bool)
    requires SetCancel(s, true, now, provider).Saved?
    ensures var after := SetCancel(s, true, now, provider).edit.sub;
            && (SetCancel(after, false, now, provider).Saved? <==> !Reached(DueAt(after), now))
            && (!Reached(DueAt(after), now) ==>
                  SetCancel(after, false, now, provider).edit.sub == Sync(s, now).sub.(canceledAt := None))
            && (Reached(DueAt(after), now) ==> !EvaluateAccess(Some(after), now).allowed)
  {
    var after := SetCancel(s, true, now, provider).edit.sub;
    SyncParts(s, now);
    SyncParts(after, now);
  }

  /** Ended is ended: after the superadmin's `end_now`, and after the provider's cancellation, there is no access at any
      time. */
  lemma {:induction false} EndedHasNoAccess(s: Subscription, c: Catalog, event: BillingEvent, provider: string,
                                            now: int, at: int)
    ensures var o := AdminOverride(s, c, EndNow, now); o.Saved? ==> !EvaluateAccess(Some(o.edit.sub), at).allowed
    ensures event.SubscriptionCanceled? && ApplyEvent(s, c, event, provider).processed ==>
              !EvaluateAccess(Some(ApplyEvent(s, c, event, provider).edit.sub), at).allowed
  {
    hide EvaluateAccess, Sync, ApplyCheckout, ApplyInvoice;
    var o := AdminOverride(s, c, EndNow, now);
    if o.Saved? {
      AccessIsThreshold(o.edit.sub, at);
    }
    AccessIsThreshold(ApplyEvent(s, c, event, provider).edit.sub, at);
  }

  // ------------------------------------------------------------------- overrides

  /** Until the next stored change, granted access holds at exactly the times before `until`. */
  lemma {:induction false} GrantHoldsUntil(s: Subscription, c: Catalog, until: int, now: int, at: int)
    ensures var o := AdminOverride(s, c, GrantAccess(until), now);
            o.Saved? ==> (EvaluateAccess(Some(o.edit.sub), at).allowed <==> at < until)
  {
    var o := AdminOverride(s, c, GrantAccess(until), now);
    if o.Saved? {
      AccessIsThreshold(o.edit.sub, at);
    }
  }

  /** Until the next stored change, an extended trial gives access at all times before its new end, which is at least
      the given number of days away. */
  lemma {:induction false} ExtensionHolds(s: Subscription, c: Catalog, days: int, now: int, at: int)
    ensures var o := AdminOverride(s, c, ExtendTrial(days), now);
            o.Saved? ==>
              && o.edit.sub.status == Trialing && o.edit.sub.trialEndsAt.Some?
              && o.edit.sub.trialEndsAt.value >= now + days * DAY
              && (at < o.edit.sub.trialEndsAt.value ==> EvaluateAccess(Some(o.edit.sub), at).allowed)
  {
  }

  lemma {:induction false} SyncedStatus(s: Subscription, now: int)
    ensures Sync(s, now).sub.status == EffectiveStatus(s, now)
    ensures s.status == Canceled ==> EffectiveStatus(s, now) == Canceled
  {
  }

  lemma {:induction false} EventStartsNoTrial(s: Subscription, c: Catalog, event: BillingEvent, name: string)
    requires s.status != Trialing
    ensures ApplyEvent(s, c, event, name).edit.sub.status != Trialing
  {
  }

  lemma {:induction false} OverrideStartsNoTrial(s: Subscription, c: Catalog, action: Override, now: int)
    requires Sync(s, now).sub.status == Canceled
    ensures var o := AdminOverride(s, c, action, now); o.Saved? ==> o.edit.sub.status != Trialing
  {
    hide Sync;
  }

  lemma {:induction false} ChoiceStartsNoTrial(s: Subscription, c: Catalog, op: Operation, now: int)
    requires Sync(s, now).sub.status == Canceled && !op.EventOp? && !op.OverrideOp?
    ensures var o := Operate(op, s, c, now); o.Saved? ==> o.edit.sub.status != Trialing
  {
    hide Sync, OnSale;
  }

  /** The override table lists canceled to trialing, but no operation takes that edge: a canceled subscription, stored
      or in effect, is never put back on trial. */
  lemma {:induction false} CanceledIsNeverPutOnTrial(s: Subscription, c: Catalog, op: Operation, now: int)
    requires s.status == Canceled || (op.OverrideOp? && EffectiveStatus(s, now) == Canceled)
    ensures var o := Operate(op, s, c, now); o.Saved? ==> o.edit.sub.status != Trialing
  {
    hide Sync, EffectiveStatus, ApplyEvent, AdminOverride, ChangePlan, CreateCheckout, SetCancel;
    SyncedStatus(s, now);
    match op
    case EventOp(event, name) => EventStartsNoTrial(s, c, event, name);
    case OverrideOp(action) => OverrideStartsNoTrial(s, c, action, now);
    case _ => ChoiceStartsNoTrial(s, c, op, now);
  }
}
