/** The billing service as it runs: a session changes its copy of the subscription row in place and adds events, then
  commits.

  Other writers may take any steps in the gaps between two moments of a session. Every method extends the run of its
  database by the gaps and by its own step, so that whatever holds of all runs holds of the database it leaves. */
module SubscriptionService {
  import opened Tables
  import opened Calendar
  import opened Subscriptions
  import opened SubscriptionChanges
  import opened SubscriptionRuns
  import opened SubscriptionDatabase

  type Script = seq<Step>

  /** A database session's copy of one subscription row and the events it has added. */
  class Session {
    var sub: Subscription
    var added: seq<Entry>

    constructor (row: Subscription)
      ensures sub == row && added == []
    {
      sub, added := row, [];
    }

    function Work(): Edit
      reads this
    {
      SubscriptionChanges.Edit(sub, added)
    }

    method Event(kind: EventKind, source: Source, detail: Detail)
      modifies this`added
      ensures Work() == Noted(old(Work()), kind, source, detail)
    {
      added := added + [Entry(kind, None, None, source, detail)];
    }

    /** Changes the status when the table allows it; `Refused` is the error the source raises. */
    method MoveTo(target: SubscriptionStatus, kind: EventKind, source: Source, override: bool) returns (move: Move)
      modifies this
      ensures move == CheckTransition(old(sub.status), target, override)
      ensures Work() == if move == Refused then old(Work()) else Moved(old(Work()), target, kind, source)
    {
      hide CheckTransition;
      MoveMeans(sub.status, target, override);
      move := CheckTransition(sub.status, target, override);
      if move == Change {
        var current := sub.status;
        sub := sub.(status := target);
        added := added + [Entry(kind, Some(current), Some(target), source, NoDetail)];
      }
    }

    /** Persists what time has already decided. The move is never refused. */
    method SyncTimeBasedStatus(now: int) returns (changed: bool)
      requires added == []
      modifies this
      ensures Work() == Sync(old(sub), now)
      ensures changed <==> EffectiveStatus(old(sub), now) != old(sub.status)
    {
      var target := EffectiveStatus(sub, now);
      if target == sub.status {
        return false;
      }
      SweepNeverRaises(sub, now);
      var move := MoveTo(target, LapsedEvent, System, false);
      changed := move == Change;
      if changed && target in {Lapsed, Canceled} {
        sub := sub.(endedAt := if sub.endedAt.Some? then sub.endedAt else Some(now));
        if sub.pendingPlan.Some? {
          sub := sub.(pendingPlan := None);
        }
      }
    }

    method ChangePlan(c: Catalog, plan: string, interval: Interval, now: int, capacity: bool, provider: bool)
        returns (saved: bool)
      requires added == []
      modifies this
      ensures var o := SubscriptionChanges.ChangePlan(old(sub), c, plan, interval, now, capacity, provider);
              saved == o.Saved? && (saved ==> Work() == o.edit)
    {
      if !OnSale(c, plan, interval) {
        return false;
      }
      var _ := SyncTimeBasedStatus(now);
      if (sub.plan == plan && sub.interval == interval && sub.pendingPlan.None?) || !capacity {
        return false;
      }
      if sub.status in {Active, PastDue} && sub.subscriptionRef.Some? {
        if !provider || PriceKey(sub.plan, sub.interval) !in c.prices {
          return false;
        }
        var upgrade := interval == sub.interval
          && c.prices[PriceKey(plan, interval)] > c.prices[PriceKey(sub.plan, sub.interval)];
        if upgrade {
          Event(PlanChangeRequested, Owner, NoDetail);
        } else {
          sub := sub.(pendingPlan := Some(plan));
          Event(PlanChangeScheduled, Owner, NoDetail);
        }
      } else {
        sub := sub.(plan := plan, interval := interval, pendingPlan := None);
        Event(PlanChanged, Owner, NoDetail);
      }
      return true;
    }

    /** Starting a checkout: the row is only synced, and the request is noted. */
    method CreateCheckout(c: Catalog, plan: string, interval: Interval, now: int, capacity: bool, provider: bool)
        returns (saved: bool)
      requires added == []
      modifies this
      ensures var o := SubscriptionChanges.CreateCheckout(old(sub), c, plan, interval, now, capacity, provider);
              saved == o.Saved? && (saved ==> Work() == o.edit)
    {
      if !provider || !OnSale(c, plan, interval) {
        return false;
      }
      var _ := SyncTimeBasedStatus(now);
      if (sub.status == Active && sub.paymentMethod && !sub.cancelAtPeriodEnd) || !capacity {
        return false;
      }
      Event(CheckoutStarted, Owner, NoDetail);
      return true;
    }

    method SetCancelAtPeriodEnd(cancel: bool, now: int, provider: bool) returns (saved: bool)
      requires added == []
      modifies this
      ensures var o := SetCancel(old(sub), cancel, now, provider); saved == o.Saved? && (saved ==> Work() == o.edit)
    {
      var _ := SyncTimeBasedStatus(now);
      if sub.status !in {Trialing, Active, PastDue} || sub.cancelAtPeriodEnd == cancel
        || (sub.subscriptionRef.Some? && !provider) {
        return false;
      }
      sub := sub.(cancelAtPeriodEnd := cancel, canceledAt := if cancel then Some(now) else None);
      Event(if cancel then CancelScheduled else CancelReverted, Owner, NoDetail);
      return true;
    }

    /** A provider event on its subscription. Events turned away may leave nothing, or only the cancel flag, behind. */
    method Apply(c: Catalog, event: BillingEvent, provider: string) returns (processed: bool)
      requires added == []
      modifies this
      ensures Applied(processed, Work()) == ApplyEvent(old(sub), c, event, provider)
    {
      match event {
        case CheckoutCompleted(_, _, _) =>
          AddPaymentMethod(event, provider);
          return true;
        case InvoicePaidEvent(_, _, _, _, _, _) =>
          processed := PayInvoice(c, event);
        case InvoicePaymentFailed =>
          var move := MoveTo(PastDue, PaymentFailed, Provider, false);
          return move != Refused;
        case SubscriptionCanceled(occurredAt) =>
          var move := MoveTo(if sub.status == Trialing then Lapsed else Canceled, Ended, Provider, false);
          if move == Refused {
            return false;
          }
          sub := sub.(endedAt := Some(occurredAt), cancelAtPeriodEnd := false, pendingPlan := None);
          return true;
        case SubscriptionUpdated(cancel, newPlan, newInterval) =>
          if cancel.Some? {
            sub := sub.(cancelAtPeriodEnd := cancel.value);
          }
          if newPlan.Some? && newPlan.value != sub.plan {
            if newPlan.value !in c.plans {
              return false;
            }
            sub := sub.(plan := newPlan.value);
            if newInterval.Some? {
              sub := sub.(interval := newInterval.value);
            }
            if sub.pendingPlan == newPlan {
              sub := sub.(pendingPlan := None);
            }
            Event(PlanChanged, Provider, NoDetail);
          }
          return true;
      }
    }

    method AddPaymentMethod(event: BillingEvent, provider: string)
      requires added == [] && event.CheckoutCompleted?
      modifies this
      ensures Work() == ApplyCheckout(old(sub), event, provider)
    {
      sub := sub.(provider := Some(provider));
      if sub.customerRef.None? {
        sub := sub.(customerRef := event.customer);
      }
      if sub.subscriptionRef.None? {
        sub := sub.(subscriptionRef := event.ref);
      }
      sub := sub.(paymentMethod := true);
      if event.session.Some? && sub.status != Active {
        sub := sub.(plan := event.session.value.plan, interval := event.session.value.interval);
      }
      if sub.cancelAtPeriodEnd && sub.status == Trialing {
        sub := sub.(cancelAtPeriodEnd := false, canceledAt := None);
      }
      Event(PaymentMethodAdded, Provider, NoDetail);
    }

    method PayInvoice(c: Catalog, event: BillingEvent) returns (processed: bool)
      requires added == [] && event.InvoicePaidEvent?
      modifies this
      ensures Applied(processed, Work()) == ApplyInvoice(old(sub), c, event)
    {
      var plan := if event.paidPlan.Some? then event.paidPlan.value else sub.plan;
      var interval := if event.paidInterval.Some? then event.paidInterval.value else sub.interval;
      if !OnSale(c, plan, interval) {
        return false;
      }
      if !event.shekels || event.amount != Some(c.prices[PriceKey(plan, interval)]) {
        return false;
      }
      if event.start.None? || event.end.None? || event.end.value <= event.start.value {
        return false;
      }
      if sub.periodStart == event.start && sub.status == Active {
        return true;
      }
      var _ := MoveTo(Active, Activated, Provider, false);
      sub := sub.(plan := plan, interval := interval);
      sub := sub.(periodStart := event.start, periodEnd := event.end);
      sub := sub.(paymentMethod := true, endedAt := None);
      if sub.pendingPlan == Some(plan) {
        sub := sub.(pendingPlan := None);
      }
      Event(InvoicePaid, Provider, Invoice(plan, interval, event.amount.value, event.start.value, event.end.value));
      return true;
    }

    method ExtendTrial(days: int, now: int) returns (saved: bool)
      modifies this
      ensures var o := TrialExtension(old(Work()), days, now); saved == o.Saved? && (saved ==> Work() == o.edit)
    {
      hide OverrideTransitions, Transitions;
      if !(1 <= days <= 90) || sub.trialStartedAt.None? || sub.status !in {Trialing, Lapsed} {
        return false;
      }
      var from := if sub.trialEndsAt.Some? && sub.trialEndsAt.value > now then sub.trialEndsAt.value else now;
      sub := sub.(trialEndsAt := Some(from + days * DAY));
      sub := sub.(cancelAtPeriodEnd := false, endedAt := None);
      if sub.status == Lapsed {
        LapsedMayTrial();
        var _ := MoveTo(Trialing, StatusOverridden, Admin, true);
      }
      Event(TrialExtended, Admin, NoDetail);
      return true;
    }

    method ForcePlan(c: Catalog, plan: string) returns (saved: bool)
      modifies this
      ensures var o := ForcedPlan(old(Work()), c, plan); saved == o.Saved? && (saved ==> Work() == o.edit)
    {
      if plan !in c.plans {
        return false;
      }
      sub := sub.(plan := plan, pendingPlan := None);
      Event(PlanOverridden, Admin, NoDetail);
      return true;
    }

    method GrantAccess(until: int, now: int) returns (saved: bool)
      modifies this
      ensures var o := AccessGrant(old(Work()), until, now); saved == o.Saved? && (saved ==> Work() == o.edit)
    {
      if !(now < until <= now + 366 * DAY) {
        return false;
      }
      if sub.status != Active {
        var _ := MoveTo(Active, StatusOverridden, Admin, false);
      }
      sub := sub.(periodStart := Some(now), periodEnd := Some(until));
      sub := sub.(cancelAtPeriodEnd := true, endedAt := None);
      Event(AccessGranted, Admin, NoDetail);
      return true;
    }

    method EndNow(now: int) returns (saved: bool)
      modifies this
      ensures var o := Ending(old(Work()), now); saved == o.Saved? && (saved ==> Work() == o.edit)
    {
      var move := MoveTo(if sub.status == Trialing then Lapsed else Canceled, StatusOverridden, Admin, false);
      if move == Refused {
        return false;
      }
      sub := sub.(endedAt := Some(now), cancelAtPeriodEnd := false);
      return true;
    }

    method Override(c: Catalog, action: Override, now: int) returns (saved: bool)
      requires added == []
      modifies this
      ensures var o := AdminOverride(old(sub), c, action, now); saved == o.Saved? && (saved ==> Work() == o.edit)
    {
      hide Sync, TrialExtension, ForcedPlan, AccessGrant, Ending;
      var _ := SyncTimeBasedStatus(now);
      match action {
        case ExtendTrial(days) => saved := ExtendTrial(days, now);
        case ForcePlan(plan) => saved := ForcePlan(c, plan);
        case GrantAccess(until) => saved := GrantAccess(until, now);
        case EndNow => saved := EndNow(now);
      }
    }

    /** Any operation on the loaded row; a rejected one is rolled back. */
    method Operate(op: Operation, c: Catalog, now: int) returns (saved: bool)
      requires added == []
      modifies this
      ensures var o := SubscriptionRuns.Operate(op, old(sub), c, now); saved == o.Saved? && (saved ==> Work() == o.edit)
    {
      hide Sync, SubscriptionChanges.ChangePlan, SubscriptionChanges.CreateCheckout, SetCancel, ApplyEvent,
        AdminOverride;
      saved := true;
      match op {
        case SyncOp => var _ := SyncTimeBasedStatus(now);
        case ChangePlanOp(plan, interval, capacity, provider) =>
          saved := ChangePlan(c, plan, interval, now, capacity, provider);
        case CheckoutOp(plan, interval, room, available) =>
          saved := CreateCheckout(c, plan, interval, now, room, available);
        case CancelOp(cancel, reachable) => saved := SetCancelAtPeriodEnd(cancel, now, reachable);
        case EventOp(event, name) => var _ := Apply(c, event, name);
        case OverrideOp(action) => saved := Override(c, action, now);
      }
    }
  }

  lemma {:induction false} MoveMeans(current: SubscriptionStatus, target: SubscriptionStatus, override: bool)
    ensures CheckTransition(current, target, override) == Repeat <==> current == target
  {
  }

  lemma {:induction false} LapsedMayTrial()
    ensures CheckTransition(Lapsed, Trialing, true) == Change
  {
  }

  /** One operation: the row is loaded, changed in the session, numbered after the log, and committed. */
  method RunOperation(db: Database, c: Catalog, business: string, op: Operation, now: int, gaps: seq<Script>)
    returns (found: bool, saved: bool, ok: bool)
    requires db.Valid() && |gaps| == 2
    modifies db
    ensures db.Valid() && Follows(old(db.store), db.store)
    ensures found <==> business in old(db.store).subs
    ensures !found ==> !saved && db.run == old(db.run)
    ensures found ==>
              var r0 := old(db.run);
              var r1 := r0 + gaps[0];
              var r2 := r1 + gaps[1];
              var o := Operate(op, State(r0).subs[business], c, now);
              && saved == o.Saved?
              && (saved ==> db.run == r2 + [Operation(c, business, op, now, Now(r0), Now(r1))]
                            && var after := CommitEdit(State(r2), business, State(r0).subs[business], o.edit,
                                                       MaxSequence(Log(State(r1), business)));
                               ok == after.Some? && db.store == if ok then after.value else State(r2))
              && (!saved ==> db.run == r0)
    ensures !saved ==> !ok
  {
    hide Inv, Extends, After, Operate, CommitEdit, MaxSequence;
    SelfFollows(db.store);
    found, saved, ok := business in db.store.subs, false, false;
    if !found {
      return;
    }
    var r0, read := db.run, db.store.subs[business];
    var session := new Session(read);
    saved := session.Operate(op, c, now);
    if !saved {
      return;
    }
    db.Meanwhile(gaps[0], r0);
    var r1, stored := db.run, MaxSequence(Log(db.store, business));
    db.Meanwhile(gaps[1], r0);
    ReadStays(r0, db.run);
    ReadStays(r1, db.run);
    ok := db.Commit(read, session.Work(), stored, Operation(c, business, op, now, Now(r0), Now(r1)), r0);
  }

  /** The listed businesses whose stored status time has overtaken. */
  function Moving(rows: Store, businesses: seq<string>, now: int): seq<string>
    requires forall k | 0 <= k < |businesses| :: businesses[k] in rows.subs
  {
    if businesses == [] then []
    else
      var before := Moving(rows, businesses[..|businesses| - 1], now);
      var sub := rows.subs[businesses[|businesses| - 1]];
      if EffectiveStatus(sub, now) != sub.status then before + [businesses[|businesses| - 1]] else before
  }

  // --------------------------------------------------------------------- sweep

  /** The run after the first `k` gaps. */
  function Upto(run: seq<Step>, gaps: seq<Script>, k: nat): (r: seq<Step>)
    requires k <= |gaps|
    ensures run <= r
  {
    if k == 0 then run else Upto(run, gaps, k - 1) + gaps[k - 1]
  }

  lemma {:induction false} UptoGrows(run: seq<Step>, gaps: seq<Script>, j: nat, k: nat)
    requires j <= k <= |gaps|
    ensures Upto(run, gaps, j) <= Upto(run, gaps, k)
    decreases k
  {
    if j < k {
      UptoGrows(run, gaps, j, k - 1);
    }
  }

  /** Where, and in which states, the sweep looks its event numbers up: once per row, after its gap. */
  function LogPositions(run: seq<Step>, gaps: seq<Script>, n: nat): (r: seq<nat>)
    requires n <= |gaps|
    ensures |r| == n
  {
    seq(n, k requires 0 <= k < n => Now(Upto(run, gaps, k + 1)))
  }

  function LogStates(run: seq<Step>, gaps: seq<Script>, n: nat): (r: seq<Store>)
    requires n <= |gaps|
    ensures |r| == n
  {
    seq(n, k requires 0 <= k < n => State(Upto(run, gaps, k + 1)))
  }

  lemma {:induction false} LogsStay(run: seq<Step>, gaps: seq<Script>, n: nat)
    requires n <= |gaps|
    ensures SeenEach(After(Upto(run, gaps, |gaps|)), LogPositions(run, gaps, n)) == LogStates(run, gaps, n)
  {
    hide After, Seen, Upto, Now, State;
    forall k | 0 <= k < n
      ensures Seen(After(Upto(run, gaps, |gaps|)), LogPositions(run, gaps, n)[k]) == LogStates(run, gaps, n)[k]
    {
      UptoGrows(run, gaps, k + 1, |gaps|);
      ReadStays(Upto(run, gaps, k + 1), Upto(run, gaps, |gaps|));
    }
  }

  /** The sessions' rows and events of a sweep and the numbers looked up for them, before anything is flushed. */
  predicate Swept(businesses: seq<string>, now: int, rows: Store, logs: seq<Store>, works: seq<Edit>,
                  numbers: seq<nat>) {
    && |works| == |numbers| == |logs| <= |businesses|
    && forall k | 0 <= k < |works| :: businesses[k] in rows.subs
         && works[k] == Sync(rows.subs[businesses[k]], now) && numbers[k] == MaxSequence(Log(logs[k], businesses[k]))
  }

  lemma {:induction false} NothingSwept(rows: Store, businesses: seq<string>, now: int, run: seq<Step>,
                                        gaps: seq<Script>)
    ensures Moving(rows, businesses[..0], now) == [] && Upto(run, gaps, 0) == run && LogStates(run, gaps, 0) == []
  {
  }

  lemma {:induction false} MovingNext(rows: Store, businesses: seq<string>, k: nat, now: int)
    requires k < |businesses| && forall j | 0 <= j < |businesses| :: businesses[j] in rows.subs
    ensures var sub := rows.subs[businesses[k]];
            |Moving(rows, businesses[..k + 1], now)| ==
            |Moving(rows, businesses[..k], now)| + if EffectiveStatus(sub, now) != sub.status then 1 else 0
  {
    hide EffectiveStatus;
    assert businesses[..k + 1][..k] == businesses[..k];
  }

  lemma {:induction false} LogStatesNext(run: seq<Step>, gaps: seq<Script>, k: nat)
    requires k < |gaps|
    ensures Upto(run, gaps, k + 1) == Upto(run, gaps, k) + gaps[k]
    ensures LogStates(run, gaps, k + 1) == LogStates(run, gaps, k) + [State(Upto(run, gaps, k + 1))]
  {
    hide State;
  }

  /** The loop over the listed rows. */
  method SyncAll(db: Database, businesses: seq<string>, now: int, gaps: seq<Script>)
    returns (works: seq<Edit>, numbers: seq<nat>, changed: nat)
    requires db.Valid() && |gaps| > |businesses| && forall k | 0 <= k < |businesses| :: businesses[k] in db.store.subs
    modifies db
    ensures db.Valid() && db.run == Upto(old(db.run), gaps, |businesses|) && Follows(old(db.store), db.store)
    ensures Swept(businesses, now, old(db.store), LogStates(old(db.run), gaps, |businesses|), works, numbers)
    ensures changed == |Moving(old(db.store), businesses, now)|
  {
    hide Inv, Follows, After, Sync, MaxSequence, EffectiveStatus, Moving, Upto, LogStates, State;
    var r0, rows := db.run, db.store;
    SelfFollows(rows);
    NothingSwept(rows, businesses, now, r0, gaps);
    works, numbers, changed := [], [], 0;
    for k := 0 to |businesses|
      invariant db.Valid() && db.run == Upto(r0, gaps, k) && Follows(rows, db.store)
      invariant Swept(businesses, now, rows, LogStates(r0, gaps, k), works, numbers)
      invariant changed == |Moving(rows, businesses[..k], now)|
    {
      var session := new Session(rows.subs[businesses[k]]);
      var moved := session.SyncTimeBasedStatus(now);
      if moved {
        changed := changed + 1;
      }
      MovingNext(rows, businesses, k, now);
      db.Meanwhile(gaps[k], r0);
      LogStatesNext(r0, gaps, k);
      works, numbers := works + [session.Work()], numbers + [MaxSequence(Log(db.store, businesses[k]))];
    }
    assert businesses[..|businesses|] == businesses;
  }

  /** One transaction for the whole sweep. */
  method FlushAll(s: Store, businesses: seq<string>, works: seq<Edit>, numbers: seq<nat>, rows: Store, ghost now: int,
                  ghost logs: seq<Store>)
    returns (flushed: Option<Store>)
    requires Indexed(s) && Swept(businesses, now, rows, logs, works, numbers) && |logs| == |businesses|
    ensures flushed == SweepAll(s, businesses, now, rows, logs)
  {
    hide Indexed, Sync, MaxSequence, CommitEdit;
    var staged := s;
    for k := 0 to |businesses|
      invariant Indexed(staged)
      invariant SweepAll(staged, businesses[k..], now, rows, logs[k..]) == SweepAll(s, businesses, now, rows, logs)
    {
      assert businesses[k..][1..] == businesses[k + 1..] && logs[k..][1..] == logs[k + 1..];
      var next := Flush(staged, businesses[k], rows.subs[businesses[k]], works[k], numbers[k]);
      if next.None? {
        return None;
      }
      staged := next.value;
    }
    return Some(staged);
  }

  /** The scheduled job: every listed row is synced in the session and all of it is committed once. */
  method Sweep(db: Database, businesses: seq<string>, now: int, gaps: seq<Script>) returns (ok: bool, changed: nat)
    requires db.Valid() && |gaps| == |businesses| + 1 && forall k | 0 <= k < |businesses| ::
             businesses[k] in db.store.subs
    modifies db
    ensures db.Valid() && Follows(old(db.store), db.store)
    ensures changed == |Moving(old(db.store), businesses, now)|
    ensures var r0 := old(db.run);
            var last := Upto(r0, gaps, |gaps|);
            var after := SweepAll(State(last), businesses, now, State(r0), LogStates(r0, gaps, |businesses|));
            && db.run == last + [Step.Sweep(businesses, now, Now(r0), LogPositions(r0, gaps, |businesses|))]
            && ok == after.Some? && db.store == if ok then after.value else State(last)
  {
    hide Inv, Extends, After, Moving, SweepAll, Indexed, Swept, LogStates, LogPositions;
    var r0, rows := db.run, db.store;
    var works, numbers;
    works, numbers, changed := SyncAll(db, businesses, now, gaps);
    db.Meanwhile(gaps[|businesses|], r0);
    LegalIsIndexed(db.store);
    ghost var logs := LogStates(r0, gaps, |businesses|);
    var flushed := FlushAll(db.store, businesses, works, numbers, rows, now, logs);
    ReadStays(r0, db.run);
    LogsStay(r0, gaps, |businesses|);
    var step := Step.Sweep(businesses, now, Now(r0), LogPositions(r0, gaps, |businesses|));
    ok := flushed.Some?;
    db.Finish(if ok then flushed.value else db.store, step, r0);
  }

  // --------------------------------------------------------------------- trial

  datatype TrialAnswer = NotOnSale | Existing(existing: Subscription) | NoRoom | Created(created: Subscription)
    | Conflict

  /** Another business has claimed one of these identities: `select count(*)` over the claims. */
  method LooksClaimed(claims: map<string, string>, hashes: set<string>, business: string) returns (claimed: bool)
    ensures claimed <==> Claimed(claims, hashes, business)
  {
    claimed := exists h :: h in hashes && h in claims && claims[h] != business;
  }

  /** Flushes a new subscription and, for a trial, one claim per identity. */
  method InsertSubscription(s: Store, business: string, row: Subscription, trial: bool, hashes: set<string>)
      returns (flushed: Option<Store>)
    ensures flushed.Some? <==> business !in s.subs && (trial ==> forall h | h in hashes :: h !in s.claims)
    ensures flushed.Some? ==>
              && flushed.value.subs == s.subs[business := row]
              && flushed.value.logs == s.logs[business := [LogRow(1, FirstEntry(trial))]]
              && (forall h | h in hashes && trial :: h in flushed.value.claims && flushed.value.claims[h] == business)
              && (forall h | h !in hashes || !trial :: h in flushed.value.claims <==> h in s.claims)
              && (forall h | h in s.claims :: flushed.value.claims[h] == s.claims[h])
    ensures flushed == CommitTrial(s, business, row, trial, hashes)
  {
    var ok, claims := true, s.claims;
    if trial {
      ok, claims := InsertClaims(s.claims, hashes, business);
    }
    if !ok || business in s.subs {
      return None;
    }
    var log := [LogRow(1, FirstEntry(trial))];
    assert log == NumberedRows([FirstEntry(trial)], 0);
    flushed := Some(Store(s.subs[business := row], s.logs[business := log], claims));
  }

  /** Onboarding: the existing subscription is returned; otherwise the row and one claim per identity are stored
      together, and a request that lost the race for the business is answered from the winner's row. */
  method StartTrial(db: Database, c: Catalog, business: string, plan: string, interval: Interval, hashes: set<string>,
                    now: int, room: bool, gaps: seq<Script>) returns (answer: TrialAnswer)
    requires db.Valid() && |gaps| == 3
    modifies db
    ensures db.Valid() && Follows(old(db.store), db.store)
    ensures var r0 := old(db.run);
            var r1 := r0 + gaps[0];
            var r2 := r1 + gaps[1];
            var r3 := r2 + [Step.StartTrial(c, business, plan, interval, hashes, now, Now(r0), Now(r1), room)];
            if !OnSale(c, plan, interval) then answer == NotOnSale && db.run == r0
            else if business in State(r0).subs then answer == Existing(State(r0).subs[business]) && db.run == r0
            else if !room then answer == NoRoom && db.run == r0
            else
              var trial := !Claimed(State(r1).claims, hashes, business);
              if business !in State(r2).subs && (trial ==> forall h | h in hashes :: h !in State(r2).claims) then
                && answer == Created(NewSubscription(plan, interval, trial, now)) && db.run == r3
                && db.store.subs == State(r2).subs[business := answer.created]
                && Log(db.store, business) == [LogRow(1, FirstEntry(trial))]
                && (trial ==> business in After(db.run).starts && forall h | h in hashes ::
                    h in db.store.claims && db.store.claims[h] == business)
              else
                && State(r3) == State(r2) && db.run == r3 + gaps[2]
                && answer == if business in db.store.subs then Existing(db.store.subs[business]) else Conflict
  {
    hide Inv, Extends, After, Claimed, CommitTrial, NewSubscription;
    SelfFollows(db.store);
    if !OnSale(c, plan, interval) {
      return NotOnSale;
    }
    if business in db.store.subs {
      return Existing(db.store.subs[business]);
    }
    if !room {
      return NoRoom;
    }
    var r0 := db.run;
    db.Meanwhile(gaps[0], r0);
    var r1 := db.run;
    var claimed := LooksClaimed(db.store.claims, hashes, business);
    var row := NewSubscription(plan, interval, !claimed, now);
    db.Meanwhile(gaps[1], r0);
    var r2 := db.run;
    ReadStays(r0, r2);
    ReadStays(r1, r2);
    var flushed := InsertSubscription(db.store, business, row, !claimed, hashes);
    var step := Step.StartTrial(c, business, plan, interval, hashes, now, Now(r0), Now(r1), room);
    AfterOneMore(r2, step);
    db.Finish(if flushed.Some? then flushed.value else db.store, step, r0);
    if flushed.Some? {
      return Created(row);
    }
    db.Meanwhile(gaps[2], r0);
    answer := if business in db.store.subs then Existing(db.store.subs[business]) else Conflict;
  }
}
