/** How often an event can write the ledger, whatever its attempts overlap, fail or repeat. */
module InboxEffects {
  import opened Tables
  import opened PaymentStates
  import opened PaymentStore
  import opened AuditTrail
  import opened PaymentPlans
  import opened PaymentInvariant
  import opened PaymentSteps
  import opened PaymentRuns
  import opened PaymentSerial
  import opened InboxOnce

  /** Attempts of this event whose commit wrote at least one ledger row. */
  function Written(journal: seq<Entry>, key: EventKey): nat {
    if journal == [] then 0
    else
      var last := journal[|journal| - 1];
      Written(journal[..|journal| - 1], key) + if last.Application? && last.key == key && last.written then 1 else 0
  }

  /** The payment named by the event has been in the event's target status, or has a status it leads to. */
  predicate PaymentEffected(s: Store, key: EventKey, event: Event, iid: string) {
    && EventPayment(s, key, event, iid)
    && (event.currency.Some? ==> event.currency.value == s.intents[iid].currency)
    && s.intents[iid].status != Created
    && Leads(EventTarget(event.kind), s.intents[iid].status)
  }

  /** The refund named by the event is settled. */
  predicate RefundEffected(s: Store, key: EventKey, event: Event, rid: string) {
    && rid in s.refunds
    && s.refunds[rid].business == key.business
    && event.providerRefund.Some? && s.refunds[rid].providerRefund == event.providerRefund
    && s.refunds[rid].status != RefundPending
  }

  predicate Effected(s: Store, key: EventKey, event: Event) {
    if IsRefundEvent(event.kind) then exists rid | rid in s.refunds :: RefundEffected(s, key, event, rid)
    else exists iid | iid in s.intents :: PaymentEffected(s, key, event, iid)
  }

  /** An effect is never undone: the ids that an event names are frozen from then on. */
  lemma {:induction false} EffectLasts(a: Store, b: Store, key: EventKey, event: Event)
    requires Extends(a, b) && Effected(a, key, event)
    ensures Effected(b, key, event)
  {
    if IsRefundEvent(event.kind) {
      var rid :| rid in a.refunds && RefundEffected(a, key, event, rid);
      assert RefundEffected(b, key, event, rid);
    } else {
      var iid :| iid in a.intents && PaymentEffected(a, key, event, iid);
      assert IntentLater(a.intents[iid], b.intents[iid]);
      LeadsIsClosed(EventTarget(event.kind), a.intents[iid].status, b.intents[iid].status);
      NeverBackToCreated(a.intents[iid].status, b.intents[iid].status);
      hide Leads, EventTarget;
      assert PaymentEffected(b, key, event, iid);
    }
  }

  // ------------------------------------------------------------------ one application

  lemma {:induction false} PaymentEventWrites(iid: string, intent: Intent, event: Event, stored: nat)
    requires !IsRefundEvent(event.kind)
    ensures var t := ApplyPaymentEvent(iid, intent, event, stored).txn;
            if Touches(t)
            then t.intents.Keys == {iid} && t.refunds == map[]
                 && StoredIntent(t.intents[iid]).status == EventTarget(event.kind)
                 && (event.currency.Some? ==> event.currency.value == intent.currency)
                 && var row := StoredIntent(t.intents[iid]);
                    row.business == intent.business && row.provider == intent.provider
                    && row.providerPayment == intent.providerPayment && row.currency == intent.currency
            else t == NOTHING
  {
  }

  lemma {:induction false} RefundEventWrites(iid: string, intent: Intent, rid: string, refund: Refund, event: Event,
                                             stored: nat, storedAgain: nat)
    requires IsRefundEvent(event.kind)
    ensures var t := ApplyRefundEvent(iid, intent, rid, refund, event, stored, storedAgain).txn;
            if refund.status == RefundPending
            then Touches(t) && t.refunds.Keys == {rid}
                 && var row := StoredRefund(t.refunds[rid]);
                    row.status == (if event.kind == RefundSucceededEvent then RefundSucceeded else RefundFailed)
                    && row.business == refund.business && row.providerRefund == refund.providerRefund
            else t == NOTHING
  {
  }

  /** An event that writes any ledger row takes effect by it. */
  lemma {:induction false} WritingTakesEffect(c: Store, key: EventKey, event: Event, found: Option<string>,
                                              foundRefund: Option<string>, d: Store)
    requires var t := EventAlone(c, key, event, found, foundRefund);
             Touches(t) && d.intents == Apply(c, t).intents && d.refunds == Apply(c, t).refunds
    ensures Effected(d, key, event)
  {
    hide ApplyPaymentEvent, ApplyRefundEvent, MaxSequence;
    var iid := found.value;
    if IsRefundEvent(event.kind) {
      var rid := foundRefund.value;
      RefundEventWrites(iid, c.intents[iid], rid, c.refunds[rid], event, MaxSequence(c.audit, iid),
                        MaxSequence(c.audit, iid));
      assert RefundEffected(d, key, event, rid);
    } else {
      PaymentEventWrites(iid, c.intents[iid], event, MaxSequence(c.audit, iid));
      assert PaymentEffected(d, key, event, iid);
    }
  }

  /** Once in effect, the event would write again exactly by undoing a pending/requires_action swap: no other status, no
      amount and no refund can be changed by it, whether its earlier attempts were processed, ignored or failed. */
  lemma {:induction false} ReapplicationWritesIff(c: Store, key: EventKey, event: Event, found: Option<string>,
                                                  foundRefund: Option<string>)
    requires Inv(c) && Effected(c, key, event) && LooksUp(c, key, event, found, foundRefund)
    ensures Touches(EventAlone(c, key, event, found, foundRefund)) <==>
            !IsRefundEvent(event.kind) && found.Some? && Lateral(c.intents[found.value].status, EventTarget(event.kind))
  {
    hide LedgerInv, ApplyRefundEvent, MaxSequence, RowChecks, ForeignKeys, UniqueSequences;
    if IsRefundEvent(event.kind) {
      if found.Some? && foundRefund.Some? {
        var iid, rid := found.value, foundRefund.value;
        RefundEventWrites(iid, c.intents[iid], rid, c.refunds[rid], event, MaxSequence(c.audit, iid),
                          MaxSequence(c.audit, iid));
        var q :| q in c.refunds && RefundEffected(c, key, event, q);
        assert RefundsClash(c.refunds[q], c.refunds[rid]);
      }
    } else {
      var i :| i in c.intents && PaymentEffected(c, key, event, i);
      var iid := found.value;
      assert IntentsClash(c.intents[i], c.intents[iid]);
      ReentryOnlyLateral(EventTarget(event.kind), c.intents[iid].status);
    }
  }

  /** Applying an event at once a second time never changes anything, in any state. */
  lemma {:induction false} ApplyingTwiceIsApplyingOnce(iid: string, intent: Intent, rid: string, refund: Refund,
                                                       event: Event,
                                                       stored: nat, storedAgain: nat, later: nat, laterAgain: nat)
    ensures var t := ApplyPaymentEvent(iid, intent, event, stored).txn;
            var after := if iid in t.intents then StoredIntent(t.intents[iid]) else intent;
            !IsRefundEvent(event.kind) ==> ApplyPaymentEvent(iid, after, event, later).txn == NOTHING
    ensures var t := ApplyRefundEvent(iid, intent, rid, refund, event, stored, storedAgain).txn;
            var after := if iid in t.intents then StoredIntent(t.intents[iid]) else intent;
            var refundAfter := if rid in t.refunds then StoredRefund(t.refunds[rid]) else refund;
            IsRefundEvent(event.kind) ==>
              ApplyRefundEvent(iid, after, rid, refundAfter, event, later, laterAgain).txn == NOTHING
  {
    if IsRefundEvent(event.kind) {
      RefundEventWrites(iid, intent, rid, refund, event, stored, storedAgain);
    }
  }

  // ----------------------------------------------------- attempts that write nothing

  /** A target that later becomes reachable was reachable all along, except by the swap. */
  lemma {:induction false} NotReachableStays(kind: EventKind, read: PaymentStatus, now: PaymentStatus)
    requires Leads(read, now) && EventTarget(kind) !in PaymentTransitions(read)
    ensures EventTarget(kind) in PaymentTransitions(now) ==> Lateral(now, EventTarget(kind))
  {
  }

  lemma {:induction false} UnwrittenPaymentStays(iid: string, read: Intent, now: Intent, event: Event, stored: nat,
                                                 later: nat)
    requires !IsRefundEvent(event.kind) && IntentLater(read, now) && MoneyStatus(read)
    requires !Touches(ApplyPaymentEvent(iid, read, event, stored).txn)
    ensures Touches(ApplyPaymentEvent(iid, now, event, later).txn) ==> Lateral(now.status, EventTarget(event.kind))
  {
    PaymentEventWritesIff(iid, read, event, stored);
    PaymentEventWritesIff(iid, now, event, later);
    hide ApplyPaymentEvent, Touches, Leads;
    if EventTarget(event.kind) !in PaymentTransitions(read.status) {
      NotReachableStays(event.kind, read.status, now.status);
    }
  }

  /** Exactly when a payment event writes. */
  lemma {:induction false} PaymentEventWritesIff(iid: string, intent: Intent, event: Event, stored: nat)
    ensures Touches(ApplyPaymentEvent(iid, intent, event, stored).txn) <==>
            && EventTarget(event.kind) in PaymentTransitions(intent.status)
            && EventTarget(event.kind) != intent.status
            && (event.currency.Some? ==> event.currency.value == intent.currency)
            && (EventTarget(event.kind) == Captured ==>
                  0 < CapturedAmount(intent, event) <= intent.amount
                  && (intent.captured != 0 ==> CapturedAmount(intent, event) == intent.captured))
  {
  }

  /** What the event would still write, from the look-ups of a past attempt. */
  predicate StillWrites(c: Store, key: EventKey, event: Event, found: Option<string>, foundRefund: Option<string>) {
    Touches(EventAlone(c, key, event, found, foundRefund))
  }

  lemma {:induction false} ReadMoney(rows: Store, iid: string)
    requires Inv(rows)
    ensures iid in rows.intents ==> MoneyStatus(rows.intents[iid])
  {
    hide Constraints, MoneyStatus;
    assert iid in rows.intents ==> IntentInv(rows, iid);
  }

  lemma {:induction false} NothingIsMissedFrom(c: Store, key: EventKey, event: Event, found: Option<string>,
                                               foundRefund: Option<string>, rows: Store, refunds: Store, trail: Store,
                                               trailAgain: Store)
    requires FindsPayment(rows, key, event, found) && FindsRefund(refunds, key, event, found, foundRefund)
    requires !Touches(ApplyEvent(event, found, foundRefund, rows, refunds, trail, trailAgain).txn)
    requires Inv(c) && Past(rows, c) && Past(refunds, c)
    requires found.Some? && (IsRefundEvent(event.kind) ==> foundRefund.Some?)
    requires StillWrites(c, key, event, found, foundRefund)
    ensures !IsRefundEvent(event.kind) && found.value in c.intents
    ensures Lateral(c.intents[found.value].status, EventTarget(event.kind))
  {
    hide ApplyPaymentEvent, ApplyRefundEvent, MaxSequence, LedgerInv, Constraints, Leads;
    var iid := found.value;
    ReadMoney(rows, iid);
    if IsRefundEvent(event.kind) {
      var rid := foundRefund.value;
      assert RefundLater(refunds.refunds[rid], c.refunds[rid]);
      RefundEventWrites(iid, rows.intents[iid], rid, refunds.refunds[rid], event, MaxSequence(trail.audit, iid),
                        MaxSequence(trailAgain.audit, iid));
      RefundEventWrites(iid, c.intents[iid], rid, c.refunds[rid], event, MaxSequence(c.audit, iid),
                        MaxSequence(c.audit, iid));
    } else {
      UnwrittenPaymentStays(iid, rows.intents[iid], c.intents[iid], event, MaxSequence(trail.audit, iid),
                            MaxSequence(c.audit, iid));
    }
  }

  /** An accepted attempt that found its rows and wrote nothing has missed nothing: whatever stale rows it decided from,
      the event has nothing to write at the present state either, except over the swap. */
  lemma {:induction false} NothingIsMissed(w: World, step: Step)
    requires WorldInv(w) && step.AttemptEvent? && Committing(w, step) && !WritesLedger(StepPlan(w, step).parts)
    ensures step.eventKey in Last(w).inbox
    ensures var event := Last(w).inbox[step.eventKey].event;
            && step.found.Some? && (IsRefundEvent(event.kind) ==> step.foundRefund.Some?)
            && StillWrites(Last(w), step.eventKey, event, step.found, step.foundRefund) ==>
              && !IsRefundEvent(event.kind) && step.found.value in Last(w).intents
              && Lateral(Last(w).intents[step.found.value].status, EventTarget(event.kind))
  {
    assert w.history != [];
    hide Inv, Past, WorldInv, CommitAll, StepPlan, AttemptPlan, StillWrites, Seen, ApplyEvent, FindsPayment,
      FindsRefund,
      Retryable;
    SinglePart(w, step);
    AttemptPlanOf(w, step);
    var t := StepPlan(w, step).parts[0];
    assert StepPlan(w, step).parts == [t];
    AttemptOf(step.eventKey, step.first, Seen(w, step.inboxAt), step.found, step.foundRefund, Seen(w, step.rowAt),
              Seen(w, step.refundAt), Seen(w, step.trailAt), Seen(w, step.trailAgainAt), t);
    AttemptedIsStored(w, step);
    ReadsArePast(w, step.rowAt);
    ReadsArePast(w, step.refundAt);
    var event := Last(w).inbox[step.eventKey].event;
    assert !Touches(t.(inbox := NoInbox)) by {
      assert !Touches(StepPlan(w, step).parts[0]);
    }
    if step.found.Some? && (IsRefundEvent(event.kind) ==> step.foundRefund.Some?)
       && StillWrites(Last(w), step.eventKey, event, step.found, step.foundRefund) {
      NothingIsMissedFrom(Last(w), step.eventKey, event, step.found, step.foundRefund, Seen(w, step.rowAt),
                          Seen(w, step.refundAt), Seen(w, step.trailAt), Seen(w, step.trailAgainAt));
    }
  }

  /** The rows that the event names are open to it: the refund is pending, or the payment may move to the event's target
      and currency and captured amount agree. */
  predicate Open(s: Store, event: Event, found: Option<string>, foundRefund: Option<string>)
    requires found.Some? ==> found.value in s.intents
    requires IsRefundEvent(event.kind) && foundRefund.Some? ==> foundRefund.value in s.refunds
  {
    && found.Some?
    && if IsRefundEvent(event.kind) then foundRefund.Some? && s.refunds[foundRefund.value].status == RefundPending
       else
         var intent, target := s.intents[found.value], EventTarget(event.kind);
         && target in PaymentTransitions(intent.status)
         && (event.currency.Some? ==> event.currency.value == intent.currency)
         && (target == Captured ==>
               0 < CapturedAmount(intent, event) <= intent.amount
               && (intent.captured != 0 ==> CapturedAmount(intent, event) == intent.captured))
  }

  lemma {:induction false} StillWritesIff(s: Store, key: EventKey, event: Event, found: Option<string>,
                                          foundRefund: Option<string>)
    requires LooksUp(s, key, event, found, foundRefund)
    ensures StillWrites(s, key, event, found, foundRefund) <==> Open(s, event, found, foundRefund)
  {
    hide ApplyPaymentEvent, ApplyRefundEvent, MaxSequence;
    if found.Some? {
      var iid := found.value;
      var stored := MaxSequence(s.audit, iid);
      if !IsRefundEvent(event.kind) {
        PaymentEventWritesIff(iid, s.intents[iid], event, stored);
      } else if foundRefund.Some? {
        RefundEventWrites(iid, s.intents[iid], foundRefund.value, s.refunds[foundRefund.value], event, stored, stored);
      }
    }
  }

  /** Exactly when an event is settled without its effect. The attempt has written nothing; `found` and `foundRefund`
      are what its look-ups find in the state it is committed to. The event is lost if and only if these rows are open
      to it; and then the attempt's own look-ups had come out differently (with no row, as a rule), or it is the
      swap. */
  lemma {:induction false} EventIsLostIff(w: World, step: Step, found: Option<string>, foundRefund: Option<string>)
    requires WorldInv(w) && step.AttemptEvent? && Committing(w, step) && !WritesLedger(StepPlan(w, step).parts)
    requires step.eventKey in Last(w).inbox
             && LooksUp(Last(w), step.eventKey, Last(w).inbox[step.eventKey].event, found, foundRefund)
    ensures var event := Last(w).inbox[step.eventKey].event;
            && (StillWrites(Last(w), step.eventKey, event, found, foundRefund) <==>
                Open(Last(w), event, found, foundRefund))
            && (Open(Last(w), event, found, foundRefund) ==>
                  || found != step.found || (IsRefundEvent(event.kind) && foundRefund != step.foundRefund)
                  || (!IsRefundEvent(event.kind)
                      && Lateral(Last(w).intents[found.value].status, EventTarget(event.kind))))
  {
    assert w.history != [];
    hide WorldInv, StepPlan, CommitAll, Touches, EventAlone, Open, WritesLedger, Committing, LooksUp;
    var event := Last(w).inbox[step.eventKey].event;
    StillWritesIff(Last(w), step.eventKey, event, found, foundRefund);
    LookedUpRows(Last(w), step.eventKey, event, found, foundRefund);
    OpenNames(Last(w), event, found, foundRefund);
    NothingIsMissed(w, step);
    if !IsRefundEvent(event.kind) {
      OtherRefundIgnored(Last(w), step.eventKey, event, found, foundRefund, step.foundRefund);
    }
  }

  lemma {:induction false} LookedUpRows(s: Store, key: EventKey, event: Event, found: Option<string>,
                                        foundRefund: Option<string>)
    requires LooksUp(s, key, event, found, foundRefund)
    ensures found.Some? ==> found.value in s.intents
    ensures IsRefundEvent(event.kind) && foundRefund.Some? ==> foundRefund.value in s.refunds
  {
  }

  lemma {:induction false} OpenNames(s: Store, event: Event, found: Option<string>, foundRefund: Option<string>)
    requires found.Some? ==> found.value in s.intents
    requires IsRefundEvent(event.kind) && foundRefund.Some? ==> foundRefund.value in s.refunds
    ensures Open(s, event, found, foundRefund) ==> found.Some? && (IsRefundEvent(event.kind) ==> foundRefund.Some?)
  {
  }

  /** No refund is looked up for a payment event. */
  lemma {:induction false} OtherRefundIgnored(s: Store, key: EventKey, event: Event, found: Option<string>,
                                              foundRefund: Option<string>, other: Option<string>)
    requires !IsRefundEvent(event.kind)
    ensures EventAlone(s, key, event, found, foundRefund) == EventAlone(s, key, event, found, other)
  {
  }

  // ------------------------------------------------------------------------ runs

  /** Every event that has written is in effect. */
  ghost predicate EffectsLast(w: World) {
    w.history != [] &&
    forall key | Written(w.journal, key) > 0 :: key in Last(w).inbox && Effected(Last(w), key, Last(w).inbox[key].event)
  }

  lemma {:induction false} WrittenAppend(journal: seq<Entry>, more: seq<Entry>, key: EventKey)
    requires |more| <= 1
    ensures Written(journal + more, key) ==
            Written(journal, key) + if |more| == 1 && more[0].Application? && more[0].key == key
              && more[0].written then 1 else 0
  {
    if more == [] {
      assert journal + more == journal;
    } else {
      assert (journal + more)[..|journal|] == journal;
    }
  }

  /** The step commits an attempt of this event that writes the ledger. */
  predicate Writes(w: World, step: Step, key: EventKey)
    requires w.history != []
  {
    step.AttemptEvent? && step.eventKey == key && Committing(w, step) && WritesLedger(StepPlan(w, step).parts)
  }

  lemma {:induction false} WrittenNext(w: World, step: Step, key: EventKey)
    requires w.history != []
    ensures Written(Next(w, step).journal, key) == Written(w.journal, key) + if Writes(w, step, key) then 1 else 0
  {
    hide StepPlan, CommitAll, Next, WritesLedger;
    NextShape(w, step);
    if Committing(w, step) {
      WrittenAppend(w.journal, JournalEntry(w, step, StepPlan(w, step).parts), key);
    }
  }

  /** The event of an attempt, as its inbox row holds it. */
  lemma {:induction false} WritingAttempt(w: World, step: Step, key: EventKey)
    requires WorldInv(w) && Writes(w, step, key)
    ensures key in Last(w).inbox
    ensures var event := Last(w).inbox[key].event;
            var t := EventAlone(Last(w), key, event, step.found, step.foundRefund);
            var s := CommitAll(Last(w), StepPlan(w, step).parts).value;
            && LooksUp(Last(w), key, event, step.found, step.foundRefund)
            && Touches(t) && s.intents == Apply(Last(w), t).intents && s.refunds == Apply(Last(w), t).refunds
  {
    assert w.history != [];
    hide WorldInv, CommitAll, StepPlan, EventAlone, LooksUp, Accepts;
    SinglePart(w, step);
    OnePart(Last(w), StepPlan(w, step).parts);
    AttemptIsSerial(w, step);
    AttemptedIsStored(w, step);
    assert Touches(StepPlan(w, step).parts[0]);
    assert Bare(StepPlan(w, step).parts)[0] == StepPlan(w, step).parts[0].(inbox := NoInbox);
  }

  lemma {:induction false} NextKeepsEffects(w: World, step: Step)
    requires WorldInv(w) && EffectsLast(w)
    ensures EffectsLast(Next(w, step))
  {
    assert w.history != [];
    hide WorldInv, CommitAll, StepPlan, Effected, Next, Inv, Writes;
    var next := Next(w, step);
    NextKeeps(w, step);
    forall key | Written(next.journal, key) > 0
      ensures key in Last(next).inbox && Effected(Last(next), key, Last(next).inbox[key].event)
    {
      WrittenNext(w, step, key);
      if Writes(w, step, key) {
        WritingStepTakesEffect(w, step, key);
      } else {
        EffectLasts(Last(w), Last(next), key, Last(w).inbox[key].event);
      }
    }
  }

  lemma {:induction false} WritingStepTakesEffect(w: World, step: Step, key: EventKey)
    requires WorldInv(w) && Writes(w, step, key)
    ensures key in Last(w).inbox && Effected(Last(Next(w, step)), key, Last(w).inbox[key].event)
  {
    assert w.history != [];
    hide WorldInv, CommitAll, StepPlan, Effected, Next, EventAlone, LooksUp, Apply;
    NextShape(w, step);
    WritingAttempt(w, step, key);
    WritingTakesEffect(Last(w), key, Last(w).inbox[key].event, step.found, step.foundRefund, Last(Next(w, step)));
  }

  lemma {:induction false} RunKeepsEffects(steps: seq<Step>)
    ensures EffectsLast(After(steps))
    decreases |steps|
  {
    hide Next, WorldInv, Effected;
    if steps != [] {
      RunKeepsEffects(steps[..|steps| - 1]);
      EveryRunKeepsInvariant(steps[..|steps| - 1]);
      NextKeepsEffects(After(steps[..|steps| - 1]), steps[|steps| - 1]);
    }
  }

  /** Over all runs, overlapping attempts included: an event that has written the ledger would write it again if and
      only if it takes the payment back over the pending/requires_action swap. */
  lemma {:induction false} WritesAgainIff(steps: seq<Step>, key: EventKey, found: Option<string>,
                                          foundRefund: Option<string>)
    requires Written(After(steps).journal, key) > 0
    ensures key in Last(After(steps)).inbox
    ensures var c := Last(After(steps));
            var event := c.inbox[key].event;
            LooksUp(c, key, event, found, foundRefund) ==>
              (Touches(EventAlone(c, key, event, found, foundRefund)) <==>
               !IsRefundEvent(event.kind) && found.Some?
                 && Lateral(c.intents[found.value].status, EventTarget(event.kind)))
  {
    hide WorldInv, Inv, Effected, EventAlone, LooksUp, After;
    var c := Last(After(steps));
    EveryRunKeepsInvariant(steps);
    RunKeepsEffects(steps);
    ReadsArePast(After(steps), 0);
    if LooksUp(c, key, c.inbox[key].event, found, foundRefund) {
      ReapplicationWritesIff(c, key, c.inbox[key].event, found, foundRefund);
    }
  }

  lemma {:induction false} WritesAgainOnlyLateral(steps: seq<Step>, step: Step, key: EventKey)
    requires Written(After(steps).journal, key) > 0 && Writes(After(steps), step, key)
    ensures key in Last(After(steps)).inbox
    ensures Last(After(steps)).inbox[key].event.kind in {PaymentPending, PaymentRequiresAction}
  {
    assert step.AttemptEvent?;
    hide StepPlan, CommitAll, WorldInv, EventAlone, LooksUp, Writes;
    EveryRunKeepsInvariant(steps);
    WritingAttempt(After(steps), step, key);
    WritesAgainIff(steps, key, step.found, step.foundRefund);
  }

  /** Money and refunds move at most once per event, in every run: only the two lateral kinds of event can ever write
      twice. */
  lemma {:induction false} EventsWriteAtMostOnce(steps: seq<Step>, key: EventKey)
    requires Written(After(steps).journal, key) > 1
    ensures key in Last(After(steps)).inbox
    ensures Last(After(steps)).inbox[key].event.kind in {PaymentPending, PaymentRequiresAction}
    decreases |steps|
  {
    hide Next, WorldInv, Effected, Writes;
    var before, step := After(steps[..|steps| - 1]), steps[|steps| - 1];
    WrittenNext(before, step, key);
    EveryRunKeepsInvariant(steps[..|steps| - 1]);
    NextKeeps(before, step);
    if Written(before.journal, key) > 1 {
      EventsWriteAtMostOnce(steps[..|steps| - 1], key);
    } else {
      WritesAgainOnlyLateral(steps[..|steps| - 1], step, key);
    }
  }
}
