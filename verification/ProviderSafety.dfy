/** Two-phase refunds against a provider that gives each refund id one stable outcome, whatever is lost in between. */
module ProviderSafety {
  import opened Tables
  import opened PaymentStates
  import opened PaymentStore
  import opened AuditTrail
  import opened PaymentPlans
  import opened PaymentInvariant
  import opened PaymentSteps
  import opened PaymentRuns

  /** An arbitrary provider: whether it ends up paying a refund id back, and the name it gives that refund. */
  datatype Provider = Provider(pays: string -> bool, names: string -> string)

  ghost predicate HonestEvent(p: Provider, e: Event) {
    forall rid: string :: e.providerRefund == Some(p.names(rid)) ==>
      (e.kind == RefundSucceededEvent ==> p.pays(rid)) && (e.kind == RefundFailedEvent ==> !p.pays(rid))
  }

  ghost predicate HonestReply(p: Provider, rid: string, reply: RefundReply) {
    match reply
    case Unreachable => true
    case Declined => !p.pays(rid)
    case Reported(name, status) =>
      name == p.names(rid) && (status == RefundSucceeded ==> p.pays(rid)) && (status == RefundFailed ==> !p.pays(rid))
  }

  /** What reaches the service in this step is what the provider says. */
  ghost predicate HonestStep(p: Provider, step: Step) {
    && (step.RecordRefund? ==> HonestReply(p, step.rid, step.reply))
    && (step.ReceiveEvent? ==> HonestEvent(p, step.event))
  }

  ghost predicate FaithfulRefund(p: Provider, rid: string, r: Refund) {
    && (r.providerRefund.Some? ==> r.providerRefund.value == p.names(rid))
    && (r.status == RefundSucceeded ==> p.pays(rid))
    && (r.status == RefundFailed ==> !p.pays(rid))
  }

  ghost predicate Faithful(p: Provider, s: Store) {
    && (forall rid | rid in s.refunds :: FaithfulRefund(p, rid, s.refunds[rid]))
    && (forall k | k in s.inbox :: HonestEvent(p, s.inbox[k].event))
  }

  ghost predicate FaithfulTxn(p: Provider, t: Txn) {
    && (forall rid | rid in t.refunds :: FaithfulRefund(p, rid, StoredRefund(t.refunds[rid])))
    && (t.inbox.InsertInbox? ==> HonestEvent(p, t.inbox.row.event))
  }

  lemma {:induction false} CommitStaysFaithful(p: Provider, c: Store, parts: seq<Txn>)
    requires Faithful(p, c) && forall k | 0 <= k < |parts| :: FaithfulTxn(p, parts[k])
    requires CommitAll(c, parts).Some?
    ensures Faithful(p, CommitAll(c, parts).value)
    decreases |parts|
  {
    hide Constraints, Current, HonestEvent, FaithfulRefund;
    if parts != [] {
      assert FaithfulTxn(p, parts[0]);
      assert Faithful(p, Apply(c, parts[0]));
      CommitStaysFaithful(p, Apply(c, parts[0]), parts[1..]);
    }
  }

  lemma {:induction false} RecordIsFaithful(p: Provider, business: string, rid: string, refunds: Store, rows: Store,
                                            trail: Store, trailAgain: Store, reply: RefundReply)
    requires Faithful(p, refunds) && HonestReply(p, rid, reply)
    requires RecordPlan(business, rid, refunds, rows, trail, trailAgain, reply).Write?
    ensures FaithfulTxn(p, RecordPlan(business, rid, refunds, rows, trail, trailAgain, reply).parts[0])
  {
    hide RecordPlan, MaxSequence, HonestEvent;
    RecordParts(business, rid, refunds, rows, trail, trailAgain, reply);
    var read := refunds.refunds[rid];
    var iid := read.intent;
    RecordedStatus(rid, read, rows.intents[iid], MaxSequence(trail.audit, iid), MaxSequence(trailAgain.audit, iid),
                   reply);
  }

  lemma {:induction false} RecordedStatus(rid: string, read: Refund, intent: Intent, stored: nat, storedAgain: nat,
                                          reply: RefundReply)
    requires !reply.Unreachable? && read.status == RefundPending
    ensures var r := Recorded(rid, read, intent, stored, storedAgain, reply).refund;
            && r.providerRefund == (if reply.Reported? then Some(reply.providerRefund) else read.providerRefund)
            && r.status == (if reply.Reported? then reply.status else RefundFailed)
  {
  }

  lemma {:induction false} EventIsFaithful(p: Provider, iid: string, intent: Intent, rid: string, refund: Refund,
                                           event: Event, stored: nat, storedAgain: nat)
    requires FaithfulRefund(p, rid, refund) && HonestEvent(p, event) && IsRefundEvent(event.kind)
    requires event.providerRefund.Some? && refund.providerRefund == event.providerRefund
    ensures FaithfulTxn(p, ApplyRefundEvent(iid, intent, rid, refund, event, stored, storedAgain).txn)
  {
    assert event.providerRefund == Some(p.names(rid));
  }

  lemma {:induction false} AttemptIsFaithful(p: Provider, key: EventKey, first: bool, inbox: Store,
                                             found: Option<string>, foundRefund: Option<string>,
                          rows: Store, refunds: Store, trail: Store, trailAgain: Store)
    requires Faithful(p, inbox) && Faithful(p, refunds)
    requires AttemptPlan(key, first, inbox, found, foundRefund, rows, refunds, trail, trailAgain).Write?
    ensures FaithfulTxn(p, AttemptPlan(key, first, inbox, found, foundRefund, rows, refunds, trail,
                                       trailAgain).parts[0])
  {
    hide MaxSequence, HonestEvent, ApplyRefundEvent, FaithfulRefund;
    var event := inbox.inbox[key].event;
    var applied := ApplyEvent(event, found, foundRefund, rows, refunds, trail, trailAgain);
    if found.Some? && IsRefundEvent(event.kind) && foundRefund.Some? {
      var iid, rid := found.value, foundRefund.value;
      EventIsFaithful(p, iid, rows.intents[iid], rid, refunds.refunds[rid], event, MaxSequence(trail.audit, iid),
                      MaxSequence(trailAgain.audit, iid));
    } else {
      assert applied.txn.refunds == map[];
    }
  }

  lemma {:induction false} PlanIsFaithful(p: Provider, w: World, step: Step)
    requires w.history != [] && HonestStep(p, step)
    requires forall k | 0 <= k < |w.history| :: Faithful(p, w.history[k])
    requires StepPlan(w, step).Write?
    ensures forall k | 0 <= k < |StepPlan(w, step).parts| :: FaithfulTxn(p, StepPlan(w, step).parts[k])
  {
    hide Faithful, MaxSequence, HonestEvent, HonestReply, RecordPlan, AttemptPlan, Noted, Transition, ValidCheckout,
      CheckedOut;
    if step.RecordRefund? {
      RecordIsFaithful(p, step.business, step.rid, Seen(w, step.refundAt), Seen(w, step.rowAt), Seen(w, step.trailAt),
                       Seen(w, step.trailAgainAt), step.reply);
    } else if step.AttemptEvent? {
      AttemptIsFaithful(p, step.eventKey, step.first, Seen(w, step.inboxAt), step.found, step.foundRefund,
                        Seen(w, step.rowAt), Seen(w, step.refundAt), Seen(w, step.trailAt), Seen(w, step.trailAgainAt));
    }
  }

  ghost predicate HonestRun(p: Provider, steps: seq<Step>) {
    forall k | 0 <= k < |steps| :: HonestStep(p, steps[k])
  }

  lemma {:induction false} RunStaysFaithful(p: Provider, steps: seq<Step>)
    requires HonestRun(p, steps)
    ensures forall k | 0 <= k < |After(steps).history| :: Faithful(p, After(steps).history[k])
    decreases |steps|
  {
    hide Faithful, StepPlan, CommitAll, HonestStep, AskedAfter, JournalEntry;
    if steps == [] {
      assert Faithful(p, EMPTY) by {
        assert |EMPTY.refunds| == 0 && |EMPTY.inbox| == 0;
        EmptyIsFaithful(p);
      }
    } else {
      var before, step := After(steps[..|steps| - 1]), steps[|steps| - 1];
      RunStaysFaithful(p, steps[..|steps| - 1]);
      if StepPlan(before, step).Write? && CommitAll(Last(before), StepPlan(before, step).parts).Some? {
        PlanIsFaithful(p, before, step);
        CommitStaysFaithful(p, Last(before), StepPlan(before, step).parts);
      }
    }
  }

  lemma {:induction false} EmptyIsFaithful(p: Provider)
    ensures Faithful(p, EMPTY)
  {
  }

  /** The refunds of one payment among everything the provider was asked for. */
  ghost function AskedFor(iid: string): Asked -> nat {
    (a: Asked) => if a.intent == iid && a.amount > 0 then a.amount else 0
  }

  /** The money the provider pays back on the refund ids it was ever asked for. */
  ghost function ProviderTotal(p: Provider, w: World, iid: string): nat {
    Total(map rid | rid in w.asked && p.pays(rid) :: w.asked[rid], AskedFor(iid))
  }

  /** Two-phase refund safety: whatever crashes, retries, lost answers and duplicate or reordered events the run
      contains, the provider never pays back more on a payment than what is reserved for it, and so never more than was
      captured. */
  lemma {:induction false} ProviderNeverOverpays(p: Provider, steps: seq<Step>, iid: string)
    requires HonestRun(p, steps) && iid in Last(After(steps)).intents
    ensures ProviderTotal(p, After(steps), iid) <= Last(After(steps)).intents[iid].reserved
    ensures Last(After(steps)).intents[iid].reserved <= Last(After(steps)).intents[iid].captured
  {
    hide Extends, Inv, HonestEvent, Total, After;
    var w := After(steps);
    var s := Last(w);
    EveryRunKeepsInvariant(steps);
    RunStaysFaithful(p, steps);
    ReservedIsHeld(w, iid);
    var paid := map rid | rid in w.asked && p.pays(rid) :: w.asked[rid];
    forall rid | rid in paid && AskedFor(iid)(paid[rid]) > 0
      ensures rid in s.refunds && AskedFor(iid)(paid[rid]) <= Held(iid)(s.refunds[rid])
    {
      assert FaithfulRefund(p, rid, s.refunds[rid]);
    }
    TotalAtMost(paid, AskedFor(iid), s.refunds, Held(iid));
  }

  lemma {:induction false} ReservedIsHeld(w: World, iid: string)
    requires WorldInv(w) && iid in Last(w).intents
    ensures Last(w).intents[iid].reserved == Total(Last(w).refunds, Held(iid))
    ensures Last(w).intents[iid].reserved <= Last(w).intents[iid].captured
  {
    hide Extends, ReplayPayment, ReplayRefund, Numbered, UniqueIntents, UniqueRefunds, UniqueSequences, RefundInv,
      Total;
    assert Past(w.history[0], Last(w));
    assert Past(w.history[|w.history| - 1], Last(w));
    assert IntentInv(Last(w), iid);
  }
}
