/** The ledger as the outcome of its journal: every entry applied alone, in order; and how often an event can write. */
module PaymentJournal {
  import opened Tables
  import opened PaymentStore
  import opened AuditTrail
  import opened PaymentPlans
  import opened PaymentSteps
  import opened PaymentRuns
  import opened PaymentSerial
  import opened InboxOnce

  /** The three ledger tables, without the inbox. */
  function LedgerOf(s: Store): Store {
    s.(inbox := map[])
  }

  /** The ledger rebuilt from nothing: each entry's operation or event applied alone in the state its predecessors
      left. */
  function Replayed(journal: seq<Entry>): Option<Store> {
    if journal == [] then Some(EMPTY)
    else
      match Replayed(journal[..|journal| - 1])
      case None => None
      case Some(s) => CommitAll(s, Alone(journal[|journal| - 1], s))
  }

  lemma {:induction false} ReplayedAppend(journal: seq<Entry>, e: Entry)
    ensures Replayed(journal + [e]) ==
            match Replayed(journal) case None => None case Some(s) => CommitAll(s, Alone(e, s))
  {
    assert (journal + [e])[..|journal|] == journal;
  }

  // ------------------------------------------------ the inbox takes no part in it

  lemma {:induction false} BareApply(c: Store, t: Txn)
    requires Accepts(c, t)
    ensures Accepts(LedgerOf(c), t.(inbox := NoInbox))
    ensures Apply(LedgerOf(c), t.(inbox := NoInbox)) == LedgerOf(Apply(c, t))
  {
    hide Constraints;
    var bare := t.(inbox := NoInbox);
    assert Apply(LedgerOf(c), bare) == LedgerOf(Apply(c, t));
    InboxIndependent(Apply(c, t), map[]);
    assert forall i | i in bare.intents :: IntentCurrent(c, i, t.intents[i]);
    assert forall r | r in bare.refunds :: RefundCurrent(c, r, t.refunds[r]);
  }

  lemma {:induction false} BareCommit(c: Store, parts: seq<Txn>)
    requires CommitAll(c, parts).Some?
    ensures CommitAll(LedgerOf(c), Bare(parts)) == Some(LedgerOf(CommitAll(c, parts).value))
    decreases |parts|
  {
    hide Accepts, Apply, LedgerOf;
    if parts != [] {
      BareApply(c, parts[0]);
      assert Bare(parts)[1..] == Bare(parts[1..]);
      BareCommit(Apply(c, parts[0]), parts[1..]);
    }
  }

  /** Commits that touch no ledger row leave the ledger. */
  lemma {:induction false} UntouchedLedger(c: Store, parts: seq<Txn>)
    requires CommitAll(c, parts).Some? && !WritesLedger(parts)
    ensures LedgerOf(CommitAll(c, parts).value) == LedgerOf(c)
    decreases |parts|
  {
    hide Accepts;
    if parts != [] {
      var t := parts[0];
      assert !Touches(t);
      assert Apply(c, t).intents == c.intents && Apply(c, t).refunds == c.refunds && Apply(c, t).audit == c.audit;
      assert forall k | 0 <= k < |parts[1..]| :: parts[1..][k] == parts[k + 1];
      UntouchedLedger(Apply(c, t), parts[1..]);
    }
  }

  lemma {:induction false} EventIgnoresInbox(s: Store, key: EventKey, event: Event, found: Option<string>,
                                             foundRefund: Option<string>)
    ensures EventAlone(LedgerOf(s), key, event, found, foundRefund) == EventAlone(s, key, event, found, foundRefund)
  {
    hide MaxSequence, ApplyPaymentEvent, ApplyRefundEvent;
    assert LooksUp(LedgerOf(s), key, event, found, foundRefund) == LooksUp(s, key, event, found, foundRefund);
  }

  lemma {:induction false} ExpiryIgnoresInbox(s: Store, due: seq<string>)
    requires forall k | 0 <= k < |due| :: due[k] in s.intents
    ensures ExpireParts(due, LedgerOf(s), Same(LedgerOf(s), |due|)) == ExpireParts(due, s, Same(s, |due|))
  {
    hide MaxSequence;
    var l := LedgerOf(s);
    forall k | 0 <= k < |due| ensures ExpireOne(due[k], l, l) == ExpireOne(due[k], s, s) {
    }
  }

  lemma {:induction false} DueIgnoresInbox(s: Store, business: string, now: int, due: seq<string>)
    ensures AllDue(LedgerOf(s), business, now, due) == AllDue(s, business, now, due)
  {
    assert forall i :: Due(LedgerOf(s), business, now, i) == Due(s, business, now, i);
  }

  lemma {:induction false} KeysIgnoreInbox(s: Store, business: string, key: string, request: CreateRequest,
                                           refund: RefundRequest)
    ensures IntentKeyUsed(LedgerOf(s), business, key) == IntentKeyUsed(s, business, key)
    ensures IntentKeyMatches(LedgerOf(s), business, key, request) == IntentKeyMatches(s, business, key, request)
    ensures RefundKeyUsed(LedgerOf(s), business, key) == RefundKeyUsed(s, business, key)
    ensures RefundKeyMatches(LedgerOf(s), business, key, refund) == RefundKeyMatches(s, business, key, refund)
  {
  }

  lemma {:induction false} OperationIgnoresInbox(step: Step, s: Store)
    ensures OperationAlone(step, LedgerOf(s)) == OperationAlone(step, s)
  {
    hide MaxSequence, IntentKeyUsed, IntentKeyMatches, RefundKeyUsed, RefundKeyMatches, Transition, Noted,
      CompleteRefund, FailRefund,
      ValidCheckout, CheckedOut, ExpireParts, ValidRequest, RefundTxn, IntentTxn;
    match step
    case CreateIntent(business, key, iid, request, now, _, _) =>
      KeysIgnoreInbox(s, business, key, request, RefundRequest("", None, None));
    case ReserveRefund(business, rid, key, refund, _, _, _) =>
      KeysIgnoreInbox(s, business, key, CreateRequest("", "", 0, "", "", None, None), refund);
    case ExpireDue(business, now, due, _, _) =>
      DueIgnoresInbox(s, business, now, due);
      if AllDue(s, business, now, due) {
        ExpiryIgnoresInbox(s, due);
      }
    case _ =>
  }

  // ------------------------------------------------------------------ the theorem

  /** The entry of an accepted step, run alone in the ledger it found, leaves the ledger that the step left. */
  lemma {:induction false} EntryAlone(w: World, step: Step, e: Entry)
    requires WorldInv(w) && Committing(w, step) && JournalEntry(w, step, StepPlan(w, step).parts) == [e]
    ensures CommitAll(LedgerOf(Last(w)), Alone(e, LedgerOf(Last(w)))) ==
            Some(LedgerOf(CommitAll(Last(w), StepPlan(w, step).parts).value))
  {
    assert w.history != [];
    hide WorldInv, StepPlan, CommitAll, LedgerOf, WritesLedger, Bare, EventAlone, OperationAlone, LooksUp, Seen;
    var c, parts := Last(w), StepPlan(w, step).parts;
    if !e.written {
      UntouchedLedger(c, parts);
      NothingCommits(LedgerOf(c));
    } else if step.AttemptEvent? {
      AttemptIsSerial(w, step);
      EventIgnoresInbox(c, e.key, e.event, e.found, e.foundRefund);
      BareCommit(c, parts);
    } else {
      OperationIsSerial(w, step);
      OperationIgnoresInbox(step, c);
      PlansHaveNoInbox(c, step);
      BareOfBare(parts);
      BareCommit(c, parts);
    }
  }

  lemma {:induction false} NothingCommits(s: Store)
    ensures CommitAll(s, []) == Some(s)
  {
  }

  lemma {:induction false} JournalStep(w: World, step: Step)
    requires WorldInv(w) && Committing(w, step) && Replayed(w.journal) == Some(LedgerOf(Last(w)))
    ensures Replayed(w.journal + JournalEntry(w, step, StepPlan(w, step).parts)) ==
            Some(LedgerOf(CommitAll(Last(w), StepPlan(w, step).parts).value))
  {
    assert w.history != [];
    hide WorldInv, StepPlan, CommitAll, LedgerOf, Alone, Replayed, Seen;
    var more := JournalEntry(w, step, StepPlan(w, step).parts);
    if more == [] {
      assert w.journal + [] == w.journal;
      InboxStepsKeepLedger(w, step);
    } else {
      assert more == [more[0]];
      EntryAlone(w, step, more[0]);
      ReplayedAppend(w.journal, more[0]);
    }
  }

  lemma {:induction false} InboxStepsWriteNothing(w: World, step: Step)
    requires w.history != [] && StepPlan(w, step).Write? && (step.ReceiveEvent? || step.MarkFailed?)
    ensures !WritesLedger(StepPlan(w, step).parts)
  {
    hide MayAttempt, Seen;
  }

  lemma {:induction false} InboxStepsKeepLedger(w: World, step: Step)
    requires w.history != [] && Committing(w, step) && (step.ReceiveEvent? || step.MarkFailed?)
    ensures LedgerOf(CommitAll(Last(w), StepPlan(w, step).parts).value) == LedgerOf(Last(w))
  {
    hide CommitAll, StepPlan, WritesLedger, LedgerOf;
    InboxStepsWriteNothing(w, step);
    UntouchedLedger(Last(w), StepPlan(w, step).parts);
  }

  lemma {:induction false} JournalNext(w: World, step: Step)
    requires WorldInv(w) && Replayed(w.journal) == Some(LedgerOf(Last(w)))
    ensures Replayed(Next(w, step).journal) == Some(LedgerOf(Last(Next(w, step))))
  {
    assert w.history != [];
    hide Next, StepPlan, CommitAll, LedgerOf, Replayed, JournalEntry, WorldInv, Committing, Last, RecordersAfter;
    NextEnds(w, step);
    if Committing(w, step) {
      CommittingGives(w, step);
      JournalStep(w, step);
    }
  }

  lemma {:induction false} NextEnds(w: World, step: Step)
    requires w.history != []
    ensures var next := Next(w, step);
            if Committing(w, step)
            then Last(next) == CommitAll(Last(w), StepPlan(w, step).parts).value
                 && next.journal == w.journal + JournalEntry(w, step, StepPlan(w, step).parts)
            else Last(next) == Last(w) && next.journal == w.journal
  {
    hide Next, StepPlan, CommitAll, JournalEntry, RecordersAfter;
    NextShape(w, step);
  }

  /** Serializability over whole runs: whatever was read when, the ledger is what comes out when the accepted operations
      and events are applied one after another, each alone, with every read at the state its predecessors left. */
  lemma {:induction false} LedgerIsJournal(steps: seq<Step>)
    ensures Replayed(After(steps).journal) == Some(LedgerOf(Last(After(steps))))
    decreases |steps|
  {
    if steps == [] {
      assert LedgerOf(EMPTY) == EMPTY;
    } else {
      hide Next, LedgerOf, Replayed, WorldInv;
      LedgerIsJournal(steps[..|steps| - 1]);
      EveryRunKeepsInvariant(steps[..|steps| - 1]);
      JournalNext(After(steps[..|steps| - 1]), steps[|steps| - 1]);
    }
  }
}
