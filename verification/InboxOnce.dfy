/** The webhook inbox: how often an event's attempts are accepted, and exactly when that is once. */
module InboxOnce {
  import opened PaymentStore
  import opened AuditTrail
  import opened PaymentPlans
  import opened PaymentInvariant
  import opened PaymentRuns

  predicate Settled(row: InboxRow) {
    row.status == Processed || row.status == Ignored
  }

  predicate SettledIn(s: Store, key: EventKey) {
    key in s.inbox && Settled(s.inbox[key])
  }

  /** The attempt works on the inbox row as it is stored when it commits: no other attempt of the event ran in between,
      and none settled it before the recording delivery began its own. */
  predicate Serial(w: World, step: Step)
    requires w.history != []
  {
    step.AttemptEvent? || step.MarkFailed? ==>
      (step.eventKey in Seen(w, step.inboxAt).inbox ==>
         step.eventKey in Last(w).inbox && Last(w).inbox[step.eventKey] == Seen(w, step.inboxAt).inbox[step.eventKey]
         && (step.first ==> !SettledIn(Last(w), step.eventKey)))
  }

  predicate SerialRun(steps: seq<Step>) {
    steps == [] || (SerialRun(steps[..|steps| - 1]) && Serial(After(steps[..|steps| - 1]), steps[|steps| - 1]))
  }

  /** How many attempts of this event were accepted. */
  function Applications(journal: seq<Entry>, key: EventKey): nat {
    if journal == [] then 0
    else
      var last := journal[|journal| - 1];
      Applications(journal[..|journal| - 1], key) + if last.Application? && last.key == key then 1 else 0
  }

  /** What each kind of step does to the inbox. */
  lemma {:induction false} InboxAfter(w: World, step: Step)
    requires w.history != [] && Committing(w, step)
    ensures var s := CommitAll(Last(w), StepPlan(w, step).parts).value;
            match step
            case ReceiveEvent(key, event) => key !in Last(w).inbox
              && s.inbox == Last(w).inbox[key := InboxRow(event, Received, 0)]
            case AttemptEvent(key, first, inboxAt, _, _, _, _, _, _) =>
              && MayAttempt(key, first, Seen(w, inboxAt)) && (first ==> key in w.recorders)
              && (key in Last(w).inbox ==>
                    key in s.inbox && Settled(s.inbox[key]) && s.inbox == Last(w).inbox[key := s.inbox[key]]
                    && s.inbox[key].attempts == Seen(w, inboxAt).inbox[key].attempts + 1)
            case MarkFailed(key, first, inboxAt) =>
              && MayAttempt(key, first, Seen(w, inboxAt)) && (first ==> key in w.recorders)
              && (key in Last(w).inbox ==>
                    key in s.inbox && s.inbox[key].status == FailedAttempt
                      && s.inbox == Last(w).inbox[key := s.inbox[key]]
                    && s.inbox[key].attempts == Seen(w, inboxAt).inbox[key].attempts + 1)
            case _ => s.inbox == Last(w).inbox
  {
    hide Constraints, IntentCurrent, RefundCurrent, Seen, CreatePlan, CheckoutPlan, CancelPlan, ReservePlan, RecordPlan,
      ApplyEvent, MaxSequence, EventPayment, EventRefund;
    var parts := StepPlan(w, step).parts;
    if step.ExpireDue? {
      var rows, trails := Seen(w, step.rowAt), SeenEach(w, step.trailsAt);
      forall k | 0 <= k < |parts| ensures parts[k].inbox == NoInbox {
        assert parts[k] == ExpireOne(step.due[k], rows, trails[k]);
      }
      NoInboxKeepsInbox(Last(w), parts);
    } else {
      OnePart(Last(w), parts);
      SingleInbox(w, step);
    }
  }

  lemma {:induction false} NoInboxKeepsInbox(c: Store, parts: seq<Txn>)
    requires forall k | 0 <= k < |parts| :: parts[k].inbox == NoInbox
    requires CommitAll(c, parts).Some?
    ensures CommitAll(c, parts).value.inbox == c.inbox
    decreases |parts|
  {
    hide Accepts;
    if parts != [] {
      NoInboxKeepsInbox(Apply(c, parts[0]), parts[1..]);
    }
  }

  lemma {:induction false} SingleInbox(w: World, step: Step)
    requires w.history != [] && StepPlan(w, step).Write? && !step.ExpireDue?
    ensures var write := StepPlan(w, step).parts[0].inbox;
            match step
            case ReceiveEvent(key, event) => write == InsertInbox(key, InboxRow(event, Received, 0))
            case AttemptEvent(key, first, inboxAt, _, _, _, _, _, _) =>
              && MayAttempt(key, first, Seen(w, inboxAt)) && (first ==> key in w.recorders)
              && write.SetInbox? && write.key == key && write.status in {Processed, Ignored}
              && write.attempts == Seen(w, inboxAt).inbox[key].attempts + 1
            case MarkFailed(key, first, inboxAt) =>
              && MayAttempt(key, first, Seen(w, inboxAt)) && (first ==> key in w.recorders)
              && write.SetInbox? && write.key == key && write.status == FailedAttempt
              && write.attempts == Seen(w, inboxAt).inbox[key].attempts + 1
            case _ => write == NoInbox
  {
    hide MaxSequence, EventPayment, EventRefund, Noted, Transition, ValidCheckout, CheckedOut, CompleteRefund,
      FailRefund, RefundKeyUsed, IntentKeyUsed, Owns;
  }

  lemma {:induction false} FailedIsUnsettled()
    ensures forall row: InboxRow :: row.status in {Received, FailedAttempt} ==> !Settled(row)
  {
  }

  lemma {:induction false} AttemptedIsStored(w: World, step: Step)
    requires WorldInv(w)
    ensures (step.AttemptEvent? || step.MarkFailed?) && step.eventKey in Seen(w, step.inboxAt).inbox ==>
              step.eventKey in Last(w).inbox
    ensures (step.AttemptEvent? || step.MarkFailed?) && step.eventKey in Seen(w, step.inboxAt).inbox ==>
              Last(w).inbox[step.eventKey].event == Seen(w, step.inboxAt).inbox[step.eventKey].event
  {
    hide Inv;
    if step.AttemptEvent? || step.MarkFailed? {
      ReadsArePast(w, step.inboxAt);
    }
  }

  lemma {:induction false} ApplicationsAppend(journal: seq<Entry>, more: seq<Entry>, key: EventKey)
    requires |more| <= 1
    ensures Applications(journal + more, key) ==
            Applications(journal, key) + if |more| == 1 && more[0].Application? && more[0].key == key then 1 else 0
  {
    if more == [] {
      assert journal + more == journal;
    } else {
      assert (journal + more)[..|journal|] == journal;
    }
  }

  lemma {:induction false} NextShape(w: World, step: Step)
    requires w.history != []
    ensures var next := Next(w, step);
            if Committing(w, step)
            then next.history == w.history + [CommitAll(Last(w), StepPlan(w, step).parts).value]
                 && next.journal == w.journal + JournalEntry(w, step, StepPlan(w, step).parts)
                 && next.recorders == RecordersAfter(w, step)
            else next.history == w.history && next.journal == w.journal && next.recorders == w.recorders
  {
    hide StepPlan, CommitAll, AskedAfter, JournalEntry, RecordersAfter;
  }

  /** Only an accepted attempt is one more application, and only of its own event. */
  lemma {:induction false} ApplicationsNext(w: World, step: Step, key: EventKey)
    requires w.history != []
    ensures Applications(Next(w, step).journal, key) ==
            Applications(w.journal, key) +
              if Committing(w, step) && step.AttemptEvent? && step.eventKey == key then 1 else 0
  {
    hide StepPlan, CommitAll, Next;
    NextShape(w, step);
    if Committing(w, step) {
      ApplicationsAppend(w.journal, JournalEntry(w, step, StepPlan(w, step).parts), key);
    }
  }

  // ------------------------------------------------------------ exactly when once

  /** Some committed state so far showed the event as settled. */
  predicate EverSettled(w: World, key: EventKey) {
    exists j | 0 <= j < |w.history| :: SettledIn(w.history[j], key)
  }

  /** The events applied so far are those ever settled. */
  ghost predicate AppliedInv(w: World) {
    w.history != [] && forall key :: Applications(w.journal, key) > 0 <==> EverSettled(w, key)
  }

  /** An accepted attempt settles its event; no other step settles any. */
  lemma {:induction false} SettlesOnlyItsEvent(w: World, step: Step, key: EventKey)
    requires WorldInv(w) && Committing(w, step)
    ensures var s := CommitAll(Last(w), StepPlan(w, step).parts).value;
            && (step.AttemptEvent? && step.eventKey == key ==> SettledIn(s, key))
            && (SettledIn(s, key) ==> SettledIn(Last(w), key) || (step.AttemptEvent? && step.eventKey == key))
  {
    assert w.history != [];
    hide StepPlan, CommitAll, WorldInv, Retryable, Settled;
    InboxAfter(w, step);
    AttemptedIsStored(w, step);
    FailedIsUnsettled();
  }

  lemma {:induction false} SettledMore(history: seq<Store>, s: Store, w: World, key: EventKey)
    requires w.history == history + [s]
    ensures EverSettled(w, key) <==> (exists j | 0 <= j < |history| :: SettledIn(history[j], key)) || SettledIn(s, key)
  {
    hide SettledIn;
    assert w.history[|history|] == s;
    forall j | 0 <= j < |history| ensures w.history[j] == history[j] {
    }
  }

  lemma {:induction false} NextKeepsApplied(w: World, step: Step)
    requires AppliedInv(w) && WorldInv(w)
    ensures AppliedInv(Next(w, step))
  {
    hide StepPlan, CommitAll, WorldInv, Next, SettledIn;
    NextShape(w, step);
    var next := Next(w, step);
    forall key ensures Applications(next.journal, key) > 0 <==> EverSettled(next, key) {
      ApplicationsNext(w, step, key);
      if Committing(w, step) {
        SettlesOnlyItsEvent(w, step, key);
        SettledMore(w.history, CommitAll(Last(w), StepPlan(w, step).parts).value, next, key);
        assert SettledIn(Last(w), key) ==> EverSettled(w, key);
      }
    }
  }

  lemma {:induction false} RunKeepsApplied(steps: seq<Step>)
    ensures AppliedInv(After(steps))
    decreases |steps|
  {
    hide Next, WorldInv;
    if steps == [] {
      assert forall key :: !SettledIn(EMPTY, key);
    } else {
      RunKeepsApplied(steps[..|steps| - 1]);
      EveryRunKeepsInvariant(steps[..|steps| - 1]);
      NextKeepsApplied(After(steps[..|steps| - 1]), steps[|steps| - 1]);
    }
  }

  ghost predicate AtMostOnce(w: World) {
    forall key :: Applications(w.journal, key) <= 1
  }

  /** The position in the history that a read saw. */
  function Position(w: World, k: nat): (p: nat)
    requires w.history != []
    ensures p < |w.history| && w.history[p] == Seen(w, k)
  {
    if k < |w.history| then k else |w.history| - 1
  }

  /** The attempt has passed its look at the inbox row, or had none to pass, although the event is or was settled:
      another attempt settled it after the look; or a failure mark had replaced a settled one before the look; or this
      is the recording delivery, which does not look, and the event was settled when it went on. */
  predicate GuardMisses(w: World, step: Step)
    requires w.history != [] && step.AttemptEvent?
  {
    var key, p := step.eventKey, Position(w, step.inboxAt);
    || (exists j | p < j < |w.history| :: SettledIn(w.history[j], key))
    || MarkReplaced(w, key, p)
    || (step.first && SettledIn(w.history[p], key))
  }

  /** Up to this position, some commit left the event unsettled that it had found settled. */
  predicate MarkReplaced(w: World, key: EventKey, p: nat)
    requires p < |w.history|
  {
    exists j | 0 <= j < p :: SettledIn(w.history[j], key) && !SettledIn(w.history[j + 1], key)
  }

  lemma {:induction false} UnsettledIsReplaced(w: World, key: EventKey, j: nat, p: nat)
    requires j < p < |w.history| && SettledIn(w.history[j], key) && !SettledIn(w.history[p], key)
    ensures MarkReplaced(w, key, p)
    decreases p - j
  {
    hide SettledIn;
    if SettledIn(w.history[j + 1], key) {
      UnsettledIsReplaced(w, key, j + 1, p);
    }
  }

  /** A guarded attempt goes ahead only on a row it sees unsettled. */
  lemma {:induction false} GuardedSeesUnsettled(w: World, step: Step)
    requires w.history != [] && step.AttemptEvent? && Committing(w, step) && !step.first
    ensures !SettledIn(Seen(w, step.inboxAt), step.eventKey)
  {
    hide CommitAll, ApplyEvent, FindsPayment, FindsRefund, Seen;
  }

  /** The three ways past the guard are all there are: an accepted attempt of an event settled in any earlier state took
      one of them. */
  lemma {:induction false} GuardMissesIff(w: World, step: Step)
    requires w.history != [] && step.AttemptEvent? && Committing(w, step)
    ensures GuardMisses(w, step) <==> EverSettled(w, step.eventKey)
  {
    hide StepPlan, CommitAll, SettledIn, Committing, Seen;
    var key, p := step.eventKey, Position(w, step.inboxAt);
    if !step.first {
      GuardedSeesUnsettled(w, step);
    }
    if EverSettled(w, key) {
      var j :| 0 <= j < |w.history| && SettledIn(w.history[j], key);
      if j < p && !SettledIn(w.history[p], key) {
        UnsettledIsReplaced(w, key, j, p);
      }
    }
  }

  /** The step commits an attempt that got past the guard of a settled event. At the commit there is no second guard:
      the inbox row carries no version, and its status is not checked again. */
  predicate Reapplies(w: World, step: Step)
    requires w.history != []
  {
    step.AttemptEvent? && Committing(w, step) && GuardMisses(w, step)
  }

  predicate NeverReapplies(steps: seq<Step>) {
    steps == [] || (NeverReapplies(steps[..|steps| - 1]) && !Reapplies(After(steps[..|steps| - 1]), steps[|steps| - 1]))
  }

  /** One step: at-most-once is lost exactly by committing an attempt that got past the guard of a settled event. */
  lemma {:induction false} OnceIsLostIff(w: World, step: Step)
    requires AppliedInv(w) && AtMostOnce(w)
    ensures AtMostOnce(Next(w, step)) <==> !Reapplies(w, step)
  {
    hide StepPlan, CommitAll, Next, EverSettled, GuardMisses, Committing;
    if step.AttemptEvent? && Committing(w, step) {
      GuardMissesIff(w, step);
    }
    var next := Next(w, step);
    forall key
      ensures Applications(next.journal, key) ==
              Applications(w.journal, key) +
                if Committing(w, step) && step.AttemptEvent? && step.eventKey == key then 1 else 0
    {
      ApplicationsNext(w, step, key);
    }
    if Reapplies(w, step) {
      assert Applications(w.journal, step.eventKey) == 1;
    }
  }

  /** The exact condition, for all runs: no event is applied twice if and only if no attempt commits that got past the
      guard of a settled event. */
  lemma {:induction false} ExactlyOnceIff(steps: seq<Step>)
    ensures AtMostOnce(After(steps)) <==> NeverReapplies(steps)
    decreases |steps|
  {
    hide Next, Reapplies, AppliedInv;
    if steps != [] {
      var before, step := After(steps[..|steps| - 1]), steps[|steps| - 1];
      ExactlyOnceIff(steps[..|steps| - 1]);
      RunKeepsApplied(steps[..|steps| - 1]);
      forall key ensures Applications(before.journal, key) <= Applications(Next(before, step).journal, key) {
        ApplicationsNext(before, step, key);
      }
      assert After(steps) == Next(before, step);
      assert AtMostOnce(Next(before, step)) ==> AtMostOnce(before);
      if AtMostOnce(before) {
        OnceIsLostIff(before, step);
      }
    }
  }

  // ------------------------------------------------------------ serial attempts

  /** The settled events are the applied ones, each applied once. */
  ghost predicate OnceInv(w: World) {
    w.history != [] && forall key :: Applications(w.journal, key) == if SettledIn(Last(w), key) then 1 else 0
  }

  lemma {:induction false} SerialIsUnsettled(w: World, step: Step)
    requires w.history != [] && Serial(w, step) && Committing(w, step) && (step.AttemptEvent? || step.MarkFailed?)
    ensures !SettledIn(Last(w), step.eventKey)
  {
    hide CommitAll, ApplyEvent, FindsPayment, FindsRefund;
  }

  lemma {:induction false} SerialKeepsOne(w: World, step: Step, key: EventKey)
    requires OnceInv(w) && WorldInv(w) && Serial(w, step) && Committing(w, step)
    ensures Applications(Next(w, step).journal, key) ==
            if SettledIn(CommitAll(Last(w), StepPlan(w, step).parts).value, key) then 1 else 0
  {
    assert w.history != [];
    hide StepPlan, CommitAll, WorldInv, Next, SettledIn, Serial, Committing;
    ApplicationsNext(w, step, key);
    SettlesOnlyItsEvent(w, step, key);
    if (step.AttemptEvent? || step.MarkFailed?) && step.eventKey == key {
      SerialIsUnsettled(w, step);
    } else if SettledIn(Last(w), key) {
      SettledStays(w, step, key);
    }
  }

  lemma {:induction false} OnceFrom(w: World, s: Store)
    requires w.history != [] && Last(w) == s
    requires forall key :: Applications(w.journal, key) == if SettledIn(s, key) then 1 else 0
    ensures OnceInv(w)
  {
  }

  lemma {:induction false} SerialCommit(w: World, step: Step, s: Store)
    requires OnceInv(w) && WorldInv(w) && Serial(w, step) && Committing(w, step)
    requires s == CommitAll(Last(w), StepPlan(w, step).parts).value
    ensures forall key :: Applications(Next(w, step).journal, key) == if SettledIn(s, key) then 1 else 0
  {
    assert w.history != [];
    hide StepPlan, CommitAll, WorldInv, Next, SettledIn, Serial, Committing, Applications, OnceInv, Last;
    forall key ensures Applications(Next(w, step).journal, key) == if SettledIn(s, key) then 1 else 0 {
      SerialKeepsOne(w, step, key);
    }
  }

  lemma {:induction false} OnceStays(w: World, next: World)
    requires OnceInv(w) && next.history == w.history && next.journal == w.journal
    ensures OnceInv(next)
  {
  }

  lemma {:induction false} SerialKeepsOnce(w: World, step: Step)
    requires OnceInv(w) && WorldInv(w) && Serial(w, step)
    ensures OnceInv(Next(w, step))
  {
    assert w.history != [];
    hide StepPlan, CommitAll, WorldInv, Next, SettledIn, Serial, Committing, Applications, JournalEntry, RecordersAfter,
      OnceInv;
    NextShape(w, step);
    if Committing(w, step) {
      CommittingGives(w, step);
      SerialCommit(w, step, CommitAll(Last(w), StepPlan(w, step).parts).value);
      OnceFrom(Next(w, step), CommitAll(Last(w), StepPlan(w, step).parts).value);
    } else {
      OnceStays(w, Next(w, step));
    }
  }

  lemma {:induction false} CommittingGives(w: World, step: Step)
    requires w.history != [] && Committing(w, step)
    ensures StepPlan(w, step).Write? && CommitAll(Last(w), StepPlan(w, step).parts).Some?
  {
  }

  lemma {:induction false} SettledStays(w: World, step: Step, key: EventKey)
    requires WorldInv(w) && Committing(w, step) && SettledIn(Last(w), key)
    requires step.AttemptEvent? || step.MarkFailed? ==> step.eventKey != key
    ensures SettledIn(CommitAll(Last(w), StepPlan(w, step).parts).value, key)
  {
    assert w.history != [];
    hide StepPlan, CommitAll, WorldInv, Retryable;
    InboxAfter(w, step);
    AttemptedIsStored(w, step);
  }

  lemma {:induction false} SerialRunsKeepOnce(steps: seq<Step>)
    requires SerialRun(steps)
    ensures OnceInv(After(steps))
    decreases |steps|
  {
    hide Next, Serial, WorldInv;
    if steps != [] {
      SerialRunsKeepOnce(steps[..|steps| - 1]);
      EveryRunKeepsInvariant(steps[..|steps| - 1]);
      SerialKeepsOnce(After(steps[..|steps| - 1]), steps[|steps| - 1]);
    }
  }

  /** Exactly once: in every run whose attempts of one event do not overlap, with any duplicates, reordering, crashes
      and failed attempts, every settled event was applied exactly once, and every other one not at all. */
  lemma {:induction false} EventsApplyExactlyOnce(steps: seq<Step>, key: EventKey)
    requires SerialRun(steps)
    ensures Applications(After(steps).journal, key) == if SettledIn(Last(After(steps)), key) then 1 else 0
  {
    SerialRunsKeepOnce(steps);
  }

  /** A processed or ignored event is left alone by redeliveries and retries: whatever state they see it settled in,
      they commit nothing. */
  lemma {:induction false} SettledIsFinal(w: World, step: Step)
    requires WorldInv(w)
    requires (step.AttemptEvent? || step.MarkFailed?) && !step.first ==> SettledIn(Seen(w, step.inboxAt), step.eventKey)
    requires step.ReceiveEvent? ==> step.eventKey in Last(w).inbox
    requires (step.AttemptEvent? || step.MarkFailed?) && step.first ==> step.eventKey !in w.recorders
    requires step.AttemptEvent? || step.MarkFailed? || step.ReceiveEvent?
    ensures Next(w, step) == w
  {
    hide Constraints, CommitAll, Inv;
    assert w.history != [];
    if step.ReceiveEvent? {
      var t := StepPlan(w, step).parts[0];
      CommitOne(Last(w), t);
      assert !Current(Last(w), t);
    }
  }
}
