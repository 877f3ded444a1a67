/** An event that arrives before the payment carries the provider's name for it: a run in which the event is settled as
    ignored, although the payment is open to it by the time the attempt commits. */
module InboxMissed {
  import opened Tables
  import opened PaymentStates
  import opened PaymentStore
  import opened AuditTrail
  import opened PaymentPlans
  import opened PaymentRuns
  import opened PaymentSerial
  import opened InboxEffects
  import opened InboxOnce
  import opened InboxOverlap

  const RECORDED: map<EventKey, InboxRow> := map[PENDING_KEY := NEW_PENDING]
  const IGNORED: map<EventKey, InboxRow> := map[PENDING_KEY := NEW_PENDING.(status := Ignored, attempts := 1)]

  /** The checkout is recorded between the look-up of the attempt and its commit. */
  const LOSING: seq<Step> := [
    STEPS[0],
    ReceiveEvent(PENDING_KEY, PENDING_EVENT),
    RequestCheckout("b", "i", 2, 2, CheckoutResult("x", RequiresAction, 0, None)),
    AttemptEvent(PENDING_KEY, true, 2, None, None, 2, 2, 2, 2)]

  lemma {:induction false} LosingPrefix(n: nat)
    requires n < |LOSING|
    ensures After(LOSING[..n + 1]) == Next(After(LOSING[..n]), LOSING[n])
  {
    assert LOSING[..n + 1][..n] == LOSING[..n];
  }

  lemma {:induction false} PaymentCreated()
    ensures After(LOSING[..1]).history == [EMPTY, Solo(Created, 1, map[])]
    ensures Written(After(LOSING[..1]).journal, PENDING_KEY) == 0
  {
    hide Next, Solo;
    FirstStep();
    assert LOSING[..1] == STEPS[..1];
    assert STATES[..2] == [EMPTY, Solo(Created, 1, map[])];
    CountedMore([], STEPS[0], true, 0);
  }

  lemma {:induction false} EventRecorded()
    ensures After(LOSING[..2]).history == [EMPTY, Solo(Created, 1, map[]), Solo(Created, 1, RECORDED)]
    ensures PENDING_KEY in After(LOSING[..2]).recorders
    ensures Written(After(LOSING[..2]).journal, PENDING_KEY) == 0
  {
    hide Constraints, Current, Apply, Next, After, Solo, Written;
    PaymentCreated();
    LosingPrefix(1);
    var w := After(LOSING[..1]);
    var t := NOTHING.(inbox := InsertInbox(PENDING_KEY, NEW_PENDING));
    SoloInbox(Last(w), Created, 1, map[], t);
    StepTo(w, LOSING[1], t, Solo(Created, 1, RECORDED));
    assert w.journal + [] == w.journal;
  }

  lemma {:induction false} CheckoutWritesBeside(inbox: map<EventKey, InboxRow>)
    ensures CheckoutPlan("b", "i", Solo(Created, 1, inbox), Solo(Created, 1, inbox),
                         CheckoutResult("x", RequiresAction, 0, None)) == Write([CheckoutTxn()])
  {
    hide MaxSequence;
    SoloNumbers(1);
    assert [] + [NextRow("i", 1, 0, None, PaymentChange(Some(Created), RequiresAction), Api)] == [ROWS[1]];
  }

  lemma {:induction false} CheckoutAppliesBeside(inbox: map<EventKey, InboxRow>)
    ensures var s := Solo(Created, 1, inbox);
            && Current(s, CheckoutTxn()) && Apply(s, CheckoutTxn()) == Solo(RequiresAction, 2, inbox)
            && Constraints(Apply(s, CheckoutTxn()))
  {
    hide Constraints, NewIntent, MaxSequence;
    SoloConstraints(RequiresAction, 2, inbox);
    var s := Solo(Created, 1, inbox);
    assert IntentCurrent(s, "i", CheckoutTxn().intents["i"]);
    assert Apply(s, CheckoutTxn()).intents == map["i" := Payment(RequiresAction, 2)];
    assert ROWS[..1] + [ROWS[1]] == ROWS[..2];
  }

  lemma {:induction false} CheckoutRecorded()
    ensures After(LOSING[..3]).history ==
            [EMPTY, Solo(Created, 1, map[]), Solo(Created, 1, RECORDED), Solo(RequiresAction, 2, RECORDED)]
    ensures PENDING_KEY in After(LOSING[..3]).recorders
    ensures Written(After(LOSING[..3]).journal, PENDING_KEY) == 0
  {
    hide Constraints, Current, Apply, Next, After, Solo, CheckoutPlan, CheckoutTxn;
    EventRecorded();
    LosingPrefix(2);
    var w := After(LOSING[..2]);
    CheckoutWritesBeside(RECORDED);
    CheckoutAppliesBeside(RECORDED);
    StepTo(w, LOSING[2], CheckoutTxn(), Solo(RequiresAction, 2, RECORDED));
    WrittenAppend(w.journal, JournalEntry(w, LOSING[2], [CheckoutTxn()]), PENDING_KEY);
  }

  /** Before the checkout no payment carries the name "x". */
  lemma {:induction false} NothingToFind()
    ensures FindsPayment(Solo(Created, 1, RECORDED), PENDING_KEY, PENDING_EVENT, None)
    ensures FindsRefund(Solo(Created, 1, RECORDED), PENDING_KEY, PENDING_EVENT, None, None)
  {
  }

  lemma {:induction false} FoundAfterwards()
    ensures LooksUp(Solo(RequiresAction, 2, IGNORED), PENDING_KEY, PENDING_EVENT, Some("i"), None)
    ensures Open(Solo(RequiresAction, 2, IGNORED), PENDING_EVENT, Some("i"), None)
  {
  }

  /** The event ends up settled and was never written, and the payment is open to it. */
  lemma {:induction false} EventIsLost()
    ensures var w := After(LOSING);
            && SettledIn(Last(w), PENDING_KEY) && Written(w.journal, PENDING_KEY) == 0
            && LooksUp(Last(w), PENDING_KEY, Last(w).inbox[PENDING_KEY].event, Some("i"), None)
            && StillWrites(Last(w), PENDING_KEY, Last(w).inbox[PENDING_KEY].event, Some("i"), None)
  {
    hide Constraints, Current, Apply, Next, After, FindsPayment, FindsRefund, LooksUp, StillWrites;
    CheckoutRecorded();
    LosingPrefix(3);
    NothingToFind();
    var w := After(LOSING[..3]);
    var t := NOTHING.(inbox := SetInbox(PENDING_KEY, Ignored, 1));
    SoloInbox(Last(w), RequiresAction, 2, RECORDED, t);
    assert StoredInbox(RECORDED, t.inbox) == IGNORED;
    StepTo(w, LOSING[3], t, Solo(RequiresAction, 2, IGNORED));
    WrittenAppend(w.journal, JournalEntry(w, LOSING[3], [t]), PENDING_KEY);
    assert LOSING[..4] == LOSING;
    FoundAfterwards();
    StillWritesIff(Solo(RequiresAction, 2, IGNORED), PENDING_KEY, PENDING_EVENT, Some("i"), None);
  }
}
