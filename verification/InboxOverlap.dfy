/** Two overlapping attempts of one event: a run in which the same event is applied twice.

  The inbox row carries no version, so an attempt that lost a race writes `failed` over the winner's `processed`; a
  later redelivery is then retried, and finds the payment back in the lateral status the event moves it out of. */
module InboxOverlap {
  import opened Tables
  import opened PaymentStates
  import opened PaymentStore
  import opened AuditTrail
  import opened PaymentPlans
  import opened PaymentRuns
  import opened InboxOnce
  import opened InboxEffects

  const REQUEST: CreateRequest := CreateRequest("order", "p", 100, "ILS", "text", None, None)
  const PENDING_KEY: EventKey := EventKey("b", "p", "e1")
  const ACTION_KEY: EventKey := EventKey("b", "p", "e2")
  const PENDING_EVENT: Event := Event(PaymentPending, "x", None, None, None)
  const ACTION_EVENT: Event := Event(PaymentRequiresAction, "x", None, None, None)

  function Moved(n: nat, before: PaymentStatus, after: PaymentStatus, source: AuditSource): AuditRow {
    AuditRow("i", None, n, PaymentChange(Some(before), after), source)
  }

  const ROWS: seq<AuditRow> := [
    AuditRow("i", None, 1, PaymentChange(None, Created), Api),
    Moved(2, Created, RequiresAction, Api),
    Moved(3, RequiresAction, Pending, ProviderEvent),
    Moved(4, Pending, RequiresAction, ProviderEvent),
    Moved(5, RequiresAction, Pending, ProviderEvent)]

  function Payment(status: PaymentStatus, version: nat): Intent {
    NewIntent("b", "k", REQUEST).(status := status, version := version,
                                  providerPayment := if version == 1 then None else Some("x"))
  }

  function Solo(status: PaymentStatus, version: nat, inbox: map<EventKey, InboxRow>): Store
    requires 1 <= version <= 5
  {
    Store(map["i" := Payment(status, version)], map[], ROWS[..version], inbox)
  }

  function Inbox(pending: InboxRow, action: InboxRow): map<EventKey, InboxRow> {
    map[PENDING_KEY := pending, ACTION_KEY := action]
  }

  const NEW_PENDING: InboxRow := InboxRow(PENDING_EVENT, Received, 0)
  const NEW_ACTION: InboxRow := InboxRow(ACTION_EVENT, Received, 0)

  const STATES: seq<Store> := [
    EMPTY,
    Solo(Created, 1, map[]),
    Solo(RequiresAction, 2, map[]),
    Solo(RequiresAction, 2, map[PENDING_KEY := NEW_PENDING]),
    Solo(RequiresAction, 2, Inbox(NEW_PENDING, NEW_ACTION)),
    Solo(Pending, 3, Inbox(NEW_PENDING.(status := Processed, attempts := 1), NEW_ACTION)),
    Solo(Pending, 3, Inbox(NEW_PENDING.(status := FailedAttempt, attempts := 1), NEW_ACTION)),
    Solo(RequiresAction, 4, Inbox(NEW_PENDING.(status := FailedAttempt, attempts := 1),
                                  NEW_ACTION.(status := Processed, attempts := 1))),
    Solo(Pending, 5, Inbox(NEW_PENDING.(status := Processed, attempts := 2),
                           NEW_ACTION.(status := Processed, attempts := 1)))]

  /** Step 5 is the overlapping attempt: it read the inbox row before step 4 committed, and failed. */
  const STEPS: seq<Step> := [
    CreateIntent("b", "k", "i", REQUEST, 0, 0, 0),
    RequestCheckout("b", "i", 1, 1, CheckoutResult("x", RequiresAction, 0, None)),
    ReceiveEvent(PENDING_KEY, PENDING_EVENT),
    ReceiveEvent(ACTION_KEY, ACTION_EVENT),
    AttemptEvent(PENDING_KEY, false, 4, Some("i"), None, 4, 4, 4, 4),
    MarkFailed(PENDING_KEY, false, 4),
    AttemptEvent(ACTION_KEY, false, 6, Some("i"), None, 6, 6, 6, 6),
    AttemptEvent(PENDING_KEY, false, 7, Some("i"), None, 7, 7, 7, 7)]

  lemma {:induction false} SoloConstraints(status: PaymentStatus, version: nat, inbox: map<EventKey, InboxRow>)
    requires 1 <= version <= 5
    ensures Constraints(Solo(status, version, inbox))
    ensures MaxSequence(ROWS[..version], "i") == version
  {
    SoloNumbers(version);
  }

  lemma {:induction false} SoloNumbers(n: nat)
    requires n <= 5
    ensures MaxSequence(ROWS[..n], "i") == n
  {
    if n > 0 {
      SoloNumbers(n - 1);
      assert ROWS[..n][..n - 1] == ROWS[..n - 1];
    }
  }

  /** How often the pending event was applied, each time writing the ledger. */
  predicate Counted(journal: seq<Entry>, n: nat) {
    Applications(journal, PENDING_KEY) == n && Written(journal, PENDING_KEY) == n
  }

  lemma {:induction false} NothingCounted()
    ensures Counted([], 0)
  {
  }

  lemma {:induction false} CountedMore(journal: seq<Entry>, step: Step, written: bool, n: nat)
    requires Counted(journal, n)
    ensures Counted(journal + [Operation(step, written)], n)
  {
    ApplicationsAppend(journal, [Operation(step, written)], PENDING_KEY);
    WrittenAppend(journal, [Operation(step, written)], PENDING_KEY);
  }

  lemma {:induction false} AppliedMore(journal: seq<Entry>, key: EventKey, event: Event, n: nat)
    requires Counted(journal, n)
    ensures Counted(journal + [Application(key, event, Some("i"), None, true)], if key == PENDING_KEY then n + 1 else n)
  {
    ApplicationsAppend(journal, [Application(key, event, Some("i"), None, true)], PENDING_KEY);
    WrittenAppend(journal, [Application(key, event, Some("i"), None, true)], PENDING_KEY);
  }

  /** One accepted part leads from one listed state to the next. */
  lemma {:induction false} StepTo(w: World, step: Step, t: Txn, s: Store)
    requires w.history != [] && !step.AskProvider? && StepPlan(w, step) == Write([t])
    requires Current(Last(w), t) && Apply(Last(w), t) == s && Constraints(s)
    ensures Next(w, step) == World(w.history + [s], w.asked, w.journal + JournalEntry(w, step, [t]),
                                   RecordersAfter(w, step))
  {
    hide Current, Apply, Constraints, StepPlan;
    CommitOne(Last(w), t);
  }

  /** A status move of the one payment, written by an attempt or a checkout. */
  lemma {:induction false} SoloMove(s: Store, status: PaymentStatus, next: PaymentStatus, version: nat,
                                    inbox: map<EventKey, InboxRow>, t: Txn)
    requires 2 <= version <= 4 && s == Solo(status, version, inbox)
    requires t.intents == map["i" := Update(Payment(status, version), Payment(status, version).(status := next))]
    requires t.refunds == map[] && t.audits == [ROWS[version]] && !t.inbox.InsertInbox?
    ensures Current(s, t) && Apply(s, t) == Solo(next, version + 1, StoredInbox(inbox, t.inbox))
            && Constraints(Apply(s, t))
  {
    hide Constraints, NewIntent;
    assert ROWS[..version] + [ROWS[version]] == ROWS[..version + 1];
    SoloConstraints(next, version + 1, StoredInbox(inbox, t.inbox));
    assert Apply(s, t).intents == map["i" := Payment(next, version + 1)];
    assert Apply(s, t).refunds == map[];
  }

  lemma {:induction false} SoloInbox(s: Store, status: PaymentStatus, version: nat, inbox: map<EventKey, InboxRow>,
                                     t: Txn)
    requires 1 <= version <= 5 && s == Solo(status, version, inbox)
    requires t.intents == map[] && t.refunds == map[] && t.audits == []
             && (t.inbox.InsertInbox? ==> t.inbox.key !in inbox)
    ensures Current(s, t) && Apply(s, t) == Solo(status, version, StoredInbox(inbox, t.inbox))
            && Constraints(Apply(s, t))
  {
    SoloConstraints(status, version, StoredInbox(inbox, t.inbox));
    assert Apply(s, t).intents == s.intents && Apply(s, t).refunds == map[] && Apply(s, t).audit == s.audit;
  }

  /** The unit of work of an attempt that makes a lateral move. */
  function MoveTxn(key: EventKey, row: InboxRow, status: PaymentStatus, version: nat): Txn
    requires 1 <= version <= 4
  {
    var target := EventTarget(row.event.kind);
    Txn(map["i" := Update(Payment(status, version), Payment(status, version).(status := target))], map[],
        [ROWS[version]],
        SetInbox(key, Processed, row.attempts + 1))
  }

  predicate LateralAttempt(key: EventKey, status: PaymentStatus, version: nat, inbox: map<EventKey, InboxRow>) {
    && 2 <= version <= 4 && key.business == "b" && key.provider == "p" && key in inbox && Retryable(inbox[key])
    && inbox[key].event in {PENDING_EVENT, ACTION_EVENT}
    && Lateral(status, EventTarget(inbox[key].event.kind))
    && ROWS[version] == Moved(version + 1, status, EventTarget(inbox[key].event.kind), ProviderEvent)
  }

  lemma {:induction false} AttemptWrites(key: EventKey, status: PaymentStatus, version: nat,
                                         inbox: map<EventKey, InboxRow>)
    requires LateralAttempt(key, status, version, inbox)
    ensures var s := Solo(status, version, inbox);
            AttemptPlan(key, false, s, Some("i"), None, s, s, s, s) ==
              Write([MoveTxn(key, inbox[key], status, version)])
  {
    hide MaxSequence, ApplyPaymentEvent, Retryable, NewIntent;
    SoloNumbers(version);
    var s := Solo(status, version, inbox);
    LateralApplies(status, version, inbox[key].event);
    SoloLookup(key, status, version, inbox);
  }

  lemma {:induction false} SoloLookup(key: EventKey, status: PaymentStatus, version: nat,
                                      inbox: map<EventKey, InboxRow>)
    requires LateralAttempt(key, status, version, inbox)
    ensures FindsPayment(Solo(status, version, inbox), key, inbox[key].event, Some("i"))
    ensures FindsRefund(Solo(status, version, inbox), key, inbox[key].event, Some("i"), None)
  {
  }

  lemma {:induction false} LateralApplies(status: PaymentStatus, version: nat, event: Event)
    requires 2 <= version <= 4 && event in {PENDING_EVENT, ACTION_EVENT} && Lateral(status, EventTarget(event.kind))
    requires ROWS[version] == Moved(version + 1, status, EventTarget(event.kind), ProviderEvent)
    ensures var intent := Payment(status, version);
            ApplyPaymentEvent("i", intent, event, version) ==
            Applied(Processed, Txn(map["i" := Update(intent, intent.(status := EventTarget(event.kind)))], map[],
                                   [ROWS[version]], NoInbox))
  {
  }

  lemma {:induction false} AttemptMoves(w: World, step: Step, status: PaymentStatus, version: nat,
                                        inbox: map<EventKey, InboxRow>)
    requires w.history != [] && step.AttemptEvent? && !step.first
             && LateralAttempt(step.eventKey, status, version, inbox)
    requires Last(w) == Solo(status, version, inbox) && step.found == Some("i") && step.foundRefund == None
    requires step.rowAt == step.refundAt == step.trailAt == step.trailAgainAt == step.inboxAt == |w.history| - 1
    ensures var row := inbox[step.eventKey];
            var s := Solo(EventTarget(row.event.kind), version + 1,
                          inbox[step.eventKey := row.(status := Processed, attempts := row.attempts + 1)]);
            Next(w, step) == World(w.history + [s], w.asked,
                                   w.journal + [Application(step.eventKey, row.event, Some("i"), None, true)],
                                     w.recorders)
  {
    hide Constraints, AttemptPlan, Current, MoveTxn;
    var row := inbox[step.eventKey];
    var t := MoveTxn(step.eventKey, row, status, version);
    AttemptWrites(step.eventKey, status, version, inbox);
    MoveApplies(step.eventKey, status, version, inbox);
    StepTo(w, step, t, Apply(Last(w), t));
  }

  lemma {:induction false} MoveApplies(key: EventKey, status: PaymentStatus, version: nat,
                                       inbox: map<EventKey, InboxRow>)
    requires LateralAttempt(key, status, version, inbox)
    ensures var s, t := Solo(status, version, inbox), MoveTxn(key, inbox[key], status, version);
            && Current(s, t) && Constraints(Apply(s, t))
            && Apply(s, t) == Solo(EventTarget(inbox[key].event.kind), version + 1,
                                   inbox[key := inbox[key].(status := Processed, attempts := inbox[key].attempts + 1)])
  {
    hide Constraints, Current, Apply;
    SoloMove(Solo(status, version, inbox), status, EventTarget(inbox[key].event.kind), version, inbox,
             MoveTxn(key, inbox[key], status, version));
  }

  lemma {:induction false} AfterPrefix(n: nat)
    requires n < |STEPS|
    ensures After(STEPS[..n + 1]) == Next(After(STEPS[..n]), STEPS[n])
  {
    assert STEPS[..n + 1][..n] == STEPS[..n];
  }

  lemma {:induction false} CreateWrites()
    ensures CreatePlan("b", "k", "i", REQUEST, 0, EMPTY, EMPTY) ==
            Write([Txn(map["i" := Insert(NewIntent("b", "k", REQUEST))], map[], [ROWS[0]], NoInbox)])
  {
    assert !IntentKeyUsed(EMPTY, "b", "k");
    assert MaxSequence([], "i") == 0;
    assert ValidRequest(REQUEST, 0);
    assert [] + [NextRow("i", 0, 0, None, PaymentChange(None, Created), Api)] == [ROWS[0]];
  }

  lemma {:induction false} FirstStep()
    ensures After(STEPS[..1]) == World(STATES[..2], map[], [Operation(STEPS[0], true)], {})
  {
    hide Constraints, Current;
    AfterPrefix(0);
    var first := Txn(map["i" := Insert(NewIntent("b", "k", REQUEST))], map[], [ROWS[0]], NoInbox);
    CreateWrites();
    FirstApplies(first);
    StepTo(START, STEPS[0], first, STATES[1]);
  }

  lemma {:induction false} FirstApplies(first: Txn)
    requires first == Txn(map["i" := Insert(NewIntent("b", "k", REQUEST))], map[], [ROWS[0]], NoInbox)
    ensures Apply(EMPTY, first) == STATES[1] && Constraints(STATES[1]) && Current(EMPTY, first)
  {
    hide Constraints;
    SoloConstraints(Created, 1, map[]);
    assert IntentCurrent(EMPTY, "i", first.intents["i"]);
    assert Apply(EMPTY, first).intents == map["i" := Payment(Created, 1)] && ROWS[..1] == [ROWS[0]];
  }

  function CheckoutTxn(): Txn {
    Txn(map["i" := Update(Payment(Created, 1), Payment(RequiresAction, 2).(version := 1))], map[], [ROWS[1]], NoInbox)
  }

  lemma {:induction false} CheckoutWrites()
    ensures CheckoutPlan("b", "i", STATES[1], STATES[1], CheckoutResult("x", RequiresAction, 0, None)) ==
            Write([CheckoutTxn()])
  {
    hide MaxSequence;
    SoloNumbers(1);
    assert [] + [NextRow("i", 1, 0, None, PaymentChange(Some(Created), RequiresAction), Api)] == [ROWS[1]];
  }

  lemma {:induction false} CheckoutApplies()
    ensures Apply(STATES[1], CheckoutTxn()) == STATES[2] && Constraints(STATES[2]) && Current(STATES[1], CheckoutTxn())
  {
    hide Constraints, NewIntent, MaxSequence;
    SoloConstraints(RequiresAction, 2, map[]);
    assert IntentCurrent(STATES[1], "i", CheckoutTxn().intents["i"]);
    assert Apply(STATES[1], CheckoutTxn()).intents == map["i" := Payment(RequiresAction, 2)];
    assert ROWS[..1] + [ROWS[1]] == ROWS[..2];
  }

  lemma {:induction false} SecondStep()
    ensures After(STEPS[..2]).history == STATES[..3] && After(STEPS[..2]).asked == map[]
    ensures Counted(After(STEPS[..2]).journal, 0)
  {
    hide Constraints, Current, Apply, CheckoutPlan, CheckoutTxn, Solo, Next, After, Counted;
    AfterPrefix(1);
    NothingCounted();
    FirstStep();
    CheckoutWrites();
    CheckoutApplies();
    var w := After(STEPS[..1]);
    StepTo(w, STEPS[1], CheckoutTxn(), STATES[2]);
    CountedMore([], STEPS[0], true, 0);
    assert w.journal == [] + [Operation(STEPS[0], true)];
    CountedMore(w.journal, STEPS[1], WritesLedger([CheckoutTxn()]), 0);
  }

  lemma {:induction false} InboxStep(n: nat, status: PaymentStatus, version: nat, inbox: map<EventKey, InboxRow>,
                                     write: InboxWrite)
    requires n < |STEPS| && (STEPS[n].ReceiveEvent? || STEPS[n].MarkFailed?) && 1 <= version <= 5
    requires Last(After(STEPS[..n])) == Solo(status, version, inbox)
    requires StepPlan(After(STEPS[..n]), STEPS[n]) == Write([NOTHING.(inbox := write)])
    requires write.InsertInbox? ==> write.key !in inbox
    ensures var w := After(STEPS[..n]);
            After(STEPS[..n + 1]) == World(w.history + [Solo(status, version, StoredInbox(inbox, write))], w.asked,
                                           w.journal, RecordersAfter(w, STEPS[n]))
  {
    hide Constraints, Current, Apply, StepPlan;
    var w := After(STEPS[..n]);
    var t := NOTHING.(inbox := write);
    AfterPrefix(n);
    SoloInbox(Last(w), status, version, inbox, t);
    StepTo(w, STEPS[n], t, Apply(Last(w), t));
    assert w.journal + [] == w.journal;
  }

  lemma {:induction false} BothReceived()
    ensures After(STEPS[..4]).history == STATES[..5] && After(STEPS[..4]).asked == map[]
    ensures Counted(After(STEPS[..4]).journal, 0)
  {
    hide Constraints, Current, Apply, AttemptPlan, Next, After, Counted, MoveTxn;
    SecondStep();
    InboxStep(2, RequiresAction, 2, map[], InsertInbox(PENDING_KEY, NEW_PENDING));
    InboxStep(3, RequiresAction, 2, map[PENDING_KEY := NEW_PENDING], InsertInbox(ACTION_KEY, NEW_ACTION));
  }

  /** Up to the attempt that overlaps: both events received, the first one processed. */
  lemma {:induction false} FirstAttempt()
    ensures After(STEPS[..5]).history == STATES[..6] && After(STEPS[..5]).asked == map[]
    ensures Counted(After(STEPS[..5]).journal, 1)
  {
    hide Constraints, Current, Apply, AttemptPlan, Next, After, Counted, MoveTxn;
    BothReceived();
    var w := After(STEPS[..4]);
    AfterPrefix(4);
    AttemptMoves(w, STEPS[4], RequiresAction, 2, Inbox(NEW_PENDING, NEW_ACTION));
    assert Inbox(NEW_PENDING, NEW_ACTION)[PENDING_KEY := NEW_PENDING.(status := Processed, attempts := 1)] ==
           STATES[5].inbox;
    AppliedMore(w.journal, PENDING_KEY, PENDING_EVENT, 0);
  }

  /** The run reaches a state in which one event has been applied twice, writing the payment both times: without the
      serial condition the inbox is not exactly-once. The overlapping attempt is the only step of this run that is not
      serial. */
  lemma {:induction false} OverlappingAttemptsApplyTwice()
    ensures Counted(After(STEPS).journal, 2)
    ensures After(STEPS).history == STATES
    ensures !Serial(After(STEPS[..5]), STEPS[5])
  {
    hide Constraints, Current, Apply, AttemptPlan, Next, After;
    FirstAttempt();
    var w := After(STEPS[..5]);
    assert Seen(w, 4) == STATES[4];
    InboxStep(5, Pending, 3, STATES[5].inbox, SetInbox(PENDING_KEY, FailedAttempt, 1));
    assert StoredInbox(STATES[5].inbox, SetInbox(PENDING_KEY, FailedAttempt, 1)) == STATES[6].inbox;
    SecondAttempts();
  }

  lemma {:induction false} ActionAttempt()
    requires After(STEPS[..6]).history == STATES[..7] && After(STEPS[..6]).asked == map[]
    requires Counted(After(STEPS[..6]).journal, 1)
    ensures After(STEPS[..7]).history == STATES[..8] && After(STEPS[..7]).asked == map[]
    ensures Counted(After(STEPS[..7]).journal, 1)
  {
    hide Constraints, Current, Apply, AttemptPlan, Next, After, MoveTxn, Counted;
    var w := After(STEPS[..6]);
    var failed := STATES[6].inbox;
    AfterPrefix(6);
    AttemptMoves(w, STEPS[6], Pending, 3, failed);
    assert failed[ACTION_KEY := NEW_ACTION.(status := Processed, attempts := 1)] == STATES[7].inbox;
    AppliedMore(w.journal, ACTION_KEY, ACTION_EVENT, 1);
  }

  lemma {:induction false} SecondAttempts()
    requires After(STEPS[..6]).history == STATES[..7] && After(STEPS[..6]).asked == map[]
    requires Counted(After(STEPS[..6]).journal, 1)
    ensures After(STEPS).history == STATES && Counted(After(STEPS).journal, 2)
  {
    hide Constraints, Current, Apply, AttemptPlan, Next, After, MoveTxn, Counted;
    ActionAttempt();
    var v := After(STEPS[..7]);
    var again := STATES[7].inbox;
    AfterPrefix(7);
    AttemptMoves(v, STEPS[7], RequiresAction, 4, again);
    assert again[PENDING_KEY := NEW_PENDING.(status := Processed, attempts := 2)] == STATES[8].inbox;
    AppliedMore(v.journal, PENDING_KEY, PENDING_EVENT, 1);
    assert STEPS[..8] == STEPS;
  }
}
