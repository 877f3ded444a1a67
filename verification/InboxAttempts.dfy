/** How often an event is attempted: the limit of ten, and the one attempt that does not look at it. */
module InboxAttempts {
  import opened Tables
  import opened PaymentStore
  import opened PaymentPlans
  import opened PaymentInvariant
  import opened PaymentSteps
  import opened PaymentRuns
  import opened InboxOnce

  /** At most one attempt beyond the limit, and that one only once the recording delivery has finished. */
  predicate Bounded(inbox: map<EventKey, InboxRow>, recorders: set<EventKey>) {
    forall k | k in inbox :: inbox[k].attempts <= MAX_WEBHOOK_ATTEMPTS + if k in recorders then 0 else 1
  }

  predicate CountsBounded(w: World) {
    forall j | 0 <= j < |w.history| :: Bounded(w.history[j].inbox, w.recorders)
  }

  lemma {:induction false} OtherRecorders(inbox: map<EventKey, InboxRow>, recorders: set<EventKey>,
                                          others: set<EventKey>)
    requires Bounded(inbox, recorders) && forall k | k in inbox && k in others :: k in recorders
    ensures Bounded(inbox, others)
  {
  }

  lemma {:induction false} RowWritten(inbox: map<EventKey, InboxRow>, recorders: set<EventKey>, others: set<EventKey>,
                                      key: EventKey, row: InboxRow)
    requires Bounded(inbox, recorders) && forall k | k in inbox && k in others && k != key :: k in recorders
    requires row.attempts <= MAX_WEBHOOK_ATTEMPTS + if key in others then 0 else 1
    ensures Bounded(inbox[key := row], others)
  {
  }

  /** Counts of the new state come from the old one, or are the attempt's own. */
  lemma {:induction false} CountsAfter(w: World, step: Step)
    requires WorldInv(w) && CountsBounded(w) && Committing(w, step)
    ensures Bounded(CommitAll(Last(w), StepPlan(w, step).parts).value.inbox, RecordersAfter(w, step))
  {
    assert w.history != [];
    hide StepPlan, CommitAll, WorldInv, Bounded;
    var s := CommitAll(Last(w), StepPlan(w, step).parts).value;
    InboxAfter(w, step);
    AttemptedIsStored(w, step);
    assert Bounded(Last(w).inbox, w.recorders);
    if step.AttemptEvent? || step.MarkFailed? {
      SeenCount(w, step.eventKey, step.inboxAt);
      RowWritten(Last(w).inbox, w.recorders, RecordersAfter(w, step), step.eventKey, s.inbox[step.eventKey]);
    } else if step.ReceiveEvent? {
      RowWritten(Last(w).inbox, w.recorders, RecordersAfter(w, step), step.eventKey, s.inbox[step.eventKey]);
    }
  }

  lemma {:induction false} SeenCount(w: World, key: EventKey, k: nat)
    requires CountsBounded(w) && w.history != [] && key in Seen(w, k).inbox
    ensures Seen(w, k).inbox[key].attempts <= MAX_WEBHOOK_ATTEMPTS + if key in w.recorders then 0 else 1
  {
    assert Bounded(Seen(w, k).inbox, w.recorders);
  }

  /** A newly recorded event is in no earlier state. */
  lemma {:induction false} RecordedIsNew(w: World, step: Step)
    requires WorldInv(w) && step.ReceiveEvent? && Committing(w, step)
    ensures forall j | 0 <= j < |w.history| :: step.eventKey !in w.history[j].inbox
  {
    hide StepPlan, CommitAll, Inv;
    InboxAfter(w, step);
    forall j | 0 <= j < |w.history| ensures step.eventKey !in w.history[j].inbox {
      assert Past(w.history[j], Last(w));
    }
  }

  lemma {:induction false} OldStatesKeepCounts(w: World, step: Step)
    requires CountsBounded(w)
    requires step.ReceiveEvent? ==> forall j | 0 <= j < |w.history| :: step.eventKey !in w.history[j].inbox
    ensures forall j | 0 <= j < |w.history| :: Bounded(w.history[j].inbox, RecordersAfter(w, step))
  {
    hide Bounded;
    forall j | 0 <= j < |w.history| ensures Bounded(w.history[j].inbox, RecordersAfter(w, step)) {
      OtherRecorders(w.history[j].inbox, w.recorders, RecordersAfter(w, step));
    }
  }

  lemma {:induction false} OneMoreState(history: seq<Store>, s: Store, w: World)
    requires forall j | 0 <= j < |history| :: Bounded(history[j].inbox, w.recorders)
    requires Bounded(s.inbox, w.recorders) && w.history == history + [s]
    ensures CountsBounded(w)
  {
    hide Bounded;
  }

  lemma {:induction false} NextKeepsCounts(w: World, step: Step)
    requires WorldInv(w) && CountsBounded(w)
    ensures CountsBounded(Next(w, step))
  {
    assert w.history != [];
    hide StepPlan, CommitAll, WorldInv, Bounded, RecordersAfter, CountsBounded, Next;
    NextShape(w, step);
    if Committing(w, step) {
      if step.ReceiveEvent? {
        RecordedIsNew(w, step);
      }
      OldStatesKeepCounts(w, step);
      CountsAfter(w, step);
      OneMoreState(w.history, CommitAll(Last(w), StepPlan(w, step).parts).value, Next(w, step));
    } else {
      SameCounts(w, Next(w, step));
    }
  }

  lemma {:induction false} SameCounts(w: World, next: World)
    requires CountsBounded(w) && next.history == w.history && next.recorders == w.recorders
    ensures CountsBounded(next)
  {
  }

  lemma {:induction false} RunKeepsCounts(steps: seq<Step>)
    ensures CountsBounded(After(steps))
    decreases |steps|
  {
    hide Next, WorldInv;
    if steps != [] {
      RunKeepsCounts(steps[..|steps| - 1]);
      EveryRunKeepsInvariant(steps[..|steps| - 1]);
      NextKeepsCounts(After(steps[..|steps| - 1]), steps[|steps| - 1]);
    }
  }

  /** No event is ever attempted more than eleven times; while its recording delivery is still under way, and for every
      guarded attempt, the limit of ten holds. */
  lemma {:induction false} AttemptsAreBounded(steps: seq<Step>, k: nat, key: EventKey)
    requires k < |After(steps).history| && key in After(steps).history[k].inbox
    ensures After(steps).history[k].inbox[key].attempts <= MAX_WEBHOOK_ATTEMPTS + 1
    ensures key in After(steps).recorders ==> After(steps).history[k].inbox[key].attempts <= MAX_WEBHOOK_ATTEMPTS
  {
    RunKeepsCounts(steps);
  }

  predicate WithinLimit(s: Store) {
    forall k | k in s.inbox :: s.inbox[k].attempts <= MAX_WEBHOOK_ATTEMPTS
  }

  /** The recording delivery goes on to its own attempt with a row that other deliveries have brought to the limit. */
  predicate PastLimit(w: World, step: Step)
    requires w.history != []
  {
    && (step.AttemptEvent? || step.MarkFailed?) && step.first
    && step.eventKey in Seen(w, step.inboxAt).inbox
    && Seen(w, step.inboxAt).inbox[step.eventKey].attempts >= MAX_WEBHOOK_ATTEMPTS
  }

  /** The exact condition: a committing step of a run breaks the limit of ten if and only if it is an attempt by the
      recording delivery on a row that is already at the limit. */
  lemma {:induction false} LimitIsBrokenIff(steps: seq<Step>, step: Step)
    requires WithinLimit(Last(After(steps))) && Committing(After(steps), step)
    ensures WithinLimit(Last(Next(After(steps), step))) <==> !PastLimit(After(steps), step)
  {
    hide StepPlan, CommitAll, WorldInv, AskedAfter, After;
    var w := After(steps);
    EveryRunKeepsInvariant(steps);
    InboxAfter(w, step);
    AttemptedIsStored(w, step);
    var s := CommitAll(Last(w), StepPlan(w, step).parts).value;
    assert Last(Next(w, step)) == s;
    if PastLimit(w, step) {
      assert s.inbox[step.eventKey].attempts > MAX_WEBHOOK_ATTEMPTS;
    }
  }

  // --------------------------------------------------------- a run past the limit

  const KEY: EventKey := EventKey("b", "p", "e")
  const EVENT: Event := Event(PaymentPending, "x", None, None, None)

  /** One delivery records the event and is held up; ten redeliveries attempt it and fail; then the first one goes
      on. */
  function Redelivered(n: nat): seq<Step> {
    if n == 0 then [ReceiveEvent(KEY, EVENT)] else Redelivered(n - 1) + [MarkFailed(KEY, false, n)]
  }

  function OnlyEvent(status: InboxStatus, attempts: nat): Store {
    Store(map[], map[], [], map[KEY := InboxRow(EVENT, status, attempts)])
  }

  lemma {:induction false} OnlyEventIsLegal(status: InboxStatus, attempts: nat)
    ensures Constraints(OnlyEvent(status, attempts))
  {
  }

  lemma {:induction false} OneMoreAttempt(w: World, step: Step, status: InboxStatus, attempts: nat)
    requires w.history != [] && Last(w) == OnlyEvent(status, attempts) && status in {Received, FailedAttempt}
    requires step.MarkFailed? && step.eventKey == KEY && step.inboxAt >= |w.history| - 1
    requires if step.first then KEY in w.recorders else attempts < MAX_WEBHOOK_ATTEMPTS
    ensures Last(Next(w, step)) == OnlyEvent(FailedAttempt, attempts + 1) && |Next(w, step).history| == |w.history| + 1
    ensures Next(w, step).recorders == if step.first then w.recorders - {KEY} else w.recorders
  {
    OnlyEventIsLegal(FailedAttempt, attempts + 1);
    hide Constraints;
    var t := NOTHING.(inbox := SetInbox(KEY, FailedAttempt, attempts + 1));
    assert StepPlan(w, step) == Write([t]);
    assert Apply(Last(w), t) == OnlyEvent(FailedAttempt, attempts + 1);
    CommitOne(Last(w), t);
  }

  lemma {:induction false} FirstRecorded(w: World)
    requires w.history != [] && Last(w) == EMPTY
    ensures var next := Next(w, ReceiveEvent(KEY, EVENT));
            Last(next) == OnlyEvent(Received, 0) && |next.history| == |w.history| + 1
              && next.recorders == w.recorders + {KEY}
  {
    OnlyEventIsLegal(Received, 0);
    hide Constraints;
    var t := NOTHING.(inbox := InsertInbox(KEY, InboxRow(EVENT, Received, 0)));
    assert StepPlan(w, ReceiveEvent(KEY, EVENT)) == Write([t]);
    assert Apply(EMPTY, t) == OnlyEvent(Received, 0);
    CommitOne(EMPTY, t);
  }

  lemma {:induction false} Recorded()
    ensures Last(After(Redelivered(0))) == OnlyEvent(Received, 0) && |After(Redelivered(0)).history| == 2
    ensures After(Redelivered(0)).recorders == {KEY}
  {
    hide Next, StepPlan;
    assert Redelivered(0) == [ReceiveEvent(KEY, EVENT)] && Redelivered(0)[..0] == [];
    assert After([]) == START;
    FirstRecorded(START);
  }

  lemma {:induction false} Attempted(n: nat)
    requires n <= MAX_WEBHOOK_ATTEMPTS
    ensures Last(After(Redelivered(n))) == OnlyEvent(if n == 0 then Received else FailedAttempt, n)
    ensures |After(Redelivered(n)).history| == n + 2 && After(Redelivered(n)).recorders == {KEY}
  {
    hide Next, StepPlan;
    if n == 0 {
      Recorded();
    } else {
      Attempted(n - 1);
      assert Redelivered(n)[..|Redelivered(n)| - 1] == Redelivered(n - 1);
      OneMoreAttempt(After(Redelivered(n - 1)), MarkFailed(KEY, false, n), if n == 1 then Received
                     else FailedAttempt, n - 1);
    }
  }

  /** The limit of ten does not hold in every run: this event ends up attempted eleven times. */
  lemma {:induction false} ElevenAttempts()
    ensures var steps := Redelivered(10) + [MarkFailed(KEY, true, 11)];
            KEY in Last(After(steps)).inbox && Last(After(steps)).inbox[KEY].attempts == 11
  {
    hide Next, StepPlan;
    var steps := Redelivered(10) + [MarkFailed(KEY, true, 11)];
    Attempted(10);
    assert steps[..|steps| - 1] == Redelivered(10);
    OneMoreAttempt(After(Redelivered(10)), MarkFailed(KEY, true, 11), FailedAttempt, 10);
  }
}
