/** Whole runs: any interleaving of any number of writers, crashes, retries, duplicates and reordered deliveries.

  A step names, for each read it makes, the position in the history of committed states that the read saw. Every
  schedule of concurrent writers is such a list of steps, because a writer's reads happen before its commit. */
module PaymentRuns {
  import opened Tables
  import opened PaymentStates
  import opened PaymentStore
  import opened PaymentPlans
  import opened PaymentInvariant
  import opened PaymentSteps

  /** What the provider was asked to pay back under a refund's id. */
  datatype Asked = Asked(intent: string, amount: int)

  /** An accepted commit, by what was asked for: an operation with its request and the provider's reply, or an attempt
      of an event with what its look-ups found. `written` tells whether it wrote any ledger row. */
  datatype Entry =
    | Operation(step: Step, written: bool)
    | Application(key: EventKey, event: Event, found: Option<string>, foundRefund: Option<string>, written: bool)

  /** `recorders` are the events whose recording delivery has not finished its own attempt yet. */
  datatype World = World(history: seq<Store>, asked: map<string, Asked>, journal: seq<Entry>, recorders: set<EventKey>)

  const START: World := World([EMPTY], map[], [], {})

  datatype Step =
    | CreateIntent(business: string, key: string, iid: string, request: CreateRequest, now: int, keysAt: nat,
                   trailAt: nat)
    | RequestCheckout(business: string, iid: string, rowAt: nat, trailAt: nat, checkout: CheckoutReply)
    | CancelPayment(business: string, iid: string, rowAt: nat, trailAt: nat, cancel: CancelReply)
    | ReserveRefund(business: string, rid: string, key: string, refund: RefundRequest, keysAt: nat, rowAt: nat,
                    trailAt: nat)
    | AskProvider(business: string, rid: string, refundAt: nat)
    | RecordRefund(business: string, rid: string, refundAt: nat, rowAt: nat, trailAt: nat, trailAgainAt: nat,
                   reply: RefundReply)
    | ExpireDue(business: string, now: int, due: seq<string>, rowAt: nat, trailsAt: seq<nat>)
    | ReceiveEvent(eventKey: EventKey, event: Event)
    | AttemptEvent(eventKey: EventKey, first: bool, inboxAt: nat, found: Option<string>, foundRefund: Option<string>,
                   rowAt: nat, refundAt: nat, trailAt: nat, trailAgainAt: nat)
    | MarkFailed(eventKey: EventKey, first: bool, inboxAt: nat)

  function Last(w: World): Store
    requires w.history != []
  {
    w.history[|w.history| - 1]
  }

  /** The state a read saw; positions beyond the history mean the present. */
  function Seen(w: World, k: nat): Store
    requires w.history != []
  {
    if k < |w.history| then w.history[k] else Last(w)
  }

  function SeenEach(w: World, positions: seq<nat>): seq<Store>
    requires w.history != []
  {
    seq(|positions|, k requires 0 <= k < |positions| => Seen(w, positions[k]))
  }

  predicate FindsPayment(s: Store, key: EventKey, event: Event, found: Option<string>) {
    match found
    case Some(iid) => EventPayment(s, key, event, iid)
    case None => forall i | i in s.intents :: !EventPayment(s, key, event, i)
  }

  predicate FindsRefund(s: Store, key: EventKey, event: Event, found: Option<string>, foundRefund: Option<string>) {
    match foundRefund
    case Some(rid) => found.Some? && EventRefund(s, key, event, found.value, rid)
    case None => found.Some? ==> forall r | r in s.refunds :: !EventRefund(s, key, event, found.value, r)
  }

  /** Redeliveries and retries look at the row's status and count first; the delivery that recorded the event goes on to
      its own attempt without looking. */
  predicate MayAttempt(key: EventKey, first: bool, inbox: Store) {
    key in inbox.inbox && (first || Retryable(inbox.inbox[key]))
  }

  function AttemptPlan(key: EventKey, first: bool, inbox: Store, found: Option<string>, foundRefund: Option<string>,
                       rows: Store, refunds: Store, trail: Store, trailAgain: Store): (p: Plan)
    ensures p.Write? ==> |p.parts| == 1
  {
    if !MayAttempt(key, first, inbox) then Stop(Unchanged)
    else
      var row := inbox.inbox[key];
      if !FindsPayment(rows, key, row.event, found)
        || !FindsRefund(refunds, key, row.event, found, foundRefund) then Stop(Unchanged)
      else
        var applied := ApplyEvent(row.event, found, foundRefund, rows, refunds, trail, trailAgain);
        Write([applied.txn.(inbox := SetInbox(key, applied.status, row.attempts + 1))])
  }

  function MarkPlan(key: EventKey, first: bool, inbox: Store): (p: Plan)
    ensures p.Write? ==> |p.parts| == 1
  {
    if !MayAttempt(key, first, inbox) then Stop(Unchanged)
    else Write([NOTHING.(inbox := SetInbox(key, FailedAttempt, inbox.inbox[key].attempts + 1))])
  }

  function StepPlan(w: World, step: Step): Plan
    requires w.history != []
  {
    match step
    case CreateIntent(business, key, iid, request, now, keysAt, trailAt) =>
      CreatePlan(business, key, iid, request, now, Seen(w, keysAt), Seen(w, trailAt))
    case RequestCheckout(business, iid, rowAt, trailAt, checkout) =>
      CheckoutPlan(business, iid, Seen(w, rowAt), Seen(w, trailAt), checkout)
    case CancelPayment(business, iid, rowAt, trailAt, cancel) =>
      CancelPlan(business, iid, Seen(w, rowAt), Seen(w, trailAt), cancel)
    case ReserveRefund(business, rid, key, refund, keysAt, rowAt, trailAt) =>
      ReservePlan(business, rid, key, refund, Seen(w, keysAt), Seen(w, rowAt), Seen(w, trailAt))
    case AskProvider(_, _, _) => Stop(Unchanged)
    case RecordRefund(business, rid, refundAt, rowAt, trailAt, trailAgainAt, reply) =>
      RecordPlan(business, rid, Seen(w, refundAt), Seen(w, rowAt), Seen(w, trailAt), Seen(w, trailAgainAt), reply)
    case ExpireDue(business, now, due, rowAt, trailsAt) =>
      if DueList(Seen(w, rowAt), business, now, due) && |trailsAt| == |due|
      then Write(ExpireParts(due, Seen(w, rowAt), SeenEach(w, trailsAt))) else Stop(Unchanged)
    case ReceiveEvent(key, event) => Write([NOTHING.(inbox := InsertInbox(key, InboxRow(event, Received, 0)))])
    case AttemptEvent(key, first, inboxAt, found, foundRefund, rowAt, refundAt, trailAt, trailAgainAt) =>
      if first && key !in w.recorders then Stop(Unchanged)
      else AttemptPlan(key, first, Seen(w, inboxAt), found, foundRefund, Seen(w, rowAt), Seen(w, refundAt),
                       Seen(w, trailAt), Seen(w, trailAgainAt))
    case MarkFailed(key, first, inboxAt) =>
      if first && key !in w.recorders then Stop(Unchanged) else MarkPlan(key, first, Seen(w, inboxAt))
  }

  /** The provider is called for a refund that was read as pending; the call may be repeated and its answer lost. */
  function AskedAfter(w: World, step: Step): map<string, Asked>
    requires w.history != []
  {
    if !step.AskProvider? then w.asked
    else
      var refunds := Seen(w, step.refundAt).refunds;
      if step.rid in refunds && refunds[step.rid].business == step.business && refunds[step.rid].status == RefundPending
      then w.asked[step.rid := Asked(refunds[step.rid].intent, refunds[step.rid].amount)] else w.asked
  }

  predicate Touches(t: Txn) {
    t.intents != map[] || t.refunds != map[] || t.audits != []
  }

  predicate WritesLedger(parts: seq<Txn>) {
    exists k | 0 <= k < |parts| :: Touches(parts[k])
  }

  function JournalEntry(w: World, step: Step, parts: seq<Txn>): seq<Entry>
    requires w.history != [] && StepPlan(w, step).Write?
  {
    match step
    case ReceiveEvent(_, _) => []
    case MarkFailed(_, _, _) => []
    case AttemptEvent(key, first, inboxAt, found, foundRefund, _, _, _, _) =>
      [Application(key, Seen(w, inboxAt).inbox[key].event, found, foundRefund, WritesLedger(parts))]
    case _ => [Operation(step, WritesLedger(parts))]
  }

  predicate Committing(w: World, step: Step)
    requires w.history != []
  {
    StepPlan(w, step).Write? && CommitAll(Last(w), StepPlan(w, step).parts).Some?
  }

  function RecordersAfter(w: World, step: Step): set<EventKey> {
    if step.ReceiveEvent? then w.recorders + {step.eventKey}
    else if (step.AttemptEvent? || step.MarkFailed?) && step.first then w.recorders - {step.eventKey}
    else w.recorders
  }

  function Next(w: World, step: Step): (next: World)
    requires w.history != []
    ensures next.history != []
  {
    var asked := AskedAfter(w, step);
    match StepPlan(w, step)
    case Stop(_) => w.(asked := asked)
    case Write(parts) =>
      match CommitAll(Last(w), parts)
      case None => w.(asked := asked)
      case Some(s) => World(w.history + [s], asked, w.journal + JournalEntry(w, step, parts), RecordersAfter(w, step))
  }

  /** The world after a run. Every list of steps is a run. */
  function After(steps: seq<Step>): (w: World)
    ensures w.history != []
  {
    if steps == [] then START else Next(After(steps[..|steps| - 1]), steps[|steps| - 1])
  }

  // ------------------------------------------------------------- the invariant

  ghost predicate WorldInv(w: World) {
    && w.history != []
    && (forall k | 0 <= k < |w.history| :: Past(w.history[k], Last(w)))
    && (forall rid | rid in w.asked :: rid in Last(w).refunds
          && Last(w).refunds[rid].intent == w.asked[rid].intent && Last(w).refunds[rid].amount == w.asked[rid].amount)
  }

  lemma {:induction false} ReadsArePast(w: World, k: nat)
    requires WorldInv(w)
    ensures Past(Seen(w, k), Last(w)) && Inv(Last(w))
  {
  }

  lemma {:induction false} OnePart(c: Store, parts: seq<Txn>)
    requires |parts| == 1 && CommitAll(c, parts).Some?
    ensures parts == [parts[0]] && Accepts(c, parts[0]) && CommitAll(c, parts) == Some(Apply(c, parts[0]))
  {
    assert parts == [parts[0]];
    CommitOne(c, parts[0]);
  }

  lemma {:induction false} AttemptFollows(c: Store, key: EventKey, first: bool, inbox: Store, found: Option<string>,
                                          foundRefund: Option<string>,
                       rows: Store, refunds: Store, trail: Store, trailAgain: Store, t: Txn)
    requires Inv(c) && Past(rows, c) && Past(refunds, c) && Past(trail, c) && Past(trailAgain, c)
    requires AttemptPlan(key, first, inbox, found, foundRefund, rows, refunds, trail, trailAgain) == Write([t])
    requires Accepts(c, t)
    ensures Follows(c, Apply(c, t))
  {
    hide Inv, Past, Follows, Accepts, Apply, ApplyPaymentEvent, ApplyRefundEvent;
    var row := inbox.inbox[key];
    var applied := ApplyEvent(row.event, found, foundRefund, rows, refunds, trail, trailAgain);
    if Accepts(c, applied.txn) {
      EventFollows(c, row.event, found, foundRefund, rows, refunds, trail, trailAgain);
    }
    InboxFollows(c, applied.txn, t.inbox);
  }

  lemma {:induction false} InboxOnlyFollows(c: Store, write: InboxWrite)
    requires Inv(c) && Accepts(c, NOTHING.(inbox := write))
    ensures Follows(c, Apply(c, NOTHING.(inbox := write)))
  {
    hide Inv, Follows, Accepts, Apply;
    NothingFollows(c);
    InboxFollows(c, NOTHING, write);
  }

  // What the longer steps plan, spelled out.

  lemma {:induction false} ExpirePlanIs(w: World, step: Step)
    requires w.history != [] && step.ExpireDue? && StepPlan(w, step).Write?
    ensures DueList(Seen(w, step.rowAt), step.business, step.now, step.due) && |step.trailsAt| == |step.due|
    ensures forall k | 0 <= k < |step.due| :: step.due[k] in Seen(w, step.rowAt).intents
    ensures |SeenEach(w, step.trailsAt)| == |step.due|
    ensures StepPlan(w, step) == Write(ExpireParts(step.due, Seen(w, step.rowAt), SeenEach(w, step.trailsAt)))
  {
    hide ExpireParts, Seen;
  }

  lemma {:induction false} RecordPlanOf(w: World, step: Step)
    requires w.history != [] && step.RecordRefund?
    ensures StepPlan(w, step) ==
            RecordPlan(step.business, step.rid, Seen(w, step.refundAt), Seen(w, step.rowAt), Seen(w, step.trailAt),
                                            Seen(w, step.trailAgainAt), step.reply)
  {
    hide RecordPlan, Seen;
  }

  lemma {:induction false} AttemptPlanOf(w: World, step: Step)
    requires w.history != [] && step.AttemptEvent? && StepPlan(w, step).Write?
    ensures StepPlan(w, step) ==
            AttemptPlan(step.eventKey, step.first, Seen(w, step.inboxAt), step.found, step.foundRefund,
                        Seen(w, step.rowAt), Seen(w, step.refundAt), Seen(w, step.trailAt), Seen(w, step.trailAgainAt))
  {
    hide AttemptPlan, Seen;
  }

  lemma {:induction false} SinglePart(w: World, step: Step)
    requires w.history != [] && StepPlan(w, step).Write? && !step.ExpireDue?
    ensures |StepPlan(w, step).parts| == 1
  {
    hide CreatePlan, CheckoutPlan, CancelPlan, ReservePlan, RecordPlan, AttemptPlan, MarkPlan, Due, Seen;
  }

  lemma {:induction false} ExpireStepFollows(w: World, step: Step, parts: seq<Txn>)
    requires WorldInv(w) && step.ExpireDue? && StepPlan(w, step) == Write(parts) && CommitAll(Last(w), parts).Some?
    ensures Follows(Last(w), CommitAll(Last(w), parts).value)
  {
    assert w.history != [];
    hide Inv, Past, Follows, CommitAll, WorldInv, Seen, ExpireParts, Due, DueList, StepPlan, SeenEach;
    ExpirePlanIs(w, step);
    ReadsArePast(w, step.rowAt);
    EachReadIsPast(w, step.trailsAt);
    DueAreOpen(Seen(w, step.rowAt), step.business, step.now, step.due);
    ExpireFollows(Last(w), step.due, Seen(w, step.rowAt), SeenEach(w, step.trailsAt));
  }

  lemma {:induction false} EachReadIsPast(w: World, positions: seq<nat>)
    requires WorldInv(w)
    ensures |SeenEach(w, positions)| == |positions|
    ensures forall k | 0 <= k < |SeenEach(w, positions)| :: Past(SeenEach(w, positions)[k], Last(w))
  {
    assert w.history != [];
    hide Inv, Past, WorldInv, Seen;
    forall k | 0 <= k < |positions| ensures Past(SeenEach(w, positions)[k], Last(w)) {
      ReadsArePast(w, positions[k]);
    }
  }

  lemma {:induction false} RecordStepFollows(w: World, step: Step, t: Txn)
    requires WorldInv(w) && step.RecordRefund? && StepPlan(w, step) == Write([t]) && Accepts(Last(w), t)
    ensures Follows(Last(w), Apply(Last(w), t))
  {
    assert w.history != [];
    hide Inv, Past, Follows, Accepts, Apply, WorldInv, Seen, RecordPlan, StepPlan;
    RecordPlanOf(w, step);
    ReadsArePast(w, step.refundAt);
    ReadsArePast(w, step.rowAt);
    ReadsArePast(w, step.trailAt);
    ReadsArePast(w, step.trailAgainAt);
    RecordFollows(Last(w), step.business, step.rid, Seen(w, step.refundAt), Seen(w, step.rowAt), Seen(w, step.trailAt),
                  Seen(w, step.trailAgainAt), step.reply, t);
  }

  lemma {:induction false} AttemptStepFollows(w: World, step: Step, t: Txn)
    requires WorldInv(w) && step.AttemptEvent? && StepPlan(w, step) == Write([t]) && Accepts(Last(w), t)
    ensures Follows(Last(w), Apply(Last(w), t))
  {
    assert w.history != [];
    hide Inv, Past, Follows, Accepts, Apply, WorldInv, Seen, AttemptPlan, StepPlan;
    AttemptPlanOf(w, step);
    ReadsArePast(w, step.rowAt);
    ReadsArePast(w, step.refundAt);
    ReadsArePast(w, step.trailAt);
    ReadsArePast(w, step.trailAgainAt);
    AttemptFollows(Last(w), step.eventKey, step.first, Seen(w, step.inboxAt), step.found, step.foundRefund,
                   Seen(w, step.rowAt), Seen(w, step.refundAt), Seen(w, step.trailAt), Seen(w, step.trailAgainAt), t);
  }

  lemma {:induction false} InboxPlanIs(w: World, step: Step, t: Txn)
    requires w.history != [] && (step.ReceiveEvent? || step.MarkFailed?) && StepPlan(w, step) == Write([t])
    ensures t == NOTHING.(inbox := t.inbox)
  {
    hide Seen, MayAttempt;
  }

  lemma {:induction false} InboxStepFollows(w: World, step: Step, t: Txn)
    requires WorldInv(w) && (step.ReceiveEvent? || step.MarkFailed?)
    requires StepPlan(w, step) == Write([t]) && Accepts(Last(w), t)
    ensures Follows(Last(w), Apply(Last(w), t))
  {
    assert w.history != [];
    hide Inv, Past, Follows, Accepts, Apply, WorldInv, Seen, StepPlan;
    ReadsArePast(w, 0);
    InboxPlanIs(w, step, t);
    InboxOnlyFollows(Last(w), t.inbox);
  }

  /** The steps that write one payment, alone or with a new refund. */
  lemma {:induction false} PaymentStepFollows(w: World, step: Step, t: Txn)
    requires WorldInv(w) && StepPlan(w, step) == Write([t]) && Accepts(Last(w), t)
    requires step.CreateIntent? || step.RequestCheckout? || step.CancelPayment? || step.ReserveRefund?
    ensures Follows(Last(w), Apply(Last(w), t))
  {
    assert w.history != [];
    hide Inv, Past, Follows, Accepts, Apply, WorldInv, Seen, CreatePlan, CheckoutPlan, CancelPlan, ReservePlan;
    var c := Last(w);
    ReadsArePast(w, step.trailAt);
    match step
    case CreateIntent(business, key, iid, request, now, keysAt, trailAt) =>
      CreateFollows(c, business, key, iid, request, now, Seen(w, keysAt), Seen(w, trailAt), t);
    case RequestCheckout(business, iid, rowAt, trailAt, checkout) =>
      ReadsArePast(w, rowAt);
      CheckoutFollows(c, business, iid, Seen(w, rowAt), Seen(w, trailAt), checkout, t);
    case CancelPayment(business, iid, rowAt, trailAt, cancel) =>
      ReadsArePast(w, rowAt);
      CancelFollows(c, business, iid, Seen(w, rowAt), Seen(w, trailAt), cancel, t);
    case ReserveRefund(business, rid, key, refund, keysAt, rowAt, trailAt) =>
      ReadsArePast(w, rowAt);
      ReserveFollows(c, business, rid, key, refund, Seen(w, keysAt), Seen(w, rowAt), Seen(w, trailAt), t);
  }

  /** Whatever an accepted plan writes follows the present state. */
  lemma {:induction false} PlanFollows(w: World, step: Step)
    requires WorldInv(w)
    requires StepPlan(w, step).Write? && CommitAll(Last(w), StepPlan(w, step).parts).Some?
    ensures Follows(Last(w), CommitAll(Last(w), StepPlan(w, step).parts).value)
  {
    assert w.history != [];
    AsksWriteNothing(w, step);
    hide Follows, Accepts, Apply, CommitAll, WorldInv, StepPlan;
    if step.ExpireDue? {
      ExpireStepFollows(w, step, StepPlan(w, step).parts);
    } else {
      SinglePart(w, step);
      OnePart(Last(w), StepPlan(w, step).parts);
      var t := StepPlan(w, step).parts[0];
      match step
      case RecordRefund(_, _, _, _, _, _, _) => RecordStepFollows(w, step, t);
      case AttemptEvent(_, _, _, _, _, _, _, _, _) => AttemptStepFollows(w, step, t);
      case ReceiveEvent(_, _) => InboxStepFollows(w, step, t);
      case MarkFailed(_, _, _) => InboxStepFollows(w, step, t);
      case _ => PaymentStepFollows(w, step, t);
    }
  }

  lemma {:induction false} AsksWriteNothing(w: World, step: Step)
    requires w.history != [] && StepPlan(w, step).Write?
    ensures !step.AskProvider?
  {
  }

  lemma {:induction false} DueAreOpen(s: Store, business: string, now: int, due: seq<string>)
    requires DueList(s, business, now, due)
    ensures forall k | 0 <= k < |due| ::
            due[k] in s.intents && s.intents[due[k]].status in {Created, Pending, RequiresAction}
  {
  }

  /** A refund read as pending at any time is still there with the same payment and amount. */
  lemma {:induction false} AskedAreStored(w: World, step: Step)
    requires WorldInv(w)
    ensures forall rid | rid in AskedAfter(w, step) :: rid in Last(w).refunds
              && Last(w).refunds[rid].intent == AskedAfter(w, step)[rid].intent
                 && Last(w).refunds[rid].amount == AskedAfter(w, step)[rid].amount
  {
    hide Inv, Leads;
    if step.AskProvider? {
      ReadsArePast(w, step.refundAt);
    }
  }

  lemma {:induction false} NextKeeps(w: World, step: Step)
    requires WorldInv(w)
    ensures WorldInv(Next(w, step))
    ensures Past(Last(w), Last(Next(w, step)))
  {
    hide Inv, Past, Follows, CommitAll, StepPlan, AskedAfter;
    AskedAreStored(w, step);
    ReadsArePast(w, |w.history|);
    var plan := StepPlan(w, step);
    if plan.Write? && CommitAll(Last(w), plan.parts).Some? {
      var s := CommitAll(Last(w), plan.parts).value;
      PlanFollows(w, step);
      HistoryGrows(w, s);
      assert (w.history + [s])[|w.history| - 1] == Last(w);
      StoredStay(Last(w), s);
    }
  }

  lemma {:induction false} HistoryGrows(w: World, s: Store)
    requires WorldInv(w) && Follows(Last(w), s)
    ensures forall k | 0 <= k < |w.history + [s]| :: Past((w.history + [s])[k], s)
  {
    hide Inv, Extends;
    forall k | 0 <= k < |w.history + [s]| ensures Past((w.history + [s])[k], s) {
      if k < |w.history| {
        PastStaysPast(w.history[k], Last(w), s);
      } else {
        SelfFollows(s);
      }
    }
  }

  lemma {:induction false} StoredStay(c: Store, s: Store)
    requires Follows(c, s)
    ensures forall rid | rid in c.refunds ::
            rid in s.refunds && s.refunds[rid].intent == c.refunds[rid].intent
              && s.refunds[rid].amount == c.refunds[rid].amount
  {
    hide Inv;
  }

  lemma {:induction false} StartInv()
    ensures WorldInv(START)
  {
    assert Inv(EMPTY) && Extends(EMPTY, EMPTY);
  }

  // ------------------------------------------------------------------ theorems

  /** Every committed state of every run satisfies the invariant, and no later state rewrites an earlier one. */
  lemma {:induction false} EveryRunKeepsInvariant(steps: seq<Step>)
    ensures WorldInv(After(steps))
    decreases |steps|
  {
    if steps == [] {
      StartInv();
    } else {
      EveryRunKeepsInvariant(steps[..|steps| - 1]);
      NextKeeps(After(steps[..|steps| - 1]), steps[|steps| - 1]);
    }
  }
}
