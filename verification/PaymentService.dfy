/** The payment service as it runs: a session loads rows, changes its copies in place, and commits them.

  Other writers may take any steps in the gaps between two moments of a session. Every method extends the run of its
  database by the gaps and by its own step, so that whatever holds of all runs holds of the database it leaves. */
module PaymentService {
  import opened Tables
  import opened PaymentStates
  import opened PaymentStore
  import opened AuditTrail
  import opened PaymentPlans
  import opened PaymentInvariant
  import opened PaymentSteps
  import opened PaymentRuns
  import opened PaymentDatabase

  type Script = seq<Step>

  /** A database session's copies of one payment and one of its refunds, and the audit rows it has added. */
  class Session {
    const db: Database
    var iid: string
    var intentRead: Intent
    var intent: Intent
    var rid: string
    var refundRead: Refund
    var refund: Refund
    var added: seq<AuditRow>
    var raised: bool

    constructor (db: Database, someIntent: Intent, someRefund: Refund)
      ensures this.db == db && intent == someIntent && Clean()
    {
      this.db := db;
      iid, rid := "", "";
      intentRead, intent, refundRead, refund := someIntent, someIntent, someRefund, someRefund;
      added, raised := [], false;
    }

    function Work(): Work
      reads this
    {
      PaymentPlans.Work(intent, added)
    }

    function RefundWork(): RefundWork
      reads this
    {
      PaymentPlans.RefundWork(raised, refund, Work())
    }

    /** Nothing changed since the rows were loaded. */
    predicate Clean()
      reads this
    {
      intent == intentRead && refund == refundRead && added == [] && !raised
    }

    /** What a flush of the session writes. */
    function Flush(): (t: Txn)
      reads this
      ensures t.inbox == NoInbox
    {
      RefundTxn(iid, intentRead, rid, refundRead, RefundWork())
    }

    method LoadIntent(business: string, id: string) returns (found: bool)
      modifies this
      ensures found == Owns(db.store, business, id)
      ensures found ==> iid == id && intentRead == intent == db.store.intents[id]
      ensures rid == old(rid) && refund == old(refund) && refundRead == old(refundRead) && added == old(added)
              && raised == old(raised)
    {
      found := Owns(db.store, business, id);
      if found {
        iid, intentRead, intent := id, db.store.intents[id], db.store.intents[id];
      }
    }

    method LoadRefund(business: string, id: string) returns (found: bool)
      modifies this
      ensures found == (id in db.store.refunds && db.store.refunds[id].business == business)
      ensures found ==> rid == id && refundRead == refund == db.store.refunds[id]
      ensures iid == old(iid) && intent == old(intent) && intentRead == old(intentRead) && added == old(added)
              && raised == old(raised)
    {
      found := id in db.store.refunds && db.store.refunds[id].business == business;
      if found {
        rid, refundRead, refund := id, db.store.refunds[id], db.store.refunds[id];
      }
    }

    /** Numbers the new row after the stored ones and the ones not flushed yet. */
    method Audit(refundId: Option<string>, change: StatusChange, source: AuditSource)
      modifies this`added
      ensures Work() == Noted(iid, old(Work()), MaxSequence(db.store.audit, iid), refundId, change, source)
    {
      var stored := MaxSequence(db.store.audit, iid);
      added := added + [NextRow(iid, stored, |added|, refundId, change, source)];
    }

    method Transition(target: PaymentStatus, refundId: Option<string>, source: AuditSource) returns (move: Move)
      modifies this`intent, this`added
      ensures move == CheckPayment(old(intent.status), target)
      ensures Work() == PaymentPlans.Transition(iid, old(Work()), target, MaxSequence(db.store.audit, iid), refundId,
                                                source)
    {
      move := CheckPayment(intent.status, target);
      if move == Change {
        var current := intent.status;
        intent := intent.(status := target);
        Audit(refundId, PaymentChange(Some(current), target), source);
      }
    }

    method TransitionRefund(target: RefundStatus, source: AuditSource) returns (move: Move)
      modifies this`refund, this`added, this`raised
      ensures move == CheckRefund(old(refund.status), target)
      ensures RefundWork() == PaymentPlans.TransitionRefund(iid, rid, old(RefundWork()), target,
                                                            MaxSequence(db.store.audit, iid), source)
    {
      move := CheckRefund(refund.status, target);
      if move == Change {
        var current := refund.status;
        refund := refund.(status := target);
        Audit(Some(rid), RefundChange(Some(current), target), source);
      } else if move == Refused {
        raised := true;
      }
    }

    /** Other writers may commit between the two audit look-ups. */
    method CompleteRefund(source: AuditSource, meanwhile: Script, ghost since: seq<Step>)
      requires db.Valid() && since <= db.run
      modifies this`intent, this`refund, this`added, this`raised, db
      ensures db.Valid() && db.run == old(db.run) + meanwhile && Follows(State(since), db.store)
      ensures RefundWork() == PaymentPlans.CompleteRefund(iid, rid, old(RefundWork()),
                                                          MaxSequence(old(db.store.audit), iid),
                                                          MaxSequence(db.store.audit, iid), source)
    {
      hide Inv, Follows, After, MaxSequence, PaymentTransitions, RefundTransitions, CheckPayment, CheckRefund, NextRow;
      var move := TransitionRefund(RefundSucceeded, source);
      db.Meanwhile(meanwhile, since);
      if move != Change {
        return;
      }
      intent := intent.(refunded := intent.refunded + refund.amount);
      var target := if intent.refunded == intent.captured then Refunded else PartiallyRefunded;
      var paymentMove := Transition(target, Some(rid), source);
      if paymentMove == Refused {
        raised := true;
      }
    }

    method FailRefund(source: AuditSource)
      modifies this`intent, this`refund, this`added, this`raised
      ensures RefundWork() == PaymentPlans.FailRefund(iid, rid, old(RefundWork()), MaxSequence(db.store.audit, iid),
                                                      source)
    {
      var move := TransitionRefund(RefundFailed, source);
      if move == Change {
        intent := intent.(reserved := intent.reserved - refund.amount);
      }
    }

    /** The provider's answer to a checkout on a payment loaded as created: the error it comes to, or the moved
        payment. */
    method RecordCheckout(reply: CheckoutReply) returns (error: Option<Answer>)
      requires Clean() && intent.status == Created && !reply.CheckoutError?
      modifies this`intent, this`added
      ensures error == if !ValidCheckout(old(intent), reply) then Some(Validation)
                       else if CheckPayment(Created, reply.status) == Refused then Some(StateError) else None
      ensures error.None? ==>
                var checkedOut := PaymentPlans.Work(CheckedOut(old(intent), reply), []);
                var stored := MaxSequence(db.store.audit, iid);
                Flush() == IntentTxn(iid, intentRead,
                                     PaymentPlans.Transition(iid, checkedOut, reply.status, stored, None, Api))
    {
      hide MaxSequence, PaymentTransitions;
      if !(0 < |reply.providerPayment| <= MAX_PROVIDER_IDENTIFIER_LENGTH) {
        return Some(Validation);
      }
      intent := intent.(providerPayment := Some(reply.providerPayment));
      if reply.expiresAt.Some? {
        intent := intent.(expiresAt := reply.expiresAt);
      }
      if reply.status == Captured {
        if !ValidAmount(reply.captured) || reply.captured > intent.amount {
          return Some(Validation);
        }
        intent := intent.(captured := reply.captured);
      } else if reply.captured != 0 {
        return Some(Validation);
      }
      var move := Transition(reply.status, None, Api);
      return if move == Refused then Some(StateError) else None;
    }

    /** The provider's answer on a refund loaded as pending. */
    method RecordReply(reply: RefundReply, meanwhile: Script, ghost since: seq<Step>)
      requires db.Valid() && since <= db.run && Clean() && refund.intent == iid && !reply.Unreachable?
      modifies this`intent, this`refund, this`added, this`raised, db
      ensures db.Valid() && db.run == old(db.run) + meanwhile && Follows(State(since), db.store)
      ensures RefundWork() == Recorded(rid, old(refund), old(intent), MaxSequence(old(db.store.audit), iid),
                                       MaxSequence(db.store.audit, iid), reply)
    {
      hide Inv, Follows, After, MaxSequence, PaymentPlans.FailRefund, PaymentPlans.CompleteRefund;
      assert refund.(providerRefund := refund.providerRefund) == refund;
      if reply.Declined? {
        FailRefund(Api);
        db.Meanwhile(meanwhile, since);
        return;
      }
      refund := refund.(providerRefund := Some(reply.providerRefund));
      if reply.status == RefundSucceeded {
        CompleteRefund(Api, meanwhile, since);
        return;
      }
      if reply.status == RefundFailed {
        FailRefund(Api);
      }
      db.Meanwhile(meanwhile, since);
    }

    /** A payment event on the loaded payment; a refused move leaves the session as it was loaded. */
    method ApplyPaymentEvent(event: Event) returns (status: InboxStatus)
      requires Clean() && !IsRefundEvent(event.kind)
      modifies this`intent, this`added
      ensures Applied(status, Flush()) ==
              PaymentPlans.ApplyPaymentEvent(iid, old(intent), event, MaxSequence(db.store.audit, iid))
    {
      hide MaxSequence;
      var target := EventTarget(event.kind);
      if event.currency.Some? && event.currency.value != intent.currency {
        return Ignored;
      }
      var captured := if event.amount.Some? then event.amount.value else intent.amount;
      if target == Captured {
        if !(0 < captured <= intent.amount) {
          return Ignored;
        }
        if intent.captured != 0 && captured != intent.captured {
          return Ignored;
        }
      }
      var move := Transition(target, None, ProviderEvent);
      if move == Refused {
        return Ignored;
      }
      if move == Change && target == Captured {
        intent := intent.(captured := captured);
      }
      return Processed;
    }

    /** A refund event on the loaded payment and refund; a refused move leaves what was changed before it. */
    method ApplyRefundEvent(event: Event, meanwhile: Script, ghost since: seq<Step>) returns (status: InboxStatus)
      requires db.Valid() && since <= db.run && Clean() && IsRefundEvent(event.kind)
      modifies this`intent, this`refund, this`added, this`raised, db
      ensures db.Valid() && db.run == old(db.run) + meanwhile && Follows(State(since), db.store)
      ensures Applied(status, Flush()) == PaymentPlans.ApplyRefundEvent(iid, old(intent), rid, old(refund), event,
                                                                        MaxSequence(old(db.store.audit), iid),
                                                                          MaxSequence(db.store.audit, iid))
    {
      hide Inv, Follows, After, MaxSequence;
      if event.kind == RefundSucceededEvent {
        CompleteRefund(ProviderEvent, meanwhile, since);
      } else {
        FailRefund(ProviderEvent);
        db.Meanwhile(meanwhile, since);
      }
      status := if raised then Ignored else Processed;
    }

    /** Flushes the changed rows and the new audit rows, with the inbox row if there is one. */
    method Commit(inbox: InboxWrite, step: Step, ghost since: seq<Step>) returns (ok: bool)
      requires db.Valid() && since <= db.run
      requires StepPlan(After(db.run), step) == Write([Flush().(inbox := inbox)])
      modifies db
      ensures db.Valid() && db.run == old(db.run) + [step] && Follows(State(since), db.store)
      ensures ok == CommitAll(old(db.store), [Flush().(inbox := inbox)]).Some?
      ensures db.store == Committed(old(db.store), [Flush().(inbox := inbox)])
    {
      hide Inv, Follows, After, CommitAll, StepPlan;
      var t := Txn(Dirty(iid, intentRead, intent), Dirty(rid, refundRead, refund), added, inbox);
      ok := db.Commit([t], step, since);
    }
  }

  const NO_INTENT: Intent := NewIntent("", "", CreateRequest("", "", 1, "", "", None, None))
  const NO_REFUND: Refund := NewRefund("", "", 1, RefundRequest("", None, None))

  /** A payment is created once per key. A lost race on the key is answered from the winner's row; any other refused
      commit means that a live payment already holds the external reference. */
  method CreatePayment(db: Database, business: string, iid: string, key: string, request: CreateRequest, now: int,
                       gaps: seq<Script>) returns (answer: Answer)
    requires db.Valid() && |gaps| == 2
    modifies db
    ensures db.Valid() && Follows(old(db.store), db.store)
    ensures var r0 := old(db.run);
            var r1 := r0 + gaps[0];
            var r2 := r1 + gaps[1];
            match CreatePlan(business, key, iid, request, now, State(r0), State(r1))
            case Stop(why) => answer == why && db.run == r0
            case Write(parts) =>
              && db.run == r2 + [CreateIntent(business, key, iid, request, now, Now(r0), Now(r1))]
              && db.store == Committed(State(r2), parts)
              && answer == (if CommitAll(State(r2), parts).Some? then Saved
                            else if !IntentKeyUsed(State(r2), business, key) then DuplicateReference
                            else if IntentKeyMatches(State(r2), business, key, request) then Replayed
                              else IdempotencyConflict)
  {
    hide Inv, Follows, After, CommitAll, MaxSequence, IntentKeyUsed, IntentKeyMatches;
    SelfFollows(db.store);
    var r0 := db.run;
    if !ValidRequest(request, now) {
      return Validation;
    }
    if IntentKeyUsed(db.store, business, key) {
      return if IntentKeyMatches(db.store, business, key, request) then Replayed else IdempotencyConflict;
    }
    var session := new Session(db, NewIntent(business, key, request), NO_REFUND);
    session.iid := iid;
    db.Meanwhile(gaps[0], r0);
    var r1 := db.run;
    session.Audit(None, PaymentChange(None, Created), Api);
    assert session.Work() == Noted(iid, Work(NewIntent(business, key, request), []), MaxSequence(State(r1).audit, iid),
                                   None, PaymentChange(None, Created), Api);
    db.Meanwhile(gaps[1], r0);
    var t := Txn(map[iid := Insert(session.intent)], map[], session.added, NoInbox);
    assert CreatePlan(business, key, iid, request, now, State(r0), State(r1)) == Write([t]);
    ReadStays(r0, db.run);
    ReadStays(r1, db.run);
    var ok := db.Commit([t], CreateIntent(business, key, iid, request, now, Now(r0), Now(r1)), r0);
    answer := if ok then Saved else CreationRefused(db.store, business, key, request);
  }

  /** A refused creation is answered from the rows that are there by then. */
  function CreationRefused(s: Store, business: string, key: string, request: CreateRequest): Answer {
    if !IntentKeyUsed(s, business, key) then DuplicateReference
    else if IntentKeyMatches(s, business, key, request) then Replayed else IdempotencyConflict
  }

  /** What the step of a checkout or cancellation plans when it is taken, read at two earlier moments. */
  lemma {:induction false} CheckoutPlanned(r0: seq<Step>, r1: seq<Step>, run: seq<Step>, business: string, iid: string,
                                           checkout: CheckoutReply, cancel: CancelReply)
    requires r0 <= run && r1 <= run
    ensures StepPlan(After(run), Step.RequestCheckout(business, iid, Now(r0), Now(r1), checkout)) ==
            CheckoutPlan(business, iid, State(r0), State(r1), checkout)
    ensures StepPlan(After(run), Step.CancelPayment(business, iid, Now(r0), Now(r1), cancel)) ==
            CancelPlan(business, iid, State(r0), State(r1), cancel)
  {
    hide After, Seen, State, Now, CheckoutPlan, CancelPlan;
    ReadStays(r0, run);
    ReadStays(r1, run);
  }

  /** The same for the two phases of a refund. */
  lemma {:induction false} RefundPlanned(r0: seq<Step>, r1: seq<Step>, r2: seq<Step>, r3: seq<Step>, run: seq<Step>,
                                         business: string,
                                         rid: string, key: string, request: RefundRequest, reply: RefundReply)
    requires r0 <= run && r1 <= run && r2 <= run && r3 <= run
    ensures StepPlan(After(run), Step.ReserveRefund(business, rid, key, request, Now(r0), Now(r1), Now(r2))) ==
            ReservePlan(business, rid, key, request, State(r0), State(r1), State(r2))
    ensures StepPlan(After(run), RecordRefund(business, rid, Now(r0), Now(r1), Now(r2), Now(r3), reply)) ==
            RecordPlan(business, rid, State(r0), State(r1), State(r2), State(r3), reply)
  {
    hide After, Seen, State, Now, ReservePlan, RecordPlan;
    ReadStays(r0, run);
    ReadStays(r1, run);
    ReadStays(r2, run);
    ReadStays(r3, run);
  }

  /** Asking the provider for a checkout and recording its answer, which may already be a capture. */
  method RequestCheckout(db: Database, business: string, iid: string, reply: CheckoutReply, gaps: seq<Script>)
      returns (answer: Answer)
    requires db.Valid() && |gaps| == 2
    modifies db
    ensures db.Valid() && Follows(old(db.store), db.store)
    ensures var r0 := old(db.run);
            var r1 := r0 + gaps[0];
            var r2 := r1 + gaps[1];
            match CheckoutPlan(business, iid, State(r0), State(r1), reply)
            case Stop(why) => answer == why && (db.run == r0 || db.run == r1)
            case Write(parts) =>
              && db.run == r2 + [Step.RequestCheckout(business, iid, Now(r0), Now(r1), reply)]
              && db.store == Committed(State(r2), parts)
              && answer == (if CommitAll(State(r2), parts).Some? then Saved else ConcurrentUpdate)
  {
    hide Inv, Follows, After, CommitAll, MaxSequence, StepPlan, Now, ValidCheckout, CheckedOut, PaymentPlans.Transition,
      PaymentTransitions;
    SelfFollows(db.store);
    var r0 := db.run;
    var session := new Session(db, NO_INTENT, NO_REFUND);
    var found := session.LoadIntent(business, iid);
    if !found {
      return NotFound;
    }
    if session.intent.status != Created {
      var asked := session.intent.providerPayment.Some? && session.intent.providerPayment.value != "";
      return if asked && session.intent.status in {Pending, RequiresAction} then Replayed else StateError;
    }
    db.Meanwhile(gaps[0], r0);
    var r1 := db.run;
    if reply.CheckoutError? {
      return ProviderFailed;
    }
    var error := session.RecordCheckout(reply);
    if error.Some? {
      return error.value;
    }
    db.Meanwhile(gaps[1], r0);
    CheckoutPlanned(r0, r1, db.run, business, iid, reply, CancelError);
    var ok := session.Commit(NoInbox, Step.RequestCheckout(business, iid, Now(r0), Now(r1), reply), r0);
    answer := if ok then Saved else ConcurrentUpdate;
  }

  /** Cancelling: at the provider first when it knows the payment, then here. */
  method CancelPayment(db: Database, business: string, iid: string, reply: CancelReply, gaps: seq<Script>)
      returns (answer: Answer)
    requires db.Valid() && |gaps| == 2
    modifies db
    ensures db.Valid() && Follows(old(db.store), db.store)
    ensures var r0 := old(db.run);
            var r1 := r0 + gaps[0];
            var r2 := r1 + gaps[1];
            match CancelPlan(business, iid, State(r0), State(r1), reply)
            case Stop(why) => answer == why && (db.run == r0 || db.run == r1)
            case Write(parts) =>
              && db.run == r2 + [Step.CancelPayment(business, iid, Now(r0), Now(r1), reply)]
              && db.store == Committed(State(r2), parts)
              && answer == (if CommitAll(State(r2), parts).Some? then Saved else ConcurrentUpdate)
  {
    hide Inv, Follows, After, CommitAll, MaxSequence, StepPlan, Now;
    SelfFollows(db.store);
    var r0 := db.run;
    var session := new Session(db, NO_INTENT, NO_REFUND);
    var found := session.LoadIntent(business, iid);
    if !found {
      return NotFound;
    }
    if session.intent.status == Cancelled {
      return Unchanged;
    }
    if session.intent.status !in CANCELLABLE {
      return StateError;
    }
    db.Meanwhile(gaps[0], r0);
    var r1 := db.run;
    if session.intent.providerPayment.Some? && session.intent.providerPayment.value != "" {
      if reply.CancelError? {
        return ProviderFailed;
      }
      if reply.providerPayment != session.intent.providerPayment.value || reply.status != Cancelled {
        return StateError;
      }
    }
    var move := session.Transition(Cancelled, None, Api);
    db.Meanwhile(gaps[1], r0);
    CheckoutPlanned(r0, r1, db.run, business, iid, CheckoutError, reply);
    var ok := session.Commit(NoInbox, Step.CancelPayment(business, iid, Now(r0), Now(r1), reply), r0);
    answer := if ok then Saved else ConcurrentUpdate;
  }

  /** Phase 1 of a refund: look up the key, load the payment, reserve, and commit. A lost race on the key is answered
      from the winner's row. */
  method ReserveRefund(db: Database, business: string, rid: string, key: string, request: RefundRequest,
                       gaps: seq<Script>)
    returns (answer: Answer)
    requires db.Valid() && |gaps| == 3
    modifies db
    ensures db.Valid() && Follows(old(db.store), db.store)
    ensures var r0 := old(db.run);
            var r1 := r0 + gaps[0];
            var r2 := r1 + gaps[1];
            var r3 := r2 + gaps[2];
            match ReservePlan(business, rid, key, request, State(r0), State(r1), State(r2))
            case Stop(why) => answer == why && (db.run == r0 || db.run == r1)
            case Write(parts) =>
              && db.run == r3 + [Step.ReserveRefund(business, rid, key, request, Now(r0), Now(r1), Now(r2))]
              && db.store == Committed(State(r3), parts)
              && answer == (if CommitAll(State(r3), parts).Some? then Saved
                            else if !RefundKeyUsed(State(r3), business, key) then ConcurrentUpdate
                            else if RefundKeyMatches(State(r3), business, key, request) then Replayed
                              else IdempotencyConflict)
  {
    hide Inv, Follows, After, CommitAll, MaxSequence, StepPlan, Now, RefundKeyUsed, RefundKeyMatches;
    SelfFollows(db.store);
    var r0 := db.run;
    if request.amount.Some? && !ValidAmount(request.amount.value) {
      return Validation;
    }
    if RefundKeyUsed(db.store, business, key) {
      return if RefundKeyMatches(db.store, business, key, request) then Replayed else IdempotencyConflict;
    }
    db.Meanwhile(gaps[0], r0);
    var r1 := db.run;
    var session := new Session(db, NO_INTENT, NO_REFUND);
    var found := session.LoadIntent(business, request.intent);
    if !found {
      return NotFound;
    }
    if session.intent.status !in REFUNDABLE {
      return StateError;
    }
    var available := session.intent.captured - session.intent.reserved;
    var amount := if request.amount.Some? then request.amount.value else available;
    if amount <= 0 || amount > available {
      return LimitExceeded;
    }
    var refund := NewRefund(business, key, amount, request);
    session.intent := session.intent.(reserved := session.intent.reserved + amount);
    db.Meanwhile(gaps[1], r0);
    var r2 := db.run;
    session.Audit(Some(rid), RefundChange(None, RefundPending), Api);
    db.Meanwhile(gaps[2], r0);
    var t := Txn(map[request.intent := Update(session.intentRead, session.intent)], map[rid := Insert(refund)],
                 session.added, NoInbox);
    RefundPlanned(r0, r1, r2, r2, db.run, business, rid, key, request, Unreachable);
    var ok := db.Commit([t], Step.ReserveRefund(business, rid, key, request, Now(r0), Now(r1), Now(r2)), r0);
    answer :=
      if ok then Saved
      else if !RefundKeyUsed(db.store, business, key) then ConcurrentUpdate
      else if RefundKeyMatches(db.store, business, key, request) then Replayed else IdempotencyConflict;
  }

  /** Phase 2 step by step: which reads stop it, and what the session then does with the answer. */
  lemma {:induction false} RecordPlanIsRecorded(business: string, rid: string, reply: RefundReply)
    ensures forall refunds: Store, rows: Store, trail: Store,
            trailAgain: Store {:trigger RecordPlan(business, rid, refunds, rows, trail, trailAgain, reply)} ::
              RecordPlan(business, rid, refunds, rows, trail, trailAgain, reply) ==
              if rid !in refunds.refunds || refunds.refunds[rid].business != business then Stop(NotFound)
              else if refunds.refunds[rid].status != RefundPending then Stop(Unchanged)
              else if !Owns(rows, business, refunds.refunds[rid].intent) then Stop(NotFound)
              else if reply.Unreachable? then Stop(ProviderFailed)
              else
                var read := refunds.refunds[rid];
                var done := Recorded(rid, read, rows.intents[read.intent], MaxSequence(trail.audit, read.intent),
                                     MaxSequence(trailAgain.audit, read.intent), reply);
                if done.raised then Stop(StateError)
                  else Write([RefundTxn(read.intent, rows.intents[read.intent], rid, read, done)])
  {
    hide MaxSequence, RefundTxn;
    assert forall read: Refund :: read.(providerRefund := read.providerRefund) == read;
  }

  /** Phase 2 of a refund: load it, ask the provider, and record the answer. */
  method SubmitRefund(db: Database, business: string, rid: string, reply: RefundReply, gaps: seq<Script>)
      returns (answer: Answer)
    requires db.Valid() && |gaps| == 4
    modifies db
    ensures db.Valid() && Follows(old(db.store), db.store)
    ensures var r0 := old(db.run);
            var r1 := r0 + gaps[0];
            var r2 := r1 + [AskProvider(business, rid, Now(r0))] + gaps[1];
            var r3 := r2 + gaps[2];
            var r4 := r3 + gaps[3];
            match RecordPlan(business, rid, State(r0), State(r1), State(r2), State(r3), reply)
            case Stop(why) => answer == why && db.run in {r0, r1, r2, r3}
            case Write(parts) =>
              && db.run == r4 + [RecordRefund(business, rid, Now(r0), Now(r1), Now(r2), Now(r3), reply)]
              && db.store == Committed(State(r4), parts)
              && answer == (if CommitAll(State(r4), parts).None? then ConcurrentUpdate
                            else if reply.Declined? then ProviderFailed else Saved)
  {
    hide Inv, Follows, After, CommitAll, MaxSequence, StepPlan, Now, Recorded, RecordPlan, RefundTxn;
    RecordPlanIsRecorded(business, rid, reply);
    SelfFollows(db.store);
    var r0 := db.run;
    var session := new Session(db, NO_INTENT, NO_REFUND);
    var found := session.LoadRefund(business, rid);
    if !found {
      return NotFound;
    }
    if session.refund.status != RefundPending {
      return Unchanged;
    }
    db.Meanwhile(gaps[0], r0);
    var r1 := db.run;
    found := session.LoadIntent(business, session.refund.intent);
    if !found {
      return NotFound;
    }
    db.Ask(business, rid, Now(r0));
    db.Meanwhile(gaps[1], r0);
    var r2 := db.run;
    if reply.Unreachable? {
      return ProviderFailed;
    }
    session.RecordReply(reply, gaps[2], r0);
    if session.raised {
      return StateError;
    }
    var r3 := db.run;
    db.Meanwhile(gaps[3], r0);
    RefundPlanned(r0, r1, r2, r3, db.run, business, rid, "", RefundRequest("", None, None), reply);
    var ok := session.Commit(NoInbox, RecordRefund(business, rid, Now(r0), Now(r1), Now(r2), Now(r3), reply), r0);
    answer := if !ok then ConcurrentUpdate else if reply.Declined? then ProviderFailed else Saved;
  }

  // -------------------------------------------------------------------- expiry

  /** The run after the first `k` gaps. */
  function Upto(run: seq<Step>, gaps: seq<Script>, k: nat): (r: seq<Step>)
    requires k <= |gaps|
    ensures run <= r
  {
    if k == 0 then run else Upto(run, gaps, k - 1) + gaps[k - 1]
  }

  lemma {:induction false} UptoGrows(run: seq<Step>, gaps: seq<Script>, j: nat, k: nat)
    requires j <= k <= |gaps|
    ensures Upto(run, gaps, j) <= Upto(run, gaps, k)
    decreases k
  {
    if j < k {
      UptoGrows(run, gaps, j, k - 1);
    }
  }

  /** Where, and in which states, the expiry job looks its audit numbers up: once per payment, after its gap. */
  function TrailPositions(run: seq<Step>, gaps: seq<Script>, n: nat): (r: seq<nat>)
    requires n <= |gaps|
    ensures |r| == n
  {
    seq(n, k requires 0 <= k < n => Now(Upto(run, gaps, k + 1)))
  }

  function TrailStates(run: seq<Step>, gaps: seq<Script>, n: nat): seq<Store>
    requires n <= |gaps|
  {
    seq(n, k requires 0 <= k < n => State(Upto(run, gaps, k + 1)))
  }

  lemma {:induction false} TrailsStay(run: seq<Step>, gaps: seq<Script>, n: nat)
    requires n <= |gaps|
    ensures SeenEach(After(Upto(run, gaps, |gaps|)), TrailPositions(run, gaps, n)) == TrailStates(run, gaps, n)
  {
    hide After;
    forall k | 0 <= k < n
      ensures Seen(After(Upto(run, gaps, |gaps|)), TrailPositions(run, gaps, n)[k]) == TrailStates(run, gaps, n)[k]
    {
      UptoGrows(run, gaps, k + 1, |gaps|);
      ReadStays(Upto(run, gaps, k + 1), Upto(run, gaps, |gaps|));
    }
  }

  /** One iteration of the expiry job: a payment loaded by the due query is moved in the session. */
  method ExpireInSession(db: Database, iid: string, rows: Store) returns (t: Txn)
    requires iid in rows.intents
    ensures t == ExpireOne(iid, rows, db.store)
  {
    hide MaxSequence;
    var session := new Session(db, rows.intents[iid], NO_REFUND);
    session.iid := iid;
    var move := session.Transition(Expired, None, System);
    t := session.Flush();
  }

  /** The loop over the due payments, with a gap before each audit look-up. */
  method ExpireAll(db: Database, due: seq<string>, gaps: seq<Script>) returns (parts: seq<Txn>)
    requires db.Valid() && |gaps| > |due| && forall k | 0 <= k < |due| :: due[k] in db.store.intents
    modifies db
    ensures db.Valid() && db.run == Upto(old(db.run), gaps, |due|) && Follows(old(db.store), db.store)
    ensures parts == ExpireParts(due, old(db.store), TrailStates(old(db.run), gaps, |due|))
  {
    hide Inv, Follows, After, MaxSequence, ExpireOne;
    var r0, rows := db.run, db.store;
    SelfFollows(rows);
    parts := [];
    for k := 0 to |due|
      invariant db.Valid() && db.run == Upto(r0, gaps, k) && Follows(rows, db.store)
      invariant |parts| == k && forall j | 0 <= j < k ::
                parts[j] == ExpireOne(due[j], rows, State(Upto(r0, gaps, j + 1)))
    {
      db.Meanwhile(gaps[k], r0);
      var t := ExpireInSession(db, due[k], rows);
      parts := parts + [t];
    }
  }

  /** The expiry job: every due payment is moved in the session, then one commit stores all of them or none. */
  method ExpireDue(db: Database, business: string, now: int, due: seq<string>, gaps: seq<Script>)
      returns (ok: bool, count: nat)
    requires db.Valid() && DueList(db.store, business, now, due) && |gaps| == |due| + 1
    modifies db
    ensures db.Valid() && Follows(old(db.store), db.store)
    ensures var r0 := old(db.run);
            var last := Upto(r0, gaps, |gaps|);
            var parts := ExpireParts(due, State(r0), TrailStates(r0, gaps, |due|));
            && db.run == last + [Step.ExpireDue(business, now, due, Now(r0), TrailPositions(r0, gaps, |due|))]
            && db.store == Committed(State(last), parts)
            && ok == CommitAll(State(last), parts).Some?
            && count == |due|
  {
    hide Inv, Follows, After, CommitAll, MaxSequence, Due, ExpireOne, ExpireParts, TrailStates, TrailPositions;
    var r0 := db.run;
    DueAreOpen(db.store, business, now, due);
    var parts := ExpireAll(db, due, gaps);
    db.Meanwhile(gaps[|due|], r0);
    ReadStays(r0, db.run);
    TrailsStay(r0, gaps, |due|);
    ExpiryPlan(After(db.run), Step.ExpireDue(business, now, due, Now(r0), TrailPositions(r0, gaps, |due|)),
               TrailStates(r0, gaps, |due|));
    ok := db.Commit(parts, Step.ExpireDue(business, now, due, Now(r0), TrailPositions(r0, gaps, |due|)), r0);
    count := |due|;
  }

  lemma {:induction false} ExpiryPlan(w: World, step: Step, trails: seq<Store>)
    requires w.history != [] && step.ExpireDue? && DueList(Seen(w, step.rowAt), step.business, step.now, step.due)
    requires |step.trailsAt| == |step.due| && SeenEach(w, step.trailsAt) == trails
    requires forall k | 0 <= k < |step.due| :: step.due[k] in Seen(w, step.rowAt).intents
    ensures StepPlan(w, step) == Write(ExpireParts(step.due, Seen(w, step.rowAt), trails))
  {
    hide ExpireParts, Seen, Due;
  }

  // ------------------------------------------------------------------ webhooks

  /** The payment of this business and provider that the event names, if there is one. */
  method FindPayment(s: Store, key: EventKey, event: Event) returns (found: Option<string>)
    ensures FindsPayment(s, key, event, found) && (found.Some? ==> Owns(s, key.business, found.value))
  {
    found := None;
    if exists i | i in s.intents :: EventPayment(s, key, event, i) {
      var i :| i in s.intents && EventPayment(s, key, event, i);
      found := Some(i);
    }
  }

  method FindRefund(s: Store, key: EventKey, event: Event, found: Option<string>) returns (foundRefund: Option<string>)
    ensures FindsRefund(s, key, event, found, foundRefund)
    ensures foundRefund.Some? ==>
            foundRefund.value in s.refunds && s.refunds[foundRefund.value].business == key.business
  {
    foundRefund := None;
    if found.Some? && exists r | r in s.refunds :: EventRefund(s, key, event, found.value, r) {
      var r :| r in s.refunds && EventRefund(s, key, event, found.value, r);
      foundRefund := Some(r);
    }
  }

  /** An attempt with its gaps: before the look-ups of payment and refund, the two audit look-ups, the commit, and, if
      that is refused, the failure mark. */
  function Attempt(r0: seq<Step>, key: EventKey, first: bool, found: Option<string>, foundRefund: Option<string>,
                   gaps: seq<Script>): (step: Step)
    requires |gaps| == 6
    ensures step.AttemptEvent?
  {
    AttemptEvent(key, first, Now(r0), found, foundRefund, Now(Upto(r0, gaps, 1)), Now(Upto(r0, gaps, 2)),
                 Now(Upto(r0, gaps, 3)), Now(Upto(r0, gaps, 4)))
  }

  predicate Finds(r0: seq<Step>, key: EventKey, found: Option<string>, foundRefund: Option<string>, gaps: seq<Script>)
    requires |gaps| == 6 && key in State(r0).inbox
  {
    && FindsPayment(State(Upto(r0, gaps, 1)), key, State(r0).inbox[key].event, found)
    && FindsRefund(State(Upto(r0, gaps, 2)), key, State(r0).inbox[key].event, found, foundRefund)
  }

  function AppliedBy(r0: seq<Step>, key: EventKey, found: Option<string>, foundRefund: Option<string>,
                     gaps: seq<Script>): (a: Applied)
    requires |gaps| == 6 && key in State(r0).inbox && Finds(r0, key, found, foundRefund, gaps)
    ensures a.txn.inbox == NoInbox
  {
    ApplyEvent(State(r0).inbox[key].event, found, foundRefund, State(Upto(r0, gaps, 1)), State(Upto(r0, gaps, 2)),
               State(Upto(r0, gaps, 3)), State(Upto(r0, gaps, 4)))
  }

  /** What one attempt leaves behind: applied and settled in one commit, or else marked failed, over whatever the stored
      row has become by then. `raised` is any error before the commit, from the first read on. */
  predicate Attempted(r0: seq<Step>, key: EventKey, first: bool, raised: bool, found: Option<string>,
                      foundRefund: Option<string>, gaps: seq<Script>, status: InboxStatus, run: seq<Step>, after: Store)
    requires |gaps| == 6 && key in State(r0).inbox
  {
    var attempts := State(r0).inbox[key].attempts + 1;
    var mark := [NOTHING.(inbox := SetInbox(key, FailedAttempt, attempts))];
    if raised then
      var failing := Upto(r0, gaps, 1);
      && status == FailedAttempt && run == failing + [MarkFailed(key, first, Now(r0))]
      && after == Committed(State(failing), mark)
    else
      && Finds(r0, key, found, foundRefund, gaps)
      && var applied := AppliedBy(r0, key, found, foundRefund, gaps);
         var parts := [applied.txn.(inbox := SetInbox(key, applied.status, attempts))];
         var r5 := Upto(r0, gaps, 5);
         var r6 := r5 + [Attempt(r0, key, first, found, foundRefund, gaps)];
         if CommitAll(State(r5), parts).Some?
         then status == applied.status && run == r6 && after == Committed(State(r5), parts)
         else
           && status == FailedAttempt && run == r6 + gaps[5] + [MarkFailed(key, first, Now(r0))]
           && after == Committed(State(r6 + gaps[5]), mark)
  }

  /** The step planned by an attempt is the one its session carried out. */
  lemma {:induction false} AttemptPlanned(r0: seq<Step>, key: EventKey, first: bool, found: Option<string>,
                                          foundRefund: Option<string>, gaps: seq<Script>)
    requires |gaps| == 6 && MayAttempt(key, first, State(r0)) && Finds(r0, key, found, foundRefund, gaps)
    requires first ==> key in After(Upto(r0, gaps, 5)).recorders
    ensures var applied := AppliedBy(r0, key, found, foundRefund, gaps);
            StepPlan(After(Upto(r0, gaps, 5)), Attempt(r0, key, first, found, foundRefund, gaps)) ==
            Write([applied.txn.(inbox := SetInbox(key, applied.status, State(r0).inbox[key].attempts + 1))])
  {
    hide After, State, Now, Seen, Upto, ApplyEvent, FindsPayment, FindsRefund, Retryable;
    var r5 := Upto(r0, gaps, 5);
    ReadStays(r0, r5);
    ReadAtGap(r0, gaps, 1);
    ReadAtGap(r0, gaps, 2);
    ReadAtGap(r0, gaps, 3);
    ReadAtGap(r0, gaps, 4);
  }

  lemma {:induction false} ReadAtGap(r0: seq<Step>, gaps: seq<Script>, k: nat)
    requires |gaps| == 6 && k <= 5
    ensures Seen(After(Upto(r0, gaps, 5)), Now(Upto(r0, gaps, k))) == State(Upto(r0, gaps, k))
  {
    hide After, State, Now, Seen, Upto;
    UptoGrows(r0, gaps, k, 5);
    ReadStays(Upto(r0, gaps, k), Upto(r0, gaps, 5));
  }

  /** The other writers do not include the delivery that recorded this event. */
  predicate ByOthers(gaps: seq<Script>, key: EventKey) {
    forall j, k | 0 <= j < |gaps| && 0 <= k < |gaps[j]| :: !OwnAttempt(gaps[j][k], key)
  }

  lemma {:induction false} RefusedStep(w: World, step: Step, parts: seq<Txn>)
    requires w.history != [] && StepPlan(w, step) == Write(parts) && CommitAll(Last(w), parts).None?
    ensures Next(w, step).recorders == w.recorders
  {
    hide StepPlan, CommitAll, AskedAfter;
  }

  lemma {:induction false} OthersOnly(run: seq<Step>, gaps: seq<Script>, key: EventKey, n: nat)
    requires n <= |gaps| && ByOthers(gaps, key) && key in After(run).recorders
    ensures key in After(Upto(run, gaps, n)).recorders
  {
    hide After, OwnAttempt, Upto, ByOthers;
    if n > 0 {
      OthersOnly(run, gaps, key, n - 1);
      GapByOthers(gaps, key, n - 1);
      OthersGap(Upto(run, gaps, n - 1), gaps[n - 1], key);
      UptoNext(run, gaps, n);
    } else {
      NoGap(run, gaps);
    }
  }

  lemma {:induction false} GapByOthers(gaps: seq<Script>, key: EventKey, j: nat)
    requires j < |gaps| && ByOthers(gaps, key)
    ensures forall k | 0 <= k < |gaps[j]| :: !OwnAttempt(gaps[j][k], key)
  {
    hide OwnAttempt;
  }

  lemma {:induction false} NoGap(run: seq<Step>, gaps: seq<Script>)
    ensures Upto(run, gaps, 0) == run
  {
  }

  lemma {:induction false} UptoNext(run: seq<Step>, gaps: seq<Script>, n: nat)
    requires 0 < n <= |gaps|
    ensures Upto(run, gaps, n) == Upto(run, gaps, n - 1) + gaps[n - 1]
  {
  }

  lemma {:induction false} OthersGap(run: seq<Step>, gap: Script, key: EventKey)
    requires key in After(run).recorders && forall k | 0 <= k < |gap| :: !OwnAttempt(gap[k], key)
    ensures key in After(run + gap).recorders
  {
    hide After, OwnAttempt;
    RecorderStays(run, run + gap, key);
  }

  /** Applies the event to the rows loaded, with a gap before each of the two audit look-ups. */
  method ApplyInSession(session: Session, event: Event, found: Option<string>, foundRefund: Option<string>,
                        beforeTrail: Script, beforeTrailAgain: Script, ghost since: seq<Step>)
                          returns (status: InboxStatus)
    requires session.db.Valid() && since <= session.db.run && session.Clean()
    modifies session`intent, session`refund, session`added, session`raised, session.db
    ensures session.db.Valid() && session.db.run == old(session.db.run) + beforeTrail + beforeTrailAgain
    ensures Follows(State(since), session.db.store)
    ensures var trail, trailAgain := State(old(session.db.run) + beforeTrail), session.db.store;
            var stored, storedAgain :=
              MaxSequence(trail.audit, session.iid), MaxSequence(trailAgain.audit, session.iid);
            Applied(status, session.Flush()) ==
            if found.None? || (IsRefundEvent(event.kind) && foundRefund.None?) then Applied(Ignored, NOTHING)
            else if IsRefundEvent(event.kind) then
              ApplyRefundEvent(session.iid, old(session.intent), session.rid, old(session.refund), event, stored,
                               storedAgain)
            else ApplyPaymentEvent(session.iid, old(session.intent), event, stored)
  {
    hide Inv, Follows, After, MaxSequence, ApplyPaymentEvent, ApplyRefundEvent;
    session.db.Meanwhile(beforeTrail, since);
    status := Ignored;
    if found.Some? && IsRefundEvent(event.kind) && foundRefund.Some? {
      status := session.ApplyRefundEvent(event, beforeTrailAgain, since);
    } else {
      if found.Some? && !IsRefundEvent(event.kind) {
        status := session.ApplyPaymentEvent(event);
      }
      session.db.Meanwhile(beforeTrailAgain, since);
    }
  }

  lemma {:induction false} Gaps(r0: seq<Step>, gaps: seq<Script>)
    requires |gaps| == 6
    ensures Upto(r0, gaps, 1) == r0 + gaps[0]
    ensures Upto(r0, gaps, 2) == r0 + gaps[0] + gaps[1]
    ensures Upto(r0, gaps, 3) == r0 + gaps[0] + gaps[1] + gaps[2]
    ensures Upto(r0, gaps, 4) == r0 + gaps[0] + gaps[1] + gaps[2] + gaps[3]
    ensures Upto(r0, gaps, 5) == r0 + gaps[0] + gaps[1] + gaps[2] + gaps[3] + gaps[4]
  {
    assert Upto(r0, gaps, 0) == r0;
  }

  /** The failure mark counts from the row as the attempt read it. */
  method MarkAttemptFailed(db: Database, key: EventKey, first: bool, read: seq<Step>, row: InboxRow)
    requires db.Valid() && read <= db.run && MayAttempt(key, first, State(read)) && row == State(read).inbox[key]
    requires first ==> key in After(db.run).recorders
    modifies db
    ensures db.Valid() && Follows(State(read), db.store)
    ensures db.run == old(db.run) + [MarkFailed(key, first, Now(read))]
    ensures db.store == Committed(old(db.store), [NOTHING.(inbox := SetInbox(key, FailedAttempt, row.attempts + 1))])
  {
    hide Inv, Follows, After, CommitAll, Retryable;
    ReadStays(read, db.run);
    var mark := NOTHING.(inbox := SetInbox(key, FailedAttempt, row.attempts + 1));
    assert StepPlan(After(db.run), MarkFailed(key, first, Now(read))) == Write([mark]);
    var _ := db.Commit([mark], MarkFailed(key, first, Now(read)), read);
  }

  /** The look-ups of an attempt and the application of its event in the session. */
  method ApplyRecorded(db: Database, key: EventKey, gaps: seq<Script>)
    returns (session: Session, status: InboxStatus, found: Option<string>, foundRefund: Option<string>)
    requires db.Valid() && |gaps| == 6 && key in db.store.inbox
    modifies db
    ensures session.db == db && db.Valid() && Follows(old(db.store), db.store) && db.run == Upto(old(db.run), gaps, 4)
    ensures Finds(old(db.run), key, found, foundRefund, gaps)
    ensures Applied(status, session.Flush()) == AppliedBy(old(db.run), key, found, foundRefund, gaps)
  {
    hide Inv, Follows, After, MaxSequence, ApplyPaymentEvent, ApplyRefundEvent, FindsPayment, FindsRefund, Upto;
    var r0, event := db.run, db.store.inbox[key].event;
    Gaps(r0, gaps);
    db.Meanwhile(gaps[0], r0);
    found := FindPayment(db.store, key, event);
    session := new Session(db, NO_INTENT, NO_REFUND);
    if found.Some? {
      var _ := session.LoadIntent(key.business, found.value);
    }
    db.Meanwhile(gaps[1], r0);
    foundRefund := FindRefund(db.store, key, event, found);
    if foundRefund.Some? {
      var _ := session.LoadRefund(key.business, foundRefund.value);
    }
    status := ApplyInSession(session, event, found, foundRefund, gaps[2], gaps[3], r0);
  }

  /** One attempt of a recorded event, by the delivery that recorded it (`first`) or, if the row looks retryable, by
      another one: apply it in the session and commit with the inbox row; on any failure roll back and mark the row
      failed. */
  method ProcessInbox(db: Database, key: EventKey, first: bool, raised: bool, gaps: seq<Script>)
    returns (status: InboxStatus, found: Option<string>, foundRefund: Option<string>)
    requires db.Valid() && |gaps| == 6 && MayAttempt(key, first, db.store)
    requires first ==> key in After(db.run).recorders && ByOthers(gaps, key)
    modifies db
    ensures db.Valid() && Follows(old(db.store), db.store)
    ensures Attempted(old(db.run), key, first, raised, found, foundRefund, gaps, status, db.run, db.store)
  {
    hide Inv, Follows, After, CommitAll, Upto, StepPlan, Attempt, AppliedBy, Finds, Accepts, Now, Retryable;
    var r0, row := db.run, db.store.inbox[key];
    UptoNext(r0, gaps, 1);
    NoGap(r0, gaps);
    if raised {
      db.Meanwhile(gaps[0], r0);
      if first {
        OthersOnly(r0, gaps, key, 1);
      }
      MarkAttemptFailed(db, key, first, r0, row);
      return FailedAttempt, None, None;
    }
    var session;
    session, status, found, foundRefund := ApplyRecorded(db, key, gaps);
    db.Meanwhile(gaps[4], r0);
    UptoNext(r0, gaps, 5);
    if first {
      OthersOnly(r0, gaps, key, 5);
    }
    AttemptPlanned(r0, key, first, found, foundRefund, gaps);
    var r5, attempt := db.run, Attempt(r0, key, first, found, foundRefund, gaps);
    ghost var flush := session.Flush().(inbox := SetInbox(key, status, row.attempts + 1));
    var ok := session.Commit(SetInbox(key, status, row.attempts + 1), attempt, r0);
    if !ok {
      if first {
        RefusedStep(After(r5), attempt, [flush]);
        AfterOneMore(r5, attempt);
        OthersGap(db.run, gaps[5], key);
      }
      db.Meanwhile(gaps[5], r0);
      MarkAttemptFailed(db, key, first, r0, row);
      status := FailedAttempt;
    }
  }

  /** An event is recorded exactly when its key is new. */
  lemma {:induction false} RecordingAccepted(s: Store, key: EventKey, row: InboxRow)
    requires Inv(s)
    ensures Accepts(s, NOTHING.(inbox := InsertInbox(key, row))) <==> key !in s.inbox
  {
    hide LedgerInv, Constraints;
    var t := NOTHING.(inbox := InsertInbox(key, row));
    assert Apply(s, t) == s.(inbox := s.inbox[key := row]);
    InboxIndependent(s, s.inbox[key := row]);
  }

  lemma {:induction false} RecorderOf(w: World, key: EventKey, event: Event)
    requires w.history != [] && CommitAll(Last(w),
                                          [NOTHING.(inbox := InsertInbox(key, InboxRow(event, Received, 0)))]).Some?
    ensures key in Next(w, ReceiveEvent(key, event)).recorders
  {
    hide CommitAll;
  }

  lemma {:induction false} RecordedStays(earlier: seq<Step>, later: seq<Step>, key: EventKey)
    requires earlier <= later && key in State(earlier).inbox
    ensures key in State(later).inbox
  {
    hide After, Inv;
    RunFollows(earlier, later);
  }

  /** The first transaction of a delivery: the event is recorded unless it was before. Either way its row is there. */
  method RecordEvent(db: Database, key: EventKey, event: Event) returns (recorded: bool)
    requires db.Valid()
    modifies db
    ensures db.Valid() && Follows(old(db.store), db.store) && db.run == old(db.run) + [ReceiveEvent(key, event)]
    ensures recorded <==> key !in old(db.store).inbox
    ensures recorded ==> key in After(db.run).recorders
    ensures key in db.store.inbox
  {
    hide Inv, Follows, After, Next, CommitAll, Accepts;
    var r0 := db.run;
    var record := NOTHING.(inbox := InsertInbox(key, InboxRow(event, Received, 0)));
    CommitOne(db.store, record);
    RecordingAccepted(db.store, key, InboxRow(event, Received, 0));
    recorded := db.Commit([record], ReceiveEvent(key, event), r0);
    if recorded {
      RecorderOf(After(r0), key, event);
      AfterOneMore(r0, ReceiveEvent(key, event));
    }
  }

  /** One verified delivery: the event is recorded before anything else, then attempted; a redelivery is attempted only
      if the stored row looks retryable. A row that can neither be stored nor found does not occur. */
  method ReceiveWebhook(db: Database, key: EventKey, event: Event, raised: bool, gap: Script, gaps: seq<Script>)
    returns (status: InboxStatus, recorded: bool, found: Option<string>, foundRefund: Option<string>)
    requires db.Valid() && |gaps| == 6
    requires key !in db.store.inbox ==> ByOthers([gap] + gaps, key)
    modifies db
    ensures db.Valid() && Follows(old(db.store), db.store)
    ensures recorded <==> key !in old(db.store).inbox
    ensures var r1 := old(db.run) + [ReceiveEvent(key, event)] + gap;
            && key in State(r1).inbox
            && if MayAttempt(key, recorded, State(r1))
               then Attempted(r1, key, recorded, raised, found, foundRefund, gaps, status, db.run, db.store)
               else status == State(r1).inbox[key].status && db.run == r1
  {
    hide Inv, Extends, After, Attempted, Retryable, OwnAttempt;
    var s0 := db.store;
    if key !in s0.inbox {
      OtherGaps(gap, gaps, key);
    }
    recorded := RecordEvent(db, key, event);
    var before := db.run;
    db.Meanwhile(gap, before);
    var s1 := db.store;
    FollowsCompose(s0, State(before), s1);
    RecordedStays(before, db.run, key);
    if recorded {
      OthersGap(before, gap, key);
    }
    found, foundRefund := None, None;
    if MayAttempt(key, recorded, db.store) {
      status, found, foundRefund := ProcessInbox(db, key, recorded, raised, gaps);
      FollowsCompose(s0, s1, db.store);
    } else {
      status := db.store.inbox[key].status;
    }
  }

  lemma {:induction false} OtherGaps(gap: Script, gaps: seq<Script>, key: EventKey)
    requires ByOthers([gap] + gaps, key)
    ensures ByOthers(gaps, key) && forall k | 0 <= k < |gap| :: !OwnAttempt(gap[k], key)
  {
    hide OwnAttempt;
    forall j, k | 0 <= j < |gaps| && 0 <= k < |gaps[j]| ensures !OwnAttempt(gaps[j][k], key) {
      assert ([gap] + gaps)[j + 1] == gaps[j];
    }
    forall k | 0 <= k < |gap| ensures !OwnAttempt(gap[k], key) {
      assert ([gap] + gaps)[0] == gap;
    }
  }
}
