/** What each payment operation answers and writes, for any rows it may have read: stated by the request and the
    provider's reply. */
module PaymentAnswers {
  import opened Tables
  import opened PaymentStates
  import opened PaymentStore
  import opened AuditTrail
  import opened PaymentPlans
  import opened PaymentRuns

  // ------------------------------------------------------------------ creation

  /** The amount is positive and at most ten thousand million units, the currency one of nine, and the expiry, if any,
      in the next thirty days. */
  predicate Acceptable(request: CreateRequest, now: int) {
    && 1 <= request.amount <= 1_000_000_000_000
    && request.currency in {"ILS", "USD", "EUR", "GBP", "CHF", "CAD", "AUD", "JPY", "JOD"}
    && (request.expiresAt.Some? ==> now < request.expiresAt.value <= now + 2_592_000_000_000)
  }

  predicate KeyTaken(s: Store, business: string, key: string) {
    exists i | i in s.intents :: s.intents[i].business == business && s.intents[i].key == key
  }

  /** A payment is created exactly for an acceptable request under a new key, and its columns are the request's. */
  lemma {:induction false} CreationIs(business: string, key: string, iid: string, request: CreateRequest, now: int,
                                      keys: Store, trail: Store)
    ensures var p := CreatePlan(business, key, iid, request, now, keys, trail);
            && (p.Write? <==> Acceptable(request, now) && !KeyTaken(keys, business, key))
            && (!Acceptable(request, now) ==> p == Stop(Validation))
            && (p.Write? ==>
                  && p.parts[0].intents.Keys == {iid} && p.parts[0].refunds == map[] && p.parts[0].intents[iid].Insert?
                  && var row := p.parts[0].intents[iid].row;
                     && row.business == business && row.key == key && row.fingerprint == request
                     && row.reference == request.reference && row.provider == request.provider
                     && row.amount == request.amount && row.currency == request.currency
                     && row.expiresAt == request.expiresAt && row.providerPayment == None && row.status == Created
                     && row.captured == 0 && row.reserved == 0 && row.refunded == 0)
  {
    hide MaxSequence;
    ExpiryWindow(now);
    assert KeyTaken(keys, business, key) <==> IntentKeyUsed(keys, business, key);
  }

  lemma {:induction false} ExpiryWindow(now: int)
    ensures now + MAX_INTENT_LIFETIME == now + 2_592_000_000_000
  {
  }

  // ------------------------------------------------------------------ checkout

  /** The provider's answer can be stored: it names the payment in 1 to 255 characters, reports a captured amount
      exactly when it reports a capture, and that amount is positive and within the payment. */
  predicate Storable(intent: Intent, reply: CheckoutReply) {
    && reply.CheckoutResult?
    && 1 <= |reply.providerPayment| <= 255
    && (if reply.status == Captured then 1 <= reply.captured <= intent.amount && reply.captured <= 1_000_000_000_000
        else reply.captured == 0)
  }

  /** A checkout is recorded exactly on a new payment of this business, for an answer that can be stored and does not
      report a refund; the provider's name, status, captured amount and expiry are taken from the answer, and nothing
      else changes. A checkout under way is answered from its row. */
  lemma {:induction false} CheckoutIs(business: string, iid: string, rows: Store, trail: Store, reply: CheckoutReply)
    requires iid in rows.intents && rows.intents[iid].business == business
    ensures var p, i := CheckoutPlan(business, iid, rows, trail, reply), rows.intents[iid];
            && (p.Write? <==>
                  i.status == Created && Storable(i, reply) && reply.status !in {PartiallyRefunded, Refunded})
            && (i.status == Created && reply.CheckoutError? ==> p == Stop(ProviderFailed))
            && (i.status == Created && reply.CheckoutResult? && !Storable(i, reply) ==> p == Stop(Validation))
            && (i.status == Created && Storable(i, reply) && reply.status in {PartiallyRefunded, Refunded} ==>
                  p == Stop(StateError))
            && (i.status != Created ==>
                  p == Stop(if i.status in {Pending, RequiresAction} && KnownToProvider(i) then Replayed
                            else StateError))
            && (p.Write? ==>
                  && p.parts[0].refunds == map[]
                  && var row := i.(providerPayment := Some(reply.providerPayment), status := reply.status,
                                   captured := if reply.status == Captured then reply.captured else i.captured,
                                   expiresAt := if reply.expiresAt.None? then i.expiresAt else reply.expiresAt);
                     p.parts[0].intents == if row == i then map[] else map[iid := Update(i, row)])
  {
    hide MaxSequence;
  }

  // -------------------------------------------------------------- cancellation

  predicate KnownToProvider(intent: Intent) {
    intent.providerPayment.Some? && intent.providerPayment.value != ""
  }

  /** The provider has confirmed that this very payment is cancelled, or does not know it. */
  predicate Confirmed(intent: Intent, reply: CancelReply) {
    KnownToProvider(intent) ==> reply == CancelResult(intent.providerPayment.value, Cancelled)
  }

  predicate Cancelling(status: PaymentStatus) {
    status in {Created, Pending, RequiresAction, Authorized}
  }

  /** A payment is cancelled exactly before capture and with the provider's confirmation; any other reply about a
      payment the provider knows leaves it alone. */
  lemma {:induction false} CancellationIs(business: string, iid: string, rows: Store, trail: Store, reply: CancelReply)
    requires iid in rows.intents && rows.intents[iid].business == business
    ensures var p, i := CancelPlan(business, iid, rows, trail, reply), rows.intents[iid];
            && (p.Write? <==> Cancelling(i.status) && Confirmed(i, reply))
            && (Cancelling(i.status) && !Confirmed(i, reply) ==>
                  p == Stop(if reply.CancelError? then ProviderFailed else StateError))
            && (!Cancelling(i.status) ==> p == Stop(if i.status == Cancelled then Unchanged else StateError))
            && (p.Write? ==>
                  p.parts[0].intents == map[iid := Update(i, i.(status := Cancelled))] && p.parts[0].refunds == map[])
  {
    hide MaxSequence;
  }

  /** In a run: without the provider's confirmation of a payment it knows, a cancellation leaves every state as it was,
      whatever row was read. */
  lemma {:induction false} UnconfirmedCancelChangesNothing(w: World, step: Step)
    requires w.history != [] && step.CancelPayment? && step.iid in Seen(w, step.rowAt).intents
    requires !Confirmed(Seen(w, step.rowAt).intents[step.iid], step.cancel)
    ensures Next(w, step) == w
  {
    hide Seen, CommitAll, MaxSequence;
    if Owns(Seen(w, step.rowAt), step.business, step.iid) {
      CancellationIs(step.business, step.iid, Seen(w, step.rowAt), Seen(w, step.trailAt), step.cancel);
    }
  }

  // ------------------------------------------------------------------ refunds

  /** What may still be refunded. */
  function Left(intent: Intent): int {
    intent.captured - intent.reserved
  }

  predicate RefundKeyTaken(s: Store, business: string, key: string) {
    exists r | r in s.refunds :: s.refunds[r].business == business && s.refunds[r].key == key
  }

  /** Phase 1 on a payment of this business, with a new key and no impossible amount: the requested amount is reserved,
      or all that is left when none is requested; the limit is exceeded if and only if more is requested than is left,
      or nothing is left. */
  lemma {:induction false} ReservationIs(business: string, rid: string, key: string, request: RefundRequest,
                                         keys: Store,
                                         rows: Store, trail: Store)
    requires request.intent in rows.intents && rows.intents[request.intent].business == business
    requires !RefundKeyTaken(keys, business, key)
    requires request.amount.Some? ==> 1 <= request.amount.value <= 1_000_000_000_000
    ensures var p, i := ReservePlan(business, rid, key, request, keys, rows, trail), rows.intents[request.intent];
            var amount := if request.amount.Some? then request.amount.value else Left(i);
            && (i.status !in {Captured, PartiallyRefunded} <==> p == Stop(StateError))
            && (i.status in {Captured, PartiallyRefunded} ==>
                  (p == Stop(LimitExceeded) <==> if request.amount.Some? then request.amount.value > Left(i)
                   else Left(i) <= 0))
            && (p.Write? <==> i.status in {Captured, PartiallyRefunded} && 0 < amount <= Left(i))
            && (p.Write? ==>
                  && p.parts[0].intents == map[request.intent := Update(i, i.(reserved := i.reserved + amount))]
                  && p.parts[0].refunds.Keys == {rid} && p.parts[0].refunds[rid].Insert?
                  && var row := p.parts[0].refunds[rid].row;
                     && row.amount == amount && row.intent == request.intent && row.fingerprint == request
                     && row.business == business && row.key == key
                     && row.status == RefundPending && row.providerRefund == None)
  {
    hide MaxSequence;
    assert RefundKeyTaken(keys, business, key) <==> RefundKeyUsed(keys, business, key);
  }

  /** An impossible amount is refused before anything is looked up. */
  lemma {:induction false} ImpossibleAmountIsRefused(business: string, rid: string, key: string, request: RefundRequest,
                                                     keys: Store, rows: Store, trail: Store)
    requires request.amount.Some? && !(1 <= request.amount.value <= 1_000_000_000_000)
    ensures ReservePlan(business, rid, key, request, keys, rows, trail) == Stop(Validation)
  {
  }

  function PaidBack(intent: Intent, amount: int): PaymentStatus {
    if intent.refunded + amount == intent.captured then Refunded else PartiallyRefunded
  }

  /** What another business owns, or nobody, is not found; a refund that is not pending is left as it is. */
  lemma {:induction false} OthersAreNotFound(business: string, id: string, key: string, request: RefundRequest,
                                             keys: Store,
                                             rows: Store, trail: Store, trailAgain: Store, checkout: CheckoutReply,
                                             cancel: CancelReply, reply: RefundReply)
    ensures !(id in rows.intents && rows.intents[id].business == business) ==>
              && CheckoutPlan(business, id, rows, trail, checkout) == Stop(NotFound)
              && CancelPlan(business, id, rows, trail, cancel) == Stop(NotFound)
    ensures !(request.intent in rows.intents && rows.intents[request.intent].business == business)
            && !RefundKeyTaken(keys, business, key)
            && (request.amount.Some? ==> 1 <= request.amount.value <= 1_000_000_000_000) ==>
              ReservePlan(business, id, key, request, keys, rows, trail) == Stop(NotFound)
    ensures var known := id in keys.refunds && keys.refunds[id].business == business;
            var p := RecordPlan(business, id, keys, rows, trail, trailAgain, reply);
            && (!known ==> p == Stop(NotFound))
            && (known && keys.refunds[id].status != RefundPending ==> p == Stop(Unchanged))
            && (known && keys.refunds[id].status == RefundPending
                && (keys.refunds[id].intent in rows.intents ==>
                    rows.intents[keys.refunds[id].intent].business != business) ==>
                  p == Stop(NotFound))
  {
    hide MaxSequence, FailRefund, CompleteRefund;
    assert RefundKeyTaken(keys, business, key) <==> RefundKeyUsed(keys, business, key);
  }

  /** Phase 2 on a pending refund: a lost answer changes nothing, a refusal or a reported failure releases the
      reservation, a reported success pays back and moves the payment, and a report names the refund. */
  lemma {:induction false} RecordingIs(business: string, rid: string, refunds: Store, rows: Store, trail: Store,
                                       trailAgain: Store, reply: RefundReply)
    requires rid in refunds.refunds && refunds.refunds[rid].business == business
    requires refunds.refunds[rid].status == RefundPending && refunds.refunds[rid].amount > 0
    requires refunds.refunds[rid].intent in rows.intents
             && rows.intents[refunds.refunds[rid].intent].business == business
    ensures var p, r := RecordPlan(business, rid, refunds, rows, trail, trailAgain, reply), refunds.refunds[rid];
            var iid := r.intent;
            var i := rows.intents[iid];
            var named := if reply.Reported? then r.(providerRefund := Some(reply.providerRefund)) else r;
            match reply
            case Unreachable => p == Stop(ProviderFailed)
            case Reported(_, RefundPending) =>
              p.Write? && p.parts[0].intents == map[]
              && p.parts[0].refunds == if named == r then map[] else map[rid := Update(r, named)]
            case Reported(_, RefundSucceeded) =>
              if CheckPayment(i.status, PaidBack(i, r.amount)) == Refused then p == Stop(StateError)
              else
                p.Write? && p.parts[0].refunds == map[rid := Update(r, named.(status := RefundSucceeded))]
                && p.parts[0].intents ==
                   map[iid := Update(i, i.(refunded := i.refunded + r.amount, status := PaidBack(i, r.amount)))]
            case _ =>
              p.Write? && p.parts[0].refunds == map[rid := Update(r, named.(status := RefundFailed))]
              && p.parts[0].intents == map[iid := Update(i, i.(reserved := i.reserved - r.amount))]
  {
    hide MaxSequence, NextRow;
    var r := refunds.refunds[rid];
    assert r.(providerRefund := r.providerRefund) == r;
  }

  // -------------------------------------------------------------------- expiry

  lemma {:induction false} ExpireOneIs(iid: string, s: Store, trail: Store)
    requires iid in s.intents && s.intents[iid].status in {Created, Pending, RequiresAction}
    ensures ExpireOne(iid, s, trail).intents == map[iid := Update(s.intents[iid], s.intents[iid].(status := Expired))]
    ensures ExpireOne(iid, s, trail).refunds == map[]
  {
    hide MaxSequence;
  }

  /** The expiry job's list is exactly the open payments of the business whose expiry has come, and each of them is
      moved to expired. */
  lemma {:induction false} ExpiryIs(s: Store, business: string, now: int, due: seq<string>, iid: string, trail: Store)
    requires DueList(s, business, now, due)
    ensures iid in due <==>
              && iid in s.intents && s.intents[iid].business == business
              && s.intents[iid].status in {Created, Pending, RequiresAction}
              && s.intents[iid].expiresAt.Some? && s.intents[iid].expiresAt.value <= now
    ensures iid in due ==>
              && iid in s.intents
              && ExpireOne(iid, s, trail).intents ==
                 map[iid := Update(s.intents[iid], s.intents[iid].(status := Expired))]
              && ExpireOne(iid, s, trail).refunds == map[]
  {
    hide MaxSequence;
    if iid in due {
      var k :| 0 <= k < |due| && due[k] == iid;
      assert Due(s, business, now, due[k]);
      ExpireOneIs(iid, s, trail);
    }
  }

  /** The expiry query has a result in every state. */
  lemma {:induction false} DueListExists(s: Store, business: string, now: int)
    ensures exists due :: DueList(s, business, now, due)
  {
    var due := ListOf(set i | i in s.intents && Due(s, business, now, i));
    forall k | 0 <= k < |due| ensures Due(s, business, now, due[k]) {
      assert due[k] in due;
    }
    assert DueList(s, business, now, due);
  }

  lemma {:induction false} ListOf(ids: set<string>) returns (list: seq<string>)
    ensures forall i :: i in list <==> i in ids
    ensures forall j, k | 0 <= j < k < |list| :: list[j] != list[k]
    decreases |ids|
  {
    if ids == {} {
      list := [];
    } else {
      var i :| i in ids;
      var rest := ListOf(ids - {i});
      list := rest + [i];
    }
  }

  // ------------------------------------------------------------------ webhooks

  /** The status that each kind of payment event reports. */
  predicate Reports(kind: EventKind, status: PaymentStatus) {
    match status
    case Pending => kind == PaymentPending
    case RequiresAction => kind == PaymentRequiresAction
    case Authorized => kind == PaymentAuthorized
    case Captured => kind == PaymentCaptured
    case Failed => kind == PaymentFailed
    case Cancelled => kind == PaymentCancelled
    case Expired => kind == PaymentExpired
    case _ => false
  }

  /** The amount that a capture event reports; without one it is the payment's. */
  function ReportedAmount(intent: Intent, event: Event): int {
    if event.amount.None? then intent.amount else event.amount.value
  }

  /** Currency and captured amount agree with the payment. */
  predicate Agrees(intent: Intent, event: Event) {
    && (event.currency == None || event.currency == Some(intent.currency))
    && (event.kind == PaymentCaptured ==>
          && 1 <= ReportedAmount(intent, event) <= intent.amount
          && (intent.captured == 0 || intent.captured == ReportedAmount(intent, event)))
  }

  /** A payment event counts as processed exactly when it agrees with the payment and reports its status or one that the
      status may move to. Then the payment takes that status, and with a capture exactly the reported amount; no other
      column changes. Otherwise it is ignored and nothing is written. */
  lemma {:induction false} PaymentEventIs(iid: string, intent: Intent, event: Event, status: PaymentStatus, stored: nat)
    requires !IsRefundEvent(event.kind) && Reports(event.kind, status)
    ensures var a := ApplyPaymentEvent(iid, intent, event, stored);
            && a.status == (if Agrees(intent, event)
                            && (status == intent.status || status in PaymentTransitions(intent.status))
                            then Processed else Ignored)
            && a.txn.refunds == map[]
            && a.txn.intents ==
               if a.status == Ignored || status == intent.status then map[]
               else map[iid := Update(intent, intent.(status := status,
                                                      captured := if status == Captured
                                                        then ReportedAmount(intent, event)
                                                                  else intent.captured))]
  {
  }

  lemma {:induction false} EveryKindReports(kind: EventKind)
    ensures !IsRefundEvent(kind) <==> exists status :: Reports(kind, status)
    ensures IsRefundEvent(kind) <==> kind == RefundSucceededEvent || kind == RefundFailedEvent
    ensures !IsRefundEvent(kind) ==> Reports(kind, EventTarget(kind))
  {
    if !IsRefundEvent(kind) {
      assert Reports(kind, EventTarget(kind));
    }
  }

  /** A refund event settles a pending refund as it says, and leaves any other alone: the same outcome again counts as
      processed, the opposite one is ignored. */
  lemma {:induction false} RefundEventIs(iid: string, intent: Intent, rid: string, refund: Refund, event: Event,
                                         stored: nat,
                                         storedAgain: nat)
    requires IsRefundEvent(event.kind) && refund.amount > 0
    ensures var a := ApplyRefundEvent(iid, intent, rid, refund, event, stored, storedAgain);
            var outcome := if event.kind == RefundSucceededEvent then RefundSucceeded else RefundFailed;
            if refund.status != RefundPending then
              a.txn.intents == map[] && a.txn.refunds == map[]
              && a.status == if refund.status == outcome then Processed else Ignored
            else
              && a.txn.refunds == map[rid := Update(refund, refund.(status := outcome))]
              && (a.status == Ignored <==>
                    outcome == RefundSucceeded
                      && CheckPayment(intent.status, PaidBack(intent, refund.amount)) == Refused)
              && (a.status == Processed ==>
                    a.txn.intents ==
                    map[iid := Update(intent,
                                      if outcome == RefundFailed
                                        then intent.(reserved := intent.reserved - refund.amount)
                                      else intent.(refunded := intent.refunded + refund.amount,
                                                   status := PaidBack(intent, refund.amount)))])
              && a.status in {Processed, Ignored}
  {
  }

  /** A delivery that did not record the event attempts it exactly while it is neither processed nor ignored and has
      been attempted fewer than ten times; the one that recorded it always does. */
  lemma {:induction false} AttemptedIff(key: EventKey, first: bool, inbox: Store)
    ensures MayAttempt(key, first, inbox) <==>
              && key in inbox.inbox
              && (first || (inbox.inbox[key].status !in {Processed, Ignored} && inbox.inbox[key].attempts < 10))
  {
    if key in inbox.inbox {
      var status := inbox.inbox[key].status;
      assert status.Received? || status.FailedAttempt? || status.Processed? || status.Ignored?;
    }
  }

  /** A delivery attempts an event it may attempt, on the rows that its look-ups found. */
  predicate Attempting(w: World, step: Step)
    requires w.history != [] && (step.AttemptEvent? || step.MarkFailed?)
  {
    var inbox := Seen(w, step.inboxAt);
    && MayAttempt(step.eventKey, step.first, inbox)
    && (step.first ==> step.eventKey in w.recorders)
    && (step.AttemptEvent? ==>
          var event := inbox.inbox[step.eventKey].event;
          && FindsPayment(Seen(w, step.rowAt), step.eventKey, event, step.found)
          && FindsRefund(Seen(w, step.refundAt), step.eventKey, event, step.found, step.foundRefund))
  }

  /** An attempt settles the event's row with what applying the event earns, and counts itself. */
  lemma {:induction false} AttemptWrites(w: World, step: Step)
    requires w.history != [] && step.AttemptEvent?
    ensures StepPlan(w, step).Write? <==> Attempting(w, step)
    ensures Attempting(w, step) ==>
              var row := Seen(w, step.inboxAt).inbox[step.eventKey];
              var a := ApplyEvent(row.event, step.found, step.foundRefund, Seen(w, step.rowAt), Seen(w, step.refundAt),
                                  Seen(w, step.trailAt), Seen(w, step.trailAgainAt));
              StepPlan(w, step) == Write([a.txn.(inbox := SetInbox(step.eventKey, a.status, row.attempts + 1))])
  {
    hide Seen, ApplyEvent, Retryable;
  }

  /** A failed attempt marks the row and counts itself; a delivery first stores the event as received, never
      attempted. */
  lemma {:induction false} InboxWrites(w: World, step: Step)
    requires w.history != []
    ensures step.MarkFailed? ==> (StepPlan(w, step).Write? <==> Attempting(w, step))
    ensures step.MarkFailed? && Attempting(w, step) ==>
              var attempts := Seen(w, step.inboxAt).inbox[step.eventKey].attempts + 1;
              StepPlan(w, step) == Write([Txn(map[], map[], [], SetInbox(step.eventKey, FailedAttempt, attempts))])
    ensures step.ReceiveEvent? ==>
              StepPlan(w, step) ==
              Write([Txn(map[], map[], [], InsertInbox(step.eventKey, InboxRow(step.event, Received, 0)))])
  {
    hide Seen, Retryable;
  }

  /** An event about no payment, or a refund event about no refund, is ignored. */
  lemma {:induction false} UnknownIsIgnored(event: Event, found: Option<string>, foundRefund: Option<string>,
                                            rows: Store,
                                            refunds: Store, trail: Store, trailAgain: Store)
    requires found.Some? ==> found.value in rows.intents
    requires foundRefund.Some? ==> foundRefund.value in refunds.refunds
    requires found.None? || (event.kind in {RefundSucceededEvent, RefundFailedEvent} && foundRefund.None?)
    ensures ApplyEvent(event, found, foundRefund, rows, refunds, trail, trailAgain) ==
            Applied(Ignored, Txn(map[], map[], [], NoInbox))
  {
    hide MaxSequence;
  }

  /** The payment that an event names, and only it: of the event's business and provider, under the provider's name. */
  lemma {:induction false} NamedPaymentIs(s: Store, key: EventKey, event: Event, found: Option<string>)
    requires FindsPayment(s, key, event, found)
    ensures found.Some? <==>
              exists i | i in s.intents ::
                s.intents[i].business == key.business && s.intents[i].provider == key.provider
                && s.intents[i].providerPayment == Some(event.providerPayment)
    ensures found.Some? ==>
              && found.value in s.intents
              && s.intents[found.value].business == key.business && s.intents[found.value].provider == key.provider
              && s.intents[found.value].providerPayment == Some(event.providerPayment)
  {
    forall i | i in s.intents && s.intents[i].business == key.business && s.intents[i].provider == key.provider
               && s.intents[i].providerPayment == Some(event.providerPayment)
      ensures EventPayment(s, key, event, i)
    {
    }
  }

  /** The refund that an event names: of that payment, under the provider's name for it. */
  lemma {:induction false} NamedRefundIs(s: Store, key: EventKey, event: Event, found: Option<string>,
                                         foundRefund: Option<string>)
    requires FindsRefund(s, key, event, found, foundRefund) && found.Some?
    ensures foundRefund.Some? <==>
              event.providerRefund.Some? && event.providerRefund.value != ""
              && exists r | r in s.refunds ::
                   s.refunds[r].business == key.business && s.refunds[r].intent == found.value
                   && s.refunds[r].providerRefund == event.providerRefund
    ensures foundRefund.Some? ==>
              && foundRefund.value in s.refunds
              && s.refunds[foundRefund.value].business == key.business
                 && s.refunds[foundRefund.value].intent == found.value
              && s.refunds[foundRefund.value].providerRefund == event.providerRefund
  {
    forall r | r in s.refunds && s.refunds[r].business == key.business && s.refunds[r].intent == found.value
               && s.refunds[r].providerRefund == event.providerRefund && event.providerRefund.Some?
               && event.providerRefund.value != ""
      ensures EventRefund(s, key, event, found.value, r)
    {
    }
  }
}
