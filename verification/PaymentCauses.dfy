/** Why every stored status, captured amount and refund is what it is: each has its cause among the accepted requests,
    provider replies and events. */
module PaymentCauses {
  import opened Tables
  import opened PaymentStates
  import opened PaymentStore
  import opened AuditTrail
  import opened PaymentPlans
  import opened PaymentInvariant
  import opened PaymentSteps
  import opened PaymentRuns
  import opened PaymentSerial
  import opened PaymentAnswers
  import opened InboxOnce
  import opened PaymentJournal

  /** The event is about this payment: same business and provider, under the provider's name for it. */
  predicate IsAbout(key: EventKey, event: Event, row: Intent) {
    && key.business == row.business && key.provider == row.provider
    && row.providerPayment == Some(event.providerPayment)
  }

  /** The entry accounts for the status of this payment. */
  predicate StatusCause(e: Entry, iid: string, row: Intent, s: Store) {
    e.written &&
    match e
    case Application(key, event, found, foundRefund, _) =>
      && found == Some(iid) && IsAbout(key, event, row)
      && if row.status in {PartiallyRefunded, Refunded}
         then event.kind == RefundSucceededEvent && RefundOf(foundRefund, iid, s)
         else Reports(event.kind, row.status) && (event.currency.None? || event.currency == Some(row.currency))
    case Operation(CreateIntent(business, key, id, request, now, _, _), _) =>
      && id == iid && business == row.business && key == row.key && row.status == Created
      && request == row.fingerprint && Acceptable(request, now)
    case Operation(RequestCheckout(business, id, _, _, reply), _) =>
      && id == iid && business == row.business && reply.CheckoutResult? && reply.status == row.status
      && row.providerPayment == Some(reply.providerPayment)
    case Operation(CancelPayment(business, id, _, _, reply), _) =>
      id == iid && business == row.business && row.status == Cancelled && Confirmed(row, reply)
    case Operation(ExpireDue(business, now, due, _, _), _) =>
      && iid in due && business == row.business && row.status == Expired
      && row.expiresAt.Some? && row.expiresAt.value <= now
    case Operation(RecordRefund(business, rid, _, _, _, _, reply), _) =>
      && business == row.business && row.status in {PartiallyRefunded, Refunded} && RefundOf(Some(rid), iid, s)
      && reply.Reported? && reply.status == RefundSucceeded
    case _ => false
  }

  predicate RefundOf(rid: Option<string>, iid: string, s: Store) {
    rid.Some? && rid.value in s.refunds && s.refunds[rid.value].intent == iid
  }

  /** The entry reported exactly the captured amount of this payment. */
  predicate CaptureCause(e: Entry, iid: string, row: Intent) {
    e.written &&
    match e
    case Application(key, event, found, _, _) =>
      && found == Some(iid) && IsAbout(key, event, row) && event.kind == PaymentCaptured
      && (event.currency.None? || event.currency == Some(row.currency))
      && (event.amount == Some(row.captured) || (event.amount.None? && row.captured == row.amount))
    case Operation(RequestCheckout(business, id, _, _, reply), _) =>
      && id == iid && business == row.business && reply.CheckoutResult? && reply.status == Captured
      && reply.captured == row.captured && row.providerPayment == Some(reply.providerPayment)
    case _ => false
  }

  /** The entry accounts for the status of this refund, and for the provider's name of a settled one. */
  predicate RefundCause(e: Entry, rid: string, r: Refund) {
    e.written &&
    match e
    case Application(key, event, found, foundRefund, _) =>
      && foundRefund == Some(rid) && found == Some(r.intent) && key.business == r.business
      && r.providerRefund == event.providerRefund && r.providerRefund.Some?
      && event.kind == (if r.status == RefundSucceeded then RefundSucceededEvent else RefundFailedEvent)
      && r.status != RefundPending
    case Operation(ReserveRefund(business, id, key, request, _, _, _), _) =>
      id == rid && business == r.business && key == r.key && request == r.fingerprint && r.status == RefundPending
    case Operation(RecordRefund(business, id, _, _, _, _, reply), _) =>
      && id == rid && business == r.business
      && (match reply
          case Unreachable => false
          case Declined => r.status == RefundFailed
          case Reported(name, status) => r.status == status && r.providerRefund == Some(name))
    case _ => false
  }

  /** The refund is the one that was asked for: of this payment, and of the requested amount if one was named. */
  predicate AsRequested(r: Refund) {
    && r.intent == r.fingerprint.intent
    && (r.fingerprint.amount.Some? ==> r.amount == r.fingerprint.amount.value)
  }

  /** The payment is the one that was asked for. */
  predicate AsCreated(row: Intent) {
    && row.reference == row.fingerprint.reference && row.provider == row.fingerprint.provider
    && row.amount == row.fingerprint.amount && row.currency == row.fingerprint.currency
  }

  predicate PaymentExplained(journal: seq<Entry>, iid: string, row: Intent, s: Store) {
    && AsCreated(row)
    && (exists n | 0 <= n < |journal| :: StatusCause(journal[n], iid, row, s))
    && (row.captured == 0 || exists n | 0 <= n < |journal| :: CaptureCause(journal[n], iid, row))
  }

  predicate RefundExplained(journal: seq<Entry>, rid: string, r: Refund) {
    AsRequested(r) && exists n | 0 <= n < |journal| :: RefundCause(journal[n], rid, r)
  }

  predicate Explained(journal: seq<Entry>, s: Store) {
    && (forall iid | iid in s.intents :: PaymentExplained(journal, iid, s.intents[iid], s))
    && (forall rid | rid in s.refunds :: RefundExplained(journal, rid, s.refunds[rid]))
  }

  // ------------------------------------------------------------- what lasts

  /** Nothing that a status, or a captured amount, is explained by has changed. */
  predicate SameStatus(a: Intent, b: Intent) {
    && a.status == b.status && a.business == b.business && a.key == b.key && a.provider == b.provider
    && a.currency == b.currency && a.providerPayment == b.providerPayment && a.fingerprint == b.fingerprint
    && a.expiresAt == b.expiresAt
  }

  predicate SameCapture(a: Intent, b: Intent) {
    && a.captured == b.captured && a.business == b.business && a.provider == b.provider && a.amount == b.amount
    && a.currency == b.currency && a.providerPayment == b.providerPayment
  }

  /** No refund is lost or moved to another payment. */
  predicate RefundsStay(s: Store, d: Store) {
    forall r | r in s.refunds :: r in d.refunds && d.refunds[r].intent == s.refunds[r].intent
  }

  lemma {:induction false} MoreEntries(journal: seq<Entry>, e: Entry, s: Store)
    requires Explained(journal, s)
    ensures Explained(journal + [e], s)
  {
    hide StatusCause, CaptureCause, RefundCause, AsRequested, AsCreated;
    forall iid | iid in s.intents ensures PaymentExplained(journal + [e], iid, s.intents[iid], s) {
      StillExplained(journal, [e], iid, s.intents[iid], s);
    }
    forall rid | rid in s.refunds ensures RefundExplained(journal + [e], rid, s.refunds[rid]) {
      assert RefundExplained(journal, rid, s.refunds[rid]);
      var n :| 0 <= n < |journal| && RefundCause(journal[n], rid, s.refunds[rid]);
      assert (journal + [e])[n] == journal[n];
    }
  }

  lemma {:induction false} StillExplained(journal: seq<Entry>, more: seq<Entry>, iid: string, row: Intent, s: Store)
    requires PaymentExplained(journal, iid, row, s)
    ensures PaymentExplained(journal + more, iid, row, s)
  {
    hide StatusCause, CaptureCause, AsCreated;
    var n :| 0 <= n < |journal| && StatusCause(journal[n], iid, row, s);
    assert (journal + more)[n] == journal[n];
    if row.captured != 0 {
      var m :| 0 <= m < |journal| && CaptureCause(journal[m], iid, row);
      assert (journal + more)[m] == journal[m];
    }
  }

  lemma {:induction false} StatusCauseLasts(e: Entry, iid: string, a: Intent, b: Intent, s: Store, d: Store)
    requires StatusCause(e, iid, a, s) && SameStatus(a, b) && RefundsStay(s, d)
    ensures StatusCause(e, iid, b, d)
  {
  }

  lemma {:induction false} CaptureCauseLasts(e: Entry, iid: string, a: Intent, b: Intent)
    requires CaptureCause(e, iid, a) && SameCapture(a, b)
    ensures CaptureCause(e, iid, b)
  {
  }

  /** One payment row after a change that entry `n` of the journal accounts for. */
  predicate RowAccounted(journal: seq<Entry>, n: nat, iid: string, s: Store, row: Intent, d: Store)
    requires n < |journal|
  {
    && AsCreated(row)
    && (StatusCause(journal[n], iid, row, d) || (iid in s.intents && SameStatus(s.intents[iid], row)))
    && (row.captured == 0 || CaptureCause(journal[n], iid, row)
        || (iid in s.intents && SameCapture(s.intents[iid], row)))
  }

  lemma {:induction false} RowExplained(journal: seq<Entry>, n: nat, iid: string, s: Store, row: Intent, d: Store)
    requires n < |journal| && RowAccounted(journal, n, iid, s, row, d) && RefundsStay(s, d)
    requires iid in s.intents ==> PaymentExplained(journal, iid, s.intents[iid], s)
    ensures PaymentExplained(journal, iid, row, d)
  {
    hide AsCreated;
    if !StatusCause(journal[n], iid, row, d) {
      var m :| 0 <= m < |journal| && StatusCause(journal[m], iid, s.intents[iid], s);
      StatusCauseLasts(journal[m], iid, s.intents[iid], row, s, d);
    }
    hide StatusCause;
    if row.captured != 0 && !CaptureCause(journal[n], iid, row) {
      var m :| 0 <= m < |journal| && CaptureCause(journal[m], iid, s.intents[iid]);
      CaptureCauseLasts(journal[m], iid, s.intents[iid], row);
    }
  }

  /** A change of at most one payment and one refund, accounted for by entry `n`, keeps everything explained. */
  lemma {:induction false} OneChange(journal: seq<Entry>, n: nat, s: Store, d: Store, iid: string, rid: string)
    requires n < |journal| && Explained(journal, s)
    requires d.intents == s.intents || (iid in d.intents && d.intents == s.intents[iid := d.intents[iid]])
    requires d.refunds == s.refunds || (rid in d.refunds && d.refunds == s.refunds[rid := d.refunds[rid]])
    requires d.intents != s.intents ==> RowAccounted(journal, n, iid, s, d.intents[iid], d)
    requires d.refunds != s.refunds ==>
               && RefundCause(journal[n], rid, d.refunds[rid]) && AsRequested(d.refunds[rid])
               && (rid in s.refunds ==> d.refunds[rid].intent == s.refunds[rid].intent)
    ensures Explained(journal, d)
  {
    hide StatusCause, CaptureCause, RefundCause, AsCreated, AsRequested, PaymentExplained, RowAccounted;
    assert RefundsStay(s, d);
    forall i | i in d.intents ensures PaymentExplained(journal, i, d.intents[i], d) {
      if d.intents != s.intents && i == iid {
        RowExplained(journal, n, i, s, d.intents[i], d);
      } else {
        SameRowAccounted(journal, n, i, s, d);
        RowExplained(journal, n, i, s, d.intents[i], d);
      }
    }
    forall r | r in d.refunds ensures RefundExplained(journal, r, d.refunds[r]) {
      if d.refunds == s.refunds || r != rid {
        assert RefundExplained(journal, r, s.refunds[r]);
      }
    }
  }

  lemma {:induction false} SameRowAccounted(journal: seq<Entry>, n: nat, i: string, s: Store, d: Store)
    requires n < |journal| && i in s.intents && i in d.intents && d.intents[i] == s.intents[i]
    requires PaymentExplained(journal, i, s.intents[i], s)
    ensures RowAccounted(journal, n, i, s, d.intents[i], d)
  {
    hide StatusCause, CaptureCause, AsCreated;
  }

  // -------------------------------------------------------- entry by entry

  lemma {:induction false} OneTxn(s: Store, parts: seq<Txn>, d: Store)
    requires |parts| == 1 && CommitAll(s, parts) == Some(d)
    ensures Accepts(s, parts[0]) && d == Apply(s, parts[0])
  {
    assert parts == [parts[0]];
    CommitOne(s, parts[0]);
  }

  lemma {:induction false} WrittenIntent(s: Store, t: Txn, iid: string, read: Intent, row: Intent)
    requires t.intents == map[iid := Update(read, row)]
    ensures Apply(s, t).intents == s.intents[iid := row.(version := read.version + 1)]
  {
    assert (map i | i in t.intents :: StoredIntent(t.intents[i])) == map[iid := row.(version := read.version + 1)];
  }

  lemma {:induction false} WrittenRefund(s: Store, t: Txn, rid: string, read: Refund, row: Refund)
    requires t.refunds == map[rid := Update(read, row)]
    ensures Apply(s, t).refunds == s.refunds[rid := row.(version := read.version + 1)]
  {
    assert (map r | r in t.refunds :: StoredRefund(t.refunds[r])) == map[rid := row.(version := read.version + 1)];
  }

  lemma {:induction false} NothingWritten(s: Store, t: Txn)
    ensures t.intents == map[] ==> Apply(s, t).intents == s.intents
    ensures t.refunds == map[] ==> Apply(s, t).refunds == s.refunds
  {
  }

  lemma {:induction false} OnlyIntent(s: Store, t: Txn, id: string)
    requires t.intents.Keys == {id}
    ensures Apply(s, t).intents == s.intents[id := StoredIntent(t.intents[id])]
  {
    hide StoredIntent;
  }

  lemma {:induction false} OnlyRefund(s: Store, t: Txn, id: string)
    requires t.refunds.Keys == {id}
    ensures Apply(s, t).refunds == s.refunds[id := StoredRefund(t.refunds[id])]
  {
    hide StoredRefund;
  }

  lemma {:induction false} InsertedIntent(s: Store, t: Txn, id: string)
    requires Current(s, t) && t.intents.Keys == {id} && t.intents[id].Insert?
    ensures id !in s.intents && Apply(s, t).intents == s.intents[id := t.intents[id].row.(version := 1)]
  {
    assert IntentCurrent(s, id, t.intents[id]);
    OnlyIntent(s, t, id);
    hide Apply, Current;
  }

  lemma {:induction false} InsertedRefund(s: Store, t: Txn, id: string)
    requires Current(s, t) && t.refunds.Keys == {id} && t.refunds[id].Insert?
    ensures id !in s.refunds && Apply(s, t).refunds == s.refunds[id := t.refunds[id].row.(version := 1)]
  {
    assert RefundCurrent(s, id, t.refunds[id]);
    OnlyRefund(s, t, id);
    hide Apply, Current;
  }

  /** A new payment has no money on it, and refunds are of something. */
  predicate MoneyAgrees(s: Store) {
    && (forall i | i in s.intents && s.intents[i].status in {Created, Pending, RequiresAction, Authorized} ::
          s.intents[i].captured == 0)
    && (forall r | r in s.refunds :: s.refunds[r].amount > 0)
  }

  lemma {:induction false} CreateExplains(journal: seq<Entry>, n: nat, step: Step, s: Store, d: Store)
    requires n < |journal| && journal[n] == Operation(step, true) && Explained(journal, s) && step.CreateIntent?
    requires CreatePlan(step.business, step.key, step.iid, step.request, step.now, s, s).Write?
    requires CommitAll(s, CreatePlan(step.business, step.key, step.iid, step.request, step.now, s, s).parts) == Some(d)
    ensures Explained(journal, d)
  {
    hide Explained, CreatePlan, Constraints;
    var t := CreatePlan(step.business, step.key, step.iid, step.request, step.now, s, s).parts[0];
    CreationIs(step.business, step.key, step.iid, step.request, step.now, s, s);
    OneTxn(s, CreatePlan(step.business, step.key, step.iid, step.request, step.now, s, s).parts, d);
    InsertedIntent(s, t, step.iid);
    NothingWritten(s, t);
    hide Apply, Current;
    OneChange(journal, n, s, d, step.iid, "");
  }

  lemma {:induction false} CheckoutAccounts(journal: seq<Entry>, n: nat, step: Step, s: Store, row: Intent, d: Store)
    requires n < |journal| && journal[n] == Operation(step, true) && step.RequestCheckout?
    requires step.iid in s.intents && AsCreated(s.intents[step.iid]) && s.intents[step.iid].business == step.business
    requires var i, reply := s.intents[step.iid], step.checkout;
             && reply.CheckoutResult?
             && row == i.(providerPayment := Some(reply.providerPayment), status := reply.status, version :=
                          row.version,
                          captured := if reply.status == Captured then reply.captured else i.captured,
                          expiresAt := if reply.expiresAt.None? then i.expiresAt else reply.expiresAt)
             && i.captured == 0
    ensures RowAccounted(journal, n, step.iid, s, row, d)
  {
  }

  lemma {:induction false} CheckoutExplains(journal: seq<Entry>, n: nat, step: Step, s: Store, d: Store)
    requires n < |journal| && journal[n] == Operation(step, true) && Explained(journal, s) && step.RequestCheckout?
    requires MoneyAgrees(s)
    requires CheckoutPlan(step.business, step.iid, s, s, step.checkout).Write?
    requires CommitAll(s, CheckoutPlan(step.business, step.iid, s, s, step.checkout).parts) == Some(d)
    ensures Explained(journal, d)
  {
    var i := s.intents[step.iid];
    PlansOwn(step, s);
    RowIsAsCreated(journal, step.iid, s);
    hide Explained, CheckoutPlan, Accepts, AsCreated, RowAccounted, Storable;
    var t := CheckoutPlan(step.business, step.iid, s, s, step.checkout).parts[0];
    CheckoutIs(step.business, step.iid, s, s, step.checkout);
    OneTxn(s, CheckoutPlan(step.business, step.iid, s, s, step.checkout).parts, d);
    NothingWritten(s, t);
    if t.intents != map[] {
      WrittenIntent(s, t, step.iid, i, t.intents[step.iid].row);
      CheckoutAccounts(journal, n, step, s, d.intents[step.iid], d);
    }
    hide Apply;
    OneChange(journal, n, s, d, step.iid, "");
  }

  lemma {:induction false} PlansOwn(step: Step, s: Store)
    ensures step.RequestCheckout? && CheckoutPlan(step.business, step.iid, s, s, step.checkout).Write? ==>
              Owns(s, step.business, step.iid)
    ensures step.CancelPayment? && CancelPlan(step.business, step.iid, s, s, step.cancel).Write? ==>
              Owns(s, step.business, step.iid)
  {
    hide MaxSequence;
  }

  lemma {:induction false} RowIsAsCreated(journal: seq<Entry>, iid: string, s: Store)
    requires Explained(journal, s) && iid in s.intents
    ensures AsCreated(s.intents[iid])
  {
    hide AsCreated;
    assert PaymentExplained(journal, iid, s.intents[iid], s);
  }

  lemma {:induction false} RefundIsAsRequested(journal: seq<Entry>, rid: string, s: Store)
    requires Explained(journal, s) && rid in s.refunds
    ensures AsRequested(s.refunds[rid])
  {
    hide AsRequested;
    assert RefundExplained(journal, rid, s.refunds[rid]);
  }

  lemma {:induction false} CancelAccounts(journal: seq<Entry>, n: nat, step: Step, s: Store, row: Intent, d: Store)
    requires n < |journal| && journal[n] == Operation(step, true) && step.CancelPayment?
    requires step.iid in s.intents && AsCreated(s.intents[step.iid]) && s.intents[step.iid].business == step.business
    requires Confirmed(s.intents[step.iid], step.cancel)
    requires row == s.intents[step.iid].(status := Cancelled, version := row.version)
    ensures RowAccounted(journal, n, step.iid, s, row, d)
  {
  }

  lemma {:induction false} CancelExplains(journal: seq<Entry>, n: nat, step: Step, s: Store, d: Store)
    requires n < |journal| && journal[n] == Operation(step, true) && Explained(journal, s) && step.CancelPayment?
    requires CancelPlan(step.business, step.iid, s, s, step.cancel).Write?
    requires CommitAll(s, CancelPlan(step.business, step.iid, s, s, step.cancel).parts) == Some(d)
    ensures Explained(journal, d)
  {
    PlansOwn(step, s);
    RowIsAsCreated(journal, step.iid, s);
    hide Explained, CancelPlan, Accepts, AsCreated, RowAccounted, Confirmed, Cancelling;
    var t := CancelPlan(step.business, step.iid, s, s, step.cancel).parts[0];
    CancellationIs(step.business, step.iid, s, s, step.cancel);
    OneTxn(s, CancelPlan(step.business, step.iid, s, s, step.cancel).parts, d);
    NothingWritten(s, t);
    WrittenIntent(s, t, step.iid, s.intents[step.iid], t.intents[step.iid].row);
    CancelAccounts(journal, n, step, s, d.intents[step.iid], d);
    hide Apply;
    OneChange(journal, n, s, d, step.iid, "");
  }

  lemma {:induction false} ReserveWrites(step: Step, s: Store)
    requires step.ReserveRefund? && ReservePlan(step.business, step.rid, step.key, step.refund, s, s, s).Write?
    ensures Owns(s, step.business, step.refund.intent) && !RefundKeyTaken(s, step.business, step.key)
    ensures step.refund.amount.Some? ==> 1 <= step.refund.amount.value <= 1_000_000_000_000
  {
    hide MaxSequence;
    assert RefundKeyTaken(s, step.business, step.key) <==> RefundKeyUsed(s, step.business, step.key);
  }

  /** Only the money set aside for refunds changes. */
  lemma {:induction false} ReservedAccounts(journal: seq<Entry>, n: nat, iid: string, s: Store, row: Intent, d: Store)
    requires n < |journal| && iid in s.intents && AsCreated(s.intents[iid])
    requires row == s.intents[iid].(reserved := row.reserved, version := row.version)
    ensures RowAccounted(journal, n, iid, s, row, d)
  {
  }

  lemma {:induction false} ReserveAccounts(e: Entry, step: Step, r: Refund)
    requires e == Operation(step, true) && step.ReserveRefund?
    requires r.business == step.business && r.key == step.key && r.fingerprint == step.refund
             && r.status == RefundPending
    requires r.intent == step.refund.intent && (step.refund.amount.Some? ==> r.amount == step.refund.amount.value)
    ensures RefundCause(e, step.rid, r) && AsRequested(r)
  {
  }

  lemma {:induction false} ReserveExplains(journal: seq<Entry>, n: nat, step: Step, s: Store, d: Store)
    requires n < |journal| && journal[n] == Operation(step, true) && Explained(journal, s) && step.ReserveRefund?
    requires ReservePlan(step.business, step.rid, step.key, step.refund, s, s, s).Write?
    requires CommitAll(s, ReservePlan(step.business, step.rid, step.key, step.refund, s, s, s).parts) == Some(d)
    ensures Explained(journal, d)
  {
    var iid := step.refund.intent;
    ReserveWrites(step, s);
    RowIsAsCreated(journal, iid, s);
    hide Explained, ReservePlan, Constraints, AsCreated, RowAccounted, AsRequested, RefundCause, RefundKeyTaken;
    var t := ReservePlan(step.business, step.rid, step.key, step.refund, s, s, s).parts[0];
    ReservationIs(step.business, step.rid, step.key, step.refund, s, s, s);
    OneTxn(s, ReservePlan(step.business, step.rid, step.key, step.refund, s, s, s).parts, d);
    WrittenIntent(s, t, iid, s.intents[iid], t.intents[iid].row);
    InsertedRefund(s, t, step.rid);
    hide Apply, Current;
    ReservedAccounts(journal, n, iid, s, d.intents[iid], d);
    ReserveAccounts(journal[n], step, d.refunds[step.rid]);
    OneChange(journal, n, s, d, iid, step.rid);
  }

  lemma {:induction false} RecordWrites(step: Step, s: Store)
    requires step.RecordRefund? && RecordPlan(step.business, step.rid, s, s, s, s, step.reply).Write?
    ensures step.rid in s.refunds && s.refunds[step.rid].business == step.business
    ensures s.refunds[step.rid].status == RefundPending && !step.reply.Unreachable?
    ensures Owns(s, step.business, s.refunds[step.rid].intent)
  {
    RecordOwns(step.business, step.rid, s, s, s, s, step.reply);
    hide MaxSequence, CompleteRefund, FailRefund, RefundTxn;
  }

  /** The payment's side of a recorded answer: a reservation released, or money paid back. */
  lemma {:induction false} RecordAccounts(journal: seq<Entry>, n: nat, step: Step, s: Store, row: Intent, d: Store)
    requires n < |journal| && journal[n] == Operation(step, true) && step.RecordRefund? && step.rid in s.refunds
    requires var iid := s.refunds[step.rid].intent;
             && iid in s.intents && AsCreated(s.intents[iid]) && s.intents[iid].business == step.business
             && step.rid in d.refunds && d.refunds[step.rid].intent == iid
             && (row == s.intents[iid].(reserved := row.reserved, version := row.version)
                 || (step.reply.Reported? && step.reply.status == RefundSucceeded
                     && row == s.intents[iid].(refunded := row.refunded, status := row.status, version := row.version)
                     && row.status in {PartiallyRefunded, Refunded}))
    ensures RowAccounted(journal, n, s.refunds[step.rid].intent, s, row, d)
  {
  }

  lemma {:induction false} AnswerAccounts(e: Entry, step: Step, read: Refund, r: Refund)
    requires e == Operation(step, true) && step.RecordRefund? && !step.reply.Unreachable? && AsRequested(read)
    requires read.business == step.business
    requires r == read.(version := r.version, status := if step.reply.Reported? then step.reply.status
                        else RefundFailed,
                        providerRefund := if step.reply.Reported? then Some(step.reply.providerRefund)
                                          else read.providerRefund)
    ensures RefundCause(e, step.rid, r) && AsRequested(r) && r.intent == read.intent
  {
  }

  /** The rows that a recorded answer leaves. */
  lemma {:induction false} RecordRows(step: Step, s: Store, t: Txn, d: Store)
    requires step.RecordRefund? && RecordPlan(step.business, step.rid, s, s, s, s, step.reply) == Write([t])
    requires MoneyAgrees(s) && d.intents == Apply(s, t).intents && d.refunds == Apply(s, t).refunds
    requires step.rid in s.refunds && s.refunds[step.rid].intent in s.intents
    requires s.refunds[step.rid].status == RefundPending && !step.reply.Unreachable?
    requires s.refunds[step.rid].business == step.business && Owns(s, step.business, s.refunds[step.rid].intent)
    ensures var r := s.refunds[step.rid];
            var iid := r.intent;
            && (d.refunds == s.refunds
                || (step.rid in d.refunds && d.refunds == s.refunds[step.rid := d.refunds[step.rid]]
                    && d.refunds[step.rid] == r.(version := d.refunds[step.rid].version,
                                                 status := if step.reply.Reported? then step.reply.status
                                                   else RefundFailed,
                                                 providerRefund := if step.reply.Reported?
                                                                   then Some(step.reply.providerRefund)
                                                                   else r.providerRefund)))
            && (d.intents == s.intents
                || (step.rid in d.refunds && d.refunds[step.rid].intent == iid
                    && iid in d.intents && d.intents == s.intents[iid := d.intents[iid]]
                    && var i, row := s.intents[iid], d.intents[iid];
                       (row == i.(reserved := row.reserved, version := row.version)
                        || (step.reply.Reported? && step.reply.status == RefundSucceeded
                            && row == i.(refunded := row.refunded, status := row.status, version := row.version)
                            && row.status in {PartiallyRefunded, Refunded}))))
  {
    var r := s.refunds[step.rid];
    assert r.amount > 0;
    hide RecordPlan, MoneyAgrees, PaymentTransitions;
    RecordingIs(step.business, step.rid, s, s, s, s, step.reply);
    NothingWritten(s, t);
    if t.refunds != map[] {
      WrittenRefund(s, t, step.rid, r, t.refunds[step.rid].row);
    }
    if t.intents != map[] {
      WrittenIntent(s, t, r.intent, s.intents[r.intent], t.intents[r.intent].row);
    }
    hide Apply;
  }

  lemma {:induction false} RecordExplains(journal: seq<Entry>, n: nat, step: Step, s: Store, d: Store)
    requires n < |journal| && journal[n] == Operation(step, true) && Explained(journal, s) && step.RecordRefund?
    requires MoneyAgrees(s) && RecordPlan(step.business, step.rid, s, s, s, s, step.reply).Write?
    requires CommitAll(s, RecordPlan(step.business, step.rid, s, s, s, s, step.reply).parts) == Some(d)
    ensures Explained(journal, d)
  {
    hide Explained, RecordPlan, Accepts, AsCreated, RowAccounted, AsRequested, RefundCause, MoneyAgrees, Apply,
      CommitAll;
    RecordWrites(step, s);
    var r := s.refunds[step.rid];
    var iid := r.intent;
    RowIsAsCreated(journal, iid, s);
    RefundIsAsRequested(journal, step.rid, s);
    var parts := RecordPlan(step.business, step.rid, s, s, s, s, step.reply).parts;
    assert parts == [parts[0]];
    OneTxn(s, parts, d);
    RecordRows(step, s, parts[0], d);
    if d.refunds != s.refunds {
      AnswerAccounts(journal[n], step, r, d.refunds[step.rid]);
    }
    if d.intents != s.intents {
      RecordAccounts(journal, n, step, s, d.intents[iid], d);
    }
    OneChange(journal, n, s, d, iid, step.rid);
  }

  lemma {:induction false} ExpireAccounts(journal: seq<Entry>, n: nat, step: Step, iid: string, s: Store, row: Intent,
                                          d: Store)
    requires n < |journal| && journal[n] == Operation(step, true) && step.ExpireDue? && iid in step.due
    requires Due(s, step.business, step.now, iid) && AsCreated(s.intents[iid])
    requires row == s.intents[iid].(status := Expired, version := row.version)
    ensures RowAccounted(journal, n, iid, s, row, d)
  {
  }

  lemma {:induction false} OneExpiry(journal: seq<Entry>, n: nat, step: Step, iid: string, rows: Store, trail: Store,
                                     s: Store)
    requires n < |journal| && journal[n] == Operation(step, true) && Explained(journal, s) && step.ExpireDue?
    requires iid in step.due && Due(s, step.business, step.now, iid)
    requires iid in rows.intents && rows.intents[iid] == s.intents[iid]
    ensures var next := Apply(s, ExpireOne(iid, rows, trail));
            Explained(journal, next) && iid in next.intents && next.intents == s.intents[iid := next.intents[iid]]
  {
    RowIsAsCreated(journal, iid, s);
    assert rows.intents[iid].status in {Created, Pending, RequiresAction};
    hide Explained, AsCreated, RowAccounted, ExpireOne, Due;
    var t := ExpireOne(iid, rows, trail);
    var next := Apply(s, t);
    ExpireOneIs(iid, rows, trail);
    WrittenIntent(s, t, iid, rows.intents[iid], rows.intents[iid].(status := Expired));
    NothingWritten(s, t);
    hide Apply;
    ExpireAccounts(journal, n, step, iid, s, next.intents[iid], next);
    OneChange(journal, n, s, next, iid, "");
  }

  /** The payments still to be expired, one part after another. */
  lemma {:induction false} ExpireExplains(journal: seq<Entry>, n: nat, step: Step, due: seq<string>, rows: Store,
                                          trails: seq<Store>, s: Store, d: Store)
    requires n < |journal| && journal[n] == Operation(step, true) && Explained(journal, s) && step.ExpireDue?
    requires |trails| == |due| && forall j, k | 0 <= j < k < |due| :: due[j] != due[k]
    requires forall k | 0 <= k < |due| :: due[k] in rows.intents && due[k] in s.intents
    requires forall k | 0 <= k < |due| :: StillOpen(step, due[k], rows, s)
    requires CommitAll(s, ExpireParts(due, rows, trails)) == Some(d)
    ensures Explained(journal, d)
    decreases |due|
  {
    hide Explained, Accepts, Apply, ExpireOne, StillOpen;
    if due != [] {
      var parts := ExpireParts(due, rows, trails);
      var next := Apply(s, parts[0]);
      assert parts[1..] == ExpireParts(due[1..], rows, trails[1..]);
      OpenIs(step, due[0], rows, s);
      OneExpiry(journal, n, step, due[0], rows, trails[0], s);
      forall k | 0 <= k < |due[1..]|
        ensures due[1..][k] in rows.intents && due[1..][k] in next.intents && StillOpen(step, due[1..][k], rows, next)
      {
        assert due[1..][k] == due[k + 1];
        OpenStays(step, due[k + 1], rows, s, next);
      }
      ExpireExplains(journal, n, step, due[1..], rows, trails[1..], next, d);
    }
  }

  /** A listed payment that is due, and is as it was read. */
  predicate StillOpen(step: Step, iid: string, rows: Store, s: Store)
    requires step.ExpireDue?
  {
    iid in step.due && Due(s, step.business, step.now, iid) && iid in rows.intents
      && rows.intents[iid] == s.intents[iid]
  }

  lemma {:induction false} OpenIs(step: Step, iid: string, rows: Store, s: Store)
    requires step.ExpireDue? && StillOpen(step, iid, rows, s)
    ensures iid in step.due && Due(s, step.business, step.now, iid)
    ensures iid in rows.intents && iid in s.intents && rows.intents[iid] == s.intents[iid]
  {
  }

  lemma {:induction false} OpenStays(step: Step, iid: string, rows: Store, s: Store, next: Store)
    requires step.ExpireDue? && StillOpen(step, iid, rows, s)
    requires iid in s.intents && iid in next.intents && next.intents[iid] == s.intents[iid]
    ensures StillOpen(step, iid, rows, next)
  {
  }

  lemma {:induction false} EventAccounts(journal: seq<Entry>, n: nat, iid: string, s: Store, row: Intent, d: Store)
    requires n < |journal| && journal[n].Application? && journal[n].written && journal[n].found == Some(iid)
    requires iid in s.intents && AsCreated(s.intents[iid]) && IsAbout(journal[n].key, journal[n].event, s.intents[iid])
    requires Agrees(s.intents[iid], journal[n].event) && Reports(journal[n].event.kind, row.status)
    requires row == s.intents[iid].(status := row.status, version := row.version,
                                    captured := if row.status == Captured
                                      then ReportedAmount(s.intents[iid], journal[n].event)
                                                else s.intents[iid].captured)
    ensures RowAccounted(journal, n, iid, s, row, d)
  {
  }

  lemma {:induction false} PaymentEventExplains(journal: seq<Entry>, n: nat, iid: string, s: Store, d: Store)
    requires n < |journal| && journal[n].Application? && journal[n].written && journal[n].found == Some(iid)
    requires Explained(journal, s) && iid in s.intents && IsAbout(journal[n].key, journal[n].event, s.intents[iid])
    requires !IsRefundEvent(journal[n].event.kind)
    requires var t := ApplyPaymentEvent(iid, s.intents[iid], journal[n].event, MaxSequence(s.audit, iid)).txn;
             d.intents == Apply(s, t).intents && d.refunds == Apply(s, t).refunds
    ensures Explained(journal, d)
  {
    RowIsAsCreated(journal, iid, s);
    var event := journal[n].event;
    EveryKindReports(event.kind);
    hide Explained, AsCreated, RowAccounted, ApplyPaymentEvent, MaxSequence, IsAbout, EventTarget;
    var stored := MaxSequence(s.audit, iid);
    var t := ApplyPaymentEvent(iid, s.intents[iid], event, stored).txn;
    PaymentEventIs(iid, s.intents[iid], event, EventTarget(event.kind), stored);
    NothingWritten(s, t);
    if t.intents != map[] {
      WrittenIntent(s, t, iid, s.intents[iid], t.intents[iid].row);
      EventAccounts(journal, n, iid, s, d.intents[iid], d);
    }
    hide Apply;
    OneChange(journal, n, s, d, iid, "");
  }

  lemma {:induction false} SettlingAccounts(journal: seq<Entry>, n: nat, iid: string, rid: string, s: Store,
                                            row: Intent, d: Store)
    requires n < |journal| && journal[n].Application? && journal[n].written && journal[n].found == Some(iid)
    requires journal[n].foundRefund == Some(rid) && rid in d.refunds && d.refunds[rid].intent == iid
    requires iid in s.intents && AsCreated(s.intents[iid]) && IsAbout(journal[n].key, journal[n].event, s.intents[iid])
    requires || row == s.intents[iid].(reserved := row.reserved, version := row.version)
             || (journal[n].event.kind == RefundSucceededEvent && row.status in {PartiallyRefunded, Refunded}
                 && row == s.intents[iid].(refunded := row.refunded, status := row.status, version := row.version))
    ensures RowAccounted(journal, n, iid, s, row, d)
  {
  }

  lemma {:induction false} SettlementAccounts(e: Entry, rid: string, read: Refund, r: Refund)
    requires e.Application? && e.written && e.found == Some(read.intent) && e.foundRefund == Some(rid)
    requires IsRefundEvent(e.event.kind) && e.key.business == read.business && AsRequested(read)
    requires read.providerRefund.Some? && read.providerRefund == e.event.providerRefund
    requires r == read.(version := r.version,
                        status := if e.event.kind == RefundSucceededEvent then RefundSucceeded else RefundFailed)
    ensures RefundCause(e, rid, r) && AsRequested(r) && r.intent == read.intent
  {
  }

  lemma {:induction false} RefundEventExplains(journal: seq<Entry>, n: nat, iid: string, rid: string, s: Store,
                                               d: Store)
    requires n < |journal| && journal[n].Application? && journal[n].written && journal[n].found == Some(iid)
    requires journal[n].foundRefund == Some(rid) && rid in s.refunds && s.refunds[rid].intent == iid
    requires s.refunds[rid].business == journal[n].key.business && s.refunds[rid].providerRefund.Some?
    requires s.refunds[rid].providerRefund == journal[n].event.providerRefund
    requires Explained(journal, s) && MoneyAgrees(s) && iid in s.intents
    requires IsAbout(journal[n].key, journal[n].event, s.intents[iid]) && IsRefundEvent(journal[n].event.kind)
    requires var stored := MaxSequence(s.audit, iid);
             var a := ApplyRefundEvent(iid, s.intents[iid], rid, s.refunds[rid], journal[n].event, stored, stored);
             (a.status == Ignored ==> a.txn == NOTHING)
             && d.intents == Apply(s, a.txn).intents && d.refunds == Apply(s, a.txn).refunds
    ensures Explained(journal, d)
  {
    RowIsAsCreated(journal, iid, s);
    RefundIsAsRequested(journal, rid, s);
    var event := journal[n].event;
    var r := s.refunds[rid];
    assert r.amount > 0;
    hide Explained, AsCreated, AsRequested, RowAccounted, RefundCause, ApplyRefundEvent, MaxSequence, IsAbout,
      MoneyAgrees,
      PaymentTransitions;
    var stored := MaxSequence(s.audit, iid);
    var a := ApplyRefundEvent(iid, s.intents[iid], rid, r, event, stored, stored);
    RefundEventIs(iid, s.intents[iid], rid, r, event, stored, stored);
    NothingWritten(s, a.txn);
    if a.txn.refunds != map[] {
      WrittenRefund(s, a.txn, rid, r, a.txn.refunds[rid].row);
      WrittenIntent(s, a.txn, iid, s.intents[iid], a.txn.intents[iid].row);
    }
    hide Apply;
    if a.txn.refunds != map[] {
      SettlementAccounts(journal[n], rid, r, d.refunds[rid]);
      SettlingAccounts(journal, n, iid, rid, s, d.intents[iid], d);
    }
    OneChange(journal, n, s, d, iid, rid);
  }

  // ------------------------------------------------------------------- every run

  /** The inbox plays no part in it. */
  lemma {:induction false} ExplainedLedger(journal: seq<Entry>, s: Store, d: Store)
    requires d.intents == s.intents && d.refunds == s.refunds
    ensures Explained(journal, s) ==> Explained(journal, d)
  {
    if Explained(journal, s) {
      hide CaptureCause, RefundCause, AsCreated, AsRequested;
      forall iid | iid in d.intents ensures PaymentExplained(journal, iid, d.intents[iid], d) {
        assert PaymentExplained(journal, iid, s.intents[iid], s);
        var n :| 0 <= n < |journal| && StatusCause(journal[n], iid, s.intents[iid], s);
        StatusCauseLasts(journal[n], iid, s.intents[iid], s.intents[iid], s, d);
      }
      forall rid | rid in d.refunds ensures RefundExplained(journal, rid, d.refunds[rid]) {
        assert RefundExplained(journal, rid, s.refunds[rid]);
      }
    }
  }

  lemma {:induction false} LegalMoney(s: Store)
    requires Inv(s)
    ensures MoneyAgrees(s)
  {
    hide ForeignKeys, UniqueIntents, UniqueRefunds, UniqueSequences, RefundInv, Total, ReplayPayment;
    forall i | i in s.intents && s.intents[i].status in {Created, Pending, RequiresAction, Authorized}
      ensures s.intents[i].captured == 0
    {
      assert IntentInv(s, i);
    }
  }

  /** An operation that writes. */
  lemma {:induction false} OperationExplains(journal: seq<Entry>, n: nat, step: Step, s: Store, d: Store)
    requires n < |journal| && journal[n] == Operation(step, true) && Explained(journal, s) && MoneyAgrees(s)
    requires CommitAll(s, OperationAlone(step, s)) == Some(d)
    ensures Explained(journal, d)
  {
    hide Explained, CreatePlan, CheckoutPlan, CancelPlan, ReservePlan, RecordPlan, MoneyAgrees, ExpireParts, Due;
    if OperationAlone(step, s) != [] {
      match step
      case CreateIntent(_, _, _, _, _, _, _) => CreateExplains(journal, n, step, s, d);
      case RequestCheckout(_, _, _, _, _) => CheckoutExplains(journal, n, step, s, d);
      case CancelPayment(_, _, _, _, _) => CancelExplains(journal, n, step, s, d);
      case ReserveRefund(_, _, _, _, _, _, _) => ReserveExplains(journal, n, step, s, d);
      case RecordRefund(_, _, _, _, _, _, _) => RecordExplains(journal, n, step, s, d);
      case ExpireDue(_, _, _, _, _) => ExpireAllExplains(journal, n, step, s, d);
      case _ =>
    }
  }

  lemma {:induction false} ExpireAllExplains(journal: seq<Entry>, n: nat, step: Step, s: Store, d: Store)
    requires n < |journal| && journal[n] == Operation(step, true) && Explained(journal, s) && step.ExpireDue?
    requires CommitAll(s, OperationAlone(step, s)) == Some(d)
    ensures Explained(journal, d)
  {
    hide Explained, ExpireParts, CommitAll;
    if AllDue(s, step.business, step.now, step.due) {
      forall k | 0 <= k < |step.due| ensures StillOpen(step, step.due[k], s, s) {
      }
      ExpireExplains(journal, n, step, step.due, s, Same(s, |step.due|), s, d);
    } else {
      NothingCommits(s);
    }
  }

  lemma {:induction false} LedgerIsLegal(c: Store)
    requires Inv(c)
    ensures Inv(LedgerOf(c))
  {
    hide Constraints, LedgerInv;
    InboxIndependent(c, map[]);
  }

  lemma {:induction false} AboutNamed(s: Store, key: EventKey, event: Event, found: Option<string>)
    requires FindsPayment(s, key, event, found) && found.Some?
    ensures found.value in s.intents && IsAbout(key, event, s.intents[found.value])
  {
  }

  lemma {:induction false} RefundEventCase(journal: seq<Entry>, n: nat, s: Store, d: Store)
    requires n < |journal| && journal[n].Application? && journal[n].written && Explained(journal, s) && Inv(s)
    requires var e := journal[n];
             && FindsPayment(s, e.key, e.event, e.found) && FindsRefund(s, e.key, e.event, e.found, e.foundRefund)
             && e.found.Some? && e.foundRefund.Some? && IsRefundEvent(e.event.kind)
             && var iid, rid := e.found.value, e.foundRefund.value;
                var stored := MaxSequence(s.audit, iid);
                var t := ApplyRefundEvent(iid, s.intents[iid], rid, s.refunds[rid], e.event, stored, stored).txn;
                Accepts(s, t) && d == Apply(s, t)
    ensures Explained(journal, d)
  {
    hide Explained, ApplyRefundEvent, Inv, Past, Accepts, IsAbout, Apply, MaxSequence, MoneyAgrees, FindsPayment,
      FindsRefund;
    var e := journal[n];
    var iid, rid := e.found.value, e.foundRefund.value;
    AboutNamed(s, e.key, e.event, e.found);
    NamedRefundIs(s, e.key, e.event, e.found, e.foundRefund);
    LegalMoney(s);
    SelfIsPast(s);
    HalfAppliedNeverCommits(s, iid, rid, s, s, s, s, e.event);
    RefundEventExplains(journal, n, iid, rid, s, d);
  }

  lemma {:induction false} PaymentEventCase(journal: seq<Entry>, n: nat, s: Store, d: Store)
    requires n < |journal| && journal[n].Application? && journal[n].written && Explained(journal, s)
    requires var e := journal[n];
             && FindsPayment(s, e.key, e.event, e.found) && e.found.Some? && !IsRefundEvent(e.event.kind)
             && var iid := e.found.value;
                d == Apply(s, ApplyPaymentEvent(iid, s.intents[iid], e.event, MaxSequence(s.audit, iid)).txn)
    ensures Explained(journal, d)
  {
    var e := journal[n];
    AboutNamed(s, e.key, e.event, e.found);
    hide Explained, ApplyPaymentEvent, IsAbout, Apply, MaxSequence, FindsPayment;
    PaymentEventExplains(journal, n, e.found.value, s, d);
  }

  /** An event that writes. */
  lemma {:induction false} EventExplains(journal: seq<Entry>, n: nat, s: Store, d: Store)
    requires n < |journal| && journal[n].Application? && journal[n].written && Explained(journal, s) && Inv(s)
    requires var e := journal[n];
             var t := EventAlone(s, e.key, e.event, e.found, e.foundRefund); Accepts(s, t) && d == Apply(s, t)
    ensures Explained(journal, d)
  {
    hide Explained, ApplyPaymentEvent, ApplyRefundEvent, Inv, Accepts, Apply, MaxSequence;
    var e := journal[n];
    NothingApplied(s);
    if LooksUp(s, e.key, e.event, e.found, e.foundRefund) && e.found.Some? {
      if !IsRefundEvent(e.event.kind) {
        PaymentEventCase(journal, n, s, d);
      } else if e.foundRefund.Some? {
        RefundEventCase(journal, n, s, d);
      }
    }
  }

  lemma {:induction false} NothingApplied(s: Store)
    ensures Apply(s, NOTHING) == s
  {
  }

  lemma {:induction false} SelfIsPast(s: Store)
    requires Inv(s)
    ensures Past(s, s)
  {
    hide Inv, Extends;
    SelfFollows(s);
  }

  /** One accepted step, on the ledgers before and after it. */
  lemma {:induction false} EntryExplains(journal: seq<Entry>, e: Entry, s: Store, d: Store)
    requires Explained(journal, s) && Inv(s) && CommitAll(s, Alone(e, s)) == Some(d)
    ensures Explained(journal + [e], d)
  {
    hide Explained, Inv, EventAlone, OperationAlone, Accepts;
    MoreEntries(journal, e, s);
    LegalMoney(s);
    if e.written {
      if e.Application? {
        OneTxn(s, Alone(e, s), d);
        EventExplains(journal + [e], |journal|, s, d);
      } else {
        OperationExplains(journal + [e], |journal|, e.step, s, d);
      }
    }
  }

  /** The step's entry, on the ledgers before and after it. */
  lemma {:induction false} EntryStep(w: World, step: Step, e: Entry, d: Store)
    requires WorldInv(w) && Explained(w.journal, LedgerOf(Last(w))) && Committing(w, step)
    requires JournalEntry(w, step, StepPlan(w, step).parts) == [e]
    requires d == CommitAll(Last(w), StepPlan(w, step).parts).value
    ensures Explained(w.journal + [e], LedgerOf(d))
  {
    assert w.history != [];
    hide StepPlan, CommitAll, LedgerOf, WorldInv, Explained, Inv, Alone, Past;
    ReadsArePast(w, 0);
    LedgerIsLegal(Last(w));
    EntryAlone(w, step, e);
    EntryExplains(w.journal, e, LedgerOf(Last(w)), LedgerOf(d));
  }

  lemma {:induction false} NextExplained(w: World, step: Step)
    requires WorldInv(w) && Explained(w.journal, LedgerOf(Last(w)))
    ensures Explained(Next(w, step).journal, LedgerOf(Last(Next(w, step))))
  {
    assert w.history != [];
    hide Next, StepPlan, CommitAll, LedgerOf, JournalEntry, WorldInv, Committing, Last, Explained;
    NextEnds(w, step);
    if Committing(w, step) {
      CommittingGives(w, step);
      var more := JournalEntry(w, step, StepPlan(w, step).parts);
      EntriesOf(w, step);
      if more == [] {
        assert w.journal + [] == w.journal;
        InboxStepsKeepLedger(w, step);
      } else {
        assert more == [more[0]];
        EntryStep(w, step, more[0], CommitAll(Last(w), StepPlan(w, step).parts).value);
      }
    }
  }

  lemma {:induction false} EntriesOf(w: World, step: Step)
    requires w.history != [] && StepPlan(w, step).Write?
    ensures |JournalEntry(w, step, StepPlan(w, step).parts)| <= 1
    ensures JournalEntry(w, step, StepPlan(w, step).parts) == [] ==> step.ReceiveEvent? || step.MarkFailed?
  {
    hide StepPlan;
  }

  lemma {:induction false} RunExplained(steps: seq<Step>)
    ensures Explained(After(steps).journal, LedgerOf(Last(After(steps))))
    decreases |steps|
  {
    hide Next, LedgerOf, WorldInv, Explained;
    if steps == [] {
      EmptyExplained();
    } else {
      RunExplained(steps[..|steps| - 1]);
      EveryRunKeepsInvariant(steps[..|steps| - 1]);
      NextExplained(After(steps[..|steps| - 1]), steps[|steps| - 1]);
    }
  }

  lemma {:induction false} EmptyExplained()
    ensures Explained([], LedgerOf(EMPTY))
  {
  }

  lemma {:induction false} StateExplained(steps: seq<Step>)
    ensures Explained(After(steps).journal, Last(After(steps)))
  {
    hide Explained, After;
    RunExplained(steps);
    ExplainedLedger(After(steps).journal, LedgerOf(Last(After(steps))), Last(After(steps)));
  }

  // ------------------------------------------------------------------- theorems

  /** Over all runs: money counts as captured only as it was reported, by an accepted capture event of exactly that
      amount (or of the payment's, when it names none) or by a checkout answer. */
  lemma {:induction false} CapturesAreReported(steps: seq<Step>, iid: string)
    requires iid in Last(After(steps)).intents && Last(After(steps)).intents[iid].captured != 0
    ensures var journal := After(steps).journal;
            exists n | 0 <= n < |journal| :: CaptureCause(journal[n], iid, Last(After(steps)).intents[iid])
  {
    hide CaptureCause, StatusCause, AsCreated, After;
    StateExplained(steps);
    assert PaymentExplained(After(steps).journal, iid, Last(After(steps)).intents[iid], Last(After(steps)));
  }

  /** Over all runs: every payment's status was reported or decided by an accepted entry. A cancellation was confirmed
      by the provider that knows the payment, an expiry had come, and money was paid back by a refund that succeeded. */
  lemma {:induction false} StatusHasACause(steps: seq<Step>, iid: string)
    requires iid in Last(After(steps)).intents
    ensures var w := After(steps);
            exists n | 0 <= n < |w.journal| :: StatusCause(w.journal[n], iid, Last(w).intents[iid], Last(w))
  {
    hide CaptureCause, StatusCause, AsCreated, After;
    StateExplained(steps);
    assert PaymentExplained(After(steps).journal, iid, Last(After(steps)).intents[iid], Last(After(steps)));
  }

  /** Over all runs: every payment has the reference, provider, amount and currency it was created with. */
  lemma {:induction false} PaymentsAreAsCreated(steps: seq<Step>, iid: string)
    requires iid in Last(After(steps)).intents
    ensures AsCreated(Last(After(steps)).intents[iid])
  {
    hide AsCreated, After;
    StateExplained(steps);
    RowIsAsCreated(After(steps).journal, iid, Last(After(steps)));
  }

  /** Over all runs: every refund is of the payment it was asked for, and of exactly the requested amount if one was
      named. */
  lemma {:induction false} RefundsAreAsRequested(steps: seq<Step>, rid: string)
    requires rid in Last(After(steps)).refunds
    ensures AsRequested(Last(After(steps)).refunds[rid])
  {
    hide AsRequested, After;
    StateExplained(steps);
    RefundIsAsRequested(After(steps).journal, rid, Last(After(steps)));
  }

  /** Over all runs: every refund's outcome was reported, by the provider's answer under the name stored, or by an
      event. */
  lemma {:induction false} RefundHasACause(steps: seq<Step>, rid: string)
    requires rid in Last(After(steps)).refunds
    ensures var w := After(steps);
            exists n | 0 <= n < |w.journal| :: RefundCause(w.journal[n], rid, Last(w).refunds[rid])
  {
    hide RefundCause, AsRequested, After;
    StateExplained(steps);
    assert RefundExplained(After(steps).journal, rid, Last(After(steps)).refunds[rid]);
  }

  // -------------------------------------------------------------------- the trail

  /** Who acts in a step. */
  function Actor(step: Step): AuditSource {
    if step.AttemptEvent? then ProviderEvent else if step.ExpireDue? then System else Api
  }

  /** The refund that a step is about; of events, only refund events are about one. */
  function RefundActedOn(w: World, step: Step): Option<string>
    requires w.history != []
  {
    match step
    case ReserveRefund(_, rid, _, _, _, _, _) => Some(rid)
    case RecordRefund(_, rid, _, _, _, _, _) => Some(rid)
    case AttemptEvent(key, _, inboxAt, _, foundRefund, _, _, _, _) =>
      var inbox := Seen(w, inboxAt).inbox;
      if key in inbox && IsRefundEvent(inbox[key].event.kind) then foundRefund else None
    case _ => None
  }

  predicate Signed(rows: seq<AuditRow>, source: AuditSource, refund: Option<string>) {
    forall k | 0 <= k < |rows| :: rows[k].source == source && rows[k].refund == refund
  }

  lemma {:induction false} EventIsSigned(event: Event, found: Option<string>, foundRefund: Option<string>, rows: Store,
                                         refunds: Store, trail: Store, trailAgain: Store)
    requires found.Some? ==> found.value in rows.intents
    requires foundRefund.Some? ==> foundRefund.value in refunds.refunds
    ensures Signed(ApplyEvent(event, found, foundRefund, rows, refunds, trail, trailAgain).txn.audits, ProviderEvent,
                   if IsRefundEvent(event.kind) then foundRefund else None)
  {
    hide MaxSequence, PaymentTransitions, RefundTransitions;
  }

  lemma {:induction false} RecordIsSigned(business: string, rid: string, refunds: Store, rows: Store, trail: Store,
                                          trailAgain: Store, reply: RefundReply)
    requires RecordPlan(business, rid, refunds, rows, trail, trailAgain, reply).Write?
    ensures Signed(RecordPlan(business, rid, refunds, rows, trail, trailAgain, reply).parts[0].audits, Api, Some(rid))
  {
    hide MaxSequence, PaymentTransitions, RefundTransitions;
  }

  lemma {:induction false} OthersAreSigned(w: World, step: Step, k: nat)
    requires w.history != [] && StepPlan(w, step).Write? && k < |StepPlan(w, step).parts|
    requires !step.AttemptEvent? && !step.RecordRefund?
    ensures Signed(StepPlan(w, step).parts[k].audits, Actor(step), RefundActedOn(w, step))
  {
    hide MaxSequence, PaymentTransitions, Seen, ValidRequest, IntentKeyUsed, RefundKeyUsed, ValidCheckout, CheckedOut,
      DueList;
  }

  /** The audit trail names who acted, and the refund that was acted on: the API, the provider's events, or the
      system. */
  lemma {:induction false} AuditIsSigned(w: World, step: Step, k: nat)
    requires w.history != [] && StepPlan(w, step).Write? && k < |StepPlan(w, step).parts|
    ensures Signed(StepPlan(w, step).parts[k].audits, Actor(step), RefundActedOn(w, step))
  {
    hide StepPlan, RecordPlan, AttemptPlan, Signed, Seen;
    if step.AttemptEvent? {
      AttemptPlanOf(w, step);
      SinglePart(w, step);
      AttemptIsSigned(step, Seen(w, step.inboxAt), Seen(w, step.rowAt), Seen(w, step.refundAt), Seen(w, step.trailAt),
                      Seen(w, step.trailAgainAt));
    } else if step.RecordRefund? {
      RecordPlanOf(w, step);
      SinglePart(w, step);
      RecordIsSigned(step.business, step.rid, Seen(w, step.refundAt), Seen(w, step.rowAt), Seen(w, step.trailAt),
                     Seen(w, step.trailAgainAt), step.reply);
    } else {
      OthersAreSigned(w, step, k);
    }
  }

  lemma {:induction false} AttemptIsSigned(step: Step, inbox: Store, rows: Store, refunds: Store, trail: Store,
                                           trailAgain: Store)
    requires step.AttemptEvent?
    ensures var p := AttemptPlan(step.eventKey, step.first, inbox, step.found, step.foundRefund, rows, refunds, trail,
                                 trailAgain);
            p.Write? ==>
              step.eventKey in inbox.inbox
              && Signed(p.parts[0].audits, ProviderEvent,
                        if IsRefundEvent(inbox.inbox[step.eventKey].event.kind) then step.foundRefund else None)
  {
    hide Signed, ApplyEvent, Retryable;
    var p := AttemptPlan(step.eventKey, step.first, inbox, step.found, step.foundRefund, rows, refunds, trail,
                         trailAgain);
    if p.Write? {
      EventIsSigned(inbox.inbox[step.eventKey].event, step.found, step.foundRefund, rows, refunds, trail, trailAgain);
    }
  }
}
