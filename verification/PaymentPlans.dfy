/** What each service operation decides to write, as a function of the rows it read.

  Every `Store` argument is the committed state one particular read saw; the reads of one operation may see
  different states. Nothing here assumes that any of them is still the current one. */
module PaymentPlans {
  import opened Tables
  import opened PaymentStates
  import opened PaymentStore
  import opened AuditTrail

  const DAY: int := 86_400_000_000
  const MAX_INTENT_LIFETIME: int := 30 * DAY
  const MAX_WEBHOOK_ATTEMPTS: nat := 10
  const MAX_PROVIDER_IDENTIFIER_LENGTH: nat := 255
  const SUPPORTED_CURRENCIES: set<string> := {"ILS", "USD", "EUR", "GBP", "CHF", "CAD", "AUD", "JPY", "JOD"}

  datatype Answer =
    | Saved | NotFound | Validation | StateError | LimitExceeded | Replayed | IdempotencyConflict
    | DuplicateReference | ConcurrentUpdate | ProviderFailed | Unchanged

  /** Either nothing is written, or one transaction is attempted (its parts are flushed together). */
  datatype Plan = Stop(answer: Answer) | Write(parts: seq<Txn>)

  // ------------------------------------------------- building blocks of a unit of work

  /** The session's copy of one payment row and the audit rows it has added so far. */
  datatype Work = Work(intent: Intent, added: seq<AuditRow>)

  /** The session's copy of a refund beside its payment; `raised` when the state machine refused a move half-way. */
  datatype RefundWork = RefundWork(raised: bool, refund: Refund, work: Work)

  function NextRow(iid: string, stored: nat, unflushed: nat, refund: Option<string>, change: StatusChange,
                   source: AuditSource): AuditRow {
    AuditRow(iid, refund, stored + unflushed + 1, change, source)
  }

  function Noted(iid: string, w: Work, stored: nat, refund: Option<string>, change: StatusChange,
                 source: AuditSource): Work {
    w.(added := w.added + [NextRow(iid, stored, |w.added|, refund, change, source)])
  }

  function Transition(iid: string, w: Work, target: PaymentStatus, stored: nat, refund: Option<string>,
                      source: AuditSource): Work {
    if CheckPayment(w.intent.status, target) == Change then
      Noted(iid, w.(intent := w.intent.(status := target)), stored, refund,
            PaymentChange(Some(w.intent.status), target), source)
    else w
  }

  function TransitionRefund(iid: string, rid: string, rw: RefundWork, target: RefundStatus, stored: nat,
                            source: AuditSource): RefundWork {
    if CheckRefund(rw.refund.status, target) == Change then
      RefundWork(rw.raised, rw.refund.(status := target),
                 Noted(iid, rw.work, stored, Some(rid), RefundChange(Some(rw.refund.status), target), source))
    else rw.(raised := rw.raised || CheckRefund(rw.refund.status, target) == Refused)
  }

  function RefundTarget(intent: Intent): PaymentStatus {
    if intent.refunded == intent.captured then Refunded else PartiallyRefunded
  }

  /** The payment's side of a completed refund: the money first, then the status move, which may be refused. */
  function CountRefund(iid: string, rid: string, rw: RefundWork, stored: nat, source: AuditSource): RefundWork {
    var counted := rw.work.(intent := rw.work.intent.(refunded := rw.work.intent.refunded + rw.refund.amount));
    var target := RefundTarget(counted.intent);
    RefundWork(rw.raised || CheckPayment(counted.intent.status, target) == Refused, rw.refund,
               Transition(iid, counted, target, stored, Some(rid), source))
  }

  function CompleteRefund(iid: string, rid: string, rw: RefundWork, stored: nat, storedAgain: nat,
                          source: AuditSource): RefundWork {
    var moved := TransitionRefund(iid, rid, rw, RefundSucceeded, stored, source);
    if CheckRefund(rw.refund.status, RefundSucceeded) == Change
    then CountRefund(iid, rid, moved, storedAgain, source) else moved
  }

  function FailRefund(iid: string, rid: string, rw: RefundWork, stored: nat, source: AuditSource): RefundWork {
    var moved := TransitionRefund(iid, rid, rw, RefundFailed, stored, source);
    if CheckRefund(rw.refund.status, RefundFailed) == Change then
      var intent := moved.work.intent;
      moved.(work := moved.work.(intent := intent.(reserved := intent.reserved - moved.refund.amount)))
    else moved
  }

  /** A row is updated only when a column changed. */
  function Dirty<T(==)>(id: string, read: T, row: T): map<string, Write<T>> {
    if read == row then map[] else map[id := Update(read, row)]
  }

  function IntentTxn(iid: string, read: Intent, w: Work): Txn {
    Txn(Dirty(iid, read, w.intent), map[], w.added, NoInbox)
  }

  function RefundTxn(iid: string, read: Intent, rid: string, refundRead: Refund, rw: RefundWork): Txn {
    Txn(Dirty(iid, read, rw.work.intent), Dirty(rid, refundRead, rw.refund), rw.work.added, NoInbox)
  }

  // ---------------------------------------------------------------- lookups

  predicate Owns(s: Store, business: string, iid: string) {
    iid in s.intents && s.intents[iid].business == business
  }

  predicate IntentKeyUsed(s: Store, business: string, key: string) {
    exists i | i in s.intents :: s.intents[i].business == business && s.intents[i].key == key
  }

  predicate IntentKeyMatches(s: Store, business: string, key: string, request: CreateRequest) {
    exists i | i in s.intents ::
      s.intents[i].business == business && s.intents[i].key == key && s.intents[i].fingerprint == request
  }

  predicate RefundKeyUsed(s: Store, business: string, key: string) {
    exists r | r in s.refunds :: s.refunds[r].business == business && s.refunds[r].key == key
  }

  predicate RefundKeyMatches(s: Store, business: string, key: string, request: RefundRequest) {
    exists r | r in s.refunds ::
      s.refunds[r].business == business && s.refunds[r].key == key && s.refunds[r].fingerprint == request
  }

  // ------------------------------------------------------------------ create

  predicate ValidAmount(amount: int) {
    0 < amount <= MAX_AMOUNT_MINOR
  }

  predicate ValidRequest(request: CreateRequest, now: int) {
    && ValidAmount(request.amount)
    && request.currency in SUPPORTED_CURRENCIES
    && (request.expiresAt.Some? ==> now < request.expiresAt.value <= now + MAX_INTENT_LIFETIME)
  }

  function NewIntent(business: string, key: string, request: CreateRequest): Intent {
    Intent(business, request.reference, request.provider, None, request.amount, request.currency,
           0, 0, 0, key, request, Created, request.expiresAt, 1)
  }

  function CreatePlan(business: string, key: string, iid: string, request: CreateRequest, now: int, keys: Store,
                      trail: Store): (p: Plan)
    ensures p.Write? ==> |p.parts| == 1
  {
    if !ValidRequest(request, now) then Stop(Validation)
    else if IntentKeyUsed(keys, business, key) then
      Stop(if IntentKeyMatches(keys, business, key, request) then Replayed else IdempotencyConflict)
    else
      var row := NewIntent(business, key, request);
      var w := Noted(iid, Work(row, []), MaxSequence(trail.audit, iid), None, PaymentChange(None, Created), Api);
      Write([Txn(map[iid := Insert(row)], map[], w.added, NoInbox)])
  }

  // ------------------------------------------------------- checkout and cancel

  datatype CheckoutReply =
    | CheckoutError
    | CheckoutResult(providerPayment: string, status: PaymentStatus, captured: int, expiresAt: Option<int>)

  predicate ValidCheckout(intent: Intent, reply: CheckoutReply) {
    && reply.CheckoutResult?
    && 0 < |reply.providerPayment| <= MAX_PROVIDER_IDENTIFIER_LENGTH
    && if reply.status == Captured then ValidAmount(reply.captured) && reply.captured <= intent.amount
       else reply.captured == 0
  }

  function CheckedOut(intent: Intent, reply: CheckoutReply): Intent
    requires reply.CheckoutResult?
  {
    intent.(providerPayment := Some(reply.providerPayment),
            expiresAt := if reply.expiresAt.Some? then reply.expiresAt else intent.expiresAt,
            captured := if reply.status == Captured then reply.captured else intent.captured)
  }

  function CheckoutPlan(business: string, iid: string, rows: Store, trail: Store, reply: CheckoutReply): (p: Plan)
    ensures p.Write? ==> |p.parts| == 1
  {
    if !Owns(rows, business, iid) then Stop(NotFound)
    else
      var intent := rows.intents[iid];
      if intent.status != Created then
        Stop(if intent.providerPayment.Some? && intent.providerPayment.value != ""
             && intent.status in {Pending, RequiresAction}
             then Replayed else StateError)
      else if reply.CheckoutError? then Stop(ProviderFailed)
      else if !ValidCheckout(intent, reply) then Stop(Validation)
      else if CheckPayment(Created, reply.status) == Refused then Stop(StateError)
      else
        var w := Work(CheckedOut(intent, reply), []);
        Write([IntentTxn(iid, intent, Transition(iid, w, reply.status, MaxSequence(trail.audit, iid), None, Api))])
  }

  datatype CancelReply = CancelError | CancelResult(providerPayment: string, status: PaymentStatus)

  function CancelPlan(business: string, iid: string, rows: Store, trail: Store, reply: CancelReply): (p: Plan)
    ensures p.Write? ==> |p.parts| == 1
  {
    if !Owns(rows, business, iid) then Stop(NotFound)
    else
      var intent := rows.intents[iid];
      if intent.status == Cancelled then Stop(Unchanged)
      else if intent.status !in CANCELLABLE then Stop(StateError)
      else if intent.providerPayment.Some? && intent.providerPayment.value != ""
        && reply.CancelError? then Stop(ProviderFailed)
      else if intent.providerPayment.Some? && intent.providerPayment.value != "" &&
              (reply.providerPayment != intent.providerPayment.value || reply.status != Cancelled) then Stop(StateError)
      else
        Write([IntentTxn(iid, intent,
                         Transition(iid, Work(intent, []), Cancelled, MaxSequence(trail.audit, iid), None, Api))])
  }

  // ------------------------------------------------------------------ refunds

  function NewRefund(business: string, key: string, amount: int, request: RefundRequest): Refund {
    Refund(business, request.intent, None, amount, key, request, RefundPending, 1)
  }

  /** Phase 1: check against the payment as read, and reserve the amount. */
  function ReservePlan(business: string, rid: string, key: string, request: RefundRequest,
                       keys: Store, rows: Store, trail: Store): (p: Plan)
    ensures p.Write? ==> |p.parts| == 1
  {
    var iid := request.intent;
    if request.amount.Some? && !ValidAmount(request.amount.value) then Stop(Validation)
    else if RefundKeyUsed(keys, business, key) then
      Stop(if RefundKeyMatches(keys, business, key, request) then Replayed else IdempotencyConflict)
    else if !Owns(rows, business, iid) then Stop(NotFound)
    else
      var intent := rows.intents[iid];
      var available := intent.captured - intent.reserved;
      var amount := if request.amount.Some? then request.amount.value else available;
      if intent.status !in REFUNDABLE then Stop(StateError)
      else if amount <= 0 || amount > available then Stop(LimitExceeded)
      else
        var w := Noted(iid, Work(intent.(reserved := intent.reserved + amount), []), MaxSequence(trail.audit, iid),
                       Some(rid), RefundChange(None, RefundPending), Api);
        Write([Txn(map[iid := Update(intent, w.intent)], map[rid := Insert(NewRefund(business, key, amount, request))],
                   w.added, NoInbox)])
  }

  /** The provider's answer to one refund call, which is keyed by the refund's id. */
  datatype RefundReply = Unreachable | Declined | Reported(providerRefund: string, status: RefundStatus)

  /** Phase 2: record the provider's answer on the refund and payment as read. */
  function RecordPlan(business: string, rid: string, refunds: Store, rows: Store, trail: Store, trailAgain: Store,
                      reply: RefundReply): (p: Plan)
    ensures p.Write? ==> |p.parts| == 1
  {
    if rid !in refunds.refunds || refunds.refunds[rid].business != business then Stop(NotFound)
    else
      var read := refunds.refunds[rid];
      var iid := read.intent;
      if read.status != RefundPending then Stop(Unchanged)
      else if !Owns(rows, business, iid) then Stop(NotFound)
      else
        var intent := rows.intents[iid];
        var stored, storedAgain := MaxSequence(trail.audit, iid), MaxSequence(trailAgain.audit, iid);
        var start := RefundWork(false, read, Work(intent, []));
        match reply
        case Unreachable => Stop(ProviderFailed)
        case Declined => Write([RefundTxn(iid, intent, rid, read, FailRefund(iid, rid, start, stored, Api))])
        case Reported(ref, status) =>
          var named := start.(refund := read.(providerRefund := Some(ref)));
          var done :=
            if status == RefundSucceeded then CompleteRefund(iid, rid, named, stored, storedAgain, Api)
            else if status == RefundFailed then FailRefund(iid, rid, named, stored, Api)
            else named;
          if done.raised then Stop(StateError) else Write([RefundTxn(iid, intent, rid, read, done)])
  }

  // ------------------------------------------------------------------- expiry

  predicate Due(s: Store, business: string, now: int, iid: string) {
    && Owns(s, business, iid)
    && s.intents[iid].expiresAt.Some?
    && s.intents[iid].expiresAt.value <= now
    && s.intents[iid].status in {Created, Pending, RequiresAction}
  }

  /** `due` is what the expiry query returned. */
  predicate DueList(s: Store, business: string, now: int, due: seq<string>) {
    && (forall k | 0 <= k < |due| :: Due(s, business, now, due[k]))
    && (forall i | i in s.intents && Due(s, business, now, i) :: i in due)
    && (forall j, k | 0 <= j < k < |due| :: due[j] != due[k])
  }

  function ExpireOne(iid: string, rows: Store, trail: Store): Txn
    requires iid in rows.intents
  {
    var intent := rows.intents[iid];
    IntentTxn(iid, intent, Transition(iid, Work(intent, []), Expired, MaxSequence(trail.audit, iid), None, System))
  }

  /** The audit number is looked up once per payment, so each look-up may see another state. */
  function ExpireParts(due: seq<string>, rows: Store, trails: seq<Store>): seq<Txn>
    requires forall k | 0 <= k < |due| :: due[k] in rows.intents
    requires |trails| == |due|
  {
    seq(|due|, k requires 0 <= k < |due| => ExpireOne(due[k], rows, trails[k]))
  }

  // ------------------------------------------------------------------ webhooks

  function EventTarget(kind: EventKind): PaymentStatus {
    match kind
    case PaymentPending => Pending
    case PaymentRequiresAction => RequiresAction
    case PaymentAuthorized => Authorized
    case PaymentFailed => Failed
    case PaymentCancelled => Cancelled
    case PaymentExpired => Expired
    case _ => Captured
  }

  predicate IsRefundEvent(kind: EventKind) {
    kind == RefundSucceededEvent || kind == RefundFailedEvent
  }

  predicate EventPayment(s: Store, key: EventKey, event: Event, iid: string) {
    && Owns(s, key.business, iid)
    && s.intents[iid].provider == key.provider
    && s.intents[iid].providerPayment == Some(event.providerPayment)
  }

  predicate EventRefund(s: Store, key: EventKey, event: Event, iid: string, rid: string) {
    && rid in s.refunds
    && s.refunds[rid].business == key.business
    && s.refunds[rid].intent == iid
    && event.providerRefund.Some? && event.providerRefund.value != ""
    && s.refunds[rid].providerRefund == event.providerRefund
  }

  /** What applying one event amounts to: the inbox status it earns and the ledger rows it writes. */
  datatype Applied = Applied(status: InboxStatus, txn: Txn)

  const NOTHING: Txn := Txn(map[], map[], [], NoInbox)

  function CapturedAmount(intent: Intent, event: Event): int {
    if event.amount.Some? then event.amount.value else intent.amount
  }

  function ApplyPaymentEvent(iid: string, intent: Intent, event: Event, stored: nat): (a: Applied)
    ensures a.txn.inbox == NoInbox
  {
    var target := EventTarget(event.kind);
    var captured := CapturedAmount(intent, event);
    if event.currency.Some? && event.currency.value != intent.currency then Applied(Ignored, NOTHING)
    else if target == Captured && !(0 < captured <= intent.amount) then Applied(Ignored, NOTHING)
    else if target == Captured && intent.captured != 0 && captured != intent.captured then Applied(Ignored, NOTHING)
    else
      match CheckPayment(intent.status, target)
      case Refused => Applied(Ignored, NOTHING)
      case Repeat => Applied(Processed, NOTHING)
      case Change =>
        var moved := Transition(iid, Work(intent, []), target, stored, None, ProviderEvent);
        var done := if target == Captured then moved.(intent := moved.intent.(captured := captured)) else moved;
        Applied(Processed, IntentTxn(iid, intent, done))
  }

  /** A refund event. When the state machine refuses a move, whatever was already changed is still in the session. */
  function ApplyRefundEvent(iid: string, intent: Intent, rid: string, refund: Refund, event: Event, stored: nat,
                            storedAgain: nat): (a: Applied)
    ensures a.txn.inbox == NoInbox
  {
    var start := RefundWork(false, refund, Work(intent, []));
    var done :=
      if event.kind == RefundSucceededEvent then CompleteRefund(iid, rid, start, stored, storedAgain, ProviderEvent)
      else FailRefund(iid, rid, start, stored, ProviderEvent);
    Applied(if done.raised then Ignored else Processed, RefundTxn(iid, intent, rid, refund, done))
  }

  /** `found` and `foundRefund` are what the two lookups returned. */
  function ApplyEvent(event: Event, found: Option<string>, foundRefund: Option<string>,
                      rows: Store, refunds: Store, trail: Store, trailAgain: Store): (a: Applied)
    ensures a.txn.inbox == NoInbox
    requires found.Some? ==> found.value in rows.intents
    requires foundRefund.Some? ==> foundRefund.value in refunds.refunds
  {
    if found.None? then Applied(Ignored, NOTHING)
    else
      var iid := found.value;
      var stored, storedAgain := MaxSequence(trail.audit, iid), MaxSequence(trailAgain.audit, iid);
      if IsRefundEvent(event.kind) then
        if foundRefund.None? then Applied(Ignored, NOTHING)
        else ApplyRefundEvent(iid, rows.intents[iid], foundRefund.value, refunds.refunds[foundRefund.value], event,
                              stored, storedAgain)
      else ApplyPaymentEvent(iid, rows.intents[iid], event, stored)
  }

  predicate Retryable(row: InboxRow) {
    row.status in {Received, FailedAttempt} && row.attempts < MAX_WEBHOOK_ATTEMPTS
  }
}
