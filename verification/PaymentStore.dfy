/** The payment tables, the constraints their commits are judged against, and the atomic commit. */
module PaymentStore {
  import opened Tables
  import opened PaymentStates

  const MAX_AMOUNT_MINOR: int := 1_000_000_000_000

  /** The creation parameters. The source stores their SHA-256 as a fingerprint; here the parameters stand for it. */
  datatype CreateRequest = CreateRequest(
    reference: string, provider: string, amount: int, currency: string,
    description: string, customer: Option<string>, expiresAt: Option<int>)

  datatype RefundRequest = RefundRequest(intent: string, amount: Option<int>, reason: Option<string>)

  datatype Intent = Intent(
    business: string, reference: string, provider: string, providerPayment: Option<string>,
    amount: int, currency: string, captured: int, reserved: int, refunded: int,
    key: string, fingerprint: CreateRequest, status: PaymentStatus, expiresAt: Option<int>, version: nat)

  datatype Refund = Refund(
    business: string, intent: string, providerRefund: Option<string>, amount: int,
    key: string, fingerprint: RefundRequest, status: RefundStatus, version: nat)

  datatype AuditSource = Api | ProviderEvent | System

  /** One status change: of the payment itself, or of one of its refunds. `from` is None when the row is created. */
  datatype StatusChange =
    | PaymentChange(paymentFrom: Option<PaymentStatus>, paymentTo: PaymentStatus)
    | RefundChange(refundFrom: Option<RefundStatus>, refundTo: RefundStatus)

  datatype AuditRow = AuditRow(intent: string, refund: Option<string>, sequence: nat, change: StatusChange,
                               source: AuditSource)

  datatype EventKind =
    | PaymentPending | PaymentRequiresAction | PaymentAuthorized | PaymentCaptured
    | PaymentFailed | PaymentCancelled | PaymentExpired | RefundSucceededEvent | RefundFailedEvent

  datatype Event = Event(
    kind: EventKind, providerPayment: string, amount: Option<int>, currency: Option<string>,
      providerRefund: Option<string>)

  datatype EventKey = EventKey(business: string, provider: string, eventId: string)

  datatype InboxStatus = Received | Processed | Ignored | FailedAttempt

  /** The inbox row has no version column. */
  datatype InboxRow = InboxRow(event: Event, status: InboxStatus, attempts: nat)

  datatype Store = Store(
    intents: map<string, Intent>, refunds: map<string, Refund>, audit: seq<AuditRow>, inbox: map<EventKey, InboxRow>)

  const EMPTY: Store := Store(map[], map[], [], map[])

  /** What a session wants to write to one row: a new row, or changes to the row as it read it. */
  datatype Write<T> = Insert(row: T) | Update(read: T, row: T)

  datatype InboxWrite = NoInbox | InsertInbox(key: EventKey, row: InboxRow)
    | SetInbox(key: EventKey, status: InboxStatus, attempts: nat)

  datatype Txn = Txn(
    intents: map<string, Write<Intent>>, refunds: map<string, Write<Refund>>, audits: seq<AuditRow>, inbox: InboxWrite)

  // ------------------------------------------------------------ constraints

  predicate IntentCheck(i: Intent) {
    && 0 < i.amount <= MAX_AMOUNT_MINOR
    && |i.currency| == 3
    && 0 <= i.captured <= i.amount
    && 0 <= i.reserved <= i.captured
    && 0 <= i.refunded <= i.reserved
    && i.version >= 1
  }

  predicate RefundCheck(r: Refund) {
    0 < r.amount <= MAX_AMOUNT_MINOR && r.version >= 1
  }

  /** The three unique indexes on payment_intents, the last one partial. */
  predicate IntentsClash(a: Intent, b: Intent) {
    && a.business == b.business
    && (|| a.key == b.key
        || (a.provider == b.provider && a.providerPayment.Some? && a.providerPayment == b.providerPayment)
        || (a.reference == b.reference && Occupying(a.status) && Occupying(b.status)))
  }

  predicate RefundsClash(a: Refund, b: Refund) {
    a.business == b.business && (a.key == b.key || (a.providerRefund.Some? && a.providerRefund == b.providerRefund))
  }

  predicate RowChecks(s: Store) {
    && (forall i | i in s.intents :: IntentCheck(s.intents[i]))
    && (forall r | r in s.refunds :: RefundCheck(s.refunds[r]))
  }

  predicate ForeignKeys(s: Store) {
    && (forall r | r in s.refunds :: s.refunds[r].intent in s.intents)
    && (forall p | 0 <= p < |s.audit| :: s.audit[p].sequence >= 1 && s.audit[p].intent in s.intents)
  }

  predicate UniqueIntents(intents: map<string, Intent>) {
    forall i, j | i in intents && j in intents && i != j :: !IntentsClash(intents[i], intents[j])
  }

  predicate UniqueRefunds(refunds: map<string, Refund>) {
    forall q, r | q in refunds && r in refunds && q != r :: !RefundsClash(refunds[q], refunds[r])
  }

  predicate UniqueSequences(audit: seq<AuditRow>) {
    forall p, q | 0 <= p < q < |audit| :: audit[p].intent == audit[q].intent ==> audit[p].sequence != audit[q].sequence
  }

  /** Every CHECK, UNIQUE and foreign-key constraint of the four tables. */
  predicate Constraints(s: Store) {
    RowChecks(s) && ForeignKeys(s) && UniqueIntents(s.intents) && UniqueRefunds(s.refunds) && UniqueSequences(s.audit)
  }

  // ----------------------------------------------------------------- commit

  function StoredIntent(w: Write<Intent>): Intent {
    match w
    case Insert(row) => row.(version := 1)
    case Update(read, row) => row.(version := read.version + 1)
  }

  function StoredRefund(w: Write<Refund>): Refund {
    match w
    case Insert(row) => row.(version := 1)
    case Update(read, row) => row.(version := read.version + 1)
  }

  function StoredInbox(inbox: map<EventKey, InboxRow>, w: InboxWrite): map<EventKey, InboxRow> {
    match w
    case NoInbox => inbox
    case InsertInbox(key, row) => inbox[key := row]
    case SetInbox(key, status, attempts) =>
      if key in inbox then inbox[key := inbox[key].(status := status, attempts := attempts)] else inbox
  }

  function Apply(s: Store, t: Txn): Store {
    Store(
      s.intents + map i | i in t.intents :: StoredIntent(t.intents[i]),
      s.refunds + map r | r in t.refunds :: StoredRefund(t.refunds[r]),
      s.audit + t.audits,
      StoredInbox(s.inbox, t.inbox))
  }

  /** An insert needs a free primary key; an update needs the version it read to be the stored one. */
  predicate IntentCurrent(s: Store, id: string, w: Write<Intent>) {
    match w
    case Insert(_) => id !in s.intents
    case Update(read, _) => id in s.intents && s.intents[id].version == read.version
  }

  predicate RefundCurrent(s: Store, id: string, w: Write<Refund>) {
    match w
    case Insert(_) => id !in s.refunds
    case Update(read, _) => id in s.refunds && s.refunds[id].version == read.version
  }

  predicate Current(s: Store, t: Txn) {
    && (forall i | i in t.intents :: IntentCurrent(s, i, t.intents[i]))
    && (forall r | r in t.refunds :: RefundCurrent(s, r, t.refunds[r]))
    && (t.inbox.InsertInbox? ==> t.inbox.key !in s.inbox)
  }

  predicate Accepts(s: Store, t: Txn) {
    Current(s, t) && Constraints(Apply(s, t))
  }

  /** One database transaction, flushed in parts: all of it is stored, or the store is left as it was. */
  function CommitAll(s: Store, parts: seq<Txn>): Option<Store>
    decreases |parts|
  {
    if parts == [] then Some(s)
    else if Accepts(s, parts[0]) then CommitAll(Apply(s, parts[0]), parts[1..])
    else None
  }

  /** The store after an attempted commit. */
  function Committed(s: Store, parts: seq<Txn>): Store {
    match CommitAll(s, parts)
    case Some(after) => after
    case None => s
  }

  lemma {:induction false} CommitOne(s: Store, t: Txn)
    ensures CommitAll(s, [t]) == if Accepts(s, t) then Some(Apply(s, t)) else None
    ensures Committed(s, [t]) == if Accepts(s, t) then Apply(s, t) else s
  {
    if Accepts(s, t) {
      assert [t][1..] == [];
      assert CommitAll(Apply(s, t), []) == Some(Apply(s, t));
    }
  }
}
