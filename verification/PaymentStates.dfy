/** The payment and refund state machines. */
module PaymentStates {
  datatype PaymentStatus =
    | Created | Pending | RequiresAction | Authorized | Captured
    | Failed | Cancelled | PartiallyRefunded | Refunded | Expired

  datatype RefundStatus = RefundPending | RefundSucceeded | RefundFailed

  /** What a requested status change amounts to: a change, a repeat of the current status, or an error. */
  datatype Move = Change | Repeat | Refused

  const PRE_CAPTURE_EXITS: set<PaymentStatus> := {Failed, Cancelled, Expired}

  function PaymentTransitions(current: PaymentStatus): set<PaymentStatus> {
    match current
    case Created => {Pending, RequiresAction, Authorized, Captured} + PRE_CAPTURE_EXITS
    case Pending => {RequiresAction, Authorized, Captured} + PRE_CAPTURE_EXITS
    case RequiresAction => {Pending, Authorized, Captured} + PRE_CAPTURE_EXITS
    case Authorized => {Captured} + PRE_CAPTURE_EXITS
    case Captured => {PartiallyRefunded, Refunded}
    case PartiallyRefunded => {Refunded}
    case _ => {}
  }

  function RefundTransitions(current: RefundStatus): set<RefundStatus> {
    match current
    case RefundPending => {RefundSucceeded, RefundFailed}
    case _ => {}
  }

  function CheckPayment(current: PaymentStatus, target: PaymentStatus): Move {
    if current == target then Repeat else if target in PaymentTransitions(current) then Change else Refused
  }

  function CheckRefund(current: RefundStatus, target: RefundStatus): Move {
    if current == target then Repeat else if target in RefundTransitions(current) then Change else Refused
  }

  const CANCELLABLE: set<PaymentStatus> := {Created, Pending, RequiresAction, Authorized}
  const REFUNDABLE: set<PaymentStatus> := {Captured, PartiallyRefunded}

  /** Statuses that keep an external reference taken. */
  predicate Occupying(status: PaymentStatus) {
    status !in PRE_CAPTURE_EXITS
  }

  predicate Lateral(current: PaymentStatus, target: PaymentStatus) {
    (current == Pending && target == RequiresAction) || (current == RequiresAction && target == Pending)
  }

  /** How many forward moves a status still has before it. */
  function Rank(status: PaymentStatus): nat {
    match status
    case Created => 5
    case Pending => 4
    case RequiresAction => 4
    case Authorized => 3
    case Captured => 2
    case PartiallyRefunded => 1
    case _ => 0
  }

  /** `later` can be reached from `earlier` in some number of moves. */
  predicate Leads(earlier: PaymentStatus, later: PaymentStatus) {
    || earlier == later
    || Lateral(earlier, later)
    || (Rank(later) < Rank(earlier) &&
        match earlier
        case Captured => later in {PartiallyRefunded, Refunded}
        case PartiallyRefunded => later == Refunded
        case _ => true)
  }

  /** The payment table read by its targets: what may become each status. A payment can be cancelled exactly from the
      statuses that may become cancelled, and refunded from those that may become refunded. */
  lemma {:induction false} MovesInto(target: PaymentStatus, from: PaymentStatus)
    ensures CheckPayment(from, target) == Repeat <==> from == target
    ensures CheckPayment(from, target) == Change <==>
            match target
            case Created => false
            case Pending => from in {Created, RequiresAction}
            case RequiresAction => from in {Created, Pending}
            case Authorized => from in {Created, Pending, RequiresAction}
            case PartiallyRefunded => from == Captured
            case Refunded => from in {Captured, PartiallyRefunded}
            case _ => from in {Created, Pending, RequiresAction, Authorized}
    ensures from in CANCELLABLE <==> CheckPayment(from, Cancelled) == Change
    ensures from in REFUNDABLE <==> CheckPayment(from, Refunded) == Change
    ensures !Occupying(from) <==> from in {Failed, Cancelled, Expired}
  {
  }

  /** A refund is settled once. */
  lemma {:induction false} RefundMovesInto(target: RefundStatus, from: RefundStatus)
    ensures CheckRefund(from, target) == Repeat <==> from == target
    ensures CheckRefund(from, target) == Change <==> from == RefundPending && target in {RefundSucceeded, RefundFailed}
  {
  }

  /** The ranking measure: every move but the pending/requires_action swap goes strictly down, and swaps keep the
      rank. */
  lemma {:induction false} MovesDescend(current: PaymentStatus, target: PaymentStatus)
    ensures target in PaymentTransitions(current) ==>
              if Lateral(current, target) then Rank(target) == Rank(current) else Rank(target) < Rank(current)
  {
  }

  lemma {:induction false} MoveLeads(a: PaymentStatus, b: PaymentStatus)
    ensures b in PaymentTransitions(a) ==> Leads(a, b)
  {
  }

  /** `Leads` holds for no move and for one move, and composes. */
  lemma {:induction false} LeadsIsClosed(a: PaymentStatus, b: PaymentStatus, c: PaymentStatus)
    ensures Leads(a, a)
    ensures b in PaymentTransitions(a) ==> Leads(a, b)
    ensures Leads(a, b) && Leads(b, c) ==> Leads(a, c)
  {
    MoveLeads(a, b);
    hide PaymentTransitions;
  }

  /** Conversely, whatever a status leads to is reached by a first allowed move. */
  lemma {:induction false} LeadsIsReached(a: PaymentStatus, c: PaymentStatus)
    requires Leads(a, c) && a != c
    ensures exists b :: b in PaymentTransitions(a) && Leads(b, c)
  {
    if c in PaymentTransitions(a) {
      assert Leads(c, c);
    } else {
      assert Captured in PaymentTransitions(a) && Leads(Captured, c);
    }
  }

  /** A status once left is never entered again, except that pending and requires_action may alternate. */
  lemma {:induction false} ReentryOnlyLateral(target: PaymentStatus, now: PaymentStatus)
    requires Leads(target, now)
    ensures target in PaymentTransitions(now) <==> Lateral(now, target)
  {
  }

  /** No move frees an external reference and later takes it again. */
  lemma {:induction false} NeverReoccupies(earlier: PaymentStatus, later: PaymentStatus)
    ensures Leads(earlier, later) && !Occupying(earlier) ==> later == earlier
    ensures PaymentTransitions(earlier) == {} <==> earlier in {Failed, Cancelled, Expired, Refunded}
  {
    assert earlier !in {Failed, Cancelled, Expired, Refunded} ==>
      Refunded in PaymentTransitions(earlier) || Captured in PaymentTransitions(earlier);
  }
}
