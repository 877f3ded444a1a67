/** Reading the append-only audit table: numbering per payment, and replay of the status changes it records. */
module AuditTrail {
  import opened Tables
  import opened PaymentStates
  import opened PaymentStore

  /** The rows of one payment, in the order they were stored. */
  ghost function Trail(audit: seq<AuditRow>, iid: string): seq<AuditRow> {
    if audit == [] then []
    else
      var before, last := audit[..|audit| - 1], audit[|audit| - 1];
      Trail(before, iid) + if last.intent == iid then [last] else []
  }

  /** `select max(sequence)` for one payment, 0 when it has no rows. */
  function MaxSequence(audit: seq<AuditRow>, iid: string): nat {
    if audit == [] then 0
    else
      var before, last := MaxSequence(audit[..|audit| - 1], iid), audit[|audit| - 1];
      if last.intent == iid && last.sequence > before then last.sequence else before
  }

  /** Every row carries the next number of its payment. */
  ghost predicate Numbered(audit: seq<AuditRow>) {
    audit == [] ||
    var before, last := audit[..|audit| - 1], audit[|audit| - 1];
    Numbered(before) && last.sequence == |Trail(before, last.intent)| + 1
  }

  lemma {:induction false} TrailAppend(audit: seq<AuditRow>, rows: seq<AuditRow>, iid: string)
    ensures Trail(audit + rows, iid) == Trail(audit, iid) + Trail(rows, iid)
  {
    if rows == [] {
      assert audit + rows == audit;
    } else {
      var all := audit + rows;
      assert all[..|all| - 1] == audit + rows[..|rows| - 1];
      TrailAppend(audit, rows[..|rows| - 1], iid);
    }
  }

  lemma {:induction false} TrailGrows(before: seq<AuditRow>, after: seq<AuditRow>, iid: string)
    requires before <= after
    ensures |Trail(before, iid)| <= |Trail(after, iid)|
  {
    assert after == before + after[|before|..];
    TrailAppend(before, after[|before|..], iid);
  }

  /** Some stored row of the payment has this number: the unique index refuses a second one. */
  predicate Taken(audit: seq<AuditRow>, iid: string, n: nat) {
    exists p | 0 <= p < |audit| :: audit[p].intent == iid && audit[p].sequence == n
  }

  /** The audit sequences of a payment are exactly 1..n: the k-th row of its trail is numbered k. */
  lemma {:induction false} SequencesAreOneToN(audit: seq<AuditRow>, iid: string)
    requires Numbered(audit)
    ensures forall k | 0 <= k < |Trail(audit, iid)| ::
            Trail(audit, iid)[k].sequence == k + 1 && Trail(audit, iid)[k].intent == iid
    ensures MaxSequence(audit, iid) == |Trail(audit, iid)|
    ensures forall n | 1 <= n <= |Trail(audit, iid)| :: Taken(audit, iid, n)
  {
    if audit != [] {
      var last := |audit| - 1;
      SequencesAreOneToN(audit[..last], iid);
      forall n | 1 <= n <= |Trail(audit, iid)|
        ensures Taken(audit, iid, n)
      {
        if n <= |Trail(audit[..last], iid)| {
          assert Taken(audit[..last], iid, n);
          var p :| 0 <= p < |audit[..last]| && audit[..last][p].intent == iid && audit[..last][p].sequence == n;
          assert audit[p].intent == iid;
        } else {
          assert audit[last].intent == iid;
        }
      }
    }
  }

  /** Appending rows that carry the next numbers keeps the numbering. */
  lemma {:induction false} NumberedAppend(audit: seq<AuditRow>, rows: seq<AuditRow>, iid: string)
    requires Numbered(audit)
    requires forall k | 0 <= k < |rows| :: rows[k].intent == iid && rows[k].sequence == |Trail(audit, iid)| + k + 1
    ensures Numbered(audit + rows)
  {
    if rows == [] {
      assert audit + rows == audit;
    } else {
      var fewer := rows[..|rows| - 1];
      NumberedAppend(audit, fewer, iid);
      TrailAppend(audit, fewer, iid);
      OwnTrail(fewer, iid);
      assert (audit + rows)[..|audit + rows| - 1] == audit + fewer;
    }
  }

  lemma {:induction false} OwnTrail(rows: seq<AuditRow>, iid: string)
    requires forall k | 0 <= k < |rows| :: rows[k].intent == iid
    ensures Trail(rows, iid) == rows
  {
    if rows != [] {
      OwnTrail(rows[..|rows| - 1], iid);
      assert rows == rows[..|rows| - 1] + [rows[|rows| - 1]];
    }
  }

  // ------------------------------------------------------------------ replay

  /** Where replaying the recorded changes leads: nowhere yet, to a status, or off the permitted chain. */
  datatype Replay<S> = Absent | At(status: S) | Broken

  function PaymentStep(r: Replay<PaymentStatus>, row: AuditRow, iid: string): Replay<PaymentStatus> {
    if row.intent != iid || !row.change.PaymentChange? then r
    else match r
      case Absent => if row.change == PaymentChange(None, Created) then At(Created) else Broken
      case At(status) =>
        if row.change.paymentFrom == Some(status) && row.change.paymentTo in PaymentTransitions(status)
        then At(row.change.paymentTo) else Broken
      case Broken => Broken
  }

  function RefundStep(r: Replay<RefundStatus>, row: AuditRow, rid: string): Replay<RefundStatus> {
    if row.refund != Some(rid) || !row.change.RefundChange? then r
    else match r
      case Absent => if row.change == RefundChange(None, RefundPending) then At(RefundPending) else Broken
      case At(status) =>
        if row.change.refundFrom == Some(status) && row.change.refundTo in RefundTransitions(status)
        then At(row.change.refundTo) else Broken
      case Broken => Broken
  }

  function ReplayPayment(audit: seq<AuditRow>, iid: string): Replay<PaymentStatus> {
    if audit == [] then Absent
    else PaymentStep(ReplayPayment(audit[..|audit| - 1], iid), audit[|audit| - 1], iid)
  }

  function ReplayRefund(audit: seq<AuditRow>, rid: string): Replay<RefundStatus> {
    if audit == [] then Absent
    else RefundStep(ReplayRefund(audit[..|audit| - 1], rid), audit[|audit| - 1], rid)
  }

  /** Forward status changes of one payment recorded in the audit, not counting pending/requires_action swaps. */
  function ForwardMoves(audit: seq<AuditRow>, iid: string): nat {
    if audit == [] then 0
    else
      var row := audit[|audit| - 1];
      ForwardMoves(audit[..|audit| - 1], iid) +
      if row.intent == iid && row.change.PaymentChange? && row.change.paymentFrom.Some?
         && !Lateral(row.change.paymentFrom.value, row.change.paymentTo) then 1 else 0
  }

  /** Along an unbroken replay each forward move lowers the rank, so a payment makes at most five of them, ever. */
  lemma {:induction false} ForwardMovesBounded(audit: seq<AuditRow>, iid: string)
    requires !ReplayPayment(audit, iid).Broken?
    ensures ReplayPayment(audit, iid).Absent? ==> ForwardMoves(audit, iid) == 0
    ensures ReplayPayment(audit, iid).At? ==> ForwardMoves(audit, iid) + Rank(ReplayPayment(audit, iid).status) <= 5
  {
    if audit != [] {
      ForwardMovesBounded(audit[..|audit| - 1], iid);
      var before := ReplayPayment(audit[..|audit| - 1], iid);
      var change := audit[|audit| - 1].change;
      if before.At? && change.PaymentChange? {
        MovesDescend(before.status, change.paymentTo);
      }
    }
  }

  lemma {:induction false} ReplayOne(audit: seq<AuditRow>, row: AuditRow, iid: string, rid: string)
    ensures ReplayPayment(audit + [row], iid) == PaymentStep(ReplayPayment(audit, iid), row, iid)
    ensures ReplayRefund(audit + [row], rid) == RefundStep(ReplayRefund(audit, rid), row, rid)
  {
    assert (audit + [row])[..|audit|] == audit;
  }

  lemma {:induction false} ReplayTwo(audit: seq<AuditRow>, first: AuditRow, second: AuditRow, iid: string, rid: string)
    ensures ReplayPayment(audit + [first, second], iid) ==
            PaymentStep(PaymentStep(ReplayPayment(audit, iid), first, iid), second, iid)
    ensures ReplayRefund(audit + [first, second], rid) ==
            RefundStep(RefundStep(ReplayRefund(audit, rid), first, rid), second, rid)
  {
    assert audit + [first, second] == (audit + [first]) + [second];
    ReplayOne(audit, first, iid, rid);
    ReplayOne(audit + [first], second, iid, rid);
  }
}
