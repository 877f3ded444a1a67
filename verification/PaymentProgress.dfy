/** When a commit goes through: an operation that is computed from the present state is refused by the database only for
    an id, a reference or a provider's name that another row already has. */
module PaymentProgress {
  import opened Tables
  import opened PaymentStates
  import opened PaymentStore
  import opened AuditTrail
  import opened PaymentPlans
  import opened PaymentInvariant
  import opened PaymentCommits
  import opened PaymentSteps
  import opened PaymentRuns
  import opened PaymentSerial
  import opened PaymentAnswers

  // ------------------------------------------------------------ one unit of work

  /** The row has nothing in common with any other payment that the database keeps apart. */
  predicate IntentFits(c: Store, iid: string, row: Intent) {
    IntentCheck(row) && forall j | j in c.intents && j != iid :: !IntentsClash(row, c.intents[j])
  }

  predicate RefundFits(c: Store, rid: string, row: Refund) {
    RefundCheck(row) && forall q | q in c.refunds && q != rid :: !RefundsClash(row, c.refunds[q])
  }

  /** The rows carry the numbers that follow the stored ones of this payment. */
  predicate NumberedNext(audit: seq<AuditRow>, rows: seq<AuditRow>, iid: string) {
    forall k | 0 <= k < |rows| :: rows[k].intent == iid && rows[k].sequence == MaxSequence(audit, iid) + k + 1
  }

  /** The transaction writes at most this payment and this refund. */
  predicate Writes(t: Txn, iid: string, rid: string) {
    t.intents.Keys <= {iid} && t.refunds.Keys <= {rid} && t.inbox == NoInbox
  }

  lemma {:induction false} MaxSequenceIsMax(audit: seq<AuditRow>, iid: string, p: nat)
    requires p < |audit| && audit[p].intent == iid
    ensures audit[p].sequence <= MaxSequence(audit, iid)
  {
    if p < |audit| - 1 {
      MaxSequenceIsMax(audit[..|audit| - 1], iid, p);
    }
  }

  lemma {:induction false} NextNumbersAreUnique(audit: seq<AuditRow>, rows: seq<AuditRow>, iid: string)
    requires UniqueSequences(audit) && NumberedNext(audit, rows, iid)
    ensures UniqueSequences(audit + rows)
  {
    hide MaxSequence;
    var all := audit + rows;
    forall p, q | 0 <= p < q < |all| && all[p].intent == all[q].intent ensures all[p].sequence != all[q].sequence {
      if p < |audit| <= q {
        assert all[q] == rows[q - |audit|];
        MaxSequenceIsMax(audit, iid, p);
      }
    }
  }

  lemma {:induction false} FittingIntents(c: Store, t: Txn, iid: string)
    requires UniqueIntents(c.intents) && t.intents.Keys <= {iid}
    requires iid in t.intents ==> IntentFits(c, iid, StoredIntent(t.intents[iid]))
    ensures UniqueIntents(Apply(c, t).intents)
  {
    hide IntentCheck, Occupying;
    var d := Apply(c, t);
    forall i, j | i in d.intents && j in d.intents && i != j ensures !IntentsClash(d.intents[i], d.intents[j]) {
      assert i != iid ==> i in c.intents && d.intents[i] == c.intents[i];
      assert j != iid ==> j in c.intents && d.intents[j] == c.intents[j];
    }
  }

  lemma {:induction false} FittingRefunds(c: Store, t: Txn, rid: string)
    requires UniqueRefunds(c.refunds) && t.refunds.Keys <= {rid}
    requires rid in t.refunds ==> RefundFits(c, rid, StoredRefund(t.refunds[rid]))
    ensures UniqueRefunds(Apply(c, t).refunds)
  {
    hide RefundCheck;
    var d := Apply(c, t);
    forall q, r | q in d.refunds && r in d.refunds && q != r ensures !RefundsClash(d.refunds[q], d.refunds[r]) {
      assert q != rid ==> q in c.refunds && d.refunds[q] == c.refunds[q];
      assert r != rid ==> r in c.refunds && d.refunds[r] == c.refunds[r];
    }
  }

  lemma {:induction false} FittingChecks(c: Store, t: Txn, iid: string, rid: string)
    requires RowChecks(c) && ForeignKeys(c) && Writes(t, iid, rid) && NumberedNext(c.audit, t.audits, iid)
    requires iid in c.intents || iid in t.intents
    requires iid in t.intents ==> IntentCheck(StoredIntent(t.intents[iid]))
    requires rid in t.refunds ==>
               RefundCheck(StoredRefund(t.refunds[rid])) && StoredRefund(t.refunds[rid]).intent in c.intents
    ensures RowChecks(Apply(c, t)) && ForeignKeys(Apply(c, t))
  {
    hide IntentCheck, RefundCheck, MaxSequence;
    var d := Apply(c, t);
    forall i | i in d.intents ensures IntentCheck(d.intents[i]) {
      assert i != iid ==> i in c.intents && d.intents[i] == c.intents[i];
    }
    forall r | r in d.refunds ensures RefundCheck(d.refunds[r]) && d.refunds[r].intent in d.intents {
      assert r != rid ==> r in c.refunds && d.refunds[r] == c.refunds[r];
    }
    forall p | 0 <= p < |d.audit| ensures d.audit[p].sequence >= 1 && d.audit[p].intent in d.intents {
      if p >= |c.audit| {
        assert d.audit[p] == t.audits[p - |c.audit|];
      }
    }
  }

  /** A unit of work on current rows that breaks no check and shares no unique column is stored. */
  lemma {:induction false} FittingIsAccepted(c: Store, t: Txn, iid: string, rid: string)
    requires Constraints(c) && Current(c, t) && Writes(t, iid, rid) && NumberedNext(c.audit, t.audits, iid)
    requires iid in c.intents || iid in t.intents
    requires iid in t.intents ==> IntentFits(c, iid, StoredIntent(t.intents[iid]))
    requires rid in t.refunds ==>
               RefundFits(c, rid, StoredRefund(t.refunds[rid])) && StoredRefund(t.refunds[rid]).intent in c.intents
    ensures Accepts(c, t)
  {
    hide IntentCheck, RefundCheck, IntentsClash, RefundsClash, MaxSequence, NumberedNext, UniqueSequences,
      UniqueIntents,
      UniqueRefunds, RowChecks, ForeignKeys, Current, StoredIntent, StoredRefund;
    FittingIntents(c, t, iid);
    FittingRefunds(c, t, rid);
    FittingChecks(c, t, iid, rid);
    NextNumbersAreUnique(c.audit, t.audits, iid);
  }

  /** A changed row that keeps its names and takes no reference shares nothing with another payment. */
  lemma {:induction false} SameNamesFit(c: Store, iid: string, row: Intent)
    requires UniqueIntents(c.intents) && iid in c.intents && IntentCheck(row)
    requires var before := c.intents[iid];
             && row.business == before.business && row.key == before.key && row.provider == before.provider
             && row.reference == before.reference && row.providerPayment == before.providerPayment
             && (Occupying(row.status) ==> Occupying(before.status))
    ensures IntentFits(c, iid, row)
  {
    hide IntentCheck, Occupying;
    forall j | j in c.intents && j != iid ensures !IntentsClash(row, c.intents[j]) {
      assert !IntentsClash(c.intents[iid], c.intents[j]);
    }
  }

  lemma {:induction false} SameRefundFits(c: Store, rid: string, row: Refund)
    requires UniqueRefunds(c.refunds) && rid in c.refunds && RefundCheck(row)
    requires var before := c.refunds[rid];
             row.business == before.business && row.key == before.key && row.providerRefund == before.providerRefund
    ensures RefundFits(c, rid, row)
  {
    hide RefundCheck;
    forall q | q in c.refunds && q != rid ensures !RefundsClash(row, c.refunds[q]) {
      assert !RefundsClash(c.refunds[rid], c.refunds[q]);
    }
  }

  // ------------------------------------------------------------------ operations

  predicate ReferenceTaken(c: Store, business: string, reference: string) {
    exists i | i in c.intents ::
      c.intents[i].business == business && c.intents[i].reference == reference
      && c.intents[i].status !in {Failed, Cancelled, Expired}
  }

  /** Another payment of the business has this name at this provider. */
  predicate PaymentNameTaken(c: Store, iid: string, business: string, provider: string, name: string) {
    exists j | j in c.intents ::
      j != iid && c.intents[j].business == business && c.intents[j].provider == provider
      && c.intents[j].providerPayment == Some(name)
  }

  predicate RefundNameTaken(c: Store, rid: string, business: string, name: string) {
    exists q | q in c.refunds ::
      q != rid && c.refunds[q].business == business && c.refunds[q].providerRefund == Some(name)
  }

  lemma {:induction false} ClashIsRefused(c: Store, t: Txn, iid: string, j: string)
    requires iid in t.intents && j in c.intents && j !in t.intents
    requires IntentsClash(StoredIntent(t.intents[iid]), c.intents[j])
    ensures !Accepts(c, t)
  {
    hide IntentsClash, RowChecks, ForeignKeys, UniqueRefunds, UniqueSequences;
    var d := Apply(c, t);
    assert d.intents[j] == c.intents[j] && d.intents[iid] == StoredIntent(t.intents[iid]);
  }

  lemma {:induction false} RefundClashIsRefused(c: Store, t: Txn, rid: string, q: string)
    requires rid in t.refunds && q in c.refunds && q !in t.refunds
    requires RefundsClash(StoredRefund(t.refunds[rid]), c.refunds[q])
    ensures !Accepts(c, t)
  {
    hide RefundsClash, RowChecks, ForeignKeys, UniqueIntents, UniqueSequences;
    var d := Apply(c, t);
    assert d.refunds[q] == c.refunds[q] && d.refunds[rid] == StoredRefund(t.refunds[rid]);
  }

  lemma {:induction false} CreateTxn(c: Store, business: string, key: string, iid: string, request: CreateRequest,
                                     now: int)
    requires CreatePlan(business, key, iid, request, now, c, c).Write?
    ensures ValidRequest(request, now) && !IntentKeyUsed(c, business, key)
    ensures CreatePlan(business, key, iid, request, now, c, c).parts ==
            [Txn(map[iid := Insert(NewIntent(business, key, request))], map[],
                 [AuditRow(iid, None, MaxSequence(c.audit, iid) + 1, PaymentChange(None, Created), Api)], NoInbox)]
  {
    hide MaxSequence, ValidRequest, IntentKeyUsed, NewIntent;
    var w := Noted(iid, Work(NewIntent(business, key, request), []), MaxSequence(c.audit, iid), None,
                   PaymentChange(None, Created), Api);
    assert w.added == [AuditRow(iid, None, MaxSequence(c.audit, iid) + 1, PaymentChange(None, Created), Api)];
  }

  lemma {:induction false} NewIntentChecks(business: string, key: string, request: CreateRequest, now: int)
    requires ValidRequest(request, now)
    ensures IntentCheck(NewIntent(business, key, request))
  {
  }

  /** A creation alone goes through unless the id is taken or the reference is, by a payment that is still live. */
  lemma {:induction false} CreateIsStored(c: Store, business: string, key: string, iid: string, request: CreateRequest,
                                          now: int)
    requires Inv(c) && CreatePlan(business, key, iid, request, now, c, c).Write?
    ensures CommitAll(c, CreatePlan(business, key, iid, request, now, c, c).parts).Some? <==>
            iid !in c.intents && !ReferenceTaken(c, business, request.reference)
  {
    hide CreatePlan, LedgerInv, MaxSequence, Constraints, ValidRequest, IntentCheck, CommitAll, Accepts;
    CreateTxn(c, business, key, iid, request, now);
    NewIntentChecks(business, key, request, now);
    var row := NewIntent(business, key, request);
    var rows := [AuditRow(iid, None, MaxSequence(c.audit, iid) + 1, PaymentChange(None, Created), Api)];
    var t := Txn(map[iid := Insert(row)], map[], rows, NoInbox);
    CommitOne(c, t);
    if iid in c.intents {
      assert !Accepts(c, t) by {
        assert !IntentCurrent(c, iid, t.intents[iid]);
        NotCurrent(c, t, iid);
      }
    } else if ReferenceTaken(c, business, request.reference) {
      var j :| j in c.intents && c.intents[j].business == business && c.intents[j].reference == request.reference
               && c.intents[j].status !in {Failed, Cancelled, Expired};
      ClashIsRefused(c, t, iid, j);
    } else {
      forall j | j in c.intents && j != iid ensures !IntentsClash(row, c.intents[j]) {
      }
      FittingIsAccepted(c, t, iid, "");
    }
  }

  lemma {:induction false} NotCurrent(c: Store, t: Txn, iid: string)
    requires iid in t.intents && !IntentCurrent(c, iid, t.intents[iid])
    ensures !Accepts(c, t)
  {
  }

  lemma {:induction false} NotCurrentRefund(c: Store, t: Txn, rid: string)
    requires rid in t.refunds && !RefundCurrent(c, rid, t.refunds[rid])
    ensures !Accepts(c, t)
  {
  }

  // What the other operations plan at one state: the audit rows carry the next numbers.

  lemma {:induction false} MoveNumbers(audit: seq<AuditRow>, iid: string, w: Work, target: PaymentStatus,
                                       refund: Option<string>, source: AuditSource)
    requires w.added == []
    ensures var moved := Transition(iid, w, target, MaxSequence(audit, iid), refund, source);
            && NumberedNext(audit, moved.added, iid)
            && moved.intent == if CheckPayment(w.intent.status, target) == Change then w.intent.(status := target)
                               else w.intent
  {
    hide MaxSequence, CheckPayment;
  }

  lemma {:induction false} CheckoutTxn(c: Store, business: string, iid: string, reply: CheckoutReply)
    requires CheckoutPlan(business, iid, c, c, reply).Write?
    ensures iid in c.intents && c.intents[iid].business == business && reply.CheckoutResult?
    ensures var p := CheckoutPlan(business, iid, c, c, reply);
            p.parts == [p.parts[0]] && NumberedNext(c.audit, p.parts[0].audits, iid) && Writes(p.parts[0], iid, "")
  {
    hide MaxSequence, NumberedNext, ValidCheckout, CheckedOut, CheckPayment;
    MoveNumbers(c.audit, iid, Work(CheckedOut(c.intents[iid], reply), []), reply.status, None, Api);
    hide Transition;
  }

  lemma {:induction false} CancelTxn(c: Store, business: string, iid: string, reply: CancelReply)
    requires CancelPlan(business, iid, c, c, reply).Write?
    ensures iid in c.intents && c.intents[iid].business == business
    ensures var p := CancelPlan(business, iid, c, c, reply);
            p.parts == [p.parts[0]] && NumberedNext(c.audit, p.parts[0].audits, iid) && Writes(p.parts[0], iid, "")
  {
    hide MaxSequence, NumberedNext, CheckPayment;
    MoveNumbers(c.audit, iid, Work(c.intents[iid], []), Cancelled, None, Api);
    hide Transition;
  }

  lemma {:induction false} ReserveTxn(c: Store, business: string, rid: string, key: string, request: RefundRequest)
    requires ReservePlan(business, rid, key, request, c, c, c).Write?
    ensures request.intent in c.intents && c.intents[request.intent].business == business
    ensures !RefundKeyTaken(c, business, key) && (request.amount.Some? ==> ValidAmount(request.amount.value))
    ensures var p := ReservePlan(business, rid, key, request, c, c, c);
            p.parts == [p.parts[0]] && NumberedNext(c.audit, p.parts[0].audits, request.intent)
            && Writes(p.parts[0], request.intent, rid)
  {
    hide MaxSequence, ValidAmount;
    assert RefundKeyTaken(c, business, key) <==> RefundKeyUsed(c, business, key);
    hide RefundKeyUsed, RefundKeyTaken;
  }

  // ------------------------------------------------------- what they come to alone

  lemma {:induction false} StoredMoney(c: Store, iid: string)
    requires Inv(c) && iid in c.intents
    ensures IntentCheck(c.intents[iid]) && MoneyStatus(c.intents[iid])
  {
    hide ReplayPayment, Total, Numbered, RefundInv;
    assert IntentInv(c, iid);
  }

  /** A unit of work that changes one payment, and at most one refund, and no name of either. */
  lemma {:induction false} ChangeIsStored(c: Store, t: Txn, iid: string, row: Intent, rid: string)
    requires Constraints(c) && Writes(t, iid, rid) && NumberedNext(c.audit, t.audits, iid) && iid in c.intents
    requires iid in t.intents ==> t.intents[iid] == Update(c.intents[iid], row) && IntentCheck(row)
    requires var before := c.intents[iid];
             && row.business == before.business && row.key == before.key && row.provider == before.provider
             && row.reference == before.reference && row.providerPayment == before.providerPayment
             && (Occupying(row.status) ==> Occupying(before.status))
    requires rid in t.refunds ==>
               && rid in c.refunds && t.refunds[rid].Update? && t.refunds[rid].read == c.refunds[rid]
               && t.refunds[rid].row == c.refunds[rid].(status := t.refunds[rid].row.status)
    ensures Accepts(c, t) && CommitAll(c, [t]) == Some(Apply(c, t))
  {
    hide MaxSequence, CommitAll, Accepts, NumberedNext, IntentsClash, RefundsClash, UniqueSequences;
    if iid in t.intents {
      SameNamesFit(c, iid, StoredIntent(t.intents[iid]));
    }
    if rid in t.refunds {
      SameRefundFits(c, rid, StoredRefund(t.refunds[rid]));
    }
    hide UniqueIntents, UniqueRefunds, Occupying, IntentFits, RefundFits;
    FittingIsAccepted(c, t, iid, rid);
    CommitOne(c, t);
  }

  /** A checkout alone goes through unless another payment has the name that the provider's answer gives. */
  lemma {:induction false} CheckoutIsStored(c: Store, business: string, iid: string, reply: CheckoutReply)
    requires Inv(c) && CheckoutPlan(business, iid, c, c, reply).Write?
    ensures iid in c.intents && reply.CheckoutResult?
    ensures CommitAll(c, CheckoutPlan(business, iid, c, c, reply).parts).Some? <==>
            !PaymentNameTaken(c, iid, business, c.intents[iid].provider, reply.providerPayment)
  {
    hide CheckoutPlan, MaxSequence, CommitAll, Accepts, NumberedNext, LedgerInv, IntentsClash, Constraints, Current,
      PaymentNameTaken;
    var p := CheckoutPlan(business, iid, c, c, reply);
    CheckoutTxn(c, business, iid, reply);
    CheckoutIs(business, iid, c, c, reply);
    CommitOne(c, p.parts[0]);
    var i := c.intents[iid];
    var row := i.(providerPayment := Some(reply.providerPayment), status := reply.status,
                  captured := if reply.status == Captured then reply.captured else i.captured,
                  expiresAt := if reply.expiresAt.None? then i.expiresAt else reply.expiresAt);
    StoredMoney(c, iid);
    hide Inv;
    CheckedOutIsStored(c, p.parts[0], iid, row);
  }

  lemma {:induction false} CheckedOutFits(c: Store, iid: string, row: Intent)
    requires UniqueIntents(c.intents) && iid in c.intents && IntentCheck(row) && row.providerPayment.Some?
    requires var before := c.intents[iid];
             && row.business == before.business && row.key == before.key && row.provider == before.provider
             && row.reference == before.reference && Occupying(before.status)
    requires !PaymentNameTaken(c, iid, row.business, row.provider, row.providerPayment.value)
    ensures IntentFits(c, iid, row)
  {
    hide IntentCheck, Occupying;
    forall j | j in c.intents && j != iid ensures !IntentsClash(row, c.intents[j]) {
      assert !IntentsClash(c.intents[iid], c.intents[j]);
    }
  }

  lemma {:induction false} CheckedOutIsStored(c: Store, t: Txn, iid: string, row: Intent)
    requires Constraints(c) && Writes(t, iid, "") && NumberedNext(c.audit, t.audits, iid) && iid in c.intents
    requires t.intents == if row == c.intents[iid] then map[] else map[iid := Update(c.intents[iid], row)]
    requires t.refunds == map[] && IntentCheck(row) && row.providerPayment.Some?
    requires var before := c.intents[iid];
             && row.business == before.business && row.key == before.key && row.provider == before.provider
             && row.reference == before.reference && Occupying(before.status)
    ensures Accepts(c, t) <==> !PaymentNameTaken(c, iid, row.business, row.provider, row.providerPayment.value)
  {
    hide MaxSequence, Accepts, NumberedNext, UniqueSequences;
    if PaymentNameTaken(c, iid, row.business, row.provider, row.providerPayment.value) {
      var j :| j in c.intents && j != iid && c.intents[j].business == row.business
               && c.intents[j].provider == row.provider && c.intents[j].providerPayment == row.providerPayment;
      assert !IntentsClash(c.intents[iid], c.intents[j]);
      ClashIsRefused(c, t, iid, j);
    } else {
      CheckedOutFits(c, iid, row);
      CheckedOutFits(c, iid, row.(version := c.intents[iid].version + 1));
      FittingIsAccepted(c, t, iid, "");
    }
  }

  /** A cancellation alone always goes through. */
  lemma {:induction false} CancelIsStored(c: Store, business: string, iid: string, reply: CancelReply)
    requires Inv(c) && CancelPlan(business, iid, c, c, reply).Write?
    ensures CommitAll(c, CancelPlan(business, iid, c, c, reply).parts).Some?
  {
    hide CancelPlan, MaxSequence, CommitAll, Accepts, NumberedNext, LedgerInv, Constraints;
    var p := CancelPlan(business, iid, c, c, reply);
    CancelTxn(c, business, iid, reply);
    CancellationIs(business, iid, c, c, reply);
    StoredMoney(c, iid);
    ChangeIsStored(c, p.parts[0], iid, c.intents[iid].(status := Cancelled), "");
  }

  /** A reservation alone goes through unless its id is taken. */
  lemma {:induction false} ReserveIsStored(c: Store, business: string, rid: string, key: string, request: RefundRequest)
    requires Inv(c) && ReservePlan(business, rid, key, request, c, c, c).Write?
    ensures CommitAll(c, ReservePlan(business, rid, key, request, c, c, c).parts).Some? <==> rid !in c.refunds
  {
    hide ReservePlan, MaxSequence, CommitAll, Accepts, NumberedNext, LedgerInv, Constraints, RefundKeyTaken;
    var p := ReservePlan(business, rid, key, request, c, c, c);
    ReserveTxn(c, business, rid, key, request);
    ReservationIs(business, rid, key, request, c, c, c);
    CommitOne(c, p.parts[0]);
    StoredMoney(c, request.intent);
    hide Inv;
    ReservedIsStored(c, p.parts[0], request.intent, rid, p.parts[0].refunds[rid].row);
  }

  lemma {:induction false} ReservedIsStored(c: Store, t: Txn, iid: string, rid: string, refund: Refund)
    requires Constraints(c) && Writes(t, iid, rid) && NumberedNext(c.audit, t.audits, iid) && iid in c.intents
    requires 0 < refund.amount <= Left(c.intents[iid])
    requires t.intents ==
             map[iid := Update(c.intents[iid], c.intents[iid].(reserved := c.intents[iid].reserved + refund.amount))]
    requires t.refunds == map[rid := Insert(refund)] && refund.intent == iid && refund.providerRefund.None?
    requires !RefundKeyTaken(c, refund.business, refund.key)
    ensures Accepts(c, t) <==> rid !in c.refunds
  {
    hide MaxSequence, Accepts, NumberedNext, UniqueSequences, IntentsClash;
    if rid in c.refunds {
      NotCurrentRefund(c, t, rid);
    } else {
      assert IntentCheck(c.intents[iid]);
      SameNamesFit(c, iid, StoredIntent(t.intents[iid]));
      assert RefundFits(c, rid, StoredRefund(t.refunds[rid]));
      hide UniqueIntents, UniqueRefunds, IntentFits, RefundFits, IntentCheck, RefundCheck, Occupying;
      FittingIsAccepted(c, t, iid, rid);
    }
  }

  // --------------------------------------------------------------------- refunds

  lemma {:induction false} PendingRefund(c: Store, rid: string)
    requires Inv(c) && rid in c.refunds
    ensures RefundCheck(c.refunds[rid]) && c.refunds[rid].intent in c.intents
    ensures c.intents[c.refunds[rid].intent].business == c.refunds[rid].business
    ensures var i, r := c.intents[c.refunds[rid].intent], c.refunds[rid];
            r.status == RefundPending ==>
              i.refunded + r.amount <= i.reserved <= i.captured && i.status in REFUNDABLE
  {
    hide ReplayPayment, ReplayRefund, Total, Numbered, UniqueIntents, UniqueRefunds, UniqueSequences;
    assert RefundInv(c, rid);
    var iid := c.refunds[rid].intent;
    assert IntentInv(c, iid) && IntentCheck(c.intents[iid]);
    if c.refunds[rid].status == RefundPending {
      hide IntentInv, IntentCheck, MoneyStatus;
      PendingHasRoom(c, iid, rid);
    }
  }

  lemma {:induction false} RecordedNumbers(c: Store, rid: string, reply: RefundReply)
    requires rid in c.refunds && c.refunds[rid].intent in c.intents && !reply.Unreachable?
    requires c.refunds[rid].status == RefundPending && c.refunds[rid].amount > 0
    requires var i, r := c.intents[c.refunds[rid].intent], c.refunds[rid];
             MoneyStatus(i) && i.status in REFUNDABLE && i.refunded + r.amount <= i.captured
    ensures var r := c.refunds[rid];
            var n := MaxSequence(c.audit, r.intent);
            NumberedNext(c.audit, Recorded(rid, r, c.intents[r.intent], n, n, reply).work.added, r.intent)
  {
    hide MaxSequence;
    var r := c.refunds[rid];
    var n := MaxSequence(c.audit, r.intent);
    if reply.Reported? {
      CompletedParts(r.intent, rid, c.intents[r.intent], r, Some(reply.providerRefund), n, n, Api);
    }
    hide Completed;
  }

  lemma {:induction false} RecordTxn(c: Store, business: string, rid: string, reply: RefundReply)
    requires Inv(c) && RecordPlan(business, rid, c, c, c, c, reply).Write?
    ensures !reply.Unreachable? && rid in c.refunds && c.refunds[rid].status == RefundPending
    ensures c.refunds[rid].business == business
    ensures var p := RecordPlan(business, rid, c, c, c, c, reply);
            p.parts == [p.parts[0]] && NumberedNext(c.audit, p.parts[0].audits, c.refunds[rid].intent)
            && Writes(p.parts[0], c.refunds[rid].intent, rid)
  {
    assert c.refunds[rid].business == business;
    hide MaxSequence, Recorded, NumberedNext, Inv, RecordPlan;
    RecordParts(business, rid, c, c, c, c, reply);
    PendingRefund(c, rid);
    StoredMoney(c, c.refunds[rid].intent);
    RecordedNumbers(c, rid, reply);
  }

  lemma {:induction false} RecordedIsStored(c: Store, t: Txn, iid: string, row: Intent, rid: string, refund: Refund)
    requires Constraints(c) && Writes(t, iid, rid) && NumberedNext(c.audit, t.audits, iid) && iid in c.intents
    requires rid in c.refunds && c.refunds[rid].intent == iid && RefundCheck(refund)
    requires iid in t.intents ==> t.intents[iid] == Update(c.intents[iid], row) && IntentCheck(row)
    requires var before := c.intents[iid];
             && row.business == before.business && row.key == before.key && row.provider == before.provider
             && row.reference == before.reference && row.providerPayment == before.providerPayment
             && (Occupying(row.status) ==> Occupying(before.status))
    requires t.refunds == if refund == c.refunds[rid] then map[] else map[rid := Update(c.refunds[rid], refund)]
    requires refund == c.refunds[rid].(status := refund.status, providerRefund := refund.providerRefund)
    ensures Accepts(c, t) <==>
            refund.providerRefund.None? || !RefundNameTaken(c, rid, refund.business, refund.providerRefund.value)
  {
    hide MaxSequence, Accepts, NumberedNext, UniqueSequences, IntentsClash, IntentCheck, Occupying;
    if refund.providerRefund.Some? && RefundNameTaken(c, rid, refund.business, refund.providerRefund.value) {
      var q :| q in c.refunds && q != rid && c.refunds[q].business == refund.business
               && c.refunds[q].providerRefund == refund.providerRefund;
      assert !RefundsClash(c.refunds[rid], c.refunds[q]);
      RefundClashIsRefused(c, t, rid, q);
    } else {
      NamedRefundFits(c, rid, refund);
      NamedRefundFits(c, rid, refund.(version := c.refunds[rid].version + 1));
      if iid in t.intents {
        CheckLasts(row, c.intents[iid].version + 1);
        SameNamesFit(c, iid, StoredIntent(t.intents[iid]));
      }
      hide UniqueIntents, UniqueRefunds, IntentFits, RefundFits, RefundCheck, RefundNameTaken;
      FittingIsAccepted(c, t, iid, rid);
    }
  }

  lemma {:induction false} CheckLasts(row: Intent, version: nat)
    requires IntentCheck(row) && version >= 1
    ensures IntentCheck(row.(version := version))
  {
  }

  lemma {:induction false} NamedRefundFits(c: Store, rid: string, refund: Refund)
    requires UniqueRefunds(c.refunds) && rid in c.refunds && RefundCheck(refund)
    requires refund.business == c.refunds[rid].business && refund.key == c.refunds[rid].key
    requires refund.providerRefund.None? || !RefundNameTaken(c, rid, refund.business, refund.providerRefund.value)
    ensures RefundFits(c, rid, refund)
  {
    forall q | q in c.refunds && q != rid ensures !RefundsClash(refund, c.refunds[q]) {
      assert !RefundsClash(c.refunds[rid], c.refunds[q]);
    }
  }

  lemma {:induction false} OwnNameIsFree(c: Store, rid: string)
    requires UniqueRefunds(c.refunds) && rid in c.refunds && c.refunds[rid].providerRefund.Some?
    ensures !RefundNameTaken(c, rid, c.refunds[rid].business, c.refunds[rid].providerRefund.value)
  {
    forall q | q in c.refunds && q != rid ensures !RefundsClash(c.refunds[rid], c.refunds[q]) {
    }
  }

  /** The payment after a refund of it was settled, still within its limits. */
  lemma {:induction false} SettledMoney(c: Store, rid: string)
    requires Inv(c) && rid in c.refunds && c.refunds[rid].status == RefundPending
    ensures c.refunds[rid].intent in c.intents
    ensures var i, r := c.intents[c.refunds[rid].intent], c.refunds[rid];
            && IntentCheck(i.(reserved := i.reserved - r.amount))
            && IntentCheck(i.(refunded := i.refunded + r.amount, status := PaidBack(i, r.amount)))
            && CheckPayment(i.status, PaidBack(i, r.amount)) != Refused
            && Occupying(i.status)
  {
    hide Inv;
    PendingRefund(c, rid);
    StoredMoney(c, c.refunds[rid].intent);
  }

  /** What is stored for an answer. */
  function AnsweredRow(i: Intent, r: Refund, reply: RefundReply): Intent {
    match reply
    case Reported(_, RefundPending) => i
    case Reported(_, RefundSucceeded) => i.(refunded := i.refunded + r.amount, status := PaidBack(i, r.amount))
    case _ => i.(reserved := i.reserved - r.amount)
  }

  function AnsweredRefund(r: Refund, reply: RefundReply): Refund {
    var named := if reply.Reported? then r.(providerRefund := Some(reply.providerRefund)) else r;
    named.(status := if reply.Reported? then reply.status else RefundFailed)
  }

  /** Recording a provider's answer alone goes through unless another refund has the name that it gives. */
  lemma {:induction false} RecordIsStored(c: Store, business: string, rid: string, reply: RefundReply)
    requires Inv(c) && RecordPlan(business, rid, c, c, c, c, reply).Write?
    ensures CommitAll(c, RecordPlan(business, rid, c, c, c, c, reply).parts).Some? <==>
            !(reply.Reported? && RefundNameTaken(c, rid, business, reply.providerRefund))
  {
    hide RecordPlan, MaxSequence, CommitAll, Accepts, NumberedNext, Inv, RefundNameTaken, IntentCheck, Constraints,
      CheckPayment;
    RecordTxn(c, business, rid, reply);
    var t, r := RecordPlan(business, rid, c, c, c, c, reply).parts[0], c.refunds[rid];
    PendingRefund(c, rid);
    RecordingIs(business, rid, c, c, c, c, reply);
    SettledMoney(c, rid);
    CommitOne(c, t);
    var i := c.intents[r.intent];
    assert Constraints(c) && UniqueRefunds(c.refunds) by {
      ConstraintsOf(c);
    }
    RecordedIsStored(c, t, r.intent, AnsweredRow(i, r, reply), rid, AnsweredRefund(r, reply));
    if !reply.Reported? && r.providerRefund.Some? {
      OwnNameIsFree(c, rid);
    }
  }

  lemma {:induction false} ConstraintsOf(c: Store)
    requires Inv(c)
    ensures Constraints(c) && UniqueRefunds(c.refunds) && UniqueIntents(c.intents)
  {
  }

  // --------------------------------------------------------------------- expiry

  lemma {:induction false} ExpireTxn(s: Store, iid: string, rows: Store, trail: Store)
    requires iid in s.intents && iid in rows.intents && s.intents[iid] == rows.intents[iid]
    requires MaxSequence(trail.audit, iid) == MaxSequence(s.audit, iid)
    requires s.intents[iid].status in {Created, Pending, RequiresAction}
    ensures var t := ExpireOne(iid, rows, trail);
            && NumberedNext(s.audit, t.audits, iid) && Writes(t, iid, "") && |t.audits| == 1
            && t.intents == map[iid := Update(s.intents[iid], s.intents[iid].(status := Expired))] && t.refunds == map[]
  {
    hide MaxSequence;
  }

  /** Expiring open payments one after another, each as it is stored, goes through. */
  lemma {:induction false} ExpiriesAreStored(s: Store, due: seq<string>, rows: Store, trails: seq<Store>)
    requires Constraints(s) && |trails| == |due|
    requires forall k | 0 <= k < |due| ::
               && due[k] in s.intents && due[k] in rows.intents && s.intents[due[k]] == rows.intents[due[k]]
               && s.intents[due[k]].status in {Created, Pending, RequiresAction}
               && MaxSequence(trails[k].audit, due[k]) == MaxSequence(s.audit, due[k])
    requires forall j, k | 0 <= j < k < |due| :: due[j] != due[k]
    ensures CommitAll(s, ExpireParts(due, rows, trails)).Some?
    decreases |due|
  {
    hide MaxSequence, Accepts, Constraints, ExpireOne, NumberedNext;
    if due != [] {
      var iid, parts := due[0], ExpireParts(due, rows, trails);
      var t := parts[0];
      assert parts[1..] == ExpireParts(due[1..], rows, trails[1..]);
      ExpireTxn(s, iid, rows, trails[0]);
      var row := s.intents[iid].(status := Expired);
      assert IntentCheck(row) by {
        RowCheckOf(s, iid);
      }
      ChangeIsStored(s, t, iid, row, "");
      var d := Apply(s, t);
      assert Constraints(d) by {
        AcceptedIsLegal(s, t);
      }
      forall k | 1 <= k < |due|
        ensures due[k] in d.intents && d.intents[due[k]] == s.intents[due[k]]
        ensures MaxSequence(d.audit, due[k]) == MaxSequence(s.audit, due[k])
      {
        assert due[0] != due[k];
        assert t.audits == [t.audits[0]] && t.audits[0].intent == iid by {
          NumbersAreOwn(s.audit, t.audits, iid);
        }
        MaxSequenceForeign(s.audit, t.audits[0], due[k]);
      }
      ExpiriesAreStored(d, due[1..], rows, trails[1..]);
    }
  }

  lemma {:induction false} NumbersAreOwn(audit: seq<AuditRow>, rows: seq<AuditRow>, iid: string)
    requires NumberedNext(audit, rows, iid) && |rows| == 1
    ensures rows == [rows[0]] && rows[0].intent == iid
  {
  }

  lemma {:induction false} RowCheckOf(s: Store, iid: string)
    requires Constraints(s) && iid in s.intents
    ensures IntentCheck(s.intents[iid])
  {
  }

  lemma {:induction false} AcceptedIsLegal(s: Store, t: Txn)
    requires Accepts(s, t)
    ensures Constraints(Apply(s, t))
  {
  }

  /** The expiry of due payments alone always goes through. */
  lemma {:induction false} ExpireIsStored(c: Store, business: string, now: int, due: seq<string>)
    requires Inv(c) && AllDue(c, business, now, due)
    ensures CommitAll(c, ExpireParts(due, c, Same(c, |due|))).Some?
  {
    hide MaxSequence, LedgerInv, Constraints, CommitAll;
    forall k | 0 <= k < |due|
      ensures due[k] in c.intents && c.intents[due[k]].status in {Created, Pending, RequiresAction}
    {
      assert Due(c, business, now, due[k]);
    }
    ExpiriesAreStored(c, due, c, Same(c, |due|));
  }

  // ---------------------------------------------------------------------- events

  lemma {:induction false} PaymentEventTxn(c: Store, iid: string, event: Event)
    requires iid in c.intents
    ensures var t := ApplyPaymentEvent(iid, c.intents[iid], event, MaxSequence(c.audit, iid)).txn;
            NumberedNext(c.audit, t.audits, iid) && Writes(t, iid, "")
  {
    hide MaxSequence, NumberedNext, CheckPayment;
    MoveNumbers(c.audit, iid, Work(c.intents[iid], []), EventTarget(event.kind), None, ProviderEvent);
    assert NumberedNext(c.audit, [], iid) by {
      NoNumbers(c.audit, iid);
    }
    hide Transition;
  }

  lemma {:induction false} NoNumbers(audit: seq<AuditRow>, iid: string)
    ensures NumberedNext(audit, [], iid)
  {
  }

  /** A payment event applied alone always goes through. */
  lemma {:induction false} PaymentEventIsStored(c: Store, iid: string, event: Event)
    requires Inv(c) && iid in c.intents && !IsRefundEvent(event.kind)
    ensures Accepts(c, ApplyPaymentEvent(iid, c.intents[iid], event, MaxSequence(c.audit, iid)).txn)
  {
    hide ApplyPaymentEvent, MaxSequence, Accepts, NumberedNext, Inv, Constraints, CommitAll, IntentCheck;
    var i := c.intents[iid];
    var t := ApplyPaymentEvent(iid, i, event, MaxSequence(c.audit, iid)).txn;
    PaymentEventTxn(c, iid, event);
    EveryKindReports(event.kind);
    var target := EventTarget(event.kind);
    PaymentEventIs(iid, i, event, target, MaxSequence(c.audit, iid));
    StoredMoney(c, iid);
    ConstraintsOf(c);
    if iid in t.intents {
      ReportedFits(i, event, target);
      ChangeIsStored(c, t, iid, t.intents[iid].row, "");
    } else {
      ChangeIsStored(c, t, iid, i, "");
    }
  }

  lemma {:induction false} ReportedFits(i: Intent, event: Event, target: PaymentStatus)
    requires IntentCheck(i) && MoneyStatus(i) && Agrees(i, event) && Reports(event.kind, target)
    requires target in PaymentTransitions(i.status)
    ensures IntentCheck(i.(status := target,
                           captured := if target == Captured then ReportedAmount(i, event) else i.captured))
    ensures Occupying(target) ==> Occupying(i.status)
  {
  }

  lemma {:induction false} RefundEventTxn(c: Store, rid: string, event: Event)
    requires Inv(c) && rid in c.refunds && IsRefundEvent(event.kind)
    ensures c.refunds[rid].intent in c.intents
    ensures var iid := c.refunds[rid].intent;
            var n := MaxSequence(c.audit, iid);
            var t := ApplyRefundEvent(iid, c.intents[iid], rid, c.refunds[rid], event, n, n).txn;
            NumberedNext(c.audit, t.audits, iid) && Writes(t, iid, rid)
  {
    hide MaxSequence, Inv;
    PendingRefund(c, rid);
    var r := c.refunds[rid];
    var n := MaxSequence(c.audit, r.intent);
    StoredMoney(c, r.intent);
    if r.status == RefundPending {
      assert r.(providerRefund := r.providerRefund) == r;
      CompletedParts(r.intent, rid, c.intents[r.intent], r, r.providerRefund, n, n, ProviderEvent);
    }
  }

  /** A refund event applied alone always goes through. */
  lemma {:induction false} RefundEventIsStored(c: Store, rid: string, event: Event)
    requires Inv(c) && rid in c.refunds && IsRefundEvent(event.kind)
    ensures c.refunds[rid].intent in c.intents
    ensures var iid := c.refunds[rid].intent;
            var n := MaxSequence(c.audit, iid);
            Accepts(c, ApplyRefundEvent(iid, c.intents[iid], rid, c.refunds[rid], event, n, n).txn)
  {
    hide ApplyRefundEvent, MaxSequence, Accepts, NumberedNext, Inv, Constraints, CommitAll, IntentCheck, CheckPayment;
    RefundEventTxn(c, rid, event);
    PendingRefund(c, rid);
    var r := c.refunds[rid];
    var i, n := c.intents[r.intent], MaxSequence(c.audit, r.intent);
    var t := ApplyRefundEvent(r.intent, i, rid, r, event, n, n).txn;
    RefundEventIs(r.intent, i, rid, r, event, n, n);
    StoredMoney(c, r.intent);
    ConstraintsOf(c);
    if r.status == RefundPending {
      SettledMoney(c, rid);
      ChangeIsStored(c, t, r.intent, t.intents[r.intent].row, rid);
    } else {
      ChangeIsStored(c, t, r.intent, i, rid);
    }
  }

  lemma {:induction false} NothingIsStored(c: Store)
    requires Inv(c)
    ensures Accepts(c, NOTHING)
  {
    hide Constraints, LedgerInv;
    assert Apply(c, NOTHING) == c;
  }

  /** An event applied alone always goes through. */
  lemma {:induction false} EventIsStored(c: Store, key: EventKey, event: Event, found: Option<string>,
                                         foundRefund: Option<string>)
    requires Inv(c)
    ensures Accepts(c, EventAlone(c, key, event, found, foundRefund))
  {
    hide ApplyRefundEvent, ApplyPaymentEvent, MaxSequence, Accepts, Inv;
    NothingIsStored(c);
    if LooksUp(c, key, event, found, foundRefund) && found.Some? {
      if !IsRefundEvent(event.kind) {
        PaymentEventIsStored(c, found.value, event);
      } else if foundRefund.Some? {
        RefundEventIsStored(c, foundRefund.value, event);
      }
    }
  }

  // ----------------------------------------------------------------- whole steps

  /** Another row has the id, the reference or the provider's name that the operation would store. */
  predicate Collides(step: Step, c: Store) {
    match step
    case CreateIntent(business, _, iid, request, _, _, _) =>
      iid in c.intents || ReferenceTaken(c, business, request.reference)
    case RequestCheckout(business, iid, _, _, reply) =>
      iid in c.intents && reply.CheckoutResult?
      && PaymentNameTaken(c, iid, business, c.intents[iid].provider, reply.providerPayment)
    case ReserveRefund(_, rid, _, _, _, _, _) => rid in c.refunds
    case RecordRefund(business, rid, _, _, _, _, reply) =>
      reply.Reported? && RefundNameTaken(c, rid, business, reply.providerRefund)
    case _ => false
  }

  /** In every legal state: an operation that runs alone is stored, unless it collides with another row. */
  lemma {:induction false} AloneIsStored(step: Step, c: Store)
    requires Inv(c) && OperationAlone(step, c) != []
    ensures CommitAll(c, OperationAlone(step, c)).Some? <==> !Collides(step, c)
  {
    hide Inv, CommitAll, CreatePlan, CheckoutPlan, CancelPlan, ReservePlan, RecordPlan, ExpireParts, AllDue,
      ReferenceTaken, PaymentNameTaken, RefundNameTaken;
    match step
    case CreateIntent(business, key, iid, request, now, _, _) => CreateIsStored(c, business, key, iid, request, now);
    case RequestCheckout(business, iid, _, _, reply) => CheckoutIsStored(c, business, iid, reply);
    case CancelPayment(business, iid, _, _, reply) => CancelIsStored(c, business, iid, reply);
    case ReserveRefund(business, rid, key, request, _, _, _) => ReserveIsStored(c, business, rid, key, request);
    case RecordRefund(business, rid, _, _, _, _, reply) => RecordIsStored(c, business, rid, reply);
    case ExpireDue(business, now, due, _, _) => ExpireIsStored(c, business, now, due);
    case _ =>
  }

  /** Over all runs: an operation with something to write is accepted if and only if its stale reads made no difference,
      so that it writes what it writes when it runs alone at the present state, and it collides with no other row. */
  lemma {:induction false} OperationCommitsIff(steps: seq<Step>, step: Step)
    requires !step.AttemptEvent? && !step.ReceiveEvent? && !step.MarkFailed?
    requires StepPlan(After(steps), step).Write? && WritesLedger(StepPlan(After(steps), step).parts)
    ensures var w := After(steps);
            Committing(w, step) <==>
            StepPlan(w, step).parts == OperationAlone(step, Last(w)) && !Collides(step, Last(w))
  {
    hide Inv, Past, StepPlan, OperationAlone, CommitAll, After, WritesLedger, Collides;
    var w := After(steps);
    EveryRunKeepsInvariant(steps);
    PresentIsLegal(w);
    hide WorldInv;
    WritesSomething(StepPlan(w, step).parts);
    if Committing(w, step) {
      OperationIsSerial(w, step);
    }
    if StepPlan(w, step).parts == OperationAlone(step, Last(w)) {
      AloneIsStored(step, Last(w));
    }
  }

  lemma {:induction false} PresentIsLegal(w: World)
    requires WorldInv(w)
    ensures Inv(Last(w))
  {
    hide Inv;
    ReadsArePast(w, 0);
  }

  lemma {:induction false} WritesSomething(parts: seq<Txn>)
    requires WritesLedger(parts)
    ensures parts != []
  {
  }

  // ----------------------------------------------------------------- the inbox

  lemma {:induction false} WithInboxIsAccepted(c: Store, t: Txn, u: Txn)
    requires Accepts(c, t) && t == u.(inbox := NoInbox) && u.inbox.SetInbox?
    ensures Accepts(c, u)
  {
    hide Constraints;
    InboxIndependent(Apply(c, t), Apply(c, u).inbox);
    assert Apply(c, u) == Apply(c, t).(inbox := Apply(c, u).inbox);
    assert forall i | i in t.intents :: IntentCurrent(c, i, t.intents[i]);
    assert forall r | r in t.refunds :: RefundCurrent(c, r, t.refunds[r]);
  }

  lemma {:induction false} IdleIsNothing(t: Txn)
    requires !WritesLedger([t])
    ensures t.(inbox := NoInbox) == NOTHING
  {
    assert !Touches([t][0]);
  }

  lemma {:induction false} BareIs(t: Txn)
    ensures Bare([t]) == [t.(inbox := NoInbox)]
  {
  }

  /** Over all runs: an attempt is accepted if and only if it writes no ledger row, or writes what its event comes to
      when it is looked up and applied alone at the present state. */
  lemma {:induction false} AttemptCommitsIff(steps: seq<Step>, step: Step)
    requires step.AttemptEvent? && StepPlan(After(steps), step).Write?
    ensures var w := After(steps);
            && step.eventKey in Seen(w, step.inboxAt).inbox
            && (Committing(w, step) <==>
                  || !WritesLedger(StepPlan(w, step).parts)
                  || Bare(StepPlan(w, step).parts) ==
                     [EventAlone(Last(w), step.eventKey, Seen(w, step.inboxAt).inbox[step.eventKey].event, step.found,
                                 step.foundRefund)])
  {
    hide Inv, Past, StepPlan, CommitAll, After, WritesLedger, EventAlone, Bare, Accepts, Seen;
    var w := After(steps);
    EveryRunKeepsInvariant(steps);
    PresentIsLegal(w);
    hide WorldInv;
    SinglePart(w, step);
    var parts, c := StepPlan(w, step).parts, Last(w);
    AttemptSets(w, step);
    var t, event := parts[0], Seen(w, step.inboxAt).inbox[step.eventKey].event;
    assert parts == [t];
    CommitOne(c, t);
    BareIs(t);
    if !WritesLedger(parts) {
      IdleIsNothing(t);
      NothingIsStored(c);
      WithInboxIsAccepted(c, NOTHING, t);
    } else if Bare(parts) == [EventAlone(c, step.eventKey, event, step.found, step.foundRefund)] {
      EventIsStored(c, step.eventKey, event, step.found, step.foundRefund);
      WithInboxIsAccepted(c, t.(inbox := NoInbox), t);
    } else if Committing(w, step) {
      AttemptIsSerial(w, step);
    }
  }

  lemma {:induction false} AttemptSets(w: World, step: Step)
    requires w.history != [] && step.AttemptEvent? && StepPlan(w, step).Write?
    ensures step.eventKey in Seen(w, step.inboxAt).inbox
    ensures |StepPlan(w, step).parts| == 1 && StepPlan(w, step).parts[0].inbox.SetInbox?
  {
    hide ApplyEvent, Seen, Retryable;
  }

  /** Over all runs: a failure can always be marked, and an event is recorded if and only if its key is new. */
  lemma {:induction false} InboxCommitsIff(steps: seq<Step>, step: Step)
    requires step.MarkFailed? || step.ReceiveEvent?
    requires StepPlan(After(steps), step).Write?
    ensures Committing(After(steps), step) <==>
            step.ReceiveEvent? ==> step.eventKey !in Last(After(steps)).inbox
  {
    hide Inv, Past, CommitAll, After, Accepts, Seen, MayAttempt;
    var w := After(steps);
    EveryRunKeepsInvariant(steps);
    PresentIsLegal(w);
    hide WorldInv;
    var c, t := Last(w), StepPlan(w, step).parts[0];
    assert StepPlan(w, step).parts == [t] && t.(inbox := NoInbox) == NOTHING;
    CommitOne(c, t);
    NothingIsStored(c);
    if step.MarkFailed? {
      WithInboxIsAccepted(c, NOTHING, t);
    } else {
      NewEventIsAccepted(c, t);
    }
  }

  lemma {:induction false} NewEventIsAccepted(c: Store, t: Txn)
    requires Accepts(c, NOTHING) && t.(inbox := NoInbox) == NOTHING && t.inbox.InsertInbox?
    ensures Accepts(c, t) <==> t.inbox.key !in c.inbox
  {
    hide Constraints;
    InboxIndependent(Apply(c, NOTHING), Apply(c, t).inbox);
    assert Apply(c, t) == Apply(c, NOTHING).(inbox := Apply(c, t).inbox);
  }
}
