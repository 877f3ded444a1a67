/** What the payment foundation promises, over every run: money, statuses, audit, idempotency keys and references. */
module PaymentTheorems {
  import opened Tables
  import opened PaymentStates
  import opened PaymentStore
  import opened AuditTrail
  import opened PaymentPlans
  import opened PaymentInvariant
  import opened PaymentCommits
  import opened PaymentSteps
  import opened PaymentRuns
  import opened PaymentSerial

  /** Refund conservation: in every committed state of every run, what is reserved is the sum of the pending and
      succeeded refunds, what is refunded is the sum of the succeeded ones, and the four amounts stay in order. */
  lemma {:induction false} RefundsAreConserved(steps: seq<Step>, k: nat, iid: string)
    requires k < |After(steps).history| && iid in After(steps).history[k].intents
    ensures var s := After(steps).history[k];
            var i := s.intents[iid];
            && i.reserved == Total(s.refunds, Held(iid))
            && i.refunded == Total(s.refunds, Paid(iid))
            && 0 <= i.refunded <= i.reserved <= i.captured <= i.amount
  {
    hide Extends, ReplayPayment, ReplayRefund, Numbered, UniqueIntents, UniqueRefunds, UniqueSequences, RefundInv;
    EveryRunKeepsInvariant(steps);
    assert Past(After(steps).history[k], Last(After(steps)));
    assert IntentInv(After(steps).history[k], iid);
  }

  /** Status and money agree in every committed state: a status other than the three capture statuses means no money
      moved. */
  lemma {:induction false} StatusAndMoneyAgree(steps: seq<Step>, k: nat, iid: string)
    requires k < |After(steps).history| && iid in After(steps).history[k].intents
    ensures var i := After(steps).history[k].intents[iid];
            && (i.status == Captured <==> i.captured > 0 && i.refunded == 0)
            && (i.status == PartiallyRefunded <==> 0 < i.refunded < i.captured)
            && (i.status == Refunded <==> i.refunded == i.captured > 0)
            && (i.captured == 0 ==> i.reserved == 0 && i.refunded == 0)
  {
    hide Extends, ReplayPayment, ReplayRefund, Numbered, UniqueIntents, UniqueRefunds, UniqueSequences, RefundInv,
      Total;
    EveryRunKeepsInvariant(steps);
    assert Past(After(steps).history[k], Last(After(steps)));
    assert IntentInv(After(steps).history[k], iid);
  }

  /** Any two states of one run, in order. */
  lemma {:induction false} HistoryIsOrdered(steps: seq<Step>, j: nat, k: nat)
    requires j <= k < |After(steps).history|
    ensures Extends(After(steps).history[j], After(steps).history[k])
    decreases |steps|
  {
    hide Inv, Extends, StepPlan, CommitAll, AskedAfter, JournalEntry, WorldInv;
    EveryRunKeepsInvariant(steps);
    var w := After(steps);
    if k == |w.history| - 1 {
      LastIsLatest(w, j);
    } else {
      assert steps != [];
      HistoryIsOrdered(steps[..|steps| - 1], j, k);
    }
  }

  lemma {:induction false} LastIsLatest(w: World, j: nat)
    requires WorldInv(w) && j < |w.history|
    ensures Extends(w.history[j], Last(w))
  {
    hide Inv, Extends;
    assert Past(w.history[j], Last(w));
  }

  /** Between any two committed states of a run: the captured amount is written once, the money paid back never
      shrinks, failed/cancelled/expired/refunded are final, and no reference is occupied again once released. */
  lemma {:induction false} PaymentsOnlyMoveForward(steps: seq<Step>, j: nat, k: nat, iid: string)
    requires j <= k < |After(steps).history| && iid in After(steps).history[j].intents
    ensures iid in After(steps).history[k].intents
    ensures var earlier, later := After(steps).history[j].intents[iid], After(steps).history[k].intents[iid];
            && (earlier.captured != 0 ==> later.captured == earlier.captured)
            && earlier.refunded <= later.refunded
            && Leads(earlier.status, later.status)
            && (earlier.status in {Failed, Cancelled, Expired, Refunded} ==> later.status == earlier.status)
            && (Occupying(later.status) ==> Occupying(earlier.status))
  {
    hide ReplayPayment, ReplayRefund, Inv, WorldInv, StepPlan, CommitAll;
    HistoryIsOrdered(steps, j, k);
    NeverReoccupies(After(steps).history[j].intents[iid].status, After(steps).history[k].intents[iid].status);
  }

  /** The audit trail is complete: per payment the numbers are exactly 1..n, and replaying the recorded changes gives an
      unbroken chain of permitted moves that ends at the stored status, for the payment and for each of its refunds. */
  lemma {:induction false} AuditTrailIsComplete(steps: seq<Step>, k: nat)
    requires k < |After(steps).history|
    ensures var s := After(steps).history[k];
            && (forall iid: string :: forall n | 0 <= n < |Trail(s.audit, iid)| ::
                Trail(s.audit, iid)[n].sequence == n + 1)
            && (forall iid: string ::
                ReplayPayment(s.audit, iid) == if iid in s.intents then At(s.intents[iid].status) else Absent)
            && (forall rid: string ::
                ReplayRefund(s.audit, rid) == if rid in s.refunds then At(s.refunds[rid].status) else Absent)
  {
    hide Extends, Constraints, MoneyStatus, Total, ReplayPayment, ReplayRefund, Numbered, Trail;
    EveryRunKeepsInvariant(steps);
    var s := After(steps).history[k];
    assert Past(s, Last(After(steps)));
    forall iid: string ensures forall n | 0 <= n < |Trail(s.audit, iid)| :: Trail(s.audit, iid)[n].sequence == n + 1 {
      SequencesAreOneToN(s.audit, iid);
    }
    forall iid: string ensures ReplayPayment(s.audit, iid) == if iid in s.intents then At(s.intents[iid].status)
      else Absent {
      assert iid in s.intents ==> IntentInv(s, iid);
    }
    forall rid: string ensures ReplayRefund(s.audit, rid) == if rid in s.refunds then At(s.refunds[rid].status)
      else Absent {
      assert rid in s.refunds ==> RefundInv(s, rid);
    }
  }

  /** Every payment makes at most five status changes in its life, not counting pending/requires_action swaps. */
  lemma {:induction false} StatusChangesAreBounded(steps: seq<Step>, k: nat, iid: string)
    requires k < |After(steps).history| && iid in After(steps).history[k].intents
    ensures ForwardMoves(After(steps).history[k].audit, iid) + Rank(After(steps).history[k].intents[iid].status) <= 5
  {
    hide ReplayPayment, ReplayRefund, ForwardMoves, Trail;
    AuditTrailIsComplete(steps, k);
    ForwardMovesBounded(After(steps).history[k].audit, iid);
  }

  /** In every committed state, completing a pending refund is never refused: neither the refund's own move nor the move
      of its payment raises, and the payment ends up refunded exactly when everything captured has been paid back. */
  lemma {:induction false} CompletionIsNeverRefused(steps: seq<Step>, k: nat, rid: string, stored: nat,
                                                    storedAgain: nat, source: AuditSource)
    requires k < |After(steps).history| && rid in After(steps).history[k].refunds
    requires After(steps).history[k].refunds[rid].status == RefundPending
    ensures var s := After(steps).history[k];
            var r := s.refunds[rid];
            && r.intent in s.intents
            && var done := CompleteRefund(r.intent, rid, RefundWork(false, r, Work(s.intents[r.intent], [])), stored,
                                          storedAgain, source);
               && !done.raised && done.refund.status == RefundSucceeded
               && done.work.intent.refunded == s.intents[r.intent].refunded + r.amount <= s.intents[r.intent].captured
               && (done.work.intent.status == Refunded <==> done.work.intent.refunded == done.work.intent.captured)
  {
    hide Extends, ReplayPayment, ReplayRefund, Numbered, UniqueIntents, UniqueRefunds, UniqueSequences, Total,
      Transition,
      TransitionRefund, CountRefund, CompleteRefund, StepPlan, CommitAll;
    EveryRunKeepsInvariant(steps);
    var s := After(steps).history[k];
    assert Past(s, Last(After(steps)));
    var r := s.refunds[rid];
    assert RefundInv(s, rid) && IntentInv(s, r.intent);
    PendingHasRoom(s, r.intent, rid);
    CompletedParts(r.intent, rid, s.intents[r.intent], r, r.providerRefund, stored, storedAgain, source);
    assert r.(providerRefund := r.providerRefund) == r;
  }

  // ------------------------------------------------------------- stale writers

  /** A writer that settles a refund from a row that has been written since aborts: nothing is committed, however fresh
      its copy of the payment is. */
  lemma {:induction false} StaleRefundAborts(w: World, business: string, rid: string, refundAt: nat, rowAt: nat,
                                             trailAt: nat, trailAgainAt: nat, reply: RefundReply)
    requires w.history != [] && rid in Seen(w, refundAt).refunds && rid in Last(w).refunds
    requires Seen(w, refundAt).refunds[rid].version != Last(w).refunds[rid].version
    requires reply.Reported? ==> reply.status != RefundPending
    ensures Next(w, RecordRefund(business, rid, refundAt, rowAt, trailAt, trailAgainAt, reply)).history == w.history
  {
    hide MaxSequence, CompleteRefund, FailRefund, Constraints, RefundTxn, RecordPlan, Completed, FailedWork;
    var step := RecordRefund(business, rid, refundAt, rowAt, trailAt, trailAgainAt, reply);
    if StepPlan(w, step).Write? {
      RecordParts(business, rid, Seen(w, refundAt), Seen(w, rowAt), Seen(w, trailAt), Seen(w, trailAgainAt), reply);
      var read := Seen(w, refundAt).refunds[rid];
      var iid := read.intent;
      SettlingWritesRefund(rid, read, Seen(w, rowAt).intents[iid], MaxSequence(Seen(w, trailAt).audit, iid),
                           MaxSequence(Seen(w, trailAgainAt).audit, iid), reply);
      var t := StepPlan(w, step).parts[0];
      StaleIsRefused(Last(w), t, rid);
      CommitOne(Last(w), t);
    }
  }

  lemma {:induction false} StaleIsRefused(c: Store, t: Txn, rid: string)
    requires rid in t.refunds && t.refunds[rid].Update? && rid in c.refunds
             && t.refunds[rid].read.version != c.refunds[rid].version
    ensures !Accepts(c, t)
  {
    hide Constraints;
    assert !RefundCurrent(c, rid, t.refunds[rid]);
  }

  lemma {:induction false} SettlingWritesRefund(rid: string, read: Refund, intent: Intent, stored: nat,
                                                storedAgain: nat, reply: RefundReply)
    requires read.status == RefundPending && !reply.Unreachable? && (reply.Reported? ==> reply.status != RefundPending)
    ensures var t := RefundTxn(read.intent, intent, rid, read, Recorded(rid, read, intent, stored, storedAgain, reply));
            rid in t.refunds && t.refunds[rid].Update? && t.refunds[rid].read == read
  {
  }

  // ----------------------------------------------- idempotency keys and references

  /** One idempotency key reserves at most once: while a refund with this key is stored, another request with the key
      commits nothing, even when its own look-up was made too early to see that refund. */
  lemma {:induction false} KeyReservesOnce(w: World, business: string, rid: string, key: string, refund: RefundRequest,
                                           keysAt: nat, rowAt: nat, trailAt: nat)
    requires w.history != [] && RefundKeyUsed(Last(w), business, key)
    ensures Next(w, ReserveRefund(business, rid, key, refund, keysAt, rowAt, trailAt)) == w
  {
    hide MaxSequence, RowChecks, ForeignKeys, UniqueIntents, UniqueSequences;
    var step := ReserveRefund(business, rid, key, refund, keysAt, rowAt, trailAt);
    var c := Last(w);
    if StepPlan(w, step).Write? {
      var t := StepPlan(w, step).parts[0];
      var r :| r in c.refunds && c.refunds[r].business == business && c.refunds[r].key == key;
      SameKeyIsRefused(c, t, rid, r);
      assert StepPlan(w, step).parts == [t];
      CommitOne(c, t);
    }
  }

  /** The same for the keys of payments. */
  lemma {:induction false} KeyCreatesOnce(w: World, business: string, key: string, iid: string, request: CreateRequest,
                                          now: int, keysAt: nat, trailAt: nat)
    requires w.history != [] && IntentKeyUsed(Last(w), business, key)
    ensures Next(w, CreateIntent(business, key, iid, request, now, keysAt, trailAt)) == w
  {
    hide MaxSequence, RowChecks, ForeignKeys, UniqueRefunds, UniqueSequences;
    var step := CreateIntent(business, key, iid, request, now, keysAt, trailAt);
    var c := Last(w);
    if StepPlan(w, step).Write? {
      var t := StepPlan(w, step).parts[0];
      var i :| i in c.intents && c.intents[i].business == business && c.intents[i].key == key;
      SameIntentKeyIsRefused(c, t, iid, i);
      assert StepPlan(w, step).parts == [t];
      CommitOne(c, t);
    }
  }

  lemma {:induction false} RowsAreUnique(steps: seq<Step>, k: nat)
    requires k < |After(steps).history|
    ensures UniqueIntents(After(steps).history[k].intents) && UniqueRefunds(After(steps).history[k].refunds)
  {
    hide Extends, LedgerInv, RowChecks, ForeignKeys, UniqueIntents, UniqueRefunds, UniqueSequences, StepPlan, CommitAll;
    EveryRunKeepsInvariant(steps);
    assert Past(After(steps).history[k], Last(After(steps)));
  }

  /** A used key is answered from the one refund that carries it: replayed if the request is the same, a conflict if it
      differs in anything. */
  lemma {:induction false} RefundKeyAnswersFromItsRow(steps: seq<Step>, k: nat, business: string, r: string,
                                                      key: string, refund: RefundRequest, rid: string, rows: Store,
                                                        trail: Store)
    requires k < |After(steps).history| && r in After(steps).history[k].refunds
    requires After(steps).history[k].refunds[r].business == business && After(steps).history[k].refunds[r].key == key
    requires refund.amount.Some? ==> ValidAmount(refund.amount.value)
    ensures ReservePlan(business, rid, key, refund, After(steps).history[k], rows, trail) ==
            Stop(if refund == After(steps).history[k].refunds[r].fingerprint then Replayed else IdempotencyConflict)
  {
    hide StepPlan, CommitAll, MaxSequence;
    RowsAreUnique(steps, k);
    var s := After(steps).history[k];
    forall q | q in s.refunds && q != r ensures !(s.refunds[q].business == business && s.refunds[q].key == key) {
      assert !RefundsClash(s.refunds[q], s.refunds[r]);
    }
  }

  /** The same for the keys of payments. */
  lemma {:induction false} IntentKeyAnswersFromItsRow(steps: seq<Step>, k: nat, business: string, i: string,
                                                      key: string, request: CreateRequest, now: int, iid: string,
                                                        trail: Store)
    requires k < |After(steps).history| && i in After(steps).history[k].intents
    requires After(steps).history[k].intents[i].business == business && After(steps).history[k].intents[i].key == key
    requires ValidRequest(request, now)
    ensures CreatePlan(business, key, iid, request, now, After(steps).history[k], trail) ==
            Stop(if request == After(steps).history[k].intents[i].fingerprint then Replayed else IdempotencyConflict)
  {
    hide StepPlan, CommitAll, MaxSequence;
    RowsAreUnique(steps, k);
    var s := After(steps).history[k];
    forall j | j in s.intents && j != i ensures !(s.intents[j].business == business && s.intents[j].key == key) {
      assert !IntentsClash(s.intents[j], s.intents[i]);
    }
  }

  /** The partial unique index: at most one live payment per business and external reference. */
  predicate OneLivePerReference(intents: map<string, Intent>) {
    forall i, j | i in intents && j in intents && i != j ::
      !(intents[i].business == intents[j].business && intents[i].reference == intents[j].reference
        && Occupying(intents[i].status) && Occupying(intents[j].status))
  }

  /** Only a creation can challenge the index: as long as no payment is added, the state machine alone keeps it. */
  lemma {:induction false} ReferencesOnlyChallengedAtCreation(steps: seq<Step>, j: nat, k: nat)
    requires j <= k < |After(steps).history|
    requires After(steps).history[k].intents.Keys == After(steps).history[j].intents.Keys
    requires OneLivePerReference(After(steps).history[j].intents)
    ensures OneLivePerReference(After(steps).history[k].intents)
  {
    hide ReplayPayment, ReplayRefund, Inv, WorldInv, StepPlan, CommitAll, Leads;
    var earlier, later := After(steps).history[j].intents, After(steps).history[k].intents;
    HistoryIsOrdered(steps, j, k);
    forall i | i in later
      ensures i in earlier && IntentLater(earlier[i], later[i])
              && (Occupying(later[i].status) ==> Occupying(earlier[i].status))
    {
      assert i in later.Keys;
      NeverReoccupies(earlier[i].status, later[i].status);
    }
  }
}
