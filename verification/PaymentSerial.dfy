/** Serializability: whatever stale states an operation read, a commit of it that writes anything is the commit it would
    have made if it had run alone, with every read at the present state. */
module PaymentSerial {
  import opened Tables
  import opened PaymentStates
  import opened PaymentStore
  import opened AuditTrail
  import opened PaymentPlans
  import opened PaymentInvariant
  import opened PaymentCommits
  import opened PaymentSteps
  import opened PaymentRuns

  /** An accepted unit of work took its audit numbers from a trail as long as the present one. */
  lemma {:induction false} NumbersAreCurrent(c: Store, t: Txn, iid: string, stored: nat, storedAgain: nat)
    requires Inv(c) && Accepts(c, t) && |t.audits| <= 2
    requires stored <= |Trail(c.audit, iid)| && storedAgain <= |Trail(c.audit, iid)|
    requires |t.audits| > 0 ==> t.audits[0].intent == iid && t.audits[0].sequence == stored + 1
    requires |t.audits| > 1 ==> t.audits[1].intent == iid && t.audits[1].sequence == storedAgain + 2
    ensures |t.audits| > 0 ==> stored == MaxSequence(c.audit, iid)
    ensures |t.audits| > 1 ==> storedAgain == MaxSequence(c.audit, iid)
  {
    assert UniqueSequences(c.audit + t.audits) by {
      assert Apply(c, t).audit == c.audit + t.audits;
    }
    hide Accepts, UniqueSequences, Trail, MaxSequence;
    SequencesAreOneToN(c.audit, iid);
    if |t.audits| > 0 {
      NumberIsFresh(c.audit, t.audits, iid, 0);
    }
    if |t.audits| > 1 {
      NumberIsFresh(c.audit, t.audits, iid, 1);
      NewNumbersDiffer(c.audit, t.audits);
    }
  }

  /** A payment row that an accepted commit writes was read as it is still stored. */
  lemma {:induction false} WrittenIntentIsCurrent(c: Store, rows: Store, iid: string, t: Txn)
    requires Inv(c) && Past(rows, c) && Accepts(c, t) && iid in rows.intents
    requires iid in t.intents && t.intents[iid].Update? && t.intents[iid].read == rows.intents[iid]
    ensures iid in c.intents && c.intents[iid] == rows.intents[iid]
  {
    hide Inv, Constraints;
    assert IntentCurrent(c, iid, t.intents[iid]);
  }

  lemma {:induction false} WrittenRefundIsCurrent(c: Store, refunds: Store, rid: string, t: Txn)
    requires Inv(c) && Past(refunds, c) && Accepts(c, t) && rid in refunds.refunds
    requires rid in t.refunds && t.refunds[rid].Update? && t.refunds[rid].read == refunds.refunds[rid]
    ensures rid in c.refunds && c.refunds[rid] == refunds.refunds[rid]
  {
    hide Inv, Constraints;
    assert RefundCurrent(c, rid, t.refunds[rid]);
  }

  // ------------------------------------------------------------ refused inserts

  lemma {:induction false} SameKeyIsRefused(c: Store, t: Txn, rid: string, r: string)
    requires rid in t.refunds && t.refunds[rid].Insert? && t.refunds.Keys == {rid} && r in c.refunds
    requires c.refunds[r].business == t.refunds[rid].row.business && c.refunds[r].key == t.refunds[rid].row.key
    ensures !Accepts(c, t)
  {
    hide RowChecks, ForeignKeys, UniqueIntents, UniqueSequences;
    if r == rid {
      assert !RefundCurrent(c, rid, t.refunds[rid]);
    } else {
      var d := Apply(c, t);
      assert d.refunds[r] == c.refunds[r] && d.refunds[rid] == StoredRefund(t.refunds[rid]);
      assert RefundsClash(d.refunds[r], d.refunds[rid]);
    }
  }

  lemma {:induction false} SameIntentKeyIsRefused(c: Store, t: Txn, iid: string, i: string)
    requires iid in t.intents && t.intents[iid].Insert? && t.intents.Keys == {iid} && i in c.intents
    requires c.intents[i].business == t.intents[iid].row.business && c.intents[i].key == t.intents[iid].row.key
    ensures !Accepts(c, t)
  {
    hide RowChecks, ForeignKeys, UniqueRefunds, UniqueSequences;
    if i == iid {
      assert !IntentCurrent(c, iid, t.intents[iid]);
    } else {
      var d := Apply(c, t);
      assert d.intents[i] == c.intents[i] && d.intents[iid] == StoredIntent(t.intents[iid]);
      assert IntentsClash(d.intents[i], d.intents[iid]);
    }
  }

  lemma {:induction false} RefundKeyIsFree(c: Store, business: string, key: string, rid: string, t: Txn)
    requires Accepts(c, t) && rid in t.refunds && t.refunds[rid].Insert? && t.refunds.Keys == {rid}
    requires t.refunds[rid].row.business == business && t.refunds[rid].row.key == key
    ensures !RefundKeyUsed(c, business, key)
  {
    hide Accepts;
    if RefundKeyUsed(c, business, key) {
      var r :| r in c.refunds && c.refunds[r].business == business && c.refunds[r].key == key;
      SameKeyIsRefused(c, t, rid, r);
    }
  }

  lemma {:induction false} IntentKeyIsFree(c: Store, business: string, key: string, iid: string, t: Txn)
    requires Accepts(c, t) && iid in t.intents && t.intents[iid].Insert? && t.intents.Keys == {iid}
    requires t.intents[iid].row.business == business && t.intents[iid].row.key == key
    ensures !IntentKeyUsed(c, business, key)
  {
    hide Accepts;
    if IntentKeyUsed(c, business, key) {
      var i :| i in c.intents && c.intents[i].business == business && c.intents[i].key == key;
      SameIntentKeyIsRefused(c, t, iid, i);
    }
  }

  // ----------------------------------------------------------- operation by operation

  lemma {:induction false} CreateSerial(c: Store, business: string, key: string, iid: string, request: CreateRequest,
                                        now: int, keys: Store, trail: Store, t: Txn)
    requires Inv(c) && Past(trail, c) && Accepts(c, t)
    requires CreatePlan(business, key, iid, request, now, keys, trail) == Write([t])
    ensures CreatePlan(business, key, iid, request, now, c, c) == Write([t])
  {
    hide Inv, Past, Accepts, MaxSequence, ValidRequest, IntentKeyUsed, IntentKeyMatches;
    var stored := MaxSequence(trail.audit, iid);
    ReadFacts(c, trail, trail, iid);
    NumbersAreCurrent(c, t, iid, stored, stored);
    IntentKeyIsFree(c, business, key, iid, t);
  }

  lemma {:induction false} CheckoutSerial(c: Store, business: string, iid: string, rows: Store, trail: Store,
                                          reply: CheckoutReply, t: Txn)
    requires Inv(c) && Past(rows, c) && Past(trail, c) && Accepts(c, t)
    requires CheckoutPlan(business, iid, rows, trail, reply) == Write([t]) && WritesLedger([t])
    ensures CheckoutPlan(business, iid, c, c, reply) == Write([t])
  {
    hide Inv, Past, Accepts, MaxSequence, ValidCheckout, PaymentTransitions;
    var stored := MaxSequence(trail.audit, iid);
    ReadFacts(c, rows, trail, iid);
    NumbersAreCurrent(c, t, iid, stored, stored);
    WrittenIntentIsCurrent(c, rows, iid, t);
  }

  lemma {:induction false} CancelSerial(c: Store, business: string, iid: string, rows: Store, trail: Store,
                                        reply: CancelReply, t: Txn)
    requires Inv(c) && Past(rows, c) && Past(trail, c) && Accepts(c, t)
    requires CancelPlan(business, iid, rows, trail, reply) == Write([t]) && WritesLedger([t])
    ensures CancelPlan(business, iid, c, c, reply) == Write([t])
  {
    hide Inv, Past, Accepts, MaxSequence, PaymentTransitions;
    var stored := MaxSequence(trail.audit, iid);
    ReadFacts(c, rows, trail, iid);
    NumbersAreCurrent(c, t, iid, stored, stored);
    WrittenIntentIsCurrent(c, rows, iid, t);
  }

  lemma {:induction false} ReserveSerial(c: Store, business: string, rid: string, key: string, request: RefundRequest,
                                         keys: Store, rows: Store, trail: Store, t: Txn)
    requires Inv(c) && Past(rows, c) && Past(trail, c) && Accepts(c, t)
    requires ReservePlan(business, rid, key, request, keys, rows, trail) == Write([t])
    ensures ReservePlan(business, rid, key, request, c, c, c) == Write([t])
  {
    hide Inv, Past, Accepts, MaxSequence, RefundKeyUsed, RefundKeyMatches, IntentPast, IntentInv, IntentCheck,
      MoneyStatus;
    var iid := request.intent;
    var stored := MaxSequence(trail.audit, iid);
    ReadFacts(c, rows, trail, iid);
    NumbersAreCurrent(c, t, iid, stored, stored);
    WrittenIntentIsCurrent(c, rows, iid, t);
    RefundKeyIsFree(c, business, key, rid, t);
  }

  // ------------------------------------------------------------------ settling

  /** A completion depends on the second audit look-up only when it moves the payment's status too. */
  lemma {:induction false} CompletedAtOnce(iid: string, rid: string, read: Intent, refundRead: Refund,
                                           name: Option<string>, stored: nat, storedAgain: nat, source: AuditSource)
    requires refundRead.status == RefundPending && refundRead.amount > 0
    ensures var rw := Completed(iid, rid, read, refundRead, name, stored, storedAgain, source);
            && 1 <= |rw.work.added| <= 2
            && rw.work.added[0].intent == iid && rw.work.added[0].sequence == stored + 1
            && (if |rw.work.added| == 1 then rw == Completed(iid, rid, read, refundRead, name, stored, stored, source)
                else rw.work.added[1].intent == iid && rw.work.added[1].sequence == storedAgain + 2)
  {
  }

  lemma {:induction false} CompletedSerial(c: Store, iid: string, rid: string, name: Option<string>, rows: Store,
                                           refunds: Store, trail: Store, trailAgain: Store, source: AuditSource, t: Txn)
    requires Inv(c) && Past(rows, c) && Past(refunds, c) && Past(trail, c) && Past(trailAgain, c) && Accepts(c, t)
    requires iid in rows.intents && rid in refunds.refunds && refunds.refunds[rid].status == RefundPending
    requires t == RefundTxn(iid, rows.intents[iid], rid, refunds.refunds[rid],
                            Completed(iid, rid, rows.intents[iid], refunds.refunds[rid], name,
                                      MaxSequence(trail.audit, iid), MaxSequence(trailAgain.audit, iid), source))
    ensures iid in c.intents && rid in c.refunds
    ensures c.intents[iid] == rows.intents[iid] && c.refunds[rid] == refunds.refunds[rid]
    ensures Completed(iid, rid, rows.intents[iid], refunds.refunds[rid], name,
                      MaxSequence(trail.audit, iid), MaxSequence(trailAgain.audit, iid), source) ==
            Completed(iid, rid, rows.intents[iid], refunds.refunds[rid], name,
                      MaxSequence(c.audit, iid), MaxSequence(c.audit, iid), source)
  {
    hide Inv, Past, Accepts, MaxSequence, Completed;
    var stored, storedAgain := MaxSequence(trail.audit, iid), MaxSequence(trailAgain.audit, iid);
    var read, refundRead := rows.intents[iid], refunds.refunds[rid];
    ReadFacts(c, rows, trail, iid);
    ReadFacts(c, rows, trailAgain, iid);
    RefundFacts(c, refunds, rid);
    CompletedAtOnce(iid, rid, read, refundRead, name, stored, storedAgain, source);
    CompletedAlwaysWrites(iid, rid, read, refundRead, name, stored, storedAgain, source);
    NumbersAreCurrent(c, t, iid, stored, storedAgain);
    WrittenIntentIsCurrent(c, rows, iid, t);
    WrittenRefundIsCurrent(c, refunds, rid, t);
  }

  lemma {:induction false} FailedWrites(iid: string, rid: string, read: Intent, refundRead: Refund,
                                        name: Option<string>, stored: nat, source: AuditSource)
    requires refundRead.status == RefundPending && refundRead.amount > 0
    ensures var rw := FailedWork(iid, rid, read, refundRead, name, stored, source);
            && |rw.work.added| == 1 && rw.work.added[0].intent == iid && rw.work.added[0].sequence == stored + 1
            && rw.refund != refundRead && rw.work.intent != read
  {
  }

  lemma {:induction false} FailedSerial(c: Store, iid: string, rid: string, name: Option<string>, rows: Store,
                                        refunds: Store, trail: Store, source: AuditSource, t: Txn)
    requires Inv(c) && Past(rows, c) && Past(refunds, c) && Past(trail, c) && Accepts(c, t)
    requires iid in rows.intents && rid in refunds.refunds && refunds.refunds[rid].status == RefundPending
    requires t == RefundTxn(iid, rows.intents[iid], rid, refunds.refunds[rid],
                            FailedWork(iid, rid, rows.intents[iid], refunds.refunds[rid], name,
                                       MaxSequence(trail.audit, iid), source))
    ensures iid in c.intents && rid in c.refunds
    ensures c.intents[iid] == rows.intents[iid] && c.refunds[rid] == refunds.refunds[rid]
    ensures MaxSequence(trail.audit, iid) == MaxSequence(c.audit, iid)
  {
    hide Inv, Past, Accepts, MaxSequence, FailedWork;
    var stored := MaxSequence(trail.audit, iid);
    ReadFacts(c, rows, trail, iid);
    RefundFacts(c, refunds, rid);
    FailedWrites(iid, rid, rows.intents[iid], refunds.refunds[rid], name, stored, source);
    NumbersAreCurrent(c, t, iid, stored, stored);
    WrittenIntentIsCurrent(c, rows, iid, t);
    WrittenRefundIsCurrent(c, refunds, rid, t);
  }

  /** Naming a refund writes nothing but the refund row, whatever the payment's row is. */
  lemma {:induction false} NamedWrites(iid: string, rid: string, name: string, read: Intent, now: Intent,
                                       refundRead: Refund)
    ensures var named := refundRead.(providerRefund := Some(name));
            var t := RefundTxn(iid, read, rid, refundRead, RefundWork(false, named, Work(read, [])));
            && t == RefundTxn(iid, now, rid, refundRead, RefundWork(false, named, Work(now, [])))
            && (WritesLedger([t]) ==>
                  rid in t.refunds && t.refunds[rid].Update? && t.refunds[rid].read == refundRead)
  {
  }

  lemma {:induction false} SameOwner(c: Store, rows: Store, iid: string)
    requires Past(rows, c) && iid in rows.intents
    ensures iid in c.intents && c.intents[iid].business == rows.intents[iid].business
  {
    hide Inv;
  }

  lemma {:induction false} RecordSerial(c: Store, business: string, rid: string, refunds: Store, rows: Store,
                                        trail: Store, trailAgain: Store, reply: RefundReply, t: Txn)
    requires Inv(c) && Past(rows, c) && Past(refunds, c) && Past(trail, c) && Past(trailAgain, c) && Accepts(c, t)
    requires RecordPlan(business, rid, refunds, rows, trail, trailAgain, reply) == Write([t]) && WritesLedger([t])
    ensures RecordPlan(business, rid, c, c, c, c, reply) == Write([t])
  {
    hide Inv, Past, Accepts, RecordPlan, RefundTxn, Completed, FailedWork, MaxSequence, WritesLedger;
    RecordParts(business, rid, refunds, rows, trail, trailAgain, reply);
    RecordOwns(business, rid, refunds, rows, trail, trailAgain, reply);
    var read := refunds.refunds[rid];
    var iid := read.intent;
    match reply {
      case Declined => FailedSerial(c, iid, rid, read.providerRefund, rows, refunds, trail, Api, t);
      case Reported(ref, RefundSucceeded) =>
        CompletedSerial(c, iid, rid, Some(ref), rows, refunds, trail, trailAgain, Api, t);
      case Reported(ref, RefundFailed) => FailedSerial(c, iid, rid, Some(ref), rows, refunds, trail, Api, t);
      case Reported(ref, RefundPending) =>
        SameOwner(c, rows, iid);
        NamedWrites(iid, rid, ref, rows.intents[iid], c.intents[iid], read);
        WrittenRefundIsCurrent(c, refunds, rid, t);
    }
    RecordPlanIs(business, rid, c, reply);
  }

  lemma {:induction false} RecordOwns(business: string, rid: string, refunds: Store, rows: Store, trail: Store,
                                      trailAgain: Store, reply: RefundReply)
    requires RecordPlan(business, rid, refunds, rows, trail, trailAgain, reply).Write?
    ensures rid in refunds.refunds && refunds.refunds[rid].business == business
    ensures Owns(rows, business, refunds.refunds[rid].intent) && !reply.Unreachable?
    ensures var refundRead := refunds.refunds[rid];
            !Recorded(rid, refundRead, rows.intents[refundRead.intent], MaxSequence(trail.audit, refundRead.intent),
                      MaxSequence(trailAgain.audit, refundRead.intent), reply).raised
  {
    hide MaxSequence, CompleteRefund, FailRefund, RefundTxn;
    FailNeverRaises(refunds.refunds[rid].intent, rid);
    var read := refunds.refunds[rid];
    assert read.(providerRefund := read.providerRefund) == read;
  }

  lemma {:induction false} FailNeverRaises(iid: string, rid: string)
    ensures forall read: Intent, refund: Refund, stored: nat, source | refund.status == RefundPending ::
              !FailRefund(iid, rid, RefundWork(false, refund, Work(read, [])), stored, source).raised
  {
  }

  /** The plan at one state, when the refund is pending there and nothing is refused. */
  lemma {:induction false} RecordPlanIs(business: string, rid: string, c: Store, reply: RefundReply)
    requires rid in c.refunds && c.refunds[rid].business == business && c.refunds[rid].status == RefundPending
    requires Owns(c, business, c.refunds[rid].intent) && !reply.Unreachable?
    requires var r := c.refunds[rid];
             !Recorded(rid, r, c.intents[r.intent], MaxSequence(c.audit, r.intent), MaxSequence(c.audit, r.intent),
                       reply).raised
    ensures var r := c.refunds[rid];
            RecordPlan(business, rid, c, c, c, c, reply) ==
            Write([RefundTxn(r.intent, c.intents[r.intent], rid, r,
                             Recorded(rid, r, c.intents[r.intent], MaxSequence(c.audit, r.intent),
                                      MaxSequence(c.audit, r.intent), reply))])
  {
    hide MaxSequence, CompleteRefund, FailRefund, RefundTxn;
    var r := c.refunds[rid];
    assert r.(providerRefund := r.providerRefund) == r;
  }

  // --------------------------------------------------------------------- expiry

  lemma {:induction false} ExpireOneSerial(c: Store, iid: string, rows: Store, trail: Store)
    requires Inv(c) && Past(rows, c) && Past(trail, c)
    requires iid in rows.intents && rows.intents[iid].status in {Created, Pending, RequiresAction}
    requires Accepts(c, ExpireOne(iid, rows, trail))
    ensures iid in c.intents && c.intents[iid] == rows.intents[iid]
            && ExpireOne(iid, rows, trail) == ExpireOne(iid, c, c)
  {
    hide Inv, Past, Accepts, MaxSequence;
    var stored := MaxSequence(trail.audit, iid);
    var t := ExpireOne(iid, rows, trail);
    ReadFacts(c, rows, trail, iid);
    NumbersAreCurrent(c, t, iid, stored, stored);
    WrittenIntentIsCurrent(c, rows, iid, t);
  }

  lemma {:induction false} MaxSequenceForeign(audit: seq<AuditRow>, row: AuditRow, iid: string)
    ensures row.intent != iid ==> MaxSequence(audit + [row], iid) == MaxSequence(audit, iid)
  {
    assert (audit + [row])[..|audit|] == audit;
  }

  /** Expiring one payment is no part of expiring another. */
  lemma {:induction false} ExpireOnesCommute(c: Store, iid: string, other: string)
    requires iid in c.intents && other in c.intents && iid != other
    requires c.intents[iid].status in {Created, Pending, RequiresAction}
    ensures var d := Apply(c, ExpireOne(iid, c, c));
            && other in d.intents && d.intents[other] == c.intents[other]
            && ExpireOne(other, d, d) == ExpireOne(other, c, c)
  {
    hide MaxSequence;
    var t := ExpireOne(iid, c, c);
    var d := Apply(c, t);
    assert d.audit == c.audit + [t.audits[0]];
    MaxSequenceForeign(c.audit, t.audits[0], other);
  }

  function Same(s: Store, n: nat): seq<Store> {
    seq(n, k => s)
  }

  lemma {:induction false} ExpireSerial(c: Store, due: seq<string>, rows: Store, trails: seq<Store>)
    requires Inv(c) && Past(rows, c) && |trails| == |due| && forall k | 0 <= k < |trails| :: Past(trails[k], c)
    requires forall k | 0 <= k < |due| ::
             due[k] in rows.intents && rows.intents[due[k]].status in {Created, Pending, RequiresAction}
    requires forall j, k | 0 <= j < k < |due| :: due[j] != due[k]
    requires CommitAll(c, ExpireParts(due, rows, trails)).Some?
    ensures forall k | 0 <= k < |due| :: due[k] in c.intents && c.intents[due[k]] == rows.intents[due[k]]
    ensures ExpireParts(due, rows, trails) == ExpireParts(due, c, Same(c, |due|))
    decreases |due|
  {
    hide Inv, Past, Follows, Accepts, ExpireOne, Apply;
    if due != [] {
      var parts := ExpireParts(due, rows, trails);
      assert parts[1..] == ExpireParts(due[1..], rows, trails[1..]);
      var d := Apply(c, parts[0]);
      ExpireOneSerial(c, due[0], rows, trails[0]);
      ExpireOneFollows(c, due[0], rows, trails[0]);
      PastStaysPast(rows, c, d);
      forall k | 0 <= k < |trails| ensures Past(trails[k], d) {
        PastStaysPast(trails[k], c, d);
      }
      FollowsHasInv(c, d);
      ExpireSerial(d, due[1..], rows, trails[1..]);
      forall k | 1 <= k < |due|
        ensures due[k] in c.intents && c.intents[due[k]] == rows.intents[due[k]] && parts[k] == ExpireOne(due[k], c, c)
      {
        assert parts[k] == parts[1..][k - 1] && due[1..][k - 1] == due[k];
        ReadStays(c, rows, due[k]);
        ExpireOnesCommute(c, due[0], due[k]);
      }
    }
  }

  lemma {:induction false} ReadStays(c: Store, rows: Store, iid: string)
    requires Past(rows, c) && iid in rows.intents
    ensures iid in c.intents
  {
    hide Inv;
  }

  // --------------------------------------------------------------------- events

  lemma {:induction false} PaymentEventSerial(c: Store, iid: string, rows: Store, trail: Store, event: Event)
    requires Inv(c) && Past(rows, c) && Past(trail, c) && iid in rows.intents && !IsRefundEvent(event.kind)
    requires var t := ApplyPaymentEvent(iid, rows.intents[iid], event, MaxSequence(trail.audit, iid)).txn;
             Accepts(c, t) && WritesLedger([t])
    ensures iid in c.intents && c.intents[iid] == rows.intents[iid]
    ensures ApplyPaymentEvent(iid, rows.intents[iid], event, MaxSequence(trail.audit, iid)) ==
            ApplyPaymentEvent(iid, c.intents[iid], event, MaxSequence(c.audit, iid))
  {
    hide Inv, Past, Accepts, MaxSequence, PaymentTransitions;
    var stored := MaxSequence(trail.audit, iid);
    var t := ApplyPaymentEvent(iid, rows.intents[iid], event, stored).txn;
    ReadFacts(c, rows, trail, iid);
    NumbersAreCurrent(c, t, iid, stored, stored);
    WrittenIntentIsCurrent(c, rows, iid, t);
  }

  lemma {:induction false} RefundEventSerial(c: Store, iid: string, rid: string, rows: Store, refunds: Store,
                                             trail: Store, trailAgain: Store, event: Event)
    requires Inv(c) && Past(rows, c) && Past(refunds, c) && Past(trail, c) && Past(trailAgain, c)
    requires iid in rows.intents && rid in refunds.refunds && IsRefundEvent(event.kind)
    requires var t := ApplyRefundEvent(iid, rows.intents[iid], rid, refunds.refunds[rid], event,
                                       MaxSequence(trail.audit, iid), MaxSequence(trailAgain.audit, iid)).txn;
             Accepts(c, t) && WritesLedger([t])
    ensures iid in c.intents && c.intents[iid] == rows.intents[iid]
    ensures rid in c.refunds && c.refunds[rid] == refunds.refunds[rid] && c.refunds[rid].status == RefundPending
    ensures ApplyRefundEvent(iid, rows.intents[iid], rid, refunds.refunds[rid], event,
                             MaxSequence(trail.audit, iid), MaxSequence(trailAgain.audit, iid)) ==
            ApplyRefundEvent(iid, c.intents[iid], rid, c.refunds[rid], event, MaxSequence(c.audit, iid),
                             MaxSequence(c.audit, iid))
  {
    hide Inv, Past, Accepts, MaxSequence;
    var read := refunds.refunds[rid];
    assert read.(providerRefund := read.providerRefund) == read;
    var t := ApplyRefundEvent(iid, rows.intents[iid], rid, read, event, MaxSequence(trail.audit, iid),
                              MaxSequence(trailAgain.audit, iid)).txn;
    if event.kind == RefundSucceededEvent {
      CompletedSerial(c, iid, rid, read.providerRefund, rows, refunds, trail, trailAgain, ProviderEvent, t);
    } else {
      FailedSerial(c, iid, rid, read.providerRefund, rows, refunds, trail, ProviderEvent, t);
    }
  }

  /** What the two look-ups of an event find in one state; refunds are only looked up for refund events. */
  predicate LooksUp(s: Store, key: EventKey, event: Event, found: Option<string>, foundRefund: Option<string>) {
    FindsPayment(s, key, event, found) && (IsRefundEvent(event.kind) ==> FindsRefund(s, key, event, found, foundRefund))
  }

  /** The ledger transaction of an event applied alone, every read at the present state. */
  function EventAlone(s: Store, key: EventKey, event: Event, found: Option<string>, foundRefund: Option<string>): Txn {
    if !LooksUp(s, key, event, found, foundRefund) then NOTHING
    else ApplyEvent(event, found, if IsRefundEvent(event.kind) then foundRefund else None, s, s, s, s).txn
  }

  /** An accepted attempt either wrote no ledger row or wrote exactly what the event comes to at the present state, with
      the look-ups done there. */
  lemma {:induction false} EventSerial(c: Store, key: EventKey, event: Event, found: Option<string>,
                                       foundRefund: Option<string>, rows: Store, refunds: Store, trail: Store,
                                       trailAgain: Store, t: Txn)
    requires FindsPayment(rows, key, event, found) && FindsRefund(refunds, key, event, found, foundRefund)
    requires t == ApplyEvent(event, found, foundRefund, rows, refunds, trail, trailAgain).txn
    requires Inv(c) && Past(rows, c) && Past(refunds, c) && Past(trail, c) && Past(trailAgain, c)
    requires Accepts(c, t) && WritesLedger([t])
    ensures LooksUp(c, key, event, found, foundRefund)
    ensures t == EventAlone(c, key, event, found, foundRefund)
  {
    hide Inv, Past, Accepts, MaxSequence, ApplyPaymentEvent, ApplyRefundEvent, WritesLedger;
    NothingWritesNothing();
    if IsRefundEvent(event.kind) {
      RefundEventSerial(c, found.value, foundRefund.value, rows, refunds, trail, trailAgain, event);
    } else {
      PaymentEventSerial(c, found.value, rows, trail, event);
    }
  }

  lemma {:induction false} NothingWritesNothing()
    ensures !WritesLedger([NOTHING])
  {
  }

  // ----------------------------------------------------------------- whole steps

  function PartsOf(p: Plan): seq<Txn> {
    if p.Write? then p.parts else []
  }

  /** What a journal entry does when it runs alone in a state: its operation or event with every read at that state. */
  function Alone(e: Entry, s: Store): seq<Txn> {
    if !e.written then []
    else match e
      case Application(key, event, found, foundRefund, _) => [EventAlone(s, key, event, found, foundRefund)]
      case Operation(step, _) => OperationAlone(step, s)
  }

  /** Each listed payment is due, and listed once. */
  predicate AllDue(s: Store, business: string, now: int, due: seq<string>) {
    && (forall k | 0 <= k < |due| :: Due(s, business, now, due[k]))
    && (forall j, k | 0 <= j < k < |due| :: due[j] != due[k])
  }

  function OperationAlone(step: Step, s: Store): seq<Txn> {
    match step
    case CreateIntent(business, key, iid, request, now, _, _) =>
      PartsOf(CreatePlan(business, key, iid, request, now, s, s))
    case RequestCheckout(business, iid, _, _, checkout) => PartsOf(CheckoutPlan(business, iid, s, s, checkout))
    case CancelPayment(business, iid, _, _, cancel) => PartsOf(CancelPlan(business, iid, s, s, cancel))
    case ReserveRefund(business, rid, key, refund, _, _, _) => PartsOf(ReservePlan(business, rid, key, refund, s, s, s))
    case RecordRefund(business, rid, _, _, _, _, reply) => PartsOf(RecordPlan(business, rid, s, s, s, s, reply))
    case ExpireDue(business, now, due, _, _) =>
      if AllDue(s, business, now, due) then ExpireParts(due, s, Same(s, |due|)) else []
    case _ => []
  }

  /** A unit of work without its inbox row. */
  function Bare(parts: seq<Txn>): seq<Txn> {
    seq(|parts|, k requires 0 <= k < |parts| => parts[k].(inbox := NoInbox))
  }

  lemma {:induction false} PlansHaveNoInbox(c: Store, step: Step)
    ensures !step.ReceiveEvent? && !step.AttemptEvent? && !step.MarkFailed? ==>
              forall k | 0 <= k < |OperationAlone(step, c)| :: OperationAlone(step, c)[k].inbox == NoInbox
  {
    hide MaxSequence, RefundKeyUsed, IntentKeyUsed, Noted, Transition, ValidCheckout, CheckedOut, CompleteRefund,
      FailRefund, Owns;
  }

  lemma {:induction false} BareOfBare(parts: seq<Txn>)
    requires forall k | 0 <= k < |parts| :: parts[k].inbox == NoInbox
    ensures Bare(parts) == parts
  {
  }

  lemma {:induction false} ExpireIsSerial(w: World, step: Step)
    requires WorldInv(w) && step.ExpireDue?
    requires StepPlan(w, step).Write? && CommitAll(Last(w), StepPlan(w, step).parts).Some?
    ensures OperationAlone(step, Last(w)) == StepPlan(w, step).parts
  {
    assert w.history != [];
    hide Inv, Past, CommitAll, WorldInv, Seen, ExpireParts, Due, StepPlan, OperationAlone;
    ExpirePlanIs(w, step);
    var rows, trails := Seen(w, step.rowAt), SeenEach(w, step.trailsAt);
    ReadsArePast(w, step.rowAt);
    EachReadIsPast(w, step.trailsAt);
    DueAreOpen(rows, step.business, step.now, step.due);
    ExpireSerial(Last(w), step.due, rows, trails);
    StillDue(rows, Last(w), step.business, step.now, step.due);
    ExpiringAlone(step, Last(w));
  }

  /** What was due in the rows read is due in the same rows. */
  lemma {:induction false} StillDue(rows: Store, c: Store, business: string, now: int, due: seq<string>)
    requires DueList(rows, business, now, due)
    requires forall k | 0 <= k < |due| ::
               due[k] in c.intents && due[k] in rows.intents && c.intents[due[k]] == rows.intents[due[k]]
    ensures AllDue(c, business, now, due)
  {
    forall k | 0 <= k < |due| ensures Due(c, business, now, due[k]) {
      assert Due(rows, business, now, due[k]);
    }
  }

  lemma {:induction false} ExpiringAlone(step: Step, s: Store)
    requires step.ExpireDue? && AllDue(s, step.business, step.now, step.due)
    ensures OperationAlone(step, s) == ExpireParts(step.due, s, Same(s, |step.due|))
  {
    hide ExpireParts;
  }

  lemma {:induction false} RecordIsSerial(w: World, step: Step, t: Txn)
    requires WorldInv(w) && step.RecordRefund? && StepPlan(w, step) == Write([t]) && Accepts(Last(w), t)
             && WritesLedger([t])
    ensures OperationAlone(step, Last(w)) == [t]
  {
    assert w.history != [];
    hide Inv, Past, Accepts, WorldInv, Seen, WritesLedger, RecordPlan, StepPlan, OperationAlone;
    RecordPlanOf(w, step);
    var rows, refunds := Seen(w, step.rowAt), Seen(w, step.refundAt);
    var trail, trailAgain := Seen(w, step.trailAt), Seen(w, step.trailAgainAt);
    ReadsArePast(w, step.refundAt);
    ReadsArePast(w, step.rowAt);
    ReadsArePast(w, step.trailAt);
    ReadsArePast(w, step.trailAgainAt);
    RecordSerial(Last(w), step.business, step.rid, refunds, rows, trail, trailAgain, step.reply, t);
    RecordingAlone(step, Last(w));
  }

  lemma {:induction false} RecordingAlone(step: Step, s: Store)
    requires step.RecordRefund?
    ensures OperationAlone(step, s) == PartsOf(RecordPlan(step.business, step.rid, s, s, s, s, step.reply))
  {
    hide RecordPlan;
  }

  // What the four payment steps plan, and what they come to alone, spelled out.

  lemma {:induction false} CreatePlans(w: World, step: Step, s: Store)
    requires w.history != [] && step.CreateIntent?
    ensures StepPlan(w, step) == CreatePlan(step.business, step.key, step.iid, step.request, step.now,
                                            Seen(w, step.keysAt), Seen(w, step.trailAt))
    ensures OperationAlone(step, s) ==
            PartsOf(CreatePlan(step.business, step.key, step.iid, step.request, step.now, s, s))
  {
    hide CreatePlan, Seen;
  }

  lemma {:induction false} CheckoutPlans(w: World, step: Step, s: Store)
    requires w.history != [] && step.RequestCheckout?
    ensures StepPlan(w, step) ==
            CheckoutPlan(step.business, step.iid, Seen(w, step.rowAt), Seen(w, step.trailAt), step.checkout)
    ensures OperationAlone(step, s) == PartsOf(CheckoutPlan(step.business, step.iid, s, s, step.checkout))
  {
    hide CheckoutPlan, Seen;
  }

  lemma {:induction false} CancelPlans(w: World, step: Step, s: Store)
    requires w.history != [] && step.CancelPayment?
    ensures StepPlan(w, step) ==
            CancelPlan(step.business, step.iid, Seen(w, step.rowAt), Seen(w, step.trailAt), step.cancel)
    ensures OperationAlone(step, s) == PartsOf(CancelPlan(step.business, step.iid, s, s, step.cancel))
  {
    hide CancelPlan, Seen;
  }

  lemma {:induction false} ReservePlans(w: World, step: Step, s: Store)
    requires w.history != [] && step.ReserveRefund?
    ensures StepPlan(w, step) == ReservePlan(step.business, step.rid, step.key, step.refund, Seen(w, step.keysAt),
                                             Seen(w, step.rowAt), Seen(w, step.trailAt))
    ensures OperationAlone(step, s) == PartsOf(ReservePlan(step.business, step.rid, step.key, step.refund, s, s, s))
  {
    hide ReservePlan, Seen;
  }

  lemma {:induction false} CreateIsSerial(w: World, step: Step, t: Txn)
    requires WorldInv(w) && step.CreateIntent? && StepPlan(w, step) == Write([t]) && Accepts(Last(w), t)
    ensures OperationAlone(step, Last(w)) == [t]
  {
    assert w.history != [];
    hide Inv, Past, Accepts, WorldInv, Seen, CreatePlan, StepPlan, OperationAlone;
    CreatePlans(w, step, Last(w));
    ReadsArePast(w, step.trailAt);
    CreateSerial(Last(w), step.business, step.key, step.iid, step.request, step.now, Seen(w, step.keysAt),
                 Seen(w, step.trailAt), t);
  }

  lemma {:induction false} CheckoutIsSerial(w: World, step: Step, t: Txn)
    requires WorldInv(w) && step.RequestCheckout? && StepPlan(w, step) == Write([t]) && Accepts(Last(w), t)
    requires WritesLedger([t])
    ensures OperationAlone(step, Last(w)) == [t]
  {
    assert w.history != [];
    hide Inv, Past, Accepts, WorldInv, Seen, WritesLedger, CheckoutPlan, StepPlan, OperationAlone;
    CheckoutPlans(w, step, Last(w));
    ReadsArePast(w, step.rowAt);
    ReadsArePast(w, step.trailAt);
    CheckoutSerial(Last(w), step.business, step.iid, Seen(w, step.rowAt), Seen(w, step.trailAt), step.checkout, t);
  }

  lemma {:induction false} CancelIsSerial(w: World, step: Step, t: Txn)
    requires WorldInv(w) && step.CancelPayment? && StepPlan(w, step) == Write([t]) && Accepts(Last(w), t)
    requires WritesLedger([t])
    ensures OperationAlone(step, Last(w)) == [t]
  {
    assert w.history != [];
    hide Inv, Past, Accepts, WorldInv, Seen, WritesLedger, CancelPlan, StepPlan, OperationAlone;
    CancelPlans(w, step, Last(w));
    ReadsArePast(w, step.rowAt);
    ReadsArePast(w, step.trailAt);
    CancelSerial(Last(w), step.business, step.iid, Seen(w, step.rowAt), Seen(w, step.trailAt), step.cancel, t);
  }

  lemma {:induction false} ReserveIsSerial(w: World, step: Step, t: Txn)
    requires WorldInv(w) && step.ReserveRefund? && StepPlan(w, step) == Write([t]) && Accepts(Last(w), t)
    ensures OperationAlone(step, Last(w)) == [t]
  {
    assert w.history != [];
    hide Inv, Past, Accepts, WorldInv, Seen, ReservePlan, StepPlan, OperationAlone;
    ReservePlans(w, step, Last(w));
    ReadsArePast(w, step.rowAt);
    ReadsArePast(w, step.trailAt);
    ReserveSerial(Last(w), step.business, step.rid, step.key, step.refund, Seen(w, step.keysAt), Seen(w, step.rowAt),
                  Seen(w, step.trailAt), t);
  }

  lemma {:induction false} PaymentIsSerial(w: World, step: Step, t: Txn)
    requires WorldInv(w) && !step.AttemptEvent? && !step.ReceiveEvent? && !step.MarkFailed? && !step.ExpireDue?
    requires StepPlan(w, step) == Write([t]) && Accepts(Last(w), t) && WritesLedger([t])
    ensures OperationAlone(step, Last(w)) == [t]
  {
    assert w.history != [];
    AsksWriteNothing(w, step);
    hide WorldInv, StepPlan, Accepts, WritesLedger, OperationAlone;
    match step
    case CreateIntent(_, _, _, _, _, _, _) => CreateIsSerial(w, step, t);
    case RequestCheckout(_, _, _, _, _) => CheckoutIsSerial(w, step, t);
    case CancelPayment(_, _, _, _, _) => CancelIsSerial(w, step, t);
    case ReserveRefund(_, _, _, _, _, _, _) => ReserveIsSerial(w, step, t);
    case RecordRefund(_, _, _, _, _, _, _) => RecordIsSerial(w, step, t);
  }

  /** Serializability, one operation: a commit that writes the ledger is the one the operation makes when it runs
      alone. */
  lemma {:induction false} OperationIsSerial(w: World, step: Step)
    requires WorldInv(w) && !step.AttemptEvent? && !step.ReceiveEvent? && !step.MarkFailed?
    requires StepPlan(w, step).Write? && CommitAll(Last(w), StepPlan(w, step).parts).Some?
             && WritesLedger(StepPlan(w, step).parts)
    ensures OperationAlone(step, Last(w)) == StepPlan(w, step).parts
  {
    assert w.history != [];
    var c := Last(w);
    var parts := StepPlan(w, step).parts;
    if step.ExpireDue? {
      ExpireIsSerial(w, step);
    } else {
      SinglePart(w, step);
      OnePart(c, parts);
      hide WorldInv, StepPlan, CommitAll, Accepts, WritesLedger, OperationAlone;
      PaymentIsSerial(w, step, parts[0]);
    }
  }

  /** Serializability, one attempt: it writes no ledger row, or exactly what the event comes to at the present state. */
  lemma {:induction false} AttemptIsSerial(w: World, step: Step)
    requires WorldInv(w) && step.AttemptEvent?
    requires StepPlan(w, step).Write? && CommitAll(Last(w), StepPlan(w, step).parts).Some?
             && WritesLedger(StepPlan(w, step).parts)
    ensures step.eventKey in Seen(w, step.inboxAt).inbox
    ensures var event := Seen(w, step.inboxAt).inbox[step.eventKey].event;
            && LooksUp(Last(w), step.eventKey, event, step.found, step.foundRefund)
            && Bare(StepPlan(w, step).parts) ==
               [EventAlone(Last(w), step.eventKey, event, step.found, step.foundRefund)]
  {
    assert w.history != [];
    hide Inv, Past, Accepts, WorldInv, Seen, ApplyEvent, FindsPayment, FindsRefund, EventAlone, LooksUp, CommitAll,
      Retryable,
      WritesLedger, StepPlan, AttemptPlan, Bare;
    SinglePart(w, step);
    AttemptPlanOf(w, step);
    var c := Last(w);
    var parts := StepPlan(w, step).parts;
    OnePart(c, parts);
    AttemptOf(step.eventKey, step.first, Seen(w, step.inboxAt), step.found, step.foundRefund, Seen(w, step.rowAt),
              Seen(w, step.refundAt), Seen(w, step.trailAt), Seen(w, step.trailAgainAt), parts[0]);
    ReadsArePast(w, step.rowAt);
    ReadsArePast(w, step.refundAt);
    ReadsArePast(w, step.trailAt);
    ReadsArePast(w, step.trailAgainAt);
    var event := Seen(w, step.inboxAt).inbox[step.eventKey].event;
    WithoutInboxIsAccepted(c, parts[0], parts[0].(inbox := NoInbox));
    EventSerial(c, step.eventKey, event, step.found, step.foundRefund, Seen(w, step.rowAt), Seen(w, step.refundAt),
                Seen(w, step.trailAt), Seen(w, step.trailAgainAt), parts[0].(inbox := NoInbox));
  }

  lemma {:induction false} AttemptOf(key: EventKey, first: bool, inbox: Store, found: Option<string>,
                                     foundRefund: Option<string>,
                                     rows: Store, refunds: Store, trail: Store, trailAgain: Store, t: Txn)
    requires AttemptPlan(key, first, inbox, found, foundRefund, rows, refunds, trail, trailAgain) == Write([t])
    ensures key in inbox.inbox
    ensures var event := inbox.inbox[key].event;
            && FindsPayment(rows, key, event, found) && FindsRefund(refunds, key, event, found, foundRefund)
            && t.(inbox := NoInbox) == ApplyEvent(event, found, foundRefund, rows, refunds, trail, trailAgain).txn
  {
    hide MaxSequence, ApplyPaymentEvent, ApplyRefundEvent, Retryable;
  }

  lemma {:induction false} WithoutInboxIsAccepted(c: Store, u: Txn, t: Txn)
    requires Accepts(c, u) && t == u.(inbox := NoInbox) && WritesLedger([u])
    ensures Accepts(c, t) && WritesLedger([t]) && Bare([u]) == [t]
  {
    hide Constraints;
    assert Touches([u][0]) && Touches([t][0]);
    assert Bare([u]) == [t];
    InboxIndependent(Apply(c, u), c.inbox);
    assert Apply(c, t) == Apply(c, u).(inbox := c.inbox);
    assert forall i | i in t.intents :: IntentCurrent(c, i, u.intents[i]);
    assert forall r | r in t.refunds :: RefundCurrent(c, r, u.refunds[r]);
  }
}
