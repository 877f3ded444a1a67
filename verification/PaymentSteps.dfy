/** Plan by plan: a commit accepted by the present store keeps its invariant, whatever earlier states the plan's reads
  saw. */
module PaymentSteps {
  import opened Tables
  import opened PaymentStates
  import opened PaymentStore
  import opened AuditTrail
  import opened PaymentPlans
  import opened PaymentInvariant
  import opened PaymentCommits

  /** `p` is a committed state that a read may have seen when the present state is `c`. */
  ghost predicate Past(p: Store, c: Store) {
    Inv(p) && Extends(p, c)
  }

  /** A committed next state: the invariant holds and nothing earlier was rewritten. */
  ghost predicate Follows(c: Store, d: Store) {
    Inv(d) && Extends(c, d)
  }

  lemma {:induction false} EffectFollows(c: Store, t: Txn, iid: string, rid: string)
    requires Inv(c) && Accepts(c, t) && Effect(c, Apply(c, t), iid, rid)
    ensures Follows(c, Apply(c, t))
  {
    EffectKeeps(c, Apply(c, t), iid, rid);
  }

  lemma {:induction false} PastStaysPast(p: Store, c: Store, d: Store)
    requires Past(p, c) && Follows(c, d)
    ensures Past(p, d)
  {
    ExtendsCompose(p, c, d);
  }

  lemma {:induction false} FollowsCompose(a: Store, b: Store, c: Store)
    requires Follows(a, b) && Follows(b, c)
    ensures Follows(a, c)
  {
    ExtendsCompose(a, b, c);
  }

  lemma {:induction false} FollowsHasInv(c: Store, d: Store)
    requires Follows(c, d)
    ensures Inv(d)
  {
  }

  lemma {:induction false} SelfFollows(c: Store)
    requires Inv(c)
    ensures Follows(c, c)
  {
    hide LedgerInv, Constraints, Leads;
    forall i | i in c.intents ensures IntentLater(c.intents[i], c.intents[i]) {
      LeadsIsClosed(c.intents[i].status, c.intents[i].status, c.intents[i].status);
    }
  }

  lemma {:induction false} InvFits(c: Store, t: Txn, iid: string, stored: nat, storedAgain: nat, rid: string)
    requires Inv(c) && Accepts(c, t) && |t.audits| <= 2
    requires stored <= |Trail(c.audit, iid)| && storedAgain <= |Trail(c.audit, iid)|
    requires |t.audits| > 0 ==> t.audits[0].intent == iid && t.audits[0].sequence == stored + 1
    requires |t.audits| > 1 ==> t.audits[1].intent == iid && t.audits[1].sequence == storedAgain + 2
    ensures Fits(c, t) && Local(c, iid, rid)
  {
    AcceptedFits(c, t, iid, stored, storedAgain);
    LocalOf(c, iid, rid);
  }

  /** What a read of a payment and of the audit numbers at earlier states is worth at the present one. */
  lemma {:induction false} ReadFacts(c: Store, rows: Store, trail: Store, iid: string)
    requires Inv(c) && Past(rows, c) && Past(trail, c)
    ensures iid in rows.intents ==>
              IntentPast(c, iid, rows.intents[iid]) && MoneyStatus(rows.intents[iid]) && IntentCheck(rows.intents[iid])
              && iid in c.intents && IntentInv(c, iid) && IntentCheck(c.intents[iid])
    ensures MaxSequence(trail.audit, iid) <= |Trail(c.audit, iid)|
  {
    EarlierCount(trail.audit, c.audit, iid);
    if iid in rows.intents {
      assert IntentInv(rows, iid);
    }
  }

  lemma {:induction false} RefundFacts(c: Store, refunds: Store, rid: string)
    requires Inv(c) && Past(refunds, c) && rid in refunds.refunds
    ensures RefundPast(c, rid, refunds.refunds[rid]) && refunds.refunds[rid].amount > 0
  {
    hide LedgerInv, ForeignKeys, UniqueIntents, UniqueRefunds, UniqueSequences, IntentCheck, IntentLater, RefundLater;
  }

  lemma {:induction false} MoveFollows(c: Store, rows: Store, trail: Store, iid: string, w: Work)
    requires Inv(c) && Past(rows, c) && Past(trail, c) && iid in rows.intents
    requires OneMove(iid, rows.intents[iid], w)
    requires w.added != [] ==> w.added[0].sequence == MaxSequence(trail.audit, iid) + 1
    requires Accepts(c, IntentTxn(iid, rows.intents[iid], w))
    ensures Follows(c, Apply(c, IntentTxn(iid, rows.intents[iid], w)))
  {
    hide Inv, Past, Follows, Accepts, Fits, Local, IntentInv, Effect, MaxSequence;
    var t := IntentTxn(iid, rows.intents[iid], w);
    ReadFacts(c, rows, trail, iid);
    InvFits(c, t, iid, MaxSequence(trail.audit, iid), MaxSequence(trail.audit, iid), "");
    MoveEffect(c, iid, rows.intents[iid], w, "");
    EffectFollows(c, t, iid, "");
  }

  lemma {:induction false} CreateFollows(c: Store, business: string, key: string, iid: string, request: CreateRequest,
                                         now: int, keys: Store, trail: Store, t: Txn)
    requires Inv(c) && Past(trail, c)
    requires CreatePlan(business, key, iid, request, now, keys, trail) == Write([t])
    requires Accepts(c, t)
    ensures Follows(c, Apply(c, t))
  {
    hide Inv, Past, Follows, Accepts, Fits, Local, IntentInv, Effect, MaxSequence;
    var stored := MaxSequence(trail.audit, iid);
    ReadFacts(c, trail, trail, iid);
    InvFits(c, t, iid, stored, stored, "");
    CreateEffect(c, iid, NewIntent(business, key, request), stored, t, "");
    EffectFollows(c, t, iid, "");
  }

  lemma {:induction false} CheckoutFollows(c: Store, business: string, iid: string, rows: Store, trail: Store,
                                           reply: CheckoutReply, t: Txn)
    requires Inv(c) && Past(rows, c) && Past(trail, c)
    requires CheckoutPlan(business, iid, rows, trail, reply) == Write([t])
    requires Accepts(c, t)
    ensures Follows(c, Apply(c, t))
  {
    hide Inv, Past, Follows, Accepts, IntentInv, MaxSequence;
    var read := rows.intents[iid];
    ReadFacts(c, rows, trail, iid);
    var w := Transition(iid, Work(CheckedOut(read, reply), []), reply.status, MaxSequence(trail.audit, iid), None, Api);
    MoveFollows(c, rows, trail, iid, w);
  }

  lemma {:induction false} CancelFollows(c: Store, business: string, iid: string, rows: Store, trail: Store,
                                         reply: CancelReply, t: Txn)
    requires Inv(c) && Past(rows, c) && Past(trail, c)
    requires CancelPlan(business, iid, rows, trail, reply) == Write([t])
    requires Accepts(c, t)
    ensures Follows(c, Apply(c, t))
  {
    hide Inv, Past, Follows, Accepts, IntentInv, MaxSequence;
    ReadFacts(c, rows, trail, iid);
    MoveFollows(c, rows, trail, iid,
                Transition(iid, Work(rows.intents[iid], []), Cancelled, MaxSequence(trail.audit, iid), None, Api));
  }

  lemma {:induction false} ExpireOneFollows(c: Store, iid: string, rows: Store, trail: Store)
    requires Inv(c) && Past(rows, c) && Past(trail, c)
    requires iid in rows.intents && rows.intents[iid].status in {Created, Pending, RequiresAction}
    requires Accepts(c, ExpireOne(iid, rows, trail))
    ensures Follows(c, Apply(c, ExpireOne(iid, rows, trail)))
  {
    hide Inv, Past, Follows, Accepts, IntentInv, MaxSequence;
    ReadFacts(c, rows, trail, iid);
    MoveFollows(c, rows, trail, iid,
                Transition(iid, Work(rows.intents[iid], []), Expired, MaxSequence(trail.audit, iid), None, System));
  }

  /** The expiry job flushes one part per due payment; all of them together keep the invariant. */
  lemma {:induction false} ExpireFollows(c: Store, due: seq<string>, rows: Store, trails: seq<Store>)
    requires Inv(c) && Past(rows, c) && |trails| == |due| && forall k | 0 <= k < |trails| :: Past(trails[k], c)
    requires forall k | 0 <= k < |due| ::
             due[k] in rows.intents && rows.intents[due[k]].status in {Created, Pending, RequiresAction}
    requires CommitAll(c, ExpireParts(due, rows, trails)).Some?
    ensures Follows(c, CommitAll(c, ExpireParts(due, rows, trails)).value)
    decreases |due|
  {
    hide Inv, Past, Follows, Accepts, ExpireOne;
    if due == [] {
      SelfFollows(c);
    } else {
      var parts := ExpireParts(due, rows, trails);
      assert parts[1..] == ExpireParts(due[1..], rows, trails[1..]);
      var d := Apply(c, parts[0]);
      ExpireOneFollows(c, due[0], rows, trails[0]);
      PastStaysPast(rows, c, d);
      forall k | 0 <= k < |trails| ensures Past(trails[k], d) {
        PastStaysPast(trails[k], c, d);
      }
      FollowsHasInv(c, d);
      ExpireFollows(d, due[1..], rows, trails[1..]);
      FollowsCompose(c, d, CommitAll(c, parts).value);
    }
  }

  lemma {:induction false} ReserveFollows(c: Store, business: string, rid: string, key: string, request: RefundRequest,
                                          keys: Store, rows: Store, trail: Store, t: Txn)
    requires Inv(c) && Past(rows, c) && Past(trail, c)
    requires ReservePlan(business, rid, key, request, keys, rows, trail) == Write([t])
    requires Accepts(c, t)
    ensures Follows(c, Apply(c, t))
  {
    hide Inv, Past, Follows, Accepts, Fits, Local, IntentInv, Effect, MaxSequence;
    var iid := request.intent;
    var read := rows.intents[iid];
    var amount := if request.amount.Some? then request.amount.value else read.captured - read.reserved;
    var stored := MaxSequence(trail.audit, iid);
    ReadFacts(c, rows, trail, iid);
    InvFits(c, t, iid, stored, stored, rid);
    ReserveEffect(c, iid, read, rid, NewRefund(business, key, amount, request), stored, t);
    EffectFollows(c, t, iid, rid);
  }

  /** Settling a refund read as pending, in either direction and from either source. */
  lemma {:induction false} CompleteFollows(c: Store, iid: string, rid: string, name: Option<string>, rows: Store,
                                           refunds: Store,
                        trail: Store, trailAgain: Store, source: AuditSource)
    requires Inv(c) && Past(rows, c) && Past(refunds, c) && Past(trail, c) && Past(trailAgain, c)
    requires iid in rows.intents && rid in refunds.refunds
    requires refunds.refunds[rid].intent == iid && refunds.refunds[rid].status == RefundPending
    requires var rw := Completed(iid, rid, rows.intents[iid], refunds.refunds[rid], name,
                                 MaxSequence(trail.audit, iid), MaxSequence(trailAgain.audit, iid), source);
             Accepts(c, RefundTxn(iid, rows.intents[iid], rid, refunds.refunds[rid], rw))
    ensures var rw := Completed(iid, rid, rows.intents[iid], refunds.refunds[rid], name,
                                MaxSequence(trail.audit, iid), MaxSequence(trailAgain.audit, iid), source);
            !rw.raised && Follows(c, Apply(c, RefundTxn(iid, rows.intents[iid], rid, refunds.refunds[rid], rw)))
  {
    hide Inv, Past, Follows, Accepts, Fits, Local, IntentInv, Effect, MaxSequence;
    var stored, storedAgain := MaxSequence(trail.audit, iid), MaxSequence(trailAgain.audit, iid);
    var read, refundRead := rows.intents[iid], refunds.refunds[rid];
    var t := RefundTxn(iid, read, rid, refundRead,
                       Completed(iid, rid, read, refundRead, name, stored, storedAgain, source));
    ReadFacts(c, rows, trail, iid);
    ReadFacts(c, rows, trailAgain, iid);
    RefundFacts(c, refunds, rid);
    InvFits(c, t, iid, stored, storedAgain, rid);
    CompleteEffect(c, iid, read, rid, refundRead, name, stored, storedAgain, source);
    EffectFollows(c, t, iid, rid);
  }

  lemma {:induction false} FailFollows(c: Store, iid: string, rid: string, name: Option<string>, rows: Store,
                                       refunds: Store, trail: Store, source: AuditSource)
    requires Inv(c) && Past(rows, c) && Past(refunds, c) && Past(trail, c)
    requires iid in rows.intents && rid in refunds.refunds
    requires refunds.refunds[rid].intent == iid && refunds.refunds[rid].status == RefundPending
    requires var rw := FailedWork(iid, rid, rows.intents[iid], refunds.refunds[rid], name,
                                  MaxSequence(trail.audit, iid), source);
             Accepts(c, RefundTxn(iid, rows.intents[iid], rid, refunds.refunds[rid], rw))
    ensures var rw := FailedWork(iid, rid, rows.intents[iid], refunds.refunds[rid], name, MaxSequence(trail.audit, iid),
                                 source);
            Follows(c, Apply(c, RefundTxn(iid, rows.intents[iid], rid, refunds.refunds[rid], rw)))
  {
    hide Inv, Past, Follows, Accepts, Fits, Local, IntentInv, Effect, MaxSequence;
    var stored := MaxSequence(trail.audit, iid);
    var read, refundRead := rows.intents[iid], refunds.refunds[rid];
    var t := RefundTxn(iid, read, rid, refundRead, FailedWork(iid, rid, read, refundRead, name, stored, source));
    ReadFacts(c, rows, trail, iid);
    RefundFacts(c, refunds, rid);
    InvFits(c, t, iid, stored, stored, rid);
    FailEffect(c, iid, read, rid, refundRead, name, stored, source);
    EffectFollows(c, t, iid, rid);
  }

  lemma {:induction false} NameFollows(c: Store, iid: string, rid: string, name: string, rows: Store, refunds: Store,
                                       trail: Store)
    requires Inv(c) && Past(rows, c) && Past(refunds, c) && Past(trail, c)
    requires iid in rows.intents && rid in refunds.refunds && refunds.refunds[rid].intent == iid
    requires refunds.refunds[rid].status == RefundPending
    requires var rw := RefundWork(false, refunds.refunds[rid].(providerRefund := Some(name)),
                                  Work(rows.intents[iid], []));
             Accepts(c, RefundTxn(iid, rows.intents[iid], rid, refunds.refunds[rid], rw))
    ensures var rw := RefundWork(false, refunds.refunds[rid].(providerRefund := Some(name)),
                                 Work(rows.intents[iid], []));
            Follows(c, Apply(c, RefundTxn(iid, rows.intents[iid], rid, refunds.refunds[rid], rw)))
  {
    hide Inv, Past, Follows, Accepts, Fits, Local, IntentInv, Effect, MaxSequence;
    var rw := RefundWork(false, refunds.refunds[rid].(providerRefund := Some(name)), Work(rows.intents[iid], []));
    var t := RefundTxn(iid, rows.intents[iid], rid, refunds.refunds[rid], rw);
    ReadFacts(c, rows, trail, iid);
    RefundFacts(c, refunds, rid);
    InvFits(c, t, iid, 0, 0, rid);
    NameEffect(c, iid, rows.intents[iid], rid, refunds.refunds[rid], rw);
    EffectFollows(c, t, iid, rid);
  }

  /** The unit of work behind a recorded answer, in the form the effect lemmas speak of. */
  function Recorded(rid: string, refundRead: Refund, read: Intent, stored: nat, storedAgain: nat,
                    reply: RefundReply): RefundWork
    requires !reply.Unreachable?
  {
    var iid := refundRead.intent;
    match reply
    case Declined => FailedWork(iid, rid, read, refundRead, refundRead.providerRefund, stored, Api)
    case Reported(ref, RefundSucceeded) => Completed(iid, rid, read, refundRead, Some(ref), stored, storedAgain, Api)
    case Reported(ref, RefundFailed) => FailedWork(iid, rid, read, refundRead, Some(ref), stored, Api)
    case Reported(ref, RefundPending) => RefundWork(false, refundRead.(providerRefund := Some(ref)), Work(read, []))
  }

  lemma {:induction false} RecordParts(business: string, rid: string, refunds: Store, rows: Store, trail: Store,
                                       trailAgain: Store, reply: RefundReply)
    requires RecordPlan(business, rid, refunds, rows, trail, trailAgain, reply).Write?
    ensures !reply.Unreachable? && rid in refunds.refunds && refunds.refunds[rid].status == RefundPending
    ensures var refundRead := refunds.refunds[rid];
            var iid := refundRead.intent;
            && iid in rows.intents
            && RecordPlan(business, rid, refunds, rows, trail, trailAgain, reply).parts ==
               [RefundTxn(iid, rows.intents[iid], rid, refundRead,
                          Recorded(rid, refundRead, rows.intents[iid], MaxSequence(trail.audit, iid),
                                   MaxSequence(trailAgain.audit, iid), reply))]
  {
    hide MaxSequence, CompleteRefund, FailRefund, RefundTxn;
    var read := refunds.refunds[rid];
    assert read.(providerRefund := read.providerRefund) == read;
  }

  lemma {:induction false} RecordFollows(c: Store, business: string, rid: string, refunds: Store, rows: Store,
                                         trail: Store, trailAgain: Store, reply: RefundReply, t: Txn)
    requires Inv(c) && Past(rows, c) && Past(refunds, c) && Past(trail, c) && Past(trailAgain, c)
    requires RecordPlan(business, rid, refunds, rows, trail, trailAgain, reply) == Write([t])
    requires Accepts(c, t)
    ensures Follows(c, Apply(c, t))
  {
    hide Inv, Past, Follows, Accepts, RecordPlan, RefundTxn, Completed, FailedWork, MaxSequence;
    RecordParts(business, rid, refunds, rows, trail, trailAgain, reply);
    var read := refunds.refunds[rid];
    var iid := read.intent;
    match reply
    case Declined => FailFollows(c, iid, rid, read.providerRefund, rows, refunds, trail, Api);
    case Reported(ref, RefundSucceeded) =>
      CompleteFollows(c, iid, rid, Some(ref), rows, refunds, trail, trailAgain, Api);
    case Reported(ref, RefundFailed) => FailFollows(c, iid, rid, Some(ref), rows, refunds, trail, Api);
    case Reported(ref, RefundPending) => NameFollows(c, iid, rid, ref, rows, refunds, trail);
  }

  // ---------------------------------------------------------------- provider events

  /** The ledger part of a state says nothing about the inbox. */
  lemma {:induction false} InboxIndependent(s: Store, inbox: map<EventKey, InboxRow>)
    ensures Constraints(s.(inbox := inbox)) == Constraints(s)
    ensures LedgerInv(s.(inbox := inbox)) == LedgerInv(s)
  {
    hide IntentCheck, RefundCheck, UniqueIntents, UniqueRefunds, UniqueSequences, Numbered, MoneyStatus, ReplayPayment,
      ReplayRefund, Total;
    var t := s.(inbox := inbox);
    assert forall i | i in s.intents :: IntentInv(t, i) == IntentInv(s, i);
    assert forall r | r in s.refunds :: RefundInv(t, r) == RefundInv(s, r);
  }

  lemma {:induction false} NothingFollows(c: Store)
    requires Inv(c)
    ensures Follows(c, Apply(c, NOTHING))
  {
    hide Inv, Follows;
    assert Apply(c, NOTHING) == c;
    SelfFollows(c);
  }

  lemma {:induction false} PaymentEventFollows(c: Store, iid: string, rows: Store, trail: Store, event: Event)
    requires Inv(c) && Past(rows, c) && Past(trail, c) && iid in rows.intents && !IsRefundEvent(event.kind)
    requires Accepts(c, ApplyPaymentEvent(iid, rows.intents[iid], event, MaxSequence(trail.audit, iid)).txn)
    ensures Follows(c, Apply(c, ApplyPaymentEvent(iid, rows.intents[iid], event, MaxSequence(trail.audit, iid)).txn))
  {
    hide Inv, Past, Follows, Accepts, IntentInv, MaxSequence;
    var read := rows.intents[iid];
    var stored := MaxSequence(trail.audit, iid);
    ReadFacts(c, rows, trail, iid);
    if ApplyPaymentEvent(iid, read, event, stored).txn == NOTHING {
      NothingFollows(c);
    } else {
      var target := EventTarget(event.kind);
      var moved := Transition(iid, Work(read, []), target, stored, None, ProviderEvent);
      var done := if target == Captured then moved.(intent := moved.intent.(captured := CapturedAmount(read, event)))
        else moved;
      MoveFollows(c, rows, trail, iid, done);
    }
  }

  lemma {:induction false} RefundEventFollows(c: Store, iid: string, rid: string, rows: Store, refunds: Store,
                                              trail: Store, trailAgain: Store, event: Event)
    requires Inv(c) && Past(rows, c) && Past(refunds, c) && Past(trail, c) && Past(trailAgain, c)
    requires iid in rows.intents && rid in refunds.refunds && refunds.refunds[rid].intent == iid
             && IsRefundEvent(event.kind)
    requires Accepts(c, ApplyRefundEvent(iid, rows.intents[iid], rid, refunds.refunds[rid], event,
                                         MaxSequence(trail.audit, iid), MaxSequence(trailAgain.audit, iid)).txn)
    ensures Follows(c, Apply(c, ApplyRefundEvent(iid, rows.intents[iid], rid, refunds.refunds[rid], event,
                                                 MaxSequence(trail.audit, iid),
                                                   MaxSequence(trailAgain.audit, iid)).txn))
  {
    hide Inv, Past, Follows, Accepts, MaxSequence;
    var read := refunds.refunds[rid];
    assert read.(providerRefund := read.providerRefund) == read;
    if read.status != RefundPending {
      NothingFollows(c);
    } else if event.kind == RefundSucceededEvent {
      CompleteFollows(c, iid, rid, read.providerRefund, rows, refunds, trail, trailAgain, ProviderEvent);
    } else {
      FailFollows(c, iid, rid, read.providerRefund, rows, refunds, trail, ProviderEvent);
    }
  }

  /** A refund event that the state machine refuses half-way is never what gets committed: an accepted commit that
      reports `Ignored` wrote nothing. */
  lemma {:induction false} HalfAppliedNeverCommits(c: Store, iid: string, rid: string, rows: Store, refunds: Store,
                                                   trail: Store, trailAgain: Store, event: Event)
    requires Inv(c) && Past(rows, c) && Past(refunds, c) && Past(trail, c) && Past(trailAgain, c)
    requires iid in rows.intents && rid in refunds.refunds && refunds.refunds[rid].intent == iid
             && IsRefundEvent(event.kind)
    ensures var applied := ApplyRefundEvent(iid, rows.intents[iid], rid, refunds.refunds[rid], event,
                                            MaxSequence(trail.audit, iid), MaxSequence(trailAgain.audit, iid));
            Accepts(c, applied.txn) && applied.status == Ignored ==> applied.txn == NOTHING
  {
    hide Inv, Past, Follows, Accepts, MaxSequence;
    var read := refunds.refunds[rid];
    var applied := ApplyRefundEvent(iid, rows.intents[iid], rid, read, event, MaxSequence(trail.audit, iid),
                                    MaxSequence(trailAgain.audit, iid));
    assert read.(providerRefund := read.providerRefund) == read;
    if Accepts(c, applied.txn) && read.status == RefundPending && event.kind == RefundSucceededEvent {
      CompleteFollows(c, iid, rid, read.providerRefund, rows, refunds, trail, trailAgain, ProviderEvent);
    }
  }

  lemma {:induction false} EventFollows(c: Store, event: Event, found: Option<string>, foundRefund: Option<string>,
                     rows: Store, refunds: Store, trail: Store, trailAgain: Store)
    requires Inv(c) && Past(rows, c) && Past(refunds, c) && Past(trail, c) && Past(trailAgain, c)
    requires found.Some? ==> found.value in rows.intents
    requires foundRefund.Some? ==>
             found.Some? && foundRefund.value in refunds.refunds
               && refunds.refunds[foundRefund.value].intent == found.value
    requires Accepts(c, ApplyEvent(event, found, foundRefund, rows, refunds, trail, trailAgain).txn)
    ensures Follows(c, Apply(c, ApplyEvent(event, found, foundRefund, rows, refunds, trail, trailAgain).txn))
  {
    hide Inv, Past, Follows, Accepts, MaxSequence;
    if found.None? || (IsRefundEvent(event.kind) && foundRefund.None?) {
      NothingFollows(c);
    } else if IsRefundEvent(event.kind) {
      RefundEventFollows(c, found.value, foundRefund.value, rows, refunds, trail, trailAgain, event);
    } else {
      PaymentEventFollows(c, found.value, rows, trail, event);
    }
  }

  /** Writing the inbox row beside the ledger rows changes neither the invariant nor the history. */
  lemma {:induction false} InboxFollows(c: Store, t: Txn, write: InboxWrite)
    requires t.inbox == NoInbox && Inv(c)
    requires Accepts(c, t.(inbox := write))
    requires Accepts(c, t) ==> Follows(c, Apply(c, t))
    ensures Follows(c, Apply(c, t.(inbox := write)))
  {
    hide LedgerInv, Constraints, IntentLater, RefundLater;
    var d, e := Apply(c, t), Apply(c, t.(inbox := write));
    assert d.inbox == c.inbox && d == e.(inbox := c.inbox) && e == d.(inbox := e.inbox);
    InboxIndependent(e, c.inbox);
    assert Current(c, t) by {
      assert Current(c, t.(inbox := write));
    }
    assert Accepts(c, t);
  }
}
