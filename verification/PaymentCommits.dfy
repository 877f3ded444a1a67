/** Each unit of work, computed from rows read at any earlier states, has a legal effect whenever its commit is
  accepted. */
module PaymentCommits {
  import opened Tables
  import opened PaymentStates
  import opened PaymentStore
  import opened AuditTrail
  import opened PaymentPlans
  import opened PaymentInvariant

  /** `read` is a version of the row that the store held at some earlier point. */
  ghost predicate IntentPast(c: Store, iid: string, read: Intent) {
    iid in c.intents && IntentLater(read, c.intents[iid])
  }

  ghost predicate RefundPast(c: Store, rid: string, read: Refund) {
    rid in c.refunds && RefundLater(read, c.refunds[rid])
  }

  /** An accepted update was computed from the row that is still stored: a stale writer always aborts. */
  lemma {:induction false} AcceptedReadsAreCurrent(c: Store, iid: string, read: Intent, rid: string, refundRead: Refund,
                                                   rw: RefundWork)
    requires IntentPast(c, iid, read) && RefundPast(c, rid, refundRead)
    requires Current(c, RefundTxn(iid, read, rid, refundRead, rw))
    ensures rw.work.intent != read ==> c.intents[iid] == read
    ensures rw.refund != refundRead ==> c.refunds[rid] == refundRead
  {
    var t := RefundTxn(iid, read, rid, refundRead, rw);
    assert rw.work.intent != read ==> IntentCurrent(c, iid, t.intents[iid]);
    assert rw.refund != refundRead ==> RefundCurrent(c, rid, t.refunds[rid]);
  }

  /** The invariant of one payment and one refund id, without the totals. */
  ghost predicate Local(c: Store, iid: string, rid: string) {
    && (if iid in c.intents
        then MoneyStatus(c.intents[iid]) && ReplayPayment(c.audit, iid) == At(c.intents[iid].status)
        else ReplayPayment(c.audit, iid) == Absent)
    && (if rid in c.refunds
        then c.refunds[rid].intent in c.intents
          && c.intents[c.refunds[rid].intent].business == c.refunds[rid].business &&
             ReplayRefund(c.audit, rid) == At(c.refunds[rid].status)
        else ReplayRefund(c.audit, rid) == Absent)
  }

  lemma {:induction false} LocalOf(c: Store, iid: string, rid: string)
    requires LedgerInv(c)
    ensures Local(c, iid, rid)
  {
    if iid in c.intents {
      assert IntentInv(c, iid);
    }
    if rid in c.refunds {
      assert RefundInv(c, rid);
    }
  }

  /** The store would take `t`, and its audit rows continue the numbering. */
  ghost predicate Fits(c: Store, t: Txn) {
    Current(c, t) && Numbered(c.audit + t.audits)
  }

  lemma {:induction false} AcceptedFits(c: Store, t: Txn, iid: string, stored: nat, storedAgain: nat)
    requires Numbered(c.audit) && Accepts(c, t) && |t.audits| <= 2
    requires stored <= |Trail(c.audit, iid)| && storedAgain <= |Trail(c.audit, iid)|
    requires |t.audits| > 0 ==> t.audits[0].intent == iid && t.audits[0].sequence == stored + 1
    requires |t.audits| > 1 ==> t.audits[1].intent == iid && t.audits[1].sequence == storedAgain + 2
    ensures Fits(c, t)
  {
    assert UniqueSequences(Apply(c, t).audit);
    AcceptedNumbersAreNext(c.audit, t.audits, iid, stored, storedAgain);
  }

  /** The trail's side of an effect, from the rows added. */
  lemma {:induction false} TrailEffect(c: Store, d: Store, iid: string, rid: string, rows: seq<AuditRow>)
    requires d.audit == c.audit + rows && Numbered(d.audit) && iid in d.intents
    requires forall k | 0 <= k < |rows| ::
               rows[k].intent == iid && (rows[k].change.RefundChange? ==> rows[k].refund == Some(rid))
    requires ReplayPayment(d.audit, iid) == At(d.intents[iid].status)
    requires ReplayRefund(d.audit, rid) == if rid in d.refunds then At(d.refunds[rid].status) else Absent
    ensures EffectTrail(c, d, iid, rid)
  {
    hide Numbered, ReplayPayment, ReplayRefund;
    forall k | |c.audit| <= k < |d.audit|
      ensures d.audit[k].intent == iid && (d.audit[k].change.RefundChange? ==> d.audit[k].refund == Some(rid))
    {
      assert d.audit[k] == rows[k - |c.audit|];
    }
  }

  // ----------------------------------------------------- payment-only changes

  /** A unit of work that changes one payment's status, at most once, and possibly its checkout data and capture. */
  ghost predicate OneMove(iid: string, read: Intent, w: Work) {
    var row := w.intent;
    && row == read.(status := row.status, captured := row.captured, providerPayment := row.providerPayment,
                    expiresAt := row.expiresAt)
    && (row.captured == read.captured || read.captured == 0)
    && (read.status != Created ==> row.providerPayment == read.providerPayment)
    && MoneyStatus(row)
    && if w.added == [] then row.status == read.status
       else
         && row.status in PaymentTransitions(read.status) && row.status != read.status
         && |w.added| == 1
         && w.added[0].intent == iid && w.added[0].change == PaymentChange(Some(read.status), row.status)
  }

  lemma {:induction false} MoveEffect(c: Store, iid: string, read: Intent, w: Work, rid: string)
    requires Local(c, iid, rid) && IntentPast(c, iid, read)
    requires Fits(c, IntentTxn(iid, read, w)) && OneMove(iid, read, w)
    ensures Effect(c, Apply(c, IntentTxn(iid, read, w)), iid, rid)
    ensures w.intent != read ==> c.intents[iid] == read
  {
    hide Effect, Numbered, ReplayPayment, ReplayRefund, Leads;
    var t := IntentTxn(iid, read, w);
    var d := Apply(c, t);
    assert w.intent != read ==> IntentCurrent(c, iid, t.intents[iid]);
    assert d.refunds == c.refunds;
    assert d.intents == if w.intent == read then c.intents
           else c.intents[iid := w.intent.(version := read.version + 1)];
    LeadsIsClosed(c.intents[iid].status, w.intent.status, w.intent.status);
    if w.intent == read {
      LeadsIsClosed(c.intents[iid].status, c.intents[iid].status, c.intents[iid].status);
      MoveReplay(c.audit, w.added, iid, rid, c.intents[iid].status, c.intents[iid].status);
    } else {
      MoveReplay(c.audit, w.added, iid, rid, read.status, w.intent.status);
    }
    MovedEffect(c, d, iid, rid, w.added);
  }

  lemma {:induction false} MovedEffect(c: Store, d: Store, iid: string, rid: string, rows: seq<AuditRow>)
    requires Local(c, iid, rid) && iid in c.intents
    requires d.refunds == c.refunds && d.inbox == c.inbox && d.audit == c.audit + rows && Numbered(d.audit)
    requires iid in d.intents && d.intents == c.intents[iid := d.intents[iid]]
    requires IntentLater(c.intents[iid], d.intents[iid]) && MoneyStatus(d.intents[iid])
    requires d.intents[iid].reserved == c.intents[iid].reserved && d.intents[iid].refunded == c.intents[iid].refunded
    requires forall k | 0 <= k < |rows| :: rows[k].intent == iid && rows[k].change.PaymentChange?
    requires ReplayPayment(d.audit, iid) == At(d.intents[iid].status)
             && ReplayRefund(d.audit, rid) == ReplayRefund(c.audit, rid)
    ensures Effect(c, d, iid, rid)
  {
    TrailEffect(c, d, iid, rid, rows);
    hide EffectTrail, Leads, ReplayPayment, ReplayRefund, Numbered;
    if rid in c.refunds {
      RefundStays(c.refunds[rid]);
    }
  }

  lemma {:induction false} RefundStays(r: Refund)
    ensures RefundLater(r, r)
  {
  }

  lemma {:induction false} MoveReplay(audit: seq<AuditRow>, rows: seq<AuditRow>, iid: string, rid: string,
                                      now: PaymentStatus, next: PaymentStatus)
    requires ReplayPayment(audit, iid) == At(now)
    requires if rows == [] then next == now
             else |rows| == 1 && next in PaymentTransitions(now) && rows[0].intent == iid
                  && rows[0].change == PaymentChange(Some(now), next)
    ensures ReplayPayment(audit + rows, iid) == At(next) && ReplayRefund(audit + rows, rid) == ReplayRefund(audit, rid)
  {
    if rows == [] {
      assert audit + rows == audit;
    } else {
      assert rows == [rows[0]];
      ReplayOne(audit, rows[0], iid, rid);
    }
  }

  /** A new payment and its first audit row. */
  lemma {:induction false} CreateEffect(c: Store, iid: string, row: Intent, stored: nat, t: Txn, rid: string)
    requires Local(c, iid, rid)
    requires row.status == Created && row.captured == 0 && row.reserved == 0 && row.refunded == 0
    requires t == Txn(map[iid := Insert(row)], map[],
                      [NextRow(iid, stored, 0, None, PaymentChange(None, Created), Api)], NoInbox)
    requires Fits(c, t)
    ensures Effect(c, Apply(c, t), iid, rid)
  {
    var d := Apply(c, t);
    CreateStored(c, iid, row, t);
    ReplayOne(c.audit, t.audits[0], iid, rid);
    hide Apply, Current, Leads, Numbered, ReplayPayment, ReplayRefund;
    TrailEffect(c, d, iid, rid, t.audits);
    if rid in c.refunds {
      RefundStays(c.refunds[rid]);
    }
    hide EffectTrail, RefundLater;
  }

  lemma {:induction false} CreateStored(c: Store, iid: string, row: Intent, t: Txn)
    requires t.intents == map[iid := Insert(row)] && t.refunds == map[] && t.inbox == NoInbox && Current(c, t)
    ensures var d := Apply(c, t);
            && iid !in c.intents && d.intents == c.intents[iid := row.(version := 1)]
            && d.refunds == c.refunds && d.audit == c.audit + t.audits && d.inbox == c.inbox
  {
    assert IntentCurrent(c, iid, t.intents[iid]);
    assert Apply(c, t).intents == c.intents[iid := StoredIntent(t.intents[iid])];
  }

  // ------------------------------------------------------------------ refunds

  /** A new pending refund and its reservation. */
  lemma {:induction false} ReserveEffect(c: Store, iid: string, read: Intent, rid: string, refund: Refund, stored: nat,
                                         t: Txn)
    requires Local(c, iid, rid) && IntentPast(c, iid, read)
    requires read.status in REFUNDABLE && refund.amount > 0
    requires refund.intent == iid && refund.business == read.business && refund.status == RefundPending
    requires t == Txn(map[iid := Update(read, read.(reserved := read.reserved + refund.amount))],
                      map[rid := Insert(refund)],
                      [NextRow(iid, stored, 0, Some(rid), RefundChange(None, RefundPending), Api)], NoInbox)
    requires Fits(c, t)
    ensures Effect(c, Apply(c, t), iid, rid)
  {
    var d := Apply(c, t);
    ReserveStored(c, iid, read, rid, refund, t);
    ReplayOne(c.audit, t.audits[0], iid, rid);
    ReservedIsLater(read, refund.amount);
    hide Apply, Current, Leads, Numbered, ReplayPayment, ReplayRefund, IntentLater;
    TrailEffect(c, d, iid, rid, t.audits);
    hide EffectTrail;
    assert EffectRows(c, d, iid, rid);
    assert EffectMoney(c, d, iid, rid);
  }

  lemma {:induction false} ReserveStored(c: Store, iid: string, read: Intent, rid: string, refund: Refund, t: Txn)
    requires IntentPast(c, iid, read) && Current(c, t) && t.inbox == NoInbox
    requires t.intents == map[iid := Update(read, read.(reserved := read.reserved + refund.amount))]
    requires t.refunds == map[rid := Insert(refund)]
    ensures var d := Apply(c, t);
            && iid in c.intents && c.intents[iid] == read && rid !in c.refunds
            && d.intents == c.intents[iid :=
                                      read.(reserved := read.reserved + refund.amount, version := read.version + 1)]
            && d.refunds == c.refunds[rid := refund.(version := 1)]
            && d.audit == c.audit + t.audits && d.inbox == c.inbox
  {
    ReservationIsCurrent(c, iid, read, rid, t);
    WrittenRows(c, t, iid, rid);
    hide Apply, Current, IntentPast;
  }

  lemma {:induction false} ReservationIsCurrent(c: Store, iid: string, read: Intent, rid: string, t: Txn)
    requires IntentPast(c, iid, read) && Current(c, t)
    requires iid in t.intents && t.intents[iid].Update? && t.intents[iid].read == read
    requires rid in t.refunds && t.refunds[rid].Insert?
    ensures iid in c.intents && c.intents[iid] == read && rid !in c.refunds
  {
    assert IntentCurrent(c, iid, t.intents[iid]);
    assert RefundCurrent(c, rid, t.refunds[rid]);
    ReadIsStored(c.intents[iid], read);
  }

  /** A transaction that writes one payment and one refund. */
  lemma {:induction false} WrittenRows(c: Store, t: Txn, iid: string, rid: string)
    requires t.intents.Keys == {iid} && t.refunds.Keys == {rid} && t.inbox == NoInbox
    ensures Apply(c, t).intents == c.intents[iid := StoredIntent(t.intents[iid])]
    ensures Apply(c, t).refunds == c.refunds[rid := StoredRefund(t.refunds[rid])]
    ensures Apply(c, t).audit == c.audit + t.audits && Apply(c, t).inbox == c.inbox
  {
    hide StoredIntent, StoredRefund;
  }

  lemma {:induction false} ReadIsStored(stored: Intent, read: Intent)
    requires IntentLater(read, stored)
    ensures stored.version == read.version ==> stored == read
  {
  }

  lemma {:induction false} ReservedIsLater(read: Intent, amount: int)
    ensures IntentLater(read, read.(reserved := read.reserved + amount, version := read.version + 1))
  {
    LeadsIsClosed(read.status, read.status, read.status);
    hide Leads;
  }

  /** The provider named a refund without settling it: only the refund row changes. */
  lemma {:induction false} NameEffect(c: Store, iid: string, read: Intent, rid: string, refundRead: Refund,
                                      rw: RefundWork)
    requires Local(c, iid, rid) && IntentPast(c, iid, read) && RefundPast(c, rid, refundRead)
             && refundRead.intent == iid
    requires refundRead.status == RefundPending
    requires rw == RefundWork(rw.raised, refundRead.(providerRefund := rw.refund.providerRefund), Work(read, []))
    requires Fits(c, RefundTxn(iid, read, rid, refundRead, rw))
    ensures Effect(c, Apply(c, RefundTxn(iid, read, rid, refundRead, rw)), iid, rid)
  {
    var d := Apply(c, RefundTxn(iid, read, rid, refundRead, rw));
    NameStored(c, iid, read, rid, refundRead, rw);
    RefundStays(c.refunds[rid]);
    if rw.refund != refundRead {
      RefundIsLater(refundRead, d.refunds[rid]);
    } else {
      assert c.refunds == c.refunds[rid := c.refunds[rid]];
    }
    NamedLater(refundRead, c.refunds[rid]);
    hide Apply, RefundTxn, Current, Leads, ReplayPayment, ReplayRefund, IntentLater, RefundLater, Effect, MoneyStatus;
    NamedOn(c, d, iid, rid);
  }

  lemma {:induction false} NamedLater(r: Refund, s: Refund)
    requires RefundLater(r, s)
    ensures r.intent == s.intent
  {
  }

  lemma {:induction false} NamedOn(c: Store, d: Store, iid: string, rid: string)
    requires Local(c, iid, rid) && iid in c.intents && rid in c.refunds && c.refunds[rid].intent == iid
    requires d.intents == c.intents && d.audit == c.audit && Numbered(d.audit) && d.inbox == c.inbox
    requires rid in d.refunds && d.refunds == c.refunds[rid := d.refunds[rid]]
    requires RefundLater(c.refunds[rid], d.refunds[rid])
    requires d.refunds[rid] == c.refunds[rid].(providerRefund := d.refunds[rid].providerRefund,
                                               version := d.refunds[rid].version)
    ensures Effect(c, d, iid, rid)
  {
    IntentIsLater(c.intents[iid]);
    hide Leads, Numbered, ReplayPayment, ReplayRefund, IntentLater, RefundLater, MoneyStatus;
    assert c.audit + [] == c.audit;
    TrailEffect(c, d, iid, rid, []);
    hide EffectTrail;
    assert EffectRows(c, d, iid, rid);
    assert EffectMoney(c, d, iid, rid);
  }

  lemma {:induction false} NameStored(c: Store, iid: string, read: Intent, rid: string, refundRead: Refund,
                                      rw: RefundWork)
    requires IntentPast(c, iid, read) && RefundPast(c, rid, refundRead)
    requires rw == RefundWork(rw.raised, refundRead.(providerRefund := rw.refund.providerRefund), Work(read, []))
    requires Current(c, RefundTxn(iid, read, rid, refundRead, rw))
    ensures var d := Apply(c, RefundTxn(iid, read, rid, refundRead, rw));
            && d.intents == c.intents && d.audit == c.audit && d.inbox == c.inbox
            && d.refunds == (if rw.refund == refundRead then c.refunds
                             else c.refunds[rid := rw.refund.(version := refundRead.version + 1)])
            && (rw.refund != refundRead ==> c.refunds[rid] == refundRead)
  {
    AcceptedReadsAreCurrent(c, iid, read, rid, refundRead, rw);
    hide Current, IntentPast, RefundPast;
    var d := Apply(c, RefundTxn(iid, read, rid, refundRead, rw));
    assert d.intents == c.intents;
    assert d.refunds == if rw.refund == refundRead then c.refunds
           else c.refunds[rid := StoredRefund(Update(refundRead, rw.refund))];
  }

  /** A pending refund's amount is reserved and not yet paid, so its payment is refundable and has room for it. */
  lemma {:induction false} PendingHasRoom(c: Store, iid: string, rid: string)
    requires iid in c.intents && IntentInv(c, iid) && IntentCheck(c.intents[iid]) && rid in c.refunds
    requires c.refunds[rid].intent == iid && c.refunds[rid].status == RefundPending && c.refunds[rid].amount > 0
    ensures c.intents[iid].refunded + c.refunds[rid].amount <= c.intents[iid].reserved <= c.intents[iid].captured
    ensures c.intents[iid].status in REFUNDABLE
  {
    hide ReplayPayment, Total;
    var others := c.refunds - {rid};
    TotalSplit(c.refunds, Held(iid), rid);
    TotalSplit(c.refunds, Paid(iid), rid);
    TotalAtMost(others, Paid(iid), others, Held(iid));
  }

  function Completed(iid: string, rid: string, read: Intent, refundRead: Refund, name: Option<string>,
                     stored: nat, storedAgain: nat, source: AuditSource): RefundWork
  {
    CompleteRefund(iid, rid, RefundWork(false, refundRead.(providerRefund := name), Work(read, [])), stored,
                   storedAgain, source)
  }

  /** What completing a pending refund on a refundable payment comes to: no refusal, and one or two audit rows. */
  lemma {:induction false} CompletedParts(iid: string, rid: string, read: Intent, refundRead: Refund,
                                          name: Option<string>,
                       stored: nat, storedAgain: nat, source: AuditSource)
    requires refundRead.status == RefundPending && read.status in REFUNDABLE && MoneyStatus(read)
             && refundRead.amount > 0
    requires read.refunded + refundRead.amount <= read.captured
    ensures var rw := Completed(iid, rid, read, refundRead, name, stored, storedAgain, source);
            var target := if read.refunded + refundRead.amount == read.captured then Refunded else PartiallyRefunded;
            && !rw.raised
            && rw.refund == refundRead.(providerRefund := name, status := RefundSucceeded)
            && rw.work.intent == read.(refunded := read.refunded + refundRead.amount, status := target)
            && MoneyStatus(rw.work.intent)
            && Leads(read.status, target)
            && var first := AuditRow(iid, Some(rid), stored + 1, RefundChange(Some(RefundPending), RefundSucceeded),
                                     source);
               var second := AuditRow(iid, Some(rid), storedAgain + 2, PaymentChange(Some(read.status), target),
                                      source);
               rw.work.added == if target == read.status then [first] else [first, second]
  {
  }

  /** A stale pending refund beside any payment: completing it always changes the refund row, and counts the money. */
  lemma {:induction false} CompletedAlwaysWrites(iid: string, rid: string, read: Intent, refundRead: Refund,
                                                 name: Option<string>,
                              stored: nat, storedAgain: nat, source: AuditSource)
    requires refundRead.status == RefundPending && refundRead.amount > 0
    ensures var rw := Completed(iid, rid, read, refundRead, name, stored, storedAgain, source);
            rw.refund != refundRead && rw.work.intent != read
  {
  }

  /** Recording a success. The move of the payment inside it is never refused when the commit is accepted. */
  lemma {:induction false} CompleteEffect(c: Store, iid: string, read: Intent, rid: string, refundRead: Refund,
                                          name: Option<string>,
                       stored: nat, storedAgain: nat, source: AuditSource)
    requires Local(c, iid, rid) && iid in c.intents && IntentInv(c, iid) && IntentCheck(c.intents[iid])
    requires IntentPast(c, iid, read) && RefundPast(c, rid, refundRead) && refundRead.intent == iid
    requires refundRead.status == RefundPending && refundRead.amount > 0
    requires Fits(c, RefundTxn(iid, read, rid, refundRead,
                               Completed(iid, rid, read, refundRead, name, stored, storedAgain, source)))
    ensures !Completed(iid, rid, read, refundRead, name, stored, storedAgain, source).raised
    ensures Effect(c, Apply(c,
                            RefundTxn(iid, read, rid, refundRead,
                                      Completed(iid, rid, read, refundRead, name, stored, storedAgain, source))),
                   iid, rid)
  {
    hide Completed, Effect, Apply, Numbered, ReplayPayment, ReplayRefund, IntentInv, IntentCheck, Leads;
    var rw := Completed(iid, rid, read, refundRead, name, stored, storedAgain, source);
    CompletedAlwaysWrites(iid, rid, read, refundRead, name, stored, storedAgain, source);
    AcceptedReadsAreCurrent(c, iid, read, rid, refundRead, rw);
    PendingHasRoom(c, iid, rid);
    CompletedParts(iid, rid, read, refundRead, name, stored, storedAgain, source);
    hide Current, IntentPast, RefundPast, RefundTxn;
    SettledEffect(c, iid, rid, rw);
  }

  function FailedWork(iid: string, rid: string, read: Intent, refundRead: Refund, name: Option<string>, stored: nat,
                      source: AuditSource): RefundWork {
    FailRefund(iid, rid, RefundWork(false, refundRead.(providerRefund := name), Work(read, [])), stored, source)
  }

  /** Recording a failure releases exactly the reservation. */
  lemma {:induction false} FailEffect(c: Store, iid: string, read: Intent, rid: string, refundRead: Refund,
                                      name: Option<string>, stored: nat, source: AuditSource)
    requires Local(c, iid, rid) && iid in c.intents && IntentInv(c, iid) && IntentCheck(c.intents[iid])
    requires IntentPast(c, iid, read) && RefundPast(c, rid, refundRead) && refundRead.intent == iid
    requires refundRead.status == RefundPending && refundRead.amount > 0
    requires Fits(c, RefundTxn(iid, read, rid, refundRead,
                               FailedWork(iid, rid, read, refundRead, name, stored, source)))
    ensures Effect(c, Apply(c,
                            RefundTxn(iid, read, rid, refundRead,
                                      FailedWork(iid, rid, read, refundRead, name, stored, source))), iid, rid)
  {
    var rw := FailedWork(iid, rid, read, refundRead, name, stored, source);
    assert rw.refund != refundRead && rw.work.intent != read;
    AcceptedReadsAreCurrent(c, iid, read, rid, refundRead, rw);
    PendingHasRoom(c, iid, rid);
    LeadsIsClosed(read.status, read.status, read.status);
    SettledEffect(c, iid, rid, rw);
  }

  lemma {:induction false} SettledReplay(audit: seq<AuditRow>, rows: seq<AuditRow>, iid: string, rid: string,
                      now: PaymentStatus, next: PaymentStatus, settled: RefundStatus)
    requires ReplayPayment(audit, iid) == At(now) && ReplayRefund(audit, rid) == At(RefundPending)
    requires SettledRows(rows, iid, rid, now, next, settled) && settled != RefundPending
    ensures ReplayPayment(audit + rows, iid) == At(next) && ReplayRefund(audit + rows, rid) == At(settled)
  {
    if |rows| == 1 {
      assert rows == [rows[0]];
      ReplayOne(audit, rows[0], iid, rid);
    } else {
      assert rows == [rows[0], rows[1]];
      ReplayTwo(audit, rows[0], rows[1], iid, rid);
    }
  }

  /** One refund row, and a payment row when the payment's status moves with it. */
  predicate SettledRows(rows: seq<AuditRow>, iid: string, rid: string, now: PaymentStatus, next: PaymentStatus,
                        settled: RefundStatus) {
    && 1 <= |rows| <= 2
    && rows[0].intent == iid && rows[0].refund == Some(rid)
    && rows[0].change == RefundChange(Some(RefundPending), settled)
    && (if |rows| == 1 then next == now
        else next in PaymentTransitions(now) && rows[1].intent == iid
             && rows[1].change == PaymentChange(Some(now), next))
  }

  /** The settled forms of a pending refund, against the stored rows. */
  lemma {:induction false} SettledEffect(c: Store, iid: string, rid: string, rw: RefundWork)
    requires Local(c, iid, rid) && iid in c.intents && rid in c.refunds
    requires c.refunds[rid].intent == iid && c.refunds[rid].status == RefundPending && c.refunds[rid].amount > 0
    requires Fits(c, RefundTxn(iid, c.intents[iid], rid, c.refunds[rid], rw))
    requires rw.refund == c.refunds[rid].(providerRefund := rw.refund.providerRefund, status := rw.refund.status)
    requires rw.refund.status != RefundPending && rw.work.intent != c.intents[iid]
    requires MoneyStatus(rw.work.intent) && Leads(c.intents[iid].status, rw.work.intent.status)
    requires var i, amount := c.intents[iid], c.refunds[rid].amount;
             rw.work.intent == if rw.refund.status == RefundSucceeded
                               then i.(refunded := i.refunded + amount, status := rw.work.intent.status)
                               else i.(reserved := i.reserved - amount)
    requires SettledRows(rw.work.added, iid, rid, c.intents[iid].status, rw.work.intent.status, rw.refund.status)
    ensures Effect(c, Apply(c, RefundTxn(iid, c.intents[iid], rid, c.refunds[rid], rw)), iid, rid)
  {
    hide Effect, Numbered, ReplayPayment, ReplayRefund, Leads, Current, PaymentTransitions;
    var i, r := c.intents[iid], c.refunds[rid];
    var d := Apply(c, RefundTxn(iid, i, rid, r, rw));
    SettledStored(c, iid, rid, rw);
    RefundIsLater(r, d.refunds[rid]);
    SettledReplay(c.audit, rw.work.added, iid, rid, i.status, rw.work.intent.status, rw.refund.status);
    SettledOn(c, d, iid, rid, rw.work.added);
  }

  lemma {:induction false} SettledStored(c: Store, iid: string, rid: string, rw: RefundWork)
    requires iid in c.intents && rid in c.refunds
    requires rw.refund != c.refunds[rid] && rw.work.intent != c.intents[iid]
    ensures var i, r := c.intents[iid], c.refunds[rid];
            var d := Apply(c, RefundTxn(iid, i, rid, r, rw));
            && d.intents == c.intents[iid := rw.work.intent.(version := i.version + 1)]
            && d.refunds == c.refunds[rid := rw.refund.(version := r.version + 1)]
            && d.audit == c.audit + rw.work.added && d.inbox == c.inbox
  {
  }

  lemma {:induction false} RefundIsLater(r: Refund, s: Refund)
    requires r.status == RefundPending
             && s == r.(providerRefund := s.providerRefund, status := s.status, version := r.version + 1)
    ensures RefundLater(r, s)
  {
  }

  lemma {:induction false} SettledOn(c: Store, d: Store, iid: string, rid: string, rows: seq<AuditRow>)
    requires Local(c, iid, rid) && iid in c.intents && rid in c.refunds && iid in d.intents && rid in d.refunds
    requires d.intents == c.intents[iid := d.intents[iid]] && d.refunds == c.refunds[rid := d.refunds[rid]]
    requires d.inbox == c.inbox && d.audit == c.audit + rows && Numbered(d.audit)
    requires RefundLater(c.refunds[rid], d.refunds[rid]) && IntentLater(c.intents[iid], d.intents[iid])
             && MoneyStatus(d.intents[iid])
    requires c.refunds[rid].intent == iid && c.refunds[rid].status == RefundPending && c.refunds[rid].amount > 0
    requires d.intents[iid].reserved == c.intents[iid].reserved - if d.refunds[rid].status == RefundFailed
             then c.refunds[rid].amount else 0
    requires d.intents[iid].refunded == c.intents[iid].refunded +
             if d.refunds[rid].status == RefundSucceeded then c.refunds[rid].amount else 0
    requires SettledRows(rows, iid, rid, c.intents[iid].status, d.intents[iid].status, d.refunds[rid].status)
    requires ReplayPayment(d.audit, iid) == At(d.intents[iid].status)
             && ReplayRefund(d.audit, rid) == At(d.refunds[rid].status)
    ensures Effect(c, d, iid, rid)
  {
    SettledNotes(rows, iid, rid, c.intents[iid].status, d.intents[iid].status, d.refunds[rid].status);
    hide SettledRows, Numbered, ReplayPayment, ReplayRefund, Leads, PaymentTransitions, IntentLater, MoneyStatus;
    TrailEffect(c, d, iid, rid, rows);
    hide EffectTrail;
    assert EffectMoney(c, d, iid, rid);
    assert EffectRows(c, d, iid, rid) by {
      assert IntentLater(c.intents[iid], d.intents[iid]);
      SameOwnerLater(c.intents[iid], d.intents[iid]);
    }
  }

  lemma {:induction false} SameOwnerLater(a: Intent, b: Intent)
    requires IntentLater(a, b)
    ensures a.business == b.business
  {
  }

  lemma {:induction false} SettledNotes(rows: seq<AuditRow>, iid: string, rid: string, now: PaymentStatus,
                                        next: PaymentStatus, settled: RefundStatus)
    requires SettledRows(rows, iid, rid, now, next, settled)
    ensures forall k | 0 <= k < |rows| ::
              rows[k].intent == iid && (rows[k].change.RefundChange? ==> rows[k].refund == Some(rid))
  {
    hide PaymentTransitions;
  }
}
