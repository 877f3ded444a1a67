/** What every committed state of the payment tables satisfies, how later states relate to earlier ones, and why a
    commit computed from possibly stale reads keeps both. */
module PaymentInvariant {
  import opened Tables
  import opened PaymentStates
  import opened PaymentStore
  import opened AuditTrail

  /** A refund's weight in its payment's reservation: pending and succeeded refunds hold their amount. */
  ghost function Held(iid: string): Refund -> nat {
    (r: Refund) => if r.intent == iid && r.status != RefundFailed && r.amount > 0 then r.amount else 0
  }

  /** A refund's weight in what its payment has paid back: only succeeded refunds. */
  ghost function Paid(iid: string): Refund -> nat {
    (r: Refund) => if r.intent == iid && r.status == RefundSucceeded && r.amount > 0 then r.amount else 0
  }

  /** Status and money agree. */
  predicate MoneyStatus(i: Intent) {
    match i.status
    case Captured => i.captured > 0 && i.refunded == 0
    case PartiallyRefunded => 0 < i.refunded < i.captured
    case Refunded => i.refunded == i.captured > 0
    case _ => i.captured == 0 && i.reserved == 0 && i.refunded == 0
  }

  ghost predicate IntentInv(s: Store, iid: string)
    requires iid in s.intents
  {
    var i := s.intents[iid];
    && MoneyStatus(i)
    && i.reserved == Total(s.refunds, Held(iid))
    && i.refunded == Total(s.refunds, Paid(iid))
    && ReplayPayment(s.audit, iid) == At(i.status)
  }

  ghost predicate RefundInv(s: Store, rid: string)
    requires rid in s.refunds
  {
    && s.refunds[rid].intent in s.intents
    && s.intents[s.refunds[rid].intent].business == s.refunds[rid].business
    && ReplayRefund(s.audit, rid) == At(s.refunds[rid].status)
  }

  /** The part of the invariant that no constraint states: it is spread over all operations. */
  ghost predicate LedgerInv(s: Store) {
    && Numbered(s.audit)
    && (forall iid | iid in s.intents :: IntentInv(s, iid))
    && (forall rid | rid in s.refunds :: RefundInv(s, rid))
    && (forall iid: string :: iid !in s.intents ==> ReplayPayment(s.audit, iid) == Absent)
    && (forall rid: string :: rid !in s.refunds ==> ReplayRefund(s.audit, rid) == Absent)
  }

  ghost predicate Inv(s: Store) {
    && Constraints(s)
    && LedgerInv(s)
  }

  // ----------------------------------------------------- earlier and later states

  ghost predicate IntentLater(a: Intent, b: Intent) {
    && a.version <= b.version
    && (a.version == b.version ==> a == b)
    && a.business == b.business && a.reference == b.reference && a.provider == b.provider
    && a.amount == b.amount && a.currency == b.currency && a.key == b.key && a.fingerprint == b.fingerprint
    && Leads(a.status, b.status)
    && (a.status != Created ==> b.providerPayment == a.providerPayment)
    && (a.captured != 0 ==> b.captured == a.captured)
    && a.refunded <= b.refunded
  }

  ghost predicate RefundLater(a: Refund, b: Refund) {
    && a.version <= b.version
    && (a.version == b.version ==> a == b)
    && a.business == b.business && a.intent == b.intent && a.amount == b.amount
    && a.key == b.key && a.fingerprint == b.fingerprint
    && (a.status != RefundPending ==> b.status == a.status && b.providerRefund == a.providerRefund)
  }

  /** `b` is a committed state at or after `a`. */
  ghost predicate Extends(a: Store, b: Store) {
    && a.audit <= b.audit
    && (forall i | i in a.intents :: i in b.intents && IntentLater(a.intents[i], b.intents[i]))
    && (forall r | r in a.refunds :: r in b.refunds && RefundLater(a.refunds[r], b.refunds[r]))
    && (forall k | k in a.inbox :: k in b.inbox && a.inbox[k].event == b.inbox[k].event)
  }

  lemma {:induction false} ExtendsCompose(a: Store, b: Store, c: Store)
    requires Extends(a, b) && Extends(b, c)
    ensures Extends(a, c)
  {
    hide IntentLater, RefundLater;
    forall i | i in a.intents ensures i in c.intents && IntentLater(a.intents[i], c.intents[i]) {
      IntentLaterComposes(a.intents[i], b.intents[i], c.intents[i]);
    }
    forall r | r in a.refunds ensures r in c.refunds && RefundLater(a.refunds[r], c.refunds[r]) {
      RefundLaterComposes(a.refunds[r], b.refunds[r], c.refunds[r]);
    }
  }

  lemma {:induction false} IntentLaterComposes(a: Intent, b: Intent, c: Intent)
    requires IntentLater(a, b) && IntentLater(b, c)
    ensures IntentLater(a, c)
  {
    LeadsIsClosed(a.status, b.status, c.status);
    NeverBackToCreated(a.status, b.status);
    hide Leads;
  }

  lemma {:induction false} NeverBackToCreated(a: PaymentStatus, b: PaymentStatus)
    requires Leads(a, b)
    ensures b == Created ==> a == Created
  {
  }

  lemma {:induction false} RefundLaterComposes(a: Refund, b: Refund, c: Refund)
    requires RefundLater(a, b) && RefundLater(b, c)
    ensures RefundLater(a, c)
  {
  }

  // --------------------------------------------------------- the generic effect

  /** The rows of an audit extension that concern neither this payment nor this refund leave their replays alone. */
  lemma {:induction false} ReplayForeign(audit: seq<AuditRow>, rows: seq<AuditRow>, iid: string, rid: string)
    ensures (forall k | 0 <= k < |rows| :: rows[k].intent != iid) ==>
            ReplayPayment(audit + rows, iid) == ReplayPayment(audit, iid)
    ensures (forall k | 0 <= k < |rows| :: rows[k].change.RefundChange? ==> rows[k].refund != Some(rid)) ==>
              ReplayRefund(audit + rows, rid) == ReplayRefund(audit, rid)
  {
    if rows == [] {
      assert audit + rows == audit;
    } else {
      var fewer := rows[..|rows| - 1];
      ReplayForeign(audit, fewer, iid, rid);
      assert rows == fewer + [rows[|rows| - 1]];
      assert audit + rows == (audit + fewer) + [rows[|rows| - 1]];
      ReplayOne(audit + fewer, rows[|rows| - 1], iid, rid);
    }
  }

  /** Numbers computed from any earlier reads of the audit are the next free ones, or the unique index refuses them. */
  lemma {:induction false} AcceptedNumbersAreNext(audit: seq<AuditRow>, rows: seq<AuditRow>, iid: string, stored: nat,
                                                  storedAgain: nat)
    requires Numbered(audit) && UniqueSequences(audit + rows) && |rows| <= 2
    requires forall k | 0 <= k < |rows| :: rows[k].intent == iid
    requires stored <= |Trail(audit, iid)| && storedAgain <= |Trail(audit, iid)|
    requires |rows| > 0 ==> rows[0].sequence == stored + 1
    requires |rows| > 1 ==> rows[1].sequence == storedAgain + 2
    ensures Numbered(audit + rows)
  {
    hide Numbered, UniqueSequences, Trail;
    if |rows| > 0 {
      NumberIsFresh(audit, rows, iid, 0);
    }
    if |rows| > 1 {
      NumberIsFresh(audit, rows, iid, 1);
      NewNumbersDiffer(audit, rows);
    }
    NumberedAppend(audit, rows, iid);
  }

  lemma {:induction false} NewNumbersDiffer(audit: seq<AuditRow>, rows: seq<AuditRow>)
    requires UniqueSequences(audit + rows) && |rows| == 2 && rows[0].intent == rows[1].intent
    ensures rows[0].sequence != rows[1].sequence
  {
    var all := audit + rows;
    assert all[|audit|] == rows[0] && all[|audit| + 1] == rows[1];
  }

  lemma {:induction false} TakenIsRefused(audit: seq<AuditRow>, rows: seq<AuditRow>, k: nat)
    requires k < |rows| && Taken(audit, rows[k].intent, rows[k].sequence)
    ensures !UniqueSequences(audit + rows)
  {
    var all := audit + rows;
    var p :| 0 <= p < |audit| && audit[p].intent == rows[k].intent && audit[p].sequence == rows[k].sequence;
    assert all[p] == audit[p] && all[|audit| + k] == rows[k];
  }

  lemma {:induction false} NumberIsFresh(audit: seq<AuditRow>, rows: seq<AuditRow>, iid: string, k: nat)
    requires Numbered(audit) && UniqueSequences(audit + rows) && k < |rows|
    requires rows[k].intent == iid && rows[k].sequence >= 1
    ensures rows[k].sequence > |Trail(audit, iid)|
  {
    SequencesAreOneToN(audit, iid);
    if rows[k].sequence <= |Trail(audit, iid)| {
      TakenIsRefused(audit, rows, k);
    }
  }

  /** A sequence number read at an earlier state is at most the present count. */
  lemma {:induction false} EarlierCount(past: seq<AuditRow>, audit: seq<AuditRow>, iid: string)
    requires Numbered(past) && past <= audit
    ensures MaxSequence(past, iid) <= |Trail(audit, iid)|
  {
    SequencesAreOneToN(past, iid);
    TrailGrows(past, audit, iid);
  }

  ghost function WeightAt(refunds: map<string, Refund>, rid: string, weight: Refund -> nat): nat {
    if rid in refunds then weight(refunds[rid]) else 0
  }

  /** `after` differs from `before` at most in the row `k`. */
  ghost predicate OnlyRow<T>(before: map<string, T>, after: map<string, T>, k: string) {
    after == before || (k in after && after == before[k := after[k]])
  }

  /** Which rows a unit of work writes, and how they relate to the ones before. */
  ghost predicate EffectRows(c: Store, d: Store, iid: string, rid: string) {
    && OnlyRow(c.intents, d.intents, iid) && OnlyRow(c.refunds, d.refunds, rid) && c.inbox == d.inbox
    && iid in d.intents && (iid in c.intents ==> IntentLater(c.intents[iid], d.intents[iid]))
    && (rid in d.refunds ==>
          d.refunds[rid].intent in d.intents && d.intents[d.refunds[rid].intent].business == d.refunds[rid].business)
    && (rid in d.refunds && d.refunds != c.refunds ==> d.refunds[rid].intent == iid)
    && (rid in c.refunds ==> RefundLater(c.refunds[rid], d.refunds[rid]))
  }

  /** The money moves with the refund's weight, and the status agrees with it. */
  ghost predicate EffectMoney(c: Store, d: Store, iid: string, rid: string) {
    && iid in d.intents && MoneyStatus(d.intents[iid])
    && d.intents[iid].reserved + WeightAt(c.refunds, rid, Held(iid)) ==
       (if iid in c.intents then c.intents[iid].reserved else 0) + WeightAt(d.refunds, rid, Held(iid))
    && d.intents[iid].refunded + WeightAt(c.refunds, rid, Paid(iid)) ==
       (if iid in c.intents then c.intents[iid].refunded else 0) + WeightAt(d.refunds, rid, Paid(iid))
  }

  /** The audit rows added are the next ones of this payment and lead to the stored statuses. */
  ghost predicate EffectTrail(c: Store, d: Store, iid: string, rid: string) {
    && c.audit <= d.audit && Numbered(d.audit)
    && (forall k | |c.audit| <= k < |d.audit| :: d.audit[k].intent == iid &&
          (d.audit[k].change.RefundChange? ==> d.audit[k].refund == Some(rid)))
    && iid in d.intents && ReplayPayment(d.audit, iid) == At(d.intents[iid].status)
    && ReplayRefund(d.audit, rid) == if rid in d.refunds then At(d.refunds[rid].status) else Absent
  }

  /** What one unit of work may do to one payment and one of its refunds. */
  ghost predicate Effect(c: Store, d: Store, iid: string, rid: string) {
    EffectRows(c, d, iid, rid) && EffectMoney(c, d, iid, rid) && EffectTrail(c, d, iid, rid)
  }

  /** A total moves by the change of weight of the one row written. */
  lemma {:induction false} OneRowTotal(before: map<string, Refund>, after: map<string, Refund>, rid: string,
                                       weight: Refund -> nat)
    requires OnlyRow(before, after, rid)
    ensures Total(after, weight) + WeightAt(before, rid, weight) == Total(before, weight) + WeightAt(after, rid, weight)
  {
    if after != before {
      TotalWrite(before, weight, rid, after[rid]);
    }
  }

  lemma {:induction false} NoRefundsNoTotal(refunds: map<string, Refund>, iid: string)
    requires forall r | r in refunds :: refunds[r].intent != iid
    ensures Total(refunds, Held(iid)) == 0 && Total(refunds, Paid(iid)) == 0
  {
    var none: map<string, Refund> := map[];
    TotalAtMost(refunds, Held(iid), none, Held(iid));
    TotalAtMost(refunds, Paid(iid), none, Paid(iid));
  }

  lemma {:induction false} NewAuditRows(c: Store, d: Store, iid: string, rid: string, j: string, q: string)
    requires Effect(c, d, iid, rid)
    ensures j != iid ==> ReplayPayment(d.audit, j) == ReplayPayment(c.audit, j)
    ensures q != rid ==> ReplayRefund(d.audit, q) == ReplayRefund(c.audit, q)
  {
    var rows := d.audit[|c.audit|..];
    assert d.audit == c.audit + rows;
    ReplayForeign(c.audit, rows, j, q);
  }

  /** The refund written is no other payment's, so it weighs nothing there. */
  lemma {:induction false} OtherTotals(c: Store, d: Store, iid: string, rid: string, j: string)
    requires EffectRows(c, d, iid, rid) && j != iid
    ensures Total(d.refunds, Held(j)) == Total(c.refunds, Held(j))
    ensures Total(d.refunds, Paid(j)) == Total(c.refunds, Paid(j))
  {
    hide Total, IntentLater;
    OneRowTotal(c.refunds, d.refunds, rid, Held(j));
    OneRowTotal(c.refunds, d.refunds, rid, Paid(j));
  }

  lemma {:induction false} IntentIsLater(i: Intent)
    ensures IntentLater(i, i)
  {
    LeadsIsClosed(i.status, i.status, i.status);
  }

  lemma {:induction false} EffectOnOther(c: Store, d: Store, iid: string, rid: string, j: string)
    requires Effect(c, d, iid, rid) && j != iid && j in c.intents && IntentInv(c, j)
    ensures IntentInv(d, j) && IntentLater(c.intents[j], d.intents[j])
  {
    NewAuditRows(c, d, iid, rid, j, rid);
    OtherTotals(c, d, iid, rid, j);
    hide EffectMoney, EffectTrail, MoneyStatus, Total, ReplayPayment, IntentLater, RefundLater;
    IntentIsLater(c.intents[j]);
  }

  lemma {:induction false} EffectOnOwn(c: Store, d: Store, iid: string, rid: string)
    requires Effect(c, d, iid, rid)
    requires if iid in c.intents then IntentInv(c, iid) else forall r | r in c.refunds :: c.refunds[r].intent != iid
    ensures IntentInv(d, iid)
  {
    OneRowTotal(c.refunds, d.refunds, rid, Held(iid));
    OneRowTotal(c.refunds, d.refunds, rid, Paid(iid));
    if iid !in c.intents {
      NoRefundsNoTotal(c.refunds, iid);
    }
  }

  lemma {:induction false} EffectOnIntent(c: Store, d: Store, iid: string, rid: string, j: string)
    requires LedgerInv(c) && Effect(c, d, iid, rid) && j in d.intents
    ensures IntentInv(d, j)
    ensures j in c.intents ==> IntentLater(c.intents[j], d.intents[j])
  {
    if j != iid {
      EffectOnOther(c, d, iid, rid, j);
    } else {
      forall r | r in c.refunds ensures c.refunds[r].intent in c.intents {
        assert RefundInv(c, r);
      }
      EffectOnOwn(c, d, iid, rid);
    }
  }

  lemma {:induction false} EffectOnRefund(c: Store, d: Store, iid: string, rid: string, q: string)
    requires LedgerInv(c) && Effect(c, d, iid, rid) && q in d.refunds
    ensures RefundInv(d, q)
    ensures q in c.refunds ==> RefundLater(c.refunds[q], d.refunds[q])
  {
    hide EffectMoney, IntentInv, Total, ReplayPayment, ReplayRefund, Numbered, MoneyStatus, WeightAt;
    NewAuditRows(c, d, iid, rid, iid, q);
    if q != rid {
      assert RefundInv(c, q);
      EffectOnIntent(c, d, iid, rid, d.refunds[q].intent);
    }
  }

  lemma {:induction false} EffectKeeps(c: Store, d: Store, iid: string, rid: string)
    requires LedgerInv(c) && Effect(c, d, iid, rid)
    ensures LedgerInv(d) && Extends(c, d)
  {
    hide IntentInv, RefundInv, IntentLater, RefundLater, EffectMoney, ReplayPayment, ReplayRefund, Numbered;
    forall j | j in d.intents
      ensures IntentInv(d, j) && (j in c.intents ==> IntentLater(c.intents[j], d.intents[j]))
    {
      EffectOnIntent(c, d, iid, rid, j);
    }
    forall q | q in d.refunds
      ensures RefundInv(d, q) && (q in c.refunds ==> RefundLater(c.refunds[q], d.refunds[q]))
    {
      EffectOnRefund(c, d, iid, rid, q);
    }
    forall j: string | j !in d.intents ensures ReplayPayment(d.audit, j) == Absent {
      NewAuditRows(c, d, iid, rid, j, rid);
    }
    forall q: string | q !in d.refunds ensures ReplayRefund(d.audit, q) == Absent {
      NewAuditRows(c, d, iid, rid, iid, q);
    }
  }
}
