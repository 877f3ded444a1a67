/** One sale, its refunds, and what it contributes to revenue. Amounts are in hundredths of the currency unit. */
module SaleLedger {
  import opened Tables

  datatype SaleStatus = Succeeded | Pending | Failed | Refunded | PartiallyRefunded

  /** A calendar day by its ordinal, and the microsecond of the day. */
  datatype Moment = Moment(day: int, tick: int)

  datatype Row = Row(
    status: SaleStatus, occurred: Moment, service: string, gross: int, vat: Option<int>, fee: Option<int>, net: int,
    refunded: Option<int>, currency: string)

  /** An unknown amount counts as zero. */
  function Known(amount: Option<int>): int {
    if amount.Some? then amount.value else 0
  }

  function ComputeNetAmount(gross: int, vat: Option<int>, fee: Option<int>): int {
    gross - Known(vat) - Known(fee)
  }

  function RevenueContribution(r: Row): int {
    if r.status in {Pending, Failed, Refunded} then 0
    else if r.net - Known(r.refunded) > 0 then r.net - Known(r.refunded) else 0
  }

  datatype EventKind = RefundFull | RefundPartial

  datatype RefundEvent = RefundEvent(kind: EventKind, amount: int)

  datatype Ledger = Ledger(row: Row, events: seq<RefundEvent>)

  predicate Exceeds(r: Row, amount: Option<int>) {
    r.status != Refunded && amount.Some? && Known(r.refunded) + amount.value > r.net
  }

  /** A refund of `amount`, or of all that is left. Refunding a fully refunded sale again, or too much, changes
      nothing. */
  function Refund(l: Ledger, amount: Option<int>): Ledger {
    var already := Known(l.row.refunded);
    if l.row.status == Refunded || Exceeds(l.row, amount) then l
    else if amount.None? then
      Ledger(l.row.(refunded := Some(l.row.net), status := Refunded),
             l.events + [RefundEvent(RefundFull, l.row.net - already)])
    else
      var total := already + amount.value;
      var status := if total == l.row.net then Refunded else PartiallyRefunded;
      Ledger(l.row.(refunded := Some(total), status := status),
             l.events + [RefundEvent(if status == Refunded then RefundFull else RefundPartial, amount.value)])
  }

  /** A refund is recorded exactly while the sale is not fully refunded and the amount fits into what is left of the
      net; without an amount all of that is refunded. The sale is then fully refunded or partly, and the event says
      which and how much. */
  lemma {:induction false} RefundIs(l: Ledger, amount: Option<int>)
    ensures var left := l.row.net - Known(l.row.refunded);
            var returned := if amount.None? then left else amount.value;
            var full := amount.None? || returned == left;
            Refund(l, amount) ==
            if l.row.status == Refunded || returned > left then l
            else Ledger(l.row.(status := if full then Refunded else PartiallyRefunded,
                               refunded := Some(Known(l.row.refunded) + returned)),
                        l.events + [RefundEvent(if full then RefundFull else RefundPartial, returned)])
  {
  }

  class Sale {
    var row: Row
    var events: seq<RefundEvent>

    constructor (row: Row)
      ensures this.row == row && events == []
    {
      this.row, events := row, [];
    }

    method RecordRefund(amount: Option<int>) returns (exceeds: bool)
      modifies this
      ensures exceeds == Exceeds(old(row), amount)
      ensures Ledger(row, events) == Refund(old(Ledger(row, events)), amount)
    {
      if row.status == Refunded {
        return false;
      }
      var already := Known(row.refunded);
      var kind, recorded := RefundFull, row.net - already;
      if amount.None? {
        row := row.(refunded := Some(row.net), status := Refunded);
      } else {
        var total := already + amount.value;
        if total > row.net {
          return true;
        }
        row := row.(refunded := Some(total));
        row := row.(status := if total == row.net then Refunded else PartiallyRefunded);
        kind := if row.status == Refunded then RefundFull else RefundPartial;
        recorded := amount.value;
      }
      events := events + [RefundEvent(kind, recorded)];
      return false;
    }
  }

  // ------------------------------------------------------------------- runs

  function Refunds(l: Ledger, amounts: seq<Option<int>>): Ledger {
    if amounts == [] then l else Refund(Refunds(l, amounts[..|amounts| - 1]), amounts[|amounts| - 1])
  }

  predicate Positive(amounts: seq<Option<int>>) {
    forall k | 0 <= k < |amounts| && amounts[k].Some? :: amounts[k].value > 0
  }

  function Paid(events: seq<RefundEvent>): int {
    if events == [] then 0 else Paid(events[..|events| - 1]) + events[|events| - 1].amount
  }

  /** A sale as it is created. */
  predicate NewSale(r: Row) {
    && r.status in {Succeeded, Pending, Failed}
    && r.refunded.None?
    && r.net == ComputeNetAmount(r.gross, r.vat, r.fee)
    && r.net >= 0
  }

  /** The events add up to the refunded amount, which never exceeds the net amount; the status says how much of it was
      returned. */
  predicate AmountsKept(start: Row, l: Ledger) {
    && l.row == start.(status := l.row.status, refunded := l.row.refunded)
    && Paid(l.events) == Known(l.row.refunded)
    && 0 <= Known(l.row.refunded) <= l.row.net
    && (l.row.status == Refunded ==> Known(l.row.refunded) == l.row.net)
    && (l.row.status == PartiallyRefunded ==> 0 < Known(l.row.refunded) < l.row.net)
  }

  /** Only the last event can be a full refund; without events the sale is as it was created. */
  predicate EventsKept(start: Row, l: Ledger) {
    && (l.events == [] <==> l.row.status == start.status)
    && (l.events == [] ==> l.row == start)
    && (l.events != [] ==> l.row.status in {PartiallyRefunded, Refunded})
    && (forall k | 0 <= k < |l.events| ::
          (l.events[k].kind == RefundFull <==> k == |l.events| - 1 && l.row.status == Refunded)
          && (l.events[k].kind == RefundPartial ==> l.events[k].amount > 0))
  }

  /** The ledger of one sale. */
  predicate Kept(start: Row, l: Ledger) {
    AmountsKept(start, l) && EventsKept(start, l)
  }

  lemma {:induction false} PaidGrows(events: seq<RefundEvent>, e: RefundEvent)
    ensures Paid(events + [e]) == Paid(events) + e.amount
  {
    assert (events + [e])[..|events|] == events;
  }

  /** One more event, of the kind that the new status calls for. */
  lemma {:induction false} OneMoreEvent(start: Row, l: Ledger, row: Row, e: RefundEvent)
    requires NewSale(start) && EventsKept(start, l) && l.row.status != Refunded
             && row.status in {PartiallyRefunded, Refunded}
    requires (e.kind == RefundFull <==> row.status == Refunded) && (e.kind == RefundPartial ==> e.amount > 0)
    ensures EventsKept(start, Ledger(row, l.events + [e]))
  {
    hide ComputeNetAmount;
    var events := l.events + [e];
    forall k | 0 <= k < |events|
      ensures (events[k].kind == RefundFull <==> k == |events| - 1 && row.status == Refunded)
              && (events[k].kind == RefundPartial ==> events[k].amount > 0)
    {
      if k < |l.events| {
        assert events[k] == l.events[k] && l.events[k].kind != RefundFull;
      }
    }
  }

  /** The new amounts, when the event carries the difference. */
  lemma {:induction false} OneMoreAmount(start: Row, l: Ledger, total: int, status: SaleStatus, e: RefundEvent)
    requires AmountsKept(start, l) && e.amount == total - Known(l.row.refunded) && 0 <= total <= l.row.net
    requires (status == Refunded ==> total == l.row.net) && (status == PartiallyRefunded ==> 0 < total < l.row.net)
    ensures AmountsKept(start, Ledger(l.row.(refunded := Some(total), status := status), l.events + [e]))
  {
    PaidGrows(l.events, e);
    hide Paid;
  }

  lemma {:induction false} RefundKeeps(start: Row, l: Ledger, amount: Option<int>)
    requires NewSale(start) && Kept(start, l) && (amount.Some? ==> amount.value > 0)
    ensures Kept(start, Refund(l, amount))
  {
    if l.row.status != Refunded && !Exceeds(l.row, amount) {
      var before := Known(l.row.refunded);
      var total := if amount.None? then l.row.net else before + amount.value;
      var status := if total == l.row.net then Refunded else PartiallyRefunded;
      var e := RefundEvent(if status == Refunded then RefundFull else RefundPartial, total - before);
      var row := l.row.(refunded := Some(total), status := status);
      assert Refund(l, amount) == Ledger(row, l.events + [e]);
      AmountsFacts(start, l);
      hide AmountsKept, EventsKept;
      OneMoreAmount(start, l, total, status, e);
      OneMoreEvent(start, l, row, e);
    }
  }

  lemma {:induction false} AmountsFacts(start: Row, l: Ledger)
    requires AmountsKept(start, l)
    ensures 0 <= Known(l.row.refunded) <= l.row.net
  {
    hide Paid;
  }

  lemma {:induction false} RunKeeps(start: Row, amounts: seq<Option<int>>)
    requires NewSale(start) && Positive(amounts)
    ensures Kept(start, Refunds(Ledger(start, []), amounts))
  {
    if amounts != [] {
      var fewer := amounts[..|amounts| - 1];
      assert forall k | 0 <= k < |fewer| :: fewer[k] == amounts[k];
      RunKeeps(start, fewer);
      RefundKeeps(start, Refunds(Ledger(start, []), fewer), amounts[|amounts| - 1]);
    }
  }

  /** Over any run of positive or full refunds of a succeeded sale, the recorded amounts add up to the refunded amount,
      no more than the net amount, and what is left is exactly what the sale contributes to revenue. */
  lemma {:induction false} RefundsReconcile(start: Row, amounts: seq<Option<int>>)
    requires NewSale(start) && Positive(amounts) && start.status == Succeeded
    ensures var l := Refunds(Ledger(start, []), amounts);
            && Paid(l.events) == Known(l.row.refunded) <= start.net
            && RevenueContribution(l.row) + Known(l.row.refunded) == start.net
  {
    RunKeeps(start, amounts);
  }

  /** A fully refunded sale stays as it is, and records no further event. */
  lemma {:induction false} FullRefundIsFinal(l: Ledger, amounts: seq<Option<int>>)
    requires l.row.status == Refunded
    ensures Refunds(l, amounts) == l
  {
    if amounts != [] {
      FullRefundIsFinal(l, amounts[..|amounts| - 1]);
    }
  }

  /** One might expect that a refund never raises revenue. The source does not ask for the sale to have succeeded, so it
      does, exactly when part of the net amount of a pending or failed sale is refunded. */
  lemma {:induction false} RefundRaisesRevenueIff(start: Row, amounts: seq<Option<int>>, amount: Option<int>)
    requires NewSale(start) && Positive(amounts) && (amount.Some? ==> amount.value > 0)
    ensures var l := Refunds(Ledger(start, []), amounts);
            RevenueContribution(Refund(l, amount).row) > RevenueContribution(l.row) <==>
            l.row.status in {Pending, Failed} && amount.Some? && amount.value < l.row.net
  {
    RunKeeps(start, amounts);
  }

  /** Such a sale: pending, 100.00 net, of which 1.00 is refunded, counts for 99.00 afterwards. */
  lemma {:induction false} PendingSaleEntersRevenue(at: Moment)
    ensures var sale := Row(Pending, at, "Consultation", 10_000, None, None, 10_000, None, "ILS");
            NewSale(sale) && RevenueContribution(sale) == 0
              && RevenueContribution(Refund(Ledger(sale, []), Some(100)).row) == 9_900
  {
  }
}
