/** Paid invoices over whole runs: each at the price of its own moment, and no period billed twice in a row. */
module SubscriptionInvoices {
  import opened Tables
  import opened Subscriptions
  import opened SubscriptionChanges
  import opened SubscriptionRuns

  /** A billed period. */
  datatype Span = Span(start: int, end: int)

  /** The period billed last; access granted by an administrator replaces the billed period. */
  function LastBilled(entries: seq<Entry>): Option<Span> {
    if entries == [] then None
    else
      var last := entries[|entries| - 1];
      if last.kind == InvoicePaid && last.detail.Invoice? then Some(Span(last.detail.start, last.detail.end))
      else if last.kind == AccessGranted then None
      else LastBilled(entries[..|entries| - 1])
  }

  /** An invoice entry bills another period than the one billed last, unless it put the subscription back to active. */
  predicate Fresh(before: seq<Entry>, e: Entry) {
    e.kind == InvoicePaid ==>
      && e.detail.Invoice?
      && (LastBilled(before).None? || LastBilled(before).value.start != e.detail.start
          || (before != [] && before[|before| - 1].kind == Activated))
  }

  predicate AllFresh(entries: seq<Entry>) {
    entries == [] || (AllFresh(entries[..|entries| - 1]) && Fresh(entries[..|entries| - 1], entries[|entries| - 1]))
  }

  /** The row shows the period that its log billed last. */
  predicate Billed(sub: Subscription, entries: seq<Entry>) {
    && AllFresh(entries)
    && (LastBilled(entries).Some? ==>
          sub.periodStart == Some(LastBilled(entries).value.start)
            && sub.periodEnd == Some(LastBilled(entries).value.end))
  }

  // ------------------------------------------------------------------ one edit

  predicate PlainUpTo(entries: seq<Entry>, n: nat)
    requires n <= |entries|
  {
    forall k | 0 <= k < n :: !Paying(entries[k])
  }

  predicate Plain(entries: seq<Entry>) {
    PlainUpTo(entries, |entries|)
  }

  /** An edit leaves the period alone, or ends in the one entry that sets it. */
  predicate Bills(s: Subscription, e: Edit) {
    if Plain(e.added) then e.sub.periodStart == s.periodStart && e.sub.periodEnd == s.periodEnd
    else
      var n := |e.added| - 1;
      && PlainUpTo(e.added, n)
      && (e.added[n].kind == AccessGranted
          || (e.added[n].kind == InvoicePaid && e.added[n].detail.Invoice?
              && e.sub != s && e.sub.periodStart == Some(e.added[n].detail.start)
              && e.sub.periodEnd == Some(e.added[n].detail.end)
              && if n == 0 then s.periodStart != e.sub.periodStart else e.added[n - 1].kind == Activated))
  }

  lemma {:induction false} SyncBills(s: Subscription, now: int)
    ensures Plain(Sync(s, now).added) && Sync(s, now).sub.periodStart == s.periodStart
    ensures Sync(s, now).sub.periodEnd == s.periodEnd
  {
    SyncParts(s, now);
  }

  lemma {:induction false} InvoiceBills(c: Catalog, s: Subscription, event: BillingEvent)
    requires event.InvoicePaidEvent?
    ensures Bills(s, ApplyInvoice(s, c, event).edit)
  {
    hide OnSale;
    var e := ApplyInvoice(s, c, event).edit;
    if e.added != [] {
      var n := |e.added| - 1;
      assert e.added[n].kind == InvoicePaid && Paying(e.added[n]);
      assert n == 0 || (n == 1 && e.added[0].kind == Activated);
    }
  }

  lemma {:induction false} EventBills(c: Catalog, s: Subscription, event: BillingEvent, name: string)
    ensures Bills(s, ApplyEvent(s, c, event, name).edit)
  {
    if event.InvoicePaidEvent? {
      hide Bills, ApplyInvoice;
      InvoiceBills(c, s, event);
    } else {
      hide ApplyInvoice;
      assert Plain(ApplyEvent(s, c, event, name).edit.added);
    }
  }

  lemma {:induction false} OverrideBills(c: Catalog, s: Subscription, action: Override, now: int)
    ensures var o := AdminOverride(s, c, action, now); o.Saved? ==> Bills(s, o.edit)
  {
    hide Sync;
    SyncBills(s, now);
    var o := AdminOverride(s, c, action, now);
    if o.Saved? && action.GrantAccess? {
      var n := |o.edit.added| - 1;
      assert Paying(o.edit.added[n]);
      assert PlainUpTo(o.edit.added, n);
    }
  }

  lemma {:induction false} OperationBills(c: Catalog, op: Operation, s: Subscription, now: int)
    ensures var o := Operate(op, s, c, now); o.Saved? ==> Bills(s, o.edit)
  {
    hide Sync, ApplyEvent, AdminOverride;
    SyncBills(s, now);
    match op
    case EventOp(event, name) => EventBills(c, s, event, name);
    case OverrideOp(action) => OverrideBills(c, s, action, now);
    case _ =>
  }

  lemma {:induction false} OneMoreEntry(entries: seq<Entry>, e: Entry)
    ensures AllFresh(entries + [e]) <==> AllFresh(entries) && Fresh(entries, e)
    ensures LastBilled(entries + [e]) ==
            if e.kind == InvoicePaid && e.detail.Invoice? then Some(Span(e.detail.start, e.detail.end))
            else if e.kind == AccessGranted then None else LastBilled(entries)
  {
    assert (entries + [e])[..|entries|] == entries;
  }

  lemma {:induction false} PlainEntries(entries: seq<Entry>, added: seq<Entry>)
    requires Plain(added) && AllFresh(entries)
    ensures AllFresh(entries + added) && LastBilled(entries + added) == LastBilled(entries)
  {
    hide AllFresh, LastBilled;
    if added == [] {
      assert entries + added == entries;
    } else {
      var fewer := added[..|added| - 1];
      PlainEntries(entries, fewer);
      assert entries + added == (entries + fewer) + [added[|added| - 1]];
      OneMoreEntry(entries + fewer, added[|added| - 1]);
    }
  }

  /** An accepted edit keeps row and log in step. */
  lemma {:induction false} EditStaysBilled(sub: Subscription, entries: seq<Entry>, read: Subscription, e: Edit)
    requires Billed(sub, entries) && Bills(read, e) && (e.sub != read ==> sub == read)
    ensures Billed(if e.sub == read then sub else e.sub.(version := read.version + 1), entries + e.added)
  {
    if Plain(e.added) {
      PlainEntries(entries, e.added);
    } else {
      var n := |e.added| - 1;
      var before := entries + e.added[..n];
      PlainEntries(entries, e.added[..n]);
      assert entries + e.added == before + [e.added[n]];
      assert n > 0 ==> before[|before| - 1] == e.added[n - 1];
      OneMoreEntry(before, e.added[n]);
    }
  }

  // ------------------------------------------------------------------ one step

  /** How one account goes on in a step that saw this catalog. */
  ghost predicate AccountEvolves(c: Catalog, sub: Subscription, log: seq<LogRow>, after: Subscription,
                                 longer: seq<LogRow>) {
    && (Billed(sub, Entries(log)) ==> Billed(after, Entries(longer)))
    && log <= longer
    && forall n | |log| <= n < |longer| :: PricedEntry(c, longer[n].entry)
  }

  ghost predicate Evolves(c: Catalog, s: Store, d: Store) {
    forall b | b in d.subs ::
      if b in s.subs then AccountEvolves(c, s.subs[b], Log(s, b), d.subs[b], Log(d, b))
      else Billed(d.subs[b], Entries(Log(d, b))) && forall n | 0 <= n < |Log(d, b)| ::
        PricedEntry(c, Log(d, b)[n].entry)
  }

  lemma {:induction false} AccountStays(c: Catalog, sub: Subscription, log: seq<LogRow>)
    ensures AccountEvolves(c, sub, log, sub, log)
  {
  }

  lemma {:induction false} StoreStays(c: Catalog, s: Store)
    ensures Evolves(c, s, s)
  {
    hide AccountEvolves;
    forall b | b in s.subs ensures AccountEvolves(c, s.subs[b], Log(s, b), s.subs[b], Log(s, b)) {
      AccountStays(c, s.subs[b], Log(s, b));
    }
  }

  lemma {:induction false} EditEvolves(c: Catalog, sub: Subscription, log: seq<LogRow>, read: Subscription, e: Edit,
                                       stored: nat)
    requires Legal(c, read, e) && Bills(read, e) && (e.sub != read ==> sub == read)
    ensures AccountEvolves(c, sub, log, if e.sub == read then sub
                           else e.sub.(version := read.version + 1), log + NumberedRows(e.added, stored))
  {
    hide Bills, Billed;
    EntriesAppend(log, e.added, stored);
    if Billed(sub, Entries(log)) {
      EditStaysBilled(sub, Entries(log), read, e);
    }
    var longer := log + NumberedRows(e.added, stored);
    forall n | |log| <= n < |longer| ensures PricedEntry(c, longer[n].entry) {
      assert longer[n].entry == e.added[n - |log|];
    }
  }

  lemma {:induction false} OperateEvolves(c: Catalog, s: Store, business: string, op: Operation, now: int, rows: Store,
                                          logs: Store)
    requires Inv(s) && Past(rows, s) && OperateOn(s, c, business, op, now, rows, logs).Some?
    ensures Evolves(c, s, OperateOn(s, c, business, op, now, rows, logs).value)
  {
    hide Past, Inv, Legal, AccountInv, Operate, Checks, UniqueRefs, UniqueSequences, MaxSequence, Bills, AccountEvolves;
    PastAccount(rows, s, business);
    OperationIsLegal(c, op, rows.subs[business], now);
    OperationBills(c, op, rows.subs[business], now);
    var read := rows.subs[business];
    var e := Operate(op, read, c, now).edit;
    var stored := MaxSequence(Log(logs, business));
    EditEvolves(c, s.subs[business], Log(s, business), read, e, stored);
    var d := AfterEdit(s, business, read, e, stored);
    forall b | b in d.subs
      ensures b in s.subs && AccountEvolves(c, s.subs[b], Log(s, b), d.subs[b], Log(d, b))
    {
      if b != business {
        AccountStays(c, s.subs[b], Log(s, b));
      }
    }
  }

  lemma {:induction false} EvolvesCompose(c: Catalog, s: Store, d: Store, e: Store)
    requires Evolves(c, s, d) && Evolves(c, d, e) && s.subs.Keys <= d.subs.Keys <= e.subs.Keys
    ensures Evolves(c, s, e)
  {
    hide Billed, PricedEntry;
    forall b | b in e.subs && b in d.subs
      ensures if b in s.subs then AccountEvolves(c, s.subs[b], Log(s, b), e.subs[b], Log(e, b))
              else Billed(e.subs[b], Entries(Log(e, b))) && forall n | 0 <= n < |Log(e, b)| ::
                PricedEntry(c, Log(e, b)[n].entry)
    {
      assert AccountEvolves(c, d.subs[b], Log(d, b), e.subs[b], Log(e, b));
    }
    forall b | b in e.subs && b !in d.subs ensures b !in s.subs {
      assert b !in d.subs.Keys;
    }
  }

  lemma {:induction false} SweepEvolves(s: Store, businesses: seq<string>, now: int, rows: Store, logs: seq<Store>)
    requires Inv(s) && Past(rows, s) && |logs| == |businesses| && forall k | 0 <= k < |logs| :: Past(logs[k], s)
    requires SweepAll(s, businesses, now, rows, logs).Some?
    ensures Evolves(NO_CATALOG, s, SweepAll(s, businesses, now, rows, logs).value)
    decreases |businesses|
  {
    hide Past, Inv, Follows, Evolves, OperateOn;
    if businesses == [] {
      StoreStays(NO_CATALOG, s);
    } else {
      var next := OperateOn(s, NO_CATALOG, businesses[0], SyncOp, now, rows, logs[0]).value;
      OperateFollows(NO_CATALOG, s, businesses[0], SyncOp, now, rows, logs[0]);
      OperateEvolves(NO_CATALOG, s, businesses[0], SyncOp, now, rows, logs[0]);
      OperateKeys(NO_CATALOG, s, businesses[0], SyncOp, now, rows, logs[0]);
      PastStaysPast(rows, s, next);
      forall k | 0 <= k < |logs| ensures Past(logs[k], next) {
        PastStaysPast(logs[k], s, next);
      }
      FollowsHasInv(s, next);
      SweepEvolves(next, businesses[1..], now, rows, logs[1..]);
      SweepKeys(next, businesses[1..], now, rows, logs[1..]);
      EvolvesCompose(NO_CATALOG, s, next, SweepAll(s, businesses, now, rows, logs).value);
    }
  }

  lemma {:induction false} TrialEvolves(c: Catalog, s: Store, business: string, plan: string, interval: Interval,
                                        trial: bool, now: int, hashes: set<string>)
    requires CommitTrial(s, business, NewSubscription(plan, interval, trial, now), trial, hashes).Some?
    ensures Evolves(c, s, CommitTrial(s, business, NewSubscription(plan, interval, trial, now), trial, hashes).value)
  {
    hide AccountEvolves, Billed, PricedEntry;
    var d := CommitTrial(s, business, NewSubscription(plan, interval, trial, now), trial, hashes).value;
    FirstIsBilled(c, plan, interval, trial, now);
    forall b | b in s.subs ensures AccountEvolves(c, s.subs[b], Log(s, b), d.subs[b], Log(d, b)) {
      AccountStays(c, s.subs[b], Log(s, b));
    }
    assert Log(d, business) == NumberedRows([FirstEntry(trial)], 0);
  }

  lemma {:induction false} FirstIsBilled(c: Catalog, plan: string, interval: Interval, trial: bool, now: int)
    ensures var log := NumberedRows([FirstEntry(trial)], 0);
            && Billed(NewSubscription(plan, interval, trial, now), Entries(log))
            && |log| == 1 && PricedEntry(c, log[0].entry)
  {
    assert Entries(NumberedRows([FirstEntry(trial)], 0)) == [] + [FirstEntry(trial)];
    OneMoreEntry([], FirstEntry(trial));
  }

  /** The catalog a step saw. */
  function CatalogOf(step: Step): Catalog {
    if step.Sweep? then NO_CATALOG else step.catalog
  }

  lemma {:induction false} StepEvolves(w: World, step: Step)
    requires WorldInv(w)
    ensures Evolves(CatalogOf(step), Last(w), Last(Next(w, step)))
  {
    hide Past, Inv, Evolves, OperateOn, SweepAll, CommitTrial, Seen, OnSale, Claimed, TrialInv;
    StoreStays(CatalogOf(step), Last(w));
    match step
    case StartTrial(c, business, plan, interval, hashes, now, subAt, claimsAt, room) =>
      var trial := !Claimed(Seen(w, claimsAt).claims, hashes, business);
      if CommitTrial(Last(w), business, NewSubscription(plan, interval, trial, now), trial, hashes).Some? {
        TrialEvolves(c, Last(w), business, plan, interval, trial, now, hashes);
      }
    case Operation(c, business, op, now, subAt, logAt) =>
      ReadsArePast(w, subAt);
      if OperateOn(Last(w), c, business, op, now, Seen(w, subAt), Seen(w, logAt)).Some? {
        OperateEvolves(c, Last(w), business, op, now, Seen(w, subAt), Seen(w, logAt));
      }
    case Sweep(businesses, now, subAt, logsAt) =>
      ReadsArePast(w, subAt);
      forall k | 0 <= k < |SeenEach(w, logsAt)| ensures Past(SeenEach(w, logsAt)[k], Last(w)) {
        ReadsArePast(w, logsAt[k]);
      }
      if |logsAt| == |businesses| && SweepAll(Last(w), businesses, now, Seen(w, subAt), SeenEach(w, logsAt)).Some? {
        SweepEvolves(Last(w), businesses, now, Seen(w, subAt), SeenEach(w, logsAt));
      }
  }

  // ------------------------------------------------------------------ every run

  lemma {:induction false} RunStaysBilled(steps: seq<Step>, b: string)
    requires b in Last(After(steps)).subs
    ensures Billed(Last(After(steps)).subs[b], Entries(Log(Last(After(steps)), b)))
    decreases |steps|
  {
    hide Next, Billed, WorldInv, PricedEntry;
    if steps != [] {
      var before, step := After(steps[..|steps| - 1]), steps[|steps| - 1];
      EveryRunKeepsInvariant(steps[..|steps| - 1]);
      StepEvolves(before, step);
      if b in Last(before).subs {
        RunStaysBilled(steps[..|steps| - 1], b);
      }
    }
  }

  lemma {:induction false} FreshAt(entries: seq<Entry>, n: nat)
    requires AllFresh(entries) && n < |entries|
    ensures Fresh(entries[..n], entries[n])
  {
    if n < |entries| - 1 {
      FreshAt(entries[..|entries| - 1], n);
      assert entries[..|entries| - 1][..n] == entries[..n];
    }
  }

  /** No period is billed twice in a row: in every log of every run an invoice bills another period than the one before
      it, unless access was granted in between or the subscription had stopped being active and the invoice revived
      it. */
  lemma {:induction false} NoPeriodIsBilledTwiceInARow(steps: seq<Step>, b: string, n: nat)
    requires b in Last(After(steps)).subs && n < |Log(Last(After(steps)), b)|
    requires Log(Last(After(steps)), b)[n].entry.kind == InvoicePaid
    ensures var entries := Entries(Log(Last(After(steps)), b));
            && entries[n].detail.Invoice?
            && (LastBilled(entries[..n]).Some? && LastBilled(entries[..n]).value.start == entries[n].detail.start ==>
                  n > 0 && entries[n - 1].kind == Activated)
  {
    hide After, LastBilled;
    RunStaysBilled(steps, b);
    FreshAt(Entries(Log(Last(After(steps)), b)), n);
  }

  /** The period a row shows is the one billed last, whatever happened since. */
  lemma {:induction false} PeriodIsLastBilled(steps: seq<Step>, b: string)
    requires b in Last(After(steps)).subs && LastBilled(Entries(Log(Last(After(steps)), b))).Some?
    ensures var sub, billed := Last(After(steps)).subs[b], LastBilled(Entries(Log(Last(After(steps)), b))).value;
            sub.periodStart == Some(billed.start) && sub.periodEnd == Some(billed.end)
  {
    hide After, LastBilled, AllFresh;
    RunStaysBilled(steps, b);
  }

  /** An invoice that is in order changes nothing if and only if the row is active in the very period it bills. */
  lemma {:induction false} InvoiceIsIgnoredIff(s: Subscription, c: Catalog, event: BillingEvent)
    requires event.InvoicePaidEvent?
    ensures s.status == Active && s.periodStart == event.start ==> ApplyInvoice(s, c, event).edit == Edit(s, [])
    ensures ApplyInvoice(s, c, event).processed ==>
              (ApplyInvoice(s, c, event).edit == Edit(s, []) <==> s.status == Active && s.periodStart == event.start)
  {
    var a := ApplyInvoice(s, c, event);
    if a.processed && !(s.status == Active && s.periodStart == event.start) {
      assert a.edit.added[|a.edit.added| - 1].kind == InvoicePaid;
    }
  }

  /** The period billed last, reported again while the subscription is active, leaves the store as it is: at any later
      time of any run, from whatever plan or interval, and from whatever stale row and log the report was handled. */
  lemma {:induction false} RepeatedInvoiceChangesNothing(steps: seq<Step>, step: Step)
    requires step.Operation? && step.op.EventOp? && step.op.event.InvoicePaidEvent? && step.op.event.start.Some?
    requires step.business in Last(After(steps)).subs && Last(After(steps)).subs[step.business].status == Active
    requires var billed := LastBilled(Entries(Log(Last(After(steps)), step.business)));
             billed.Some? && Some(billed.value.start) == step.op.event.start
    ensures Last(Next(After(steps), step)) == Last(After(steps))
  {
    hide After, LastBilled, Inv, Past, OperateOn, Seen;
    var w := After(steps);
    EveryRunKeepsInvariant(steps);
    PeriodIsLastBilled(steps, step.business);
    ReadsArePast(w, step.subAt);
    RepeatedChangesNothing(Last(w), step, Seen(w, step.subAt), Seen(w, step.logAt));
  }

  /** The same on one state, from any past row. */
  lemma {:induction false} RepeatedChangesNothing(s: Store, step: Step, rows: Store, logs: Store)
    requires Inv(s) && Past(rows, s) && step.Operation? && step.op.EventOp? && step.op.event.InvoicePaidEvent?
    requires step.business in s.subs && s.subs[step.business].status == Active
    requires s.subs[step.business].periodStart == step.op.event.start
    ensures var o := OperateOn(s, step.catalog, step.business, step.op, step.now, rows, logs); o == None || o == Some(s)
  {
    hide Inv, Past, ApplyInvoice, UniqueRefs, UniqueSequences, Checks, MaxSequence;
    if step.business in rows.subs {
      var read := rows.subs[step.business];
      PastAccount(rows, s, step.business);
      InvoiceIsIgnoredIff(read, step.catalog, step.op.event);
      UnchangedRowAddsNothing(read, step.catalog, step.op.event);
      NothingAdded(s, step.business);
    }
  }

  lemma {:induction false} UnchangedRowAddsNothing(s: Subscription, c: Catalog, event: BillingEvent)
    requires event.InvoicePaidEvent?
    ensures ApplyInvoice(s, c, event).edit.sub == s ==> ApplyInvoice(s, c, event).edit == Edit(s, [])
  {
  }

  lemma {:induction false} NothingAdded(s: Store, b: string)
    requires Inv(s) && b in s.subs
    ensures forall stored: nat :: Store(s.subs, s.logs[b := Log(s, b) + NumberedRows([], stored)], s.claims) == s
  {
    hide AccountInv;
    assert b in s.logs.Keys;
    assert s.logs[b := Log(s, b)] == s.logs;
    forall stored: nat ensures Log(s, b) + NumberedRows([], stored) == Log(s, b) {
    }
  }

  /** Step `j` added row `n` of the log, at the price of its catalog. */
  ghost predicate PricedAt(steps: seq<Step>, j: nat, b: string, n: nat)
    requires j < |steps|
  {
    var before, after := Log(Last(After(steps[..j])), b), Log(Last(After(steps[..j + 1])), b);
    |before| <= n < |after| && PricedEntry(CatalogOf(steps[j]), after[n].entry)
  }

  /** Every paid invoice of every log carries the price that the catalog had for its plan and interval when the step ran
      that added it. */
  lemma {:induction false} InvoicesCarryTheirPrice(steps: seq<Step>, b: string, n: nat)
    requires b in Last(After(steps)).subs && n < |Log(Last(After(steps)), b)|
    ensures exists j | 0 <= j < |steps| :: PricedAt(steps, j, b, n)
              && Log(Last(After(steps[..j + 1])), b)[n] == Log(Last(After(steps)), b)[n]
    decreases |steps|
  {
    hide Next, Billed, WorldInv, PricedEntry;
    if steps != [] {
      var fewer, step := steps[..|steps| - 1], steps[|steps| - 1];
      EveryRunKeepsInvariant(fewer);
      StepEvolves(After(fewer), step);
      NoLogWithoutRow(After(fewer), b);
      if n < |Log(Last(After(fewer)), b)| {
        InvoicesCarryTheirPrice(fewer, b, n);
        hide After, PricedAt;
        var j :| 0 <= j < |fewer| && PricedAt(fewer, j, b, n)
          && Log(Last(After(fewer[..j + 1])), b)[n] == Log(Last(After(fewer)), b)[n];
        PricedStays(fewer, steps, j, b, n);
      } else {
        assert steps[..|fewer| + 1] == steps;
        assert PricedAt(steps, |fewer|, b, n);
      }
    }
  }

  lemma {:induction false} PricedStays(fewer: seq<Step>, steps: seq<Step>, j: nat, b: string, n: nat)
    requires fewer <= steps && j < |fewer| && PricedAt(fewer, j, b, n)
    ensures PricedAt(steps, j, b, n) && fewer[..j + 1] == steps[..j + 1]
  {
    hide After, PricedEntry;
    assert fewer[..j] == steps[..j] && fewer[..j + 1] == steps[..j + 1];
  }

  lemma {:induction false} NoLogWithoutRow(w: World, b: string)
    requires WorldInv(w)
    ensures b !in Last(w).subs ==> Log(Last(w), b) == []
  {
    ReadsArePast(w, 0);
    assert b !in Last(w).subs ==> b !in Last(w).logs.Keys;
  }
}
