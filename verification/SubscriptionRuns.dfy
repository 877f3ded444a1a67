/** Whole billing runs over many businesses, with stale reads, concurrent writers and retried onboarding. */
module SubscriptionRuns {
  import opened Tables
  import opened Calendar
  import opened Subscriptions
  import opened SubscriptionChanges

  datatype LogRow = LogRow(sequence: nat, entry: Entry)

  /** One subscription per business, its append-only log, and the global trial claims (identity hash to business). */
  datatype Store = Store(subs: map<string, Subscription>, logs: map<string, seq<LogRow>>, claims: map<string, string>)

  const EMPTY: Store := Store(map[], map[], map[])

  function Log(s: Store, business: string): seq<LogRow> {
    if business in s.logs then s.logs[business] else []
  }

  function Entries(log: seq<LogRow>): seq<Entry> {
    seq(|log|, k requires 0 <= k < |log| => log[k].entry)
  }

  /** `select max(sequence)` for one subscription. */
  function MaxSequence(log: seq<LogRow>): nat {
    if log == [] then 0
    else
      var before := MaxSequence(log[..|log| - 1]);
      if log[|log| - 1].sequence > before then log[|log| - 1].sequence else before
  }

  function NumberedRows(entries: seq<Entry>, stored: nat): seq<LogRow> {
    seq(|entries|, k requires 0 <= k < |entries| => LogRow(stored + k + 1, entries[k]))
  }

  predicate UniqueSequences(log: seq<LogRow>) {
    forall j, k | 0 <= j < k < |log| :: log[j].sequence != log[k].sequence
  }

  /** The unique index on the provider's own subscription reference. */
  predicate UniqueRefs(subs: map<string, Subscription>) {
    forall a, b | a in subs && b in subs && a != b && subs[a].subscriptionRef.Some? ::
      !(subs[a].provider == subs[b].provider && subs[a].subscriptionRef == subs[b].subscriptionRef)
  }

  // ------------------------------------------------------------------- commits

  /** An edit computed from a row read at some state, with event numbers read at some state. */
  predicate AcceptsEdit(s: Store, business: string, read: Subscription, e: Edit, stored: nat) {
    && business in s.subs
    && (e.sub != read ==> s.subs[business].version == read.version)
    && (e.sub != read ==> Checks(e.sub) && UniqueRefs(AfterEdit(s, business, read, e, stored).subs))
    && UniqueSequences(Log(s, business) + NumberedRows(e.added, stored))
  }

  function AfterEdit(s: Store, business: string, read: Subscription, e: Edit, stored: nat): Store {
    Store(if e.sub == read then s.subs else s.subs[business := e.sub.(version := read.version + 1)],
          s.logs[business := Log(s, business) + NumberedRows(e.added, stored)], s.claims)
  }

  function CommitEdit(s: Store, business: string, read: Subscription, e: Edit, stored: nat): Option<Store> {
    if AcceptsEdit(s, business, read, e, stored) then Some(AfterEdit(s, business, read, e, stored)) else None
  }

  function NewSubscription(plan: string, interval: Interval, trial: bool, now: int): Subscription {
    Subscription(plan, interval, if trial then Trialing else Lapsed,
                 if trial then Some(now) else None, if trial then Some(now + TRIAL_DAYS * DAY) else None,
                 None, None, false, None, None, None, false, None, None, None, 1)
  }

  function FirstEntry(trial: bool): Entry {
    if trial then Entry(TrialStarted, None, Some(Trialing), Owner, NoDetail)
    else Entry(TrialUnavailable, None, Some(Lapsed), Owner, NoDetail)
  }

  /** A claim of one of these identities by another business, as one look-up saw it. */
  predicate Claimed(claims: map<string, string>, hashes: set<string>, business: string) {
    exists h :: h in hashes && h in claims && claims[h] != business
  }

  function CommitTrial(s: Store, business: string, sub: Subscription, trial: bool, hashes: set<string>): Option<Store> {
    if business in s.subs || (trial && exists h :: h in hashes && h in s.claims) then None
    else
      Some(Store(s.subs[business := sub], s.logs[business := NumberedRows([FirstEntry(trial)], 0)],
                 if trial then s.claims + map h | h in hashes :: business else s.claims))
  }

  // --------------------------------------------------------------------- steps

  datatype Operation =
    | SyncOp
    | ChangePlanOp(plan: string, interval: Interval, capacity: bool, provider: bool)
    | CheckoutOp(checkoutPlan: string, checkoutInterval: Interval, room: bool, available: bool)
    | CancelOp(cancel: bool, reachable: bool)
    | EventOp(event: BillingEvent, name: string)
    | OverrideOp(action: Override)

  function Operate(op: Operation, s: Subscription, c: Catalog, now: int): Outcome {
    match op
    case SyncOp => Saved(Sync(s, now))
    case ChangePlanOp(plan, interval, capacity, provider) => ChangePlan(s, c, plan, interval, now, capacity, provider)
    case CheckoutOp(plan, interval, room, available) => CreateCheckout(s, c, plan, interval, now, room, available)
    case CancelOp(cancel, reachable) => SetCancel(s, cancel, now, reachable)
    case EventOp(event, name) => Saved(ApplyEvent(s, c, event, name).edit)
    case OverrideOp(action) => AdminOverride(s, c, action, now)
  }

  datatype Step =
    | StartTrial(catalog: Catalog, business: string, plan: string, interval: Interval, hashes: set<string>, now: int,
                 subAt: nat, claimsAt: nat, room: bool)
    | Operation(catalog: Catalog, business: string, op: Operation, now: int, subAt: nat, logAt: nat)
    | Sweep(businesses: seq<string>, now: int, subAt: nat, logsAt: seq<nat>)

  /** Committed states so far, and the identities each business presented when a trial was started for it. */
  datatype World = World(history: seq<Store>, starts: map<string, set<string>>)

  const BEGIN: World := World([EMPTY], map[])

  function Last(w: World): Store
    requires w.history != []
  {
    w.history[|w.history| - 1]
  }

  function Seen(w: World, k: nat): Store
    requires w.history != []
  {
    if k < |w.history| then w.history[k] else Last(w)
  }

  function SeenEach(w: World, positions: seq<nat>): seq<Store>
    requires w.history != []
  {
    seq(|positions|, k requires 0 <= k < |positions| => Seen(w, positions[k]))
  }

  function OperateOn(s: Store, c: Catalog, business: string, op: Operation, now: int, rows: Store,
                     logs: Store): Option<Store> {
    if business !in rows.subs then None
    else
      match Operate(op, rows.subs[business], c, now)
      case Rejected => None
      case Saved(e) => CommitEdit(s, business, rows.subs[business], e, MaxSequence(Log(logs, business)))
  }

  /** Time alone decides a sync: it looks at no plan. */
  const NO_CATALOG: Catalog := Catalog({}, map[])

  /** The scheduled job: every listed row is synced in one transaction. The log is looked up once per row. */
  function SweepAll(s: Store, businesses: seq<string>, now: int, rows: Store, logs: seq<Store>): Option<Store>
    requires |logs| == |businesses|
    decreases |businesses|
  {
    if businesses == [] then Some(s)
    else
      match OperateOn(s, NO_CATALOG, businesses[0], SyncOp, now, rows, logs[0])
      case None => None
      case Some(next) => SweepAll(next, businesses[1..], now, rows, logs[1..])
  }

  function Next(w: World, step: Step): (next: World)
    requires w.history != []
    ensures next.history != []
  {
    match step
    case StartTrial(c, business, plan, interval, hashes, now, subAt, claimsAt, room) =>
      if !OnSale(c, plan, interval) || business in Seen(w, subAt).subs || !room then w
      else
        var trial := !Claimed(Seen(w, claimsAt).claims, hashes, business);
        (match CommitTrial(Last(w), business, NewSubscription(plan, interval, trial, now), trial, hashes)
         case None => w
         case Some(s) => World(w.history + [s], if trial then w.starts[business := hashes] else w.starts))
    case Operation(c, business, op, now, subAt, logAt) =>
      (match OperateOn(Last(w), c, business, op, now, Seen(w, subAt), Seen(w, logAt))
       case None => w
       case Some(s) => w.(history := w.history + [s]))
    case Sweep(businesses, now, subAt, logsAt) =>
      if |logsAt| != |businesses| then w
      else
        (match SweepAll(Last(w), businesses, now, Seen(w, subAt), SeenEach(w, logsAt))
         case None => w
         case Some(s) => w.(history := w.history + [s]))
  }

  function After(steps: seq<Step>): (w: World)
    ensures w.history != []
  {
    if steps == [] then BEGIN else Next(After(steps[..|steps| - 1]), steps[|steps| - 1])
  }

  // ----------------------------------------------------------------- invariant

  predicate Numbered(log: seq<LogRow>) {
    forall k | 0 <= k < |log| :: log[k].sequence == k + 1
  }

  ghost predicate PaidFor(entries: seq<Entry>) {
    exists k :: 0 <= k < |entries| && Paying(entries[k])
  }

  predicate StartsTrial(entries: seq<Entry>) {
    |entries| > 0 && entries[0].kind == TrialStarted
  }

  /** One subscription and its log. */
  ghost predicate AccountInv(sub: Subscription, log: seq<LogRow>) {
    var entries := Entries(log);
    && Checks(sub)
    && Numbered(log)
    && Replay(Start, entries) == On(sub.status)
    && (sub.status == Active ==> PaidFor(entries))
    && (sub.trialStartedAt.Some? <==> StartsTrial(entries))
    && (forall k | 0 < k < |entries| :: entries[k].kind !in {TrialStarted, TrialUnavailable})
    && |entries| > 0
  }

  ghost predicate Inv(s: Store) {
    && s.logs.Keys == s.subs.Keys
    && UniqueRefs(s.subs)
    && forall b | b in s.subs :: AccountInv(s.subs[b], Log(s, b))
  }

  ghost predicate AccountLater(a: Subscription, alog: seq<LogRow>, b: Subscription, blog: seq<LogRow>) {
    && a.version <= b.version && (a.version == b.version ==> a == b)
    && a.trialStartedAt == b.trialStartedAt
    && alog <= blog
  }

  ghost predicate Extends(a: Store, b: Store) {
    && (forall k | k in a.subs :: k in b.subs && AccountLater(a.subs[k], Log(a, k), b.subs[k], Log(b, k)))
    && (forall h | h in a.claims :: h in b.claims && b.claims[h] == a.claims[h])
  }

  lemma {:induction false} ExtendsCompose(a: Store, b: Store, c: Store)
    requires Extends(a, b) && Extends(b, c)
    ensures Extends(a, c)
  {
    forall k | k in a.subs ensures k in c.subs && AccountLater(a.subs[k], Log(a, k), c.subs[k], Log(c, k)) {
      assert AccountLater(a.subs[k], Log(a, k), b.subs[k], Log(b, k))
             && AccountLater(b.subs[k], Log(b, k), c.subs[k], Log(c, k));
    }
  }

  lemma {:induction false} MaxIsCount(log: seq<LogRow>)
    requires Numbered(log)
    ensures MaxSequence(log) == |log|
  {
    if log != [] {
      MaxIsCount(log[..|log| - 1]);
    }
  }

  /** Numbers taken from an earlier look at the log are the next ones, or the unique index refuses them. */
  lemma {:induction false} AcceptedNumbersAreNext(log: seq<LogRow>, entries: seq<Entry>, stored: nat)
    requires Numbered(log) && stored <= |log| && UniqueSequences(log + NumberedRows(entries, stored))
    ensures Numbered(log + NumberedRows(entries, stored))
  {
    if entries != [] && stored < |log| {
      StaleNumberIsRefused(log, entries, stored);
    }
  }

  lemma {:induction false} StaleNumberIsRefused(log: seq<LogRow>, entries: seq<Entry>, stored: nat)
    requires Numbered(log) && stored < |log| && entries != []
    ensures !UniqueSequences(log + NumberedRows(entries, stored))
  {
    var all := log + NumberedRows(entries, stored);
    assert all[stored].sequence == stored + 1 && all[|log|].sequence == stored + 1;
  }

  lemma {:induction false} EntriesAppend(log: seq<LogRow>, entries: seq<Entry>, stored: nat)
    ensures Entries(log + NumberedRows(entries, stored)) == Entries(log) + entries
  {
  }

  /** An accepted legal edit keeps the account's invariant. */
  lemma {:induction false} EditKeepsAccount(c: Catalog, sub: Subscription, log: seq<LogRow>, read: Subscription,
                                            e: Edit, stored: nat)
    requires AccountInv(sub, log) && Legal(c, read, e) && stored <= |log|
    requires UniqueSequences(log + NumberedRows(e.added, stored))
    requires e.sub != read ==> sub == read
    ensures var after := if e.sub == read then sub else e.sub.(version := read.version + 1);
            AccountInv(after, log + NumberedRows(e.added, stored)) &&
            AccountLater(sub, log, after, log + NumberedRows(e.added, stored))
  {
    hide UniqueSequences, Replay, PricedEntry;
    var entries := Entries(log);
    AcceptedNumbersAreNext(log, e.added, stored);
    EntriesAppend(log, e.added, stored);
    ReplayAppend(Start, entries, e.added);
    if e.sub == read {
      QuietReplay(On(sub.status), e.added);
    }
    PaidGrows(entries, e.added);
    NoMoreStarts(entries, e.added);
  }

  lemma {:induction false} NoMoreStarts(entries: seq<Entry>, added: seq<Entry>)
    requires forall k | 0 < k < |entries| :: entries[k].kind !in {TrialStarted, TrialUnavailable}
    requires forall k | 0 <= k < |added| :: added[k].kind !in {TrialStarted, TrialUnavailable}
    ensures forall k | 0 < k < |entries + added| :: (entries + added)[k].kind !in {TrialStarted, TrialUnavailable}
  {
  }

  lemma {:induction false} QuietReplayTo(r: Chain, entries: seq<Entry>, n: nat)
    requires n <= |entries| && forall k | 0 <= k < |entries| :: entries[k].to.None?
    ensures ReplayTo(r, entries, n) == r
  {
    if n > 0 {
      QuietReplayTo(r, entries, n - 1);
    }
  }

  lemma {:induction false} QuietReplay(r: Chain, entries: seq<Entry>)
    requires forall k | 0 <= k < |entries| :: entries[k].to.None?
    ensures Replay(r, entries) == r
  {
    QuietReplayTo(r, entries, |entries|);
  }

  lemma {:induction false} PaidGrows(entries: seq<Entry>, added: seq<Entry>)
    ensures PaidFor(entries) || PaidFor(added) ==> PaidFor(entries + added)
  {
    if PaidFor(entries) {
      var k :| 0 <= k < |entries| && Paying(entries[k]);
      assert Paying((entries + added)[k]);
    } else if PaidFor(added) {
      var k :| 0 <= k < |added| && Paying(added[k]);
      assert Paying((entries + added)[|entries| + k]);
    }
  }

  lemma {:induction false} OperationIsLegal(c: Catalog, op: Operation, s: Subscription, now: int)
    requires Checks(s)
    ensures var o := Operate(op, s, c, now); o.Saved? ==> Legal(c, s, o.edit)
  {
    hide Legal, Checks, Sync, ChangePlan, CreateCheckout, SetCancel, ApplyEvent, AdminOverride;
    match op
    case SyncOp => SyncIsLegal(c, s, now);
    case ChangePlanOp(plan, interval, capacity, provider) =>
      ChangePlanIsLegal(c, s, plan, interval, now, capacity, provider);
    case CheckoutOp(plan, interval, room, available) =>
      CreateCheckoutIsLegal(c, s, plan, interval, now, room, available);
    case CancelOp(cancel, reachable) => SetCancelIsLegal(c, s, cancel, now, reachable);
    case EventOp(event, name) => ApplyEventIsLegal(c, s, event, name);
    case OverrideOp(action) => AdminOverrideIsLegal(c, s, action, now);
  }

  ghost predicate Past(p: Store, s: Store) {
    Inv(p) && Extends(p, s)
  }

  ghost predicate Follows(s: Store, d: Store) {
    Inv(d) && Extends(s, d)
  }

  lemma {:induction false} PastAccount(p: Store, s: Store, b: string)
    requires Past(p, s) && Inv(s)
    ensures b in p.subs ==> Checks(p.subs[b]) && b in s.subs && AccountLater(p.subs[b], Log(p, b), s.subs[b], Log(s, b))
    ensures MaxSequence(Log(p, b)) <= |Log(s, b)|
    ensures b in s.subs ==> AccountInv(s.subs[b], Log(s, b))
  {
    if b in p.subs {
      assert AccountInv(p.subs[b], Log(p, b));
      MaxIsCount(Log(p, b));
      assert AccountLater(p.subs[b], Log(p, b), s.subs[b], Log(s, b));
    } else {
      assert b !in p.logs.Keys;
    }
  }

  lemma {:induction false} OperateFollows(c: Catalog, s: Store, business: string, op: Operation, now: int, rows: Store,
                                          logs: Store)
    requires Inv(s) && Past(rows, s) && Past(logs, s)
    requires OperateOn(s, c, business, op, now, rows, logs).Some?
    ensures Follows(s, OperateOn(s, c, business, op, now, rows, logs).value)
  {
    hide Past, Inv, Follows, Legal, AccountInv, Operate, Checks, UniqueRefs, UniqueSequences, Extends, MaxSequence;
    PastAccount(rows, s, business);
    PastAccount(logs, s, business);
    OperationIsLegal(c, op, rows.subs[business], now);
    var read := rows.subs[business];
    var e := Operate(op, read, c, now).edit;
    var stored := MaxSequence(Log(logs, business));
    EditKeepsAccount(c, s.subs[business], Log(s, business), read, e, stored);
    OneAccountFollows(s, AfterEdit(s, business, read, e, stored), business);
  }

  /** Changing one account, legally, keeps everything else. */
  lemma {:induction false} OneAccountFollows(s: Store, d: Store, business: string)
    requires Inv(s) && business in d.subs && d.claims == s.claims
    requires business in s.subs
             && (d.subs == s.subs || (d.subs == s.subs[business := d.subs[business]] && UniqueRefs(d.subs)))
    requires business in d.logs && d.logs == s.logs[business := d.logs[business]]
    requires AccountInv(d.subs[business], Log(d, business))
    requires AccountLater(s.subs[business], Log(s, business), d.subs[business], Log(d, business))
    ensures Follows(s, d)
  {
    hide AccountInv, UniqueRefs;
    assert d.logs.Keys == d.subs.Keys;
  }

  lemma {:induction false} SelfFollows(s: Store)
    requires Inv(s)
    ensures Follows(s, s)
  {
  }

  lemma {:induction false} PastStaysPast(p: Store, s: Store, d: Store)
    requires Past(p, s) && Follows(s, d)
    ensures Past(p, d)
  {
    ExtendsCompose(p, s, d);
  }

  lemma {:induction false} FollowsCompose(a: Store, b: Store, d: Store)
    requires Follows(a, b) && Follows(b, d)
    ensures Follows(a, d) && Inv(b)
  {
    ExtendsCompose(a, b, d);
  }

  lemma {:induction false} FollowsHasInv(s: Store, d: Store)
    requires Follows(s, d)
    ensures Inv(d) && d.claims.Keys >= s.claims.Keys
  {
  }

  lemma {:induction false} SweepFollows(s: Store, businesses: seq<string>, now: int, rows: Store, logs: seq<Store>)
    requires Inv(s) && Past(rows, s) && |logs| == |businesses| && forall k | 0 <= k < |logs| :: Past(logs[k], s)
    requires SweepAll(s, businesses, now, rows, logs).Some?
    ensures Follows(s, SweepAll(s, businesses, now, rows, logs).value)
    ensures SweepAll(s, businesses, now, rows, logs).value.claims == s.claims
    decreases |businesses|
  {
    hide Past, Inv, Follows;
    if businesses == [] {
      SelfFollows(s);
    } else {
      var next := OperateOn(s, NO_CATALOG, businesses[0], SyncOp, now, rows, logs[0]).value;
      OperateFollows(NO_CATALOG, s, businesses[0], SyncOp, now, rows, logs[0]);
      PastStaysPast(rows, s, next);
      forall k | 0 <= k < |logs| ensures Past(logs[k], next) {
        PastStaysPast(logs[k], s, next);
      }
      FollowsHasInv(s, next);
      SweepFollows(next, businesses[1..], now, rows, logs[1..]);
      FollowsCompose(s, next, SweepAll(s, businesses, now, rows, logs).value);
    }
  }

  lemma {:induction false} TrialFollows(s: Store, business: string, plan: string, interval: Interval, trial: bool,
                                        now: int, hashes: set<string>)
    requires Inv(s)
    requires CommitTrial(s, business, NewSubscription(plan, interval, trial, now), trial, hashes).Some?
    ensures Follows(s, CommitTrial(s, business, NewSubscription(plan, interval, trial, now), trial, hashes).value)
  {
    hide AccountInv, UniqueRefs, AccountLater, NewSubscription, NumberedRows;
    var sub := NewSubscription(plan, interval, trial, now);
    var d := CommitTrial(s, business, sub, trial, hashes).value;
    FirstAccount(plan, interval, trial, now);
    NewHasNoRef(s.subs, business, plan, interval, trial, now);
    assert Log(d, business) == NumberedRows([FirstEntry(trial)], 0);
    forall b | b in s.subs ensures Log(d, b) == Log(s, b) && AccountLater(s.subs[b], Log(s, b), d.subs[b], Log(d, b)) {
      AccountIsLater(s.subs[b], Log(s, b));
    }
  }

  lemma {:induction false} AccountIsLater(sub: Subscription, log: seq<LogRow>)
    ensures AccountLater(sub, log, sub, log)
  {
  }

  lemma {:induction false} NewHasNoRef(subs: map<string, Subscription>, business: string, plan: string,
                                       interval: Interval, trial: bool, now: int)
    requires UniqueRefs(subs)
    ensures UniqueRefs(subs[business := NewSubscription(plan, interval, trial, now)])
  {
  }

  lemma {:induction false} FirstAccount(plan: string, interval: Interval, trial: bool, now: int)
    ensures AccountInv(NewSubscription(plan, interval, trial, now), NumberedRows([FirstEntry(trial)], 0))
  {
    assert Entries(NumberedRows([FirstEntry(trial)], 0)) == [FirstEntry(trial)];
    OneReplay(Start, FirstEntry(trial));
  }

  /** Trial claims over the world: every identity presented for a started trial is claimed by that business, and only
      businesses whose trial was started have a trial. */
  ghost predicate TrialInv(w: World) {
    && w.history != []
    && (forall b | b in w.starts :: b in Last(w).subs && forall h | h in w.starts[b] ::
        h in Last(w).claims && Last(w).claims[h] == b)
    && (forall b | b in Last(w).subs :: Last(w).subs[b].trialStartedAt.Some? <==> b in w.starts)
  }

  ghost predicate WorldInv(w: World) {
    && w.history != []
    && (forall k | 0 <= k < |w.history| :: Past(w.history[k], Last(w)))
    && TrialInv(w)
  }

  lemma {:induction false} ReadsArePast(w: World, k: nat)
    requires WorldInv(w)
    ensures Past(Seen(w, k), Last(w)) && Inv(Last(w))
  {
    assert Past(w.history[|w.history| - 1], Last(w));
  }

  lemma {:induction false} HistoryGrows(w: World, s: Store)
    requires WorldInv(w) && Follows(Last(w), s)
    ensures forall k | 0 <= k < |w.history + [s]| :: Past((w.history + [s])[k], s)
  {
    hide Inv, Extends;
    forall k | 0 <= k < |w.history + [s]| ensures Past((w.history + [s])[k], s) {
      if k < |w.history| {
        PastStaysPast(w.history[k], Last(w), s);
      } else {
        SelfFollows(s);
      }
    }
  }

  /** A step that adds no subscription leaves the trials as they are. */
  lemma {:induction false} TrialsStay(w: World, s: Store)
    requires TrialInv(w) && Inv(Last(w)) && Follows(Last(w), s) && s.subs.Keys == Last(w).subs.Keys
    ensures TrialInv(World(w.history + [s], w.starts))
  {
    hide Inv;
    forall b | b in s.subs ensures s.subs[b].trialStartedAt.Some? <==> b in w.starts {
      assert b in Last(w).subs.Keys;
    }
  }

  lemma {:induction false} OperateKeys(c: Catalog, s: Store, business: string, op: Operation, now: int, rows: Store,
                                       logs: Store)
    requires OperateOn(s, c, business, op, now, rows, logs).Some?
    ensures OperateOn(s, c, business, op, now, rows, logs).value.subs.Keys == s.subs.Keys
  {
    hide Operate, UniqueRefs, UniqueSequences, Checks;
  }

  lemma {:induction false} SweepKeys(s: Store, businesses: seq<string>, now: int, rows: Store, logs: seq<Store>)
    requires |logs| == |businesses| && SweepAll(s, businesses, now, rows, logs).Some?
    ensures SweepAll(s, businesses, now, rows, logs).value.subs.Keys == s.subs.Keys
    decreases |businesses|
  {
    hide OperateOn;
    if businesses != [] {
      OperateKeys(NO_CATALOG, s, businesses[0], SyncOp, now, rows, logs[0]);
      SweepKeys(OperateOn(s, NO_CATALOG, businesses[0], SyncOp, now, rows, logs[0]).value, businesses[1..], now, rows,
                logs[1..]);
    }
  }

  lemma {:induction false} TrialStarts(w: World, business: string, plan: string, interval: Interval, trial: bool,
                                       now: int, hashes: set<string>)
    requires TrialInv(w)
    requires CommitTrial(Last(w), business, NewSubscription(plan, interval, trial, now), trial, hashes).Some?
    ensures var s := CommitTrial(Last(w), business, NewSubscription(plan, interval, trial, now), trial, hashes).value;
            TrialInv(World(w.history + [s], if trial then w.starts[business := hashes] else w.starts))
  {
  }

  lemma {:induction false} SweepKeeps(w: World, step: Step)
    requires WorldInv(w) && step.Sweep? && |step.logsAt| == |step.businesses|
    ensures WorldInv(Next(w, step))
  {
    hide Past, Inv, Follows, TrialInv, OperateOn, SweepAll, Seen;
    var rows, logs := Seen(w, step.subAt), SeenEach(w, step.logsAt);
    ReadsArePast(w, step.subAt);
    forall k | 0 <= k < |logs| ensures Past(logs[k], Last(w)) {
      ReadsArePast(w, step.logsAt[k]);
    }
    var o := SweepAll(Last(w), step.businesses, step.now, rows, logs);
    if o.Some? {
      SweepFollows(Last(w), step.businesses, step.now, rows, logs);
      SweepKeys(Last(w), step.businesses, step.now, rows, logs);
      HistoryGrows(w, o.value);
      TrialsStay(w, o.value);
    }
  }

  lemma {:induction false} NextKeeps(w: World, step: Step)
    requires WorldInv(w)
    ensures WorldInv(Next(w, step))
  {
    hide Past, Inv, Follows, TrialInv, OperateOn, SweepAll, CommitTrial, Seen, OnSale, Claimed;
    match step
    case StartTrial(c, business, plan, interval, hashes, now, subAt, claimsAt, room) =>
      ReadsArePast(w, 0);
      var trial := !Claimed(Seen(w, claimsAt).claims, hashes, business);
      var o := CommitTrial(Last(w), business, NewSubscription(plan, interval, trial, now), trial, hashes);
      if o.Some? {
        TrialFollows(Last(w), business, plan, interval, trial, now, hashes);
        HistoryGrows(w, o.value);
        TrialStarts(w, business, plan, interval, trial, now, hashes);
      }
    case Operation(c, business, op, now, subAt, logAt) =>
      ReadsArePast(w, subAt);
      ReadsArePast(w, logAt);
      var o := OperateOn(Last(w), c, business, op, now, Seen(w, subAt), Seen(w, logAt));
      if o.Some? {
        OperateFollows(c, Last(w), business, op, now, Seen(w, subAt), Seen(w, logAt));
        OperateKeys(c, Last(w), business, op, now, Seen(w, subAt), Seen(w, logAt));
        HistoryGrows(w, o.value);
        TrialsStay(w, o.value);
      }
    case Sweep(businesses, now, subAt, logsAt) =>
      if |logsAt| == |businesses| {
        SweepKeeps(w, step);
      }
  }

  /** Every committed state of every billing run satisfies the invariant. */
  lemma {:induction false} EveryRunKeepsInvariant(steps: seq<Step>)
    ensures WorldInv(After(steps))
    decreases |steps|
  {
    if steps == [] {
      assert Inv(EMPTY) && Extends(EMPTY, EMPTY);
    } else {
      EveryRunKeepsInvariant(steps[..|steps| - 1]);
      NextKeeps(After(steps[..|steps| - 1]), steps[|steps| - 1]);
    }
  }
}
