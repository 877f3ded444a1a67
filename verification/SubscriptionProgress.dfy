/** When a billing commit goes through: exactly what a stale read, a grown log or another business can make it fail. */
module SubscriptionProgress {
  import opened Subscriptions
  import opened SubscriptionChanges
  import opened SubscriptionRuns
  import SubscriptionDatabase

  lemma {:induction false} NumberedIsUnique(log: seq<LogRow>)
    requires Numbered(log)
    ensures UniqueSequences(log)
  {
  }

  /** The look at the log saw all of it. */
  lemma {:induction false} WholeLogIff(p: Store, s: Store, b: string)
    requires Past(p, s) && Inv(s)
    ensures MaxSequence(Log(s, b)) == |Log(s, b)|
    ensures MaxSequence(Log(p, b)) == MaxSequence(Log(s, b)) <==> Log(p, b) == Log(s, b)
  {
    hide UniqueRefs, Checks, Replay, MaxSequence;
    LogIsNumbered(p, b);
    LogIsNumbered(s, b);
    MaxIsCount(Log(p, b));
    MaxIsCount(Log(s, b));
    if b in p.subs {
      assert AccountLater(p.subs[b], Log(p, b), s.subs[b], Log(s, b));
    } else {
      assert b !in p.logs.Keys;
    }
  }

  lemma {:induction false} LogIsNumbered(s: Store, b: string)
    requires Inv(s)
    ensures Numbered(Log(s, b))
  {
    hide UniqueRefs, Checks, Replay;
    if b in s.subs {
      assert AccountInv(s.subs[b], Log(s, b));
    } else {
      assert b !in s.logs.Keys;
    }
  }

  /** Events go in exactly when their numbers come from a look at the whole log, if there are any. */
  lemma {:induction false} NumbersGoInIff(log: seq<LogRow>, entries: seq<Entry>, stored: nat)
    requires Numbered(log) && stored <= |log|
    ensures UniqueSequences(log + NumberedRows(entries, stored)) <==> entries == [] || stored == |log|
  {
    hide UniqueSequences;
    if entries != [] && stored < |log| {
      StaleNumberIsRefused(log, entries, stored);
    } else {
      NumberedIsUnique(log + NumberedRows(entries, stored));
    }
  }

  /** An operation computed from a row and a log that were read at any earlier states. */
  lemma {:induction false} OperateCommitsIff(s: Store, c: Catalog, business: string, op: Operation, now: int,
                                             rows: Store, logs: Store)
    requires Inv(s) && Past(rows, s) && Past(logs, s)
    ensures OperateOn(s, c, business, op, now, rows, logs).Some? <==>
            && business in rows.subs && business in s.subs && Operate(op, rows.subs[business], c, now).Saved?
            && var read, e := rows.subs[business], Operate(op, rows.subs[business], c, now).edit;
               && (e.sub != read ==>
                     s.subs[business] == read && !SubscriptionDatabase.RefTaken(s.subs, business, e.sub))
               && (e.added != [] ==> Log(logs, business) == Log(s, business))
  {
    hide Past, Inv, Legal, AccountInv, Operate, Checks, UniqueRefs, UniqueSequences, Extends, MaxSequence, NumberedRows,
      SubscriptionDatabase.RefTaken;
    if business in rows.subs && Operate(op, rows.subs[business], c, now).Saved? {
      PastAccount(rows, s, business);
      PastAccount(logs, s, business);
      WholeLogIff(logs, s, business);
      LogIsNumbered(s, business);
      var read, e := rows.subs[business], Operate(op, rows.subs[business], c, now).edit;
      OperationIsLegal(c, op, read, now);
      LegalChecks(c, read, e);
      var stored := MaxSequence(Log(logs, business));
      NumbersGoInIff(Log(s, business), e.added, stored);
      RefsOf(s);
      SubscriptionDatabase.RefIndex(s.subs, business, e.sub.(version := read.version + 1));
      SameRef(s.subs, business, e.sub, read.version + 1);
    }
  }

  lemma {:induction false} SameRef(subs: map<string, Subscription>, business: string, row: Subscription, version: nat)
    ensures SubscriptionDatabase.RefTaken(subs, business, row) <==>
            SubscriptionDatabase.RefTaken(subs, business, row.(version := version))
  {
  }

  lemma {:induction false} RefsOf(s: Store)
    requires Inv(s)
    ensures UniqueRefs(s.subs)
  {
    hide UniqueRefs, AccountInv;
  }

  lemma {:induction false} LegalChecks(c: Catalog, read: Subscription, e: Edit)
    requires Legal(c, read, e)
    ensures Checks(e.sub)
  {
    hide Checks, Replay;
  }

  /** Over all runs: an operation is accepted if and only if it has something to say about a row that it found, the row
      is still stored as it was read if the operation changes it, and no other business has the provider's reference;
      and the log has not grown since it was looked at, if the operation adds to it. */
  lemma {:induction false} OperationCommitsIff(steps: seq<Step>, step: Step)
    requires step.Operation?
    ensures var w := After(steps);
            var rows, logs, s, b := Seen(w, step.subAt), Seen(w, step.logAt), Last(w), step.business;
            Next(w, step) != w <==>
            && b in rows.subs && b in s.subs && Operate(step.op, rows.subs[b], step.catalog, step.now).Saved?
            && var read, e := rows.subs[b], Operate(step.op, rows.subs[b], step.catalog, step.now).edit;
               && (e.sub != read ==> s.subs[b] == read && !SubscriptionDatabase.RefTaken(s.subs, b, e.sub))
               && (e.added != [] ==> Log(logs, b) == Log(s, b))
  {
    hide After, Past, Inv, Operate, OperateOn, Seen, WorldInv, SubscriptionDatabase.RefTaken;
    var w := After(steps);
    EveryRunKeepsInvariant(steps);
    ReadsArePast(w, step.subAt);
    ReadsArePast(w, step.logAt);
    OperateCommitsIff(Last(w), step.catalog, step.business, step.op, step.now, Seen(w, step.subAt),
                      Seen(w, step.logAt));
  }

  /** Over all runs: onboarding is accepted if and only if the plan is on sale and fits, no subscription of the business
      was found or has been stored since, and no identity that the trial would claim is claimed, by any business. */
  lemma {:induction false} StartTrialCommitsIff(w: World, step: Step)
    requires w.history != [] && step.StartTrial?
    ensures Next(w, step) != w <==>
            && OnSale(step.catalog, step.plan, step.interval) && step.room
            && step.business !in Seen(w, step.subAt).subs && step.business !in Last(w).subs
            && (Claimed(Seen(w, step.claimsAt).claims, step.hashes, step.business)
                || forall h | h in step.hashes :: h !in Last(w).claims)
  {
    hide Seen, NewSubscription, Claimed;
  }

  // ---------------------------------------------------------------------- sweeps

  /** Time has overtaken the stored status. */
  predicate Overtaken(s: Subscription, now: int) {
    EffectiveStatus(s, now) != s.status
  }

  /** What one row of a sweep needs. */
  ghost predicate SweepGoesIn(s: Store, b: string, now: int, rows: Store, logs: Store) {
    && b in rows.subs && b in s.subs
    && (Overtaken(rows.subs[b], now) ==> s.subs[b] == rows.subs[b] && Log(logs, b) == Log(s, b))
  }

  lemma {:induction false} SyncCommitsIff(s: Store, b: string, now: int, rows: Store, logs: Store)
    requires Inv(s) && Past(rows, s) && Past(logs, s)
    ensures OperateOn(s, NO_CATALOG, b, SyncOp, now, rows, logs).Some? <==> SweepGoesIn(s, b, now, rows, logs)
  {
    hide Past, Inv, OperateOn, EffectiveStatus, SubscriptionDatabase.RefTaken;
    OperateCommitsIff(s, NO_CATALOG, b, SyncOp, now, rows, logs);
    if b in rows.subs && b in s.subs && s.subs[b] == rows.subs[b] {
      SyncKeepsRef(s, b, now);
    }
  }

  lemma {:induction false} SyncKeepsRef(s: Store, b: string, now: int)
    requires Inv(s) && b in s.subs
    ensures !SubscriptionDatabase.RefTaken(s.subs, b, Sync(s.subs[b], now).sub)
  {
    hide AccountInv, EffectiveStatus;
    assert UniqueRefs(s.subs);
  }

  lemma {:induction false} OthersStay(s: Store, b: string, now: int, rows: Store, logs: Store, other: string)
    requires OperateOn(s, NO_CATALOG, b, SyncOp, now, rows, logs).Some? && other != b
    ensures var d := OperateOn(s, NO_CATALOG, b, SyncOp, now, rows, logs).value;
            && (other in d.subs <==> other in s.subs) && (other in s.subs ==> d.subs[other] == s.subs[other])
            && Log(d, other) == Log(s, other)
  {
    hide Operate, MaxSequence, AcceptsEdit;
  }

  /** The sweep's one commit stores all of its rows if and only if none of those that time has overtaken, or their logs,
      has changed since it was read. */
  lemma {:induction false} SweepCommitsIff(s: Store, businesses: seq<string>, now: int, rows: Store, logs: seq<Store>)
    requires Inv(s) && Past(rows, s) && |logs| == |businesses| && forall k | 0 <= k < |logs| :: Past(logs[k], s)
    requires forall j, k | 0 <= j < k < |businesses| :: businesses[j] != businesses[k]
    ensures SweepAll(s, businesses, now, rows, logs).Some? <==>
            forall k | 0 <= k < |businesses| :: SweepGoesIn(s, businesses[k], now, rows, logs[k])
    decreases |businesses|
  {
    hide Past, Inv, Follows, OperateOn, Overtaken;
    if businesses != [] {
      SyncCommitsIff(s, businesses[0], now, rows, logs[0]);
      var first := OperateOn(s, NO_CATALOG, businesses[0], SyncOp, now, rows, logs[0]);
      if first.Some? {
        var d := first.value;
        OperateFollows(NO_CATALOG, s, businesses[0], SyncOp, now, rows, logs[0]);
        PastStaysPast(rows, s, d);
        forall k | 0 <= k < |logs| ensures Past(logs[k], d) {
          PastStaysPast(logs[k], s, d);
        }
        FollowsHasInv(s, d);
        SweepCommitsIff(d, businesses[1..], now, rows, logs[1..]);
        forall k | 1 <= k < |businesses|
          ensures SweepGoesIn(d, businesses[1..][k - 1], now, rows, logs[1..][k - 1]) <==>
                  SweepGoesIn(s, businesses[k], now, rows, logs[k])
        {
          assert businesses[0] != businesses[k];
          OthersStay(s, businesses[0], now, rows, logs[0], businesses[k]);
        }
        SplitFirst(d, s, businesses, now, rows, logs);
      }
    }
  }

  lemma {:induction false} SplitFirst(d: Store, s: Store, businesses: seq<string>, now: int, rows: Store,
                                      logs: seq<Store>)
    requires |logs| == |businesses| > 0 && SweepGoesIn(s, businesses[0], now, rows, logs[0])
    requires forall k | 1 <= k < |businesses| ::
               SweepGoesIn(d, businesses[1..][k - 1], now, rows, logs[1..][k - 1]) <==>
               SweepGoesIn(s, businesses[k], now, rows, logs[k])
    ensures (forall k | 0 <= k < |businesses[1..]| :: SweepGoesIn(d, businesses[1..][k], now, rows, logs[1..][k])) <==>
            (forall k | 0 <= k < |businesses| :: SweepGoesIn(s, businesses[k], now, rows, logs[k]))
  {
    hide SweepGoesIn;
    forall k | 0 <= k < |businesses[1..]|
      ensures SweepGoesIn(d, businesses[1..][k], now, rows, logs[1..][k]) <==>
              SweepGoesIn(s, businesses[k + 1], now, rows, logs[k + 1])
    {
      assert businesses[1..][k + 1 - 1] == businesses[1..][k];
    }
    if forall k | 0 <= k < |businesses[1..]| :: SweepGoesIn(d, businesses[1..][k], now, rows, logs[1..][k]) {
      forall k | 1 <= k < |businesses| ensures SweepGoesIn(s, businesses[k], now, rows, logs[k]) {
        assert SweepGoesIn(d, businesses[1..][k - 1], now, rows, logs[1..][k - 1]);
      }
    }
  }

  /** The same over all runs, for any reads of the sweep. */
  lemma {:induction false} SweepStepCommitsIff(steps: seq<Step>, step: Step)
    requires step.Sweep? && |step.logsAt| == |step.businesses|
    requires forall j, k | 0 <= j < k < |step.businesses| :: step.businesses[j] != step.businesses[k]
    ensures var w := After(steps);
            Next(w, step) != w <==>
            forall k | 0 <= k < |step.businesses| ::
              SweepGoesIn(Last(w), step.businesses[k], step.now, Seen(w, step.subAt), Seen(w, step.logsAt[k]))
  {
    hide After, Past, Inv, SweepAll, Seen, WorldInv, SweepGoesIn;
    var w := After(steps);
    EveryRunKeepsInvariant(steps);
    ReadsArePast(w, step.subAt);
    var logs := SeenEach(w, step.logsAt);
    forall k | 0 <= k < |logs| ensures Past(logs[k], Last(w)) {
      ReadsArePast(w, step.logsAt[k]);
    }
    SweepCommitsIff(Last(w), step.businesses, step.now, Seen(w, step.subAt), logs);
  }
}
