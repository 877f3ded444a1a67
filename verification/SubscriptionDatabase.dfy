/** The billing database: its committed state, the run of all writers that led there, and the flush of a session. */
module SubscriptionDatabase {
  import opened Tables
  import opened Subscriptions
  import opened SubscriptionChanges
  import opened SubscriptionRuns

  function State(run: seq<Step>): Store {
    Last(After(run))
  }

  /** The position of that state in the history, for later steps that have read it. */
  function Now(run: seq<Step>): nat {
    |After(run).history| - 1
  }

  lemma {:induction false} AfterOneMore(run: seq<Step>, step: Step)
    ensures After(run + [step]) == Next(After(run), step)
  {
    hide Next;
    assert (run + [step])[..|run|] == run;
  }

  lemma {:induction false} NextGrows(w: World, step: Step)
    requires w.history != []
    ensures w.history <= Next(w, step).history
  {
    hide OperateOn, SweepAll, CommitTrial, OnSale, Claimed, Seen;
  }

  lemma {:induction false} HistoryExtends(earlier: seq<Step>, later: seq<Step>)
    requires earlier <= later
    ensures After(earlier).history <= After(later).history
    decreases |later|
  {
    if |earlier| < |later| {
      hide Next;
      HistoryExtends(earlier, later[..|later| - 1]);
      NextGrows(After(later[..|later| - 1]), later[|later| - 1]);
    } else {
      assert earlier == later;
    }
  }

  /** What was read when the run was shorter can be named by its position ever after. */
  lemma {:induction false} ReadStays(earlier: seq<Step>, later: seq<Step>)
    requires earlier <= later
    ensures Seen(After(later), Now(earlier)) == State(earlier)
  {
    hide After;
    HistoryExtends(earlier, later);
  }

  /** A longer run leads to a state that satisfies the invariant and rewrites nothing of the earlier one. */
  lemma {:induction false} RunFollows(earlier: seq<Step>, later: seq<Step>)
    requires earlier <= later
    ensures Follows(State(earlier), State(later))
  {
    hide After, Inv, Extends;
    HistoryExtends(earlier, later);
    EveryRunKeepsInvariant(later);
    ReadsArePast(After(later), 0);
    var past := After(later).history[Now(earlier)];
    assert Past(past, State(later)) && past == State(earlier);
  }

  lemma {:induction false} RunIsLegal(run: seq<Step>)
    ensures Inv(State(run))
  {
    hide After, Inv;
    EveryRunKeepsInvariant(run);
    ReadsArePast(After(run), 0);
  }

  // -------------------------------------------------------------------- flush

  /** Another row already has this row's provider reference. */
  predicate RefTaken(subs: map<string, Subscription>, business: string, row: Subscription) {
    exists a | a in subs :: a != business && row.subscriptionRef.Some?
                            && subs[a].provider == row.provider && subs[a].subscriptionRef == row.subscriptionRef
  }

  /** The UPDATE of one row, against its version and the row's own constraints and unique reference. */
  method UpdateRow(subs: map<string, Subscription>, business: string, read: Subscription, row: Subscription)
    returns (ok: bool, after: map<string, Subscription>)
    requires business in subs && UniqueRefs(subs)
    ensures after == subs[business := row.(version := read.version + 1)]
    ensures ok <==> subs[business].version == read.version && Checks(row) && UniqueRefs(after)
  {
    after := subs[business := row.(version := read.version + 1)];
    ok := subs[business].version == read.version && Checks(row) && !RefTaken(subs, business, row);
    RefIndex(subs, business, row.(version := read.version + 1));
  }

  lemma {:induction false} RefIndex(subs: map<string, Subscription>, business: string, row: Subscription)
    requires UniqueRefs(subs)
    ensures UniqueRefs(subs[business := row]) <==> !RefTaken(subs, business, row)
  {
    var after := subs[business := row];
    if RefTaken(subs, business, row) {
      var a :| a in subs && a != business && row.subscriptionRef.Some?
               && subs[a].provider == row.provider && subs[a].subscriptionRef == row.subscriptionRef;
      assert after[a] == subs[a] && after[business] == row;
    }
  }

  /** The INSERTs of the session's events, one after another, each against the unique numbers of the log. */
  method InsertEvents(log: seq<LogRow>, entries: seq<Entry>, stored: nat) returns (ok: bool, after: seq<LogRow>)
    requires UniqueSequences(log)
    ensures ok <==> UniqueSequences(log + NumberedRows(entries, stored))
    ensures ok ==> after == log + NumberedRows(entries, stored)
  {
    var all := log + NumberedRows(entries, stored);
    after := log;
    for k := 0 to |entries|
      invariant after == all[..|log| + k] && UniqueSequences(after)
    {
      var row := LogRow(stored + k + 1, entries[k]);
      assert all[|log| + k] == row;
      if exists j | 0 <= j < |after| :: after[j].sequence == row.sequence {
        return false, after;
      }
      after := after + [row];
    }
    assert all[..|log| + |entries|] == all;
    return true, after;
  }

  /** The INSERTs of the trial claims, one per identity, each against the unique identities. */
  method InsertClaims(claims: map<string, string>, hashes: set<string>, business: string)
    returns (ok: bool, after: map<string, string>)
    ensures ok <==> forall h | h in hashes :: h !in claims
    ensures ok ==> after == claims + map h | h in hashes :: business
  {
    var rest := hashes;
    after := claims;
    while rest != {}
      invariant rest <= hashes
      invariant forall h | h in hashes - rest :: h !in claims
      invariant after == claims + map h | h in hashes - rest :: business
    {
      var h :| h in rest;
      if h in after {
        return false, after;
      }
      after := after[h := business];
      rest := rest - {h};
    }
    assert hashes - {} == hashes;
    return true, after;
  }

  /** The unique indexes as the rows satisfy them before a flush. */
  ghost predicate Indexed(s: Store) {
    UniqueRefs(s.subs) && forall b: string :: UniqueSequences(Log(s, b))
  }

  lemma {:induction false} LegalIsIndexed(s: Store)
    requires Inv(s)
    ensures Indexed(s)
  {
    forall b: string ensures UniqueSequences(Log(s, b)) {
      if b in s.subs {
        assert AccountInv(s.subs[b], Log(s, b));
      } else {
        assert b !in s.logs.Keys;
      }
    }
  }

  /** Flushes a session: the row if it changed, then its events; None is the refusal of any of these statements. */
  method Flush(s: Store, business: string, read: Subscription, work: Edit, stored: nat) returns (flushed: Option<Store>)
    requires Indexed(s)
    ensures flushed == CommitEdit(s, business, read, work, stored)
    ensures flushed.Some? ==> Indexed(flushed.value)
  {
    hide Checks, UniqueRefs, UniqueSequences;
    if business !in s.subs {
      return None;
    }
    var subs, ok := s.subs, true;
    if work.sub != read {
      ok, subs := UpdateRow(s.subs, business, read, work.sub);
    }
    if !ok {
      return None;
    }
    var log;
    ok, log := InsertEvents(Log(s, business), work.added, stored);
    if !ok {
      return None;
    }
    flushed := Some(Store(subs, s.logs[business := log], s.claims));
    forall b: string ensures UniqueSequences(Log(flushed.value, b)) {
      assert b != business ==> Log(flushed.value, b) == Log(s, b);
    }
  }

  class Database {
    var store: Store
    /** Everything that the writers have done so far, in the order of its commits. */
    var run: seq<Step>

    ghost predicate Valid()
      reads this
    {
      store == State(run) && Inv(store)
    }

    constructor ()
      ensures Valid() && run == []
    {
      store, run := EMPTY, [];
      new;
      RunIsLegal([]);
    }

    /** Other writers take steps. */
    method Meanwhile(script: seq<Step>, ghost since: seq<Step>)
      requires Valid() && since <= run
      modifies this
      ensures Valid() && run == old(run) + script && Follows(State(since), store)
    {
      run := run + script;
      store := State(run);
      RunFollows(since, run);
      RunIsLegal(run);
    }

    /** A transaction ends with this state, which is what the step comes to. */
    method Finish(after: Store, step: Step, ghost since: seq<Step>)
      requires Valid() && since <= run && after == Last(Next(After(run), step))
      modifies this
      ensures Valid() && run == old(run) + [step] && store == after && Follows(State(since), store)
    {
      hide Inv, Follows, After, Next;
      AfterOneMore(run, step);
      RunFollows(since, run + [step]);
      RunIsLegal(run + [step]);
      store, run := after, run + [step];
    }

    /** One transaction for one session: the row and its events are stored together, or nothing is. */
    method Commit(read: Subscription, work: Edit, stored: nat, step: Step, ghost since: seq<Step>) returns (ok: bool)
      requires Valid() && since <= run && step.Operation?
      requires OperateOn(store, step.catalog, step.business, step.op, step.now, Seen(After(run), step.subAt),
                         Seen(After(run), step.logAt)) ==
               CommitEdit(store, step.business, read, work, stored)
      modifies this
      ensures Valid() && run == old(run) + [step] && Follows(State(since), store)
      ensures ok == CommitEdit(old(store), step.business, read, work, stored).Some?
      ensures store == if ok then CommitEdit(old(store), step.business, read, work, stored).value else old(store)
    {
      hide Inv, Indexed, Follows, After, OperateOn, CommitEdit;
      LegalIsIndexed(store);
      var flushed := Flush(store, step.business, read, work, stored);
      ok := flushed.Some?;
      Finish(if ok then flushed.value else store, step, since);
    }
  }
}
