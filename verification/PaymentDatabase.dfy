/** The database that the payment service runs on: its committed state, and the run of all writers that led there. */
module PaymentDatabase {
  import opened PaymentStore
  import opened PaymentPlans
  import opened PaymentInvariant
  import opened PaymentSteps
  import opened PaymentRuns

  /** The committed state after a run. */
  function State(run: seq<Step>): Store {
    Last(After(run))
  }

  /** The position of that state in the history, for later steps that have read it. */
  function Now(run: seq<Step>): nat {
    |After(run).history| - 1
  }

  lemma {:induction false} AfterOneMore(run: seq<Step>, step: Step)
    ensures After(run + [step]) == Next(After(run), step)
  {
    hide Next;
    assert (run + [step])[..|run|] == run;
  }

  lemma {:induction false} HistoryExtends(earlier: seq<Step>, later: seq<Step>)
    requires earlier <= later
    ensures After(earlier).history <= After(later).history
    decreases |later|
  {
    if |earlier| < |later| {
      hide StepPlan, CommitAll, AskedAfter, JournalEntry, RecordersAfter;
      HistoryExtends(earlier, later[..|later| - 1]);
      assert After(later[..|later| - 1]).history <= Next(After(later[..|later| - 1]), later[|later| - 1]).history;
    } else {
      assert earlier == later;
    }
  }

  /** What was read when the run was shorter can be named by its position ever after. */
  lemma {:induction false} ReadStays(earlier: seq<Step>, later: seq<Step>)
    requires earlier <= later
    ensures Seen(After(later), Now(earlier)) == State(earlier)
  {
    hide After;
    HistoryExtends(earlier, later);
  }

  /** A longer run leads to a state that satisfies the invariant and rewrites nothing of the earlier one. */
  lemma {:induction false} RunFollows(earlier: seq<Step>, later: seq<Step>)
    requires earlier <= later
    ensures Follows(State(earlier), State(later))
  {
    hide After, Inv, Extends;
    HistoryExtends(earlier, later);
    EveryRunKeepsInvariant(later);
    var past := After(later).history[Now(earlier)];
    assert Past(past, State(later)) && past == State(earlier);
  }

  lemma {:induction false} RunIsLegal(run: seq<Step>)
    ensures Inv(State(run))
  {
    hide After, Inv;
    EveryRunKeepsInvariant(run);
    ReadsArePast(After(run), 0);
  }

  /** A delivery that recorded an event keeps its right to the first attempt while others act. */
  lemma {:induction false} RecorderStays(earlier: seq<Step>, later: seq<Step>, key: EventKey)
    requires earlier <= later && key in After(earlier).recorders
    requires forall k | |earlier| <= k < |later| :: !OwnAttempt(later[k], key)
    ensures key in After(later).recorders
    decreases |later|
  {
    if |earlier| < |later| {
      hide StepPlan, CommitAll, AskedAfter, JournalEntry;
      var before, step := later[..|later| - 1], later[|later| - 1];
      RecorderStays(earlier, before, key);
      assert key in Next(After(before), step).recorders;
    } else {
      assert earlier == later;
    }
  }

  /** An attempt by the delivery that recorded the event. */
  predicate OwnAttempt(step: Step, key: EventKey) {
    (step.AttemptEvent? || step.MarkFailed?) && step.first && step.eventKey == key
  }

  lemma {:induction false} StepCommits(w: World, step: Step, parts: seq<Txn>)
    requires w.history != [] && StepPlan(w, step) == Write(parts)
    ensures Last(Next(w, step)) == Committed(Last(w), parts)
  {
    hide StepPlan, CommitAll, AskedAfter, JournalEntry, RecordersAfter;
  }

  lemma {:induction false} AskingCommitsNothing(w: World, step: Step)
    requires w.history != [] && step.AskProvider?
    ensures Last(Next(w, step)) == Last(w)
  {
    hide AskedAfter;
  }

  class Database {
    var store: Store
    /** Everything that the writers have done so far, in the order of its commits. */
    var run: seq<Step>

    ghost predicate Valid()
      reads this
    {
      store == State(run) && Inv(store)
    }

    constructor ()
      ensures Valid() && run == []
    {
      store, run := EMPTY, [];
      new;
      RunIsLegal([]);
    }

    /** All parts are stored, or none is; either way the run goes on by the step that planned them. */
    method Commit(parts: seq<Txn>, step: Step, ghost since: seq<Step>) returns (ok: bool)
      requires Valid() && StepPlan(After(run), step) == Write(parts) && since <= run
      modifies this
      ensures Valid() && run == old(run) + [step]
      ensures ok == CommitAll(old(store), parts).Some?
      ensures store == Committed(old(store), parts)
      ensures Follows(State(since), store)
    {
      hide Inv, Extends, Follows, After, StepPlan, Next, Accepts, Apply;
      AfterOneMore(run, step);
      StepCommits(After(run), step, parts);
      RunFollows(since, run + [step]);
      RunIsLegal(run + [step]);
      run := run + [step];
      var staged := store;
      for i := 0 to |parts|
        invariant store == old(store) && run == old(run) + [step]
        invariant CommitAll(staged, parts[i..]) == CommitAll(store, parts)
      {
        if !Accepts(staged, parts[i]) {
          return false;
        }
        staged := Apply(staged, parts[i]);
        assert parts[i..][1..] == parts[i + 1..];
      }
      store := staged;
      return true;
    }

    /** Other writers take steps. */
    method Meanwhile(script: seq<Step>, ghost since: seq<Step>)
      requires Valid() && since <= run
      modifies this
      ensures Valid() && run == old(run) + script
      ensures Follows(State(since), store)
    {
      run := run + script;
      store := State(run);
      RunFollows(since, run);
      RunIsLegal(run);
    }

    /** The provider is called for a refund read earlier; nothing is committed. */
    method Ask(business: string, rid: string, refundAt: nat)
      requires Valid()
      modifies this`run
      ensures Valid() && run == old(run) + [AskProvider(business, rid, refundAt)]
    {
      hide Inv, After, Next;
      AfterOneMore(run, AskProvider(business, rid, refundAt));
      AskingCommitsNothing(After(run), AskProvider(business, rid, refundAt));
      run := run + [AskProvider(business, rid, refundAt)];
    }
  }
}
