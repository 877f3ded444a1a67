/** Metered assistant questions: one counter per business and billing month, reserved atomically and released on
  failure. */
module UsageQuota {
  import opened Tables
  import opened Calendar

  /** A counter is identified by its business and the start of its billing month. */
  datatype CounterKey = CounterKey(business: string, start: DateTime)

  /** A question that was let through: the counter it was counted on, when, and from which anchor. */
  datatype Question = Question(key: CounterKey, anchor: DateTime, at: DateTime)

  /** `used` is the table; `granted` and `open` record which questions were let through and not released. */
  datatype Meter = Meter(used: map<CounterKey, nat>, granted: seq<Question>, open: set<nat>)

  const EMPTY: Meter := Meter(map[], [], {})

  datatype Step =
    | EnsureCounter(business: string, anchor: DateTime, at: DateTime)
    | Reserve(forBusiness: string, fromAnchor: DateTime, now: DateTime, quota: nat)
    | Release(question: nat)

  function KeyFor(business: string, anchor: DateTime, now: DateTime): CounterKey
    requires 1 <= anchor.month <= 12
  {
    CounterKey(business, BillingMonth(anchor, now).0)
  }

  /** One atomic database statement each: insert the counter unless it exists, count one up while below the quota, count
      one down while above zero. A release is only asked for an open question. */
  function Next(m: Meter, step: Step): Meter {
    match step
    case EnsureCounter(business, anchor, at) =>
      if !(1 <= anchor.month <= 12) || KeyFor(business, anchor, at) in m.used then m
      else m.(used := m.used[KeyFor(business, anchor, at) := 0])
    case Reserve(business, anchor, now, quota) =>
      if !(1 <= anchor.month <= 12) then m
      else
        var key := KeyFor(business, anchor, now);
        if key in m.used && m.used[key] < quota
        then Meter(m.used[key := m.used[key] + 1], m.granted + [Question(key, anchor, now)], m.open + {|m.granted|})
        else m
    case Release(question) =>
      if question !in m.open || question >= |m.granted| then m
      else
        var key := m.granted[question].key;
        Meter(if key in m.used && m.used[key] > 0 then m.used[key := m.used[key] - 1]
              else m.used, m.granted, m.open - {question})
  }

  function After(steps: seq<Step>): Meter {
    if steps == [] then EMPTY else Next(After(steps[..|steps| - 1]), steps[|steps| - 1])
  }

  /** The open questions counted on one counter. */
  function OpenOn(m: Meter, key: CounterKey): set<nat> {
    set q | q in m.open && q < |m.granted| && m.granted[q].key == key
  }

  /** A question is counted on an existing counter, the one of its own business, anchor and time. */
  predicate CountedRight(used: map<CounterKey, nat>, q: Question) {
    q.key in used && 1 <= q.anchor.month <= 12 && q.key == KeyFor(q.key.business, q.anchor, q.at)
  }

  ghost predicate Inv(m: Meter) {
    && (forall q | q in m.open :: q < |m.granted|)
    && (forall q | 0 <= q < |m.granted| :: CountedRight(m.used, m.granted[q]))
    && (forall key | key in m.used :: m.used[key] == |OpenOn(m, key)|)
  }

  /** What one atomic statement does to the table and the record of questions, for any counter. */
  lemma {:induction false} EnsureKeeps(m: Meter, key: CounterKey)
    requires Inv(m) && key !in m.used
    ensures Inv(m.(used := m.used[key := 0]))
  {
    hide KeyFor;
    var n := m.(used := m.used[key := 0]);
    assert OpenOn(m, key) == {};
    forall k | k in n.used ensures n.used[k] == |OpenOn(n, k)| {
      assert OpenOn(n, k) == OpenOn(m, k);
    }
  }

  lemma {:induction false} OpenGrows(m: Meter, question: Question, k: CounterKey)
    requires forall q | q in m.open :: q < |m.granted|
    ensures OpenOn(m.(granted := m.granted + [question], open := m.open + {|m.granted|}), k) ==
            OpenOn(m, k) + if k == question.key then {|m.granted|} else {}
    ensures |m.granted| !in OpenOn(m, k)
  {
  }

  lemma {:induction false} ReserveKeeps(m: Meter, question: Question, n: Meter)
    requires Inv(m) && CountedRight(m.used, question)
    requires n == Meter(m.used[question.key := m.used[question.key] + 1], m.granted + [question],
                        m.open + {|m.granted|})
    ensures Inv(n)
  {
    hide KeyFor, OpenOn;
    forall k | k in n.used ensures n.used[k] == |OpenOn(n, k)| {
      OpenGrows(m, question, k);
      SameOpen(m.(granted := n.granted, open := n.open), n, k);
    }
  }

  lemma {:induction false} SameOpen(m: Meter, n: Meter, k: CounterKey)
    requires m.granted == n.granted && m.open == n.open
    ensures OpenOn(m, k) == OpenOn(n, k)
  {
  }

  lemma {:induction false} ReleaseKeeps(m: Meter, question: nat)
    requires Inv(m) && question in m.open && question < |m.granted|
    ensures var key := m.granted[question].key;
            && key in m.used && m.used[key] > 0
            && Inv(Meter(m.used[key := m.used[key] - 1], m.granted, m.open - {question}))
  {
    hide KeyFor;
    var key := m.granted[question].key;
    assert question in OpenOn(m, key);
    var n := Meter(m.used[key := m.used[key] - 1], m.granted, m.open - {question});
    forall k | k in n.used ensures n.used[k] == |OpenOn(n, k)| {
      assert OpenOn(n, k) == OpenOn(m, k) - {question};
      assert k != key ==> question !in OpenOn(m, k);
    }
  }

  lemma {:induction false} NextKeeps(m: Meter, step: Step)
    requires Inv(m)
    ensures Inv(Next(m, step))
  {
    hide Inv, KeyFor;
    match step
    case EnsureCounter(business, anchor, at) =>
      if Next(m, step) != m {
        EnsureKeeps(m, KeyFor(business, anchor, at));
      }
    case Reserve(business, anchor, now, quota) =>
      if Next(m, step) != m {
        KeyHasBusiness(business, anchor, now);
        ReserveKeeps(m, Question(KeyFor(business, anchor, now), anchor, now), Next(m, step));
      }
    case Release(question) =>
      if Next(m, step) != m {
        ReleaseKeeps(m, question);
      }
  }

  lemma {:induction false} KeyHasBusiness(business: string, anchor: DateTime, now: DateTime)
    requires 1 <= anchor.month <= 12
    ensures KeyFor(business, anchor, now).business == business
  {
  }

  lemma {:induction false} RunKeeps(steps: seq<Step>)
    ensures Inv(After(steps))
  {
    if steps != [] {
      RunKeeps(steps[..|steps| - 1]);
      NextKeeps(After(steps[..|steps| - 1]), steps[|steps| - 1]);
    }
  }

  predicate QuotaAtMost(steps: seq<Step>, business: string, quota: nat) {
    forall k | 0 <= k < |steps| && steps[k].Reserve? && steps[k].forBusiness == business :: steps[k].quota <= quota
  }

  lemma {:induction false} NeverOverQuota(steps: seq<Step>, key: CounterKey, quota: nat)
    requires QuotaAtMost(steps, key.business, quota) && key in After(steps).used
    ensures After(steps).used[key] <= quota
  {
    if steps != [] {
      var before := steps[..|steps| - 1];
      assert steps[|steps| - 1] == steps[|before|];
      if key in After(before).used {
        NeverOverQuota(before, key, quota);
      }
    }
  }

  /** Quota per billing month, under any interleaving of reservations and releases by any number of requests: a counter
      shows exactly the open questions of its month, and never more than the plan's quota. */
  lemma {:induction false} UsageIsOutstandingWithinQuota(steps: seq<Step>, key: CounterKey, quota: nat)
    requires QuotaAtMost(steps, key.business, quota) && key in After(steps).used
    ensures After(steps).used[key] == |OpenOn(After(steps), key)| <= quota
  {
    RunKeeps(steps);
    NeverOverQuota(steps, key, quota);
  }

  /** No question counts in two windows: for a fixed anchor, an open question is counted on a window's counter exactly
      when the window contains the time the question was asked. */
  lemma {:induction false} QuestionCountsInItsWindow(steps: seq<Step>, q: nat, anchor: DateTime, inside: DateTime)
    requires q in After(steps).open && q < |After(steps).granted| && After(steps).granted[q].anchor == anchor
    requires Valid(anchor) && Valid(After(steps).granted[q].at) && Valid(inside)
    requires AtOrBefore(anchor, After(steps).granted[q].at) && AtOrBefore(anchor, inside)
    ensures var question := After(steps).granted[q];
            var (start, end) := BillingMonth(anchor, inside);
            q in OpenOn(After(steps), CounterKey(question.key.business, start)) <==>
            AtOrBefore(start, question.at) && Before(question.at, end)
  {
    hide Before, AddMonths, DaysInMonth;
    var question := After(steps).granted[q];
    RunKeeps(steps);
    WindowsTileTime(anchor, inside, question.at);
    WindowsTileTime(anchor, question.at, inside);
    WindowNumberIsRight(anchor, inside);
    WindowNumberIsRight(anchor, question.at);
    BillingMonthIsWindow(anchor, inside);
    BillingMonthIsWindow(anchor, question.at);
    SameStartSameWindow(anchor, WindowNumber(anchor, inside), WindowNumber(anchor, question.at));
  }

  lemma {:induction false} SameStartSameWindow(anchor: DateTime, j: int, k: int)
    requires Valid(anchor)
    ensures AddMonths(anchor, j) == AddMonths(anchor, k) ==> j == k
  {
    AddMonthsLands(anchor, j);
    AddMonthsLands(anchor, k);
  }

  /** The counter table as the service updates it; `meter` records beside it which questions were let through. */
  class Counters {
    var used: map<CounterKey, nat>
    ghost var meter: Meter

    ghost predicate Valid()
      reads this
    {
      meter.used == used && Inv(meter)
    }

    constructor ()
      ensures Valid() && meter == EMPTY
    {
      used := map[];
      meter := EMPTY;
    }

    /** Finds or creates the counter of the month, then counts one question on it in a single conditional update. */
    method ReserveQuestion(business: string, anchor: DateTime, now: DateTime, quota: nat)
        returns (counter: Option<CounterKey>)
      requires Valid() && 1 <= anchor.month <= 12
      modifies this
      ensures Valid()
      ensures meter == Next(Next(old(meter), EnsureCounter(business, anchor, now)),
                            Reserve(business, anchor, now, quota))
      ensures var key := KeyFor(business, anchor, now);
              counter.Some? <==> (if key in old(used) then old(used)[key] else 0) < quota
      ensures match counter
              case Some(key) => key == KeyFor(business, anchor, now)
                && meter.granted == old(meter.granted) + [Question(key, anchor, now)]
              case None =>
                && meter.granted == old(meter.granted) && KeyFor(business, anchor, now) in used
                && used[KeyFor(business, anchor, now)] >= quota
    {
      hide Inv, BillingMonth;
      var key := KeyFor(business, anchor, now);
      NextKeeps(meter, EnsureCounter(business, anchor, now));
      if key !in used {
        used := used[key := 0];
      }
      meter := Next(meter, EnsureCounter(business, anchor, now));
      NextKeeps(meter, Reserve(business, anchor, now, quota));
      counter := None;
      if used[key] < quota {
        used := used[key := used[key] + 1];
        counter := Some(key);
      }
      meter := Next(meter, Reserve(business, anchor, now, quota));
    }

    /** Gives one open question back. */
    method ReleaseQuestion(counter: CounterKey, ghost question: nat)
      requires Valid() && question in meter.open && question < |meter.granted| && meter.granted[question].key == counter
      modifies this
      ensures Valid() && meter == Next(old(meter), Release(question))
      ensures counter in used && counter in old(used) && used[counter] + 1 == old(used)[counter]
    {
      hide KeyFor, OpenOn;
      NextKeeps(meter, Release(question));
      ReleaseKeeps(meter, question);
      if counter in used && used[counter] > 0 {
        used := used[counter := used[counter] - 1];
      }
      meter := Next(meter, Release(question));
    }
  }
}
