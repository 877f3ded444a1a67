/** The in-process sliding-window rate limiter, beside a limiter that remembers every attempt forever. */
module RateLimit {
  // --------------------------------------------------------- the simple limiter

  /** What happened so far: attempts, and keys forgotten to make room. */
  datatype Event = Check(key: string, at: real) | Evict(evicted: string)

  /** How many of the times lie within the window that ends now. */
  function Recent(times: seq<real>, now: real, window: real): nat {
    if times == [] then 0
    else Recent(times[..|times| - 1], now, window) + if now - times[|times| - 1] <= window then 1 else 0
  }

  /** What one event makes of the remembered attempts of one key. */
  function AdmitNext(before: seq<real>, e: Event, key: string, max: nat, window: real): seq<real> {
    match e
    case Check(k, at) => if k == key && Recent(before, at, window) < max then before + [at] else before
    case Evict(k) => if k == key then [] else before
  }

  /** The attempts of one key that were let through since the key was last evicted, by a limiter that keeps them all. */
  function Admitted(events: seq<Event>, key: string, max: nat, window: real): seq<real> {
    if events == [] then []
    else AdmitNext(Admitted(events[..|events| - 1], key, max, window), events[|events| - 1], key, max, window)
  }

  predicate NoneAfter(events: seq<Event>, now: real) {
    forall i | 0 <= i < |events| && events[i].Check? :: events[i].at <= now
  }

  predicate Ordered(events: seq<Event>) {
    forall i, j | 0 <= i < j < |events| && events[i].Check? && events[j].Check? :: events[i].at <= events[j].at
  }

  predicate Ascending(times: seq<real>) {
    forall i, j | 0 <= i < j < |times| :: times[i] <= times[j]
  }

  function CountIn(times: seq<real>, first: real, last: real): nat {
    if times == [] then 0
    else CountIn(times[..|times| - 1], first, last) + if first <= times[|times| - 1] <= last then 1 else 0
  }

  lemma {:induction false} AdmittedAscends(events: seq<Event>, key: string, max: nat, window: real, now: real)
    requires Ordered(events) && NoneAfter(events, now)
    ensures Ascending(Admitted(events, key, max, window))
    ensures forall t | t in Admitted(events, key, max, window) :: t <= now
  {
    if events != [] {
      var before, last := events[..|events| - 1], events[|events| - 1];
      assert forall i | 0 <= i < |before| :: before[i] == events[i];
      AdmittedAscends(before, key, max, window, if last.Check? then last.at else now);
      var earlier := Admitted(before, key, max, window);
      assert forall i | 0 <= i < |earlier| :: earlier[i] in earlier;
    }
  }

  /** No more times lie between `first` and `last` than lie within the window ending at `last`, when that is no
      longer. */
  lemma {:induction false} WindowHoldsRecent(times: seq<real>, first: real, last: real, now: real, window: real)
    requires now - first <= window
    requires forall i | 0 <= i < |times| :: times[i] <= now
    ensures CountIn(times, first, last) <= Recent(times, now, window)
  {
    if times != [] {
      WindowHoldsRecent(times[..|times| - 1], first, last, now, window);
    }
  }

  lemma {:induction false} OneMoreFits(times: seq<real>, at: real, first: real, max: nat, window: real)
    requires forall t | t in times :: t <= at
    requires CountIn(times, first, first + window) <= max && Recent(times, at, window) < max
    ensures CountIn(times + [at], first, first + window) <= max
  {
    assert (times + [at])[..|times|] == times;
    if first <= at <= first + window {
      assert forall i | 0 <= i < |times| :: times[i] in times;
      WindowHoldsRecent(times, first, first + window, at, window);
    }
  }

  /** Of the attempts remembered since the last eviction, no closed window holds more than the maximum. */
  lemma {:induction false} AdmittedBound(events: seq<Event>, key: string, max: nat, window: real, first: real)
    requires Ordered(events)
    ensures CountIn(Admitted(events, key, max, window), first, first + window) <= max
  {
    hide CountIn, Recent;
    if events == [] {
      EmptyCount(first, first + window);
    } else {
      var before, last := events[..|events| - 1], events[|events| - 1];
      assert forall i | 0 <= i < |before| :: before[i] == events[i];
      AdmittedBound(before, key, max, window, first);
      EmptyCount(first, first + window);
      if last.Check? && last.key == key && Recent(Admitted(before, key, max, window), last.at, window) < max {
        AdmittedAscends(before, key, max, window, last.at);
        OneMoreFits(Admitted(before, key, max, window), last.at, first, max, window);
      }
    }
  }

  lemma {:induction false} RecentIsCount(times: seq<real>, now: real, window: real)
    requires forall t | t in times :: t <= now
    ensures Recent(times, now, window) == CountIn(times, now - window, now)
  {
    if times != [] {
      var fewer := times[..|times| - 1];
      assert forall t | t in fewer :: t in times;
      RecentIsCount(fewer, now, window);
      assert times[|times| - 1] in times;
    }
  }

  /** An attempt is turned away exactly when the closed window ending with it already holds the maximum of attempts let
      through since the key was last evicted. */
  lemma {:induction false} TurnedAwayIff(events: seq<Event>, key: string, at: real, max: nat, window: real)
    requires Ordered(events) && NoneAfter(events, at)
    ensures var before := Admitted(events, key, max, window);
            Admitted(events + [Check(key, at)], key, max, window) ==
            if CountIn(before, at - window, at) >= max then before else before + [at]
  {
    AdmittedAscends(events, key, max, window, at);
    RecentIsCount(Admitted(events, key, max, window), at, window);
    assert (events + [Check(key, at)])[..|events|] == events;
  }

  /** Every attempt of the key ever let through from event number `from` on, whatever was evicted. */
  function LetThrough(events: seq<Event>, from: nat, key: string, max: nat, window: real): seq<real> {
    if |events| <= from then []
    else
      var before, last := events[..|events| - 1], events[|events| - 1];
      LetThrough(before, from, key, max, window) +
      if last.Check? && last.key == key
        && Recent(Admitted(before, key, max, window), last.at, window) < max then [last.at] else []
  }

  /** The key is not evicted in this stretch. */
  predicate StaysIn(events: seq<Event>, from: nat, key: string) {
    forall i | from <= i < |events| :: events[i] != Evict(key)
  }

  lemma {:induction false} LetThroughIsAdmitted(events: seq<Event>, from: nat, key: string, max: nat, window: real)
    requires from <= |events| && StaysIn(events, from, key)
    ensures Admitted(events, key, max, window) ==
            Admitted(events[..from], key, max, window) + LetThrough(events, from, key, max, window)
  {
    hide Recent;
    if |events| == from {
      assert events[..from] == events;
    } else {
      var before := events[..|events| - 1];
      assert before[..from] == events[..from];
      assert forall i | from <= i < |before| :: before[i] == events[i];
      LetThroughIsAdmitted(before, from, key, max, window);
    }
  }

  lemma {:induction false} CountsAdd(earlier: seq<real>, later: seq<real>, first: real, last: real)
    ensures CountIn(earlier + later, first, last) == CountIn(earlier, first, last) + CountIn(later, first, last)
  {
    if later == [] {
      assert earlier + later == earlier;
    } else {
      assert (earlier + later)[..|earlier + later| - 1] == earlier + later[..|later| - 1];
      CountsAdd(earlier, later[..|later| - 1], first, last);
    }
  }

  /** With a nondecreasing clock, and over any stretch in which the key is not evicted, no closed window of the
      configured length sees more than the maximum of its attempts let through, counting every attempt of the
      stretch. */
  lemma {:induction false} WindowBound(events: seq<Event>, from: nat, key: string, max: nat, window: real, first: real)
    requires Ordered(events) && from <= |events| && StaysIn(events, from, key)
    ensures CountIn(LetThrough(events, from, key, max, window), first, first + window) <= max
  {
    hide CountIn, Admitted, LetThrough;
    AdmittedBound(events, key, max, window, first);
    LetThroughIsAdmitted(events, from, key, max, window);
    CountsAdd(Admitted(events[..from], key, max, window), LetThrough(events, from, key, max, window), first,
              first + window);
  }

  lemma {:induction false} EmptyCount(first: real, last: real)
    ensures CountIn([], first, last) == 0
  {
  }

  // ------------------------------------------------------ the limiter's own state

  /** One entry of the ordered map of last-seen times, oldest first. */
  datatype Seen = Seen(key: string, at: real)

  function Keys(seen: seq<Seen>): set<string> {
    set i | 0 <= i < |seen| :: seen[i].key
  }

  predicate Distinct(seen: seq<Seen>) {
    forall i, j | 0 <= i < j < |seen| :: seen[i].key != seen[j].key
  }

  predicate InTimeOrder(seen: seq<Seen>) {
    forall i, j | 0 <= i < j < |seen| :: seen[i].at <= seen[j].at
  }

  /** Walking from the oldest key, stopping at the first one seen within the window. */
  function Swept(seen: seq<Seen>, now: real, window: real): seq<Seen> {
    if seen == [] || now - seen[0].at <= window then seen else Swept(seen[1..], now, window)
  }

  function WithinWindow(seen: seq<Seen>, now: real, window: real): seq<Seen> {
    if seen == [] then []
    else (if now - seen[0].at <= window then [seen[0]] else []) + WithinWindow(seen[1..], now, window)
  }

  lemma {:induction false} AllFresh(seen: seq<Seen>, now: real, window: real)
    requires forall i | 0 <= i < |seen| :: now - seen[i].at <= window
    ensures WithinWindow(seen, now, window) == seen
  {
    if seen != [] {
      AllFresh(seen[1..], now, window);
      assert seen == [seen[0]] + seen[1..];
    }
  }

  /** Since the last-seen times are in order, the early exit removes exactly the expired keys. */
  lemma {:induction false} EarlyExitIsExact(seen: seq<Seen>, now: real, window: real)
    requires InTimeOrder(seen)
    ensures Swept(seen, now, window) == WithinWindow(seen, now, window)
  {
    if seen != [] {
      if now - seen[0].at <= window {
        AllFresh(seen, now, window);
      } else {
        EarlyExitIsExact(seen[1..], now, window);
      }
    }
  }

  function Without(seen: seq<Seen>, key: string): seq<Seen> {
    if seen == [] then []
    else (if seen[0].key == key then [] else [seen[0]]) + Without(seen[1..], key)
  }

  /** Dropping expired times from the front. */
  function Fresh(times: seq<real>, now: real, window: real): seq<real> {
    if times == [] || now - times[0] <= window then times else Fresh(times[1..], now, window)
  }

  function Kept(hits: map<string, seq<real>>, key: string): seq<real> {
    if key in hits then hits[key] else []
  }

  /** `kept` is all that matters of `all`: the rest has left every window from now on. */
  predicate Remembers(all: seq<real>, kept: seq<real>, now: real, window: real) {
    && |kept| <= |all|
    && kept == all[|all| - |kept|..]
    && forall i | 0 <= i < |all| - |kept| :: now - all[i] > window
  }

  datatype Limits = Limits(maxRequests: nat, window: real, maxKeys: int)

  /** What the two maps say, given what happened. */
  ghost predicate Faithful(l: Limits, hits: map<string, seq<real>>, events: seq<Event>, clock: real) {
    forall key :: Remembers(Admitted(events, key, l.maxRequests, l.window), Kept(hits, key), clock, l.window)
  }

  ghost predicate LastSeenLast(l: Limits, seen: seq<Seen>, events: seq<Event>) {
    forall i | 0 <= i < |seen| :: forall t | t in Admitted(events, seen[i].key, l.maxRequests, l.window) ::
      t <= seen[i].at
  }

  predicate Shape(l: Limits, hits: map<string, seq<real>>, seen: seq<Seen>, clock: real) {
    && Distinct(seen) && hits.Keys == Keys(seen) && |seen| <= l.maxKeys
    && InTimeOrder(seen) && forall i | 0 <= i < |seen| :: seen[i].at <= clock
  }

  ghost predicate Inv(l: Limits, hits: map<string, seq<real>>, seen: seq<Seen>, events: seq<Event>, clock: real) {
    && Shape(l, hits, seen, clock)
    && Ordered(events) && NoneAfter(events, clock)
    && Faithful(l, hits, events, clock)
    && LastSeenLast(l, seen, events)
  }

  // -------------------------------------------------------------------- lemmas

  lemma {:induction false} FreshIsSuffix(times: seq<real>, now: real, window: real)
    ensures |Fresh(times, now, window)| <= |times|
    ensures Fresh(times, now, window) == times[|times| - |Fresh(times, now, window)|..]
    ensures forall i | 0 <= i < |times| - |Fresh(times, now, window)| :: now - times[i] > window
    ensures var f := Fresh(times, now, window); f != [] ==> now - f[0] <= window
  {
    if times != [] && now - times[0] > window {
      FreshIsSuffix(times[1..], now, window);
      var n := |times| - |Fresh(times, now, window)|;
      forall i | 0 <= i < n ensures now - times[i] > window {
        if i > 0 {
          assert times[i] == times[1..][i - 1];
        }
      }
    }
  }

  /** Forgetting what has expired loses nothing, whatever is asked later. */
  lemma {:induction false} RemembersLater(all: seq<real>, kept: seq<real>, now: real, later: real, window: real)
    requires Remembers(all, kept, now, window) && now <= later
    ensures Remembers(all, Fresh(kept, later, window), later, window)
    ensures Remembers(all, kept, later, window)
  {
    FreshIsSuffix(kept, later, window);
    var f := Fresh(kept, later, window);
    assert f == all[|all| - |f|..];
    forall i | 0 <= i < |all| - |f| ensures later - all[i] > window {
      if i >= |all| - |kept| {
        assert all[i] == kept[i - (|all| - |kept|)];
      }
    }
  }

  lemma {:induction false} RecentIsTail(all: seq<real>, n: nat, now: real, window: real)
    requires n <= |all|
    requires forall i | 0 <= i < n :: now - all[i] > window
    requires forall i | n <= i < |all| :: now - all[i] <= window
    ensures Recent(all, now, window) == |all| - n
  {
    if n < |all| {
      RecentIsTail(all[..|all| - 1], n, now, window);
    } else if n > 0 {
      RecentIsTail(all[..|all| - 1], n - 1, now, window);
    }
  }

  /** The length of what is kept is the number of recent admissions among all of them. */
  lemma {:induction false} FreshCounts(all: seq<real>, kept: seq<real>, now: real, window: real)
    requires Remembers(all, Fresh(kept, now, window), now, window) && Ascending(all)
    ensures |Fresh(kept, now, window)| == Recent(all, now, window)
  {
    var f := Fresh(kept, now, window);
    FreshIsSuffix(kept, now, window);
    forall i | |all| - |f| <= i < |all| ensures now - all[i] <= window {
      assert all[|all| - |f|] == f[0];
    }
    RecentIsTail(all, |all| - |f|, now, window);
  }

  lemma {:induction false} WithoutMembers(seen: seq<Seen>, key: string)
    ensures forall s :: s in Without(seen, key) <==> s in seen && s.key != key
  {
    if seen != [] {
      WithoutMembers(seen[1..], key);
      assert seen == [seen[0]] + seen[1..];
    }
  }

  lemma {:induction false} WithoutDistinct(seen: seq<Seen>, key: string)
    requires Distinct(seen)
    ensures Distinct(Without(seen, key))
  {
    if seen != [] {
      var w := Without(seen[1..], key);
      WithoutDistinct(seen[1..], key);
      WithoutMembers(seen[1..], key);
      forall j | 0 <= j < |w| ensures w[j].key != seen[0].key {
        assert w[j] in seen[1..];
        var i :| 0 <= i < |seen[1..]| && seen[1..][i] == w[j];
        assert seen[i + 1] == w[j];
      }
    }
  }

  lemma {:induction false} WithoutInOrder(seen: seq<Seen>, key: string)
    requires InTimeOrder(seen)
    ensures InTimeOrder(Without(seen, key))
  {
    if seen != [] {
      var w := Without(seen[1..], key);
      WithoutInOrder(seen[1..], key);
      WithoutMembers(seen[1..], key);
      forall j | 0 <= j < |w| ensures seen[0].at <= w[j].at {
        assert w[j] in seen[1..];
        var i :| 0 <= i < |seen[1..]| && seen[1..][i] == w[j];
        assert seen[i + 1] == w[j];
      }
    }
  }

  lemma {:induction false} WithoutLength(seen: seq<Seen>, key: string)
    ensures |Without(seen, key)| <= |seen|
    ensures key in Keys(seen) ==> |Without(seen, key)| < |seen|
  {
    if seen != [] {
      WithoutLength(seen[1..], key);
      KeysHeadTail(seen);
    }
  }

  lemma {:induction false} WithoutKeys(seen: seq<Seen>, key: string)
    ensures Keys(Without(seen, key)) == Keys(seen) - {key}
  {
    var w := Without(seen, key);
    WithoutMembers(seen, key);
    forall k | k in Keys(w) ensures k in Keys(seen) - {key} {
      var i :| 0 <= i < |w| && w[i].key == k;
      assert w[i] in w;
      var j :| 0 <= j < |seen| && seen[j] == w[i];
    }
    forall k | k in Keys(seen) - {key} ensures k in Keys(w) {
      var i :| 0 <= i < |seen| && seen[i].key == k;
      assert seen[i] in w;
      var j :| 0 <= j < |w| && w[j] == seen[i];
    }
  }

  lemma {:induction false} KeysHeadTail(seen: seq<Seen>)
    requires seen != []
    ensures Keys(seen) == {seen[0].key} + Keys(seen[1..])
  {
    forall k | k in Keys(seen) ensures k in {seen[0].key} + Keys(seen[1..]) {
      var i :| 0 <= i < |seen| && seen[i].key == k;
      if i > 0 {
        assert seen[1..][i - 1].key == k;
      }
    }
    forall k | k in Keys(seen[1..]) ensures k in Keys(seen) {
      var i :| 0 <= i < |seen[1..]| && seen[1..][i].key == k;
      assert seen[i + 1].key == k;
    }
  }

  lemma {:induction false} KeysCount(seen: seq<Seen>)
    requires Distinct(seen)
    ensures |Keys(seen)| == |seen|
  {
    if seen != [] {
      KeysCount(seen[1..]);
      KeysHeadTail(seen);
      assert seen[0].key !in Keys(seen[1..]);
    }
  }

  lemma {:induction false} KeysAppend(seen: seq<Seen>, last: Seen)
    ensures Keys(seen + [last]) == Keys(seen) + {last.key}
  {
    forall k | k in Keys(seen + [last]) ensures k in Keys(seen) + {last.key} {
      var i :| 0 <= i < |seen + [last]| && (seen + [last])[i].key == k;
      if i < |seen| {
        assert seen[i].key == k;
      }
    }
    forall k | k in Keys(seen) + {last.key} ensures k in Keys(seen + [last]) {
      if k in Keys(seen) {
        var i :| 0 <= i < |seen| && seen[i].key == k;
        assert (seen + [last])[i].key == k;
      } else {
        assert (seen + [last])[|seen|].key == k;
      }
    }
  }

  lemma {:induction false} InvKeys(l: Limits, hits: map<string, seq<real>>, seen: seq<Seen>, events: seq<Event>,
                                   clock: real)
    requires Inv(l, hits, seen, events, clock)
    ensures hits.Keys == Keys(seen) && |hits| == |seen| <= l.maxKeys
  {
    KeysCount(seen);
    assert |hits| == |hits.Keys|;
  }

  /** Forgetting the oldest key once everything it admitted has expired. */
  lemma {:induction false} ForgetExpired(l: Limits, hits: map<string, seq<real>>, seen: seq<Seen>, events: seq<Event>,
                                         clock: real, now: real)
    requires Inv(l, hits, seen, events, clock) && clock <= now && seen != [] && now - seen[0].at > l.window
    ensures Inv(l, hits - {seen[0].key}, seen[1..], events, now)
  {
    TimePasses(l, hits, seen, events, clock, now);
    var key, fewer := seen[0].key, hits - {seen[0].key};
    KeysHeadTail(seen);
    assert key !in Keys(seen[1..]);
    forall k ensures Remembers(Admitted(events, k, l.maxRequests, l.window), Kept(fewer, k), now, l.window) {
      assert Remembers(Admitted(events, k, l.maxRequests, l.window), Kept(hits, k), now, l.window);
      if k == key {
        var all := Admitted(events, key, l.maxRequests, l.window);
        assert forall i | 0 <= i < |all| :: all[i] in all && all[i] <= seen[0].at;
        assert all[|all|..] == [];
      } else {
        assert Kept(fewer, k) == Kept(hits, k);
      }
    }
  }

  lemma {:induction false} TimePasses(l: Limits, hits: map<string, seq<real>>, seen: seq<Seen>, events: seq<Event>,
                                      clock: real, now: real)
    requires Inv(l, hits, seen, events, clock) && clock <= now
    ensures Inv(l, hits, seen, events, now)
  {
    forall k ensures Remembers(Admitted(events, k, l.maxRequests, l.window), Kept(hits, k), now, l.window) {
      RemembersLater(Admitted(events, k, l.maxRequests, l.window), Kept(hits, k), clock, now, l.window);
    }
  }

  lemma {:induction false} AdmittedNext(events: seq<Event>, e: Event, key: string, max: nat, window: real)
    ensures Admitted(events + [e], key, max, window) ==
            AdmitNext(Admitted(events, key, max, window), e, key, max, window)
  {
    assert (events + [e])[..|events|] == events;
  }

  /** Forgetting the oldest key to make room. */
  lemma {:induction false} EvictOldest(l: Limits, hits: map<string, seq<real>>, seen: seq<Seen>, events: seq<Event>,
                                       now: real)
    requires Inv(l, hits, seen, events, now) && seen != []
    ensures Inv(l, hits - {seen[0].key}, seen[1..], events + [Evict(seen[0].key)], now)
  {
    var key, fewer := seen[0].key, hits - {seen[0].key};
    var after := events + [Evict(key)];
    KeysHeadTail(seen);
    assert key !in Keys(seen[1..]);
    forall k ensures Remembers(Admitted(after, k, l.maxRequests, l.window), Kept(fewer, k), now, l.window) {
      AdmittedNext(events, Evict(key), k, l.maxRequests, l.window);
      assert Remembers(Admitted(events, k, l.maxRequests, l.window), Kept(hits, k), now, l.window);
    }
    forall i | 0 <= i < |seen[1..]|
      ensures forall t | t in Admitted(after, seen[1..][i].key, l.maxRequests, l.window) :: t <= seen[1..][i].at {
      AdmittedNext(events, Evict(key), seen[1..][i].key, l.maxRequests, l.window);
      assert seen[1..][i] == seen[i + 1];
    }
  }

  /** Recording one attempt: the simple limiter's decision, and both maps still say what happened. */
  lemma {:induction false} RecordAttempt(l: Limits, hits: map<string, seq<real>>, seen: seq<Seen>, events: seq<Event>,
                                         key: string, now: real)
    requires Inv(l, hits, seen, events, now)
    requires key in hits || |seen| < l.maxKeys
    ensures var recent := Fresh(Kept(hits, key), now, l.window);
            var admitted := |recent| < l.maxRequests;
            && (admitted <==> Recent(Admitted(events, key, l.maxRequests, l.window), now, l.window) < l.maxRequests)
            && Inv(l, hits[key := if admitted then recent + [now] else recent], Without(seen, key) + [Seen(key, now)],
                   events + [Check(key, now)], now)
  {
    var all := Admitted(events, key, l.maxRequests, l.window);
    var recent := Fresh(Kept(hits, key), now, l.window);
    assert Remembers(all, Kept(hits, key), now, l.window);
    AdmittedAscends(events, key, l.maxRequests, l.window, now);
    RemembersLater(all, Kept(hits, key), now, now, l.window);
    FreshCounts(all, Kept(hits, key), now, l.window);
    RecordShape(l, hits, seen, key, now, if |recent| < l.maxRequests then recent + [now] else recent);
    RecordMemory(l, hits, events, key, now);
    RecordSeen(l, seen, events, key, now);
    OrderedNext(events, key, now);
  }

  lemma {:induction false} OrderedNext(events: seq<Event>, key: string, now: real)
    requires Ordered(events) && NoneAfter(events, now)
    ensures Ordered(events + [Check(key, now)]) && NoneAfter(events + [Check(key, now)], now)
  {
  }

  lemma {:induction false} RecordShape(l: Limits, hits: map<string, seq<real>>, seen: seq<Seen>, key: string, now: real,
                                       times: seq<real>)
    requires Shape(l, hits, seen, now) && (key in hits || |seen| < l.maxKeys)
    ensures Shape(l, hits[key := times], Without(seen, key) + [Seen(key, now)], now)
  {
    var w := Without(seen, key);
    WithoutMembers(seen, key);
    WithoutDistinct(seen, key);
    WithoutInOrder(seen, key);
    WithoutLength(seen, key);
    WithoutKeys(seen, key);
    KeysAppend(w, Seen(key, now));
    forall i | 0 <= i < |w| ensures w[i].key != key && w[i].at <= now {
      assert w[i] in w;
      var j :| 0 <= j < |seen| && seen[j] == w[i];
    }
  }

  lemma {:induction false} RecordMemory(l: Limits, hits: map<string, seq<real>>, events: seq<Event>, key: string,
                                        now: real)
    requires Faithful(l, hits, events, now) && Ordered(events) && NoneAfter(events, now)
    ensures var recent := Fresh(Kept(hits, key), now, l.window);
            Faithful(l, hits[key := if |recent| < l.maxRequests then recent + [now] else recent],
                     events + [Check(key, now)], now)
  {
    hide Remembers, Recent, Admitted, Fresh;
    var recent := Fresh(Kept(hits, key), now, l.window);
    var after := hits[key := if |recent| < l.maxRequests then recent + [now] else recent];
    forall k ensures Remembers(Admitted(events + [Check(key, now)], k, l.maxRequests, l.window), Kept(after, k), now,
                               l.window) {
      assert Remembers(Admitted(events, k, l.maxRequests, l.window), Kept(hits, k), now, l.window);
      AdmittedNext(events, Check(key, now), k, l.maxRequests, l.window);
      if k == key {
        AdmittedAscends(events, key, l.maxRequests, l.window, now);
        RememberOne(l, Admitted(events, key, l.maxRequests, l.window), Kept(hits, key), now);
      }
    }
  }

  lemma {:induction false} RememberOne(l: Limits, all: seq<real>, kept: seq<real>, now: real)
    requires Remembers(all, kept, now, l.window) && Ascending(all)
    ensures var recent := Fresh(kept, now, l.window);
            && |recent| == Recent(all, now, l.window)
            && Remembers(all, recent, now, l.window)
            && Remembers(all + [now], recent + [now], now, l.window)
  {
    RemembersLater(all, kept, now, now, l.window);
    FreshCounts(all, kept, now, l.window);
  }

  lemma {:induction false} RecordSeen(l: Limits, seen: seq<Seen>, events: seq<Event>, key: string, now: real)
    requires LastSeenLast(l, seen, events) && Ordered(events) && NoneAfter(events, now)
    ensures LastSeenLast(l, Without(seen, key) + [Seen(key, now)], events + [Check(key, now)])
  {
    var w := Without(seen, key) + [Seen(key, now)];
    WithoutMembers(seen, key);
    forall i | 0 <= i < |w|
      ensures forall t | t in Admitted(events + [Check(key, now)], w[i].key, l.maxRequests, l.window) :: t <= w[i].at
    {
      AdmittedNext(events, Check(key, now), w[i].key, l.maxRequests, l.window);
      AdmittedAscends(events, w[i].key, l.maxRequests, l.window, now);
      if i < |w| - 1 {
        assert w[i] in Without(seen, key);
        var j :| 0 <= j < |seen| && seen[j] == w[i];
      }
    }
  }

  // ------------------------------------------------------------------ the class

  function OnlyKeys(hits: map<string, seq<real>>, keys: set<string>): map<string, seq<real>> {
    map k | k in hits && k in keys :: hits[k]
  }

  lemma {:induction false} OnlyOwnKeys(hits: map<string, seq<real>>)
    ensures OnlyKeys(hits, hits.Keys) == hits
  {
  }

  lemma {:induction false} OnlyKeysAgree(hits: map<string, seq<real>>, keys: set<string>)
    ensures forall k | k in OnlyKeys(hits, keys) :: k in hits && OnlyKeys(hits, keys)[k] == hits[k]
  {
  }

  lemma {:induction false} OnlyKeysLoseFirst(l: Limits, all: map<string, seq<real>>, hits: map<string, seq<real>>,
                                             seen: seq<Seen>, events: seq<Event>, now: real)
    requires Inv(l, hits, seen, events, now) && seen != []
    ensures OnlyKeys(all, Keys(seen)) - {seen[0].key} == OnlyKeys(all, Keys(seen[1..]))
  {
    KeysHeadTail(seen);
    assert seen[0].key !in Keys(seen[1..]);
  }

  lemma {:induction false} SweptFirst(seen: seq<Seen>, now: real, window: real)
    ensures Swept([], now, window) == []
    ensures seen != [] ==>
              Swept(seen, now, window) == if now - seen[0].at <= window then seen else Swept(seen[1..], now, window)
  {
  }

  class RateLimiter {
    const limits: Limits
    var hits: map<string, seq<real>>
    var lastSeen: seq<Seen>
    var checks: nat
    ghost var events: seq<Event>
    ghost var clock: real

    /** The two maps have the same keys, at most `maxKeys` of them, the last-seen times are in order, and what is kept
        is all that still matters of what a limiter remembering everything would have admitted. */
    ghost predicate Valid()
      reads this
    {
      limits.maxKeys >= 1 && Inv(limits, hits, lastSeen, events, clock)
    }

    constructor (maxRequests: nat, window: real, maxKeys: int, ghost start: real)
      requires maxKeys >= 1
      ensures Valid() && events == [] && checks == 0 && clock == start && limits == Limits(maxRequests, window, maxKeys)
    {
      limits := Limits(maxRequests, window, maxKeys);
      hits, lastSeen, checks := map[], [], 0;
      events, clock := [], start;
    }

    method RemoveExpiredKeys(now: real)
      requires Valid() && clock <= now
      modifies this`hits, this`lastSeen, this`clock
      ensures Valid() && clock == now
      ensures lastSeen == WithinWindow(old(lastSeen), now, limits.window)
      ensures hits == OnlyKeys(old(hits), Keys(lastSeen))
    {
      InvKeys(limits, hits, lastSeen, events, clock);
      EarlyExitIsExact(lastSeen, now, limits.window);
      OnlyOwnKeys(hits);
      hide Inv, WithinWindow, OnlyKeys, Keys, Swept;
      TimePasses(limits, hits, lastSeen, events, clock, now);
      clock := now;
      while lastSeen != []
        invariant Valid() && clock == now
        invariant Swept(lastSeen, now, limits.window) == Swept(old(lastSeen), now, limits.window)
        invariant hits == OnlyKeys(old(hits), Keys(lastSeen))
        decreases |lastSeen|
      {
        var oldest := lastSeen[0];
        SweptFirst(lastSeen, now, limits.window);
        if now - oldest.at <= limits.window {
          break;
        }
        ForgetExpired(limits, hits, lastSeen, events, clock, now);
        OnlyKeysLoseFirst(limits, old(hits), hits, lastSeen, events, now);
        hits := hits - {oldest.key};
        lastSeen := lastSeen[1..];
      }
      SweptFirst(lastSeen, now, limits.window);
    }

    method DropExpired(key: string, now: real) returns (kept: seq<real>)
      ensures kept == Fresh(Kept(hits, key), now, limits.window)
    {
      kept := if key in hits then hits[key] else [];
      while kept != [] && now - kept[0] > limits.window
        invariant Fresh(kept, now, limits.window) == Fresh(Kept(hits, key), now, limits.window)
        decreases |kept|
      {
        kept := kept[1..];
      }
    }

    /** Every 256 checks the expired keys go; then, if a new key would be one too many, the one seen longest ago
        goes. */
    method MakeRoom(key: string, now: real)
      requires Valid() && clock <= now
      modifies this
      ensures Valid() && clock == now && checks == old(checks) + 1
      ensures key in hits || |hits| < limits.maxKeys
      ensures var swept := if checks % 256 == 0 then WithinWindow(old(lastSeen), now, limits.window) else old(lastSeen);
              var full := key !in Keys(swept) && |swept| >= limits.maxKeys;
              && (full ==> swept != [])
              && events == old(events) + (if full then [Evict(swept[0].key)] else [])
              && lastSeen == (if full then swept[1..] else swept)
              && (forall k | k in hits :: k in old(hits) && hits[k] == old(hits)[k])
    {
      hide Inv, WithinWindow, Keys, OnlyKeys;
      TimePasses(limits, hits, lastSeen, events, clock, now);
      clock := now;
      checks := checks + 1;
      if checks % 256 == 0 {
        RemoveExpiredKeys(now);
        OnlyKeysAgree(old(hits), Keys(lastSeen));
      }
      InvKeys(limits, hits, lastSeen, events, clock);
      if key !in hits && |hits| >= limits.maxKeys {
        EvictOldest(limits, hits, lastSeen, events, now);
        events := events + [Evict(lastSeen[0].key)];
        hits := hits - {lastSeen[0].key};
        lastSeen := lastSeen[1..];
        InvKeys(limits, hits, lastSeen, events, clock);
      }
    }

    /** One attempt. It is let through exactly when the limiter that remembers every attempt since the key was last
        evicted would let it through; a key is evicted only to make room for a new one, and then the one seen longest
        ago. */
    method Check(key: string, now: real) returns (admitted: bool)
      requires Valid() && clock <= now
      modifies this
      ensures Valid() && clock == now && checks == old(checks) + 1
      ensures var swept := if checks % 256 == 0 then WithinWindow(old(lastSeen), now, limits.window) else old(lastSeen);
              var full := key !in Keys(swept) && |swept| >= limits.maxKeys;
              var room := if full then swept[1..] else swept;
              && (full ==> swept != [])
              && events == old(events) + (if full then [Evict(swept[0].key)] else []) + [Event.Check(key, now)]
              && lastSeen == Without(room, key) + [Seen(key, now)]
              && (forall k | k in hits && k != key :: k in old(hits) && hits[k] == old(hits)[k])
      ensures admitted <==> Recent(Admitted(events[..|events| - 1], key, limits.maxRequests, limits.window), now,
                                   limits.window) < limits.maxRequests
    {
      hide Inv, WithinWindow, Without, Fresh, Keys, Admitted, Recent, OnlyKeys;
      MakeRoom(key, now);
      InvKeys(limits, hits, lastSeen, events, clock);
      var times := DropExpired(key, now);
      RecordAttempt(limits, hits, lastSeen, events, key, now);
      lastSeen := Without(lastSeen, key) + [Seen(key, now)];
      admitted := |times| < limits.maxRequests;
      hits := hits[key := if admitted then times + [now] else times];
      events := events + [Event.Check(key, now)];
      assert events[..|events| - 1] + [Event.Check(key, now)] == events;
    }
  }
}
