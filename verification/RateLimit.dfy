/** The sliding-window limiter: popping and purging keep the table small and never change an answer. */
module RateLimit {
  import opened Versions

  const LONGEST_WINDOW := 3600
  const TABLE_SIZE := 10000

  type Hits = map<string, seq<int>>

  function At(hits: Hits, key: string): seq<int> {
    if key in hits then hits[key] else []
  }

  /** Without the leading times up to the cut. */
  function Popped(times: seq<int>, cut: int): seq<int> {
    if times != [] && times[0] <= cut then Popped(times[1..], cut) else times
  }

  predicate Stale(times: seq<int>, now: int) {
    times == [] || Last(times) <= now - LONGEST_WINDOW
  }

  function Purged(hits: Hits, now: int): Hits {
    map key | key in hits && !Stale(hits[key], now) :: hits[key]
  }

  datatype Answer = Answer(hits: Hits, admitted: bool)

  function Checked(hits: Hits, key: string, count: nat, window: nat, now: int): Answer {
    var seen := Popped(At(hits, key), now - window);
    if |seen| >= count then Answer(hits[key := seen], false)
    else
      var more := hits[key := seen + [now]];
      Answer(if |more| > TABLE_SIZE then Purged(more, now) else more, true)
  }

  class Limiter {
    var hits: Hits

    constructor ()
      ensures hits == map[]
    {
      hits := map[];
    }

    /** On a refusal, `retry` is how many seconds the caller is told to wait. */
    method Check(key: string, count: nat, window: nat, now: int) returns (admitted: bool, retry: int)
      requires count > 0
      modifies this
      ensures Answer(hits, admitted) == Checked(old(hits), key, count, window, now)
      ensures !admitted ==> retry == Popped(At(old(hits), key), now - window)[0] + window - now + 1
      ensures |old(hits)| < 10000 ==> forall other | other in old(hits) :: other in hits
      ensures admitted && |hits| > 10000 ==>
                forall other | other in hits :: hits[other] != [] && Last(hits[other]) > now - 3600
    {
      var seen := At(hits, key);
      while seen != [] && seen[0] <= now - window
        invariant Popped(seen, now - window) == Popped(At(hits, key), now - window)
        decreases |seen|
      {
        seen := seen[1..];
      }
      if |seen| >= count {
        hits := hits[key := seen];
        return false, seen[0] + window - now + 1;
      }
      hits := hits[key := seen + [now]];
      if |hits| > TABLE_SIZE {
        Purge(now);
      }
      admitted, retry := true, 0;
    }

    method Purge(now: int)
      modifies this
      ensures hits == Purged(old(hits), now)
      ensures hits == map key | key in old(hits) && old(hits)[key] != [] && Last(old(hits)[key]) > now - 3600 ::
                old(hits)[key]
    {
      var stale := set key | key in hits && Stale(hits[key], now);
      ghost var all := stale;
      while stale != {}
        invariant stale <= all
        invariant hits == map key | key in old(hits) && key !in all - stale :: old(hits)[key]
        decreases stale
      {
        var key :| key in stale;
        hits := hits - {key};
        stale := stale - {key};
      }
    }

    method Forget(key: string)
      modifies this
      ensures hits == old(hits) - {key}
    {
      hits := hits - {key};
    }
  }

  // ---- the plain log ------------------------------------------------------------------------

  /** How many of the times lie after the cut. */
  function Recent(times: seq<int>, cut: int): nat {
    if times == [] then 0 else Recent(Front(times), cut) + if Last(times) > cut then 1 else 0
  }

  /** Every admitted call is kept for good, and a call is admitted while fewer than `count` lie within the window. */
  function Logged(log: Hits, key: string, count: nat, window: nat, now: int): Answer {
    if Recent(At(log, key), now - window) < count then Answer(log[key := At(log, key) + [now]], true)
      else Answer(log, false)
  }

  datatype Limit = Limit(count: nat, window: nat)

  datatype LimiterCall = Check(key: string, now: int) | Forget(key: string)

  function Limited(hits: Hits, call: LimiterCall, limits: string -> Limit): Answer {
    match call
    case Check(key, now) => Checked(hits, key, limits(key).count, limits(key).window, now)
    case Forget(key) => Answer(hits - {key}, true)
  }

  function Plain(log: Hits, call: LimiterCall, limits: string -> Limit): Answer {
    match call
    case Check(key, now) => Logged(log, key, limits(key).count, limits(key).window, now)
    case Forget(key) => Answer(log - {key}, true)
  }

  function LimitedAll(calls: seq<LimiterCall>, limits: string -> Limit): Answer {
    if calls == [] then Answer(map[], true) else Limited(LimitedAll(Front(calls), limits).hits, Last(calls), limits)
  }

  function PlainAll(calls: seq<LimiterCall>, limits: string -> Limit): Answer {
    if calls == [] then Answer(map[], true) else Plain(PlainAll(Front(calls), limits).hits, Last(calls), limits)
  }

  // ---- the limiter keeps the end of the log --------------------------------------------------

  /** What is kept is the end of the log, and what is not kept is up to the cut. */
  predicate Tail(kept: seq<int>, log: seq<int>, cut: int) {
    |kept| <= |log| && kept == log[|log| - |kept|..] && forall i | 0 <= i < |log| - |kept| :: log[i] <= cut
  }

  predicate InTime(log: seq<int>, clock: int) {
    (forall i, j | 0 <= i < j < |log| :: log[i] <= log[j]) && forall i | 0 <= i < |log| :: log[i] <= clock
  }

  predicate KeyAgrees(kept: seq<int>, log: seq<int>, limit: Limit, clock: int) {
    Tail(kept, log, clock - limit.window) && InTime(log, clock) && |kept| <= limit.count
  }

  ghost predicate Agree(hits: Hits, log: Hits, limits: string -> Limit, clock: int) {
    forall key :: KeyAgrees(At(hits, key), At(log, key), limits(key), clock)
  }

  lemma {:induction false} RecentOfOld(times: seq<int>, cut: int)
    requires forall i | 0 <= i < |times| :: times[i] <= cut
    ensures Recent(times, cut) == 0
  {
    if times != [] {
      RecentOfOld(Front(times), cut);
    }
  }

  lemma {:induction false} RecentJoins(a: seq<int>, b: seq<int>, cut: int)
    ensures Recent(a + b, cut) == Recent(a, cut) + Recent(b, cut)
  {
    if b == [] {
      assert a + b == a;
    } else {
      assert Front(a + b) == a + Front(b) && Last(a + b) == Last(b);
      RecentJoins(a, Front(b), cut);
    }
  }

  lemma {:induction false} RecentOfNew(times: seq<int>, cut: int)
    requires forall i | 0 <= i < |times| :: times[i] > cut
    ensures Recent(times, cut) == |times|
  {
    if times != [] {
      RecentOfNew(Front(times), cut);
    }
  }

  /** Popping a sorted list leaves exactly the times after the cut, which are its end. */
  lemma {:induction false} PoppedIs(times: seq<int>, cut: int)
    requires forall i, j | 0 <= i < j < |times| :: times[i] <= times[j]
    ensures Tail(Popped(times, cut), times, cut) &&
            forall i | 0 <= i < |Popped(times, cut)| :: Popped(times, cut)[i] > cut
  {
    if times != [] && times[0] <= cut {
      PoppedIs(times[1..], cut);
      var kept := Popped(times[1..], cut);
      assert times[|times| - |kept|..] == times[1..][|times[1..]| - |kept|..];
      forall i | 0 <= i < |times| - |kept| ensures times[i] <= cut {
        assert i > 0 ==> times[1..][i - 1] == times[i];
      }
    }
  }

  lemma TailOfTail(a: seq<int>, b: seq<int>, c: seq<int>, cut: int, cut': int)
    requires Tail(a, b, cut') && Tail(b, c, cut) && cut <= cut'
    ensures Tail(a, c, cut')
  {
    var n := |c| - |b|;
    forall i | 0 <= i < |c| - |a| ensures c[i] <= cut' {
      assert i >= n ==> c[i] == b[i - n];
    }
  }

  lemma TailRecent(kept: seq<int>, log: seq<int>, cut: int)
    requires Tail(kept, log, cut) && forall i | 0 <= i < |kept| :: kept[i] > cut
    ensures Recent(log, cut) == |kept|
  {
    var n := |log| - |kept|;
    assert log == log[..n] + kept;
    RecentJoins(log[..n], kept, cut);
    RecentOfOld(log[..n], cut);
    RecentOfNew(kept, cut);
  }

  /** The limiter sees as many recent calls as the log holds. */
  lemma PoppedCounts(kept: seq<int>, log: seq<int>, limit: Limit, clock: int, now: int)
    requires KeyAgrees(kept, log, limit, clock) && clock <= now
    ensures var seen := Popped(kept, now - limit.window);
            Tail(seen, log, now - limit.window) && |seen| == Recent(log, now - limit.window) && |seen| <= limit.count
  {
    var cut := now - limit.window;
    forall i, j | 0 <= i < j < |kept| ensures kept[i] <= kept[j] {
      assert kept[i] == log[|log| - |kept| + i] && kept[j] == log[|log| - |kept| + j];
    }
    PoppedIs(kept, cut);
    TailOfTail(Popped(kept, cut), kept, log, clock - limit.window, cut);
    TailRecent(Popped(kept, cut), log, cut);
  }

  lemma AdmitAgrees(seen: seq<int>, log: seq<int>, limit: Limit, now: int)
    requires Tail(seen, log, now - limit.window) && InTime(log, now) && |seen| < limit.count
    ensures KeyAgrees(seen + [now], log + [now], limit, now)
  {
  }

  /** A purged key had nothing left within any window. */
  lemma PurgeAgrees(kept: seq<int>, log: seq<int>, limit: Limit, now: int)
    requires KeyAgrees(kept, log, limit, now) && Stale(kept, now) && limit.window <= LONGEST_WINDOW
    ensures KeyAgrees([], log, limit, now)
  {
    if kept != [] {
      assert Last(kept) == log[|log| - 1];
    }
  }

  lemma TimePasses(kept: seq<int>, log: seq<int>, limit: Limit, clock: int, now: int)
    requires KeyAgrees(kept, log, limit, clock) && clock <= now
    ensures KeyAgrees(kept, log, limit, now)
  {
  }

  /** What a check keeps under its key, and what the log holds. */
  function KeptAfter(kept: seq<int>, limit: Limit, now: int): seq<int> {
    var seen := Popped(kept, now - limit.window);
    if |seen| < limit.count then seen + [now] else seen
  }

  function LogLeft(log: seq<int>, limit: Limit, now: int): seq<int> {
    if Recent(log, now - limit.window) < limit.count then log + [now] else log
  }

  lemma LeftAgrees(kept: seq<int>, log: seq<int>, limit: Limit, clock: int, now: int)
    requires KeyAgrees(kept, log, limit, clock) && clock <= now
    ensures KeyAgrees(KeptAfter(kept, limit, now), LogLeft(log, limit, now), limit, now)
    ensures |Popped(kept, now - limit.window)| == Recent(log, now - limit.window)
  {
    var seen := Popped(kept, now - limit.window);
    PoppedCounts(kept, log, limit, clock, now);
    TimePasses(kept, log, limit, clock, now);
    assert KeyAgrees(seen, log, limit, now);
    if |seen| < limit.count {
      AdmitAgrees(seen, log, limit, now);
    }
  }

  lemma AtAfterCheck(hits: Hits, key: string, limit: Limit, now: int, k: string)
    ensures var left := if k == key then KeptAfter(At(hits, key), limit, now) else At(hits, k);
            var after := At(Checked(hits, key, limit.count, limit.window, now).hits, k);
            after == left || (after == [] && Stale(left, now))
  {
    var seen := Popped(At(hits, key), now - limit.window);
    if |seen| < limit.count {
      AtPurged(hits[key := seen + [now]], now, k);
    }
  }

  lemma AtPurged(hits: Hits, now: int, k: string)
    ensures At(Purged(hits, now), k) == At(hits, k) || (At(Purged(hits, now), k) == [] && Stale(At(hits, k), now))
  {
  }

  lemma AtAfterLog(log: Hits, key: string, limit: Limit, now: int, k: string)
    ensures At(Logged(log, key, limit.count, limit.window, now).hits, k) == if k ==
            key then LogLeft(At(log, key), limit, now) else At(log, k)
  {
  }

  lemma StaleOrNot(after: seq<int>, left: seq<int>, log: seq<int>, limit: Limit, now: int)
    requires KeyAgrees(left, log, limit, now) && limit.window <= LONGEST_WINDOW
    requires after == left || (after == [] && Stale(left, now))
    ensures KeyAgrees(after, log, limit, now)
  {
    if after != left {
      PurgeAgrees(left, log, limit, now);
    }
  }

  lemma KeyAfterCheck(hits: Hits, log: Hits, limits: string -> Limit, clock: int, key: string, now: int, k: string)
    requires Agree(hits, log, limits, clock) && clock <= now && limits(k).window <= LONGEST_WINDOW
    ensures var a, b := Limited(hits, Check(key, now), limits), Plain(log, Check(key, now), limits);
            KeyAgrees(At(a.hits, k), At(b.hits, k), limits(k), now)
  {
    var limit := limits(key);
    var left := if k == key then KeptAfter(At(hits, key), limit, now) else At(hits, k);
    var logLeft := if k == key then LogLeft(At(log, key), limit, now) else At(log, k);
    assert KeyAgrees(At(hits, k), At(log, k), limits(k), clock);
    if k == key {
      LeftAgrees(At(hits, key), At(log, key), limit, clock, now);
    } else {
      TimePasses(At(hits, k), At(log, k), limits(k), clock, now);
    }
    assert KeyAgrees(left, logLeft, limits(k), now);
    AtAfterCheck(hits, key, limit, now, k);
    AtAfterLog(log, key, limit, now, k);
    StaleOrNot(At(Limited(hits, Check(key, now), limits).hits, k), left, logLeft, limits(k), now);
  }

  lemma SameAnswer(hits: Hits, log: Hits, limits: string -> Limit, clock: int, key: string, now: int)
    requires Agree(hits, log, limits, clock) && clock <= now
    ensures Limited(hits, Check(key, now), limits).admitted == Plain(log, Check(key, now), limits).admitted
  {
    assert KeyAgrees(At(hits, key), At(log, key), limits(key), clock);
    LeftAgrees(At(hits, key), At(log, key), limits(key), clock, now);
  }

  /** One check: the same answer, and the limiter still keeps the end of the log. */
  lemma CheckAgrees(hits: Hits, log: Hits, limits: string -> Limit, clock: int, key: string, now: int)
    requires Agree(hits, log, limits, clock) && clock <= now && forall k :: limits(k).window <= LONGEST_WINDOW
    ensures Limited(hits, Check(key, now), limits).admitted == Plain(log, Check(key, now), limits).admitted
    ensures Agree(Limited(hits, Check(key, now), limits).hits, Plain(log, Check(key, now), limits).hits, limits, now)
  {
    SameAnswer(hits, log, limits, clock, key, now);
    forall k
      ensures KeyAgrees(At(Limited(hits, Check(key, now), limits).hits, k),
                        At(Plain(log, Check(key, now), limits).hits, k), limits(k), now)
    {
      KeyAfterCheck(hits, log, limits, clock, key, now, k);
    }
  }

  /** The clock does not run backwards. */
  predicate InClockOrder(calls: seq<LimiterCall>) {
    forall i, j | 0 <= i < j < |calls| && calls[i].Check? && calls[j].Check? :: calls[i].now <= calls[j].now
  }

  predicate UpTo(calls: seq<LimiterCall>, clock: int) {
    forall i | 0 <= i < |calls| && calls[i].Check? :: calls[i].now <= clock
  }

  lemma {:induction false} RunsAgree(calls: seq<LimiterCall>, limits: string -> Limit, clock: int)
    requires InClockOrder(calls) && UpTo(calls, clock) && forall k :: limits(k).window <= LONGEST_WINDOW
    ensures Agree(LimitedAll(calls, limits).hits, PlainAll(calls, limits).hits, limits, clock)
  {
    if calls != [] {
      var before, call := Front(calls), calls[|calls| - 1];
      var a, b := LimitedAll(before, limits).hits, PlainAll(before, limits).hits;
      match call
      case Check(key, now) =>
        RunsAgree(before, limits, now);
        CheckAgrees(a, b, limits, now, key, now);
        ClockAgrees(LimitedAll(calls, limits).hits, PlainAll(calls, limits).hits, limits, now, clock);
      case Forget(key) =>
        RunsAgree(before, limits, clock);
        forall k ensures KeyAgrees(At(a - {key}, k), At(b - {key}, k), limits(k), clock) {
          assert KeyAgrees(At(a, k), At(b, k), limits(k), clock);
        }
    }
  }

  lemma ClockAgrees(hits: Hits, log: Hits, limits: string -> Limit, clock: int, now: int)
    requires Agree(hits, log, limits, clock) && clock <= now
    ensures Agree(hits, log, limits, now)
  {
    forall k ensures KeyAgrees(At(hits, k), At(log, k), limits(k), now) {
      assert KeyAgrees(At(hits, k), At(log, k), limits(k), clock);
      TimePasses(At(hits, k), At(log, k), limits(k), clock, now);
    }
  }

  /** After any calls, the limiter answers the next exactly as the unbounded log does: a call is admitted if and only
      if fewer than `count` calls for its key were admitted within its window since it was last forgotten. */
  lemma AnswersLikeTheLog(calls: seq<LimiterCall>, limits: string -> Limit, key: string, now: int)
    requires InClockOrder(calls) && UpTo(calls, now) && forall k :: limits(k).window <= LONGEST_WINDOW
    ensures Limited(LimitedAll(calls, limits).hits, Check(key, now), limits).admitted <==>
            Recent(At(PlainAll(calls, limits).hits, key), now - limits(key).window) < limits(key).count
  {
    RunsAgree(calls, limits, now);
    CheckAgrees(LimitedAll(calls, limits).hits, PlainAll(calls, limits).hits, limits, now, key, now);
  }

  /** A caller who is refused and waits the seconds named, while nobody else is admitted under the key, is admitted. */
  lemma RetryIsEnough(hits: Hits, key: string, limit: Limit, now: int, later: int)
    requires limit.count > 0 && |At(hits, key)| <= limit.count
    requires !Checked(hits, key, limit.count, limit.window, now).admitted
    requires later >= now + (Popped(At(hits, key), now - limit.window)[0] + limit.window - now + 1)
    ensures Checked(Checked(hits, key, limit.count, limit.window, now).hits, key, limit.count, limit.window,
                    later).admitted
  {
    var seen := Popped(At(hits, key), now - limit.window);
    PoppedIsShorter(At(hits, key), now - limit.window);
    PoppedIsShorter(seen[1..], later - limit.window);
  }

  lemma {:induction false} PoppedIsShorter(times: seq<int>, cut: int)
    ensures |Popped(times, cut)| <= |times|
  {
    if times != [] && times[0] <= cut {
      PoppedIsShorter(times[1..], cut);
    }
  }
}
