/** The job queue over time: how long a ready job can be passed over, what a claim reserves, and who can touch whose
    rows. */
module Queue {
  import opened Versions
  import opened Jobs
  import opened Termination

  // ---- events on the job table ---------------------------------------------------------

  datatype Op =
    | EnqueueJob(owner: Option<nat>, asset: string, submission: string)
    | AdvanceJob(owner: Option<nat>, asset: string, submission: string, stage: Stage, delay: nat, bump: bool,
                 failure: Option<bool>)
    | RemoveJob(owner: Option<nat>, asset: string, submission: string)
    | Claim(rows: seq<JobKey>)

  datatype Event = Event(now: int, op: Op)

  function After(jobs: JobTable, e: Event): JobTable {
    match e.op
    case EnqueueJob(owner, asset, submission) => Enqueued(jobs, JobKey(Writer(owner), asset, submission), e.now)
    case AdvanceJob(owner, asset, submission, stage, delay, bump, failure) =>
      Rescheduled(jobs, owner, asset, submission, e.now, stage, delay, bump, failure)
    case RemoveJob(owner, asset, submission) => Deleted(jobs, owner, asset, submission)
    case Claim(rows) => Leased(jobs, rows, e.now)
  }

  function AfterAll(jobs: JobTable, events: seq<Event>): JobTable {
    if events == [] then jobs else After(AfterAll(jobs, Front(events)), Last(events))
  }

  /** Each claim takes what a limited query by due time may return at that moment. */
  ghost predicate ClaimsSelect(jobs: JobTable, events: seq<Event>, limit: nat) {
    forall i | 0 <= i < |events| && events[i].op.Claim? ::
      IsSelection(AfterAll(jobs, events[..i]), events[i].now, limit, events[i].op.rows)
  }

  /** Advances or removes the job itself. */
  predicate Touches(op: Op, key: JobKey) {
    match op
    case AdvanceJob(owner, asset, submission, _, _, _, _) => Matches(owner, asset, submission, key)
    case RemoveJob(owner, asset, submission) => Matches(owner, asset, submission, key)
    case _ => false
  }

  predicate Untouched(events: seq<Event>, key: JobKey) {
    forall i | 0 <= i < |events| :: !Touches(events[i].op, key)
  }

  predicate Claims(e: Event, key: JobKey) {
    e.op.Claim? && key in e.op.rows
  }

  predicate Unclaimed(events: seq<Event>, key: JobKey) {
    forall i | 0 <= i < |events| :: !Claims(events[i], key)
  }

  function ClaimCount(events: seq<Event>): nat {
    if events == [] then 0 else ClaimCount(Front(events)) + if Last(events).op.Claim? then 1 else 0
  }

  lemma FrontOfEvents(jobs: JobTable, events: seq<Event>, key: JobKey, limit: nat)
    requires events != [] && ClaimsSelect(jobs, events, limit) && Untouched(events, key)
    ensures ClaimsSelect(jobs, Front(events), limit) && Untouched(Front(events), key) && !Touches(Last(events).op, key)
    ensures Last(events).op.Claim? ==>
            IsSelection(AfterAll(jobs, Front(events)), Last(events).now, limit, Last(events).op.rows)
  {
    forall i | 0 <= i < |Front(events)| && Front(events)[i].op.Claim?
      ensures IsSelection(AfterAll(jobs, Front(events)[..i]), Front(events)[i].now, limit, Front(events)[i].op.rows)
    {
      assert Front(events)[..i] == events[..i];
    }
  }

  /** A job that is neither claimed nor touched is as it was. */
  lemma {:induction false} LeftAlone(jobs: JobTable, events: seq<Event>, key: JobKey)
    requires key in jobs && Untouched(events, key) && Unclaimed(events, key)
    ensures key in AfterAll(jobs, events) && AfterAll(jobs, events)[key] == jobs[key]
  {
    if events != [] {
      LeftAlone(jobs, Front(events), key);
      assert !Touches(events[|events| - 1].op, key) && !Claims(events[|events| - 1], key);
    }
  }

  // ---- bounded bypass --------------------------------------------------------------------

  /** The other unfinished jobs due no later. */
  function Ahead(jobs: JobTable, key: JobKey, due: int): set<JobKey> {
    set k | k in jobs && k != key && !Terminal(jobs[k].stage) && jobs[k].due <= due
  }

  /** Later events put nobody ahead. */
  lemma AheadShrinks(jobs: JobTable, e: Event, key: JobKey, due: int)
    requires e.now > due
    ensures Ahead(After(jobs, e), key, due) <= Ahead(jobs, key, due)
  {
  }

  lemma {:induction false} DistinctCount<T>(s: seq<T>)
    requires forall i, j | 0 <= i < j < |s| :: s[i] != s[j]
    ensures |set x | x in s| == |s|
  {
    if s != [] {
      var n := |s| - 1;
      DistinctCount(Front(s));
      assert s == Front(s) + [s[n]] && s[n] !in Front(s);
      assert (set x | x in s) == (set x | x in Front(s)) + {s[n]};
    } else {
      assert (set x | x in s) == {};
    }
  }

  /** What a claim takes past a ready job was ahead of it, and no longer is. */
  lemma TakenWasAhead(jobs: JobTable, e: Event, key: JobKey, limit: nat)
    requires e.op.Claim? && IsSelection(jobs, e.now, limit, e.op.rows) && key !in e.op.rows
    requires key in jobs && Ready(jobs[key], e.now) && e.now > jobs[key].due
    ensures |e.op.rows| == limit
    ensures forall k | k in e.op.rows ::
              k in Ahead(jobs, key, jobs[key].due) && k !in Ahead(After(jobs, e), key, jobs[key].due)
  {
  }

  lemma ThreeSets<T>(taken: set<T>, after: set<T>, before: set<T>)
    requires taken <= before && after <= before && taken !! after
    ensures |after| + |taken| <= |before|
  {
    SmallerSet(after + taken, before);
    assert |after + taken| == |after| + |taken|;
  }

  /** A claim that passes a ready job over takes `limit` jobs from ahead of it. */
  lemma ClaimTakesFromAhead(jobs: JobTable, e: Event, key: JobKey, limit: nat)
    requires e.op.Claim? && IsSelection(jobs, e.now, limit, e.op.rows) && key !in e.op.rows
    requires key in jobs && Ready(jobs[key], e.now) && e.now > jobs[key].due
    ensures |Ahead(After(jobs, e), key, jobs[key].due)| + limit <= |Ahead(jobs, key, jobs[key].due)|
  {
    var taken := set k | k in e.op.rows;
    TakenWasAhead(jobs, e, key, limit);
    AheadShrinks(jobs, e, key, jobs[key].due);
    DistinctCount(e.op.rows);
    ThreeSets(taken, Ahead(After(jobs, e), key, jobs[key].due), Ahead(jobs, key, jobs[key].due));
  }

  lemma SmallerSet<T>(a: set<T>, b: set<T>)
    requires a <= b
    ensures |a| <= |b|
  {
    assert b == a + (b - a);
  }

  /** The jobs ahead after one more event: fewer by the limit if it was a claim, no more otherwise. */
  lemma EventTakes(jobs: JobTable, e: Event, key: JobKey, limit: nat)
    requires key in jobs && !Terminal(jobs[key].stage) && e.now > jobs[key].due
    requires e.op.Claim? ==> IsSelection(jobs, e.now, limit, e.op.rows) && key !in e.op.rows
    ensures |Ahead(After(jobs, e), key, jobs[key].due)| + (if e.op.Claim? then limit else 0) <=
            |Ahead(jobs, key, jobs[key].due)|
  {
    if e.op.Claim? {
      ClaimTakesFromAhead(jobs, e, key, limit);
    } else {
      AheadShrinks(jobs, e, key, jobs[key].due);
      SmallerSet(Ahead(After(jobs, e), key, jobs[key].due), Ahead(jobs, key, jobs[key].due));
    }
  }

  lemma OneMoreClaim(events: seq<Event>, limit: nat)
    requires events != []
    ensures ClaimCount(events) * limit == ClaimCount(Front(events)) * limit + if Last(events).op.Claim? then limit
            else 0
  {
    OneMore(ClaimCount(Front(events)) + 1, limit);
  }

  lemma {:induction false} EachClaimTakes(jobs: JobTable, events: seq<Event>, key: JobKey, limit: nat)
    requires key in jobs && !Terminal(jobs[key].stage) &&
             (forall i | 0 <= i < |events| :: events[i].now > jobs[key].due)
    requires ClaimsSelect(jobs, events, limit) && Untouched(events, key) && Unclaimed(events, key)
    ensures |Ahead(AfterAll(jobs, events), key, jobs[key].due)| + ClaimCount(events) * limit <=
            |Ahead(jobs, key, jobs[key].due)|
  {
    if events != [] {
      var e := events[|events| - 1];
      FrontOfEvents(jobs, events, key, limit);
      EachClaimTakes(jobs, Front(events), key, limit);
      LeftAlone(jobs, Front(events), key);
      assert !Claims(e, key);
      EventTakes(AfterAll(jobs, Front(events)), e, key, limit);
      OneMoreClaim(events, limit);
    }
  }

  /** Bounded bypass: whatever else is enqueued, rescheduled, removed or claimed meanwhile, an unfinished job with k
      unfinished jobs due no later is claimed by the time of the ceil((k + 1) / limit)-th claim made after its due
      time. */
  lemma BoundedBypass(jobs: JobTable, events: seq<Event>, key: JobKey, limit: nat)
    requires limit > 0 && key in jobs && !Terminal(jobs[key].stage) &&
             (forall i | 0 <= i < |events| :: events[i].now > jobs[key].due)
    requires ClaimsSelect(jobs, events, limit) && Untouched(events, key)
    requires ClaimCount(events) >= CeilDiv(|Ahead(jobs, key, jobs[key].due)| + 1, limit)
    ensures exists i :: 0 <= i < |events| && Claims(events[i], key)
  {
    if Unclaimed(events, key) {
      EachClaimTakes(jobs, events, key, limit);
      EnoughClaims(ClaimCount(events), limit, |Ahead(jobs, key, jobs[key].due)|);
    }
  }

  predicate AllAfter(events: seq<Event>, now: int) {
    forall i | 0 <= i < |events| :: events[i].now > now
  }

  /** So a job that was just enqueued, and is left alone, is claimed in its turn. */
  lemma EnqueuedIsClaimed(jobs: JobTable, key: JobKey, now: int, events: seq<Event>, limit: nat)
    requires limit > 0 && key !in jobs && AllAfter(events, now)
    requires ClaimsSelect(Enqueued(jobs, key, now), events, limit) && Untouched(events, key)
    requires ClaimCount(events) >= CeilDiv(|Ahead(Enqueued(jobs, key, now), key, now)| + 1, limit)
    ensures Enqueued(jobs, key, now)[key] == Job(New, 0, 0, now, now, now) && Ready(Enqueued(jobs, key, now)[key], now)
    ensures !Unclaimed(events, key)
  {
    if Unclaimed(events, key) {
      EachClaimTakes(Enqueued(jobs, key, now), events, key, limit);
      EnoughClaims(ClaimCount(events), limit, |Ahead(Enqueued(jobs, key, now), key, now)|);
    }
  }

  lemma EnoughClaims(claims: nat, limit: nat, ahead: nat)
    requires limit > 0 && claims >= CeilDiv(ahead + 1, limit)
    ensures claims * limit > ahead
  {
    var c := CeilDiv(ahead + 1, limit);
    assert c * limit >= ahead + 1;
    assert claims * limit >= c * limit;
  }

  // ---- the lease ------------------------------------------------------------------------------

  lemma {:induction false} DueKeeps(jobs: JobTable, events: seq<Event>, key: JobKey, limit: nat, due: int)
    requires key in jobs && jobs[key].due >= due && ClaimsSelect(jobs, events, limit) && Untouched(events, key)
    ensures key in AfterAll(jobs, events) && AfterAll(jobs, events)[key].due >= due
  {
    if events != [] {
      FrontOfEvents(jobs, events, key, limit);
      DueKeeps(jobs, Front(events), key, limit, due);
    }
  }

  lemma {:induction false} AfterTwo(jobs: JobTable, a: seq<Event>, b: seq<Event>)
    ensures AfterAll(jobs, a + b) == AfterAll(AfterAll(jobs, a), b)
  {
    if b == [] {
      assert a + b == a;
    } else {
      assert Front(a + b) == a + Front(b) && Last(a + b) == Last(b);
      AfterTwo(jobs, a, Front(b));
    }
  }

  lemma SelectLater(jobs: JobTable, events: seq<Event>, limit: nat, i: nat, j: nat)
    requires ClaimsSelect(jobs, events, limit) && i <= j <= |events|
    ensures ClaimsSelect(AfterAll(jobs, events[..i]), events[i..j], limit)
    ensures AfterAll(jobs, events[..j]) == AfterAll(AfterAll(jobs, events[..i]), events[i..j])
  {
    forall m | 0 <= m < j - i && events[i..j][m].op.Claim?
      ensures IsSelection(AfterAll(AfterAll(jobs, events[..i]), events[i..j][..m]), events[i..j][m].now, limit,
                          events[i..j][m].op.rows)
    {
      assert events[..i] + events[i..j][..m] == events[..i + m];
      AfterTwo(jobs, events[..i], events[i..j][..m]);
    }
    assert events[..i] + events[i..j] == events[..j];
    AfterTwo(jobs, events[..i], events[i..j]);
  }

  /** Two claims of one job, with nobody advancing or removing it between them, are at least the lease apart. */
  lemma LeaseHolds(jobs: JobTable, events: seq<Event>, key: JobKey, limit: nat, i: nat, j: nat)
    requires ClaimsSelect(jobs, events, limit) && i < j < |events|
    requires Claims(events[i], key) && Claims(events[j], key) && Untouched(events[i + 1..j], key)
    ensures events[j].now >= events[i].now + LEASE
  {
    var before := AfterAll(jobs, events[..i]);
    var leased := AfterAll(jobs, events[..i + 1]);
    assert Front(events[..i + 1]) == events[..i] && leased == Leased(before, events[i].op.rows, events[i].now);
    assert key in before && leased[key].due == events[i].now + LEASE;
    SelectLater(jobs, events, limit, i + 1, j);
    DueKeeps(leased, events[i + 1..j], key, limit, events[i].now + LEASE);
    assert Ready(AfterAll(jobs, events[..j])[key], events[j].now);
  }

  lemma {:induction false} StageKeeps(jobs: JobTable, events: seq<Event>, key: JobKey)
    requires key in jobs && Untouched(events, key)
    ensures key in AfterAll(jobs, events) && AfterAll(jobs, events)[key].stage == jobs[key].stage
  {
    if events != [] {
      StageKeeps(jobs, Front(events), key);
      assert !Touches(events[|events| - 1].op, key);
    }
  }

  /** A job that is done or parked is not claimed again unless somebody sends it back. */
  lemma FinishedIsNotClaimed(jobs: JobTable, events: seq<Event>, key: JobKey, limit: nat, j: nat)
    requires key in jobs && Terminal(jobs[key].stage) && ClaimsSelect(jobs, events, limit) && j < |events| &&
             Untouched(events[..j], key)
    ensures !Claims(events[j], key)
  {
    StageKeeps(jobs, events[..j], key);
  }
}
