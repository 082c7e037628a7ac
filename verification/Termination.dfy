/** Termination against any server: however the server, the form's settings and the network behave, a job ends. */
module Termination {
  import opened Versions
  import opened Protocol
  import opened Jobs
  import opened Handlers

  /** The least time by which an unfinished job is put off. */
  function Pause(s: Settings): int {
    Min(2, s.asyncPoll)
  }

  lemma {:induction false} PowerIsPositive(n: nat)
    ensures Pow2(n) >= 1
  {
    if n > 0 {
      PowerIsPositive(n - 1);
    }
  }

  /** Errors are retried after half a minute, each time after twice as long, but never after more than ten minutes. */
  lemma BackoffDoubles(attempts: nat)
    ensures Backoff(0) == 30 && Backoff(attempts + 1) == Min(600, 2 * Backoff(attempts))
  {
    assert Pow2(1) == 2 && Pow2(2) == 4 && Pow2(3) == 8 && Pow2(4) == 16 && Pow2(5) == 32;
    assert attempts < 5 ==> attempts == 0 || attempts == 1 || attempts == 2 || attempts == 3 || attempts == 4;
  }

  lemma {:induction false} ChainWaits(ctx: Context, s: Settings, doc: Doc, now: int, stage: Stage, limit: nat)
    requires limit > 0
    ensures var v := RunStage(ctx, s, doc, now, stage, limit).verdict; !Terminal(v.stage) ==> v.delay >= Pause(s)
    decreases limit
  {
    var v := StageVerdict(ctx, s, doc, now, stage);
    if limit > 1 && Chains(stage, v) {
      ChainWaits(ctx, s, AfterStage(ctx, s, doc, now, stage), now, v.stage, limit - 1);
    }
  }

  lemma RowWaits(s: Settings, ctx: Context, job: Job, now: int, trouble: Option<Trouble>, chain: Chain)
    requires !GivesUp(s, job, now) && trouble.None? && ctx.cfg.enabled && HasRecordings(ctx) ==>
               Terminal(chain.verdict.stage) || chain.verdict.delay >= Pause(s)
    ensures var row := RowAfter(s, ctx, job, now, trouble, chain);
            Terminal(row.stage) || row.due >= now + Pause(s)
  {
    PowerIsPositive(Min(job.attempts, 5));
  }

  /** A pass that does not end its job puts it off. */
  lemma PassWaits(s: Settings, ctx: Context, job: Job, doc: Doc, now: int, trouble: Option<Trouble>)
    requires CanHappen(s, ctx, job, doc, now, trouble)
    ensures var row := PassRow(s, ctx, job, doc, now, trouble);
            Terminal(row.stage) || row.due >= now + Pause(s)
  {
    ChainWaits(ctx, s, doc, now, job.stage, CHAIN_LIMIT);
    RowWaits(s, ctx, job, now, trouble, Plan(s, ctx, job, doc, now));
  }

  /** One processing of the job: the time, and whatever the pipeline then found. */
  datatype Visit = Visit(now: int, ctx: Context, job: Job, doc: Doc, trouble: Option<Trouble>)

  predicate Possible(s: Settings, v: Visit) {
    !Terminal(v.job.stage) && v.job.due <= v.now && CanHappen(s, v.ctx, v.job, v.doc, v.now, v.trouble)
  }

  /** A job's life without an operator: each visit finds the row the one before it left, put off or not in between. */
  predicate IsLife(s: Settings, visits: seq<Visit>) {
    && visits != []
    && (forall i | 0 <= i < |visits| :: Possible(s, visits[i]))
    && (forall i | 0 < i < |visits| :: PutOff(RowLeft(s, visits[i - 1]), visits[i].job))
    && visits[0].job.created != 0 && visits[0].job.created <= visits[0].now
  }

  function RowLeft(s: Settings, v: Visit): Job
    requires Possible(s, v)
  {
    PassRow(s, v.ctx, v.job, v.doc, v.now, v.trouble)
  }

  lemma NextVisit(s: Settings, v: Visit, v': Visit)
    requires Possible(s, v) && Possible(s, v') && PutOff(RowLeft(s, v), v'.job)
    ensures v'.now >= v.now + Pause(s) && v'.job.created == v.job.created
  {
    PassWaits(s, v.ctx, v.job, v.doc, v.now, v.trouble);
  }

  lemma OneMore(n: int, d: int)
    ensures n * d == (n - 1) * d + d
  {
  }

  lemma {:induction false} VisitsAreApart(s: Settings, visits: seq<Visit>)
    requires IsLife(s, visits)
    ensures Last(visits).now >= visits[0].now + (|visits| - 1) * Pause(s)
    ensures Last(visits).job.created == visits[0].job.created
  {
    if |visits| > 1 {
      var n := |visits| - 1;
      VisitsAreApart(s, Front(visits));
      NextVisit(s, visits[n - 1], visits[n]);
      OneMore(n, Pause(s));
    }
  }

  /** A visit to a job past the age ceiling parks it. */
  lemma TooOldEnds(s: Settings, v: Visit)
    requires Possible(s, v) && TooOld(s, v.job.created, v.now)
    ensures RowLeft(s, v).stage == Parked
  {
  }

  function CeilDiv(a: nat, b: nat): nat
    requires b > 0
  {
    (a + b - 1) / b
  }

  lemma BelowCeiling(n: nat, d: nat, total: nat)
    requires d > 0 && n * d < total
    ensures n + 1 <= CeilDiv(total, d)
  {
    var c := CeilDiv(total, d);
    assert c * d >= total;
    assert n >= c ==> n * d >= c * d;
  }

  /** No job is processed more often than the age ceiling has room for passes, and one more that parks it. */
  lemma EveryJobEnds(s: Settings, visits: seq<Visit>)
    requires IsLife(s, visits) && s.asyncPoll > 0
    ensures |visits| <= CeilDiv(s.maxAgeHours * 3600, Pause(s)) + 1
    ensures Last(visits).now - visits[0].job.created >= s.maxAgeHours * 3600 ==>
            RowLeft(s, Last(visits)).stage == Parked
  {
    var n := |visits|;
    VisitsAreApart(s, visits);
    if n > 1 {
      var before := Front(visits);
      VisitsAreApart(s, before);
      assert PutOff(RowLeft(s, visits[n - 2]), visits[n - 1].job) && Possible(s, visits[n - 1]);
      if TooOld(s, Last(before).job.created, Last(before).now) {
        TooOldEnds(s, Last(before));
        assert false;
      }
      BelowCeiling(n - 2, Pause(s), s.maxAgeHours * 3600);
    }
    if TooOld(s, Last(visits).job.created, Last(visits).now) {
      TooOldEnds(s, Last(visits));
    }
  }
}
