/** Runs of one submission: passes of the pipeline, attempts settling on the server, the clock, and operator retries. */
module Runs {
  import opened Versions
  import opened Protocol
  import opened Jobs
  import opened Handlers
  import opened Safety

  /** Why an attempt was requested. */
  datatype Reason = First | Retry | Restart | Again

  function ReasonFor(versions: seq<Version>): Reason {
    if versions == [] then First else
      match State(versions)
      case Failed => Retry
      case InProgress => Restart
      case _ => Again
  }

  /** For every action, the reason of each request the server carried out. */
  type Ledger = map<Key, seq<Reason>>

  function Entries(ledger: Ledger, key: Key): seq<Reason> {
    if key in ledger then ledger[key] else []
  }

  function Billed(ledger: Ledger, doc: Doc, p: Patch): Ledger {
    if IsRequest(p) then ledger[KeyOf(p) := Entries(ledger, KeyOf(p)) + [ReasonFor(Node(doc, KeyOf(p)))]] else ledger
  }

  function BillAll(ledger: Ledger, doc: Doc, ps: seq<Patch>, now: int): Ledger {
    if ps == [] then ledger
    else Billed(BillAll(ledger, doc, Front(ps), now), ApplyAll(doc, Front(ps), now), Last(ps))
  }

  /** errorsInARow counts the error passes since the last pass whose handlers finished. */
  datatype Stats = Stats(carried: nat, stageChanges: nat, errors: nat, errorsInARow: nat)

  datatype World = World(now: int, job: Job, doc: Doc, ledger: Ledger, stats: Stats)

  function Counts(st: Stats, carried: nat, moved: bool, trouble: bool, finished: bool): Stats {
    Stats(st.carried + carried,
          if moved then st.stageChanges + 1 else st.stageChanges,
          if trouble then st.errors + 1 else st.errors,
          if trouble then st.errorsInARow + 1 else if finished then 0 else st.errorsInARow)
  }

  ghost predicate CanPass(s: Settings, ctx: Context, w: World, trouble: Option<Trouble>) {
    !Terminal(w.job.stage) && w.job.due <= w.now && CanHappen(s, ctx, w.job, w.doc, w.now, trouble)
  }

  function AfterPass(s: Settings, ctx: Context, w: World, trouble: Option<Trouble>): World
    requires CanHappen(s, ctx, w.job, w.doc, w.now, trouble)
  {
    var ps := PassPatches(s, ctx, w.job, w.doc, w.now, trouble);
    var row := PassRow(s, ctx, w.job, w.doc, w.now, trouble);
    World(w.now, row, ApplyAll(w.doc, ps, w.now), BillAll(w.ledger, w.doc, ps, w.now),
          Counts(w.stats, |ps|, row.stage != w.job.stage, trouble.Some?, Works(s, ctx, w.job, w.now)))
  }

  ghost predicate PassStep(s: Settings, ctx: Context, w: World, w': World) {
    exists trouble :: CanPass(s, ctx, w, trouble) && w' == AfterPass(s, ctx, w, trouble)
  }

  predicate ClockStep(w: World, w': World) {
    w'.now >= w.now && w' == w.(now := w'.now)
  }

  ghost predicate SettleStep(w: World, w': World) {
    Settles(w.doc, w'.doc) && w' == w.(doc := w'.doc)
  }

  /** The operator sends the job back to the start; its failures and its age stay. */
  predicate RetryStep(w: World, w': World) {
    w' == w.(job := Advanced(w.job, w.now, New, 0, false, None))
  }

  ghost predicate Next(s: Settings, ctx: Context, w: World, w': World) {
    PassStep(s, ctx, w, w') || ClockStep(w, w') || SettleStep(w, w') || RetryStep(w, w')
  }

  /** A job as it was just enqueued, over whatever the server holds already. */
  ghost predicate Starts(w: World) {
    w.now > 0 && w.job == Job(New, 0, 0, w.now, w.now, w.now) && DocInOrder(w.doc, w.now) &&
    w.ledger == map[] && w.stats == Stats(0, 0, 0, 0)
  }

  /** It is the row that enqueueing inserts: new, due at once, with no history. */
  lemma StartsAsEnqueued(w: World, jobs: JobTable, key: JobKey)
    requires Starts(w) && key !in jobs
    ensures Enqueued(jobs, key, w.now)[key] == w.job && Ready(w.job, w.now)
    ensures w.job.stage == New && w.job.attempts == w.job.failures == 0 && w.job.due == w.job.created == w.now
  {
  }

  ghost predicate IsRun(s: Settings, ctx: Context, run: seq<World>) {
    run != [] && Starts(run[0]) && forall i | 0 <= i < |run| - 1 :: Next(s, ctx, run[i], run[i + 1])
  }

  // ---- order ------------------------------------------------------------------------

  ghost predicate Orderly(w: World) {
    DocInOrder(w.doc, w.now) && 0 < w.job.created <= w.now
  }

  lemma SettlingKeepsOrder(doc: Doc, doc': Doc, now: int)
    requires DocInOrder(doc, now) && Settles(doc, doc')
    ensures DocInOrder(doc', now)
  {
    forall key ensures InOrder(Node(doc', key), now) {
      MaturedInOrder(Node(doc, key), Node(doc', key), now);
    }
  }

  lemma MaturedInOrder(before: seq<Version>, after: seq<Version>, now: int)
    requires InOrder(before, now) && Matured(before, after)
    ensures InOrder(after, now)
  {
    forall i | 0 <= i < |after| ensures after[i].created == before[i].created && before[i] in before {
    }
    forall v | v in after ensures v.created.Some? && Date(v) <= now && (v.accepted ==> v.status == Complete) {
      var i :| 0 <= i < |after| && after[i] == v;
      assert before[i] in before;
    }
  }

  lemma PassKeepsOrder(s: Settings, ctx: Context, w: World, trouble: Option<Trouble>)
    requires Sound(ctx) && Orderly(w) && CanPass(s, ctx, w, trouble)
    ensures Orderly(AfterPass(s, ctx, w, trouble)) && AfterPass(s, ctx, w, trouble).job.created == w.job.created
  {
    PassIsAdmitted(s, ctx, w.job, w.doc, w.now, trouble);
    RowKeepsCreated(s, ctx, w.job, w.doc, w.now, trouble);
  }

  lemma RowKeepsCreated(s: Settings, ctx: Context, job: Job, doc: Doc, now: int, trouble: Option<Trouble>)
    requires CanHappen(s, ctx, job, doc, now, trouble)
    ensures PassRow(s, ctx, job, doc, now, trouble).created == job.created
  {
  }

  lemma StepKeepsOrder(s: Settings, ctx: Context, w: World, w': World)
    requires Sound(ctx) && Orderly(w) && Next(s, ctx, w, w')
    ensures Orderly(w') && w'.job.created == w.job.created
  {
    if PassStep(s, ctx, w, w') {
      var trouble :| CanPass(s, ctx, w, trouble) && w' == AfterPass(s, ctx, w, trouble);
      PassKeepsOrder(s, ctx, w, trouble);
    } else if SettleStep(w, w') {
      SettlingKeepsOrder(w.doc, w'.doc, w.now);
    }
  }

  lemma {:induction false} RunIsOrderly(s: Settings, ctx: Context, run: seq<World>)
    requires Sound(ctx) && IsRun(s, ctx, run)
    ensures Orderly(Last(run)) && Last(run).job.created == run[0].now
  {
    if |run| > 1 {
      RunIsOrderly(s, ctx, Front(run));
      StepKeepsOrder(s, ctx, run[|run| - 2], run[|run| - 1]);
    }
  }

  /** Protocol safety over runs: whatever has happened before, and wherever trouble strikes, the server admits every
      PATCH. */
  lemma EveryPatchIsAdmitted(s: Settings, ctx: Context, run: seq<World>, trouble: Option<Trouble>)
    requires Sound(ctx) && IsRun(s, ctx, run) && CanPass(s, ctx, Last(run), trouble)
    ensures var w := Last(run);
            AdmitsAll(ctx.rows, w.doc, PassPatches(s, ctx, w.job, w.doc, w.now, trouble), w.now)
  {
    var w := Last(run);
    RunIsOrderly(s, ctx, run);
    PassIsAdmitted(s, ctx, w.job, w.doc, w.now, trouble);
  }

  // ---- step accounting ------------------------------------------------------------------

  predicate Accounted(s: Settings, w: World) {
    && w.job.attempts <= w.stats.carried + w.stats.stageChanges + w.stats.errors
    && w.job.failures == w.stats.errorsInARow <= s.maxFailures
  }

  /** What a pass adds to a job's attempts and failures. */
  lemma RowIsAccountedFor(s: Settings, ctx: Context, job: Job, doc: Doc, now: int, trouble: Option<Trouble>)
    requires CanHappen(s, ctx, job, doc, now, trouble)
    ensures var row := PassRow(s, ctx, job, doc, now, trouble);
            && (row.attempts == job.attempts ||
                (row.attempts == job.attempts + 1 &&
                 (trouble.Some? || row.stage != job.stage || PassPatches(s, ctx, job, doc, now, trouble) != [])))
            && row.failures == (if trouble.Some? then job.failures + 1 else if Works(s, ctx, job, now) then 0
                                else job.failures)
            && (trouble.Some? ==> job.failures < s.maxFailures)
  {
  }

  lemma PassKeepsAccount(s: Settings, ctx: Context, w: World, trouble: Option<Trouble>)
    requires Accounted(s, w) && CanPass(s, ctx, w, trouble)
    ensures Accounted(s, AfterPass(s, ctx, w, trouble))
  {
    RowIsAccountedFor(s, ctx, w.job, w.doc, w.now, trouble);
  }

  lemma StepKeepsAccount(s: Settings, ctx: Context, w: World, w': World)
    requires Accounted(s, w) && Next(s, ctx, w, w')
    ensures Accounted(s, w')
  {
    if PassStep(s, ctx, w, w') {
      var trouble :| CanPass(s, ctx, w, trouble) && w' == AfterPass(s, ctx, w, trouble);
      PassKeepsAccount(s, ctx, w, trouble);
    }
  }

  /** Only work, a change of stage or an error is counted as an attempt; failures are the errors in a row, never more
      than allowed. */
  lemma {:induction false} StepsAreAccountedFor(s: Settings, ctx: Context, run: seq<World>)
    requires IsRun(s, ctx, run)
    ensures Accounted(s, Last(run))
  {
    if |run| > 1 {
      StepsAreAccountedFor(s, ctx, Front(run));
      StepKeepsAccount(s, ctx, run[|run| - 2], run[|run| - 1]);
    }
  }
}
