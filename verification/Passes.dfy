/** One pass over a job by the job's own fields: when it is parked unworked, paused or finished, and what its row
    becomes. */
module Passes {
  import opened Versions
  import opened Features
  import opened Protocol
  import opened Jobs
  import opened Handlers

  /** What a pass without trouble sends, and the row it leaves. */
  predicate UntroubledPass(s: Settings, ctx: Context, job: Job, doc: Doc, now: int, row: Job, sent: seq<Patch>) {
    if job.failures >= s.maxFailures || (job.created != 0 && now - job.created >= s.maxAgeHours * 3600) ||
      job.attempts >= s.maxAttempts
    then sent == [] && row == Job(Parked, job.attempts, job.failures, now, job.created, now)
    else if !ctx.cfg.enabled
    then sent == [] && row == Job(job.stage, job.attempts, job.failures, now + 600, job.created, now)
    else if !HasRecordings(ctx)
    then sent == [] && row == Job(Done, job.attempts, job.failures, now, job.created, now)
    else
      var chain := RunStage(ctx, s, doc, now, job.stage, 4);
      var worked := chain.patches != [] || chain.verdict.stage != job.stage;
      sent == chain.patches &&
      row == Job(chain.verdict.stage, if worked then job.attempts + 1 else job.attempts, 0, now + chain.verdict.delay,
                 job.created, now)
  }

  /** The row after an error: only a submission the server does not know is given up; every other error is tried
      again. */
  predicate TroubledRow(job: Job, now: int, error: Error, row: Job) {
    match error
    case NotFound => row == Job(Parked, job.attempts, job.failures + 1, now, job.created, now)
    case KoboFailure =>
      var wait := if job.attempts < 5 then [30, 60, 120, 240, 480][job.attempts] else 600;
      row == Job(job.stage, job.attempts + 1, job.failures + 1, now + wait, job.created, now)
    case Unexpected => row == Job(job.stage, job.attempts + 1, job.failures + 1, now + 300, job.created, now)
  }

  /** A pass that met trouble: the job was within its limits, and what was sent is a first part of what would have
      been. */
  predicate TroubledPass(s: Settings, ctx: Context, job: Job, doc: Doc, now: int, error: Error, row: Job,
                         sent: seq<Patch>) {
    && job.failures < s.maxFailures && job.attempts < s.maxAttempts
    && (job.created == 0 || now - job.created < s.maxAgeHours * 3600)
    && (if ctx.cfg.enabled && HasRecordings(ctx) then sent <= RunStage(ctx, s, doc, now, job.stage, 4).patches
        else sent == [])
    && TroubledRow(job, now, error, row)
  }

  predicate IsPass(s: Settings, ctx: Context, job: Job, doc: Doc, now: int, trouble: Option<Trouble>, row: Job,
                   sent: seq<Patch>) {
    match trouble
    case None => UntroubledPass(s, ctx, job, doc, now, row, sent)
    case Some(t) => TroubledPass(s, ctx, job, doc, now, t.error, row, sent) && |sent| == t.after
  }

  lemma BackoffIs(attempts: nat)
    ensures Backoff(attempts) == if attempts < 5 then [30, 60, 120, 240, 480][attempts] else 600
  {
    assert Pow2(1) == 2 && Pow2(2) == 4 && Pow2(3) == 8 && Pow2(4) == 16 && Pow2(5) == 32;
  }

  lemma ErrorRowIs(job: Job, now: int, error: Error)
    ensures TroubledRow(job, now, error, ErrorRow(job, now, error))
  {
    BackoffIs(job.attempts);
  }

  /** Every pass parks a job at its limits, and no other, before any handler; a paused form keeps it for ten minutes;
      otherwise the handlers run and their verdict is recorded. */
  lemma PassIs(s: Settings, ctx: Context, job: Job, doc: Doc, now: int, trouble: Option<Trouble>)
    requires CanHappen(s, ctx, job, doc, now, trouble)
    ensures IsPass(s, ctx, job, doc, now, trouble, PassRow(s, ctx, job, doc, now, trouble),
                   PassPatches(s, ctx, job, doc, now, trouble))
  {
    if trouble.Some? {
      ErrorRowIs(job, now, trouble.value.error);
    }
  }

  /** The settings do not leave the recording out. */
  predicate IsWanted(ctx: Context, x: string) {
    ctx.cfg.xpaths == [] || x in ctx.cfg.xpaths
  }

  predicate IsConfigured(f: Features, x: string) {
    Lookup(f.transcribe, x).Some? || Lookup(f.translate, x).Some? || Lookup(f.qual, x).Some?
  }

  /** A form has recordings exactly when a row names one that the settings do not leave out. */
  lemma HasRecordingsIff(ctx: Context)
    ensures HasRecordings(ctx) <==> exists x :: IsWanted(ctx, x) && IsConfigured(ctx.features, x)
  {
    if e :| e in ctx.features.transcribe && IsWanted(ctx, e.xpath) {
      assert IsConfigured(ctx.features, e.xpath);
    }
    if e :| e in ctx.features.translate && IsWanted(ctx, e.xpath) {
      assert IsConfigured(ctx.features, e.xpath);
    }
    if e :| e in ctx.features.qual && IsWanted(ctx, e.xpath) {
      assert IsConfigured(ctx.features, e.xpath);
    }
    if x :| IsWanted(ctx, x) && IsConfigured(ctx.features, x) {
      ConfiguredIsNamed(ctx, x);
    }
  }

  lemma ConfiguredIsNamed(ctx: Context, x: string)
    requires IsWanted(ctx, x) && IsConfigured(ctx.features, x)
    ensures HasRecordings(ctx)
  {
    if Lookup(ctx.features.transcribe, x).Some? {
      assert Entry(x, Lookup(ctx.features.transcribe, x).value) in ctx.features.transcribe;
    } else if Lookup(ctx.features.translate, x).Some? {
      assert Entry(x, Lookup(ctx.features.translate, x).value) in ctx.features.translate;
    } else {
      assert Entry(x, Lookup(ctx.features.qual, x).value) in ctx.features.qual;
    }
  }
}
