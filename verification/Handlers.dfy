/** What one pass decides: the move for every action, the PATCHes those moves send, and where the job goes next. */
module Handlers {
  import opened Versions
  import opened Languages
  import opened Features
  import opened Protocol
  import opened Jobs

  /** Seconds throughout, except the age ceiling, which is in hours. */
  datatype Settings = Settings(asyncPoll: int, stall: nat, maxFailures: nat, maxAgeHours: nat, maxAttempts: nat)

  datatype AssetConfig = AssetConfig(enabled: bool, transcriptLanguage: string, enableQual: bool, xpaths: seq<string>)

  datatype Context = Context(cfg: AssetConfig, rows: seq<Row>, features: Features)

  /** The context was built from the rows the server has. */
  predicate Loaded(ctx: Context) {
    ctx.features == Grouped(ctx.rows)
  }

  predicate HasRecordings(ctx: Context) {
    var wanted := (x: string) => ctx.cfg.xpaths == [] || x in ctx.cfg.xpaths;
    || (exists e | e in ctx.features.transcribe :: wanted(e.xpath))
    || (exists e | e in ctx.features.translate :: wanted(e.xpath))
    || (exists e | e in ctx.features.qual :: wanted(e.xpath))
  }

  // ---- moves --------------------------------------------------------------------

  datatype Move =
    | Ask(patch: Patch)     // request, or request again
    | Take(patch: Patch)    // accept a finished result
    | Wait                  // an attempt is running
    | Spent                 // failed twice in a row
    | Good                  // finished and usable
    | Quiet                 // a transcript without words
    | Blocked               // no accepted transcript to translate from
    | Skip                  // no usable transcript to analyse

  /** What to do about an action that has not finished. */
  function Chase(versions: seq<Version>, now: int, stall: nat, request: Patch): Move {
    match State(versions)
    case InProgress => if StalledFor(versions, now) <= stall then Wait else Ask(request)
    case Failed => if Streak(Ordered(versions)) >= MAX_ACTION_FAILURES then Spent else Ask(request)
    case _ => Ask(request)
  }

  function AudioLanguage(ctx: Context, e: Entry<string>): string {
    RequestLanguage(ctx.cfg.transcriptLanguage, e.value)
  }

  function TranscriptMove(ctx: Context, doc: Doc, now: int, stall: nat, e: Entry<string>): Move {
    var versions := Node(doc, TranscriptOf(e.xpath));
    var language := AudioLanguage(ctx, e);
    if State(versions) == Complete then
      if Silent(versions) then Quiet
      else if !Accepted(versions) then Take(AcceptTranscript(e.xpath, Base(language), Locale(language)))
      else Good
    else
      Chase(versions, now, stall, AskTranscript(e.xpath, Base(language), Locale(language)))
  }

  function TranscriptMoves(ctx: Context, doc: Doc, now: int, stall: nat): (moves: seq<Move>)
    ensures |moves| == |ctx.features.transcribe|
  {
    var rows := ctx.features.transcribe;
    seq(|rows|, i requires 0 <= i < |rows| => TranscriptMove(ctx, doc, now, stall, rows[i]))
  }

  function TranslationMove(doc: Doc, now: int, stall: nat, xpath: string, language: string): Move {
    var versions := Node(doc, TranslationOf(xpath, language));
    if State(versions) == Complete then
      if Accepted(versions) then Good else Take(AcceptTranslation(xpath, Base(language)))
    else
      Chase(versions, now, stall, AskTranslation(xpath, Base(language)))
  }

  function SourceOf(ctx: Context, xpath: string): string {
    match Lookup(ctx.features.transcribe, xpath) case None => "" case Some(language) => language
  }

  function Targets(ctx: Context, e: Entry<seq<string>>): seq<string> {
    Usable(SourceOf(ctx, e.xpath), e.value)
  }

  function RecordingTranslationMoves(ctx: Context, doc: Doc, now: int, stall: nat, e: Entry<seq<string>>): seq<Move> {
    var targets := Targets(ctx, e);
    var transcript := Node(doc, TranscriptOf(e.xpath));
    if Silent(transcript) then []
    else if !Accepted(transcript) then seq(|targets|, i requires 0 <= i < |targets| => Blocked)
    else TargetMoves(doc, now, stall, e.xpath, targets)
  }

  function TargetMoves(doc: Doc, now: int, stall: nat, xpath: string, languages: seq<string>): (moves: seq<Move>)
    ensures |moves| == |languages|
  {
    seq(|languages|, i requires 0 <= i < |languages| => TranslationMove(doc, now, stall, xpath, languages[i]))
  }

  function AnswerMove(doc: Doc, now: int, stall: nat, xpath: string, uuid: Uuid): Move {
    var versions := Node(doc, AnswerOf(xpath, uuid));
    if State(versions) == Complete then Good else Chase(versions, now, stall, AskAnswer(xpath, uuid))
  }

  function Questions(ctx: Context, xpath: string): seq<Uuid> {
    Answerable(ctx.features, xpath, ListAt(ctx.features.qual, xpath))
  }

  function RecordingAnswerMoves(ctx: Context, doc: Doc, now: int, stall: nat, xpath: string): seq<Move> {
    var transcript := Node(doc, TranscriptOf(xpath));
    if Silent(transcript) || !Accepted(transcript) then [Skip]
    else QuestionMoves(doc, now, stall, xpath, Questions(ctx, xpath))
  }

  function QuestionMoves(doc: Doc, now: int, stall: nat, xpath: string, uuids: seq<Uuid>): (moves: seq<Move>)
    ensures |moves| == |uuids|
  {
    seq(|uuids|, i requires 0 <= i < |uuids| => AnswerMove(doc, now, stall, xpath, uuids[i]))
  }

  function TranslationLists(ctx: Context, doc: Doc, now: int, stall: nat): (lists: seq<seq<Move>>)
    ensures |lists| == |ctx.features.translate|
  {
    var rows := ctx.features.translate;
    seq(|rows|, i requires 0 <= i < |rows| => RecordingTranslationMoves(ctx, doc, now, stall, rows[i]))
  }

  function AnswerLists(ctx: Context, doc: Doc, now: int, stall: nat): (lists: seq<seq<Move>>)
    ensures |lists| == |ctx.features.qual|
  {
    var rows := ctx.features.qual;
    seq(|rows|, i requires 0 <= i < |rows| => RecordingAnswerMoves(ctx, doc, now, stall, rows[i].xpath))
  }

  function Flat<T>(lists: seq<seq<T>>): seq<T> {
    if lists == [] then [] else Flat(Front(lists)) + Last(lists)
  }

  lemma {:induction false} FlatMembers<T>(lists: seq<seq<T>>)
    ensures forall x :: x in Flat(lists) <==> exists i :: 0 <= i < |lists| && x in lists[i]
  {
    if lists != [] {
      FlatMembers(Front(lists));
      forall x ensures x in Flat(lists) <==> exists i :: 0 <= i < |lists| && x in lists[i] {
        if i :| 0 <= i < |lists| && x in lists[i] {
          assert i < |lists| - 1 ==> x in Front(lists)[i];
        }
        if x in Flat(Front(lists)) {
          var i :| 0 <= i < |Front(lists)| && x in Front(lists)[i];
          assert x in lists[i];
        }
      }
    }
  }

  function Moves(ctx: Context, doc: Doc, now: int, stall: nat, stage: Stage): seq<Move> {
    match stage
    case New => TranscriptMoves(ctx, doc, now, stall)
    case Transcribe => TranscriptMoves(ctx, doc, now, stall)
    case Translate => Flat(TranslationLists(ctx, doc, now, stall))
    case Qual => if ctx.cfg.enableQual then Flat(AnswerLists(ctx, doc, now, stall)) else []
    case Done => []
    case Parked => []
  }

  predicate Sends(m: Move) {
    m.Ask? || m.Take?
  }

  function Patches(moves: seq<Move>): (ps: seq<Patch>)
    ensures forall p :: p in ps <==> Ask(p) in moves || Take(p) in moves
  {
    if moves == [] then []
    else if Sends(Last(moves)) then Patches(Front(moves)) + [Last(moves).patch]
    else Patches(Front(moves))
  }

  datatype Outcome = Requested | AcceptedNow | Waiting | Finished | SpentOut | Wordless | Blocking | Skipping

  function OutcomeOf(m: Move): Outcome {
    match m
    case Ask(_) => Requested
    case Take(_) => AcceptedNow
    case Wait => Waiting
    case Good => Finished
    case Spent => SpentOut
    case Quiet => Wordless
    case Blocked => Blocking
    case Skip => Skipping
  }

  function Outcomes(moves: seq<Move>): seq<Outcome> {
    seq(|moves|, i requires 0 <= i < |moves| => OutcomeOf(moves[i]))
  }

  /** The counters a handler keeps while it loops: how often each outcome occurred. */
  type Tally = multiset<Outcome>

  function Counted(moves: seq<Move>): Tally {
    multiset(Outcomes(moves))
  }

  lemma CountedMore(moves: seq<Move>, m: Move)
    ensures Counted(moves + [m]) == Counted(moves) + multiset{OutcomeOf(m)}
  {
    assert Outcomes(moves + [m]) == Outcomes(moves) + [OutcomeOf(m)];
  }

  lemma OutcomeCounted(moves: seq<Move>, o: Outcome)
    ensures o in Counted(moves) <==> exists m :: m in moves && OutcomeOf(m) == o
  {
    var os := Outcomes(moves);
    assert o in Counted(moves) <==> o in os;
    if o in os {
      var i :| 0 <= i < |os| && os[i] == o;
      assert moves[i] in moves;
    }
    if m :| m in moves && OutcomeOf(m) == o {
      var i :| 0 <= i < |moves| && moves[i] == m;
      assert os[i] == o;
    }
  }

  lemma PlainOutcome(moves: seq<Move>, m: Move)
    requires !Sends(m)
    ensures OutcomeOf(m) in Counted(moves) <==> m in moves
  {
    OutcomeCounted(moves, OutcomeOf(m));
  }

  /** The tests a handler makes on its counters are tests on which moves occurred. */
  lemma CountersTell(moves: seq<Move>)
    ensures Requested in Counted(moves) || AcceptedNow in Counted(moves) || Waiting in Counted(moves) <==> Busy(moves)
    ensures Finished in Counted(moves) <==> Good in moves
    ensures SpentOut in Counted(moves) <==> Spent in moves
    ensures Wordless in Counted(moves) <==> Quiet in moves
    ensures Blocking in Counted(moves) <==> Blocked in moves
    ensures Skipping in Counted(moves) <==> Skip in moves
  {
    OutcomeCounted(moves, Requested);
    OutcomeCounted(moves, AcceptedNow);
    OutcomeCounted(moves, Waiting);
    PlainOutcome(moves, Good);
    PlainOutcome(moves, Spent);
    PlainOutcome(moves, Quiet);
    PlainOutcome(moves, Blocked);
    PlainOutcome(moves, Skip);
  }

  // ---- verdicts -----------------------------------------------------------------

  datatype Verdict = Verdict(stage: Stage, delay: int)

  /** Something was sent or is still running. */
  predicate Busy(moves: seq<Move>) {
    exists m | m in moves :: Sends(m) || m == Wait
  }

  function Judge(ctx: Context, poll: int, stage: Stage, moves: seq<Move>): Verdict {
    match stage
    case New => JudgeTranscripts(ctx, poll, moves)
    case Transcribe => JudgeTranscripts(ctx, poll, moves)
    case Translate =>
      if Busy(moves) then Verdict(Translate, poll)
      else if Blocked in moves then Verdict(Transcribe, 2)
      else Verdict(Qual, 2)
    case Qual =>
      if !ctx.cfg.enableQual then Verdict(Done, 0)
      else if Busy(moves) then Verdict(Qual, poll)
      else if Spent in moves then Verdict(Parked, 0)
      else if Good !in moves && Skip in moves then Verdict(Parked, 0)
      else Verdict(Done, 0)
    case Done => Verdict(Done, 0)
    case Parked => Verdict(Done, 0)
  }

  function JudgeTranscripts(ctx: Context, poll: int, moves: seq<Move>): Verdict {
    if Busy(moves) then Verdict(Transcribe, poll)
    else if Good !in moves then
      if Quiet in moves || Spent in moves then Verdict(Parked, 0) else Verdict(Done, 0)
    else if ctx.features.translate != [] then Verdict(Translate, 2)
    else Verdict(Qual, 2)
  }

  // ---- one stage, and the chain of hand-offs ---------------------------------------

  function StagePatches(ctx: Context, s: Settings, doc: Doc, now: int, stage: Stage): seq<Patch> {
    Patches(Moves(ctx, doc, now, s.stall, stage))
  }

  function StageVerdict(ctx: Context, s: Settings, doc: Doc, now: int, stage: Stage): Verdict {
    Judge(ctx, s.asyncPoll, stage, Moves(ctx, doc, now, s.stall, stage))
  }

  function AfterStage(ctx: Context, s: Settings, doc: Doc, now: int, stage: Stage): Doc {
    ApplyAll(doc, StagePatches(ctx, s, doc, now, stage), now)
  }

  const CHAIN_LIMIT := 4

  /** Only a hand-off is chained: a different, unfinished stage that need not wait. */
  predicate Chains(stage: Stage, v: Verdict) {
    v.stage != stage && !Terminal(v.stage) && v.delay <= 5
  }

  datatype Chain = Chain(patches: seq<Patch>, verdict: Verdict)

  function RunStage(ctx: Context, s: Settings, doc: Doc, now: int, stage: Stage, limit: nat): (r: Chain)
    requires limit > 0
    decreases limit, stage
  {
    var ps := StagePatches(ctx, s, doc, now, stage);
    var v := StageVerdict(ctx, s, doc, now, stage);
    if limit == 1 || !Chains(stage, v) then Chain(ps, v)
    else
      var rest := RunStage(ctx, s, AfterStage(ctx, s, doc, now, stage), now, v.stage, limit - 1);
      Chain(ps + rest.patches, rest.verdict)
  }

  // ---- one pass over a job ------------------------------------------------------------------

  predicate TooOld(s: Settings, created: int, now: int) {
    created != 0 && now - created >= s.maxAgeHours * 3600
  }

  predicate GivesUp(s: Settings, job: Job, now: int) {
    job.failures >= s.maxFailures || TooOld(s, job.created, now) || job.attempts >= s.maxAttempts
  }

  function Pow2(n: nat): nat {
    if n == 0 then 1 else 2 * Pow2(n - 1)
  }

  function Min(a: int, b: int): int {
    if a < b then a else b
  }

  function Backoff(attempts: nat): int {
    Min(600, 30 * Pow2(Min(attempts, 5)))
  }

  /** An exception in the pass, raised once the server had carried out `after` of its PATCHes. */
  datatype Trouble = Trouble(error: Error, after: nat)

  predicate Works(s: Settings, ctx: Context, job: Job, now: int) {
    !GivesUp(s, job, now) && ctx.cfg.enabled && HasRecordings(ctx)
  }

  /** The chain a pass would run; nothing when the pass stops before any handler. */
  function Plan(s: Settings, ctx: Context, job: Job, doc: Doc, now: int): Chain {
    if Works(s, ctx, job, now) then RunStage(ctx, s, doc, now, job.stage, CHAIN_LIMIT)
      else Chain([], Verdict(job.stage, 0))
  }

  predicate CanHappen(s: Settings, ctx: Context, job: Job, doc: Doc, now: int, trouble: Option<Trouble>) {
    trouble.Some? ==> !GivesUp(s, job, now) && trouble.value.after <= |Plan(s, ctx, job, doc, now).patches|
  }

  /** The PATCHes carried out by a pass. */
  function PassPatches(s: Settings, ctx: Context, job: Job, doc: Doc, now: int, trouble: Option<Trouble>): seq<Patch>
    requires CanHappen(s, ctx, job, doc, now, trouble)
  {
    var ps := Plan(s, ctx, job, doc, now).patches;
    match trouble case None => ps case Some(t) => ps[..t.after]
  }

  function ErrorRow(job: Job, now: int, error: Error): Job {
    match error
    case NotFound => Advanced(job, now, Parked, 0, false, Some(true))
    case KoboFailure => Advanced(job, now, job.stage, Backoff(job.attempts), true, Some(true))
    case Unexpected => Advanced(job, now, job.stage, 300, true, Some(true))
  }

  /** The job row a pass leaves behind, given the chain it ran or would have run. */
  function RowAfter(s: Settings, ctx: Context, job: Job, now: int, trouble: Option<Trouble>, chain: Chain): Job {
    if GivesUp(s, job, now) then Advanced(job, now, Parked, 0, false, None)
    else if trouble.Some? then ErrorRow(job, now, trouble.value.error)
    else if !ctx.cfg.enabled then Advanced(job, now, job.stage, 600, false, None)
    else if !HasRecordings(ctx) then Advanced(job, now, Done, 0, false, None)
    else
      Advanced(job, now, chain.verdict.stage, chain.verdict.delay,
               chain.patches != [] || chain.verdict.stage != job.stage, Some(false))
  }

  function PassRow(s: Settings, ctx: Context, job: Job, doc: Doc, now: int, trouble: Option<Trouble>): Job
    requires CanHappen(s, ctx, job, doc, now, trouble)
  {
    RowAfter(s, ctx, job, now, trouble, Plan(s, ctx, job, doc, now))
  }
}
