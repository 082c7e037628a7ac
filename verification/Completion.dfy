/** What a done job promises about the document, and what starting a finished job over costs. */
module Completion {
  import opened Versions
  import opened Features
  import opened Protocol
  import opened Jobs
  import opened Handlers
  import opened Plans
  import opened Safety
  import opened Runs
  import opened Outcomes

  // ---- completeness --------------------------------------------------------------

  predicate Delivered(versions: seq<Version>) {
    State(versions) == Complete && Accepted(versions)
  }

  /** Accepted with words in it, empty, or failed twice in a row. */
  predicate RecordingSettled(doc: Doc, xpath: string) {
    var transcript := Node(doc, TranscriptOf(xpath));
    (Delivered(transcript) && !Silent(transcript)) || Silent(transcript) || Exhausted(transcript)
  }

  /** Over an accepted transcript every usable target is delivered or has failed twice in a row;
      a recording with usable targets has an accepted transcript, or an empty one. */
  predicate TranslationsSettled(ctx: Context, doc: Doc, e: Entry<seq<string>>) {
    var transcript := Node(doc, TranscriptOf(e.xpath));
    && (Targets(ctx, e) != [] ==> HasTranscript(doc, e.xpath) || Silent(transcript))
    && (HasTranscript(doc, e.xpath) ==>
          forall l | l in Targets(ctx, e) ::
            var versions := Node(doc, TranslationOf(e.xpath, l)); Delivered(versions) || Exhausted(versions))
  }

  predicate AnswersComplete(ctx: Context, doc: Doc, xpath: string) {
    HasTranscript(doc, xpath) ==>
      forall u | u in Questions(ctx, xpath) :: State(Node(doc, AnswerOf(xpath, u))) == Complete
  }

  ghost predicate IsComplete(ctx: Context, doc: Doc) {
    && (forall e | e in ctx.features.transcribe :: RecordingSettled(doc, e.xpath))
    && (exists e | e in ctx.features.transcribe :: HasTranscript(doc, e.xpath))
    && (forall e | e in ctx.features.translate :: TranslationsSettled(ctx, doc, e))
    && (ctx.cfg.enableQual ==> forall e | e in ctx.features.qual :: AnswersComplete(ctx, doc, e.xpath))
  }

  lemma IdleTranscriptIsSettled(ctx: Context, doc: Doc, now: int, stall: nat, e: Entry<string>)
    requires Idle(TranscriptMove(ctx, doc, now, stall, e))
    ensures RecordingSettled(doc, e.xpath)
    ensures TranscriptMove(ctx, doc, now, stall, e) == Good ==> HasTranscript(doc, e.xpath)
  {
  }

  lemma TranscriptsAreSettled(ctx: Context, s: Settings, doc: Doc, now: int)
    requires !Busy(TranscriptMoves(ctx, doc, now, s.stall))
    ensures forall e | e in ctx.features.transcribe :: RecordingSettled(doc, e.xpath)
    ensures Good in TranscriptMoves(ctx, doc, now, s.stall) ==>
            exists e | e in ctx.features.transcribe :: HasTranscript(doc, e.xpath)
  {
    var rows, moves := ctx.features.transcribe, TranscriptMoves(ctx, doc, now, s.stall);
    forall e | e in rows ensures RecordingSettled(doc, e.xpath) {
      var i :| 0 <= i < |rows| && rows[i] == e;
      assert moves[i] in moves;
      IdleTranscriptIsSettled(ctx, doc, now, s.stall, e);
    }
    if Good in moves {
      var i :| 0 <= i < |rows| && moves[i] == Good;
      IdleTranscriptIsSettled(ctx, doc, now, s.stall, rows[i]);
      assert rows[i] in rows;
    }
  }

  /** A form with recordings to transcribe is done only over a usable transcript. */
  lemma DoneHasATranscript(ctx: Context, s: Settings, doc: Doc, now: int)
    requires Concluded(ctx, s, doc, now, Done) && ctx.features.transcribe != []
    ensures Good in TranscriptMoves(ctx, doc, now, s.stall)
  {
    var moves := TranscriptMoves(ctx, doc, now, s.stall);
    assert moves[0] in moves;
  }

  lemma TranslationsAreSettled(ctx: Context, s: Settings, doc: Doc, now: int, e: Entry<seq<string>>)
    requires PastTranslations(ctx, s, doc, now) && e in ctx.features.translate
    ensures TranslationsSettled(ctx, doc, e)
  {
    var lists, rows := TranslationLists(ctx, doc, now, s.stall), ctx.features.translate;
    var i :| 0 <= i < |rows| && rows[i] == e;
    IdleInFlat(lists, i);
    var moves := RecordingTranslationMoves(ctx, doc, now, s.stall, e);
    assert lists[i] == moves;
    if HasTranscript(doc, e.xpath) {
      TargetsAreSettled(ctx, s, doc, now, e);
    } else if !Silent(Node(doc, TranscriptOf(e.xpath))) {
      BlockedUnlessEmpty(ctx, doc, now, s.stall, e);
    }
  }

  lemma TargetsAreSettled(ctx: Context, s: Settings, doc: Doc, now: int, e: Entry<seq<string>>)
    requires HasTranscript(doc, e.xpath) && AllIdle(RecordingTranslationMoves(ctx, doc, now, s.stall, e))
    ensures forall l | l in Targets(ctx, e) ::
              var versions := Node(doc, TranslationOf(e.xpath, l)); Delivered(versions) || Exhausted(versions)
  {
    var targets := Targets(ctx, e);
    var moves := RecordingTranslationMoves(ctx, doc, now, s.stall, e);
    forall l | l in targets
      ensures var versions := Node(doc, TranslationOf(e.xpath, l)); Delivered(versions) || Exhausted(versions) {
      var j :| 0 <= j < |targets| && targets[j] == l;
      assert Idle(moves[j]) && moves[j] == TranslationMove(doc, now, s.stall, e.xpath, l);
    }
  }

  lemma QuestionsAreComplete(doc: Doc, now: int, stall: nat, xpath: string, uuids: seq<Uuid>)
    requires var moves := QuestionMoves(doc, now, stall, xpath, uuids); AllIdle(moves) && Spent !in moves
    ensures forall u | u in uuids :: State(Node(doc, AnswerOf(xpath, u))) == Complete
  {
    var moves := QuestionMoves(doc, now, stall, xpath, uuids);
    forall u | u in uuids ensures State(Node(doc, AnswerOf(xpath, u))) == Complete {
      var j :| 0 <= j < |uuids| && uuids[j] == u;
      assert Idle(moves[j]) && moves[j] == AnswerMove(doc, now, stall, xpath, u) && moves[j] in moves;
    }
  }

  lemma NotInFlat(lists: seq<seq<Move>>, i: nat, m: Move)
    requires m !in Flat(lists) && i < |lists|
    ensures m !in lists[i]
  {
    FlatMembers(lists);
  }

  lemma AnswersAreComplete(ctx: Context, s: Settings, doc: Doc, now: int, e: Entry<seq<Uuid>>)
    requires ctx.cfg.enableQual && e in ctx.features.qual
    requires !Busy(AnswerMoves(ctx, s, doc, now)) && Spent !in AnswerMoves(ctx, s, doc, now)
    ensures AnswersComplete(ctx, doc, e.xpath)
  {
    var lists, rows := AnswerLists(ctx, doc, now, s.stall), ctx.features.qual;
    var i :| 0 <= i < |rows| && rows[i] == e;
    IdleInFlat(lists, i);
    NotInFlat(lists, i, Spent);
    if HasTranscript(doc, e.xpath) {
      assert lists[i] == QuestionMoves(doc, now, s.stall, e.xpath, Questions(ctx, e.xpath));
      QuestionsAreComplete(doc, now, s.stall, e.xpath, Questions(ctx, e.xpath));
    }
  }

  lemma DoneIsComplete(ctx: Context, s: Settings, doc: Doc, now: int)
    requires Concluded(ctx, s, doc, now, Done) && ctx.features.transcribe != []
    ensures IsComplete(ctx, doc)
  {
    DoneHasATranscript(ctx, s, doc, now);
    TranscriptsAreSettled(ctx, s, doc, now);
    forall e | e in ctx.features.translate ensures TranslationsSettled(ctx, doc, e) {
      TranslationsAreSettled(ctx, s, doc, now, e);
    }
    if ctx.cfg.enableQual {
      forall e | e in ctx.features.qual ensures AnswersComplete(ctx, doc, e.xpath) {
        AnswersAreComplete(ctx, s, doc, now, e);
      }
    }
  }

  /** However a run went, a job found done at its end is complete. */
  lemma DoneRunsAreComplete(s: Settings, ctx: Context, run: seq<World>)
    requires Sound(ctx) && IsRun(s, ctx, run) && HasRecordings(ctx) && ctx.features.transcribe != []
    requires Last(run).job.stage == Done
    ensures IsComplete(ctx, Last(run).doc)
  {
    RunIsTruthful(s, ctx, run);
    DoneIsComplete(ctx, s, Last(run).doc, Last(run).now);
  }

  // ---- parked or done ---------------------------------------------------------------------

  ghost predicate AnyTranscript(ctx: Context, doc: Doc) {
    exists e | e in ctx.features.transcribe :: HasTranscript(doc, e.xpath)
  }

  /** A question that is put to a recording with a usable transcript. */
  predicate IsPut(ctx: Context, doc: Doc, e: Entry<seq<Uuid>>, u: Uuid) {
    e in ctx.features.qual && HasTranscript(doc, e.xpath) && u in Questions(ctx, e.xpath)
  }

  /** Some question that is put is in this state. */
  ghost predicate AnyAnswer(ctx: Context, doc: Doc, state: seq<Version> -> bool) {
    exists e, u :: IsPut(ctx, doc, e, u) && state(Node(doc, AnswerOf(e.xpath, u)))
  }

  function Answered(): seq<Version> -> bool {
    versions => State(versions) == Complete
  }

  function GivenUp(): seq<Version> -> bool {
    versions => Exhausted(versions)
  }

  ghost predicate AnySkipped(ctx: Context, doc: Doc) {
    exists e | e in ctx.features.qual :: !HasTranscript(doc, e.xpath)
  }

  /** Nothing could be transcribed; or an answer failed twice in a row; or there was no transcript to answer anything
      from. */
  ghost predicate Hopeless(ctx: Context, doc: Doc) {
    if AnyTranscript(ctx, doc)
    then ctx.cfg.enableQual &&
      (AnyAnswer(ctx, doc, GivenUp()) || (AnySkipped(ctx, doc) && !AnyAnswer(ctx, doc, Answered())))
    else ctx.features.transcribe != []
  }

  lemma AcceptedIsComplete(versions: seq<Version>, now: int)
    requires InOrder(versions, now) && Accepted(versions)
    ensures State(versions) == Complete
  {
    SortedStays(versions);
    assert Last(versions) in versions;
  }

  lemma GoodMoveIff(ctx: Context, doc: Doc, now: int, stall: nat, e: Entry<string>)
    requires DocInOrder(doc, now)
    ensures TranscriptMove(ctx, doc, now, stall, e) == Good <==> HasTranscript(doc, e.xpath)
  {
    var versions := Node(doc, TranscriptOf(e.xpath));
    assert InOrder(versions, now);
    if Accepted(versions) {
      AcceptedIsComplete(versions, now);
    }
  }

  lemma GoodIffTranscript(ctx: Context, s: Settings, doc: Doc, now: int)
    requires DocInOrder(doc, now)
    ensures Good in TranscriptMoves(ctx, doc, now, s.stall) <==> AnyTranscript(ctx, doc)
  {
    var rows, moves := ctx.features.transcribe, TranscriptMoves(ctx, doc, now, s.stall);
    if e :| e in rows && HasTranscript(doc, e.xpath) {
      var i :| 0 <= i < |rows| && rows[i] == e;
      GoodMoveIff(ctx, doc, now, s.stall, e);
      assert moves[i] == Good;
    }
    if Good in moves {
      var i :| 0 <= i < |moves| && moves[i] == Good;
      GoodMoveIff(ctx, doc, now, s.stall, rows[i]);
      assert rows[i] in rows;
    }
  }

  lemma AnswerMoveIs(doc: Doc, now: int, stall: nat, xpath: string, uuid: Uuid)
    ensures var versions, m := Node(doc, AnswerOf(xpath, uuid)), AnswerMove(doc, now, stall, xpath, uuid);
            (m == Good <==> State(versions) == Complete) && (m == Spent <==> Exhausted(versions)) && m != Skip
  {
  }

  lemma RecordingAnswerIs(ctx: Context, doc: Doc, now: int, stall: nat, e: Entry<seq<Uuid>>, m: Move)
    requires e in ctx.features.qual && m in RecordingAnswerMoves(ctx, doc, now, stall, e.xpath)
    ensures (m == Skip && !HasTranscript(doc, e.xpath)) ||
            exists u :: IsPut(ctx, doc, e, u) && m == AnswerMove(doc, now, stall, e.xpath, u)
  {
    if HasTranscript(doc, e.xpath) {
      var uuids := Questions(ctx, e.xpath);
      var j :| 0 <= j < |uuids| && QuestionMoves(doc, now, stall, e.xpath, uuids)[j] == m;
      assert IsPut(ctx, doc, e, uuids[j]);
    }
  }

  /** A move of the analysis comes from a question that is put, or is the skipping of a recording. */
  lemma AnswerMoveIsSomeones(ctx: Context, s: Settings, doc: Doc, now: int, m: Move)
    requires m in Flat(AnswerLists(ctx, doc, now, s.stall))
    ensures (m == Skip && AnySkipped(ctx, doc)) ||
            exists e, u :: IsPut(ctx, doc, e, u) && m == AnswerMove(doc, now, s.stall, e.xpath, u)
  {
    var lists, rows := AnswerLists(ctx, doc, now, s.stall), ctx.features.qual;
    FlatMembers(lists);
    var i :| 0 <= i < |lists| && m in lists[i];
    assert rows[i] in rows;
    RecordingAnswerIs(ctx, doc, now, s.stall, rows[i], m);
  }

  lemma QuestionIsMoved(ctx: Context, s: Settings, doc: Doc, now: int, e: Entry<seq<Uuid>>, u: Uuid)
    requires IsPut(ctx, doc, e, u)
    ensures AnswerMove(doc, now, s.stall, e.xpath, u) in Flat(AnswerLists(ctx, doc, now, s.stall))
  {
    var lists, rows, uuids := AnswerLists(ctx, doc, now, s.stall), ctx.features.qual, Questions(ctx, e.xpath);
    FlatMembers(lists);
    var i :| 0 <= i < |rows| && rows[i] == e;
    var j :| 0 <= j < |uuids| && uuids[j] == u;
    assert lists[i] == QuestionMoves(doc, now, s.stall, e.xpath, uuids);
    assert lists[i][j] == AnswerMove(doc, now, s.stall, e.xpath, u);
  }

  lemma SkippedIsMoved(ctx: Context, s: Settings, doc: Doc, now: int)
    ensures Skip in Flat(AnswerLists(ctx, doc, now, s.stall)) <==> AnySkipped(ctx, doc)
  {
    var lists, rows := AnswerLists(ctx, doc, now, s.stall), ctx.features.qual;
    FlatMembers(lists);
    if e :| e in rows && !HasTranscript(doc, e.xpath) {
      var i :| 0 <= i < |rows| && rows[i] == e;
      assert lists[i] == [Skip];
    }
    if Skip in Flat(lists) {
      SkipIsSkipped(ctx, s, doc, now);
    }
  }

  lemma SkipIsSkipped(ctx: Context, s: Settings, doc: Doc, now: int)
    requires Skip in Flat(AnswerLists(ctx, doc, now, s.stall))
    ensures AnySkipped(ctx, doc)
  {
    AnswerMoveIsSomeones(ctx, s, doc, now, Skip);
    if e, u :| IsPut(ctx, doc, e, u) && Skip == AnswerMove(doc, now, s.stall, e.xpath, u) {
      AnswerMoveIs(doc, now, s.stall, e.xpath, u);
    }
  }

  lemma AnswersTell(ctx: Context, s: Settings, doc: Doc, now: int)
    ensures Good in Flat(AnswerLists(ctx, doc, now, s.stall)) <==> AnyAnswer(ctx, doc, Answered())
    ensures Spent in Flat(AnswerLists(ctx, doc, now, s.stall)) <==> AnyAnswer(ctx, doc, GivenUp())
  {
    AnswersTellOf(ctx, s, doc, now, Good, Answered());
    AnswersTellOf(ctx, s, doc, now, Spent, GivenUp());
  }

  /** Which of the two moves an action in this state gets. */
  ghost predicate Tells(m: Move, state: seq<Version> -> bool) {
    (m == Good && state == Answered()) || (m == Spent && state == GivenUp())
  }

  lemma AnswerMoveTells(doc: Doc, now: int, stall: nat, xpath: string, u: Uuid, m: Move, state: seq<Version> -> bool)
    requires Tells(m, state)
    ensures AnswerMove(doc, now, stall, xpath, u) == m <==> state(Node(doc, AnswerOf(xpath, u)))
  {
    AnswerMoveIs(doc, now, stall, xpath, u);
  }

  lemma MoveTellsOfAnswer(ctx: Context, s: Settings, doc: Doc, now: int, m: Move, state: seq<Version> -> bool)
    requires Tells(m, state) && m in Flat(AnswerLists(ctx, doc, now, s.stall))
    ensures AnyAnswer(ctx, doc, state)
  {
    AnswerMoveIsSomeones(ctx, s, doc, now, m);
    var e, u :| IsPut(ctx, doc, e, u) && m == AnswerMove(doc, now, s.stall, e.xpath, u);
    AnswerMoveTells(doc, now, s.stall, e.xpath, u, m, state);
  }

  lemma AnswersTellOf(ctx: Context, s: Settings, doc: Doc, now: int, m: Move, state: seq<Version> -> bool)
    requires Tells(m, state)
    ensures m in Flat(AnswerLists(ctx, doc, now, s.stall)) <==> AnyAnswer(ctx, doc, state)
  {
    if m in Flat(AnswerLists(ctx, doc, now, s.stall)) {
      MoveTellsOfAnswer(ctx, s, doc, now, m, state);
    }
    if e, u :| IsPut(ctx, doc, e, u) && state(Node(doc, AnswerOf(e.xpath, u))) {
      AnswerMoveTells(doc, now, s.stall, e.xpath, u, m, state);
      QuestionIsMoved(ctx, s, doc, now, e, u);
    }
  }

  lemma AnalysisParksIff(ctx: Context, s: Settings, doc: Doc, now: int)
    requires !Busy(AnswerMoves(ctx, s, doc, now))
    ensures Judge(ctx, s.asyncPoll, Qual, AnswerMoves(ctx, s, doc, now)).stage ==
            if ctx.cfg.enableQual &&
              (AnyAnswer(ctx, doc, GivenUp()) || (AnySkipped(ctx, doc) && !AnyAnswer(ctx, doc, Answered())))
            then Parked else Done
  {
    if ctx.cfg.enableQual {
      var moves := Flat(AnswerLists(ctx, doc, now, s.stall));
      assert AnswerMoves(ctx, s, doc, now) == moves;
      AnswersTell(ctx, s, doc, now);
      SkippedIsMoved(ctx, s, doc, now);
    }
  }

  /** A concluded job is parked exactly when it is hopeless, and done otherwise. */
  lemma ParkedIffHopeless(ctx: Context, s: Settings, doc: Doc, now: int, end: Stage)
    requires Concluded(ctx, s, doc, now, end) && DocInOrder(doc, now)
    ensures end == if Hopeless(ctx, doc) then Parked else Done
  {
    GoodIffTranscript(ctx, s, doc, now);
    if AnyTranscript(ctx, doc) {
      AnalysisParksIff(ctx, s, doc, now);
    } else {
      NoTranscriptEnds(ctx, s, doc, now);
    }
  }

  lemma NoTranscriptEnds(ctx: Context, s: Settings, doc: Doc, now: int)
    requires var moves := TranscriptMoves(ctx, doc, now, s.stall); !Busy(moves) && Good !in moves
    ensures JudgeTranscripts(ctx, s.asyncPoll, TranscriptMoves(ctx, doc, now, s.stall)).stage ==
            if ctx.features.transcribe != [] then Parked else Done
  {
    var moves := TranscriptMoves(ctx, doc, now, s.stall);
    if moves != [] {
      assert moves[0] in moves && moves[0] == TranscriptMove(ctx, doc, now, s.stall, ctx.features.transcribe[0]);
    }
  }

  // ---- replay ------------------------------------------------------------------------

  /** The document is concluded with this end, and the job is on its way there: new, or there, or parked. */
  ghost predicate Over(s: Settings, ctx: Context, w: World, end: Stage) {
    Concluded(ctx, s, w.doc, w.now, end) && (w.job.stage == New || w.job.stage == end || w.job.stage == Parked)
  }

  ghost predicate NoNewRequests(w: World, w': World) {
    w'.stats.carried == w.stats.carried && w'.ledger == w.ledger
  }

  lemma ReplayPlan(s: Settings, ctx: Context, w: World, end: Stage)
    requires Over(s, ctx, w, end) && !Terminal(w.job.stage)
    ensures RunStage(ctx, s, w.doc, w.now, w.job.stage, CHAIN_LIMIT) == Chain([], Verdict(end, 0))
  {
    ConcludedReplays(ctx, s, w.doc, w.now, end, CHAIN_LIMIT);
  }

  lemma ReplaySendsNothing(s: Settings, ctx: Context, w: World, trouble: Option<Trouble>, end: Stage)
    requires Over(s, ctx, w, end) && CanPass(s, ctx, w, trouble)
    ensures PassPatches(s, ctx, w.job, w.doc, w.now, trouble) == []
  {
    ReplayPlan(s, ctx, w, end);
    assert Plan(s, ctx, w.job, w.doc, w.now).patches == [];
  }

  lemma ReplayRowAfter(s: Settings, ctx: Context, job: Job, now: int, trouble: Option<Trouble>, end: Stage)
    requires HasRecordings(ctx)
    ensures var row := RowAfter(s, ctx, job, now, trouble, Chain([], Verdict(end, 0)));
            (row.stage == job.stage || row.stage == end || row.stage == Parked) &&
            (trouble.None? && Works(s, ctx, job, now) ==> row.stage == end)
  {
  }

  /** A pass over a concluded document: trouble leaves the job waiting or parked, the handlers reach the same end at
      once. */
  lemma ReplayRow(s: Settings, ctx: Context, w: World, trouble: Option<Trouble>, end: Stage)
    requires CanPass(s, ctx, w, trouble) && HasRecordings(ctx)
    requires RunStage(ctx, s, w.doc, w.now, w.job.stage, CHAIN_LIMIT) == Chain([], Verdict(end, 0))
    ensures var row := PassRow(s, ctx, w.job, w.doc, w.now, trouble);
            (row.stage == w.job.stage || row.stage == end || row.stage == Parked) &&
            (trouble.None? && Works(s, ctx, w.job, w.now) ==> row.stage == end)
  {
    ReplayRowAfter(s, ctx, w.job, w.now, trouble, end);
  }

  lemma ReplayPass(s: Settings, ctx: Context, w: World, trouble: Option<Trouble>, end: Stage)
    requires Over(s, ctx, w, end) && CanPass(s, ctx, w, trouble) && HasRecordings(ctx)
    ensures var w' := AfterPass(s, ctx, w, trouble);
            Over(s, ctx, w', end) && w'.stats.carried == w.stats.carried && w'.ledger == w.ledger
  {
    ReplaySendsNothing(s, ctx, w, trouble, end);
    ReplayPlan(s, ctx, w, end);
    ReplayRow(s, ctx, w, trouble, end);
  }

  lemma ReplayStep(s: Settings, ctx: Context, w: World, w': World, end: Stage)
    requires Orderly(w) && Over(s, ctx, w, end) && Next(s, ctx, w, w') && HasRecordings(ctx)
    ensures Over(s, ctx, w', end) && NoNewRequests(w, w')
  {
    if PassStep(s, ctx, w, w') {
      var trouble :| CanPass(s, ctx, w, trouble) && w' == AfterPass(s, ctx, w, trouble);
      ReplayPass(s, ctx, w, trouble, end);
    } else {
      QuietStepIsLater(s, ctx, w, w');
      LaterKeepsConclusion(ctx, s, w.doc, w.now, w'.doc, w'.now, end);
    }
  }

  lemma LastStep(s: Settings, ctx: Context, run: seq<World>, i: nat)
    requires Sound(ctx) && IsRun(s, ctx, run) && i < |run| - 1
    ensures IsRun(s, ctx, Front(run)) && Front(run)[i] == run[i] && Orderly(Last(Front(run))) &&
            Next(s, ctx, Last(Front(run)), Last(run))
  {
    RunIsOrderly(s, ctx, Front(run));
  }

  lemma {:induction false} ReplayFrom(s: Settings, ctx: Context, run: seq<World>, i: nat, end: Stage)
    requires Sound(ctx) && IsRun(s, ctx, run) && HasRecordings(ctx) && i < |run| && Over(s, ctx, run[i], end)
    ensures Over(s, ctx, Last(run), end) && NoNewRequests(run[i], Last(run))
  {
    if i < |run| - 1 {
      LastStep(s, ctx, run, i);
      ReplayFrom(s, ctx, Front(run), i, end);
      ReplayStep(s, ctx, Last(Front(run)), Last(run), end);
    }
  }

  /** The handlers gave their verdict in this step: a pass met no trouble and left the job done or parked. */
  ghost predicate Verdicts(s: Settings, ctx: Context, w: World, w': World) {
    CanPass(s, ctx, w, None) && Works(s, ctx, w.job, w.now) && w' == AfterPass(s, ctx, w, None) &&
      Terminal(w'.job.stage)
  }

  lemma VerdictIsOver(s: Settings, ctx: Context, run: seq<World>, i: nat)
    requires Sound(ctx) && IsRun(s, ctx, run) && i + 1 < |run| && Verdicts(s, ctx, run[i], run[i + 1])
    ensures Over(s, ctx, run[i + 1], run[i + 1].job.stage)
  {
    var before := run[..i + 1];
    assert Last(before) == run[i];
    RunIsTruthful(s, ctx, before);
    EndingConcludes(s, ctx, run[i]);
  }

  /** In any run, a verdict parks the job exactly when the document it leaves is hopeless, and else the job is done. */
  lemma VerdictsAreRight(s: Settings, ctx: Context, run: seq<World>, i: nat)
    requires Sound(ctx) && IsRun(s, ctx, run) && i + 1 < |run| && Verdicts(s, ctx, run[i], run[i + 1])
    ensures run[i + 1].job.stage == if Hopeless(ctx, run[i + 1].doc) then Parked else Done
  {
    var so := run[..i + 2];
    assert Last(so) == run[i + 1];
    RunIsOrderly(s, ctx, so);
    VerdictIsOver(s, ctx, run, i);
    ParkedIffHopeless(ctx, s, run[i + 1].doc, run[i + 1].now, run[i + 1].job.stage);
  }

  /** Replay costs nothing: once the handlers have given a verdict, operators may send the job back as often as they
      like. No PATCH is ever carried out again, and a pass that runs its handlers reaches the same verdict from
      new. */
  lemma ReplayCostsNothing(s: Settings, ctx: Context, run: seq<World>, i: nat, trouble: Option<Trouble>)
    requires Sound(ctx) && IsRun(s, ctx, run) && i + 1 < |run| && Verdicts(s, ctx, run[i], run[i + 1])
    ensures NoNewRequests(run[i + 1], Last(run))
    ensures var w := Last(run);
            CanPass(s, ctx, w, trouble) ==>
              PassPatches(s, ctx, w.job, w.doc, w.now, trouble) == [] &&
              (trouble.None? && Works(s, ctx, w.job, w.now) ==>
                 PassRow(s, ctx, w.job, w.doc, w.now, None).stage == run[i + 1].job.stage)
  {
    var w, end := Last(run), run[i + 1].job.stage;
    VerdictIsOver(s, ctx, run, i);
    ReplayFrom(s, ctx, run, i + 1, end);
    if CanPass(s, ctx, w, trouble) {
      ReplaySendsNothing(s, ctx, w, trouble, end);
      ReplayPlan(s, ctx, w, end);
      ReplayRow(s, ctx, w, trouble, end);
    }
  }
}
