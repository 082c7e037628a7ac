/** How runs end: what is past stays past, a done job is complete, and starting a finished job over costs nothing. */
module Outcomes {
  import opened Versions
  import opened Languages
  import opened Features
  import opened Protocol
  import opened Jobs
  import opened Handlers
  import opened Plans
  import opened Safety
  import opened Runs

  // ---- a finished action stays as it is ---------------------------------------------

  lemma {:induction false} StreakGrows(before: seq<Version>, after: seq<Version>)
    requires Matured(before, after)
    ensures Streak(after) >= Streak(before)
  {
    if before != [] && Last(before).status == Failed {
      var n := |before| - 1;
      assert after[n] == before[n];
      StreakGrows(Front(before), Front(after));
    }
  }

  ghost predicate LaterNode(before: seq<Version>, now: int, after: seq<Version>, now': int) {
    now <= now' && InOrder(before, now) && InOrder(after, now') && Matured(before, after)
  }

  lemma FinishedStays(before: seq<Version>, now: int, after: seq<Version>, now': int)
    requires LaterNode(before, now, after, now')
    ensures Accepted(after) == Accepted(before)
    ensures State(before) == Complete ==> State(after) == Complete && Silent(after) == Silent(before)
    ensures Exhausted(before) ==> Exhausted(after)
    ensures Accepted(before) ==> State(before) == Complete
  {
    SortedStays(before);
    SortedStays(after);
    StreakGrows(before, after);
    if before != [] {
      var n := |before| - 1;
      assert after[n] == before[n] || Ends(before[n], after[n]);
      assert before[n] in before;
    }
  }

  /** The server has only let attempts end, and time has passed. */
  ghost predicate LaterDoc(doc: Doc, now: int, doc': Doc, now': int) {
    now <= now' && DocInOrder(doc, now) && DocInOrder(doc', now') &&
      forall key :: Matured(Node(doc, key), Node(doc', key))
  }

  lemma LaterAt(doc: Doc, now: int, doc': Doc, now': int, key: Key)
    requires LaterDoc(doc, now, doc', now')
    ensures LaterNode(Node(doc, key), now, Node(doc', key), now')
  {
  }

  predicate Idle(m: Move) {
    !Sends(m) && m != Wait
  }

  lemma IdleChaseIsExhausted(versions: seq<Version>, now: int, stall: nat, p: Patch)
    ensures Idle(Chase(versions, now, stall, p)) <==> Exhausted(versions)
    ensures Exhausted(versions) ==> Chase(versions, now, stall, p) == Spent
  {
  }

  lemma ChaseStays(before: seq<Version>, now: int, after: seq<Version>, now': int, stall: nat, p: Patch)
    requires LaterNode(before, now, after, now') && Idle(Chase(before, now, stall, p))
    ensures Chase(before, now, stall, p) == Spent == Chase(after, now', stall, p)
  {
    IdleChaseIsExhausted(before, now, stall, p);
    FinishedStays(before, now, after, now');
    IdleChaseIsExhausted(after, now', stall, p);
  }

  lemma TranscriptMoveStays(ctx: Context, doc: Doc, now: int, doc': Doc, now': int, stall: nat, e: Entry<string>)
    requires LaterDoc(doc, now, doc', now') && Idle(TranscriptMove(ctx, doc, now, stall, e))
    ensures TranscriptMove(ctx, doc', now', stall, e) == TranscriptMove(ctx, doc, now, stall, e)
  {
    var key, language := TranscriptOf(e.xpath), AudioLanguage(ctx, e);
    LaterAt(doc, now, doc', now', key);
    FinishedStays(Node(doc, key), now, Node(doc', key), now');
    if State(Node(doc, key)) != Complete {
      ChaseStays(Node(doc, key), now, Node(doc', key), now', stall,
                 AskTranscript(e.xpath, Base(language), Locale(language)));
    }
  }

  lemma TranscriptMovesStay(ctx: Context, doc: Doc, now: int, doc': Doc, now': int, stall: nat)
    requires LaterDoc(doc, now, doc', now') && !Busy(TranscriptMoves(ctx, doc, now, stall))
    ensures TranscriptMoves(ctx, doc', now', stall) == TranscriptMoves(ctx, doc, now, stall)
  {
    var rows, moves := ctx.features.transcribe, TranscriptMoves(ctx, doc, now, stall);
    forall i | 0 <= i < |rows| ensures TranscriptMoves(ctx, doc', now', stall)[i] == moves[i] {
      assert moves[i] in moves;
      TranscriptMoveStays(ctx, doc, now, doc', now', stall, rows[i]);
    }
  }

  lemma TranslationMoveStays(doc: Doc, now: int, doc': Doc, now': int, stall: nat, xpath: string, language: string)
    requires LaterDoc(doc, now, doc', now') && Idle(TranslationMove(doc, now, stall, xpath, language))
    ensures TranslationMove(doc', now', stall, xpath, language) == TranslationMove(doc, now, stall, xpath, language)
  {
    var key := TranslationOf(xpath, language);
    LaterAt(doc, now, doc', now', key);
    FinishedStays(Node(doc, key), now, Node(doc', key), now');
    if State(Node(doc, key)) != Complete {
      ChaseStays(Node(doc, key), now, Node(doc', key), now', stall, AskTranslation(xpath, Base(language)));
    }
  }

  lemma AnswerMoveStays(doc: Doc, now: int, doc': Doc, now': int, stall: nat, xpath: string, uuid: Uuid)
    requires LaterDoc(doc, now, doc', now') && Idle(AnswerMove(doc, now, stall, xpath, uuid))
    ensures AnswerMove(doc', now', stall, xpath, uuid) == AnswerMove(doc, now, stall, xpath, uuid)
  {
    var key := AnswerOf(xpath, uuid);
    LaterAt(doc, now, doc', now', key);
    FinishedStays(Node(doc, key), now, Node(doc', key), now');
    if State(Node(doc, key)) != Complete {
      ChaseStays(Node(doc, key), now, Node(doc', key), now', stall, AskAnswer(xpath, uuid));
    }
  }

  ghost predicate AllIdle(moves: seq<Move>) {
    forall i | 0 <= i < |moves| :: Idle(moves[i])
  }

  lemma TargetMovesStay(doc: Doc, now: int, doc': Doc, now': int, stall: nat, xpath: string, targets: seq<string>)
    requires LaterDoc(doc, now, doc', now') && AllIdle(TargetMoves(doc, now, stall, xpath, targets))
    ensures TargetMoves(doc', now', stall, xpath, targets) == TargetMoves(doc, now, stall, xpath, targets)
  {
    var moves := TargetMoves(doc, now, stall, xpath, targets);
    forall i | 0 <= i < |targets| ensures TargetMoves(doc', now', stall, xpath, targets)[i] == moves[i] {
      assert Idle(moves[i]);
      TranslationMoveStays(doc, now, doc', now', stall, xpath, targets[i]);
    }
  }

  lemma QuestionMovesStay(doc: Doc, now: int, doc': Doc, now': int, stall: nat, xpath: string, uuids: seq<Uuid>)
    requires LaterDoc(doc, now, doc', now') && AllIdle(QuestionMoves(doc, now, stall, xpath, uuids))
    ensures QuestionMoves(doc', now', stall, xpath, uuids) == QuestionMoves(doc, now, stall, xpath, uuids)
  {
    var moves := QuestionMoves(doc, now, stall, xpath, uuids);
    forall i | 0 <= i < |uuids| ensures QuestionMoves(doc', now', stall, xpath, uuids)[i] == moves[i] {
      assert Idle(moves[i]);
      AnswerMoveStays(doc, now, doc', now', stall, xpath, uuids[i]);
    }
  }

  lemma BlockedUnlessEmpty(ctx: Context, doc: Doc, now: int, stall: nat, e: Entry<seq<string>>)
    requires var transcript := Node(doc, TranscriptOf(e.xpath)); !Silent(transcript) && !Accepted(transcript)
    ensures Blocked in RecordingTranslationMoves(ctx, doc, now, stall, e) <==> Targets(ctx, e) != []
    ensures AllIdle(RecordingTranslationMoves(ctx, doc, now, stall, e))
  {
    if Targets(ctx, e) != [] {
      assert RecordingTranslationMoves(ctx, doc, now, stall, e)[0] == Blocked;
    }
  }

  lemma RecordingTranslationsStay(ctx: Context, doc: Doc, now: int, doc': Doc, now': int, stall: nat,
                                  e: Entry<seq<string>>)
    requires LaterDoc(doc, now, doc', now')
    requires var moves := RecordingTranslationMoves(ctx, doc, now, stall, e); AllIdle(moves) && Blocked !in moves
    ensures RecordingTranslationMoves(ctx, doc', now', stall, e) == RecordingTranslationMoves(ctx, doc, now, stall, e)
  {
    var targets, key := Targets(ctx, e), TranscriptOf(e.xpath);
    LaterAt(doc, now, doc', now', key);
    FinishedStays(Node(doc, key), now, Node(doc', key), now');
    if HasTranscript(doc, e.xpath) {
      TargetMovesStay(doc, now, doc', now', stall, e.xpath, targets);
    } else if !Silent(Node(doc, key)) {
      BlockedUnlessEmpty(ctx, doc, now, stall, e);
    }
  }

  lemma RecordingAnswersStay(ctx: Context, doc: Doc, now: int, doc': Doc, now': int, stall: nat, xpath: string)
    requires LaterDoc(doc, now, doc', now') && AllIdle(RecordingAnswerMoves(ctx, doc, now, stall, xpath))
    ensures RecordingAnswerMoves(ctx, doc', now', stall, xpath) == RecordingAnswerMoves(ctx, doc, now, stall, xpath)
  {
    var key := TranscriptOf(xpath);
    LaterAt(doc, now, doc', now', key);
    FinishedStays(Node(doc, key), now, Node(doc', key), now');
    if HasTranscript(doc, xpath) {
      QuestionMovesStay(doc, now, doc', now', stall, xpath, Questions(ctx, xpath));
    }
  }

  lemma IdleInFlat(lists: seq<seq<Move>>, i: nat)
    requires !Busy(Flat(lists)) && i < |lists|
    ensures AllIdle(lists[i]) && (Blocked !in Flat(lists) ==> Blocked !in lists[i])
  {
    FlatMembers(lists);
    forall j | 0 <= j < |lists[i]| ensures Idle(lists[i][j]) {
      assert lists[i][j] in Flat(lists);
    }
  }

  lemma TranslationListsStay(ctx: Context, doc: Doc, now: int, doc': Doc, now': int, stall: nat)
    requires LaterDoc(doc, now, doc', now')
    requires var moves := Flat(TranslationLists(ctx, doc, now, stall)); !Busy(moves) && Blocked !in moves
    ensures TranslationLists(ctx, doc', now', stall) == TranslationLists(ctx, doc, now, stall)
  {
    var rows, lists := ctx.features.translate, TranslationLists(ctx, doc, now, stall);
    forall i | 0 <= i < |rows| ensures TranslationLists(ctx, doc', now', stall)[i] == lists[i] {
      IdleInFlat(lists, i);
      RecordingTranslationsStay(ctx, doc, now, doc', now', stall, rows[i]);
    }
  }

  lemma AnswerListsStay(ctx: Context, doc: Doc, now: int, doc': Doc, now': int, stall: nat)
    requires LaterDoc(doc, now, doc', now') && !Busy(Flat(AnswerLists(ctx, doc, now, stall)))
    ensures AnswerLists(ctx, doc', now', stall) == AnswerLists(ctx, doc, now, stall)
  {
    var rows, lists := ctx.features.qual, AnswerLists(ctx, doc, now, stall);
    forall i | 0 <= i < |rows| ensures AnswerLists(ctx, doc', now', stall)[i] == lists[i] {
      IdleInFlat(lists, i);
      RecordingAnswersStay(ctx, doc, now, doc', now', stall, rows[i].xpath);
    }
  }

  // ---- what is past stays past -------------------------------------------------------------

  /** No recording waits for transcription any more, and at least one transcript is usable. */
  ghost predicate PastTranscripts(ctx: Context, s: Settings, doc: Doc, now: int) {
    var moves := TranscriptMoves(ctx, doc, now, s.stall);
    !Busy(moves) && Good in moves
  }

  /** No translation is outstanding, and none lacks its transcript. */
  ghost predicate PastTranslations(ctx: Context, s: Settings, doc: Doc, now: int) {
    var moves := Flat(TranslationLists(ctx, doc, now, s.stall));
    !Busy(moves) && Blocked !in moves
  }

  ghost predicate StageFacts(ctx: Context, s: Settings, doc: Doc, now: int, stage: Stage) {
    match stage
    case New => true
    case Transcribe => true
    case Translate => PastTranscripts(ctx, s, doc, now)
    case Qual => PastTranscripts(ctx, s, doc, now) && PastTranslations(ctx, s, doc, now)
    case Done => true
    case Parked => true
  }

  lemma {:induction false} NothingToSend(moves: seq<Move>)
    requires !Busy(moves)
    ensures Patches(moves) == []
  {
    if moves != [] {
      assert Last(moves) in moves;
      NothingToSend(Front(moves));
    }
  }

  lemma SameTranscripts(ctx: Context, doc: Doc, doc': Doc, now: int, stall: nat)
    requires forall x :: Node(doc', TranscriptOf(x)) == Node(doc, TranscriptOf(x))
    ensures TranscriptMoves(ctx, doc', now, stall) == TranscriptMoves(ctx, doc, now, stall)
  {
    var rows := ctx.features.transcribe;
    forall i | 0 <= i < |rows|
      ensures TranscriptMove(ctx, doc', now, stall, rows[i]) == TranscriptMove(ctx, doc, now, stall, rows[i]) {
    }
  }

  lemma SameTranslations(ctx: Context, doc: Doc, doc': Doc, now: int, stall: nat)
    requires forall x :: Node(doc', TranscriptOf(x)) == Node(doc, TranscriptOf(x))
    requires forall x, l :: Node(doc', TranslationOf(x, l)) == Node(doc, TranslationOf(x, l))
    ensures TranslationLists(ctx, doc', now, stall) == TranslationLists(ctx, doc, now, stall)
  {
    var rows := ctx.features.translate;
    forall i | 0 <= i < |rows|
      ensures RecordingTranslationMoves(ctx, doc', now, stall, rows[i]) ==
              RecordingTranslationMoves(ctx, doc, now, stall, rows[i])
    {
      var targets := Targets(ctx, rows[i]);
      assert TargetMoves(doc', now, stall, rows[i].xpath, targets) ==
             TargetMoves(doc, now, stall, rows[i].xpath, targets);
    }
  }

  /** A stage's PATCHes leave alone the actions of the other stages. */
  lemma OtherStagesUntouched(ctx: Context, s: Settings, doc: Doc, now: int, stage: Stage, n: nat, key: Key)
    requires WellFormed(ctx.features) && n <= |StagePatches(ctx, s, doc, now, stage)|
    requires (stage == Translate ==> !key.TranslationOf?) && (stage == Qual ==> !key.AnswerOf?)
    requires (stage == New || stage == Transcribe) ==> !key.TranscriptOf?
    ensures Node(ApplyAll(doc, StagePatches(ctx, s, doc, now, stage)[..n], now), key) == Node(doc, key)
  {
    StageOnKey(ctx, s, doc, now, stage, n, key);
  }

  lemma StageKeepsPast(ctx: Context, s: Settings, doc: Doc, now: int, stage: Stage, n: nat)
    requires WellFormed(ctx.features) && n <= |StagePatches(ctx, s, doc, now, stage)|
    requires PastTranscripts(ctx, s, doc, now)
    ensures var doc' := ApplyAll(doc, StagePatches(ctx, s, doc, now, stage)[..n], now);
            PastTranscripts(ctx, s, doc', now) &&
              (PastTranslations(ctx, s, doc, now) ==> PastTranslations(ctx, s, doc', now))
  {
    var doc' := ApplyAll(doc, StagePatches(ctx, s, doc, now, stage)[..n], now);
    if stage == New || stage == Transcribe || (stage == Translate && PastTranslations(ctx, s, doc, now)) {
      NothingToSend(Moves(ctx, doc, now, s.stall, stage));
    } else {
      forall x ensures Node(doc', TranscriptOf(x)) == Node(doc, TranscriptOf(x)) {
        OtherStagesUntouched(ctx, s, doc, now, stage, n, TranscriptOf(x));
      }
      SameTranscripts(ctx, doc, doc', now, s.stall);
      if stage != Translate {
        forall x, l ensures Node(doc', TranslationOf(x, l)) == Node(doc, TranslationOf(x, l)) {
          OtherStagesUntouched(ctx, s, doc, now, stage, n, TranslationOf(x, l));
        }
        SameTranslations(ctx, doc, doc', now, s.stall);
      }
    }
  }

  /** What is past on one document is past on the other. */
  ghost predicate KeepsPast(ctx: Context, s: Settings, doc: Doc, doc': Doc, now: int) {
    PastTranscripts(ctx, s, doc, now) ==>
      PastTranscripts(ctx, s, doc', now) && (PastTranslations(ctx, s, doc, now) ==> PastTranslations(ctx, s, doc', now))
  }

  lemma PartStageKeepsPast(ctx: Context, s: Settings, doc: Doc, now: int, stage: Stage, n: nat)
    requires WellFormed(ctx.features) && n <= |StagePatches(ctx, s, doc, now, stage)|
    ensures KeepsPast(ctx, s, doc, ApplyAll(doc, StagePatches(ctx, s, doc, now, stage)[..n], now), now)
  {
    if PastTranscripts(ctx, s, doc, now) {
      StageKeepsPast(ctx, s, doc, now, stage, n);
    }
  }

  lemma WholeStageKeepsPast(ctx: Context, s: Settings, doc: Doc, now: int, stage: Stage)
    requires WellFormed(ctx.features)
    ensures KeepsPast(ctx, s, doc, AfterStage(ctx, s, doc, now, stage), now)
  {
    var ps := StagePatches(ctx, s, doc, now, stage);
    assert ps[..|ps|] == ps;
    PartStageKeepsPast(ctx, s, doc, now, stage, |ps|);
  }

  lemma KeepsPastInTwo(ctx: Context, s: Settings, doc: Doc, mid: Doc, end: Doc, now: int)
    requires KeepsPast(ctx, s, doc, mid, now) && KeepsPast(ctx, s, mid, end, now)
    ensures KeepsPast(ctx, s, doc, end, now)
  {
  }

  lemma {:induction false} ChainKeepsPast(ctx: Context, s: Settings, doc: Doc, now: int, stage: Stage, limit: nat,
                                          n: nat)
    requires WellFormed(ctx.features) && limit > 0 && n <= |RunStage(ctx, s, doc, now, stage, limit).patches|
    ensures KeepsPast(ctx, s, doc, ApplyAll(doc, RunStage(ctx, s, doc, now, stage, limit).patches[..n], now), now)
    decreases limit
  {
    var ps, v := StagePatches(ctx, s, doc, now, stage), StageVerdict(ctx, s, doc, now, stage);
    ChainPrefix(ctx, s, doc, now, stage, limit, n);
    if n > |ps| {
      var after := AfterStage(ctx, s, doc, now, stage);
      WholeStageKeepsPast(ctx, s, doc, now, stage);
      ChainKeepsPast(ctx, s, after, now, v.stage, limit - 1, n - |ps|);
      KeepsPastInTwo(ctx, s, doc, after,
                     ApplyAll(after, RunStage(ctx, s, after, now, v.stage, limit - 1).patches[..n - |ps|], now), now);
    } else {
      PartStageKeepsPast(ctx, s, doc, now, stage, n);
    }
  }

  lemma LaterKeepsFacts(ctx: Context, s: Settings, doc: Doc, now: int, doc': Doc, now': int, stage: Stage)
    requires LaterDoc(doc, now, doc', now') && StageFacts(ctx, s, doc, now, stage)
    ensures StageFacts(ctx, s, doc', now', stage)
  {
    if stage == Translate || stage == Qual {
      TranscriptMovesStay(ctx, doc, now, doc', now', s.stall);
    }
    if stage == Qual {
      TranslationListsStay(ctx, doc, now, doc', now', s.stall);
    }
  }

  // ---- conclusions ---------------------------------------------------------------------------

  function AnswerMoves(ctx: Context, s: Settings, doc: Doc, now: int): seq<Move> {
    Moves(ctx, doc, now, s.stall, Qual)
  }

  /** The document alone decides that the job is over, and how: nothing in it is left to send or to wait for. */
  ghost predicate Concluded(ctx: Context, s: Settings, doc: Doc, now: int, end: Stage) {
    var transcripts := TranscriptMoves(ctx, doc, now, s.stall);
    && Terminal(end)
    && !Busy(transcripts)
    && if Good !in transcripts then end == JudgeTranscripts(ctx, s.asyncPoll, transcripts).stage
       else
         && PastTranslations(ctx, s, doc, now)
         && !Busy(AnswerMoves(ctx, s, doc, now))
         && end == Judge(ctx, s.asyncPoll, Qual, AnswerMoves(ctx, s, doc, now)).stage
  }

  /** Stage a has nothing to send and hands the job to stage b. */
  ghost predicate HandsOver(ctx: Context, s: Settings, doc: Doc, now: int, a: Stage, b: Stage) {
    StagePatches(ctx, s, doc, now, a) == [] && StageVerdict(ctx, s, doc, now, a) == Verdict(b, 2) && a != b &&
      !Terminal(b)
  }

  /** Stage a has nothing to send and ends the job. */
  ghost predicate EndsAt(ctx: Context, s: Settings, doc: Doc, now: int, a: Stage, end: Stage) {
    StagePatches(ctx, s, doc, now, a) == [] && StageVerdict(ctx, s, doc, now, a) == Verdict(end, 0) && Terminal(end)
  }

  lemma EndOfChain(ctx: Context, s: Settings, doc: Doc, now: int, a: Stage, end: Stage, limit: nat)
    requires limit > 0 && EndsAt(ctx, s, doc, now, a, end)
    ensures RunStage(ctx, s, doc, now, a, limit) == Chain([], Verdict(end, 0))
  {
  }

  lemma OneHandOver(ctx: Context, s: Settings, doc: Doc, now: int, a: Stage, b: Stage, limit: nat)
    requires limit > 1 && HandsOver(ctx, s, doc, now, a, b)
    ensures RunStage(ctx, s, doc, now, a, limit) == RunStage(ctx, s, doc, now, b, limit - 1)
  {
    assert [] + RunStage(ctx, s, doc, now, b, limit - 1).patches == RunStage(ctx, s, doc, now, b, limit - 1).patches;
  }

  lemma TwoStageChain(ctx: Context, s: Settings, doc: Doc, now: int, a: Stage, b: Stage, end: Stage, limit: nat)
    requires limit > 1 && HandsOver(ctx, s, doc, now, a, b) && EndsAt(ctx, s, doc, now, b, end)
    ensures RunStage(ctx, s, doc, now, a, limit) == Chain([], Verdict(end, 0))
  {
    EndOfChain(ctx, s, doc, now, b, end, limit - 1);
    OneHandOver(ctx, s, doc, now, a, b, limit);
  }

  lemma ThreeStageChain(ctx: Context, s: Settings, doc: Doc, now: int, a: Stage, b: Stage, c: Stage, end: Stage,
                        limit: nat)
    requires limit > 2 && HandsOver(ctx, s, doc, now, a, b) && HandsOver(ctx, s, doc, now, b, c) &&
             EndsAt(ctx, s, doc, now, c, end)
    ensures RunStage(ctx, s, doc, now, a, limit) == Chain([], Verdict(end, 0))
  {
    TwoStageChain(ctx, s, doc, now, b, c, end, limit - 1);
    OneHandOver(ctx, s, doc, now, a, b, limit);
  }

  lemma AnalysisEnds(ctx: Context, s: Settings, doc: Doc, now: int, end: Stage)
    requires !Busy(AnswerMoves(ctx, s, doc, now))
    requires end == Judge(ctx, s.asyncPoll, Qual, AnswerMoves(ctx, s, doc, now)).stage
    ensures EndsAt(ctx, s, doc, now, Qual, end)
  {
    NothingToSend(AnswerMoves(ctx, s, doc, now));
  }

  lemma TranslationHandsOver(ctx: Context, s: Settings, doc: Doc, now: int)
    requires PastTranslations(ctx, s, doc, now)
    ensures HandsOver(ctx, s, doc, now, Translate, Qual)
  {
    NothingToSend(Flat(TranslationLists(ctx, doc, now, s.stall)));
  }

  lemma TranscriptionHandsOver(ctx: Context, s: Settings, doc: Doc, now: int)
    requires PastTranscripts(ctx, s, doc, now)
    ensures HandsOver(ctx, s, doc, now, New, if ctx.features.translate != [] then Translate else Qual)
  {
    NothingToSend(TranscriptMoves(ctx, doc, now, s.stall));
  }

  lemma TranscriptionEnds(ctx: Context, s: Settings, doc: Doc, now: int, end: Stage)
    requires Concluded(ctx, s, doc, now, end) && Good !in TranscriptMoves(ctx, doc, now, s.stall)
    ensures EndsAt(ctx, s, doc, now, New, end)
  {
    NothingToSend(TranscriptMoves(ctx, doc, now, s.stall));
  }

  /** A job over a concluded document, started anew, sends nothing and reaches the same end in one chained pass. */
  lemma ConcludedReplays(ctx: Context, s: Settings, doc: Doc, now: int, end: Stage, limit: nat)
    requires Concluded(ctx, s, doc, now, end) && limit >= 3
    ensures RunStage(ctx, s, doc, now, New, limit) == Chain([], Verdict(end, 0))
  {
    if Good !in TranscriptMoves(ctx, doc, now, s.stall) {
      TranscriptionEnds(ctx, s, doc, now, end);
      EndOfChain(ctx, s, doc, now, New, end, limit);
    } else {
      PastReplays(ctx, s, doc, now, end, limit);
    }
  }

  lemma PastReplays(ctx: Context, s: Settings, doc: Doc, now: int, end: Stage, limit: nat)
    requires PastTranscripts(ctx, s, doc, now) && PastTranslations(ctx, s, doc, now) && limit >= 3
    requires !Busy(AnswerMoves(ctx, s, doc, now))
    requires end == Judge(ctx, s.asyncPoll, Qual, AnswerMoves(ctx, s, doc, now)).stage
    ensures RunStage(ctx, s, doc, now, New, limit) == Chain([], Verdict(end, 0))
  {
    TranscriptionHandsOver(ctx, s, doc, now);
    AnalysisEnds(ctx, s, doc, now, end);
    if ctx.features.translate == [] {
      TwoStageChain(ctx, s, doc, now, New, Qual, end, limit);
    } else {
      TranslationHandsOver(ctx, s, doc, now);
      ThreeStageChain(ctx, s, doc, now, New, Translate, Qual, end, limit);
    }
  }

  lemma AnswersStay(ctx: Context, s: Settings, doc: Doc, now: int, doc': Doc, now': int)
    requires LaterDoc(doc, now, doc', now') && !Busy(AnswerMoves(ctx, s, doc, now))
    ensures AnswerMoves(ctx, s, doc', now') == AnswerMoves(ctx, s, doc, now)
  {
    if ctx.cfg.enableQual {
      AnswerListsStay(ctx, doc, now, doc', now', s.stall);
    }
  }

  lemma TranslationsStayPast(ctx: Context, s: Settings, doc: Doc, now: int, doc': Doc, now': int)
    requires LaterDoc(doc, now, doc', now') && PastTranslations(ctx, s, doc, now)
    ensures PastTranslations(ctx, s, doc', now')
  {
    TranslationListsStay(ctx, doc, now, doc', now', s.stall);
  }

  lemma LaterKeepsConclusion(ctx: Context, s: Settings, doc: Doc, now: int, doc': Doc, now': int, end: Stage)
    requires LaterDoc(doc, now, doc', now') && Concluded(ctx, s, doc, now, end)
    ensures Concluded(ctx, s, doc', now', end)
  {
    TranscriptMovesStay(ctx, doc, now, doc', now', s.stall);
    if Good in TranscriptMoves(ctx, doc, now, s.stall) {
      TranslationsStayPast(ctx, s, doc, now, doc', now');
      AnswersStay(ctx, s, doc, now, doc', now');
    }
  }

  /** Where a stage's verdict sends the job, the facts of the new stage hold; and a verdict that ends it is a
      conclusion. */
  ghost predicate LeadsOn(ctx: Context, s: Settings, after: Doc, now: int, v: Verdict) {
    match v.stage
    case Done => Concluded(ctx, s, after, now, Done) && v.delay == 0
    case Parked => Concluded(ctx, s, after, now, Parked) && v.delay == 0
    case _ => StageFacts(ctx, s, after, now, v.stage)
  }

  lemma TranscriptsLeadOn(ctx: Context, s: Settings, doc: Doc, now: int, stage: Stage)
    requires !Busy(TranscriptMoves(ctx, doc, now, s.stall)) && (stage == New || stage == Transcribe)
    ensures LeadsOn(ctx, s, doc, now, StageVerdict(ctx, s, doc, now, stage))
  {
    if ctx.features.translate == [] {
      assert TranslationLists(ctx, doc, now, s.stall) == [];
    }
  }

  lemma TranslationsLeadOn(ctx: Context, s: Settings, doc: Doc, now: int)
    requires !Busy(Moves(ctx, doc, now, s.stall, Translate)) && PastTranscripts(ctx, s, doc, now)
    ensures LeadsOn(ctx, s, doc, now, StageVerdict(ctx, s, doc, now, Translate))
  {
  }

  lemma AnswersLeadOn(ctx: Context, s: Settings, doc: Doc, now: int)
    requires !Busy(Moves(ctx, doc, now, s.stall, Qual)) && StageFacts(ctx, s, doc, now, Qual)
    ensures LeadsOn(ctx, s, doc, now, StageVerdict(ctx, s, doc, now, Qual))
  {
  }

  lemma BusyLeadsOn(ctx: Context, s: Settings, doc: Doc, now: int, stage: Stage)
    requires WellFormed(ctx.features) && StageFacts(ctx, s, doc, now, stage) && !Terminal(stage)
    requires Busy(Moves(ctx, doc, now, s.stall, stage))
    ensures LeadsOn(ctx, s, AfterStage(ctx, s, doc, now, stage), now, StageVerdict(ctx, s, doc, now, stage))
  {
    assert StageVerdict(ctx, s, doc, now, stage).stage == if stage == New then Transcribe else stage;
    if stage == Translate || stage == Qual {
      var ps := StagePatches(ctx, s, doc, now, stage);
      assert ps[..|ps|] == ps;
      StageKeepsPast(ctx, s, doc, now, stage, |ps|);
    }
  }

  lemma StageLeadsOn(ctx: Context, s: Settings, doc: Doc, now: int, stage: Stage)
    requires WellFormed(ctx.features) && StageFacts(ctx, s, doc, now, stage) && !Terminal(stage)
    ensures LeadsOn(ctx, s, AfterStage(ctx, s, doc, now, stage), now, StageVerdict(ctx, s, doc, now, stage))
  {
    if Busy(Moves(ctx, doc, now, s.stall, stage)) {
      BusyLeadsOn(ctx, s, doc, now, stage);
    } else {
      NothingToSend(Moves(ctx, doc, now, s.stall, stage));
      if stage == Translate {
        TranslationsLeadOn(ctx, s, doc, now);
      } else if stage == Qual {
        AnswersLeadOn(ctx, s, doc, now);
      } else {
        TranscriptsLeadOn(ctx, s, doc, now, stage);
      }
    }
  }

  lemma LeadingIsTruthful(ctx: Context, s: Settings, after: Doc, now: int, v: Verdict)
    requires LeadsOn(ctx, s, after, now, v)
    ensures StageFacts(ctx, s, after, now, v.stage)
    ensures Terminal(v.stage) ==> Concluded(ctx, s, after, now, v.stage)
  {
  }

  lemma HandedOnTruthfully(ctx: Context, s: Settings, doc: Doc, now: int, stage: Stage)
    requires WellFormed(ctx.features) && StageFacts(ctx, s, doc, now, stage) && !Terminal(stage)
    ensures var v := StageVerdict(ctx, s, doc, now, stage);
            StageFacts(ctx, s, AfterStage(ctx, s, doc, now, stage), now, v.stage)
  {
    StageLeadsOn(ctx, s, doc, now, stage);
    LeadingIsTruthful(ctx, s, AfterStage(ctx, s, doc, now, stage), now, StageVerdict(ctx, s, doc, now, stage));
  }

  lemma LastRound(ctx: Context, s: Settings, doc: Doc, now: int, stage: Stage, limit: nat)
    requires limit == 1 || (limit > 1 && !Chains(stage, StageVerdict(ctx, s, doc, now, stage)))
    ensures var r := RunStage(ctx, s, doc, now, stage, limit);
            r.verdict == StageVerdict(ctx, s, doc, now, stage) &&
              ApplyAll(doc, r.patches, now) == AfterStage(ctx, s, doc, now, stage)
  {
  }

  lemma {:induction false} ChainLeadsOn(ctx: Context, s: Settings, doc: Doc, now: int, stage: Stage, limit: nat)
    requires WellFormed(ctx.features) && StageFacts(ctx, s, doc, now, stage) && !Terminal(stage) && limit > 0
    ensures var r := RunStage(ctx, s, doc, now, stage, limit);
            LeadsOn(ctx, s, ApplyAll(doc, r.patches, now), now, r.verdict)
    decreases limit
  {
    var v := StageVerdict(ctx, s, doc, now, stage);
    if limit > 1 && Chains(stage, v) {
      var after := AfterStage(ctx, s, doc, now, stage);
      HandedOnTruthfully(ctx, s, doc, now, stage);
      ChainLeadsOn(ctx, s, after, now, v.stage, limit - 1);
      ChainInTwo(ctx, s, doc, now, stage, limit);
    } else {
      StageLeadsOn(ctx, s, doc, now, stage);
      LastRound(ctx, s, doc, now, stage, limit);
    }
  }

  lemma ChainInTwo(ctx: Context, s: Settings, doc: Doc, now: int, stage: Stage, limit: nat)
    requires limit > 1 && Chains(stage, StageVerdict(ctx, s, doc, now, stage))
    ensures var r, after := RunStage(ctx, s, doc, now, stage, limit), AfterStage(ctx, s, doc, now, stage);
            var rest := RunStage(ctx, s, after, now, StageVerdict(ctx, s, doc, now, stage).stage, limit - 1);
            r.verdict == rest.verdict && ApplyAll(doc, r.patches, now) == ApplyAll(after, rest.patches, now)
  {
    var after, v := AfterStage(ctx, s, doc, now, stage), StageVerdict(ctx, s, doc, now, stage);
    ApplyInTwo(doc, StagePatches(ctx, s, doc, now, stage), RunStage(ctx, s, after, now, v.stage, limit - 1).patches,
               now);
  }

  // ---- over runs ------------------------------------------------------------------------------

  /** What the stage of a job says about the document. A done job is a concluded one, unless the form has no
      recordings. */
  ghost predicate Truthful(s: Settings, ctx: Context, w: World) {
    && StageFacts(ctx, s, w.doc, w.now, w.job.stage)
    && (w.job.stage == Done && HasRecordings(ctx) ==> Concluded(ctx, s, w.doc, w.now, Done))
  }

  /** A step other than a pass leaves a later document. */
  lemma QuietStepIsLater(s: Settings, ctx: Context, w: World, w': World)
    requires Orderly(w) && (ClockStep(w, w') || SettleStep(w, w') || RetryStep(w, w'))
    ensures LaterDoc(w.doc, w.now, w'.doc, w'.now)
  {
    if SettleStep(w, w') {
      SettlingMatures(w.doc, w'.doc);
      SettlingKeepsOrder(w.doc, w'.doc, w.now);
    }
  }

  lemma FactsSurvive(s: Settings, ctx: Context, w: World, trouble: Option<Trouble>)
    requires Sound(ctx) && Orderly(w) && CanPass(s, ctx, w, trouble) && Works(s, ctx, w.job, w.now)
    requires StageFacts(ctx, s, w.doc, w.now, w.job.stage)
    ensures StageFacts(ctx, s, AfterPass(s, ctx, w, trouble).doc, w.now, w.job.stage)
  {
    PassPrefix(s, ctx, w.job, w.doc, w.now, trouble);
    if w.job.stage == Translate || w.job.stage == Qual {
      ChainKeepsPast(ctx, s, w.doc, w.now, w.job.stage, CHAIN_LIMIT,
                     |PassPatches(s, ctx, w.job, w.doc, w.now, trouble)|);
    }
  }

  /** A pass that runs its handlers to the end leaves the facts of the stage it moves the job to. */
  lemma WorkLeadsOn(s: Settings, ctx: Context, w: World)
    requires Sound(ctx) && CanPass(s, ctx, w, None) && Works(s, ctx, w.job, w.now)
    requires StageFacts(ctx, s, w.doc, w.now, w.job.stage)
    ensures var w' := AfterPass(s, ctx, w, None);
            w'.now == w.now && LeadsOn(ctx, s, w'.doc, w.now,
                                       RunStage(ctx, s, w.doc, w.now, w.job.stage, CHAIN_LIMIT).verdict) &&
            w'.job.stage == RunStage(ctx, s, w.doc, w.now, w.job.stage, CHAIN_LIMIT).verdict.stage
  {
    ChainLeadsOn(ctx, s, w.doc, w.now, w.job.stage, CHAIN_LIMIT);
  }

  /** A pass that ends a job leaves a concluded document. */
  lemma EndingConcludes(s: Settings, ctx: Context, w: World)
    requires Sound(ctx) && CanPass(s, ctx, w, None) && Works(s, ctx, w.job, w.now)
    requires StageFacts(ctx, s, w.doc, w.now, w.job.stage)
    ensures var w' := AfterPass(s, ctx, w, None);
            StageFacts(ctx, s, w'.doc, w.now, w'.job.stage) &&
            (Terminal(w'.job.stage) ==> Concluded(ctx, s, w'.doc, w.now, w'.job.stage))
  {
    WorkLeadsOn(s, ctx, w);
    LeadingIsTruthful(ctx, s, AfterPass(s, ctx, w, None).doc, w.now,
                      RunStage(ctx, s, w.doc, w.now, w.job.stage, CHAIN_LIMIT).verdict);
  }

  /** A pass cut short by trouble, or one that runs no handler, cannot end a job as done unless the form has no
      recordings. */
  lemma OtherPassesDoNotFinish(s: Settings, ctx: Context, w: World, trouble: Option<Trouble>)
    requires CanPass(s, ctx, w, trouble) && !(trouble.None? && Works(s, ctx, w.job, w.now))
    ensures var row := AfterPass(s, ctx, w, trouble).job;
            row.stage == w.job.stage || row.stage == Parked || (row.stage == Done && !HasRecordings(ctx))
  {
  }

  lemma PassIsTruthful(s: Settings, ctx: Context, w: World, trouble: Option<Trouble>)
    requires Sound(ctx) && Orderly(w) && Truthful(s, ctx, w) && CanPass(s, ctx, w, trouble)
    ensures Truthful(s, ctx, AfterPass(s, ctx, w, trouble))
  {
    if trouble.None? && Works(s, ctx, w.job, w.now) {
      EndingConcludes(s, ctx, w);
    } else {
      OtherPassesDoNotFinish(s, ctx, w, trouble);
      OtherPassesKeepFacts(s, ctx, w, trouble);
    }
  }

  lemma OtherPassesKeepFacts(s: Settings, ctx: Context, w: World, trouble: Option<Trouble>)
    requires Sound(ctx) && Orderly(w) && CanPass(s, ctx, w, trouble) && StageFacts(ctx, s, w.doc, w.now, w.job.stage)
    ensures StageFacts(ctx, s, AfterPass(s, ctx, w, trouble).doc, w.now, w.job.stage)
  {
    if Works(s, ctx, w.job, w.now) {
      FactsSurvive(s, ctx, w, trouble);
    } else {
      assert PassPatches(s, ctx, w.job, w.doc, w.now, trouble) == [];
    }
  }

  lemma StepIsTruthful(s: Settings, ctx: Context, w: World, w': World)
    requires Sound(ctx) && Orderly(w) && Truthful(s, ctx, w) && Next(s, ctx, w, w')
    ensures Truthful(s, ctx, w')
  {
    if PassStep(s, ctx, w, w') {
      var trouble :| CanPass(s, ctx, w, trouble) && w' == AfterPass(s, ctx, w, trouble);
      PassIsTruthful(s, ctx, w, trouble);
    } else {
      QuietStepIsLater(s, ctx, w, w');
      LaterKeepsFacts(ctx, s, w.doc, w.now, w'.doc, w'.now, w.job.stage);
      if w.job.stage == Done && HasRecordings(ctx) {
        LaterKeepsConclusion(ctx, s, w.doc, w.now, w'.doc, w'.now, Done);
      }
    }
  }

  lemma {:induction false} RunIsTruthful(s: Settings, ctx: Context, run: seq<World>)
    requires Sound(ctx) && IsRun(s, ctx, run)
    ensures Truthful(s, ctx, Last(run))
  {
    if |run| > 1 {
      RunIsTruthful(s, ctx, Front(run));
      RunIsOrderly(s, ctx, Front(run));
      StepIsTruthful(s, ctx, run[|run| - 2], run[|run| - 1]);
    }
  }
}
