/** Order independence: however the server lists an action's versions, the pipeline decides the same. */
module Listings {
  import opened Versions
  import opened Languages
  import opened Features
  import opened Protocol
  import opened Jobs
  import opened Handlers
  import opened Chaining

  /** The same distinctly dated versions, listed in any order. */
  ghost predicate SameVersions(doc: Doc, doc': Doc) {
    forall key ::
      var a, b := Node(doc, key), Node(doc', key);
      multiset(a) == multiset(b) && AllDated(a) && DistinctDates(a)
  }

  /** All that a handler reads of an action. */
  predicate ReadAlike(a: seq<Version>, b: seq<Version>, now: int) {
    State(a) == State(b) && Accepted(a) == Accepted(b) && Silent(a) == Silent(b) &&
    Streak(Ordered(a)) == Streak(Ordered(b)) && StalledFor(a, now) == StalledFor(b, now)
  }

  lemma SameReadings(doc: Doc, doc': Doc, key: Key, now: int)
    requires SameVersions(doc, doc')
    ensures ReadAlike(Node(doc, key), Node(doc', key), now)
  {
    ReadersAgree(Node(doc, key), Node(doc', key), now);
  }

  lemma SameChase(a: seq<Version>, b: seq<Version>, now: int, stall: nat, p: Patch)
    requires ReadAlike(a, b, now)
    ensures Chase(a, now, stall, p) == Chase(b, now, stall, p)
  {
  }

  lemma SameTranscriptMove(ctx: Context, doc: Doc, doc': Doc, now: int, stall: nat, e: Entry<string>)
    requires ReadAlike(Node(doc, TranscriptOf(e.xpath)), Node(doc', TranscriptOf(e.xpath)), now)
    ensures TranscriptMove(ctx, doc, now, stall, e) == TranscriptMove(ctx, doc', now, stall, e)
  {
    var a, b, language := Node(doc, TranscriptOf(e.xpath)), Node(doc', TranscriptOf(e.xpath)), AudioLanguage(ctx, e);
    SameChase(a, b, now, stall, AskTranscript(e.xpath, Base(language), Locale(language)));
  }

  lemma SameTranslationMove(doc: Doc, doc': Doc, now: int, stall: nat, xpath: string, language: string)
    requires ReadAlike(Node(doc, TranslationOf(xpath, language)), Node(doc', TranslationOf(xpath, language)), now)
    ensures TranslationMove(doc, now, stall, xpath, language) == TranslationMove(doc', now, stall, xpath, language)
  {
    var key := TranslationOf(xpath, language);
    SameChase(Node(doc, key), Node(doc', key), now, stall, AskTranslation(xpath, Base(language)));
  }

  lemma SameAnswerMove(doc: Doc, doc': Doc, now: int, stall: nat, xpath: string, uuid: Uuid)
    requires ReadAlike(Node(doc, AnswerOf(xpath, uuid)), Node(doc', AnswerOf(xpath, uuid)), now)
    ensures AnswerMove(doc, now, stall, xpath, uuid) == AnswerMove(doc', now, stall, xpath, uuid)
  {
    var key := AnswerOf(xpath, uuid);
    SameChase(Node(doc, key), Node(doc', key), now, stall, AskAnswer(xpath, uuid));
  }

  lemma SameTranscriptMoves(ctx: Context, doc: Doc, doc': Doc, now: int, stall: nat)
    requires SameVersions(doc, doc')
    ensures TranscriptMoves(ctx, doc, now, stall) == TranscriptMoves(ctx, doc', now, stall)
  {
    var rows := ctx.features.transcribe;
    forall i | 0 <= i < |rows|
      ensures TranscriptMoves(ctx, doc, now, stall)[i] == TranscriptMoves(ctx, doc', now, stall)[i]
    {
      SameReadings(doc, doc', TranscriptOf(rows[i].xpath), now);
      SameTranscriptMove(ctx, doc, doc', now, stall, rows[i]);
    }
  }

  lemma SameTargetMoves(doc: Doc, doc': Doc, now: int, stall: nat, xpath: string, targets: seq<string>)
    requires SameVersions(doc, doc')
    ensures TargetMoves(doc, now, stall, xpath, targets) == TargetMoves(doc', now, stall, xpath, targets)
  {
    forall i | 0 <= i < |targets|
      ensures TargetMoves(doc, now, stall, xpath, targets)[i] == TargetMoves(doc', now, stall, xpath, targets)[i]
    {
      SameReadings(doc, doc', TranslationOf(xpath, targets[i]), now);
      SameTranslationMove(doc, doc', now, stall, xpath, targets[i]);
    }
  }

  lemma SameQuestionMoves(doc: Doc, doc': Doc, now: int, stall: nat, xpath: string, uuids: seq<Uuid>)
    requires SameVersions(doc, doc')
    ensures QuestionMoves(doc, now, stall, xpath, uuids) == QuestionMoves(doc', now, stall, xpath, uuids)
  {
    forall i | 0 <= i < |uuids|
      ensures QuestionMoves(doc, now, stall, xpath, uuids)[i] == QuestionMoves(doc', now, stall, xpath, uuids)[i]
    {
      SameReadings(doc, doc', AnswerOf(xpath, uuids[i]), now);
      SameAnswerMove(doc, doc', now, stall, xpath, uuids[i]);
    }
  }

  lemma SameTranslationLists(ctx: Context, doc: Doc, doc': Doc, now: int, stall: nat)
    requires SameVersions(doc, doc')
    ensures TranslationLists(ctx, doc, now, stall) == TranslationLists(ctx, doc', now, stall)
  {
    var rows := ctx.features.translate;
    forall i | 0 <= i < |rows|
      ensures RecordingTranslationMoves(ctx, doc, now, stall, rows[i]) ==
              RecordingTranslationMoves(ctx, doc', now, stall, rows[i])
    {
      SameReadings(doc, doc', TranscriptOf(rows[i].xpath), now);
      SameTargetMoves(doc, doc', now, stall, rows[i].xpath, Targets(ctx, rows[i]));
    }
  }

  lemma SameAnswerLists(ctx: Context, doc: Doc, doc': Doc, now: int, stall: nat)
    requires SameVersions(doc, doc')
    ensures AnswerLists(ctx, doc, now, stall) == AnswerLists(ctx, doc', now, stall)
  {
    var rows := ctx.features.qual;
    forall i | 0 <= i < |rows|
      ensures RecordingAnswerMoves(ctx, doc, now, stall, rows[i].xpath) ==
              RecordingAnswerMoves(ctx, doc', now, stall, rows[i].xpath)
    {
      SameReadings(doc, doc', TranscriptOf(rows[i].xpath), now);
      SameQuestionMoves(doc, doc', now, stall, rows[i].xpath, Questions(ctx, rows[i].xpath));
    }
  }

  /** Every stage handler sends the same PATCHes in the same order and gives the same verdict. */
  lemma SameDecisions(ctx: Context, s: Settings, doc: Doc, doc': Doc, now: int, stage: Stage)
    requires SameVersions(doc, doc')
    ensures StagePatches(ctx, s, doc, now, stage) == StagePatches(ctx, s, doc', now, stage)
    ensures StageVerdict(ctx, s, doc, now, stage) == StageVerdict(ctx, s, doc', now, stage)
  {
    SameTranscriptMoves(ctx, doc, doc', now, s.stall);
    SameTranslationLists(ctx, doc, doc', now, s.stall);
    SameAnswerLists(ctx, doc, doc', now, s.stall);
    assert Moves(ctx, doc, now, s.stall, stage) == Moves(ctx, doc', now, s.stall, stage);
  }

  lemma SilentHandOff(ctx: Context, s: Settings, doc: Doc, now: int, stage: Stage)
    requires s.asyncPoll > 5 && Chains(stage, StageVerdict(ctx, s, doc, now, stage))
    ensures StagePatches(ctx, s, doc, now, stage) == [] && AfterStage(ctx, s, doc, now, stage) == doc
  {
    if StagePatches(ctx, s, doc, now, stage) != [] {
      HandOffSends(ctx, s, now, Point(doc, stage, 0, []));
    }
  }

  lemma SilentHandOffOn(ctx: Context, s: Settings, doc: Doc, now: int, stage: Stage, limit: nat)
    requires s.asyncPoll > 5 && limit > 1 && Chains(stage, StageVerdict(ctx, s, doc, now, stage))
    ensures RunStage(ctx, s, doc, now, stage, limit) ==
            RunStage(ctx, s, doc, now, StageVerdict(ctx, s, doc, now, stage).stage, limit - 1)
  {
    SilentHandOff(ctx, s, doc, now, stage);
    var rest := RunStage(ctx, s, doc, now, StageVerdict(ctx, s, doc, now, stage).stage, limit - 1);
    assert [] + rest.patches == rest.patches;
  }

  lemma EndOfHandOffs(ctx: Context, s: Settings, doc: Doc, now: int, stage: Stage, limit: nat)
    requires limit == 1 || (limit > 1 && !Chains(stage, StageVerdict(ctx, s, doc, now, stage)))
    ensures RunStage(ctx, s, doc, now, stage, limit) ==
            Chain(StagePatches(ctx, s, doc, now, stage), StageVerdict(ctx, s, doc, now, stage))
  {
  }

  /** So does a whole chained pass. */
  lemma {:induction false} SamePass(ctx: Context, s: Settings, doc: Doc, doc': Doc, now: int, stage: Stage, limit: nat)
    requires SameVersions(doc, doc') && s.asyncPoll > 5 && limit > 0
    ensures RunStage(ctx, s, doc, now, stage, limit) == RunStage(ctx, s, doc', now, stage, limit)
    decreases limit
  {
    var v := StageVerdict(ctx, s, doc, now, stage);
    SameDecisions(ctx, s, doc, doc', now, stage);
    if limit > 1 && Chains(stage, v) {
      SilentHandOffOn(ctx, s, doc, now, stage, limit);
      SilentHandOffOn(ctx, s, doc', now, stage, limit);
      SamePass(ctx, s, doc, doc', now, v.stage, limit - 1);
    } else {
      EndOfHandOffs(ctx, s, doc, now, stage, limit);
      EndOfHandOffs(ctx, s, doc', now, stage, limit);
    }
  }
}
