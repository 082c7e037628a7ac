/** What a stage's PATCHes have in common: each is justified by the document read, no two share a key,
    and the server admits every one of them when its turn comes. */
module Plans {
  import opened Versions
  import opened Languages
  import opened Features
  import opened Protocol
  import opened Jobs
  import opened Handlers

  /** The configuration the writers produce: one entry a recording, bare languages, nothing listed twice. */
  predicate WellFormed(f: Features) {
    && KeysDistinct(f)
    && (forall e | e in f.transcribe :: Bare(e.value))
    && (forall e | e in f.translate :: Distinct(e.value) && forall l | l in e.value :: Bare(l))
    && (forall e | e in f.qual :: Distinct(e.value))
  }

  // ---- where a PATCH comes from ------------------------------------------------

  predicate MayAsk(versions: seq<Version>, now: int, stall: nat) {
    && State(versions) != Complete
    && (State(versions) == InProgress ==> StalledFor(versions, now) > stall)
    && (State(versions) == Failed ==> Streak(Ordered(versions)) < MAX_ACTION_FAILURES)
  }

  predicate MayTake(versions: seq<Version>) {
    State(versions) == Complete && !Accepted(versions)
  }

  predicate HasTranscript(doc: Doc, xpath: string) {
    var transcript := Node(doc, TranscriptOf(xpath));
    Accepted(transcript) && !Silent(transcript)
  }

  /** The recording, and the language or question, that a PATCH is about is configured. */
  ghost predicate Named(ctx: Context, p: Patch) {
    match p
    case AskTranscript(x, l, _) => exists e :: e in ctx.features.transcribe && e.xpath == x && Base(e.value) == l
    case AcceptTranscript(x, l, _) => exists e :: e in ctx.features.transcribe && e.xpath == x && Base(e.value) == l
    case AskTranslation(x, l) => exists e :: e in ctx.features.translate && e.xpath == x && l in Targets(ctx, e)
    case AcceptTranslation(x, l) => exists e :: e in ctx.features.translate && e.xpath == x && l in Targets(ctx, e)
    case AskAnswer(x, u) => exists e :: e in ctx.features.qual && e.xpath == x && u in Questions(ctx, x)
  }

  ghost predicate Justified(ctx: Context, s: Settings, doc: Doc, now: int, p: Patch) {
    && Named(ctx, p)
    && (if IsRequest(p) then MayAsk(Node(doc, KeyOf(p)), now, s.stall) else MayTake(Node(doc, KeyOf(p))))
    && (p.AcceptTranscript? ==> !Silent(Node(doc, KeyOf(p))))
    && (p.AskTranslation? || p.AcceptTranslation? || p.AskAnswer? ==> HasTranscript(doc, p.xpath))
  }

  predicate OfStage(p: Patch, stage: Stage) {
    match stage
    case New => p.AskTranscript? || p.AcceptTranscript?
    case Transcribe => p.AskTranscript? || p.AcceptTranscript?
    case Translate => p.AskTranslation? || p.AcceptTranslation?
    case Qual => p.AskAnswer?
    case Done => false
    case Parked => false
  }

  lemma TranscriptPatch(ctx: Context, s: Settings, doc: Doc, now: int, e: Entry<string>)
    requires e in ctx.features.transcribe
    ensures var m := TranscriptMove(ctx, doc, now, s.stall, e);
            Sends(m) ==> KeyOf(m.patch) == TranscriptOf(e.xpath) && OfStage(m.patch, Transcribe) &&
                         Justified(ctx, s, doc, now, m.patch)
  {
    RequestKeepsTheRowBase(ctx.cfg.transcriptLanguage, e.value);
  }

  lemma TranslationPatch(ctx: Context, s: Settings, doc: Doc, now: int, e: Entry<seq<string>>, language: string)
    requires e in ctx.features.translate && language in Targets(ctx, e) && Bare(language) && HasTranscript(doc, e.xpath)
    ensures var m := TranslationMove(doc, now, s.stall, e.xpath, language);
            Sends(m) ==> KeyOf(m.patch) == TranslationOf(e.xpath, language) && OfStage(m.patch, Translate) &&
                         Justified(ctx, s, doc, now, m.patch)
  {
  }

  lemma AnswerPatch(ctx: Context, s: Settings, doc: Doc, now: int, e: Entry<seq<Uuid>>, uuid: Uuid)
    requires e in ctx.features.qual && uuid in Questions(ctx, e.xpath) && HasTranscript(doc, e.xpath)
    ensures var m := AnswerMove(doc, now, s.stall, e.xpath, uuid);
            Sends(m) ==> KeyOf(m.patch) == AnswerOf(e.xpath, uuid) && OfStage(m.patch, Qual) &&
                         Justified(ctx, s, doc, now, m.patch)
  {
  }

  // ---- no two PATCHes of a stage share a key ---------------------------------------

  ghost predicate Apart(moves: seq<Move>) {
    forall i, j | 0 <= i < j < |moves| && Sends(moves[i]) && Sends(moves[j]) ::
        KeyOf(moves[i].patch) != KeyOf(moves[j].patch)
  }

  ghost predicate About(moves: seq<Move>, xpath: string) {
    forall m | m in moves && Sends(m) :: KeyOf(m.patch).xpath == xpath
  }

  predicate DistinctKeysOf(ps: seq<Patch>) {
    forall i, j | 0 <= i < j < |ps| :: KeyOf(ps[i]) != KeyOf(ps[j])
  }

  lemma {:induction false} ApartPatches(moves: seq<Move>)
    requires Apart(moves)
    ensures DistinctKeysOf(Patches(moves))
  {
    if moves != [] {
      ApartPatches(Front(moves));
      if Sends(Last(moves)) {
        forall p | p in Patches(Front(moves)) ensures KeyOf(p) != KeyOf(Last(moves).patch) {
          var m :| m in Front(moves) && Sends(m) && m.patch == p;
        }
      }
    }
  }

  /** Lists about different recordings, each with its keys apart, stay apart when joined. */
  lemma {:induction false} FlatApart(lists: seq<seq<Move>>, xpaths: seq<string>)
    requires |lists| == |xpaths| && Distinct(xpaths)
    requires forall i | 0 <= i < |lists| :: Apart(lists[i]) && About(lists[i], xpaths[i])
    ensures Apart(Flat(lists))
  {
    if lists != [] {
      var n := |lists| - 1;
      FlatApart(Front(lists), Front(xpaths));
      FlatMembers(Front(lists));
      var before := Flat(Front(lists));
      forall i, j | 0 <= i < |before| && 0 <= j < |lists[n]| && Sends(before[i]) && Sends(lists[n][j])
        ensures KeyOf(before[i].patch) != KeyOf(lists[n][j].patch)
      {
        assert before[i] in before;
        var k :| 0 <= k < n && before[i] in lists[k];
        assert About(lists[k], xpaths[k]) && About(lists[n], xpaths[n]);
        assert lists[n][j] in lists[n];
      }
      assert Apart(lists[n]);
    }
  }

  lemma TranscriptMoveIsTidy(ctx: Context, s: Settings, doc: Doc, now: int, i: nat)
    requires i < |ctx.features.transcribe|
    ensures var m, x := TranscriptMoves(ctx, doc, now, s.stall)[i], ctx.features.transcribe[i].xpath;
            Sends(m) ==> KeyOf(m.patch) == TranscriptOf(x) && OfStage(m.patch, Transcribe) &&
                         Justified(ctx, s, doc, now, m.patch)
  {
    TranscriptPatch(ctx, s, doc, now, ctx.features.transcribe[i]);
  }

  lemma TranscriptsApart(ctx: Context, s: Settings, doc: Doc, now: int)
    requires WellFormed(ctx.features)
    ensures Apart(TranscriptMoves(ctx, doc, now, s.stall))
  {
    var moves := TranscriptMoves(ctx, doc, now, s.stall);
    forall i, j | 0 <= i < j < |moves| && Sends(moves[i]) && Sends(moves[j])
      ensures KeyOf(moves[i].patch) != KeyOf(moves[j].patch) {
      TranscriptMoveIsTidy(ctx, s, doc, now, i);
      TranscriptMoveIsTidy(ctx, s, doc, now, j);
    }
  }

  lemma PatchComesFrom(moves: seq<Move>, p: Patch) returns (i: nat)
    requires p in Patches(moves)
    ensures i < |moves| && Sends(moves[i]) && moves[i].patch == p
  {
    var m :| m in moves && Sends(m) && m.patch == p;
    i :| 0 <= i < |moves| && moves[i] == m;
  }

  lemma TranscriptPatchIsJustified(ctx: Context, s: Settings, doc: Doc, now: int, p: Patch)
    requires p in Patches(TranscriptMoves(ctx, doc, now, s.stall))
    ensures OfStage(p, Transcribe) && Justified(ctx, s, doc, now, p)
  {
    var i := PatchComesFrom(TranscriptMoves(ctx, doc, now, s.stall), p);
    TranscriptMoveIsTidy(ctx, s, doc, now, i);
  }

  lemma StageIsTranscripts(ctx: Context, s: Settings, doc: Doc, now: int)
    requires WellFormed(ctx.features)
    ensures Apart(TranscriptMoves(ctx, doc, now, s.stall))
    ensures forall p | p in Patches(TranscriptMoves(ctx, doc, now, s.stall)) ::
              OfStage(p, Transcribe) && Justified(ctx, s, doc, now, p)
  {
    TranscriptsApart(ctx, s, doc, now);
    forall p | p in Patches(TranscriptMoves(ctx, doc, now, s.stall))
      ensures OfStage(p, Transcribe) && Justified(ctx, s, doc, now, p) {
      TranscriptPatchIsJustified(ctx, s, doc, now, p);
    }
  }

  /** The moves of one recording: apart, about it, and each PATCH among them justified. */
  ghost predicate Tidy(ctx: Context, s: Settings, doc: Doc, now: int, stage: Stage, moves: seq<Move>, xpath: string) {
    Apart(moves) && About(moves, xpath) &&
    forall m | m in moves && Sends(m) :: OfStage(m.patch, stage) && Justified(ctx, s, doc, now, m.patch)
  }

  lemma TranslationsTidy(ctx: Context, s: Settings, doc: Doc, now: int, e: Entry<seq<string>>)
    requires WellFormed(ctx.features) && e in ctx.features.translate
    ensures Tidy(ctx, s, doc, now, Translate, RecordingTranslationMoves(ctx, doc, now, s.stall, e), e.xpath)
  {
    var targets, moves := Targets(ctx, e), RecordingTranslationMoves(ctx, doc, now, s.stall, e);
    UsableDistinct(SourceOf(ctx, e.xpath), e.value);
    if HasTranscript(doc, e.xpath) {
      forall i | 0 <= i < |moves|
        ensures Sends(moves[i]) ==> KeyOf(moves[i].patch) == TranslationOf(e.xpath, targets[i]) &&
                                    OfStage(moves[i].patch, Translate) && Justified(ctx, s, doc, now, moves[i].patch)
      {
        assert targets[i] in targets;
        TranslationPatch(ctx, s, doc, now, e, targets[i]);
      }
    }
  }

  lemma AnswersTidy(ctx: Context, s: Settings, doc: Doc, now: int, e: Entry<seq<Uuid>>)
    requires WellFormed(ctx.features) && e in ctx.features.qual
    ensures Tidy(ctx, s, doc, now, Qual, RecordingAnswerMoves(ctx, doc, now, s.stall, e.xpath), e.xpath)
  {
    var uuids, moves := Questions(ctx, e.xpath), RecordingAnswerMoves(ctx, doc, now, s.stall, e.xpath);
    LookupIs(ctx.features.qual, e);
    AnswerableDistinct(ctx.features, e.xpath, e.value);
    if HasTranscript(doc, e.xpath) {
      forall i | 0 <= i < |moves|
        ensures Sends(moves[i]) ==> KeyOf(moves[i].patch) == AnswerOf(e.xpath, uuids[i]) &&
                                    OfStage(moves[i].patch, Qual) && Justified(ctx, s, doc, now, moves[i].patch)
      {
        AnswerPatch(ctx, s, doc, now, e, uuids[i]);
      }
    }
  }

  lemma TidyLists(ctx: Context, s: Settings, doc: Doc, now: int, stage: Stage, lists: seq<seq<Move>>,
                  xpaths: seq<string>)
    requires |lists| == |xpaths| && Distinct(xpaths)
    requires forall i | 0 <= i < |lists| :: Tidy(ctx, s, doc, now, stage, lists[i], xpaths[i])
    ensures Apart(Flat(lists))
    ensures forall p | p in Patches(Flat(lists)) :: OfStage(p, stage) && Justified(ctx, s, doc, now, p)
  {
    FlatApart(lists, xpaths);
    FlatMembers(lists);
    forall p | p in Patches(Flat(lists)) ensures OfStage(p, stage) && Justified(ctx, s, doc, now, p) {
      var m :| m in Flat(lists) && Sends(m) && m.patch == p;
      var i :| 0 <= i < |lists| && m in lists[i];
      assert Tidy(ctx, s, doc, now, stage, lists[i], xpaths[i]);
    }
  }

  /** Every PATCH a stage sends is justified by the document it read, and no two are about the same action. */
  lemma StagePatchesAreJustified(ctx: Context, s: Settings, doc: Doc, now: int, stage: Stage)
    requires WellFormed(ctx.features)
    ensures DistinctKeysOf(StagePatches(ctx, s, doc, now, stage))
    ensures forall p | p in StagePatches(ctx, s, doc, now, stage) :: OfStage(p, stage) && Justified(ctx, s, doc, now, p)
  {
    match stage {
      case New => StageIsTranscripts(ctx, s, doc, now);
      case Transcribe => StageIsTranscripts(ctx, s, doc, now);
      case Translate =>
        var rows, lists := ctx.features.translate, TranslationLists(ctx, doc, now, s.stall);
        var xpaths := seq(|rows|, i requires 0 <= i < |rows| => rows[i].xpath);
        forall i | 0 <= i < |lists| ensures Tidy(ctx, s, doc, now, stage, lists[i], xpaths[i]) {
          TranslationsTidy(ctx, s, doc, now, rows[i]);
        }
        TidyLists(ctx, s, doc, now, stage, lists, xpaths);
      case Qual =>
        var rows, lists := ctx.features.qual, AnswerLists(ctx, doc, now, s.stall);
        var xpaths := seq(|rows|, i requires 0 <= i < |rows| => rows[i].xpath);
        forall i | 0 <= i < |lists| ensures Tidy(ctx, s, doc, now, stage, lists[i], xpaths[i]) {
          AnswersTidy(ctx, s, doc, now, rows[i]);
        }
        TidyLists(ctx, s, doc, now, stage, lists, xpaths);
      case Done =>
      case Parked =>
    }
    ApartPatches(Moves(ctx, doc, now, s.stall, stage));
  }

  // ---- the language of a transcript PATCH ------------------------------------------------

  /** The code that a transcript PATCH spells out in two fields. */
  predicate Spells(p: Patch, code: string) {
    (p.AskTranscript? || p.AcceptTranscript?) &&
      (p.language, if p.locale == "" then "" else SplitLanguage(p.locale).1) == SplitLanguage(code)
  }

  lemma MoveSpellsLanguage(ctx: Context, doc: Doc, now: int, stall: nat, e: Entry<string>)
    ensures var m := TranscriptMove(ctx, doc, now, stall, e);
            Sends(m) ==> m.patch.xpath == e.xpath && Spells(m.patch, AudioLanguage(ctx, e))
  {
    LocaleNamesTheRegion(AudioLanguage(ctx, e));
  }

  ghost predicate SpellsOf(ctx: Context, p: Patch, e: Entry<string>) {
    e in ctx.features.transcribe && p.xpath == e.xpath &&
      Spells(p, RequestLanguage(ctx.cfg.transcriptLanguage, e.value)) &&
    Base(e.value) == p.language
  }

  /** Every transcript PATCH, request or acceptance, spells out base and region of one recording's code:
      the form's own when it refines the row's, and else the row's. */
  lemma TranscriptPatchesSpellTheLanguage(ctx: Context, s: Settings, doc: Doc, now: int, p: Patch)
    requires p in Patches(TranscriptMoves(ctx, doc, now, s.stall))
    ensures exists e :: SpellsOf(ctx, p, e)
  {
    var i := PatchComesFrom(TranscriptMoves(ctx, doc, now, s.stall), p);
    MoveSpellsItsLanguage(ctx, doc, now, s.stall, i);
  }

  lemma MoveSpellsItsLanguage(ctx: Context, doc: Doc, now: int, stall: nat, i: nat)
    requires i < |ctx.features.transcribe| && Sends(TranscriptMoves(ctx, doc, now, stall)[i])
    ensures SpellsOf(ctx, TranscriptMoves(ctx, doc, now, stall)[i].patch, ctx.features.transcribe[i])
  {
    var e := ctx.features.transcribe[i];
    MoveSpellsLanguage(ctx, doc, now, stall, e);
    RequestKeepsTheRowBase(ctx.cfg.transcriptLanguage, e.value);
    assert e in ctx.features.transcribe;
  }
}
