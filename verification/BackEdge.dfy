/** The one way back: translation hands a job to transcription exactly when a recording to translate has no transcript
    to offer. When no attempt at one is running, the two stages hand the job to and fro until it is given up. */
module BackEdge {
  import opened Versions
  import opened Features
  import opened Protocol
  import opened Jobs
  import opened Handlers
  import opened Safety
  import opened Runs
  import opened Outcomes
  import opened Completion

  /** There is something to translate into, and no finished transcript to translate from. */
  predicate Starved(ctx: Context, doc: Doc, e: Entry<seq<string>>) {
    var transcript := Node(doc, TranscriptOf(e.xpath));
    Targets(ctx, e) != [] && !Silent(transcript) && !Accepted(transcript)
  }

  /** There is something to translate into, but transcription has failed twice in a row. */
  predicate Dead(ctx: Context, doc: Doc, e: Entry<seq<string>>) {
    Targets(ctx, e) != [] && Exhausted(Node(doc, TranscriptOf(e.xpath)))
  }

  lemma TargetsAreNotBlocked(doc: Doc, now: int, stall: nat, xpath: string, targets: seq<string>)
    ensures Blocked !in TargetMoves(doc, now, stall, xpath, targets)
  {
  }

  lemma BlockedIffStarved(ctx: Context, doc: Doc, now: int, stall: nat, e: Entry<seq<string>>)
    ensures Blocked in RecordingTranslationMoves(ctx, doc, now, stall, e) <==> Starved(ctx, doc, e)
  {
    var transcript := Node(doc, TranscriptOf(e.xpath));
    if !Silent(transcript) && !Accepted(transcript) {
      BlockedUnlessEmpty(ctx, doc, now, stall, e);
    } else {
      TargetsAreNotBlocked(doc, now, stall, e.xpath, Targets(ctx, e));
    }
  }

  lemma StarvedBlocks(ctx: Context, doc: Doc, now: int, stall: nat, e: Entry<seq<string>>)
    requires e in ctx.features.translate && Starved(ctx, doc, e)
    ensures Blocked in Flat(TranslationLists(ctx, doc, now, stall))
  {
    var rows, lists := ctx.features.translate, TranslationLists(ctx, doc, now, stall);
    var i :| 0 <= i < |rows| && rows[i] == e;
    BlockedIffStarved(ctx, doc, now, stall, e);
    FlatMembers(lists);
    assert Blocked in lists[i];
  }

  lemma BlockedStarves(ctx: Context, doc: Doc, now: int, stall: nat)
    requires Blocked in Flat(TranslationLists(ctx, doc, now, stall))
    ensures exists e | e in ctx.features.translate :: Starved(ctx, doc, e)
  {
    var rows, lists := ctx.features.translate, TranslationLists(ctx, doc, now, stall);
    FlatMembers(lists);
    var i :| 0 <= i < |lists| && Blocked in lists[i];
    BlockedIffStarved(ctx, doc, now, stall, rows[i]);
    assert rows[i] in rows;
  }

  lemma BlockedSomewhere(ctx: Context, doc: Doc, now: int, stall: nat)
    ensures Blocked in Flat(TranslationLists(ctx, doc, now, stall)) <==>
            exists e | e in ctx.features.translate :: Starved(ctx, doc, e)
  {
    if Blocked in Flat(TranslationLists(ctx, doc, now, stall)) {
      BlockedStarves(ctx, doc, now, stall);
    }
    if e :| e in ctx.features.translate && Starved(ctx, doc, e) {
      StarvedBlocks(ctx, doc, now, stall, e);
    }
  }

  /** Translation hands back exactly when it is not busy and some recording is starved. */
  lemma HandsBackIff(ctx: Context, s: Settings, doc: Doc, now: int)
    ensures StageVerdict(ctx, s, doc, now, Translate).stage == Transcribe <==>
            !Busy(Moves(ctx, doc, now, s.stall, Translate)) &&
              exists e | e in ctx.features.translate :: Starved(ctx, doc, e)
  {
    BlockedSomewhere(ctx, doc, now, s.stall);
  }

  ghost predicate IsTranscribed(ctx: Context, xpath: string) {
    exists t | t in ctx.features.transcribe :: t.xpath == xpath
  }

  /** Every recording with something to translate into is also transcribed. */
  ghost predicate AllTranscribed(ctx: Context) {
    forall e | e in ctx.features.translate && Targets(ctx, e) != [] :: IsTranscribed(ctx, e.xpath)
  }

  /** Starved, and nobody will ask for a transcript: the recording is not transcribed, or it was given up. */
  ghost predicate Forsaken(ctx: Context, doc: Doc, e: Entry<seq<string>>) {
    Starved(ctx, doc, e) && (IsTranscribed(ctx, e.xpath) ==> Exhausted(Node(doc, TranscriptOf(e.xpath))))
  }

  /** Once no transcription is outstanding, whatever is starved is forsaken. */
  lemma StarvedIsForsaken(ctx: Context, s: Settings, doc: Doc, now: int, e: Entry<seq<string>>)
    requires !Busy(TranscriptMoves(ctx, doc, now, s.stall)) && Starved(ctx, doc, e)
    ensures Forsaken(ctx, doc, e)
  {
    if t :| t in ctx.features.transcribe && t.xpath == e.xpath {
      TranscriptsAreSettled(ctx, s, doc, now);
      assert RecordingSettled(doc, t.xpath);
    }
  }

  lemma HandsBackIffForsaken(ctx: Context, s: Settings, doc: Doc, now: int)
    requires !Busy(TranscriptMoves(ctx, doc, now, s.stall))
    ensures StageVerdict(ctx, s, doc, now, Translate).stage == Transcribe <==>
            !Busy(Moves(ctx, doc, now, s.stall, Translate)) &&
              exists e | e in ctx.features.translate :: Forsaken(ctx, doc, e)
  {
    HandsBackIff(ctx, s, doc, now);
    forall e | e in ctx.features.translate ensures Starved(ctx, doc, e) <==> Forsaken(ctx, doc, e) {
      if Starved(ctx, doc, e) {
        StarvedIsForsaken(ctx, s, doc, now, e);
      }
    }
  }

  lemma ExhaustedIsStarved(ctx: Context, doc: Doc, now: int, e: Entry<seq<string>>)
    requires DocInOrder(doc, now) && Dead(ctx, doc, e)
    ensures Starved(ctx, doc, e)
  {
    SortedStays(Node(doc, TranscriptOf(e.xpath)));
  }

  /** Once no transcription is outstanding, a starved recording is one whose transcription is given up for good. */
  lemma StarvedIffDead(ctx: Context, s: Settings, doc: Doc, now: int, e: Entry<seq<string>>)
    requires AllTranscribed(ctx) && DocInOrder(doc, now) && e in ctx.features.translate
    requires !Busy(TranscriptMoves(ctx, doc, now, s.stall))
    ensures Starved(ctx, doc, e) <==> Dead(ctx, doc, e)
  {
    if Dead(ctx, doc, e) {
      ExhaustedIsStarved(ctx, doc, now, e);
    }
    if Starved(ctx, doc, e) {
      StarvedIsForsaken(ctx, s, doc, now, e);
    }
  }

  lemma HandsBackIffDead(ctx: Context, s: Settings, doc: Doc, now: int)
    requires AllTranscribed(ctx) && DocInOrder(doc, now) && !Busy(TranscriptMoves(ctx, doc, now, s.stall))
    ensures StageVerdict(ctx, s, doc, now, Translate).stage == Transcribe <==>
            !Busy(Moves(ctx, doc, now, s.stall, Translate)) &&
              exists e | e in ctx.features.translate :: Dead(ctx, doc, e)
  {
    HandsBackIff(ctx, s, doc, now);
    forall e | e in ctx.features.translate ensures Starved(ctx, doc, e) <==> Dead(ctx, doc, e) {
      StarvedIffDead(ctx, s, doc, now, e);
    }
  }

  // ---- to and fro -----------------------------------------------------------------------

  /** One recording has a usable transcript, nothing is outstanding, and another recording is starved. */
  ghost predicate ToAndFro(ctx: Context, s: Settings, doc: Doc, now: int) {
    && PastTranscripts(ctx, s, doc, now)
    && !Busy(Flat(TranslationLists(ctx, doc, now, s.stall)))
    && exists e | e in ctx.features.translate :: Starved(ctx, doc, e)
  }

  /** Starved, and no attempt at a transcript is running. */
  predicate Hungry(ctx: Context, doc: Doc, e: Entry<seq<string>>) {
    Starved(ctx, doc, e) && State(Node(doc, TranscriptOf(e.xpath))) != InProgress
  }

  /** To and fro, over a recording for which nothing can arrive any more. */
  ghost predicate Stuck(ctx: Context, s: Settings, doc: Doc, now: int) {
    DocInOrder(doc, now) && ToAndFro(ctx, s, doc, now) && exists e | e in ctx.features.translate :: Hungry(ctx, doc, e)
  }

  /** A starved recording is hungry, unless somebody else asked for a transcript that the form has no row for. */
  lemma StarvedIsHungryOrUnasked(ctx: Context, s: Settings, doc: Doc, now: int, e: Entry<seq<string>>)
    requires ToAndFro(ctx, s, doc, now) && Starved(ctx, doc, e)
    ensures Hungry(ctx, doc, e) <==>
            !(State(Node(doc, TranscriptOf(e.xpath))) == InProgress && !IsTranscribed(ctx, e.xpath))
  {
    StarvedIsForsaken(ctx, s, doc, now, e);
  }

  lemma TranscriptionHandsOn(ctx: Context, s: Settings, doc: Doc, now: int, stage: Stage)
    requires PastTranscripts(ctx, s, doc, now) && ctx.features.translate != [] && (stage == New || stage == Transcribe)
    ensures HandsOver(ctx, s, doc, now, stage, Translate)
  {
    NothingToSend(TranscriptMoves(ctx, doc, now, s.stall));
  }

  lemma IdleTranslationHandsBack(ctx: Context, s: Settings, doc: Doc, now: int)
    requires var moves := Flat(TranslationLists(ctx, doc, now, s.stall)); !Busy(moves) && Blocked in moves
    ensures HandsOver(ctx, s, doc, now, Translate, Transcribe)
  {
    NothingToSend(Flat(TranslationLists(ctx, doc, now, s.stall)));
  }

  lemma TranslationHandsBack(ctx: Context, s: Settings, doc: Doc, now: int)
    requires ToAndFro(ctx, s, doc, now)
    ensures HandsOver(ctx, s, doc, now, Translate, Transcribe)
  {
    BlockedSomewhere(ctx, doc, now, s.stall);
    IdleTranslationHandsBack(ctx, s, doc, now);
  }

  lemma HandedOnIsPast(ctx: Context, s: Settings, doc: Doc, now: int)
    requires StageVerdict(ctx, s, doc, now, Transcribe).stage == Translate
    ensures PastTranscripts(ctx, s, doc, now)
  {
  }

  /** The two stages hand the job to each other over one document exactly in this case. */
  lemma HandToAndFroIff(ctx: Context, s: Settings, doc: Doc, now: int)
    ensures HandsOver(ctx, s, doc, now, Transcribe, Translate) &&
            HandsOver(ctx, s, doc, now, Translate, Transcribe) <==>
            ToAndFro(ctx, s, doc, now)
  {
    if ToAndFro(ctx, s, doc, now) {
      TranscriptionHandsOn(ctx, s, doc, now, Transcribe);
      TranslationHandsBack(ctx, s, doc, now);
    }
    if HandsOver(ctx, s, doc, now, Transcribe, Translate) && HandsOver(ctx, s, doc, now, Translate, Transcribe) {
      HandedOnIsPast(ctx, s, doc, now);
      HandsBackIff(ctx, s, doc, now);
    }
  }

  lemma OnePassOver(ctx: Context, s: Settings, doc: Doc, now: int, a: Stage, b: Stage)
    requires HandsOver(ctx, s, doc, now, a, b)
    ensures RunStage(ctx, s, doc, now, a, 1) == Chain([], Verdict(b, 2))
  {
  }

  /** Four hand-offs, a to b and back again twice, end where they began. */
  lemma ThereAndBack(ctx: Context, s: Settings, doc: Doc, now: int, start: Stage, a: Stage, b: Stage)
    requires HandsOver(ctx, s, doc, now, start, b) && HandsOver(ctx, s, doc, now, a, b) &&
             HandsOver(ctx, s, doc, now, b, a)
    ensures RunStage(ctx, s, doc, now, start, CHAIN_LIMIT) == Chain([], Verdict(a, 2))
  {
    OneHandOver(ctx, s, doc, now, start, b, 4);
    OneHandOver(ctx, s, doc, now, b, a, 3);
    OneHandOver(ctx, s, doc, now, a, b, 2);
    OnePassOver(ctx, s, doc, now, b, a);
  }

  function Rest(stage: Stage): Stage {
    if stage == New then Transcribe else stage
  }

  /** Such a pass sends nothing and ends in the stage it began in. */
  lemma StuckChain(ctx: Context, s: Settings, doc: Doc, now: int, stage: Stage)
    requires ToAndFro(ctx, s, doc, now) && (stage == New || stage == Transcribe || stage == Translate)
    ensures RunStage(ctx, s, doc, now, stage, CHAIN_LIMIT) == Chain([], Verdict(Rest(stage), 2))
  {
    TranscriptionHandsOn(ctx, s, doc, now, Transcribe);
    TranslationHandsBack(ctx, s, doc, now);
    if stage == Translate {
      ThereAndBack(ctx, s, doc, now, Translate, Translate, Transcribe);
    } else {
      TranscriptionHandsOn(ctx, s, doc, now, stage);
      ThereAndBack(ctx, s, doc, now, stage, Transcribe, Translate);
    }
  }

  lemma StuckPlan(s: Settings, ctx: Context, w: World)
    requires CanPass(s, ctx, w, None) && Works(s, ctx, w.job, w.now)
    requires RunStage(ctx, s, w.doc, w.now, w.job.stage, CHAIN_LIMIT) == Chain([], Verdict(w.job.stage, 2))
    ensures AfterPass(s, ctx, w, None).doc == w.doc
    ensures AfterPass(s, ctx, w, None).job == w.job.(failures := 0, due := w.now + 2, updated := w.now)
  {
  }

  /** The row it leaves: nothing is counted, and the job is due again in two seconds. */
  lemma StuckRow(s: Settings, ctx: Context, w: World)
    requires ToAndFro(ctx, s, w.doc, w.now) && CanPass(s, ctx, w, None) && Works(s, ctx, w.job, w.now)
    requires w.job.stage == Transcribe || w.job.stage == Translate
    ensures AfterPass(s, ctx, w, None).doc == w.doc
    ensures AfterPass(s, ctx, w, None).job == w.job.(failures := 0, due := w.now + 2, updated := w.now)
  {
    StuckChain(ctx, s, w.doc, w.now, w.job.stage);
    StuckPlan(s, ctx, w);
  }

  // ---- for good ------------------------------------------------------------------------------

  lemma RecordingStaysIdle(ctx: Context, doc: Doc, now: int, doc': Doc, now': int, stall: nat, e: Entry<seq<string>>)
    requires LaterDoc(doc, now, doc', now') && AllIdle(RecordingTranslationMoves(ctx, doc, now, stall, e))
    ensures AllIdle(RecordingTranslationMoves(ctx, doc', now', stall, e))
  {
    var key := TranscriptOf(e.xpath);
    if Blocked !in RecordingTranslationMoves(ctx, doc, now, stall, e) {
      RecordingTranslationsStay(ctx, doc, now, doc', now', stall, e);
    } else {
      BlockedIffStarved(ctx, doc, now, stall, e);
      LaterAt(doc, now, doc', now', key);
      FinishedStays(Node(doc, key), now, Node(doc', key), now');
      if !Silent(Node(doc', key)) {
        BlockedUnlessEmpty(ctx, doc', now', stall, e);
      }
    }
  }

  lemma IdleLists(lists: seq<seq<Move>>)
    requires forall i | 0 <= i < |lists| :: AllIdle(lists[i])
    ensures !Busy(Flat(lists))
  {
    FlatMembers(lists);
    forall m | m in Flat(lists) ensures Idle(m) {
      var i :| 0 <= i < |lists| && m in lists[i];
      var j :| 0 <= j < |lists[i]| && lists[i][j] == m;
    }
  }

  lemma TranslationsStayIdle(ctx: Context, doc: Doc, now: int, doc': Doc, now': int, stall: nat)
    requires LaterDoc(doc, now, doc', now') && !Busy(Flat(TranslationLists(ctx, doc, now, stall)))
    ensures !Busy(Flat(TranslationLists(ctx, doc', now', stall)))
  {
    var rows, lists, lists' := ctx.features.translate, TranslationLists(ctx, doc, now, stall),
      TranslationLists(ctx, doc', now', stall);
    forall i | 0 <= i < |lists'| ensures AllIdle(lists'[i]) {
      IdleInFlat(lists, i);
      RecordingStaysIdle(ctx, doc, now, doc', now', stall, rows[i]);
    }
    IdleLists(lists');
  }

  /** What is not running stays as it is: no later end can change the last version. */
  lemma RestingStays(before: seq<Version>, now: int, after: seq<Version>, now': int)
    requires LaterNode(before, now, after, now') && State(before) != InProgress
    ensures State(after) == State(before) && Accepted(after) == Accepted(before) && Silent(after) == Silent(before)
  {
    SortedStays(before);
    SortedStays(after);
    if before != [] {
      var n := |before| - 1;
      assert after[n] == before[n];
    }
  }

  lemma HungryStays(ctx: Context, doc: Doc, now: int, doc': Doc, now': int, e: Entry<seq<string>>)
    requires LaterDoc(doc, now, doc', now') && Hungry(ctx, doc, e)
    ensures Hungry(ctx, doc', e)
  {
    var key := TranscriptOf(e.xpath);
    LaterAt(doc, now, doc', now', key);
    RestingStays(Node(doc, key), now, Node(doc', key), now');
  }

  lemma StuckStays(ctx: Context, s: Settings, doc: Doc, now: int, doc': Doc, now': int)
    requires LaterDoc(doc, now, doc', now') && Stuck(ctx, s, doc, now)
    ensures Stuck(ctx, s, doc', now')
  {
    TranscriptMovesStay(ctx, doc, now, doc', now', s.stall);
    TranslationsStayIdle(ctx, doc, now, doc', now', s.stall);
    var e :| e in ctx.features.translate && Hungry(ctx, doc, e);
    HungryStays(ctx, doc, now, doc', now', e);
  }

  ghost predicate Circling(s: Settings, ctx: Context, w: World) {
    Stuck(ctx, s, w.doc, w.now) && w.job.stage != Qual && w.job.stage != Done
  }

  lemma SilentPlan(s: Settings, ctx: Context, w: World, trouble: Option<Trouble>)
    requires CanPass(s, ctx, w, trouble) && RunStage(ctx, s, w.doc, w.now, w.job.stage, CHAIN_LIMIT).patches == []
    ensures PassPatches(s, ctx, w.job, w.doc, w.now, trouble) == []
  {
    assert Plan(s, ctx, w.job, w.doc, w.now).patches == [];
  }

  lemma PlanIsChain(s: Settings, ctx: Context, job: Job, doc: Doc, now: int)
    requires Works(s, ctx, job, now)
    ensures Plan(s, ctx, job, doc, now) == RunStage(ctx, s, doc, now, job.stage, CHAIN_LIMIT)
  {
  }

  /** What such a pass leaves: only trouble or giving up parks the job. */
  lemma RowOfChain(s: Settings, ctx: Context, job: Job, now: int, trouble: Option<Trouble>, chain: Chain)
    requires HasRecordings(ctx) && !Terminal(chain.verdict.stage) && !Terminal(job.stage)
    ensures var stage := RowAfter(s, ctx, job, now, trouble, chain).stage;
            (stage == Parked ==> trouble.Some? || GivesUp(s, job, now)) &&
            (stage == job.stage || stage == chain.verdict.stage || stage == Parked)
  {
  }

  lemma CirclingChain(s: Settings, ctx: Context, w: World)
    requires Circling(s, ctx, w) && !Terminal(w.job.stage)
    ensures RunStage(ctx, s, w.doc, w.now, w.job.stage, CHAIN_LIMIT) == Chain([], Verdict(Rest(w.job.stage), 2))
  {
    StuckChain(ctx, s, w.doc, w.now, w.job.stage);
  }

  lemma CirclingSendsNothing(s: Settings, ctx: Context, w: World, trouble: Option<Trouble>)
    requires Circling(s, ctx, w) && CanPass(s, ctx, w, trouble)
    ensures PassPatches(s, ctx, w.job, w.doc, w.now, trouble) == []
  {
    CirclingChain(s, ctx, w);
    SilentPlan(s, ctx, w, trouble);
  }

  lemma QuietPass(s: Settings, ctx: Context, w: World, trouble: Option<Trouble>)
    requires CanPass(s, ctx, w, trouble) && PassPatches(s, ctx, w.job, w.doc, w.now, trouble) == []
    ensures var w' := AfterPass(s, ctx, w, trouble);
            w'.doc == w.doc && w'.now == w.now && NoNewRequests(w, w')
  {
  }

  lemma CirclingStays(s: Settings, ctx: Context, w: World, w': World)
    requires Circling(s, ctx, w) && w'.doc == w.doc && w'.now == w.now
    requires w'.job.stage == w.job.stage || w'.job.stage == Rest(w.job.stage) || w'.job.stage == Parked
    ensures Circling(s, ctx, w')
  {
  }

  lemma StuckPlanIs(s: Settings, ctx: Context, job: Job, doc: Doc, now: int)
    requires Stuck(ctx, s, doc, now) && (job.stage == New || job.stage == Transcribe || job.stage == Translate)
    ensures Plan(s, ctx, job, doc, now).patches == []
    ensures Plan(s, ctx, job, doc, now).verdict.stage in {job.stage, Rest(job.stage)}
  {
    if Works(s, ctx, job, now) {
      StuckChain(ctx, s, doc, now, job.stage);
      PlanIsChain(s, ctx, job, doc, now);
    }
  }

  /** The row of a circling job: where it was, where a new job goes, or parked, and that by trouble or giving up
      alone. */
  lemma CirclingRow(s: Settings, ctx: Context, job: Job, doc: Doc, now: int, trouble: Option<Trouble>)
    requires !Terminal(job.stage) && CanHappen(s, ctx, job, doc, now, trouble) && HasRecordings(ctx)
    requires Plan(s, ctx, job, doc, now).verdict.stage in {job.stage, Rest(job.stage)}
    ensures PassRow(s, ctx, job, doc, now, trouble).stage == Parked ==> trouble.Some? || GivesUp(s, job, now)
    ensures PassRow(s, ctx, job, doc, now, trouble).stage in {job.stage, Rest(job.stage), Parked}
  {
    RowOfChain(s, ctx, job, now, trouble, Plan(s, ctx, job, doc, now));
  }

  lemma CirclingAfterPass(s: Settings, ctx: Context, w: World, trouble: Option<Trouble>)
    requires Circling(s, ctx, w) && CanPass(s, ctx, w, trouble) && HasRecordings(ctx)
    ensures var w' := AfterPass(s, ctx, w, trouble); Circling(s, ctx, w') && NoNewRequests(w, w')
  {
    CirclingSendsNothing(s, ctx, w, trouble);
    QuietPass(s, ctx, w, trouble);
    StuckPlanIs(s, ctx, w.job, w.doc, w.now);
    CirclingRow(s, ctx, w.job, w.doc, w.now, trouble);
    CirclingStays(s, ctx, w, AfterPass(s, ctx, w, trouble));
  }

  lemma CirclingStep(s: Settings, ctx: Context, w: World, w': World)
    requires Orderly(w) && Circling(s, ctx, w) && Next(s, ctx, w, w') && HasRecordings(ctx)
    ensures Circling(s, ctx, w') && NoNewRequests(w, w')
  {
    if PassStep(s, ctx, w, w') {
      var trouble :| CanPass(s, ctx, w, trouble) && w' == AfterPass(s, ctx, w, trouble);
      CirclingAfterPass(s, ctx, w, trouble);
    } else {
      QuietStepIsLater(s, ctx, w, w');
      StuckStays(ctx, s, w.doc, w.now, w'.doc, w'.now);
    }
  }

  /** A stuck job is never done, never analysed and sends nothing ever again, whatever the server and the operators
      do. */
  lemma {:induction false} StuckForGood(s: Settings, ctx: Context, run: seq<World>, i: nat)
    requires Sound(ctx) && IsRun(s, ctx, run) && HasRecordings(ctx) && i < |run| && Circling(s, ctx, run[i])
    ensures Circling(s, ctx, Last(run)) && NoNewRequests(run[i], Last(run))
  {
    if i < |run| - 1 {
      LastStep(s, ctx, run, i);
      StuckForGood(s, ctx, Front(run), i);
      CirclingStep(s, ctx, Last(Front(run)), Last(run));
    }
  }
}
