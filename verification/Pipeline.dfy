/** The pipeline as it runs: handlers that loop over recordings and send PATCHes, the chain, and the job driver. */
module Pipeline {
  import opened Versions
  import opened Languages
  import opened Features
  import opened Protocol
  import opened Jobs
  import opened Handlers
  import opened Passes
  import opened Decisions

  lemma Extend<T>(s: seq<T>, i: nat)
    requires i < |s|
    ensures s[..i + 1] == s[..i] + [s[i]] && s[..i] <= s && s[..i + 1] <= s
  {
  }

  lemma Whole<T>(s: seq<T>)
    ensures s[..0] == [] && s[..|s|] == s
  {
  }

  lemma ExtendAfter<T>(a: seq<T>, s: seq<T>, i: nat)
    requires i < |s|
    ensures a + s[..i + 1] == a + s[..i] + [s[i]] && a + s[..i] <= a + s && a + s[..i + 1] <= a + s
  {
  }

  lemma WholeAfter<T>(a: seq<T>, s: seq<T>)
    ensures a + s[..0] == a && a + s[..|s|] == a + s
  {
  }

  lemma PrefixOfPrefix<T>(a: seq<T>, b: seq<T>, c: seq<T>)
    requires a <= b <= c
    ensures a <= c
  {
  }

  /** One more move: its PATCH is sent if it has one, and its outcome is counted. */
  lemma OneMoreMove(made: seq<Move>, m: Move)
    ensures Patches(made + [m]) == if Sends(m) then Patches(made) + [m.patch] else Patches(made)
    ensures Counted(made + [m]) == Counted(made) + multiset{OutcomeOf(m)}
  {
    CountedMore(made, m);
    assert Front(made + [m]) == made;
  }

  lemma OneMoreApplied(doc: Doc, ps: seq<Patch>, p: Patch, now: int)
    ensures ApplyAll(doc, ps + [p], now) == Applied(ApplyAll(doc, ps, now), p, now)
  {
    assert Front(ps + [p]) == ps;
  }

  /** A run of blocked targets sends nothing and counts each of them. */
  lemma {:induction false} BlockedRun(made: seq<Move>, blocked: seq<Move>)
    requires forall i | 0 <= i < |blocked| :: blocked[i] == Blocked
    ensures Patches(made + blocked) == Patches(made)
    ensures Counted(made + blocked) == Counted(made)[Blocking := Counted(made)[Blocking] + |blocked|]
  {
    if blocked == [] {
      WholeAfter(made, blocked);
    } else {
      var n := |blocked| - 1;
      WholeAfter(made, blocked);
      ExtendAfter(made, blocked, n);
      BlockedRun(made, blocked[..n]);
      OneMoreMove(made + blocked[..n], Blocked);
    }
  }

  lemma {:induction false} FlatPrefix(lists: seq<seq<Move>>, n: nat)
    requires n <= |lists|
    ensures Flat(lists[..n]) <= Flat(lists)
  {
    if n < |lists| {
      assert Front(lists)[..n] == lists[..n];
      FlatPrefix(Front(lists), n);
    } else {
      assert lists[..n] == lists;
    }
  }

  lemma NextList(lists: seq<seq<Move>>, n: nat)
    requires n < |lists|
    ensures Flat(lists[..n + 1]) == Flat(lists[..n]) + lists[n] <= Flat(lists)
  {
    assert Front(lists[..n + 1]) == lists[..n];
    FlatPrefix(lists, n + 1);
  }

  lemma AnswersTakeNothing(ctx: Context, sup: Doc, now: int, stall: nat, xpath: string)
    ensures NoTakes(RecordingAnswerMoves(ctx, sup, now, stall, xpath))
  {
    QuestionsTakeNothing(sup, now, stall, xpath, Questions(ctx, xpath));
  }

  lemma QuestionsTakeNothing(sup: Doc, now: int, stall: nat, xpath: string, uuids: seq<Uuid>)
    ensures NoTakes(QuestionMoves(sup, now, stall, xpath, uuids))
  {
    var moves := QuestionMoves(sup, now, stall, xpath, uuids);
    forall m | m in moves ensures !m.Take? {
      var i :| 0 <= i < |moves| && moves[i] == m;
      ChasingTakesNothing(Node(sup, AnswerOf(xpath, uuids[i])), now, stall, AskAnswer(xpath, uuids[i]));
    }
  }

  lemma ChasingTakesNothing(versions: seq<Version>, now: int, stall: nat, request: Patch)
    ensures !Chase(versions, now, stall, request).Take?
  {
  }

  lemma AnswersAreNotAccepted(ctx: Context, sup: Doc, now: int, stall: nat)
    ensures AcceptedNow !in Counted(Flat(AnswerLists(ctx, sup, now, stall)))
  {
    var lists := AnswerLists(ctx, sup, now, stall);
    forall i | 0 <= i < |lists| ensures NoTakes(lists[i]) {
      AnswersTakeNothing(ctx, sup, now, stall, ctx.features.qual[i].xpath);
    }
    NothingToAccept(lists);
    OutcomeCounted(Flat(lists), AcceptedNow);
  }

  ghost predicate NoTakes(moves: seq<Move>) {
    forall m | m in moves :: !m.Take?
  }

  lemma {:induction false} NothingToAccept(lists: seq<seq<Move>>)
    requires forall i | 0 <= i < |lists| :: NoTakes(lists[i])
    ensures NoTakes(Flat(lists))
  {
    if lists != [] {
      NothingToAccept(Front(lists));
      assert NoTakes(lists[|lists| - 1]);
    }
  }

  lemma AfterBase<T>(base: seq<T>, more: seq<T>)
    ensures base <= base + more && (base + more)[|base|..] == more
  {
  }

  lemma OneRow(jobs: JobTable, key: JobKey, now: int, stage: Stage, delay: int, bump: bool, failure: Option<bool>)
    requires key in jobs
    ensures Rescheduled(jobs, Some(key.owner), key.asset, key.submission, now, stage, delay, bump, failure)
         == jobs[key := Advanced(jobs[key], now, stage, delay, bump, failure)]
  {
  }

  class Pipeline {
    const s: Settings
    const client: KoboServer
    const store: Store
    const ctx: Context
    /** PATCHes issued during the current pass. */
    var writes: nat

    constructor (s: Settings, client: KoboServer, store: Store, cfg: AssetConfig)
      ensures this.s == s && this.client == client && this.store == store && writes == 0
      ensures ctx == Context(cfg, client.rows, Grouped(client.rows)) && Loaded(ctx)
    {
      var features := new AssetFeatures(client.rows);
      this.s, this.client, this.store, this.ctx := s, client, store, Context(cfg, client.rows, features.View());
      this.writes := 0;
    }

    /** The PATCHes of these moves, and no others, have been carried out on `start` and logged. */
    static ghost predicate CarriedOut(doc: Doc, done: seq<Patch>, made: seq<Move>, now: int, start: Doc,
                                      base: seq<Patch>) {
      doc == ApplyAll(start, Patches(made), now) && done == base + Patches(made)
    }

    /** These moves have been made without trouble, and counted. */
    static ghost predicate Reached(doc: Doc, done: seq<Patch>, writes: nat, made: seq<Move>, t: Tally, now: int,
                                   start: Doc, base: seq<Patch>, w: nat) {
      CarriedOut(doc, done, made, now, start, base) && t == Counted(made) && writes == w + |Patches(made)|
    }

    static lemma OneMoreCarriedOut(doc: Doc, done: seq<Patch>, made: seq<Move>, m: Move, now: int, start: Doc,
                                   base: seq<Patch>)
      requires CarriedOut(doc, done, made, now, start, base) && Sends(m)
      ensures CarriedOut(Applied(doc, m.patch, now), done + [m.patch], made + [m], now, start, base)
    {
      OneMoreMove(made, m);
      OneMoreApplied(start, Patches(made), m.patch, now);
      Assoc(base, Patches(made), [m.patch]);
    }

    method Patch(p: Patch, now: int) returns (reply: Reply)
      modifies client, `writes
      ensures writes == old(writes) + 1
      ensures (client.doc == Applied(old(client.doc), p, now) && client.done == old(client.done) + [p]) ||
              (reply.Error? && client.doc == old(client.doc) && client.done == old(client.done))
    {
      writes := writes + 1;
      reply := client.PatchDataSupplement(p, now);
    }

    /** Make one more move and count it; a PATCH that raised may or may not have been carried out. */
    method Make(m: Move, t: Tally, now: int, ghost made: seq<Move>, ghost start: Doc, ghost base: seq<Patch>,
                ghost w: nat)
      returns (reply: Reply, t': Tally, ghost made': seq<Move>)
      requires Reached(client.doc, client.done, writes, made, t, now, start, base, w)
      modifies client, `writes
      ensures CarriedOut(client.doc, client.done, made', now, start, base) &&
              (made' == made + [m] || (reply.Error? && made' == made))
      ensures reply.Ok? ==> Reached(client.doc, client.done, writes, made', t', now, start, base, w)
    {
      OneMoreMove(made, m);
      reply, t', made' := Ok, t + multiset{OutcomeOf(m)}, made + [m];
      if Sends(m) {
        OneMoreCarriedOut(client.doc, client.done, made, m, now, start, base);
        reply := Patch(m.patch, now);
        if client.done == base + Patches(made) {
          made' := made;
        }
      }
    }

    /** The part every handler shares: wait for a running attempt, leave a dead action, or ask. */
    method Chasing(node: seq<Version>, now: int, request: Patch) returns (m: Move)
      ensures m == Chase(node, now, s.stall, request)
      ensures var o := Ordered(node);
              !EndsIn(o, Complete) ==>
                m == if FailedTwice(o) then Spent else if Running(o, now, s.stall) then Wait else Ask(request)
    {
      if !EndsIn(Ordered(node), Complete) {
        ChaseIs(node, now, s.stall, request);
      }
      var status := State(node);
      if status == InProgress {
        if StalledFor(node, now) <= s.stall {
          return Wait;
        }
      }
      if status == Failed {
        var streak := FailureStreak(node);
        if streak >= MAX_ACTION_FAILURES {
          return Spent;
        }
      }
      m := Ask(request);
    }

    method TranscribeOne(sup: Doc, now: int, e: Entry<string>) returns (m: Move)
      ensures m == TranscriptMove(ctx, sup, now, s.stall, e)
    {
      var language := RequestLanguage(ctx.cfg.transcriptLanguage, e.value);
      var node := Node(sup, TranscriptOf(e.xpath));
      if State(node) == Complete {
        if Silent(node) {
          m := Quiet;
        } else if !Accepted(node) {
          m := Take(AcceptTranscript(e.xpath, Base(language), Locale(language)));
        } else {
          m := Good;
        }
      } else {
        m := Chasing(node, now, AskTranscript(e.xpath, Base(language), Locale(language)));
      }
    }

    method SupTranscribe(sup: Doc, now: int) returns (reply: Reply, verdict: Verdict, ghost made: seq<Move>)
      modifies client, `writes
      ensures HandlerRan(Transcribe, sup, now, reply, verdict, made, client.doc, client.done, writes, old(client.doc),
                         old(client.done), old(writes))
    {
      ghost var moves := TranscriptMoves(ctx, sup, now, s.stall);
      var rows, t: Tally := ctx.features.transcribe, multiset{};
      reply, verdict, made := Ok, Verdict(Transcribe, 0), [];
      Whole(moves);
      for i := 0 to |rows|
        invariant made == moves[..i] &&
                  Reached(client.doc, client.done, writes, made, t, now, old(client.doc), old(client.done), old(writes))
      {
        var m := TranscribeOne(sup, now, rows[i]);
        Extend(moves, i);
        reply, t, made := Make(m, t, now, made, old(client.doc), old(client.done), old(writes));
        if reply.Error? {
          return;
        }
      }
      reply := Ok;
      verdict := JudgeTranscription(t, moves);
    }

    method JudgeTranscription(t: Tally, ghost moves: seq<Move>) returns (verdict: Verdict)
      requires t == Counted(moves)
      ensures verdict == JudgeTranscripts(ctx, s.asyncPoll, moves)
    {
      CountersTell(moves);
      if t[Requested] > 0 || t[AcceptedNow] > 0 || t[Waiting] > 0 {
        verdict := Verdict(Transcribe, s.asyncPoll);
      } else if t[Finished] == 0 {
        verdict := if t[Wordless] > 0 || t[SpentOut] > 0 then Verdict(Parked, 0) else Verdict(Done, 0);
      } else {
        verdict := Verdict(if ctx.features.translate != [] then Translate else Qual, 2);
      }
    }

    /** A first part of the stage's moves was carried out; without trouble, all of them, with the stage's verdict. */
    ghost predicate HandlerRan(stage: Stage, sup: Doc, now: int, reply: Reply, verdict: Verdict, made: seq<Move>,
                               doc: Doc, done: seq<Patch>, writes: nat, start: Doc, base: seq<Patch>, w: nat) {
      var moves := Moves(ctx, sup, now, s.stall, stage);
      made <= moves && CarriedOut(doc, done, made, now, start, base) &&
      (reply.Ok? ==> made == moves && writes == w + |Patches(moves)| &&
                     verdict == StageVerdict(ctx, s, sup, now, stage))
    }

    method TranslateOne(sup: Doc, now: int, xpath: string, language: string) returns (m: Move)
      ensures m == TranslationMove(sup, now, s.stall, xpath, language)
    {
      var node := Node(sup, TranslationOf(xpath, language));
      if State(node) == Complete {
        m := if Accepted(node) then Good else Take(AcceptTranslation(xpath, Base(language)));
      } else {
        m := Chasing(node, now, AskTranslation(xpath, Base(language)));
      }
    }

    /** All the targets of one recording. */
    method TranslateRecording(sup: Doc, now: int, e: Entry<seq<string>>, t: Tally,
                              ghost made: seq<Move>, ghost start: Doc, ghost base: seq<Patch>, ghost w: nat)
      returns (reply: Reply, t': Tally, ghost made': seq<Move>)
      requires Reached(client.doc, client.done, writes, made, t, now, start, base, w)
      modifies client, `writes
      ensures made' <= made + RecordingTranslationMoves(ctx, sup, now, s.stall, e) &&
              CarriedOut(client.doc, client.done, made', now, start, base)
      ensures reply.Ok? ==>
        made' == made + RecordingTranslationMoves(ctx, sup, now, s.stall, e) &&
          Reached(client.doc, client.done, writes, made', t', now, start, base, w)
    {
      var source := match Lookup(ctx.features.transcribe, e.xpath) case None => "" case Some(language) => language;
      var languages, same := UsableTargets(source, e.value);
      var transcript := Node(sup, TranscriptOf(e.xpath));
      if Silent(transcript) {
        reply, t', made' := Ok, t, made;
      } else if !Accepted(transcript) {
        made' := made + RecordingTranslationMoves(ctx, sup, now, s.stall, e);
        BlockedRun(made, RecordingTranslationMoves(ctx, sup, now, s.stall, e));
        reply, t' := Ok, t[Blocking := t[Blocking] + |languages|];
      } else {
        reply, t', made' := TranslateAll(sup, now, e.xpath, languages, t, made, start, base, w);
      }
    }

    method TranslateAll(sup: Doc, now: int, xpath: string, languages: seq<string>, t: Tally,
                        ghost made: seq<Move>, ghost start: Doc, ghost base: seq<Patch>, ghost w: nat)
      returns (reply: Reply, t': Tally, ghost made': seq<Move>)
      requires Reached(client.doc, client.done, writes, made, t, now, start, base, w)
      modifies client, `writes
      ensures made' <= made + TargetMoves(sup, now, s.stall, xpath, languages) &&
              CarriedOut(client.doc, client.done, made', now, start, base)
      ensures reply.Ok? ==>
        made' == made + TargetMoves(sup, now, s.stall, xpath, languages) &&
          Reached(client.doc, client.done, writes, made', t', now, start, base, w)
    {
      ghost var list := TargetMoves(sup, now, s.stall, xpath, languages);
      reply, t', made' := Ok, t, made;
      WholeAfter(made, list);
      for j := 0 to |languages|
        invariant made' == made + list[..j] && Reached(client.doc, client.done, writes, made', t', now, start, base, w)
      {
        var m := TranslateOne(sup, now, xpath, languages[j]);
        ExtendAfter(made, list, j);
        reply, t', made' := Make(m, t', now, made', start, base, w);
        if reply.Error? {
          return;
        }
      }
      reply := Ok;
    }

    method SupTranslate(sup: Doc, now: int) returns (reply: Reply, verdict: Verdict, ghost made: seq<Move>)
      modifies client, `writes
      ensures HandlerRan(Translate, sup, now, reply, verdict, made, client.doc, client.done, writes, old(client.doc),
                         old(client.done), old(writes))
    {
      var t;
      verdict := Verdict(Translate, 0);
      reply, t, made := TranslateRecordings(sup, now);
      if reply.Ok? {
        verdict := JudgeTranslations(sup, now, t);
      }
    }

    /** The loop over the recordings to translate. */
    method TranslateRecordings(sup: Doc, now: int) returns (reply: Reply, t: Tally, ghost made: seq<Move>)
      modifies client, `writes
      ensures made <= Flat(TranslationLists(ctx, sup, now, s.stall)) &&
              CarriedOut(client.doc, client.done, made, now, old(client.doc), old(client.done))
      ensures reply.Ok? ==>
        made == Flat(TranslationLists(ctx, sup, now, s.stall)) &&
        Reached(client.doc, client.done, writes, made, t, now, old(client.doc), old(client.done), old(writes))
    {
      ghost var lists := TranslationLists(ctx, sup, now, s.stall);
      var rows := ctx.features.translate;
      reply, t, made := Ok, multiset{}, [];
      Whole(lists);
      for i := 0 to |rows|
        invariant i <= |lists| && made == Flat(lists[..i])
        invariant Reached(client.doc, client.done, writes, made, t, now, old(client.doc), old(client.done), old(writes))
      {
        NextList(lists, i);
        ghost var before := made;
        reply, t, made := TranslateRecording(sup, now, rows[i], t, made, old(client.doc), old(client.done),
                                             old(writes));
        if reply.Error? {
          PrefixOfPrefix(made, before + lists[i], Flat(lists));
          return;
        }
      }
      reply := Ok;
    }

    method JudgeTranslations(sup: Doc, now: int, t: Tally) returns (verdict: Verdict)
      requires t == Counted(Moves(ctx, sup, now, s.stall, Translate))
      ensures verdict == StageVerdict(ctx, s, sup, now, Translate)
    {
      CountersTell(Moves(ctx, sup, now, s.stall, Translate));
      if t[Requested] > 0 || t[AcceptedNow] > 0 || t[Waiting] > 0 {
        verdict := Verdict(Translate, s.asyncPoll);
      } else if t[Blocking] > 0 {
        verdict := Verdict(Transcribe, 2);
      } else {
        verdict := Verdict(Qual, 2);
      }
    }

    method AnswerOne(sup: Doc, now: int, xpath: string, uuid: Uuid) returns (m: Move)
      ensures m == AnswerMove(sup, now, s.stall, xpath, uuid)
    {
      var node := Node(sup, AnswerOf(xpath, uuid));
      if State(node) == Complete {
        m := Good;
      } else {
        m := Chasing(node, now, AskAnswer(xpath, uuid));
      }
    }

    /** All the questions of one recording. */
    method AnswerRecording(sup: Doc, now: int, xpath: string, t: Tally,
                           ghost made: seq<Move>, ghost start: Doc, ghost base: seq<Patch>, ghost w: nat)
      returns (reply: Reply, t': Tally, ghost made': seq<Move>)
      requires Reached(client.doc, client.done, writes, made, t, now, start, base, w)
      modifies client, `writes
      ensures made' <= made + RecordingAnswerMoves(ctx, sup, now, s.stall, xpath) &&
              CarriedOut(client.doc, client.done, made', now, start, base)
      ensures reply.Ok? ==>
        made' == made + RecordingAnswerMoves(ctx, sup, now, s.stall, xpath) &&
          Reached(client.doc, client.done, writes, made', t', now, start, base, w)
    {
      var transcript := Node(sup, TranscriptOf(xpath));
      if Silent(transcript) || !Accepted(transcript) {
        reply, t', made' := Make(Skip, t, now, made, start, base, w);
      } else {
        var uuids := AnswerableQual(ctx.features, xpath);
        reply, t', made' := AnswerAll(sup, now, xpath, uuids, t, made, start, base, w);
      }
    }

    method AnswerAll(sup: Doc, now: int, xpath: string, uuids: seq<Uuid>, t: Tally,
                     ghost made: seq<Move>, ghost start: Doc, ghost base: seq<Patch>, ghost w: nat)
      returns (reply: Reply, t': Tally, ghost made': seq<Move>)
      requires Reached(client.doc, client.done, writes, made, t, now, start, base, w)
      modifies client, `writes
      ensures made' <= made + QuestionMoves(sup, now, s.stall, xpath, uuids) &&
              CarriedOut(client.doc, client.done, made', now, start, base)
      ensures reply.Ok? ==>
        made' == made + QuestionMoves(sup, now, s.stall, xpath, uuids) &&
          Reached(client.doc, client.done, writes, made', t', now, start, base, w)
    {
      ghost var list := QuestionMoves(sup, now, s.stall, xpath, uuids);
      reply, t', made' := Ok, t, made;
      WholeAfter(made, list);
      for j := 0 to |uuids|
        invariant made' == made + list[..j] && Reached(client.doc, client.done, writes, made', t', now, start, base, w)
      {
        var m := AnswerOne(sup, now, xpath, uuids[j]);
        ExtendAfter(made, list, j);
        reply, t', made' := Make(m, t', now, made', start, base, w);
        if reply.Error? {
          return;
        }
      }
      reply := Ok;
    }

    method SupQual(sup: Doc, now: int) returns (reply: Reply, verdict: Verdict, ghost made: seq<Move>)
      modifies client, `writes
      ensures HandlerRan(Qual, sup, now, reply, verdict, made, client.doc, client.done, writes, old(client.doc),
                         old(client.done), old(writes))
    {
      if ctx.cfg.enableQual {
        reply, verdict, made := Analyse(sup, now);
      } else {
        reply, verdict, made := Ok, Verdict(Done, 0), [];
      }
    }

    method Analyse(sup: Doc, now: int) returns (reply: Reply, verdict: Verdict, ghost made: seq<Move>)
      requires ctx.cfg.enableQual
      modifies client, `writes
      ensures HandlerRan(Qual, sup, now, reply, verdict, made, client.doc, client.done, writes, old(client.doc),
                         old(client.done), old(writes))
    {
      var t;
      verdict := Verdict(Qual, 0);
      reply, t, made := AnswerRecordings(sup, now);
      if reply.Ok? {
        verdict := JudgeAnswers(sup, now, t);
      }
    }

    /** The loop over the recordings to analyse. */
    method AnswerRecordings(sup: Doc, now: int) returns (reply: Reply, t: Tally, ghost made: seq<Move>)
      modifies client, `writes
      ensures made <= Flat(AnswerLists(ctx, sup, now, s.stall)) &&
              CarriedOut(client.doc, client.done, made, now, old(client.doc), old(client.done))
      ensures reply.Ok? ==>
        made == Flat(AnswerLists(ctx, sup, now, s.stall)) &&
        Reached(client.doc, client.done, writes, made, t, now, old(client.doc), old(client.done), old(writes))
    {
      ghost var lists := AnswerLists(ctx, sup, now, s.stall);
      var rows := ctx.features.qual;
      reply, t, made := Ok, multiset{}, [];
      Whole(lists);
      for i := 0 to |rows|
        invariant i <= |lists| && made == Flat(lists[..i])
        invariant Reached(client.doc, client.done, writes, made, t, now, old(client.doc), old(client.done), old(writes))
      {
        NextList(lists, i);
        ghost var before := made;
        reply, t, made := AnswerRecording(sup, now, rows[i].xpath, t, made, old(client.doc), old(client.done),
                                          old(writes));
        if reply.Error? {
          PrefixOfPrefix(made, before + lists[i], Flat(lists));
          return;
        }
      }
      reply := Ok;
    }

    method JudgeAnswers(sup: Doc, now: int, t: Tally) returns (verdict: Verdict)
      requires t == Counted(Moves(ctx, sup, now, s.stall, Qual)) && ctx.cfg.enableQual
      ensures verdict == StageVerdict(ctx, s, sup, now, Qual)
    {
      CountersTell(Moves(ctx, sup, now, s.stall, Qual));
      AnswersAreNotAccepted(ctx, sup, now, s.stall);
      if t[Requested] > 0 || t[Waiting] > 0 {
        verdict := Verdict(Qual, s.asyncPoll);
      } else if t[SpentOut] > 0 {
        verdict := Verdict(Parked, 0);
      } else if t[Finished] == 0 && t[Skipping] > 0 {
        verdict := Verdict(Parked, 0);
      } else {
        verdict := Verdict(Done, 0);
      }
    }

    /** The handler of a stage; a stage without one reports done. */
    method Handle(stage: Stage, sup: Doc, now: int) returns (reply: Reply, verdict: Verdict, ghost sent: seq<Patch>)
      modifies client, `writes
      ensures sent <= StagePatches(ctx, s, sup, now, stage)
      ensures client.doc == ApplyAll(old(client.doc), sent, now) && client.done == old(client.done) + sent
      ensures reply.Ok? ==> sent == StagePatches(ctx, s, sup, now, stage) && writes == old(writes) + |sent| &&
                            verdict == StageVerdict(ctx, s, sup, now, stage)
    {
      ghost var made: seq<Move>;
      match stage {
        case New => reply, verdict, made := SupTranscribe(sup, now);
        case Transcribe => reply, verdict, made := SupTranscribe(sup, now);
        case Translate => reply, verdict, made := SupTranslate(sup, now);
        case Qual => reply, verdict, made := SupQual(sup, now);
        case Done => reply, verdict, made := Ok, Verdict(Done, 0), [];
        case Parked => reply, verdict, made := Ok, Verdict(Done, 0), [];
      }
      sent := Patches(made);
      PatchesPrefix(made, Moves(ctx, sup, now, s.stall, stage));
    }

    /** These PATCHes, and no others, have been carried out on `start` and logged. */
    static ghost predicate Sent(doc: Doc, done: seq<Patch>, start: Doc, base: seq<Patch>, ps: seq<Patch>, now: int) {
      doc == ApplyAll(start, ps, now) && done == base + ps
    }

    static lemma SentInTwo(doc: Doc, done: seq<Patch>, start: Doc, base: seq<Patch>, ps: seq<Patch>, doc': Doc,
                           done': seq<Patch>, more: seq<Patch>, now: int)
      requires Sent(doc, done, start, base, ps, now) && Sent(doc', done', doc, done, more, now)
      ensures Sent(doc', done', start, base, ps + more, now)
    {
      ApplyInTwo(start, ps, more, now);
      Assoc(base, ps, more);
    }

    /** Runs the stage and every hand-off that need not wait, each on a freshly read document. */
    method RunStages(first: Stage, sup: Doc, now: int) returns (reply: Reply, verdict: Verdict, ghost sent: seq<Patch>)
      requires sup == client.doc
      modifies client, `writes
      ensures var chain := RunStage(ctx, s, sup, now, first, CHAIN_LIMIT);
              sent <= chain.patches && client.doc == ApplyAll(sup, sent, now) &&
                client.done == old(client.done) + sent &&
              (reply.Ok? ==> sent == chain.patches && writes == old(writes) + |sent| && verdict == chain.verdict)
    {
      var stage, document, limit, going := first, sup, CHAIN_LIMIT, true;
      ghost var chain := RunStage(ctx, s, sup, now, first, CHAIN_LIMIT);
      sent, reply, verdict := [], Ok, Verdict(first, 0);
      Assoc(old(client.done), [], chain.patches);
      NothingSentYet(chain);
      assert Sent(client.doc, client.done, sup, old(client.done), sent, now);
      while going
        invariant Sent(client.doc, client.done, sup, old(client.done), sent, now)
        invariant writes == old(writes) + |sent| && reply.Ok?
        invariant going ==>
          limit > 0 && document == client.doc && ChainRest(chain, sent, RunStage(ctx, s, document, now, stage, limit))
        invariant !going ==> sent == chain.patches && verdict == chain.verdict
        decreases going, limit
      {
        ghost var more: seq<Patch>;
        ghost var doc, done := client.doc, client.done;
        reply, verdict, more := Handle(stage, document, now);
        SentInTwo(doc, done, sup, old(client.done), sent, client.doc, client.done, more, now);
        ChainStep(ctx, s, document, now, stage, limit, chain, sent, more);
        ghost var before := sent;
        sent := sent + more;
        if reply.Error? {
          return;
        }
        if limit == 1 || !Chains(stage, verdict) {
          ChainEnds(ctx, s, document, now, stage, limit, chain, before);
          going := false;
        } else {
          ChainGoesOn(ctx, s, document, now, stage, limit, chain, before, client.doc);
          stage, limit := verdict.stage, limit - 1;
          reply, document := client.GetDataSupplement();
          if reply.Error? {
            return;
          }
        }
      }
    }

    /** The row, the document and the log that a pass over the job leaves, with this trouble or none. */
    ghost predicate PassLeaves(job: Job, start: Doc, base: seq<Patch>, now: int, trouble: Option<Trouble>,
                               row: Job, doc: Doc, done: seq<Patch>)
    {
      CanHappen(s, ctx, job, start, now, trouble) && row == PassRow(s, ctx, job, start, now, trouble) &&
      doc == ApplyAll(start, PassPatches(s, ctx, job, start, now, trouble), now) &&
      done == base + PassPatches(s, ctx, job, start, now, trouble)
    }

    /** One pass over a claimed job: park it, pause it, or run its stages and record what came of them; as seen from the
        job's own fields. */
    method Process(key: JobKey, stage: Stage, attempts: nat, failures: nat, created: int, now: int)
      returns (ghost trouble: Option<Trouble>)
      requires store.owner == Some(key.owner) && key in store.db.jobs
      requires var job := store.db.jobs[key];
               job.stage == stage && job.attempts == attempts && job.failures == failures && job.created == created
      modifies client, store.db, `writes
      ensures key in store.db.jobs && store.db.jobs == old(store.db.jobs)[key := store.db.jobs[key]]
      ensures PassLeaves(old(store.db.jobs[key]), old(client.doc), old(client.done), now, trouble,
                         store.db.jobs[key], client.doc, client.done)
      ensures old(client.done) <= client.done &&
              IsPass(s, ctx, old(store.db.jobs[key]), old(client.doc), now, trouble, store.db.jobs[key],
                     client.done[|old(client.done)|..])
    {
      trouble := RunPass(key, stage, attempts, failures, created, now);
      PassIs(s, ctx, old(store.db.jobs[key]), old(client.doc), now, trouble);
      AfterBase(old(client.done), PassPatches(s, ctx, old(store.db.jobs[key]), old(client.doc), now, trouble));
    }

    method RunPass(key: JobKey, stage: Stage, attempts: nat, failures: nat, created: int, now: int)
      returns (ghost trouble: Option<Trouble>)
      requires store.owner == Some(key.owner) && key in store.db.jobs
      requires var job := store.db.jobs[key];
               job.stage == stage && job.attempts == attempts && job.failures == failures && job.created == created
      modifies client, store.db, `writes
      ensures key in store.db.jobs && store.db.jobs == old(store.db.jobs)[key := store.db.jobs[key]]
      ensures PassLeaves(old(store.db.jobs[key]), old(client.doc), old(client.done), now, trouble,
                         store.db.jobs[key], client.doc, client.done)
    {
      trouble := None;
      Assoc(client.done, [], []);
      if failures >= s.maxFailures || (created != 0 && now - created >= s.maxAgeHours * 3600) ||
        attempts >= s.maxAttempts {
        Record(key, now, Parked, 0, false, None);
        return;
      }
      writes := 0;
      var noContext, error := *, *;
      if noContext {
        trouble := Some(Trouble(error, 0));
        Recover(key, now, stage, attempts, error);
      } else if !ctx.cfg.enabled {
        Record(key, now, stage, 600, false, None);
      } else if !HasRecordings(ctx) {
        Record(key, now, Done, 0, false, None);
      } else {
        trouble := RunJob(key, stage, attempts, now);
      }
    }

    method RunJob(key: JobKey, stage: Stage, attempts: nat, now: int) returns (ghost trouble: Option<Trouble>)
      requires store.owner == Some(key.owner) && key in store.db.jobs && writes == 0
      requires store.db.jobs[key].stage == stage && store.db.jobs[key].attempts == attempts
      requires Works(s, ctx, store.db.jobs[key], now)
      modifies client, store.db, `writes
      ensures key in store.db.jobs && store.db.jobs == old(store.db.jobs)[key := store.db.jobs[key]]
      ensures PassLeaves(old(store.db.jobs[key]), old(client.doc), old(client.done), now, trouble,
                         store.db.jobs[key], client.doc, client.done)
    {
      trouble := None;
      var reply, sup := client.GetDataSupplement();
      if reply.Error? {
        Assoc(client.done, [], []);
        trouble := Some(Trouble(reply.error, 0));
        Recover(key, now, stage, attempts, reply.error);
        return;
      }
      var verdict: Verdict;
      ghost var sent: seq<Patch>;
      reply, verdict, sent := RunStages(stage, sup, now);
      if reply.Error? {
        ghost var ps := RunStage(ctx, s, sup, now, stage, CHAIN_LIMIT).patches;
        assert ps[..|sent|] == sent;
        trouble := Some(Trouble(reply.error, |sent|));
        Recover(key, now, stage, attempts, reply.error);
      } else {
        Record(key, now, verdict.stage, verdict.delay, writes > 0 || verdict.stage != stage, Some(false));
      }
    }

    method Record(key: JobKey, now: int, stage: Stage, delay: int, bump: bool, failure: Option<bool>)
      requires store.owner == Some(key.owner) && key in store.db.jobs
      modifies store.db
      ensures store.db.jobs ==
              old(store.db.jobs)[key := Advanced(old(store.db.jobs)[key], now, stage, delay, bump, failure)]
    {
      OneRow(store.db.jobs, key, now, stage, delay, bump, failure);
      store.Advance(key.asset, key.submission, now, stage, delay, bump, failure);
    }

    method Recover(key: JobKey, now: int, stage: Stage, attempts: nat, error: Error)
      requires store.owner == Some(key.owner) && key in store.db.jobs
      requires store.db.jobs[key].stage == stage && store.db.jobs[key].attempts == attempts
      modifies store.db
      ensures store.db.jobs == old(store.db.jobs)[key := ErrorRow(old(store.db.jobs)[key], now, error)]
    {
      match error {
        case NotFound => Record(key, now, Parked, 0, false, Some(true));
        case KoboFailure => Record(key, now, stage, Backoff(attempts), true, Some(true));
        case Unexpected => Record(key, now, stage, 300, true, Some(true));
      }
    }
  }

  ghost predicate ChainRest(chain: Chain, sent: seq<Patch>, rest: Chain) {
    chain.patches == sent + rest.patches && chain.verdict == rest.verdict
  }

  lemma NothingSentYet(chain: Chain)
    ensures ChainRest(chain, [], chain) && [] <= chain.patches
  {
  }

  /** One round of the chain: what has been sent stays a beginning of the plan. */
  lemma ChainStep(ctx: Context, s: Settings, doc: Doc, now: int, stage: Stage, limit: nat, chain: Chain,
                  sent: seq<Patch>, more: seq<Patch>)
    requires limit > 0 && ChainRest(chain, sent, RunStage(ctx, s, doc, now, stage, limit))
    requires more <= StagePatches(ctx, s, doc, now, stage)
    ensures sent + more <= chain.patches
  {
    var v, ps := StageVerdict(ctx, s, doc, now, stage), StagePatches(ctx, s, doc, now, stage);
    if limit == 1 || !Chains(stage, v) {
      PrefixAfter(sent, more, ps, []);
    } else {
      PrefixAfter(sent, more, ps,
                  RunStage(ctx, s, AfterStage(ctx, s, doc, now, stage), now, v.stage, limit - 1).patches);
    }
  }

  /** The last round completes it. */
  lemma ChainEnds(ctx: Context, s: Settings, doc: Doc, now: int, stage: Stage, limit: nat, chain: Chain,
                  sent: seq<Patch>)
    requires limit > 0 && ChainRest(chain, sent, RunStage(ctx, s, doc, now, stage, limit))
    requires limit == 1 || !Chains(stage, StageVerdict(ctx, s, doc, now, stage))
    ensures sent + StagePatches(ctx, s, doc, now, stage) == chain.patches
    ensures StageVerdict(ctx, s, doc, now, stage) == chain.verdict
  {
  }

  /** Any other leaves the rest of it to the next stage, on the document it leaves. */
  lemma ChainGoesOn(ctx: Context, s: Settings, doc: Doc, now: int, stage: Stage, limit: nat, chain: Chain,
                    sent: seq<Patch>, after: Doc)
    requires limit > 1 && ChainRest(chain, sent, RunStage(ctx, s, doc, now, stage, limit))
    requires Chains(stage, StageVerdict(ctx, s, doc, now, stage)) && after == AfterStage(ctx, s, doc, now, stage)
    ensures ChainRest(chain, sent + StagePatches(ctx, s, doc, now, stage),
                      RunStage(ctx, s, after, now, StageVerdict(ctx, s, doc, now, stage).stage, limit - 1))
  {
    Assoc(sent, StagePatches(ctx, s, doc, now, stage),
          RunStage(ctx, s, after, now, StageVerdict(ctx, s, doc, now, stage).stage, limit - 1).patches);
  }

  lemma PrefixAfter<T>(a: seq<T>, b: seq<T>, c: seq<T>, d: seq<T>)
    requires b <= c
    ensures a + b <= a + (c + d)
    ensures a + c + d == a + (c + d) && c + [] == c
  {
  }

  lemma {:induction false} PatchesPrefix(made: seq<Move>, moves: seq<Move>)
    requires made <= moves
    ensures Patches(made) <= Patches(moves)
  {
    if |made| < |moves| {
      PatchesPrefix(made, Front(moves));
    } else {
      assert made == moves;
    }
  }
}
