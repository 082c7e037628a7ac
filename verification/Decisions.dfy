/** What each stage does, read off the ends of the version lists and the configured entries: which PATCHes it sends,
    what it waits for, and where the job goes. */
module Decisions {
  import opened Versions
  import opened Languages
  import opened Features
  import opened Protocol
  import opened Jobs
  import opened Handlers
  import opened Plans
  import opened Safety

  // ---- the end of a version list ------------------------------------------------------------

  predicate EndsIn(versions: seq<Version>, status: Status) {
    versions != [] && versions[|versions| - 1].status == status
  }

  predicate FailedTwice(versions: seq<Version>) {
    EndsIn(versions, Failed) && |versions| >= 2 && versions[|versions| - 2].status == Failed
  }

  /** It has been running for longer than the limit; an attempt without a date counts as new. */
  predicate Overdue(versions: seq<Version>, now: int, stall: nat) {
    EndsIn(versions, InProgress) &&
    match versions[|versions| - 1].created
    case None => false
    case Some(started) => started != 0 && now - started > stall
  }

  predicate Running(versions: seq<Version>, now: int, stall: nat) {
    EndsIn(versions, InProgress) && !Overdue(versions, now, stall)
  }

  /** Nothing has come of it, nothing is running within the limit, and it has not failed twice. */
  predicate Due(versions: seq<Version>, now: int, stall: nat) {
    !EndsIn(versions, Complete) && !Running(versions, now, stall) && !FailedTwice(versions)
  }

  predicate Worded(versions: seq<Version>) {
    EndsIn(versions, Complete) && !Blank(versions[|versions| - 1].text)
  }

  predicate Speechless(versions: seq<Version>) {
    EndsIn(versions, Complete) && Blank(versions[|versions| - 1].text)
  }

  predicate Unaccepted(versions: seq<Version>) {
    EndsIn(versions, Complete) && !versions[|versions| - 1].accepted
  }

  /** A transcript to translate and to analyse. */
  predicate Readable(versions: seq<Version>) {
    Worded(versions) && !Unaccepted(versions)
  }

  lemma StreakOfTwo(ordered: seq<Version>)
    ensures Streak(ordered) >= 2 <==> FailedTwice(ordered)
  {
    var n := Streak(ordered);
    if n >= 2 {
      assert ordered[|ordered| - 1].status == Failed && ordered[|ordered| - 2].status == Failed;
    }
  }

  lemma EndOfList(versions: seq<Version>, now: int)
    requires InOrder(versions, now)
    ensures Ordered(versions) == versions
    ensures forall status | status != Missing :: State(versions) == status <==> EndsIn(versions, status)
    ensures Accepted(versions) ==> EndsIn(versions, Complete)
    ensures Silent(versions) <==> Speechless(versions)
    ensures Streak(versions) >= 2 <==> FailedTwice(versions)
  {
    SortedStays(versions);
    StreakOfTwo(versions);
  }

  /** An unfinished action is asked for, waited for or left, by the dates and the statuses at the end of its list,
      however the server lists it. */
  lemma ChaseIs(versions: seq<Version>, now: int, stall: nat, request: Patch)
    requires !EndsIn(Ordered(versions), Complete)
    ensures var o := Ordered(versions);
            Chase(versions, now, stall, request) ==
            if FailedTwice(o) then Spent else if Running(o, now, stall) then Wait else Ask(request)
  {
    StreakOfTwo(Ordered(versions));
  }

  // ---- transcription --------------------------------------------------------------------------

  lemma TranscriptDecision(ctx: Context, doc: Doc, now: int, stall: nat, e: Entry<string>)
    requires DocInOrder(doc, now)
    ensures var versions, l := Node(doc, TranscriptOf(e.xpath)), RequestLanguage(ctx.cfg.transcriptLanguage, e.value);
            TranscriptMove(ctx, doc, now, stall, e) ==
            if Speechless(versions) then Quiet
            else if Readable(versions) then Good
            else if Unaccepted(versions) then Take(AcceptTranscript(e.xpath, Base(l), Locale(l)))
            else if FailedTwice(versions) then Spent
            else if Running(versions, now, stall) then Wait
            else Ask(AskTranscript(e.xpath, Base(l), Locale(l)))
  {
    var versions, l := Node(doc, TranscriptOf(e.xpath)), RequestLanguage(ctx.cfg.transcriptLanguage, e.value);
    EndOfList(versions, now);
    if !EndsIn(versions, Complete) {
      ChaseIs(versions, now, stall, AskTranscript(e.xpath, Base(l), Locale(l)));
    }
  }

  /** The PATCH this recording calls for. */
  ghost predicate CallsForTranscript(ctx: Context, s: Settings, doc: Doc, now: int, e: Entry<string>, p: Patch) {
    var versions, l := Node(doc, TranscriptOf(e.xpath)), RequestLanguage(ctx.cfg.transcriptLanguage, e.value);
    (Due(versions, now, s.stall) && p == AskTranscript(e.xpath, Base(l), Locale(l))) ||
    (Worded(versions) && Unaccepted(versions) && p == AcceptTranscript(e.xpath, Base(l), Locale(l)))
  }

  lemma TranscriptMoveSends(ctx: Context, s: Settings, doc: Doc, now: int, i: nat, p: Patch)
    requires DocInOrder(doc, now) && i < |ctx.features.transcribe|
    ensures var m := TranscriptMoves(ctx, doc, now, s.stall)[i];
            Sends(m) && m.patch == p <==> CallsForTranscript(ctx, s, doc, now, ctx.features.transcribe[i], p)
  {
    TranscriptDecision(ctx, doc, now, s.stall, ctx.features.transcribe[i]);
  }

  lemma SentForRecording(ctx: Context, s: Settings, doc: Doc, now: int, p: Patch)
    requires DocInOrder(doc, now) && p in Patches(TranscriptMoves(ctx, doc, now, s.stall))
    ensures exists e :: e in ctx.features.transcribe && CallsForTranscript(ctx, s, doc, now, e, p)
  {
    var i := PatchComesFrom(TranscriptMoves(ctx, doc, now, s.stall), p);
    TranscriptMoveSends(ctx, s, doc, now, i, p);
    assert ctx.features.transcribe[i] in ctx.features.transcribe;
  }

  lemma SentAt(moves: seq<Move>, i: nat)
    requires i < |moves| && Sends(moves[i])
    ensures moves[i].patch in Patches(moves)
  {
    assert moves[i] in moves && (moves[i] == Ask(moves[i].patch) || moves[i] == Take(moves[i].patch));
  }

  lemma DueIsTranscribed(ctx: Context, s: Settings, doc: Doc, now: int, e: Entry<string>, p: Patch)
    requires DocInOrder(doc, now) && e in ctx.features.transcribe && CallsForTranscript(ctx, s, doc, now, e, p)
    ensures p in Patches(TranscriptMoves(ctx, doc, now, s.stall))
  {
    var i :| 0 <= i < |ctx.features.transcribe| && ctx.features.transcribe[i] == e;
    TranscriptMoveSends(ctx, s, doc, now, i, p);
    SentAt(TranscriptMoves(ctx, doc, now, s.stall), i);
  }

  /** Transcription sends exactly what some recording calls for. */
  lemma TranscribeSends(ctx: Context, s: Settings, doc: Doc, now: int, stage: Stage, p: Patch)
    requires DocInOrder(doc, now) && (stage == New || stage == Transcribe)
    ensures p in StagePatches(ctx, s, doc, now, stage) <==>
            exists e :: e in ctx.features.transcribe && CallsForTranscript(ctx, s, doc, now, e, p)
  {
    if p in Patches(TranscriptMoves(ctx, doc, now, s.stall)) {
      SentForRecording(ctx, s, doc, now, p);
    }
    if e :| e in ctx.features.transcribe && CallsForTranscript(ctx, s, doc, now, e, p) {
      DueIsTranscribed(ctx, s, doc, now, e, p);
    }
  }

  lemma {:induction false} PatchesInOrder(moves: seq<Move>, a: nat, b: nat) returns (i: nat, j: nat)
    requires a < b < |Patches(moves)|
    ensures i < j < |moves| && Sends(moves[i]) && moves[i].patch == Patches(moves)[a]
    ensures Sends(moves[j]) && moves[j].patch == Patches(moves)[b]
  {
    var front := Patches(Front(moves));
    if b < |front| {
      i, j := PatchesInOrder(Front(moves), a, b);
    } else {
      i := PatchComesFrom(Front(moves), front[a]);
      j := |moves| - 1;
    }
  }

  /** Transcription goes through the recordings in the order in which they are configured. */
  lemma TranscribesInOrder(ctx: Context, s: Settings, doc: Doc, now: int, a: nat, b: nat) returns (i: nat, j: nat)
    requires DocInOrder(doc, now) && a < b < |StagePatches(ctx, s, doc, now, Transcribe)|
    ensures i < j < |ctx.features.transcribe|
    ensures StagePatches(ctx, s, doc, now, Transcribe)[a].xpath == ctx.features.transcribe[i].xpath
    ensures StagePatches(ctx, s, doc, now, Transcribe)[b].xpath == ctx.features.transcribe[j].xpath
  {
    i, j := PatchesInOrder(TranscriptMoves(ctx, doc, now, s.stall), a, b);
    TranscriptDecision(ctx, doc, now, s.stall, ctx.features.transcribe[i]);
    TranscriptDecision(ctx, doc, now, s.stall, ctx.features.transcribe[j]);
  }

  lemma {:induction false} FlatInOrder(lists: seq<seq<Move>>, a: nat, b: nat) returns (i: nat, j: nat)
    requires a < b < |Flat(lists)|
    ensures i <= j < |lists| && Flat(lists)[a] in lists[i] && Flat(lists)[b] in lists[j]
  {
    var front := Flat(Front(lists));
    if b < |front| {
      i, j := FlatInOrder(Front(lists), a, b);
    } else {
      j := |lists| - 1;
      if a < |front| {
        FlatMembers(Front(lists));
        assert front[a] in front;
        i :| 0 <= i < |Front(lists)| && front[a] in Front(lists)[i];
      } else {
        i := j;
      }
    }
  }

  // ---- translation ----------------------------------------------------------------------------

  /** Listed for the recording, and not in the language its audio is transcribed in. */
  ghost predicate IsTarget(ctx: Context, e: Entry<seq<string>>, l: string) {
    l in e.value && forall t | t in ctx.features.transcribe && t.xpath == e.xpath :: !SameLanguage(t.value, l)
  }

  lemma TargetsAre(ctx: Context, e: Entry<seq<string>>, l: string)
    requires KeysDistinct(ctx.features)
    ensures l in Targets(ctx, e) <==> IsTarget(ctx, e, l)
  {
    var rows := ctx.features.transcribe;
    if t :| t in rows && t.xpath == e.xpath {
      LookupIs(rows, t);
      forall t' | t' in rows && t'.xpath == e.xpath ensures t' == t {
        LookupIs(rows, t');
      }
    }
  }

  lemma TranslationDecision(doc: Doc, now: int, stall: nat, x: string, l: string)
    requires DocInOrder(doc, now)
    ensures var versions := Node(doc, TranslationOf(x, l));
            TranslationMove(doc, now, stall, x, l) ==
            if Unaccepted(versions) then Take(AcceptTranslation(x, Base(l)))
            else if EndsIn(versions, Complete) then Good
            else if FailedTwice(versions) then Spent
            else if Running(versions, now, stall) then Wait
            else Ask(AskTranslation(x, Base(l)))
  {
    var versions := Node(doc, TranslationOf(x, l));
    EndOfList(versions, now);
    if !EndsIn(versions, Complete) {
      ChaseIs(versions, now, stall, AskTranslation(x, Base(l)));
    }
  }

  lemma TargetMovesAre(doc: Doc, now: int, stall: nat, x: string, targets: seq<string>, m: Move)
    ensures m in TargetMoves(doc, now, stall, x, targets) <==>
            exists l :: l in targets && m == TranslationMove(doc, now, stall, x, l)
  {
    var moves := TargetMoves(doc, now, stall, x, targets);
    if m in moves {
      var i :| 0 <= i < |moves| && moves[i] == m;
      assert targets[i] in targets;
    }
    if l :| l in targets && m == TranslationMove(doc, now, stall, x, l) {
      var i :| 0 <= i < |targets| && targets[i] == l;
      assert moves[i] == m;
    }
  }

  /** Over a readable transcript each target is moved on. */
  lemma ReadableIsTranslated(ctx: Context, doc: Doc, now: int, stall: nat, e: Entry<seq<string>>, m: Move)
    requires DocInOrder(doc, now) && KeysDistinct(ctx.features) && Readable(Node(doc, TranscriptOf(e.xpath)))
    ensures m in RecordingTranslationMoves(ctx, doc, now, stall, e) <==>
            exists l :: IsTarget(ctx, e, l) && m == TranslationMove(doc, now, stall, e.xpath, l)
  {
    EndOfList(Node(doc, TranscriptOf(e.xpath)), now);
    TargetMovesAre(doc, now, stall, e.xpath, Targets(ctx, e), m);
    forall l ensures l in Targets(ctx, e) <==> IsTarget(ctx, e, l) {
      TargetsAre(ctx, e, l);
    }
  }

  lemma SomeTarget(ctx: Context, e: Entry<seq<string>>)
    requires KeysDistinct(ctx.features)
    ensures Targets(ctx, e) != [] <==> exists l :: IsTarget(ctx, e, l)
  {
    if Targets(ctx, e) != [] {
      TargetsAre(ctx, e, Targets(ctx, e)[0]);
      assert Targets(ctx, e)[0] in Targets(ctx, e);
    }
    if l :| IsTarget(ctx, e, l) {
      TargetsAre(ctx, e, l);
    }
  }

  /** Without one each target is blocked, and over a speechless one there is nothing to do. */
  lemma UnreadableIsBlocked(ctx: Context, doc: Doc, now: int, stall: nat, e: Entry<seq<string>>, m: Move)
    requires DocInOrder(doc, now) && KeysDistinct(ctx.features) && !Readable(Node(doc, TranscriptOf(e.xpath)))
    ensures m in RecordingTranslationMoves(ctx, doc, now, stall, e) <==>
            m == Blocked && !Speechless(Node(doc, TranscriptOf(e.xpath))) && exists l :: IsTarget(ctx, e, l)
  {
    EndOfList(Node(doc, TranscriptOf(e.xpath)), now);
    SomeTarget(ctx, e);
    if !Speechless(Node(doc, TranscriptOf(e.xpath))) {
      EachIsBlocked(ctx, doc, now, stall, e, m);
    }
  }

  lemma EachIsBlocked(ctx: Context, doc: Doc, now: int, stall: nat, e: Entry<seq<string>>, m: Move)
    requires !Silent(Node(doc, TranscriptOf(e.xpath))) && !Accepted(Node(doc, TranscriptOf(e.xpath)))
    ensures m in RecordingTranslationMoves(ctx, doc, now, stall, e) <==> m == Blocked && Targets(ctx, e) != []
  {
    var moves := RecordingTranslationMoves(ctx, doc, now, stall, e);
    if moves != [] {
      assert moves[0] == Blocked && moves[0] in moves;
    }
  }

  /** The PATCH this target of a recording calls for. */
  ghost predicate CallsForTranslation(ctx: Context, s: Settings, doc: Doc, now: int, e: Entry<seq<string>>, l: string,
                                      p: Patch) {
    var versions := Node(doc, TranslationOf(e.xpath, l));
    IsTarget(ctx, e, l) && Readable(Node(doc, TranscriptOf(e.xpath))) &&
    ((Due(versions, now, s.stall) && p == AskTranslation(e.xpath, Base(l))) ||
     (Unaccepted(versions) && p == AcceptTranslation(e.xpath, Base(l))))
  }

  lemma TargetSends(ctx: Context, s: Settings, doc: Doc, now: int, e: Entry<seq<string>>, l: string, p: Patch)
    requires DocInOrder(doc, now) && IsTarget(ctx, e, l) && Readable(Node(doc, TranscriptOf(e.xpath)))
    ensures var m := TranslationMove(doc, now, s.stall, e.xpath, l);
            m == Ask(p) || m == Take(p) <==> CallsForTranslation(ctx, s, doc, now, e, l, p)
  {
    TranslationDecision(doc, now, s.stall, e.xpath, l);
  }

  lemma RecordingSends(ctx: Context, s: Settings, doc: Doc, now: int, e: Entry<seq<string>>, p: Patch)
    requires DocInOrder(doc, now) && KeysDistinct(ctx.features)
    ensures Ask(p) in RecordingTranslationMoves(ctx, doc, now, s.stall, e) ||
            Take(p) in RecordingTranslationMoves(ctx, doc, now, s.stall, e) ==>
              exists l :: CallsForTranslation(ctx, s, doc, now, e, l, p)
  {
    var moves := RecordingTranslationMoves(ctx, doc, now, s.stall, e);
    if m :| m in moves && (m == Ask(p) || m == Take(p)) {
      if Readable(Node(doc, TranscriptOf(e.xpath))) {
        ReadableIsTranslated(ctx, doc, now, s.stall, e, m);
        var l :| IsTarget(ctx, e, l) && m == TranslationMove(doc, now, s.stall, e.xpath, l);
        TargetSends(ctx, s, doc, now, e, l, p);
      } else {
        UnreadableIsBlocked(ctx, doc, now, s.stall, e, m);
      }
    }
  }

  lemma CalledForIsSent(ctx: Context, s: Settings, doc: Doc, now: int, e: Entry<seq<string>>, l: string, p: Patch)
    requires DocInOrder(doc, now) && KeysDistinct(ctx.features) && CallsForTranslation(ctx, s, doc, now, e, l, p)
    ensures Ask(p) in RecordingTranslationMoves(ctx, doc, now, s.stall, e) ||
            Take(p) in RecordingTranslationMoves(ctx, doc, now, s.stall, e)
  {
    var m := TranslationMove(doc, now, s.stall, e.xpath, l);
    TargetSends(ctx, s, doc, now, e, l, p);
    ReadableIsTranslated(ctx, doc, now, s.stall, e, m);
  }

  lemma SentFromList(lists: seq<seq<Move>>, p: Patch) returns (i: nat)
    requires p in Patches(Flat(lists))
    ensures i < |lists| && (Ask(p) in lists[i] || Take(p) in lists[i])
  {
    FlatMembers(lists);
    i :| 0 <= i < |lists| && (Ask(p) in lists[i] || Take(p) in lists[i]);
  }

  lemma ListIsSent(lists: seq<seq<Move>>, p: Patch, i: nat)
    requires i < |lists| && (Ask(p) in lists[i] || Take(p) in lists[i])
    ensures p in Patches(Flat(lists))
  {
    FlatMembers(lists);
  }

  lemma SentForTarget(ctx: Context, s: Settings, doc: Doc, now: int, p: Patch)
    requires DocInOrder(doc, now) && KeysDistinct(ctx.features) && p in StagePatches(ctx, s, doc, now, Translate)
    ensures exists e, l :: e in ctx.features.translate && CallsForTranslation(ctx, s, doc, now, e, l, p)
  {
    var rows := ctx.features.translate;
    var i := SentFromList(TranslationLists(ctx, doc, now, s.stall), p);
    RecordingSends(ctx, s, doc, now, rows[i], p);
    assert rows[i] in rows;
  }

  lemma TargetIsSentFor(ctx: Context, s: Settings, doc: Doc, now: int, e: Entry<seq<string>>, l: string, p: Patch)
    requires DocInOrder(doc, now) && KeysDistinct(ctx.features) && e in ctx.features.translate
    requires CallsForTranslation(ctx, s, doc, now, e, l, p)
    ensures p in StagePatches(ctx, s, doc, now, Translate)
  {
    var i :| 0 <= i < |ctx.features.translate| && ctx.features.translate[i] == e;
    CalledForIsSent(ctx, s, doc, now, e, l, p);
    ListIsSent(TranslationLists(ctx, doc, now, s.stall), p, i);
  }

  /** Translation sends exactly what some target of some recording calls for. */
  lemma TranslateSends(ctx: Context, s: Settings, doc: Doc, now: int, p: Patch)
    requires DocInOrder(doc, now) && KeysDistinct(ctx.features)
    ensures p in StagePatches(ctx, s, doc, now, Translate) <==>
            exists e, l :: e in ctx.features.translate && CallsForTranslation(ctx, s, doc, now, e, l, p)
  {
    if p in StagePatches(ctx, s, doc, now, Translate) {
      SentForTarget(ctx, s, doc, now, p);
    }
    if e, l :| e in ctx.features.translate && CallsForTranslation(ctx, s, doc, now, e, l, p) {
      TargetIsSentFor(ctx, s, doc, now, e, l, p);
    }
  }

  lemma AboutRecording(ctx: Context, doc: Doc, now: int, stall: nat, e: Entry<seq<string>>, m: Move)
    requires DocInOrder(doc, now) && KeysDistinct(ctx.features) && Sends(m)
    requires m in RecordingTranslationMoves(ctx, doc, now, stall, e)
    ensures m.patch.xpath == e.xpath
  {
    if Readable(Node(doc, TranscriptOf(e.xpath))) {
      ReadableIsTranslated(ctx, doc, now, stall, e, m);
      var l :| IsTarget(ctx, e, l) && m == TranslationMove(doc, now, stall, e.xpath, l);
      TranslationDecision(doc, now, stall, e.xpath, l);
    } else {
      UnreadableIsBlocked(ctx, doc, now, stall, e, m);
    }
  }

  /** Translation goes through the recordings in the order in which they are configured. */
  lemma TranslatesInOrder(ctx: Context, s: Settings, doc: Doc, now: int, a: nat, b: nat) returns (i: nat, j: nat)
    requires DocInOrder(doc, now) && KeysDistinct(ctx.features) && a < b < |StagePatches(ctx, s, doc, now, Translate)|
    ensures i <= j < |ctx.features.translate|
    ensures StagePatches(ctx, s, doc, now, Translate)[a].xpath == ctx.features.translate[i].xpath
    ensures StagePatches(ctx, s, doc, now, Translate)[b].xpath == ctx.features.translate[j].xpath
  {
    var lists := TranslationLists(ctx, doc, now, s.stall);
    var m, n := PatchesInOrder(Flat(lists), a, b);
    i, j := FlatInOrder(lists, m, n);
    AboutRecording(ctx, doc, now, s.stall, ctx.features.translate[i], Flat(lists)[m]);
    AboutRecording(ctx, doc, now, s.stall, ctx.features.translate[j], Flat(lists)[n]);
  }

  /** The targets of one recording are gone through in their order. */
  lemma TargetsInOrder(doc: Doc, now: int, stall: nat, x: string, targets: seq<string>, a: nat, b: nat)
    returns (i: nat, j: nat)
    requires DocInOrder(doc, now) && a < b < |Patches(TargetMoves(doc, now, stall, x, targets))|
    ensures i < j < |targets|
    ensures var ps := Patches(TargetMoves(doc, now, stall, x, targets));
            ps[a] == AskTranslation(x, Base(targets[i])) || ps[a] == AcceptTranslation(x, Base(targets[i]))
    ensures var ps := Patches(TargetMoves(doc, now, stall, x, targets));
            ps[b] == AskTranslation(x, Base(targets[j])) || ps[b] == AcceptTranslation(x, Base(targets[j]))
  {
    i, j := PatchesInOrder(TargetMoves(doc, now, stall, x, targets), a, b);
    TranslationDecision(doc, now, stall, x, targets[i]);
    TranslationDecision(doc, now, stall, x, targets[j]);
  }

  // ---- analysis -------------------------------------------------------------------------------

  predicate IsFirst(defs: seq<Question>, u: Uuid, k: nat) {
    k < |defs| && defs[k].uuid == u && forall j | 0 <= j < k :: defs[j].uuid != u
  }

  /** The first definition of the uuid has a type the model can answer. */
  predicate HasAnswerableType(defs: seq<Question>, u: Uuid) {
    exists k | 0 <= k < |defs| :: IsFirst(defs, u, k) &&
      (defs[k].kind == "qualSelectOne" || defs[k].kind == "qualSelectMultiple" || defs[k].kind == "qualText" ||
       defs[k].kind == "qualInteger")
  }

  /** Listed for the recording, and defined there with a type the model can answer. */
  ghost predicate IsPosed(ctx: Context, e: Entry<seq<Uuid>>, u: Uuid) {
    u in e.value && exists d | d in ctx.features.definitions :: d.xpath == e.xpath && HasAnswerableType(d.value, u)
  }

  lemma {:induction false} KindIsFirst(defs: seq<Question>, u: Uuid, k: nat)
    requires IsFirst(defs, u, k)
    ensures KindOf(defs, u) == Some(defs[k].kind)
  {
    if k > 0 {
      KindIsFirst(defs[1..], u, k - 1);
    }
  }

  lemma {:induction false} FirstOfKind(defs: seq<Question>, u: Uuid) returns (k: nat)
    requires KindOf(defs, u).Some?
    ensures IsFirst(defs, u, k) && KindOf(defs, u) == Some(defs[k].kind)
  {
    if defs[0].uuid == u {
      k := 0;
    } else {
      var before := FirstOfKind(defs[1..], u);
      k := before + 1;
    }
  }

  lemma AnswerableIff(f: Features, x: string, u: Uuid)
    ensures IsAnswerable(f, x, u) <==> HasAnswerableType(ListAt(f.definitions, x), u)
  {
    var defs := ListAt(f.definitions, x);
    if KindOf(defs, u).Some? {
      var k := FirstOfKind(defs, u);
    }
    if HasAnswerableType(defs, u) {
      var k :| 0 <= k < |defs| && IsFirst(defs, u, k);
      KindIsFirst(defs, u, k);
    }
  }

  lemma DefinitionsAre(f: Features, x: string, u: Uuid)
    requires KeysDistinct(f)
    ensures IsAnswerable(f, x, u) <==> exists d | d in f.definitions :: d.xpath == x && HasAnswerableType(d.value, u)
  {
    AnswerableIff(f, x, u);
    if d :| d in f.definitions && d.xpath == x && HasAnswerableType(d.value, u) {
      LookupIs(f.definitions, d);
    }
  }

  lemma PosedAre(ctx: Context, e: Entry<seq<Uuid>>, u: Uuid)
    requires KeysDistinct(ctx.features) && e in ctx.features.qual
    ensures u in Questions(ctx, e.xpath) <==> IsPosed(ctx, e, u)
  {
    LookupIs(ctx.features.qual, e);
    DefinitionsAre(ctx.features, e.xpath, u);
  }

  lemma AnswerDecision(doc: Doc, now: int, stall: nat, x: string, u: Uuid)
    requires DocInOrder(doc, now)
    ensures var versions := Node(doc, AnswerOf(x, u));
            AnswerMove(doc, now, stall, x, u) ==
            if EndsIn(versions, Complete) then Good
            else if FailedTwice(versions) then Spent
            else if Running(versions, now, stall) then Wait
            else Ask(AskAnswer(x, u))
  {
    EndOfList(Node(doc, AnswerOf(x, u)), now);
    if !EndsIn(Node(doc, AnswerOf(x, u)), Complete) {
      ChaseIs(Node(doc, AnswerOf(x, u)), now, stall, AskAnswer(x, u));
    }
  }

  lemma QuestionMovesAre(doc: Doc, now: int, stall: nat, x: string, uuids: seq<Uuid>, m: Move)
    ensures m in QuestionMoves(doc, now, stall, x, uuids) <==>
            exists u :: u in uuids && m == AnswerMove(doc, now, stall, x, u)
  {
    var moves := QuestionMoves(doc, now, stall, x, uuids);
    if m in moves {
      var i :| 0 <= i < |moves| && moves[i] == m;
      assert uuids[i] in uuids;
    }
    if u :| u in uuids && m == AnswerMove(doc, now, stall, x, u) {
      var i :| 0 <= i < |uuids| && uuids[i] == u;
      assert moves[i] == m;
    }
  }

  lemma ReadableIsQuestioned(ctx: Context, doc: Doc, now: int, stall: nat, x: string)
    requires DocInOrder(doc, now) && Readable(Node(doc, TranscriptOf(x)))
    ensures RecordingAnswerMoves(ctx, doc, now, stall, x) == QuestionMoves(doc, now, stall, x, Questions(ctx, x))
  {
    EndOfList(Node(doc, TranscriptOf(x)), now);
  }

  /** Over a readable transcript each question is moved on. */
  lemma ReadableIsAnalysed(ctx: Context, doc: Doc, now: int, stall: nat, e: Entry<seq<Uuid>>, m: Move)
    requires DocInOrder(doc, now) && KeysDistinct(ctx.features) && e in ctx.features.qual
    requires Readable(Node(doc, TranscriptOf(e.xpath)))
    ensures m in RecordingAnswerMoves(ctx, doc, now, stall, e.xpath) <==>
            exists u :: IsPosed(ctx, e, u) && m == AnswerMove(doc, now, stall, e.xpath, u)
  {
    ReadableIsQuestioned(ctx, doc, now, stall, e.xpath);
    QuestionMovesAre(doc, now, stall, e.xpath, Questions(ctx, e.xpath), m);
    if u :| u in Questions(ctx, e.xpath) && m == AnswerMove(doc, now, stall, e.xpath, u) {
      PosedAre(ctx, e, u);
    }
    if u :| IsPosed(ctx, e, u) && m == AnswerMove(doc, now, stall, e.xpath, u) {
      PosedAre(ctx, e, u);
    }
  }

  /** Without one the recording is skipped. */
  lemma UnreadableIsSkipped(ctx: Context, doc: Doc, now: int, stall: nat, e: Entry<seq<Uuid>>, m: Move)
    requires DocInOrder(doc, now) && !Readable(Node(doc, TranscriptOf(e.xpath)))
    ensures m in RecordingAnswerMoves(ctx, doc, now, stall, e.xpath) <==> m == Skip
  {
    EndOfList(Node(doc, TranscriptOf(e.xpath)), now);
  }

  /** The PATCH this question about a recording calls for. */
  ghost predicate CallsForAnswer(ctx: Context, s: Settings, doc: Doc, now: int, e: Entry<seq<Uuid>>, u: Uuid,
                                 p: Patch) {
    IsPosed(ctx, e, u) && Readable(Node(doc, TranscriptOf(e.xpath))) &&
    Due(Node(doc, AnswerOf(e.xpath, u)), now, s.stall) && p == AskAnswer(e.xpath, u)
  }

  lemma QuestionSends(ctx: Context, s: Settings, doc: Doc, now: int, e: Entry<seq<Uuid>>, u: Uuid, p: Patch)
    requires DocInOrder(doc, now) && IsPosed(ctx, e, u) && Readable(Node(doc, TranscriptOf(e.xpath)))
    ensures AnswerMove(doc, now, s.stall, e.xpath, u) != Take(p)
    ensures AnswerMove(doc, now, s.stall, e.xpath, u) == Ask(p) <==> CallsForAnswer(ctx, s, doc, now, e, u, p)
  {
    AnswerDecision(doc, now, s.stall, e.xpath, u);
  }

  lemma RecordingAsks(ctx: Context, s: Settings, doc: Doc, now: int, e: Entry<seq<Uuid>>, p: Patch)
    requires DocInOrder(doc, now) && KeysDistinct(ctx.features) && e in ctx.features.qual
    ensures Ask(p) in RecordingAnswerMoves(ctx, doc, now, s.stall, e.xpath) ||
            Take(p) in RecordingAnswerMoves(ctx, doc, now, s.stall, e.xpath) ==>
              exists u :: CallsForAnswer(ctx, s, doc, now, e, u, p)
  {
    var moves := RecordingAnswerMoves(ctx, doc, now, s.stall, e.xpath);
    if m :| m in moves && (m == Ask(p) || m == Take(p)) {
      if Readable(Node(doc, TranscriptOf(e.xpath))) {
        ReadableIsAnalysed(ctx, doc, now, s.stall, e, m);
        var u :| IsPosed(ctx, e, u) && m == AnswerMove(doc, now, s.stall, e.xpath, u);
        QuestionSends(ctx, s, doc, now, e, u, p);
      } else {
        UnreadableIsSkipped(ctx, doc, now, s.stall, e, m);
      }
    }
  }

  lemma CalledForIsAsked(ctx: Context, s: Settings, doc: Doc, now: int, e: Entry<seq<Uuid>>, u: Uuid, p: Patch)
    requires DocInOrder(doc, now) && KeysDistinct(ctx.features) && e in ctx.features.qual
    requires CallsForAnswer(ctx, s, doc, now, e, u, p)
    ensures Ask(p) in RecordingAnswerMoves(ctx, doc, now, s.stall, e.xpath)
  {
    QuestionSends(ctx, s, doc, now, e, u, p);
    ReadableIsAnalysed(ctx, doc, now, s.stall, e, Ask(p));
  }

  lemma SentForQuestion(ctx: Context, s: Settings, doc: Doc, now: int, p: Patch)
    requires DocInOrder(doc, now) && KeysDistinct(ctx.features) && p in StagePatches(ctx, s, doc, now, Qual)
    ensures ctx.cfg.enableQual && exists e, u :: e in ctx.features.qual && CallsForAnswer(ctx, s, doc, now, e, u, p)
  {
    var rows := ctx.features.qual;
    var i := SentFromList(AnswerLists(ctx, doc, now, s.stall), p);
    assert rows[i] in rows;
    RecordingAsks(ctx, s, doc, now, rows[i], p);
  }

  lemma AnswersAreMoves(ctx: Context, s: Settings, doc: Doc, now: int)
    requires ctx.cfg.enableQual
    ensures StagePatches(ctx, s, doc, now, Qual) == Patches(Flat(AnswerLists(ctx, doc, now, s.stall)))
  {
    MovesOfAnalysis(ctx, doc, now, s.stall);
  }

  lemma MovesOfAnalysis(ctx: Context, doc: Doc, now: int, stall: nat)
    requires ctx.cfg.enableQual
    ensures Moves(ctx, doc, now, stall, Qual) == Flat(AnswerLists(ctx, doc, now, stall))
  {
  }

  lemma AskedIsSent(ctx: Context, s: Settings, doc: Doc, now: int, i: nat, p: Patch)
    requires i < |ctx.features.qual| && ctx.cfg.enableQual
    requires Ask(p) in RecordingAnswerMoves(ctx, doc, now, s.stall, ctx.features.qual[i].xpath)
    ensures p in Patches(Flat(AnswerLists(ctx, doc, now, s.stall)))
  {
    ListIsSent(AnswerLists(ctx, doc, now, s.stall), p, i);
  }

  lemma QuestionIsSentFor(ctx: Context, s: Settings, doc: Doc, now: int, e: Entry<seq<Uuid>>, u: Uuid, p: Patch)
    requires DocInOrder(doc, now) && KeysDistinct(ctx.features) && ctx.cfg.enableQual && e in ctx.features.qual
    requires CallsForAnswer(ctx, s, doc, now, e, u, p)
    ensures p in StagePatches(ctx, s, doc, now, Qual)
  {
    CalledForIsAsked(ctx, s, doc, now, e, u, p);
    var i :| 0 <= i < |ctx.features.qual| && ctx.features.qual[i] == e;
    AskedIsSent(ctx, s, doc, now, i, p);
    AnswersAreMoves(ctx, s, doc, now);
  }

  /** Analysis sends exactly what some question about some recording calls for. */
  lemma QualSends(ctx: Context, s: Settings, doc: Doc, now: int, p: Patch)
    requires DocInOrder(doc, now) && KeysDistinct(ctx.features)
    ensures p in StagePatches(ctx, s, doc, now, Qual) <==>
            ctx.cfg.enableQual && exists e, u :: e in ctx.features.qual && CallsForAnswer(ctx, s, doc, now, e, u, p)
  {
    if p in StagePatches(ctx, s, doc, now, Qual) {
      SentForQuestion(ctx, s, doc, now, p);
    } else if ctx.cfg.enableQual {
      forall e, u | e in ctx.features.qual && CallsForAnswer(ctx, s, doc, now, e, u, p) ensures false {
        QuestionIsSentFor(ctx, s, doc, now, e, u, p);
      }
    }
  }

  lemma AboutQuestion(ctx: Context, doc: Doc, now: int, stall: nat, e: Entry<seq<Uuid>>, m: Move)
    requires DocInOrder(doc, now) && KeysDistinct(ctx.features) && e in ctx.features.qual && Sends(m)
    requires m in RecordingAnswerMoves(ctx, doc, now, stall, e.xpath)
    ensures m.patch.xpath == e.xpath
  {
    if Readable(Node(doc, TranscriptOf(e.xpath))) {
      ReadableIsAnalysed(ctx, doc, now, stall, e, m);
      var u :| IsPosed(ctx, e, u) && m == AnswerMove(doc, now, stall, e.xpath, u);
      AnswerDecision(doc, now, stall, e.xpath, u);
    } else {
      UnreadableIsSkipped(ctx, doc, now, stall, e, m);
    }
  }

  /** So does analysis. */
  lemma AnalysesInOrder(ctx: Context, s: Settings, doc: Doc, now: int, a: nat, b: nat) returns (i: nat, j: nat)
    requires DocInOrder(doc, now) && KeysDistinct(ctx.features) && ctx.cfg.enableQual
    requires a < b < |Patches(Flat(AnswerLists(ctx, doc, now, s.stall)))|
    ensures i <= j < |ctx.features.qual| && StagePatches(ctx, s, doc, now, Qual) ==
            Patches(Flat(AnswerLists(ctx, doc, now, s.stall)))
    ensures StagePatches(ctx, s, doc, now, Qual)[a].xpath == ctx.features.qual[i].xpath
    ensures StagePatches(ctx, s, doc, now, Qual)[b].xpath == ctx.features.qual[j].xpath
  {
    var lists := AnswerLists(ctx, doc, now, s.stall);
    var m, n := PatchesInOrder(Flat(lists), a, b);
    i, j := FlatInOrder(lists, m, n);
    AboutQuestion(ctx, doc, now, s.stall, ctx.features.qual[i], Flat(lists)[m]);
    AboutQuestion(ctx, doc, now, s.stall, ctx.features.qual[j], Flat(lists)[n]);
    AnswersAreMoves(ctx, s, doc, now);
  }

  /** The questions about one recording are gone through in their order. */
  lemma QuestionsInOrder(doc: Doc, now: int, stall: nat, x: string, uuids: seq<Uuid>, a: nat, b: nat)
    returns (i: nat, j: nat)
    requires DocInOrder(doc, now) && a < b < |Patches(QuestionMoves(doc, now, stall, x, uuids))|
    ensures i < j < |uuids|
    ensures Patches(QuestionMoves(doc, now, stall, x, uuids))[a] == AskAnswer(x, uuids[i])
    ensures Patches(QuestionMoves(doc, now, stall, x, uuids))[b] == AskAnswer(x, uuids[j])
  {
    i, j := PatchesInOrder(QuestionMoves(doc, now, stall, x, uuids), a, b);
    AnswerDecision(doc, now, stall, x, uuids[i]);
    AnswerDecision(doc, now, stall, x, uuids[j]);
  }

  // ---- where the job goes -----------------------------------------------------------------------

  /** Still to come, or still to be asked for. */
  predicate Unsettled(versions: seq<Version>) {
    !EndsIn(versions, Complete) && !FailedTwice(versions)
  }

  lemma UnsettledIs(versions: seq<Version>, now: int, stall: nat)
    ensures Unsettled(versions) <==> Due(versions, now, stall) || Running(versions, now, stall)
  {
  }

  predicate TranscriptPending(versions: seq<Version>) {
    Unsettled(versions) || (Worded(versions) && Unaccepted(versions))
  }

  lemma TranscriptBusyIff(ctx: Context, doc: Doc, now: int, stall: nat, e: Entry<string>)
    requires DocInOrder(doc, now)
    ensures var m, versions := TranscriptMove(ctx, doc, now, stall, e), Node(doc, TranscriptOf(e.xpath));
            (Sends(m) || m == Wait <==> TranscriptPending(versions)) && (m == Good <==> Readable(versions)) &&
            (m == Quiet <==> Speechless(versions)) && (m == Spent <==> FailedTwice(versions))
  {
    var l := RequestLanguage(ctx.cfg.transcriptLanguage, e.value);
    TranscriptDecision(ctx, doc, now, stall, e);
    TranscriptTells(Node(doc, TranscriptOf(e.xpath)), now, stall, AcceptTranscript(e.xpath, Base(l), Locale(l)),
                    AskTranscript(e.xpath, Base(l), Locale(l)), TranscriptMove(ctx, doc, now, stall, e));
  }

  lemma TranscriptTells(versions: seq<Version>, now: int, stall: nat, acceptance: Patch, request: Patch, m: Move)
    requires m == if Speechless(versions) then Quiet
                  else if Readable(versions) then Good
                  else if Unaccepted(versions) then Take(acceptance)
                  else if FailedTwice(versions) then Spent
                  else if Running(versions, now, stall) then Wait
                  else Ask(request)
    ensures (Sends(m) || m == Wait <==> TranscriptPending(versions)) && (m == Good <==> Readable(versions)) &&
            (m == Quiet <==> Speechless(versions)) && (m == Spent <==> FailedTwice(versions))
  {
  }

  lemma TranscriptMovesAre(ctx: Context, doc: Doc, now: int, stall: nat, m: Move)
    ensures m in TranscriptMoves(ctx, doc, now, stall) <==>
            exists e :: e in ctx.features.transcribe && m == TranscriptMove(ctx, doc, now, stall, e)
  {
    var rows, moves := ctx.features.transcribe, TranscriptMoves(ctx, doc, now, stall);
    if m in moves {
      var i :| 0 <= i < |moves| && moves[i] == m;
      assert rows[i] in rows;
    }
    if e :| e in rows && m == TranscriptMove(ctx, doc, now, stall, e) {
      var i :| 0 <= i < |rows| && rows[i] == e;
      assert moves[i] == m;
    }
  }

  lemma TranscriptsBusyIff(ctx: Context, doc: Doc, now: int, stall: nat)
    requires DocInOrder(doc, now)
    ensures Busy(TranscriptMoves(ctx, doc, now, stall)) <==>
            exists e | e in ctx.features.transcribe :: TranscriptPending(Node(doc, TranscriptOf(e.xpath)))
  {
    var moves := TranscriptMoves(ctx, doc, now, stall);
    if m :| m in moves && (Sends(m) || m == Wait) {
      TranscriptMovesAre(ctx, doc, now, stall, m);
      var e :| e in ctx.features.transcribe && m == TranscriptMove(ctx, doc, now, stall, e);
      TranscriptBusyIff(ctx, doc, now, stall, e);
    }
    if e :| e in ctx.features.transcribe && TranscriptPending(Node(doc, TranscriptOf(e.xpath))) {
      TranscriptMovesAre(ctx, doc, now, stall, TranscriptMove(ctx, doc, now, stall, e));
      TranscriptBusyIff(ctx, doc, now, stall, e);
    }
  }

  lemma SomeReadable(ctx: Context, doc: Doc, now: int, stall: nat)
    requires DocInOrder(doc, now)
    ensures Good in TranscriptMoves(ctx, doc, now, stall) <==>
            exists e | e in ctx.features.transcribe :: Readable(Node(doc, TranscriptOf(e.xpath)))
  {
    TranscriptMovesAre(ctx, doc, now, stall, Good);
    forall e ensures TranscriptMove(ctx, doc, now, stall, e) == Good <==> Readable(Node(doc, TranscriptOf(e.xpath))) {
      TranscriptBusyIff(ctx, doc, now, stall, e);
    }
  }

  /** With nothing pending and nothing readable every recording is speechless or has failed twice. */
  lemma NothingReadable(ctx: Context, doc: Doc, now: int, stall: nat)
    requires DocInOrder(doc, now) && !Busy(TranscriptMoves(ctx, doc, now, stall))
    requires Good !in TranscriptMoves(ctx, doc, now, stall)
    ensures Quiet in TranscriptMoves(ctx, doc, now, stall) || Spent in TranscriptMoves(ctx, doc, now, stall) <==>
            ctx.features.transcribe != []
  {
    var moves := TranscriptMoves(ctx, doc, now, stall);
    if moves != [] {
      assert moves[0] in moves;
      TranscriptDecision(ctx, doc, now, stall, ctx.features.transcribe[0]);
    }
  }

  /** Transcription is returned to after the poll interval while anything is pending; else a readable transcript is
      handed on in two seconds; else the job ends, as failed if there was anything to transcribe. */
  lemma TranscribeVerdictIs(ctx: Context, s: Settings, doc: Doc, now: int, stage: Stage)
    requires DocInOrder(doc, now) && (stage == New || stage == Transcribe)
    ensures StageVerdict(ctx, s, doc, now, stage) ==
            if exists e | e in ctx.features.transcribe :: TranscriptPending(Node(doc, TranscriptOf(e.xpath)))
            then Verdict(Transcribe, s.asyncPoll)
            else if exists e | e in ctx.features.transcribe :: Readable(Node(doc, TranscriptOf(e.xpath)))
            then Verdict(if ctx.features.translate != [] then Translate else Qual, 2)
            else Verdict(if ctx.features.transcribe != [] then Parked else Done, 0)
  {
    TranscriptsBusyIff(ctx, doc, now, s.stall);
    SomeReadable(ctx, doc, now, s.stall);
    if !Busy(TranscriptMoves(ctx, doc, now, s.stall)) && Good !in TranscriptMoves(ctx, doc, now, s.stall) {
      NothingReadable(ctx, doc, now, s.stall);
    }
  }

  lemma TranslationsAre(ctx: Context, doc: Doc, now: int, stall: nat, m: Move)
    ensures m in Flat(TranslationLists(ctx, doc, now, stall)) <==>
            exists e :: e in ctx.features.translate && m in RecordingTranslationMoves(ctx, doc, now, stall, e)
  {
    var rows, lists := ctx.features.translate, TranslationLists(ctx, doc, now, stall);
    FlatMembers(lists);
    if m in Flat(lists) {
      var i :| 0 <= i < |lists| && m in lists[i];
      assert rows[i] in rows;
    }
    if e :| e in rows && m in RecordingTranslationMoves(ctx, doc, now, stall, e) {
      var i :| 0 <= i < |rows| && rows[i] == e;
      assert m in lists[i];
    }
  }

  predicate TranslationPending(versions: seq<Version>) {
    Unsettled(versions) || Unaccepted(versions)
  }

  /** A target over a readable transcript has something still to come, to be asked for or to be accepted. */
  ghost predicate PendingTarget(ctx: Context, doc: Doc, e: Entry<seq<string>>, l: string) {
    IsTarget(ctx, e, l) && Readable(Node(doc, TranscriptOf(e.xpath))) &&
    TranslationPending(Node(doc, TranslationOf(e.xpath, l)))
  }

  /** A target whose transcript is neither readable nor speechless. */
  ghost predicate BlockedTarget(ctx: Context, doc: Doc, e: Entry<seq<string>>, l: string) {
    IsTarget(ctx, e, l) && !Readable(Node(doc, TranscriptOf(e.xpath))) && !Speechless(Node(doc, TranscriptOf(e.xpath)))
  }

  lemma PendingIsBusy(ctx: Context, doc: Doc, now: int, stall: nat, e: Entry<seq<string>>, l: string)
    requires DocInOrder(doc, now) && KeysDistinct(ctx.features) && e in ctx.features.translate
    requires PendingTarget(ctx, doc, e, l)
    ensures Busy(Flat(TranslationLists(ctx, doc, now, stall)))
  {
    var m := TranslationMove(doc, now, stall, e.xpath, l);
    TranslationDecision(doc, now, stall, e.xpath, l);
    ReadableIsTranslated(ctx, doc, now, stall, e, m);
    TranslationsAre(ctx, doc, now, stall, m);
  }

  lemma TargetIsPending(ctx: Context, doc: Doc, now: int, stall: nat, e: Entry<seq<string>>, l: string)
    requires DocInOrder(doc, now) && IsTarget(ctx, e, l) && Readable(Node(doc, TranscriptOf(e.xpath)))
    ensures var m := TranslationMove(doc, now, stall, e.xpath, l);
            (Sends(m) || m == Wait <==> PendingTarget(ctx, doc, e, l)) && m != Blocked
  {
    TranslationDecision(doc, now, stall, e.xpath, l);
  }

  lemma BusyMoveIsPending(ctx: Context, doc: Doc, now: int, stall: nat, e: Entry<seq<string>>, m: Move)
    returns (l: string)
    requires DocInOrder(doc, now) && KeysDistinct(ctx.features)
    requires m in RecordingTranslationMoves(ctx, doc, now, stall, e) && (Sends(m) || m == Wait)
    ensures PendingTarget(ctx, doc, e, l)
  {
    if Readable(Node(doc, TranscriptOf(e.xpath))) {
      ReadableIsTranslated(ctx, doc, now, stall, e, m);
      l :| IsTarget(ctx, e, l) && m == TranslationMove(doc, now, stall, e.xpath, l);
      TargetIsPending(ctx, doc, now, stall, e, l);
    } else {
      UnreadableIsBlocked(ctx, doc, now, stall, e, m);
    }
  }

  lemma BusyIsPending(ctx: Context, doc: Doc, now: int, stall: nat)
    requires DocInOrder(doc, now) && KeysDistinct(ctx.features) && Busy(Flat(TranslationLists(ctx, doc, now, stall)))
    ensures exists e, l :: e in ctx.features.translate && PendingTarget(ctx, doc, e, l)
  {
    var m :| m in Flat(TranslationLists(ctx, doc, now, stall)) && (Sends(m) || m == Wait);
    TranslationsAre(ctx, doc, now, stall, m);
    var e :| e in ctx.features.translate && m in RecordingTranslationMoves(ctx, doc, now, stall, e);
    var l := BusyMoveIsPending(ctx, doc, now, stall, e, m);
  }

  lemma BlockedMoveIsBlocked(ctx: Context, doc: Doc, now: int, stall: nat, e: Entry<seq<string>>) returns (l: string)
    requires DocInOrder(doc, now) && KeysDistinct(ctx.features)
    requires Blocked in RecordingTranslationMoves(ctx, doc, now, stall, e)
    ensures BlockedTarget(ctx, doc, e, l)
  {
    if Readable(Node(doc, TranscriptOf(e.xpath))) {
      ReadableIsTranslated(ctx, doc, now, stall, e, Blocked);
      l :| IsTarget(ctx, e, l) && Blocked == TranslationMove(doc, now, stall, e.xpath, l);
      TargetIsPending(ctx, doc, now, stall, e, l);
    } else {
      UnreadableIsBlocked(ctx, doc, now, stall, e, Blocked);
      l :| IsTarget(ctx, e, l);
    }
  }

  lemma SomeTargetBlocked(ctx: Context, doc: Doc, now: int, stall: nat)
    requires DocInOrder(doc, now) && KeysDistinct(ctx.features) &&
             Blocked in Flat(TranslationLists(ctx, doc, now, stall))
    ensures exists e, l :: e in ctx.features.translate && BlockedTarget(ctx, doc, e, l)
  {
    TranslationsAre(ctx, doc, now, stall, Blocked);
    var e :| e in ctx.features.translate && Blocked in RecordingTranslationMoves(ctx, doc, now, stall, e);
    var l := BlockedMoveIsBlocked(ctx, doc, now, stall, e);
  }

  lemma BlockedTargetBlocks(ctx: Context, doc: Doc, now: int, stall: nat, e: Entry<seq<string>>, l: string)
    requires DocInOrder(doc, now) && KeysDistinct(ctx.features) && e in ctx.features.translate
    requires BlockedTarget(ctx, doc, e, l)
    ensures Blocked in Flat(TranslationLists(ctx, doc, now, stall))
  {
    UnreadableIsBlocked(ctx, doc, now, stall, e, Blocked);
    TranslationsAre(ctx, doc, now, stall, Blocked);
  }

  /** Translation is returned to after the poll interval while a target is pending; else it hands back in two seconds
      while a target is blocked, and on to analysis when none is. */
  lemma TranslateVerdictIs(ctx: Context, s: Settings, doc: Doc, now: int)
    requires DocInOrder(doc, now) && KeysDistinct(ctx.features)
    ensures StageVerdict(ctx, s, doc, now, Translate) ==
            if exists e, l :: e in ctx.features.translate && PendingTarget(ctx, doc, e, l)
            then Verdict(Translate, s.asyncPoll)
            else if exists e, l :: e in ctx.features.translate && BlockedTarget(ctx, doc, e, l)
            then Verdict(Transcribe, 2)
            else Verdict(Qual, 2)
  {
    if Busy(Flat(TranslationLists(ctx, doc, now, s.stall))) {
      BusyIsPending(ctx, doc, now, s.stall);
    } else if Blocked in Flat(TranslationLists(ctx, doc, now, s.stall)) {
      SomeTargetBlocked(ctx, doc, now, s.stall);
    }
    if e, l :| e in ctx.features.translate && PendingTarget(ctx, doc, e, l) {
      PendingIsBusy(ctx, doc, now, s.stall, e, l);
    } else if e, l :| e in ctx.features.translate && BlockedTarget(ctx, doc, e, l) {
      BlockedTargetBlocks(ctx, doc, now, s.stall, e, l);
    }
  }

  lemma AnswersAre(ctx: Context, doc: Doc, now: int, stall: nat, m: Move)
    ensures m in Flat(AnswerLists(ctx, doc, now, stall)) <==>
            exists e :: e in ctx.features.qual && m in RecordingAnswerMoves(ctx, doc, now, stall, e.xpath)
  {
    var rows, lists := ctx.features.qual, AnswerLists(ctx, doc, now, stall);
    FlatMembers(lists);
    if m in Flat(lists) {
      var i :| 0 <= i < |lists| && m in lists[i];
      assert rows[i] in rows;
    }
    if e :| e in rows && m in RecordingAnswerMoves(ctx, doc, now, stall, e.xpath) {
      var i :| 0 <= i < |rows| && rows[i] == e;
      assert m in lists[i];
    }
  }

  /** A question posed about a readable transcript. */
  ghost predicate Asked(ctx: Context, doc: Doc, e: Entry<seq<Uuid>>, u: Uuid) {
    e in ctx.features.qual && IsPosed(ctx, e, u) && Readable(Node(doc, TranscriptOf(e.xpath)))
  }

  /** What analysis makes of a document: of the questions asked, and of the recordings it had to skip. */
  lemma AnswersFrom(ctx: Context, doc: Doc, now: int, stall: nat, m: Move)
    requires DocInOrder(doc, now) && KeysDistinct(ctx.features)
    ensures m in Flat(AnswerLists(ctx, doc, now, stall)) ==>
              (exists e, u :: Asked(ctx, doc, e, u) && m == AnswerMove(doc, now, stall, e.xpath, u)) ||
              (m == Skip && exists e | e in ctx.features.qual :: !Readable(Node(doc, TranscriptOf(e.xpath))))
  {
    AnswersAre(ctx, doc, now, stall, m);
    if e :| e in ctx.features.qual && m in RecordingAnswerMoves(ctx, doc, now, stall, e.xpath) {
      if Readable(Node(doc, TranscriptOf(e.xpath))) {
        ReadableIsAnalysed(ctx, doc, now, stall, e, m);
        var u :| IsPosed(ctx, e, u) && m == AnswerMove(doc, now, stall, e.xpath, u);
        assert Asked(ctx, doc, e, u);
      } else {
        UnreadableIsSkipped(ctx, doc, now, stall, e, m);
      }
    }
  }

  lemma AskedIsAnswered(ctx: Context, doc: Doc, now: int, stall: nat, e: Entry<seq<Uuid>>, u: Uuid)
    requires DocInOrder(doc, now) && KeysDistinct(ctx.features) && Asked(ctx, doc, e, u)
    ensures AnswerMove(doc, now, stall, e.xpath, u) in Flat(AnswerLists(ctx, doc, now, stall))
  {
    ReadableIsAnalysed(ctx, doc, now, stall, e, AnswerMove(doc, now, stall, e.xpath, u));
    AnswersAre(ctx, doc, now, stall, AnswerMove(doc, now, stall, e.xpath, u));
  }

  ghost predicate SomeSkipped(ctx: Context, doc: Doc) {
    exists e | e in ctx.features.qual :: !Readable(Node(doc, TranscriptOf(e.xpath)))
  }

  lemma SkippedIff(ctx: Context, doc: Doc, now: int, stall: nat)
    requires DocInOrder(doc, now) && KeysDistinct(ctx.features)
    ensures Skip in Flat(AnswerLists(ctx, doc, now, stall)) <==> SomeSkipped(ctx, doc)
  {
    AnswersFrom(ctx, doc, now, stall, Skip);
    forall e, u ensures AnswerMove(doc, now, stall, e, u) != Skip {
      AnswerDecision(doc, now, stall, e, u);
    }
    if e :| e in ctx.features.qual && !Readable(Node(doc, TranscriptOf(e.xpath))) {
      UnreadableIsSkipped(ctx, doc, now, stall, e, Skip);
      AnswersAre(ctx, doc, now, stall, Skip);
    }
  }

  /** Some question asked has an answer in this state. */
  ghost predicate SomeAnswer(ctx: Context, doc: Doc, test: seq<Version> -> bool) {
    exists e, u :: Asked(ctx, doc, e, u) && test(Node(doc, AnswerOf(e.xpath, u)))
  }

  lemma QuestionTells(doc: Doc, now: int, stall: nat, x: string, u: Uuid)
    requires DocInOrder(doc, now)
    ensures var m, versions := AnswerMove(doc, now, stall, x, u), Node(doc, AnswerOf(x, u));
            (Sends(m) || m == Wait <==> Unsettled(versions)) && (m == Spent <==> FailedTwice(versions)) &&
            (m == Good <==> EndsIn(versions, Complete)) && m != Skip
  {
    AnswerDecision(doc, now, stall, x, u);
    DecisionTells(Node(doc, AnswerOf(x, u)), now, stall, AskAnswer(x, u), AnswerMove(doc, now, stall, x, u));
  }

  lemma DecisionTells(versions: seq<Version>, now: int, stall: nat, request: Patch, m: Move)
    requires m == if EndsIn(versions, Complete) then Good
                  else if FailedTwice(versions) then Spent
                  else if Running(versions, now, stall) then Wait
                  else Ask(request)
    ensures (Sends(m) || m == Wait <==> Unsettled(versions)) && (m == Spent <==> FailedTwice(versions)) &&
            (m == Good <==> EndsIn(versions, Complete)) && m != Skip
  {
  }

  lemma AnswersBusyIff(ctx: Context, doc: Doc, now: int, stall: nat)
    requires DocInOrder(doc, now) && KeysDistinct(ctx.features)
    ensures Busy(Flat(AnswerLists(ctx, doc, now, stall))) <==> SomeAnswer(ctx, doc, Unsettled)
  {
    if m :| m in Flat(AnswerLists(ctx, doc, now, stall)) && (Sends(m) || m == Wait) {
      AnswersFrom(ctx, doc, now, stall, m);
      var e, u :| Asked(ctx, doc, e, u) && m == AnswerMove(doc, now, stall, e.xpath, u);
      QuestionTells(doc, now, stall, e.xpath, u);
    }
    if e, u :| Asked(ctx, doc, e, u) && Unsettled(Node(doc, AnswerOf(e.xpath, u))) {
      AskedIsAnswered(ctx, doc, now, stall, e, u);
      QuestionTells(doc, now, stall, e.xpath, u);
    }
  }

  lemma AnswersEndIff(ctx: Context, doc: Doc, now: int, stall: nat, m: Move)
    requires DocInOrder(doc, now) && KeysDistinct(ctx.features) && (m == Spent || m == Good)
    ensures m in Flat(AnswerLists(ctx, doc, now, stall)) <==>
            SomeAnswer(ctx, doc, if m == Spent then FailedTwice else IsAnswered())
  {
    if m in Flat(AnswerLists(ctx, doc, now, stall)) {
      AnswersFrom(ctx, doc, now, stall, m);
      var e, u :| Asked(ctx, doc, e, u) && m == AnswerMove(doc, now, stall, e.xpath, u);
      QuestionTells(doc, now, stall, e.xpath, u);
    }
    forall e, u | Asked(ctx, doc, e, u) &&
      (if m == Spent then FailedTwice else IsAnswered())(Node(doc, AnswerOf(e.xpath, u)))
      ensures m in Flat(AnswerLists(ctx, doc, now, stall)) {
      AskedIsAnswered(ctx, doc, now, stall, e, u);
      QuestionTells(doc, now, stall, e.xpath, u);
    }
  }

  function IsAnswered(): seq<Version> -> bool {
    versions => EndsIn(versions, Complete)
  }

  /** Without analysis the job is done. Otherwise analysis is returned to after the poll interval while an answer is
      pending; else the job ends, as failed if an answer was given up, or if a recording was skipped and nothing was
      answered. */
  lemma QualVerdictIs(ctx: Context, s: Settings, doc: Doc, now: int)
    requires DocInOrder(doc, now) && KeysDistinct(ctx.features)
    ensures StageVerdict(ctx, s, doc, now, Qual) ==
            if !ctx.cfg.enableQual then Verdict(Done, 0)
            else if SomeAnswer(ctx, doc, Unsettled) then Verdict(Qual, s.asyncPoll)
            else if SomeAnswer(ctx, doc, FailedTwice) then Verdict(Parked, 0)
            else if !SomeAnswer(ctx, doc, IsAnswered()) && SomeSkipped(ctx, doc) then Verdict(Parked, 0)
            else Verdict(Done, 0)
  {
    if ctx.cfg.enableQual {
      MovesOfAnalysis(ctx, doc, now, s.stall);
    }
    AnswersBusyIff(ctx, doc, now, s.stall);
    AnswersEndIff(ctx, doc, now, s.stall, Spent);
    AnswersEndIff(ctx, doc, now, s.stall, Good);
    SkippedIff(ctx, doc, now, s.stall);
  }

  /** A finished job has no handler: nothing is sent and it is done. */
  lemma FinishedIsDone(ctx: Context, s: Settings, doc: Doc, now: int, stage: Stage)
    requires stage == Done || stage == Parked
    ensures StagePatches(ctx, s, doc, now, stage) == [] && StageVerdict(ctx, s, doc, now, stage) == Verdict(Done, 0)
  {
  }

  // ---- an attempt that is running -----------------------------------------------------------------

  /** The latest attempt is running and began then. */
  predicate RunningSince(versions: seq<Version>, started: int) {
    EndsIn(versions, InProgress) && versions[|versions| - 1].created == Some(started) && started != 0
  }

  lemma TargetIsBare(ctx: Context, e: Entry<seq<string>>, l: string)
    requires WellFormed(ctx.features) && e in ctx.features.translate && IsTarget(ctx, e, l)
    ensures Base(l) == l
  {
    assert Bare(l);
  }

  /** What is sent about an action was due, or waiting to be accepted. */
  lemma SentIsDue(ctx: Context, s: Settings, doc: Doc, now: int, stage: Stage, p: Patch)
    requires DocInOrder(doc, now) && WellFormed(ctx.features) && p in StagePatches(ctx, s, doc, now, stage)
    ensures Due(Node(doc, KeyOf(p)), now, s.stall) || Unaccepted(Node(doc, KeyOf(p)))
  {
    if stage == Translate {
      TranslationSentIsDue(ctx, s, doc, now, p);
    } else if stage == Qual {
      AnswerSentIsDue(ctx, s, doc, now, p);
    } else if !Terminal(stage) {
      TranscriptSentIsDue(ctx, s, doc, now, p);
    }
  }

  lemma TranscriptSentIsDue(ctx: Context, s: Settings, doc: Doc, now: int, p: Patch)
    requires DocInOrder(doc, now) && p in Patches(TranscriptMoves(ctx, doc, now, s.stall))
    ensures Due(Node(doc, KeyOf(p)), now, s.stall) || Unaccepted(Node(doc, KeyOf(p)))
  {
    SentForRecording(ctx, s, doc, now, p);
  }

  lemma AnswerSentIsDue(ctx: Context, s: Settings, doc: Doc, now: int, p: Patch)
    requires DocInOrder(doc, now) && KeysDistinct(ctx.features) && p in StagePatches(ctx, s, doc, now, Qual)
    ensures Due(Node(doc, KeyOf(p)), now, s.stall)
  {
    SentForQuestion(ctx, s, doc, now, p);
  }

  lemma TranslationSentIsDue(ctx: Context, s: Settings, doc: Doc, now: int, p: Patch)
    requires DocInOrder(doc, now) && WellFormed(ctx.features) && p in StagePatches(ctx, s, doc, now, Translate)
    ensures Due(Node(doc, KeyOf(p)), now, s.stall) || Unaccepted(Node(doc, KeyOf(p)))
  {
    SentForTarget(ctx, s, doc, now, p);
    var e, l :| e in ctx.features.translate && CallsForTranslation(ctx, s, doc, now, e, l, p);
    TargetIsBare(ctx, e, l);
    CalledForIsDue(ctx, s, doc, now, e, l, p);
  }

  lemma CalledForIsDue(ctx: Context, s: Settings, doc: Doc, now: int, e: Entry<seq<string>>, l: string, p: Patch)
    requires CallsForTranslation(ctx, s, doc, now, e, l, p) && Base(l) == l
    ensures Due(Node(doc, KeyOf(p)), now, s.stall) || Unaccepted(Node(doc, KeyOf(p)))
  {
  }

  lemma RunningIsSentForIff(versions: seq<Version>, started: int, now: int, stall: nat)
    requires RunningSince(versions, started)
    ensures !Unaccepted(versions) && Unsettled(versions) && (Due(versions, now, stall) <==> now - started > stall)
  {
  }

  /** What is running is sent for at most when it is due. */
  lemma SentIsStalled(ctx: Context, s: Settings, doc: Doc, now: int, stage: Stage, key: Key, started: int)
    requires DocInOrder(doc, now) && WellFormed(ctx.features) && RunningSince(Node(doc, key), started)
    requires exists p :: p in StagePatches(ctx, s, doc, now, stage) && KeyOf(p) == key
    ensures now - started > s.stall
  {
    var p :| p in StagePatches(ctx, s, doc, now, stage) && KeyOf(p) == key;
    SentIsDue(ctx, s, doc, now, stage, p);
    RunningIsSentForIff(Node(doc, key), started, now, s.stall);
  }

  lemma StalledTranscriptIsSentFor(ctx: Context, s: Settings, doc: Doc, now: int, e: Entry<string>, started: int)
    returns (p: Patch)
    requires DocInOrder(doc, now) && e in ctx.features.transcribe
    requires RunningSince(Node(doc, TranscriptOf(e.xpath)), started) && now - started > s.stall
    ensures p in StagePatches(ctx, s, doc, now, Transcribe) && KeyOf(p) == TranscriptOf(e.xpath)
  {
    var l := RequestLanguage(ctx.cfg.transcriptLanguage, e.value);
    p := AskTranscript(e.xpath, Base(l), Locale(l));
    DueIsTranscribed(ctx, s, doc, now, e, p);
  }

  /** A running transcription is asked for again exactly when it began longer ago than the stall limit. It is waited
      for until then, and looked at again after the poll interval either way. */
  lemma StalledTranscript(ctx: Context, s: Settings, doc: Doc, now: int, e: Entry<string>, started: int)
    requires DocInOrder(doc, now) && WellFormed(ctx.features) && e in ctx.features.transcribe
    requires RunningSince(Node(doc, TranscriptOf(e.xpath)), started)
    ensures (exists p :: p in StagePatches(ctx, s, doc, now, Transcribe) && KeyOf(p) == TranscriptOf(e.xpath)) <==>
            now - started > s.stall
    ensures StageVerdict(ctx, s, doc, now, Transcribe) == Verdict(Transcribe, s.asyncPoll)
  {
    if exists p :: p in StagePatches(ctx, s, doc, now, Transcribe) && KeyOf(p) == TranscriptOf(e.xpath) {
      SentIsStalled(ctx, s, doc, now, Transcribe, TranscriptOf(e.xpath), started);
    }
    if now - started > s.stall {
      var p := StalledTranscriptIsSentFor(ctx, s, doc, now, e, started);
    }
    RunningIsSentForIff(Node(doc, TranscriptOf(e.xpath)), started, now, s.stall);
    TranscribeVerdictIs(ctx, s, doc, now, Transcribe);
  }

  lemma StalledTranslationIsSentFor(ctx: Context, s: Settings, doc: Doc, now: int, e: Entry<seq<string>>, l: string,
                                    started: int)
    returns (p: Patch)
    requires DocInOrder(doc, now) && KeysDistinct(ctx.features) && e in ctx.features.translate && IsTarget(ctx, e, l)
    requires Readable(Node(doc, TranscriptOf(e.xpath))) && RunningSince(Node(doc, TranslationOf(e.xpath, l)), started)
    requires now - started > s.stall && Base(l) == l
    ensures p in StagePatches(ctx, s, doc, now, Translate) && KeyOf(p) == TranslationOf(e.xpath, l)
  {
    p := AskTranslation(e.xpath, l);
    RunningIsSentForIff(Node(doc, TranslationOf(e.xpath, l)), started, now, s.stall);
    TargetIsSentFor(ctx, s, doc, now, e, l, p);
  }

  /** The same for a translation over a readable transcript. */
  lemma StalledTranslation(ctx: Context, s: Settings, doc: Doc, now: int, e: Entry<seq<string>>, l: string,
                           started: int)
    requires DocInOrder(doc, now) && WellFormed(ctx.features) && e in ctx.features.translate && IsTarget(ctx, e, l)
    requires Readable(Node(doc, TranscriptOf(e.xpath))) && RunningSince(Node(doc, TranslationOf(e.xpath, l)), started)
    ensures (exists p :: p in StagePatches(ctx, s, doc, now, Translate) && KeyOf(p) == TranslationOf(e.xpath, l)) <==>
            now - started > s.stall
    ensures StageVerdict(ctx, s, doc, now, Translate) == Verdict(Translate, s.asyncPoll)
  {
    if exists p :: p in StagePatches(ctx, s, doc, now, Translate) && KeyOf(p) == TranslationOf(e.xpath, l) {
      SentIsStalled(ctx, s, doc, now, Translate, TranslationOf(e.xpath, l), started);
    }
    if now - started > s.stall {
      TargetIsBare(ctx, e, l);
      var p := StalledTranslationIsSentFor(ctx, s, doc, now, e, l, started);
    }
    PendingIsBusy(ctx, doc, now, s.stall, e, l);
  }

  lemma StalledAnswerIsSentFor(ctx: Context, s: Settings, doc: Doc, now: int, e: Entry<seq<Uuid>>, u: Uuid,
                               started: int)
    returns (p: Patch)
    requires DocInOrder(doc, now) && KeysDistinct(ctx.features) && ctx.cfg.enableQual && Asked(ctx, doc, e, u)
    requires RunningSince(Node(doc, AnswerOf(e.xpath, u)), started) && now - started > s.stall
    ensures p in StagePatches(ctx, s, doc, now, Qual) && KeyOf(p) == AnswerOf(e.xpath, u)
  {
    p := AskAnswer(e.xpath, u);
    RunningIsSentForIff(Node(doc, AnswerOf(e.xpath, u)), started, now, s.stall);
    QuestionIsSentFor(ctx, s, doc, now, e, u, p);
  }

  /** The same for an answer about a readable transcript. */
  lemma StalledAnswer(ctx: Context, s: Settings, doc: Doc, now: int, e: Entry<seq<Uuid>>, u: Uuid, started: int)
    requires DocInOrder(doc, now) && WellFormed(ctx.features) && ctx.cfg.enableQual && Asked(ctx, doc, e, u)
    requires RunningSince(Node(doc, AnswerOf(e.xpath, u)), started)
    ensures (exists p :: p in StagePatches(ctx, s, doc, now, Qual) && KeyOf(p) == AnswerOf(e.xpath, u)) <==>
            now - started > s.stall
    ensures StageVerdict(ctx, s, doc, now, Qual) == Verdict(Qual, s.asyncPoll)
  {
    if exists p :: p in StagePatches(ctx, s, doc, now, Qual) && KeyOf(p) == AnswerOf(e.xpath, u) {
      SentIsStalled(ctx, s, doc, now, Qual, AnswerOf(e.xpath, u), started);
    }
    if now - started > s.stall {
      var p := StalledAnswerIsSentFor(ctx, s, doc, now, e, u, started);
    }
    RunningIsSentForIff(Node(doc, AnswerOf(e.xpath, u)), started, now, s.stall);
    QualVerdictIs(ctx, s, doc, now);
  }
}
