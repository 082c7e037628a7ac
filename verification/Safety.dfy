/** Protocol safety: on a document whose versions are dated in order, every PATCH of a pass is one the server admits. */
module Safety {
  import opened Versions
  import opened Languages
  import opened Features
  import opened Protocol
  import opened Jobs
  import opened Handlers
  import opened Plans

  /** The server lists an action's versions in the order they were created, none in the future,
      and has accepted only what had finished. */
  predicate InOrder(versions: seq<Version>, now: int) {
    AllDated(versions) && DateSorted(versions) &&
    forall v | v in versions :: Date(v) <= now && (v.accepted ==> v.status == Complete)
  }

  ghost predicate DocInOrder(doc: Doc, now: int) {
    forall key :: InOrder(Node(doc, key), now)
  }

  /** The settled facts a theorem about runs assumes of the form's configuration. */
  ghost predicate Sound(ctx: Context) {
    Loaded(ctx) && WellFormed(ctx.features)
  }

  /** With one PATCH a key, each action is changed by its own PATCH alone. */
  lemma {:induction false} EffectOnKey(doc: Doc, ps: seq<Patch>, now: int, key: Key)
    requires DistinctKeysOf(ps)
    ensures (forall p | p in ps :: KeyOf(p) != key) ==> Node(ApplyAll(doc, ps, now), key) == Node(doc, key)
    ensures forall p | p in ps && KeyOf(p) == key ::
              Node(ApplyAll(doc, ps, now), key) == Entered(Node(doc, key), IsRequest(p), now)
  {
    if ps != [] {
      var n := |ps| - 1;
      EffectOnKey(doc, Front(ps), now, key);
      LastKeyIsNew(ps);
      NodeAfter(ApplyAll(doc, Front(ps), now), ps[n], now, key);
    }
  }

  lemma LastKeyIsNew(ps: seq<Patch>)
    requires DistinctKeysOf(ps) && ps != []
    ensures DistinctKeysOf(Front(ps)) && forall p | p in Front(ps) :: p in ps && KeyOf(p) != KeyOf(Last(ps))
    ensures Last(ps) in ps && forall p | p in ps :: p in Front(ps) || p == Last(ps)
  {
    forall p | p in Front(ps) ensures p in ps && KeyOf(p) != KeyOf(Last(ps)) {
      var i :| 0 <= i < |ps| - 1 && ps[i] == p;
    }
  }

  lemma NodeAfter(doc: Doc, p: Patch, now: int, key: Key)
    ensures Node(Applied(doc, p, now), key) == if KeyOf(p) == key then Entered(Node(doc, key), IsRequest(p), now)
            else Node(doc, key)
  {
  }

  lemma PrefixKeys(ps: seq<Patch>, n: nat)
    requires DistinctKeysOf(ps) && n <= |ps|
    ensures DistinctKeysOf(ps[..n])
    ensures n < |ps| ==> forall p | p in ps[..n] :: KeyOf(p) != KeyOf(ps[n])
  {
  }

  /** A node changes by at most one PATCH of the stage, justified by what the node held before. */
  lemma StageOnKey(ctx: Context, s: Settings, doc: Doc, now: int, stage: Stage, n: nat, key: Key)
    requires WellFormed(ctx.features) && n <= |StagePatches(ctx, s, doc, now, stage)|
    ensures var ps := StagePatches(ctx, s, doc, now, stage)[..n];
            || (Node(ApplyAll(doc, ps, now), key) == Node(doc, key) && forall p | p in ps :: KeyOf(p) != key)
            || exists p :: p in ps && KeyOf(p) == key && OfStage(p, stage) && Justified(ctx, s, doc, now, p) &&
                           Node(ApplyAll(doc, ps, now), key) == Entered(Node(doc, key), IsRequest(p), now)
  {
    var all := StagePatches(ctx, s, doc, now, stage);
    StagePatchesAreJustified(ctx, s, doc, now, stage);
    PrefixKeys(all, n);
    EffectOnKey(doc, all[..n], now, key);
    if p :| p in all[..n] && KeyOf(p) == key {
      assert p in all;
    }
  }

  lemma EnteredInOrder(versions: seq<Version>, request: bool, now: int)
    requires InOrder(versions, now) && (!request ==> LastComplete(versions))
    ensures InOrder(Entered(versions, request, now), now)
  {
  }

  lemma StageKeepsOrder(ctx: Context, s: Settings, doc: Doc, now: int, stage: Stage, n: nat)
    requires WellFormed(ctx.features) && DocInOrder(doc, now) && n <= |StagePatches(ctx, s, doc, now, stage)|
    ensures DocInOrder(ApplyAll(doc, StagePatches(ctx, s, doc, now, stage)[..n], now), now)
  {
    var ps := StagePatches(ctx, s, doc, now, stage)[..n];
    forall key ensures InOrder(Node(ApplyAll(doc, ps, now), key), now) {
      StageOnKey(ctx, s, doc, now, stage, n, key);
      EnteredInOrder(Node(doc, key), true, now);
      SortedStays(Node(doc, key));
      if LastComplete(Node(doc, key)) {
        EnteredInOrder(Node(doc, key), false, now);
      }
    }
  }

  // ---- one PATCH, one stage, one pass ----------------------------------------------

  lemma ListedTranscript(ctx: Context, e: Entry<string>)
    requires Sound(ctx) && e in ctx.features.transcribe
    ensures Listed(ctx.rows, e.xpath, Transcription, Lang(Base(e.value)))
  {
    GroupingIsFaithful(ctx.rows);
  }

  lemma ListedTargets(ctx: Context, e: Entry<seq<string>>, l: string)
    requires Sound(ctx) && e in ctx.features.translate && l in Targets(ctx, e)
    ensures l != "" && Listed(ctx.rows, e.xpath, Translation, Lang(l))
  {
    GroupingIsFaithful(ctx.rows);
    assert l in e.value;
    assert ListedTarget(ctx.rows, e.xpath, l);
  }

  lemma ListedQuestions(ctx: Context, e: Entry<seq<Uuid>>, u: Uuid)
    requires Sound(ctx) && e in ctx.features.qual && u in Questions(ctx, e.xpath)
    ensures u != 0 && Listed(ctx.rows, e.xpath, AutoQual, Auto(u)) && IsAnswerable(ctx.features, e.xpath, u)
  {
    GroupingIsFaithful(ctx.rows);
    LookupIs(ctx.features.qual, e);
    assert ListedAuto(ctx.rows, e.xpath, u);
  }

  /** A justified PATCH is admitted as long as its own action and the transcript are as they were read. */
  lemma JustifiedIsAdmitted(ctx: Context, s: Settings, read: Doc, doc: Doc, now: int, p: Patch)
    requires Sound(ctx) && DocInOrder(read, now) && Justified(ctx, s, read, now, p)
    requires Node(doc, KeyOf(p)) == Node(read, KeyOf(p))
    requires IsRequest(p) && !p.AskTranscript? ==> Node(doc, TranscriptOf(p.xpath)) == Node(read, TranscriptOf(p.xpath))
    ensures Admits(ctx.rows, doc, p)
  {
    SortedStays(Node(read, KeyOf(p)));
    SortedStays(Node(read, TranscriptOf(p.xpath)));
    match p
    case AskTranscript(x, l, _) =>
      var e :| e in ctx.features.transcribe && e.xpath == x && Base(e.value) == l;
      ListedTranscript(ctx, e);
    case AcceptTranscript(_, _, _) =>
    case AskTranslation(x, l) =>
      var e :| e in ctx.features.translate && e.xpath == x && l in Targets(ctx, e);
      ListedTargets(ctx, e, l);
    case AcceptTranslation(x, l) =>
      var e :| e in ctx.features.translate && e.xpath == x && l in Targets(ctx, e);
      ListedTargets(ctx, e, l);
    case AskAnswer(x, u) =>
      var e :| e in ctx.features.qual && e.xpath == x && u in Questions(ctx, x);
      ListedQuestions(ctx, e, u);
  }

  /** Before its turn, a PATCH's action is as it was read, and so is the transcript under it. */
  lemma EarlierPatchesKeepAway(ctx: Context, s: Settings, doc: Doc, now: int, stage: Stage, i: nat)
    requires WellFormed(ctx.features) && i < |StagePatches(ctx, s, doc, now, stage)|
    ensures var p, before := StagePatches(ctx, s, doc, now, stage)[i],
            ApplyAll(doc, StagePatches(ctx, s, doc, now, stage)[..i], now);
            Node(before, KeyOf(p)) == Node(doc, KeyOf(p)) &&
            (IsRequest(p) && !p.AskTranscript? ==>
             Node(before, TranscriptOf(p.xpath)) == Node(doc, TranscriptOf(p.xpath)))
  {
    var ps := StagePatches(ctx, s, doc, now, stage);
    var p, before := ps[i], ps[..i];
    StagePatchesAreJustified(ctx, s, doc, now, stage);
    PrefixKeys(ps, i);
    assert p in ps;
    forall q | q in before ensures q in ps && OfStage(q, stage) {
    }
    EffectOnKey(doc, before, now, KeyOf(p));
    EffectOnKey(doc, before, now, TranscriptOf(p.xpath));
  }

  lemma PatchIsAdmitted(ctx: Context, s: Settings, doc: Doc, now: int, stage: Stage, i: nat)
    requires Sound(ctx) && DocInOrder(doc, now) && i < |StagePatches(ctx, s, doc, now, stage)|
    ensures var ps := StagePatches(ctx, s, doc, now, stage); Admits(ctx.rows, ApplyAll(doc, ps[..i], now), ps[i])
  {
    var ps := StagePatches(ctx, s, doc, now, stage);
    StagePatchesAreJustified(ctx, s, doc, now, stage);
    assert ps[i] in ps;
    EarlierPatchesKeepAway(ctx, s, doc, now, stage, i);
    JustifiedIsAdmitted(ctx, s, doc, ApplyAll(doc, ps[..i], now), now, ps[i]);
  }

  lemma StageIsAdmitted(ctx: Context, s: Settings, doc: Doc, now: int, stage: Stage)
    requires Sound(ctx) && DocInOrder(doc, now)
    ensures AdmitsAll(ctx.rows, doc, StagePatches(ctx, s, doc, now, stage), now)
  {
    forall i | 0 <= i < |StagePatches(ctx, s, doc, now, stage)|
      ensures var ps := StagePatches(ctx, s, doc, now, stage); Admits(ctx.rows, ApplyAll(doc, ps[..i], now), ps[i])
    {
      PatchIsAdmitted(ctx, s, doc, now, stage, i);
    }
  }

  lemma ChainPatches(ctx: Context, s: Settings, doc: Doc, now: int, stage: Stage, limit: nat)
    requires limit > 0
    ensures var ps, v, r := StagePatches(ctx, s, doc, now, stage), StageVerdict(ctx, s, doc, now, stage),
            RunStage(ctx, s, doc, now, stage, limit);
            r.patches == if limit > 1 && Chains(stage, v)
                         then ps + RunStage(ctx, s, AfterStage(ctx, s, doc, now, stage), now, v.stage,
                                            limit - 1).patches else ps
  {
  }

  lemma StageIsInOrder(ctx: Context, s: Settings, doc: Doc, now: int, stage: Stage)
    requires WellFormed(ctx.features) && DocInOrder(doc, now)
    ensures DocInOrder(AfterStage(ctx, s, doc, now, stage), now)
  {
    var ps := StagePatches(ctx, s, doc, now, stage);
    assert ps[..|ps|] == ps;
    StageKeepsOrder(ctx, s, doc, now, stage, |ps|);
  }

  /** The whole chain of hand-offs, however far it gets. */
  lemma {:induction false} ChainIsAdmitted(ctx: Context, s: Settings, doc: Doc, now: int, stage: Stage, limit: nat)
    requires Sound(ctx) && DocInOrder(doc, now) && limit > 0
    ensures AdmitsAll(ctx.rows, doc, RunStage(ctx, s, doc, now, stage, limit).patches, now)
    decreases limit
  {
    var ps, v := StagePatches(ctx, s, doc, now, stage), StageVerdict(ctx, s, doc, now, stage);
    StageIsAdmitted(ctx, s, doc, now, stage);
    ChainPatches(ctx, s, doc, now, stage, limit);
    if limit > 1 && Chains(stage, v) {
      var after := AfterStage(ctx, s, doc, now, stage);
      StageIsInOrder(ctx, s, doc, now, stage);
      ChainIsAdmitted(ctx, s, after, now, v.stage, limit - 1);
      AdmitInTwo(ctx.rows, doc, ps, RunStage(ctx, s, after, now, v.stage, limit - 1).patches, now);
    }
  }

  lemma {:induction false} ChainKeepsOrder(ctx: Context, s: Settings, doc: Doc, now: int, stage: Stage, limit: nat,
                                           n: nat)
    requires WellFormed(ctx.features) && DocInOrder(doc, now) && limit > 0
    requires n <= |RunStage(ctx, s, doc, now, stage, limit).patches|
    ensures DocInOrder(ApplyAll(doc, RunStage(ctx, s, doc, now, stage, limit).patches[..n], now), now)
    decreases limit
  {
    var ps, v := StagePatches(ctx, s, doc, now, stage), StageVerdict(ctx, s, doc, now, stage);
    ChainPrefix(ctx, s, doc, now, stage, limit, n);
    if n <= |ps| {
      StageKeepsOrder(ctx, s, doc, now, stage, n);
    } else {
      var after := AfterStage(ctx, s, doc, now, stage);
      StageIsInOrder(ctx, s, doc, now, stage);
      ChainKeepsOrder(ctx, s, after, now, v.stage, limit - 1, n - |ps|);
    }
  }

  /** A first part of a chain's PATCHes is a first part of one stage, or one stage and a first part of the rest. */
  lemma ChainPrefix(ctx: Context, s: Settings, doc: Doc, now: int, stage: Stage, limit: nat, n: nat)
    requires limit > 0 && n <= |RunStage(ctx, s, doc, now, stage, limit).patches|
    ensures var ps, v, all := StagePatches(ctx, s, doc, now, stage), StageVerdict(ctx, s, doc, now, stage),
                              RunStage(ctx, s, doc, now, stage, limit).patches[..n];
            if n <= |ps| then all == ps[..n] else
              limit > 1 && Chains(stage, v) &&
              var after := AfterStage(ctx, s, doc, now, stage);
              var rest := RunStage(ctx, s, after, now, v.stage, limit - 1).patches;
              n - |ps| <= |rest| && all == ps + rest[..n - |ps|] &&
              ApplyAll(doc, all, now) == ApplyAll(after, rest[..n - |ps|], now)
  {
    var ps, v := StagePatches(ctx, s, doc, now, stage), StageVerdict(ctx, s, doc, now, stage);
    if limit > 1 && Chains(stage, v) {
      var after := AfterStage(ctx, s, doc, now, stage);
      var rest := RunStage(ctx, s, after, now, v.stage, limit - 1).patches;
      SliceOfTwo(ps, rest, n);
      if n > |ps| {
        ApplyInTwo(doc, ps, rest[..n - |ps|], now);
      }
    }
  }

  lemma SliceOfTwo<T>(a: seq<T>, b: seq<T>, n: nat)
    requires n <= |a + b|
    ensures if n <= |a| then (a + b)[..n] == a[..n] else (a + b)[..n] == a + b[..n - |a|]
  {
  }

  lemma AdmitPrefix(rows: seq<Row>, doc: Doc, all: seq<Patch>, n: nat, now: int)
    requires AdmitsAll(rows, doc, all, now) && n <= |all|
    ensures AdmitsAll(rows, doc, all[..n], now)
  {
    forall i | 0 <= i < n ensures Admits(rows, ApplyAll(doc, all[..n][..i], now), all[..n][i]) {
      assert all[..n][..i] == all[..i];
    }
  }

  /** What the pass carried out is a first part of its plan. */
  lemma PassPrefix(s: Settings, ctx: Context, job: Job, doc: Doc, now: int, trouble: Option<Trouble>)
    requires CanHappen(s, ctx, job, doc, now, trouble)
    ensures var all, done := Plan(s, ctx, job, doc, now).patches, PassPatches(s, ctx, job, doc, now, trouble);
            |done| <= |all| && done == all[..|done|]
  {
    var all := Plan(s, ctx, job, doc, now).patches;
    assert all[..|all|] == all;
  }

  /** Every PATCH of a pass, up to the point where trouble stops it, is one the server admits at that moment. */
  lemma PassIsAdmitted(s: Settings, ctx: Context, job: Job, doc: Doc, now: int, trouble: Option<Trouble>)
    requires Sound(ctx) && DocInOrder(doc, now) && CanHappen(s, ctx, job, doc, now, trouble)
    ensures AdmitsAll(ctx.rows, doc, PassPatches(s, ctx, job, doc, now, trouble), now)
    ensures DocInOrder(ApplyAll(doc, PassPatches(s, ctx, job, doc, now, trouble), now), now)
  {
    PassPrefix(s, ctx, job, doc, now, trouble);
    if Works(s, ctx, job, now) {
      var n := |PassPatches(s, ctx, job, doc, now, trouble)|;
      ChainIsAdmitted(ctx, s, doc, now, job.stage, CHAIN_LIMIT);
      ChainKeepsOrder(ctx, s, doc, now, job.stage, CHAIN_LIMIT, n);
      AdmitPrefix(ctx.rows, doc, Plan(s, ctx, job, doc, now).patches, n, now);
    }
  }
}
