/** Fair termination: every PATCH of any run comes out of the work left or is owed to a stalled attempt; and unless a
    recording to translate is forsaken, the stage never moves back and a pass that does nothing waits for an attempt. */
module Fairness {
  import opened Versions
  import opened Languages
  import opened Features
  import opened Protocol
  import opened Jobs
  import opened Handlers
  import opened Plans
  import opened Safety
  import opened Runs
  import opened Outcomes
  import opened BackEdge
  import opened Billing
  import opened Decisions

  // ---- work left -------------------------------------------------------------------

  /** PATCHes an action can still cost, and one for each attempt that may still be settled. */
  function Weight(versions: seq<Version>): nat {
    var o := Ordered(versions);
    match State(versions)
    case Complete => if Accepted(versions) then 0 else 1
    case InProgress => if Streak(Front(o)) == 0 then 4 else 2
    case Failed => if Streak(o) >= MAX_ACTION_FAILURES then 0 else 3
    case _ => 5
  }

  function Work(doc: Doc, keys: seq<Key>): nat {
    if keys == [] then 0 else Work(doc, Front(keys)) + Weight(Node(doc, Last(keys)))
  }

  lemma {:induction false} WorkIsBounded(doc: Doc, keys: seq<Key>)
    ensures Work(doc, keys) <= 5 * |keys|
  {
    if keys != [] {
      WorkIsBounded(doc, Front(keys));
    }
  }

  lemma AskingLowers(versions: seq<Version>, now: int)
    requires InOrder(versions, now) && MayAsk(versions, now, 0) && State(versions) != InProgress
    ensures Weight(Entered(versions, true, now)) < Weight(versions)
  {
    var after := versions + [Attempt(now)];
    EnteredInOrder(versions, true, now);
    SortedStays(versions);
    SortedStays(after);
    assert Front(after) == versions && Last(after) == Attempt(now);
  }

  /** A request over a stalled attempt puts back at most two of the work left. */
  lemma RestartingPutsBack(versions: seq<Version>, now: int)
    requires InOrder(versions, now) && State(versions) == InProgress
    ensures Weight(Entered(versions, true, now)) <= Weight(versions) + 2
  {
    var after := versions + [Attempt(now)];
    EnteredInOrder(versions, true, now);
    SortedStays(versions);
    SortedStays(after);
    assert Front(after) == versions && Last(after) == Attempt(now);
  }

  lemma TakingLowers(versions: seq<Version>, now: int)
    requires InOrder(versions, now) && MayTake(versions)
    ensures Weight(Entered(versions, false, now)) < Weight(versions)
  {
    SortedStays(versions);
    EnteredInOrder(versions, false, now);
    SortedStays(Entered(versions, false, now));
  }

  lemma EndingLowers(before: seq<Version>, after: seq<Version>)
    requires Ordered(before) == before && Ordered(after) == after && Matured(before, after)
    requires before != [] && Ends(Last(before), Last(after)) && Streak(Front(after)) >= Streak(Front(before))
    ensures Weight(after) <= Weight(before)
  {
    assert Last(after).status == Failed ==> Streak(after) == 1 + Streak(Front(after));
  }

  lemma LastingKeeps(before: seq<Version>, after: seq<Version>)
    requires Ordered(before) == before && Ordered(after) == after && before != [] && after != []
    requires Last(before) == Last(after)
    requires Streak(after) >= Streak(before) && Streak(Front(after)) >= Streak(Front(before))
    ensures Weight(after) <= Weight(before)
  {
  }

  lemma MaturingKeepsWeight(before: seq<Version>, after: seq<Version>, now: int)
    requires InOrder(before, now) && InOrder(after, now) && Matured(before, after)
    ensures Weight(after) <= Weight(before)
  {
    SortedStays(before);
    SortedStays(after);
    if before != [] {
      LastMatures(before, after);
      if Last(after) == Last(before) {
        LastingKeeps(before, after);
      } else {
        EndingLowers(before, after);
      }
    }
  }

  lemma LastMatures(before: seq<Version>, after: seq<Version>)
    requires Matured(before, after) && before != []
    ensures after != [] && (Last(after) == Last(before) || Ends(Last(before), Last(after)))
    ensures Streak(after) >= Streak(before) && Streak(Front(after)) >= Streak(Front(before))
  {
    StreakGrows(before, after);
    StreakGrows(Front(before), Front(after));
  }

  lemma {:induction false} MaturingKeepsWork(doc: Doc, doc': Doc, now: int, keys: seq<Key>)
    requires DocInOrder(doc, now) && DocInOrder(doc', now) && forall key :: Matured(Node(doc, key), Node(doc', key))
    ensures Work(doc', keys) <= Work(doc, keys)
  {
    if keys != [] {
      MaturingKeepsWork(doc, doc', now, Front(keys));
      MaturingKeepsWeight(Node(doc, Last(keys)), Node(doc', Last(keys)), now);
    }
  }

  // ---- work left, and stalls so far ----------------------------------------------------

  /** Requests made over stalled attempts, over all these actions. */
  function TotalRestarts(ledger: Ledger, keys: seq<Key>): nat {
    if keys == [] then 0 else TotalRestarts(ledger, Front(keys)) + Restarts(Entries(ledger, Last(keys)))
  }

  /** Work left, less what each stall is allowed to cost. */
  function Balance(doc: Doc, ledger: Ledger, keys: seq<Key>): int {
    Work(doc, keys) - 3 * TotalRestarts(ledger, keys)
  }

  function Value(versions: seq<Version>, reasons: seq<Reason>): int {
    Weight(versions) - 3 * Restarts(reasons)
  }

  lemma OneMoreReason(reasons: seq<Reason>, r: Reason)
    ensures Restarts(reasons + [r]) == Restarts(reasons) + if r == Restart then 1 else 0
  {
    assert Front(reasons + [r]) == reasons;
  }

  /** A request lowers the value of its action: by the work it uses up, or by the stall it is owed to. */
  lemma RequestLowersValue(versions: seq<Version>, reasons: seq<Reason>, now: int, stall: nat)
    requires InOrder(versions, now) && MayAsk(versions, now, stall)
    ensures Value(Entered(versions, true, now), reasons + [ReasonFor(versions)]) < Value(versions, reasons)
  {
    OneMoreReason(reasons, ReasonFor(versions));
    if State(versions) == InProgress {
      RestartingPutsBack(versions, now);
    } else {
      AskingLowers(versions, now);
    }
  }

  /** Less value on one action and as much on the others is less balance. */
  lemma {:induction false} BalanceDrops(doc: Doc, ledger: Ledger, doc': Doc, ledger': Ledger, key: Key, keys: seq<Key>)
    requires forall k | k != key :: Node(doc', k) == Node(doc, k) && Entries(ledger', k) == Entries(ledger, k)
    requires Value(Node(doc', key), Entries(ledger', key)) < Value(Node(doc, key), Entries(ledger, key))
    ensures Balance(doc', ledger', keys) <= Balance(doc, ledger, keys)
    ensures key in keys ==> Balance(doc', ledger', keys) < Balance(doc, ledger, keys)
  {
    if keys != [] {
      var n := |keys| - 1;
      BalanceDrops(doc, ledger, doc', ledger', key, Front(keys));
      assert key in keys ==> key in Front(keys) || key == keys[n];
      BalanceOfOne(doc, ledger, keys);
      BalanceOfOne(doc', ledger', keys);
    }
  }

  lemma BalanceOfOne(doc: Doc, ledger: Ledger, keys: seq<Key>)
    requires keys != []
    ensures Balance(doc, ledger, keys) ==
            Balance(doc, ledger, Front(keys)) + Value(Node(doc, Last(keys)), Entries(ledger, Last(keys)))
  {
  }

  // ---- the configured actions ----------------------------------------------------------

  function TranscriptKeys(ctx: Context): (keys: seq<Key>)
    ensures |keys| == |ctx.features.transcribe|
  {
    var rows := ctx.features.transcribe;
    seq(|rows|, i requires 0 <= i < |rows| => TranscriptOf(rows[i].xpath))
  }

  function TranslationKeys(ctx: Context): seq<seq<Key>> {
    var rows := ctx.features.translate;
    seq(|rows|, i requires 0 <= i < |rows| => TargetKeys(rows[i].xpath, Targets(ctx, rows[i])))
  }

  function TargetKeys(xpath: string, targets: seq<string>): seq<Key> {
    seq(|targets|, i requires 0 <= i < |targets| => TranslationOf(xpath, targets[i]))
  }

  function AnswerKeys(ctx: Context): seq<seq<Key>> {
    var rows := ctx.features.qual;
    seq(|rows|, i requires 0 <= i < |rows| => QuestionKeys(rows[i].xpath, Questions(ctx, rows[i].xpath)))
  }

  function QuestionKeys(xpath: string, uuids: seq<Uuid>): seq<Key> {
    seq(|uuids|, i requires 0 <= i < |uuids| => AnswerOf(xpath, uuids[i]))
  }

  /** Every action the form is configured for. */
  function ActionsOf(ctx: Context): seq<Key> {
    TranscriptKeys(ctx) + Flat(TranslationKeys(ctx)) + Flat(AnswerKeys(ctx))
  }

  lemma TranscriptIsAction(ctx: Context, e: Entry<string>)
    requires e in ctx.features.transcribe
    ensures TranscriptOf(e.xpath) in ActionsOf(ctx)
  {
    var i :| 0 <= i < |ctx.features.transcribe| && ctx.features.transcribe[i] == e;
    assert TranscriptKeys(ctx)[i] == TranscriptOf(e.xpath);
  }

  lemma TargetIsAction(ctx: Context, e: Entry<seq<string>>, l: string)
    requires e in ctx.features.translate && l in Targets(ctx, e)
    ensures TranslationOf(e.xpath, l) in ActionsOf(ctx)
  {
    var i :| 0 <= i < |ctx.features.translate| && ctx.features.translate[i] == e;
    var j :| 0 <= j < |Targets(ctx, e)| && Targets(ctx, e)[j] == l;
    assert TranslationKeys(ctx)[i][j] == TranslationOf(e.xpath, l);
    FlatMembers(TranslationKeys(ctx));
  }

  lemma QuestionIsAction(ctx: Context, e: Entry<seq<Uuid>>, u: Uuid)
    requires e in ctx.features.qual && u in Questions(ctx, e.xpath)
    ensures AnswerOf(e.xpath, u) in ActionsOf(ctx)
  {
    var i :| 0 <= i < |ctx.features.qual| && ctx.features.qual[i] == e;
    var j :| 0 <= j < |Questions(ctx, e.xpath)| && Questions(ctx, e.xpath)[j] == u;
    assert AnswerKeys(ctx)[i][j] == AnswerOf(e.xpath, u);
    FlatMembers(AnswerKeys(ctx));
  }

  lemma NamedIsAction(ctx: Context, p: Patch)
    requires Named(ctx, p)
    ensures KeyOf(p) in ActionsOf(ctx)
  {
    match p
    case AskTranscript(x, l, _) =>
      var e :| e in ctx.features.transcribe && e.xpath == x && Base(e.value) == l;
      TranscriptIsAction(ctx, e);
    case AcceptTranscript(x, l, _) =>
      var e :| e in ctx.features.transcribe && e.xpath == x && Base(e.value) == l;
      TranscriptIsAction(ctx, e);
    case AskTranslation(x, l) =>
      var e :| e in ctx.features.translate && e.xpath == x && l in Targets(ctx, e);
      TargetIsAction(ctx, e, l);
    case AcceptTranslation(x, l) =>
      var e :| e in ctx.features.translate && e.xpath == x && l in Targets(ctx, e);
      TargetIsAction(ctx, e, l);
    case AskAnswer(x, u) =>
      var e :| e in ctx.features.qual && e.xpath == x && u in Questions(ctx, x);
      QuestionIsAction(ctx, e, u);
  }

  // ---- a PATCH uses up work -----------------------------------------------------------------

  lemma ApplyNext(doc: Doc, ps: seq<Patch>, i: nat, now: int)
    requires i < |ps|
    ensures ApplyAll(doc, ps[..i + 1], now) == Applied(ApplyAll(doc, ps[..i], now), ps[i], now)
  {
    assert Front(ps[..i + 1]) == ps[..i];
  }

  lemma BillNext(ledger: Ledger, doc: Doc, ps: seq<Patch>, i: nat, now: int)
    requires i < |ps|
    ensures BillAll(ledger, doc, ps[..i + 1], now) ==
            Billed(BillAll(ledger, doc, ps[..i], now), ApplyAll(doc, ps[..i], now), ps[i])
  {
    assert Front(ps[..i + 1]) == ps[..i];
  }

  lemma AppliedElsewhere(doc: Doc, p: Patch, now: int)
    ensures forall k | k != KeyOf(p) :: Node(Applied(doc, p, now), k) == Node(doc, k)
    ensures Node(Applied(doc, p, now), KeyOf(p)) == Entered(Node(doc, KeyOf(p)), IsRequest(p), now)
  {
  }

  lemma BilledElsewhere(ledger: Ledger, doc: Doc, p: Patch)
    ensures forall k | k != KeyOf(p) :: Entries(Billed(ledger, doc, p), k) == Entries(ledger, k)
    ensures Entries(Billed(ledger, doc, p), KeyOf(p)) ==
            if IsRequest(p) then Entries(ledger, KeyOf(p)) + [ReasonFor(Node(doc, KeyOf(p)))]
              else Entries(ledger, KeyOf(p))
  {
    forall k ensures k != KeyOf(p) ==> Entries(Billed(ledger, doc, p), k) == Entries(ledger, k) {
      BilledAt(ledger, doc, p, k);
    }
    BilledAt(ledger, doc, p, KeyOf(p));
  }

  /** A PATCH justified by what its action holds comes out of the balance. */
  lemma JustifiedLowers(ctx: Context, s: Settings, doc: Doc, read: Doc, ledger: Ledger, now: int, p: Patch)
    requires DocInOrder(doc, now) && Justified(ctx, s, doc, now, p)
    requires Node(read, KeyOf(p)) == Node(doc, KeyOf(p))
    ensures Balance(Applied(read, p, now), Billed(ledger, read, p), ActionsOf(ctx)) <
            Balance(read, ledger, ActionsOf(ctx))
  {
    NamedIsAction(ctx, p);
    var versions := Node(doc, KeyOf(p));
    if IsRequest(p) {
      RequestLowersValue(versions, Entries(ledger, KeyOf(p)), now, s.stall);
    } else {
      TakingLowers(versions, now);
    }
    AppliedElsewhere(read, p, now);
    BilledElsewhere(ledger, read, p);
    BalanceDrops(read, ledger, Applied(read, p, now), Billed(ledger, read, p), KeyOf(p), ActionsOf(ctx));
  }

  /** The balance once these PATCHes have been carried out. */
  function BalanceWith(doc: Doc, ledger: Ledger, done: seq<Patch>, now: int, keys: seq<Key>): int {
    Balance(ApplyAll(doc, done, now), BillAll(ledger, doc, done, now), keys)
  }

  lemma BalanceInTwo(doc: Doc, ledger: Ledger, a: seq<Patch>, b: seq<Patch>, now: int, keys: seq<Key>)
    ensures BalanceWith(doc, ledger, a + b, now, keys) ==
            BalanceWith(ApplyAll(doc, a, now), BillAll(ledger, doc, a, now), b, now, keys)
  {
    ApplyInTwo(doc, a, b, now);
    BillInTwo(ledger, doc, a, b, now);
  }

  lemma PatchLowersBalance(ctx: Context, s: Settings, doc: Doc, ledger: Ledger, now: int, stage: Stage, i: nat)
    requires WellFormed(ctx.features) && DocInOrder(doc, now) && i < |StagePatches(ctx, s, doc, now, stage)|
    ensures var ps := StagePatches(ctx, s, doc, now, stage);
            BalanceWith(doc, ledger, ps[..i + 1], now, ActionsOf(ctx)) <
              BalanceWith(doc, ledger, ps[..i], now, ActionsOf(ctx))
  {
    var ps := StagePatches(ctx, s, doc, now, stage);
    var p, read := ps[i], ApplyAll(doc, ps[..i], now);
    StagePatchesAreJustified(ctx, s, doc, now, stage);
    PrefixKeys(ps, i);
    assert p in ps;
    EffectOnKey(doc, ps[..i], now, KeyOf(p));
    JustifiedLowers(ctx, s, doc, read, BillAll(ledger, doc, ps[..i], now), now, p);
    ApplyNext(doc, ps, i, now);
    BillNext(ledger, doc, ps, i, now);
  }

  lemma {:induction false} EachPatchCounts(doc: Doc, ledger: Ledger, ps: seq<Patch>, n: nat, now: int, keys: seq<Key>)
    requires n <= |ps|
    requires forall i | 0 <= i < n ::
               BalanceWith(doc, ledger, ps[..i + 1], now, keys) < BalanceWith(doc, ledger, ps[..i], now, keys)
    ensures n + BalanceWith(doc, ledger, ps[..n], now, keys) <= Balance(doc, ledger, keys)
  {
    if n > 0 {
      EachPatchCounts(doc, ledger, ps, n - 1, now, keys);
      assert BalanceWith(doc, ledger, ps[..(n - 1) + 1], now, keys) < BalanceWith(doc, ledger, ps[..n - 1], now, keys);
    }
  }

  /** However many of a stage's PATCHes are carried out, each comes out of the balance. */
  lemma StageLowersBalance(ctx: Context, s: Settings, doc: Doc, ledger: Ledger, now: int, stage: Stage, n: nat)
    requires WellFormed(ctx.features) && DocInOrder(doc, now) && n <= |StagePatches(ctx, s, doc, now, stage)|
    ensures n + BalanceWith(doc, ledger, StagePatches(ctx, s, doc, now, stage)[..n], now, ActionsOf(ctx)) <=
            Balance(doc, ledger, ActionsOf(ctx))
  {
    var ps, keys := StagePatches(ctx, s, doc, now, stage), ActionsOf(ctx);
    forall i | 0 <= i < n
      ensures BalanceWith(doc, ledger, ps[..i + 1], now, keys) < BalanceWith(doc, ledger, ps[..i], now, keys) {
      PatchLowersBalance(ctx, s, doc, ledger, now, stage, i);
    }
    EachPatchCounts(doc, ledger, ps, n, now, keys);
  }

  lemma WholeStageLowersBalance(ctx: Context, s: Settings, doc: Doc, ledger: Ledger, now: int, stage: Stage)
    requires WellFormed(ctx.features) && DocInOrder(doc, now)
    ensures var ps, after := StagePatches(ctx, s, doc, now, stage), AfterStage(ctx, s, doc, now, stage);
            DocInOrder(after, now) &&
            |ps| + Balance(after, BillAll(ledger, doc, ps, now), ActionsOf(ctx)) <= Balance(doc, ledger, ActionsOf(ctx))
  {
    var ps := StagePatches(ctx, s, doc, now, stage);
    assert ps[..|ps|] == ps;
    StageLowersBalance(ctx, s, doc, ledger, now, stage, |ps|);
    StageIsInOrder(ctx, s, doc, now, stage);
  }

  lemma {:induction false} ChainLowersBalance(ctx: Context, s: Settings, doc: Doc, ledger: Ledger, now: int,
                                              stage: Stage, limit: nat, n: nat)
    requires WellFormed(ctx.features) && DocInOrder(doc, now) && limit > 0
    requires n <= |RunStage(ctx, s, doc, now, stage, limit).patches|
    ensures n + BalanceWith(doc, ledger, RunStage(ctx, s, doc, now, stage, limit).patches[..n], now, ActionsOf(ctx)) <=
            Balance(doc, ledger, ActionsOf(ctx))
    decreases limit
  {
    var ps, v := StagePatches(ctx, s, doc, now, stage), StageVerdict(ctx, s, doc, now, stage);
    ChainPrefix(ctx, s, doc, now, stage, limit, n);
    if n <= |ps| {
      StageLowersBalance(ctx, s, doc, ledger, now, stage, n);
    } else {
      var after, k := AfterStage(ctx, s, doc, now, stage), n - |ps|;
      WholeStageLowersBalance(ctx, s, doc, ledger, now, stage);
      ChainLowersBalance(ctx, s, after, BillAll(ledger, doc, ps, now), now, v.stage, limit - 1, k);
      BalanceInTwo(doc, ledger, ps, RunStage(ctx, s, after, now, v.stage, limit - 1).patches[..k], now, ActionsOf(ctx));
    }
  }

  /** What a pass carries out, in trouble or not, comes out of the balance. */
  lemma PassLowersBalance(s: Settings, ctx: Context, job: Job, doc: Doc, ledger: Ledger, now: int,
                          trouble: Option<Trouble>)
    requires WellFormed(ctx.features) && DocInOrder(doc, now) && CanHappen(s, ctx, job, doc, now, trouble)
    ensures var ps := PassPatches(s, ctx, job, doc, now, trouble);
            |ps| + Balance(ApplyAll(doc, ps, now), BillAll(ledger, doc, ps, now), ActionsOf(ctx)) <=
              Balance(doc, ledger, ActionsOf(ctx))
  {
    PassPrefix(s, ctx, job, doc, now, trouble);
    if Works(s, ctx, job, now) {
      ChainLowersBalance(ctx, s, doc, ledger, now, job.stage, CHAIN_LIMIT,
                         |PassPatches(s, ctx, job, doc, now, trouble)|);
    }
  }

  // ---- every run stays within its budget ---------------------------------------------------------

  /** The PATCHes carried out so far fit in the work there was and what the stalls so far allow. */
  ghost predicate Budgeted(ctx: Context, start: Doc, w: World) {
    w.stats.carried + Work(w.doc, ActionsOf(ctx)) <=
      Work(start, ActionsOf(ctx)) + 3 * TotalRestarts(w.ledger, ActionsOf(ctx))
  }

  lemma PassStaysBudgeted(s: Settings, ctx: Context, start: Doc, w: World, trouble: Option<Trouble>)
    requires Sound(ctx) && Orderly(w) && CanPass(s, ctx, w, trouble) && Budgeted(ctx, start, w)
    ensures Budgeted(ctx, start, AfterPass(s, ctx, w, trouble))
  {
    PassLowersBalance(s, ctx, w.job, w.doc, w.ledger, w.now, trouble);
  }

  lemma StepStaysBudgeted(s: Settings, ctx: Context, start: Doc, w: World, w': World)
    requires Sound(ctx) && Orderly(w) && Next(s, ctx, w, w') && Budgeted(ctx, start, w)
    ensures Budgeted(ctx, start, w')
  {
    if PassStep(s, ctx, w, w') {
      var trouble :| CanPass(s, ctx, w, trouble) && w' == AfterPass(s, ctx, w, trouble);
      PassStaysBudgeted(s, ctx, start, w, trouble);
    } else if SettleStep(w, w') {
      SettlingMatures(w.doc, w'.doc);
      SettlingKeepsOrder(w.doc, w'.doc, w.now);
      MaturingKeepsWork(w.doc, w'.doc, w.now, ActionsOf(ctx));
    }
  }

  lemma {:induction false} NothingBilled(keys: seq<Key>)
    ensures TotalRestarts(map[], keys) == 0
  {
    if keys != [] {
      NothingBilled(Front(keys));
    }
  }

  lemma LastOrderlyStep(s: Settings, ctx: Context, run: seq<World>)
    requires Sound(ctx) && IsRun(s, ctx, run) && |run| > 1
    ensures IsRun(s, ctx, Front(run)) && Front(run)[0] == run[0]
    ensures Orderly(Last(Front(run))) && Next(s, ctx, Last(Front(run)), Last(run))
  {
    RunIsOrderly(s, ctx, Front(run));
  }

  lemma {:induction false} RunIsBudgeted(s: Settings, ctx: Context, run: seq<World>)
    requires Sound(ctx) && IsRun(s, ctx, run)
    ensures Budgeted(ctx, run[0].doc, Last(run))
  {
    if |run| > 1 {
      LastOrderlyStep(s, ctx, run);
      RunIsBudgeted(s, ctx, Front(run));
      StepStaysBudgeted(s, ctx, run[0].doc, Last(Front(run)), Last(run));
    } else {
      NothingBilled(ActionsOf(ctx));
    }
  }

  lemma BudgetIsBounded(ctx: Context, start: Doc, w: World)
    requires Budgeted(ctx, start, w)
    ensures w.stats.carried <= 5 * |ActionsOf(ctx)| + 3 * TotalRestarts(w.ledger, ActionsOf(ctx))
  {
    WorkIsBounded(start, ActionsOf(ctx));
  }

  /** Every run, whatever the server does and however often operators retry, carries out at most five PATCHes for each
      configured action and three for each request made over a stalled attempt. */
  lemma PatchesAreBounded(s: Settings, ctx: Context, run: seq<World>)
    requires Sound(ctx) && IsRun(s, ctx, run)
    ensures Last(run).stats.carried <= 5 * |ActionsOf(ctx)| + 3 * TotalRestarts(Last(run).ledger, ActionsOf(ctx))
  {
    RunIsBudgeted(s, ctx, run);
    BudgetIsBounded(ctx, run[0].doc, Last(run));
  }

  /** As many stalls of one action as have room below the age ceiling. */
  function MostRestarts(s: Settings): nat {
    s.maxAgeHours * 3600 / (s.stall + 1)
  }

  lemma FewRestarts(s: Settings, restarts: nat)
    requires restarts * (s.stall + 1) <= s.maxAgeHours * 3600
    ensures restarts <= MostRestarts(s)
  {
    var most, wait := MostRestarts(s), s.stall + 1;
    assert s.maxAgeHours * 3600 < (most + 1) * wait;
    assert restarts > most ==> restarts * wait >= (most + 1) * wait;
  }

  lemma {:induction false} RestartsAddUp(ledger: Ledger, keys: seq<Key>, most: nat)
    requires forall key :: Restarts(Entries(ledger, key)) <= most
    ensures TotalRestarts(ledger, keys) <= |keys| * most
  {
    if keys != [] {
      RestartsAddUp(ledger, Front(keys), most);
      OneMoreWait(|keys| - 1, most);
    }
  }

  lemma ActionStallsRarely(s: Settings, ctx: Context, run: seq<World>, key: Key)
    requires Sound(ctx) && IsRun(s, ctx, run) && Node(run[0].doc, key) == []
    ensures Restarts(Entries(Last(run).ledger, key)) <= MostRestarts(s)
  {
    BillingBound(s, ctx, run, key);
    FewRestarts(s, Restarts(Entries(Last(run).ledger, key)));
  }

  lemma BoundOfBounds(actions: nat, restarts: nat, most: nat, carried: nat)
    requires carried <= 5 * actions + 3 * restarts && restarts <= actions * most
    ensures carried <= actions * (5 + 3 * most)
  {
    assert actions * (5 + 3 * most) == 5 * actions + 3 * (actions * most);
  }

  lemma RunStallsRarely(s: Settings, ctx: Context, run: seq<World>, keys: seq<Key>)
    requires Sound(ctx) && IsRun(s, ctx, run) && forall key :: Node(run[0].doc, key) == []
    ensures TotalRestarts(Last(run).ledger, keys) <= |keys| * MostRestarts(s)
  {
    forall key ensures Restarts(Entries(Last(run).ledger, key)) <= MostRestarts(s) {
      ActionStallsRarely(s, ctx, run, key);
    }
    RestartsAddUp(Last(run).ledger, keys, MostRestarts(s));
  }

  lemma BoundByRestarts(s: Settings, ctx: Context, run: seq<World>, most: nat)
    requires Sound(ctx) && IsRun(s, ctx, run)
    requires TotalRestarts(Last(run).ledger, ActionsOf(ctx)) <= |ActionsOf(ctx)| * most
    ensures Last(run).stats.carried <= |ActionsOf(ctx)| * (5 + 3 * most)
  {
    PatchesAreBounded(s, ctx, run);
    BoundOfBounds(|ActionsOf(ctx)|, TotalRestarts(Last(run).ledger, ActionsOf(ctx)), most, Last(run).stats.carried);
  }

  /** So over a submission nothing was asked of before, the settings alone bound the PATCHes of any run. */
  lemma SettingsBoundPatches(s: Settings, ctx: Context, run: seq<World>)
    requires Sound(ctx) && IsRun(s, ctx, run) && forall key :: Node(run[0].doc, key) == []
    ensures Last(run).stats.carried <= |ActionsOf(ctx)| * (5 + 3 * MostRestarts(s))
  {
    RunStallsRarely(s, ctx, run, ActionsOf(ctx));
    BoundByRestarts(s, ctx, run, MostRestarts(s));
  }

  // ---- the stage never moves back -------------------------------------------------------------

  function Rank(stage: Stage): nat {
    match stage
    case New => 0
    case Transcribe => 1
    case Translate => 2
    case Qual => 3
    case Done => 4
    case Parked => 4
  }

  /** No recording to translate is forsaken. */
  ghost predicate Alive(ctx: Context, doc: Doc) {
    forall e | e in ctx.features.translate :: !Forsaken(ctx, doc, e)
  }

  lemma TranscriptsMoveOn(ctx: Context, s: Settings, doc: Doc, now: int, stage: Stage)
    requires stage == New || stage == Transcribe
    ensures Rank(StageVerdict(ctx, s, doc, now, stage).stage) >= 1
    ensures StageVerdict(ctx, s, doc, now, stage).stage == Transcribe ==> Busy(TranscriptMoves(ctx, doc, now, s.stall))
  {
  }

  lemma TranslationsMoveOn(ctx: Context, s: Settings, doc: Doc, now: int)
    requires Alive(ctx, doc) && !Busy(TranscriptMoves(ctx, doc, now, s.stall))
    ensures Rank(StageVerdict(ctx, s, doc, now, Translate).stage) >= 2
    ensures StageVerdict(ctx, s, doc, now, Translate).stage == Translate ==>
            Busy(Moves(ctx, doc, now, s.stall, Translate))
  {
    HandsBackIffForsaken(ctx, s, doc, now);
  }

  lemma AnswersMoveOn(ctx: Context, s: Settings, doc: Doc, now: int)
    ensures Rank(StageVerdict(ctx, s, doc, now, Qual).stage) >= 3
    ensures StageVerdict(ctx, s, doc, now, Qual).stage == Qual ==> Busy(Moves(ctx, doc, now, s.stall, Qual))
  {
  }

  lemma StageMovesOn(ctx: Context, s: Settings, doc: Doc, now: int, stage: Stage)
    requires Alive(ctx, doc) && StageFacts(ctx, s, doc, now, stage) && !Terminal(stage)
    ensures Rank(StageVerdict(ctx, s, doc, now, stage).stage) >= Rank(stage)
    ensures StageVerdict(ctx, s, doc, now, stage).stage == stage ==> Busy(Moves(ctx, doc, now, s.stall, stage))
  {
    match stage {
      case New => TranscriptsMoveOn(ctx, s, doc, now, stage);
      case Transcribe => TranscriptsMoveOn(ctx, s, doc, now, stage);
      case Translate => TranslationsMoveOn(ctx, s, doc, now);
      case Qual => AnswersMoveOn(ctx, s, doc, now);
    }
  }

  lemma EnteredIsNotExhausted(versions: seq<Version>, request: bool, now: int)
    requires InOrder(versions, now) && (!request ==> MayTake(versions))
    ensures !Exhausted(Entered(versions, request, now))
  {
    SortedStays(versions);
    EnteredInOrder(versions, request, now);
    SortedStays(Entered(versions, request, now));
  }

  lemma AskedIsTranscribed(ctx: Context, s: Settings, doc: Doc, now: int, p: Patch, x: string)
    requires DocInOrder(doc, now) && Justified(ctx, s, doc, now, p) && KeyOf(p) == TranscriptOf(x)
    ensures IsTranscribed(ctx, x) && !Exhausted(Entered(Node(doc, KeyOf(p)), IsRequest(p), now))
  {
    EnteredIsNotExhausted(Node(doc, KeyOf(p)), IsRequest(p), now);
  }

  /** A stage changes a transcript only by asking for it or accepting it, on a recording that is transcribed. */
  lemma TranscriptAfterStage(ctx: Context, s: Settings, doc: Doc, now: int, stage: Stage, x: string)
    requires WellFormed(ctx.features) && DocInOrder(doc, now)
    ensures var before, after := Node(doc, TranscriptOf(x)), Node(AfterStage(ctx, s, doc, now, stage), TranscriptOf(x));
            after == before || (IsTranscribed(ctx, x) && !Exhausted(after))
  {
    var ps, key := StagePatches(ctx, s, doc, now, stage), TranscriptOf(x);
    assert ps[..|ps|] == ps;
    StageOnKey(ctx, s, doc, now, stage, |ps|, key);
    if Node(AfterStage(ctx, s, doc, now, stage), key) != Node(doc, key) {
      var p :| p in ps && KeyOf(p) == key && Justified(ctx, s, doc, now, p) &&
               Node(ApplyAll(doc, ps, now), key) == Entered(Node(doc, key), IsRequest(p), now);
      AskedIsTranscribed(ctx, s, doc, now, p, x);
    }
  }

  lemma StageKeepsAlive(ctx: Context, s: Settings, doc: Doc, now: int, stage: Stage)
    requires WellFormed(ctx.features) && DocInOrder(doc, now) && Alive(ctx, doc)
    ensures Alive(ctx, AfterStage(ctx, s, doc, now, stage))
  {
    forall e | e in ctx.features.translate ensures !Forsaken(ctx, AfterStage(ctx, s, doc, now, stage), e) {
      TranscriptAfterStage(ctx, s, doc, now, stage, e.xpath);
    }
  }

  lemma HandOffMovesOn(stage: Stage, v: Verdict)
    requires Chains(stage, v) && Rank(v.stage) >= Rank(stage) && !Terminal(stage)
    ensures Rank(v.stage) > Rank(stage) && !Terminal(v.stage)
  {
  }

  lemma RoundOfChain(ctx: Context, s: Settings, doc: Doc, now: int, stage: Stage, limit: nat)
    requires limit > 0
    ensures var v, r := StageVerdict(ctx, s, doc, now, stage), RunStage(ctx, s, doc, now, stage, limit);
            if limit > 1 && Chains(stage, v)
            then r.verdict == RunStage(ctx, s, AfterStage(ctx, s, doc, now, stage), now, v.stage, limit - 1).verdict
            else r == Chain(StagePatches(ctx, s, doc, now, stage), v)
  {
  }

  /** A chain ends no earlier than it begins, and where it began only if it never left. */
  lemma {:induction false} ChainMovesOn(ctx: Context, s: Settings, doc: Doc, now: int, stage: Stage, limit: nat)
    requires WellFormed(ctx.features) && DocInOrder(doc, now) && Alive(ctx, doc) && limit > 0
    requires StageFacts(ctx, s, doc, now, stage) && !Terminal(stage)
    ensures Rank(RunStage(ctx, s, doc, now, stage, limit).verdict.stage) >= Rank(stage)
    ensures RunStage(ctx, s, doc, now, stage, limit).verdict.stage == stage ==>
              RunStage(ctx, s, doc, now, stage, limit).patches == StagePatches(ctx, s, doc, now, stage) &&
              Busy(Moves(ctx, doc, now, s.stall, stage))
    decreases limit
  {
    var v := StageVerdict(ctx, s, doc, now, stage);
    StageMovesOn(ctx, s, doc, now, stage);
    RoundOfChain(ctx, s, doc, now, stage, limit);
    if limit > 1 && Chains(stage, v) {
      HandOffMovesOn(stage, v);
      ChainMovesFurther(ctx, s, doc, now, stage);
      ChainMovesOn(ctx, s, AfterStage(ctx, s, doc, now, stage), now, v.stage, limit - 1);
    }
  }

  lemma ChainMovesFurther(ctx: Context, s: Settings, doc: Doc, now: int, stage: Stage)
    requires WellFormed(ctx.features) && DocInOrder(doc, now) && Alive(ctx, doc)
    requires StageFacts(ctx, s, doc, now, stage) && !Terminal(stage) &&
             Chains(stage, StageVerdict(ctx, s, doc, now, stage))
    ensures var after := AfterStage(ctx, s, doc, now, stage);
            DocInOrder(after, now) && Alive(ctx, after) &&
              StageFacts(ctx, s, after, now, StageVerdict(ctx, s, doc, now, stage).stage)
  {
    var ps := StagePatches(ctx, s, doc, now, stage);
    assert ps[..|ps|] == ps;
    StageKeepsOrder(ctx, s, doc, now, stage, |ps|);
    StageKeepsAlive(ctx, s, doc, now, stage);
    StageLeadsOn(ctx, s, doc, now, stage);
    LeadingIsTruthful(ctx, s, AfterStage(ctx, s, doc, now, stage), now, StageVerdict(ctx, s, doc, now, stage));
  }

  // ---- a pass that does nothing waits for an attempt ----------------------------------------------

  /** Some configured action has an attempt running that began no longer ago than the stall limit. */
  ghost predicate InFlight(ctx: Context, doc: Doc, now: int, stall: nat) {
    exists key | key in ActionsOf(ctx) :: Running(Node(doc, key), now, stall)
  }

  lemma TranscriptWaits(ctx: Context, doc: Doc, now: int, stall: nat)
    requires DocInOrder(doc, now) && Wait in TranscriptMoves(ctx, doc, now, stall)
    ensures InFlight(ctx, doc, now, stall)
  {
    TranscriptMovesAre(ctx, doc, now, stall, Wait);
    var e :| e in ctx.features.transcribe && Wait == TranscriptMove(ctx, doc, now, stall, e);
    TranscriptDecision(ctx, doc, now, stall, e);
    TranscriptIsAction(ctx, e);
  }

  lemma TargetWaits(doc: Doc, now: int, stall: nat, xpath: string, targets: seq<string>)
    requires DocInOrder(doc, now) && Wait in TargetMoves(doc, now, stall, xpath, targets)
    ensures exists l | l in targets :: Running(Node(doc, TranslationOf(xpath, l)), now, stall)
  {
    TargetMovesAre(doc, now, stall, xpath, targets, Wait);
    var l :| l in targets && Wait == TranslationMove(doc, now, stall, xpath, l);
    TranslationDecision(doc, now, stall, xpath, l);
  }

  lemma TranslationWaits(ctx: Context, doc: Doc, now: int, stall: nat, e: Entry<seq<string>>)
    requires DocInOrder(doc, now) && e in ctx.features.translate
    requires Wait in RecordingTranslationMoves(ctx, doc, now, stall, e)
    ensures InFlight(ctx, doc, now, stall)
  {
    TargetWaits(doc, now, stall, e.xpath, Targets(ctx, e));
    var l :| l in Targets(ctx, e) && Running(Node(doc, TranslationOf(e.xpath, l)), now, stall);
    TargetIsAction(ctx, e, l);
  }

  lemma QuestionWaits(doc: Doc, now: int, stall: nat, xpath: string, uuids: seq<Uuid>)
    requires DocInOrder(doc, now) && Wait in QuestionMoves(doc, now, stall, xpath, uuids)
    ensures exists u | u in uuids :: Running(Node(doc, AnswerOf(xpath, u)), now, stall)
  {
    QuestionMovesAre(doc, now, stall, xpath, uuids, Wait);
    var u :| u in uuids && Wait == AnswerMove(doc, now, stall, xpath, u);
    AnswerDecision(doc, now, stall, xpath, u);
  }

  lemma AnswerWaits(ctx: Context, doc: Doc, now: int, stall: nat, e: Entry<seq<Uuid>>)
    requires DocInOrder(doc, now) && e in ctx.features.qual
    requires Wait in RecordingAnswerMoves(ctx, doc, now, stall, e.xpath)
    ensures InFlight(ctx, doc, now, stall)
  {
    QuestionWaits(doc, now, stall, e.xpath, Questions(ctx, e.xpath));
    var u :| u in Questions(ctx, e.xpath) && Running(Node(doc, AnswerOf(e.xpath, u)), now, stall);
    QuestionIsAction(ctx, e, u);
  }

  lemma TranslateWaits(ctx: Context, doc: Doc, now: int, stall: nat)
    requires DocInOrder(doc, now) && Wait in Flat(TranslationLists(ctx, doc, now, stall))
    ensures InFlight(ctx, doc, now, stall)
  {
    TranslationsAre(ctx, doc, now, stall, Wait);
    var e :| e in ctx.features.translate && Wait in RecordingTranslationMoves(ctx, doc, now, stall, e);
    TranslationWaits(ctx, doc, now, stall, e);
  }

  lemma QualWaits(ctx: Context, doc: Doc, now: int, stall: nat)
    requires DocInOrder(doc, now) && Wait in Flat(AnswerLists(ctx, doc, now, stall))
    ensures InFlight(ctx, doc, now, stall)
  {
    AnswersAre(ctx, doc, now, stall, Wait);
    var e :| e in ctx.features.qual && Wait in RecordingAnswerMoves(ctx, doc, now, stall, e.xpath);
    AnswerWaits(ctx, doc, now, stall, e);
  }

  lemma StageWaits(ctx: Context, doc: Doc, now: int, stall: nat, stage: Stage)
    requires DocInOrder(doc, now) && Wait in Moves(ctx, doc, now, stall, stage)
    ensures InFlight(ctx, doc, now, stall)
  {
    if stage == Translate {
      TranslateWaits(ctx, doc, now, stall);
    } else if stage == Qual {
      QualWaits(ctx, doc, now, stall);
    } else {
      TranscriptWaits(ctx, doc, now, stall);
    }
  }

  lemma BusySendsOrWaits(moves: seq<Move>)
    requires Busy(moves)
    ensures Patches(moves) != [] || Wait in moves
  {
    var m :| m in moves && (Sends(m) || m == Wait);
    if Sends(m) {
      assert m.patch in Patches(moves);
    }
  }

  // ---- fair runs ------------------------------------------------------------------------------------

  /** Passes over documents on which no recording is forsaken, settling attempts and the clock; no operator. */
  ghost predicate FairStep(s: Settings, ctx: Context, w: World, w': World) {
    (PassStep(s, ctx, w, w') && Alive(ctx, w.doc)) || ClockStep(w, w') || SettleStep(w, w')
  }

  ghost predicate IsFairRun(s: Settings, ctx: Context, run: seq<World>) {
    run != [] && Starts(run[0]) && forall i | 0 <= i < |run| - 1 :: FairStep(s, ctx, run[i], run[i + 1])
  }

  lemma FairRunIsRun(s: Settings, ctx: Context, run: seq<World>)
    requires IsFairRun(s, ctx, run)
    ensures IsRun(s, ctx, run)
  {
    forall i | 0 <= i < |run| - 1 ensures Next(s, ctx, run[i], run[i + 1]) {
      assert FairStep(s, ctx, run[i], run[i + 1]);
    }
  }

  ghost predicate OnTrack(s: Settings, ctx: Context, w: World) {
    Sound(ctx) && Orderly(w) && Truthful(s, ctx, w)
  }

  lemma IdleChainWaits(ctx: Context, s: Settings, doc: Doc, now: int, stage: Stage)
    requires WellFormed(ctx.features) && DocInOrder(doc, now) && Alive(ctx, doc)
    requires StageFacts(ctx, s, doc, now, stage) && !Terminal(stage)
    ensures var r := RunStage(ctx, s, doc, now, stage, CHAIN_LIMIT);
            Rank(r.verdict.stage) > Rank(stage) ||
              (r.verdict.stage == stage && (r.patches != [] || InFlight(ctx, doc, now, s.stall)))
  {
    var r := RunStage(ctx, s, doc, now, stage, CHAIN_LIMIT);
    ChainMovesOn(ctx, s, doc, now, stage, CHAIN_LIMIT);
    if r.verdict.stage == stage {
      BusySendsOrWaits(Moves(ctx, doc, now, s.stall, stage));
      if r.patches == [] {
        StageWaits(ctx, doc, now, s.stall, stage);
      }
    } else {
      DifferentRanks(stage, r.verdict.stage);
    }
  }

  lemma CleanPass(s: Settings, ctx: Context, w: World)
    requires CanPass(s, ctx, w, None) && Works(s, ctx, w.job, w.now)
    ensures var r, w' := RunStage(ctx, s, w.doc, w.now, w.job.stage, CHAIN_LIMIT), AfterPass(s, ctx, w, None);
            PassPatches(s, ctx, w.job, w.doc, w.now, None) == r.patches && w'.job.stage == r.verdict.stage &&
            w'.doc == ApplyAll(w.doc, r.patches, w.now)
  {
  }

  /** A pass whose handlers finish either comes out of the balance, or leaves the document alone and moves the stage on,
      or leaves both alone because an attempt within the stall limit is running. */
  lemma PassProgress(s: Settings, ctx: Context, w: World)
    requires OnTrack(s, ctx, w) && Alive(ctx, w.doc) && CanPass(s, ctx, w, None) && Works(s, ctx, w.job, w.now)
    ensures var w' := AfterPass(s, ctx, w, None);
            || Balance(w'.doc, w'.ledger, ActionsOf(ctx)) < Balance(w.doc, w.ledger, ActionsOf(ctx))
            || (w'.doc == w.doc && Rank(w'.job.stage) > Rank(w.job.stage))
            || (w'.doc == w.doc && w'.job.stage == w.job.stage && InFlight(ctx, w.doc, w.now, s.stall))
  {
    CleanPass(s, ctx, w);
    PassLowersBalance(s, ctx, w.job, w.doc, w.ledger, w.now, None);
    IdleChainWaits(ctx, s, w.doc, w.now, w.job.stage);
  }

  lemma RowStageIs(s: Settings, ctx: Context, job: Job, now: int, trouble: Option<Trouble>, chain: Chain)
    ensures var stage := RowAfter(s, ctx, job, now, trouble, chain).stage;
            stage == job.stage || Terminal(stage) || stage == chain.verdict.stage
  {
  }

  lemma RankOfTerminal(stage: Stage, other: Stage)
    requires Terminal(stage)
    ensures Rank(stage) >= Rank(other)
  {
  }

  lemma PlanMovesOn(s: Settings, ctx: Context, w: World)
    requires OnTrack(s, ctx, w) && Alive(ctx, w.doc) && !Terminal(w.job.stage)
    ensures Rank(Plan(s, ctx, w.job, w.doc, w.now).verdict.stage) >= Rank(w.job.stage)
  {
    if Works(s, ctx, w.job, w.now) {
      PlanIsChain(s, ctx, w.job, w.doc, w.now);
      ChainMovesOn(ctx, s, w.doc, w.now, w.job.stage, CHAIN_LIMIT);
    }
  }

  /** Even a pass in trouble never moves the stage back. */
  lemma PassMovesOn(s: Settings, ctx: Context, w: World, trouble: Option<Trouble>)
    requires OnTrack(s, ctx, w) && Alive(ctx, w.doc) && CanPass(s, ctx, w, trouble)
    ensures Rank(AfterPass(s, ctx, w, trouble).job.stage) >= Rank(w.job.stage)
  {
    PlanMovesOn(s, ctx, w);
    RowMovesOn(s, ctx, w.job, w.now, trouble, Plan(s, ctx, w.job, w.doc, w.now));
  }

  lemma RowMovesOn(s: Settings, ctx: Context, job: Job, now: int, trouble: Option<Trouble>, chain: Chain)
    requires Rank(chain.verdict.stage) >= Rank(job.stage)
    ensures Rank(RowAfter(s, ctx, job, now, trouble, chain).stage) >= Rank(job.stage)
  {
    RowStageIs(s, ctx, job, now, trouble, chain);
    if Terminal(RowAfter(s, ctx, job, now, trouble, chain).stage) {
      RankOfTerminal(RowAfter(s, ctx, job, now, trouble, chain).stage, job.stage);
    }
  }

  lemma DifferentRanks(a: Stage, b: Stage)
    requires a != b && Rank(b) >= Rank(a) && !Terminal(a)
    ensures Rank(b) > Rank(a)
  {
  }

  /** Each change of stage so far has left a stage behind. */
  predicate MovedOn(w: World) {
    w.stats.stageChanges <= Rank(w.job.stage)
  }

  lemma StepMovesOn(s: Settings, ctx: Context, w: World, w': World)
    requires OnTrack(s, ctx, w) && FairStep(s, ctx, w, w') && MovedOn(w)
    ensures MovedOn(w')
  {
    if PassStep(s, ctx, w, w') && Alive(ctx, w.doc) {
      var trouble :| CanPass(s, ctx, w, trouble) && w' == AfterPass(s, ctx, w, trouble);
      PassMovesOn(s, ctx, w, trouble);
      if w'.job.stage != w.job.stage {
        DifferentRanks(w.job.stage, w'.job.stage);
      }
    }
  }

  lemma LastFairStep(s: Settings, ctx: Context, run: seq<World>)
    requires Sound(ctx) && IsFairRun(s, ctx, run) && |run| > 1
    ensures IsFairRun(s, ctx, Front(run)) && Front(run)[0] == run[0]
    ensures OnTrack(s, ctx, Last(Front(run))) && FairStep(s, ctx, Last(Front(run)), Last(run))
  {
    FairRunIsRun(s, ctx, Front(run));
    RunIsOrderly(s, ctx, Front(run));
    RunIsTruthful(s, ctx, Front(run));
    assert FairStep(s, ctx, run[|run| - 2], run[|run| - 2 + 1]);
  }

  lemma {:induction false} FairRunMovesOn(s: Settings, ctx: Context, run: seq<World>)
    requires Sound(ctx) && IsFairRun(s, ctx, run)
    ensures MovedOn(Last(run))
  {
    if |run| > 1 {
      LastFairStep(s, ctx, run);
      FairRunMovesOn(s, ctx, Front(run));
      StepMovesOn(s, ctx, Last(Front(run)), Last(run));
    }
  }

  lemma AttemptsAreBounded(s: Settings, w: World, patches: nat)
    requires MovedOn(w) && Accounted(s, w) && w.stats.carried <= patches
    ensures w.stats.stageChanges <= 4 && w.job.attempts <= patches + 4 + w.stats.errors
  {
  }

  /** A fair run changes stage at most four times, and what it counts as attempts beside that and its PATCHes is
      errors. */
  lemma FairRunsAreShort(s: Settings, ctx: Context, run: seq<World>)
    requires Sound(ctx) && IsFairRun(s, ctx, run)
    ensures Last(run).stats.carried <= 5 * |ActionsOf(ctx)| + 3 * TotalRestarts(Last(run).ledger, ActionsOf(ctx))
    ensures Last(run).stats.stageChanges <= 4
    ensures Last(run).job.attempts <=
            5 * |ActionsOf(ctx)| + 3 * TotalRestarts(Last(run).ledger, ActionsOf(ctx)) + 4 + Last(run).stats.errors
  {
    FairRunIsRun(s, ctx, run);
    PatchesAreBounded(s, ctx, run);
    FairRunMovesOn(s, ctx, run);
    StepsAreAccountedFor(s, ctx, run);
    AttemptsAreBounded(s, Last(run), 5 * |ActionsOf(ctx)| + 3 * TotalRestarts(Last(run).ledger, ActionsOf(ctx)));
  }
}
