/** Chaining: one pass that follows hand-offs does exactly what separate passes, one stage each, would have done. */
module Chaining {
  import opened Protocol
  import opened Jobs
  import opened Handlers
  import opened Outcomes

  /** Where a job stands between passes taken at one time: the document, the stage, the wait, the PATCHes sent so
      far. */
  datatype Point = Point(doc: Doc, stage: Stage, delay: int, sent: seq<Patch>)

  /** A pass of one stage and no chaining. */
  function OnePass(ctx: Context, s: Settings, now: int, p: Point): Point {
    var ps, v := StagePatches(ctx, s, p.doc, now, p.stage), StageVerdict(ctx, s, p.doc, now, p.stage);
    Point(ApplyAll(p.doc, ps, now), v.stage, v.delay, p.sent + ps)
  }

  predicate HandsOn(ctx: Context, s: Settings, now: int, p: Point) {
    Chains(p.stage, StageVerdict(ctx, s, p.doc, now, p.stage))
  }

  function Repeat<T>(f: T -> T, x: T, n: nat): T
    decreases n
  {
    if n == 0 then x else Repeat(f, f(x), n - 1)
  }

  /** ok holds before each of the n steps. */
  predicate Throughout<T>(f: T -> T, ok: T -> bool, x: T, n: nat)
    decreases n
  {
    n == 0 || (ok(x) && Throughout(f, ok, f(x), n - 1))
  }

  function Step(ctx: Context, s: Settings, now: int): Point -> Point {
    q => OnePass(ctx, s, now, q)
  }

  function Test(ctx: Context, s: Settings, now: int): Point -> bool {
    q => HandsOn(ctx, s, now, q)
  }

  function Passes(ctx: Context, s: Settings, now: int, p: Point, n: nat): Point {
    Repeat(Step(ctx, s, now), p, n)
  }

  /** The first n passes each end in a hand-off. */
  predicate AllHandOn(ctx: Context, s: Settings, now: int, p: Point, n: nat) {
    Throughout(Step(ctx, s, now), Test(ctx, s, now), p, n)
  }

  function Arrived(now: int, p: Point, r: Chain): Point {
    Point(ApplyAll(p.doc, r.patches, now), r.verdict.stage, r.verdict.delay, p.sent + r.patches)
  }

  lemma ArriveInTwo(now: int, p: Point, first: Chain, rest: Chain)
    ensures Arrived(now, p, Chain(first.patches + rest.patches, rest.verdict)) ==
            Arrived(now, Arrived(now, p, first), rest)
  {
    ApplyInTwo(p.doc, first.patches, rest.patches, now);
    Assoc(p.sent, first.patches, rest.patches);
  }

  /** The chained pass of the pipeline. */
  function Chained(ctx: Context, s: Settings, now: int, p: Point, limit: nat): Point
    requires limit > 0
  {
    Arrived(now, p, RunStage(ctx, s, p.doc, now, p.stage, limit))
  }

  lemma ChainedOnce(ctx: Context, s: Settings, now: int, p: Point, limit: nat)
    requires limit == 1 || (limit > 0 && !HandsOn(ctx, s, now, p))
    ensures Chained(ctx, s, now, p, limit) == OnePass(ctx, s, now, p)
  {
  }

  lemma ChainedOn(ctx: Context, s: Settings, now: int, p: Point, limit: nat)
    requires limit > 1 && HandsOn(ctx, s, now, p)
    ensures Chained(ctx, s, now, p, limit) == Chained(ctx, s, now, OnePass(ctx, s, now, p), limit - 1)
  {
    var ps, v := StagePatches(ctx, s, p.doc, now, p.stage), StageVerdict(ctx, s, p.doc, now, p.stage);
    ArriveInTwo(now, p, Chain(ps, v),
                RunStage(ctx, s, AfterStage(ctx, s, p.doc, now, p.stage), now, v.stage, limit - 1));
  }

  function Follow<T>(f: T -> T, ok: T -> bool, x: T, limit: nat): T
    requires limit > 0
    decreases limit
  {
    if limit == 1 || !ok(x) then f(x) else Follow(f, ok, f(x), limit - 1)
  }

  lemma {:induction false} FollowIsRepeat<T>(f: T -> T, ok: T -> bool, x: T, limit: nat) returns (n: nat)
    requires limit > 0
    ensures 1 <= n <= limit && Follow(f, ok, x, limit) == Repeat(f, x, n)
    ensures Throughout(f, ok, x, n - 1) && (n < limit ==> !Throughout(f, ok, x, n))
    decreases limit
  {
    if limit > 1 && ok(x) {
      n := FollowIsRepeat(f, ok, f(x), limit - 1);
      n := n + 1;
    } else {
      n := 1;
      assert Repeat(f, f(x), 0) == f(x);
    }
  }

  lemma {:induction false} ChainedFollows(ctx: Context, s: Settings, now: int, p: Point, limit: nat)
    requires limit > 0
    ensures Chained(ctx, s, now, p, limit) == Follow(Step(ctx, s, now), Test(ctx, s, now), p, limit)
    decreases limit
  {
    if limit > 1 && HandsOn(ctx, s, now, p) {
      ChainedOn(ctx, s, now, p, limit);
      ChainedFollows(ctx, s, now, OnePass(ctx, s, now, p), limit - 1);
    } else {
      ChainedOnce(ctx, s, now, p, limit);
    }
  }

  /** A chained pass refines stepping: the same PATCHes in the same order, the same document and the same verdict as n
      separate passes, all of which hand on but the last; and it stops short of its limit only where a hand-off
      ends. */
  lemma ChainingRefinesStepping(ctx: Context, s: Settings, now: int, p: Point, limit: nat) returns (n: nat)
    requires limit > 0
    ensures 1 <= n <= limit && Chained(ctx, s, now, p, limit) == Passes(ctx, s, now, p, n)
    ensures AllHandOn(ctx, s, now, p, n - 1) && (n < limit ==> !AllHandOn(ctx, s, now, p, n))
  {
    ChainedFollows(ctx, s, now, p, limit);
    n := FollowIsRepeat(Step(ctx, s, now), Test(ctx, s, now), p, limit);
  }

  lemma BusyVerdict(ctx: Context, s: Settings, doc: Doc, now: int, stage: Stage)
    requires Busy(Moves(ctx, doc, now, s.stall, stage))
    ensures StageVerdict(ctx, s, doc, now, stage) == Verdict(if stage == New then Transcribe else stage, s.asyncPoll)
    ensures !Terminal(stage)
  {
  }

  lemma SendersAreBusy(ctx: Context, s: Settings, doc: Doc, now: int, stage: Stage)
    requires StagePatches(ctx, s, doc, now, stage) != []
    ensures StageVerdict(ctx, s, doc, now, stage) == Verdict(if stage == New then Transcribe else stage, s.asyncPoll)
    ensures !Terminal(stage)
  {
    if Busy(Moves(ctx, doc, now, s.stall, stage)) {
      BusyVerdict(ctx, s, doc, now, stage);
    } else {
      NothingToSend(Moves(ctx, doc, now, s.stall, stage));
    }
  }

  /** A hand-off has sent nothing, except out of the new stage when polls are too close to be told from a hand-off. */
  lemma HandOffSends(ctx: Context, s: Settings, now: int, p: Point)
    requires StagePatches(ctx, s, p.doc, now, p.stage) != []
    ensures HandsOn(ctx, s, now, p) <==> p.stage == New && s.asyncPoll <= 5
  {
    SendersAreBusy(ctx, s, p.doc, now, p.stage);
  }

  /** Only the stage and the wait have changed. */
  predicate OnlyMoved(p: Point, q: Point) {
    q == p.(stage := q.stage, delay := q.delay)
  }

  lemma HandOffIsSilent(ctx: Context, s: Settings, now: int, p: Point)
    requires s.asyncPoll > 5 && HandsOn(ctx, s, now, p)
    ensures OnlyMoved(p, OnePass(ctx, s, now, p))
  {
    if StagePatches(ctx, s, p.doc, now, p.stage) != [] {
      HandOffSends(ctx, s, now, p);
    }
  }

  lemma {:induction false} RepeatKeeps<T>(f: T -> T, ok: T -> bool, alike: (T, T) -> bool, x: T, n: nat)
    requires forall y | ok(y) :: alike(y, f(y))
    requires forall y :: alike(y, y)
    requires forall y, z, w | alike(y, z) && alike(z, w) :: alike(y, w)
    requires Throughout(f, ok, x, n)
    ensures alike(x, Repeat(f, x, n))
    decreases n
  {
    if n == 0 {
      assert Repeat(f, x, n) == x && alike(x, x);
    } else {
      var far := Repeat(f, f(x), n - 1);
      RepeatKeeps(f, ok, alike, f(x), n - 1);
      assert alike(x, f(x)) && alike(f(x), far);
      assert alike(x, far);
    }
  }

  /** With polls more than five seconds apart only the last stage of a chain sends anything. */
  lemma HandOffsSendNothing(ctx: Context, s: Settings, now: int, p: Point, n: nat)
    requires s.asyncPoll > 5 && AllHandOn(ctx, s, now, p, n)
    ensures OnlyMoved(p, Passes(ctx, s, now, p, n))
  {
    forall q | HandsOn(ctx, s, now, q) ensures OnlyMoved(q, OnePass(ctx, s, now, q)) {
      HandOffIsSilent(ctx, s, now, q);
    }
    RepeatKeeps(Step(ctx, s, now), Test(ctx, s, now), (p, q) => OnlyMoved(p, q), p, n);
  }

  lemma {:induction false} RepeatLast<T>(f: T -> T, x: T, n: nat)
    requires n > 0
    ensures Repeat(f, x, n) == f(Repeat(f, x, n - 1))
    decreases n
  {
    if n > 1 {
      RepeatLast(f, f(x), n - 1);
    } else {
      assert Repeat(f, f(x), 0) == f(x) && Repeat(f, x, 0) == x;
    }
  }

  lemma FollowEndsInAStep<T>(f: T -> T, ok: T -> bool, x: T, limit: nat) returns (n: nat)
    requires limit > 0
    ensures Throughout(f, ok, x, n) && Follow(f, ok, x, limit) == f(Repeat(f, x, n))
  {
    var m := FollowIsRepeat(f, ok, x, limit);
    RepeatLast(f, x, m);
    n := m - 1;
  }

  lemma ChainedEndsInAPass(ctx: Context, s: Settings, now: int, p: Point, limit: nat) returns (n: nat)
    requires limit > 0
    ensures AllHandOn(ctx, s, now, p, n)
    ensures Chained(ctx, s, now, p, limit) == OnePass(ctx, s, now, Passes(ctx, s, now, p, n))
  {
    ChainedFollows(ctx, s, now, p, limit);
    n := FollowEndsInAStep(Step(ctx, s, now), Test(ctx, s, now), p, limit);
  }

  /** A chained pass is one pass from where its hand-offs, which changed nothing, have moved the job. */
  lemma ChainedIsOnePass(ctx: Context, s: Settings, now: int, p: Point, limit: nat) returns (q: Point)
    requires s.asyncPoll > 5 && limit > 0
    ensures OnlyMoved(p, q) && Chained(ctx, s, now, p, limit) == OnePass(ctx, s, now, q)
  {
    var n := ChainedEndsInAPass(ctx, s, now, p, limit);
    HandOffsSendNothing(ctx, s, now, p, n);
    q := Passes(ctx, s, now, p, n);
  }

  lemma SentFromNothing(now: int, p: Point, r: Chain, q: Point)
    requires p.sent == [] && Arrived(now, p, r) == q
    ensures r.patches == q.sent && r.verdict == Verdict(q.stage, q.delay)
  {
    Assoc(r.patches, [], []);
  }

  lemma FirstSent<T>(sent: seq<T>, ps: seq<T>)
    requires sent == []
    ensures sent + ps == ps
  {
  }

  lemma OnePassFromNothing(ctx: Context, s: Settings, now: int, p: Point, q: Point)
    requires p.sent == [] && OnlyMoved(p, q)
    ensures var after, v := OnePass(ctx, s, now, q), StageVerdict(ctx, s, p.doc, now, q.stage);
            after.sent == StagePatches(ctx, s, p.doc, now, q.stage) && after.stage == v.stage && after.delay == v.delay
  {
    FirstSent(p.sent, StagePatches(ctx, s, q.doc, now, q.stage));
  }

  /** So a chained pass sends what its last stage makes of the document as it was first read, and nothing else. */
  lemma OnlyTheLastStageSends(ctx: Context, s: Settings, now: int, p: Point, limit: nat) returns (last: Stage)
    requires s.asyncPoll > 5 && limit > 0 && p.sent == []
    ensures var r := RunStage(ctx, s, p.doc, now, p.stage, limit);
            r.patches == StagePatches(ctx, s, p.doc, now, last) && r.verdict == StageVerdict(ctx, s, p.doc, now, last)
  {
    var q := ChainedIsOnePass(ctx, s, now, p, limit);
    last := q.stage;
    OnePassFromNothing(ctx, s, now, p, q);
    SentFromNothing(now, p, RunStage(ctx, s, p.doc, now, p.stage, limit), OnePass(ctx, s, now, q));
  }
}
