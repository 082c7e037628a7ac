/** The billing bound: how often one action can be requested in a run, whatever the server answers and whenever. */
module Billing {
  import opened Versions
  import opened Protocol
  import opened Jobs
  import opened Handlers
  import opened Plans
  import opened Safety
  import opened Runs

  function Restarts(reasons: seq<Reason>): (n: nat)
    ensures n <= |reasons|
  {
    if reasons == [] then 0
    else Restarts(Front(reasons)) + if Last(reasons) == Restart then 1 else 0
  }

  /** What version number i says about the request made for it. */
  predicate ExplainedAt(s: Settings, created: int, versions: seq<Version>, reasons: seq<Reason>, i: nat)
    requires i < |versions| == |reasons|
  {
    && (versions[i].status == InProgress || versions[i].status == Complete || versions[i].status == Failed)
    && created <= Date(versions[i]) < created + s.maxAgeHours * 3600
    && reasons[i] != Again
    && (reasons[i] == First <==> i == 0)
    && (i > 0 && reasons[i] == Retry ==> versions[i - 1].status == Failed && reasons[i - 1] != Retry)
    && (i > 0 && reasons[i] == Restart ==> Date(versions[i]) - Date(versions[i - 1]) > s.stall)
  }

  /** The versions of an action that started with none, explained by the requests made for it. */
  ghost predicate Explained(s: Settings, created: int, versions: seq<Version>, reasons: seq<Reason>) {
    |reasons| == |versions| && forall i | 0 <= i < |versions| :: ExplainedAt(s, created, versions, reasons, i)
  }

  // ---- steps keep the explanation -----------------------------------------------------

  /** A failure after a retry is the second in a row, so a retry is never followed by another. */
  lemma RetryIsNotRepeated(s: Settings, created: int, versions: seq<Version>, reasons: seq<Reason>)
    requires Explained(s, created, versions, reasons) && versions != []
    requires Last(versions).status == Failed && Streak(versions) < MAX_ACTION_FAILURES
    ensures Last(reasons) != Retry
  {
    var n := |versions|;
    assert ExplainedAt(s, created, versions, reasons, n - 1);
  }

  lemma RequestExplained(s: Settings, created: int, now: int, versions: seq<Version>, reasons: seq<Reason>)
    requires Explained(s, created, versions, reasons) && InOrder(versions, now)
    requires MayAsk(versions, now, s.stall) && created <= now < created + s.maxAgeHours * 3600
    ensures Explained(s, created, Entered(versions, true, now), reasons + [ReasonFor(versions)])
  {
    var versions', reasons' := Entered(versions, true, now), reasons + [ReasonFor(versions)];
    forall i | 0 <= i < |versions'| ensures ExplainedAt(s, created, versions', reasons', i) {
      if i < |versions| {
        assert ExplainedAt(s, created, versions, reasons, i);
      } else {
        SortedStays(versions);
        RequestIsExplained(s, created, now, versions, reasons);
      }
    }
  }

  lemma RequestIsExplained(s: Settings, created: int, now: int, versions: seq<Version>, reasons: seq<Reason>)
    requires Explained(s, created, versions, reasons) && Ordered(versions) == versions
    requires MayAsk(versions, now, s.stall) && created <= now < created + s.maxAgeHours * 3600
    ensures ExplainedAt(s, created, versions + [Attempt(now)], reasons + [ReasonFor(versions)], |versions|)
  {
    if versions != [] {
      assert ExplainedAt(s, created, versions, reasons, |versions| - 1);
      if Last(versions).status == Failed {
        RetryIsNotRepeated(s, created, versions, reasons);
      }
    }
  }

  lemma AcceptExplained(s: Settings, created: int, now: int, versions: seq<Version>, reasons: seq<Reason>)
    requires Explained(s, created, versions, reasons)
    ensures Explained(s, created, Entered(versions, false, now), reasons)
  {
    forall i | 0 <= i < |versions| ensures ExplainedAt(s, created, Entered(versions, false, now), reasons, i) {
      assert ExplainedAt(s, created, versions, reasons, i);
    }
  }

  lemma MaturedExplained(s: Settings, created: int, before: seq<Version>, after: seq<Version>, reasons: seq<Reason>)
    requires Explained(s, created, before, reasons) && Matured(before, after)
    ensures Explained(s, created, after, reasons)
  {
    forall i | 0 <= i < |after| ensures ExplainedAt(s, created, after, reasons, i) {
      assert ExplainedAt(s, created, before, reasons, i);
      assert after[i] == before[i] || Ends(before[i], after[i]);
      assert i > 0 ==> after[i - 1] == before[i - 1] || Ends(before[i - 1], after[i - 1]);
    }
  }

  lemma BilledAt(ledger: Ledger, doc: Doc, p: Patch, key: Key)
    ensures Entries(Billed(ledger, doc, p), key) ==
            if KeyOf(p) == key && IsRequest(p) then Entries(ledger, key) + [ReasonFor(Node(doc, key))]
              else Entries(ledger, key)
  {
  }

  lemma {:induction false} LedgerUntouched(ledger: Ledger, doc: Doc, ps: seq<Patch>, now: int, key: Key)
    requires forall i | 0 <= i < |ps| :: KeyOf(ps[i]) != key
    ensures Entries(BillAll(ledger, doc, ps, now), key) == Entries(ledger, key)
    ensures Node(ApplyAll(doc, ps, now), key) == Node(doc, key)
  {
    if ps != [] {
      LedgerUntouched(ledger, doc, Front(ps), now, key);
      BilledAt(BillAll(ledger, doc, Front(ps), now), ApplyAll(doc, Front(ps), now), Last(ps), key);
    }
  }

  /** The ledger changes for an action by its own request alone. */
  lemma {:induction false} LedgerTouched(ledger: Ledger, doc: Doc, ps: seq<Patch>, now: int, key: Key, i: nat)
    requires DistinctKeysOf(ps) && i < |ps| && KeyOf(ps[i]) == key
    ensures Entries(BillAll(ledger, doc, ps, now), key) ==
            if IsRequest(ps[i]) then Entries(ledger, key) + [ReasonFor(Node(doc, key))] else Entries(ledger, key)
  {
    var n := |ps| - 1;
    BilledAt(BillAll(ledger, doc, Front(ps), now), ApplyAll(doc, Front(ps), now), Last(ps), key);
    if i == n {
      LedgerUntouched(ledger, doc, Front(ps), now, key);
    } else {
      LedgerTouched(ledger, doc, Front(ps), now, key, i);
      assert KeyOf(ps[n]) != key;
    }
  }

  lemma {:induction false} BillInTwo(ledger: Ledger, doc: Doc, a: seq<Patch>, b: seq<Patch>, now: int)
    ensures BillAll(ledger, doc, a + b, now) == BillAll(BillAll(ledger, doc, a, now), ApplyAll(doc, a, now), b, now)
  {
    if b == [] {
      assert a + b == a;
    } else {
      var all := a + b;
      assert Front(all) == a + Front(b) && Last(all) == Last(b);
      BillInTwo(ledger, doc, a, Front(b), now);
      ApplyInTwo(doc, a, Front(b), now);
    }
  }

  lemma StageExplained(ctx: Context, s: Settings, ledger: Ledger, doc: Doc, now: int, stage: Stage, n: nat, key: Key,
                       created: int)
    requires WellFormed(ctx.features) && DocInOrder(doc, now) && n <= |StagePatches(ctx, s, doc, now, stage)|
    requires created <= now < created + s.maxAgeHours * 3600
    requires Explained(s, created, Node(doc, key), Entries(ledger, key))
    ensures var ps := StagePatches(ctx, s, doc, now, stage)[..n];
            Explained(s, created, Node(ApplyAll(doc, ps, now), key), Entries(BillAll(ledger, doc, ps, now), key))
  {
    var all := StagePatches(ctx, s, doc, now, stage);
    var ps := all[..n];
    StagePatchesAreJustified(ctx, s, doc, now, stage);
    PrefixKeys(all, n);
    if i :| 0 <= i < n && KeyOf(ps[i]) == key {
      assert ps[i] in ps && ps[i] in all;
      LedgerTouched(ledger, doc, ps, now, key, i);
      EffectOnKey(doc, ps, now, key);
      if IsRequest(ps[i]) {
        RequestExplained(s, created, now, Node(doc, key), Entries(ledger, key));
      } else {
        AcceptExplained(s, created, now, Node(doc, key), Entries(ledger, key));
      }
    } else {
      LedgerUntouched(ledger, doc, ps, now, key);
    }
  }

  lemma {:induction false} ChainExplained(ctx: Context, s: Settings, ledger: Ledger, doc: Doc, now: int, stage: Stage,
                                          limit: nat, n: nat, key: Key, created: int)
    requires WellFormed(ctx.features) && DocInOrder(doc, now) && limit > 0
    requires n <= |RunStage(ctx, s, doc, now, stage, limit).patches|
    requires created <= now < created + s.maxAgeHours * 3600
    requires Explained(s, created, Node(doc, key), Entries(ledger, key))
    ensures var ps := RunStage(ctx, s, doc, now, stage, limit).patches[..n];
            Explained(s, created, Node(ApplyAll(doc, ps, now), key), Entries(BillAll(ledger, doc, ps, now), key))
    decreases limit
  {
    var ps, v := StagePatches(ctx, s, doc, now, stage), StageVerdict(ctx, s, doc, now, stage);
    ChainPrefix(ctx, s, doc, now, stage, limit, n);
    if n <= |ps| {
      StageExplained(ctx, s, ledger, doc, now, stage, n, key, created);
    } else {
      var after := AfterStage(ctx, s, doc, now, stage);
      WholeStageExplained(ctx, s, ledger, doc, now, stage, key, created);
      ChainExplained(ctx, s, BillAll(ledger, doc, ps, now), after, now, v.stage, limit - 1, n - |ps|, key, created);
      BillInTwo(ledger, doc, ps, RunStage(ctx, s, after, now, v.stage, limit - 1).patches[..n - |ps|], now);
    }
  }

  lemma WholeStageExplained(ctx: Context, s: Settings, ledger: Ledger, doc: Doc, now: int, stage: Stage, key: Key,
                            created: int)
    requires WellFormed(ctx.features) && DocInOrder(doc, now)
    requires created <= now < created + s.maxAgeHours * 3600
    requires Explained(s, created, Node(doc, key), Entries(ledger, key))
    ensures var ps, after := StagePatches(ctx, s, doc, now, stage), AfterStage(ctx, s, doc, now, stage);
            DocInOrder(after, now) &&
              Explained(s, created, Node(after, key), Entries(BillAll(ledger, doc, ps, now), key))
  {
    var ps := StagePatches(ctx, s, doc, now, stage);
    assert ps[..|ps|] == ps;
    StageKeepsOrder(ctx, s, doc, now, stage, |ps|);
    StageExplained(ctx, s, ledger, doc, now, stage, |ps|, key, created);
  }

  lemma PassExplained(s: Settings, ctx: Context, w: World, trouble: Option<Trouble>, key: Key)
    requires Sound(ctx) && Orderly(w) && CanPass(s, ctx, w, trouble)
    requires Explained(s, w.job.created, Node(w.doc, key), Entries(w.ledger, key))
    ensures var w' := AfterPass(s, ctx, w, trouble);
            Explained(s, w.job.created, Node(w'.doc, key), Entries(w'.ledger, key))
  {
    if Works(s, ctx, w.job, w.now) {
      PassPrefix(s, ctx, w.job, w.doc, w.now, trouble);
      ChainExplained(ctx, s, w.ledger, w.doc, w.now, w.job.stage, CHAIN_LIMIT,
                     |PassPatches(s, ctx, w.job, w.doc, w.now, trouble)|, key, w.job.created);
    }
  }

  lemma StepExplained(s: Settings, ctx: Context, w: World, w': World, key: Key)
    requires Sound(ctx) && Orderly(w) && Next(s, ctx, w, w')
    requires Explained(s, w.job.created, Node(w.doc, key), Entries(w.ledger, key))
    ensures Explained(s, w.job.created, Node(w'.doc, key), Entries(w'.ledger, key))
  {
    if PassStep(s, ctx, w, w') {
      var trouble :| CanPass(s, ctx, w, trouble) && w' == AfterPass(s, ctx, w, trouble);
      PassExplained(s, ctx, w, trouble, key);
    } else if SettleStep(w, w') {
      SettlingMatures(w.doc, w'.doc);
      MaturedExplained(s, w.job.created, Node(w.doc, key), Node(w'.doc, key), Entries(w.ledger, key));
    }
  }

  lemma {:induction false} RunExplained(s: Settings, ctx: Context, run: seq<World>, key: Key)
    requires Sound(ctx) && IsRun(s, ctx, run) && Node(run[0].doc, key) == []
    ensures var w := Last(run); Explained(s, w.job.created, Node(w.doc, key), Entries(w.ledger, key))
  {
    if |run| > 1 {
      RunExplained(s, ctx, Front(run), key);
      RunIsOrderly(s, ctx, Front(run));
      StepKeepsOrder(s, ctx, run[|run| - 2], run[|run| - 1]);
      StepExplained(s, ctx, run[|run| - 2], run[|run| - 1], key);
    }
  }

  // ---- counting -----------------------------------------------------------------------

  /** Two retries never touch, so each restart, and the first request, allows at most one. */
  lemma {:induction false} RetriesAreSparse(reasons: seq<Reason>)
    requires forall i | 0 <= i < |reasons| :: reasons[i] != Again && (reasons[i] == First <==> i == 0)
    requires forall i | 0 < i < |reasons| && reasons[i] == Retry :: reasons[i - 1] != Retry
    ensures |reasons| <= 2 * Restarts(reasons) + 1 + if reasons != [] && Last(reasons) == Retry then 1 else 0
  {
    if reasons != [] {
      RetriesAreSparse(Front(reasons));
    }
  }

  /** Every restart waits out the stall time. */
  lemma {:induction false} RestartsTakeTime(s: Settings, created: int, versions: seq<Version>, reasons: seq<Reason>)
    requires Explained(s, created, versions, reasons) && DateSorted(versions) && versions != []
    ensures Restarts(reasons) * (s.stall + 1) <= Date(Last(versions)) - Date(versions[0])
  {
    var n := |versions| - 1;
    assert ExplainedAt(s, created, versions, reasons, n);
    if n == 0 {
      assert reasons == [First];
      assert Restarts(Front(reasons)) == 0;
    } else {
      forall i | 0 <= i < n ensures ExplainedAt(s, created, Front(versions), Front(reasons), i) {
        assert ExplainedAt(s, created, versions, reasons, i);
      }
      RestartsTakeTime(s, created, Front(versions), Front(reasons));
      OneMoreWait(Restarts(Front(reasons)), s.stall + 1);
      assert Date(versions[n - 1]) <= Date(versions[n]);
    }
  }

  lemma OneMoreWait(restarts: nat, wait: nat)
    ensures (restarts + 1) * wait == restarts * wait + wait
  {
  }

  /** At most 2s + 2 requests for an action, where s counts its stall restarts; and those must fit in the job's
      lifetime. */
  lemma BillingBound(s: Settings, ctx: Context, run: seq<World>, key: Key)
    requires Sound(ctx) && IsRun(s, ctx, run) && Node(run[0].doc, key) == []
    ensures var w := Last(run);
            var restarts := Restarts(Entries(w.ledger, key));
            && |Entries(w.ledger, key)| == |Node(w.doc, key)| <= 2 * restarts + 2
            && (Node(w.doc, key) != [] ==> restarts * (s.stall + 1) < s.maxAgeHours * 3600)
  {
    var w := Last(run);
    RunExplained(s, ctx, run, key);
    RunIsOrderly(s, ctx, run);
    var versions, reasons := Node(w.doc, key), Entries(w.ledger, key);
    forall i | 0 <= i < |reasons|
      ensures reasons[i] != Again && (reasons[i] == First <==> i == 0)
      ensures i > 0 && reasons[i] == Retry ==> reasons[i - 1] != Retry
    {
      assert ExplainedAt(s, w.job.created, versions, reasons, i);
    }
    RetriesAreSparse(reasons);
    if versions != [] {
      RestartsTakeTime(s, w.job.created, versions, reasons);
      assert ExplainedAt(s, w.job.created, versions, reasons, 0);
      assert ExplainedAt(s, w.job.created, versions, reasons, |versions| - 1);
    }
  }

  /** With the shipped limits (24 hours, 30 minutes) no action is requested more than 96 times. */
  lemma DefaultBillingBound(s: Settings, ctx: Context, run: seq<World>, key: Key)
    requires Sound(ctx) && IsRun(s, ctx, run) && Node(run[0].doc, key) == []
    requires s.maxAgeHours == 24 && s.stall == 30 * 60
    ensures |Node(Last(run).doc, key)| <= 96
  {
    BillingBound(s, ctx, run, key);
  }

  /** An action whose attempts are always settled before they count as stalled is requested at most twice. */
  lemma TwoRequestsWithoutStalls(s: Settings, ctx: Context, run: seq<World>, key: Key)
    requires Sound(ctx) && IsRun(s, ctx, run) && Node(run[0].doc, key) == []
    requires Restart !in Entries(Last(run).ledger, key)
    ensures |Node(Last(run).doc, key)| <= 2
  {
    BillingBound(s, ctx, run, key);
    NoRestarts(Entries(Last(run).ledger, key));
  }

  lemma {:induction false} NoRestarts(reasons: seq<Reason>)
    requires Restart !in reasons
    ensures Restarts(reasons) == 0
  {
    if reasons != [] {
      NoRestarts(Front(reasons));
    }
  }
}
