/** The worker's drain: it claims what is ready and hands each job to its owner's pipeline. */
module Worker {
  import opened Versions
  import opened Jobs
  import opened Handlers
  import opened Pipeline

  const BATCH := 25
  const NO_CREDENTIALS := 300

  /** The pipelines that can be built: one for each job whose owner has credentials, over the shared tables. */
  ghost predicate Routed(pipes: map<JobKey, Pipeline>, db: Database) {
    forall key | key in pipes :: pipes[key].store.db == db && pipes[key].store.owner == Some(key.owner)
  }

  /** What draining makes of a claimed row: put off for want of credentials, or what a pass over it left. */
  ghost predicate Handled(pipes: map<JobKey, Pipeline>, key: JobKey, claimed: Job, after: Job, now: int) {
    if key !in pipes then after == Advanced(claimed, now, claimed.stage, NO_CREDENTIALS, false, None)
    else exists doc, trouble :: CanHappen(pipes[key].s, pipes[key].ctx, claimed, doc, now, trouble) &&
                                after == PassRow(pipes[key].s, pipes[key].ctx, claimed, doc, now, trouble)
  }

  /** Of the rows, the first n have been handled, each once, and no other row has changed. */
  ghost predicate Drained(pipes: map<JobKey, Pipeline>, claimed: JobTable, after: JobTable, rows: seq<JobKey>, n: nat,
                          now: int)
    requires n <= |rows|
  {
    && after.Keys == claimed.Keys
    && (forall i | 0 <= i < n && rows[i] in claimed && rows[i] in after ::
          Handled(pipes, rows[i], claimed[rows[i]], after[rows[i]], now))
    && (forall key | key in claimed && key in after && key !in rows[..n] :: after[key] == claimed[key])
  }

  /** One claimed job: its pipeline makes a pass over the document its server has, or it is put off without one. */
  method HandleJob(pipes: map<JobKey, Pipeline>, store: Store, key: JobKey, now: int)
    requires key in store.db.jobs && Routed(pipes, store.db) && store.owner == None
    modifies store.db, (if key in pipes then {pipes[key]} else {}), (if key in pipes then {pipes[key].client} else {})
    ensures key in store.db.jobs && store.db.jobs == old(store.db.jobs)[key := store.db.jobs[key]]
    ensures Handled(pipes, key, old(store.db.jobs[key]), store.db.jobs[key], now)
    ensures key in pipes ==>
              exists trouble ::
                pipes[key].PassLeaves(old(store.db.jobs[key]), old(pipes[key].client.doc), old(pipes[key].client.done),
                                      now, trouble, store.db.jobs[key], pipes[key].client.doc, pipes[key].client.done)
  {
    var job := store.db.jobs[key];
    if key in pipes {
      ghost var doc := pipes[key].client.doc;
      ghost var trouble := pipes[key].Process(key, job.stage, job.attempts, job.failures, job.created, now);
      assert CanHappen(pipes[key].s, pipes[key].ctx, job, doc, now, trouble);
    } else {
      var owned := store.ForOwner(key.owner);
      OneRow(store.db.jobs, key, now, job.stage, NO_CREDENTIALS, false, None);
      owned.Advance(key.asset, key.submission, now, job.stage, NO_CREDENTIALS, false, None);
    }
  }

  method HandleNext(pipes: map<JobKey, Pipeline>, store: Store, ghost claimed: JobTable, rows: seq<JobKey>, i: nat,
                    now: int)
    requires i < |rows| && rows[i] !in rows[..i] && rows[i] in claimed && Routed(pipes, store.db) && store.owner == None
    requires Drained(pipes, claimed, store.db.jobs, rows, i, now)
    modifies store.db, set key | key in pipes :: pipes[key], set key | key in pipes :: pipes[key].client
    ensures Drained(pipes, claimed, store.db.jobs, rows, i + 1, now)
  {
    ghost var before := store.db.jobs;
    HandleJob(pipes, store, rows[i], now);
    OneMoreHandled(pipes, claimed, before, store.db.jobs, rows, i, now);
  }

  lemma NothingHandled(pipes: map<JobKey, Pipeline>, claimed: JobTable, rows: seq<JobKey>, now: int)
    ensures Drained(pipes, claimed, claimed, rows, 0, now)
  {
  }

  lemma SelectedAreThere(jobs: JobTable, rows: seq<JobKey>, now: int, i: nat)
    requires IsSelection(jobs, now, BATCH, rows) && i < |rows|
    ensures rows[i] in Leased(jobs, rows, now) && rows[i] !in rows[..i]
  {
    assert rows[i] in jobs;
  }

  /** Claims a batch and handles the jobs of it in turn, each once, until a signal to stop comes after so many of
      them; no other row changes but by its lease. */
  method Drain(pipes: map<JobKey, Pipeline>, store: Store, now: int, stop: Option<nat>)
    returns (rows: seq<JobKey>, handled: nat)
    requires Routed(pipes, store.db) && store.owner == None
    modifies store.db, set key | key in pipes :: pipes[key], set key | key in pipes :: pipes[key].client
    ensures IsSelection(old(store.db.jobs), now, 25, rows)
    ensures handled == if stop.Some? && stop.value < |rows| then stop.value else |rows|
    ensures Drained(pipes, Leased(old(store.db.jobs), rows, now), store.db.jobs, rows, handled, now)
  {
    rows := store.ClaimReady(BATCH, now);
    ghost var claimed := store.db.jobs;
    NothingHandled(pipes, claimed, rows, now);
    for i := 0 to |rows|
      invariant Drained(pipes, claimed, store.db.jobs, rows, i, now)
      invariant stop.Some? ==> i <= stop.value
    {
      if stop.Some? && stop.value == i {
        return rows, i;
      }
      SelectedAreThere(old(store.db.jobs), rows, now, i);
      HandleNext(pipes, store, claimed, rows, i, now);
    }
    handled := |rows|;
  }

  /** A claimed job that was not reached, or whose owner has no credentials, is as it was but due later. */
  lemma UnprocessedIsPutOff(pipes: map<JobKey, Pipeline>, jobs: JobTable, after: JobTable, rows: seq<JobKey>, n: nat,
                            now: int, i: nat)
    requires IsSelection(jobs, now, BATCH, rows) && i < |rows| && n <= |rows|
    requires Drained(pipes, Leased(jobs, rows, now), after, rows, n, now) && (i >= n || rows[i] !in pipes)
    ensures rows[i] in jobs && rows[i] in after && PutOff(jobs[rows[i]], after[rows[i]])
    ensures after[rows[i]].due == now + if i >= n then 120 else 300
  {
    assert rows[i] in jobs && Ready(jobs[rows[i]], now);
    assert rows[i] in after.Keys;
  }

  lemma OneMoreHandled(pipes: map<JobKey, Pipeline>, claimed: JobTable, before: JobTable, after: JobTable,
                       rows: seq<JobKey>, i: nat, now: int)
    requires i < |rows| && Drained(pipes, claimed, before, rows, i, now) && rows[i] in before && rows[i] in after &&
             rows[i] !in rows[..i]
    requires after == before[rows[i] := after[rows[i]]] && Handled(pipes, rows[i], before[rows[i]], after[rows[i]], now)
    ensures Drained(pipes, claimed, after, rows, i + 1, now)
  {
    assert rows[..i + 1] == rows[..i] + [rows[i]];
  }
}
