/** The job queue: one row per owner, form and submission, and the tables beside it. */
module Jobs {
  import opened Versions

  /** Parked is the source's "failed". */
  datatype Stage = New | Transcribe | Translate | Qual | Done | Parked

  predicate Terminal(stage: Stage) {
    stage == Done || stage == Parked
  }

  datatype Job = Job(stage: Stage, attempts: nat, failures: nat, due: int, created: int, updated: int)

  /** failure: Some(true) counts an error, Some(false) clears the count, None leaves it. */
  function Advanced(job: Job, now: int, stage: Stage, delay: int, bump: bool, failure: Option<bool>): Job {
    Job(stage,
        if bump then job.attempts + 1 else job.attempts,
        match failure case None => job.failures case Some(failed) => (if failed then job.failures + 1 else 0),
        now + delay, job.created, now)
  }

  datatype JobKey = JobKey(owner: nat, asset: string, submission: string)

  datatype AssetKey = AssetKey(owner: nat, asset: string)

  type JobTable = map<JobKey, Job>

  const LEASE := 120

  // ---- what each statement does to the tables -------------------------------------

  predicate InScope(owner: Option<nat>, row: nat) {
    owner.Some? ==> owner.value == row
  }

  /** Rows written by an unbound store belong to owner 0. */
  function Writer(owner: Option<nat>): nat {
    match owner case None => 0 case Some(id) => id
  }

  function Enqueued(jobs: JobTable, key: JobKey, now: int): JobTable {
    if key in jobs then jobs else jobs[key := Job(New, 0, 0, now, now, now)]
  }

  predicate Matches(owner: Option<nat>, asset: string, submission: string, key: JobKey) {
    key.asset == asset && key.submission == submission && InScope(owner, key.owner)
  }

  function Rescheduled(jobs: JobTable, owner: Option<nat>, asset: string, submission: string, now: int,
                       stage: Stage, delay: int, bump: bool, failure: Option<bool>): JobTable {
    map key | key in jobs ::
      if Matches(owner, asset, submission, key) then Advanced(jobs[key], now, stage, delay, bump, failure)
      else jobs[key]
  }

  function Deleted(jobs: JobTable, owner: Option<nat>, asset: string, submission: string): JobTable {
    map key | key in jobs && !Matches(owner, asset, submission, key) :: jobs[key]
  }

  predicate Ready(job: Job, now: int) {
    !Terminal(job.stage) && job.due <= now
  }

  /** The same row, to be looked at no earlier than before: all that leasing it or waiting for credentials does to
      it. */
  predicate PutOff(job: Job, later: Job) {
    later == job.(due := later.due, updated := later.updated) && later.due >= job.due
  }

  /** Every claimed row pushed out by the lease. */
  function Leased(jobs: JobTable, claimed: seq<JobKey>, now: int): JobTable {
    map key | key in jobs :: if key in claimed then jobs[key].(due := now + LEASE) else jobs[key]
  }

  /** The rows a limited query ordered by due time may return. */
  ghost predicate IsSelection(jobs: JobTable, now: int, limit: nat, rows: seq<JobKey>) {
    && |rows| <= limit
    && (forall i, j | 0 <= i < j < |rows| :: rows[i] != rows[j])
    && (forall key | key in rows :: key in jobs && Ready(jobs[key], now))
    && (forall i, j | 0 <= i < j < |rows| && rows[i] in jobs && rows[j] in jobs ::
          jobs[rows[i]].due <= jobs[rows[j]].due)
    && (forall key | key in jobs && Ready(jobs[key], now) && key !in rows ::
          |rows| == limit && forall row | row in rows && row in jobs :: jobs[row].due <= jobs[key].due)
  }

  class Database {
    var jobs: JobTable
    var cursors: map<AssetKey, int>
    /** The enabled flag stands for the saved configuration of a form. */
    var settings: map<AssetKey, bool>

    constructor ()
      ensures jobs == map[] && cursors == map[] && settings == map[]
    {
      jobs, cursors, settings := map[], map[], map[];
    }
  }

  class Store {
    const db: Database
    const owner: Option<nat>

    constructor (db: Database, owner: Option<nat>)
      ensures this.db == db && this.owner == owner
    {
      this.db, this.owner := db, owner;
    }

    /** A view of the same tables limited to one user's rows. */
    method ForOwner(id: nat) returns (view: Store)
      ensures fresh(view) && view.db == db && view.owner == Some(id)
    {
      view := new Store(db, Some(id));
    }

    method Enqueue(asset: string, submission: string, now: int) returns (added: bool)
      modifies db
      ensures db.jobs == Enqueued(old(db.jobs), JobKey(Writer(owner), asset, submission), now)
      ensures var key := JobKey(if owner.None? then 0 else owner.value, asset, submission);
              (added <==> key !in old(db.jobs)) &&
              db.jobs == if added then old(db.jobs)[key := Job(New, 0, 0, now, now, now)] else old(db.jobs)
      ensures db.cursors == old(db.cursors) && db.settings == old(db.settings)
    {
      var key := JobKey(Writer(owner), asset, submission);
      added := key !in db.jobs;
      if added {
        db.jobs := db.jobs[key := Job(New, 0, 0, now, now, now)];
      }
    }

    method Advance(asset: string, submission: string, now: int, stage: Stage, delay: int, bump: bool,
                   failure: Option<bool>)
      modifies db
      ensures db.jobs == Rescheduled(old(db.jobs), owner, asset, submission, now, stage, delay, bump, failure)
      ensures db.jobs.Keys == old(db.jobs).Keys
      ensures forall key | key in db.jobs ::
                var job := old(db.jobs)[key];
                db.jobs[key] ==
                if key.asset == asset && key.submission == submission && (owner == None || owner == Some(key.owner))
                then Job(stage, if bump then job.attempts + 1 else job.attempts,
                         if failure == Some(true) then job.failures + 1 else if failure == Some(false) then 0
                         else job.failures,
                         now + delay, job.created, now)
                else job
      ensures db.cursors == old(db.cursors) && db.settings == old(db.settings)
    {
      db.jobs := Rescheduled(db.jobs, owner, asset, submission, now, stage, delay, bump, failure);
    }

    method Reset(asset: string, submission: string, now: int)
      modifies db
      ensures db.jobs == Rescheduled(old(db.jobs), owner, asset, submission, now, New, 0, false, None)
      ensures forall key | key in db.jobs && key.asset == asset && key.submission == submission &&
                           (owner == None || owner == Some(key.owner)) ::
                db.jobs[key] == old(db.jobs)[key].(stage := New, due := now, updated := now)
      ensures db.cursors == old(db.cursors) && db.settings == old(db.settings)
    {
      Advance(asset, submission, now, New, 0, false, None);
    }

    method DeleteJob(asset: string, submission: string) returns (count: nat)
      modifies db
      ensures db.jobs == Deleted(old(db.jobs), owner, asset, submission)
      ensures count == |old(db.jobs)| - |db.jobs|
      ensures forall key ::
                key in db.jobs <==>
                key in old(db.jobs) &&
                !(key.asset == asset && key.submission == submission && (owner == None || owner == Some(key.owner)))
      ensures forall key | key in db.jobs :: db.jobs[key] == old(db.jobs)[key]
      ensures db.cursors == old(db.cursors) && db.settings == old(db.settings)
    {
      var kept := Deleted(db.jobs, owner, asset, submission);
      assert kept.Keys <= db.jobs.Keys;
      assert kept.Keys + (db.jobs.Keys - kept.Keys) == db.jobs.Keys;
      count := |db.jobs| - |kept|;
      db.jobs := kept;
    }

    /** Claims the earliest due jobs of every owner and pushes them out by the lease. */
    method ClaimReady(limit: nat, now: int) returns (rows: seq<JobKey>)
      modifies db
      ensures IsSelection(old(db.jobs), now, limit, rows)
      ensures db.jobs == Leased(old(db.jobs), rows, now)
      ensures forall key | key in rows :: key in old(db.jobs) && old(db.jobs)[key].due <= now &&
                old(db.jobs)[key].stage != Done && old(db.jobs)[key].stage != Parked &&
                key in db.jobs && db.jobs[key] == old(db.jobs)[key].(due := now + 120)
      ensures |rows| < limit ==> forall key | key in old(db.jobs) && old(db.jobs)[key].due <= now &&
                old(db.jobs)[key].stage != Done && old(db.jobs)[key].stage != Parked :: key in rows
      ensures db.cursors == old(db.cursors) && db.settings == old(db.settings)
    {
      rows := SelectReady(db.jobs, now, limit);
      ghost var before := db.jobs;
      for i := 0 to |rows|
        invariant db.jobs == Leased(before, rows[..i], now)
        invariant db.cursors == old(db.cursors) && db.settings == old(db.settings)
      {
        assert rows[i] in before;
        assert forall key :: key in rows[..i + 1] <==> key in rows[..i] || key == rows[i];
        db.jobs := db.jobs[rows[i] := db.jobs[rows[i]].(due := now + LEASE)];
      }
      assert rows[..|rows|] == rows;
    }

    method SetCursor(asset: string, stamp: int)
      modifies db
      ensures db.cursors == old(db.cursors)[AssetKey(if owner.None? then 0 else owner.value, asset) := stamp]
      ensures db.jobs == old(db.jobs) && db.settings == old(db.settings)
    {
      db.cursors := db.cursors[AssetKey(Writer(owner), asset) := stamp];
    }

    method SetAssetSettings(asset: string, enabled: bool)
      modifies db
      ensures db.settings == old(db.settings)[AssetKey(if owner.None? then 0 else owner.value, asset) := enabled]
      ensures db.jobs == old(db.jobs) && db.cursors == old(db.cursors)
    {
      db.settings := db.settings[AssetKey(Writer(owner), asset) := enabled];
    }

    method DeleteAssetSettings(asset: string)
      modifies db
      ensures db.settings ==
        map key | key in old(db.settings) && !(key.asset == asset && (owner == None || owner == Some(key.owner))) ::
          old(db.settings)[key]
      ensures db.jobs == old(db.jobs) && db.cursors == old(db.cursors)
    {
      db.settings := map key | key in db.settings && !(key.asset == asset && InScope(owner, key.owner)) ::
          db.settings[key];
    }
  }

  /** The ready rows, earliest due first, cut at the limit. */
  method SelectReady(jobs: JobTable, now: int, limit: nat) returns (rows: seq<JobKey>)
    ensures IsSelection(jobs, now, limit, rows)
  {
    rows := [];
    var left := set key | key in jobs && Ready(jobs[key], now);
    while left != {} && |rows| < limit
      invariant |rows| <= limit
      invariant forall key :: key in left <==> key in jobs && Ready(jobs[key], now) && key !in rows
      invariant forall key | key in rows :: key in jobs && Ready(jobs[key], now)
      invariant forall i, j | 0 <= i < j < |rows| :: rows[i] != rows[j] && jobs[rows[i]].due <= jobs[rows[j]].due
      invariant forall row, key | row in rows && key in left :: jobs[row].due <= jobs[key].due
      decreases left
    {
      var next := Earliest(jobs, left);
      rows := rows + [next];
      left := left - {next};
    }
  }

  method Earliest(jobs: JobTable, keys: set<JobKey>) returns (first: JobKey)
    requires keys != {} && keys <= jobs.Keys
    ensures first in keys && forall key | key in keys :: jobs[first].due <= jobs[key].due
  {
    first :| first in keys;
    var left := keys - {first};
    while left != {}
      invariant first in keys && left <= keys
      invariant forall key | key in keys - left :: jobs[first].due <= jobs[key].due
      decreases left
    {
      var key :| key in left;
      if jobs[key].due < jobs[first].due {
        first := key;
      }
      left := left - {key};
    }
  }
}
