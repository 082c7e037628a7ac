/** Owners do not see each other: what one owner's operations leave is what they would leave alone. */
module Owners {
  import opened Versions
  import opened Jobs

  datatype Tables = Tables(jobs: JobTable, cursors: map<AssetKey, int>, settings: map<AssetKey, bool>)

  datatype Call =
    | CallEnqueue(asset: string, submission: string)
    | CallAdvance(asset: string, submission: string, stage: Stage, delay: int, bump: bool, failure: Option<bool>)
    | CallDelete(asset: string, submission: string)
    | CallSetCursor(asset: string, stamp: int)
    | CallSetSettings(asset: string, enabled: bool)
    | CallDeleteSettings(asset: string)

  /** A call on the store bound to an owner. */
  datatype Bound = Bound(owner: nat, now: int, call: Call)

  function WithoutSettings(settings: map<AssetKey, bool>, owner: nat, asset: string): map<AssetKey, bool> {
    map key | key in settings && !(key.asset == asset && InScope(Some(owner), key.owner)) :: settings[key]
  }

  function JobsAfter(jobs: JobTable, b: Bound): JobTable {
    match b.call
    case CallEnqueue(asset, submission) => Enqueued(jobs, JobKey(Writer(Some(b.owner)), asset, submission), b.now)
    case CallAdvance(asset, submission, stage, delay, bump, failure) =>
      Rescheduled(jobs, Some(b.owner), asset, submission, b.now, stage, delay, bump, failure)
    case CallDelete(asset, submission) => Deleted(jobs, Some(b.owner), asset, submission)
    case _ => jobs
  }

  function CursorsAfter(cursors: map<AssetKey, int>, b: Bound): map<AssetKey, int> {
    match b.call
    case CallSetCursor(asset, stamp) => cursors[AssetKey(Writer(Some(b.owner)), asset) := stamp]
    case _ => cursors
  }

  function SettingsAfter(settings: map<AssetKey, bool>, b: Bound): map<AssetKey, bool> {
    match b.call
    case CallSetSettings(asset, enabled) => settings[AssetKey(Writer(Some(b.owner)), asset) := enabled]
    case CallDeleteSettings(asset) => WithoutSettings(settings, b.owner, asset)
    case _ => settings
  }

  function Performed(t: Tables, b: Bound): Tables {
    Tables(JobsAfter(t.jobs, b), CursorsAfter(t.cursors, b), SettingsAfter(t.settings, b))
  }

  /** The call made on the real store does just that. */
  method Perform(db: Database, b: Bound)
    modifies db
    ensures Tables(db.jobs, db.cursors, db.settings) ==
            Performed(Tables(old(db.jobs), old(db.cursors), old(db.settings)), b)
  {
    var unbound := new Store(db, None);
    var store := unbound.ForOwner(b.owner);
    match b.call
    case CallEnqueue(asset, submission) => var added := store.Enqueue(asset, submission, b.now);
    case CallAdvance(asset, submission, stage, delay, bump, failure) =>
      store.Advance(asset, submission, b.now, stage, delay, bump, failure);
    case CallDelete(asset, submission) => var count := store.DeleteJob(asset, submission);
    case CallSetCursor(asset, stamp) => store.SetCursor(asset, stamp);
    case CallSetSettings(asset, enabled) => store.SetAssetSettings(asset, enabled);
    case CallDeleteSettings(asset) => store.DeleteAssetSettings(asset);
  }

  function PerformedAll(t: Tables, bs: seq<Bound>): Tables {
    if bs == [] then t else Performed(PerformedAll(t, Front(bs)), Last(bs))
  }

  function JobsOf(jobs: JobTable, owner: nat): JobTable {
    map key | key in jobs && key.owner == owner :: jobs[key]
  }

  function AssetsOf<T>(d: map<AssetKey, T>, owner: nat): map<AssetKey, T> {
    map key | key in d && key.owner == owner :: d[key]
  }

  /** The rows of one owner. */
  function RowsOf(t: Tables, owner: nat): Tables {
    Tables(JobsOf(t.jobs, owner), AssetsOf(t.cursors, owner), AssetsOf(t.settings, owner))
  }

  function CallsOf(bs: seq<Bound>, owner: nat): seq<Bound> {
    if bs == [] then []
    else if Last(bs).owner == owner then CallsOf(Front(bs), owner) + [Last(bs)]
    else CallsOf(Front(bs), owner)
  }

  lemma OthersJobs(jobs: JobTable, b: Bound, owner: nat)
    requires b.owner != owner
    ensures JobsOf(JobsAfter(jobs, b), owner) == JobsOf(jobs, owner)
  {
  }

  lemma OthersCursors(cursors: map<AssetKey, int>, b: Bound, owner: nat)
    requires b.owner != owner
    ensures AssetsOf(CursorsAfter(cursors, b), owner) == AssetsOf(cursors, owner)
  {
  }

  lemma OthersSettings(settings: map<AssetKey, bool>, b: Bound, owner: nat)
    requires b.owner != owner
    ensures AssetsOf(SettingsAfter(settings, b), owner) == AssetsOf(settings, owner)
  {
  }

  lemma OthersChangeNothing(t: Tables, b: Bound, owner: nat)
    requires b.owner != owner
    ensures RowsOf(Performed(t, b), owner) == RowsOf(t, owner)
  {
    OthersJobs(t.jobs, b, owner);
    OthersCursors(t.cursors, b, owner);
    OthersSettings(t.settings, b, owner);
  }

  lemma OwnJobs(jobs: JobTable, b: Bound)
    ensures JobsOf(JobsAfter(jobs, b), b.owner) == JobsAfter(JobsOf(jobs, b.owner), b)
  {
  }

  lemma OwnCursors(cursors: map<AssetKey, int>, b: Bound)
    ensures AssetsOf(CursorsAfter(cursors, b), b.owner) == CursorsAfter(AssetsOf(cursors, b.owner), b)
  {
  }

  lemma OwnSettings(settings: map<AssetKey, bool>, b: Bound)
    ensures AssetsOf(SettingsAfter(settings, b), b.owner) == SettingsAfter(AssetsOf(settings, b.owner), b)
  {
  }

  /** An owner's call does to the owner's rows what it would do if there were no others. */
  lemma OwnRowsDecide(t: Tables, b: Bound)
    ensures RowsOf(Performed(t, b), b.owner) == Performed(RowsOf(t, b.owner), b)
  {
    OwnJobs(t.jobs, b);
    OwnCursors(t.cursors, b);
    OwnSettings(t.settings, b);
  }

  /** Noninterference: after any interleaving of calls, an owner's jobs, cursors and settings are those that
      the owner's own calls, made at the same times, would have left. */
  lemma {:induction false} OwnersDoNotInterfere(t: Tables, bs: seq<Bound>, owner: nat)
    ensures RowsOf(PerformedAll(t, bs), owner) == RowsOf(PerformedAll(t, CallsOf(bs, owner)), owner)
  {
    if bs != [] {
      var b, before := Last(bs), PerformedAll(t, Front(bs));
      OwnersDoNotInterfere(t, Front(bs), owner);
      if b.owner == owner {
        var own := CallsOf(Front(bs), owner);
        assert Front(own + [b]) == own;
        OwnRowsDecide(before, b);
        OwnRowsDecide(PerformedAll(t, own), b);
      } else {
        OthersChangeNothing(before, b, owner);
      }
    }
  }
}
