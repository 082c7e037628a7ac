/** Polling for submissions: a paged read of a growing server, a cursor that only moves forward, and what that loses. */
module Poller {
  import opened Versions
  import opened Jobs

  /** An empty uuid stands for a submission that names none. */
  datatype Submission = Submission(uuid: string, stamp: int)

  predicate Sorted(subs: seq<Submission>) {
    forall i, j | 0 <= i < j < |subs| :: subs[i].stamp <= subs[j].stamp
  }

  /** What a query from the cursor matches, oldest first. */
  function Matching(subs: seq<Submission>, from: int): (matches: seq<Submission>)
    ensures forall s :: s in matches <==> s in subs && s.stamp >= from
  {
    if subs == [] then []
    else if Last(subs).stamp >= from then Matching(Front(subs), from) + [Last(subs)]
    else Matching(Front(subs), from)
  }

  lemma {:induction false} MatchingGrows(subs: seq<Submission>, more: seq<Submission>, from: int)
    ensures Matching(subs, from) <= Matching(subs + more, from)
  {
    if more == [] {
      assert subs + more == subs;
    } else {
      assert Front(subs + more) == subs + Front(more);
      MatchingGrows(subs, Front(more), from);
    }
  }

  lemma MatchingExtends(subs: seq<Submission>, later: seq<Submission>, from: int)
    requires subs <= later
    ensures Matching(subs, from) <= Matching(later, from)
  {
    assert later == subs + later[|subs|..];
    MatchingGrows(subs, later[|subs|..], from);
  }

  lemma {:induction false} MatchingSorted(subs: seq<Submission>, from: int)
    requires Sorted(subs)
    ensures Sorted(Matching(subs, from))
  {
    if subs != [] {
      MatchingSorted(Front(subs), from);
      var before := Matching(Front(subs), from);
      forall i | 0 <= i < |before| ensures before[i].stamp <= Last(subs).stamp {
        assert before[i] in Front(subs);
      }
    }
  }

  // ---- the code ---------------------------------------------------------------------------

  const PAGE_SIZE := 200
  const MAX_PAGES := 100
  const CAPACITY := PAGE_SIZE * MAX_PAGES

  /** Submissions only arrive, in the order of their stamps. */
  class DataServer {
    var contents: seq<Submission>

    constructor ()
      ensures contents == []
    {
      contents := [];
    }

    /** What other people do between two requests. */
    method Receive()
      requires Sorted(contents)
      modifies this
      ensures old(contents) <= contents && Sorted(contents)
    {
      var more: seq<Submission> := *;
      if Sorted(contents + more) {
        contents := contents + more;
      }
    }

    /** One page of the matches; a request may fail. */
    method Page(from: int, limit: nat, start: nat) returns (ok: bool, page: seq<Submission>)
      ensures ok ==> page == PageOf(Matching(contents, from), limit, start)
    {
      var lost := *;
      ok, page := !lost, PageOf(Matching(contents, from), limit, start);
    }
  }

  function PageOf(matches: seq<Submission>, limit: nat, start: nat): seq<Submission> {
    if start >= |matches| then [] else if start + limit <= |matches| then matches[start..start + limit]
      else matches[start..]
  }

  /** Everything there is to read, or as much as the page limit allows. */
  predicate ReadOut(results: seq<Submission>, matches: seq<Submission>, capacity: nat) {
    results <= matches && |results| == if |matches| <= capacity then |matches| else capacity
  }

  lemma NextPage(results: seq<Submission>, matches: seq<Submission>, page: seq<Submission>, limit: nat)
    requires results <= matches && page == PageOf(matches, limit, |results|)
    ensures results + page <= matches && (|page| < limit ==> results + page == matches) && |page| <= limit
  {
  }

  /** Reads page after page while the server may be growing. */
  method IterSubmissions(client: DataServer, from: int) returns (ok: bool, results: seq<Submission>)
    requires Sorted(client.contents)
    modifies client
    ensures Sorted(client.contents) && old(client.contents) <= client.contents
    ensures results <= Matching(client.contents, from)
    ensures ok ==> ReadOut(results, Matching(client.contents, from), 20000)
  {
    ok, results := true, [];
    var start := 0;
    for pages := 0 to MAX_PAGES
      invariant Sorted(client.contents) && old(client.contents) <= client.contents
      invariant start == |results| == pages * PAGE_SIZE && results <= Matching(client.contents, from)
    {
      ghost var before := client.contents;
      client.Receive();
      MatchingExtends(before, client.contents, from);
      var page;
      ok, page := client.Page(from, PAGE_SIZE, start);
      if !ok {
        return;
      }
      NextPage(results, Matching(client.contents, from), page, PAGE_SIZE);
      if page == [] {
        assert results + page == results;
        return;
      }
      results := results + page;
      if |page| < PAGE_SIZE {
        return;
      }
      start := start + PAGE_SIZE;
    }
  }

  function Later(a: int, b: int): int {
    if b > a then b else a
  }

  function Newest(from: int, subs: seq<Submission>): int {
    if subs == [] then from else Later(Newest(from, Front(subs)), Last(subs).stamp)
  }

  /** A submission without a uuid cannot be queued. */
  function Enrolled(jobs: JobTable, owner: nat, asset: string, subs: seq<Submission>, now: int): JobTable {
    if subs == [] then jobs
    else
      var before := Enrolled(jobs, owner, asset, Front(subs), now);
      if Last(subs).uuid == "" then before else Enqueued(before, JobKey(owner, asset, Last(subs).uuid), now)
  }

  /** The server's submissions, the saved cursor, and every uuid ever queued. */
  datatype Feed = Feed(contents: seq<Submission>, cursor: Option<int>, queued: set<string>)

  function Uuids(subs: seq<Submission>): set<string> {
    set s | s in subs && s.uuid != "" :: s.uuid
  }

  /** One poll: the server may have grown, the poll may have failed half way, and others may have queued jobs as
      well. */
  ghost predicate Polled(f: Feed, f': Feed, from: int, results: seq<Submission>, ok: bool) {
    && f.contents <= f'.contents && Sorted(f'.contents)
    && (f.cursor.Some? ==> from == f.cursor.value)
    && results <= Matching(f'.contents, from)
    && (ok ==> ReadOut(results, Matching(f'.contents, from), CAPACITY))
    && f.queued + Uuids(results) <= f'.queued
    && f'.cursor == if ok && Newest(from, results) != from then Some(Newest(from, results)) else f.cursor
  }

  /** Queueing adds a job for each uuid read and leaves every other job as it is. */
  lemma {:induction false} EnrolledQueues(jobs: JobTable, owner: nat, asset: string, subs: seq<Submission>, now: int)
    ensures forall key :: key in Enrolled(jobs, owner, asset, subs, now) <==>
              key in jobs || (key.owner == owner && key.asset == asset && key.submission in Uuids(subs))
    ensures forall key | key in jobs :: Enrolled(jobs, owner, asset, subs, now)[key] == jobs[key]
    ensures forall key | key in Enrolled(jobs, owner, asset, subs, now) && key !in jobs ::
              Enrolled(jobs, owner, asset, subs, now)[key] == Job(New, 0, 0, now, now, now)
  {
    if subs != [] {
      EnrolledQueues(jobs, owner, asset, Front(subs), now);
      assert subs == Front(subs) + [Last(subs)];
      assert Uuids(subs) == Uuids(Front(subs)) + (if Last(subs).uuid == "" then {} else {Last(subs).uuid});
    }
  }

  /** What the tables hold for one form of one owner. */
  function FeedOf(contents: seq<Submission>, jobs: JobTable, cursors: map<AssetKey, int>, key: AssetKey): Feed {
    Feed(contents, if key in cursors then Some(cursors[key]) else None,
         set k | k in jobs && k.owner == key.owner && k.asset == key.asset :: k.submission)
  }

  lemma PollOfTables(before: seq<Submission>, after: seq<Submission>, jobs: JobTable, cursors: map<AssetKey, int>,
                     cursors': map<AssetKey, int>,
                     key: AssetKey, now: int, from: int, results: seq<Submission>, ok: bool)
    requires before <= after && Sorted(after) && (key in cursors ==> from == cursors[key])
    requires && results <= Matching(after, from) && (ok ==> ReadOut(results, Matching(after, from), CAPACITY))
             && cursors' == (if ok && Newest(from, results) != from then cursors[key := Newest(from, results)]
                             else cursors)
    ensures Polled(FeedOf(before, jobs, cursors, key),
                   FeedOf(after, Enrolled(jobs, key.owner, key.asset, results, now), cursors', key),
                   from, results, ok)
  {
    EnrolledQueues(jobs, key.owner, key.asset, results, now);
    var f, f' := FeedOf(before, jobs, cursors, key),
      FeedOf(after, Enrolled(jobs, key.owner, key.asset, results, now), cursors', key);
    forall uuid | uuid in f.queued + Uuids(results) ensures uuid in f'.queued {
      assert JobKey(key.owner, key.asset, uuid) in Enrolled(jobs, key.owner, key.asset, results, now);
    }
  }

  method PollAsset(client: DataServer, store: Store, asset: string, now: int, lookback: nat)
    returns (ok: bool, added: nat, ghost results: seq<Submission>)
    requires Sorted(client.contents)
    modifies client, store.db
    ensures Sorted(client.contents) && old(client.contents) <= client.contents
    ensures var key := AssetKey(Writer(store.owner), asset);
            var from := if key in old(store.db.cursors) then old(store.db.cursors)[key] else now - 60 * lookback;
            && store.db.jobs == Enrolled(old(store.db.jobs), key.owner, asset, results, now)
            && store.db.cursors ==
               (if ok && Newest(from, results) != from then old(store.db.cursors)[key := Newest(from, results)]
                                    else old(store.db.cursors))
            && Polled(FeedOf(old(client.contents), old(store.db.jobs), old(store.db.cursors), key),
                      FeedOf(client.contents, store.db.jobs, store.db.cursors, key), from, results, ok)
    ensures store.db.settings == old(store.db.settings)
    ensures |store.db.jobs| == |old(store.db.jobs)| + added
    ensures forall key | key in old(store.db.jobs) ::
              key in store.db.jobs && store.db.jobs[key] == old(store.db.jobs)[key]
    ensures forall key | key in store.db.jobs && key !in old(store.db.jobs) ::
              store.db.jobs[key] == Job(New, 0, 0, now, now, now) && Ready(store.db.jobs[key], now) &&
              key.owner == (if store.owner.None? then 0 else store.owner.value) && key.asset == asset &&
              key.submission != "" && exists s | s in results :: s.uuid == key.submission
  {
    var key := AssetKey(Writer(store.owner), asset);
    var from := if key in store.db.cursors then store.db.cursors[key] else now - 60 * lookback;
    var subs;
    ok, subs := IterSubmissions(client, from);
    results := subs;
    var newest;
    added, newest := EnrolAll(store, asset, from, subs, now);
    if ok && newest != from {
      store.SetCursor(asset, newest);
    }
    EnrolledQueues(old(store.db.jobs), key.owner, asset, subs, now);
    PollOfTables(old(client.contents), client.contents, old(store.db.jobs), old(store.db.cursors), store.db.cursors,
                 key, now, from, subs, ok);
  }

  /** The submissions as they are read: each is queued unless it is there, and the latest stamp is remembered. */
  method EnrolAll(store: Store, asset: string, from: int, subs: seq<Submission>, now: int)
    returns (added: nat, newest: int)
    modifies store.db
    ensures newest == Newest(from, subs)
    ensures store.db.jobs == Enrolled(old(store.db.jobs), Writer(store.owner), asset, subs, now)
    ensures |store.db.jobs| == |old(store.db.jobs)| + added
    ensures store.db.cursors == old(store.db.cursors) && store.db.settings == old(store.db.settings)
  {
    added, newest := 0, from;
    for i := 0 to |subs|
      invariant newest == Newest(from, subs[..i])
      invariant store.db.jobs == Enrolled(old(store.db.jobs), Writer(store.owner), asset, subs[..i], now)
      invariant |store.db.jobs| == |old(store.db.jobs)| + added
      invariant store.db.cursors == old(store.db.cursors) && store.db.settings == old(store.db.settings)
    {
      assert Front(subs[..i + 1]) == subs[..i];
      if subs[i].stamp > newest {
        newest := subs[i].stamp;
      }
      if subs[i].uuid != "" {
        var isNew := store.Enqueue(asset, subs[i].uuid, now);
        added := if isNew then added + 1 else added;
      }
    }
    assert subs[..|subs|] == subs;
  }

  // ---- nothing is lost ------------------------------------------------------------------------

  ghost predicate PollStep(f: Feed, f': Feed) {
    exists from, results, ok :: Polled(f, f', from, results, ok)
  }

  /** All that was stamped from `first` up to before the cursor is queued, and nothing yet to come is stamped before
      the cursor. */
  ghost predicate Covered(f: Feed, first: int) {
    && Sorted(f.contents) && f.cursor.Some? && first <= f.cursor.value
    && (forall s | s in f.contents && first <= s.stamp < f.cursor.value && s.uuid != "" :: s.uuid in f.queued)
    && (exists s | s in f.contents :: s.stamp == f.cursor.value)
  }

  lemma {:induction false} NewestOfSorted(from: int, subs: seq<Submission>)
    requires Sorted(subs) && forall s | s in subs :: s.stamp >= from
    ensures Newest(from, subs) == if subs == [] then from else Last(subs).stamp
    ensures Newest(from, subs) >= from
  {
    if subs != [] {
      assert forall s | s in Front(subs) :: s in subs;
      NewestOfSorted(from, Front(subs));
      assert Last(subs) in subs;
    }
  }

  /** A sorted list's elements before its end part are no later than those in it. */
  lemma EarlierIsRead(results: seq<Submission>, matches: seq<Submission>, s: Submission)
    requires results <= matches && Sorted(matches) && results != [] && s in matches && s.stamp < Last(results).stamp
    ensures s in results
  {
    var i :| 0 <= i < |matches| && matches[i] == s;
    assert matches[|results| - 1] == Last(results);
  }

  lemma ReadAllBefore(contents: seq<Submission>, from: int, results: seq<Submission>, s: Submission)
    requires Sorted(contents) && results <= Matching(contents, from)
    requires s in contents && from <= s.stamp < Newest(from, results)
    ensures s in results
  {
    MatchingSorted(contents, from);
    forall r | r in results ensures r.stamp >= from {
      assert r in Matching(contents, from);
    }
    NewestOfSorted(from, results);
    EarlierIsRead(results, Matching(contents, from), s);
  }

  /** New arrivals are stamped no earlier than what is there. */
  lemma ArrivalsAreLater(before: seq<Submission>, after: seq<Submission>, s: Submission, there: Submission)
    requires before <= after && Sorted(after) && s in after && s !in before && there in before
    ensures s.stamp >= there.stamp
  {
    var i :| 0 <= i < |after| && after[i] == s;
    var j :| 0 <= j < |before| && before[j] == there;
    assert forall m | 0 <= m < |before| :: after[m] == before[m] && before[m] in before;
  }

  lemma NewestIsThere(contents: seq<Submission>, from: int, results: seq<Submission>)
    requires Sorted(contents) && results <= Matching(contents, from)
    ensures Newest(from, results) >= from
    ensures Newest(from, results) != from ==> exists s | s in contents :: s.stamp == Newest(from, results)
  {
    MatchingSorted(contents, from);
    forall r | r in results ensures r.stamp >= from && r in contents {
      assert r in Matching(contents, from);
    }
    NewestOfSorted(from, results);
    if results != [] {
      assert Last(results) in results;
    }
  }

  /** The first poll that saves a cursor covers everything from where it started reading. */
  lemma FirstCursorCovers(f: Feed, f': Feed, from: int, results: seq<Submission>, ok: bool)
    requires Polled(f, f', from, results, ok) && f.cursor.None? && f'.cursor.Some?
    ensures Covered(f', from)
  {
    NewestIsThere(f'.contents, from, results);
    forall s | s in f'.contents && from <= s.stamp < f'.cursor.value && s.uuid != "" ensures s.uuid in f'.queued {
      ReadAllBefore(f'.contents, from, results, s);
      assert s.uuid in Uuids(results);
    }
  }

  lemma PollKeepsCover(f: Feed, f': Feed, first: int)
    requires Covered(f, first) && PollStep(f, f')
    ensures Covered(f', first) && f'.cursor.value >= f.cursor.value
  {
    var from, results, ok :| Polled(f, f', from, results, ok);
    var mark :| mark in f.contents && mark.stamp == f.cursor.value;
    NewestIsThere(f'.contents, from, results);
    forall s | s in f'.contents && first <= s.stamp < f'.cursor.value && s.uuid != "" ensures s.uuid in f'.queued {
      if s.stamp >= from {
        ReadAllBefore(f'.contents, from, results, s);
        assert s.uuid in Uuids(results);
      } else if s !in f.contents {
        ArrivalsAreLater(f.contents, f'.contents, s, mark);
      }
    }
    assert mark in f'.contents;
  }

  /** Polling loses nothing: over any number of polls, failed or cut short by the page limit or not, everything
      stamped from the first start that led to a saved cursor up to before the current cursor has been queued, and the
      cursor never moves back. */
  lemma {:induction false} PollingLosesNothing(feeds: seq<Feed>, first: int)
    requires feeds != [] && Covered(feeds[0], first)
    requires forall i | 0 <= i < |feeds| - 1 :: PollStep(feeds[i], feeds[i + 1])
    ensures Covered(Last(feeds), first) && Last(feeds).cursor.value >= feeds[0].cursor.value
  {
    if |feeds| > 1 {
      var n := |feeds| - 1;
      PollingLosesNothing(Front(feeds), first);
      assert PollStep(feeds[n - 1], feeds[n - 1 + 1]);
      PollKeepsCover(feeds[n - 1], feeds[n], first);
    }
  }

  // ---- where it stops short --------------------------------------------------------------------------

  /** Until a cursor is saved each poll looks back from its own time, and a poll that finds nothing saves none. So of
      what arrives after such a poll, the next one reads exactly what is stamped within its own look-back, whatever
      the first would have covered. */
  lemma EmptyPollRemembersNothing(f: Feed, f': Feed, f'': Feed, start: int, now: int, lookback: nat,
                                  results: seq<Submission>, s: Submission)
    requires f.cursor.None? && Polled(f, f', start, [], true)
    requires Polled(f', f'', now - 60 * lookback, results, true) &&
             |Matching(f''.contents, now - 60 * lookback)| <= CAPACITY
    requires s in f''.contents && s.stamp >= start
    ensures f'.cursor.None?
    ensures s !in results <==> now - s.stamp > 60 * lookback
  {
    assert results == Matching(f''.contents, now - 60 * lookback);
  }

  /** What is stamped before a saved cursor is not read again. */
  lemma BehindTheCursor(f: Feed, f': Feed, from: int, results: seq<Submission>, ok: bool, s: Submission)
    requires Polled(f, f', from, results, ok) && f.cursor.Some? && s.stamp < f.cursor.value
    ensures s !in results && f'.cursor.Some? && s.stamp < f'.cursor.value
  {
    NewestIsThere(f'.contents, from, results);
    forall r | r in results ensures r in Matching(f'.contents, from) {
    }
  }

  /** So over any number of later polls what is stamped before a saved cursor is read by none of them. */
  lemma {:induction false} BehindForGood(feeds: seq<Feed>, from: int, results: seq<Submission>, ok: bool, s: Submission)
    requires |feeds| > 1 && feeds[0].cursor.Some? && s.stamp < feeds[0].cursor.value
    requires forall i | 0 <= i < |feeds| - 1 :: PollStep(feeds[i], feeds[i + 1])
    requires Polled(feeds[|feeds| - 2], Last(feeds), from, results, ok)
    ensures s !in results && Last(feeds).cursor.Some? && s.stamp < Last(feeds).cursor.value
  {
    var n := |feeds| - 1;
    if n > 1 {
      assert PollStep(feeds[n - 2], feeds[n - 2 + 1]);
      var from', results', ok' :| Polled(feeds[n - 2], feeds[n - 1], from', results', ok');
      BehindForGood(Front(feeds), from', results', ok', s);
    }
    BehindTheCursor(feeds[n - 1], feeds[n], from, results, ok, s);
  }

  // Both at once, with a look-back of ten minutes.

  const EARLY := Submission("a", 50)
  const LATE := Submission("b", 1100)

  lemma TwoMatches(from: int)
    ensures Matching([], from) == []
    ensures Matching([LATE], from) == if from <= 1100 then [LATE] else []
    ensures 50 < from <= 1100 ==> Matching([EARLY, LATE], from) == [LATE]
  {
    assert Front([LATE]) == [] && Front([EARLY, LATE]) == [EARLY] && Front([EARLY]) == [];
  }

  const NOTHING_YET := Feed([], None, {})
  const ARRIVED := Feed([LATE], None, {})

  /** A poll at 1000 finds nothing. */
  lemma NothingToRead()
    ensures Polled(NOTHING_YET, NOTHING_YET, 1000 - 600, [], true)
  {
    TwoMatches(400);
  }

  /** What arrives at 1100 is missed by a poll at any time after 1700, and by every other until something else
      arrives. */
  lemma ArrivalIsMissed(now: int)
    requires now > 1700
    ensures Polled(NOTHING_YET, ARRIVED, now - 600, [], true)
  {
    TwoMatches(now - 600);
  }

  lemma ArrivalStaysMissed(now: int, f: Feed, results: seq<Submission>, ok: bool)
    requires now > 1700 && Polled(ARRIVED, f, now - 600, results, ok) && f.contents == [LATE]
    ensures results == [] && f.cursor.None?
  {
    TwoMatches(now - 600);
  }

  lemma OnlyTheLateIsRead()
    ensures Polled(Feed([EARLY, LATE], None, {}), Feed([EARLY, LATE], Some(1100), {"b"}), 1500 - 600, [LATE], true)
  {
    TwoMatches(900);
    assert Newest(900, [LATE]) == 1100 by {
      assert Front([LATE]) == [];
    }
    assert Uuids([LATE]) == {"b"};
  }

  /** A first poll at 1500 reads what is stamped 1100 and saves that, so what is stamped 50 is never read. */
  lemma EarlierIsLeft(feeds: seq<Feed>, from: int, results: seq<Submission>, ok: bool)
    requires |feeds| > 1 && feeds[0] == Feed([EARLY, LATE], Some(1100), {"b"})
    requires forall i | 0 <= i < |feeds| - 1 :: PollStep(feeds[i], feeds[i + 1])
    requires Polled(feeds[|feeds| - 2], Last(feeds), from, results, ok)
    ensures Polled(Feed([EARLY, LATE], None, {}), feeds[0], 1500 - 600, [LATE], true)
    ensures EARLY in Last(feeds).contents && EARLY !in results
  {
    OnlyTheLateIsRead();
    StillThere(feeds, EARLY);
    BehindForGood(feeds, from, results, ok, EARLY);
  }

  lemma {:induction false} StillThere(feeds: seq<Feed>, s: Submission)
    requires feeds != [] && s in feeds[0].contents
    requires forall i | 0 <= i < |feeds| - 1 :: PollStep(feeds[i], feeds[i + 1])
    ensures s in Last(feeds).contents
  {
    if |feeds| > 1 {
      var n := |feeds| - 1;
      StillThere(Front(feeds), s);
      assert PollStep(feeds[n - 1], feeds[n - 1 + 1]);
    }
  }

  lemma ReadInOrder(contents: seq<Submission>, from: int, results: seq<Submission>)
    requires Sorted(contents) && results <= Matching(contents, from)
    ensures Newest(from, results) == if results == [] then from else Last(results).stamp
    ensures forall i | 0 <= i < |results| :: from <= results[i].stamp <= Newest(from, results)
  {
    MatchingSorted(contents, from);
    forall r | r in results ensures r.stamp >= from {
      assert r in Matching(contents, from);
    }
    NewestOfSorted(from, results);
    forall i | 0 <= i < |results| ensures from <= results[i].stamp {
      assert results[i] in results;
    }
  }

  /** The cursor moves exactly when a stamp after it lies within what one poll can read. */
  lemma CursorMovesIff(contents: seq<Submission>, from: int, results: seq<Submission>)
    requires Sorted(contents) && ReadOut(results, Matching(contents, from), CAPACITY)
    ensures Newest(from, results) != from <==>
            exists i :: 0 <= i < CAPACITY && i < |Matching(contents, from)| && Matching(contents, from)[i].stamp > from
  {
    var matches := Matching(contents, from);
    ReadInOrder(contents, from, results);
    if Newest(from, results) != from {
      assert matches[|results| - 1].stamp > from;
    }
    forall i | 0 <= i < CAPACITY && i < |matches| && matches[i].stamp > from ensures Newest(from, results) != from {
      assert results[i] == matches[i];
    }
  }

  lemma SameReading(results: seq<Submission>, again: seq<Submission>, matches: seq<Submission>, later: seq<Submission>,
                    capacity: nat)
    requires matches <= later && |matches| >= capacity
    requires ReadOut(results, matches, capacity) && ReadOut(again, later, capacity)
    ensures again == results == matches[..capacity]
  {
  }

  /** With as many submissions at the cursor's own stamp as one poll can read, polling reads those and no others for
      good. */
  lemma CrowdedStampIsForGood(contents: seq<Submission>, later: seq<Submission>, from: int, results: seq<Submission>,
                              again: seq<Submission>)
    requires contents <= later && Sorted(later) && |Matching(contents, from)| >= CAPACITY
    requires Matching(contents, from)[CAPACITY - 1].stamp == from
    requires ReadOut(results, Matching(contents, from), CAPACITY) && ReadOut(again, Matching(later, from), CAPACITY)
    ensures again == results && Newest(from, again) == from
  {
    MatchingExtends(contents, later, from);
    SameReading(results, again, Matching(contents, from), Matching(later, from), CAPACITY);
    ReadInOrder(later, from, again);
    assert Last(again).stamp == from;
  }
}
