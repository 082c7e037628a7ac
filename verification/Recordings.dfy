/** Several recordings of one form: their questions stay apart, what an edit cannot remove is named,
    and turning automation on leaves configured recordings alone. */
module Recordings {
  import opened Versions
  import opened Features
  import opened Merging
  import opened Questions
  import opened Sync
  import opened Configuration
  import opened Reapplication
  import opened Languages
  import opened Applications

  // ---- recordings stay apart ---------------------------------------------------------------

  predicate Defines(rows: seq<Row>, x: string, uuid: Uuid) {
    exists q | q in DefinitionsAt(rows, x) :: q.uuid == uuid
  }

  /** No question uuid is defined on two recordings. */
  ghost predicate Separate(rows: seq<Row>) {
    forall x, y, uuid | x != y && Defines(rows, x, uuid) :: !Defines(rows, y, uuid)
  }

  /** The mint is above every uuid defined anywhere on the form. */
  ghost predicate Unminted(rows: seq<Row>, mint: Uuid) {
    forall x, uuid: Uuid | Defines(rows, x, uuid) :: uuid < mint
  }

  lemma FirstIsSent(known: seq<Row>, rows: seq<Row>, xpath: string, ws: seq<Write>, rows': seq<Row>)
    requires AgreeOn(known, rows, xpath, ws) && DistinctActions(ws) && ws != [] && ws[0].Send?
    requires PutRow(known, rows, xpath, ws[0].action, ws[0].params) == Some(rows')
    ensures Stored(Carried(known, rows, xpath, ws).rows, xpath, ws[0].action) ==
            Merged(Stored(rows, xpath, ws[0].action), ws[0].params)
  {
    FirstPut(known, rows, xpath, ws);
    NotSentAgain(ws);
    UnsentStays(known, rows', xpath, ws[1..], xpath, ws[0].action);
  }

  lemma {:induction false} SentOrNot(known: seq<Row>, rows: seq<Row>, xpath: string, ws: seq<Write>, i: nat)
    requires AgreeOn(known, rows, xpath, ws) && DistinctActions(ws) && i < |ws| && ws[i].Send?
    ensures var a, after := ws[i].action, Carried(known, rows, xpath, ws).rows;
            Stored(after, xpath, a) == Stored(rows, xpath, a) ||
            Stored(after, xpath, a) == Merged(Stored(rows, xpath, a), ws[i].params)
    decreases |ws|
  {
    if ws[0].Send? && PutRow(known, rows, xpath, ws[0].action, ws[0].params).Some? {
      var rows' := PutRow(known, rows, xpath, ws[0].action, ws[0].params).value;
      FirstPut(known, rows, xpath, ws);
      if i == 0 {
        FirstIsSent(known, rows, xpath, ws, rows');
      } else {
        assert ws[1..][i - 1] == ws[i] && ws[i].action != ws[0].action;
        SentOrNot(known, rows', xpath, ws[1..], i - 1);
        assert SameStored(rows, rows', xpath, ws[i].action);
      }
    }
  }

  /** One of the uuids set aside for the request's questions. */
  predicate NewlyMinted(r: Request, mint: Uuid, uuid: Uuid) {
    r.questions.Some? && mint <= uuid < mint + Minted(r.questions.value)
  }

  /** A written question has a uuid the recording had, or a new one. */
  lemma LocalUuid(qs: seq<Question>, existing: seq<Question>, merge: bool, mint: Uuid, n: Question)
    requires n in TrimmedAll(Local(qs, existing, merge, mint))
    ensures mint <= n.uuid < mint + Minted(qs) || exists e | e in existing :: e.uuid == n.uuid
  {
    LocalIs(qs, existing, merge, mint, n);
    if i :| 0 <= i < |qs| && n == Trimmed(Resolved(qs, existing, mint, i)) {
      UuidComesFrom(qs, existing, mint, i);
    }
  }

  /** After an application, successful or not, the definitions at its recording are old ones or among those written. */
  lemma DefinitionsAfter(rows: seq<Row>, xpath: string, r: Request, mint: Uuid, q: Question)
    requires UniqueRows(rows) && q in DefinitionsAt(Synced(rows, xpath, r, mint).rows, xpath)
    ensures NewlyMinted(r, mint, q.uuid) || Defines(rows, xpath, q.uuid)
  {
    var existing, after := DefinitionsAt(rows, xpath), Synced(rows, xpath, r, mint).rows;
    var ws := Writes(existing, r, mint);
    WritesApart(existing, r, mint);
    StaysUnique(rows, rows, xpath, ws);
    GroupedReadsRows(rows, xpath);
    GroupedReadsRows(after, xpath);
    if SendsTo(ws, QualDefinitions) {
      var i :| 0 <= i < |ws| && ws[i].Send? && ws[i].action == QualDefinitions;
      SentOrNot(rows, rows, xpath, ws, i);
      SentDefinitions(existing, r, mint, i);
      if q !in existing {
        WrittenDefinition(rows, xpath, r, mint, q);
      }
    } else {
      UnsentStays(rows, rows, xpath, ws, xpath, QualDefinitions);
    }
  }

  lemma SentDefinitions(existing: seq<Question>, r: Request, mint: Uuid, i: nat)
    requires i < |Writes(existing, r, mint)| && Writes(existing, r, mint)[i].Send? &&
             Writes(existing, r, mint)[i].action == QualDefinitions
    ensures r.questions.Some? && Writes(existing, r, mint)[i].params ==
            Defs(TrimmedAll(Local(r.questions.value, existing, r.merge, mint)))
  {
  }

  lemma {:induction false} QuestionIsMember(params: seq<Param>, q: Question)
    requires q.uuid != 0 && Def(q) in params
    ensures q in QuestionsIn(params)
  {
    if params[0] != Def(q) {
      assert Def(q) in params[1..];
      QuestionIsMember(params[1..], q);
    }
  }

  lemma WrittenDefinition(rows: seq<Row>, xpath: string, r: Request, mint: Uuid, q: Question)
    requires r.questions.Some? && DefinitionsAt(rows, xpath) == QuestionsIn(Stored(rows, xpath, QualDefinitions))
    requires var incoming := TrimmedAll(Local(r.questions.value, DefinitionsAt(rows, xpath), r.merge, mint));
             q in QuestionsIn(Merged(Stored(rows, xpath, QualDefinitions), Defs(incoming)))
    ensures NewlyMinted(r, mint, q.uuid) || Defines(rows, xpath, q.uuid)
  {
    var existing, stored := DefinitionsAt(rows, xpath), Stored(rows, xpath, QualDefinitions);
    var incoming := TrimmedAll(Local(r.questions.value, existing, r.merge, mint));
    var m := Merged(stored, Defs(incoming));
    var k :| 0 <= k < |m| && m[k] == Def(q);
    MergeHolds(stored, Defs(incoming), k);
    if m[k] in Defs(incoming) {
      DefIsIn(incoming, q);
      LocalUuid(r.questions.value, existing, r.merge, mint, q);
    } else {
      QuestionIsMember(stored, q);
    }
  }

  lemma OtherDefinitions(rows: seq<Row>, xpath: string, r: Request, mint: Uuid, x: string)
    requires UniqueRows(rows) && x != xpath
    ensures DefinitionsAt(Synced(rows, xpath, r, mint).rows, x) == DefinitionsAt(rows, x)
    ensures UniqueRows(Synced(rows, xpath, r, mint).rows)
  {
    var ws := Writes(DefinitionsAt(rows, xpath), r, mint);
    WritesApart(DefinitionsAt(rows, xpath), r, mint);
    UnsentStays(rows, rows, xpath, ws, x, QualDefinitions);
    GroupedReadsRows(rows, x);
    GroupedReadsRows(Synced(rows, xpath, r, mint).rows, x);
  }

  lemma DefinedAfter(rows: seq<Row>, e: Edit, x: string, uuid: Uuid)
    requires UniqueRows(rows) && Defines(Synced(rows, e.xpath, e.request, e.mint).rows, x, uuid)
    ensures Defines(rows, x, uuid) || (x == e.xpath && NewlyMinted(e.request, e.mint, uuid))
  {
    var after := Synced(rows, e.xpath, e.request, e.mint).rows;
    if x == e.xpath {
      var q :| q in DefinitionsAt(after, x) && q.uuid == uuid;
      DefinitionsAfter(rows, e.xpath, e.request, e.mint, q);
    } else {
      OtherDefinitions(rows, e.xpath, e.request, e.mint, x);
    }
  }

  lemma SyncKeepsApart(rows: seq<Row>, e: Edit)
    requires UniqueRows(rows) && Separate(rows) && Unminted(rows, e.mint)
    ensures Separate(Synced(rows, e.xpath, e.request, e.mint).rows)
  {
    var after := Synced(rows, e.xpath, e.request, e.mint).rows;
    forall x, y, uuid | x != y && Defines(after, x, uuid) ensures !Defines(after, y, uuid) {
      DefinedAfter(rows, e, x, uuid);
      if Defines(after, y, uuid) {
        DefinedAfter(rows, e, y, uuid);
      }
    }
  }

  /** Each application mints uuids the form has not seen. */
  ghost predicate MintsAreNew(rows: seq<Row>, edits: seq<Edit>) {
    forall i | 0 <= i < |edits| :: Unminted(AllSynced(rows, edits[..i]), edits[i].mint)
  }

  lemma EarlierMintIsNew(rows: seq<Row>, edits: seq<Edit>, i: nat)
    requires MintsAreNew(rows, edits) && i < |edits| - 1
    ensures Unminted(AllSynced(rows, Front(edits)[..i]), Front(edits)[i].mint)
  {
    assert Front(edits)[..i] == edits[..i];
  }

  lemma EarlierMintsAreNew(rows: seq<Row>, edits: seq<Edit>)
    requires MintsAreNew(rows, edits) && edits != []
    ensures MintsAreNew(rows, Front(edits)) && Unminted(AllSynced(rows, Front(edits)), Last(edits).mint)
  {
    var n := |edits| - 1;
    forall i | 0 <= i < n ensures Unminted(AllSynced(rows, Front(edits)[..i]), Front(edits)[i].mint) {
      EarlierMintIsNew(rows, edits, i);
    }
    assert Unminted(AllSynced(rows, edits[..n]), edits[n].mint);
  }

  /** Over any sequence of applications to any recordings, no question uuid comes to be defined on two of them. */
  lemma {:induction false} RecordingsStayApart(rows: seq<Row>, edits: seq<Edit>)
    requires UniqueRows(rows) && Separate(rows) && MintsAreNew(rows, edits)
    ensures UniqueRows(AllSynced(rows, edits)) && Separate(AllSynced(rows, edits))
  {
    if edits != [] {
      EarlierMintsAreNew(rows, edits);
      RecordingsStayApart(rows, Front(edits));
      var before, e := AllSynced(rows, Front(edits)), Last(edits);
      SyncKeepsApart(before, e);
      assert |e.xpath + "/"| != |e.xpath|;
      OtherDefinitions(before, e.xpath, e.request, e.mint, e.xpath + "/");
    }
  }

  // ---- saving one set on several recordings ------------------------------------------------------

  ghost predicate Mirrors(features: AssetFeatures, rows: seq<Row>)
    reads features
  {
    features.rows == rows && features.View() == Grouped(rows)
  }

  /** The uuids one application sets aside. */
  function Width(r: Request): nat {
    match r.questions case None => 0 case Some(qs) => Minted(qs)
  }

  function OneOf(x: string, edited: string, r: Request): Request {
    r.(merge := x != edited)
  }

  datatype Progress = Progress(rows: seq<Row>, ok: bool, mint: Uuid)

  function SavedNext(p: Progress, x: string, edited: string, r: Request): Progress {
    var o := Synced(p.rows, x, OneOf(x, edited, r), p.mint);
    Progress(o.rows, o.ok, p.mint + Width(r))
  }

  /** The set goes to each recording in turn, and only on the edited one is it all that is sent.
      A refusal ends the saving; what was applied before it stays. */
  function Saved(rows: seq<Row>, xpaths: seq<string>, edited: string, r: Request, mint: Uuid): Progress {
    if xpaths == [] then Progress(rows, true, mint)
    else
      var before := Saved(rows, Front(xpaths), edited, r, mint);
      if before.ok then SavedNext(before, Last(xpaths), edited, r) else before
  }

  /** One application, and the rows read again. */
  method SyncAndReload(client: FeatureServer, features: AssetFeatures, x: string, r: Request, mint: Uuid)
    returns (ok: bool, again: AssetFeatures)
    requires Mirrors(features, client.rows)
    modifies client
    ensures Written(client.rows, ok) == Synced(old(client.rows), x, r, mint)
    ensures Mirrors(again, client.rows) && fresh(again)
  {
    var local;
    ok, local := SyncQuestion(client, features, x, r, mint);
    again := new AssetFeatures(client.rows);
  }

  lemma OneMoreSaved(rows: seq<Row>, xpaths: seq<string>, i: nat, edited: string, r: Request, mint: Uuid)
    requires i < |xpaths| && Saved(rows, xpaths[..i], edited, r, mint).ok
    ensures Saved(rows, xpaths[..i + 1], edited, r, mint) ==
            SavedNext(Saved(rows, xpaths[..i], edited, r, mint), xpaths[i], edited, r)
  {
    assert Front(xpaths[..i + 1]) == xpaths[..i];
  }

  lemma {:induction false} RefusalEndsSaving(rows: seq<Row>, xpaths: seq<string>, i: nat, edited: string, r: Request,
                                             mint: Uuid)
    requires i < |xpaths| && !Saved(rows, xpaths[..i + 1], edited, r, mint).ok
    ensures Saved(rows, xpaths, edited, r, mint) == Saved(rows, xpaths[..i + 1], edited, r, mint)
  {
    if i + 1 < |xpaths| {
      assert Front(xpaths)[..i + 1] == xpaths[..i + 1];
      RefusalEndsSaving(rows, Front(xpaths), i, edited, r, mint);
    } else {
      assert xpaths[..i + 1] == xpaths;
    }
  }

  method SaveQuestions(client: FeatureServer, xpaths: seq<string>, edited: string, r: Request, mint: Uuid)
    returns (ok: bool, next: Uuid)
    modifies client
    ensures Progress(client.rows, ok, next) == Saved(old(client.rows), xpaths, edited, r, mint)
  {
    var features := new AssetFeatures(client.rows);
    ok, next := true, mint;
    for i := 0 to |xpaths|
      invariant ok && Progress(client.rows, ok, next) == Saved(old(client.rows), xpaths[..i], edited, r, mint)
      invariant Mirrors(features, client.rows) && fresh(features)
    {
      OneMoreSaved(old(client.rows), xpaths, i, edited, r, mint);
      ok, features := SyncAndReload(client, features, xpaths[i], OneOf(xpaths[i], edited, r), next);
      next := next + Width(r);
      if !ok {
        RefusalEndsSaving(old(client.rows), xpaths, i, edited, r, mint);
        return;
      }
    }
    assert xpaths[..|xpaths|] == xpaths;
  }

  lemma SyncUnminted(rows: seq<Row>, e: Edit)
    requires UniqueRows(rows) && Unminted(rows, e.mint)
    ensures Unminted(Synced(rows, e.xpath, e.request, e.mint).rows, e.mint + Width(e.request))
  {
    forall x, uuid: Uuid | Defines(Synced(rows, e.xpath, e.request, e.mint).rows, x, uuid)
      ensures uuid < e.mint + Width(e.request) {
      DefinedAfter(rows, e, x, uuid);
    }
  }

  lemma SyncKeepsAll(rows: seq<Row>, x: string, r: Request, mint: Uuid)
    requires UniqueRows(rows) && Separate(rows) && Unminted(rows, mint)
    ensures var after := Synced(rows, x, r, mint).rows;
            UniqueRows(after) && Separate(after) && Unminted(after, mint + Width(r)) && Keeps(rows, after)
  {
    var e := Edit(x, r, mint);
    SyncKeepsApart(rows, e);
    SyncUnminted(rows, e);
    CarriedKeeps(rows, rows, x, Writes(DefinitionsAt(rows, x), r, mint));
    assert |x + "/"| != |x|;
    OtherDefinitions(rows, x, r, mint, x + "/");
  }

  lemma KeepsItself(rows: seq<Row>)
    ensures Keeps(rows, rows)
  {
  }

  /** Saving a set on several recordings, with uuids the form has not seen, loses nothing and keeps the recordings
      apart. */
  lemma {:induction false} SavingKeepsApart(rows: seq<Row>, xpaths: seq<string>, edited: string, r: Request, mint: Uuid)
    requires UniqueRows(rows) && Separate(rows) && Unminted(rows, mint)
    ensures var after := Saved(rows, xpaths, edited, r, mint);
            UniqueRows(after.rows) && Separate(after.rows) && Unminted(after.rows, after.mint) &&
              Keeps(rows, after.rows)
  {
    if xpaths == [] {
      KeepsItself(rows);
    } else {
      var before, x := Saved(rows, Front(xpaths), edited, r, mint), Last(xpaths);
      SavingKeepsApart(rows, Front(xpaths), edited, r, mint);
      if before.ok {
        SyncKeepsAll(before.rows, x, OneOf(x, edited, r), before.mint);
        KeepsOn(rows, before.rows, SavedNext(before, x, edited, r).rows);
      }
    }
  }

  // ---- what an edit cannot remove -----------------------------------------------------------------

  /** How a question is named to whoever edits: its label, or its uuid when it has none. */
  datatype Name = Labelled(labels: string) | Numbered(uuid: Uuid)

  function ShownName(q: Question): Name {
    if q.labels != "" then Labelled(q.labels) else Numbered(q.uuid)
  }

  method Undeletable(existing: seq<Question>, submitted: seq<Question>) returns (labels: seq<Name>)
    ensures var dropped := Kept(existing, submitted);
            |labels| == |dropped| &&
            forall i | 0 <= i < |labels| ::
              labels[i] == if dropped[i].labels != "" then Labelled(dropped[i].labels) else Numbered(dropped[i].uuid)
  {
    labels := [];
    for i := 0 to |existing|
      invariant |labels| == |Kept(existing[..i], submitted)|
      invariant forall k | 0 <= k < |labels| :: labels[k] == ShownName(Kept(existing[..i], submitted)[k])
    {
      assert Front(existing[..i + 1]) == existing[..i];
      if !Names(submitted, existing[i].uuid) {
        labels := labels + [ShownName(existing[i])];
      }
    }
    assert existing[..|existing|] == existing;
  }

  /** The submitted set resolves to this stored question. */
  predicate ResolvesTo(submitted: seq<Question>, existing: seq<Question>, e: Question) {
    exists i :: 0 <= i < |submitted| && MatchExisting(submitted[i], existing) == Some(e)
  }

  /** Every stored question the edit leaves untouched is named; and one that is named was touched
      only because a submitted question with an unknown uuid asks the same. */
  lemma UntouchedIsNamed(existing: seq<Question>, submitted: seq<Question>, e: Question)
    requires AllIdentified(existing) && e in existing
    ensures !ResolvesTo(submitted, existing, e) ==> e in Kept(existing, submitted)
    ensures e in Kept(existing, submitted) ==>
              (ResolvesTo(submitted, existing, e) <==>
               exists i :: 0 <= i < |submitted| && LastWithUuid(existing, submitted[i].uuid).None? &&
                           FirstAlike(submitted[i], existing) == Some(e))
  {
    var k :| 0 <= k < |existing| && existing[k] == e;
    LastWithUuidIs(existing, k);
    if i :| 0 <= i < |submitted| && submitted[i].uuid == e.uuid {
      assert MatchExisting(submitted[i], existing) == Some(e);
    }
    if e in Kept(existing, submitted) && ResolvesTo(submitted, existing, e) {
      var i :| 0 <= i < |submitted| && MatchExisting(submitted[i], existing) == Some(e);
      assert submitted[i].uuid != e.uuid;
      assert LastWithUuid(existing, submitted[i].uuid).None? && FirstAlike(submitted[i], existing) == Some(e);
    }
  }

  // ---- turning automation on ---------------------------------------------------------------------------

  predicate Transcribed(rows: seq<Row>, x: string) {
    Lookup(Grouped(rows).transcribe, x).Some?
  }

  function LanguagesOnly(language: string, targets: seq<string>): Request {
    Request(language, Some(targets), None, true, false)
  }

  /** Each recording without transcription is configured, in order, up to the first refusal. */
  function Enabled(rows: seq<Row>, recordings: seq<string>, language: string, targets: seq<string>): Written {
    if recordings == [] then Written(rows, true)
    else
      var before, x := Enabled(rows, Front(recordings), language, targets), Last(recordings);
      if !before.ok || Transcribed(before.rows, x) then before
      else Synced(before.rows, x, LanguagesOnly(language, targets), 1)
  }

  function EnabledNext(rows: seq<Row>, x: string, language: string, targets: seq<string>): Written {
    if Transcribed(rows, x) then Written(rows, true) else Synced(rows, x, LanguagesOnly(language, targets), 1)
  }

  /** One recording: skipped when it is transcribed already, else configured, and the rows read again. */
  method EnableNext(client: FeatureServer, features: AssetFeatures, x: string, language: string, targets: seq<string>)
    returns (ok: bool, skipped: bool, again: AssetFeatures)
    requires Mirrors(features, client.rows)
    modifies client
    ensures Written(client.rows, ok) == EnabledNext(old(client.rows), x, language, targets)
    ensures Mirrors(again, client.rows) && (again == features || fresh(again))
    ensures skipped == Transcribed(old(client.rows), x)
  {
    assert features.transcribe == features.View().transcribe;
    ok, skipped, again := true, Lookup(features.transcribe, x).Some?, features;
    if !skipped {
      ok, again := SyncAndReload(client, features, x, LanguagesOnly(language, targets), 1);
    }
  }

  lemma OneMoreRecording(rows: seq<Row>, recordings: seq<string>, i: nat, language: string, targets: seq<string>)
    requires i < |recordings| && Enabled(rows, recordings[..i], language, targets).ok
    ensures Enabled(rows, recordings[..i + 1], language, targets) ==
            EnabledNext(Enabled(rows, recordings[..i], language, targets).rows, recordings[i], language, targets)
    ensures recordings[..i + 1] == recordings[..i] + [recordings[i]]
  {
    assert Front(recordings[..i + 1]) == recordings[..i] && Last(recordings[..i + 1]) == recordings[i];
  }

  /** The recordings that were, or were not, transcribed when they were come to. */
  function Met(rows: seq<Row>, recordings: seq<string>, language: string, targets: seq<string>,
               transcribed: bool): seq<string> {
    if recordings == [] then []
    else
      var before, x := Enabled(rows, Front(recordings), language, targets), Last(recordings);
      Met(rows, Front(recordings), language, targets, transcribed) +
      if Transcribed(before.rows, x) == transcribed then [x] else []
  }

  method Enable(client: FeatureServer, recordings: seq<string>, language: string, targets: seq<string>)
    returns (ok: bool, configured: seq<string>, already: seq<string>)
    modifies client
    ensures Written(client.rows, ok) == Enabled(old(client.rows), recordings, language, targets)
    ensures ok ==> already == Met(old(client.rows), recordings, language, targets, true) &&
                   configured == Met(old(client.rows), recordings, language, targets, false)
  {
    ok, configured, already := true, [], [];
    var features := new AssetFeatures(client.rows);
    for i := 0 to |recordings|
      invariant Written(client.rows, true) == Enabled(old(client.rows), recordings[..i], language, targets)
      invariant Mirrors(features, client.rows) && fresh(features)
      invariant already == Met(old(client.rows), recordings[..i], language, targets, true)
      invariant configured == Met(old(client.rows), recordings[..i], language, targets, false)
    {
      OneMoreRecording(old(client.rows), recordings, i, language, targets);
      var skipped;
      ok, skipped, features := EnableNext(client, features, recordings[i], language, targets);
      if !ok {
        RefusedEnds(old(client.rows), recordings, i, language, targets);
        return;
      }
      if skipped {
        already := already + [recordings[i]];
      } else {
        configured := configured + [recordings[i]];
      }
    }
    ok := true;
    assert recordings[..|recordings|] == recordings;
  }

  lemma {:induction false} RefusedEnds(rows: seq<Row>, recordings: seq<string>, i: nat, language: string,
                                       targets: seq<string>)
    requires i < |recordings| && !Enabled(rows, recordings[..i + 1], language, targets).ok
    ensures Enabled(rows, recordings, language, targets) == Enabled(rows, recordings[..i + 1], language, targets)
  {
    if i + 1 < |recordings| {
      assert Front(recordings)[..i + 1] == recordings[..i + 1];
      RefusedEnds(rows, Front(recordings), i, language, targets);
    } else {
      assert recordings[..i + 1] == recordings;
    }
  }

  lemma TranscribedStays(rows: seq<Row>, rows': seq<Row>, x: string)
    requires UniqueRows(rows) && UniqueRows(rows') && SameStored(rows, rows', x, Transcription)
    ensures Transcribed(rows', x) == Transcribed(rows, x)
  {
    GroupedReadsRows(rows, x);
    GroupedReadsRows(rows', x);
  }

  /** Turning automation on leaves every row of every recording that was transcribed already as it was. */
  lemma {:induction false} ConfiguredIsLeftAlone(rows: seq<Row>, recordings: seq<string>, language: string,
                                                 targets: seq<string>, x: string)
    requires UniqueRows(rows) && Transcribed(rows, x)
    ensures UniqueRows(Enabled(rows, recordings, language, targets).rows) &&
            Transcribed(Enabled(rows, recordings, language, targets).rows, x)
    ensures forall a :: SameStored(rows, Enabled(rows, recordings, language, targets).rows, x, a)
  {
    if recordings != [] {
      var before, y := Enabled(rows, Front(recordings), language, targets), Last(recordings);
      ConfiguredIsLeftAlone(rows, Front(recordings), language, targets, x);
      if before.ok && !Transcribed(before.rows, y) {
        var r := LanguagesOnly(language, targets);
        var ws := Writes(DefinitionsAt(before.rows, y), r, 1);
        WritesApart(DefinitionsAt(before.rows, y), r, 1);
        forall a ensures SameStored(rows, Carried(before.rows, before.rows, y, ws).rows, x, a) {
          UnsentStays(before.rows, before.rows, y, ws, x, a);
          assert SameStored(rows, before.rows, x, a);
        }
        StaysUnique(before.rows, before.rows, y, ws);
        TranscribedStays(rows, Carried(before.rows, before.rows, y, ws).rows, x);
      }
    }
  }

  lemma OtherRowsStay(rows: seq<Row>, y: string, r: Request, mint: Uuid, x: string, a: Action)
    requires UniqueRows(rows) && x != y
    ensures SameStored(rows, Synced(rows, y, r, mint).rows, x, a) && UniqueRows(Synced(rows, y, r, mint).rows)
  {
    WritesApart(DefinitionsAt(rows, y), r, mint);
    UnsentStays(rows, rows, y, Writes(DefinitionsAt(rows, y), r, mint), x, a);
  }

  /** What turning automation on keeps, and what it leaves alone. */
  lemma {:induction false} EnableKeeps(rows: seq<Row>, recordings: seq<string>, language: string, targets: seq<string>,
                                       x: string)
    requires TidyRows(rows) && ProperLanguages(LanguagesOnly(language, targets))
    ensures TidyRows(Enabled(rows, recordings, language, targets).rows)
    ensures x !in recordings ==>
              forall a :: SameStored(rows, Enabled(rows, recordings, language, targets).rows, x, a)
  {
    if recordings != [] {
      var before, y := Enabled(rows, Front(recordings), language, targets), Last(recordings);
      EnableKeeps(rows, Front(recordings), language, targets, x);
      if before.ok && !Transcribed(before.rows, y) {
        SyncKeepsTidy(before.rows, y, LanguagesOnly(language, targets), 1);
        if x !in recordings {
          forall a ensures SameStored(rows, Enabled(rows, recordings, language, targets).rows, x, a) {
            OtherRowsStay(before.rows, y, LanguagesOnly(language, targets), 1, x, a);
            assert SameStored(rows, before.rows, x, a);
          }
        }
      }
    }
  }

  /** The recording's audio is transcribed in this language, and these are among its targets. */
  ghost predicate HasLanguages(rows: seq<Row>, x: string, language: string, targets: seq<string>) {
    Lookup(Grouped(rows).transcribe, x) == Some(Base(language)) &&
    forall t | t in targets :: Lang(Base(t)) in Stored(rows, x, Translation)
  }

  lemma UntranscribedHasNone(rows: seq<Row>, x: string)
    requires TidyRows(rows) && !Transcribed(rows, x)
    ensures Stored(rows, x, Transcription) == []
  {
    GroupedReadsRows(rows, x);
    TidyStored(rows, x, Transcription);
    TidyLanguages(Transcription, Stored(rows, x, Transcription));
  }

  lemma EnabledHasLanguages(rows: seq<Row>, x: string, language: string, targets: seq<string>)
    requires TidyRows(rows) && !Transcribed(rows, x) && Base(language) != "" && NamedBases(targets)
    requires Synced(rows, x, LanguagesOnly(language, targets), 1).ok
    ensures HasLanguages(Synced(rows, x, LanguagesOnly(language, targets), 1).rows, x, language, targets)
  {
    UntranscribedHasNone(rows, x);
    NewLanguageApplies(rows, x, LanguagesOnly(language, targets), 1);
    forall t | t in targets
      ensures Lang(Base(t)) in Stored(Synced(rows, x, LanguagesOnly(language, targets), 1).rows, x, Translation) {
      AppliedTargets(rows, x, LanguagesOnly(language, targets), 1, Base(t));
    }
  }

  lemma LanguagesStay(rows: seq<Row>, rows': seq<Row>, x: string, language: string, targets: seq<string>)
    requires UniqueRows(rows) && UniqueRows(rows') && HasLanguages(rows, x, language, targets)
    requires SameStored(rows, rows', x, Transcription) && SameStored(rows, rows', x, Translation)
    ensures HasLanguages(rows', x, language, targets)
  {
    GroupedReadsRows(rows, x);
    GroupedReadsRows(rows', x);
  }

  /** Turning automation on, when it succeeds, gives every recording named that was not transcribed the language and the
      targets. */
  lemma {:induction false} EnableReaches(rows: seq<Row>, recordings: seq<string>, language: string,
                                         targets: seq<string>,
                                         x: string)
    requires TidyRows(rows) && Base(language) != "" && ProperLanguages(LanguagesOnly(language, targets))
    requires Enabled(rows, recordings, language, targets).ok && x in recordings && !Transcribed(rows, x)
    ensures HasLanguages(Enabled(rows, recordings, language, targets).rows, x, language, targets)
  {
    var before, y := Enabled(rows, Front(recordings), language, targets), Last(recordings);
    EnableKeeps(rows, Front(recordings), language, targets, x);
    if x in Front(recordings) {
      EnableReaches(rows, Front(recordings), language, targets, x);
      if !Transcribed(before.rows, y) {
        assert x != y;
        OtherRowsStay(before.rows, y, LanguagesOnly(language, targets), 1, x, Transcription);
        OtherRowsStay(before.rows, y, LanguagesOnly(language, targets), 1, x, Translation);
        LanguagesStay(before.rows, Synced(before.rows, y, LanguagesOnly(language, targets), 1).rows, x, language,
                      targets);
      }
    } else {
      FrontOrLast(recordings, x);
      TranscribedStays(rows, before.rows, x);
      EnabledHasLanguages(before.rows, x, language, targets);
    }
  }

  // ---- what saving makes of each recording -------------------------------------------------------------

  /** On each recording the model is to answer what it was to answer before, and the questions of the set that it can;
      and what the recording has beside the set, unless it is the one edited. */
  lemma SavedAnswers(p: Progress, x: string, edited: string, r: Request, u: Uuid)
    requires TidyRows(p.rows) && r.questions.Some? && r.enableQual && SavedNext(p, x, edited, r).ok && u != 0
    ensures Auto(u) in Stored(SavedNext(p, x, edited, r).rows, x, AutoQual) <==>
            Auto(u) in Stored(p.rows, x, AutoQual) ||
            (exists q :: q in Localised(r.questions.value, DefinitionsAt(p.rows, x), p.mint) && q.uuid == u &&
                         IsAnswerableType(q.kind)) ||
            (x != edited && exists q ::
               IsBeside(q, r.questions.value, DefinitionsAt(p.rows, x), p.mint) && q.uuid == u &&
                                        IsAnswerableType(q.kind))
  {
    AppliedAnswers(p.rows, x, OneOf(x, edited, r), p.mint, u);
    WrittenIsEither(r.questions.value, DefinitionsAt(p.rows, x), x != edited, p.mint);
  }

  /** A question the recording has that the set does not name. */
  predicate IsBeside(q: Question, questions: seq<Question>, existing: seq<Question>, mint: Uuid) {
    q in existing && forall s | s in Localised(questions, existing, mint) :: s.uuid != q.uuid
  }

  lemma WrittenIsEither(questions: seq<Question>, existing: seq<Question>, merge: bool, mint: Uuid)
    ensures forall q :: IsWritten(q, questions, existing, merge, mint) <==>
              q in Localised(questions, existing, mint) || (merge && IsBeside(q, questions, existing, mint))
  {
  }

  /** The application to the i-th recording is not refused. */
  predicate Applies(rows: seq<Row>, xpaths: seq<string>, edited: string, r: Request, mint: Uuid, i: nat)
    requires i < |xpaths|
  {
    SavedNext(Saved(rows, xpaths[..i], edited, r, mint), xpaths[i], edited, r).ok
  }

  lemma AppliesInFront(rows: seq<Row>, xpaths: seq<string>, edited: string, r: Request, mint: Uuid, i: nat)
    requires i < |xpaths| - 1
    ensures Applies(rows, Front(xpaths), edited, r, mint, i) == Applies(rows, xpaths, edited, r, mint, i)
  {
    assert Front(xpaths)[..i] == xpaths[..i];
  }

  predicate AllApply(rows: seq<Row>, xpaths: seq<string>, edited: string, r: Request, mint: Uuid) {
    forall i | 0 <= i < |xpaths| :: Applies(rows, xpaths, edited, r, mint, i)
  }

  lemma AllApplyInFront(rows: seq<Row>, xpaths: seq<string>, edited: string, r: Request, mint: Uuid)
    requires xpaths != []
    ensures AllApply(rows, xpaths, edited, r, mint) <==>
            AllApply(rows, Front(xpaths), edited, r, mint) && Applies(rows, xpaths, edited, r, mint, |xpaths| - 1)
  {
    forall i | 0 <= i < |xpaths| - 1
      ensures Applies(rows, Front(xpaths), edited, r, mint, i) == Applies(rows, xpaths, edited, r, mint, i) {
      AppliesInFront(rows, xpaths, edited, r, mint, i);
    }
  }

  /** Saving succeeds exactly when each application does. */
  lemma {:induction false} SavingSucceedsIff(rows: seq<Row>, xpaths: seq<string>, edited: string, r: Request,
                                             mint: Uuid)
    ensures Saved(rows, xpaths, edited, r, mint).ok <==> AllApply(rows, xpaths, edited, r, mint)
  {
    if xpaths != [] {
      SavingSucceedsIff(rows, Front(xpaths), edited, r, mint);
      AllApplyInFront(rows, xpaths, edited, r, mint);
      LastApplies(rows, xpaths, edited, r, mint);
    }
  }

  lemma LastApplies(rows: seq<Row>, xpaths: seq<string>, edited: string, r: Request, mint: Uuid)
    requires xpaths != []
    ensures Saved(rows, xpaths, edited, r, mint).ok <==>
            Saved(rows, Front(xpaths), edited, r, mint).ok && Applies(rows, xpaths, edited, r, mint, |xpaths| - 1)
  {
  }

  /** Turning automation on is never refused. */
  lemma {:induction false} EnableSucceeds(rows: seq<Row>, recordings: seq<string>, language: string,
                                          targets: seq<string>)
    requires UniqueRows(rows) && "" !in recordings
    ensures UniqueRows(Enabled(rows, recordings, language, targets).rows)
    ensures Enabled(rows, recordings, language, targets).ok
  {
    if recordings != [] {
      var before, y := Enabled(rows, Front(recordings), language, targets), Last(recordings);
      EnableSucceeds(rows, Front(recordings), language, targets);
      if !Transcribed(before.rows, y) {
        assert y in recordings;
        SyncSucceedsIff(before.rows, y, LanguagesOnly(language, targets), 1);
        SyncStaysUnique(before.rows, y, LanguagesOnly(language, targets), 1);
      }
    }
  }
}
