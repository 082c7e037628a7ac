/** Applying a set of questions again: the second application writes what the first wrote, and no row changes. */
module Reapplication {
  import opened Versions
  import opened Languages
  import opened Features
  import opened Merging
  import opened Questions
  import opened Sync
  import opened Configuration
  import opened Plans

  // ---- a list of writes ------------------------------------------------------------------

  predicate DistinctActions(ws: seq<Write>) {
    forall i, j | 0 <= i < j < |ws| && ws[i].Send? && ws[j].Send? :: ws[i].action != ws[j].action
  }

  predicate TidyWrites(ws: seq<Write>) {
    forall i | 0 <= i < |ws| && ws[i].Send? :: TidyParams(ws[i].action, ws[i].params)
  }

  predicate SendsTo(ws: seq<Write>, action: Action) {
    exists i :: 0 <= i < |ws| && ws[i].Send? && ws[i].action == action
  }

  /** The rows read before agree with the server's on which rows are still to be updated. */
  predicate AgreeOn(known: seq<Row>, rows: seq<Row>, xpath: string, ws: seq<Write>) {
    UniqueRows(known) && UniqueRows(rows) &&
    forall i | 0 <= i < |ws| && ws[i].Send? :: RowUid(known, xpath, ws[i].action) == RowUid(rows, xpath, ws[i].action)
  }

  lemma FirstPut(known: seq<Row>, rows: seq<Row>, xpath: string, ws: seq<Write>)
    requires AgreeOn(known, rows, xpath, ws) && DistinctActions(ws) && ws != [] && ws[0].Send?
    requires PutRow(known, rows, xpath, ws[0].action, ws[0].params).Some?
    ensures var rows' := PutRow(known, rows, xpath, ws[0].action, ws[0].params).value;
            AgreeOn(known, rows', xpath, ws[1..]) && DistinctActions(ws[1..]) && HasRow(rows', xpath, ws[0].action) &&
            Stored(rows', xpath, ws[0].action) == Merged(Stored(rows, xpath, ws[0].action), ws[0].params) &&
            ValidParams(ws[0].action, ws[0].params) &&
            forall x, a | x != xpath || a != ws[0].action :: SameStored(rows, rows', x, a)
  {
    PutStores(known, rows, xpath, ws[0].action, ws[0].params);
    var rows' := PutRow(known, rows, xpath, ws[0].action, ws[0].params).value;
    forall i | 0 <= i < |ws[1..]| && ws[1..][i].Send?
      ensures RowUid(known, xpath, ws[1..][i].action) == RowUid(rows', xpath, ws[1..][i].action)
    {
      assert ws[1..][i] == ws[i + 1] && ws[0].action != ws[i + 1].action;
      assert SameStored(rows, rows', xpath, ws[i + 1].action);
    }
  }

  /** What is not written stays, on this recording and on every other, whether or not all writes succeed. */
  lemma {:induction false} UnsentStays(known: seq<Row>, rows: seq<Row>, xpath: string, ws: seq<Write>, x: string,
                                       a: Action)
    requires AgreeOn(known, rows, xpath, ws) && DistinctActions(ws) && (x != xpath || !SendsTo(ws, a))
    ensures SameStored(rows, Carried(known, rows, xpath, ws).rows, x, a) &&
            UniqueRows(Carried(known, rows, xpath, ws).rows)
    decreases |ws|
  {
    if ws != [] && ws[0].Send? && PutRow(known, rows, xpath, ws[0].action, ws[0].params).Some? {
      var rows' := PutRow(known, rows, xpath, ws[0].action, ws[0].params).value;
      FirstPut(known, rows, xpath, ws);
      SendsLess(ws, a);
      assert SameStored(rows, rows', x, a);
      UnsentStays(known, rows', xpath, ws[1..], x, a);
    }
  }

  lemma StaysUnique(known: seq<Row>, rows: seq<Row>, xpath: string, ws: seq<Write>)
    requires AgreeOn(known, rows, xpath, ws) && DistinctActions(ws)
    ensures UniqueRows(Carried(known, rows, xpath, ws).rows)
  {
    assert |xpath + "/"| != |xpath|;
    UnsentStays(known, rows, xpath, ws, xpath + "/", Transcription);
  }

  lemma SendsLess(ws: seq<Write>, action: Action)
    requires ws != [] && ws[0].Send?
    ensures SendsTo(ws[1..], action) || ws[0].action == action ==> SendsTo(ws, action)
  {
    if i :| 0 <= i < |ws[1..]| && ws[1..][i].Send? && ws[1..][i].action == action {
      assert ws[i + 1].action == action;
    }
  }

  /** The server holds a write. */
  predicate Holds(rows: seq<Row>, before: seq<Row>, xpath: string, w: Write) {
    w.Send? && HasRow(rows, xpath, w.action) && ValidParams(w.action, w.params) &&
    Stored(rows, xpath, w.action) == Merged(Stored(before, xpath, w.action), w.params)
  }

  lemma NotSentAgain(ws: seq<Write>)
    requires DistinctActions(ws) && ws != [] && ws[0].Send?
    ensures !SendsTo(ws[1..], ws[0].action)
  {
    forall i | 0 <= i < |ws[1..]| && ws[1..][i].Send? ensures ws[1..][i].action != ws[0].action {
      assert ws[1..][i] == ws[i + 1];
    }
  }

  lemma FirstHolds(known: seq<Row>, rows: seq<Row>, xpath: string, ws: seq<Write>)
    requires AgreeOn(known, rows, xpath, ws) && DistinctActions(ws) && Carried(known, rows, xpath, ws).ok && ws != []
    ensures Holds(Carried(known, rows, xpath, ws).rows, rows, xpath, ws[0])
  {
    var rows' := PutRow(known, rows, xpath, ws[0].action, ws[0].params).value;
    FirstPut(known, rows, xpath, ws);
    NotSentAgain(ws);
    UnsentStays(known, rows', xpath, ws[1..], xpath, ws[0].action);
  }

  lemma HeldOver(after: seq<Row>, rows': seq<Row>, rows: seq<Row>, xpath: string, w: Write)
    requires Holds(after, rows', xpath, w) && SameStored(rows, rows', xpath, w.action)
    ensures Holds(after, rows, xpath, w)
  {
  }

  lemma {:induction false} SuccessHolds(known: seq<Row>, rows: seq<Row>, xpath: string, ws: seq<Write>, i: nat)
    requires AgreeOn(known, rows, xpath, ws) && DistinctActions(ws) && Carried(known, rows, xpath, ws).ok && i < |ws|
    ensures Holds(Carried(known, rows, xpath, ws).rows, rows, xpath, ws[i])
    decreases |ws|
  {
    if i == 0 {
      FirstHolds(known, rows, xpath, ws);
    } else {
      var rows' := PutRow(known, rows, xpath, ws[0].action, ws[0].params).value;
      FirstPut(known, rows, xpath, ws);
      assert ws[1..][i - 1] == ws[i];
      SuccessHolds(known, rows', xpath, ws[1..], i - 1);
      assert ws[i].action != ws[0].action;
      HeldOver(Carried(known, rows', xpath, ws[1..]).rows, rows', rows, xpath, ws[i]);
    }
  }

  /** Writes the server holds already change nothing. */
  lemma {:induction false} HeldChangesNothing(rows: seq<Row>, xpath: string, ws: seq<Write>)
    requires UniqueRows(rows) && forall i | 0 <= i < |ws| :: Holds(rows, rows, xpath, ws[i])
    ensures Carried(rows, rows, xpath, ws) == Written(rows, true)
    decreases |ws|
  {
    if ws != [] {
      assert Holds(rows, rows, xpath, ws[0]);
      PutChangesNothing(rows, xpath, ws[0].action, ws[0].params);
      forall i | 0 <= i < |ws[1..]| ensures Holds(rows, rows, xpath, ws[1..][i]) {
        assert ws[1..][i] == ws[i + 1];
      }
      HeldChangesNothing(rows, xpath, ws[1..]);
    }
  }

  lemma {:induction false} CarriedTidy(known: seq<Row>, rows: seq<Row>, xpath: string, ws: seq<Write>)
    requires AgreeOn(known, rows, xpath, ws) && DistinctActions(ws) && TidyWrites(ws) && TidyRows(rows)
    ensures TidyRows(Carried(known, rows, xpath, ws).rows)
    decreases |ws|
  {
    if ws != [] && ws[0].Send? && PutRow(known, rows, xpath, ws[0].action, ws[0].params).Some? {
      FirstPut(known, rows, xpath, ws);
      PutTidy(known, rows, xpath, ws[0].action, ws[0].params);
      assert TidyWrites(ws[1..]);
      CarriedTidy(known, PutRow(known, rows, xpath, ws[0].action, ws[0].params).value, xpath, ws[1..]);
    }
  }

  lemma PutTidy(known: seq<Row>, rows: seq<Row>, xpath: string, action: Action, params: seq<Param>)
    requires TidyRows(rows) && UniqueRows(known) && RowUid(known, xpath, action) == RowUid(rows, xpath, action)
    requires TidyParams(action, params) && PutRow(known, rows, xpath, action, params).Some?
    ensures TidyRows(PutRow(known, rows, xpath, action, params).value)
  {
    PutStores(known, rows, xpath, action, params);
    var rows' := PutRow(known, rows, xpath, action, params).value;
    forall i | 0 <= i < |rows'| ensures TidyParams(rows'[i].action, rows'[i].params) {
      var x, a := rows'[i].xpath, rows'[i].action;
      StoredAt(rows', i);
      TidyStored(rows, x, a);
      if x == xpath && a == action {
        MergedTidy(action, Stored(rows, xpath, action), params);
      } else {
        assert SameStored(rows, rows', x, a);
      }
    }
  }

  // ---- what is written is tidy ---------------------------------------------------------------

  /** Languages with a base to write. */
  predicate NamedLanguages(r: Request) {
    (r.language != "" ==> Base(r.language) != "") && (r.targets.Some? ==> NamedBases(r.targets.value))
  }

  /** Languages with a base to write, no two targets with the same one. */
  predicate ProperLanguages(r: Request) {
    NamedLanguages(r) && (r.targets.Some? ==> DistinctBases(r.targets.value))
  }

  /** No two questions ask the same or are matched alike, and the mint is unused. */
  predicate ProperQuestions(r: Request, existing: seq<Question>, mint: Uuid) {
    match r.questions
    case None => true
    case Some(qs) => DistinctQuestions(qs) && OneToOne(qs, existing) && Unused(mint, qs, existing)
  }

  predicate AllIdentified(qs: seq<Question>) {
    DistinctUuids(qs) && forall i | 0 <= i < |qs| :: qs[i].uuid != 0
  }

  lemma NotKeptTwice(existing: seq<Question>, taken: seq<Question>, k: nat)
    requires AllIdentified(existing) && existing != [] && k < |Kept(Front(existing), taken)|
    ensures Kept(Front(existing), taken)[k].uuid != Last(existing).uuid && Kept(Front(existing), taken)[k].uuid != 0
  {
    var q := Kept(Front(existing), taken)[k];
    assert q in Kept(Front(existing), taken);
    var i :| 0 <= i < |existing| - 1 && existing[i] == q;
  }

  lemma {:induction false} KeptIdentified(existing: seq<Question>, taken: seq<Question>)
    requires AllIdentified(existing)
    ensures AllIdentified(Kept(existing, taken))
  {
    if existing != [] {
      var kept := Kept(Front(existing), taken);
      KeptIdentified(Front(existing), taken);
      forall k | 0 <= k < |kept| ensures kept[k].uuid != Last(existing).uuid {
        NotKeptTwice(existing, taken, k);
      }
    }
  }

  lemma JoinedIdentified(a: seq<Question>, b: seq<Question>)
    requires AllIdentified(a) && AllIdentified(b) && forall q | q in b :: !Names(a, q.uuid)
    ensures AllIdentified(a + b)
  {
    forall i, j | 0 <= i < j < |a + b| ensures (a + b)[i].uuid != (a + b)[j].uuid {
      if i < |a| <= j {
        assert (a + b)[j] == b[j - |a|] && b[j - |a|] in b;
      }
    }
  }

  lemma LocalIdentified(qs: seq<Question>, existing: seq<Question>, merge: bool, mint: Uuid)
    requires OneToOne(qs, existing) && Unused(mint, qs, existing) && AllIdentified(existing)
    ensures AllIdentified(TrimmedAll(Local(qs, existing, merge, mint)))
  {
    var local := Localised(qs, existing, mint);
    ResolvedAreDistinct(qs, existing, mint);
    forall i | 0 <= i < |local| ensures local[i].uuid != 0 {
      LocalisedIs(qs, existing, mint, i);
      UuidComesFrom(qs, existing, mint, i);
    }
    if merge {
      KeptIdentified(existing, local);
      JoinedIdentified(local, Kept(existing, local));
    }
  }

  lemma DefsTidy(qs: seq<Question>)
    requires AllIdentified(qs)
    ensures TidyParams(QualDefinitions, Defs(qs))
  {
  }

  lemma {:induction false} AutoMembers(qs: seq<Question>, p: Param)
    requires p in AutoParams(qs)
    ensures p.Auto? && p.uuid != 0 && exists i :: 0 <= i < |qs| && qs[i].uuid == p.uuid
  {
    if p in AutoParams(Front(qs)) {
      AutoMembers(Front(qs), p);
    }
  }

  lemma {:induction false} AutoTidy(qs: seq<Question>)
    requires AllIdentified(qs)
    ensures TidyParams(AutoQual, AutoParams(qs))
  {
    if qs != [] {
      var before := AutoParams(Front(qs));
      AutoTidy(Front(qs));
      if Last(qs).kind in AUTO_QUAL_TYPES {
        forall k | 0 <= k < |before| ensures IdentityOf(before[k]) != IdentityOf(Auto(Last(qs).uuid)) {
          AutoMembers(Front(qs), before[k]);
        }
        AppendTidy(AutoQual, before, Auto(Last(qs).uuid));
      }
    }
  }

  lemma BasesTidy(r: Request)
    requires ProperLanguages(r)
    ensures r.language != "" ==> TidyParams(Transcription, [Lang(Base(r.language))])
    ensures r.targets.Some? ==> TidyParams(Translation, Bases(r.targets.value))
  {
    BaseIsBare(r.language);
    if r.targets.Some? {
      forall i | 0 <= i < |r.targets.value| ensures Bare(Base(r.targets.value[i])) {
        BaseIsBare(r.targets.value[i]);
      }
    }
  }

  lemma JoinTidy(a: seq<Write>, b: seq<Write>)
    requires TidyWrites(a) && TidyWrites(b)
    ensures TidyWrites(a + b)
  {
  }

  lemma QuestionsTidy(stored: seq<Question>, enableQual: bool)
    requires AllIdentified(stored)
    ensures TidyWrites(QuestionWrites(stored, enableQual))
  {
    DefsTidy(stored);
    AutoTidy(stored);
  }

  lemma WritesTidy(existing: seq<Question>, r: Request, mint: Uuid)
    requires ProperLanguages(r) && ProperQuestions(r, existing, mint) && AllIdentified(existing)
    ensures TidyWrites(Writes(existing, r, mint))
  {
    BasesTidy(r);
    assert TidyWrites(LanguageWrites(r));
    if r.questions.Some? {
      var stored := TrimmedAll(Local(r.questions.value, existing, r.merge, mint));
      LocalIdentified(r.questions.value, existing, r.merge, mint);
      QuestionsTidy(stored, r.enableQual);
      JoinTidy(LanguageWrites(r), QuestionWrites(stored, r.enableQual));
    }
  }

  predicate SendsOnly(ws: seq<Write>, actions: set<Action>) {
    DistinctActions(ws) && forall i | 0 <= i < |ws| && ws[i].Send? :: ws[i].action in actions
  }

  lemma JoinApart(a: seq<Write>, b: seq<Write>, x: set<Action>, y: set<Action>)
    requires SendsOnly(a, x) && SendsOnly(b, y) && x !! y
    ensures DistinctActions(a + b)
  {
  }

  lemma WritesApart(existing: seq<Question>, r: Request, mint: Uuid)
    ensures DistinctActions(Writes(existing, r, mint))
  {
    assert SendsOnly(LanguageWrites(r), {Transcription, Translation});
    if r.questions.Some? {
      var ws := QuestionWrites(TrimmedAll(Local(r.questions.value, existing, r.merge, mint)), r.enableQual);
      assert SendsOnly(ws, {QualDefinitions, AutoQual});
      JoinApart(LanguageWrites(r), ws, {Transcription, Translation}, {QualDefinitions, AutoQual});
    }
  }

  lemma TidyDefinitions(rows: seq<Row>, xpath: string)
    requires TidyRows(rows)
    ensures DefinitionsAt(rows, xpath) == QuestionsIn(Stored(rows, xpath, QualDefinitions))
    ensures AllIdentified(DefinitionsAt(rows, xpath))
  {
    var params := Stored(rows, xpath, QualDefinitions);
    GroupedReadsRows(rows, xpath);
    TidyStored(rows, xpath, QualDefinitions);
    TidyQuestions(params);
    var qs := QuestionsIn(params);
    forall i | 0 <= i < |qs| ensures IdentityOf(params[i]) == UuidIdentity(qs[i].uuid) {
    }
    forall i, j | 0 <= i < j < |qs| ensures qs[i].uuid != qs[j].uuid {
      assert IdentityOf(params[i]) != IdentityOf(params[j]);
    }
  }

  /** Applying a configuration keeps a form's rows tidy, successful or not. */
  lemma SyncKeepsTidy(rows: seq<Row>, xpath: string, r: Request, mint: Uuid)
    requires TidyRows(rows) && ProperLanguages(r) && ProperQuestions(r, DefinitionsAt(rows, xpath), mint)
    ensures TidyRows(Synced(rows, xpath, r, mint).rows)
    ensures WellFormed(Grouped(Synced(rows, xpath, r, mint).rows))
  {
    var existing := DefinitionsAt(rows, xpath);
    TidyDefinitions(rows, xpath);
    WritesTidy(existing, r, mint);
    WritesApart(existing, r, mint);
    CarriedTidy(rows, rows, xpath, Writes(existing, r, mint));
    TidyIsWellFormed(Synced(rows, xpath, r, mint).rows);
  }

  // ---- the fixed point ---------------------------------------------------------------------------

  /** Reading back what was merged: the new questions, and of the old ones those that were not overwritten. */
  lemma MergedIsAbsorbed(stored: seq<Param>, incoming: seq<Question>)
    requires TidyParams(QualDefinitions, stored) && AllIdentified(incoming)
    ensures Absorbed(QuestionsIn(stored), incoming, QuestionsIn(Merged(stored, Defs(incoming))))
  {
    var m := Merged(stored, Defs(incoming));
    DefsTidy(incoming);
    MergedTidy(QualDefinitions, stored, Defs(incoming));
    TidyQuestions(stored);
    TidyQuestions(m);
    DistinctIsConsistent(Defs(incoming));
    IncomingIsThere(stored, incoming);
    PlacesStay(stored, incoming);
    AppendedIsNew(stored, incoming);
    var now := QuestionsIn(m);
    forall i, j | 0 <= i < j < |now| ensures now[i].uuid != now[j].uuid {
      assert IdentityOf(m[i]) != IdentityOf(m[j]);
    }
  }

  lemma IncomingIsThere(stored: seq<Param>, incoming: seq<Question>)
    requires Consistent(Defs(incoming))
    requires var m := Merged(stored, Defs(incoming));
             |QuestionsIn(m)| == |m| && forall i | 0 <= i < |m| :: m[i] == Def(QuestionsIn(m)[i])
    ensures forall n | n in incoming :: n in QuestionsIn(Merged(stored, Defs(incoming)))
  {
    forall n | n in incoming ensures n in QuestionsIn(Merged(stored, Defs(incoming))) {
      var i :| 0 <= i < |incoming| && incoming[i] == n;
      assert Defs(incoming)[i] == Def(n);
      var k := MergeTakes(stored, Defs(incoming), Def(n));
      assert QuestionsIn(Merged(stored, Defs(incoming)))[k] == n;
    }
  }

  lemma DefIsIn(incoming: seq<Question>, q: Question)
    requires Def(q) in Defs(incoming)
    ensures q in incoming
  {
    var i :| 0 <= i < |incoming| && Defs(incoming)[i] == Def(q);
    assert incoming[i] == q;
  }

  lemma PlacesStay(stored: seq<Param>, incoming: seq<Question>)
    requires var m := Merged(stored, Defs(incoming));
             |QuestionsIn(m)| == |m| && forall i | 0 <= i < |m| :: m[i] == Def(QuestionsIn(m)[i])
    requires |QuestionsIn(stored)| == |stored| &&
             forall i | 0 <= i < |stored| :: stored[i] == Def(QuestionsIn(stored)[i])
    requires TidyParams(QualDefinitions, stored)
    ensures var now, existing := QuestionsIn(Merged(stored, Defs(incoming))), QuestionsIn(stored);
            |now| >= |existing| && forall k | 0 <= k < |existing| ::
                now[k].uuid == existing[k].uuid && (now[k] in incoming || now[k] == existing[k])
  {
    var m, now, existing := Merged(stored, Defs(incoming)), QuestionsIn(Merged(stored, Defs(incoming))),
      QuestionsIn(stored);
    forall k | 0 <= k < |existing| ensures now[k].uuid == existing[k].uuid &&
      (now[k] in incoming || now[k] == existing[k]) {
      assert IdentityOf(m[k]) == IdentityOf(stored[k]) == ByUuid(existing[k].uuid);
      MergeHolds(stored, Defs(incoming), k);
      if m[k] in Defs(incoming) {
        DefIsIn(incoming, now[k]);
      }
    }
  }

  lemma AppendedIsNew(stored: seq<Param>, incoming: seq<Question>)
    requires var m := Merged(stored, Defs(incoming));
             |QuestionsIn(m)| == |m| && forall i | 0 <= i < |m| :: m[i] == Def(QuestionsIn(m)[i])
    requires |QuestionsIn(stored)| == |stored| &&
             forall i | 0 <= i < |stored| :: stored[i] == Def(QuestionsIn(stored)[i])
    requires TidyParams(QualDefinitions, Merged(stored, Defs(incoming)))
    ensures var now, existing := QuestionsIn(Merged(stored, Defs(incoming))), QuestionsIn(stored);
            forall k | |existing| <= k < |now| ::
                now[k] in incoming && forall e | e in existing :: e.uuid != now[k].uuid
  {
    var m, now, existing := Merged(stored, Defs(incoming)), QuestionsIn(Merged(stored, Defs(incoming))),
      QuestionsIn(stored);
    forall k | |existing| <= k < |now| ensures now[k] in incoming && forall e | e in existing :: e.uuid != now[k].uuid {
      MergeHolds(stored, Defs(incoming), k);
      DefIsIn(incoming, now[k]);
      forall e | e in existing ensures e.uuid != now[k].uuid {
        var i :| 0 <= i < |existing| && existing[i] == e;
        assert IdentityOf(m[i]) == IdentityOf(stored[i]) && IdentityOf(m[i]) != IdentityOf(m[k]);
      }
    }
  }

  predicate ConsistentWrites(ws: seq<Write>) {
    forall i | 0 <= i < |ws| && ws[i].Send? :: Consistent(ws[i].params)
  }

  lemma BasesConsistent(r: Request)
    requires NamedLanguages(r)
    ensures ConsistentWrites(LanguageWrites(r))
  {
    if r.targets.Some? {
      var params := Bases(r.targets.value);
      forall p | p in params ensures p.Lang? && IdentityOf(p) == ByLanguage(p.language) {
        var i :| 0 <= i < |params| && params[i] == p;
      }
      assert Consistent(params);
    }
  }

  lemma QuestionsConsistent(stored: seq<Question>, enableQual: bool)
    requires AllIdentified(stored)
    ensures ConsistentWrites(QuestionWrites(stored, enableQual))
  {
    DefsTidy(stored);
    AutoTidy(stored);
    DistinctIsConsistent(Defs(stored));
    DistinctIsConsistent(AutoParams(stored));
  }

  lemma WritesConsistent(existing: seq<Question>, r: Request, mint: Uuid)
    requires NamedLanguages(r) && ProperQuestions(r, existing, mint) && AllIdentified(existing)
    ensures ConsistentWrites(Writes(existing, r, mint))
  {
    BasesConsistent(r);
    if r.questions.Some? {
      LocalIdentified(r.questions.value, existing, r.merge, mint);
      QuestionsConsistent(TrimmedAll(Local(r.questions.value, existing, r.merge, mint)), r.enableQual);
    }
  }

  lemma HeldForGood(rows: seq<Row>, before: seq<Row>, xpath: string, w: Write)
    requires Holds(rows, before, xpath, w) && Consistent(w.params)
    ensures Holds(rows, rows, xpath, w)
  {
    MergeAgain(Stored(before, xpath, w.action), w.params);
  }

  /** After a successful application the recording has the resolved set and what the set left alone. */
  lemma SyncAbsorbs(rows: seq<Row>, xpath: string, r: Request, mint: Uuid)
    requires TidyRows(rows) && r.questions.Some? && ProperQuestions(r, DefinitionsAt(rows, xpath), mint)
    requires Synced(rows, xpath, r, mint).ok
    ensures AppliedOnce(r.questions.value, DefinitionsAt(rows, xpath), r.merge, mint,
                        DefinitionsAt(Synced(rows, xpath, r, mint).rows, xpath))
  {
    var existing, after := DefinitionsAt(rows, xpath), Synced(rows, xpath, r, mint).rows;
    var ws, stored := Writes(existing, r, mint), TrimmedAll(Local(r.questions.value, existing, r.merge, mint));
    TidyDefinitions(rows, xpath);
    WritesApart(existing, r, mint);
    var i := DefinitionsAreSent(rows, xpath, r, mint);
    SuccessHolds(rows, rows, xpath, ws, i);
    StaysUnique(rows, rows, xpath, ws);
    GroupedReadsRows(after, xpath);
    TidyStored(rows, xpath, QualDefinitions);
    LocalIdentified(r.questions.value, existing, r.merge, mint);
    MergedIsAbsorbed(Stored(rows, xpath, QualDefinitions), stored);
  }

  lemma {:induction false} RaiseFails(known: seq<Row>, rows: seq<Row>, xpath: string, ws: seq<Write>, i: nat)
    requires i < |ws| && ws[i].Raise?
    ensures !Carried(known, rows, xpath, ws).ok
    decreases |ws|
  {
    if i > 0 && ws[0].Send? && PutRow(known, rows, xpath, ws[0].action, ws[0].params).Some? {
      RaiseFails(known, PutRow(known, rows, xpath, ws[0].action, ws[0].params).value, xpath, ws[1..], i - 1);
    }
  }

  lemma DefinitionsAreSent(rows: seq<Row>, xpath: string, r: Request, mint: Uuid) returns (i: nat)
    requires r.questions.Some? && Synced(rows, xpath, r, mint).ok
    ensures var existing := DefinitionsAt(rows, xpath);
            var ws, stored := Writes(existing, r, mint), TrimmedAll(Local(r.questions.value, existing, r.merge, mint));
            i < |ws| && ws[i] == Send(QualDefinitions, Defs(stored))
  {
    var ws := Writes(DefinitionsAt(rows, xpath), r, mint);
    i := |LanguageWrites(r)|;
    if ws[i].Raise? {
      RaiseFails(rows, rows, xpath, ws, i);
    }
  }

  /** Re-applying is a fixed point: the same request, on the recording it was just applied to, leaves every row as it
      is, and every question of the set keeps the uuid it has there, whatever uuids could be minted. */
  lemma ReapplyingChangesNothing(rows: seq<Row>, xpath: string, r: Request, mint: Uuid, mint': Uuid)
    requires TidyRows(rows) && NamedLanguages(r) && ProperQuestions(r, DefinitionsAt(rows, xpath), mint)
    requires Synced(rows, xpath, r, mint).ok
    ensures var rows' := Synced(rows, xpath, r, mint).rows;
            && Synced(rows', xpath, r, mint') == Written(rows', true)
            && (r.questions.Some? ==>
                  SameWhenStored(Localised(r.questions.value, DefinitionsAt(rows', xpath), mint'),
                                 Localised(r.questions.value, DefinitionsAt(rows, xpath), mint)))
  {
    var existing, rows' := DefinitionsAt(rows, xpath), Synced(rows, xpath, r, mint).rows;
    var ws := Writes(existing, r, mint);
    TidyDefinitions(rows, xpath);
    WritesApart(existing, r, mint);
    WritesConsistent(existing, r, mint);
    StaysUnique(rows, rows, xpath, ws);
    forall i | 0 <= i < |ws| ensures Holds(rows', rows', xpath, ws[i]) {
      SuccessHolds(rows, rows, xpath, ws, i);
      HeldForGood(rows', rows, xpath, ws[i]);
    }
    SameWrites(rows, xpath, r, mint, mint');
    HeldChangesNothing(rows', xpath, ws);
  }

  lemma SameWrites(rows: seq<Row>, xpath: string, r: Request, mint: Uuid, mint': Uuid)
    requires TidyRows(rows) && ProperQuestions(r, DefinitionsAt(rows, xpath), mint) && Synced(rows, xpath, r, mint).ok
    ensures var now := DefinitionsAt(Synced(rows, xpath, r, mint).rows, xpath);
            && Writes(now, r, mint') == Writes(DefinitionsAt(rows, xpath), r, mint)
            && (r.questions.Some? ==>
                  SameWhenStored(Localised(r.questions.value, now, mint'),
                                 Localised(r.questions.value, DefinitionsAt(rows, xpath), mint)))
  {
    if r.questions.Some? {
      var now := DefinitionsAt(Synced(rows, xpath, r, mint).rows, xpath);
      SyncAbsorbs(rows, xpath, r, mint);
      WritesTheSameAgain(r.questions.value, DefinitionsAt(rows, xpath), r.merge, mint, now, mint');
      SetResolvedAgain(r.questions.value, DefinitionsAt(rows, xpath), r.merge, mint, now, mint');
    }
  }

  /** Why the set must not ask the same thing twice: stored side by side, two alike questions without known uuids
      are both taken for the first of them, so the second does not keep its uuid. */
  lemma AlikeQuestionsCollapse(q: Question, p: Question, now: seq<Question>)
    requires Alike(q, p) && LastWithUuid(now, q.uuid).None? && LastWithUuid(now, p.uuid).None?
    ensures MatchExisting(q, now) == MatchExisting(p, now)
    ensures FirstAlike(q, now).Some? ==> LocalQuestion(q, now, 1).uuid == LocalQuestion(p, now, 2).uuid
  {
    AlikeFirst(q, p, now);
  }

  lemma {:induction false} AlikeFirst(q: Question, p: Question, now: seq<Question>)
    requires Alike(q, p)
    ensures FirstAlike(q, now) == FirstAlike(p, now)
  {
    if now != [] {
      AlikeFirst(q, p, now[1..]);
    }
  }

  lemma BasesDistinctIff(languages: seq<string>)
    ensures DistinctIdentities(Bases(languages)) <==> NamedBases(languages) && DistinctBases(languages)
  {
    var params := Bases(languages);
    forall i | 0 <= i < |languages|
      ensures IdentityOf(params[i]) == if Base(languages[i]) == "" then Anonymous else ByLanguage(Base(languages[i])) {
    }
    if DistinctIdentities(params) {
      forall i, j | 0 <= i < j < |languages| ensures Base(languages[i]) != Base(languages[j]) {
        assert IdentityOf(params[i]) != IdentityOf(params[j]);
      }
    }
  }

  /** Targets are stored on a new row just as they are sent, so the row lists no language twice
      exactly when no two targets share a base. */
  lemma NewTargetsDistinctIff(rows: seq<Row>, xpath: string, r: Request, mint: Uuid)
    requires UniqueRows(rows) && r.targets.Some? && !HasRow(rows, xpath, Translation) && Synced(rows, xpath, r, mint).ok
    ensures var stored := Stored(Synced(rows, xpath, r, mint).rows, xpath, Translation);
            stored == Bases(r.targets.value) &&
              (DistinctIdentities(stored) <==> NamedBases(r.targets.value) && DistinctBases(r.targets.value))
  {
    var existing := DefinitionsAt(rows, xpath);
    var ws, i := Writes(existing, r, mint), if r.language != "" then 1 else 0;
    WritesApart(existing, r, mint);
    assert ws[i] == Send(Translation, Bases(r.targets.value));
    SuccessHolds(rows, rows, xpath, ws, i);
    NothingStored(rows, xpath, Translation);
    MergeIntoNothing(Bases(r.targets.value));
    BasesDistinctIff(r.targets.value);
  }
}
