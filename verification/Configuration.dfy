/** What applying configurations does over time: nothing is lost, recordings stay apart, re-applying changes nothing,
    and what is written is what the pipeline's theorems ask of a form. */
module Configuration {
  import opened Versions
  import opened Languages
  import opened Features
  import opened Merging
  import opened Sync
  import opened Plans

  // ---- nothing is lost ----------------------------------------------------------------

  lemma {:induction false} CarriedKeeps(known: seq<Row>, rows: seq<Row>, xpath: string, ws: seq<Write>)
    ensures Keeps(rows, Carried(known, rows, xpath, ws).rows)
    decreases |ws|
  {
    if ws != [] && ws[0].Send? {
      var r := PutRow(known, rows, xpath, ws[0].action, ws[0].params);
      if r.Some? {
        PutKeeps(known, rows, xpath, ws[0].action, ws[0].params);
        CarriedKeeps(known, r.value, xpath, ws[1..]);
        KeepsOn(rows, r.value, Carried(known, r.value, xpath, ws[1..]).rows);
      }
    }
  }

  datatype Edit = Edit(xpath: string, request: Request, mint: Uuid)

  /** Any number of applications to any recordings, each over the rows the one before left; a refused one is not
      undone. */
  function AllSynced(rows: seq<Row>, edits: seq<Edit>): seq<Row> {
    if edits == [] then rows
    else
      var before, e := AllSynced(rows, Front(edits)), Last(edits);
      Synced(before, e.xpath, e.request, e.mint).rows
  }

  /** Over any sequence of applications, successful or not, no row and no stored parameter identity is lost or moved. */
  lemma {:induction false} NothingIsLost(rows: seq<Row>, edits: seq<Edit>)
    ensures Keeps(rows, AllSynced(rows, edits))
  {
    if edits != [] {
      var before, e := AllSynced(rows, Front(edits)), Last(edits);
      NothingIsLost(rows, Front(edits));
      CarriedKeeps(before, before, e.xpath, Writes(DefinitionsAt(before, e.xpath), e.request, e.mint));
      KeepsOn(rows, before, AllSynced(rows, edits));
    }
  }

  // ---- what a recording has is what its rows hold -----------------------------------------

  lemma LookupPut<V>(d: seq<Entry<V>>, xpath: string, value: V, x: string)
    ensures Lookup(Put(d, xpath, value), x) == if x == xpath then Some(value) else Lookup(d, x)
  {
    if Lookup(d, xpath).None? {
      LookupAppend(d, Entry(xpath, value), x);
    } else {
      LookupReplace(d, xpath, value, x);
    }
  }

  lemma {:induction false} LookupAppend<V>(d: seq<Entry<V>>, e: Entry<V>, x: string)
    ensures Lookup(d + [e], x) == if Lookup(d, x).Some? then Lookup(d, x) else if e.xpath == x then Some(e.value)
            else None
  {
    if d == [] {
      assert d + [e] == [e];
    } else {
      assert (d + [e])[1..] == d[1..] + [e];
      LookupAppend(d[1..], e, x);
    }
  }

  function Replaced<V>(d: seq<Entry<V>>, xpath: string, value: V): seq<Entry<V>> {
    seq(|d|, i requires 0 <= i < |d| => if d[i].xpath == xpath then Entry(xpath, value) else d[i])
  }

  lemma {:induction false} LookupReplace<V>(d: seq<Entry<V>>, xpath: string, value: V, x: string)
    ensures Lookup(Replaced(d, xpath, value), x) == if x == xpath && Lookup(d, x).Some? then Some(value)
            else Lookup(d, x)
  {
    if d != [] {
      assert Replaced(d, xpath, value)[1..] == Replaced(d[1..], xpath, value);
      LookupReplace(d[1..], xpath, value, x);
    }
  }

  lemma UniqueInFront(rows: seq<Row>)
    requires UniqueRows(rows) && rows != []
    ensures UniqueRows(Front(rows)) && Last(rows) in rows && !HasRow(Front(rows), Last(rows).xpath, Last(rows).action)
  {
    var n := |rows| - 1;
    forall row | row in Front(rows)
      ensures row in rows && (row.xpath != rows[n].xpath || row.action != rows[n].action) {
      var i :| 0 <= i < n && rows[i] == row;
    }
  }

  lemma StoredInFront(rows: seq<Row>, x: string, a: Action)
    requires UniqueRows(rows) && rows != []
    ensures UniqueRows(Front(rows))
    ensures if Last(rows).xpath == x && Last(rows).action == a
            then Stored(rows, x, a) == Last(rows).params && Stored(Front(rows), x, a) == []
            else Stored(rows, x, a) == Stored(Front(rows), x, a)
  {
    UniqueInFront(rows);
    if Last(rows).xpath == x && Last(rows).action == a {
      StoredAt(rows, |rows| - 1);
      NothingStored(Front(rows), x, a);
    } else {
      FrontOrElse(rows);
      StoredElsewhere(Front(rows), rows, x, a);
    }
  }

  lemma FrontOrElse(rows: seq<Row>)
    requires rows != []
    ensures forall row: Row | row != Last(rows) :: row in Front(rows) <==> row in rows
  {
    assert rows == Front(rows) + [Last(rows)];
  }

  /** With one row a recording and action, the grouping reads off what each row holds. */
  lemma {:induction false} GroupedReadsRows(rows: seq<Row>, x: string)
    requires UniqueRows(rows)
    ensures var f := Grouped(rows);
            && ListAt(f.definitions, x) == QuestionsIn(Stored(rows, x, QualDefinitions))
            && ListAt(f.translate, x) == LanguagesIn(Stored(rows, x, Translation))
            && ListAt(f.qual, x) == UuidsIn(Stored(rows, x, AutoQual))
            && Lookup(f.transcribe, x) == NewestOf(Stored(rows, x, Transcription))
  {
    if rows != [] {
      var front, row := Front(rows), Last(rows);
      StoredInFront(rows, x, row.action);
      GroupedReadsRows(front, x);
      StoredInFront(rows, x, QualDefinitions);
      StoredInFront(rows, x, Translation);
      StoredInFront(rows, x, AutoQual);
      StoredInFront(rows, x, Transcription);
      AbsorbReads(Grouped(front), row, x);
      assert row in rows;
    }
  }

  /** Of several audio languages the newest applies. */
  function NewestOf(params: seq<Param>): Option<string> {
    var langs := LanguagesIn(params);
    if langs == [] then None else Some(Last(langs))
  }

  /** What a row adds to a list grouped under x. */
  function Added<T>(list: seq<T>, row: Row, x: string, action: Action, more: seq<T>): seq<T> {
    if row.xpath == x && row.action == action then list + more else list
  }

  lemma ExtendReads<T>(d: seq<Entry<seq<T>>>, xpath: string, more: seq<T>, x: string)
    ensures ListAt(Put(d, xpath, ListAt(d, xpath) + more), x) == if x == xpath then ListAt(d, x) + more
            else ListAt(d, x)
  {
    LookupPut(d, xpath, ListAt(d, xpath) + more, x);
  }

  lemma AbsorbReads(f: Features, row: Row, x: string)
    requires row.xpath != ""
    ensures var g := Absorb(f, row);
            && ListAt(g.definitions, x) ==
               Added(ListAt(f.definitions, x), row, x, QualDefinitions, QuestionsIn(row.params))
            && ListAt(g.translate, x) == Added(ListAt(f.translate, x), row, x, Translation, LanguagesIn(row.params))
            && ListAt(g.qual, x) == Added(ListAt(f.qual, x), row, x, AutoQual, UuidsIn(row.params))
            && Lookup(g.transcribe, x) ==
               (if row.xpath == x && row.action == Transcription && NewestOf(row.params).Some? then NewestOf(row.params)
                                           else Lookup(f.transcribe, x))
  {
    match row.action
    case QualDefinitions => ExtendReads(f.definitions, row.xpath, QuestionsIn(row.params), x);
    case Translation => ExtendReads(f.translate, row.xpath, LanguagesIn(row.params), x);
    case AutoQual => ExtendReads(f.qual, row.xpath, UuidsIn(row.params), x);
    case Transcription =>
      if LanguagesIn(row.params) != [] {
        LookupPut(f.transcribe, row.xpath, Last(LanguagesIn(row.params)), x);
      }
    case OtherAction(_) =>
  }

  /** The older audio languages of a recording are kept beside the newest. */
  lemma {:induction false} SupersededAre(rows: seq<Row>, x: string)
    requires UniqueRows(rows)
    ensures var languages := LanguagesIn(Stored(rows, x, Transcription));
            Lookup(Grouped(rows).superseded, x) == if |languages| > 1 then Some(Front(languages)) else None
  {
    if rows != [] {
      var front, row := Front(rows), Last(rows);
      SupersededAre(front, x);
      StoredInFront(rows, x, Transcription);
      assert row in rows;
      if row.action == Transcription && |LanguagesIn(row.params)| > 1 {
        LookupPut(Grouped(front).superseded, row.xpath, Front(LanguagesIn(row.params)), x);
      }
    }
  }

  // ---- tidy rows --------------------------------------------------------------------------

  predicate DistinctIdentities(params: seq<Param>) {
    (forall i | 0 <= i < |params| :: IdentityOf(params[i]) != Anonymous) &&
    forall i, j | 0 <= i < j < |params| :: IdentityOf(params[i]) != IdentityOf(params[j])
  }

  predicate FitsAction(action: Action, p: Param) {
    match action
    case Transcription => p.Lang? && Bare(p.language)
    case Translation => p.Lang? && Bare(p.language)
    case AutoQual => p.Auto?
    case QualDefinitions => p.Def?
    case OtherAction(_) => true
  }

  /** Parameters of the right kind, bare languages, and nothing listed twice. */
  predicate TidyParams(action: Action, params: seq<Param>) {
    DistinctIdentities(params) && forall i | 0 <= i < |params| :: FitsAction(action, params[i])
  }

  predicate TidyRows(rows: seq<Row>) {
    UniqueRows(rows) && forall i | 0 <= i < |rows| :: TidyParams(rows[i].action, rows[i].params)
  }

  lemma DistinctIsConsistent(params: seq<Param>)
    requires DistinctIdentities(params)
    ensures Consistent(params)
  {
    forall p, q | p in params && q in params && IdentityOf(p) == IdentityOf(q) ensures p == q {
      var i :| 0 <= i < |params| && params[i] == p;
      var j :| 0 <= j < |params| && params[j] == q;
      assert i == j;
    }
  }

  lemma TidyFront(action: Action, params: seq<Param>)
    requires TidyParams(action, params) && params != []
    ensures TidyParams(action, Front(params)) && IdentityOf(Last(params)) != Anonymous &&
            FitsAction(action, Last(params))
    ensures forall k | 0 <= k < |params| - 1 :: IdentityOf(params[k]) != IdentityOf(Last(params))
  {
  }

  lemma IdentityOfMember(params: seq<Param>, id: Identity, p: Param)
    requires p in params && forall k | 0 <= k < |params| :: IdentityOf(params[k]) != id
    ensures IdentityOf(p) != id
  {
  }

  lemma OverwriteTidy(action: Action, params: seq<Param>, place: nat, p: Param)
    requires TidyParams(action, params) && FitsAction(action, p) && place < |params| &&
             IdentityOf(params[place]) == IdentityOf(p)
    ensures TidyParams(action, params[place := p])
  {
  }

  lemma AppendTidy(action: Action, params: seq<Param>, p: Param)
    requires TidyParams(action, params) && FitsAction(action, p) && IdentityOf(p) != Anonymous
    requires forall k | 0 <= k < |params| :: IdentityOf(params[k]) != IdentityOf(p)
    ensures TidyParams(action, params + [p])
  {
  }

  lemma NewIdentity(existing: seq<Param>, incoming: seq<Param>, id: Identity, k: nat)
    requires PlaceOf(existing, id).None? && id != Anonymous && k < |Merged(existing, incoming)|
    requires forall i | 0 <= i < |incoming| :: IdentityOf(incoming[i]) != id
    ensures IdentityOf(Merged(existing, incoming)[k]) != id
  {
    if k >= |existing| {
      MergeHolds(existing, incoming, k);
      IdentityOfMember(incoming, id, Merged(existing, incoming)[k]);
    }
  }

  lemma {:induction false} MergedTidy(action: Action, existing: seq<Param>, incoming: seq<Param>)
    requires TidyParams(action, existing) && TidyParams(action, incoming)
    ensures TidyParams(action, Merged(existing, incoming))
  {
    if incoming != [] {
      var before, p := Merged(existing, Front(incoming)), Last(incoming);
      TidyFront(action, incoming);
      MergedTidy(action, existing, Front(incoming));
      var place := PlaceOf(existing, IdentityOf(p));
      if place.Some? {
        OverwriteTidy(action, before, place.value, p);
      } else {
        forall k | 0 <= k < |before| ensures IdentityOf(before[k]) != IdentityOf(p) {
          NewIdentity(existing, Front(incoming), IdentityOf(p), k);
        }
        AppendTidy(action, before, p);
      }
    }
  }

  // ---- what the pipeline asks of a form ------------------------------------------------------

  lemma {:induction false} TidyLanguages(action: Action, params: seq<Param>)
    requires TidyParams(action, params) && (action == Transcription || action == Translation)
    ensures |LanguagesIn(params)| == |params| &&
            forall i | 0 <= i < |params| :: params[i] == Lang(LanguagesIn(params)[i])
  {
    if params != [] {
      assert TidyParams(action, params[1..]);
      assert IdentityOf(params[0]) != Anonymous && FitsAction(action, params[0]);
      TidyLanguages(action, params[1..]);
    }
  }

  lemma {:induction false} TidyUuids(params: seq<Param>)
    requires TidyParams(AutoQual, params)
    ensures |UuidsIn(params)| == |params| && forall i | 0 <= i < |params| :: params[i] == Auto(UuidsIn(params)[i])
  {
    if params != [] {
      assert TidyParams(AutoQual, params[1..]);
      assert IdentityOf(params[0]) != Anonymous && FitsAction(AutoQual, params[0]);
      TidyUuids(params[1..]);
    }
  }

  lemma {:induction false} TidyQuestions(params: seq<Param>)
    requires TidyParams(QualDefinitions, params)
    ensures |QuestionsIn(params)| == |params| &&
            forall i | 0 <= i < |params| :: params[i] == Def(QuestionsIn(params)[i])
  {
    if params != [] {
      assert TidyParams(QualDefinitions, params[1..]);
      assert IdentityOf(params[0]) != Anonymous && FitsAction(QualDefinitions, params[0]);
      TidyQuestions(params[1..]);
    }
  }

  lemma TidyStored(rows: seq<Row>, x: string, a: Action)
    requires TidyRows(rows)
    ensures TidyParams(a, Stored(rows, x, a))
  {
    if HasRow(rows, x, a) {
      var row :| row in rows && row.xpath == x && row.action == a;
      var i :| 0 <= i < |rows| && rows[i] == row;
      StoredAt(rows, i);
    } else {
      NothingStored(rows, x, a);
    }
  }

  lemma TidyTargets(rows: seq<Row>, e: Entry<seq<string>>)
    requires TidyRows(rows) && e in Grouped(rows).translate && DistinctKeys(Grouped(rows).translate)
    ensures Distinct(e.value) && forall l | l in e.value :: Bare(l)
  {
    var params := Stored(rows, e.xpath, Translation);
    GroupedReadsRows(rows, e.xpath);
    LookupIs(Grouped(rows).translate, e);
    TidyStored(rows, e.xpath, Translation);
    TidyLanguages(Translation, params);
    assert e.value == LanguagesIn(params);
    forall i, j | 0 <= i < j < |e.value| ensures e.value[i] != e.value[j] {
      assert IdentityOf(params[i]) != IdentityOf(params[j]);
    }
    forall l | l in e.value ensures Bare(l) {
      var i :| 0 <= i < |e.value| && e.value[i] == l;
      assert FitsAction(Translation, params[i]);
    }
  }

  lemma TidyAnswers(rows: seq<Row>, e: Entry<seq<Uuid>>)
    requires TidyRows(rows) && e in Grouped(rows).qual && DistinctKeys(Grouped(rows).qual)
    ensures Distinct(e.value)
  {
    var params := Stored(rows, e.xpath, AutoQual);
    GroupedReadsRows(rows, e.xpath);
    LookupIs(Grouped(rows).qual, e);
    TidyStored(rows, e.xpath, AutoQual);
    TidyUuids(params);
    assert e.value == UuidsIn(params);
    forall i, j | 0 <= i < j < |e.value| ensures e.value[i] != e.value[j] {
      assert IdentityOf(params[i]) != IdentityOf(params[j]);
    }
  }

  lemma TidyAudio(rows: seq<Row>, e: Entry<string>)
    requires TidyRows(rows) && e in Grouped(rows).transcribe && DistinctKeys(Grouped(rows).transcribe)
    ensures Bare(e.value)
  {
    var params := Stored(rows, e.xpath, Transcription);
    GroupedReadsRows(rows, e.xpath);
    LookupIs(Grouped(rows).transcribe, e);
    TidyStored(rows, e.xpath, Transcription);
    TidyLanguages(Transcription, params);
    assert FitsAction(Transcription, params[|params| - 1]);
  }

  /** Tidy rows are grouped into the well-formed features that the theorems about runs assume. */
  lemma TidyIsWellFormed(rows: seq<Row>)
    requires TidyRows(rows)
    ensures WellFormed(Grouped(rows))
  {
    GroupingIsFaithful(rows);
    var f := Grouped(rows);
    forall e | e in f.transcribe ensures Bare(e.value) {
      TidyAudio(rows, e);
    }
    forall e | e in f.translate ensures Distinct(e.value) && forall l | l in e.value :: Bare(l) {
      TidyTargets(rows, e);
    }
    forall e | e in f.qual ensures Distinct(e.value) {
      TidyAnswers(rows, e);
    }
  }
}