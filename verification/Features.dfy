/** What the server has configured for a form: the advanced-features rows, grouped by recording. */
module Features {
  import opened Versions
  import opened Languages

  /** 0 stands for an absent or empty uuid. */
  type Uuid = nat

  datatype Action = Transcription | Translation | AutoQual | QualDefinitions | OtherAction(name: string)

  datatype Choice = Choice(uuid: Uuid, labels: string, hint: string)

  datatype Question = Question(uuid: Uuid, kind: string, labels: string, hint: string, choices: seq<Choice>)

  datatype Param = Lang(language: string) | Auto(uuid: Uuid) | Def(question: Question)

  /** uid 0 stands for a row without one. */
  datatype Row = Row(uid: nat, xpath: string, action: Action, params: seq<Param>)

  const CHOICE_TYPES := {"qualSelectOne", "qualSelectMultiple"}
  const QUAL_TYPES := CHOICE_TYPES + {"qualText", "qualInteger", "qualTags", "qualNote", "qualAutoKeywordCount"}
  const AUTO_QUAL_TYPES := CHOICE_TYPES + {"qualText", "qualInteger"}

  // ---- dictionaries in insertion order ---------------------------------------

  datatype Entry<+V> = Entry(xpath: string, value: V)

  function Lookup<V>(d: seq<Entry<V>>, xpath: string): (r: Option<V>)
    ensures r.Some? ==> Entry(xpath, r.value) in d
    ensures r.None? <==> forall e | e in d :: e.xpath != xpath
  {
    if d == [] then None
    else if d[0].xpath == xpath then Some(d[0].value)
    else Lookup(d[1..], xpath)
  }

  /** Assigning to a key keeps its place; a new key goes last. */
  function Put<V>(d: seq<Entry<V>>, xpath: string, value: V): seq<Entry<V>> {
    if Lookup(d, xpath).None? then d + [Entry(xpath, value)]
    else seq(|d|, i requires 0 <= i < |d| => if d[i].xpath == xpath then Entry(xpath, value) else d[i])
  }

  predicate DistinctKeys<V>(d: seq<Entry<V>>) {
    forall i, j | 0 <= i < j < |d| :: d[i].xpath != d[j].xpath
  }

  predicate Distinct<T(==)>(s: seq<T>) {
    forall i, j | 0 <= i < j < |s| :: s[i] != s[j]
  }

  lemma PutMembers<V>(d: seq<Entry<V>>, xpath: string, value: V)
    requires DistinctKeys(d)
    ensures DistinctKeys(Put(d, xpath, value))
    ensures forall e :: e in Put(d, xpath, value) <==> e == Entry(xpath, value) || (e in d && e.xpath != xpath)
  {
    var r := Put(d, xpath, value);
    if Lookup(d, xpath).Some? {
      var i :| 0 <= i < |d| && d[i] == Entry(xpath, Lookup(d, xpath).value);
      assert r[i] == Entry(xpath, value);
      forall e | e in d && e.xpath != xpath ensures e in r {
        var j :| 0 <= j < |d| && d[j] == e;
        assert r[j] == e;
      }
    }
  }

  lemma {:induction false} LookupIs<V>(d: seq<Entry<V>>, e: Entry<V>)
    requires DistinctKeys(d) && e in d
    ensures Lookup(d, e.xpath) == Some(e.value)
  {
    if d[0] != e {
      assert e in d[1..];
      LookupIs(d[1..], e);
      var i :| 0 < i < |d| && d[i] == e;
      assert d[0].xpath != d[i].xpath;
    }
  }

  // ---- grouping rows -----------------------------------------------------------

  datatype Features = Features(
    transcribe: seq<Entry<string>>,
    superseded: seq<Entry<seq<string>>>,
    translate: seq<Entry<seq<string>>>,
    qual: seq<Entry<seq<Uuid>>>,
    definitions: seq<Entry<seq<Question>>>)

  const NO_FEATURES := Features([], [], [], [], [])

  function LanguagesIn(params: seq<Param>): (r: seq<string>)
    ensures forall l | l in r :: l != "" && Lang(l) in params
  {
    if params == [] then []
    else if params[0].Lang? && params[0].language != "" then [params[0].language] + LanguagesIn(params[1..])
    else LanguagesIn(params[1..])
  }

  function UuidsIn(params: seq<Param>): (r: seq<Uuid>)
    ensures forall u | u in r :: u != 0 && Auto(u) in params
  {
    if params == [] then []
    else if params[0].Auto? && params[0].uuid != 0 then [params[0].uuid] + UuidsIn(params[1..])
    else UuidsIn(params[1..])
  }

  function QuestionsIn(params: seq<Param>): (r: seq<Question>)
    ensures forall q | q in r :: q.uuid != 0 && Def(q) in params
  {
    if params == [] then []
    else if params[0].Def? && params[0].question.uuid != 0 then [params[0].question] + QuestionsIn(params[1..])
    else QuestionsIn(params[1..])
  }

  function ListAt<T>(d: seq<Entry<seq<T>>>, xpath: string): seq<T> {
    match Lookup(d, xpath) case None => [] case Some(list) => list
  }

  /** One row added to the grouping. The newest audio language wins; the lists extend. */
  function Absorb(f: Features, row: Row): Features {
    if row.xpath == "" then f else
      match row.action
      case Transcription =>
        var langs := LanguagesIn(row.params);
        if langs == [] then f else
          var g := f.(transcribe := Put(f.transcribe, row.xpath, Last(langs)));
          if |langs| > 1 then g.(superseded := Put(f.superseded, row.xpath, Front(langs))) else g
      case Translation =>
        f.(translate := Put(f.translate, row.xpath, ListAt(f.translate, row.xpath) + LanguagesIn(row.params)))
      case AutoQual =>
        f.(qual := Put(f.qual, row.xpath, ListAt(f.qual, row.xpath) + UuidsIn(row.params)))
      case QualDefinitions =>
        f.(definitions := Put(f.definitions, row.xpath, ListAt(f.definitions, row.xpath) + QuestionsIn(row.params)))
      case OtherAction(_) => f
  }

  function Grouped(rows: seq<Row>): Features {
    if rows == [] then NO_FEATURES else Absorb(Grouped(Front(rows)), Last(rows))
  }

  /** Some row for this recording and action carries the parameter. */
  predicate Listed(rows: seq<Row>, xpath: string, action: Action, p: Param) {
    exists row | row in rows :: row.xpath == xpath && row.action == action && p in row.params
  }

  ghost predicate ListedTarget(rows: seq<Row>, xpath: string, language: string) {
    language != "" && Listed(rows, xpath, Translation, Lang(language))
  }

  ghost predicate ListedAuto(rows: seq<Row>, xpath: string, uuid: Uuid) {
    uuid != 0 && Listed(rows, xpath, AutoQual, Auto(uuid))
  }

  ghost predicate ListedQuestion(rows: seq<Row>, xpath: string, q: Question) {
    q.uuid != 0 && Listed(rows, xpath, QualDefinitions, Def(q))
  }

  ghost predicate GroupsOnly(f: Features, rows: seq<Row>) {
    && (forall e | e in f.transcribe :: e.value != "" && Listed(rows, e.xpath, Transcription, Lang(e.value)))
    && (forall e, l | e in f.translate && l in e.value :: ListedTarget(rows, e.xpath, l))
    && (forall e, u | e in f.qual && u in e.value :: ListedAuto(rows, e.xpath, u))
    && (forall e, q | e in f.definitions && q in e.value :: ListedQuestion(rows, e.xpath, q))
  }

  predicate KeysDistinct(f: Features) {
    DistinctKeys(f.transcribe) && DistinctKeys(f.translate) && DistinctKeys(f.qual) && DistinctKeys(f.definitions) &&
    DistinctKeys(f.superseded)
  }

  lemma ListedGrows(rows: seq<Row>, more: seq<Row>)
    ensures forall x, a, p :: Listed(rows, x, a, p) ==> Listed(rows + more, x, a, p)
  {
    forall x, a, p | Listed(rows, x, a, p) ensures Listed(rows + more, x, a, p) {
      var row :| row in rows && row.xpath == x && row.action == a && p in row.params;
      assert row in rows + more;
    }
  }

  /** Everything the grouping names is on a row for that recording, and no recording appears twice. */
  lemma {:induction false} GroupingIsFaithful(rows: seq<Row>)
    ensures KeysDistinct(Grouped(rows)) && GroupsOnly(Grouped(rows), rows)
  {
    if rows != [] {
      var f, row := Grouped(Front(rows)), Last(rows);
      GroupingIsFaithful(Front(rows));
      ListedGrows(Front(rows), [row]);
      assert rows == Front(rows) + [row];
      assert GroupsOnly(f, rows);
      AbsorbIsFaithful(f, rows, row);
    }
  }

  lemma AbsorbIsFaithful(f: Features, rows: seq<Row>, row: Row)
    requires KeysDistinct(f) && GroupsOnly(f, rows) && row in rows
    ensures KeysDistinct(Absorb(f, row)) && GroupsOnly(Absorb(f, row), rows)
  {
    match row.action
    case Transcription => AbsorbTranscription(f, rows, row);
    case Translation => AbsorbTranslation(f, rows, row);
    case AutoQual => AbsorbAutoQual(f, rows, row);
    case QualDefinitions => AbsorbDefinitions(f, rows, row);
    case OtherAction(_) =>
  }

  lemma NewestIsFaithful(f: Features, rows: seq<Row>, row: Row, language: string)
    requires KeysDistinct(f) && GroupsOnly(f, rows) && row in rows && row.action == Transcription
    requires language != "" && Lang(language) in row.params
    ensures var g := f.(transcribe := Put(f.transcribe, row.xpath, language)); KeysDistinct(g) && GroupsOnly(g, rows)
  {
    PutMembers(f.transcribe, row.xpath, language);
    assert Listed(rows, row.xpath, Transcription, Lang(language));
  }

  lemma OlderAreFaithful(f: Features, rows: seq<Row>, xpath: string, older: seq<string>)
    requires KeysDistinct(f) && GroupsOnly(f, rows)
    ensures var g := f.(superseded := Put(f.superseded, xpath, older)); KeysDistinct(g) && GroupsOnly(g, rows)
  {
    PutMembers(f.superseded, xpath, older);
  }

  lemma AbsorbTranscription(f: Features, rows: seq<Row>, row: Row)
    requires KeysDistinct(f) && GroupsOnly(f, rows) && row in rows && row.action == Transcription
    ensures KeysDistinct(Absorb(f, row)) && GroupsOnly(Absorb(f, row), rows)
  {
    var langs := LanguagesIn(row.params);
    if langs != [] && row.xpath != "" {
      assert Last(langs) in langs;
      NewestIsFaithful(f, rows, row, Last(langs));
      OlderAreFaithful(f.(transcribe := Put(f.transcribe, row.xpath, Last(langs))), rows, row.xpath, Front(langs));
    }
  }

  lemma AbsorbTranslation(f: Features, rows: seq<Row>, row: Row)
    requires KeysDistinct(f) && GroupsOnly(f, rows) && row in rows && row.action == Translation
    ensures KeysDistinct(Absorb(f, row)) && GroupsOnly(Absorb(f, row), rows)
  {
    ExtendIsFaithful(f.translate, row.xpath, LanguagesIn(row.params), (x, l) => ListedTarget(rows, x, l));
  }

  lemma AbsorbAutoQual(f: Features, rows: seq<Row>, row: Row)
    requires KeysDistinct(f) && GroupsOnly(f, rows) && row in rows && row.action == AutoQual
    ensures KeysDistinct(Absorb(f, row)) && GroupsOnly(Absorb(f, row), rows)
  {
    ExtendIsFaithful(f.qual, row.xpath, UuidsIn(row.params), (x, u) => ListedAuto(rows, x, u));
  }

  lemma AbsorbDefinitions(f: Features, rows: seq<Row>, row: Row)
    requires KeysDistinct(f) && GroupsOnly(f, rows) && row in rows && row.action == QualDefinitions
    ensures KeysDistinct(Absorb(f, row)) && GroupsOnly(Absorb(f, row), rows)
  {
    ExtendIsFaithful(f.definitions, row.xpath, QuestionsIn(row.params), (x, q) => ListedQuestion(rows, x, q));
  }

  lemma ExtendIsFaithful<T>(d: seq<Entry<seq<T>>>, xpath: string, more: seq<T>, ok: (string, T) -> bool)
    requires DistinctKeys(d)
    requires forall e, x | e in d && x in e.value :: ok(e.xpath, x)
    requires forall x | x in more :: ok(xpath, x)
    ensures var r := Put(d, xpath, ListAt(d, xpath) + more);
            DistinctKeys(r) && forall e, x | e in r && x in e.value :: ok(e.xpath, x)
  {
    PutMembers(d, xpath, ListAt(d, xpath) + more);
    var r := Put(d, xpath, ListAt(d, xpath) + more);
    forall e, x | e in r && x in e.value ensures ok(e.xpath, x) {
      if e.xpath == xpath && x !in more {
        assert x in ListAt(d, xpath);
      }
    }
  }

  // ---- questions the model can answer --------------------------------------------

  function KindOf(defs: seq<Question>, uuid: Uuid): (kind: Option<string>)
    ensures kind.Some? ==> exists q | q in defs :: q.uuid == uuid && q.kind == kind.value
    ensures kind.None? ==> forall q | q in defs :: q.uuid != uuid
  {
    if defs == [] then None
    else if defs[0].uuid == uuid then Some(defs[0].kind)
    else KindOf(defs[1..], uuid)
  }

  function QuestionType(f: Features, xpath: string, uuid: Uuid): Option<string> {
    KindOf(ListAt(f.definitions, xpath), uuid)
  }

  predicate IsAnswerable(f: Features, xpath: string, uuid: Uuid) {
    var kind := QuestionType(f, xpath, uuid);
    kind.Some? && kind.value in AUTO_QUAL_TYPES
  }

  function Answerable(f: Features, xpath: string, uuids: seq<Uuid>): (r: seq<Uuid>)
    ensures forall u :: u in r <==> u in uuids && IsAnswerable(f, xpath, u)
  {
    if uuids == [] then []
    else if IsAnswerable(f, xpath, Last(uuids)) then Answerable(f, xpath, Front(uuids)) + [Last(uuids)]
    else Answerable(f, xpath, Front(uuids))
  }

  lemma {:induction false} AnswerableDistinct(f: Features, xpath: string, uuids: seq<Uuid>)
    requires Distinct(uuids)
    ensures Distinct(Answerable(f, xpath, uuids))
  {
    if uuids != [] {
      AnswerableDistinct(f, xpath, Front(uuids));
      assert Last(uuids) !in Front(uuids);
    }
  }

  /** The questions that can be answered keep their order. */
  lemma {:induction false} AnswerableInTwo(f: Features, xpath: string, a: seq<Uuid>, b: seq<Uuid>)
    ensures Answerable(f, xpath, a + b) == Answerable(f, xpath, a) + Answerable(f, xpath, b)
  {
    if b == [] {
      assert a + b == a;
    } else {
      assert Front(a + b) == a + Front(b) && Last(a + b) == Last(b);
      AnswerableInTwo(f, xpath, a, Front(b));
    }
  }

  class AssetFeatures {
    var rows: seq<Row>
    var transcribe: seq<Entry<string>>
    var superseded: seq<Entry<seq<string>>>
    var translate: seq<Entry<seq<string>>>
    var qual: seq<Entry<seq<Uuid>>>
    var definitions: seq<Entry<seq<Question>>>

    function View(): Features
      reads this
    {
      Features(transcribe, superseded, translate, qual, definitions)
    }

    constructor (rows: seq<Row>)
      ensures this.rows == rows && View() == Grouped(rows)
    {
      this.rows := rows;
      transcribe, superseded, translate, qual, definitions := [], [], [], [], [];
      new;
      for i := 0 to |rows|
        invariant this.rows == rows && View() == Grouped(rows[..i])
      {
        var row := rows[i];
        assert Front(rows[..i + 1]) == rows[..i];
        if row.xpath != "" {
          match row.action
          case Transcription =>
            var langs := LanguagesIn(row.params);
            if langs != [] {
              transcribe := Put(transcribe, row.xpath, Last(langs));
              if |langs| > 1 {
                superseded := Put(superseded, row.xpath, Front(langs));
              }
            }
          case Translation =>
            translate := Put(translate, row.xpath, ListAt(translate, row.xpath) + LanguagesIn(row.params));
          case AutoQual =>
            qual := Put(qual, row.xpath, ListAt(qual, row.xpath) + UuidsIn(row.params));
          case QualDefinitions =>
            definitions := Put(definitions, row.xpath, ListAt(definitions, row.xpath) + QuestionsIn(row.params));
          case OtherAction(_) =>
        }
      }
      assert rows[..|rows|] == rows;
    }
  }

  /** Auto-answer uuids that are defined with a type the model handles; the rest are skipped. */
  method AnswerableQual(f: Features, xpath: string) returns (out: seq<Uuid>)
    ensures out == Answerable(f, xpath, ListAt(f.qual, xpath))
    ensures forall u :: u in out <==> u in ListAt(f.qual, xpath) && IsAnswerable(f, xpath, u)
  {
    var uuids := ListAt(f.qual, xpath);
    out := [];
    for i := 0 to |uuids|
      invariant out == Answerable(f, xpath, uuids[..i])
    {
      assert Front(uuids[..i + 1]) == uuids[..i];
      var kind := QuestionType(f, xpath, uuids[i]);
      if kind.Some? && kind.value in AUTO_QUAL_TYPES {
        out := out + [uuids[i]];
      }
    }
    assert uuids[..|uuids|] == uuids;
  }

  // ---- translation targets ---------------------------------------------------------

  /** A target with the base of a known source language cannot be translated into. */
  predicate SameLanguage(source: string, target: string) {
    Lower(Base(source)) != "" && Lower(Base(target)) == Lower(Base(source))
  }

  /** The same letter, or the other case of it. */
  predicate SameLetter(a: char, b: char) {
    a == b || ('A' <= a <= 'Z' && b as int == a as int + 32) || ('A' <= b <= 'Z' && a as int == b as int + 32)
  }

  lemma LoweredIff(a: char, b: char)
    ensures LowerChar(a) == LowerChar(b) <==> SameLetter(a, b)
  {
  }

  /** Two languages are one exactly when they have a base, and the same base but for the case of its letters. */
  lemma SameLanguageIff(source: string, target: string)
    ensures SameLanguage(source, target) <==>
            var a, b := Base(source), Base(target);
            a != "" && |a| == |b| && forall i | 0 <= i < |a| :: SameLetter(a[i], b[i])
  {
    var a, b := Base(source), Base(target);
    forall i | 0 <= i < |a| && i < |b| ensures Lower(a)[i] == Lower(b)[i] <==> SameLetter(a[i], b[i]) {
      LoweredIff(a[i], b[i]);
    }
    if Lower(a) == Lower(b) {
      assert |a| == |b|;
      assert forall i | 0 <= i < |a| :: Lower(a)[i] == Lower(b)[i];
    }
  }

  function Usable(source: string, targets: seq<string>): (keep: seq<string>)
    ensures forall t :: t in keep <==> t in targets && !SameLanguage(source, t)
  {
    if targets == [] then []
    else if SameLanguage(source, Last(targets)) then Usable(source, Front(targets))
    else Usable(source, Front(targets)) + [Last(targets)]
  }

  /** The targets that can be used keep their order. */
  lemma {:induction false} UsableInTwo(source: string, a: seq<string>, b: seq<string>)
    ensures Usable(source, a + b) == Usable(source, a) + Usable(source, b)
  {
    if b == [] {
      assert a + b == a;
    } else {
      assert Front(a + b) == a + Front(b) && Last(a + b) == Last(b);
      UsableInTwo(source, a, Front(b));
    }
  }

  function Impossible(source: string, targets: seq<string>): (same: seq<string>)
    ensures forall t :: t in same <==> t in targets && SameLanguage(source, t)
  {
    if targets == [] then []
    else if SameLanguage(source, Last(targets)) then Impossible(source, Front(targets)) + [Last(targets)]
    else Impossible(source, Front(targets))
  }

  lemma {:induction false} UsableDistinct(source: string, targets: seq<string>)
    requires Distinct(targets)
    ensures Distinct(Usable(source, targets))
  {
    if targets != [] {
      UsableDistinct(source, Front(targets));
      assert Last(targets) !in Front(targets);
    }
  }

  lemma OneMoreMember<T>(a: seq<T>, b: seq<T>, all: seq<T>, x: T)
    requires multiset(a) + multiset(b) == multiset(all)
    ensures multiset(a + [x]) + multiset(b) == multiset(all + [x])
    ensures multiset(a) + multiset(b + [x]) == multiset(all + [x])
  {
  }

  lemma {:induction false} TargetsAreSplit(source: string, targets: seq<string>)
    ensures multiset(Usable(source, targets)) + multiset(Impossible(source, targets)) == multiset(targets)
  {
    if targets != [] {
      TargetsAreSplit(source, Front(targets));
      OneMoreMember(Usable(source, Front(targets)), Impossible(source, Front(targets)), Front(targets), Last(targets));
      OneMoreMember(Impossible(source, Front(targets)), Usable(source, Front(targets)), Front(targets), Last(targets));
      assert targets == Front(targets) + [Last(targets)];
    }
  }

  method UsableTargets(source: string, targets: seq<string>) returns (keep: seq<string>, same: seq<string>)
    ensures keep == Usable(source, targets) && same == Impossible(source, targets)
    ensures multiset(keep) + multiset(same) == multiset(targets)
    ensures forall t | t in targets :: (t in keep <==> t !in same) && (t in same <==> SameLanguage(source, t))
  {
    var base := Lower(Base(source));
    keep, same := [], [];
    for i := 0 to |targets|
      invariant keep == Usable(source, targets[..i]) && same == Impossible(source, targets[..i])
    {
      assert Front(targets[..i + 1]) == targets[..i];
      if base != "" && Lower(Base(targets[i])) == base {
        same := same + [targets[i]];
      } else {
        keep := keep + [targets[i]];
      }
    }
    assert targets[..|targets|] == targets;
    TargetsAreSplit(source, targets);
  }
}
