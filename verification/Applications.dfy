/** What an application of a configuration leaves on a recording: its languages, its questions, and which of them the
    model answers; and when an application succeeds. */
module Applications {
  import opened Versions
  import opened Languages
  import opened Features
  import opened Merging
  import opened Questions
  import opened Sync
  import opened Configuration
  import opened Reapplication

  /** The types of question the model can answer. */
  predicate IsAnswerableType(kind: string) {
    kind == "qualSelectOne" || kind == "qualSelectMultiple" || kind == "qualText" || kind == "qualInteger"
  }

  predicate IsChoiceType(kind: string) {
    kind == "qualSelectOne" || kind == "qualSelectMultiple"
  }

  predicate IsQuestionType(kind: string) {
    IsAnswerableType(kind) || kind == "qualTags" || kind == "qualNote" || kind == "qualAutoKeywordCount"
  }

  /** The questions an application writes: the set as resolved for the recording and, when it is merged, what the
      recording has beside it. */
  predicate IsWritten(q: Question, questions: seq<Question>, existing: seq<Question>, merge: bool, mint: Uuid) {
    var local := Localised(questions, existing, mint);
    q in local || (merge && q in existing && forall i | 0 <= i < |local| :: local[i].uuid != q.uuid)
  }

  lemma WrittenAreLocal(q: Question, questions: seq<Question>, existing: seq<Question>, merge: bool, mint: Uuid)
    ensures IsWritten(q, questions, existing, merge, mint) <==> q in Local(questions, existing, merge, mint)
  {
    var local := Localised(questions, existing, mint);
    if merge && q in existing {
      assert Names(local, q.uuid) <==> exists i :: 0 <= i < |local| && local[i].uuid == q.uuid;
    }
  }

  // ---- merging a list of unlike parameters ------------------------------------------------------

  /** Its identity is all there is to it. */
  predicate IsPlain(p: Param) {
    !p.Def? && IdentityOf(p) != Anonymous
  }

  predicate AllAuto(params: seq<Param>) {
    forall i | 0 <= i < |params| :: params[i].Auto? && params[i].uuid != 0
  }

  predicate AllLanguages(params: seq<Param>) {
    forall i | 0 <= i < |params| :: params[i].Lang? && params[i].language != ""
  }

  lemma PlaceOfMember(params: seq<Param>, p: Param)
    requires (AllAuto(params) && p.Auto? && p.uuid != 0) || (AllLanguages(params) && p.Lang? && p.language != "")
    ensures PlaceOf(params, IdentityOf(p)).Some? <==> p in params
    ensures PlaceOf(params, IdentityOf(p)).Some? ==> params[PlaceOf(params, IdentityOf(p)).value] == p
  {
    if p in params {
      var i :| 0 <= i < |params| && params[i] == p;
      assert IdentityOf(params[i]) == IdentityOf(p);
    }
  }

  /** Languages and uuids are merged as sets. */
  lemma {:induction false} MergedMembers(existing: seq<Param>, incoming: seq<Param>, p: Param)
    requires (AllAuto(existing) && AllAuto(incoming)) || (AllLanguages(existing) && AllLanguages(incoming))
    ensures p in Merged(existing, incoming) <==> p in existing || p in incoming
    ensures forall k | 0 <= k < |existing| :: Merged(existing, incoming)[k] == existing[k]
  {
    if incoming != [] {
      var last := Last(incoming);
      MergedMembers(existing, Front(incoming), p);
      PlaceOfMember(existing, last);
      FrontAndLast(incoming);
      assert p in incoming <==> p in Front(incoming) || p == last;
      var before, place := Merged(existing, Front(incoming)), PlaceOf(existing, IdentityOf(last));
      if place.Some? {
        assert before[place.value] == last;
        assert before[place.value := last] == before;
      }
    }
  }

  // ---- languages ----------------------------------------------------------------------------------

  /** The language of the audio is added, as its base, to what the recording has. */
  lemma AudioIsSent(rows: seq<Row>, xpath: string, r: Request, mint: Uuid)
    requires UniqueRows(rows) && Synced(rows, xpath, r, mint).ok
    ensures Stored(Synced(rows, xpath, r, mint).rows, xpath, Transcription) ==
            if r.language == "" then Stored(rows, xpath, Transcription)
            else Merged(Stored(rows, xpath, Transcription), [Lang(Base(r.language))])
  {
    var ws := Writes(DefinitionsAt(rows, xpath), r, mint);
    WritesApart(DefinitionsAt(rows, xpath), r, mint);
    if r.language == "" {
      UnsentStays(rows, rows, xpath, ws, xpath, Transcription);
    } else {
      assert ws[0] == Send(Transcription, [Lang(Base(r.language))]);
      SuccessHolds(rows, rows, xpath, ws, 0);
    }
  }

  lemma TargetsAreSent(rows: seq<Row>, xpath: string, r: Request, mint: Uuid)
    requires UniqueRows(rows) && Synced(rows, xpath, r, mint).ok
    ensures Stored(Synced(rows, xpath, r, mint).rows, xpath, Translation) ==
            if r.targets.None? then Stored(rows, xpath, Translation)
            else Merged(Stored(rows, xpath, Translation), Bases(r.targets.value))
  {
    var ws := Writes(DefinitionsAt(rows, xpath), r, mint);
    WritesApart(DefinitionsAt(rows, xpath), r, mint);
    if r.targets.None? {
      UnsentStays(rows, rows, xpath, ws, xpath, Translation);
    } else {
      var i := if r.language == "" then 0 else 1;
      assert ws[i] == Send(Translation, Bases(r.targets.value));
      SuccessHolds(rows, rows, xpath, ws, i);
    }
  }

  lemma BasesAre(languages: seq<string>, l: string)
    requires NamedBases(languages)
    ensures AllLanguages(Bases(languages))
    ensures Lang(l) in Bases(languages) <==> exists t :: t in languages && Base(t) == l
  {
    if t :| t in languages && Base(t) == l {
      var i :| 0 <= i < |languages| && languages[i] == t;
      assert Bases(languages)[i] == Lang(l);
    }
    if Lang(l) in Bases(languages) {
      var i :| 0 <= i < |languages| && Bases(languages)[i] == Lang(l);
      assert languages[i] in languages;
    }
  }

  lemma StoredLanguages(rows: seq<Row>, xpath: string, action: Action)
    requires TidyRows(rows) && (action == Transcription || action == Translation)
    ensures AllLanguages(Stored(rows, xpath, action))
  {
    var params := Stored(rows, xpath, action);
    TidyStored(rows, xpath, action);
    forall i | 0 <= i < |params| ensures params[i].Lang? && params[i].language != "" {
      assert FitsAction(action, params[i]) && IdentityOf(params[i]) != Anonymous;
    }
  }

  lemma OneLanguageMore(stored: seq<Param>, base: string, l: string)
    requires AllLanguages(stored) && base != ""
    ensures Lang(l) in Merged(stored, [Lang(base)]) <==> Lang(l) in stored || l == base
  {
    MergedMembers(stored, [Lang(base)], Lang(l));
  }

  /** After a successful application the recording's audio languages are those it had and the base of the one
      applied. */
  lemma AppliedAudio(rows: seq<Row>, xpath: string, r: Request, mint: Uuid, l: string)
    requires TidyRows(rows) && NamedLanguages(r) && Synced(rows, xpath, r, mint).ok
    ensures Lang(l) in Stored(Synced(rows, xpath, r, mint).rows, xpath, Transcription) <==>
            Lang(l) in Stored(rows, xpath, Transcription) || (r.language != "" && l == Base(r.language))
  {
    AudioIsSent(rows, xpath, r, mint);
    StoredLanguages(rows, xpath, Transcription);
    if r.language != "" {
      OneLanguageMore(Stored(rows, xpath, Transcription), Base(r.language), l);
    }
  }

  /** And its targets are those it had and the bases of those applied. */
  lemma AppliedTargets(rows: seq<Row>, xpath: string, r: Request, mint: Uuid, l: string)
    requires TidyRows(rows) && NamedLanguages(r) && Synced(rows, xpath, r, mint).ok
    ensures Lang(l) in Stored(Synced(rows, xpath, r, mint).rows, xpath, Translation) <==>
            Lang(l) in Stored(rows, xpath, Translation) ||
            (r.targets.Some? && exists t :: t in r.targets.value && Base(t) == l)
  {
    TargetsAreSent(rows, xpath, r, mint);
    StoredLanguages(rows, xpath, Translation);
    if r.targets.Some? {
      BasesAre(r.targets.value, l);
      MergedMembers(Stored(rows, xpath, Translation), Bases(r.targets.value), Lang(l));
    }
  }

  /** A language that the recording did not have becomes the one its audio is transcribed in. */
  lemma NewLanguageApplies(rows: seq<Row>, xpath: string, r: Request, mint: Uuid)
    requires TidyRows(rows) && Synced(rows, xpath, r, mint).ok && Base(r.language) != ""
    requires Lang(Base(r.language)) !in Stored(rows, xpath, Transcription)
    ensures Lookup(Grouped(Synced(rows, xpath, r, mint).rows).transcribe, xpath) == Some(Base(r.language))
  {
    var stored, after := Stored(rows, xpath, Transcription), Synced(rows, xpath, r, mint).rows;
    var base := Lang(Base(r.language));
    AudioIsSent(rows, xpath, r, mint);
    StoredLanguages(rows, xpath, Transcription);
    PlaceOfMember(stored, base);
    assert Front([base]) == [];
    assert Merged(stored, [base]) == stored + [base];
    SyncStaysUnique(rows, xpath, r, mint);
    GroupedReadsRows(after, xpath);
    LastLanguage(stored, Base(r.language));
  }

  lemma SyncStaysUnique(rows: seq<Row>, xpath: string, r: Request, mint: Uuid)
    requires UniqueRows(rows)
    ensures UniqueRows(Synced(rows, xpath, r, mint).rows)
  {
    WritesApart(DefinitionsAt(rows, xpath), r, mint);
    StaysUnique(rows, rows, xpath, Writes(DefinitionsAt(rows, xpath), r, mint));
  }

  lemma {:induction false} LastLanguage(params: seq<Param>, l: string)
    requires l != ""
    ensures LanguagesIn(params + [Lang(l)]) != [] && Last(LanguagesIn(params + [Lang(l)])) == l
  {
    if params == [] {
      assert [Lang(l)][1..] == [];
    } else {
      assert (params + [Lang(l)])[1..] == params[1..] + [Lang(l)];
      LastLanguage(params[1..], l);
    }
  }

  // ---- questions the model is to answer -------------------------------------------------------------

  lemma {:induction false} AutoParamsAre(qs: seq<Question>, u: Uuid)
    ensures AllAuto(AutoParams(qs))
    ensures Auto(u) in AutoParams(qs) <==>
            u != 0 && exists q :: q in qs && q.uuid == u && IsAnswerableType(q.kind)
  {
    if qs != [] {
      AutoParamsAre(Front(qs), u);
      FrontAndLast(qs);
      assert forall q | q in qs :: q in Front(qs) || q == Last(qs);
    }
  }

  lemma TrimmedKeepsType(qs: seq<Question>, u: Uuid)
    ensures (exists q :: q in TrimmedAll(qs) && q.uuid == u && IsAnswerableType(q.kind)) <==>
            (exists q :: q in qs && q.uuid == u && IsAnswerableType(q.kind))
  {
    var trimmed := TrimmedAll(qs);
    if q :| q in trimmed && q.uuid == u && IsAnswerableType(q.kind) {
      var i :| 0 <= i < |trimmed| && trimmed[i] == q;
      assert qs[i] in qs && qs[i].uuid == u;
    }
    if q :| q in qs && q.uuid == u && IsAnswerableType(q.kind) {
      var i :| 0 <= i < |qs| && qs[i] == q;
      assert trimmed[i] in trimmed && trimmed[i].uuid == u;
    }
  }

  lemma AnswersAreSent(rows: seq<Row>, xpath: string, r: Request, mint: Uuid)
    requires UniqueRows(rows) && r.questions.Some? && Synced(rows, xpath, r, mint).ok
    ensures var stored := TrimmedAll(Local(r.questions.value, DefinitionsAt(rows, xpath), r.merge, mint));
            Stored(Synced(rows, xpath, r, mint).rows, xpath, AutoQual) ==
            Merged(Stored(rows, xpath, AutoQual), if r.enableQual then AutoParams(stored) else [])
  {
    var existing := DefinitionsAt(rows, xpath);
    var ws := Writes(existing, r, mint);
    WritesApart(existing, r, mint);
    var i := DefinitionsAreSent(rows, xpath, r, mint);
    assert ws[i + 1] == Send(AutoQual, if r.enableQual
      then AutoParams(TrimmedAll(Local(r.questions.value, existing, r.merge, mint))) else []);
    SuccessHolds(rows, rows, xpath, ws, i + 1);
  }

  lemma StoredAnswers(rows: seq<Row>, xpath: string)
    requires TidyRows(rows)
    ensures AllAuto(Stored(rows, xpath, AutoQual))
  {
    var params := Stored(rows, xpath, AutoQual);
    TidyStored(rows, xpath, AutoQual);
    forall i | 0 <= i < |params| ensures params[i].Auto? && params[i].uuid != 0 {
      assert FitsAction(AutoQual, params[i]) && IdentityOf(params[i]) != Anonymous;
    }
  }

  /** After a successful application the model is to answer what it was to answer before and, if analysis is enabled,
      every question written that has a type it can answer; nothing else. Without analysis the row stays as it was. */
  lemma AppliedAnswers(rows: seq<Row>, xpath: string, r: Request, mint: Uuid, u: Uuid)
    requires TidyRows(rows) && r.questions.Some? && Synced(rows, xpath, r, mint).ok
    ensures var after, existing := Synced(rows, xpath, r, mint).rows, DefinitionsAt(rows, xpath);
            Auto(u) in Stored(after, xpath, AutoQual) <==>
            Auto(u) in Stored(rows, xpath, AutoQual) ||
            (r.enableQual && u != 0 &&
             exists q :: IsWritten(q, r.questions.value, existing, r.merge, mint) && q.uuid == u &&
                         IsAnswerableType(q.kind))
    ensures !r.enableQual ==>
              Stored(Synced(rows, xpath, r, mint).rows, xpath, AutoQual) == Stored(rows, xpath, AutoQual)
  {
    var local := Local(r.questions.value, DefinitionsAt(rows, xpath), r.merge, mint);
    AnswersAreSent(rows, xpath, r, mint);
    StoredAnswers(rows, xpath);
    AutoParamsAre(TrimmedAll(local), u);
    TrimmedKeepsType(local, u);
    forall q ensures IsWritten(q, r.questions.value, DefinitionsAt(rows, xpath), r.merge, mint) <==> q in local {
      WrittenAreLocal(q, r.questions.value, DefinitionsAt(rows, xpath), r.merge, mint);
    }
    MergedMembers(Stored(rows, xpath, AutoQual), if r.enableQual then AutoParams(TrimmedAll(local)) else [], Auto(u));
  }

  lemma {:induction false} ListedUuid(params: seq<Param>, u: Uuid)
    requires u != 0
    ensures u in UuidsIn(params) <==> Auto(u) in params
  {
    if params != [] {
      ListedUuid(params[1..], u);
      assert params == [params[0]] + params[1..];
    }
  }

  lemma {:induction false} OnlyKind(defs: seq<Question>, k: nat)
    requires k < |defs| && DistinctUuids(defs)
    ensures KindOf(defs, defs[k].uuid) == Some(defs[k].kind)
  {
    if k > 0 {
      OnlyKind(defs[1..], k - 1);
    }
  }

  /** What was written is defined, with its type. */
  lemma WrittenIsDefined(rows: seq<Row>, xpath: string, r: Request, mint: Uuid, q: Question)
    requires TidyRows(rows) && r.questions.Some? && ProperQuestions(r, DefinitionsAt(rows, xpath), mint)
    requires Synced(rows, xpath, r, mint).ok
    requires IsWritten(q, r.questions.value, DefinitionsAt(rows, xpath), r.merge, mint)
    ensures q.uuid != 0 && Trimmed(q) in DefinitionsAt(Synced(rows, xpath, r, mint).rows, xpath)
    ensures KindOf(DefinitionsAt(Synced(rows, xpath, r, mint).rows, xpath), q.uuid) == Some(q.kind)
  {
    var existing := DefinitionsAt(rows, xpath);
    var local, now := Local(r.questions.value, existing, r.merge, mint),
      DefinitionsAt(Synced(rows, xpath, r, mint).rows, xpath);
    WrittenAreLocal(q, r.questions.value, existing, r.merge, mint);
    SyncAbsorbs(rows, xpath, r, mint);
    TidyDefinitions(rows, xpath);
    LocalIdentified(r.questions.value, existing, r.merge, mint);
    var i :| 0 <= i < |local| && local[i] == q;
    assert TrimmedAll(local)[i] in TrimmedAll(local) && TrimmedAll(local)[i] == Trimmed(q);
    var k :| 0 <= k < |now| && now[k] == Trimmed(q);
    OnlyKind(now, k);
  }

  lemma DefinedAndListedIsAsked(rows: seq<Row>, xpath: string, u: Uuid)
    requires UniqueRows(rows) && u != 0 && Auto(u) in Stored(rows, xpath, AutoQual)
    requires var kind := KindOf(DefinitionsAt(rows, xpath), u); kind.Some? && IsAnswerableType(kind.value)
    ensures var f := Grouped(rows); u in Answerable(f, xpath, ListAt(f.qual, xpath))
  {
    GroupedReadsRows(rows, xpath);
    ListedUuid(Stored(rows, xpath, AutoQual), u);
  }

  /** With analysis enabled, every question written that has a type the model can answer is one that the pipeline will
      ask. */
  lemma AppliedQuestionsAreAsked(rows: seq<Row>, xpath: string, r: Request, mint: Uuid, q: Question)
    requires TidyRows(rows) && r.questions.Some? && ProperQuestions(r, DefinitionsAt(rows, xpath), mint)
    requires Synced(rows, xpath, r, mint).ok && r.enableQual && IsAnswerableType(q.kind)
    requires IsWritten(q, r.questions.value, DefinitionsAt(rows, xpath), r.merge, mint)
    ensures var f := Grouped(Synced(rows, xpath, r, mint).rows); q.uuid in Answerable(f, xpath, ListAt(f.qual, xpath))
  {
    var after := Synced(rows, xpath, r, mint).rows;
    WrittenIsDefined(rows, xpath, r, mint, q);
    AppliedAnswers(rows, xpath, r, mint, q.uuid);
    SyncStaysUnique(rows, xpath, r, mint);
    DefinedAndListedIsAsked(after, xpath, q.uuid);
  }

  // ---- questions as they are stored ---------------------------------------------------------------

  lemma ChoicesStay(questions: seq<Question>, existing: seq<Question>, mint: Uuid, i: nat)
    requires i < |questions| && mint > 0
    ensures var q := Resolved(questions, existing, mint, i);
            IsChoiceType(q.kind) ==> Trimmed(q) == q
    ensures var q := Resolved(questions, existing, mint, i);
            !IsChoiceType(q.kind) ==> Trimmed(q) == q.(choices := [])
  {
    if IsChoiceType(questions[i].kind) {
      ResolvedChoicesAreNamed(questions, existing, mint, i);
    }
  }

  lemma ResolvedIsStoredFor(questions: seq<Question>, existing: seq<Question>, mint: Uuid, i: nat)
    requires i < |questions| && mint > 0 && Resolved(questions, existing, mint, i).uuid != 0
    ensures StoredFor(Trimmed(Resolved(questions, existing, mint, i)), questions[i])
  {
    ChoicesStay(questions, existing, mint, i);
    forall j | 0 <= j < |questions[i].choices| ensures var own := Resolved(questions, existing, mint, i).choices[j];
      own == questions[i].choices[j].(uuid := own.uuid) {
      ChoiceAt(questions, existing, mint, i, j);
    }
  }

  lemma ResolvedIsWritten(questions: seq<Question>, existing: seq<Question>, merge: bool, mint: Uuid, i: nat)
    requires i < |questions|
    ensures IsWritten(Resolved(questions, existing, mint, i), questions, existing, merge, mint)
  {
    LocalisedIs(questions, existing, mint, i);
    assert Localised(questions, existing, mint)[i] in Localised(questions, existing, mint);
  }

  /** Each question of the set is stored with its type, its label, its hint and, if it has choices, its choices in
      order. */
  lemma AppliedQuestionsAreStored(rows: seq<Row>, xpath: string, r: Request, mint: Uuid, i: nat) returns (d: Question)
    requires TidyRows(rows) && r.questions.Some? && ProperQuestions(r, DefinitionsAt(rows, xpath), mint)
    requires Synced(rows, xpath, r, mint).ok && i < |r.questions.value|
    ensures d in DefinitionsAt(Synced(rows, xpath, r, mint).rows, xpath) && StoredFor(d, r.questions.value[i])
  {
    var q := Resolved(r.questions.value, DefinitionsAt(rows, xpath), mint, i);
    d := Trimmed(q);
    ResolvedIsWritten(r.questions.value, DefinitionsAt(rows, xpath), r.merge, mint, i);
    WrittenIsDefined(rows, xpath, r, mint, q);
    ResolvedIsStoredFor(r.questions.value, DefinitionsAt(rows, xpath), mint, i);
  }

  predicate StoredFor(d: Question, q: Question) {
    && d.uuid != 0 && d.kind == q.kind && d.labels == q.labels && d.hint == q.hint
    && (if IsChoiceType(q.kind)
        then |d.choices| == |q.choices| &&
             forall j | 0 <= j < |d.choices| :: d.choices[j] == q.choices[j].(uuid := d.choices[j].uuid)
        else d.choices == [])
  }

  // ---- when an application succeeds -----------------------------------------------------------------

  lemma PutSucceedsIff(known: seq<Row>, rows: seq<Row>, xpath: string, action: Action, params: seq<Param>)
    requires UniqueRows(rows) && UniqueRows(known) && xpath != ""
    requires RowUid(known, xpath, action) == RowUid(rows, xpath, action)
    ensures PutRow(known, rows, xpath, action, params).Some? <==> ValidParams(action, params)
  {
    if HasRow(rows, xpath, action) {
      var row :| row in rows && row.xpath == xpath && row.action == action;
      var i :| 0 <= i < |rows| && rows[i] == row;
      StoredAt(rows, i);
    } else {
      NothingStored(rows, xpath, action);
    }
  }

  predicate Sendable(w: Write) {
    w.Send? && ValidParams(w.action, w.params)
  }

  predicate AllSendable(ws: seq<Write>) {
    forall i | 0 <= i < |ws| :: Sendable(ws[i])
  }

  lemma FirstSendable(ws: seq<Write>)
    requires ws != []
    ensures AllSendable(ws) <==> Sendable(ws[0]) && AllSendable(ws[1..])
  {
    assert forall i | 0 < i < |ws| :: ws[i] == ws[1..][i - 1];
  }

  /** Writes to different rows succeed exactly when each is valid on its own. */
  lemma {:induction false} CarriedIff(known: seq<Row>, rows: seq<Row>, xpath: string, ws: seq<Write>)
    requires AgreeOn(known, rows, xpath, ws) && DistinctActions(ws) && xpath != ""
    ensures Carried(known, rows, xpath, ws).ok <==> AllSendable(ws)
    decreases |ws|
  {
    if ws != [] && ws[0].Send? {
      PutSucceedsIff(known, rows, xpath, ws[0].action, ws[0].params);
      if ValidParams(ws[0].action, ws[0].params) {
        FirstPut(known, rows, xpath, ws);
        CarriedIff(known, PutRow(known, rows, xpath, ws[0].action, ws[0].params).value, xpath, ws[1..]);
      }
      FirstSendable(ws);
    }
  }

  /** The server takes a question of a known type with a label and, if it is one to choose from, with choices; those
      that have a uuid are sent, and each must be labelled. */
  predicate IsAcceptable(q: Question) {
    && IsQuestionType(q.kind) && q.labels != ""
    && (IsChoiceType(q.kind) ==>
          (exists c | c in q.choices :: c.uuid != 0) && forall c | c in q.choices && c.uuid != 0 :: c.labels != "")
  }

  lemma {:induction false} SentChoices(choices: seq<Choice>, c: Choice)
    ensures c in WithUuid(choices) <==> c in choices && c.uuid != 0
  {
    if choices != [] {
      SentChoices(Front(choices), c);
      assert c in choices <==> c in Front(choices) || c == Last(choices);
    }
  }

  lemma TrimmedIsValid(q: Question)
    ensures q.kind in QUAL_TYPES && ValidQuestion(Trimmed(q)) <==> IsAcceptable(q)
    ensures q.kind in QUAL_TYPES <==> IsQuestionType(q.kind)
  {
    forall c ensures c in WithUuid(q.choices) <==> c in q.choices && c.uuid != 0 {
      SentChoices(q.choices, c);
    }
    if WithUuid(q.choices) != [] {
      assert WithUuid(q.choices)[0] in WithUuid(q.choices);
    }
  }

  lemma TrimmedAreValid(local: seq<Question>)
    ensures (forall q | q in TrimmedAll(local) :: q.kind in QUAL_TYPES && ValidQuestion(q)) <==>
            forall q | q in local :: IsAcceptable(q)
  {
    forall i | 0 <= i < |local|
      ensures local[i].kind in QUAL_TYPES && ValidQuestion(TrimmedAll(local)[i]) <==> IsAcceptable(local[i]) {
      TrimmedIsValid(local[i]);
    }
    forall i | 0 <= i < |local| ensures TrimmedAll(local)[i] in TrimmedAll(local) && local[i] in local {
    }
  }

  lemma QuestionWritesIff(stored: seq<Question>, enableQual: bool)
    ensures AllSendable(QuestionWrites(stored, enableQual)) <==>
            forall q | q in stored :: q.kind in QUAL_TYPES && ValidQuestion(q)
  {
    var ws := QuestionWrites(stored, enableQual);
    if AllSupported(stored) {
      AutoParamsAre(stored, 0);
      DefsAreValid(stored);
      assert Sendable(ws[1]);
      assert ws[0] == Send(QualDefinitions, Defs(stored));
    } else {
      assert ws[0] == Raise;
    }
  }

  lemma DefsAreValid(stored: seq<Question>)
    ensures ValidParams(QualDefinitions, Defs(stored)) <==> forall q | q in stored :: ValidQuestion(q)
  {
    var params := Defs(stored);
    if ValidParams(QualDefinitions, params) {
      forall q | q in stored ensures ValidQuestion(q) {
        var i :| 0 <= i < |stored| && stored[i] == q;
        assert params[i] in params;
      }
    } else {
      var p :| p in params && !ValidParam(QualDefinitions, p);
      var i :| 0 <= i < |params| && params[i] == p;
      assert stored[i] in stored;
    }
  }

  lemma LanguageWritesAreValid(r: Request, i: nat)
    requires i < |LanguageWrites(r)|
    ensures Sendable(LanguageWrites(r)[i])
  {
    if r.targets.Some? {
      var params := Bases(r.targets.value);
      assert forall p | p in params :: p.Lang?;
    }
  }

  lemma SendableInTwo(first: seq<Write>, rest: seq<Write>)
    requires AllSendable(first)
    ensures AllSendable(first + rest) <==> AllSendable(rest)
  {
    assert forall i | 0 <= i < |rest| :: (first + rest)[|first| + i] == rest[i];
  }

  lemma WritesIff(existing: seq<Question>, r: Request, mint: Uuid)
    ensures AllSendable(Writes(existing, r, mint)) <==>
            r.questions.None? || forall q | q in Local(r.questions.value, existing, r.merge, mint) :: IsAcceptable(q)
  {
    forall i | 0 <= i < |LanguageWrites(r)| ensures Sendable(LanguageWrites(r)[i]) {
      LanguageWritesAreValid(r, i);
    }
    if r.questions.Some? {
      var local := Local(r.questions.value, existing, r.merge, mint);
      QuestionWritesIff(TrimmedAll(local), r.enableQual);
      TrimmedAreValid(local);
      SendableInTwo(LanguageWrites(r), QuestionWrites(TrimmedAll(local), r.enableQual));
      assert Writes(existing, r, mint) == LanguageWrites(r) + QuestionWrites(TrimmedAll(local), r.enableQual);
    } else {
      assert Writes(existing, r, mint) == LanguageWrites(r);
    }
  }

  /** An application succeeds exactly when the server takes every question it writes. Languages are never refused. */
  lemma SyncSucceedsIff(rows: seq<Row>, xpath: string, r: Request, mint: Uuid)
    requires UniqueRows(rows) && xpath != ""
    ensures Synced(rows, xpath, r, mint).ok <==>
            r.questions.None? ||
            forall q | IsWritten(q, r.questions.value, DefinitionsAt(rows, xpath), r.merge, mint) :: IsAcceptable(q)
  {
    var existing := DefinitionsAt(rows, xpath);
    WritesApart(existing, r, mint);
    CarriedIff(rows, rows, xpath, Writes(existing, r, mint));
    WritesIff(existing, r, mint);
    if r.questions.Some? {
      forall q ensures IsWritten(q, r.questions.value, existing, r.merge, mint) <==>
                       q in Local(r.questions.value, existing, r.merge, mint) {
        WrittenAreLocal(q, r.questions.value, existing, r.merge, mint);
      }
    }
  }
}
