/** Applying a configuration to one recording: what is written, in what order, and what the server makes of it. */
module Sync {
  import opened Versions
  import opened Languages
  import opened Features
  import opened Merging
  import opened Questions

  /** What is to be applied; None leaves that part of the configuration alone. */
  datatype Request = Request(language: string, targets: Option<seq<string>>, questions: Option<seq<Question>>,
                             enableQual: bool, merge: bool)

  /** One row to write, or the point at which an unsupported question type raises. */
  datatype Write = Send(action: Action, params: seq<Param>) | Raise

  function Bases(languages: seq<string>): (params: seq<Param>)
    ensures |params| == |languages|
  {
    seq(|languages|, i requires 0 <= i < |languages| => Lang(Base(languages[i])))
  }

  function Defs(qs: seq<Question>): (params: seq<Param>)
    ensures |params| == |qs|
  {
    seq(|qs|, i requires 0 <= i < |qs| => Def(qs[i]))
  }

  function AutoParams(qs: seq<Question>): seq<Param> {
    if qs == [] then []
    else if Last(qs).uuid != 0 && Last(qs).kind in AUTO_QUAL_TYPES then AutoParams(Front(qs)) + [Auto(Last(qs).uuid)]
    else AutoParams(Front(qs))
  }

  /** The questions to answer are listed in their order. */
  lemma {:induction false} AutoParamsInTwo(a: seq<Question>, b: seq<Question>)
    ensures AutoParams(a + b) == AutoParams(a) + AutoParams(b)
  {
    if b == [] {
      assert a + b == a;
    } else {
      assert Front(a + b) == a + Front(b) && Last(a + b) == Last(b);
      AutoParamsInTwo(a, Front(b));
    }
  }

  predicate AllSupported(qs: seq<Question>) {
    forall i | 0 <= i < |qs| :: qs[i].kind in QUAL_TYPES
  }

  /** `stored` are the questions to write, each in the shape the server keeps. */
  function QuestionWrites(stored: seq<Question>, enableQual: bool): seq<Write> {
    if !AllSupported(stored) then [Raise]
    else [Send(QualDefinitions, Defs(stored)), Send(AutoQual, if enableQual then AutoParams(stored) else [])]
  }

  function LanguageWrites(r: Request): seq<Write> {
    (if r.language != "" then [Send(Transcription, [Lang(Base(r.language))])] else []) +
    (match r.targets case None => [] case Some(languages) => [Send(Translation, Bases(languages))])
  }

  function Writes(existing: seq<Question>, r: Request, mint: Uuid): seq<Write> {
    LanguageWrites(r) +
    (match r.questions case None => [] case Some(qs) => QuestionWrites(TrimmedAll(Local(qs, existing, r.merge, mint)),
                                                                       r.enableQual))
  }

  datatype Written = Written(rows: seq<Row>, ok: bool)

  /** One write after another, up to the first that is refused. */
  function Carried(known: seq<Row>, rows: seq<Row>, xpath: string, ws: seq<Write>): Written
    decreases |ws|
  {
    if ws == [] then Written(rows, true)
    else if ws[0].Raise? then Written(rows, false)
    else
      match PutRow(known, rows, xpath, ws[0].action, ws[0].params)
      case None => Written(rows, false)
      case Some(rows') => Carried(known, rows', xpath, ws[1..])
  }

  function DefinitionsAt(rows: seq<Row>, xpath: string): seq<Question> {
    ListAt(Grouped(rows).definitions, xpath)
  }

  function Synced(rows: seq<Row>, xpath: string, r: Request, mint: Uuid): Written {
    Carried(rows, rows, xpath, Writes(DefinitionsAt(rows, xpath), r, mint))
  }

  // ---- the code -------------------------------------------------------------------------

  class FeatureServer {
    var rows: seq<Row>

    constructor ()
      ensures rows == []
    {
      rows := [];
    }

    method CreateAdvancedFeature(xpath: string, action: Action, params: seq<Param>) returns (ok: bool)
      modifies this
      ensures ok <==> Created(old(rows), xpath, action, params).Some?
      ensures rows == if ok then Created(old(rows), xpath, action, params).value else old(rows)
    {
      ok := xpath != "" && ValidParams(action, params);
      if ok {
        rows := rows + [Row(NextUid(rows), xpath, action, params)];
      }
    }

    method UpdateAdvancedFeature(uid: nat, params: seq<Param>) returns (ok: bool)
      modifies this
      ensures ok <==> Updated(old(rows), uid, params).Some?
      ensures rows == if ok then Updated(old(rows), uid, params).value else old(rows)
    {
      var place := IndexOf(rows, uid);
      ok := place.Some? && ValidParams(rows[place.value].action, params);
      if ok {
        var merged := MergeParams(rows[place.value].params, params);
        rows := rows[place.value := rows[place.value].(params := merged)];
      }
    }
  }

  method PutFeatureRow(client: FeatureServer, known: seq<Row>, xpath: string, action: Action, params: seq<Param>)
    returns (ok: bool)
    modifies client
    ensures ok <==> PutRow(known, old(client.rows), xpath, action, params).Some?
    ensures client.rows == if ok then PutRow(known, old(client.rows), xpath, action, params).value else old(client.rows)
  {
    var uid := RowUid(known, xpath, action);
    if uid != 0 {
      ok := client.UpdateAdvancedFeature(uid, params);
    } else {
      ok := client.CreateAdvancedFeature(xpath, action, params);
    }
  }

  lemma OneSend(known: seq<Row>, rows: seq<Row>, xpath: string, action: Action, params: seq<Param>, rest: seq<Write>)
    ensures Carried(known, rows, xpath, [Send(action, params)] + rest) ==
            match PutRow(known, rows, xpath, action, params)
            case None => Written(rows, false)
            case Some(rows') => Carried(known, rows', xpath, rest)
  {
    assert ([Send(action, params)] + rest)[1..] == rest;
  }

  method StoreQuestions(client: FeatureServer, known: seq<Row>, xpath: string, local: seq<Question>, enableQual: bool)
    returns (ok: bool)
    modifies client
    ensures Written(client.rows, ok) ==
            Carried(known, old(client.rows), xpath, QuestionWrites(TrimmedAll(local), enableQual))
  {
    var stored := TrimmedAll(local);
    if !AllSupported(stored) {
      return false;
    }
    ghost var second := Send(AutoQual, if enableQual then AutoParams(stored) else []);
    OneSend(known, client.rows, xpath, QualDefinitions, Defs(stored), [second]);
    assert [Send(QualDefinitions, Defs(stored))] + [second] == QuestionWrites(stored, enableQual);
    ok := PutFeatureRow(client, known, xpath, QualDefinitions, Defs(stored));
    if ok {
      OneSend(known, client.rows, xpath, second.action, second.params, []);
      assert [second] + [] == [second];
      ok := PutFeatureRow(client, known, xpath, AutoQual, if enableQual then AutoParams(stored) else []);
    }
  }

  method StoreLanguages(client: FeatureServer, known: seq<Row>, xpath: string, r: Request, ghost rest: seq<Write>)
    returns (ok: bool)
    modifies client
    ensures Carried(known, old(client.rows), xpath, LanguageWrites(r) + rest) ==
            if ok then Carried(known, client.rows, xpath, rest) else Written(client.rows, false)
  {
    ghost var later := (if r.targets.Some? then [Send(Translation, Bases(r.targets.value))] else []) + rest;
    assert LanguageWrites(r) + rest ==
           (if r.language != "" then [Send(Transcription, [Lang(Base(r.language))])] + later else later);
    ok := true;
    if r.language != "" {
      OneSend(known, client.rows, xpath, Transcription, [Lang(Base(r.language))], later);
      ok := PutFeatureRow(client, known, xpath, Transcription, [Lang(Base(r.language))]);
    }
    if ok && r.targets.Some? {
      OneSend(known, client.rows, xpath, Translation, Bases(r.targets.value), rest);
      ok := PutFeatureRow(client, known, xpath, Translation, Bases(r.targets.value));
    } else if ok {
      assert later == rest;
    }
  }

  /** Applies a request to one recording with the rows as `features` read them. Nothing is undone when a write is
      refused. */
  method SyncQuestion(client: FeatureServer, features: AssetFeatures, xpath: string, r: Request, mint: Uuid)
    returns (ok: bool, local: seq<Question>)
    requires features.View() == Grouped(features.rows)
    modifies client
    ensures Written(client.rows, ok) ==
            Carried(features.rows, old(client.rows), xpath, Writes(DefinitionsAt(features.rows, xpath), r, mint))
    ensures ok && r.questions.Some? ==>
            local == Local(r.questions.value, DefinitionsAt(features.rows, xpath), r.merge, mint)
  {
    var known, existing := features.rows, ListAt(features.definitions, xpath);
    assert existing == DefinitionsAt(known, xpath);
    ghost var rest := match r.questions
                      case None => []
                      case Some(qs) => QuestionWrites(TrimmedAll(Local(qs, existing, r.merge, mint)), r.enableQual);
    assert Writes(existing, r, mint) == LanguageWrites(r) + rest;
    local := [];
    ok := StoreLanguages(client, known, xpath, r, rest);
    if ok && r.questions.Some? {
      var next;
      local, next := LocaliseQuestions(r.questions.value, existing, mint);
      if r.merge {
        local := local + Kept(existing, local);
      }
      ok := StoreQuestions(client, known, xpath, local, r.enableQual);
    }
  }
}
