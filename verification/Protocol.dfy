/** The server's side of a submission: which PATCH it admits, what the PATCH does, and how attempts settle. */
module Protocol {
  import opened Versions
  import opened Features

  /** One action on one recording: the unit that is requested, billed and settled. */
  datatype Key =
    | TranscriptOf(xpath: string)
    | TranslationOf(xpath: string, language: string)
    | AnswerOf(xpath: string, uuid: Uuid)

  type Doc = map<Key, seq<Version>>

  /** An absent action reads as one without versions. */
  function Node(doc: Doc, key: Key): seq<Version> {
    if key in doc then doc[key] else []
  }

  datatype Patch =
    | AskTranscript(xpath: string, language: string, locale: string)
    | AcceptTranscript(xpath: string, language: string, locale: string)
    | AskTranslation(xpath: string, language: string)
    | AcceptTranslation(xpath: string, language: string)
    | AskAnswer(xpath: string, uuid: Uuid)

  function KeyOf(p: Patch): Key {
    match p
    case AskTranscript(x, _, _) => TranscriptOf(x)
    case AcceptTranscript(x, _, _) => TranscriptOf(x)
    case AskTranslation(x, l) => TranslationOf(x, l)
    case AcceptTranslation(x, l) => TranslationOf(x, l)
    case AskAnswer(x, u) => AnswerOf(x, u)
  }

  predicate IsRequest(p: Patch) {
    p.AskTranscript? || p.AskTranslation? || p.AskAnswer?
  }

  /** The server looks at the end of its own list; it does not sort. */
  predicate LastAccepted(versions: seq<Version>) {
    versions != [] && Last(versions).accepted
  }

  predicate LastComplete(versions: seq<Version>) {
    versions != [] && Last(versions).status == Complete
  }

  predicate Configured(rows: seq<Row>, xpath: string, action: Action) {
    exists row | row in rows :: row.xpath == xpath && row.action == action && row.params != []
  }

  predicate Admits(rows: seq<Row>, doc: Doc, p: Patch) {
    match p
    case AcceptTranscript(x, _, _) => LastComplete(Node(doc, TranscriptOf(x)))
    case AcceptTranslation(x, l) => l != "" && LastComplete(Node(doc, TranslationOf(x, l)))
    case AskTranscript(x, l, _) =>
      '-' !in l && (Configured(rows, x, Transcription) ==> Listed(rows, x, Transcription, Lang(l)))
    case AskTranslation(x, l) =>
      l != "" && Listed(rows, x, Translation, Lang(l)) && LastAccepted(Node(doc, TranscriptOf(x)))
    case AskAnswer(x, u) =>
      u != 0 && Listed(rows, x, AutoQual, Auto(u)) && IsAnswerable(Grouped(rows), x, u) &&
      LastAccepted(Node(doc, TranscriptOf(x)))
  }

  function Attempt(now: int): Version {
    Version(Some(now), InProgress, "", "", false)
  }

  /** A request appends one attempt; an acceptance marks the last version. */
  function Entered(versions: seq<Version>, request: bool, now: int): seq<Version> {
    if request then versions + [Attempt(now)]
    else if versions == [] then versions
    else Front(versions) + [Last(versions).(accepted := true)]
  }

  function Applied(doc: Doc, p: Patch, now: int): Doc {
    doc[KeyOf(p) := Entered(Node(doc, KeyOf(p)), IsRequest(p), now)]
  }

  function ApplyAll(doc: Doc, ps: seq<Patch>, now: int): Doc {
    if ps == [] then doc else Applied(ApplyAll(doc, Front(ps), now), Last(ps), now)
  }

  /** Each PATCH is one the server admits at the moment it is sent. */
  predicate AdmitsAll(rows: seq<Row>, doc: Doc, ps: seq<Patch>, now: int) {
    forall i | 0 <= i < |ps| :: Admits(rows, ApplyAll(doc, ps[..i], now), ps[i])
  }

  lemma Assoc<T>(a: seq<T>, b: seq<T>, c: seq<T>)
    ensures a + (b + c) == a + b + c && a + [] == a && [] + c == c
  {
  }

  lemma {:induction false} ApplyInTwo(doc: Doc, a: seq<Patch>, b: seq<Patch>, now: int)
    ensures ApplyAll(doc, a + b, now) == ApplyAll(ApplyAll(doc, a, now), b, now)
  {
    if b == [] {
      assert a + b == a;
    } else {
      var all := a + b;
      assert all != [] && Front(all) == a + Front(b) && Last(all) == Last(b);
      calc {
        ApplyAll(doc, all, now);
        Applied(ApplyAll(doc, a + Front(b), now), Last(b), now);
        { ApplyInTwo(doc, a, Front(b), now); }
        Applied(ApplyAll(ApplyAll(doc, a, now), Front(b), now), Last(b), now);
        ApplyAll(ApplyAll(doc, a, now), b, now);
      }
    }
  }

  lemma AdmitOneMore(rows: seq<Row>, doc: Doc, ps: seq<Patch>, p: Patch, now: int)
    requires AdmitsAll(rows, doc, ps, now) && Admits(rows, ApplyAll(doc, ps, now), p)
    ensures AdmitsAll(rows, doc, ps + [p], now)
  {
    forall i | 0 <= i < |ps| + 1 ensures Admits(rows, ApplyAll(doc, (ps + [p])[..i], now), (ps + [p])[i]) {
      assert (ps + [p])[..i] == if i < |ps| then ps[..i] else ps;
    }
  }

  lemma AdmitOneLess(rows: seq<Row>, doc: Doc, ps: seq<Patch>, now: int)
    requires AdmitsAll(rows, doc, ps, now) && ps != []
    ensures AdmitsAll(rows, doc, Front(ps), now) && Admits(rows, ApplyAll(doc, Front(ps), now), Last(ps))
  {
    forall i | 0 <= i < |Front(ps)| ensures Admits(rows, ApplyAll(doc, Front(ps)[..i], now), Front(ps)[i]) {
      assert Front(ps)[..i] == ps[..i];
    }
  }

  lemma {:induction false} AdmitInTwo(rows: seq<Row>, doc: Doc, a: seq<Patch>, b: seq<Patch>, now: int)
    requires AdmitsAll(rows, doc, a, now) && AdmitsAll(rows, ApplyAll(doc, a, now), b, now)
    ensures AdmitsAll(rows, doc, a + b, now)
  {
    if b == [] {
      assert a + b == a;
    } else {
      AdmitOneLess(rows, ApplyAll(doc, a, now), b, now);
      AdmitInTwo(rows, doc, a, Front(b), now);
      ApplyInTwo(doc, a, Front(b), now);
      AdmitOneMore(rows, doc, a + Front(b), Last(b), now);
      assert a + b == a + Front(b) + [Last(b)];
    }
  }

  predicate IsAbout(p: Patch, key: Key) {
    match p
    case AskTranscript(x, _, _) => key == TranscriptOf(x)
    case AcceptTranscript(x, _, _) => key == TranscriptOf(x)
    case AskTranslation(x, l) => key == TranslationOf(x, l)
    case AcceptTranslation(x, l) => key == TranslationOf(x, l)
    case AskAnswer(x, u) => key == AnswerOf(x, u)
  }

  /** A request adds one running attempt, dated now, to its own action; an acceptance marks the latest version of its
      own; and every other action stays as it is. */
  lemma PatchDoes(doc: Doc, p: Patch, now: int, key: Key)
    ensures var before, after := Node(doc, key), Node(Applied(doc, p, now), key);
            if !IsAbout(p, key) then after == before
            else if p.AcceptTranscript? || p.AcceptTranslation?
            then |after| == |before| && (before != [] ==> Front(after) == Front(before) &&
                                                          Last(after) == Last(before).(accepted := true))
            else after == before + [Version(Some(now), InProgress, "", "", false)]
  {
  }

  // ---- settling ---------------------------------------------------------------

  /** A running attempt ends as complete or failed, keeping its place, its date and its acceptance. */
  predicate Ends(before: Version, after: Version) {
    before.status == InProgress && (after.status == Complete || after.status == Failed) &&
    after.created == before.created && after.accepted == before.accepted
  }

  ghost predicate Settles(doc: Doc, doc': Doc) {
    exists key, i, v :: SettlesAt(doc, doc', key, i, v)
  }

  ghost predicate SettlesAt(doc: Doc, doc': Doc, key: Key, i: nat, v: Version) {
    key in doc && i < |doc[key]| && Ends(doc[key][i], v) && doc' == doc[key := doc[key][i := v]]
  }

  /** What a node may become without the pipeline: the same length, attempts ending in place. */
  predicate Matured(before: seq<Version>, after: seq<Version>) {
    |after| == |before| && forall i | 0 <= i < |before| :: after[i] == before[i] || Ends(before[i], after[i])
  }

  lemma SettlingMatures(doc: Doc, doc': Doc)
    requires Settles(doc, doc')
    ensures forall key :: Matured(Node(doc, key), Node(doc', key))
  {
  }

  // ---- the server as the pipeline meets it ------------------------------------

  datatype Error = NotFound | KoboFailure | Unexpected

  datatype Reply = Ok | Error(error: Error)

  class KoboServer {
    const rows: seq<Row>
    var doc: Doc
    /** Every PATCH the server carried out, in order. */
    var done: seq<Patch>

    constructor (rows: seq<Row>)
      ensures this.rows == rows && doc == map[] && done == []
    {
      this.rows, doc, done := rows, map[], [];
    }

    /** A refusal or an outage raises; a reply lost on the way back raises after the work was done. */
    method PatchDataSupplement(p: Patch, now: int) returns (reply: Reply)
      modifies this
      ensures reply.Ok? ==> Admits(rows, old(doc), p) && doc == Applied(old(doc), p, now) && done == old(done) + [p]
      ensures reply.Error? ==>
        (doc == old(doc) && done == old(done)) ||
        (Admits(rows, old(doc), p) && doc == Applied(old(doc), p, now) && done == old(done) + [p])
      ensures !Admits(rows, old(doc), p) ==> reply.Error? && doc == old(doc)
    {
      var lostOnTheWay, lostOnTheWayBack, error := *, *, *;
      if lostOnTheWay || !Admits(rows, doc, p) {
        return Error(error);
      }
      doc := Applied(doc, p, now);
      done := done + [p];
      reply := if lostOnTheWayBack then Error(error) else Ok;
    }

    /** The server says that it has no such submission only when it has no document of it. */
    method Fetch() returns (reply: Reply, sup: Doc)
      ensures reply.Ok? ==> sup == doc
      ensures reply == Error(NotFound) ==> doc == map[]
    {
      reply, sup := *, doc;
      if reply == Error(NotFound) && doc != map[] {
        reply := Ok;
      }
    }

    /** A submission the server does not have is read as an empty document. */
    method GetDataSupplement() returns (reply: Reply, sup: Doc)
      ensures reply.Ok? ==> sup == doc
      ensures reply != Error(NotFound)
    {
      reply, sup := Fetch();
      if reply == Error(NotFound) {
        reply, sup := Ok, map[];
      }
    }
  }
}
