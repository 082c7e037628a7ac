/** What the theorems about runs ask of the configuration, and that they need it:
    the exact conditions under which languages keep requests apart, readable and admissible. */
module Limits {
  import opened Versions
  import opened Languages
  import opened Features
  import opened Protocol
  import opened Handlers
  import opened Plans

  // ---- two targets, one action --------------------------------------------------------

  lemma KeyOfTranslation(doc: Doc, now: int, stall: nat, xpath: string, language: string)
    ensures var m := TranslationMove(doc, now, stall, xpath, language);
            Sends(m) ==> KeyOf(m.patch) == TranslationOf(xpath, Base(language))
  {
  }

  /** Targets with different bases are never requested or accepted under one key, whatever the document holds. */
  lemma DifferentBasesStayApart(doc: Doc, now: int, stall: nat, xpath: string, targets: seq<string>)
    requires DistinctBases(targets)
    ensures Apart(TargetMoves(doc, now, stall, xpath, targets))
  {
    forall i | 0 <= i < |targets|
      ensures var m := TargetMoves(doc, now, stall, xpath, targets)[i];
              Sends(m) ==> KeyOf(m.patch) == TranslationOf(xpath, Base(targets[i]))
    {
      KeyOfTranslation(doc, now, stall, xpath, targets[i]);
    }
  }

  /** One action a PATCH holds of a recording on every document exactly when no two of its usable targets share a
      base. */
  lemma ApartIffDistinctBases(now: int, stall: nat, xpath: string, targets: seq<string>)
    ensures (forall doc :: Apart(TargetMoves(doc, now, stall, xpath, targets))) <==> DistinctBases(targets)
  {
    if DistinctBases(targets) {
      forall doc ensures Apart(TargetMoves(doc, now, stall, xpath, targets)) {
        DifferentBasesStayApart(doc, now, stall, xpath, targets);
      }
    } else {
      SharedBaseCollides(now, stall, xpath, targets);
    }
  }

  lemma SharedBaseCollides(now: int, stall: nat, xpath: string, targets: seq<string>)
    requires !DistinctBases(targets)
    ensures !Apart(TargetMoves(map[], now, stall, xpath, targets))
  {
    var i, j :| 0 <= i < j < |targets| && Base(targets[i]) == Base(targets[j]);
    var moves := TargetMoves(map[], now, stall, xpath, targets);
    assert moves[i] == Ask(AskTranslation(xpath, Base(targets[i])));
    assert moves[j] == Ask(AskTranslation(xpath, Base(targets[j])));
  }

  function Times<T>(k: nat, x: T): seq<T> {
    seq(k, _ => x)
  }

  lemma {:induction false} AllAsked(k: nat, p: Patch)
    ensures Patches(Times(k, Ask(p))) == Times(k, p)
  {
    if k > 0 {
      AllAsked(k - 1, p);
      assert Front(Times(k, Ask(p))) == Times(k - 1, Ask(p));
      assert Times(k, p) == Times(k - 1, p) + [p];
    }
  }

  lemma {:induction false} AllEntered(k: nat, p: Patch, now: int)
    requires IsRequest(p)
    ensures Node(ApplyAll(map[], Times(k, p), now), KeyOf(p)) == Times(k, Attempt(now))
  {
    if k > 0 {
      AllEntered(k - 1, p, now);
      assert Front(Times(k, p)) == Times(k - 1, p);
      assert Times(k, Attempt(now)) == Times(k - 1, Attempt(now)) + [Attempt(now)];
    }
  }

  /** A target listed k times over is requested k times at once: no bound on requests holds without distinct bases. */
  lemma AsManyRequestsAsListings(k: nat, now: int, stall: nat, xpath: string, language: string)
    ensures var p := AskTranslation(xpath, Base(language));
            var ps := Patches(TargetMoves(map[], now, stall, xpath, Times(k, language)));
            ps == Times(k, p) && |Node(ApplyAll(map[], ps, now), KeyOf(p))| == k
  {
    var p := AskTranslation(xpath, Base(language));
    assert TargetMoves(map[], now, stall, xpath, Times(k, language)) == Times(k, Ask(p));
    AllAsked(k, p);
    AllEntered(k, p, now);
  }

  // ---- a regional target ------------------------------------------------------------------

  /** A translation is asked for under the key its state is read from exactly when the target is bare. */
  lemma ReadsItsOwnRequestIffBare(doc: Doc, now: int, stall: nat, xpath: string, language: string)
    requires Sends(TranslationMove(doc, now, stall, xpath, language))
    ensures KeyOf(TranslationMove(doc, now, stall, xpath, language).patch) == TranslationOf(xpath, language) <==>
            Bare(language)
  {
    KeyOfTranslation(doc, now, stall, xpath, language);
  }

  /** A regional target never sees its result: carrying out its request leaves the same request to be made. */
  lemma RegionalTargetAsksForever(doc: Doc, now: int, later: int, stall: nat, xpath: string, language: string)
    requires !Bare(language) && Node(doc, TranslationOf(xpath, language)) == []
    ensures var m := TranslationMove(doc, now, stall, xpath, language);
            m.Ask? && TranslationMove(Applied(doc, m.patch, now), later, stall, xpath, language) == m &&
            Node(Applied(doc, m.patch, now), TranslationOf(xpath, language)) == []
  {
  }

  // ---- a regional audio language -------------------------------------------------------------

  /** The base code of a request never holds a separator, so a transcript request to a configured recording is
      admitted exactly when the row lists the base of its own language. */
  lemma TranscriptRequestAdmittedIff(ctx: Context, doc: Doc, e: Entry<string>)
    requires Loaded(ctx) && e in ctx.features.transcribe
    ensures var language := AudioLanguage(ctx, e);
            Admits(ctx.rows, doc, AskTranscript(e.xpath, Base(language), Locale(language))) <==>
            Listed(ctx.rows, e.xpath, Transcription, Lang(Base(e.value)))
  {
    RequestKeepsTheRowBase(ctx.cfg.transcriptLanguage, e.value);
    GroupingIsFaithful(ctx.rows);
    assert Listed(ctx.rows, e.xpath, Transcription, Lang(e.value));
    var row :| row in ctx.rows && row.xpath == e.xpath && row.action == Transcription && Lang(e.value) in row.params;
    assert Configured(ctx.rows, e.xpath, Transcription);
  }

  /** A row holding only a regional code refuses every request the pipeline makes of it. */
  lemma RegionalRowIsRefused(ctx: Context, doc: Doc, row: Row, language: string)
    requires Loaded(ctx) && ctx.rows == [row] && row.action == Transcription && row.xpath != ""
    requires row.params == [Lang(language)] && !Bare(language)
    ensures ctx.features.transcribe == [Entry(row.xpath, language)]
    ensures var asked := AudioLanguage(ctx, Entry(row.xpath, language));
            !Admits(ctx.rows, doc, AskTranscript(row.xpath, Base(asked), Locale(asked)))
  {
    SoleRow(row, language);
    TranscriptRequestAdmittedIff(ctx, doc, Entry(row.xpath, language));
  }

  lemma SoleRow(row: Row, language: string)
    requires row.action == Transcription && row.xpath != "" && row.params == [Lang(language)] && language != ""
    ensures Grouped([row]).transcribe == [Entry(row.xpath, language)]
  {
    assert Front([row]) == [] && Grouped([]) == NO_FEATURES;
    assert row.params[1..] == [];
    assert LanguagesIn(row.params) == [language];
  }
}
