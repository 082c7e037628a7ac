/** Giving transcription to recordings that have none: rows are only added, and when that doubles a row. */
module Provisioning {
  import opened Versions
  import opened Languages
  import opened Features
  import opened Merging
  import opened Sync
  import opened Configuration

  /** The recordings to configure: those wanted that no row gives a language. */
  function Unconfigured(f: Features, wanted: seq<string>): (missing: seq<string>)
    ensures forall x :: x in missing <==> x in wanted && Lookup(f.transcribe, x).None?
  {
    if wanted == [] then []
    else if Lookup(f.transcribe, Last(wanted)).None? then Unconfigured(f, Front(wanted)) + [Last(wanted)]
    else Unconfigured(f, Front(wanted))
  }

  /** They are configured in the order in which they are wanted. */
  lemma {:induction false} UnconfiguredInTwo(f: Features, a: seq<string>, b: seq<string>)
    ensures Unconfigured(f, a + b) == Unconfigured(f, a) + Unconfigured(f, b)
  {
    if b == [] {
      assert a + b == a;
    } else {
      assert Front(a + b) == a + Front(b) && Last(a + b) == Last(b);
      UnconfiguredInTwo(f, a, Front(b));
    }
  }

  /** The rows created for one recording, whether or not it has such rows already. */
  function ProvisionedOne(rows: seq<Row>, x: string, language: string, targets: seq<string>): Written {
    match Created(rows, x, Transcription, [Lang(Base(language))])
    case None => Written(rows, false)
    case Some(more) =>
      var usable := Usable(language, targets);
      if usable == [] then Written(more, true) else
        match Created(more, x, Translation, Bases(usable))
        case None => Written(more, false)
        case Some(all) => Written(all, true)
  }

  function Provisioned(rows: seq<Row>, missing: seq<string>, language: string, targets: seq<string>): Written {
    if missing == [] then Written(rows, true)
    else
      var before := Provisioned(rows, Front(missing), language, targets);
      if before.ok then ProvisionedOne(before.rows, Last(missing), language, targets) else before
  }

  method ProvisionOne(client: FeatureServer, x: string, language: string, targets: seq<string>) returns (ok: bool)
    modifies client
    ensures Written(client.rows, ok) == ProvisionedOne(old(client.rows), x, language, targets)
  {
    ok := client.CreateAdvancedFeature(x, Transcription, [Lang(Base(language))]);
    if ok {
      var usable, same := UsableTargets(language, targets);
      if usable != [] {
        ok := client.CreateAdvancedFeature(x, Translation, Bases(usable));
      }
    }
  }

  lemma OneMoreProvisioned(rows: seq<Row>, missing: seq<string>, i: nat, language: string, targets: seq<string>)
    requires i < |missing| && Provisioned(rows, missing[..i], language, targets).ok
    ensures Provisioned(rows, missing[..i + 1], language, targets) ==
            ProvisionedOne(Provisioned(rows, missing[..i], language, targets).rows, missing[i], language, targets)
  {
    assert Front(missing[..i + 1]) == missing[..i];
  }

  lemma {:induction false} RefusalEnds(rows: seq<Row>, missing: seq<string>, i: nat, language: string,
                                       targets: seq<string>)
    requires i < |missing| && !Provisioned(rows, missing[..i + 1], language, targets).ok
    ensures Provisioned(rows, missing, language, targets) == Provisioned(rows, missing[..i + 1], language, targets)
  {
    if i + 1 < |missing| {
      assert Front(missing)[..i + 1] == missing[..i + 1];
      RefusalEnds(rows, Front(missing), i, language, targets);
    } else {
      assert missing[..i + 1] == missing;
    }
  }

  /** Each recording is judged by the rows as they were read once, before any was created. */
  method ProvisionFeatures(client: FeatureServer, wanted: seq<string>, language: string, targets: seq<string>)
    returns (ok: bool)
    modifies client
    ensures Written(client.rows, ok) ==
            Provisioned(old(client.rows), Unconfigured(Grouped(old(client.rows)), wanted), language, targets)
  {
    var features := new AssetFeatures(client.rows);
    var missing := Unconfigured(features.View(), wanted);
    ok := true;
    for i := 0 to |missing|
      invariant ok && Written(client.rows, ok) == Provisioned(old(client.rows), missing[..i], language, targets)
    {
      OneMoreProvisioned(old(client.rows), missing, i, language, targets);
      ok := ProvisionOne(client, missing[i], language, targets);
      if !ok {
        RefusalEnds(old(client.rows), missing, i, language, targets);
        return;
      }
    }
    assert missing[..|missing|] == missing;
  }

  /** Creating rows of languages is refused only for want of a recording. */
  lemma {:induction false} ProvisioningSucceedsIff(rows: seq<Row>, missing: seq<string>, language: string,
                                                   targets: seq<string>)
    ensures Provisioned(rows, missing, language, targets).ok <==> "" !in missing
  {
    if missing != [] {
      ProvisioningSucceedsIff(rows, Front(missing), language, targets);
      LanguagesAreValid(Usable(language, targets));
      assert "" in missing <==> "" in Front(missing) || Last(missing) == "";
    }
  }

  lemma LanguagesAreValid(languages: seq<string>)
    ensures ValidParams(Translation, Bases(languages))
  {
  }

  // ---- only additions ---------------------------------------------------------------------

  /** No existing row changes, not even that of a recording being configured. */
  lemma {:induction false} OnlyAdds(rows: seq<Row>, missing: seq<string>, language: string, targets: seq<string>)
    ensures rows <= Provisioned(rows, missing, language, targets).rows
  {
    if missing != [] {
      OnlyAdds(rows, Front(missing), language, targets);
    }
  }

  /** The rows this recording is about to get are not there yet. */
  predicate HasNoRows(rows: seq<Row>, x: string, language: string, targets: seq<string>) {
    !HasRow(rows, x, Transcription) && (Usable(language, targets) != [] ==> !HasRow(rows, x, Translation))
  }

  lemma OneStaysUnique(rows: seq<Row>, x: string, language: string, targets: seq<string>)
    requires UniqueRows(rows) && HasNoRows(rows, x, language, targets)
    ensures UniqueRows(ProvisionedOne(rows, x, language, targets).rows)
    ensures forall y, a | y != x :: HasRow(ProvisionedOne(rows, x, language, targets).rows, y, a) == HasRow(rows, y, a)
  {
    if x != "" {
      CreateStores(rows, x, Transcription, [Lang(Base(language))]);
      var more := Created(rows, x, Transcription, [Lang(Base(language))]).value;
      assert SameStored(rows, more, x, Translation);
      if Usable(language, targets) != [] {
        CreateStores(more, x, Translation, Bases(Usable(language, targets)));
      }
      forall y, a | y != x ensures HasRow(ProvisionedOne(rows, x, language, targets).rows, y, a) == HasRow(rows, y, a) {
        assert SameStored(rows, more, y, a);
      }
    }
  }

  lemma {:induction false} BareStaysUnique(rows: seq<Row>, missing: seq<string>, language: string, targets: seq<string>)
    requires UniqueRows(rows) && Distinct(missing) &&
             forall i | 0 <= i < |missing| :: HasNoRows(rows, missing[i], language, targets)
    ensures UniqueRows(Provisioned(rows, missing, language, targets).rows)
    ensures forall y, a | y !in missing ::
              HasRow(Provisioned(rows, missing, language, targets).rows, y, a) == HasRow(rows, y, a)
  {
    if missing != [] {
      var n := |missing| - 1;
      BareStaysUnique(rows, Front(missing), language, targets);
      var before := Provisioned(rows, Front(missing), language, targets);
      assert missing[n] !in Front(missing) && HasNoRows(rows, missing[n], language, targets);
      assert HasNoRows(before.rows, missing[n], language, targets);
      if before.ok {
        OneStaysUnique(before.rows, missing[n], language, targets);
      }
      forall y, a | y !in missing
        ensures HasRow(Provisioned(rows, missing, language, targets).rows, y, a) == HasRow(rows, y, a) {
        assert y !in Front(missing) && y != missing[n];
      }
    }
  }

  predicate NewRow(rows: seq<Row>, after: seq<Row>, x: string, a: Action) {
    exists j :: |rows| <= j < |after| && after[j].xpath == x && after[j].action == a
  }

  lemma OneAdds(rows: seq<Row>, before: seq<Row>, x: string, language: string, targets: seq<string>)
    requires rows <= before && ProvisionedOne(before, x, language, targets).ok
    ensures HasNewRows(rows, ProvisionedOne(before, x, language, targets).rows, x, language, targets)
  {
    var after := ProvisionedOne(before, x, language, targets).rows;
    assert after[|before|].xpath == x && after[|before|].action == Transcription;
    if Usable(language, targets) != [] {
      assert after[|before| + 1].xpath == x && after[|before| + 1].action == Translation;
    }
  }

  /** The recording has got its rows. */
  predicate HasNewRows(rows: seq<Row>, after: seq<Row>, x: string, language: string, targets: seq<string>) {
    NewRow(rows, after, x, Transcription) && (Usable(language, targets) != [] ==> NewRow(rows, after, x, Translation))
  }

  lemma {:induction false} EachAdds(rows: seq<Row>, missing: seq<string>, language: string, targets: seq<string>,
                                    x: string)
    requires Provisioned(rows, missing, language, targets).ok && x in missing
    ensures HasNewRows(rows, Provisioned(rows, missing, language, targets).rows, x, language, targets)
  {
    var before := Provisioned(rows, Front(missing), language, targets).rows;
    OnlyAdds(rows, Front(missing), language, targets);
    FrontOrLast(missing, x);
    if x == Last(missing) {
      OneAdds(rows, before, x, language, targets);
    } else {
      EachAdds(rows, Front(missing), language, targets, x);
      OneKeeps(rows, before, Last(missing), language, targets, x);
    }
  }

  lemma OneKeeps(rows: seq<Row>, before: seq<Row>, y: string, language: string, targets: seq<string>, x: string)
    requires rows <= before && HasNewRows(rows, before, x, language, targets)
    ensures HasNewRows(rows, ProvisionedOne(before, y, language, targets).rows, x, language, targets)
  {
    NewStaysNew(rows, before, ProvisionedOne(before, y, language, targets).rows, x);
  }

  lemma NewStaysNew(rows: seq<Row>, before: seq<Row>, after: seq<Row>, x: string)
    requires rows <= before <= after
    ensures forall a :: NewRow(rows, before, x, a) ==> NewRow(rows, after, x, a)
  {
    forall a | NewRow(rows, before, x, a) ensures NewRow(rows, after, x, a) {
      var j :| |rows| <= j < |before| && before[j].xpath == x && before[j].action == a;
      assert after[j] == before[j];
    }
  }

  lemma DoubledIsNotUnique(rows: seq<Row>, after: seq<Row>, x: string, a: Action)
    requires rows <= after && HasRow(rows, x, a) && NewRow(rows, after, x, a)
    ensures !UniqueRows(after)
  {
    var row :| row in rows && row.xpath == x && row.action == a;
    var i :| 0 <= i < |rows| && rows[i] == row;
    var j :| |rows| <= j < |after| && after[j].xpath == x && after[j].action == a;
    assert after[i] == row;
  }

  /** Provisioning leaves one row a recording and action exactly when no recording it configures has such a row already:
      a recording with a translation row and no audio language gets a second translation row. */
  lemma StaysUniqueIff(rows: seq<Row>, missing: seq<string>, language: string, targets: seq<string>)
    requires UniqueRows(rows) && Distinct(missing) && Provisioned(rows, missing, language, targets).ok
    ensures UniqueRows(Provisioned(rows, missing, language, targets).rows) <==>
            forall i | 0 <= i < |missing| :: HasNoRows(rows, missing[i], language, targets)
  {
    var after := Provisioned(rows, missing, language, targets).rows;
    if forall i | 0 <= i < |missing| :: HasNoRows(rows, missing[i], language, targets) {
      BareStaysUnique(rows, missing, language, targets);
    } else {
      var i :| 0 <= i < |missing| && !HasNoRows(rows, missing[i], language, targets);
      OnlyAdds(rows, missing, language, targets);
      EachAdds(rows, missing, language, targets, missing[i]);
      if HasRow(rows, missing[i], Transcription) {
        DoubledIsNotUnique(rows, after, missing[i], Transcription);
      } else {
        DoubledIsNotUnique(rows, after, missing[i], Translation);
      }
    }
  }

  // ---- and what a doubled row means -----------------------------------------------------------

  lemma GroupedOnce(rows: seq<Row>, row: Row)
    ensures Grouped(rows + [row]) == Absorb(Grouped(rows), row)
  {
    assert Front(rows + [row]) == rows;
  }

  lemma TwoRowsAdded(rows: seq<Row>, x: string, language: string, targets: seq<string>)
    returns (first: Row, second: Row)
    requires x != "" && Usable(language, targets) != []
    ensures ProvisionedOne(rows, x, language, targets).rows == rows + [first] + [second]
    ensures first.xpath == x && first.action == Transcription
    ensures second.xpath == x && second.action == Translation && second.params == Bases(Usable(language, targets))
  {
    first := Row(NextUid(rows), x, Transcription, [Lang(Base(language))]);
    second := Row(NextUid(rows + [first]), x, Translation, Bases(Usable(language, targets)));
  }

  lemma TargetsAfter(rows: seq<Row>, x: string, language: string, targets: seq<string>)
    requires x != "" && Usable(language, targets) != []
    ensures ListAt(Grouped(ProvisionedOne(rows, x, language, targets).rows).translate, x) ==
            ListAt(Grouped(rows).translate, x) + LanguagesIn(Bases(Usable(language, targets)))
  {
    var first, second := TwoRowsAdded(rows, x, language, targets);
    GroupedOnce(rows, first);
    GroupedOnce(rows + [first], second);
    AbsorbReads(Grouped(rows), first, x);
    AbsorbReads(Grouped(rows + [first]), second, x);
  }

  lemma NewestOfOne(l: string)
    requires l != ""
    ensures NewestOf([Lang(l)]) == Some(l)
  {
    assert [Lang(l)][1..] == [];
    assert LanguagesIn([Lang(l)]) == [l];
  }

  /** What one more row for a recording adds to what it reads as. */
  lemma ReadsWith(rows: seq<Row>, row: Row, x: string)
    requires row.xpath != ""
    ensures var f, g := Grouped(rows), Grouped(rows + [row]);
            && ListAt(g.translate, x) == Added(ListAt(f.translate, x), row, x, Translation, LanguagesIn(row.params))
            && Lookup(g.transcribe, x) ==
               (if row.xpath == x && row.action == Transcription && NewestOf(row.params).Some? then NewestOf(row.params)
                                           else Lookup(f.transcribe, x))
  {
    GroupedOnce(rows, row);
    AbsorbReads(Grouped(rows), row, x);
  }

  lemma FirstRowReads(rows: seq<Row>, y: string, language: string, x: string)
    requires y != "" && Base(language) != ""
    ensures var f, g := Grouped(rows), Grouped(rows + [Row(NextUid(rows), y, Transcription, [Lang(Base(language))])]);
            Lookup(g.transcribe, x) == (if x == y then Some(Base(language)) else Lookup(f.transcribe, x)) &&
            ListAt(g.translate, x) == ListAt(f.translate, x)
  {
    NewestOfOne(Base(language));
    ReadsWith(rows, Row(NextUid(rows), y, Transcription, [Lang(Base(language))]), x);
  }

  lemma SecondRowReads(rows: seq<Row>, y: string, languages: seq<string>, x: string)
    requires y != ""
    ensures var f, g := Grouped(rows), Grouped(rows + [Row(NextUid(rows), y, Translation, Bases(languages))]);
            Lookup(g.transcribe, x) == Lookup(f.transcribe, x) &&
            ListAt(g.translate, x) == ListAt(f.translate, x) + if x == y then LanguagesIn(Bases(languages)) else []
  {
    ReadsWith(rows, Row(NextUid(rows), y, Translation, Bases(languages)), x);
  }

  /** What a recording just configured reads as; no other reads differently. */
  lemma OneIsConfigured(rows: seq<Row>, y: string, language: string, targets: seq<string>, x: string)
    requires ProvisionedOne(rows, y, language, targets).ok && Base(language) != ""
    ensures var f, g := Grouped(rows), Grouped(ProvisionedOne(rows, y, language, targets).rows);
            && Lookup(g.transcribe, x) == (if x == y then Some(Base(language)) else Lookup(f.transcribe, x))
            && ListAt(g.translate, x) ==
               ListAt(f.translate, x) + (if x == y then LanguagesIn(Bases(Usable(language, targets))) else [])
  {
    var usable := Usable(language, targets);
    FirstRowReads(rows, y, language, x);
    if usable != [] {
      SecondRowReads(rows + [Row(NextUid(rows), y, Transcription, [Lang(Base(language))])], y, usable, x);
    } else {
      assert Bases(usable) == [];
    }
  }

  /** Once provisioned, every recording that was missing is transcribed in the form's language, and has every target
      that is not that language. */
  lemma {:induction false} MissingIsConfigured(rows: seq<Row>, missing: seq<string>, language: string,
                                               targets: seq<string>,
                                               x: string, t: string)
    requires Provisioned(rows, missing, language, targets).ok && Base(language) != "" && x in missing
    requires t in targets && !SameLanguage(language, t) && Base(t) != ""
    ensures var f := Grouped(Provisioned(rows, missing, language, targets).rows);
            Lookup(f.transcribe, x) == Some(Base(language)) && Base(t) in ListAt(f.translate, x)
  {
    var before, y := Provisioned(rows, Front(missing), language, targets).rows, Last(missing);
    OneIsConfigured(before, y, language, targets, x);
    if x == y {
      BasesAreListed(Usable(language, targets), t);
    } else {
      FrontOrLast(missing, x);
      MissingIsConfigured(rows, Front(missing), language, targets, x, t);
    }
  }

  lemma TwiceJoined<T>(a: seq<T>, b: seq<T>, x: T)
    requires x in a && x in b
    ensures !Distinct(a + b)
  {
    var i :| 0 <= i < |a| && a[i] == x;
    var j :| 0 <= j < |b| && b[j] == x;
    assert (a + b)[i] == (a + b)[|a| + j];
  }

  /** A target on the row that was there and on the row that was added is a target twice, and would be requested twice
      at once. */
  lemma DoubledTarget(rows: seq<Row>, x: string, language: string, targets: seq<string>, l: string)
    requires x != "" && l in Usable(language, targets) && Base(l) != "" && Base(l) in ListAt(Grouped(rows).translate, x)
    ensures !Distinct(ListAt(Grouped(ProvisionedOne(rows, x, language, targets).rows).translate, x))
  {
    TargetsAfter(rows, x, language, targets);
    BasesAreListed(Usable(language, targets), l);
    TwiceJoined(ListAt(Grouped(rows).translate, x), LanguagesIn(Bases(Usable(language, targets))), Base(l));
  }

  /** A recording with a translation row into French and no transcription row. */
  const ONLY_TRANSLATED := [Row(1, "a", Translation, [Lang("fr")])]

  lemma FrenchAndEnglish()
    ensures Base("fr") == "fr" && Usable("en", ["fr"]) == ["fr"] && LanguagesIn([Lang("fr")]) == ["fr"]
  {
    assert "fr"[1..] == "r" && "r"[1..] == "";
    assert "en"[1..] == "n" && "n"[1..] == "";
    assert Lower("en")[0] == 'e' && Lower("fr")[0] == 'f';
    assert Front(["fr"]) == [];
    assert [Lang("fr")][1..] == [];
  }

  lemma OneTranslationReads(row: Row, l: string)
    requires row.xpath != "" && row.action == Translation && row.params == [Lang(l)] && l != ""
    ensures Grouped([row]).transcribe == [] && ListAt(Grouped([row]).translate, row.xpath) == [l]
  {
    assert [Lang(l)][1..] == [] && LanguagesIn([Lang(l)]) == [l];
    GroupedOnce([], row);
    AbsorbReads(NO_FEATURES, row, row.xpath);
    assert [] + [row] == [row];
  }

  lemma OnlyTranslatedReads()
    ensures Grouped(ONLY_TRANSLATED).transcribe == [] && ListAt(Grouped(ONLY_TRANSLATED).translate, "a") == ["fr"]
  {
    OneTranslationReads(ONLY_TRANSLATED[0], "fr");
  }

  lemma UnconfiguredAlone(f: Features, x: string)
    requires f.transcribe == []
    ensures Unconfigured(f, [x]) == [x]
  {
    assert Front([x]) == [];
  }

  lemma OneTargetMore(rows: seq<Row>, x: string, language: string, l: string)
    requires x != "" && Usable(language, [l]) == [l] && LanguagesIn([Lang(Base(l))]) == [l]
    ensures ListAt(Grouped(Provisioned(rows, [x], language, [l]).rows).translate, x) ==
            ListAt(Grouped(rows).translate, x) + [l]
  {
    assert Front([x]) == [];
    TargetsAfter(rows, x, language, [l]);
    assert Bases([l]) == [Lang(Base(l))];
  }

  /** It counts as one without transcription, and configuring it lists French twice. */
  lemma FrenchTwice()
    ensures Unconfigured(Grouped(ONLY_TRANSLATED), ["a"]) == ["a"]
    ensures ListAt(Grouped(Provisioned(ONLY_TRANSLATED, ["a"], "en", ["fr"]).rows).translate, "a") == ["fr", "fr"]
  {
    FrenchAndEnglish();
    OnlyTranslatedReads();
    UnconfiguredAlone(Grouped(ONLY_TRANSLATED), "a");
    OneTargetMore(ONLY_TRANSLATED, "a", "en", "fr");
  }

  lemma {:induction false} LanguageIsListed(params: seq<Param>, l: string)
    requires l != "" && Lang(l) in params
    ensures l in LanguagesIn(params)
  {
    if params[0] != Lang(l) {
      assert Lang(l) in params[1..];
      LanguageIsListed(params[1..], l);
    }
  }

  lemma BasesAreListed(languages: seq<string>, l: string)
    requires l in languages && Base(l) != ""
    ensures Base(l) in LanguagesIn(Bases(languages))
  {
    var i :| 0 <= i < |languages| && languages[i] == l;
    assert Bases(languages)[i] == Lang(Base(l));
    LanguageIsListed(Bases(languages), Base(l));
  }
}
