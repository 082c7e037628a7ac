/** Language codes: the base code, the region, and which of the two a request names. */
module Languages {

  predicate IsSeparator(c: char) {
    c == '-' || c == '_'
  }

  /** The code up to its first separator. */
  function Base(code: string): (base: string)
    ensures base <= code
    ensures forall c | c in base :: !IsSeparator(c)
  {
    if code == "" || IsSeparator(code[0]) then "" else [code[0]] + Base(code[1..])
  }

  predicate NamedBases(codes: seq<string>) {
    forall i | 0 <= i < |codes| :: Base(codes[i]) != ""
  }

  predicate DistinctBases(codes: seq<string>) {
    forall i, j | 0 <= i < j < |codes| :: Base(codes[i]) != Base(codes[j])
  }

  function Dashed(code: string): (dashed: string)
    ensures |dashed| == |code|
  {
    seq(|code|, i requires 0 <= i < |code| => if code[i] == '_' then '-' else code[i])
  }

  /** "pt_BR" becomes ("pt", "BR"); a bare code has an empty region. */
  function SplitLanguage(code: string): (string, string) {
    var base := Base(code);
    (base, if |base| < |code| then Dashed(code)[|base| + 1..] else "")
  }

  /** A code with nothing to split off. */
  predicate Bare(code: string) {
    Base(code) == code
  }

  function LowerChar(c: char): char {
    if 'A' <= c <= 'Z' then (c as int + 32) as char else c
  }

  function Lower(s: string): (r: string)
    ensures |r| == |s|
  {
    seq(|s|, i requires 0 <= i < |s| => LowerChar(s[i]))
  }

  /** The form's own regional code when it refines the row's, else the row's. */
  function RequestLanguage(configured: string, row: string): string {
    if configured != "" && Base(configured) == Base(row) then configured else row
  }

  /** The locale sent with a request; a bare code sends none. */
  function Locale(code: string): string {
    if SplitLanguage(code).1 == "" then "" else Dashed(code)
  }

  predicate NoSeparator(text: string) {
    forall c | c in text :: !IsSeparator(c)
  }

  lemma {:induction false} BaseOfJoined(base: string, c: char, rest: string)
    requires NoSeparator(base) && IsSeparator(c)
    ensures Base(base) == base && Base(base + [c] + rest) == base
  {
    var code := base + [c] + rest;
    if base == "" {
      assert code[0] == c;
    } else {
      assert code[1..] == base[1..] + [c] + rest && base == [base[0]] + base[1..];
      BaseOfJoined(base[1..], c, rest);
    }
  }

  lemma DashedPlain(text: string)
    requires NoSeparator(text)
    ensures Dashed(text) == text
  {
    forall i | 0 <= i < |text| ensures Dashed(text)[i] == text[i] {
      assert text[i] in text;
    }
  }

  /** A code written with either separator is split into its base and its region, letter by letter, and its locale
      spells both with a dash; a code without region sends no locale. */
  lemma RegionalCode(base: string, region: string)
    requires NoSeparator(base) && NoSeparator(region)
    ensures SplitLanguage(base + "-" + region) == SplitLanguage(base + "_" + region) == (base, region)
    ensures Locale(base + "-" + region) == Locale(base + "_" + region) ==
            if region == "" then "" else base + "-" + region
    ensures SplitLanguage(base) == (base, "") && Locale(base) == ""
  {
    BaseOfJoined(base, '-', region);
    BaseOfJoined(base, '_', region);
    DashedPlain(base);
    DashedPlain(region);
    assert Dashed(base + "-" + region) == base + "-" + region;
    assert Dashed(base + "_" + region) == base + "-" + region;
    assert (base + "-" + region)[|base| + 1..] == region;
  }

  lemma {:induction false} BaseIsBare(code: string)
    ensures Bare(Base(code))
  {
    if code != "" && !IsSeparator(code[0]) {
      BaseIsBare(code[1..]);
      assert Base(code)[1..] == Base(code[1..]);
    }
  }

  lemma {:induction false} BaseStopsAtSeparator(code: string)
    ensures |Base(code)| < |code| ==> IsSeparator(code[|Base(code)|])
  {
    if code != "" && !IsSeparator(code[0]) {
      BaseStopsAtSeparator(code[1..]);
    }
  }

  /** Splitting loses nothing but the spelling of the separator, and the base never holds one. */
  lemma SplitRoundTrip(code: string)
    ensures var (base, region) := SplitLanguage(code);
            Bare(base) && '-' !in base && '_' !in base &&
            (Dashed(code) == base + "-" + region || (Dashed(code) == base && region == ""))
  {
    var (base, region) := SplitLanguage(code);
    BaseIsBare(code);
    BaseStopsAtSeparator(code);
    if |base| < |code| {
      var dashed := Dashed(code);
      assert forall i | 0 <= i < |base| :: base[i] == code[i] && !IsSeparator(base[i]) && dashed[i] == base[i];
      assert dashed[..|base|] == base;
      assert dashed == dashed[..|base|] + [dashed[|base|]] + dashed[|base| + 1..];
    } else {
      assert forall i | 0 <= i < |base| :: base[i] == code[i] && !IsSeparator(base[i]);
    }
  }

  /** Whatever the settings say, the language asked for has the row's base. */
  lemma RequestKeepsTheRowBase(configured: string, row: string)
    ensures Base(RequestLanguage(configured, row)) == Base(row)
    ensures RequestLanguage(configured, row) == row ||
            (configured != "" && RequestLanguage(configured, row) == configured)
    ensures configured != "" && configured != row ==>
              (RequestLanguage(configured, row) == configured <==> Base(configured) == Base(row))
    ensures Bare(row) ==> SplitLanguage(RequestLanguage(configured, row)).0 == row
  {
  }

  lemma {:induction false} DashedBase(code: string)
    ensures Base(Dashed(code)) == Base(code)
  {
    if code != "" && !IsSeparator(code[0]) {
      assert Dashed(code)[1..] == Dashed(code[1..]);
      DashedBase(code[1..]);
    }
  }

  lemma DashedTwice(code: string)
    ensures Dashed(Dashed(code)) == Dashed(code)
  {
  }

  /** The locale is the whole regional code, spelled with a dash: it is sent exactly when there is a region,
      and base and region can be read back from it. */
  lemma LocaleNamesTheRegion(code: string)
    ensures Locale(code) == "" <==> SplitLanguage(code).1 == ""
    ensures Locale(code) != "" ==> SplitLanguage(Locale(code)) == SplitLanguage(code)
  {
    DashedBase(code);
    DashedTwice(code);
  }
}
