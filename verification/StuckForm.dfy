/** Forms whose jobs get stuck: the theorems about stuck jobs are about something. */
module StuckForm {
  import opened Versions
  import opened Languages
  import opened Features
  import opened Protocol
  import opened Jobs
  import opened Handlers
  import opened Plans
  import opened Safety
  import opened Runs
  import opened Outcomes
  import opened BackEdge

  const ENGLISH_A := Row(1, "a", Transcription, [Lang("en")])
  const ENGLISH_B := Row(2, "b", Transcription, [Lang("en")])
  const FRENCH_B := Row(3, "b", Translation, [Lang("fr")])
  const CONFIG := AssetConfig(true, "", false, [])
  const HEARD := Version(Some(1), Complete, "hello", "", true)
  const UNHEARD := Version(Some(1), Failed, "", "", false)
  const INTO_FRENCH := Entry("b", ["fr"])

  /** Two recordings in English, the second to be translated into French. */
  function GivenUpForm(): Context {
    Context(CONFIG, [ENGLISH_A, ENGLISH_B, FRENCH_B],
            Features([Entry("a", "en"), Entry("b", "en")], [], [INTO_FRENCH], [], []))
  }

  /** The first is transcribed and accepted, the second has failed twice. */
  function GivenUpDocument(): Doc {
    map[TranscriptOf("a") := [HEARD], TranscriptOf("b") := [UNHEARD, UNHEARD]]
  }

  /** The second recording has a translation row and no transcription row. */
  function UnlistedForm(): Context {
    Context(CONFIG, [ENGLISH_A, FRENCH_B], Features([Entry("a", "en")], [], [INTO_FRENCH], [], []))
  }

  /** Only the first was ever asked for. */
  function UnlistedDocument(): Doc {
    map[TranscriptOf("a") := [HEARD]]
  }

  // ---- the forms are sound ---------------------------------------------------------------

  lemma OneLanguage(l: string)
    requires l != ""
    ensures LanguagesIn([Lang(l)]) == [l]
  {
    assert [Lang(l)][1..] == [];
  }

  lemma OneMoreRow(rows: seq<Row>, row: Row)
    ensures Grouped(rows + [row]) == Absorb(Grouped(rows), row)
  {
    assert Front(rows + [row]) == rows;
  }

  lemma NotThere(x: string, value: string, y: string)
    requires x != y
    ensures Lookup([Entry(x, value)], y) == None
  {
    assert [Entry(x, value)][1..] == [];
  }

  lemma FirstRowGrouped()
    ensures Grouped([ENGLISH_A]) == NO_FEATURES.(transcribe := [Entry("a", "en")])
  {
    OneLanguage("en");
    OneMoreRow([], ENGLISH_A);
    assert [] + [ENGLISH_A] == [ENGLISH_A];
  }

  lemma FrenchAbsorbed(f: Features)
    requires f.translate == []
    ensures Absorb(f, FRENCH_B) == f.(translate := [INTO_FRENCH])
  {
    OneLanguage("fr");
    assert ListAt(f.translate, "b") + ["fr"] == ["fr"] && Put(f.translate, "b", ["fr"]) == [INTO_FRENCH];
  }

  lemma GivenUpFormIsLoaded()
    ensures Loaded(GivenUpForm())
  {
    var f := NO_FEATURES.(transcribe := [Entry("a", "en")]);
    FirstRowGrouped();
    OneLanguage("en");
    NotThere("a", "en", "b");
    OneMoreRow([ENGLISH_A], ENGLISH_B);
    assert Absorb(f, ENGLISH_B) == f.(transcribe := [Entry("a", "en"), Entry("b", "en")]);
    OneMoreRow([ENGLISH_A, ENGLISH_B], FRENCH_B);
    assert [ENGLISH_A] + [ENGLISH_B] == [ENGLISH_A, ENGLISH_B];
    assert [ENGLISH_A, ENGLISH_B] + [FRENCH_B] == [ENGLISH_A, ENGLISH_B, FRENCH_B];
    FrenchAbsorbed(f.(transcribe := [Entry("a", "en"), Entry("b", "en")]));
  }

  lemma UnlistedFormIsLoaded()
    ensures Loaded(UnlistedForm())
  {
    FirstRowGrouped();
    OneMoreRow([ENGLISH_A], FRENCH_B);
    assert [ENGLISH_A] + [FRENCH_B] == [ENGLISH_A, FRENCH_B];
    FrenchAbsorbed(NO_FEATURES.(transcribe := [Entry("a", "en")]));
  }

  lemma BareCodes()
    ensures Base("en") == "en" && Base("fr") == "fr" && Lower("en") != Lower("fr") && Base("") == ""
  {
    assert "en"[1..] == "n" && "fr"[1..] == "r" && "n"[1..] == "" && "r"[1..] == "";
    assert Lower("en")[0] == 'e' && Lower("fr")[0] == 'f';
  }

  lemma GivenUpFormIsWellFormed()
    ensures WellFormed(GivenUpForm().features)
  {
    BareCodes();
    var f := GivenUpForm().features;
    assert forall e | e in f.transcribe :: e == f.transcribe[0] || e == f.transcribe[1];
    assert forall e | e in f.translate :: e == f.translate[0];
  }

  lemma UnlistedFormIsWellFormed()
    ensures WellFormed(UnlistedForm().features)
  {
    BareCodes();
    var f := UnlistedForm().features;
    assert forall e | e in f.transcribe :: e == f.transcribe[0];
    assert forall e | e in f.translate :: e == f.translate[0];
  }

  lemma OneTarget()
    ensures Targets(GivenUpForm(), INTO_FRENCH) == ["fr"] && Targets(UnlistedForm(), INTO_FRENCH) == ["fr"]
  {
    BareCodes();
    assert GivenUpForm().features.transcribe[1..] == [Entry("b", "en")];
    assert SourceOf(GivenUpForm(), "b") == "en";
    NotThere("a", "en", "b");
    assert SourceOf(UnlistedForm(), "b") == "";
    assert Front(["fr"]) == [];
  }

  // ---- and stuck -------------------------------------------------------------------------

  lemma HeardIsGood(now: int)
    requires now >= 1
    ensures InOrder([HEARD], now) && State([HEARD]) == Complete && Accepted([HEARD]) && !Silent([HEARD])
  {
    SortedStays([HEARD]);
    assert !Blank("hello") by {
      assert 'h' in "hello" && !IsSpace('h');
    }
  }

  lemma UnheardIsInOrder(now: int)
    requires now >= 1
    ensures InOrder([UNHEARD, UNHEARD], now)
  {
  }

  lemma TwoFailures(v: Version)
    requires v.created.Some? && v.status == Failed && !v.accepted
    ensures Ordered([v, v]) == [v, v] && Streak([v, v]) == 2
  {
    Twice(v);
    StreakIs([v, v], 2);
  }

  lemma Twice(v: Version)
    ensures Ordered([v, v]) == [v, v]
  {
    SortedStays([v, v]);
  }

  lemma UnheardIsSpent()
    ensures Exhausted([UNHEARD, UNHEARD]) && !Accepted([UNHEARD, UNHEARD])
  {
    TwoFailures(UNHEARD);
  }

  lemma DocumentsAreInOrder(now: int)
    requires now >= 1
    ensures DocInOrder(GivenUpDocument(), now) && DocInOrder(UnlistedDocument(), now)
  {
    HeardIsGood(now);
    UnheardIsInOrder(now);
  }

  lemma GoodMove(ctx: Context, doc: Doc, now: int, stall: nat, e: Entry<string>)
    requires var versions := Node(doc, TranscriptOf(e.xpath));
             State(versions) == Complete && Accepted(versions) && !Silent(versions)
    ensures TranscriptMove(ctx, doc, now, stall, e) == Good
  {
  }

  lemma SpentMove(ctx: Context, doc: Doc, now: int, stall: nat, e: Entry<string>)
    requires Exhausted(Node(doc, TranscriptOf(e.xpath)))
    ensures TranscriptMove(ctx, doc, now, stall, e) == Spent
  {
  }

  lemma GoodAndSpentArePast(moves: seq<Move>)
    requires moves != [] && moves[0] == Good && forall i | 0 <= i < |moves| :: moves[i] == Good || moves[i] == Spent
    ensures !Busy(moves) && Good in moves
  {
    assert moves[0] in moves;
  }

  lemma GivenUpMoves(now: int, stall: nat)
    requires now >= 1
    ensures TranscriptMove(GivenUpForm(), GivenUpDocument(), now, stall, Entry("a", "en")) == Good
    ensures TranscriptMove(GivenUpForm(), GivenUpDocument(), now, stall, Entry("b", "en")) == Spent
  {
    HeardIsGood(now);
    UnheardIsSpent();
    GoodMove(GivenUpForm(), GivenUpDocument(), now, stall, Entry("a", "en"));
    SpentMove(GivenUpForm(), GivenUpDocument(), now, stall, Entry("b", "en"));
  }

  lemma TwoMoves(ctx: Context, s: Settings, doc: Doc, now: int, e: Entry<string>, e': Entry<string>)
    requires ctx.features.transcribe == [e, e']
    requires TranscriptMove(ctx, doc, now, s.stall, e) == Good && TranscriptMove(ctx, doc, now, s.stall, e') == Spent
    ensures PastTranscripts(ctx, s, doc, now)
  {
    GoodAndSpentArePast(TranscriptMoves(ctx, doc, now, s.stall));
  }

  lemma GivenUpIsPast(s: Settings, now: int)
    requires now >= 1
    ensures PastTranscripts(GivenUpForm(), s, GivenUpDocument(), now)
  {
    GivenUpMoves(now, s.stall);
    TwoMoves(GivenUpForm(), s, GivenUpDocument(), now, Entry("a", "en"), Entry("b", "en"));
  }

  lemma UnlistedIsPast(s: Settings, now: int)
    requires now >= 1
    ensures PastTranscripts(UnlistedForm(), s, UnlistedDocument(), now)
  {
    HeardIsGood(now);
    GoodMove(UnlistedForm(), UnlistedDocument(), now, s.stall, Entry("a", "en"));
    GoodAndSpentArePast(TranscriptMoves(UnlistedForm(), UnlistedDocument(), now, s.stall));
  }

  lemma BothAreHungry()
    ensures Hungry(GivenUpForm(), GivenUpDocument(), INTO_FRENCH) &&
            Hungry(UnlistedForm(), UnlistedDocument(), INTO_FRENCH)
  {
    OneTarget();
    UnheardIsSpent();
    SortedStays([]);
  }

  lemma OneHungryRecording(ctx: Context, s: Settings, doc: Doc, now: int, e: Entry<seq<string>>)
    requires DocInOrder(doc, now) && PastTranscripts(ctx, s, doc, now)
    requires ctx.features.translate == [e] && Hungry(ctx, doc, e)
    ensures Stuck(ctx, s, doc, now)
  {
    var lists := TranslationLists(ctx, doc, now, s.stall);
    BlockedUnlessEmpty(ctx, doc, now, s.stall, e);
    IdleLists(lists);
    assert e in ctx.features.translate;
  }

  /** There are sound forms and documents on which a job is stuck: over a recording that was given up,
      and over one that nobody ever asks for. */
  lemma StuckFormsExist(s: Settings, now: int)
    requires now >= 1
    ensures Sound(GivenUpForm()) && Stuck(GivenUpForm(), s, GivenUpDocument(), now)
    ensures Sound(UnlistedForm()) && Stuck(UnlistedForm(), s, UnlistedDocument(), now)
  {
    GivenUpFormIsLoaded();
    UnlistedFormIsLoaded();
    GivenUpFormIsWellFormed();
    UnlistedFormIsWellFormed();
    DocumentsAreInOrder(now);
    GivenUpIsPast(s, now);
    UnlistedIsPast(s, now);
    BothAreHungry();
    OneHungryRecording(GivenUpForm(), s, GivenUpDocument(), now, INTO_FRENCH);
    OneHungryRecording(UnlistedForm(), s, UnlistedDocument(), now, INTO_FRENCH);
  }

  function NewJob(doc: Doc, now: int): World {
    World(now, Job(New, 0, 0, now, now, now), doc, map[], Stats(0, 0, 0, 0))
  }

  lemma OneWorldRun(s: Settings, ctx: Context, doc: Doc, now: int)
    requires now >= 1 && Stuck(ctx, s, doc, now)
    ensures IsRun(s, ctx, [NewJob(doc, now)]) && Circling(s, ctx, NewJob(doc, now))
  {
  }

  /** Runs that start there are stuck from their start. */
  lemma StuckRunsExist(s: Settings, now: int)
    requires now >= 1
    ensures IsRun(s, GivenUpForm(), [NewJob(GivenUpDocument(), now)]) &&
            Circling(s, GivenUpForm(), NewJob(GivenUpDocument(), now))
    ensures IsRun(s, UnlistedForm(), [NewJob(UnlistedDocument(), now)]) &&
            Circling(s, UnlistedForm(), NewJob(UnlistedDocument(), now))
  {
    StuckFormsExist(s, now);
    OneWorldRun(s, GivenUpForm(), GivenUpDocument(), now);
    OneWorldRun(s, UnlistedForm(), UnlistedDocument(), now);
  }
}
