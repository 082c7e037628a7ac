/** Reading an action's append-only version list: its order, latest entry, failure streak and stall clock. */
module Versions {

  datatype Option<+T> = None | Some(value: T)

  /** Missing stands for an absent status: no version, no data, or data without a status. */
  datatype Status = Missing | InProgress | Complete | Failed | Other(name: string)

  /** `created` is absent when the version carries no date; `started` of such a version is unknown. */
  datatype Version = Version(created: Option<int>, status: Status, text: string, error: string, accepted: bool)

  const MAX_ACTION_FAILURES := 2

  // ---- order --------------------------------------------------------------

  predicate AllDated(versions: seq<Version>) {
    forall v | v in versions :: v.created.Some?
  }

  function Date(v: Version): int {
    match v.created case None => 0 case Some(date) => date
  }

  predicate DateSorted(versions: seq<Version>) {
    forall i, j | 0 <= i < j < |versions| :: Date(versions[i]) <= Date(versions[j])
  }

  predicate DistinctDates(versions: seq<Version>) {
    forall i, j | 0 <= i < j < |versions| :: Date(versions[i]) != Date(versions[j])
  }

  function Last<T>(s: seq<T>): T
    requires s != []
  {
    s[|s| - 1]
  }

  function Front<T>(s: seq<T>): seq<T>
    requires s != []
  {
    s[..|s| - 1]
  }

  /** Place v after every version dated no later than it. */
  function Place(sorted: seq<Version>, v: Version): (r: seq<Version>)
    ensures multiset(r) == multiset(sorted) + multiset{v}
  {
    if sorted == [] || Date(Last(sorted)) <= Date(v) then sorted + [v]
    else
      assert sorted == Front(sorted) + [Last(sorted)];
      Place(Front(sorted), v) + [Last(sorted)]
  }

  /** A stable sort by creation date. */
  function SortByDate(versions: seq<Version>): (r: seq<Version>)
    ensures multiset(r) == multiset(versions)
  {
    if versions == [] then [] else
      assert versions == Front(versions) + [Last(versions)];
      Place(SortByDate(Front(versions)), Last(versions))
  }

  /** Oldest first when every version is dated, list order otherwise. */
  function Ordered(versions: seq<Version>): (r: seq<Version>)
    ensures multiset(r) == multiset(versions)
  {
    if AllDated(versions) then SortByDate(versions) else versions
  }

  lemma SameMembers<T>(a: seq<T>, b: seq<T>)
    requires multiset(a) == multiset(b)
    ensures |a| == |b|
    ensures forall x :: x in a <==> x in b
  {
    assert |multiset(a)| == |a| && |multiset(b)| == |b|;
    forall x ensures x in a <==> x in b {
      assert x in a <==> x in multiset(a);
      assert x in b <==> x in multiset(b);
    }
  }

  lemma PlacedIsEarlier(sorted: seq<Version>, v: Version)
    requires DateSorted(sorted) && sorted != [] && Date(Last(sorted)) > Date(v)
    ensures forall i | 0 <= i < |Place(Front(sorted), v)| :: Date(Place(Front(sorted), v)[i]) <= Date(Last(sorted))
  {
    var placed := Place(Front(sorted), v);
    SameMembers(placed, Front(sorted) + [v]);
    forall i | 0 <= i < |placed| ensures Date(placed[i]) <= Date(Last(sorted)) {
      assert placed[i] in Front(sorted) + [v];
    }
  }

  lemma {:induction false} PlaceKeepsSorted(sorted: seq<Version>, v: Version)
    requires DateSorted(sorted)
    ensures DateSorted(Place(sorted, v))
  {
    if sorted != [] && Date(Last(sorted)) > Date(v) {
      PlaceKeepsSorted(Front(sorted), v);
      PlacedIsEarlier(sorted, v);
    }
  }

  lemma {:induction false} SortIsSorted(versions: seq<Version>)
    ensures DateSorted(SortByDate(versions))
  {
    if versions != [] {
      SortIsSorted(Front(versions));
      PlaceKeepsSorted(SortByDate(Front(versions)), Last(versions));
    }
  }

  /** A list already in date order is read as it stands, so the sort is stable. */
  lemma {:induction false} SortedStays(versions: seq<Version>)
    requires DateSorted(versions)
    ensures Ordered(versions) == versions && SortByDate(versions) == versions
  {
    if versions != [] {
      SortedStays(Front(versions));
      assert Front(versions) + [Last(versions)] == versions;
    }
  }

  function OfDate(versions: seq<Version>, date: int): seq<Version> {
    if versions == [] then []
    else if Date(Last(versions)) == date then OfDate(Front(versions), date) + [Last(versions)]
    else OfDate(Front(versions), date)
  }

  lemma {:induction false} PlaceIsStable(sorted: seq<Version>, v: Version, date: int)
    requires DateSorted(sorted)
    ensures OfDate(Place(sorted, v), date) == OfDate(sorted + [v], date)
  {
    assert Front(sorted + [v]) == sorted;
    if sorted != [] && Date(Last(sorted)) > Date(v) {
      var placed := Place(Front(sorted), v);
      PlaceIsStable(Front(sorted), v, date);
      assert Front(placed + [Last(sorted)]) == placed && Front(Front(sorted) + [v]) == Front(sorted);
    }
  }

  /** Sorting keeps the versions of one date in the order in which they are listed. */
  lemma {:induction false} SortIsStable(versions: seq<Version>, date: int)
    ensures OfDate(SortByDate(versions), date) == OfDate(versions, date)
  {
    if versions != [] {
      SortIsStable(Front(versions), date);
      SortIsSorted(Front(versions));
      PlaceIsStable(SortByDate(Front(versions)), Last(versions), date);
      assert Front(SortByDate(Front(versions)) + [Last(versions)]) == SortByDate(Front(versions));
    }
  }

  /** A list with an undated version is read as it stands, whatever the dates of the others. */
  lemma UndatedIsListed(versions: seq<Version>, i: nat)
    requires i < |versions| && versions[i].created.None?
    ensures Ordered(versions) == versions
  {
    assert versions[i] in versions;
  }

  /** Two date-ordered lists with the same versions and no shared date are the same list. */
  lemma {:induction false} SortedIsUnique(a: seq<Version>, b: seq<Version>)
    requires multiset(a) == multiset(b)
    requires DateSorted(a) && DistinctDates(a) && DateSorted(b)
    ensures a == b
  {
    SameMembers(a, b);
    if a != [] {
      LastIsTheLatest(a, b);
      DropLast(a);
      DropLast(b);
      SortedIsUnique(Front(a), Front(b));
      SameEnds(a, b);
    }
  }

  lemma SameEnds<T>(a: seq<T>, b: seq<T>)
    requires a != [] && b != [] && Front(a) == Front(b) && Last(a) == Last(b)
    ensures a == b
  {
    assert a == Front(a) + [Last(a)] && b == Front(b) + [Last(b)];
  }

  lemma DropLast<T>(s: seq<T>)
    requires s != []
    ensures multiset(Front(s)) == multiset(s) - multiset{Last(s)}
  {
    assert s == Front(s) + [Last(s)];
  }

  lemma LastIsTheLatest(a: seq<Version>, b: seq<Version>)
    requires a != [] && b != [] && forall x :: x in a <==> x in b
    requires DateSorted(a) && DistinctDates(a) && DateSorted(b)
    ensures Last(a) == Last(b)
  {
    assert Last(a) in b && Last(b) in a;
    var i :| 0 <= i < |b| && b[i] == Last(a);
    var j :| 0 <= j < |a| && a[j] == Last(b);
    assert Date(Last(a)) <= Date(Last(b)) <= Date(Last(a));
  }

  lemma DistinctAfterShuffle(a: seq<Version>, b: seq<Version>)
    requires multiset(a) == multiset(b) && DistinctDates(a)
    ensures DistinctDates(b)
  {
    SameMembers(a, b);
    forall i, j | 0 <= i < j < |b| ensures Date(b[i]) != Date(b[j]) {
      if Date(b[i]) == Date(b[j]) {
        assert b[i] in a && b[j] in a;
        var k :| 0 <= k < |a| && a[k] == b[i];
        var l :| 0 <= l < |a| && a[l] == b[j];
        assert k == l;
        TwiceInside(b, i, j);
        OnceInside(a, k);
        assert false;
      }
    }
  }

  lemma TwiceInside(s: seq<Version>, i: nat, j: nat)
    requires i < j < |s| && s[i] == s[j]
    ensures multiset(s)[s[i]] >= 2
  {
    assert s == s[..j] + [s[j]] + s[j + 1..];
    assert s[i] in s[..j];
  }

  lemma OnceInside(s: seq<Version>, k: nat)
    requires k < |s| && DistinctDates(s)
    ensures multiset(s)[s[k]] == 1
  {
    assert s == s[..k] + [s[k]] + s[k + 1..];
    assert s[k] !in s[..k] && s[k] !in s[k + 1..];
  }

  /** However the server lists them, distinctly dated versions are read in one order. */
  lemma OrderIndependent(a: seq<Version>, b: seq<Version>)
    requires multiset(a) == multiset(b)
    requires AllDated(a) && DistinctDates(a)
    ensures Ordered(a) == Ordered(b)
  {
    SameMembers(a, b);
    SortIsSorted(a);
    SortIsSorted(b);
    DistinctAfterShuffle(a, SortByDate(a));
    SortedIsUnique(SortByDate(a), SortByDate(b));
  }

  // ---- readers over an ordered list ----------------------------------------

  function State(versions: seq<Version>): Status {
    var o := Ordered(versions);
    if o == [] then Missing else Last(o).status
  }

  predicate Accepted(versions: seq<Version>) {
    var o := Ordered(versions);
    o != [] && Last(o).accepted
  }

  predicate IsSpace(c: char) {
    '\t' <= c <= '\r' || '\U{1c}' <= c <= ' ' || c == '\U{85}' || c == '\U{a0}' || c == '\U{1680}' ||
    '\U{2000}' <= c <= '\U{200a}' || c == '\U{2028}' || c == '\U{2029}' || c == '\U{202f}' ||
    c == '\U{205f}' || c == '\U{3000}'
  }

  predicate Blank(text: string) {
    forall c | c in text :: IsSpace(c)
  }

  /** The characters that Python strips. */
  const BLANKS := "\t\n\U{b}\U{c}\r\U{1c}\U{1d}\U{1e}\U{1f} \U{85}\U{a0}\U{1680}\U{2000}\U{2001}\U{2002}\U{2003}" +
    "\U{2004}\U{2005}\U{2006}\U{2007}\U{2008}\U{2009}\U{200a}\U{2028}\U{2029}\U{202f}\U{205f}\U{3000}"

  /** A text is blank exactly when it is made of these. */
  lemma BlankIff(text: string)
    ensures Blank(text) <==> forall c | c in text :: c in BLANKS
  {
    forall c ensures IsSpace(c) <==> c in BLANKS {
      SpaceIsBlank(c);
    }
  }

  lemma SpaceIsBlank(c: char)
    ensures IsSpace(c) <==> c in BLANKS
  {
    assert BLANKS[0] == '\t' && BLANKS[1] == '\n' && BLANKS[2] == '\U{b}' && BLANKS[3] == '\U{c}' && BLANKS[4] == '\r';
    assert BLANKS[5] == '\U{1c}' && BLANKS[6] == '\U{1d}' && BLANKS[7] == '\U{1e}' && BLANKS[8] == '\U{1f}';
    assert BLANKS[9] == ' ' && BLANKS[10] == '\U{85}' && BLANKS[11] == '\U{a0}' && BLANKS[12] == '\U{1680}';
    assert BLANKS[13] == '\U{2000}' && BLANKS[14] == '\U{2001}' && BLANKS[15] == '\U{2002}' && BLANKS[16] == '\U{2003}';
    assert BLANKS[17] == '\U{2004}' && BLANKS[18] == '\U{2005}' && BLANKS[19] == '\U{2006}' && BLANKS[20] == '\U{2007}';
    assert BLANKS[21] == '\U{2008}' && BLANKS[22] == '\U{2009}' && BLANKS[23] == '\U{200a}' && BLANKS[24] == '\U{2028}';
    assert BLANKS[25] == '\U{2029}' && BLANKS[26] == '\U{202f}' && BLANKS[27] == '\U{205f}' && BLANKS[28] == '\U{3000}';
  }

  /** Finished, and nothing but white space came of it. */
  predicate Silent(versions: seq<Version>) {
    State(versions) == Complete && Blank(Last(Ordered(versions)).text)
  }

  function ErrorText(versions: seq<Version>): string {
    var o := Ordered(versions);
    if o == [] then "" else Last(o).error
  }

  /** How many versions at the end of the list have failed. */
  function Streak(ordered: seq<Version>): (n: nat)
    ensures n <= |ordered|
    ensures forall i | |ordered| - n <= i < |ordered| :: ordered[i].status == Failed
    ensures n < |ordered| ==> ordered[|ordered| - n - 1].status != Failed
  {
    if ordered == [] || Last(ordered).status != Failed then 0
    else 1 + Streak(ordered[..|ordered| - 1])
  }

  /** The longest run of failures at the end is the only count with both marks. */
  lemma {:induction false} StreakIs(ordered: seq<Version>, n: nat)
    requires n <= |ordered|
    requires forall i | |ordered| - n <= i < |ordered| :: ordered[i].status == Failed
    requires n < |ordered| ==> ordered[|ordered| - n - 1].status != Failed
    ensures Streak(ordered) == n
  {
    if n > 0 {
      StreakIs(ordered[..|ordered| - 1], n - 1);
    }
  }

  method FailureStreak(versions: seq<Version>) returns (streak: nat)
    ensures streak == Streak(Ordered(versions))
  {
    var ordered := Ordered(versions);
    streak := 0;
    var i := |ordered|;
    while i > 0
      invariant 0 <= i <= |ordered| && streak == |ordered| - i
      invariant forall j | i <= j < |ordered| :: ordered[j].status == Failed
    {
      i := i - 1;
      if ordered[i].status == Failed {
        streak := streak + 1;
      } else {
        StreakIs(ordered, streak);
        return;
      }
    }
    StreakIs(ordered, streak);
  }

  /** The age of the latest version while it is still running; any other version, or one without a date, counts as
      new. */
  function StalledFor(versions: seq<Version>, now: int): (seconds: nat)
  {
    if State(versions) != InProgress then 0 else
      match Last(Ordered(versions)).created
      case None => 0
      case Some(started) => if started != 0 && now > started then now - started else 0
  }

  /** Two failures in a row: the action is not asked for again. */
  predicate Exhausted(versions: seq<Version>) {
    State(versions) == Failed && Streak(Ordered(versions)) >= MAX_ACTION_FAILURES
  }

  /** All six readers agree on any two listings of the same distinctly dated versions. */
  lemma ReadersAgree(a: seq<Version>, b: seq<Version>, now: int)
    requires multiset(a) == multiset(b)
    requires AllDated(a) && DistinctDates(a)
    ensures State(a) == State(b) && Accepted(a) == Accepted(b) && Silent(a) == Silent(b)
    ensures ErrorText(a) == ErrorText(b)
    ensures Streak(Ordered(a)) == Streak(Ordered(b)) && Exhausted(a) == Exhausted(b)
    ensures StalledFor(a, now) == StalledFor(b, now)
  {
    OrderIndependent(a, b);
  }
}
