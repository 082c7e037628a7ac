/** Finding the recordings of a form: a walk over its flat rows with a stack of group names. */
module FormPaths {
  import opened Versions

  /** A row of the form; an absent name is empty. */
  datatype FormRow = FormRow(kind: string, autoname: string, name: string)

  const MEDIA_TYPES := {"audio", "background-audio", "video"}
  const BEGINS := {"begin_group", "begin_repeat"}
  const ENDS := {"end_group", "end_repeat"}

  function NameOf(row: FormRow): string {
    if row.autoname != "" then row.autoname else row.name
  }

  function Joined(names: seq<string>): string {
    if names == [] then ""
    else if |names| == 1 then names[0]
    else Joined(Front(names)) + "/" + Last(names)
  }

  /** A path cut at its slashes. */
  function Parts(path: string): (parts: seq<string>)
    ensures parts != []
  {
    if path == "" then [""]
    else
      var rest := Parts(path[1..]);
      if path[0] == '/' then [""] + rest else [[path[0]] + rest[0]] + rest[1..]
  }

  lemma {:induction false} JoinedInTwo(a: seq<string>, b: seq<string>)
    requires a != [] && b != []
    ensures Joined(a + b) == Joined(a) + "/" + Joined(b)
  {
    var n := |b| - 1;
    assert Front(a + b) == a + Front(b) && Last(a + b) == b[n];
    if n == 0 {
      assert a + Front(b) == a;
    } else {
      JoinedInTwo(a, Front(b));
    }
  }

  lemma {:induction false} PartsInTwo(name: string, path: string)
    requires '/' !in name
    ensures Parts(name) == [name] && Parts(name + "/" + path) == [name] + Parts(path)
  {
    var all := name + "/" + path;
    if name == "" {
      assert all[1..] == path;
    } else {
      PartsInTwo(name[1..], path);
      assert all[1..] == name[1..] + "/" + path;
      assert name == [name[0]] + name[1..];
    }
  }

  /** A joined path cut at its slashes gives its names back, outermost first. */
  lemma {:induction false} JoinedParts(names: seq<string>)
    requires names != [] && forall name | name in names :: '/' !in name
    ensures Parts(Joined(names)) == names
  {
    if |names| == 1 {
      PartsInTwo(names[0], "");
    } else {
      FirstJoined(names);
      JoinedParts(names[1..]);
      PartsInTwo(names[0], Joined(names[1..]));
      assert names == [names[0]] + names[1..];
    }
  }

  lemma FirstJoined(names: seq<string>)
    requires |names| > 1
    ensures Joined(names) == names[0] + "/" + Joined(names[1..])
  {
    assert names == [names[0]] + names[1..];
    JoinedInTwo([names[0]], names[1..]);
  }

  /** What one row adds to the result. */
  function Found(groups: seq<string>, row: FormRow): seq<string> {
    if row.kind !in BEGINS && row.kind !in ENDS && row.kind in MEDIA_TYPES && NameOf(row) != ""
    then [Joined(groups + [NameOf(row)])] else []
  }

  /** What one row does to the stack. An unnamed group is not pushed; every end pops. */
  function Moved(groups: seq<string>, row: FormRow): seq<string> {
    if row.kind in BEGINS then (if NameOf(row) != "" then groups + [NameOf(row)] else groups)
    else if row.kind in ENDS && groups != [] then Front(groups)
    else groups
  }

  /** The stack after these rows, and what they add to the result. */
  function StackAfter(groups: seq<string>, rows: seq<FormRow>): seq<string> {
    if rows == [] then groups else Moved(StackAfter(groups, Front(rows)), Last(rows))
  }

  function FoundIn(groups: seq<string>, rows: seq<FormRow>): seq<string> {
    if rows == [] then [] else FoundIn(groups, Front(rows)) + Found(StackAfter(groups, Front(rows)), Last(rows))
  }

  method MediaQuestionXpaths(survey: seq<FormRow>) returns (out: seq<string>)
    ensures out == FoundIn([], survey)
  {
    var groups: seq<string> := [];
    out := [];
    for i := 0 to |survey|
      invariant groups == StackAfter([], survey[..i]) && out == FoundIn([], survey[..i])
    {
      assert Front(survey[..i + 1]) == survey[..i];
      var row := survey[i];
      var name := if row.autoname != "" then row.autoname else row.name;
      if row.kind in BEGINS {
        if name != "" {
          groups := groups + [name];
        }
      } else if row.kind in ENDS {
        if groups != [] {
          groups := groups[..|groups| - 1];
        }
      } else if row.kind in MEDIA_TYPES && name != "" {
        out := out + [Joined(groups + [name])];
      }
    }
    assert survey[..|survey|] == survey;
  }

  // ---- the form as a tree ------------------------------------------------------------------

  datatype Item = Group(begin: FormRow, end: FormRow, items: seq<Item>) | Leaf(row: FormRow)

  predicate HasName(begin: FormRow) {
    NameOf(begin) != ""
  }

  /** Groups open and close with their own kind of row, named or not; questions are any other rows. */
  predicate Nested(item: Item) {
    match item
    case Group(begin, end, items) => begin.kind in BEGINS && end.kind in ENDS &&
      forall i | 0 <= i < |items| :: Nested(items[i])
    case Leaf(row) => row.kind !in BEGINS && row.kind !in ENDS
  }

  predicate AllNested(items: seq<Item>) {
    forall i | 0 <= i < |items| :: Nested(items[i])
  }

  function Rows(item: Item): seq<FormRow> {
    match item
    case Group(begin, end, items) => [begin] + AllRows(items) + [end]
    case Leaf(row) => [row]
  }

  function AllRows(items: seq<Item>): seq<FormRow> {
    if items == [] then [] else Rows(items[0]) + AllRows(items[1..])
  }

  predicate IsRecording(row: FormRow) {
    row.kind in MEDIA_TYPES && NameOf(row) != ""
  }

  /** The paths of the named media questions, in document order; a group without a name adds nothing to them. */
  function Paths(prefix: seq<string>, item: Item): seq<string>
    decreases item
  {
    match item
    case Group(begin, _, items) => AllPaths(if HasName(begin) then prefix + [NameOf(begin)] else prefix, items)
    case Leaf(row) => if IsRecording(row) then [Joined(prefix + [NameOf(row)])] else []
  }

  function AllPaths(prefix: seq<string>, items: seq<Item>): seq<string>
    decreases items
  {
    if items == [] then [] else Paths(prefix, items[0]) + AllPaths(prefix, items[1..])
  }

  // ---- what a group without a name does to the walk -------------------------------------------

  /** What matters of a form here, in document order: a recording, or the end of a group without a name. */
  datatype Mark = Recording | UnnamedEnd

  function Marks(item: Item): seq<Mark>
    decreases item
  {
    match item
    case Group(begin, _, items) => AllMarks(items) + if HasName(begin) then [] else [UnnamedEnd]
    case Leaf(row) => if IsRecording(row) then [Recording] else []
  }

  function AllMarks(items: seq<Item>): seq<Mark>
    decreases items
  {
    if items == [] then [] else Marks(items[0]) + AllMarks(items[1..])
  }

  /** No recording comes after the end of a group without a name. */
  predicate NoneAfter(marks: seq<Mark>) {
    forall i, j | 0 <= i < j < |marks| :: !(marks[i] == UnnamedEnd && marks[j] == Recording)
  }

  /** In no named group does a recording come after the end of a group without a name. */
  predicate Clean(item: Item) {
    match item
    case Group(begin, _, items) =>
      (HasName(begin) ==> NoneAfter(AllMarks(items))) && forall i | 0 <= i < |items| :: Clean(items[i])
    case Leaf(_) => true
  }

  predicate AllClean(items: seq<Item>) {
    forall i | 0 <= i < |items| :: Clean(items[i])
  }

  lemma {:induction false} InTwo(groups: seq<string>, a: seq<FormRow>, b: seq<FormRow>)
    ensures StackAfter(groups, a + b) == StackAfter(StackAfter(groups, a), b)
    ensures FoundIn(groups, a + b) == FoundIn(groups, a) + FoundIn(StackAfter(groups, a), b)
  {
    if b == [] {
      assert a + b == a;
    } else {
      assert Front(a + b) == a + Front(b) && Last(a + b) == Last(b);
      InTwo(groups, a, Front(b));
    }
  }

  lemma WalkOne(groups: seq<string>, row: FormRow)
    ensures StackAfter(groups, [row]) == Moved(groups, row) && FoundIn(groups, [row]) == Found(groups, row)
  {
    assert Front([row]) == [];
  }

  lemma Enclosed(groups: seq<string>, begin: FormRow, rows: seq<FormRow>, end: FormRow)
    requires begin.kind in BEGINS && end.kind in ENDS
    ensures StackAfter(groups, [begin] + rows + [end]) == Moved(StackAfter(Moved(groups, begin), rows), end)
    ensures FoundIn(groups, [begin] + rows + [end]) == FoundIn(Moved(groups, begin), rows)
  {
    WalkOne(groups, begin);
    WalkOne(StackAfter(Moved(groups, begin), rows), end);
    InTwo(groups, [begin], rows);
    InTwo(groups, [begin] + rows, [end]);
  }

  lemma NoneAfterInTwo(a: seq<Mark>, b: seq<Mark>)
    ensures NoneAfter(a + b) <==> NoneAfter(a) && NoneAfter(b) && (UnnamedEnd in a ==> Recording !in b)
  {
    if NoneAfter(a + b) {
      PartsOfNoneAfter(a, b);
    }
  }

  lemma PartsOfNoneAfter(a: seq<Mark>, b: seq<Mark>)
    requires NoneAfter(a + b)
    ensures NoneAfter(a) && NoneAfter(b) && (UnnamedEnd in a ==> Recording !in b)
  {
    var both := a + b;
    assert forall i | 0 <= i < |a| :: both[i] == a[i];
    assert forall j | 0 <= j < |b| :: both[|a| + j] == b[j];
  }

  /** What holds of a named group's content holds of every part of it. */
  lemma {:induction false} NoneAfterIsClean(item: Item)
    requires NoneAfter(Marks(item))
    ensures Clean(item)
    decreases item
  {
    if item.Group? {
      NoneAfterInTwo(AllMarks(item.items), if HasName(item.begin) then [] else [UnnamedEnd]);
      NoneAfterIsAllClean(item.items);
    }
  }

  lemma {:induction false} NoneAfterIsAllClean(items: seq<Item>)
    requires NoneAfter(AllMarks(items))
    ensures AllClean(items)
    decreases items
  {
    if items != [] {
      NoneAfterInTwo(Marks(items[0]), AllMarks(items[1..]));
      NoneAfterIsClean(items[0]);
      NoneAfterIsAllClean(items[1..]);
    }
  }

  /** The length of a path up to its last name. */
  function Length(groups: seq<string>): nat {
    if groups == [] then 0 else Length(Front(groups)) + |Last(groups)| + 1
  }

  lemma {:induction false} JoinedLength(groups: seq<string>, name: string)
    ensures |Joined(groups + [name])| == Length(groups) + |name|
  {
    assert Front(groups + [name]) == groups;
    if groups != [] {
      JoinedLength(Front(groups), Last(groups));
      assert Front(groups) + [Last(groups)] == groups;
    }
  }

  lemma {:induction false} ShorterStack(a: seq<string>, b: seq<string>)
    requires a <= b
    ensures Length(a) <= Length(b)
  {
    if a != b {
      assert a <= Front(b);
      ShorterStack(a, Front(b));
    }
  }

  lemma EndedIsShorter(groups: seq<string>, inner: seq<string>, begin: FormRow, end: FormRow)
    requires begin.kind in BEGINS && end.kind in ENDS && inner <= Moved(groups, begin)
    ensures Moved(inner, end) <= groups
    ensures groups != [] ==> (Moved(inner, end) == groups <==> HasName(begin) && inner == Moved(groups, begin))
  {
  }

  /** Over the rows of an item the stack can only lose groups that were open before it. */
  lemma {:induction false} ItemOnlyPops(groups: seq<string>, item: Item)
    requires Nested(item)
    ensures StackAfter(groups, Rows(item)) <= groups
    decreases item
  {
    match item
    case Leaf(row) => WalkOne(groups, row);
    case Group(begin, end, items) =>
      ItemsOnlyPop(Moved(groups, begin), items);
      Enclosed(groups, begin, AllRows(items), end);
      EndedIsShorter(groups, StackAfter(Moved(groups, begin), AllRows(items)), begin, end);
  }

  lemma {:induction false} ItemsOnlyPop(groups: seq<string>, items: seq<Item>)
    requires AllNested(items)
    ensures StackAfter(groups, AllRows(items)) <= groups
    decreases items
  {
    if items != [] {
      ItemOnlyPops(groups, items[0]);
      ItemsOnlyPop(StackAfter(groups, Rows(items[0])), items[1..]);
      InTwo(groups, Rows(items[0]), AllRows(items[1..]));
    }
  }

  /** Right or wrong, the walk finds one path for each recording. */
  lemma {:induction false} AsManyInItem(groups: seq<string>, prefix: seq<string>, item: Item)
    requires Nested(item)
    ensures |FoundIn(groups, Rows(item))| == |Paths(prefix, item)|
    decreases item
  {
    match item
    case Leaf(row) => WalkOne(groups, row);
    case Group(begin, end, items) =>
      Enclosed(groups, begin, AllRows(items), end);
      AsManyInItems(Moved(groups, begin), if HasName(begin) then prefix + [NameOf(begin)] else prefix, items);
  }

  lemma {:induction false} AsManyInItems(groups: seq<string>, prefix: seq<string>, items: seq<Item>)
    requires AllNested(items)
    ensures |FoundIn(groups, AllRows(items))| == |AllPaths(prefix, items)|
    decreases items
  {
    if items != [] {
      InTwo(groups, Rows(items[0]), AllRows(items[1..]));
      AsManyInItem(groups, prefix, items[0]);
      AsManyInItems(StackAfter(groups, Rows(items[0])), prefix, items[1..]);
    }
  }

  /** The rows of a list are read right exactly when its first item's are and then the others' are. */
  lemma RightInTwo(groups: seq<string>, prefix: seq<string>, items: seq<Item>)
    requires AllNested(items) && items != []
    ensures FoundIn(groups, AllRows(items)) == AllPaths(prefix, items) <==>
            FoundIn(groups, Rows(items[0])) == Paths(prefix, items[0]) &&
            FoundIn(StackAfter(groups, Rows(items[0])), AllRows(items[1..])) == AllPaths(prefix, items[1..])
    ensures StackAfter(groups, AllRows(items)) == StackAfter(StackAfter(groups, Rows(items[0])), AllRows(items[1..]))
  {
    InTwo(groups, Rows(items[0]), AllRows(items[1..]));
    AsManyInItem(groups, prefix, items[0]);
    SameParts(FoundIn(groups, Rows(items[0])), FoundIn(StackAfter(groups, Rows(items[0])), AllRows(items[1..])),
              Paths(prefix, items[0]), AllPaths(prefix, items[1..]));
  }

  lemma SameParts<T>(a: seq<T>, b: seq<T>, c: seq<T>, d: seq<T>)
    requires |a| == |c|
    ensures a + b == c + d <==> a == c && b == d
  {
    if a + b == c + d {
      assert a == (a + b)[..|a|] && b == (a + b)[|a|..];
      assert c == (c + d)[..|c|] && d == (c + d)[|c|..];
    }
  }

  /** Once the stack has lost a name, every recording is found at a wrong path. */
  lemma {:induction false} SpoiledItem(groups: seq<string>, prefix: seq<string>, item: Item)
    requires Nested(item) && Length(groups) < Length(prefix)
    ensures FoundIn(groups, Rows(item)) == Paths(prefix, item) <==> Recording !in Marks(item)
    decreases item
  {
    match item
    case Leaf(row) =>
      WalkOne(groups, row);
      JoinedLength(groups, NameOf(row));
      JoinedLength(prefix, NameOf(row));
    case Group(begin, end, items) =>
      Enclosed(groups, begin, AllRows(items), end);
      var inner := if HasName(begin) then prefix + [NameOf(begin)] else prefix;
      assert HasName(begin) ==> Front(inner) == prefix && Front(Moved(groups, begin)) == groups;
      SpoiledItems(Moved(groups, begin), inner, items);
  }

  lemma {:induction false} SpoiledItems(groups: seq<string>, prefix: seq<string>, items: seq<Item>)
    requires AllNested(items) && Length(groups) < Length(prefix)
    ensures FoundIn(groups, AllRows(items)) == AllPaths(prefix, items) <==> Recording !in AllMarks(items)
    decreases items
  {
    if items != [] {
      var after := StackAfter(groups, Rows(items[0]));
      ItemOnlyPops(groups, items[0]);
      ShorterStack(after, groups);
      SpoiledItem(groups, prefix, items[0]);
      SpoiledItems(after, prefix, items[1..]);
      RightInTwo(groups, prefix, items);
    }
  }

  lemma LostIsSpoiled(groups: seq<string>, after: seq<string>)
    requires after <= groups && after != groups
    ensures Length(after) < Length(groups)
  {
    assert after <= Front(groups);
    ShorterStack(after, Front(groups));
  }

  /** Inside a named group: an item is read right exactly when none of its recordings comes after the end of a group
      without a name, and the stack comes back exactly when there is no such end in it. */
  lemma {:induction false} ItemInside(prefix: seq<string>, item: Item)
    requires Nested(item) && prefix != []
    ensures FoundIn(prefix, Rows(item)) == Paths(prefix, item) <==> NoneAfter(Marks(item))
    ensures StackAfter(prefix, Rows(item)) == prefix <==> UnnamedEnd !in Marks(item)
    decreases item
  {
    match item
    case Leaf(row) => WalkOne(prefix, row);
    case Group(begin, end, items) =>
      var inner := Moved(prefix, begin);
      ItemsInside(inner, items);
      ItemsOnlyPop(inner, items);
      Enclosed(prefix, begin, AllRows(items), end);
      EndedIsShorter(prefix, StackAfter(inner, AllRows(items)), begin, end);
      NoneAfterInTwo(AllMarks(items), if HasName(begin) then [] else [UnnamedEnd]);
  }

  lemma {:induction false} ItemsInside(prefix: seq<string>, items: seq<Item>)
    requires AllNested(items) && prefix != []
    ensures FoundIn(prefix, AllRows(items)) == AllPaths(prefix, items) <==> NoneAfter(AllMarks(items))
    ensures StackAfter(prefix, AllRows(items)) == prefix <==> UnnamedEnd !in AllMarks(items)
    decreases items
  {
    if items != [] {
      var after := StackAfter(prefix, Rows(items[0]));
      ItemInside(prefix, items[0]);
      RightInTwo(prefix, prefix, items);
      NoneAfterInTwo(Marks(items[0]), AllMarks(items[1..]));
      if after == prefix {
        ItemsInside(prefix, items[1..]);
      } else {
        ItemOnlyPops(prefix, items[0]);
        LostIsSpoiled(prefix, after);
        SpoiledItems(after, prefix, items[1..]);
        ItemsOnlyPop(after, items[1..]);
      }
    }
  }

  /** Outside any named group an item is read right exactly when it is clean, and the stack stays empty. */
  lemma {:induction false} ItemOutside(item: Item)
    requires Nested(item)
    ensures FoundIn([], Rows(item)) == Paths([], item) <==> Clean(item)
    decreases item
  {
    match item
    case Leaf(row) => WalkOne([], row);
    case Group(begin, end, items) =>
      Enclosed([], begin, AllRows(items), end);
      if HasName(begin) {
        assert Moved([], begin) == [] + [NameOf(begin)];
        ItemsInside(Moved([], begin), items);
        if NoneAfter(AllMarks(items)) {
          NoneAfterIsAllClean(items);
        }
      } else {
        WalkFindsThePathsIff(items);
      }
  }

  /** The walk returns exactly the paths of a form's recordings, in order, if and only if in no named group does a
      recording come after the end of a group without a name. */
  lemma {:induction false} WalkFindsThePathsIff(items: seq<Item>)
    requires AllNested(items)
    ensures FoundIn([], AllRows(items)) == AllPaths([], items) <==> AllClean(items)
    decreases items
  {
    if items != [] {
      ItemOutside(items[0]);
      ItemOnlyPops([], items[0]);
      WalkFindsThePathsIff(items[1..]);
      RightInTwo([], [], items);
    }
  }

  // ---- what a path tells ------------------------------------------------------------------------

  /** For each recording the names of the groups around it, outermost first, and its own. */
  function NamesOf(around: seq<string>, item: Item): seq<seq<string>>
    decreases item
  {
    match item
    case Group(begin, _, items) => AllNamesOf(if HasName(begin) then around + [NameOf(begin)] else around, items)
    case Leaf(row) => if IsRecording(row) then [around + [NameOf(row)]] else []
  }

  function AllNamesOf(around: seq<string>, items: seq<Item>): seq<seq<string>>
    decreases items
  {
    if items == [] then [] else NamesOf(around, items[0]) + AllNamesOf(around, items[1..])
  }

  /** No name has a slash in it. */
  predicate SlashFree(item: Item) {
    match item
    case Group(begin, _, items) => '/' !in NameOf(begin) && forall i | 0 <= i < |items| :: SlashFree(items[i])
    case Leaf(row) => '/' !in NameOf(row)
  }

  predicate PlainNames(names: seq<string>) {
    forall name | name in names :: '/' !in name
  }

  function EachJoined(lists: seq<seq<string>>): (paths: seq<string>)
    ensures |paths| == |lists|
  {
    seq(|lists|, k requires 0 <= k < |lists| => Joined(lists[k]))
  }

  function EachParts(paths: seq<string>): (lists: seq<seq<string>>)
    ensures |lists| == |paths|
  {
    seq(|paths|, k requires 0 <= k < |paths| => Parts(paths[k]))
  }

  lemma EachJoinedInTwo(a: seq<seq<string>>, b: seq<seq<string>>)
    ensures EachJoined(a + b) == EachJoined(a) + EachJoined(b)
  {
  }

  predicate AllPlain(lists: seq<seq<string>>) {
    forall k | 0 <= k < |lists| :: lists[k] != [] && PlainNames(lists[k])
  }

  lemma {:induction false} NamesAreJoined(around: seq<string>, item: Item)
    requires SlashFree(item) && PlainNames(around)
    ensures Paths(around, item) == EachJoined(NamesOf(around, item)) && AllPlain(NamesOf(around, item))
    decreases item
  {
    if item.Group? {
      AllNamesAreJoined(if HasName(item.begin) then around + [NameOf(item.begin)] else around, item.items);
    }
  }

  lemma {:induction false} AllNamesAreJoined(around: seq<string>, items: seq<Item>)
    requires (forall i | 0 <= i < |items| :: SlashFree(items[i])) && PlainNames(around)
    ensures AllPaths(around, items) == EachJoined(AllNamesOf(around, items)) && AllPlain(AllNamesOf(around, items))
    decreases items
  {
    if items != [] {
      NamesAreJoined(around, items[0]);
      AllNamesAreJoined(around, items[1..]);
      EachJoinedInTwo(NamesOf(around, items[0]), AllNamesOf(around, items[1..]));
    }
  }

  lemma {:induction false} PartsAreJoined(path: string)
    ensures Joined(Parts(path)) == path
  {
    if path != "" {
      var rest := Parts(path[1..]);
      PartsAreJoined(path[1..]);
      if path[0] == '/' {
        JoinedInTwo([""], rest);
      } else {
        FirstLetter(path[0], rest);
      }
      assert path == [path[0]] + path[1..];
    }
  }

  lemma {:induction false} FirstLetter(c: char, names: seq<string>)
    requires names != []
    ensures Joined([[c] + names[0]] + names[1..]) == [c] + Joined(names)
  {
    var longer := [[c] + names[0]] + names[1..];
    if |names| > 1 {
      FirstLetter(c, Front(names));
      assert Front(longer) == [[c] + names[0]] + Front(names)[1..];
      OneMoreName(c, Joined(Front(names)), Last(names));
    }
  }

  lemma OneMoreName(c: char, path: string, name: string)
    ensures [c] + path + "/" + name == [c] + (path + "/" + name)
  {
  }

  lemma CutAndJoined(paths: seq<string>, lists: seq<seq<string>>)
    requires AllPlain(lists)
    ensures EachParts(paths) == lists <==> paths == EachJoined(lists)
  {
    if EachParts(paths) == lists {
      forall k | 0 <= k < |paths| ensures paths[k] == EachJoined(lists)[k] {
        PartsAreJoined(paths[k]);
        assert EachParts(paths)[k] == lists[k];
      }
    }
    if paths == EachJoined(lists) {
      forall k | 0 <= k < |paths| ensures EachParts(paths)[k] == lists[k] {
        JoinedParts(lists[k]);
      }
    }
  }

  /** Cut at their slashes, the paths the walk returns are exactly the groups around each recording, outermost first,
      and its own name, if and only if the form is clean. */
  lemma PathsTellTheGroups(items: seq<Item>)
    requires AllNested(items) && forall i | 0 <= i < |items| :: SlashFree(items[i])
    ensures EachParts(FoundIn([], AllRows(items))) == AllNamesOf([], items) <==> AllClean(items)
  {
    WalkFindsThePathsIff(items);
    AllNamesAreJoined([], items);
    CutAndJoined(FoundIn([], AllRows(items)), AllNamesOf([], items));
  }

  /** Which rows open and close groups, which are recordings, and what they are called. */
  lemma RowsAreRead(row: FormRow)
    ensures row.kind in BEGINS <==> row.kind == "begin_group" || row.kind == "begin_repeat"
    ensures row.kind in ENDS <==> row.kind == "end_group" || row.kind == "end_repeat"
    ensures IsRecording(row) <==> (row.kind == "audio" || row.kind == "background-audio" || row.kind == "video") &&
                                  (row.autoname != "" || row.name != "")
    ensures NameOf(row) == if row.autoname != "" then row.autoname else row.name
  {
  }

  // ---- forms whose groups all have names -------------------------------------------------------

  predicate AllGroupsNamed(item: Item) {
    match item
    case Group(begin, _, items) => HasName(begin) && forall i | 0 <= i < |items| :: AllGroupsNamed(items[i])
    case Leaf(_) => true
  }

  lemma {:induction false} NamedHasNoUnnamedEnd(item: Item)
    requires AllGroupsNamed(item)
    ensures UnnamedEnd !in Marks(item)
    decreases item
  {
    if item.Group? {
      NamedHaveNoUnnamedEnd(item.items);
    }
  }

  lemma {:induction false} NamedHaveNoUnnamedEnd(items: seq<Item>)
    requires forall i | 0 <= i < |items| :: AllGroupsNamed(items[i])
    ensures UnnamedEnd !in AllMarks(items)
    decreases items
  {
    if items != [] {
      NamedHasNoUnnamedEnd(items[0]);
      NamedHaveNoUnnamedEnd(items[1..]);
    }
  }

  /** For a form with named groups the walk returns exactly the paths of its recordings, in order. */
  lemma WalkFindsThePaths(items: seq<Item>)
    requires AllNested(items) && forall i | 0 <= i < |items| :: AllGroupsNamed(items[i])
    ensures FoundIn([], AllRows(items)) == AllPaths([], items)
  {
    NamedHaveNoUnnamedEnd(items);
    NoneAfterIsAllClean(items);
    WalkFindsThePathsIff(items);
  }

  // ---- one group without a name ----------------------------------------------------------------

  /** Inside a group without a name everything is found as if it were not there; but its end pops the group around
      it. */
  lemma UnnamedGroupPopsItsParent(groups: seq<string>, begin: FormRow, end: FormRow, items: seq<Item>)
    requires begin.kind in BEGINS && !HasName(begin) && end.kind in ENDS
    requires AllNested(items) && forall i | 0 <= i < |items| :: AllGroupsNamed(items[i])
    ensures FoundIn(groups, [begin] + AllRows(items) + [end]) == AllPaths(groups, items)
    ensures StackAfter(groups, [begin] + AllRows(items) + [end]) == if groups == [] then [] else Front(groups)
  {
    Enclosed(groups, begin, AllRows(items), end);
    if groups == [] {
      WalkFindsThePaths(items);
      ItemsOnlyPop([], items);
    } else {
      NamedHaveNoUnnamedEnd(items);
      ItemsInside(groups, items);
    }
  }

  lemma FoundHere(groups: seq<string>, row: FormRow)
    requires IsRecording(row)
    ensures Found(groups, row) == [Joined(groups + [NameOf(row)])]
  {
    assert |row.kind| == 5 || |row.kind| == 16;
    assert forall kind | kind in BEGINS + ENDS :: 9 <= |kind| <= 12;
  }

  lemma SamePathIffSameStack(groups: seq<string>, after: seq<string>, row: FormRow)
    requires IsRecording(row) && after <= groups
    ensures Found(after, row) == [Joined(groups + [NameOf(row)])] <==> after == groups
  {
    FoundHere(after, row);
    JoinedLength(groups, NameOf(row));
    JoinedLength(after, NameOf(row));
    if after != groups {
      LostIsSpoiled(groups, after);
    }
  }

  /** A recording after an item is found at its own path exactly when it is in no named group or no group without a name
      ended in the item. */
  lemma FoundAfterIff(groups: seq<string>, item: Item, next: FormRow)
    requires Nested(item) && IsRecording(next)
    ensures Found(StackAfter(groups, Rows(item)), next) == [Joined(groups + [NameOf(next)])] <==>
            groups == [] || UnnamedEnd !in Marks(item)
  {
    ItemOnlyPops(groups, item);
    SamePathIffSameStack(groups, StackAfter(groups, Rows(item)), next);
    if groups != [] {
      ItemInside(groups, item);
    }
  }
}
