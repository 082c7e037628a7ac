/** The server's side of the configuration: rows that only grow, merged by the identity of their parameters. */
module Merging {
  import opened Versions
  import opened Features

  // ---- identity and merge -------------------------------------------------------------

  /** What makes two parameters the same one. A parameter without language or uuid is like no other. */
  datatype Identity = ByLanguage(language: string) | ByUuid(uuid: Uuid) | Anonymous

  function UuidIdentity(uuid: Uuid): Identity {
    if uuid == 0 then Anonymous else ByUuid(uuid)
  }

  function IdentityOf(p: Param): Identity {
    match p
    case Lang(l) => if l == "" then Anonymous else ByLanguage(l)
    case Auto(u) => UuidIdentity(u)
    case Def(q) => UuidIdentity(q.uuid)
  }

  /** The last place that holds the identity. */
  function PlaceOf(params: seq<Param>, id: Identity): (r: Option<nat>)
    ensures r.Some? ==> r.value < |params| && id != Anonymous && IdentityOf(params[r.value]) == id
    ensures r.Some? ==> forall k | r.value < k < |params| :: IdentityOf(params[k]) != id
    ensures r.None? ==> id == Anonymous || forall k | 0 <= k < |params| :: IdentityOf(params[k]) != id
  {
    if params == [] || id == Anonymous then None
    else if IdentityOf(Last(params)) == id then Some(|params| - 1)
    else PlaceOf(Front(params), id)
  }

  /** Additive, never subtractive: a known identity is overwritten in place, anything else is appended. */
  function Merged(existing: seq<Param>, incoming: seq<Param>): (merged: seq<Param>)
    ensures |merged| >= |existing|
    ensures forall k | 0 <= k < |existing| :: IdentityOf(merged[k]) == IdentityOf(existing[k])
  {
    if incoming == [] then existing else
      var merged := Merged(existing, Front(incoming));
      var p := Last(incoming);
      match PlaceOf(existing, IdentityOf(p))
      case Some(place) => merged[place := p]
      case None => merged + [p]
  }

  method MergeParams(existing: seq<Param>, incoming: seq<Param>) returns (merged: seq<Param>)
    ensures merged == Merged(existing, incoming)
    ensures |merged| >= |existing| && forall k | 0 <= k < |existing| :: IdentityOf(merged[k]) == IdentityOf(existing[k])
  {
    merged := existing;
    for i := 0 to |incoming|
      invariant merged == Merged(existing, incoming[..i])
    {
      assert Front(incoming[..i + 1]) == incoming[..i];
      var place := PlaceOf(existing, IdentityOf(incoming[i]));
      if place.Some? {
        merged := merged[place.value := incoming[i]];
      } else {
        merged := merged + [incoming[i]];
      }
    }
    assert incoming[..|incoming|] == incoming;
  }

  /** Every parameter has an identity, and no two with the same identity differ. */
  predicate Consistent(params: seq<Param>) {
    (forall p | p in params :: IdentityOf(p) != Anonymous) &&
    forall p, q | p in params && q in params && IdentityOf(p) == IdentityOf(q) :: p == q
  }

  lemma ConsistentFront(params: seq<Param>)
    requires Consistent(params) && params != []
    ensures Consistent(Front(params)) && Last(params) in params
  {
  }

  /** A place of the merge holds what it held or something incoming, and what was appended is new. */
  lemma {:induction false} MergeHolds(existing: seq<Param>, incoming: seq<Param>, k: nat)
    requires k < |Merged(existing, incoming)|
    ensures Merged(existing, incoming)[k] in incoming ||
            (k < |existing| && Merged(existing, incoming)[k] == existing[k])
    ensures k >= |existing| ==> PlaceOf(existing, IdentityOf(Merged(existing, incoming)[k])).None?
  {
    if incoming != [] {
      var before := Merged(existing, Front(incoming));
      assert incoming == Front(incoming) + [Last(incoming)];
      if k < |before| {
        MergeHolds(existing, Front(incoming), k);
      }
    }
  }

  lemma OneOfAKind(params: seq<Param>, p: Param, q: Param)
    requires Consistent(params) && p in params && q in params
    ensures IdentityOf(p) != Anonymous && (IdentityOf(p) == IdentityOf(q) ==> p == q)
  {
  }

  lemma FrontOrLast<T>(s: seq<T>, x: T)
    requires x in s
    ensures x in Front(s) || x == Last(s)
  {
  }

  /** p stands at place k: the last of its identity, or after all that was there. */
  predicate TakenAt(existing: seq<Param>, m: seq<Param>, p: Param, k: nat) {
    k < |m| && m[k] == p &&
    if k < |existing| then PlaceOf(existing, IdentityOf(p)) == Some(k) else PlaceOf(existing, IdentityOf(p)).None?
  }

  lemma LastIsTaken(existing: seq<Param>, incoming: seq<Param>) returns (k: nat)
    requires incoming != []
    ensures TakenAt(existing, Merged(existing, incoming), Last(incoming), k)
  {
    var place := PlaceOf(existing, IdentityOf(Last(incoming)));
    k := if place.Some? then place.value else |Merged(existing, Front(incoming))|;
  }

  lemma TakenStays(existing: seq<Param>, incoming: seq<Param>, p: Param, k: nat)
    requires incoming != [] && TakenAt(existing, Merged(existing, Front(incoming)), p, k)
    requires IdentityOf(p) == IdentityOf(Last(incoming)) ==> p == Last(incoming)
    ensures TakenAt(existing, Merged(existing, incoming), p, k)
  {
  }

  /** A parameter of a known identity ends up at that identity's last place, any other after all of them. */
  lemma {:induction false} MergeTakes(existing: seq<Param>, incoming: seq<Param>, p: Param) returns (k: nat)
    requires Consistent(incoming) && p in incoming
    ensures TakenAt(existing, Merged(existing, incoming), p, k)
  {
    ConsistentFront(incoming);
    FrontOrLast(incoming, p);
    if p in Front(incoming) {
      k := MergeTakes(existing, Front(incoming), p);
      OneOfAKind(incoming, p, Last(incoming));
      TakenStays(existing, incoming, p, k);
    } else {
      k := LastIsTaken(existing, incoming);
    }
  }

  lemma {:induction false} OverwriteWithSame(params: seq<Param>, incoming: seq<Param>)
    requires forall p | p in incoming ::
               var place := PlaceOf(params, IdentityOf(p)); place.Some? && params[place.value] == p
    ensures Merged(params, incoming) == params
  {
    if incoming != [] {
      assert Last(incoming) in incoming;
      forall p | p in Front(incoming) ensures p in incoming {
      }
      OverwriteWithSame(params, Front(incoming));
    }
  }

  lemma MergedPlace(existing: seq<Param>, incoming: seq<Param>, p: Param)
    requires Consistent(incoming) && p in incoming
    ensures var m := Merged(existing, incoming);
            var place := PlaceOf(m, IdentityOf(p)); place.Some? && m[place.value] == p
  {
    var m, id := Merged(existing, incoming), IdentityOf(p);
    var k := MergeTakes(existing, incoming, p);
    OneOfAKind(incoming, p, p);
    assert PlaceOf(m, id).Some?;
    var place := PlaceOf(m, id).value;
    MergeHolds(existing, incoming, place);
    if m[place] in incoming {
      OneOfAKind(incoming, p, m[place]);
    } else {
      SamePlace(existing, m, id);
    }
  }

  /** Places that keep their identities: the last place of an identity is found before it as well. */
  lemma SamePlace(existing: seq<Param>, m: seq<Param>, id: Identity)
    requires |m| >= |existing| && forall k | 0 <= k < |existing| :: IdentityOf(m[k]) == IdentityOf(existing[k])
    requires PlaceOf(m, id).Some? && PlaceOf(m, id).value < |existing|
    ensures PlaceOf(existing, id) == PlaceOf(m, id)
  {
    var place := PlaceOf(m, id).value;
    assert IdentityOf(existing[place]) == id;
    var first := PlaceOf(existing, id).value;
    assert IdentityOf(m[first]) == id;
  }

  /** Merging the same parameters again changes nothing. */
  lemma MergeAgain(existing: seq<Param>, incoming: seq<Param>)
    requires Consistent(incoming)
    ensures Merged(Merged(existing, incoming), incoming) == Merged(existing, incoming)
  {
    forall p | p in incoming
      ensures var m := Merged(existing, incoming);
              var place := PlaceOf(m, IdentityOf(p)); place.Some? && m[place.value] == p
    {
      MergedPlace(existing, incoming, p);
    }
    OverwriteWithSame(Merged(existing, incoming), incoming);
  }

  // ---- rows ------------------------------------------------------------------------------------

  predicate ValidQuestion(q: Question) {
    q.kind in QUAL_TYPES && q.labels != "" && (q.kind in CHOICE_TYPES ==> q.choices != []) &&
    forall c | c in q.choices :: c.labels != ""
  }

  predicate ValidParam(action: Action, p: Param) {
    match action
    case Transcription => p.Lang?
    case Translation => p.Lang?
    case AutoQual => p.Auto?
    case QualDefinitions => p.Def? && ValidQuestion(p.question)
    case OtherAction(_) => true
  }

  predicate ValidParams(action: Action, params: seq<Param>) {
    forall p | p in params :: ValidParam(action, p)
  }

  function NextUid(rows: seq<Row>): (uid: nat)
    ensures uid > 0 && forall row | row in rows :: row.uid < uid
  {
    if rows == [] then 1
    else
      var before := NextUid(Front(rows));
      if Last(rows).uid < before then before else Last(rows).uid + 1
  }

  /** None is a refusal. */
  function Created(rows: seq<Row>, xpath: string, action: Action, params: seq<Param>): Option<seq<Row>> {
    if xpath == "" || !ValidParams(action, params) then None
    else Some(rows + [Row(NextUid(rows), xpath, action, params)])
  }

  function IndexOf(rows: seq<Row>, uid: nat): (r: Option<nat>)
    ensures r.Some? ==> r.value < |rows| && rows[r.value].uid == uid
    ensures r.None? ==> forall row | row in rows :: row.uid != uid
  {
    if rows == [] then None
    else if rows[0].uid == uid then Some(0)
    else match IndexOf(rows[1..], uid) case None => None case Some(i) => Some(i + 1)
  }

  function Updated(rows: seq<Row>, uid: nat, params: seq<Param>): Option<seq<Row>> {
    match IndexOf(rows, uid)
    case None => None
    case Some(i) =>
      if ValidParams(rows[i].action, params) then Some(rows[i := rows[i].(params := Merged(rows[i].params, params))])
        else None
  }

  /** The uid of the first row for this recording and action, 0 when there is none. */
  function RowUid(rows: seq<Row>, xpath: string, action: Action): nat {
    if rows == [] then 0
    else if rows[0].xpath == xpath && rows[0].action == action then rows[0].uid
    else RowUid(rows[1..], xpath, action)
  }

  /** Create or merge into one row; `known` are the rows as they were last read. */
  function PutRow(known: seq<Row>, rows: seq<Row>, xpath: string, action: Action,
                  params: seq<Param>): Option<seq<Row>> {
    var uid := RowUid(known, xpath, action);
    if uid != 0 then Updated(rows, uid, params) else Created(rows, xpath, action, params)
  }

  // ---- nothing is lost ----------------------------------------------------------------------------

  /** Every row keeps its place, and every parameter its place and its identity. */
  predicate Keeps(rows: seq<Row>, rows': seq<Row>) {
    |rows'| >= |rows| &&
    forall i | 0 <= i < |rows| ::
      rows'[i].uid == rows[i].uid && rows'[i].xpath == rows[i].xpath && rows'[i].action == rows[i].action &&
      |rows'[i].params| >= |rows[i].params| &&
      forall k | 0 <= k < |rows[i].params| :: IdentityOf(rows'[i].params[k]) == IdentityOf(rows[i].params[k])
  }

  lemma KeepsOn(a: seq<Row>, b: seq<Row>, c: seq<Row>)
    requires Keeps(a, b) && Keeps(b, c)
    ensures Keeps(a, c)
  {
  }

  lemma PutKeeps(known: seq<Row>, rows: seq<Row>, xpath: string, action: Action, params: seq<Param>)
    ensures var r := PutRow(known, rows, xpath, action, params); r.Some? ==> Keeps(rows, r.value)
  {
  }

  // ---- one row a recording and action ----------------------------------------------------------------

  predicate UniqueRows(rows: seq<Row>) {
    (forall row | row in rows :: row.uid != 0 && row.xpath != "") &&
    forall i, j | 0 <= i < j < |rows| ::
        rows[i].uid != rows[j].uid && (rows[i].xpath != rows[j].xpath || rows[i].action != rows[j].action)
  }

  predicate HasRow(rows: seq<Row>, xpath: string, action: Action) {
    exists row | row in rows :: row.xpath == xpath && row.action == action
  }

  /** What the server holds for a recording and action. */
  function Stored(rows: seq<Row>, xpath: string, action: Action): seq<Param> {
    if rows == [] then []
    else if rows[0].xpath == xpath && rows[0].action == action then rows[0].params
    else Stored(rows[1..], xpath, action)
  }

  lemma {:induction false} StoredAt(rows: seq<Row>, i: nat)
    requires UniqueRows(rows) && i < |rows|
    ensures Stored(rows, rows[i].xpath, rows[i].action) == rows[i].params
    ensures RowUid(rows, rows[i].xpath, rows[i].action) == rows[i].uid
    ensures IndexOf(rows, rows[i].uid) == Some(i)
  {
    if i > 0 {
      assert forall row | row in rows[1..] :: row in rows;
      StoredAt(rows[1..], i - 1);
    }
  }

  lemma {:induction false} NothingStored(rows: seq<Row>, xpath: string, action: Action)
    requires !HasRow(rows, xpath, action)
    ensures Stored(rows, xpath, action) == [] && RowUid(rows, xpath, action) == 0
  {
    if rows != [] {
      assert rows[0] in rows;
      assert !HasRow(rows[1..], xpath, action);
      NothingStored(rows[1..], xpath, action);
    }
  }

  predicate SameStored(rows: seq<Row>, rows': seq<Row>, xpath: string, action: Action) {
    Stored(rows', xpath, action) == Stored(rows, xpath, action) &&
      RowUid(rows', xpath, action) == RowUid(rows, xpath, action) &&
    HasRow(rows', xpath, action) == HasRow(rows, xpath, action)
  }

  lemma StoredElsewhere(rows: seq<Row>, rows': seq<Row>, xpath: string, action: Action)
    requires UniqueRows(rows) && UniqueRows(rows')
    requires forall row: Row | row.xpath == xpath && row.action == action :: row in rows <==> row in rows'
    ensures SameStored(rows, rows', xpath, action)
  {
    if HasRow(rows, xpath, action) {
      var row :| row in rows && row.xpath == xpath && row.action == action;
      var i :| 0 <= i < |rows| && rows[i] == row;
      var j :| 0 <= j < |rows'| && rows'[j] == row;
      StoredAt(rows, i);
      StoredAt(rows', j);
    } else {
      NothingStored(rows, xpath, action);
      NothingStored(rows', xpath, action);
    }
  }

  lemma {:induction false} MergeIntoNothing(incoming: seq<Param>)
    ensures Merged([], incoming) == incoming
  {
    if incoming != [] {
      MergeIntoNothing(Front(incoming));
      assert incoming == Front(incoming) + [Last(incoming)];
    }
  }

  lemma CreateStores(rows: seq<Row>, xpath: string, action: Action, params: seq<Param>)
    requires UniqueRows(rows) && !HasRow(rows, xpath, action) && Created(rows, xpath, action, params).Some?
    ensures var rows' := Created(rows, xpath, action, params).value;
            UniqueRows(rows') && HasRow(rows', xpath, action) && Stored(rows', xpath, action) == params &&
            forall x, a | x != xpath || a != action :: SameStored(rows, rows', x, a)
  {
    var row := Row(NextUid(rows), xpath, action, params);
    var rows' := rows + [row];
    assert rows'[|rows|] == row && row in rows';
    assert UniqueRows(rows');
    StoredAt(rows', |rows|);
    forall x, a | x != xpath || a != action
      ensures SameStored(rows, rows', x, a) {
      StoredElsewhere(rows, rows', x, a);
    }
  }

  lemma UpdateStores(rows: seq<Row>, i: nat, params: seq<Param>)
    requires UniqueRows(rows) && i < |rows| && ValidParams(rows[i].action, params)
    ensures Updated(rows, rows[i].uid, params).Some?
    ensures var rows' := Updated(rows, rows[i].uid, params).value;
            UniqueRows(rows') && HasRow(rows', rows[i].xpath, rows[i].action) &&
            Stored(rows', rows[i].xpath, rows[i].action) == Merged(rows[i].params, params) &&
            forall x, a | x != rows[i].xpath || a != rows[i].action ::
              SameStored(rows, rows', x, a)
  {
    StoredAt(rows, i);
    var row' := rows[i].(params := Merged(rows[i].params, params));
    var rows' := rows[i := row'];
    assert rows'[i] == row' && row' in rows' && rows[i] in rows;
    assert UniqueRows(rows');
    StoredAt(rows', i);
    forall x, a | x != rows[i].xpath || a != rows[i].action
      ensures SameStored(rows, rows', x, a)
    {
      SameRowsElsewhere(rows, i, row', x, a);
      StoredElsewhere(rows, rows', x, a);
    }
  }

  lemma SameRowsElsewhere(rows: seq<Row>, i: nat, row': Row, x: string, a: Action)
    requires i < |rows| && row'.xpath == rows[i].xpath && row'.action == rows[i].action
    requires x != row'.xpath || a != row'.action
    ensures forall row: Row | row.xpath == x && row.action == a :: row in rows <==> row in rows[i := row']
  {
    forall row: Row | row.xpath == x && row.action == a && row in rows ensures row in rows[i := row'] {
      var j :| 0 <= j < |rows| && rows[j] == row;
      assert rows[i := row'][j] == row;
    }
  }

  /** After a successful write the server holds, for this recording and action, what it held merged with what was sent,
      and for all others what it held. */
  lemma PutStores(known: seq<Row>, rows: seq<Row>, xpath: string, action: Action, params: seq<Param>)
    requires UniqueRows(rows) && UniqueRows(known)
    requires RowUid(known, xpath, action) == RowUid(rows, xpath, action)
    requires PutRow(known, rows, xpath, action, params).Some?
    ensures var rows' := PutRow(known, rows, xpath, action, params).value;
            UniqueRows(rows') && HasRow(rows', xpath, action) && ValidParams(action, params) &&
            Stored(rows', xpath, action) == Merged(Stored(rows, xpath, action), params) &&
            forall x, a | x != xpath || a != action :: SameStored(rows, rows', x, a)
  {
    if HasRow(rows, xpath, action) {
      var row :| row in rows && row.xpath == xpath && row.action == action;
      var i :| 0 <= i < |rows| && rows[i] == row;
      StoredAt(rows, i);
      UpdateStores(rows, i, params);
    } else {
      NothingStored(rows, xpath, action);
      MergeIntoNothing(params);
      CreateStores(rows, xpath, action, params);
    }
  }

  /** A write that merges to what is stored already leaves every row as it is. */
  lemma PutChangesNothing(rows: seq<Row>, xpath: string, action: Action, params: seq<Param>)
    requires UniqueRows(rows) && HasRow(rows, xpath, action) && ValidParams(action, params)
    requires Merged(Stored(rows, xpath, action), params) == Stored(rows, xpath, action)
    ensures PutRow(rows, rows, xpath, action, params) == Some(rows)
  {
    var row :| row in rows && row.xpath == xpath && row.action == action;
    var i :| 0 <= i < |rows| && rows[i] == row;
    StoredAt(rows, i);
    assert rows[i].(params := Merged(rows[i].params, params)) == rows[i];
    assert rows[i := rows[i]] == rows;
  }
}
