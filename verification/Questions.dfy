/** Analysis questions: resolving an edited set against what one recording already has. */
module Questions {
  import opened Versions
  import opened Features

  // ---- finding what is there ----------------------------------------------------------

  function LastWithUuid(existing: seq<Question>, uuid: Uuid): (r: Option<Question>)
    ensures r.Some? ==> r.value in existing && r.value.uuid == uuid
    ensures r.None? ==> forall e | e in existing :: e.uuid != uuid
  {
    if existing == [] then None
    else if Last(existing).uuid == uuid then Some(Last(existing))
    else LastWithUuid(Front(existing), uuid)
  }

  predicate Alike(q: Question, e: Question) {
    e.kind == q.kind && e.labels == q.labels
  }

  function FirstAlike(q: Question, existing: seq<Question>): (r: Option<Question>)
    ensures r.Some? ==> r.value in existing && Alike(q, r.value)
    ensures r.None? ==> forall e | e in existing :: !Alike(q, e)
  {
    if existing == [] then None
    else if Alike(q, existing[0]) then Some(existing[0])
    else FirstAlike(q, existing[1..])
  }

  /** By uuid first, then by type and label. */
  function MatchExisting(q: Question, existing: seq<Question>): (r: Option<Question>)
    ensures r.Some? ==> r.value in existing
  {
    var byUuid := LastWithUuid(existing, q.uuid);
    if byUuid.Some? then byUuid else FirstAlike(q, existing)
  }

  /** The last stored question with its uuid; or, if no stored question has it, the first of its type and label. */
  predicate IsMatch(q: Question, existing: seq<Question>, k: nat) {
    k < |existing| &&
    if exists j :: 0 <= j < |existing| && existing[j].uuid == q.uuid
    then existing[k].uuid == q.uuid && forall j | k < j < |existing| :: existing[j].uuid != q.uuid
    else existing[k].kind == q.kind && existing[k].labels == q.labels &&
         forall j | 0 <= j < k :: existing[j].kind != q.kind || existing[j].labels != q.labels
  }

  lemma {:induction false} LastWithUuidAt(existing: seq<Question>, uuid: Uuid, k: nat)
    requires k < |existing| && existing[k].uuid == uuid && forall j | k < j < |existing| :: existing[j].uuid != uuid
    ensures LastWithUuid(existing, uuid) == Some(existing[k])
  {
    if k < |existing| - 1 {
      LastWithUuidAt(Front(existing), uuid, k);
    }
  }

  /** A question is matched by its uuid first, and else by its type and its label; otherwise it is unknown. */
  lemma MatchIs(q: Question, existing: seq<Question>)
    ensures forall k: nat :: IsMatch(q, existing, k) ==> MatchExisting(q, existing) == Some(existing[k])
    ensures MatchExisting(q, existing).None? <==>
            forall e | e in existing :: e.uuid != q.uuid && (e.kind != q.kind || e.labels != q.labels)
  {
    forall k: nat | IsMatch(q, existing, k) ensures MatchExisting(q, existing) == Some(existing[k]) {
      if existing[k].uuid == q.uuid {
        LastWithUuidAt(existing, q.uuid, k);
      } else {
        FirstAlikeIs(q, existing, k);
      }
    }
  }

  function LastChoiceWithUuid(earlier: seq<Choice>, uuid: Uuid): (r: Option<Choice>)
    ensures r.Some? ==> r.value in earlier && r.value.uuid == uuid
    ensures r.None? ==> forall c | c in earlier :: c.uuid != uuid
  {
    if earlier == [] then None
    else if Last(earlier).uuid == uuid then Some(Last(earlier))
    else LastChoiceWithUuid(Front(earlier), uuid)
  }

  function LastChoiceLabelled(earlier: seq<Choice>, labels: string): (r: Option<Choice>)
    ensures r.Some? ==> r.value in earlier && r.value.labels == labels
    ensures r.None? ==> forall c | c in earlier :: c.labels != labels
  {
    if earlier == [] then None
    else if Last(earlier).labels == labels then Some(Last(earlier))
    else LastChoiceLabelled(Front(earlier), labels)
  }

  function PriorChoice(c: Choice, earlier: seq<Choice>): Option<Choice> {
    var byUuid := LastChoiceWithUuid(earlier, c.uuid);
    if byUuid.Some? then byUuid else LastChoiceLabelled(earlier, c.labels)
  }

  // ---- resolving -------------------------------------------------------------------------

  function LocalChoice(c: Choice, earlier: seq<Choice>, minted: Uuid): Choice {
    var prior := PriorChoice(c, earlier);
    c.(uuid := if prior.Some? && prior.value.uuid != 0 then prior.value.uuid else minted)
  }

  /** A choice keeps its uuid where it is known, else takes that of the last choice with its label, else a new one. */
  lemma LocalChoiceIs(c: Choice, earlier: seq<Choice>, minted: Uuid)
    ensures LocalChoice(c, earlier, minted).labels == c.labels && LocalChoice(c, earlier, minted).hint == c.hint
    ensures c.uuid != 0 && (exists e | e in earlier :: e.uuid == c.uuid) ==>
            LocalChoice(c, earlier, minted).uuid == c.uuid
    ensures (forall e | e in earlier :: e.uuid != c.uuid && e.labels != c.labels) ==>
              LocalChoice(c, earlier, minted).uuid == minted
    ensures forall k | 0 <= k < |earlier| && earlier[k].labels == c.labels && earlier[k].uuid != 0 &&
                       (forall j | k < j < |earlier| :: earlier[j].labels != c.labels) &&
                       (forall e | e in earlier :: e.uuid != c.uuid) ::
              LocalChoice(c, earlier, minted).uuid == earlier[k].uuid
  {
    forall k | 0 <= k < |earlier| && (forall j | k < j < |earlier| :: earlier[j].labels != earlier[k].labels)
      ensures LastChoiceLabelled(earlier, earlier[k].labels) == Some(earlier[k]) {
      LastLabelledIs(earlier, k);
    }
  }

  function ChoicesOf(m: Option<Question>): seq<Choice> {
    match m case None => [] case Some(q) => q.choices
  }

  /** The question with this recording's own uuids; `mint` and the numbers after it are uuids never used before. */
  function LocalQuestion(q: Question, existing: seq<Question>, mint: Uuid): (local: Question)
    ensures local.kind == q.kind && local.labels == q.labels && local.hint == q.hint && |local.choices| == |q.choices|
  {
    var m := MatchExisting(q, existing);
    Question(if m.Some? then m.value.uuid else mint, q.kind, q.labels, q.hint,
             seq(|q.choices|, j requires 0 <= j < |q.choices| => LocalChoice(q.choices[j], ChoicesOf(m), mint + 1 + j)))
  }

  /** The uuids set aside for these questions: one for each and one for each of its choices. */
  function Minted(questions: seq<Question>): nat {
    if questions == [] then 0 else Minted(Front(questions)) + 1 + |Last(questions).choices|
  }

  function Localised(questions: seq<Question>, existing: seq<Question>, mint: Uuid): (local: seq<Question>)
    ensures |local| == |questions|
  {
    if questions == [] then []
    else
      Localised(Front(questions), existing, mint) +
      [LocalQuestion(Last(questions), existing, mint + Minted(Front(questions)))]
  }

  lemma {:induction false} LocalisedAt(questions: seq<Question>, existing: seq<Question>, mint: Uuid, i: nat)
    requires i < |questions|
    ensures Localised(questions, existing, mint)[i] ==
            LocalQuestion(questions[i], existing, mint + Minted(questions[..i]))
    ensures Minted(questions[..i]) + 1 + |questions[i].choices| <= Minted(questions)
  {
    if i < |questions| - 1 {
      LocalisedAt(Front(questions), existing, mint, i);
      assert Front(questions)[..i] == questions[..i];
    } else {
      assert Front(questions) == questions[..i];
    }
  }

  lemma LocalQuestionIs(q: Question, existing: seq<Question>, mint: Uuid, choices: seq<Choice>)
    requires |choices| == |q.choices|
    requires forall k | 0 <= k < |choices| ::
               choices[k] == LocalChoice(q.choices[k], ChoicesOf(MatchExisting(q, existing)), mint + 1 + k)
    ensures var found := MatchExisting(q, existing);
            LocalQuestion(q, existing, mint) ==
            Question(if found.Some? then found.value.uuid else mint, q.kind, q.labels, q.hint, choices)
  {
  }

  method LocaliseQuestions(questions: seq<Question>, existing: seq<Question>, mint: Uuid)
    returns (out: seq<Question>, next: Uuid)
    ensures out == Localised(questions, existing, mint) && next == mint + Minted(questions)
  {
    out, next := [], mint;
    for i := 0 to |questions|
      invariant out == Localised(questions[..i], existing, mint) && next == mint + Minted(questions[..i])
    {
      assert Front(questions[..i + 1]) == questions[..i];
      var q := questions[i];
      var found := MatchExisting(q, existing);
      var earlier, choices := if found.Some? then found.value.choices else [], [];
      for j := 0 to |q.choices|
        invariant |choices| == j
        invariant forall k | 0 <= k < j :: choices[k] == LocalChoice(q.choices[k], earlier, next + 1 + k)
      {
        var prior := PriorChoice(q.choices[j], earlier);
        var uuid := if prior.Some? && prior.value.uuid != 0 then prior.value.uuid else next + 1 + j;
        choices := choices + [q.choices[j].(uuid := uuid)];
      }
      out := out + [Question(if found.Some? then found.value.uuid else next, q.kind, q.labels, q.hint, choices)];
      LocalQuestionIs(q, existing, next, choices);
      next := next + 1 + |q.choices|;
    }
    assert questions[..|questions|] == questions;
  }

  // ---- what is stored of a question -----------------------------------------------------------

  function WithUuid(choices: seq<Choice>): seq<Choice> {
    if choices == [] then []
    else if Last(choices).uuid != 0 then WithUuid(Front(choices)) + [Last(choices)]
    else WithUuid(Front(choices))
  }

  /** The choices that are kept keep their order. */
  lemma {:induction false} WithUuidInTwo(a: seq<Choice>, b: seq<Choice>)
    ensures WithUuid(a + b) == WithUuid(a) + WithUuid(b)
  {
    if b == [] {
      assert a + b == a;
    } else {
      assert Front(a + b) == a + Front(b) && Last(a + b) == Last(b);
      WithUuidInTwo(a, Front(b));
    }
  }

  /** Only choice questions keep choices, and only those with a uuid. */
  function Trimmed(q: Question): Question {
    q.(choices := if q.kind in CHOICE_TYPES then WithUuid(q.choices) else [])
  }

  function TrimmedAll(qs: seq<Question>): (r: seq<Question>)
    ensures |r| == |qs|
  {
    seq(|qs|, i requires 0 <= i < |qs| => Trimmed(qs[i]))
  }

  lemma FrontAndLast<T>(s: seq<T>)
    requires s != []
    ensures Front(s) + [Last(s)] == s
  {
  }

  predicate AllNamed(choices: seq<Choice>) {
    forall j | 0 <= j < |choices| :: choices[j].uuid != 0
  }

  lemma {:induction false} NamedChoicesStay(choices: seq<Choice>)
    requires AllNamed(choices)
    ensures WithUuid(choices) == choices
  {
    if choices != [] {
      NamedChoicesStay(Front(choices));
      FrontAndLast(choices);
    }
  }

  lemma {:induction false} WithUuidNamed(choices: seq<Choice>)
    ensures AllNamed(WithUuid(choices))
  {
    if choices != [] {
      WithUuidNamed(Front(choices));
    }
  }

  lemma TrimmedTwice(q: Question)
    ensures Trimmed(Trimmed(q)) == Trimmed(q)
  {
    WithUuidNamed(q.choices);
    NamedChoicesStay(WithUuid(q.choices));
  }

  // ---- resolving again ------------------------------------------------------------------------------

  predicate DistinctUuids(qs: seq<Question>) {
    forall i, j | 0 <= i < j < |qs| :: qs[i].uuid != qs[j].uuid
  }

  /** No two questions ask the same thing, and no two choices of one read the same. */
  predicate DistinctQuestions(questions: seq<Question>) {
    (forall i, j | 0 <= i < j < |questions| :: !Alike(questions[i], questions[j])) &&
    forall i, j, k | 0 <= i < |questions| && 0 <= j < k < |questions[i].choices| ::
      questions[i].choices[j].labels != questions[i].choices[k].labels
  }

  /** No stored question is matched by two of the set. */
  predicate OneToOne(questions: seq<Question>, existing: seq<Question>) {
    forall i, j | 0 <= i < j < |questions| ::
      var a, b := MatchExisting(questions[i], existing), MatchExisting(questions[j], existing);
      a.Some? && b.Some? ==> a.value.uuid != b.value.uuid
  }

  /** The mint has never been used here. */
  predicate Unused(mint: Uuid, questions: seq<Question>, existing: seq<Question>) {
    mint > 0 && (forall q | q in questions :: q.uuid < mint && forall c | c in q.choices :: c.uuid < mint) &&
    forall e | e in existing :: e.uuid < mint
  }

  lemma LastWithUuidIs(existing: seq<Question>, k: nat)
    requires k < |existing| && DistinctUuids(existing)
    ensures LastWithUuid(existing, existing[k].uuid) == Some(existing[k])
  {
    LastWithUuidAt(existing, existing[k].uuid, k);
  }

  lemma {:induction false} FirstAlikeIs(q: Question, existing: seq<Question>, k: nat)
    requires k < |existing| && Alike(q, existing[k]) && forall i | 0 <= i < k :: !Alike(q, existing[i])
    ensures FirstAlike(q, existing) == Some(existing[k])
  {
    if k > 0 {
      FirstAlikeIs(q, existing[1..], k - 1);
    }
  }

  lemma {:induction false} FirstAlikeIsFirst(q: Question, existing: seq<Question>) returns (k: nat)
    requires FirstAlike(q, existing).Some?
    ensures k < |existing| && FirstAlike(q, existing) == Some(existing[k]) &&
            forall i | 0 <= i < k :: !Alike(q, existing[i])
  {
    if Alike(q, existing[0]) {
      k := 0;
    } else {
      k := FirstAlikeIsFirst(q, existing[1..]);
      k := k + 1;
    }
  }

  lemma {:induction false} LastLabelledIs(earlier: seq<Choice>, j: nat)
    requires j < |earlier| && forall k | j < k < |earlier| :: earlier[k].labels != earlier[j].labels
    ensures LastChoiceLabelled(earlier, earlier[j].labels) == Some(earlier[j])
  {
    if j < |earlier| - 1 {
      LastLabelledIs(Front(earlier), j);
    }
  }

  /** What a recording holds once `incoming` has been merged into `existing`. */
  ghost predicate Absorbed(existing: seq<Question>, incoming: seq<Question>, now: seq<Question>) {
    && |now| >= |existing| && DistinctUuids(now)
    && (forall n | n in incoming :: n in now)
    && (forall k | 0 <= k < |existing| ::
          now[k].uuid == existing[k].uuid && (now[k] in incoming || now[k] == existing[k]))
    && (forall k | |existing| <= k < |now| :: now[k] in incoming && forall e | e in existing :: e.uuid != now[k].uuid)
  }

  predicate Names(taken: seq<Question>, uuid: Uuid) {
    exists i :: 0 <= i < |taken| && taken[i].uuid == uuid
  }

  /** The questions whose uuid the set does not name: those kept beside it when it is applied to a recording that is
      not the one being edited, and those an edit would have to delete. */
  function Kept(existing: seq<Question>, taken: seq<Question>): (kept: seq<Question>)
    ensures forall q :: q in kept <==> q in existing && !Names(taken, q.uuid)
  {
    if existing == [] then []
    else if Names(taken, Last(existing).uuid) then Kept(Front(existing), taken)
    else Kept(Front(existing), taken) + [Last(existing)]
  }

  /** What is kept keeps its order. */
  lemma {:induction false} KeptInTwo(a: seq<Question>, b: seq<Question>, taken: seq<Question>)
    ensures Kept(a + b, taken) == Kept(a, taken) + Kept(b, taken)
  {
    if b == [] {
      assert a + b == a;
    } else {
      assert Front(a + b) == a + Front(b) && Last(a + b) == Last(b);
      KeptInTwo(a, Front(b), taken);
    }
  }

  /** Everything that is written for a recording: the resolved set, and what it is merged with. */
  function Local(questions: seq<Question>, existing: seq<Question>, merge: bool, mint: Uuid): seq<Question> {
    var local := Localised(questions, existing, mint);
    if merge then local + Kept(existing, local) else local
  }

  // ---- the set resolved against its own result --------------------------------------------------------

  /** The circumstances of a first application: the set, what the recording had, and what it holds afterwards. */
  ghost predicate AppliedOnce(questions: seq<Question>, existing: seq<Question>, merge: bool, mint: Uuid,
                              now: seq<Question>) {
    && DistinctQuestions(questions) && OneToOne(questions, existing) && Unused(mint, questions, existing) &&
       DistinctUuids(existing)
    && (forall e | e in existing :: e.uuid != 0)
    && Absorbed(existing, TrimmedAll(Local(questions, existing, merge, mint)), now)
  }

  function Resolved(questions: seq<Question>, existing: seq<Question>, mint: Uuid, i: nat): Question
    requires i < |questions|
  {
    LocalQuestion(questions[i], existing, mint + Minted(questions[..i]))
  }

  lemma LocalisedIs(questions: seq<Question>, existing: seq<Question>, mint: Uuid, i: nat)
    requires i < |questions|
    ensures Localised(questions, existing, mint)[i] == Resolved(questions, existing, mint, i)
  {
    LocalisedAt(questions, existing, mint, i);
  }

  /** A question's own uuid in this recording is its match's, or new. */
  lemma UuidComesFrom(questions: seq<Question>, existing: seq<Question>, mint: Uuid, i: nat)
    requires i < |questions|
    ensures var q, m := Resolved(questions, existing, mint, i), MatchExisting(questions[i], existing);
            q.kind == questions[i].kind && q.labels == questions[i].labels &&
            (if m.Some? then q.uuid == m.value.uuid else mint <= q.uuid < mint + Minted(questions))
  {
    LocalisedAt(questions, existing, mint, i);
  }

  lemma {:induction false} MintedGrows(questions: seq<Question>, i: nat, j: nat)
    requires i < j <= |questions|
    ensures Minted(questions[..i]) + 1 + |questions[i].choices| <= Minted(questions[..j])
  {
    assert Front(questions[..j]) == questions[..j - 1] && Last(questions[..j]) == questions[j - 1];
    if i < j - 1 {
      MintedGrows(questions, i, j - 1);
    }
  }

  lemma ResolvedApart(questions: seq<Question>, existing: seq<Question>, mint: Uuid, i: nat, j: nat)
    requires OneToOne(questions, existing) && Unused(mint, questions, existing) && i < j < |questions|
    ensures Resolved(questions, existing, mint, i).uuid != Resolved(questions, existing, mint, j).uuid
  {
    MintedGrows(questions, i, j);
    var a, b := MatchExisting(questions[i], existing), MatchExisting(questions[j], existing);
    assert a.Some? && b.Some? ==> a.value.uuid != b.value.uuid;
  }

  lemma LocalisedApart(questions: seq<Question>, existing: seq<Question>, mint: Uuid, i: nat, j: nat)
    requires OneToOne(questions, existing) && Unused(mint, questions, existing) && i < j < |questions|
    ensures Localised(questions, existing, mint)[i].uuid != Localised(questions, existing, mint)[j].uuid
  {
    ResolvedApart(questions, existing, mint, i, j);
    LocalisedIs(questions, existing, mint, i);
    LocalisedIs(questions, existing, mint, j);
  }

  /** Matched one to one, the resolved questions have uuids of their own. */
  lemma ResolvedAreDistinct(questions: seq<Question>, existing: seq<Question>, mint: Uuid)
    requires OneToOne(questions, existing) && Unused(mint, questions, existing)
    ensures DistinctUuids(Localised(questions, existing, mint))
  {
    forall i, j | 0 <= i < j < |questions|
      ensures Localised(questions, existing, mint)[i].uuid != Localised(questions, existing, mint)[j].uuid {
      LocalisedApart(questions, existing, mint, i, j);
    }
  }

  lemma LocalHas(questions: seq<Question>, existing: seq<Question>, merge: bool, mint: Uuid, i: nat)
    requires i < |questions|
    ensures Trimmed(Resolved(questions, existing, mint, i)) in TrimmedAll(Local(questions, existing, merge, mint))
  {
    LocalisedAt(questions, existing, mint, i);
    assert TrimmedAll(Local(questions, existing, merge, mint))[i] == Trimmed(Resolved(questions, existing, mint, i));
  }

  /** What is written is a question of the set, or one the recording had that the set does not touch. */
  lemma LocalIs(questions: seq<Question>, existing: seq<Question>, merge: bool, mint: Uuid, n: Question)
    requires n in TrimmedAll(Local(questions, existing, merge, mint))
    ensures (exists i :: 0 <= i < |questions| && n == Trimmed(Resolved(questions, existing, mint, i))) ||
            (merge && exists e :: e in Kept(existing, Localised(questions, existing, mint)) && n == Trimmed(e))
  {
    var all, local := Local(questions, existing, merge, mint), Localised(questions, existing, mint);
    var k :| 0 <= k < |all| && Trimmed(all[k]) == n;
    if k < |local| {
      LocalisedAt(questions, existing, mint, k);
      assert all[k] == Resolved(questions, existing, mint, k);
    } else {
      assert all[k] in Kept(existing, local);
    }
  }

  /** Of each place: a question of the set, or a question the recording had at that place, with its type and label. */
  lemma PlaceIs(questions: seq<Question>, existing: seq<Question>, merge: bool, mint: Uuid, now: seq<Question>, k: nat)
    requires AppliedOnce(questions, existing, merge, mint, now) && k < |now|
    ensures (exists i :: 0 <= i < |questions| && now[k] == Trimmed(Resolved(questions, existing, mint, i))) ||
            (k < |existing| && now[k].uuid == existing[k].uuid && Alike(now[k], existing[k]) &&
             Trimmed(now[k]) == Trimmed(existing[k]))
  {
    var incoming := TrimmedAll(Local(questions, existing, merge, mint));
    if now[k] in incoming {
      LocalIs(questions, existing, merge, mint, now[k]);
      if e :| e in Kept(existing, Localised(questions, existing, mint)) && now[k] == Trimmed(e) {
        TrimmedTwice(e);
        var j :| 0 <= j < |existing| && existing[j] == e;
        assert now[j].uuid == now[k].uuid;
      }
    }
  }

  lemma NewUuidIsUnknown(questions: seq<Question>, existing: seq<Question>, merge: bool, mint: Uuid, now: seq<Question>,
                         i: nat)
    requires AppliedOnce(questions, existing, merge, mint, now) && i < |questions|
    requires LastWithUuid(existing, questions[i].uuid).None?
    ensures LastWithUuid(now, questions[i].uuid).None?
  {
    forall k | 0 <= k < |now| ensures now[k].uuid != questions[i].uuid {
      PlaceIs(questions, existing, merge, mint, now, k);
      if j :| 0 <= j < |questions| && now[k] == Trimmed(Resolved(questions, existing, mint, j)) {
        UuidComesFrom(questions, existing, mint, j);
        assert questions[i] in questions;
      } else {
        assert existing[k] in existing;
      }
    }
  }

  /** No place before a question's own holds one like it. */
  lemma NothingAlikeBefore(questions: seq<Question>, existing: seq<Question>, merge: bool, mint: Uuid,
                           now: seq<Question>, i: nat, k: nat, b: nat)
    requires AppliedOnce(questions, existing, merge, mint, now) && i < |questions| && b < k < |now|
    requires now[k] == Trimmed(Resolved(questions, existing, mint, i)) &&
             LastWithUuid(existing, questions[i].uuid).None?
    ensures !Alike(questions[i], now[b])
  {
    PlaceIs(questions, existing, merge, mint, now, b);
    UuidComesFrom(questions, existing, mint, i);
    if j :| 0 <= j < |questions| && now[b] == Trimmed(Resolved(questions, existing, mint, j)) {
      UuidComesFrom(questions, existing, mint, j);
      assert i != j;
      assert !Alike(questions[if i < j then i else j], questions[if i < j then j else i]);
    } else if Alike(questions[i], existing[b]) {
      var first := FirstAlikeIsFirst(questions[i], existing);
    }
  }

  /** AppliedOnce once, each question of the set is matched by what was stored for it. */
  lemma MatchedByItself(questions: seq<Question>, existing: seq<Question>, merge: bool, mint: Uuid, now: seq<Question>,
                        i: nat)
    requires AppliedOnce(questions, existing, merge, mint, now) && i < |questions|
    ensures MatchExisting(questions[i], now) == Some(Trimmed(Resolved(questions, existing, mint, i)))
  {
    var own := Trimmed(Resolved(questions, existing, mint, i));
    LocalHas(questions, existing, merge, mint, i);
    UuidComesFrom(questions, existing, mint, i);
    var k :| 0 <= k < |now| && now[k] == own;
    LastWithUuidIs(now, k);
    if LastWithUuid(existing, questions[i].uuid).None? {
      NewUuidIsUnknown(questions, existing, merge, mint, now, i);
      forall b | 0 <= b < k ensures !Alike(questions[i], now[b]) {
        NothingAlikeBefore(questions, existing, merge, mint, now, i, k, b);
      }
      FirstAlikeIs(questions[i], now, k);
    }
  }

  /** The uuids of a resolved question's choices are those of stored choices, or new. */
  lemma ChoiceComesFrom(questions: seq<Question>, existing: seq<Question>, mint: Uuid, i: nat, j: nat)
    requires i < |questions| && j < |questions[i].choices| && mint > 0
    ensures var c, prior := Resolved(questions, existing, mint, i).choices[j],
                            PriorChoice(questions[i].choices[j], ChoicesOf(MatchExisting(questions[i], existing)));
            c.labels == questions[i].choices[j].labels && c.uuid != 0 &&
            (if prior.Some? && prior.value.uuid != 0 then c.uuid == prior.value.uuid else c.uuid >= mint)
  {
  }

  lemma ResolvedChoicesAreNamed(questions: seq<Question>, existing: seq<Question>, mint: Uuid, i: nat)
    requires i < |questions| && mint > 0 && questions[i].kind in CHOICE_TYPES
    ensures Trimmed(Resolved(questions, existing, mint, i)) == Resolved(questions, existing, mint, i)
  {
    var q := Resolved(questions, existing, mint, i);
    forall j | 0 <= j < |q.choices| ensures q.choices[j].uuid != 0 {
      ChoiceComesFrom(questions, existing, mint, i, j);
    }
    NamedChoicesStay(q.choices);
  }

  lemma KnownChoiceKeepsUuid(questions: seq<Question>, existing: seq<Question>, mint: Uuid, i: nat, j: nat)
    requires i < |questions| && j < |questions[i].choices| && Unused(mint, questions, existing)
    requires LastChoiceWithUuid(Resolved(questions, existing, mint, i).choices, questions[i].choices[j].uuid).Some?
    ensures Resolved(questions, existing, mint, i).choices[j].uuid == questions[i].choices[j].uuid
  {
    var c, choices := questions[i].choices[j], Resolved(questions, existing, mint, i).choices;
    var earlier := ChoicesOf(MatchExisting(questions[i], existing));
    assert questions[i] in questions && c in questions[i].choices && c.uuid < mint;
    var hit := LastChoiceWithUuid(choices, c.uuid).value;
    var k :| 0 <= k < |choices| && choices[k] == hit;
    ChoiceComesFrom(questions, existing, mint, i, k);
    ChoiceComesFrom(questions, existing, mint, i, j);
    var prior := PriorChoice(questions[i].choices[k], earlier);
    assert prior.Some? && prior.value.uuid == c.uuid && prior.value in earlier;
  }

  lemma UnknownChoiceIsFoundByLabel(questions: seq<Question>, existing: seq<Question>, mint: Uuid, i: nat, j: nat)
    requires i < |questions| && j < |questions[i].choices| && mint > 0 && DistinctQuestions(questions)
    ensures var choices := Resolved(questions, existing, mint, i).choices;
            LastChoiceLabelled(choices, questions[i].choices[j].labels) == Some(choices[j])
  {
    var choices := Resolved(questions, existing, mint, i).choices;
    ChoiceComesFrom(questions, existing, mint, i, j);
    forall k | j < k < |choices| ensures choices[k].labels != choices[j].labels {
      ChoiceComesFrom(questions, existing, mint, i, k);
    }
    LastLabelledIs(choices, j);
  }

  lemma ChoiceFromPrior(c: Choice, earlier: seq<Choice>, own: Choice, minted: Uuid)
    requires PriorChoice(c, earlier).Some? && PriorChoice(c, earlier).value.uuid == own.uuid != 0 &&
             own == c.(uuid := own.uuid)
    ensures LocalChoice(c, earlier, minted) == own
  {
  }

  lemma PriorIsOwn(questions: seq<Question>, existing: seq<Question>, mint: Uuid, i: nat, j: nat)
    requires i < |questions| && j < |questions[i].choices| && Unused(mint, questions, existing) &&
             DistinctQuestions(questions)
    ensures var choices := Resolved(questions, existing, mint, i).choices;
            var prior := PriorChoice(questions[i].choices[j], choices);
            prior.Some? && prior.value.uuid == choices[j].uuid
  {
    var c, choices := questions[i].choices[j], Resolved(questions, existing, mint, i).choices;
    if LastChoiceWithUuid(choices, c.uuid).Some? {
      KnownChoiceKeepsUuid(questions, existing, mint, i, j);
    } else {
      UnknownChoiceIsFoundByLabel(questions, existing, mint, i, j);
    }
  }

  lemma ChoiceIsItsOwn(questions: seq<Question>, existing: seq<Question>, mint: Uuid, i: nat, j: nat)
    requires i < |questions| && j < |questions[i].choices| && mint > 0
    ensures var own := Resolved(questions, existing, mint, i).choices[j];
            own.uuid != 0 && own == questions[i].choices[j].(uuid := own.uuid)
  {
    ChoiceComesFrom(questions, existing, mint, i, j);
    ChoiceAt(questions, existing, mint, i, j);
  }

  /** Resolved against what was stored of it, a choice keeps its uuid. */
  lemma ChoiceKeepsUuid(questions: seq<Question>, existing: seq<Question>, mint: Uuid, i: nat, j: nat, minted: Uuid)
    requires i < |questions| && j < |questions[i].choices| && Unused(mint, questions, existing) &&
             DistinctQuestions(questions)
    ensures var choices := Resolved(questions, existing, mint, i).choices;
            LocalChoice(questions[i].choices[j], choices, minted) == choices[j]
  {
    var c, choices := questions[i].choices[j], Resolved(questions, existing, mint, i).choices;
    PriorIsOwn(questions, existing, mint, i, j);
    ChoiceIsItsOwn(questions, existing, mint, i, j);
    ChoiceFromPrior(c, choices, choices[j], minted);
  }

  lemma ChoiceAt(questions: seq<Question>, existing: seq<Question>, mint: Uuid, i: nat, j: nat)
    requires i < |questions| && j < |questions[i].choices|
    ensures Resolved(questions, existing, mint, i).choices[j] ==
            LocalChoice(questions[i].choices[j], ChoicesOf(MatchExisting(questions[i], existing)),
                        mint + Minted(questions[..i]) + 1 + j)
  {
  }

  /** A question matched by what was made of it before gets the choices it had. */
  lemma SameChoices(q: Question, now: seq<Question>, mint: Uuid, own: Question)
    requires MatchExisting(q, now) == Some(own) && |own.choices| == |q.choices|
    requires forall j, minted | 0 <= j < |q.choices| :: LocalChoice(q.choices[j], own.choices, minted) == own.choices[j]
    ensures LocalQuestion(q, now, mint).choices == own.choices
  {
  }

  lemma ChoicesKeepUuids(questions: seq<Question>, existing: seq<Question>, mint: Uuid, i: nat, now: seq<Question>,
                         mint': Uuid)
    requires i < |questions| && Unused(mint, questions, existing) && DistinctQuestions(questions)
    requires MatchExisting(questions[i], now) == Some(Resolved(questions, existing, mint, i))
    ensures Resolved(questions, now, mint', i).choices == Resolved(questions, existing, mint, i).choices
  {
    var own := Resolved(questions, existing, mint, i);
    forall j, minted | 0 <= j < |questions[i].choices|
      ensures LocalChoice(questions[i].choices[j], own.choices, minted) == own.choices[j] {
      ChoiceKeepsUuid(questions, existing, mint, i, j, minted);
    }
    SameChoices(questions[i], now, mint' + Minted(questions[..i]), own);
  }

  /** Resolved a second time, each question has the uuid it had, and as much of it is stored as was. */
  lemma ResolvedAgain(questions: seq<Question>, existing: seq<Question>, merge: bool, mint: Uuid, now: seq<Question>,
                      mint': Uuid, i: nat)
    requires AppliedOnce(questions, existing, merge, mint, now) && i < |questions|
    ensures Resolved(questions, now, mint', i).uuid == Resolved(questions, existing, mint, i).uuid
    ensures Trimmed(Resolved(questions, now, mint', i)) == Trimmed(Resolved(questions, existing, mint, i))
  {
    MatchedByItself(questions, existing, merge, mint, now, i);
    if questions[i].kind in CHOICE_TYPES {
      ResolvedChoicesAreNamed(questions, existing, mint, i);
      ChoicesKeepUuids(questions, existing, mint, i, now, mint');
    }
  }

  lemma {:induction false} SameKept(a: seq<Question>, b: seq<Question>, taken: seq<Question>, taken': seq<Question>)
    requires |a| == |b| && forall k | 0 <= k < |a| :: a[k].uuid == b[k].uuid
    requires forall uuid :: Names(taken, uuid) == Names(taken', uuid)
    requires forall k | 0 <= k < |a| && !Names(taken, a[k].uuid) :: Trimmed(a[k]) == Trimmed(b[k])
    ensures TrimmedAll(Kept(a, taken)) == TrimmedAll(Kept(b, taken'))
  {
    if a != [] {
      var n := |a| - 1;
      SameKept(Front(a), Front(b), taken, taken');
      if !Names(taken, a[n].uuid) {
        TrimmedMore(Kept(Front(a), taken), a[n]);
        TrimmedMore(Kept(Front(b), taken'), b[n]);
      }
    }
  }

  lemma TrimmedMore(qs: seq<Question>, q: Question)
    ensures TrimmedAll(qs + [q]) == TrimmedAll(qs) + [Trimmed(q)]
  {
  }

  lemma {:induction false} NothingKept(a: seq<Question>, rest: seq<Question>, taken: seq<Question>)
    requires forall q | q in rest :: Names(taken, q.uuid)
    ensures Kept(a + rest, taken) == Kept(a, taken)
  {
    if rest == [] {
      assert a + rest == a;
    } else {
      assert Front(a + rest) == a + Front(rest) && Last(a + rest) == Last(rest);
      NothingKept(a, Front(rest), taken);
    }
  }

  lemma LocalisedAgain(questions: seq<Question>, existing: seq<Question>, merge: bool, mint: Uuid, now: seq<Question>,
                       mint': Uuid, i: nat)
    requires AppliedOnce(questions, existing, merge, mint, now) && i < |questions|
    ensures Localised(questions, now, mint')[i].uuid == Localised(questions, existing, mint)[i].uuid
    ensures Trimmed(Localised(questions, now, mint')[i]) == Trimmed(Localised(questions, existing, mint)[i])
  {
    LocalisedIs(questions, now, mint', i);
    LocalisedIs(questions, existing, mint, i);
    ResolvedAgain(questions, existing, merge, mint, now, mint', i);
  }

  predicate SameWhenStored(a: seq<Question>, b: seq<Question>) {
    |a| == |b| && forall i | 0 <= i < |a| :: a[i].uuid == b[i].uuid && Trimmed(a[i]) == Trimmed(b[i])
  }

  /** Resolved a second time, the whole set has the uuids it had, and as much of it is stored as was. */
  lemma SetResolvedAgain(questions: seq<Question>, existing: seq<Question>, merge: bool, mint: Uuid, now: seq<Question>,
                         mint': Uuid)
    requires AppliedOnce(questions, existing, merge, mint, now)
    ensures SameWhenStored(Localised(questions, now, mint'), Localised(questions, existing, mint))
  {
    forall i | 0 <= i < |questions|
      ensures Localised(questions, now, mint')[i].uuid == Localised(questions, existing, mint)[i].uuid &&
              Trimmed(Localised(questions, now, mint')[i]) == Trimmed(Localised(questions, existing, mint)[i])
    {
      LocalisedAgain(questions, existing, merge, mint, now, mint', i);
    }
  }

  lemma SameNames(a: seq<Question>, b: seq<Question>)
    requires SameWhenStored(a, b)
    ensures forall uuid :: Names(a, uuid) == Names(b, uuid)
  {
    forall uuid ensures Names(a, uuid) == Names(b, uuid) {
      if i :| 0 <= i < |a| && a[i].uuid == uuid {
        assert b[i].uuid == uuid;
      }
      if i :| 0 <= i < |b| && b[i].uuid == uuid {
        assert a[i].uuid == uuid;
      }
    }
  }

  lemma NamedAt(questions: seq<Question>, existing: seq<Question>, mint: Uuid, i: nat)
    requires i < |questions|
    ensures Names(Localised(questions, existing, mint), Trimmed(Resolved(questions, existing, mint, i)).uuid)
  {
    LocalisedAt(questions, existing, mint, i);
  }

  /** What was appended belongs to the set. */
  lemma AppendedIsNamed(questions: seq<Question>, existing: seq<Question>, merge: bool, mint: Uuid, now: seq<Question>,
                        k: nat)
    requires AppliedOnce(questions, existing, merge, mint, now) && |existing| <= k < |now|
    ensures Names(Localised(questions, existing, mint), now[k].uuid)
  {
    PlaceIs(questions, existing, merge, mint, now, k);
    var i :| 0 <= i < |questions| && now[k] == Trimmed(Resolved(questions, existing, mint, i));
    NamedAt(questions, existing, mint, i);
  }

  lemma UntouchedIsKept(questions: seq<Question>, existing: seq<Question>, merge: bool, mint: Uuid, now: seq<Question>,
                        k: nat)
    requires AppliedOnce(questions, existing, merge, mint, now) && k < |existing|
    requires !Names(Localised(questions, existing, mint), now[k].uuid)
    ensures Trimmed(now[k]) == Trimmed(existing[k])
  {
    PlaceIs(questions, existing, merge, mint, now, k);
    if i :| 0 <= i < |questions| && now[k] == Trimmed(Resolved(questions, existing, mint, i)) {
      NamedAt(questions, existing, mint, i);
    }
  }

  /** The recording's questions before, at their places; after, those that are not of the set read the same. */
  ghost predicate OthersUntouched(now: seq<Question>, existing: seq<Question>, taken: seq<Question>) {
    && |now| >= |existing|
    && (forall k | 0 <= k < |existing| ::
          now[k].uuid == existing[k].uuid && (!Names(taken, now[k].uuid) ==> Trimmed(now[k]) == Trimmed(existing[k])))
    && (forall k | |existing| <= k < |now| :: Names(taken, now[k].uuid))
  }

  lemma OthersAreUntouched(questions: seq<Question>, existing: seq<Question>, merge: bool, mint: Uuid,
                           now: seq<Question>)
    requires AppliedOnce(questions, existing, merge, mint, now)
    ensures OthersUntouched(now, existing, Localised(questions, existing, mint))
  {
    var taken := Localised(questions, existing, mint);
    forall k | 0 <= k < |existing| && !Names(taken, now[k].uuid) ensures Trimmed(now[k]) == Trimmed(existing[k]) {
      UntouchedIsKept(questions, existing, merge, mint, now, k);
    }
    forall k | |existing| <= k < |now| ensures Names(taken, now[k].uuid) {
      AppendedIsNamed(questions, existing, merge, mint, now, k);
    }
  }

  lemma KeptAgain(now: seq<Question>, existing: seq<Question>, a: seq<Question>, b: seq<Question>)
    requires OthersUntouched(now, existing, b) && SameWhenStored(a, b)
    ensures TrimmedAll(Kept(now, a)) == TrimmedAll(Kept(existing, b))
  {
    var n := |existing|;
    SameNames(a, b);
    assert now == now[..n] + now[n..];
    NothingKept(now[..n], now[n..], a);
    SameKept(now[..n], existing, a, b);
  }

  /** Applying the same set again writes exactly what it wrote before. */
  lemma WritesTheSameAgain(questions: seq<Question>, existing: seq<Question>, merge: bool, mint: Uuid,
                           now: seq<Question>, mint': Uuid)
    requires AppliedOnce(questions, existing, merge, mint, now)
    ensures TrimmedAll(Local(questions, now, merge, mint')) == TrimmedAll(Local(questions, existing, merge, mint))
  {
    SetResolvedAgain(questions, existing, merge, mint, now, mint');
    OthersAreUntouched(questions, existing, merge, mint, now);
    StoredTheSame(questions, existing, merge, mint, now, mint');
  }

  lemma StoredTheSame(questions: seq<Question>, existing: seq<Question>, merge: bool, mint: Uuid, now: seq<Question>,
                      mint': Uuid)
    requires SameWhenStored(Localised(questions, now, mint'), Localised(questions, existing, mint))
    requires OthersUntouched(now, existing, Localised(questions, existing, mint))
    ensures TrimmedAll(Local(questions, now, merge, mint')) == TrimmedAll(Local(questions, existing, merge, mint))
  {
    var a, b := Localised(questions, now, mint'), Localised(questions, existing, mint);
    assert TrimmedAll(a) == TrimmedAll(b);
    if merge {
      KeptAgain(now, existing, a, b);
      TrimmedJoined(a, Kept(now, a));
      TrimmedJoined(b, Kept(existing, b));
    }
  }

  lemma TrimmedJoined(a: seq<Question>, b: seq<Question>)
    ensures TrimmedAll(a + b) == TrimmedAll(a) + TrimmedAll(b)
  {
  }
}