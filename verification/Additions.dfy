/**
 What adding to a health document can and cannot do to its verdict
 (src/scf/tools/cloud_run_evidence.py:204-263, 378-395).
 */
module Additions {
  import opened Prelude
  import opened Values
  import opened Health

  ghost predicate NamesUnique(fields: seq<Field>) {
    forall i, j :: 0 <= i < j < |fields| ==> fields[i].name != fields[j].name
  }

  /** How many items or fields a container has. */
  function Size(j: Json): nat {
    match j
    case JArr(items) => |items|
    case JObj(fields) => |fields|
    case _ => 0
  }

  function Part(j: Json, i: nat): (p: Json)
    requires i < Size(j)
    ensures p < j
  {
    match j
    case JArr(items) => items[i]
    case JObj(fields) => fields[i].value
  }

  /** `b` is `a` with fields and items added anywhere; nothing that was there is changed. */
  ghost predicate Extends(a: Json, b: Json)
    decreases a, 2
  {
    match a
    case JArr(items) => b.JArr? && forall i: nat :: i < |items| ==> Kept(a, i, b)
    case JObj(fields) => b.JObj? && NamesUnique(b.fields) && forall i: nat :: i < |fields| ==> Kept(a, i, b)
    case _ => a == b
  }

  ghost predicate Kept(a: Json, i: nat, b: Json)
    requires i < Size(a)
    decreases a, 1
  {
    exists k: nat :: Stands(a, i, b, k)
  }

  /** Part `i` of `a` stands, perhaps extended, at position `k` of `b`. */
  ghost predicate Stands(a: Json, i: nat, b: Json, k: nat)
    requires i < Size(a)
    decreases a, 0
  {
    && k < Size(b)
    && (a.JObj? ==> b.JObj? && b.fields[k].name == a.fields[i].name)
    && Extends(Part(a, i), Part(b, k))
  }

  lemma PartsAreKept(a: Json, b: Json, i: nat) returns (k: nat)
    requires Extends(a, b) && i < Size(a)
    ensures k < Size(b) && Extends(Part(a, i), Part(b, k))
    ensures a.JObj? ==> b.JObj? && NamesUnique(b.fields) && b.fields[k].name == a.fields[i].name
    ensures a.JArr? ==> b.JArr?
  {
    assert Kept(a, i, b);
    k :| Stands(a, i, b, k);
  }

  lemma {:induction false} FindUnique(fields: seq<Field>, k: nat)
    requires NamesUnique(fields) && k < |fields|
    ensures Find(fields, fields[k].name) == Some(fields[k].value)
  {
    if k > 0 {
      assert fields[0].name != fields[k].name;
      assert NamesUnique(fields[1..]);
      FindUnique(fields[1..], k - 1);
    }
  }

  lemma {:induction false} FindIsAField(fields: seq<Field>, name: string) returns (i: nat)
    requires Find(fields, name).Some?
    ensures i < |fields| && fields[i] == Field(name, Find(fields, name).value)
  {
    if fields[0].name == name {
      return 0;
    }
    i := FindIsAField(fields[1..], name);
    i := i + 1;
  }

  lemma MarkersPersist(a: Json, b: Json)
    requires a.JObj? && Extends(a, b) && MarkerOf(a.fields) in {Malformed, Lists(true)}
    ensures MarkerOf(b.fields) in {Malformed, Lists(true)}
  {
    var i := FindIsAField(a.fields, CONFLICT_KEY);
    var k := PartsAreKept(a, b, i);
    FindUnique(b.fields, k);
    var was, now := a.fields[i].value, b.fields[k].value;
    if was.JArr? {
      var m :| 0 <= m < |was.items| && was.items[m].JStr? && was.items[m].s in HEALTH_KEYS;
      var n := PartsAreKept(was, now, m);
      assert now.items[n] in now.items;
    }
  }

  lemma ComplaintsPersistHere(rd: Reader, a: Json, b: Json, depth: nat)
    requires Extends(a, b) && Complains(rd, a, depth)
    ensures Complains(rd, b, depth)
  {
    if a.JObj? {
      if MarkerOf(a.fields) in {Malformed, Lists(true)} {
        MarkersPersist(a, b);
      } else if f :| f in a.fields && IsHealthField(f) && Denies(rd, f.value) {
        var i :| 0 <= i < |a.fields| && a.fields[i] == f;
        var k := PartsAreKept(a, b, i);
        assert b.fields[k] in b.fields && Denies(rd, b.fields[k].value);
      }
    }
  }

  lemma ChildrenPersist(a: Json, b: Json, i: nat) returns (k: nat)
    requires Extends(a, b) && Child(a, i).Some?
    ensures Child(b, k).Some? && Extends(Child(a, i).value, Child(b, k).value)
  {
    k := PartsAreKept(a, b, i);
  }

  /** However a body is added to, a complaint in it is never outweighed. */
  lemma {:induction false} ComplaintsPersist(rd: Reader, a: Json, b: Json, depth: nat)
    requires Extends(a, b) && SomeNode(a, depth, Complaining(rd))
    ensures SomeNode(b, depth, Complaining(rd))
    decreases a
  {
    if Complains(rd, a, depth) {
      ComplaintsPersistHere(rd, a, b, depth);
    } else {
      var i: nat :| Child(a, i).Some? && SomeNode(Child(a, i).value, depth + 1, Complaining(rd));
      var k := ChildrenPersist(a, b, i);
      ComplaintsPersist(rd, Child(a, i).value, Child(b, k).value, depth + 1);
    }
  }

  /** So no addition makes a body healthy that carried a false verdict or any other complaint. */
  lemma ComplainedBodiesStayUnhealthy(rd: Reader, a: Json, b: Json)
    requires Extends(a, b) && SomeNode(a, 0, Complaining(rd))
    ensures !Reads(rd, b)
  {
    ComplaintsPersist(rd, a, b, 0);
    ComplaintsAreFatal(rd, b);
  }

  // --- what can be cured ---

  predicate Container(j: Json) {
    j.JArr? || j.JObj?
  }

  /** A health key in the object `n` that is answered by a container in which nothing speaks. */
  ghost predicate Mute(rd: Reader, f: Field, depth: nat) {
    IsHealthField(f) && Container(f.value) && !SomeNode(f.value, depth + 1, Speaking(rd))
  }

  /** Below this container there is room for an assertion of health: a key of its own, or an object that
      holds one. */
  predicate HasRoom(j: Json, depth: nat) {
    depth + (if j.JObj? then 1 else 2) <= MAX_HEALTH_DEPTH
  }

  /** A health key whose container says nothing and is too deep to be given anything to say. */
  ghost function Stuck(rd: Reader): Property {
    (n: Json, depth: nat) => n.JObj? && exists f <- n.fields :: Mute(rd, f, depth) && !HasRoom(f.value, depth + 1)
  }

  /** Within every object, the one under the contradiction marker too, no name occurs twice, as in every
      parsed document. */
  ghost predicate Unique(j: Json) {
    match j
    case JArr(items) => forall i: nat :: i < Size(j) ==> Unique(Part(j, i))
    case JObj(fields) => NamesUnique(fields) && forall i: nat :: i < Size(j) ==> Unique(Part(j, i))
    case _ => true
  }

  /** Extended in place, and perhaps with more behind. */
  lemma InPlaceExtends(a: Json, b: Json)
    requires (a.JArr? && b.JArr?) || (a.JObj? && b.JObj? && NamesUnique(b.fields))
    requires Size(a) <= Size(b) && forall i: nat :: i < Size(a) ==> Stands(a, i, b, i)
    ensures Extends(a, b)
  {
    forall i: nat | i < Size(a)
      ensures Kept(a, i, b)
    {
      assert Stands(a, i, b, i);
    }
  }

  lemma {:induction false} ExtendsItself(j: Json)
    requires Unique(j)
    ensures Extends(j, j)
    decreases j
  {
    if Container(j) {
      forall i: nat | i < Size(j)
        ensures Stands(j, i, j, i)
      {
        ExtendsItself(Part(j, i));
      }
      InPlaceExtends(j, j);
    }
  }

  // --- giving a container something to say ---

  const PRAISE := Field("ok", JBool(true))

  function Voiced(j: Json): Json {
    match j
    case JArr(items) => JArr(items + [JObj([PRAISE])])
    case JObj(fields) => JObj(fields + [PRAISE])
    case _ => j
  }

  lemma VoicedExtends(rd: Reader, j: Json, depth: nat)
    requires Unique(j) && Container(j) && !SomeNode(j, depth, Speaking(rd))
    ensures Extends(j, Voiced(j))
  {
    forall i: nat | i < Size(j)
      ensures Stands(j, i, Voiced(j), i)
    {
      ExtendsItself(Part(j, i));
      assert Part(Voiced(j), i) == Part(j, i);
    }
    if j.JObj? {
      assert !Speaking(rd)(j, depth);
      assert forall i :: 0 <= i < |j.fields| ==> j.fields[i] in j.fields && j.fields[i].name != PRAISE.name;
    }
    InPlaceExtends(j, Voiced(j));
  }

  lemma {:induction false} FindPastEnd(fields: seq<Field>, f: Field, name: string)
    requires f.name != name
    ensures Find(fields + [f], name) == Find(fields, name)
  {
    if fields != [] {
      assert (fields + [f])[1..] == fields[1..] + [f];
      FindPastEnd(fields[1..], f, name);
    }
  }

  /** Whatever is not said is not said pessimistically either. */
  lemma SilenceIsNotPessimism(rd: Reader, j: Json, depth: nat)
    requires !SomeNode(j, depth, Speaking(rd))
    ensures !SomeNode(j, depth, Pessimistic(rd))
  {
    if SomeNode(j, depth, Pessimistic(rd)) {
      Weaken(j, depth, Pessimistic(rd), Speaking(rd));
    }
  }

  lemma PraiseIsGood(rd: Reader, depth: nat)
    requires depth + 1 <= MAX_HEALTH_DEPTH
    ensures !SomeNode(JObj([PRAISE]), depth, Pessimistic(rd)) && SomeNode(JObj([PRAISE]), depth, Speaking(rd))
  {
    var j := JObj([PRAISE]);
    assert j.fields[0] == PRAISE;
    assert forall i: nat :: Child(j, i).Some? ==> i == 0;
    assert !SomeNode(PRAISE.value, depth + 1, Pessimistic(rd));
    assert Find([PRAISE], CONFLICT_KEY) == Find([], CONFLICT_KEY);
    assert !Complains(rd, j, depth);
    assert Speaking(rd)(j, depth);
  }

  lemma VoicedObjectIsGood(rd: Reader, j: Json, depth: nat)
    requires j.JObj? && !SomeNode(j, depth, Speaking(rd)) && HasRoom(j, depth)
    ensures !SomeNode(Voiced(j), depth, Pessimistic(rd)) && SomeNode(Voiced(j), depth, Speaking(rd))
  {
    var more := Voiced(j);
    assert forall f <- j.fields :: !IsHealthField(f);
    FindPastEnd(j.fields, PRAISE, CONFLICT_KEY);
    assert !Complains(rd, j, depth);
    assert PRAISE in more.fields && forall f <- more.fields :: f in j.fields || f == PRAISE;
    assert !Pessimistic(rd)(more, depth) && Speaking(rd)(more, depth);
    forall i: nat | Child(more, i).Some?
      ensures !SomeNode(Child(more, i).value, depth + 1, Pessimistic(rd))
    {
      if i < |j.fields| {
        assert Child(j, i) == Child(more, i);
        SilenceIsNotPessimism(rd, Child(j, i).value, depth + 1);
      }
    }
  }

  lemma VoicedArrayIsGood(rd: Reader, j: Json, depth: nat)
    requires j.JArr? && !SomeNode(j, depth, Speaking(rd)) && HasRoom(j, depth)
    ensures !SomeNode(Voiced(j), depth, Pessimistic(rd)) && SomeNode(Voiced(j), depth, Speaking(rd))
  {
    var more := Voiced(j);
    PraiseIsGood(rd, depth + 1);
    assert Child(more, |j.items|) == Some(JObj([PRAISE]));
    assert !Complains(rd, j, depth);
    assert !Pessimistic(rd)(more, depth);
    forall i: nat | Child(more, i).Some?
      ensures !SomeNode(Child(more, i).value, depth + 1, Pessimistic(rd))
    {
      if i < |j.items| {
        assert Child(j, i) == Child(more, i);
        SilenceIsNotPessimism(rd, Child(j, i).value, depth + 1);
      }
    }
  }

  lemma VoicedIsGood(rd: Reader, j: Json, depth: nat)
    requires Container(j) && !SomeNode(j, depth, Speaking(rd)) && HasRoom(j, depth)
    ensures !SomeNode(Voiced(j), depth, Pessimistic(rd)) && SomeNode(Voiced(j), depth, Speaking(rd))
  {
    if j.JObj? {
      VoicedObjectIsGood(rd, j, depth);
    } else {
      VoicedArrayIsGood(rd, j, depth);
    }
  }

  // --- giving every mute answer something to say ---

  ghost function Cured(rd: Reader, j: Json, depth: nat): Json
    decreases j
  {
    match j
    case JArr(items) => JArr(seq(|items|, i requires 0 <= i < |items| => Cured(rd, items[i], depth + 1)))
    case JObj(fields) => JObj(seq(|fields|, i requires 0 <= i < |fields| => CuredField(rd, fields[i], depth)))
    case _ => j
  }

  ghost function CuredField(rd: Reader, f: Field, depth: nat): (g: Field)
    ensures g.name == f.name
    decreases f
  {
    if f.name == CONFLICT_KEY then f
    else if Mute(rd, f, depth) then Field(f.name, Voiced(f.value))
    else Field(f.name, Cured(rd, f.value, depth + 1))
  }

  lemma {:induction false} CuredExtends(rd: Reader, j: Json, depth: nat)
    requires Unique(j)
    ensures Extends(j, Cured(rd, j, depth))
    decreases j
  {
    var b := Cured(rd, j, depth);
    if Container(j) {
      forall i: nat | i < Size(j)
        ensures Stands(j, i, b, i)
      {
        assert Unique(Part(j, i));
        if j.JArr? {
          CuredExtends(rd, j.items[i], depth + 1);
        } else {
          CuredFieldExtends(rd, j.fields[i], depth);
        }
      }
      assert j.JObj? ==> forall i :: 0 <= i < |j.fields| ==> b.fields[i].name == j.fields[i].name;
      InPlaceExtends(j, b);
    }
  }

  lemma {:induction false} CuredFieldExtends(rd: Reader, f: Field, depth: nat)
    requires Unique(f.value)
    ensures Extends(f.value, CuredField(rd, f, depth).value)
    decreases f
  {
    if f.name == CONFLICT_KEY {
      ExtendsItself(f.value);
    } else if Mute(rd, f, depth) {
      VoicedExtends(rd, f.value, depth + 1);
    } else {
      CuredExtends(rd, f.value, depth + 1);
    }
  }

  lemma CuredChild(rd: Reader, j: Json, depth: nat, i: nat)
    requires Child(j, i).Some? && (j.JObj? ==> !Mute(rd, j.fields[i], depth))
    ensures Child(Cured(rd, j, depth), i) == Some(Cured(rd, Child(j, i).value, depth + 1))
  {
  }

  /** Nothing that spoke falls silent. */
  lemma {:induction false} CuredStillSpeaks(rd: Reader, j: Json, depth: nat)
    requires SomeNode(j, depth, Speaking(rd)) && !SomeNode(j, depth, Complaining(rd))
    ensures SomeNode(Cured(rd, j, depth), depth, Speaking(rd))
    decreases j
  {
    var b := Cured(rd, j, depth);
    if Speaking(rd)(j, depth) {
      var f :| f in j.fields && IsHealthField(f);
      var i :| 0 <= i < |j.fields| && j.fields[i] == f;
      assert b.fields[i] == CuredField(rd, f, depth) && b.fields[i] in b.fields && IsHealthField(b.fields[i]);
      assert Speaking(rd)(b, depth);
    } else {
      var i: nat :| Child(j, i).Some? && SomeNode(Child(j, i).value, depth + 1, Speaking(rd));
      CuredStillSpeaks(rd, Child(j, i).value, depth + 1);
      CuredChild(rd, j, depth, i);
    }
  }

  lemma {:induction false} CuredKeepsMarker(rd: Reader, fields: seq<Field>, cured: seq<Field>, depth: nat)
    requires |cured| == |fields| && forall i :: 0 <= i < |fields| ==> cured[i] == CuredField(rd, fields[i], depth)
    ensures Find(cured, CONFLICT_KEY) == Find(fields, CONFLICT_KEY)
  {
    if fields != [] {
      CuredKeepsMarker(rd, fields[1..], cured[1..], depth);
    }
  }

  lemma CuredDoesNotComplainHere(rd: Reader, j: Json, depth: nat)
    requires !Complains(rd, j, depth)
    ensures !Complains(rd, Cured(rd, j, depth), depth)
  {
    if j.JObj? {
      var b := Cured(rd, j, depth);
      CuredKeepsMarker(rd, j.fields, b.fields, depth);
      forall f | f in b.fields && IsHealthField(f)
        ensures !Denies(rd, f.value)
      {
        var i :| 0 <= i < |b.fields| && b.fields[i] == f;
        assert f == CuredField(rd, j.fields[i], depth) && j.fields[i] in j.fields;
      }
    }
  }

  lemma CuredFieldIsNotMute(rd: Reader, f: Field, depth: nat)
    requires f.name != CONFLICT_KEY && !SomeNode(f.value, depth + 1, Complaining(rd))
    requires Mute(rd, f, depth) ==> HasRoom(f.value, depth + 1)
    ensures !Mute(rd, CuredField(rd, f, depth), depth)
  {
    if Mute(rd, f, depth) {
      VoicedIsGood(rd, f.value, depth + 1);
    } else if IsHealthField(f) && Container(f.value) {
      CuredStillSpeaks(rd, f.value, depth + 1);
    }
  }

  /** A body without complaints, none of whose mute answers is out of reach, is cured. */
  ghost predicate Curable(rd: Reader, j: Json, depth: nat) {
    !SomeNode(j, depth, Complaining(rd)) && !SomeNode(j, depth, Stuck(rd))
  }

  lemma FieldOfCurable(rd: Reader, j: Json, depth: nat, i: nat)
    requires j.JObj? && Curable(rd, j, depth) && i < |j.fields|
    ensures j.fields[i].name != CONFLICT_KEY ==> !SomeNode(j.fields[i].value, depth + 1, Complaining(rd))
    ensures Mute(rd, j.fields[i], depth) ==> HasRoom(j.fields[i].value, depth + 1)
  {
    var f := j.fields[i];
    assert f in j.fields && !Stuck(rd)(j, depth);
    if f.name != CONFLICT_KEY {
      assert Child(j, i) == Some(f.value);
    }
  }

  lemma ObjectIsNotMute(rd: Reader, j: Json, depth: nat)
    requires j.JObj? && Curable(rd, j, depth)
    ensures !AnswersNothing(rd, Cured(rd, j, depth), depth)
  {
    var b := Cured(rd, j, depth);
    forall i: nat | i < |b.fields|
      ensures !Mute(rd, b.fields[i], depth)
    {
      FieldOfCurable(rd, j, depth, i);
      assert b.fields[i] == CuredField(rd, j.fields[i], depth);
      if j.fields[i].name != CONFLICT_KEY {
        CuredFieldIsNotMute(rd, j.fields[i], depth);
      }
    }
  }

  lemma {:induction false} CuredIsNotPessimistic(rd: Reader, j: Json, depth: nat)
    requires Curable(rd, j, depth)
    ensures !SomeNode(Cured(rd, j, depth), depth, Pessimistic(rd))
    decreases j
  {
    var b := Cured(rd, j, depth);
    assert !Complaining(rd)(j, depth);
    CuredDoesNotComplainHere(rd, j, depth);
    if j.JObj? {
      ObjectIsNotMute(rd, j, depth);
    }
    forall i: nat | Child(b, i).Some?
      ensures !SomeNode(Child(b, i).value, depth + 1, Pessimistic(rd))
    {
      assert Child(j, i).Some?;
      var was := Child(j, i).value;
      if j.JObj? && Mute(rd, j.fields[i], depth) {
        FieldOfCurable(rd, j, depth, i);
        VoicedIsGood(rd, was, depth + 1);
      } else {
        CuredIsNotPessimistic(rd, was, depth + 1);
      }
    }
  }

  // --- what cannot be cured ---

  /** Where there is no room, whatever speaks complains. */
  lemma {:induction false} NoRoomToPraise(rd: Reader, j: Json, depth: nat)
    requires SomeNode(j, depth, Speaking(rd)) && (Container(j) ==> !HasRoom(j, depth))
    ensures SomeNode(j, depth, Complaining(rd))
    decreases j
  {
    if Speaking(rd)(j, depth) {
      if !Complains(rd, j, depth) {
        var f :| f in j.fields && IsHealthField(f);
        var i: nat :| i < |j.fields| && j.fields[i] == f;
        assert Child(j, i) == Some(f.value) && Complaining(rd)(f.value, depth + 1);
      }
    } else {
      var i: nat :| Child(j, i).Some? && SomeNode(Child(j, i).value, depth + 1, Speaking(rd));
      NoRoomToPraise(rd, Child(j, i).value, depth + 1);
    }
  }

  /** A mute answer without room stays one, or turns into a complaint. */
  lemma StuckAnswerStays(rd: Reader, b: Json, k: nat, depth: nat)
    requires b.JObj? && k < |b.fields| && IsHealthField(b.fields[k])
    requires Container(b.fields[k].value) && !HasRoom(b.fields[k].value, depth + 1)
    ensures SomeNode(b, depth, Pessimistic(rd))
  {
    var g := b.fields[k];
    if SomeNode(g.value, depth + 1, Speaking(rd)) {
      NoRoomToPraise(rd, g.value, depth + 1);
      Weaken(g.value, depth + 1, Complaining(rd), Pessimistic(rd));
      assert Child(b, k) == Some(g.value);
    } else {
      assert g in b.fields && AnswersNothing(rd, b, depth);
      assert Pessimistic(rd)(b, depth);
    }
  }

  lemma StuckStaysHere(rd: Reader, a: Json, b: Json, depth: nat)
    requires Extends(a, b) && Stuck(rd)(a, depth)
    ensures SomeNode(b, depth, Pessimistic(rd))
  {
    var f :| f in a.fields && Mute(rd, f, depth) && !HasRoom(f.value, depth + 1);
    var i :| 0 <= i < |a.fields| && a.fields[i] == f;
    var k := PartsAreKept(a, b, i);
    assert Extends(f.value, b.fields[k].value);
    StuckAnswerStays(rd, b, k, depth);
  }

  lemma {:induction false} StuckStays(rd: Reader, a: Json, b: Json, depth: nat)
    requires Extends(a, b) && SomeNode(a, depth, Stuck(rd))
    ensures SomeNode(b, depth, Pessimistic(rd))
    decreases a
  {
    if Stuck(rd)(a, depth) {
      StuckStaysHere(rd, a, b, depth);
    } else {
      var i: nat :| Child(a, i).Some? && SomeNode(Child(a, i).value, depth + 1, Stuck(rd));
      var k := ChildrenPersist(a, b, i);
      StuckStays(rd, Child(a, i).value, Child(b, k).value, depth + 1);
    }
  }

  /** What speaks and is nowhere pessimistic reads as healthy. */
  lemma SpeakingWellReads(rd: Reader, j: Json)
    requires SomeNode(j, 0, Speaking(rd)) && !SomeNode(j, 0, Pessimistic(rd))
    ensures Reads(rd, j)
  {
    Meaning(rd, j, 0);
    NonEmpty(Verdicts(rd, j, 0));
  }

  lemma CureExists(rd: Reader, a: Json) returns (b: Json)
    requires Unique(a) && Container(a) && Curable(rd, a, 0)
    ensures Extends(a, b) && Reads(rd, b)
  {
    if SomeNode(a, 0, Speaking(rd)) {
      b := Cured(rd, a, 0);
      CuredExtends(rd, a, 0);
      CuredStillSpeaks(rd, a, 0);
      CuredIsNotPessimistic(rd, a, 0);
    } else {
      b := Voiced(a);
      VoicedExtends(rd, a, 0);
      VoicedIsGood(rd, a, 0);
    }
    SpeakingWellReads(rd, b);
  }

  /** Exactly these bodies can be added to until they read as healthy: an array or object that carries no
      complaint, and in which every health key answered by a silent container leaves room below for an
      assertion of health. */
  lemma SilenceCanBeFilled(rd: Reader, a: Json)
    requires Unique(a)
    ensures (exists b :: Extends(a, b) && Reads(rd, b)) <==> Container(a) && Curable(rd, a, 0)
  {
    if Container(a) && Curable(rd, a, 0) {
      var b := CureExists(rd, a);
    }
    forall b | Extends(a, b) && Reads(rd, b)
      ensures Container(a) && Curable(rd, a, 0)
    {
      ReadsExactly(rd, b);
      if SomeNode(a, 0, Complaining(rd)) {
        ComplainedBodiesStayUnhealthy(rd, a, b);
      }
      if SomeNode(a, 0, Stuck(rd)) {
        StuckStays(rd, a, b, 0);
      }
    }
  }
}
