/**
 Reading a parsed health document (src/scf/tools/cloud_run_evidence.py:169-263):
 last-wins objects that remember contradictions, and the recursive collection of
 verdicts. Word-level matching and JSON parsing are parameters.
 */
module Health {
  import opened Prelude
  import opened Values

  const MAX_HEALTH_DEPTH := 20
  const HEALTH_KEYS: set<string> := {"healthy", "ok", "ready", "serving", "status", "state"}
  const CONFLICT_KEY := "__scf_conflicting_health_keys__"

  /** `fold` is strip-and-lower, `parse` the JSON parser before its object hook, `soundsHealthy` the
      word-level reading of folded text, and `soundsFailing` that of any other string value. */
  datatype Reader = Reader(
    fold: string -> string, parse: string -> Option<Json>,
    soundsHealthy: string -> bool, soundsFailing: string -> bool)

  // --- objects: last value wins, contradictions are remembered ---

  function Find(fields: seq<Field>, name: string): Option<Json> {
    if fields == [] then None
    else if fields[0].name == name then Some(fields[0].value)
    else Find(fields[1..], name)
  }

  /** Dict assignment: an existing key keeps its place. */
  function Put(fields: seq<Field>, name: string, value: Json): seq<Field> {
    if fields == [] then [Field(name, value)]
    else if fields[0].name == name then [Field(name, value)] + fields[1..]
    else [fields[0]] + Put(fields[1..], name, value)
  }

  function LastWins(pairs: seq<Field>): seq<Field> {
    if pairs == [] then []
    else
      var last := pairs[|pairs| - 1];
      Put(LastWins(pairs[..|pairs| - 1]), last.name, last.value)
  }

  /** The keys that disagreed with their previous value, in order of disagreement. */
  function SelfContradictions(pairs: seq<Field>): seq<string> {
    if pairs == [] then []
    else
      var before, last := pairs[..|pairs| - 1], pairs[|pairs| - 1];
      var held := Find(LastWins(before), last.name);
      SelfContradictions(before) + (if held.Some? && !SameValue(held.value, last.value) then [last.name] else [])
  }

  function Strings(names: seq<string>): Json {
    JArr(seq(|names|, i requires 0 <= i < |names| => JStr(names[i])))
  }

  /** `_object_pairs`. */
  function Collapse(pairs: seq<Field>): seq<Field> {
    var conflicts := SelfContradictions(pairs);
    if conflicts == [] then LastWins(pairs) else Put(LastWins(pairs), CONFLICT_KEY, Strings(conflicts))
  }

  method ObjectPairs(pairs: seq<Field>) returns (result: seq<Field>)
    ensures result == Collapse(pairs)
  {
    result := [];
    var conflicts: seq<string> := [];
    var n := 0;
    while n < |pairs|
      invariant n <= |pairs|
      invariant result == LastWins(pairs[..n]) && conflicts == SelfContradictions(pairs[..n])
    {
      var pair := pairs[n];
      assert pairs[..n + 1][..n] == pairs[..n];
      var held := Find(result, pair.name);
      if held.Some? && !SameValue(held.value, pair.value) {
        conflicts := conflicts + [pair.name];
      }
      result := Put(result, pair.name, pair.value);
      n := n + 1;
    }
    assert pairs[..n] == pairs;
    if conflicts != [] {
      result := Put(result, CONFLICT_KEY, Strings(conflicts));
    }
  }

  lemma {:induction false} FindAfterPut(fields: seq<Field>, name: string, value: Json, other: string)
    ensures Find(Put(fields, name, value), other) == if other == name then Some(value) else Find(fields, other)
  {
    if fields != [] && fields[0].name != name {
      FindAfterPut(fields[1..], name, value, other);
    }
  }

  /** The occurrences of a name all assert one value. */
  predicate Agreed(pairs: seq<Field>, name: string) {
    forall i, j :: 0 <= i < |pairs| && 0 <= j < |pairs| && pairs[i].name == pairs[j].name == name ==>
      SameValue(pairs[i].value, pairs[j].value)
  }

  lemma {:induction false} LastWinsFinds(pairs: seq<Field>, name: string)
    ensures match Find(LastWins(pairs), name)
            case None => forall i :: 0 <= i < |pairs| ==> pairs[i].name != name
            case Some(v) => exists i :: 0 <= i < |pairs| && pairs[i] == Field(name, v)
                                        && forall j :: i < j < |pairs| ==> pairs[j].name != name
  {
    if pairs != [] {
      var before, last := pairs[..|pairs| - 1], pairs[|pairs| - 1];
      LastWinsFinds(before, name);
      FindAfterPut(LastWins(before), last.name, last.value, name);
      if last.name != name && Find(LastWins(before), name).Some? {
        var i :| 0 <= i < |before| && before[i] == Field(name, Find(LastWins(before), name).value)
                 && forall j :: i < j < |before| ==> before[j].name != name;
        assert pairs[i] == before[i];
        assert forall j :: i < j < |pairs| ==> pairs[j].name != name;
      } else if last.name == name {
        assert pairs[|pairs| - 1] == Field(name, last.value);
      }
    }
  }

  /** One more occurrence of a name keeps the agreement exactly when it has the value held last. */
  lemma AgreementGrows(before: seq<Field>, last: Field, held: Json)
    requires exists i :: 0 <= i < |before| && before[i] == Field(last.name, held)
    ensures Agreed(before + [last], last.name) <==> Agreed(before, last.name) && SameValue(held, last.value)
  {
    var pairs := before + [last];
    var k :| 0 <= k < |before| && before[k] == Field(last.name, held);
    assert forall i :: 0 <= i < |before| ==> pairs[i] == before[i];
    assert pairs[|before|] == last;
    if Agreed(before, last.name) && SameValue(held, last.value) {
      assert forall i :: 0 <= i < |before| && before[i].name == last.name ==>
          SameValue(before[i].value, before[k].value);
    }
  }

  lemma {:induction false} ContradictionsAreDisagreements(pairs: seq<Field>, name: string)
    ensures name in SelfContradictions(pairs) <==> !Agreed(pairs, name)
  {
    if pairs != [] {
      var before, last := pairs[..|pairs| - 1], pairs[|pairs| - 1];
      ContradictionsAreDisagreements(before, name);
      assert forall i :: 0 <= i < |before| ==> pairs[i] == before[i];
      if last.name == name {
        LastWinsFinds(before, name);
        var held := Find(LastWins(before), name);
        if held.Some? {
          AgreementGrows(before, last, held.value);
          assert before + [last] == pairs;
        }
      }
    }
  }

  /** The contradiction marker of a collapsed object lists `name`. */
  predicate Marked(fields: seq<Field>, name: string) {
    match Find(fields, CONFLICT_KEY)
    case Some(JArr(items)) => JStr(name) in items
    case _ => false
  }

  /** After the hook, a name holds its last value, and the marker lists exactly the names whose
      occurrences disagree; only an object that contradicts itself nowhere and brings a marker of its own
      keeps that one. */
  lemma CollapseMeaning(pairs: seq<Field>, name: string)
    requires name != CONFLICT_KEY
    ensures Find(Collapse(pairs), name) == Find(LastWins(pairs), name)
    ensures Marked(Collapse(pairs), name) <==>
            || !Agreed(pairs, name)
            || (SelfContradictions(pairs) == [] && Marked(LastWins(pairs), name))
    ensures (forall f <- pairs :: f.name != CONFLICT_KEY) ==>
              (Marked(Collapse(pairs), name) <==> !Agreed(pairs, name))
  {
    var conflicts := SelfContradictions(pairs);
    FindAfterPut(LastWins(pairs), CONFLICT_KEY, Strings(conflicts), name);
    FindAfterPut(LastWins(pairs), CONFLICT_KEY, Strings(conflicts), CONFLICT_KEY);
    ContradictionsAreDisagreements(pairs, name);
    StringsHold(conflicts, name);
    if (forall f <- pairs :: f.name != CONFLICT_KEY) && conflicts == [] {
      LastWinsFinds(pairs, CONFLICT_KEY);
    }
  }

  lemma StringsHold(names: seq<string>, name: string)
    ensures JStr(name) in Strings(names).items <==> name in names
  {
    if name in names {
      var i :| 0 <= i < |names| && names[i] == name;
      assert Strings(names).items[i] == JStr(name);
    }
  }

  /** The hook, applied to every object from the inside out. */
  function Load(j: Json): Json
    decreases j, 1
  {
    match j
    case JArr(items) => JArr(seq(|items|, i requires 0 <= i < |items| => Load(items[i])))
    case JObj(fields) => JObj(Collapse(LoadFields(fields)))
    case _ => j
  }

  function LoadFields(fields: seq<Field>): seq<Field>
    decreases fields, 0
  {
    if fields == [] then []
    else
      var first := fields[0];
      [Field(first.name, Load(first.value))] + LoadFields(fields[1..])
  }

  /** The hook reaches every object: of a loaded object a name holds the loaded last value, and it is marked
      exactly when its loaded values disagree (or the object, not contradicting itself, brought the mark). */
  lemma LoadReachesObjects(fields: seq<Field>, name: string)
    requires name != CONFLICT_KEY
    ensures Load(JObj(fields)).JObj? && |LoadFields(fields)| == |fields|
    ensures forall i :: 0 <= i < |fields| ==> LoadFields(fields)[i] == Field(fields[i].name, Load(fields[i].value))
    ensures match Find(Load(JObj(fields)).fields, name)
            case None => forall f <- fields :: f.name != name
            case Some(v) =>
              exists i :: 0 <= i < |fields| && fields[i].name == name && v == Load(fields[i].value)
                          && forall j :: i < j < |fields| ==> fields[j].name != name
    ensures !Agreed(LoadFields(fields), name) ==> Marked(Load(JObj(fields)).fields, name)
  {
    LoadFieldsInPlace(fields);
    CollapseMeaning(LoadFields(fields), name);
    LastWinsFinds(LoadFields(fields), name);
    var loaded := LoadFields(fields);
    if Find(Load(JObj(fields)).fields, name).Some? {
      var v := Find(Load(JObj(fields)).fields, name).value;
      var i :| 0 <= i < |loaded| && loaded[i] == Field(name, v)
               && forall j :: i < j < |loaded| ==> loaded[j].name != name;
      assert fields[i].name == name && v == Load(fields[i].value);
      assert forall j :: i < j < |fields| ==> fields[j].name == loaded[j].name;
    } else {
      assert forall i :: 0 <= i < |fields| ==> fields[i].name == loaded[i].name;
    }
  }

  lemma {:induction false} LoadFieldsInPlace(fields: seq<Field>)
    ensures |LoadFields(fields)| == |fields|
    ensures forall i :: 0 <= i < |fields| ==> LoadFields(fields)[i] == Field(fields[i].name, Load(fields[i].value))
  {
    if fields != [] {
      LoadFieldsInPlace(fields[1..]);
    }
  }

  /** And every array; what is neither array nor object stays. */
  lemma LoadReachesArrays(j: Json)
    ensures j.JArr? ==> Load(j).JArr? && |Load(j).items| == |j.items|
                        && forall i :: 0 <= i < |j.items| ==> Load(j).items[i] == Load(j.items[i])
    ensures !j.JArr? && !j.JObj? ==> Load(j) == j
  {
  }

  // --- the verdicts ---

  datatype Marker = Absent | Malformed | Lists(health: bool)

  /** What the contradiction marker of an object says. */
  function MarkerOf(fields: seq<Field>): Marker {
    match Find(fields, CONFLICT_KEY)
    case None => Absent
    case Some(JArr(items)) => Lists(exists k <- items :: k.JStr? && k.s in HEALTH_KEYS)
    case Some(_) => Malformed
  }

  function Verdicts(rd: Reader, j: Json, depth: nat): seq<bool>
    decreases j, 1
  {
    if depth > MAX_HEALTH_DEPTH then [false]
    else
      match j
      case JStr(s) => if rd.soundsFailing(s) then [false] else []
      case JArr(items) => ItemVerdicts(rd, items, depth)
      case JObj(fields) =>
        var marker := MarkerOf(fields);
        if marker.Malformed? then [false]
        else (if marker == Lists(true) then [false] else []) + FieldVerdicts(rd, fields, depth)
      case _ => []
  }

  function ItemVerdicts(rd: Reader, items: seq<Json>, depth: nat): seq<bool>
    decreases items, 0
  {
    if items == [] then []
    else ItemVerdicts(rd, items[..|items| - 1], depth) + Verdicts(rd, items[|items| - 1], depth + 1)
  }

  function FieldVerdicts(rd: Reader, fields: seq<Field>, depth: nat): seq<bool>
    decreases fields, 0
  {
    if fields == [] then []
    else
      var f := fields[|fields| - 1];
      FieldVerdicts(rd, fields[..|fields| - 1], depth) +
      (if f.name == CONFLICT_KEY then []
       else var nested := Verdicts(rd, f.value, depth + 1); OwnVerdict(rd, f, nested) + nested)
  }

  /** What a field says by itself, given what its value says inside. */
  function OwnVerdict(rd: Reader, f: Field, nested: seq<bool>): seq<bool> {
    if f.name !in HEALTH_KEYS then []
    else
      match f.value
      case JBool(b) => [b]
      case JStr(s) => [rd.soundsHealthy(rd.fold(s))]
      case JObj(_) => if nested == [] then [false] else []
      case JArr(_) => if nested == [] then [false] else []
      case _ => [false]
  }

  method CollectHealthVerdicts(rd: Reader, j: Json, depth: nat) returns (verdicts: seq<bool>)
    ensures verdicts == Verdicts(rd, j, depth)
    decreases j, 1
  {
    if depth > MAX_HEALTH_DEPTH {
      return [false];
    }
    match j {
      case JStr(s) =>
        return if rd.soundsFailing(s) then [false] else [];
      case JObj(fields) =>
        var marker := MarkerOf(fields);
        if marker.Malformed? {
          return [false];
        }
        verdicts := CollectFromFields(rd, fields, depth);
        if marker == Lists(true) {
          verdicts := [false] + verdicts;
        }
      case JArr(items) =>
        verdicts := CollectFromItems(rd, items, depth);
      case _ =>
        return [];
    }
  }

  method CollectFromFields(rd: Reader, fields: seq<Field>, depth: nat) returns (verdicts: seq<bool>)
    ensures verdicts == FieldVerdicts(rd, fields, depth)
    decreases fields, 0
  {
    verdicts := [];
    var n := 0;
    while n < |fields|
      invariant n <= |fields|
      invariant verdicts == FieldVerdicts(rd, fields[..n], depth)
    {
      var f := fields[n];
      assert fields[..n + 1][..n] == fields[..n];
      if f.name != CONFLICT_KEY {
        var nested := CollectHealthVerdicts(rd, f.value, depth + 1);
        verdicts := verdicts + (OwnVerdict(rd, f, nested) + nested);
      }
      n := n + 1;
    }
    assert fields[..n] == fields;
  }

  method CollectFromItems(rd: Reader, items: seq<Json>, depth: nat) returns (verdicts: seq<bool>)
    ensures verdicts == ItemVerdicts(rd, items, depth)
    decreases items, 0
  {
    verdicts := [];
    var n := 0;
    while n < |items|
      invariant n <= |items|
      invariant verdicts == ItemVerdicts(rd, items[..n], depth)
    {
      assert items[..n + 1][..n] == items[..n];
      var nested := CollectHealthVerdicts(rd, items[n], depth + 1);
      verdicts := verdicts + nested;
      n := n + 1;
    }
    assert items[..n] == items;
  }

  predicate Reads(rd: Reader, j: Json) {
    var verdicts := Verdicts(rd, j, 0);
    verdicts != [] && false !in verdicts
  }

  // --- an independent reading: nodes and paths ---

  /** The `i`-th child that is read; nothing is read under the contradiction marker. */
  function Child(j: Json, i: nat): (c: Option<Json>)
    ensures c.Some? ==> c.value < j
  {
    match j
    case JArr(items) => if i < |items| then Some(items[i]) else None
    case JObj(fields) => if i < |fields| && fields[i].name != CONFLICT_KEY then Some(fields[i].value) else None
    case _ => None
  }

  type Property = (Json, nat) -> bool

  /** Some node at or below `j`, itself at depth `depth`, has the property. */
  ghost predicate SomeNode(j: Json, depth: nat, p: Property)
    decreases j
  {
    p(j, depth) || exists i: nat :: Child(j, i).Some? && SomeNode(Child(j, i).value, depth + 1, p)
  }

  /** The node at a path of child positions. */
  function At(j: Json, path: seq<nat>): Option<Json>
    decreases |path|
  {
    if path == [] then Some(j)
    else
      match Child(j, path[0])
      case None => None
      case Some(c) => At(c, path[1..])
  }

  lemma {:induction false} AtIsSomeNode(j: Json, depth: nat, p: Property, path: seq<nat>)
    requires At(j, path).Some? && p(At(j, path).value, depth + |path|)
    ensures SomeNode(j, depth, p)
    decreases |path|
  {
    if path != [] {
      AtIsSomeNode(Child(j, path[0]).value, depth + 1, p, path[1..]);
    }
  }

  predicate IsHealthField(f: Field) {
    f.name in HEALTH_KEYS && f.name != CONFLICT_KEY
  }

  /** A health value that is a scalar and does not assert health. */
  predicate Denies(rd: Reader, v: Json) {
    match v
    case JBool(b) => !b
    case JStr(s) => !rd.soundsHealthy(rd.fold(s))
    case JArr(_) => false
    case JObj(_) => false
    case _ => true
  }

  /** A node that complains whatever is below it: too deep, a failing string, a spoiled or
      self-contradicting object, or a health key denied by its value. */
  predicate Complains(rd: Reader, n: Json, depth: nat) {
    || depth > MAX_HEALTH_DEPTH
    || (n.JStr? && rd.soundsFailing(n.s))
    || (n.JObj? && MarkerOf(n.fields) in {Malformed, Lists(true)})
    || (n.JObj? && exists f <- n.fields :: IsHealthField(f) && Denies(rd, f.value))
  }

  function Complaining(rd: Reader): Property {
    (n: Json, depth: nat) => Complains(rd, n, depth)
  }

  /** A node that makes the reader say something: it complains, or it holds a health key. */
  function Speaking(rd: Reader): Property {
    (n: Json, depth: nat) => Complains(rd, n, depth) || (n.JObj? && exists f <- n.fields :: IsHealthField(f))
  }

  /** A health key answered by a container in which nothing speaks. */
  ghost predicate AnswersNothing(rd: Reader, n: Json, depth: nat) {
    n.JObj? && exists f <- n.fields ::
      IsHealthField(f) && (f.value.JArr? || f.value.JObj?) && !SomeNode(f.value, depth + 1, Speaking(rd))
  }

  ghost function Pessimistic(rd: Reader): Property {
    (n: Json, depth: nat) => Complains(rd, n, depth) || AnswersNothing(rd, n, depth)
  }

  /** A health key that asserts health. */
  function Praising(rd: Reader): Property {
    (n: Json, depth: nat) => n.JObj? && exists f <- n.fields ::
      IsHealthField(f) && (f.value == JBool(true) || (f.value.JStr? && rd.soundsHealthy(rd.fold(f.value.s))))
  }

  lemma {:induction false} InItems(rd: Reader, items: seq<Json>, depth: nat, b: bool)
    ensures b in ItemVerdicts(rd, items, depth) <==>
            exists i :: 0 <= i < |items| && b in Verdicts(rd, items[i], depth + 1)
  {
    if items != [] {
      InItems(rd, items[..|items| - 1], depth, b);
      assert forall i :: 0 <= i < |items| - 1 ==> items[..|items| - 1][i] == items[i];
    }
  }

  predicate FieldSays(rd: Reader, f: Field, depth: nat, b: bool) {
    var nested := Verdicts(rd, f.value, depth + 1);
    f.name != CONFLICT_KEY && (b in OwnVerdict(rd, f, nested) || b in nested)
  }

  lemma {:induction false} InFields(rd: Reader, fields: seq<Field>, depth: nat, b: bool)
    ensures b in FieldVerdicts(rd, fields, depth) <==>
            exists i :: 0 <= i < |fields| && FieldSays(rd, fields[i], depth, b)
  {
    if fields != [] {
      InFields(rd, fields[..|fields| - 1], depth, b);
      assert forall i :: 0 <= i < |fields| - 1 ==> fields[..|fields| - 1][i] == fields[i];
    }
  }

  predicate Says(rd: Reader, j: Json, depth: nat, b: bool) {
    b in Verdicts(rd, j, depth)
  }

  lemma NonEmpty(s: seq<bool>)
    ensures s != [] <==> (true in s || false in s)
  {
    if s != [] {
      assert s[0] in s;
      assert s[0] == true || s[0] == false;
    }
  }

  /** The three readings of one node's verdicts, given those of its children. */
  ghost predicate MeaningHolds(rd: Reader, j: Json, depth: nat) {
    && (Says(rd, j, depth, true) || Says(rd, j, depth, false) <==> SomeNode(j, depth, Speaking(rd)))
    && (Says(rd, j, depth, false) <==> SomeNode(j, depth, Pessimistic(rd)))
    && (Says(rd, j, depth, true) ==> SomeNode(j, depth, Praising(rd)))
  }

  lemma OwnMeaning(rd: Reader, f: Field, depth: nat)
    requires f.name != CONFLICT_KEY && MeaningHolds(rd, f.value, depth + 1)
    ensures false in OwnVerdict(rd, f, Verdicts(rd, f.value, depth + 1)) <==>
            IsHealthField(f) &&
            (Denies(rd, f.value) || ((f.value.JArr? || f.value.JObj?) && !SomeNode(f.value, depth + 1, Speaking(rd))))
    ensures true in OwnVerdict(rd, f, Verdicts(rd, f.value, depth + 1)) <==>
            IsHealthField(f) &&
            (f.value == JBool(true) || (f.value.JStr? && rd.soundsHealthy(rd.fold(f.value.s))))
  {
    NonEmpty(Verdicts(rd, f.value, depth + 1));
  }

  lemma MeaningOfArray(rd: Reader, j: Json, depth: nat)
    requires j.JArr? && depth <= MAX_HEALTH_DEPTH
    requires forall i: nat :: Child(j, i).Some? ==> MeaningHolds(rd, Child(j, i).value, depth + 1)
    ensures MeaningHolds(rd, j, depth)
  {
    InItems(rd, j.items, depth, true);
    InItems(rd, j.items, depth, false);
    forall i: nat | i < |j.items|
      ensures Child(j, i) == Some(j.items[i]) && MeaningHolds(rd, j.items[i], depth + 1)
    {
      assert Child(j, i).Some?;
    }
  }

  /** The object's own contribution and its fields', for one verdict. */
  lemma ObjectSays(rd: Reader, j: Json, depth: nat, b: bool)
    requires j.JObj? && depth <= MAX_HEALTH_DEPTH && !MarkerOf(j.fields).Malformed?
    ensures Says(rd, j, depth, b) <==>
            || (!b && MarkerOf(j.fields) == Lists(true))
            || exists i :: 0 <= i < |j.fields| && FieldSays(rd, j.fields[i], depth, b)
  {
    InFields(rd, j.fields, depth, b);
  }

  ghost predicate FieldMeans(rd: Reader, j: Json, f: Field, depth: nat)
    requires j.JObj? && depth <= MAX_HEALTH_DEPTH
  {
    && MeaningHolds(rd, f.value, depth + 1)
    && (FieldSays(rd, f, depth, false) <==>
          || (IsHealthField(f) && Denies(rd, f.value))
          || (IsHealthField(f) && (f.value.JArr? || f.value.JObj?) && !SomeNode(f.value, depth + 1, Speaking(rd)))
          || SomeNode(f.value, depth + 1, Pessimistic(rd)))
    && (FieldSays(rd, f, depth, true) ==> Praising(rd)(j, depth) || SomeNode(f.value, depth + 1, Praising(rd)))
    && (FieldSays(rd, f, depth, true) || FieldSays(rd, f, depth, false) <==>
          IsHealthField(f) || SomeNode(f.value, depth + 1, Speaking(rd)))
  }

  lemma FieldMeaning(rd: Reader, j: Json, depth: nat, i: nat)
    requires j.JObj? && depth <= MAX_HEALTH_DEPTH
    requires i < |j.fields| && j.fields[i].name != CONFLICT_KEY && MeaningHolds(rd, j.fields[i].value, depth + 1)
    ensures FieldMeans(rd, j, j.fields[i], depth)
  {
    OwnMeaning(rd, j.fields[i], depth);
  }

  /** What is known of an object once its children are. */
  ghost predicate FieldsMean(rd: Reader, j: Json, depth: nat)
    requires j.JObj? && depth <= MAX_HEALTH_DEPTH
  {
    forall i: nat :: i < |j.fields| && j.fields[i].name != CONFLICT_KEY ==>
      Child(j, i) == Some(j.fields[i].value) && FieldMeans(rd, j, j.fields[i], depth)
  }

  lemma DenialsOfObject(rd: Reader, j: Json, depth: nat)
    requires j.JObj? && depth <= MAX_HEALTH_DEPTH && !MarkerOf(j.fields).Malformed? && FieldsMean(rd, j, depth)
    ensures Says(rd, j, depth, false) <==> SomeNode(j, depth, Pessimistic(rd))
  {
    ObjectSays(rd, j, depth, false);
  }

  lemma PraiseOfObject(rd: Reader, j: Json, depth: nat)
    requires j.JObj? && depth <= MAX_HEALTH_DEPTH && !MarkerOf(j.fields).Malformed? && FieldsMean(rd, j, depth)
    ensures Says(rd, j, depth, true) ==> SomeNode(j, depth, Praising(rd))
  {
    ObjectSays(rd, j, depth, true);
  }

  lemma SpeechOfObject(rd: Reader, j: Json, depth: nat)
    requires j.JObj? && depth <= MAX_HEALTH_DEPTH && !MarkerOf(j.fields).Malformed? && FieldsMean(rd, j, depth)
    ensures Says(rd, j, depth, true) || Says(rd, j, depth, false) <==> SomeNode(j, depth, Speaking(rd))
  {
    ObjectSays(rd, j, depth, true);
    ObjectSays(rd, j, depth, false);
    forall f | f in j.fields && IsHealthField(f)
      ensures Says(rd, j, depth, true) || Says(rd, j, depth, false)
    {
      var i :| 0 <= i < |j.fields| && j.fields[i] == f;
      assert FieldSays(rd, j.fields[i], depth, true) || FieldSays(rd, j.fields[i], depth, false);
    }
  }

  lemma MeaningOfObject(rd: Reader, j: Json, depth: nat)
    requires j.JObj? && depth <= MAX_HEALTH_DEPTH && !MarkerOf(j.fields).Malformed?
    requires forall i: nat :: Child(j, i).Some? ==> MeaningHolds(rd, Child(j, i).value, depth + 1)
    ensures MeaningHolds(rd, j, depth)
  {
    forall i: nat | i < |j.fields| && j.fields[i].name != CONFLICT_KEY
      ensures Child(j, i) == Some(j.fields[i].value) && FieldMeans(rd, j, j.fields[i], depth)
    {
      assert Child(j, i).Some?;
      FieldMeaning(rd, j, depth, i);
    }
    DenialsOfObject(rd, j, depth);
    PraiseOfObject(rd, j, depth);
    SpeechOfObject(rd, j, depth);
  }

  lemma {:induction false} Meaning(rd: Reader, j: Json, depth: nat)
    ensures MeaningHolds(rd, j, depth)
    decreases j
  {
    if depth <= MAX_HEALTH_DEPTH {
      forall i: nat | Child(j, i).Some?
        ensures MeaningHolds(rd, Child(j, i).value, depth + 1)
      {
        Meaning(rd, Child(j, i).value, depth + 1);
      }
      match j {
        case JArr(items) =>
          MeaningOfArray(rd, j, depth);
        case JObj(fields) =>
          if !MarkerOf(fields).Malformed? {
            MeaningOfObject(rd, j, depth);
          }
        case _ =>
      }
    }
  }

  /** A parsed body reads as healthy exactly when somewhere a health key asserts health and nowhere, at
      any depth, is there a pessimistic node. */
  lemma ReadsExactly(rd: Reader, j: Json)
    ensures Reads(rd, j) <==> SomeNode(j, 0, Praising(rd)) && !SomeNode(j, 0, Pessimistic(rd))
  {
    Meaning(rd, j, 0);
    NonEmpty(Verdicts(rd, j, 0));
    if SomeNode(j, 0, Praising(rd)) {
      Weaken(j, 0, Praising(rd), Speaking(rd));
    }
  }

  lemma {:induction false} Weaken(j: Json, depth: nat, p: Property, q: Property)
    requires SomeNode(j, depth, p)
    requires forall n: Json, d: nat :: p(n, d) ==> q(n, d)
    ensures SomeNode(j, depth, q)
    decreases j
  {
    if !p(j, depth) {
      var i: nat :| Child(j, i).Some? && SomeNode(Child(j, i).value, depth + 1, p);
      Weaken(Child(j, i).value, depth + 1, p, q);
    }
  }

  /** "Somewhere" means: at the end of some path of child positions. */
  lemma {:induction false} SomeNodeIsAtAPath(j: Json, depth: nat, p: Property) returns (path: seq<nat>)
    requires SomeNode(j, depth, p)
    ensures At(j, path).Some? && p(At(j, path).value, depth + |path|)
    decreases j
  {
    if p(j, depth) {
      return [];
    }
    var i: nat :| Child(j, i).Some? && SomeNode(Child(j, i).value, depth + 1, p);
    var rest := SomeNodeIsAtAPath(Child(j, i).value, depth + 1, p);
    path := [i] + rest;
    assert path[1..] == rest;
  }

  /** A lone field is read as healthy exactly if it says true under a health key. */
  lemma LoneFieldDecides(rd: Reader, key: string, value: bool)
    requires key != CONFLICT_KEY
    ensures Reads(rd, JObj([Field(key, JBool(value))])) <==>
            value && key in {"healthy", "ok", "ready", "serving", "status", "state"}
  {
    var fields := [Field(key, JBool(value))];
    assert fields[..0] == [] && FieldVerdicts(rd, [], 0) == [];
    assert Verdicts(rd, JBool(value), 1) == [];
    assert FieldVerdicts(rd, fields, 0) == OwnVerdict(rd, fields[0], []) + [];
    assert fields[1..] == [] && Find(fields, CONFLICT_KEY) == None;
    assert MarkerOf(fields) == Absent;
    assert Verdicts(rd, JObj(fields), 0) == FieldVerdicts(rd, fields, 0);
  }

  lemma ComplaintsAreFatal(rd: Reader, j: Json)
    requires SomeNode(j, 0, Complaining(rd))
    ensures !Reads(rd, j)
  {
    Weaken(j, 0, Complaining(rd), Pessimistic(rd));
    ReadsExactly(rd, j);
  }

  /** Whatever is nested more than twenty levels deep spoils the body. */
  lemma DeepBodiesAreUnhealthy(rd: Reader, body: Json, path: seq<nat>)
    requires At(body, path).Some? && |path| > 20
    ensures !Reads(rd, body)
  {
    AtIsSomeNode(body, 0, Complaining(rd), path);
    ComplaintsAreFatal(rd, body);
  }

  /** A health key that was given twice with different values spoils every body in which its object
      survives, whichever value the parser kept. */
  lemma SelfContradictionSpoilsTheBody(rd: Reader, pairs: seq<Field>, key: string, body: Json, path: seq<nat>)
    requires key in HEALTH_KEYS && !Agreed(pairs, key)
    requires At(body, path) == Some(JObj(Collapse(pairs)))
    ensures !Reads(rd, body)
  {
    CollapseMeaning(pairs, key);
    var marker := Find(Collapse(pairs), CONFLICT_KEY).value;
    assert exists k <- marker.items :: k.JStr? && k.s in HEALTH_KEYS by {
      assert JStr(key) in marker.items;
    }
    AtIsSomeNode(body, 0, Complaining(rd), path);
    ComplaintsAreFatal(rd, body);
  }
}
