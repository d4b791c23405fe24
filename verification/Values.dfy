/** JSON values as Python sees them, and the two notions of "equal" the fleet uses. */
module Values {

  /** A parsed value; the fields of an object keep their order. */
  datatype Json =
    | JNull | JBool(b: bool) | JNum(n: real) | JStr(s: string)
    | JArr(items: seq<Json>) | JObj(fields: seq<Field>)

  datatype Field = Field(name: string, value: Json)

  /** What `==` compares: a boolean is the number 0 or 1, a dict has no order. */
  datatype Norm =
    | NNull | NNum(n: real) | NStr(s: string) | NArr(items: seq<Norm>) | NObj(fields: map<string, Norm>)

  function Normal(j: Json): Norm
    decreases j, 1
  {
    match j
    case JNull => NNull
    case JBool(b) => NNum(if b then 1.0 else 0.0)
    case JNum(n) => NNum(n)
    case JStr(s) => NStr(s)
    case JArr(items) => NArr(seq(|items|, i requires 0 <= i < |items| => Normal(items[i])))
    case JObj(fields) => NObj(NormalFields(fields))
  }

  function NormalFields(fields: seq<Field>): map<string, Norm>
    decreases fields, 0
  {
    if fields == [] then map[]
    else
      var last := fields[|fields| - 1];
      NormalFields(fields[..|fields| - 1])[last.name := Normal(last.value)]
  }

  /** Python's `==`. */
  predicate PyEqual(l: Json, r: Json) {
    Normal(l) == Normal(r)
  }

  /** `_same_value`: equal, and not a boolean on one side only. */
  predicate SameValue(l: Json, r: Json) {
    l.JBool? == r.JBool? && PyEqual(l, r)
  }
}
