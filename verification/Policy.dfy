/** The deterministic policy gate (src/scf/policy/engine.py). */
module Policy {
  import opened Prelude
  import opened Values

  datatype Decision = AutoAllowed | ApprovalRequired | Denied

  datatype Evidence = Evidence(key: string, value: Json, trusted: bool)

  datatype Rule = Rule(
    actionType: string, targetType: string, decision: Decision, reasonCode: string,
    required: map<string, Json>, role: Option<string>)

  datatype ActionPolicy = ActionPolicy(
    version: string, targets: map<string, string>, rules: seq<Rule>,
    defaultDecision: Decision, defaultReason: string)

  /** `snapshot` stands for its hash. */
  datatype Verdict = Verdict(
    decision: Decision, reasonCode: string, role: Option<string>, version: string, snapshot: map<string, Json>)

  const WILDCARD := "*"

  /** `trusted_evidence_map`: the last trusted value of each key. */
  function TrustedMap(evidence: seq<Evidence>): map<string, Json> {
    if evidence == [] then map[]
    else
      var before := TrustedMap(evidence[..|evidence| - 1]);
      var last := evidence[|evidence| - 1];
      if last.trusted then before[last.key := last.value] else before
  }

  predicate Asserts(e: Evidence, key: string) {
    e.trusted && e.key == key
  }

  /** Two trusted items assert different values for `key`. */
  predicate Disputed(evidence: seq<Evidence>, key: string) {
    exists i, j :: 0 <= i < |evidence| && 0 <= j < |evidence|
      && Asserts(evidence[i], key) && Asserts(evidence[j], key)
      && !SameValue(evidence[i].value, evidence[j].value)
  }

  function Conflicts(evidence: seq<Evidence>): set<string> {
    set e <- evidence | Disputed(evidence, e.key) :: e.key
  }

  lemma DisputeGrows(before: seq<Evidence>, e: Evidence, key: string)
    ensures Disputed(before + [e], key) <==>
            || Disputed(before, key)
            || (Asserts(e, key) && exists i :: 0 <= i < |before| && Asserts(before[i], key)
                                               && !SameValue(before[i].value, e.value))
  {
    var after := before + [e];
    assert after[|before|] == e;
    assert forall i :: 0 <= i < |before| ==> after[i] == before[i];
  }

  /** One pass comparing each trusted value with the previous one of its key finds exactly the keys
      on which any two trusted items disagree. */
  method TrustedEvidenceConflicts(evidence: seq<Evidence>) returns (conflicts: set<string>)
    ensures forall key :: key in conflicts <==> Disputed(evidence, key)
    ensures conflicts == Conflicts(evidence)
  {
    var seen: map<string, Json> := map[];
    conflicts := {};
    var n := 0;
    while n < |evidence|
      invariant n <= |evidence|
      invariant forall key :: key in conflicts <==> Disputed(evidence[..n], key)
      invariant forall i :: 0 <= i < n && evidence[i].trusted ==> evidence[i].key in seen
      invariant forall key <- seen ::
                  exists i :: 0 <= i < n && Asserts(evidence[i], key) && evidence[i].value == seen[key]
    {
      var item := evidence[n];
      assert evidence[..n + 1] == evidence[..n] + [item];
      forall key
        ensures Disputed(evidence[..n + 1], key) <==>
                Disputed(evidence[..n], key) ||
                (Asserts(item, key) && key in seen && !SameValue(seen[key], item.value))
      {
        DisputeGrows(evidence[..n], item, key);
        if !Disputed(evidence[..n], key) && key in seen {
          var last :| 0 <= last < n && Asserts(evidence[last], key) && evidence[last].value == seen[key];
          assert evidence[..n][last] == evidence[last];
        }
      }
      if item.trusted {
        if item.key in seen && !SameValue(seen[item.key], item.value) {
          conflicts := conflicts + {item.key};
        }
        seen := seen[item.key := item.value];
      }
      n := n + 1;
    }
    assert evidence[..n] == evidence;
  }

  /** `_satisfies`: a boolean satisfies, and is satisfied by, only that boolean. */
  predicate Satisfies(actual: Json, expected: Json) {
    if expected.JBool? || actual.JBool? then actual == expected else PyEqual(actual, expected)
  }

  function TargetType(policy: ActionPolicy, targetRef: string): Option<string> {
    if targetRef in policy.targets then Some(policy.targets[targetRef]) else None
  }

  function Match(rules: seq<Rule>, actionType: string, targetType: string): Option<Rule> {
    if rules == [] then None
    else if rules[0].actionType == actionType && rules[0].targetType in {targetType, WILDCARD} then Some(rules[0])
    else Match(rules[1..], actionType, targetType)
  }

  datatype Gate = Contradicted | Missing | Open

  function Actual(snapshot: map<string, Json>, key: string): Json {
    if key in snapshot then snapshot[key] else JNull
  }

  function GateOf(evidence: seq<Evidence>, required: map<string, Json>): Gate {
    if Conflicts(evidence) * required.Keys != {} then Contradicted
    else if exists key <- required :: !Satisfies(Actual(TrustedMap(evidence), key), required[key]) then Missing
    else Open
  }

  function Evaluate(actionType: string, targetRef: string, evidence: seq<Evidence>, policy: ActionPolicy): Verdict {
    var decide := (d: Decision, code: string, role: Option<string>) =>
                    Verdict(d, code, role, policy.version, TrustedMap(evidence));
    match TargetType(policy, targetRef)
    case None => decide(Denied, "UNKNOWN_TARGET", None)
    case Some(targetType) =>
      match Match(policy.rules, actionType, targetType)
      case None => decide(policy.defaultDecision, policy.defaultReason, None)
      case Some(rule) =>
        match GateOf(evidence, rule.required)
        case Contradicted => decide(Denied, "CONTRADICTORY_EVIDENCE", None)
        case Missing => decide(Denied, "MISSING_EVIDENCE", None)
        case Open => decide(rule.decision, rule.reasonCode, rule.role)
  }

  // --- what the gate means, without order and without untrusted items ---

  /** Every trusted assertion of `key` satisfies `expected`, and unless `null` would do there is one. */
  predicate Meets(evidence: seq<Evidence>, key: string, expected: Json) {
    && (forall e <- evidence :: Asserts(e, key) ==> Satisfies(e.value, expected))
    && ((exists e <- evidence :: Asserts(e, key)) || Satisfies(JNull, expected))
  }

  lemma {:induction false} TrustedMapIsLast(evidence: seq<Evidence>, key: string)
    ensures key in TrustedMap(evidence) <==> exists e <- evidence :: Asserts(e, key)
    ensures key in TrustedMap(evidence) ==>
              exists e <- evidence :: Asserts(e, key) && e.value == TrustedMap(evidence)[key]
  {
    if evidence != [] {
      var before, last := evidence[..|evidence| - 1], evidence[|evidence| - 1];
      TrustedMapIsLast(before, key);
      assert last in evidence;
      assert forall e :: e in before ==> e in evidence;
      assert forall e :: e in evidence ==> e in before || e == last;
    }
  }

  /** The snapshot holds, for each key that was asserted by a trusted item, its last such value. */
  lemma {:induction false} SnapshotHoldsLastValues(evidence: seq<Evidence>, i: nat)
    requires i < |evidence| && evidence[i].trusted
    requires forall j :: i < j < |evidence| ==> !Asserts(evidence[j], evidence[i].key)
    ensures evidence[i].key in TrustedMap(evidence) && TrustedMap(evidence)[evidence[i].key] == evidence[i].value
  {
    if i < |evidence| - 1 {
      var before := evidence[..|evidence| - 1];
      assert before[i] == evidence[i] && forall j :: i < j < |before| ==> before[j] == evidence[j];
      SnapshotHoldsLastValues(before, i);
      assert !Asserts(evidence[|evidence| - 1], evidence[i].key);
    }
  }

  lemma UndisputedAgree(evidence: seq<Evidence>, key: string, e: Evidence, f: Evidence)
    requires !Disputed(evidence, key) && e in evidence && f in evidence && Asserts(e, key) && Asserts(f, key)
    ensures SameValue(e.value, f.value)
  {
    var i :| 0 <= i < |evidence| && evidence[i] == e;
    var j :| 0 <= j < |evidence| && evidence[j] == f;
  }

  lemma ConflictsAreDisputes(evidence: seq<Evidence>, key: string)
    ensures key in Conflicts(evidence) <==> Disputed(evidence, key)
  {
    if Disputed(evidence, key) {
      var i :| 0 <= i < |evidence| && Asserts(evidence[i], key);
      assert evidence[i] in evidence;
    }
  }

  /** The gate opens exactly when every trusted assertion of every required key satisfies it, not just
      the last one, and each required key is asserted; it reports a contradiction exactly when some
      required key is asserted with two different values. */
  lemma GateMeaning(evidence: seq<Evidence>, required: map<string, Json>)
    ensures GateOf(evidence, required) == Open <==> forall key <- required :: Meets(evidence, key, required[key])
    ensures GateOf(evidence, required) == Contradicted <==> exists key <- required :: Disputed(evidence, key)
  {
    forall key
      ensures key in Conflicts(evidence) <==> Disputed(evidence, key)
    {
      ConflictsAreDisputes(evidence, key);
    }
    if key :| key in required && Disputed(evidence, key) {
      assert key in Conflicts(evidence) * required.Keys;
    }
    forall key | key in required
      ensures Meets(evidence, key, required[key]) <==>
              !Disputed(evidence, key) && Satisfies(Actual(TrustedMap(evidence), key), required[key])
    {
      OneRequirement(evidence, key, required[key]);
    }
  }

  lemma OneRequirement(evidence: seq<Evidence>, key: string, expected: Json)
    ensures Meets(evidence, key, expected) <==>
            !Disputed(evidence, key) && Satisfies(Actual(TrustedMap(evidence), key), expected)
  {
    TrustedMapIsLast(evidence, key);
    if key in TrustedMap(evidence) {
      var last :| last in evidence && Asserts(last, key) && last.value == TrustedMap(evidence)[key];
      if !Disputed(evidence, key) {
        forall e | e in evidence && Asserts(e, key)
          ensures Satisfies(e.value, expected) <==> Satisfies(last.value, expected)
        {
          UndisputedAgree(evidence, key, e, last);
          BooleansAreExact(e.value, last.value);
        }
      }
      forall e, f | e in evidence && f in evidence && Asserts(e, key) && Asserts(f, key)
                    && Meets(evidence, key, expected)
        ensures SameValue(e.value, f.value)
      {
        assert Satisfies(e.value, expected) && Satisfies(f.value, expected);
      }
    } else {
      assert forall e :: e in evidence ==> !Asserts(e, key);
    }
  }

  lemma BooleansAreExact(l: Json, r: Json)
    requires SameValue(l, r)
    ensures l.JBool? || r.JBool? ==> l == r
  {
  }

  /** The same trusted items occur in both lists. */
  ghost predicate SameTrusted(a: seq<Evidence>, b: seq<Evidence>) {
    forall e: Evidence :: e.trusted ==> (e in a <==> e in b)
  }

  /** Neither the order of the evidence, nor repetition, nor any untrusted item can change the
      decision, the reason code or the approval role. */
  lemma VerdictIgnoresOrderAndUntrusted(actionType: string, targetRef: string, a: seq<Evidence>, b: seq<Evidence>,
                                        policy: ActionPolicy)
    requires SameTrusted(a, b)
    ensures var x, y := Evaluate(actionType, targetRef, a, policy), Evaluate(actionType, targetRef, b, policy);
            x.decision == y.decision && x.reasonCode == y.reasonCode && x.role == y.role
  {
    forall required: map<string, Json>
      ensures GateOf(a, required) == GateOf(b, required)
    {
      GateMeaning(a, required);
      GateMeaning(b, required);
      forall key | key in required
        ensures Meets(a, key, required[key]) == Meets(b, key, required[key])
        ensures Disputed(a, key) == Disputed(b, key)
      {
        MeetsDependsOnTrusted(a, b, key, required[key]);
        MeetsDependsOnTrusted(b, a, key, required[key]);
      }
    }
  }

  lemma MeetsDependsOnTrusted(a: seq<Evidence>, b: seq<Evidence>, key: string, expected: Json)
    requires SameTrusted(a, b)
    ensures Meets(a, key, expected) ==> Meets(b, key, expected)
    ensures Disputed(a, key) ==> Disputed(b, key)
  {
    if Disputed(a, key) {
      var i, j :| 0 <= i < |a| && 0 <= j < |a|
        && Asserts(a[i], key) && Asserts(a[j], key) && !SameValue(a[i].value, a[j].value);
      assert a[i] in b && a[j] in b;
      if !Disputed(b, key) {
        UndisputedAgree(b, key, a[i], a[j]);
      }
    }
  }

  /** A permutation of the evidence with any untrusted items inserted is the special case. */
  lemma PermutingAndPaddingChangesNothing(actionType: string, targetRef: string, a: seq<Evidence>, b: seq<Evidence>,
                                          noise: seq<Evidence>, policy: ActionPolicy)
    requires multiset(b) == multiset(a + noise)
    requires forall e <- noise :: !e.trusted
    ensures var x, y := Evaluate(actionType, targetRef, a, policy), Evaluate(actionType, targetRef, b, policy);
            x.decision == y.decision && x.reasonCode == y.reasonCode && x.role == y.role
  {
    forall e: Evidence | e.trusted
      ensures e in a <==> e in b
    {
      assert e in b <==> e in multiset(b);
      assert e in a + noise <==> e in multiset(a + noise);
    }
    VerdictIgnoresOrderAndUntrusted(actionType, targetRef, a, b, policy);
  }

  /** The rule that decides is the first whose action and target type fit. */
  lemma {:induction false} FirstFittingRule(rules: seq<Rule>, actionType: string, targetType: string)
    ensures var fits := (r: Rule) =>
              r.actionType == actionType && (r.targetType == targetType || r.targetType == WILDCARD);
            match Match(rules, actionType, targetType)
            case None => forall r <- rules :: !fits(r)
            case Some(rule) =>
              exists i :: 0 <= i < |rules| && rules[i] == rule && fits(rule)
                          && forall j :: 0 <= j < i ==> !fits(rules[j])
  {
    if rules != [] {
      FirstFittingRule(rules[1..], actionType, targetType);
      assert forall i :: 0 <= i < |rules| - 1 ==> rules[1..][i] == rules[i + 1];
      if Match(rules[1..], actionType, targetType).Some? &&
         !(rules[0].actionType == actionType && rules[0].targetType in {targetType, WILDCARD}) {
        var fits := (r: Rule) => r.actionType == actionType && (r.targetType == targetType || r.targetType == WILDCARD);
        var i :| 0 <= i < |rules| - 1 && rules[1..][i] == Match(rules, actionType, targetType).value
                 && forall j :: 0 <= j < i ==> !fits(rules[1..][j]);
        assert rules[i + 1] == Match(rules, actionType, targetType).value;
        assert forall j :: 0 <= j < i + 1 ==> j == 0 || rules[j] == rules[1..][j - 1];
      }
    }
  }

  // --- the whole verdict ---

  /** The rule is for this action, and for this type of target or for any. */
  predicate Fits(r: Rule, actionType: string, targetType: string) {
    r.actionType == actionType && (r.targetType == targetType || r.targetType == "*")
  }

  /** Rule `i` is the first that fits. */
  predicate DecidedBy(rules: seq<Rule>, i: nat, actionType: string, targetType: string) {
    && i < |rules| && Fits(rules[i], actionType, targetType)
    && forall j :: 0 <= j < i ==> !Fits(rules[j], actionType, targetType)
  }

  lemma {:induction false} FirstFitMatches(rules: seq<Rule>, i: nat, actionType: string, targetType: string)
    requires DecidedBy(rules, i, actionType, targetType)
    ensures Match(rules, actionType, targetType) == Some(rules[i])
  {
    if i > 0 {
      assert !Fits(rules[0], actionType, targetType);
      FirstFitMatches(rules[1..], i - 1, actionType, targetType);
    }
  }

  /** Whatever else is said, an unregistered target is denied. */
  lemma UnregisteredTargetsAreDenied(actionType: string, targetRef: string, evidence: seq<Evidence>,
                                     policy: ActionPolicy)
    requires targetRef !in policy.targets
    ensures Evaluate(actionType, targetRef, evidence, policy) ==
            Verdict(Denied, "UNKNOWN_TARGET", None, policy.version, TrustedMap(evidence))
  {
  }

  /** Where no rule fits, the policy's default decides, and no evidence is asked for. */
  lemma DefaultDecidesWhereNothingFits(actionType: string, targetRef: string, evidence: seq<Evidence>,
                                       policy: ActionPolicy)
    requires targetRef in policy.targets
    requires forall r <- policy.rules :: !Fits(r, actionType, policy.targets[targetRef])
    ensures Evaluate(actionType, targetRef, evidence, policy) ==
            Verdict(policy.defaultDecision, policy.defaultReason, None, policy.version, TrustedMap(evidence))
  {
    NothingFits(policy.rules, actionType, policy.targets[targetRef]);
  }

  lemma {:induction false} NothingFits(rules: seq<Rule>, actionType: string, targetType: string)
    requires forall r <- rules :: !Fits(r, actionType, targetType)
    ensures Match(rules, actionType, targetType) == None
  {
    if rules != [] {
      assert !Fits(rules[0], actionType, targetType);
      NothingFits(rules[1..], actionType, targetType);
    }
  }

  /** Where rule `i` is the first that fits, it is denied on a disputed required key, else on one that is
      not met, and otherwise the rule's own decision, reason and role stand. */
  lemma FirstFitDecides(actionType: string, targetRef: string, evidence: seq<Evidence>, policy: ActionPolicy, i: nat)
    requires targetRef in policy.targets && DecidedBy(policy.rules, i, actionType, policy.targets[targetRef])
    ensures var rule, v := policy.rules[i], Evaluate(actionType, targetRef, evidence, policy);
            && v.version == policy.version && v.snapshot == TrustedMap(evidence)
            && if exists key <- rule.required :: Disputed(evidence, key) then
                 v.decision == Denied && v.reasonCode == "CONTRADICTORY_EVIDENCE" && v.role == None
               else if exists key <- rule.required :: !Meets(evidence, key, rule.required[key]) then
                 v.decision == Denied && v.reasonCode == "MISSING_EVIDENCE" && v.role == None
               else
                 v.decision == rule.decision && v.reasonCode == rule.reasonCode && v.role == rule.role
  {
    FirstFitMatches(policy.rules, i, actionType, policy.targets[targetRef]);
    GateMeaning(evidence, policy.rules[i].required);
  }

  lemma {:induction false} SomeRuleIsFirst(rules: seq<Rule>, actionType: string, targetType: string) returns (i: nat)
    requires exists r <- rules :: Fits(r, actionType, targetType)
    ensures DecidedBy(rules, i, actionType, targetType)
  {
    if Fits(rules[0], actionType, targetType) {
      i := 0;
    } else {
      assert rules == [rules[0]] + rules[1..];
      i := SomeRuleIsFirst(rules[1..], actionType, targetType);
      i := i + 1;
    }
  }

  /** Nothing is permitted but a registered target, and there only by the default where no rule fits, or by
      the first rule that fits with every required key met: each required boolean was asserted, and by
      nothing but that boolean. */
  lemma PermissionNeedsExactEvidence(actionType: string, targetRef: string, evidence: seq<Evidence>,
                                     policy: ActionPolicy)
    requires Evaluate(actionType, targetRef, evidence, policy).decision != Denied
    ensures targetRef in policy.targets
    ensures var decision, targetType := Evaluate(actionType, targetRef, evidence, policy).decision,
                                        policy.targets[targetRef];
            || ((forall r <- policy.rules :: !Fits(r, actionType, targetType)) && decision == policy.defaultDecision)
            || exists i: nat ::
                 && DecidedBy(policy.rules, i, actionType, targetType) && decision == policy.rules[i].decision
                 && Warranted(evidence, policy.rules[i].required)
  {
    if targetRef !in policy.targets {
      UnregisteredTargetsAreDenied(actionType, targetRef, evidence, policy);
    } else if exists r <- policy.rules :: Fits(r, actionType, policy.targets[targetRef]) {
      var i := SomeRuleIsFirst(policy.rules, actionType, policy.targets[targetRef]);
      FirstFitDecides(actionType, targetRef, evidence, policy, i);
      MetIsWarranted(evidence, policy.rules[i].required);
    } else {
      DefaultDecidesWhereNothingFits(actionType, targetRef, evidence, policy);
    }
  }

  /** Every trusted assertion of a required key satisfies what is required of it, and a required boolean
      was asserted, by that very boolean and nothing else. */
  predicate Warranted(evidence: seq<Evidence>, required: map<string, Json>) {
    forall key <- required ::
      && (forall e <- evidence :: Asserts(e, key) ==> Satisfies(e.value, required[key]))
      && (required[key].JBool? ==>
            && (exists e <- evidence :: Asserts(e, key))
            && (forall e <- evidence :: Asserts(e, key) ==> e.value == required[key]))
  }

  lemma MetIsWarranted(evidence: seq<Evidence>, required: map<string, Json>)
    requires forall key <- required :: Meets(evidence, key, required[key])
    ensures Warranted(evidence, required)
  {
    forall key | key in required
      ensures forall e <- evidence :: Asserts(e, key) ==> Satisfies(e.value, required[key])
      ensures required[key].JBool? ==> exists e <- evidence :: Asserts(e, key)
    {
      assert Meets(evidence, key, required[key]);
    }
  }

  /** A boolean satisfies, and is satisfied by, only that boolean, although it counts as a number. */
  lemma BooleansSatisfyOnlyThemselves(actual: Json, expected: Json)
    ensures actual.JBool? || expected.JBool? ==> (Satisfies(actual, expected) <==> actual == expected)
    ensures actual.JBool? != expected.JBool? ==> !SameValue(actual, expected) && !Satisfies(actual, expected)
    ensures actual.JNum? && expected.JNum? ==> (Satisfies(actual, expected) <==> actual.n == expected.n)
    ensures actual.JStr? && expected.JStr? ==> (Satisfies(actual, expected) <==> actual.s == expected.s)
    ensures PyEqual(JBool(true), JNum(1.0)) && PyEqual(JBool(false), JNum(0.0))
  {
  }
}
