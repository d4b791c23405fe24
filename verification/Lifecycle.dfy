/**
 The incident state machine (src/scf/domain/state_machine.py): the transition
 table, what every legal history has in common, and the route search.
 */
module Lifecycle {

  datatype Status =
    | Intake | Investigating | Proposed | PolicyEvaluated | AutoAllowed
    | WaitingForApproval | Approved | ApprovalDenied | ApprovalExpired | Denied
    | Executing | ExecutedStatus | ExecutionFailed | Verifying | RemediationFailed
    | Resolved | Escalated

  function Successors(s: Status): set<Status> {
    match s
    case Intake => {Investigating, Escalated}
    case Investigating => {Proposed, Escalated}
    case Proposed => {PolicyEvaluated, Escalated}
    case PolicyEvaluated => {AutoAllowed, WaitingForApproval, Denied, Escalated}
    case AutoAllowed => {Executing, Escalated}
    case WaitingForApproval => {Approved, ApprovalDenied, ApprovalExpired, Escalated}
    case Approved => {Executing, Escalated}
    case Executing => {ExecutedStatus, ExecutionFailed, Escalated}
    case ExecutedStatus => {Verifying, Escalated}
    case Verifying => {Resolved, RemediationFailed}
    case Denied => {Escalated}
    case ApprovalDenied => {Escalated}
    case ApprovalExpired => {Escalated}
    case ExecutionFailed => {Escalated, ExecutedStatus}
    case RemediationFailed => {Escalated, Verifying}
    case Resolved => {}
    case Escalated => {}
  }

  const CLOSED: set<Status> := {Resolved, Escalated}

  const ASSERTIONS: set<Status> :=
    {AutoAllowed, Approved, Executing, ExecutedStatus, ExecutionFailed, Verifying,
     Denied, ApprovalDenied, ApprovalExpired, Resolved}

  predicate CanTransition(current: Status, target: Status) {
    target in Successors(current)
  }

  // --- legal histories ---

  /** `visited` is the sequence of statuses of one incident, each step in the table. */
  predicate LegalHistory(visited: seq<Status>) {
    && |visited| > 0
    && visited[0] == Intake
    && forall i :: 0 < i < |visited| ==> CanTransition(visited[i - 1], visited[i])
  }

  function Stage(s: Status): nat {
    match s
    case Intake => 0
    case Investigating => 1
    case Proposed => 2
    case PolicyEvaluated => 3
    case WaitingForApproval => 4
    case AutoAllowed | Approved | ApprovalDenied | ApprovalExpired | Denied => 5
    case Executing => 6
    case ExecutionFailed => 7
    case ExecutedStatus => 8
    case Verifying | RemediationFailed => 9
    case Resolved | Escalated => 10
  }

  lemma {:induction false} StagesRise(visited: seq<Status>, i: nat, j: nat)
    requires LegalHistory(visited) && i < j < |visited|
    ensures Stage(visited[i]) < Stage(visited[j]) || (Stage(visited[i]) == 9 && Stage(visited[j]) == 9)
    decreases j
  {
    assert CanTransition(visited[j - 1], visited[j]);
    if i < j - 1 {
      StagesRise(visited, i, j - 1);
    }
  }

  /** In every legal history: a status that recurs is VERIFYING or REMEDIATION_FAILED; EXECUTING is
      entered at most once, and only from AUTO_ALLOWED or APPROVED; a closed status is the last one. */
  lemma HistoriesAreOrderly(visited: seq<Status>)
    requires LegalHistory(visited)
    ensures forall i, j :: 0 <= i < j < |visited| && visited[i] == visited[j] ==>
              visited[i] in {Verifying, RemediationFailed}
    ensures forall i, j :: 0 <= i < j < |visited| ==> !(visited[i] == visited[j] == Executing)
    ensures forall i :: 0 <= i < |visited| && visited[i] == Executing ==>
              i > 0 && visited[i - 1] in {AutoAllowed, Approved}
    ensures forall i :: 0 <= i < |visited| && visited[i] in CLOSED ==> i == |visited| - 1
    ensures forall i :: 0 <= i < |visited| && visited[i] == Resolved ==> visited[i - 1] == Verifying
  {
    forall i, j | 0 <= i < j < |visited|
      ensures Stage(visited[i]) < Stage(visited[j]) || (Stage(visited[i]) == 9 && Stage(visited[j]) == 9)
    {
      StagesRise(visited, i, j);
    }
    forall i | 0 <= i < |visited| - 1
      ensures visited[i] !in CLOSED
    {
      assert CanTransition(visited[i], visited[i + 1]);
    }
    forall i | 0 <= i < |visited| && visited[i] in {Executing, Resolved}
      ensures i > 0 && (visited[i] == Executing ==> visited[i - 1] in {AutoAllowed, Approved})
      ensures visited[i] == Resolved ==> visited[i - 1] == Verifying
    {
      assert CanTransition(visited[i - 1], visited[i]);
    }
  }

  /** Every open status can be abandoned in at most two steps without passing through a status that
      asserts something was done. */
  lemma EveryOpenIncidentCanEscalate(s: Status)
    requires s !in CLOSED
    ensures CanTransition(s, Escalated)
            || exists w :: w !in ASSERTIONS && CanTransition(s, w) && CanTransition(w, Escalated)
  {
    if s == Verifying {
      assert CanTransition(s, RemediationFailed) && CanTransition(RemediationFailed, Escalated);
    }
  }

  /** What each status may follow on. An authorization follows on the policy's or a person's word, EXECUTING
      only on an authorization, EXECUTED on EXECUTING or on finding out after a failure that it took place,
      and RESOLVED only on VERIFYING; nothing leads back to INTAKE. */
  lemma EveryStatusFollowsOnItsGrounds(s: Status)
    ensures s in CLOSED <==> forall t :: !CanTransition(s, t)
    ensures !CanTransition(s, Intake)
    ensures CanTransition(s, Investigating) <==> s == Intake
    ensures CanTransition(s, Proposed) <==> s == Investigating
    ensures CanTransition(s, PolicyEvaluated) <==> s == Proposed
    ensures CanTransition(s, AutoAllowed) <==> s == PolicyEvaluated
    ensures CanTransition(s, WaitingForApproval) <==> s == PolicyEvaluated
    ensures CanTransition(s, Denied) <==> s == PolicyEvaluated
    ensures CanTransition(s, Approved) <==> s == WaitingForApproval
    ensures CanTransition(s, ApprovalDenied) <==> s == WaitingForApproval
    ensures CanTransition(s, ApprovalExpired) <==> s == WaitingForApproval
    ensures CanTransition(s, Executing) <==> s == AutoAllowed || s == Approved
    ensures CanTransition(s, ExecutedStatus) <==> s == Executing || s == ExecutionFailed
    ensures CanTransition(s, ExecutionFailed) <==> s == Executing
    ensures CanTransition(s, Verifying) <==> s == ExecutedStatus || s == RemediationFailed
    ensures CanTransition(s, RemediationFailed) <==> s == Verifying
    ensures CanTransition(s, Resolved) <==> s == Verifying
    ensures CanTransition(s, Escalated) <==> s != Verifying && s != Resolved && s != Escalated
  {
    if s !in CLOSED {
      assert CanTransition(s, Escalated) || CanTransition(s, Resolved);
    }
  }
}
