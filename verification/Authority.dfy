/**
 What the executor demands of a stored decision before it acts on it
 (`_validate`, `_approval_blocks_execution`, `_identity`,
 src/scf/app/executor.py:188-303).
 */
module Authority {
  import opened Prelude
  import opened Ids
  import opened Lifecycle
  import opened Repository

  const AUTO_ALLOWED := "AUTO_ALLOWED"
  const APPROVAL_REQUIRED := "APPROVAL_REQUIRED"
  const FLIP := "FLIP_TRAFFIC_TO_LAST_GOOD"
  const SHIFT := "SHIFT_TRAFFIC_TO_APPROVED_CANDIDATE"
  const ACTION_TYPES: set<string> :=
    {FLIP, SHIFT, "RESTART_APPLICATION_SERVICE", "RESTART_DATABASE_SERVICE", "DISABLE_FIREWALL", "EXPORT_CREDENTIALS"}

  /** A decision document. "" stands for an absent or falsy field. `revoked` and `approvalId` are the
      only fields written after creation. */
  datatype Decision = Decision(
    incidentId: string, verdict: string, actionType: string, targetRef: string,
    authorizedTarget: string, expectedSource: string, expectedEtag: string,
    policyVersion: string, evidenceHash: string,
    revoked: bool, approvalId: string)

  /** A document's key: incident id and decision id. */
  type Key = (string, string)

  /** The deployment: the hash, the registered targets and whether the registry grants the tool. */
  datatype Config = Config(h: Hash, targets: set<string>, toolPermitted: bool)

  datatype Refusal =
    | IncidentClosed(status: Status) | DecisionIncidentMismatch | DecisionRevoked | DecisionNotExecutable
    | NoApproval | ApprovalMissing | ApprovalState(state: string) | ApprovalExpiredRefusal | ApprovalFingerprintMismatch
    | ActionNotInEnum | UnsupportedAction | TargetNotRegistered | ToolNotPermitted | NoAuthorizedTarget

  function FingerprintOf(c: Config, d: Decision, incidentId: string): string {
    Fingerprint(c.h, incidentId, d.actionType, d.targetRef, d.authorizedTarget, d.policyVersion, d.evidenceHash)
  }

  function ExecutionOf(c: Config, d: Decision, key: Key): string {
    ExecutionId(c.h, key.0, d.actionType, d.targetRef, key.1)
  }

  /** `approval` is what the id on the decision led to when it was read; `now` the reader's clock. */
  function ApprovalBlocks(c: Config, d: Decision, incidentId: string, approval: Option<Approval>, now: int)
    : Option<Refusal>
  {
    if d.approvalId == "" then Some(NoApproval)
    else if approval.None? then Some(ApprovalMissing)
    else if approval.value.state != APPROVED then Some(ApprovalState(approval.value.state))
    else if approval.value.expiresAt <= now then Some(ApprovalExpiredRefusal)
    else if approval.value.fingerprint != FingerprintOf(c, d, incidentId) then Some(ApprovalFingerprintMismatch)
    else None
  }

  /** `status` is the incident's, when the caller checks it (/execute does, /terminalize does not). */
  function Validate(c: Config, d: Decision, incidentId: string, status: Option<Status>,
                    approval: Option<Approval>, now: int): Option<Refusal>
  {
    if status.Some? && status.value in CLOSED then Some(IncidentClosed(status.value))
    else if d.incidentId != incidentId then Some(DecisionIncidentMismatch)
    else if d.revoked then Some(DecisionRevoked)
    else if d.verdict != AUTO_ALLOWED && d.verdict != APPROVAL_REQUIRED then Some(DecisionNotExecutable)
    else if d.verdict != AUTO_ALLOWED && ApprovalBlocks(c, d, incidentId, approval, now).Some? then
      ApprovalBlocks(c, d, incidentId, approval, now)
    else if d.actionType !in ACTION_TYPES then Some(ActionNotInEnum)
    else if d.actionType !in {FLIP, SHIFT} then Some(UnsupportedAction)
    else if d.targetRef !in c.targets then Some(TargetNotRegistered)
    else if !c.toolPermitted then Some(ToolNotPermitted)
    else if d.authorizedTarget == "" then Some(NoAuthorizedTarget)
    else None
  }

  /** What a passed validation vouches for and no later write to the decision can take back. */
  predicate Executable(c: Config, d: Decision, incidentId: string) {
    && d.incidentId == incidentId && (d.verdict == AUTO_ALLOWED || d.verdict == APPROVAL_REQUIRED)
    && d.targetRef in c.targets && d.actionType in {FLIP, SHIFT} && d.authorizedTarget != "" && c.toolPermitted
  }

  /** What a passed validation vouches for. */
  predicate Sanctioned(c: Config, d: Decision, incidentId: string, approval: Option<Approval>, now: int) {
    && Executable(c, d, incidentId) && !d.revoked
    && (d.verdict == APPROVAL_REQUIRED ==>
          && approval.Some?
          && approval.value.state == APPROVED && now < approval.value.expiresAt
          && approval.value.fingerprint == FingerprintOf(c, d, incidentId))
  }

  /** Validation passes exactly when the decision is sanctioned, names a listed action, and the
      incident, where it is checked, is open. */
  lemma ValidationSanctions(c: Config, d: Decision, incidentId: string, status: Option<Status>,
                            approval: Option<Approval>, now: int)
    ensures Validate(c, d, incidentId, status, approval, now) == None <==>
            && Sanctioned(c, d, incidentId, approval, now)
            && (status.Some? ==> status.value !in CLOSED)
            && (d.verdict == APPROVAL_REQUIRED ==> d.approvalId != "")
  {
  }

  /** A refusal is true, and names the first condition that fails, in the order in which they are asked. */
  lemma RefusalsAreTrue(c: Config, d: Decision, incidentId: string, status: Option<Status>,
                        approval: Option<Approval>, now: int)
    requires Validate(c, d, incidentId, status, approval, now).Some?
    ensures var open := status.None? || status.value !in CLOSED;
            var sound := open && d.incidentId == incidentId && !d.revoked;
            var executable := sound && (d.verdict == "AUTO_ALLOWED" || d.verdict == "APPROVAL_REQUIRED");
            var asked := executable && d.verdict == "APPROVAL_REQUIRED";
            var approved := executable && (asked ==>
                  && d.approvalId != "" && approval.Some? && approval.value.state == "APPROVED"
                  && now < approval.value.expiresAt && approval.value.fingerprint == FingerprintOf(c, d, incidentId));
            match Validate(c, d, incidentId, status, approval, now).value
            case IncidentClosed(s) => status == Some(s) && !open
            case DecisionIncidentMismatch => open && d.incidentId != incidentId
            case DecisionRevoked => open && d.incidentId == incidentId && d.revoked
            case DecisionNotExecutable => sound && !executable
            case NoApproval => asked && d.approvalId == ""
            case ApprovalMissing => asked && d.approvalId != "" && approval.None?
            case ApprovalState(state) =>
              asked && d.approvalId != "" && approval.Some? && approval.value.state == state != "APPROVED"
            case ApprovalExpiredRefusal =>
              && asked && d.approvalId != "" && approval.Some? && approval.value.state == "APPROVED"
              && approval.value.expiresAt <= now
            case ApprovalFingerprintMismatch =>
              && asked && d.approvalId != "" && approval.Some? && approval.value.state == "APPROVED"
              && now < approval.value.expiresAt && approval.value.fingerprint != FingerprintOf(c, d, incidentId)
            case ActionNotInEnum => approved && d.actionType !in ACTION_TYPES
            case UnsupportedAction => approved && d.actionType in ACTION_TYPES && d.actionType !in {FLIP, SHIFT}
            case TargetNotRegistered => approved && d.actionType in {FLIP, SHIFT} && d.targetRef !in c.targets
            case ToolNotPermitted => approved && d.targetRef in c.targets && !c.toolPermitted
            case NoAuthorizedTarget => approved && c.toolPermitted && d.authorizedTarget == ""
  {
  }

  /** Two decisions with bar-free identities share an execution only if they agree on incident, action, target
      and decision id, or the hash collides. */
  lemma ExecutionsAreTheirOwn(c: Config, d: Decision, key: Key, e: Decision, other: Key)
    requires BarFree([key.0, d.actionType, d.targetRef, key.1])
    requires BarFree([other.0, e.actionType, e.targetRef, other.1])
    requires ExecutionOf(c, d, key) == ExecutionOf(c, e, other)
    ensures || (key == other && d.actionType == e.actionType && d.targetRef == e.targetRef)
            || Collision(c.h, Join([key.0, d.actionType, d.targetRef, key.1]),
                         Join([other.0, e.actionType, e.targetRef, other.1]))
  {
    var mine, its := (key.0, d.actionType, d.targetRef, key.1), (other.0, e.actionType, e.targetRef, other.1);
    ExecutionIdIsFaithful(c.h, mine, its);
  }

  /** An approval does not carry over: if it sanctions two bar-free authorizations they agree on
      incident, action, target, revision, policy version and evidence, or the hash collides. */
  lemma ApprovalsDoNotTravel(c: Config, d: Decision, e: Decision, approval: Approval, now: int, later: int)
    requires d.verdict == e.verdict == APPROVAL_REQUIRED
    requires Sanctioned(c, d, d.incidentId, Some(approval), now)
    requires Sanctioned(c, e, e.incidentId, Some(approval), later)
    requires BarFree(Authorization(d)) && BarFree(Authorization(e))
    ensures Authorization(d) == Authorization(e) || Collision(c.h, Join(Authorization(d)), Join(Authorization(e)))
  {
    FingerprintIsFaithful(c.h, Authorization(d), Authorization(e));
  }

  function Authorization(d: Decision): seq<string> {
    [d.incidentId, d.actionType, d.targetRef, d.authorizedTarget, d.policyVersion, d.evidenceHash]
  }

  /** Later writes to a decision document leave everything else in it as it was. */
  predicate SameCore(d: Decision, e: Decision) {
    d == e.(revoked := d.revoked, approvalId := d.approvalId)
  }
}
