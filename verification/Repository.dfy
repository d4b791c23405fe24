/**
 The authoritative control plane (src/scf/state/firestore_repo.py): an incident
 document with its audit sub-collection, written together, and approvals.
 */
module Repository {
  import opened Prelude
  import opened Lifecycle
  import opened Chain

  const STATE_TRANSITION := "state_transition"

  /** The JSON text of a status. */
  function Word(s: Status): string {
    match s
    case Intake => "\"INTAKE\""
    case Investigating => "\"INVESTIGATING\""
    case Proposed => "\"PROPOSED\""
    case PolicyEvaluated => "\"POLICY_EVALUATED\""
    case AutoAllowed => "\"AUTO_ALLOWED\""
    case WaitingForApproval => "\"WAITING_FOR_APPROVAL\""
    case Approved => "\"APPROVED\""
    case ApprovalDenied => "\"APPROVAL_DENIED\""
    case ApprovalExpired => "\"APPROVAL_EXPIRED\""
    case Denied => "\"DENIED\""
    case Executing => "\"EXECUTING\""
    case ExecutedStatus => "\"EXECUTED\""
    case ExecutionFailed => "\"EXECUTION_FAILED\""
    case Verifying => "\"VERIFYING\""
    case RemediationFailed => "\"REMEDIATION_FAILED\""
    case Resolved => "\"RESOLVED\""
    case Escalated => "\"ESCALATED\""
  }

  /** No two statuses have the same text: length, first and second letter tell them apart. */
  lemma WordIsFaithful(a: Status, b: Status)
    requires Word(a) == Word(b)
    ensures a == b
  {
    assert |Word(a)| == |Word(b)| && Word(a)[1] == Word(b)[1] && Word(a)[2] == Word(b)[2];
  }

  datatype Move = Move(source: Status, target: Status)

  function Moving(m: Move): Payload {
    map["from" := Word(m.source), "to" := Word(m.target)]
  }

  predicate Tells(p: Payload, m: Move) {
    "from" in p && "to" in p && p["from"] == Word(m.source) && p["to"] == Word(m.target)
  }

  /** The status change a payload tells of, if any; other members do not matter. */
  ghost function MoveOf(p: Payload): Option<Move> {
    if m: Move :| Tells(p, m) then Some(m) else None
  }

  lemma MoveIsTold(p: Payload, m: Move)
    requires Tells(p, m)
    ensures MoveOf(p) == Some(m)
  {
    var n := MoveOf(p).value;
    WordIsFaithful(m.source, n.source);
    WordIsFaithful(m.target, n.target);
  }

  datatype Incident = Incident(status: Status, auditSeq: int, auditTail: string, audit: map<int, AuditRecord>)

  datatype Entry = Entry(
    actor: string, actorIdentity: Option<string>, event: string, payload: Payload,
    traceId: Option<string>, timestamp: string)

  datatype RepoError =
    | IncidentNotFound | AlreadyExists | ApprovalNotFound
    | IllegalTransition(current: Status, target: Status)

  /** The document as first created, before its first audit record. */
  const NEW_INCIDENT := Incident(Intake, -1, GENESIS_HASH, map[])

  function NextRecord(z: Sealer, inc: Incident, e: Entry): AuditRecord {
    Seal(z, AuditRecord(inc.auditSeq + 1, e.actor, e.actorIdentity, e.event, e.payload, e.traceId, None,
                        e.timestamp, if inc.auditTail == "" then GENESIS_HASH else inc.auditTail, ""))
  }

  /** One transaction: allocate the next slot, write the record, move the tail; `status` is the new status. */
  function CommitAudit(z: Sealer, inc: Incident, e: Entry, status: Status): Result<Incident, RepoError> {
    var record := NextRecord(z, inc, e);
    if record.seqNo in inc.audit then Err(AlreadyExists)
    else Ok(Incident(status, record.seqNo, record.hash, inc.audit[record.seqNo := record]))
  }

  function Appended(z: Sealer, inc: Incident, e: Entry): Result<Incident, RepoError> {
    CommitAudit(z, inc, e, inc.status)
  }

  function TransitionEntry(inc: Incident, target: Status, traceId: Option<string>, timestamp: string): Entry {
    Entry("orchestrator", None, STATE_TRANSITION, Moving(Move(inc.status, target)), traceId, timestamp)
  }

  function Transitioned(z: Sealer, inc: Incident, target: Status, traceId: Option<string>, timestamp: string)
    : Result<Incident, RepoError>
  {
    if !CanTransition(inc.status, target) then Err(IllegalTransition(inc.status, target))
    else CommitAudit(z, inc, TransitionEntry(inc, target, traceId, timestamp), target)
  }

  // --- approvals ---

  datatype Approval = Approval(
    state: string, fingerprint: string, expiresAt: int, decidedAt: Option<int>, approver: Option<string>)

  const PENDING := "PENDING"
  const APPROVED := "APPROVED"
  const EXPIRED := "EXPIRED"

  datatype Ruling = Decided | AlreadyDecided | Expired | NotFound

  function Ruled(a: Approval, state: string, approver: string, decidedAt: int, now: int): (Ruling, Approval) {
    if a.state != PENDING then (AlreadyDecided, a)
    else if a.expiresAt <= now then (Expired, a.(state := EXPIRED, decidedAt := Some(now)))
    else (Decided, a.(state := state, decidedAt := Some(decidedAt), approver := Some(approver)))
  }

  class IncidentRepository {
    const z: Sealer
    var incidents: map<string, Incident>
    var approvals: map<string, Approval>

    constructor (z: Sealer)
      ensures this.z == z && incidents == map[] && approvals == map[]
    {
      this.z := z;
      incidents, approvals := map[], map[];
    }

    /** Two commits, as in the source: the document, then its first audit record. */
    method Create(id: string, e: Entry) returns (r: Result<AuditRecord, RepoError>)
      modifies this`incidents
      ensures id in old(incidents) ==> r == Err(AlreadyExists) && incidents == old(incidents)
      ensures id !in old(incidents) ==>
                && Appended(z, NEW_INCIDENT, e).Ok?
                && incidents == old(incidents)[id := Appended(z, NEW_INCIDENT, e).value]
                && r == Ok(NextRecord(z, NEW_INCIDENT, e))
    {
      if id in incidents {
        return Err(AlreadyExists);
      }
      incidents := incidents[id := NEW_INCIDENT];
      r := AppendAudit(id, e);
    }

    method Commit(id: string, e: Entry, status: Status) returns (r: Result<AuditRecord, RepoError>)
      requires id in incidents
      modifies this`incidents
      ensures var after := CommitAudit(z, old(incidents)[id], e, status);
              && incidents == (if after.Ok? then old(incidents)[id := after.value] else old(incidents))
              && r == (if after.Ok? then Ok(NextRecord(z, old(incidents)[id], e)) else Err(after.error))
    {
      var doc := incidents[id];
      var number := doc.auditSeq + 1;
      var prev := if doc.auditTail == "" then GENESIS_HASH else doc.auditTail;
      var record := Seal(z, AuditRecord(number, e.actor, e.actorIdentity, e.event, e.payload, e.traceId, None,
                                        e.timestamp, prev, ""));
      if number in doc.audit {
        return Err(AlreadyExists);
      }
      doc := doc.(auditSeq := number, auditTail := record.hash, status := status,
                  audit := doc.audit[number := record]);
      incidents := incidents[id := doc];
      return Ok(record);
    }

    method AppendAudit(id: string, e: Entry) returns (r: Result<AuditRecord, RepoError>)
      modifies this`incidents
      ensures id !in old(incidents) ==> r == Err(IncidentNotFound) && incidents == old(incidents)
      ensures id in old(incidents) ==>
                var after := Appended(z, old(incidents)[id], e);
                && incidents == (if after.Ok? then old(incidents)[id := after.value] else old(incidents))
                && r == (if after.Ok? then Ok(NextRecord(z, old(incidents)[id], e)) else Err(after.error))
    {
      if id !in incidents {
        return Err(IncidentNotFound);
      }
      r := Commit(id, e, incidents[id].status);
    }

    /** Returns the status the incident had; the status and its record change together or not at all. */
    method Transition(id: string, target: Status, traceId: Option<string>, timestamp: string)
      returns (r: Result<Status, RepoError>)
      modifies this`incidents
      ensures id !in old(incidents) ==> r == Err(IncidentNotFound) && incidents == old(incidents)
      ensures id in old(incidents) ==>
                var after := Transitioned(z, old(incidents)[id], target, traceId, timestamp);
                && incidents == (if after.Ok? then old(incidents)[id := after.value] else old(incidents))
                && r == (if after.Ok? then Ok(old(incidents)[id].status) else Err(after.error))
    {
      if id !in incidents {
        return Err(IncidentNotFound);
      }
      var current := incidents[id].status;
      if target !in Successors(current) {
        return Err(IllegalTransition(current, target));
      }
      var committed := Commit(id, TransitionEntry(incidents[id], target, traceId, timestamp), target);
      if committed.Err? {
        return Err(committed.error);
      }
      return Ok(current);
    }

    /** Two commits, as in the source: the request, then its audit record, which fails if the incident is
        missing. */
    method CreateApproval(id: string, fingerprint: string, expiresAt: int, incidentId: string, e: Entry)
      returns (r: Result<Approval, RepoError>)
      modifies this`approvals, this`incidents
      ensures id in old(approvals) ==>
                r == Err(AlreadyExists) && approvals == old(approvals) && incidents == old(incidents)
      ensures id !in old(approvals) ==>
                approvals == old(approvals)[id := Approval(PENDING, fingerprint, expiresAt, None, None)]
      ensures id !in old(approvals) && incidentId !in old(incidents) ==>
                r == Err(IncidentNotFound) && incidents == old(incidents)
      ensures id !in old(approvals) && incidentId in old(incidents) ==>
                var after := Appended(z, old(incidents)[incidentId], e);
                && incidents == (if after.Ok? then old(incidents)[incidentId := after.value] else old(incidents))
                && r == if after.Ok? then Ok(approvals[id]) else Err(after.error)
    {
      if id in approvals {
        return Err(AlreadyExists);
      }
      approvals := approvals[id := Approval(PENDING, fingerprint, expiresAt, None, None)];
      var audited := AppendAudit(incidentId, e);
      if audited.Err? {
        return Err(audited.error);
      }
      return Ok(approvals[id]);
    }

    method DecideApproval(id: string, state: string, approver: string, decidedAt: int, now: int)
      returns (ruling: Ruling, seen: Option<Approval>)
      modifies this`approvals
      ensures id !in old(approvals) ==> ruling == NotFound && seen == None && approvals == old(approvals)
      ensures id in old(approvals) ==>
                var after := Ruled(old(approvals)[id], state, approver, decidedAt, now);
                ruling == after.0 && seen == Some(after.1) && approvals == old(approvals)[id := after.1]
      ensures id in old(approvals) && old(approvals)[id].state != "PENDING" ==>
                ruling == AlreadyDecided && seen == Some(old(approvals)[id]) && approvals == old(approvals)
      ensures id in old(approvals) && old(approvals)[id].state == "PENDING" ==>
                var a := old(approvals)[id];
                && approvals.Keys == old(approvals).Keys && approvals - {id} == old(approvals) - {id}
                && approvals[id].fingerprint == a.fingerprint && approvals[id].expiresAt == a.expiresAt
                && seen == Some(approvals[id])
                && if now < a.expiresAt then
                     && ruling == Decided && approvals[id].state == state
                     && approvals[id].decidedAt == Some(decidedAt) && approvals[id].approver == Some(approver)
                   else
                     && ruling == Expired && approvals[id].state == "EXPIRED"
                     && approvals[id].decidedAt == Some(now) && approvals[id].approver == a.approver
    {
      if id !in approvals {
        return NotFound, None;
      }
      var current := approvals[id];
      if current.state != PENDING {
        assert approvals[id := current] == approvals;
        return AlreadyDecided, Some(current);
      }
      if current.expiresAt <= now {
        current := current.(state := EXPIRED, decidedAt := Some(now));
        approvals := approvals[id := current];
        return Expired, Some(current);
      }
      current := current.(state := state, decidedAt := Some(decidedAt), approver := Some(approver));
      approvals := approvals[id := current];
      return Decided, Some(current);
    }
  }

  // --- what every history of one incident keeps ---

  /** The audit records are numbered 0 to auditSeq, none missing. */
  ghost predicate Numbered(inc: Incident) {
    && inc.auditSeq >= -1
    && (forall k :: k in inc.audit <==> 0 <= k <= inc.auditSeq)
  }

  /** `audit_trail`: the records in order. */
  ghost function Trail(inc: Incident): seq<AuditRecord>
    requires Numbered(inc)
  {
    seq(inc.auditSeq + 1, i requires 0 <= i <= inc.auditSeq => inc.audit[i])
  }

  /** An entry that reads as a status change. */
  ghost predicate Poses(event: string, p: Payload) {
    event == STATE_TRANSITION && MoveOf(p).Some?
  }

  ghost predicate Reserved(r: AuditRecord) {
    Poses(r.event, r.payload)
  }

  ghost function MoveIn(r: AuditRecord): Move
    requires Reserved(r)
  {
    MoveOf(r.payload).value
  }

  /** The statuses that the trail's own `state_transition` records say the incident went through. */
  ghost function Replay(trail: seq<AuditRecord>): (visited: seq<Status>)
    ensures visited != []
  {
    if trail == [] then [Intake]
    else
      var before := Replay(trail[..|trail| - 1]);
      var last := trail[|trail| - 1];
      if Reserved(last) then before + [MoveIn(last).target] else before
  }

  /** The status reached after the whole trail. */
  ghost function Reached(trail: seq<AuditRecord>): Status {
    var visited := Replay(trail);
    visited[|visited| - 1]
  }

  ghost predicate SourcesAgree(trail: seq<AuditRecord>) {
    forall i :: 0 <= i < |trail| && Reserved(trail[i]) ==> MoveIn(trail[i]).source == Reached(trail[..i])
  }

  ghost predicate Verifies(z: Sealer, inc: Incident) {
    && Numbered(inc)
    && Accepted(z, Trail(inc), inc.auditSeq, inc.auditTail)
    && inc.auditTail != ""
    && (inc.auditSeq == -1 ==> inc.auditTail == GENESIS_HASH)
  }

  /** The trail accounts for the status: its transitions are a legal history that ends there. */
  ghost predicate Accounts(inc: Incident)
    requires Numbered(inc)
  {
    && LegalHistory(Replay(Trail(inc)))
    && Reached(Trail(inc)) == inc.status
    && SourcesAgree(Trail(inc))
  }

  /** The record says who did what, on which occasion and when, as the entry does. */
  predicate Says(r: AuditRecord, e: Entry) {
    && r.actor == e.actor && r.actorIdentity == e.actorIdentity && r.event == e.event && r.payload == e.payload
    && r.traceId == e.traceId && r.spanId == None && r.timestamp == e.timestamp
  }

  /** A commit adds one record, numbered next and chained to the last, that says what its entry does; the
      tail moves to it, and every earlier record stays. */
  lemma CommitsSayTheirEntry(z: Sealer, inc: Incident, e: Entry, status: Status)
    requires Verifies(z, inc)
    ensures var after, n := CommitAudit(z, inc, e, status), inc.auditSeq + 1;
            && after.Ok? && after.value.status == status && after.value.auditSeq == n
            && after.value.audit.Keys == inc.audit.Keys + {n}
            && (forall k <- inc.audit :: after.value.audit[k] == inc.audit[k])
            && var r := after.value.audit[n];
               && Says(r, e) && r.seqNo == n && r.prevHash == inc.auditTail
               && r.hash == z.h(r.prevHash + z.canon(HashableView(r))) && after.value.auditTail == r.hash
  {
    assert NextRecord(z, inc, e).seqNo !in inc.audit;
  }

  lemma CommitGrowsTheTrail(z: Sealer, inc: Incident, e: Entry, status: Status)
    requires FixedLength(z.h) && Verifies(z, inc)
    ensures var after := CommitAudit(z, inc, e, status);
            && after.Ok? && Verifies(z, after.value)
            && after.value.status == status
            && Trail(after.value) == Trail(inc) + [NextRecord(z, inc, e)]
  {
    var record := NextRecord(z, inc, e);
    assert record.seqNo !in inc.audit;
    var after := CommitAudit(z, inc, e, status).value;
    var before, trail := Trail(inc), Trail(after);
    assert trail == before + [record];
    forall i | 0 <= i < |trail|
      ensures Fault(z, trail, i) == None
    {
      if i < |before| {
        assert Fault(z, before, i) == None;
      }
    }
  }

  lemma ReplayStep(z: Sealer, inc: Incident, e: Entry)
    requires Verifies(z, inc)
    ensures var record := NextRecord(z, inc, e);
            Replay(Trail(inc) + [record]) ==
            Replay(Trail(inc)) + (if Reserved(record) then [MoveIn(record).target] else [])
  {
    var longer := Trail(inc) + [NextRecord(z, inc, e)];
    assert longer[..|longer| - 1] == Trail(inc);
  }

  lemma LegalHistoryGrows(visited: seq<Status>, target: Status)
    requires LegalHistory(visited) && CanTransition(visited[|visited| - 1], target)
    ensures LegalHistory(visited + [target])
  {
  }

  lemma MovesAreAccounted(z: Sealer, inc: Incident, e: Entry, target: Status)
    requires FixedLength(z.h) && Verifies(z, inc) && Accounts(inc) && CanTransition(inc.status, target)
    requires e.event == STATE_TRANSITION && MoveOf(e.payload) == Some(Move(inc.status, target))
    ensures var after := CommitAudit(z, inc, e, target);
            && after.Ok? && after.value.status == target
            && Verifies(z, after.value) && Accounts(after.value)
            && Replay(Trail(after.value)) == Replay(Trail(inc)) + [target]
  {
    CommitGrowsTheTrail(z, inc, e, target);
    ReplayStep(z, inc, e);
    SourcesGrow(Trail(inc), NextRecord(z, inc, e));
    LegalHistoryGrows(Replay(Trail(inc)), target);
    assert Reserved(NextRecord(z, inc, e));
  }

  /** A transition keeps trail and status in step. */
  lemma TransitionsAreAccounted(z: Sealer, inc: Incident, target: Status, traceId: Option<string>, timestamp: string)
    requires FixedLength(z.h) && Verifies(z, inc) && Accounts(inc) && CanTransition(inc.status, target)
    ensures var after := Transitioned(z, inc, target, traceId, timestamp);
            && after.Ok? && after.value.status == target
            && Verifies(z, after.value) && Accounts(after.value)
            && Replay(Trail(after.value)) == Replay(Trail(inc)) + [target]
  {
    var e := TransitionEntry(inc, target, traceId, timestamp);
    MoveIsTold(e.payload, Move(inc.status, target));
    MovesAreAccounted(z, inc, e, target);
  }

  lemma SourcesGrow(trail: seq<AuditRecord>, r: AuditRecord)
    requires SourcesAgree(trail)
    requires Reserved(r) ==> MoveIn(r).source == Reached(trail)
    ensures SourcesAgree(trail + [r])
  {
    var longer := trail + [r];
    forall i | 0 <= i < |longer| && Reserved(longer[i])
      ensures MoveIn(longer[i]).source == Reached(longer[..i])
    {
      if i < |trail| {
        assert longer[..i] == trail[..i] && longer[i] == trail[i];
      } else {
        assert longer[..i] == trail;
      }
    }
  }

  /** An appended entry keeps the trail verifiable whatever it says, and keeps it in step with the
      status exactly when it does not pass itself off as a transition: `append_audit` does not check
      the event name, and no caller in the repository uses the reserved one. */
  lemma AppendsAreAccountedUnlessReserved(z: Sealer, inc: Incident, e: Entry)
    requires FixedLength(z.h) && Verifies(z, inc) && Accounts(inc)
    ensures Appended(z, inc, e).Ok? && Verifies(z, Appended(z, inc, e).value)
    ensures Accounts(Appended(z, inc, e).value) <==> !Poses(e.event, e.payload)
  {
    CommitGrowsTheTrail(z, inc, e, inc.status);
    ReplayStep(z, inc, e);
    var record := NextRecord(z, inc, e);
    var visited := Replay(Trail(inc));
    if Reserved(record) {
      var more := visited + [MoveIn(record).target];
      assert more[|more| - 2] == inc.status;
      assert !(LegalHistory(more) && more[|more| - 1] == inc.status) by {
        assert !CanTransition(inc.status, inc.status);
      }
    } else {
      SourcesGrow(Trail(inc), record);
    }
  }

  // --- every run over every incident ---

  datatype Op =
    | OpCreate(id: string)
    | OpAppend(id: string, entry: Entry)
    | OpTransition(id: string, target: Status, traceId: Option<string>, timestamp: string)

  /** A refused operation changes nothing. `OpCreate` is only the first of the two commits of `create`. */
  function Apply(z: Sealer, incidents: map<string, Incident>, op: Op): map<string, Incident> {
    match op
    case OpCreate(id) => if id in incidents then incidents else incidents[id := NEW_INCIDENT]
    case OpAppend(id, e) =>
      if id in incidents && Appended(z, incidents[id], e).Ok?
      then incidents[id := Appended(z, incidents[id], e).value] else incidents
    case OpTransition(id, target, traceId, timestamp) =>
      if id in incidents && Transitioned(z, incidents[id], target, traceId, timestamp).Ok?
      then incidents[id := Transitioned(z, incidents[id], target, traceId, timestamp).value] else incidents
  }

  function Run(z: Sealer, incidents: map<string, Incident>, ops: seq<Op>): map<string, Incident>
    decreases |ops|
  {
    if ops == [] then incidents else Run(z, Apply(z, incidents, ops[0]), ops[1..])
  }

  /** The operation appends, to an incident there is, an entry that passes itself off as a status change. */
  ghost predicate Forges(incidents: map<string, Incident>, op: Op) {
    op.OpAppend? && op.id in incidents && Poses(op.entry.event, op.entry.payload)
  }

  ghost predicate AllAccounted(z: Sealer, incidents: map<string, Incident>) {
    forall id <- incidents :: Verifies(z, incidents[id]) && Accounts(incidents[id])
  }

  lemma OperationsAreAccounted(z: Sealer, incidents: map<string, Incident>, op: Op)
    requires FixedLength(z.h) && AllAccounted(z, incidents)
    ensures AllAccounted(z, Apply(z, incidents, op)) <==> !Forges(incidents, op)
  {
    match op
    case OpCreate(id) =>
      assert Trail(NEW_INCIDENT) == [];
    case OpAppend(id, e) =>
      if id in incidents {
        AppendsAreAccountedUnlessReserved(z, incidents[id], e);
        assert id in Apply(z, incidents, op);
      }
    case OpTransition(id, target, traceId, timestamp) =>
      if id in incidents && CanTransition(incidents[id].status, target) {
        TransitionsAreAccounted(z, incidents[id], target, traceId, timestamp);
      }
  }

  lemma {:induction false} RunsGoOn(z: Sealer, incidents: map<string, Incident>, ops: seq<Op>, n: nat)
    requires n < |ops|
    ensures Run(z, incidents, ops[..n + 1]) == Apply(z, Run(z, incidents, ops[..n]), ops[n])
    decreases n
  {
    if n == 0 {
      assert ops[..1] == [ops[0]] && ops[..0] == [];
      assert Run(z, Apply(z, incidents, ops[0]), []) == Apply(z, incidents, ops[0]);
    } else {
      RunsGoOn(z, Apply(z, incidents, ops[0]), ops[1..], n - 1);
      assert ops[..n][1..] == ops[1..][..n - 1] && ops[..n + 1][1..] == ops[1..][..n];
    }
  }

  ghost predicate NothingForged(z: Sealer, incidents: map<string, Incident>, ops: seq<Op>) {
    forall n :: 0 <= n < |ops| ==> !Forges(Run(z, incidents, ops[..n]), ops[n])
  }

  lemma {:induction false} UnforgedIsAccounted(z: Sealer, incidents: map<string, Incident>, ops: seq<Op>, n: nat)
    requires FixedLength(z.h) && AllAccounted(z, incidents) && n <= |ops| && NothingForged(z, incidents, ops)
    ensures AllAccounted(z, Run(z, incidents, ops[..n]))
    decreases n
  {
    if n > 0 {
      UnforgedIsAccounted(z, incidents, ops, n - 1);
      RunsGoOn(z, incidents, ops, n - 1);
      OperationsAreAccounted(z, Run(z, incidents, ops[..n - 1]), ops[n - 1]);
    }
  }

  /** Along any interleaving of creates, appends and transitions every stored trail verifies and its
      transition records replay to a legal history ending at the stored status, all the way, exactly when
      no append on the way passes itself off as a status change. */
  lemma EveryRunIsAccounted(z: Sealer, incidents: map<string, Incident>, ops: seq<Op>)
    requires FixedLength(z.h) && AllAccounted(z, incidents)
    ensures (forall n :: 0 <= n <= |ops| ==> AllAccounted(z, Run(z, incidents, ops[..n]))) <==>
            NothingForged(z, incidents, ops)
  {
    if forall n :: 0 <= n <= |ops| ==> AllAccounted(z, Run(z, incidents, ops[..n])) {
      forall n: nat | n < |ops|
        ensures !Forges(Run(z, incidents, ops[..n]), ops[n])
      {
        RunsGoOn(z, incidents, ops, n);
        assert AllAccounted(z, Run(z, incidents, ops[..n])) && AllAccounted(z, Run(z, incidents, ops[..n + 1]));
        OperationsAreAccounted(z, Run(z, incidents, ops[..n]), ops[n]);
      }
    }
    if NothingForged(z, incidents, ops) {
      forall n: nat | n <= |ops|
        ensures AllAccounted(z, Run(z, incidents, ops[..n]))
      {
        UnforgedIsAccounted(z, incidents, ops, n);
      }
    }
  }

  /** An entry that `append_audit` takes: it says of an incident just opened that it was resolved. */
  lemma ForgedEntryIsNotAccounted(z: Sealer)
    requires FixedLength(z.h)
    ensures var forged := Entry("anyone", None, STATE_TRANSITION, Moving(Move(Intake, Resolved)), None, "");
            var after := Run(z, map["i" := NEW_INCIDENT], [OpAppend("i", forged)]);
            && "i" in after && after["i"].status == Intake && Verifies(z, after["i"]) && !Accounts(after["i"])
  {
    var forged := Entry("anyone", None, STATE_TRANSITION, Moving(Move(Intake, Resolved)), None, "");
    var incidents := map["i" := NEW_INCIDENT];
    assert Trail(NEW_INCIDENT) == [];
    MoveIsTold(forged.payload, Move(Intake, Resolved));
    AppendsAreAccountedUnlessReserved(z, NEW_INCIDENT, forged);
    var op := OpAppend("i", forged);
    assert [op][1..] == [];
    assert Run(z, incidents, [op]) == Apply(z, incidents, op);
  }

  /** So in any run from an empty database each incident's own trail shows that it entered EXECUTING
      at most once and only when authorized, and that only verification ever repeated. */
  lemma EveryTrailIsOrderly(z: Sealer, ops: seq<Op>, id: string)
    requires FixedLength(z.h) && NothingForged(z, map[], ops)
    requires id in Run(z, map[], ops)
    ensures var inc := Run(z, map[], ops)[id];
            && Verifies(z, inc)
            && var visited := Replay(Trail(inc));
               && visited[|visited| - 1] == inc.status
               && (forall i, j :: 0 <= i < j < |visited| && visited[i] == visited[j] ==>
                     visited[i] in {Verifying, RemediationFailed})
               && (forall i :: 0 <= i < |visited| && visited[i] == Executing ==>
                     i > 0 && visited[i - 1] in {AutoAllowed, Approved})
  {
    UnforgedIsAccounted(z, map[], ops, |ops|);
    assert ops[..|ops|] == ops;
    HistoriesAreOrderly(Replay(Trail(Run(z, map[], ops)[id])));
  }

  // --- approvals are decided once ---

  function Rulings(a: Approval, calls: seq<(string, string, int, int)>): Approval
    decreases |calls|
  {
    if calls == [] then a else Rulings(Ruled(a, calls[0].0, calls[0].1, calls[0].2, calls[0].3).1, calls[1..])
  }

  /** However often and by whomever it is answered afterwards, an approval that has left PENDING is
      never rewritten; what it was asked about and when it expires never change at all. */
  lemma {:induction false} ApprovalsAreDecidedOnce(a: Approval, calls: seq<(string, string, int, int)>)
    ensures a.state != PENDING ==> Rulings(a, calls) == a
    ensures Rulings(a, calls).fingerprint == a.fingerprint && Rulings(a, calls).expiresAt == a.expiresAt
    ensures Rulings(a, calls).state == PENDING ==> a.state == PENDING
    decreases |calls|
  {
    if calls != [] {
      ApprovalsAreDecidedOnce(Ruled(a, calls[0].0, calls[0].1, calls[0].2, calls[0].3).1, calls[1..]);
    }
  }
}
