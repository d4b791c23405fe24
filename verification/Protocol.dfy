/**
 The fenced execution protocol as a state machine: any number of /execute and
 /terminalize requests (src/scf/app/executor.py:384-1134) over the execution
 store, the live services and the control plane, with operators, crashes, lost
 answers and arbitrary clock readings in between. One action is one
 transaction, one read, one probe or one message.
 */
module Protocol {
  import opened Prelude
  import opened Lifecycle
  import opened Authority
  import C = CloudRun
  import E = Execution
  import R = Repository
  import T = Traffic

  const PRE_MUTATION_STATES: set<E.ExecutionState> :=
    {E.Claimed, E.PreconditionChecked, E.MutationRequested, E.Mutated}
  const ATTEMPTED_STATES: set<E.ExecutionState> := {E.MutationRequested, E.Mutated}
  const TERMINALIZABLE_STATES: set<E.ExecutionState> := {E.Mutated}

  // --- the processes ---

  datatype Reason =
    | DecisionMissing | IncidentMissing | Invalid(refusal: Refusal) | DuplicateAuthorization | Fenced
    | MutationDidNotHold | StaleEvidence | TargetNoLongerHealthy | ClosedMidFlight
    | ConcurrentModification(rewound: bool) | OutcomeUnknown

  datatype Reply =
    | Refused(reason: Reason)
    | Duplicate(terminal: bool, effectPredates: bool)
    | Reconciled(effectPredates: bool)
    | Mutation(recorded: bool)

  /** Where an /execute request stands; each name is the next thing it does. */
  datatype PC =
    | ReadDecision | ReadIncident | Check | Bind | Acquire | Look
    | WriteReconciled | WriteStale | WriteChecked
    | Recheck | ReadSnapshot | WriteRequested | Send | Await
    | WriteRewind | WriteMutated | Reacquire | WriteMutatedAgain
    | Releasing(reply: Reply) | Done(result: Reply) | Crashed

  /** The PUT of one request, as the server sees it. */
  datatype PutStatus = NoPut | InFlight | Taken | Rejected

  datatype Worker = Worker(
    id: nat, pc: PC, key: Key, owner: string,
    decision: Decision, status: Status, approval: Option<R.Approval>, checkedAt: int,
    exec: string, fingerprint: string, epoch: nat, record: E.Record,
    snapshot: C.Doc, put: PutStatus)

  datatype CloserPC = CReadDecision | CCheck | CGet | CLook | CClose | CDone

  /** A /terminalize request. */
  datatype Closer = Closer(
    pc: CloserPC, key: Key, decision: Decision, exec: string, described: T.Described, probe: T.Probe)

  /** What /terminalize answered about a decision. */
  datatype Receipt = Receipt(key: Key, verified: bool, state: E.ExecutionState, serves: bool)

  datatype VerifierVerdict = VerifierVerdict(
    verdict: string, httpHealthy: bool, revisionMatches: bool, allocationExclusive: bool)

  predicate Recovered(v: VerifierVerdict) {
    v.verdict == "RECOVERED" && v.httpHealthy && v.revisionMatches && v.allocationExclusive
  }

  predicate Terminal(r: Receipt) {
    r.verified && r.state == E.Verified && r.serves
  }

  // --- the world ---

  /** The live document and every resourceVersion the server has used for this service. */
  datatype Service = Service(live: C.Doc, spent: set<string>)

  /** History: a PUT that changed a service. */
  datatype Applied = Applied(
    worker: nat, exec: string, fingerprint: string, key: Key, decision: Decision,
    approval: Option<R.Approval>, checkedAt: int, before: C.Doc, after: C.Doc)

  /** History: execution `exec` was observed with its authorized revision active. */
  datatype Sighting = Sighting(exec: string, key: Key, described: T.Described)

  /** History: the observation on which request `worker` went on to mutate. */
  datatype Clearance = Clearance(worker: nat, decision: Decision, described: T.Described, probed: T.Probe)

  /** History: the observation on which `exec` was closed. */
  datatype Closing = Closing(exec: string, key: Key, described: T.Described, probe: T.Probe)

  datatype World = World(
    decisions: map<Key, Decision>, approvals: map<string, R.Approval>, incidents: map<string, Status>,
    executions: E.Records, bindings: E.Bindings, services: map<string, Service>,
    workers: seq<Worker>, closers: seq<Closer>, receipts: set<Receipt>,
    closedOn: map<string, Key>, applied: seq<Applied>, sighted: set<Sighting>, closings: set<Closing>,
    cleared: set<Clearance>)

  const GENESIS := World(map[], map[], map[], map[], map[], map[], [], [], {}, map[], [], {}, {}, {})

  const NO_DECISION := Decision("", "", "", "", "", "", "", "", "", false, "")
  const NO_RECORD := E.Record(E.Claim("", "", "", "", "", "", ""), E.Claimed, None, 0, None, 0, false, None)

  function NewWorker(id: nat, key: Key, owner: string): Worker {
    Worker(id, ReadDecision, key, owner, NO_DECISION, Intake, None, 0, "", "", 0, NO_RECORD, map[], NoPut)
  }

  function NewCloser(key: Key): Closer {
    Closer(CReadDecision, key, NO_DECISION, "", T.Described([], "", ""), T.Probe(0, false))
  }

  /** The revision named in the body of the PUT. */
  function TargetRevision(d: Decision): string {
    T.BaseName(d.authorizedTarget)
  }

  function Body(w: Worker): Result<C.Doc, C.SnapshotError> {
    C.Replacement(w.snapshot, TargetRevision(w.decision))
  }

  // --- the steps of /execute ---

  /** The outcome of the PUT, a 409, a status of 400 or more that is not a 409, or no answer at all,
      which is an exception. */
  datatype Answer = Accepted | Conflict409 | Unclear | Lost

  /** What a step takes from outside: its clock, what an observation showed, what the PUT answered. */
  datatype Input = Input(
    now: int, described: T.Described, live: T.Probe, probed: T.Probe, answer: Answer)

  /** A step of request `i` changes no other request, no service (only the server takes a PUT) and nothing
      in the control plane. */
  predicate OnlyOwn(s: World, i: nat, t: World) {
    && i < |s.workers| == |t.workers| && t.workers == s.workers[i := t.workers[i]]
    && t.applied == s.applied && t.services == s.services
    && t.decisions == s.decisions && t.approvals == s.approvals && t.incidents == s.incidents
  }

  function With(s: World, w: Worker): (t: World)
    requires w.id < |s.workers|
    ensures OnlyOwn(s, w.id, t)
  {
    s.(workers := s.workers[w.id := w])
  }

  function ClaimOf(w: Worker): E.Claim {
    E.Claim(w.key.0, w.key.1, w.decision.actionType, w.decision.targetRef,
            w.decision.authorizedTarget, w.decision.expectedSource, w.decision.expectedEtag)
  }

  function Binding(s: World, w: Worker): (t: World)
    requires w.id < |s.workers|
    ensures OnlyOwn(s, w.id, t)
  {
    var b := E.Bind(s.bindings, w.fingerprint, E.Binding(w.exec, w.key.0, w.key.1));
    var next := if b.0 == E.Conflict then Done(Refused(DuplicateAuthorization)) else Acquire;
    With(s, w.(pc := next)).(bindings := b.2)
  }

  function Try(s: World, w: Worker, now: int): (E.Outcome, E.Record, E.Records) {
    E.Acquire(s.executions, w.exec, w.owner, ClaimOf(w), now, E.LEASE_SECONDS)
  }

  /** The answer of a request that is refused the claim. */
  function Suppressed(outcome: E.Outcome, r: E.Record): Option<Reply> {
    if outcome in {E.AlreadyFinished, E.HeldByOther}
    then Some(Duplicate(outcome == E.AlreadyFinished, r.effectPredates)) else None
  }

  function AfterClaim(w: Worker, outcome: E.Outcome, r: E.Record): Worker {
    match Suppressed(outcome, r)
    case Some(reply) => w.(pc := Done(reply))
    case None => w.(pc := Look, epoch := r.epoch, record := r)
  }

  function Acquiring(s: World, w: Worker, now: int): (t: World)
    requires w.id < |s.workers|
    ensures OnlyOwn(s, w.id, t)
  {
    var a := Try(s, w, now);
    With(s, AfterClaim(w, a.0, a.1)).(executions := a.2)
  }

  /** The branch taken on what was observed. */
  function Decide(w: Worker, o: T.Observation): PC {
    var active := T.Active(o.described);
    if active == w.decision.authorizedTarget then WriteReconciled
    else if w.record.state in ATTEMPTED_STATES then Releasing(Refused(MutationDidNotHold))
    else if w.decision.expectedSource != "" && active != w.decision.expectedSource then WriteStale
    else if T.CandidateIsFresh(o, w.decision.authorizedTarget).Some? then Releasing(Refused(TargetNoLongerHealthy))
    else WriteChecked
  }

  function Seen(w: Worker, x: Input): T.Observation {
    T.Observe(x.described, x.live, x.probed, w.decision.authorizedTarget, w.decision.actionType == SHIFT)
  }

  /** The authorized revision has a URL of its own: the first `known-good` entry is its own, or nobody
      holds the tag and a human approved the shift. */
  predicate Offered(d: Decision, statuses: seq<T.Status>) {
    match T.FirstTagged(statuses)
    case Some(entry) => T.BaseName(entry.revision) == d.authorizedTarget && entry.uri != ""
    case None => d.actionType == SHIFT && d.authorizedTarget != "" && T.Addressable(statuses, d.authorizedTarget)
  }

  /** Traffic is no longer where the decision expects it. */
  predicate Moved(d: Decision, described: T.Described) {
    d.expectedSource != "" && T.Active(described) != d.expectedSource
  }

  /** What must be seen before a decision may be carried out. */
  predicate Clears(d: Decision, described: T.Described, probed: T.Probe) {
    && T.Active(described) != d.authorizedTarget && !Moved(d, described)
    && probed.httpStatus == 200 && probed.bodyHealthy && Offered(d, described.statuses)
  }

  /** Which branch an observation leads to: each of the five exactly under its own condition. */
  lemma BranchesExactly(w: Worker, x: Input)
    ensures var next, d := Decide(w, Seen(w, x)), w.decision;
            var live := T.Active(x.described) == d.authorizedTarget;
            var attempted := w.record.state == E.MutationRequested || w.record.state == E.Mutated;
            && (next.WriteReconciled? <==> live)
            && (next == Releasing(Refused(MutationDidNotHold)) <==> !live && attempted)
            && (next.WriteStale? <==> !live && !attempted && Moved(d, x.described))
            && (next == Releasing(Refused(TargetNoLongerHealthy)) <==>
                  !live && !attempted && !Moved(d, x.described)
                  && !(x.probed.httpStatus == 200 && x.probed.bodyHealthy && Offered(d, x.described.statuses)))
            && (next.WriteChecked? <==> !attempted && Clears(d, x.described, x.probed))
  {
    T.TargetIsFresh(x.described, x.live, x.probed, w.decision.authorizedTarget, w.decision.actionType == SHIFT);
  }

  function Looking(s: World, w: Worker, x: Input): (t: World)
    requires w.id < |s.workers|
    ensures OnlyOwn(s, w.id, t)
  {
    var next := Decide(w, Seen(w, x));
    With(s, w.(pc := next)).(
      sighted := if next == WriteReconciled then s.sighted + {Sighting(w.exec, w.key, x.described)} else s.sighted,
      cleared := if next == WriteChecked then s.cleared + {Clearance(w.id, w.decision, x.described, x.probed)}
                 else s.cleared)
  }

  function EffectPredates(w: Worker): bool {
    w.record.effectPredates || w.record.state !in ATTEMPTED_STATES
  }

  /** One write under the fence: what it advances the record to, from where, and where the request
      goes on if it was advanced, if only its own lease had lapsed, or if it was refused otherwise. */
  datatype Write = Write(
    to: E.ExecutionState, gate: set<E.ExecutionState>, effect: Option<bool>, ok: PC, lapsed: PC, refused: PC)

  predicate Writes(pc: PC) {
    || pc.WriteReconciled? || pc.WriteStale? || pc.WriteChecked? || pc.WriteRequested?
    || pc.WriteRewind? || pc.WriteMutated? || pc.WriteMutatedAgain?
  }

  function WriteOf(w: Worker): Write
    requires Writes(w.pc)
  {
    var fenced := Done(Refused(Fenced));
    match w.pc
    case WriteReconciled =>
      Write(E.Mutated, PRE_MUTATION_STATES, Some(EffectPredates(w)),
            Done(Reconciled(EffectPredates(w))), fenced, fenced)
    case WriteStale =>
      var stale := Done(Refused(StaleEvidence));
      Write(E.Stale, PRE_MUTATION_STATES, None, stale, stale, stale)
    case WriteChecked => Write(E.PreconditionChecked, PRE_MUTATION_STATES, None, Recheck, fenced, fenced)
    case WriteRequested => Write(E.MutationRequested, {E.PreconditionChecked}, None, Send, fenced, fenced)
    case WriteRewind =>
      var kept := Done(Refused(ConcurrentModification(false)));
      Write(E.PreconditionChecked, {E.MutationRequested}, None,
            Releasing(Refused(ConcurrentModification(true))), kept, kept)
    case WriteMutated =>
      Write(E.Mutated, {E.MutationRequested}, None, Done(Mutation(true)), Reacquire, Done(Mutation(false)))
    case WriteMutatedAgain =>
      Write(E.Mutated, {E.MutationRequested}, None, Done(Mutation(true)), Done(Mutation(false)), Done(Mutation(false)))
  }

  function Advance(s: World, w: Worker, u: Write, now: int): (E.Outcome, E.Records) {
    E.Advance(s.executions, w.exec, u.to, w.owner, w.epoch, Some(u.gate), u.effect, now)
  }

  function AfterWrite(u: Write, outcome: E.Outcome): PC {
    if outcome == E.Advanced then u.ok else if outcome == E.LeaseLost then u.lapsed else u.refused
  }

  function Writing(s: World, w: Worker, now: int): (t: World)
    requires w.id < |s.workers| && Writes(w.pc)
    ensures OnlyOwn(s, w.id, t)
  {
    var a := Advance(s, w, WriteOf(w), now);
    With(s, w.(pc := AfterWrite(WriteOf(w), a.0))).(executions := a.1)
  }

  function AfterReclaim(w: Worker, outcome: E.Outcome, r: E.Record): Worker {
    if outcome in {E.Acquired, E.Recovered} then w.(pc := WriteMutatedAgain, epoch := r.epoch)
    else w.(pc := Done(Mutation(false)))
  }

  function Reacquiring(s: World, w: Worker, now: int): (t: World)
    requires w.id < |s.workers|
    ensures OnlyOwn(s, w.id, t)
  {
    var a := Try(s, w, now);
    With(s, AfterReclaim(w, a.0, a.1)).(executions := a.2)
  }

  function Answered(w: Worker, answer: Answer): Worker {
    match answer
    case Conflict409 => w.(pc := WriteRewind)
    case Accepted => w.(pc := WriteMutated)
    case Unclear => w.(pc := Releasing(Refused(OutcomeUnknown)))
    case Lost => w.(pc := Crashed)
  }

  function GivingBack(s: World, w: Worker, now: int): (t: World)
    requires w.id < |s.workers| && w.pc.Releasing?
    ensures OnlyOwn(s, w.id, t)
  {
    With(s, w.(pc := Done(w.pc.reply))).(executions := E.Release(s.executions, w.exec, w.owner, w.epoch, now).1)
  }

  function ApprovalOf(s: World, d: Decision): Option<R.Approval> {
    if d.approvalId in s.approvals then Some(s.approvals[d.approvalId]) else None
  }

  function Checking(c: Config, s: World, w: Worker, now: int): Worker {
    var approval := ApprovalOf(s, w.decision);
    match Validate(c, w.decision, w.key.0, Some(w.status), approval, now)
    case Some(refusal) => w.(pc := Done(Refused(Invalid(refusal))))
    case None =>
      w.(pc := Bind, approval := approval, checkedAt := now,
         exec := ExecutionOf(c, w.decision, w.key), fingerprint := FingerprintOf(c, w.decision, w.key.0))
  }

  /** Steps that only read, or send the PUT: they change nothing but the request itself. */
  predicate Private(pc: PC) {
    pc.ReadDecision? || pc.ReadIncident? || pc.Check? || pc.Recheck? || pc.ReadSnapshot? || pc.Send? || pc.Await?
  }

  function Privately(c: Config, s: World, w: Worker, x: Input): (v: Worker)
    requires Private(w.pc)
    ensures v.id == w.id && v.key == w.key && v.owner == w.owner
  {
    match w.pc
    case ReadDecision =>
      if w.key in s.decisions then w.(pc := ReadIncident, decision := s.decisions[w.key])
      else w.(pc := Done(Refused(DecisionMissing)))
    case ReadIncident =>
      if w.key.0 in s.incidents then w.(pc := Check, status := s.incidents[w.key.0])
      else w.(pc := Done(Refused(IncidentMissing)))
    case Check => Checking(c, s, w, x.now)
    case Recheck =>
      if w.key.0 !in s.incidents then w.(pc := Crashed)
      else if s.incidents[w.key.0] in CLOSED then w.(pc := Releasing(Refused(ClosedMidFlight)))
      else w.(pc := ReadSnapshot)
    case ReadSnapshot =>
      if w.decision.targetRef !in s.services then w.(pc := Crashed)
      else w.(pc := WriteRequested, snapshot := s.services[w.decision.targetRef].live)
    case Send => if Body(w).Ok? then w.(pc := Await, put := InFlight) else w.(pc := Crashed)
    case Await => Answered(w, x.answer)
  }

  /** The next step of request `w`. An exception ends it as a crash does, keeping its lease. */
  function Work(c: Config, s: World, w: Worker, x: Input): (t: World)
    requires w.id < |s.workers|
    ensures OnlyOwn(s, w.id, t)
  {
    if Private(w.pc) then With(s, Privately(c, s, w, x))
    else if Writes(w.pc) then Writing(s, w, x.now)
    else match w.pc
      case Bind => Binding(s, w)
      case Acquire => Acquiring(s, w, x.now)
      case Look => Looking(s, w, x)
      case Reacquire => Reacquiring(s, w, x.now)
      case Releasing(_) => GivingBack(s, w, x.now)
      case Done(_) => s
      case Crashed => s
  }

  /** A 409 is only ever the answer to a rejected PUT, an acceptance only to one that was taken; any
      other error, and no answer at all, may follow either or neither. */
  predicate AnswerFits(w: Worker, answer: Answer) {
    match answer
    case Conflict409 => w.put == Rejected
    case Accepted => w.put == Taken
    case Unclear | Lost => true
  }

  // --- the steps of /terminalize ---

  function EvidenceOf(k: Closer): E.Evidence {
    E.Evidence(T.Allocate(k.described.statuses), k.probe.httpStatus, T.ProbedHealthy(k.probe),
               T.ServesExclusively(k.described, k.decision.authorizedTarget))
  }

  function WithCloser(s: World, i: nat, k: Closer): World
    requires i < |s.closers|
  {
    s.(closers := s.closers[i := k])
  }

  /** A VERIFIED record is echoed from its own stored evidence. */
  function Echo(r: E.Record, k: Closer): Receipt {
    var serves := match r.closing
      case None => false
      case Some(e) => e.exclusive || e.allocation == map[k.decision.authorizedTarget := 100];
    Receipt(k.key, true, E.Verified, serves)
  }

  function ReceiptFor(k: Closer, outcome: E.Outcome, seen: Option<E.Record>): Receipt {
    var state := match seen case Some(r) => r.state case None => E.Verified;
    Receipt(k.key, outcome in {E.Advanced, E.AlreadyTerminal}, state, EvidenceOf(k).exclusive)
  }

  function Closure(s: World, k: Closer): (E.Outcome, Option<E.Record>, E.Records) {
    E.Terminalize(s.executions, k.exec, E.Verified, TERMINALIZABLE_STATES, EvidenceOf(k))
  }

  function CloseRecord(s: World, i: nat, k: Closer): World
    requires i < |s.closers|
  {
    var t := Closure(s, k);
    WithCloser(s, i, k.(pc := CDone)).(
      executions := t.2,
      receipts := s.receipts + {ReceiptFor(k, t.0, t.1)},
      closings := if t.0 == E.Advanced then s.closings + {Closing(k.exec, k.key, k.described, k.probe)} else s.closings)
  }

  function Attend(c: Config, s: World, k: Closer, x: Input): Closer
    requires !k.pc.CClose?
  {
    match k.pc
    case CReadDecision =>
      if k.key in s.decisions then k.(pc := CCheck, decision := s.decisions[k.key]) else k.(pc := CDone)
    case CCheck =>
      if Validate(c, k.decision, k.key.0, None, ApprovalOf(s, k.decision), x.now).Some? then k.(pc := CDone)
      else k.(pc := CGet, exec := ExecutionOf(c, k.decision, k.key))
    case CGet =>
      if k.exec in s.executions && s.executions[k.exec].state in TERMINALIZABLE_STATES then k.(pc := CLook)
      else k.(pc := CDone)
    case CLook =>
      var looked := k.(described := x.described, probe := x.live);
      if EvidenceOf(looked).exclusive && EvidenceOf(looked).httpHealthy then looked.(pc := CClose)
      else looked.(pc := CDone)
    case CDone => k
  }

  function Echoes(s: World, k: Closer): set<Receipt> {
    if k.pc.CGet? && k.exec in s.executions && s.executions[k.exec].state == E.Verified
    then {Echo(s.executions[k.exec], k)} else {}
  }

  function Close(c: Config, s: World, i: nat, x: Input): World
    requires i < |s.closers|
  {
    var k := s.closers[i];
    if k.pc.CClose? then CloseRecord(s, i, k)
    else WithCloser(s, i, Attend(c, s, k, x)).(receipts := s.receipts + Echoes(s, k))
  }

  // --- everything that can happen ---

  datatype Action =
    | Arrive(key: Key, owner: string)
    | Proceed(worker: nat, input: Input)
    | Crash(worker: nat)
    | ServerTakes(worker: nat, live: C.Doc)
    | ServerRejects(worker: nat)
    | ArriveToClose(key: Key)
    | ProceedToClose(closer: nat, input: Input)
    | Resolve(key: Key, verdict: VerifierVerdict, receipt: Receipt)
    | OperatorEdits(target: string, doc: C.Doc)
    | OpenIncident(incident: string)
    | MoveIncident(incident: string, to: Status)
    | SaveDecision(key: Key, decision: Decision)
    | ReviseDecision(key: Key, revoked: bool, approvalId: string)
    | RequestApproval(approval: string, fingerprint: string, expiresAt: int)
    | RuleOnApproval(approval: string, state: string, approver: string, decidedAt: int, now: int)

  /** A write the server accepts leaves a version it has never used for this service. */
  predicate NewVersion(s: World, target: string, doc: C.Doc) {
    && C.ResourceVersion(doc) != ""
    && (target in s.services ==> C.ResourceVersion(doc) !in s.services[target].spent)
  }

  ghost predicate Enabled(c: Config, s: World, a: Action) {
    match a
    case Arrive(_, _) => true
    case Proceed(i, x) => i < |s.workers| && (s.workers[i].pc == Await ==> AnswerFits(s.workers[i], x.answer))
    case Crash(i) => i < |s.workers|
    case ServerTakes(i, live) =>
      && i < |s.workers| && s.workers[i].put == InFlight && Body(s.workers[i]).Ok?
      && var target := s.workers[i].decision.targetRef;
         && target in s.services && NewVersion(s, target, live)
         && C.ResourceVersion(Body(s.workers[i]).value) == C.ResourceVersion(s.services[target].live)
         && C.Honours(live, Body(s.workers[i]).value)
    case ServerRejects(i) => i < |s.workers| && s.workers[i].put == InFlight
    case ArriveToClose(_) => true
    case ProceedToClose(i, _) => i < |s.closers|
    case Resolve(key, verdict, receipt) =>
      && Recovered(verdict) && receipt in s.receipts && receipt.key == key && Terminal(receipt)
      && key.0 in s.incidents && CanTransition(s.incidents[key.0], Resolved)
    case OperatorEdits(target, doc) => NewVersion(s, target, doc)
    case OpenIncident(incident) => incident !in s.incidents
    case MoveIncident(incident, to) =>
      incident in s.incidents && CanTransition(s.incidents[incident], to) && to != Resolved
    case SaveDecision(key, _) => key !in s.decisions
    case ReviseDecision(key, _, _) => key in s.decisions
    case RequestApproval(approval, _, _) => approval !in s.approvals
    case RuleOnApproval(approval, _, _, _, _) => approval in s.approvals
  }

  function Written(s: World, target: string, doc: C.Doc): World {
    s.(services := s.services[target := Service(doc,
        (if target in s.services then s.services[target].spent else {}) + {C.ResourceVersion(doc)})])
  }

  function TakenBy(s: World, w: Worker, live: C.Doc): World
    requires w.id < |s.workers| && w.decision.targetRef in s.services
  {
    var entry := Applied(w.id, w.exec, w.fingerprint, w.key, w.decision, w.approval, w.checkedAt,
                         s.services[w.decision.targetRef].live, live);
    With(Written(s, w.decision.targetRef, live), w.(put := Taken)).(applied := s.applied + [entry])
  }

  ghost function Step(c: Config, s: World, a: Action): World
    requires Enabled(c, s, a) && WellNumbered(s)
  {
    match a
    case Arrive(key, owner) => s.(workers := s.workers + [NewWorker(|s.workers|, key, owner)])
    case Proceed(i, x) => Work(c, s, s.workers[i], x)
    case Crash(i) => With(s, s.workers[i].(pc := Crashed))
    case ServerTakes(i, live) => TakenBy(s, s.workers[i], live)
    case ServerRejects(i) => With(s, s.workers[i].(put := Rejected))
    case ArriveToClose(key) => s.(closers := s.closers + [NewCloser(key)])
    case ProceedToClose(i, x) => Close(c, s, i, x)
    case Resolve(key, _, _) =>
      s.(incidents := s.incidents[key.0 := Resolved], closedOn := s.closedOn[key.0 := key])
    case OperatorEdits(target, doc) => Written(s, target, doc)
    case OpenIncident(incident) => s.(incidents := s.incidents[incident := Intake])
    case MoveIncident(incident, to) => s.(incidents := s.incidents[incident := to])
    case SaveDecision(key, d) => s.(decisions := s.decisions[key := d])
    case ReviseDecision(key, revoked, approvalId) =>
      s.(decisions := s.decisions[key := s.decisions[key].(revoked := revoked, approvalId := approvalId)])
    case RequestApproval(id, fingerprint, expiresAt) =>
      s.(approvals := s.approvals[id := R.Approval(R.PENDING, fingerprint, expiresAt, None, None)])
    case RuleOnApproval(id, state, approver, decidedAt, now) =>
      s.(approvals := s.approvals[id := R.Ruled(s.approvals[id], state, approver, decidedAt, now).1])
  }

  predicate WellNumbered(s: World) {
    forall i :: 0 <= i < |s.workers| ==> s.workers[i].id == i
  }

  ghost predicate Next(c: Config, s: World, a: Action, t: World) {
    WellNumbered(s) && Enabled(c, s, a) && t == Step(c, s, a)
  }

  ghost predicate NextAt(c: Config, worlds: seq<World>, actions: seq<Action>, i: nat)
    requires i < |actions| && i + 1 < |worlds|
  {
    Next(c, worlds[i], actions[i], worlds[i + 1])
  }

  ghost predicate Path(c: Config, worlds: seq<World>, actions: seq<Action>) {
    |worlds| == |actions| + 1 && forall i :: 0 <= i < |actions| ==> NextAt(c, worlds, actions, i)
  }

  /** `actions`, one after the other, lead from `s` to `t`. */
  ghost predicate Run(c: Config, s: World, actions: seq<Action>, t: World) {
    exists worlds :: Path(c, worlds, actions) && worlds[0] == s && worlds[|actions|] == t
  }

  ghost predicate Reachable(c: Config, s: World) {
    exists actions :: Run(c, GENESIS, actions, s)
  }
}
