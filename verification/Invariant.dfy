/**
 The inductive invariant of the execution protocol, and its preservation by
 every action.
 */
module Invariant {
  import opened Prelude
  import opened Lifecycle
  import opened Authority
  import opened Protocol
  import C = CloudRun
  import E = Execution
  import R = Repository
  import T = Traffic

  // --- how far a request has got ---

  function Rank(pc: PC): nat {
    match pc
    case ReadDecision => 0
    case ReadIncident => 1
    case Check => 2
    case Bind => 3
    case Acquire => 4
    case Done(_) => 0
    case Crashed => 0
    case _ => 5
  }

  /** It knows what rank `n` establishes; a request whose PUT is out keeps knowing it when it ends. */
  predicate Knows(w: Worker, n: nat) {
    Rank(w.pc) >= n || w.put != NoPut
  }

  /** It was granted its epoch and may still write. */
  predicate Holds(w: Worker) {
    Rank(w.pc) == 5
  }

  /** It has written MUTATION_REQUESTED, and its PUT was or may yet be applied, or its own 409 is not
      yet wound back. */
  predicate Engaged(w: Worker) {
    w.put == InFlight || w.put == Taken || w.pc.Send? || w.pc.Await? || w.pc.WriteRewind?
  }

  /** The record rules out that a PUT of the execution is out. */
  predicate Unattempted(r: E.Record) {
    r.state !in {E.MutationRequested, E.Mutated, E.Verified} || r.effectPredates
  }

  /** It has looked at most, and written nothing. */
  predicate Unwritten(pc: PC) {
    pc.Look? || pc.WriteReconciled? || pc.WriteStale? || pc.WriteChecked?
  }

  predicate HasChecked(pc: PC) {
    pc.Recheck? || pc.ReadSnapshot? || pc.WriteRequested?
  }

  predicate HasRequested(pc: PC) {
    pc.Send? || pc.Await? || pc.WriteRewind? || pc.WriteMutated?
  }

  /** What the current holder believes about an unfinished record is so. */
  predicate Agrees(w: Worker, r: E.Record) {
    && (Unwritten(w.pc) ==> r.state == w.record.state && r.effectPredates == w.record.effectPredates)
    && (HasChecked(w.pc) ==> r.state == E.PreconditionChecked)
    && (HasRequested(w.pc) ==> r.state == E.MutationRequested)
  }

  predicate Fits(w: Worker, r: E.Record) {
    && (Holds(w) ==> 1 <= w.epoch <= r.epoch)
    && (Holds(w) && w.epoch == r.epoch && !E.Finished(r) ==> Agrees(w, r))
    && (Engaged(w) ==> r.state in {E.MutationRequested, E.Mutated, E.Verified} && !r.effectPredates)
  }

  /** A PUT of its own may lie behind it. */
  predicate MayHavePut(pc: PC) {
    || pc.Await? || pc.WriteRewind? || pc.WriteMutated? || pc.Reacquire? || pc.WriteMutatedAgain?
    || pc.Releasing? || pc.Done? || pc.Crashed?
  }

  /** A refusal other than OUTCOME_UNKNOWN is given by a request whose PUT was rejected or never sent. */
  predicate Excuses(reply: Reply, put: PutStatus) {
    && reply.Refused?
    && (reply.reason.ConcurrentModification? ==> put == Rejected)
    && (!reply.reason.ConcurrentModification? && !reply.reason.OutcomeUnknown? ==> put == NoPut)
  }

  /** What the control flow itself guarantees at each point. */
  predicate Flow(w: Worker) {
    && (w.pc.WriteStale? || w.pc.WriteChecked? ==> w.record.state !in ATTEMPTED_STATES)
    && (!MayHavePut(w.pc) ==> w.put == NoPut)
    && (w.pc.Await? ==> w.put != NoPut)
    && (w.pc.Releasing? ==> Excuses(w.pc.reply, w.put))
    && (w.pc.WriteRewind? ==> w.put == Rejected)
    && (w.pc.WriteMutated? || w.pc.Reacquire? || w.pc.WriteMutatedAgain? ==> w.put == Taken)
  }

  /** Its snapshot still matters. */
  predicate Armed(w: Worker) {
    w.pc.WriteRequested? || w.pc.Send? || w.put == InFlight
  }

  predicate SameDecision(s: World, key: Key, d: Decision) {
    key in s.decisions && SameCore(d, s.decisions[key])
  }

  ghost predicate SnapshotOk(s: World, w: Worker) {
    var target := w.decision.targetRef;
    var version := C.ResourceVersion(w.snapshot);
    && target in s.services
    && version in s.services[target].spent
    && (version == C.ResourceVersion(s.services[target].live) ==> w.snapshot == s.services[target].live)
  }

  predicate WasTaken(s: World, w: Worker) {
    exists p :: 0 <= p < |s.applied| && s.applied[p].worker == w.id && s.applied[p].exec == w.exec
  }

  predicate WasSighted(c: Config, s: World, exec: string) {
    exists x <- s.sighted :: x.exec == exec
  }

  /** It is past the observation, on the way to the mutation or behind it. */
  predicate Commits(w: Worker) {
    w.pc.WriteChecked? || HasChecked(w.pc) || w.pc.Send? || w.put != NoPut
  }

  predicate WasCleared(s: World, worker: nat, d: Decision) {
    exists x <- s.cleared :: x.worker == worker && x.decision == d
  }

  predicate Warranted(c: Config, w: Worker) {
    && Sanctioned(c, w.decision, w.key.0, w.approval, w.checkedAt)
    && w.exec == ExecutionOf(c, w.decision, w.key)
    && w.fingerprint == FingerprintOf(c, w.decision, w.key.0)
  }

  /** An approval that was seen approved is still what the store says. */
  predicate Backed(s: World, d: Decision, approval: Option<R.Approval>) {
    approval.Some? && approval.value.state == R.APPROVED ==>
      d.approvalId in s.approvals && s.approvals[d.approvalId] == approval.value
  }

  ghost predicate WorkerOk(c: Config, s: World, w: Worker) {
    && Flow(w)
    && (Knows(w, 1) ==> SameDecision(s, w.key, w.decision))
    && (Knows(w, 3) ==> Warranted(c, w) && Backed(s, w.decision, w.approval))
    && (Knows(w, 4) ==> w.fingerprint in s.bindings && s.bindings[w.fingerprint].executionId == w.exec)
    && (Knows(w, 5) ==> w.exec in s.executions && Fits(w, s.executions[w.exec]))
    && (w.pc.WriteReconciled? ==> WasSighted(c, s, w.exec))
    && (Armed(w) ==> SnapshotOk(s, w))
    && (w.put == Taken ==> WasTaken(s, w))
    && (Commits(w) ==> WasCleared(s, w.id, w.decision))
  }

  ghost predicate WorkersOk(c: Config, s: World) {
    forall i :: 0 <= i < |s.workers| ==> s.workers[i].id == i && WorkerOk(c, s, s.workers[i])
  }

  /** No two requests on one execution hold the same epoch, and no two are engaged. */
  predicate Compatible(v: Worker, w: Worker) {
    v.exec == w.exec ==>
      && (Holds(v) && Holds(w) ==> v.epoch != w.epoch)
      && !(Engaged(v) && Engaged(w))
  }

  ghost predicate PairsOk(s: World) {
    forall i, j :: 0 <= i < j < |s.workers| ==> Compatible(s.workers[i], s.workers[j])
  }

  predicate WasApplied(s: World, exec: string) {
    exists p :: 0 <= p < |s.applied| && s.applied[p].exec == exec
  }

  predicate WasClosed(s: World, exec: string) {
    exists x <- s.closings :: x.exec == exec
  }

  /** The record belongs to a stored, executable decision, whose fingerprint is bound to it. */
  predicate Rooted(c: Config, s: World, exec: string, r: E.Record) {
    var key := (r.claim.incidentId, r.claim.decisionId);
    && key in s.decisions
    && Executable(c, s.decisions[key], key.0)
    && ExecutionOf(c, s.decisions[key], key) == exec
    && FingerprintOf(c, s.decisions[key], key.0) in s.bindings
    && s.bindings[FingerprintOf(c, s.decisions[key], key.0)].executionId == exec
  }

  predicate RecordOk(c: Config, s: World, exec: string, r: E.Record) {
    && r.epoch >= 1
    && r.state != E.Failed
    && (r.effectPredates ==> r.state in {E.Mutated, E.Verified})
    && (E.Finished(r) <==> r.expires.None?)
    && Rooted(c, s, exec, r)
    && (r.state in {E.Mutated, E.Verified} ==> WasApplied(s, exec) || WasSighted(c, s, exec))
    && (r.state == E.Verified ==> WasClosed(s, exec) && r.closing.Some? && r.closing.value.exclusive)
  }

  predicate RecordsOk(c: Config, s: World) {
    forall exec <- s.executions :: RecordOk(c, s, exec, s.executions[exec])
  }

  /** Everything an applied PUT rests on. */
  ghost predicate Lawful(c: Config, s: World, a: Applied) {
    && a.worker < |s.workers|
    && s.workers[a.worker].put == Taken && s.workers[a.worker].exec == a.exec
    && Sanctioned(c, a.decision, a.key.0, a.approval, a.checkedAt)
    && SameDecision(s, a.key, a.decision) && Backed(s, a.decision, a.approval)
    && a.exec == ExecutionOf(c, a.decision, a.key)
    && a.fingerprint == FingerprintOf(c, a.decision, a.key.0)
    && a.fingerprint in s.bindings && s.bindings[a.fingerprint].executionId == a.exec
    && C.OnlyTrafficChanged(a.before, a.after, TargetRevision(a.decision))
    && WasCleared(s, a.worker, a.decision)
  }

  ghost predicate AppliedOk(c: Config, s: World) {
    && (forall p :: 0 <= p < |s.applied| ==> Lawful(c, s, s.applied[p]))
    && (forall p, q :: 0 <= p < q < |s.applied| ==> s.applied[p].worker != s.applied[q].worker)
  }

  predicate ServicesOk(s: World) {
    forall target <- s.services ::
      && C.ResourceVersion(s.services[target].live) in s.services[target].spent
      && C.ResourceVersion(s.services[target].live) != ""
  }

  // --- the closing side ---

  predicate CloserOk(c: Config, s: World, k: Closer) {
    && (!k.pc.CReadDecision? && !k.pc.CDone? ==> SameDecision(s, k.key, k.decision))
    && (k.pc.CGet? || k.pc.CLook? || k.pc.CClose? ==> k.exec == ExecutionOf(c, k.decision, k.key))
    && (k.pc.CClose? ==>
          T.ServesExclusively(k.described, k.decision.authorizedTarget) && T.ProbedHealthy(k.probe))
  }

  predicate ClosersOk(c: Config, s: World) {
    forall i :: 0 <= i < |s.closers| ==> CloserOk(c, s, s.closers[i])
  }

  /** The execution of a stored decision is VERIFIED. */
  predicate ExecutionVerified(c: Config, s: World, key: Key) {
    && key in s.decisions
    && var exec := ExecutionOf(c, s.decisions[key], key);
       exec in s.executions && s.executions[exec].state == E.Verified
  }

  predicate ReceiptsOk(c: Config, s: World) {
    forall r <- s.receipts :: Terminal(r) ==> ExecutionVerified(c, s, r.key)
  }

  predicate ResolvedOk(c: Config, s: World) {
    forall incident <- s.incidents :: s.incidents[incident] == Resolved ==>
      && incident in s.closedOn && s.closedOn[incident].0 == incident
      && ExecutionVerified(c, s, s.closedOn[incident])
  }

  predicate SightingsOk(c: Config, s: World) {
    forall x <- s.sighted ::
      && x.key in s.decisions && ExecutionOf(c, s.decisions[x.key], x.key) == x.exec
      && T.Active(x.described) == s.decisions[x.key].authorizedTarget
      && s.decisions[x.key].authorizedTarget != ""
  }

  predicate ClearancesOk(s: World) {
    forall x <- s.cleared :: Clears(x.decision, x.described, x.probed)
  }

  predicate ClosingsOk(c: Config, s: World) {
    forall x <- s.closings ::
      && x.key in s.decisions && ExecutionOf(c, s.decisions[x.key], x.key) == x.exec
      && T.ServesExclusively(x.described, s.decisions[x.key].authorizedTarget)
      && T.ProbedHealthy(x.probe)
  }

  ghost predicate Inv(c: Config, s: World) {
    && WorkersOk(c, s) && PairsOk(s) && RecordsOk(c, s) && AppliedOk(c, s) && ServicesOk(s)
    && ClosersOk(c, s) && ReceiptsOk(c, s) && ResolvedOk(c, s) && SightingsOk(c, s) && ClosingsOk(c, s)
    && ClearancesOk(s)
  }

  // --- what later worlds keep ---

  /** Nothing that was known is withdrawn: decisions keep their core, bindings and rulings stand, histories grow. */
  predicate Grows(s: World, t: World) {
    && (forall key <- s.decisions :: SameDecision(t, key, s.decisions[key]))
    && (forall f <- s.bindings :: f in t.bindings && t.bindings[f] == s.bindings[f])
    && (forall id <- s.approvals :: s.approvals[id].state != R.PENDING ==>
          id in t.approvals && t.approvals[id] == s.approvals[id])
    && s.applied <= t.applied && s.sighted <= t.sighted && s.closings <= t.closings && s.cleared <= t.cleared
    && (forall exec <- s.executions :: exec in t.executions)
  }

  /** `w`, not itself stepping, is not disturbed by what happens to its record. */
  predicate Undisturbed(w: Worker, r: E.Record, after: E.Record) {
    && r.epoch <= after.epoch
    && (Holds(w) && w.epoch == after.epoch && !E.Finished(after) ==>
          after.state == r.state && after.effectPredates == r.effectPredates && !E.Finished(r))
    && (Engaged(w) ==> after.state in {E.MutationRequested, E.Mutated, E.Verified} && !after.effectPredates)
  }

  ghost predicate Spared(s: World, t: World, w: Worker) {
    Knows(w, 5) && w.exec in s.executions ==>
      w.exec in t.executions && Undisturbed(w, s.executions[w.exec], t.executions[w.exec])
  }

  lemma SameCoreIsTransitive(d: Decision, e: Decision, f: Decision)
    requires SameCore(d, e) && SameCore(e, f)
    ensures SameCore(d, f)
  {
  }

  lemma WorkerStays(c: Config, s: World, t: World, w: Worker)
    requires WorkerOk(c, s, w) && Grows(s, t) && Spared(s, t, w)
    requires Armed(w) ==> SnapshotOk(t, w)
    ensures WorkerOk(c, t, w)
  {
    if Knows(w, 1) {
      SameCoreIsTransitive(w.decision, s.decisions[w.key], t.decisions[w.key]);
    }
    if w.put == Taken {
      var p :| 0 <= p < |s.applied| && s.applied[p].worker == w.id && s.applied[p].exec == w.exec;
      assert t.applied[p] == s.applied[p];
    }
  }

  lemma RecordStays(c: Config, s: World, t: World, exec: string)
    requires exec in s.executions && exec in t.executions && t.executions[exec] == s.executions[exec]
    requires RecordOk(c, s, exec, s.executions[exec]) && Grows(s, t)
    ensures RecordOk(c, t, exec, t.executions[exec])
  {
    HistoriesStay(c, s, t, exec, s.executions[exec]);
  }

  lemma HistoriesStay(c: Config, s: World, t: World, exec: string, r: E.Record)
    requires Grows(s, t)
    ensures Rooted(c, s, exec, r) ==> Rooted(c, t, exec, r)
    ensures WasApplied(s, exec) ==> WasApplied(t, exec)
    ensures WasSighted(c, s, exec) ==> WasSighted(c, t, exec)
    ensures WasClosed(s, exec) ==> WasClosed(t, exec)
  {
    if WasApplied(s, exec) {
      var p :| 0 <= p < |s.applied| && s.applied[p].exec == exec;
      assert t.applied[p] == s.applied[p];
    }
    var key := (r.claim.incidentId, r.claim.decisionId);
    if key in s.decisions {
      assert SameDecision(t, key, s.decisions[key]);
    }
  }
}
