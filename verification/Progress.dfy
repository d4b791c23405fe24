/**
 What one undisturbed request achieves: an interrupted execution whose revision is
 live is recovered and closed, and an authorized shift that nothing prevents is
 carried out.
 */
module Progress {
  import opened Prelude
  import opened Lifecycle
  import opened Authority
  import opened Protocol
  import opened Invariant
  import opened Runs
  import opened Traces
  import opened Safety
  import opened Theorems
  import Repository
  import C = CloudRun
  import E = Execution
  import T = Traffic

  // --- up to the claim ---

  predicate Admitted(c: Config, s: World, key: Key, now: int) {
    && key in s.decisions && key.0 in s.incidents
    && Validate(c, s.decisions[key], key.0, Some(s.incidents[key.0]), ApprovalOf(s, s.decisions[key]), now) == None
  }

  /** The fingerprint is nobody's yet, or this execution's. */
  predicate Bindable(c: Config, s: World, key: Key)
    requires key in s.decisions
  {
    var fingerprint := FingerprintOf(c, s.decisions[key], key.0);
    fingerprint in s.bindings ==> s.bindings[fingerprint].executionId == ExecutionOf(c, s.decisions[key], key)
  }

  /** Nobody holds the execution by the clock `now`. */
  predicate Claimable(s: World, exec: string, now: int) {
    exec in s.executions ==> !E.Finished(s.executions[exec]) && !E.Live(s.executions[exec], now)
  }

  /** A request that validates at one clock reading and claims at another can get as far as claiming. */
  predicate Open(c: Config, s: World, key: Key, checked: int, claimed: int) {
    && Admitted(c, s, key, checked) && Bindable(c, s, key)
    && Claimable(s, ExecutionOf(c, s.decisions[key], key), claimed)
  }

  // In what follows `at(i)` is what step `i` of the request takes from outside, its own clock included:
  // 2 is the validation, 4 the claim, 5 the observation, 6 the first write, 9 the record of the intent,
  // 11 the answer, 12 the record of the mutation and, if that comes too late, 13 the second claim and 14
  // the record under it.

  lemma AdmissionGoes(c: Config, s: World, key: Key, owner: string, at: nat -> Input)
    returns (run: seq<Action>, t: World, w: Worker)
    requires WellNumbered(s) && Admitted(c, s, key, at(2).now)
    ensures Trace(c, s, at, run, t, w) && Steps(run) == 3 && t == s.(workers := t.workers)
    ensures w.pc.Bind? && w.put == NoPut && w.id == |s.workers|
    ensures w.key == key && w.owner == owner && w.decision == s.decisions[key]
    ensures w.exec == ExecutionOf(c, w.decision, key) && w.fingerprint == FingerprintOf(c, w.decision, key.0)
  {
    run, t, w := ArrivalGoes(c, s, at, key, owner);
    run, t, w := DecisionGoes(c, s, at, run, t, w);
    run, t, w := ValidationGoes(c, s, at, run, t, w, None);
  }

  /** The request holds the record's lease by the clock `now`, and knows what the record says. */
  predicate Holding(w: Worker, r: E.Record, now: int) {
    E.Owns(r, w.owner, w.epoch) && r.expires == Some(now + E.LEASE_SECONDS) && w.record == r
  }

  /** What a claim makes of the record, or of none. */
  predicate ClaimedFrom(s: World, exec: string, r: E.Record) {
    if exec in s.executions
    then r == s.executions[exec].(owner := r.owner, epoch := s.executions[exec].epoch + 1, expires := r.expires,
                                  recoveries := s.executions[exec].recoveries + 1)
    else r.state == E.Claimed && r.epoch == 1 && !r.effectPredates
  }

  lemma ClaimHolds(s: World, w: Worker, now: int)
    requires Claimable(s, w.exec, now)
    ensures var a := Try(s, w, now);
            && a.0 in {E.Acquired, E.Recovered} && a.2 == s.executions[w.exec := a.1]
            && ClaimedFrom(s, w.exec, a.1) && Holding(AfterClaim(w, a.0, a.1), a.1, now)
  {
  }

  lemma BoundGoes(c: Config, s: World, key: Key, owner: string, at: nat -> Input)
    returns (run: seq<Action>, t: World, w: Worker)
    requires WellNumbered(s) && Admitted(c, s, key, at(2).now) && Bindable(c, s, key)
    ensures Trace(c, s, at, run, t, w) && Steps(run) == 4
    ensures t == s.(workers := t.workers, bindings := t.bindings)
    ensures w.pc.Acquire? && w.put == NoPut && w.id == |s.workers|
    ensures w.key == key && w.owner == owner && w.decision == s.decisions[key]
    ensures w.exec == ExecutionOf(c, w.decision, key)
  {
    run, t, w := AdmissionGoes(c, s, key, owner, at);
    run, t, w := BindingGoes(c, s, at, run, t, w);
  }

  /** The claim, and all that leads to it: beyond the request itself only its record has changed, and a
      binding may have been added. */
  lemma ClaimGoes(c: Config, s: World, key: Key, owner: string, at: nat -> Input)
    returns (run: seq<Action>, t: World, w: Worker)
    requires WellNumbered(s) && Open(c, s, key, at(2).now, at(4).now)
    ensures Trace(c, s, at, run, t, w) && Steps(run) == 5
    ensures w.id == |s.workers| && w.key == key && w.owner == owner
    ensures t == s.(workers := t.workers, bindings := t.bindings, executions := s.executions[w.exec := w.record])
    ensures w.pc.Look? && w.put == NoPut && w.decision == s.decisions[key] && w.exec == ExecutionOf(c, w.decision, key)
    ensures ClaimedFrom(s, w.exec, w.record) && Holding(w, w.record, at(4).now)
  {
    run, t, w := BoundGoes(c, s, key, owner, at);
    ClaimHolds(t, w, at(4).now);
    run, t, w := AcquiringGoes(c, s, at, run, t, w);
  }

  /** A holder whose lease has not run out passes the fence. */
  lemma HolderPasses(t: World, w: Worker, r: E.Record, now: int)
    requires w.exec in t.executions && t.executions[w.exec] == r && Writes(w.pc)
    requires E.Owns(r, w.owner, w.epoch) && E.Live(r, now) && !E.Finished(r) && r.state in WriteOf(w).gate
    ensures var a := Advance(t, w, WriteOf(w), now);
            a == (E.Advanced, t.executions[w.exec := E.Progressed(r, WriteOf(w).to, WriteOf(w).effect)])
  {
  }

  // --- recovery ---

  /** The record after a reconciliation under the next epoch. */
  predicate ReconciledFrom(r: E.Record, t: E.Record) {
    && t.state == E.Mutated && t.claim == r.claim && t.epoch == r.epoch + 1
    && t.effectPredates == (r.effectPredates || r.state !in ATTEMPTED_STATES)
  }

  /** Only one record of the stores has moved, and nothing was applied. */
  predicate OnlyRecordMoved(s: World, t: World, exec: string) {
    && exec in t.executions && t.executions == s.executions[exec := t.executions[exec]]
    && t.applied == s.applied && t.services == s.services
    && t.decisions == s.decisions && t.approvals == s.approvals && t.incidents == s.incidents
  }

  lemma UnfinishedMayReconcile(r: E.Record)
    requires !E.Finished(r)
    ensures r.state in PRE_MUTATION_STATES
  {
    match r.state
    case Claimed =>
    case _ =>
  }

  lemma SightingGoes(c: Config, s: World, key: Key, owner: string, at: nat -> Input)
    returns (run: seq<Action>, t: World, w: Worker)
    requires WellNumbered(s) && Open(c, s, key, at(2).now, at(4).now)
    requires T.Active(at(5).described) == s.decisions[key].authorizedTarget
    ensures Trace(c, s, at, run, t, w) && Steps(run) == 6
    ensures w.id == |s.workers| && w.key == key && w.owner == owner
    ensures t == s.(workers := t.workers, bindings := t.bindings, sighted := t.sighted, cleared := t.cleared,
                    executions := s.executions[w.exec := w.record])
    ensures w.pc.WriteReconciled? && w.exec == ExecutionOf(c, s.decisions[key], key)
    ensures ClaimedFrom(s, w.exec, w.record) && Holding(w, w.record, at(4).now)
  {
    run, t, w := ClaimGoes(c, s, key, owner, at);
    run, t, w := LookingGoes(c, s, at, run, t, w);
  }

  lemma ReconciliationGoes(c: Config, s: World, key: Key, owner: string, at: nat -> Input)
    returns (run: seq<Action>, t: World, w: Worker)
    requires WellNumbered(s) && Open(c, s, key, at(2).now, at(4).now)
    requires ExecutionOf(c, s.decisions[key], key) in s.executions
    requires T.Active(at(5).described) == s.decisions[key].authorizedTarget
    requires at(6).now < at(4).now + E.LEASE_SECONDS
    ensures Trace(c, s, at, run, t, w) && Steps(run) == 7
    ensures w.id == |s.workers| && w.key == key && w.owner == owner
    ensures var exec := ExecutionOf(c, s.decisions[key], key);
            && OnlyRecordMoved(s, t, exec) && ReconciledFrom(s.executions[exec], t.executions[exec])
            && w.pc == Done(Reconciled(t.executions[exec].effectPredates))
  {
    run, t, w := SightingGoes(c, s, key, owner, at);
    UnfinishedMayReconcile(w.record);
    HolderPasses(t, w, w.record, at(6).now);
    run, t, w := WritingGoes(c, s, at, run, t, w);
  }

  // --- closing ---

  // Here `on(1)` is the validation and `on(3)` the observation of the /terminalize request.

  predicate Closable(c: Config, s: World, key: Key, now: int) {
    && key in s.decisions
    && Validate(c, s.decisions[key], key.0, None, ApprovalOf(s, s.decisions[key]), now) == None
    && ExecutionOf(c, s.decisions[key], key) in s.executions
  }

  /** What /terminalize needs to find in order to close. */
  predicate ReadyToClose(c: Config, s: World, key: Key, on: nat -> Input) {
    && Closable(c, s, key, on(1).now)
    && s.executions[ExecutionOf(c, s.decisions[key], key)].state == E.Mutated
    && Satisfies(s.decisions[key], on(3))
  }

  lemma LookupGoes(c: Config, s: World, key: Key, on: nat -> Input)
    returns (run: seq<Action>, t: World, k: Closer)
    requires WellNumbered(s) && Closable(c, s, key, on(1).now)
    ensures CloserTrace(c, s, on, run, t, |s.closers|, k) && ClosingSteps(run) == 2 && t == s.(closers := t.closers)
    ensures k.pc.CGet? && k.key == key && k.decision == s.decisions[key] && k.exec == ExecutionOf(c, k.decision, key)
  {
    var i := |s.closers|;
    run, t, k := ArrivalToCloseGoes(c, s, on, key);
    run, t, k := ReadingAttends(c, s, on, run, t, i, k);
    run, t, k := CheckingAttends(c, s, on, run, t, i, k, ApprovalOf(s, s.decisions[key]));
  }

  lemma SatisfactionGoes(c: Config, s: World, key: Key, on: nat -> Input)
    returns (run: seq<Action>, t: World, k: Closer)
    requires WellNumbered(s) && ReadyToClose(c, s, key, on)
    ensures CloserTrace(c, s, on, run, t, |s.closers|, k) && t == s.(closers := t.closers)
    ensures k == Closer(CClose, key, s.decisions[key], ExecutionOf(c, s.decisions[key], key),
                        on(3).described, on(3).live)
  {
    run, t, k := LookupGoes(c, s, key, on);
    run, t, k := GettingAttends(c, s, on, run, t, |s.closers|, k);
    run, t, k := LookingAttends(c, s, on, run, t, |s.closers|, k);
  }

  function TerminalReceipt(key: Key): (r: Receipt)
    ensures Terminal(r) && r.key == key
  {
    Receipt(key, true, E.Verified, true)
  }

  lemma ClosingIsTerminal(t: World, i: nat, k: Closer, r: E.Record)
    requires i < |t.closers| && t.closers[i] == k && k.pc.CClose?
    requires k.exec in t.executions && t.executions[k.exec] == r && r.state == E.Mutated
    requires T.ServesExclusively(k.described, k.decision.authorizedTarget)
    ensures var u := CloseRecord(t, i, k);
            && OnlyRecordMoved(t, u, k.exec) && u.executions[k.exec].state == E.Verified
            && u.executions[k.exec].effectPredates == r.effectPredates
            && TerminalReceipt(k.key) in u.receipts
  {
  }

  /** Closing a MUTATED record on a good observation: VERIFIED, and a terminal receipt. */
  lemma ClosingGoesThrough(c: Config, s: World, key: Key, on: nat -> Input) returns (run: seq<Action>, t: World)
    requires WellNumbered(s) && ReadyToClose(c, s, key, on)
    ensures SoloClosing(c, s, on, run, t, key, |s.closers|)
    ensures var exec := ExecutionOf(c, s.decisions[key], key);
            && OnlyRecordMoved(s, t, exec) && t.executions[exec].state == E.Verified
            && t.executions[exec].effectPredates == s.executions[exec].effectPredates
    ensures TerminalReceipt(key) in t.receipts
  {
    var u, k;
    run, u, k := SatisfactionGoes(c, s, key, on);
    CloserTraceMeans(c, s, on, run, u, |s.closers|, k);
    ClosingIsTerminal(u, |s.closers|, k, s.executions[k.exec]);
    run, t := ClosingGoes(c, s, on, run, u, |s.closers|, k);
  }

  /** A VERIFIED execution is closed again as often as anybody asks: the echo of its record is the same
      terminal receipt, and nothing is written. */
  lemma EchoGoesThrough(c: Config, s: World, key: Key, on: nat -> Input) returns (run: seq<Action>, t: World)
    requires Reachable(c, s) && Closable(c, s, key, on(1).now)
    requires s.executions[ExecutionOf(c, s.decisions[key], key)].state == E.Verified
    ensures SoloClosing(c, s, on, run, t, key, |s.closers|)
    ensures t == s.(closers := t.closers, receipts := t.receipts) && TerminalReceipt(key) in t.receipts
  {
    EveryReachableWorldHasInv(c, s);
    InvNumbers(c, s);
    var k;
    run, t, k := LookupGoes(c, s, key, on);
    EchoesAreTerminal(c, s, k);
    run, t, k := EchoingAttends(c, s, on, run, t, |s.closers|, k);
    CloserTraceMeans(c, s, on, run, t, |s.closers|, k);
  }

  /** With a terminal receipt, a recovered verdict and a status that allows it, the incident resolves. */
  lemma ReceiptResolves(c: Config, s: World, key: Key) returns (a: Action)
    requires WellNumbered(s) && TerminalReceipt(key) in s.receipts
    requires key.0 in s.incidents && CanTransition(s.incidents[key.0], Resolved)
    ensures a.Resolve? && a.key == key
    ensures Run(c, s, [a], s.(incidents := s.incidents[key.0 := Resolved], closedOn := s.closedOn[key.0 := key]))
  {
    a := Resolve(key, VerifierVerdict("RECOVERED", true, true, true), TerminalReceipt(key));
    OneStepRuns(c, s, a);
  }

  // --- recovery completes ---

  function KeyOf(r: E.Record): Key {
    (r.claim.incidentId, r.claim.decisionId)
  }

  /** A record left unfinished, its lease lapsed. */
  predicate Interrupted(s: World, exec: string, now: int) {
    exec in s.executions && !E.Finished(s.executions[exec]) && !E.Live(s.executions[exec], now)
  }

  /** The decision still passes the validation of /terminalize, which does not ask for an open incident. */
  predicate StillValid(c: Config, s: World, key: Key, now: int) {
    && key in s.decisions
    && Validate(c, s.decisions[key], key.0, None, ApprovalOf(s, s.decisions[key]), now) == None
  }

  lemma RecordedIsClosable(c: Config, s: World, exec: string, now: int)
    requires RecordsOk(c, s) && exec in s.executions && StillValid(c, s, KeyOf(s.executions[exec]), now)
    ensures var key := KeyOf(s.executions[exec]);
            Closable(c, s, key, now) && ExecutionOf(c, s.decisions[key], key) == exec
  {
    assert Rooted(c, s, exec, s.executions[exec]);
  }

  lemma InterruptedIsOpen(c: Config, s: World, exec: string, checked: int, claimed: int)
    requires RecordsOk(c, s) && Interrupted(s, exec, claimed) && Admitted(c, s, KeyOf(s.executions[exec]), checked)
    ensures var key := KeyOf(s.executions[exec]);
            Open(c, s, key, checked, claimed) && ExecutionOf(c, s.decisions[key], key) == exec
  {
    assert Rooted(c, s, exec, s.executions[exec]);
  }

  /** Whatever state an interrupted execution was left in, once its lease has lapsed and its revision is
      seen alone and healthy, and as long as its decision still validates, one undisturbed /execute
      records MUTATED without a PUT, under the next epoch and with the authorship it can vouch for, and
      one /terminalize then records VERIFIED and issues the receipt that resolves the incident. Each step
      has a clock of its own; only the write must fall within the lease. */
  lemma RecoveryCompletes(c: Config, s: World, exec: string, owner: string, at: nat -> Input, on: nat -> Input)
    returns (run: seq<Action>, t: World, closing: seq<Action>, u: World)
    requires Reachable(c, s) && Interrupted(s, exec, at(4).now) && at(6).now < at(4).now + E.LEASE_SECONDS
    requires Admitted(c, s, KeyOf(s.executions[exec]), at(2).now)
    requires StillValid(c, s, KeyOf(s.executions[exec]), on(1).now)
    requires var d := s.decisions[KeyOf(s.executions[exec])];
             T.ServesExclusively(at(5).described, d.authorizedTarget) && Satisfies(d, on(3))
    ensures SoloRun(c, s, at, run, t, KeyOf(s.executions[exec]), owner, |s.workers|)
    ensures OnlyRecordMoved(s, t, exec) && ReconciledFrom(s.executions[exec], t.executions[exec])
    ensures |s.workers| < |t.workers|
            && t.workers[|s.workers|].pc == Done(Reconciled(t.executions[exec].effectPredates))
    ensures SoloClosing(c, t, on, closing, u, KeyOf(s.executions[exec]), |t.closers|)
    ensures OnlyRecordMoved(t, u, exec) && u.executions[exec].state == E.Verified
    ensures TerminalReceipt(KeyOf(s.executions[exec])) in u.receipts
  {
    EveryReachableWorldHasInv(c, s);
    InvNumbers(c, s);
    var key := KeyOf(s.executions[exec]);
    InterruptedIsOpen(c, s, exec, at(2).now, at(4).now);
    RecordedIsClosable(c, s, exec, on(1).now);
    T.ActiveTakesAll(at(5).described);
    var w;
    run, t, w := ReconciliationGoes(c, s, key, owner, at);
    TraceMeans(c, s, at, run, t, w);
    closing, u := ClosingGoesThrough(c, t, key, on);
  }

  /** A repaired incident never stays open for want of a receipt: from every reachable world in which the
      execution is VERIFIED, its decision still validates and the incident is being verified, one
      undisturbed /terminalize and one resolution close it, and no execution record moves. */
  lemma RepairedIncidentResolves(c: Config, s: World, exec: string, on: nat -> Input)
    returns (closing: seq<Action>, u: World, a: Action, t: World)
    requires Reachable(c, s) && exec in s.executions && s.executions[exec].state == E.Verified
    requires StillValid(c, s, KeyOf(s.executions[exec]), on(1).now)
    requires KeyOf(s.executions[exec]).0 in s.incidents
    requires CanTransition(s.incidents[KeyOf(s.executions[exec]).0], Resolved)
    ensures SoloClosing(c, s, on, closing, u, KeyOf(s.executions[exec]), |s.closers|)
    ensures Run(c, u, [a], t) && a.Resolve?
    ensures var incident := KeyOf(s.executions[exec]).0;
            && t.incidents == s.incidents[incident := Resolved]
            && incident in t.closedOn && t.closedOn[incident] == KeyOf(s.executions[exec])
    ensures t.executions == s.executions && t.applied == s.applied && t.services == s.services
  {
    EveryReachableWorldHasInv(c, s);
    var key := KeyOf(s.executions[exec]);
    RecordedIsClosable(c, s, exec, on(1).now);
    closing, u := EchoGoesThrough(c, s, key, on);
    RunKeepsInv(c, s, closing, u);
    InvNumbers(c, u);
    a := ReceiptResolves(c, u, key);
    t := u.(incidents := u.incidents[key.0 := Resolved], closedOn := u.closedOn[key.0 := key]);
  }

  /** Of a decision with a record exactly this is asked again: not to be revoked and, unless it is
      automatic, to have its approval still unexpired. */
  lemma ValidWhileApproved(c: Config, s: World, exec: string, now: int)
    requires Reachable(c, s) && exec in s.executions
    ensures var key := KeyOf(s.executions[exec]);
            && key in s.decisions
            && var d, approval := s.decisions[key], ApprovalOf(s, s.decisions[key]);
               (StillValid(c, s, key, now) <==>
                  && !d.revoked
                  && (d.verdict == APPROVAL_REQUIRED ==>
                        && d.approvalId != "" && approval.Some? && approval.value.state == Repository.APPROVED
                        && now < approval.value.expiresAt
                        && approval.value.fingerprint == FingerprintOf(c, d, key.0)))
  {
    EveryReachableWorldHasInv(c, s);
    assert Rooted(c, s, exec, s.executions[exec]);
    var key := KeyOf(s.executions[exec]);
    ValidationSanctions(c, s.decisions[key], key.0, None, ApprovalOf(s, s.decisions[key]), now);
  }

  // --- a shift that nothing prevents ---

  /** What /execute must see to go on to the mutation. */
  predicate Favourable(d: Decision, x: Input) {
    && T.Active(x.described) != d.authorizedTarget
    && (d.expectedSource == "" || T.Active(x.described) == d.expectedSource)
    && T.CandidateIsFresh(T.Observe(x.described, x.live, x.probed, d.authorizedTarget, d.actionType == SHIFT),
                          d.authorizedTarget).None?
  }

  /** The execution has not attempted its mutation yet. */
  predicate Untried(s: World, exec: string) {
    exec in s.executions ==> s.executions[exec].state in {E.Claimed, E.PreconditionChecked}
  }

  /** The request holds the record, which stands at `state`, until its lease runs out. */
  predicate Held(t: World, w: Worker, state: E.ExecutionState, until: int) {
    && w.exec in t.executions && t.executions[w.exec].state == state
    && E.Owns(t.executions[w.exec], w.owner, w.epoch) && t.executions[w.exec].expires == Some(until)
  }

  /** Nothing that bears on the mutation has changed. */
  predicate Unmoved(s: World, t: World) {
    t.services == s.services && t.applied == s.applied && t.incidents == s.incidents
  }

  /** The service can be read and replaced for this decision, and `live` is what the server may then leave. */
  ghost predicate Replaceable(s: World, d: Decision, live: C.Doc) {
    && d.targetRef in s.services && NewVersion(s, d.targetRef, live)
    && var body := C.Replacement(s.services[d.targetRef].live, TargetRevision(d));
       body.Ok? && C.Honours(live, body.value)
  }

  /** The same of a request that has read its snapshot. */
  ghost predicate Launchable(t: World, w: Worker, live: C.Doc) {
    && w.decision.targetRef in t.services && w.snapshot == t.services[w.decision.targetRef].live
    && NewVersion(t, w.decision.targetRef, live) && Body(w).Ok? && C.Honours(live, Body(w).value)
  }

  lemma ArmedIsLaunchable(s: World, t: World, w: Worker, live: C.Doc)
    requires Replaceable(s, w.decision, live) && t.services == s.services
    requires w.snapshot == s.services[w.decision.targetRef].live
    ensures Launchable(t, w, live)
  {
  }

  lemma HeldWriteGoes(c: Config, s: World, at: nat -> Input, run0: seq<Action>, t: World, w: Worker,
                      state: E.ExecutionState, until: int)
    returns (run: seq<Action>, u: World, v: Worker)
    requires Trace(c, s, at, run0, t, w) && Writes(w.pc) && Held(t, w, state, until) && at(Steps(run0)).now < until
    requires state in WriteOf(w).gate && state !in E.TERMINAL_STATES
    requires WriteOf(w).effect.None? && WriteOf(w).to !in E.TERMINAL_STATES
    ensures Trace(c, s, at, run, u, v) && Steps(run) == Steps(run0) + 1
    ensures u == t.(workers := u.workers, executions := u.executions)
    ensures v == w.(pc := WriteOf(w).ok) && Held(u, v, WriteOf(w).to, until)
  {
    HolderPasses(t, w, t.executions[w.exec], at(Steps(run0)).now);
    run, u, v := WritingGoes(c, s, at, run0, t, w);
  }

  lemma CheckedGoes(c: Config, s: World, at: nat -> Input, run0: seq<Action>, t: World, w: Worker,
                    state: E.ExecutionState, until: int)
    returns (run: seq<Action>, u: World, v: Worker)
    requires Trace(c, s, at, run0, t, w) && w.pc.WriteChecked?
    requires Held(t, w, state, until) && at(Steps(run0)).now < until
    requires state in {E.Claimed, E.PreconditionChecked}
    ensures Trace(c, s, at, run, u, v) && Steps(run) == Steps(run0) + 1
    ensures Unmoved(t, u)
    ensures v == w.(pc := Recheck) && Held(u, v, E.PreconditionChecked, until)
  {
    run, u, v := HeldWriteGoes(c, s, at, run0, t, w, state, until);
  }

  lemma RequestedGoes(c: Config, s: World, at: nat -> Input, run0: seq<Action>, t: World, w: Worker, until: int)
    returns (run: seq<Action>, u: World, v: Worker)
    requires Trace(c, s, at, run0, t, w) && w.pc.WriteRequested?
    requires Held(t, w, E.PreconditionChecked, until) && at(Steps(run0)).now < until
    ensures Trace(c, s, at, run, u, v) && Steps(run) == Steps(run0) + 1
    ensures Unmoved(t, u)
    ensures v == w.(pc := Send) && Held(u, v, E.MutationRequested, until)
  {
    run, u, v := HeldWriteGoes(c, s, at, run0, t, w, E.PreconditionChecked, until);
  }

  lemma RecordedGoes(c: Config, s: World, at: nat -> Input, run0: seq<Action>, t: World, w: Worker, until: int)
    returns (run: seq<Action>, u: World, v: Worker)
    requires Trace(c, s, at, run0, t, w) && w.pc.WriteMutated?
    requires Held(t, w, E.MutationRequested, until) && at(Steps(run0)).now < until
    ensures Trace(c, s, at, run, u, v) && Steps(run) == Steps(run0) + 1
    ensures Unmoved(t, u)
    ensures v == w.(pc := Done(Mutation(true))) && Held(u, v, E.Mutated, until)
  {
    run, u, v := HeldWriteGoes(c, s, at, run0, t, w, E.MutationRequested, until);
  }

  lemma ClearanceGoes(c: Config, s: World, key: Key, owner: string, at: nat -> Input)
    returns (run: seq<Action>, t: World, w: Worker)
    requires WellNumbered(s) && Open(c, s, key, at(2).now, at(4).now) && Favourable(s.decisions[key], at(5))
    requires Untried(s, ExecutionOf(c, s.decisions[key], key))
    ensures Trace(c, s, at, run, t, w) && Steps(run) == 6
    ensures w.id == |s.workers| && w.key == key && w.owner == owner
    ensures w.pc.WriteChecked? && w.put == NoPut && w.decision == s.decisions[key]
    ensures w.exec == ExecutionOf(c, w.decision, key) && w.record.state in {E.Claimed, E.PreconditionChecked}
    ensures Unmoved(s, t) && Held(t, w, w.record.state, at(4).now + E.LEASE_SECONDS)
  {
    run, t, w := ClaimGoes(c, s, key, owner, at);
    run, t, w := LookingGoes(c, s, at, run, t, w);
  }

  lemma ArmingGoes(c: Config, s: World, at: nat -> Input, run0: seq<Action>, t: World, w: Worker, until: int)
    returns (run: seq<Action>, u: World, v: Worker)
    requires Trace(c, s, at, run0, t, w) && Steps(run0) == 6 && w.pc.WriteChecked?
    requires Held(t, w, w.record.state, until)
    requires w.record.state in {E.Claimed, E.PreconditionChecked} && at(6).now < until && at(9).now < until
    requires w.key.0 in t.incidents && t.incidents[w.key.0] !in CLOSED && w.decision.targetRef in t.services
    ensures Trace(c, s, at, run, u, v) && Steps(run) == 10
    ensures Unmoved(t, u) && Held(u, v, E.MutationRequested, until)
    ensures v == w.(pc := Send, snapshot := t.services[w.decision.targetRef].live)
  {
    run, u, v := CheckedGoes(c, s, at, run0, t, w, w.record.state, until);
    run, u, v := RecheckGoes(c, s, at, run, u, v);
    run, u, v := SnapshotGoes(c, s, at, run, u, v);
    run, u, v := RequestedGoes(c, s, at, run, u, v, until);
  }

  /** One more PUT has been applied, it is this execution's, and the service stands as the server left it. */
  predicate AppliedOnce(s: World, t: World, exec: string, target: string, live: C.Doc) {
    && |t.applied| == |s.applied| + 1 && s.applied <= t.applied && t.applied[|s.applied|].exec == exec
    && target in t.services && t.services[target].live == live
  }

  lemma FlightGoes(c: Config, s: World, at: nat -> Input, run0: seq<Action>, t: World, w: Worker, live: C.Doc)
    returns (run: seq<Action>, u: World, v: Worker)
    requires Trace(c, s, at, run0, t, w) && w.pc.Send? && Launchable(t, w, live)
    ensures Trace(c, s, at, run, u, v) && Steps(run) == Steps(run0) + 1 && v == w.(pc := Await, put := Taken)
    ensures u.executions == t.executions && AppliedOnce(t, u, w.exec, w.decision.targetRef, live)
  {
    run, u, v := SendGoes(c, s, at, run0, t, w);
    assert Body(v) == Body(w);
    C.PreconditionIsTheSnapshots(w.snapshot, TargetRevision(w.decision));
    run, u, v := TakingGoes(c, s, at, run, u, v, live);
  }

  /** After its own lease has lapsed the request takes it again, under the next epoch, and records the
      mutation under that one. */
  lemma RetakenGoes(c: Config, s: World, at: nat -> Input, run0: seq<Action>, t: World, w: Worker, until: int,
                    lease: int)
    returns (run: seq<Action>, u: World, v: Worker)
    requires Trace(c, s, at, run0, t, w) && w.pc.Reacquire? && Held(t, w, E.MutationRequested, until)
    requires until <= at(Steps(run0)).now && lease == at(Steps(run0)).now + E.LEASE_SECONDS
    requires at(Steps(run0) + 1).now < lease
    ensures Trace(c, s, at, run, u, v) && Unmoved(t, u)
    ensures v == w.(pc := Done(Mutation(true)), epoch := v.epoch) && Held(u, v, E.Mutated, lease)
  {
    run, u, v := ReacquiringGoes(c, s, at, run0, t, w);
    run, u, v := HeldWriteGoes(c, s, at, run, u, v, E.MutationRequested, lease);
  }

  lemma LapsedWriteGoes(c: Config, s: World, at: nat -> Input, run0: seq<Action>, t: World, w: Worker, until: int)
    returns (run: seq<Action>, u: World, v: Worker)
    requires Trace(c, s, at, run0, t, w) && w.pc.WriteMutated? && Held(t, w, E.MutationRequested, until)
    requires until <= at(Steps(run0)).now
    ensures Trace(c, s, at, run, u, v) && Steps(run) == Steps(run0) + 1
    ensures v == w.(pc := Reacquire) && u == t.(workers := u.workers) && Held(u, v, E.MutationRequested, until)
  {
    run, u, v := WritingGoes(c, s, at, run0, t, w);
  }

  /** When the mutation can be recorded at step `n`: within the lease, or after taking the lapsed lease
      again at the next step and within that one. */
  predicate Recordable(at: nat -> Input, n: nat, until: int) {
    at(n).now < until || (until <= at(n + 1).now && at(n + 2).now < at(n + 1).now + E.LEASE_SECONDS)
  }

  lemma LateRecordingGoes(c: Config, s: World, at: nat -> Input, run0: seq<Action>, t: World, w: Worker, until: int,
                          lease: int)
    returns (run: seq<Action>, u: World, v: Worker)
    requires Trace(c, s, at, run0, t, w) && w.pc.WriteMutated? && Held(t, w, E.MutationRequested, until)
    requires var n := Steps(run0);
             && until <= at(n).now && until <= at(n + 1).now
             && lease == at(n + 1).now + E.LEASE_SECONDS && at(n + 2).now < lease
    ensures Trace(c, s, at, run, u, v) && Unmoved(t, u)
    ensures v == w.(pc := Done(Mutation(true)), epoch := v.epoch) && Held(u, v, E.Mutated, lease)
  {
    var m, lapsed;
    run, m, lapsed := LapsedWriteGoes(c, s, at, run0, t, w, until);
    run, u, v := RetakenGoes(c, s, at, run, m, lapsed, until, lease);
  }

  lemma RecordingGoes(c: Config, s: World, at: nat -> Input, run0: seq<Action>, t: World, w: Worker, until: int)
    returns (run: seq<Action>, u: World, v: Worker, lease: int)
    requires Trace(c, s, at, run0, t, w) && w.pc.WriteMutated? && Held(t, w, E.MutationRequested, until)
    requires Recordable(at, Steps(run0), until)
    ensures Trace(c, s, at, run, u, v) && Unmoved(t, u)
    ensures v == w.(pc := Done(Mutation(true)), epoch := v.epoch) && Held(u, v, E.Mutated, lease)
  {
    if at(Steps(run0)).now < until {
      run, u, v := RecordedGoes(c, s, at, run0, t, w, until);
      lease := until;
    } else {
      lease := at(Steps(run0) + 1).now + E.LEASE_SECONDS;
      run, u, v := LateRecordingGoes(c, s, at, run0, t, w, until, lease);
    }
  }

  lemma LandingGoes(c: Config, s: World, at: nat -> Input, run0: seq<Action>, t: World, w: Worker, until: int,
                    live: C.Doc)
    returns (run: seq<Action>, u: World, v: Worker, lease: int)
    requires Trace(c, s, at, run0, t, w) && Steps(run0) == 10 && w.pc.Send?
    requires Held(t, w, E.MutationRequested, until) && Launchable(t, w, live)
    requires Recordable(at, 12, until)
    ensures Trace(c, s, at, run, u, v) && v == w.(pc := Done(Mutation(true)), put := Taken, epoch := v.epoch)
    ensures Held(u, v, E.Mutated, lease) && AppliedOnce(t, u, w.exec, w.decision.targetRef, live)
  {
    run, u, v := FlightGoes(c, s, at, run0, t, w, live);
    run, u, v := AnswerGoes(c, s, at, run, u, v, Accepted);
    run, u, v, lease := RecordingGoes(c, s, at, run, u, v, until);
  }

  lemma AdmittedIsOpen(c: Config, s: World, key: Key, now: int)
    requires Admitted(c, s, key, now)
    ensures s.incidents[key.0] !in CLOSED
  {
  }

  lemma ShiftGoes(c: Config, s: World, at: nat -> Input, run0: seq<Action>, t: World, w: Worker, until: int,
                  live: C.Doc)
    returns (run: seq<Action>, u: World, v: Worker, lease: int)
    requires Trace(c, s, at, run0, t, w) && Steps(run0) == 6 && w.pc.WriteChecked?
    requires Held(t, w, w.record.state, until) && w.record.state in {E.Claimed, E.PreconditionChecked}
    requires w.key.0 in t.incidents && t.incidents[w.key.0] !in CLOSED && Replaceable(t, w.decision, live)
    requires at(6).now < until && at(9).now < until && Recordable(at, 12, until)
    ensures Trace(c, s, at, run, u, v) && v.pc == Done(Mutation(true)) && SameCall(w, v)
    ensures Held(u, v, E.Mutated, lease) && AppliedOnce(t, u, w.exec, w.decision.targetRef, live)
  {
    var m;
    run, m, v := ArmingGoes(c, s, at, run0, t, w, until);
    ArmedIsLaunchable(t, m, v, live);
    run, u, v, lease := LandingGoes(c, s, at, run, m, v, until, live);
  }

  predicate SameCall(w: Worker, v: Worker) {
    v.id == w.id && v.key == w.key && v.owner == w.owner && v.exec == w.exec
  }

  /** An admitted decision whose execution is free and untried, on a service that stands where the
      decision expects it and whose target is healthy, is carried out by one undisturbed request, if the
      server takes its PUT and the answer arrives: exactly one PUT is applied, it is this execution's, and
      the record says MUTATED. Each step has a clock of its own; only the first two writes must fall within
      the lease. If the PUT outlasts it, the request takes the lease again and records the mutation under
      the new epoch. */
  lemma AuthorizedShiftHappens(c: Config, s: World, key: Key, owner: string, at: nat -> Input, live: C.Doc)
    returns (run: seq<Action>, t: World)
    requires WellNumbered(s) && Open(c, s, key, at(2).now, at(4).now) && Favourable(s.decisions[key], at(5))
    requires Untried(s, ExecutionOf(c, s.decisions[key], key)) && Replaceable(s, s.decisions[key], live)
    requires var until := at(4).now + E.LEASE_SECONDS;
             at(6).now < until && at(9).now < until && Recordable(at, 12, until)
    ensures SoloRun(c, s, at, run, t, key, owner, |s.workers|)
    ensures var exec := ExecutionOf(c, s.decisions[key], key);
            && AppliedOnce(s, t, exec, s.decisions[key].targetRef, live)
            && exec in t.executions && t.executions[exec].state == E.Mutated
    ensures |s.workers| < |t.workers| && t.workers[|s.workers|].pc == Done(Mutation(true))
  {
    AdmittedIsOpen(c, s, key, at(2).now);
    var m, w, lease;
    run, m, w := ClearanceGoes(c, s, key, owner, at);
    run, t, w, lease := ShiftGoes(c, s, at, run, m, w, at(4).now + E.LEASE_SECONDS, live);
    TraceMeans(c, s, at, run, t, w);
  }
}
