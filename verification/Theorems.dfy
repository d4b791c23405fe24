/** What holds of every run of the protocol. */
module Theorems {
  import opened Prelude
  import opened Lifecycle
  import opened Authority
  import opened Protocol
  import opened Runs
  import opened Invariant
  import opened RequestSteps
  import opened OtherSteps
  import opened Safety
  import C = CloudRun
  import E = Execution
  import R = Repository
  import T = Traffic

  // --- one authorization, at most one effect ---

  /** A PUT that is applied, or still may be. */
  predicate PutOut(w: Worker) {
    w.put == InFlight || w.put == Taken
  }

  lemma PutOutIsBound(c: Config, s: World, i: nat)
    requires WorkersOk(c, s) && i < |s.workers| && PutOut(s.workers[i])
    ensures Engaged(s.workers[i])
    ensures s.workers[i].fingerprint in s.bindings
    ensures s.bindings[s.workers[i].fingerprint].executionId == s.workers[i].exec
  {
    assert WorkerOk(c, s, s.workers[i]);
  }

  /** Of all requests that carry one fingerprint, under whatever decision ids and however they race,
      at most one ever has a PUT in flight or applied. */
  lemma OneFingerprintOnePut(c: Config, s: World, i: nat, j: nat)
    requires Reachable(c, s) && i < |s.workers| && j < |s.workers|
    requires PutOut(s.workers[i]) && PutOut(s.workers[j])
    requires s.workers[i].fingerprint == s.workers[j].fingerprint || s.workers[i].exec == s.workers[j].exec
    ensures i == j
  {
    EveryReachableWorldHasInv(c, s);
    PutOutIsBound(c, s, i);
    PutOutIsBound(c, s, j);
    if i != j {
      PairsAreSymmetric(c, s, i, j);
      assert false;
    }
  }

  /** No two PUTs that were ever applied share a fingerprint or an execution. */
  lemma AtMostOneEffect(c: Config, s: World, p: nat, q: nat)
    requires Reachable(c, s) && p < q < |s.applied|
    ensures s.applied[p].fingerprint != s.applied[q].fingerprint
    ensures s.applied[p].exec != s.applied[q].exec
  {
    EveryReachableWorldHasInv(c, s);
    var a, b := s.applied[p], s.applied[q];
    assert Lawful(c, s, a) && Lawful(c, s, b) && a.worker != b.worker;
    assert WorkerOk(c, s, s.workers[a.worker]) && WorkerOk(c, s, s.workers[b.worker]);
    if a.exec == b.exec {
      OneFingerprintOnePut(c, s, a.worker, b.worker);
    }
  }

  // --- what a holder knows ---

  /** While its epoch is current and the record unfinished, the record is in the state its holder last
      read or wrote: what it captured at the claim until it writes, and afterwards what it wrote. */
  lemma TheHolderIsRight(c: Config, s: World, i: nat)
    requires Reachable(c, s) && i < |s.workers| && Holds(s.workers[i])
    ensures s.workers[i].exec in s.executions && 1 <= s.workers[i].epoch <= s.executions[s.workers[i].exec].epoch
    ensures var w := s.workers[i];
            var r := s.executions[w.exec];
            w.epoch == r.epoch && !E.Finished(r) ==>
              && (Unwritten(w.pc) ==> r.state == w.record.state && r.effectPredates == w.record.effectPredates)
              && (HasChecked(w.pc) ==> r.state == E.PreconditionChecked)
              && (HasRequested(w.pc) ==> r.state == E.MutationRequested)
  {
    EveryReachableWorldHasInv(c, s);
    assert WorkerOk(c, s, s.workers[i]);
  }

  /** Requests that share one owner string are still told apart: no two that hold an execution ever
      bear the same epoch. */
  lemma HoldersHaveTheirOwnEpochs(c: Config, s: World, i: nat, j: nat)
    requires Reachable(c, s) && i < |s.workers| && j < |s.workers| && i != j
    requires Holds(s.workers[i]) && Holds(s.workers[j]) && s.workers[i].exec == s.workers[j].exec
    ensures s.workers[i].epoch != s.workers[j].epoch
  {
    EveryReachableWorldHasInv(c, s);
    PairsAreSymmetric(c, s, i, j);
  }

  // --- what an applied PUT rests on ---

  /** Every applied PUT names the revision of a stored decision that was unrevoked when validated, on a
      registered target, and either automatic or covered by an approval that was unexpired then,
      carries this very fingerprint and still stands approved; the decision's core never changed. */
  lemma EveryEffectIsSanctioned(c: Config, s: World, p: nat)
    requires Reachable(c, s) && p < |s.applied|
    ensures var a := s.applied[p];
            && Sanctioned(c, a.decision, a.key.0, a.approval, a.checkedAt)
            && a.key in s.decisions && SameCore(a.decision, s.decisions[a.key])
            && a.exec == ExecutionOf(c, s.decisions[a.key], a.key)
            && (a.decision.verdict != AUTO_ALLOWED ==>
                  && a.decision.approvalId in s.approvals
                  && var approval := s.approvals[a.decision.approvalId];
                     approval.state == R.APPROVED && a.checkedAt < approval.expiresAt
                     && approval.fingerprint == a.fingerprint)
            && C.OnlyTrafficChanged(a.before, a.after, T.BaseName(s.decisions[a.key].authorizedTarget))
  {
    EveryReachableWorldHasInv(c, s);
    assert Lawful(c, s, s.applied[p]);
  }

  /** At the instant of application the live service is exactly what the request had read, so no
      operator's edit in between is overwritten; and nothing but traffic changes. */
  lemma NoEditIsOverwritten(c: Config, s: World, i: nat, live: C.Doc)
    requires Reachable(c, s) && Enabled(c, s, ServerTakes(i, live)) && WellNumbered(s)
    ensures var w := s.workers[i];
            var target := w.decision.targetRef;
            && s.services[target].live == w.snapshot
            && C.OnlyTrafficChanged(w.snapshot, live, T.BaseName(w.decision.authorizedTarget))
            && Step(c, s, ServerTakes(i, live)).services == s.services[target :=
                 Service(live, s.services[target].spent + {C.ResourceVersion(live)})]
  {
    EveryReachableWorldHasInv(c, s);
    TakenIsLawful(c, s, i, live);
  }

  /** The ruling that approved `id` was made by action `i`: on an approval that was pending and, by the
      clock of that action, not yet expired, and it recorded who ruled and when. */
  predicate RuledAt(worlds: seq<World>, actions: seq<Action>, i: nat, id: string, approved: R.Approval)
    requires i < |actions| && i < |worlds|
  {
    var a, approvals := actions[i], worlds[i].approvals;
    && a.RuleOnApproval? && a.approval == id && a.state == "APPROVED"
    && id in approvals && approvals[id].state == "PENDING" && a.now < approvals[id].expiresAt
    && approved.state == "APPROVED" && approved.decidedAt == Some(a.decidedAt) && approved.approver == Some(a.approver)
    && approved.fingerprint == approvals[id].fingerprint && approved.expiresAt == approvals[id].expiresAt
  }

  lemma OutsidersApprove(c: Config, s: World, a: Action, id: string)
    requires WellNumbered(s) && Enabled(c, s, a) && !a.Proceed? && !a.ProceedToClose?
    requires id in Step(c, s, a).approvals && Step(c, s, a).approvals[id].state == "APPROVED"
    ensures || (id in s.approvals && s.approvals[id] == Step(c, s, a).approvals[id])
            || RuledAt([s], [a], 0, id, Step(c, s, a).approvals[id])
  {
  }

  predicate SameControlPlane(s: World, t: World) {
    t.approvals == s.approvals && t.incidents == s.incidents
  }

  lemma ClosersAttend(c: Config, s: World, i: nat, x: Input)
    requires i < |s.closers| && !s.closers[i].pc.CClose?
    ensures SameControlPlane(s, Close(c, s, i, x))
  {
  }

  lemma ClosersWrite(s: World, i: nat)
    requires i < |s.closers|
    ensures SameControlPlane(s, CloseRecord(s, i, s.closers[i]))
  {
  }

  lemma ClosersKeepControlPlane(c: Config, s: World, i: nat, x: Input)
    requires i < |s.closers|
    ensures SameControlPlane(s, Close(c, s, i, x))
  {
    if s.closers[i].pc.CClose? {
      ClosersWrite(s, i);
    } else {
      ClosersAttend(c, s, i, x);
    }
  }

  lemma ApprovingSteps(c: Config, s: World, a: Action, t: World, id: string)
    requires Next(c, s, a, t) && id in t.approvals && t.approvals[id].state == "APPROVED"
    ensures (id in s.approvals && s.approvals[id] == t.approvals[id]) || RuledAt([s], [a], 0, id, t.approvals[id])
  {
    if a.ProceedToClose? {
      ClosersKeepControlPlane(c, s, a.closer, a.input);
    } else if !a.Proceed? {
      OutsidersApprove(c, s, a, id);
    }
  }

  /** Along every run from an empty world an approval stands APPROVED only because somebody ruled so while
      it was pending and unexpired. */
  lemma {:induction false} ApprovedWasRuled(c: Config, worlds: seq<World>, actions: seq<Action>, n: nat, id: string)
    returns (i: nat)
    requires Path(c, worlds, actions) && worlds[0] == GENESIS && n <= |actions|
    requires id in worlds[n].approvals && worlds[n].approvals[id].state == "APPROVED"
    ensures i < n && RuledAt(worlds, actions, i, id, worlds[n].approvals[id])
    decreases n
  {
    if n == 0 {
      assert false;
    }
    i := n - 1;
    assert NextAt(c, worlds, actions, i);
    ApprovingSteps(c, worlds[i], actions[i], worlds[n], id);
    if id in worlds[i].approvals && worlds[i].approvals[id] == worlds[n].approvals[id] {
      i := ApprovedWasRuled(c, worlds, actions, i, id);
    }
  }

  /** Behind every applied PUT of a decision that needs one stands a ruling: somebody approved its very
      approval, of this fingerprint, while it was pending and before it expired. */
  lemma EveryEffectWasRuledOn(c: Config, worlds: seq<World>, actions: seq<Action>, p: nat) returns (i: nat)
    requires Path(c, worlds, actions) && worlds[0] == GENESIS && p < |worlds[|actions|].applied|
    requires worlds[|actions|].applied[p].decision.verdict != AUTO_ALLOWED
    ensures var s := worlds[|actions|];
            var a := s.applied[p];
            && i < |actions| && a.decision.approvalId in s.approvals
            && RuledAt(worlds, actions, i, a.decision.approvalId, s.approvals[a.decision.approvalId])
            && s.approvals[a.decision.approvalId].fingerprint == a.fingerprint
  {
    var s := worlds[|actions|];
    assert Run(c, GENESIS, actions, s);
    EveryEffectIsSanctioned(c, s, p);
    i := ApprovedWasRuled(c, worlds, actions, |actions|, s.applied[p].decision.approvalId);
  }

  /** No PUT is applied unless its request saw what the decision demands: traffic where it is expected
      and not yet on the authorized revision, and that revision offered under a URL that answers 200 with a
      healthy body. */
  lemma EveryEffectWasCleared(c: Config, s: World, p: nat)
    requires Reachable(c, s) && p < |s.applied|
    ensures var a := s.applied[p];
            exists x <- s.cleared ::
              && x.worker == a.worker && x.decision == a.decision
              && T.Active(x.described) != a.decision.authorizedTarget
              && (a.decision.expectedSource == "" || T.Active(x.described) == a.decision.expectedSource)
              && x.probed.httpStatus == 200 && x.probed.bodyHealthy
              && Offered(a.decision, x.described.statuses)
  {
    EveryReachableWorldHasInv(c, s);
    var a := s.applied[p];
    assert Lawful(c, s, a);
    var x :| x in s.cleared && x.worker == a.worker && x.decision == a.decision;
    assert Clears(x.decision, x.described, x.probed);
  }

  // --- how a record may move ---

  predicate Rewinds(s: World, a: Action, exec: string) {
    a.Proceed? && a.worker < |s.workers| && s.workers[a.worker].pc.WriteRewind?
    && s.workers[a.worker].exec == exec && s.workers[a.worker].put == Rejected
  }

  predicate Closes(s: World, a: Action, exec: string) {
    a.ProceedToClose? && a.closer < |s.closers| && s.closers[a.closer].pc.CClose?
    && s.closers[a.closer].exec == exec
  }

  /** The moves of a record's state, whoever makes them. */
  predicate MayBecome(s: World, a: Action, exec: string, from: E.ExecutionState, to: E.ExecutionState) {
    match from
    case Claimed => to in {E.Claimed, E.PreconditionChecked, E.Mutated, E.Stale}
    case PreconditionChecked => to in {E.PreconditionChecked, E.MutationRequested, E.Mutated, E.Stale}
    case MutationRequested =>
      to in {E.MutationRequested, E.Mutated} || (to == E.PreconditionChecked && Rewinds(s, a, exec))
    case Mutated => to == E.Mutated || (to == E.Verified && Closes(s, a, exec))
    case _ => to == from
  }

  predicate Moves(s: World, a: Action, exec: string, r: E.Record, t: E.Record) {
    && MayBecome(s, a, exec, r.state, t.state)
    && (E.Finished(r) ==> t == r)
    && t.claim == r.claim && r.epoch <= t.epoch <= r.epoch + 1
    && (r.effectPredates ==> t.effectPredates)
    && (t.effectPredates && !r.effectPredates ==> r.state !in ATTEMPTED_STATES && t.state == E.Mutated)
  }

  /** What each write under the fence records when it gets through, and from where it does. */
  lemma WritesRecordWhatTheyMean(s: World, v: Worker, now: int)
    requires Writes(v.pc) && Passes(s, v, WriteOf(v), now)
    ensures v.exec in s.executions
    ensures var r, t := s.executions[v.exec], Advance(s, v, WriteOf(v), now).1[v.exec];
            match v.pc
            case WriteReconciled =>
              && t.state == E.Mutated
              && t.effectPredates == (v.record.effectPredates
                                      || (v.record.state != E.MutationRequested && v.record.state != E.Mutated))
            case WriteStale => t.state == E.Stale && t.effectPredates == r.effectPredates
            case WriteChecked => t.state == E.PreconditionChecked && t.effectPredates == r.effectPredates
            case WriteRequested =>
              r.state == E.PreconditionChecked && t.state == E.MutationRequested && t.effectPredates == r.effectPredates
            case WriteRewind =>
              r.state == E.MutationRequested && t.state == E.PreconditionChecked && t.effectPredates == r.effectPredates
            case _ => r.state == E.MutationRequested && t.state == E.Mutated && t.effectPredates == r.effectPredates
  {
  }

  lemma HolderMoves(c: Config, s: World, a: Action, v: Worker, now: int)
    requires Poised(c, s, v) && Writes(v.pc) && Passes(s, v, WriteOf(v), now)
    requires a.Proceed? && a.worker == v.id
    ensures v.exec in s.executions && Moves(s, a, v.exec, s.executions[v.exec], After(s, v, WriteOf(v)))
  {
    PassingIsHolding(s, v, WriteOf(v), now);
    assert Fits(v, s.executions[v.exec]) && Agrees(v, s.executions[v.exec]);
  }

  lemma WriterMoves(c: Config, s: World, a: Action, v: Worker, now: int, exec: string)
    requires Poised(c, s, v) && Writes(v.pc) && a.Proceed? && a.worker == v.id && exec in s.executions
    ensures var es := Advance(s, v, WriteOf(v), now).1;
            exec in es && Moves(s, a, exec, s.executions[exec], es[exec])
  {
    if Passes(s, v, WriteOf(v), now) {
      HolderMoves(c, s, a, v, now);
    }
  }

  lemma Unmoved(s: World, t: World, a: Action, exec: string)
    requires exec in s.executions && exec in t.executions && t.executions[exec] == s.executions[exec]
    ensures Moves(s, a, exec, s.executions[exec], t.executions[exec])
  {
  }

  lemma ClaimMoves(s: World, a: Action, v: Worker, now: int, exec: string)
    requires exec in s.executions
    ensures exec in Try(s, v, now).2 && Moves(s, a, exec, s.executions[exec], Try(s, v, now).2[exec])
  {
  }

  lemma ReleaserMoves(s: World, a: Action, v: Worker, now: int, exec: string)
    requires exec in s.executions
    ensures var es := E.Release(s.executions, v.exec, v.owner, v.epoch, now).1;
            exec in es && Moves(s, a, exec, s.executions[exec], es[exec])
  {
  }

  /** Steps that do not touch the execution store. */
  predicate Idle(pc: PC) {
    Private(pc) || pc.Bind? || pc.Look? || pc.Done? || pc.Crashed?
  }

  lemma IdleStepsKeepRecords(c: Config, s: World, v: Worker, x: Input)
    requires v.id < |s.workers| && Idle(v.pc)
    ensures Work(c, s, v, x).executions == s.executions && Work(c, s, v, x).applied == s.applied
  {
    if Private(v.pc) {
      PrivateStepsKeepRecords(c, s, v, x);
    } else if v.pc.Look? {
      LookingKeepsRecords(s, v, x);
      assert Work(c, s, v, x) == Looking(s, v, x);
    } else if v.pc.Bind? {
      assert Work(c, s, v, x) == Binding(s, v);
    }
  }

  lemma LookingKeepsRecords(s: World, v: Worker, x: Input)
    requires v.id < |s.workers| && v.pc.Look?
    ensures Looking(s, v, x).executions == s.executions && Looking(s, v, x).applied == s.applied
    ensures Looking(s, v, x).workers == s.workers[v.id := Looked(v, x)] && !Looked(v, x).pc.Done?
  {
  }

  lemma PrivateStepsKeepRecords(c: Config, s: World, v: Worker, x: Input)
    requires v.id < |s.workers| && Private(v.pc)
    ensures Work(c, s, v, x).executions == s.executions && Work(c, s, v, x).applied == s.applied
    ensures Work(c, s, v, x).workers == s.workers[v.id := Privately(c, s, v, x)]
  {
    assert Work(c, s, v, x) == With(s, Privately(c, s, v, x));
  }

  /** What a busy step leaves of the records. */
  function RecordsAfter(s: World, v: Worker, now: int): E.Records
    requires !Idle(v.pc)
  {
    if Writes(v.pc) then Advance(s, v, WriteOf(v), now).1
    else if v.pc.Releasing? then E.Release(s.executions, v.exec, v.owner, v.epoch, now).1
    else Try(s, v, now).2
  }

  lemma WorkLeavesRecords(c: Config, s: World, v: Worker, x: Input)
    requires v.id < |s.workers|
    ensures Work(c, s, v, x).executions == if Idle(v.pc) then s.executions else RecordsAfter(s, v, x.now)
  {
    if Idle(v.pc) {
      IdleStepsKeepRecords(c, s, v, x);
    }
  }

  lemma BusyStepMoves(c: Config, s: World, v: Worker, now: int, exec: string, a: Action)
    requires v.id < |s.workers| && !Idle(v.pc) && exec in s.executions && a.Proceed? && a.worker == v.id
    requires Holds(v) ==> Poised(c, s, v)
    ensures exec in RecordsAfter(s, v, now) && Moves(s, a, exec, s.executions[exec], RecordsAfter(s, v, now)[exec])
  {
    if Writes(v.pc) {
      WriterMoves(c, s, a, v, now, exec);
    } else if v.pc.Releasing? {
      ReleaserMoves(s, a, v, now, exec);
    } else {
      ClaimMoves(s, a, v, now, exec);
    }
  }

  lemma RequestMoves(c: Config, s: World, i: nat, x: Input, exec: string)
    requires WorkersOk(c, s) && PairsOk(s) && RecordsOk(c, s)
    requires i < |s.workers| && exec in s.executions
    ensures s.workers[i].id == i
    ensures var t := Work(c, s, s.workers[i], x);
            exec in t.executions && Moves(s, Proceed(i, x), exec, s.executions[exec], t.executions[exec])
  {
    var v := s.workers[i];
    assert v.id == i;
    WorkLeavesRecords(c, s, v, x);
    if !Idle(v.pc) {
      if Holds(v) {
        InvMeansPoised(c, s, i);
      }
      BusyStepMoves(c, s, v, x.now, exec, Proceed(i, x));
    }
  }

  lemma CloserMoves(c: Config, s: World, i: nat, x: Input, exec: string)
    requires i < |s.closers| && exec in s.executions
    ensures var t := Close(c, s, i, x);
            exec in t.executions && Moves(s, ProceedToClose(i, x), exec, s.executions[exec], t.executions[exec])
  {
    if s.closers[i].pc.CClose? {
      ClosingWrites(s, i);
    }
  }

  /** In every reachable world every action moves every record within the table above: MUTATED is left
      only for VERIFIED, by a close; MUTATION_REQUESTED only for MUTATED, or for PRECONDITION_CHECKED
      by the very request whose own PUT was rejected; a finished record never changes at all. */
  lemma EveryMoveIsAllowed(c: Config, s: World, a: Action, exec: string)
    requires Reachable(c, s) && WellNumbered(s) && Enabled(c, s, a) && exec in s.executions
    ensures exec in Step(c, s, a).executions
    ensures Moves(s, a, exec, s.executions[exec], Step(c, s, a).executions[exec])
  {
    EveryReachableWorldHasInv(c, s);
    StepMoves(c, s, a, exec);
  }

  lemma OutsidersKeepRecords(c: Config, s: World, a: Action)
    requires WellNumbered(s) && Enabled(c, s, a) && !a.Proceed? && !a.ProceedToClose?
    ensures Step(c, s, a).executions == s.executions
  {
  }

  lemma StepMoves(c: Config, s: World, a: Action, exec: string)
    requires WorkersOk(c, s) && PairsOk(s) && RecordsOk(c, s)
    requires WellNumbered(s) && Enabled(c, s, a) && exec in s.executions
    ensures exec in Step(c, s, a).executions
    ensures Moves(s, a, exec, s.executions[exec], Step(c, s, a).executions[exec])
  {
    if a.Proceed? {
      RequestMoves(c, s, a.worker, a.input, exec);
    } else if a.ProceedToClose? {
      CloserMoves(c, s, a.closer, a.input, exec);
    } else {
      OutsidersKeepRecords(c, s, a);
      Unmoved(s, Step(c, s, a), a, exec);
    }
  }

  /** The states `advance` is told to expect would not do: the store alone lets a holder that has
      looked demote MUTATED to PRECONDITION_CHECKED, from where the PUT may be sent again. */
  lemma TheStoreAloneWouldDemote(r: E.Record, exec: string, owner: string, now: int)
    requires r.state == E.Mutated && E.Owns(r, owner, r.epoch) && E.Live(r, now)
    ensures var a := E.Advance(map[exec := r], exec, E.PreconditionChecked, owner, r.epoch,
                               Some(PRE_MUTATION_STATES), None, now);
            a.0 == E.Advanced && a.1[exec].state == E.PreconditionChecked
  {
    assert E.Mutated in PRE_MUTATION_STATES;
  }

  lemma BusyStepsCreate(s: World, v: Worker, now: int, exec: string)
    requires !Idle(v.pc) && (Holds(v) ==> v.exec in s.executions)
    requires exec !in s.executions && exec in RecordsAfter(s, v, now)
    ensures RecordsAfter(s, v, now)[exec].state == E.Claimed && RecordsAfter(s, v, now)[exec].epoch == 1
    ensures v.pc.Acquire? && v.exec == exec
  {
  }

  lemma RequestsCreate(c: Config, s: World, i: nat, x: Input, exec: string)
    requires WorkersOk(c, s) && i < |s.workers| && s.workers[i].id == i && exec !in s.executions
    requires exec in Work(c, s, s.workers[i], x).executions
    ensures Work(c, s, s.workers[i], x).executions[exec].state == E.Claimed
    ensures Work(c, s, s.workers[i], x).executions[exec].epoch == 1
    ensures s.workers[i].pc.Acquire? && s.workers[i].exec == exec
  {
    var v := s.workers[i];
    assert WorkerOk(c, s, v);
    WorkLeavesRecords(c, s, v, x);
    if !Idle(v.pc) {
      BusyStepsCreate(s, v, x.now, exec);
    }
  }

  lemma ClosersCreateNothing(c: Config, s: World, i: nat, x: Input)
    requires i < |s.closers|
    ensures Close(c, s, i, x).executions.Keys == s.executions.Keys
  {
    if s.closers[i].pc.CClose? {
      ClosingWrites(s, i);
    }
  }

  lemma StepsCreate(c: Config, s: World, a: Action, exec: string)
    requires Inv(c, s) && WellNumbered(s) && Enabled(c, s, a)
    requires exec !in s.executions && exec in Step(c, s, a).executions
    ensures Step(c, s, a).executions[exec].state == E.Claimed && Step(c, s, a).executions[exec].epoch == 1
    ensures a.Proceed? && s.workers[a.worker].pc.Acquire? && s.workers[a.worker].exec == exec
  {
    if a.Proceed? {
      RequestsCreate(c, s, a.worker, a.input, exec);
    } else if a.ProceedToClose? {
      ClosersCreateNothing(c, s, a.closer, a.input);
    } else {
      OutsidersKeepRecords(c, s, a);
    }
  }

  /** Records are created CLAIMED, under epoch 1, and only by a request's own claim, which says what its
      decision says. */
  lemma RecordsStartClaimed(c: Config, s: World, a: Action, exec: string)
    requires Reachable(c, s) && WellNumbered(s) && Enabled(c, s, a)
    requires exec !in s.executions && exec in Step(c, s, a).executions
    ensures Step(c, s, a).executions[exec].state == E.Claimed && Step(c, s, a).executions[exec].epoch == 1
    ensures a.Proceed? && s.workers[a.worker].pc.Acquire? && s.workers[a.worker].exec == exec
    ensures var w, claim := s.workers[a.worker], Step(c, s, a).executions[exec].claim;
            && claim.incidentId == w.key.0 && claim.decisionId == w.key.1
            && claim.actionType == w.decision.actionType && claim.targetRef == w.decision.targetRef
            && claim.authorizedTarget == w.decision.authorizedTarget
            && claim.expectedSource == w.decision.expectedSource && claim.expectedEtag == w.decision.expectedEtag
  {
    EveryReachableWorldHasInv(c, s);
    StepsCreate(c, s, a, exec);
    WorkLeavesRecords(c, s, s.workers[a.worker], a.input);
    CreatedSaysItsDecision(s, s.workers[a.worker], a.input.now);
  }

  lemma CreatedSaysItsDecision(s: World, v: Worker, now: int)
    requires v.pc.Acquire? && v.exec !in s.executions
    ensures v.exec in RecordsAfter(s, v, now) && RecordsAfter(s, v, now)[v.exec].claim == ClaimOf(v)
  {
  }

  // --- over whole runs ---

  /** What becomes of a record in the long run. */
  predicate Later(r: E.Record, t: E.Record) {
    && t.claim == r.claim && r.epoch <= t.epoch
    && (E.Finished(r) ==> t == r)
    && (r.state == E.Mutated ==> t.state in {E.Mutated, E.Verified})
    && (r.effectPredates ==> t.effectPredates)
  }

  lemma MovesAreLater(s: World, a: Action, exec: string, r: E.Record, t: E.Record)
    requires Moves(s, a, exec, r, t)
    ensures Later(r, t)
  {
  }

  lemma LaterStill(r: E.Record, t: E.Record, u: E.Record)
    requires Later(r, t) && Later(t, u)
    ensures Later(r, u)
  {
  }

  lemma {:induction false} RecordsOverARun(c: Config, s: World, actions: seq<Action>, t: World, exec: string)
    requires Inv(c, s) && Run(c, s, actions, t) && exec in s.executions
    ensures Inv(c, t) && exec in t.executions && Later(s.executions[exec], t.executions[exec])
    decreases |actions|
  {
    RunStarts(c, s, actions, t);
    if actions != [] {
      var m := Step(c, s, actions[0]);
      StepKeepsInv(c, s, actions[0]);
      StepMoves(c, s, actions[0], exec);
      MovesAreLater(s, actions[0], exec, s.executions[exec], m.executions[exec]);
      RecordsOverARun(c, m, actions[1..], t, exec);
      LaterStill(s.executions[exec], m.executions[exec], t.executions[exec]);
    }
  }

  /** MUTATED stands: from there on a record is MUTATED or VERIFIED, in every continuation. */
  lemma MutatedStands(c: Config, s: World, actions: seq<Action>, t: World, exec: string)
    requires Reachable(c, s) && Run(c, s, actions, t)
    requires exec in s.executions && s.executions[exec].state in {E.Mutated, E.Verified}
    ensures exec in t.executions && t.executions[exec].state in {E.Mutated, E.Verified}
    ensures s.executions[exec].state == E.Verified ==> t.executions[exec] == s.executions[exec]
  {
    EveryReachableWorldHasInv(c, s);
    RecordsOverARun(c, s, actions, t, exec);
  }

  /** Execution `exec` changed nothing, and nothing is under way. */
  predicate NoEffect(s: World, exec: string) {
    && (forall p :: 0 <= p < |s.applied| ==> s.applied[p].exec != exec)
    && (forall i :: 0 <= i < |s.workers| && s.workers[i].exec == exec ==> !PutOut(s.workers[i]))
  }

  lemma UnattemptedHasNothingOut(c: Config, s: World, exec: string, i: nat)
    requires WorkersOk(c, s) && exec in s.executions && Unattempted(s.executions[exec])
    requires i < |s.workers| && s.workers[i].exec == exec
    ensures !PutOut(s.workers[i])
  {
    assert WorkerOk(c, s, s.workers[i]);
  }

  lemma UnattemptedAppliedNothing(c: Config, s: World, exec: string, p: nat)
    requires WorkersOk(c, s) && AppliedOk(c, s) && exec in s.executions && Unattempted(s.executions[exec])
    requires p < |s.applied|
    ensures s.applied[p].exec != exec
  {
    assert Lawful(c, s, s.applied[p]);
    if s.applied[p].exec == exec {
      UnattemptedHasNothingOut(c, s, exec, s.applied[p].worker);
    }
  }

  lemma UnattemptedHasNoEffect(c: Config, s: World, exec: string)
    requires WorkersOk(c, s) && AppliedOk(c, s) && exec in s.executions && Unattempted(s.executions[exec])
    ensures NoEffect(s, exec)
  {
    forall i | 0 <= i < |s.workers| && s.workers[i].exec == exec
      ensures !PutOut(s.workers[i])
    {
      UnattemptedHasNothingOut(c, s, exec, i);
    }
    forall p | 0 <= p < |s.applied|
      ensures s.applied[p].exec != exec
    {
      UnattemptedAppliedNothing(c, s, exec, p);
    }
  }

  /** A record that says its effect predates it says so forever, and its execution has applied no PUT
      and never will, through every rewind, takeover and repeated reconciliation. */
  lemma DisclaimersHoldForever(c: Config, s: World, actions: seq<Action>, t: World, exec: string)
    requires Reachable(c, s) && Run(c, s, actions, t)
    requires exec in s.executions && s.executions[exec].effectPredates
    ensures exec in t.executions && t.executions[exec].effectPredates && NoEffect(t, exec)
  {
    EveryReachableWorldHasInv(c, s);
    RecordsOverARun(c, s, actions, t, exec);
    UnattemptedHasNoEffect(c, t, exec);
  }

  /** An execution closed as STALE has changed nothing, has nothing under way, and stays so. */
  lemma StaleNeverActs(c: Config, s: World, actions: seq<Action>, t: World, exec: string)
    requires Reachable(c, s) && Run(c, s, actions, t)
    requires exec in s.executions && s.executions[exec].state == E.Stale
    ensures exec in t.executions && t.executions[exec] == s.executions[exec] && NoEffect(t, exec)
  {
    EveryReachableWorldHasInv(c, s);
    RecordsOverARun(c, s, actions, t, exec);
    UnattemptedHasNoEffect(c, t, exec);
  }

  // --- what MUTATED, VERIFIED and RESOLVED rest on ---

  /** Either a PUT of its own was applied, or the authorized revision was seen taking all traffic. */
  ghost predicate Evidenced(c: Config, s: World, exec: string) {
    || WasApplied(s, exec)
    || exists x <- s.sighted ::
         && x.exec == exec && x.key in s.decisions && ExecutionOf(c, s.decisions[x.key], x.key) == exec
         && T.Share(x.described.statuses, s.decisions[x.key].authorizedTarget) == 100
  }

  /** The authorized revision was seen alone, with all traffic, answering 200 with a healthy body. */
  ghost predicate ObservedHealthy(c: Config, s: World, exec: string) {
    exists x <- s.closings ::
      && x.exec == exec && x.key in s.decisions && ExecutionOf(c, s.decisions[x.key], x.key) == exec
      && T.SoleShare(x.described.statuses, s.decisions[x.key].authorizedTarget)
      && x.probe.httpStatus == 200 && x.probe.bodyHealthy
  }

  lemma MutatedIsEvidenced(c: Config, s: World, exec: string)
    requires Reachable(c, s) && exec in s.executions && s.executions[exec].state in {E.Mutated, E.Verified}
    ensures Evidenced(c, s, exec)
  {
    EveryReachableWorldHasInv(c, s);
    assert RecordOk(c, s, exec, s.executions[exec]);
    if !WasApplied(s, exec) {
      var x :| x in s.sighted && x.exec == exec;
      T.ActiveTakesAll(x.described);
    }
  }

  lemma VerifiedIsEvidenced(c: Config, s: World, exec: string)
    requires Reachable(c, s) && exec in s.executions && s.executions[exec].state == E.Verified
    ensures Evidenced(c, s, exec) && ObservedHealthy(c, s, exec)
  {
    EveryReachableWorldHasInv(c, s);
    MutatedIsEvidenced(c, s, exec);
    assert RecordOk(c, s, exec, s.executions[exec]);
    var x :| x in s.closings && x.exec == exec;
    T.ExclusiveMeansAllOfIt(x.described, s.decisions[x.key].authorizedTarget);
  }

  /** The echo of a VERIFIED record is always a terminal receipt: whoever asks /terminalize about a repaired
      execution gets the answer that resolves the incident. */
  lemma EchoesAreTerminal(c: Config, s: World, k: Closer)
    requires Reachable(c, s) && k.exec in s.executions && s.executions[k.exec].state == E.Verified
    ensures Terminal(Echo(s.executions[k.exec], k)) && Echo(s.executions[k.exec], k).key == k.key
  {
    EveryReachableWorldHasInv(c, s);
    assert RecordOk(c, s, k.exec, s.executions[k.exec]);
  }

  /** RESOLVED is earned: it was reached on a decision of this very incident whose execution is
      VERIFIED on evidence, now and in every continuation. */
  lemma ResolvedIsVerified(c: Config, s: World, actions: seq<Action>, t: World, incident: string)
    requires Reachable(c, s) && Run(c, s, actions, t)
    requires incident in s.incidents && s.incidents[incident] == Resolved
    ensures incident in s.closedOn && s.closedOn[incident].0 == incident && s.closedOn[incident] in s.decisions
    ensures var exec := ExecutionOf(c, s.decisions[s.closedOn[incident]], s.closedOn[incident]);
            && exec in s.executions && Evidenced(c, s, exec) && ObservedHealthy(c, s, exec)
            && exec in t.executions && t.executions[exec] == s.executions[exec]
            && t.executions[exec].state == E.Verified
  {
    EveryReachableWorldHasInv(c, s);
    assert ExecutionVerified(c, s, s.closedOn[incident]);
    var exec := ExecutionOf(c, s.decisions[s.closedOn[incident]], s.closedOn[incident]);
    VerifiedIsEvidenced(c, s, exec);
    MutatedStands(c, s, actions, t, exec);
  }

  /** Action `i` resolved the incident: on a verdict of the verifier that it recovered, with a healthy
      answer, the right revision and all traffic, and on a receipt that its execution is VERIFIED. */
  predicate ResolvedAt(worlds: seq<World>, actions: seq<Action>, i: nat, incident: string)
    requires i < |actions| && i < |worlds|
  {
    var a := actions[i];
    && a.Resolve? && a.key.0 == incident && incident in worlds[i].incidents
    && a.verdict.verdict == "RECOVERED" && a.verdict.httpHealthy && a.verdict.revisionMatches
    && a.verdict.allocationExclusive
    && a.receipt in worlds[i].receipts && a.receipt.key == a.key
    && a.receipt.verified && a.receipt.state == E.Verified && a.receipt.serves
    && CanTransition(worlds[i].incidents[incident], Resolved)
  }

  lemma OutsidersResolve(c: Config, s: World, a: Action, incident: string)
    requires WellNumbered(s) && Enabled(c, s, a) && !a.Proceed? && !a.ProceedToClose?
    requires incident in Step(c, s, a).incidents && Step(c, s, a).incidents[incident] == Resolved
    ensures || (incident in s.incidents && s.incidents[incident] == Resolved)
            || ResolvedAt([s], [a], 0, incident)
  {
  }

  lemma ResolvingSteps(c: Config, s: World, a: Action, t: World, incident: string)
    requires Next(c, s, a, t) && incident in t.incidents && t.incidents[incident] == Resolved
    ensures || (incident in s.incidents && s.incidents[incident] == Resolved)
            || ResolvedAt([s], [a], 0, incident)
  {
    if a.ProceedToClose? {
      ClosersKeepControlPlane(c, s, a.closer, a.input);
    } else if !a.Proceed? {
      OutsidersResolve(c, s, a, incident);
    }
  }

  /** Along every run from an empty world an incident is RESOLVED only because it was resolved on such a
      verdict and such a receipt. */
  lemma {:induction false} ResolvedWasVerified(c: Config, worlds: seq<World>, actions: seq<Action>, n: nat,
                                               incident: string)
    returns (i: nat)
    requires Path(c, worlds, actions) && worlds[0] == GENESIS && n <= |actions|
    requires incident in worlds[n].incidents && worlds[n].incidents[incident] == Resolved
    ensures i < n && ResolvedAt(worlds, actions, i, incident)
    decreases n
  {
    if n == 0 {
      assert false;
    }
    i := n - 1;
    assert NextAt(c, worlds, actions, i);
    ResolvingSteps(c, worlds[i], actions[i], worlds[n], incident);
    if incident in worlds[i].incidents && worlds[i].incidents[incident] == Resolved {
      i := ResolvedWasVerified(c, worlds, actions, i, incident);
    }
  }

  // --- what /execute answers ---

  /** The PUT of request `i` was applied. */
  predicate Acted(s: World, i: nat) {
    exists p :: 0 <= p < |s.applied| && s.applied[p].worker == i
  }

  /** What an answer claims, in the world in which it is given. */
  predicate TrueReply(s: World, i: nat, reply: Reply)
    requires i < |s.workers|
  {
    TrueOf(Acted(s, i), s.executions, s.workers[i].exec, reply)
  }

  /** The same of a request that has or has not acted, on the records as they are. */
  predicate TrueOf(acted: bool, es: E.Records, exec: string, reply: Reply) {
    match reply
    case Mutation(recorded) =>
      acted && (recorded ==> exec in es && es[exec].state == E.Mutated)
    case Reconciled(predates) =>
      !acted && exec in es && es[exec].state == E.Mutated && es[exec].effectPredates == predates
    case Refused(reason) =>
      reason.OutcomeUnknown? || !acted
    case Duplicate(terminal, predates) =>
      && !acted && exec in es && es[exec].effectPredates == predates
      && (terminal <==> E.Finished(es[exec]))
  }

  lemma UntakenHasNotActed(c: Config, s: World, i: nat)
    requires AppliedOk(c, s) && i < |s.workers|
    requires s.workers[i].put != Taken
    ensures !Acted(s, i)
  {
    forall p | 0 <= p < |s.applied|
      ensures s.applied[p].worker != i
    {
      assert Lawful(c, s, s.applied[p]);
    }
  }

  lemma TakenHasActed(c: Config, s: World, i: nat)
    requires WorkersOk(c, s) && i < |s.workers| && s.workers[i].put == Taken
    ensures Acted(s, i)
  {
    assert WorkerOk(c, s, s.workers[i]);
  }

  lemma ActedOrNot(c: Config, s: World, i: nat)
    requires WorkersOk(c, s) && AppliedOk(c, s) && i < |s.workers|
    ensures Acted(s, i) <==> s.workers[i].put == Taken
  {
    if s.workers[i].put == Taken {
      TakenHasActed(c, s, i);
    } else {
      UntakenHasNotActed(c, s, i);
    }
  }

  lemma WritesReplyTruly(s: World, v: Worker, now: int, acted: bool)
    requires Writes(v.pc) && Flow(v) && (acted <==> v.put == Taken)
    ensures var a := Advance(s, v, WriteOf(v), now);
            var next := AfterWrite(WriteOf(v), a.0);
            next.Done? ==> TrueOf(acted, a.1, v.exec, next.result)
  {
  }

  lemma WritingIs(s: World, v: Worker, now: int)
    requires v.id < |s.workers| && Writes(v.pc)
    ensures var t, a := Writing(s, v, now), Advance(s, v, WriteOf(v), now);
            t.workers[v.id] == v.(pc := AfterWrite(WriteOf(v), a.0)) && t.executions == a.1
  {
  }

  lemma WritersReplyTruly(s: World, v: Worker, now: int)
    requires v.id < |s.workers| && Writes(v.pc) && Flow(v) && (Acted(s, v.id) <==> v.put == Taken)
    ensures var t := Writing(s, v, now);
            t.workers[v.id].pc.Done? ==> TrueReply(t, v.id, t.workers[v.id].pc.result)
  {
    WritesReplyTruly(s, v, now, Acted(s, v.id));
    WritingIs(s, v, now);
    assert Acted(Writing(s, v, now), v.id) <==> Acted(s, v.id);
  }

  lemma ClaimantsReplyTruly(s: World, v: Worker, now: int)
    requires v.id < |s.workers| && v.pc.Acquire? && !Acted(s, v.id)
    ensures var t := Acquiring(s, v, now);
            t.workers[v.id].pc.Done? ==> TrueReply(t, v.id, t.workers[v.id].pc.result)
  {
    AcquiringShape(s, v, now);
    assert Acted(Acquiring(s, v, now), v.id) <==> Acted(s, v.id);
  }

  lemma ReclaimantsReplyTruly(s: World, v: Worker, now: int)
    requires v.id < |s.workers| && v.pc.Reacquire? && Acted(s, v.id)
    ensures var t := Reacquiring(s, v, now);
            t.workers[v.id].pc.Done? ==> TrueReply(t, v.id, t.workers[v.id].pc.result)
  {
    ReacquiringShape(s, v, now);
    assert Acted(Reacquiring(s, v, now), v.id) <==> Acted(s, v.id);
  }

  lemma ReleasersReplyTruly(c: Config, s: World, v: Worker, now: int)
    requires Poised(c, s, v) && v.pc.Releasing? && (Acted(s, v.id) <==> v.put == Taken)
    ensures var t := GivingBack(s, v, now);
            t.workers[v.id].pc.Done? ==> TrueReply(t, v.id, t.workers[v.id].pc.result)
  {
    GivingBackShape(s, v, now);
    assert Acted(GivingBack(s, v, now), v.id) <==> Acted(s, v.id);
    assert Excuses(v.pc.reply, v.put);
  }

  lemma RefusalIsTrue(s: World, t: World, i: nat)
    requires i < |t.workers| && t.applied == s.applied && !Acted(s, i)
    requires t.workers[i].pc.Done? ==> t.workers[i].pc.result.Refused?
    ensures t.workers[i].pc.Done? ==> TrueReply(t, i, t.workers[i].pc.result)
  {
    assert Acted(t, i) <==> Acted(s, i);
  }

  /** The other steps end with a refusal if they end, and only before any PUT was sent. */
  lemma IdleStepsReplyTruly(c: Config, s: World, v: Worker, x: Input)
    requires v.id < |s.workers| && Idle(v.pc) && !v.pc.Done? && s.workers[v.id] == v
    requires !MayHavePut(v.pc) ==> !Acted(s, v.id)
    ensures var t := Work(c, s, v, x);
            t.workers[v.id].pc.Done? ==> TrueReply(t, v.id, t.workers[v.id].pc.result)
  {
    IdleStepsRefuse(c, s, v, x);
    if !MayHavePut(v.pc) {
      RefusalIsTrue(s, Work(c, s, v, x), v.id);
    }
  }

  lemma IdleStepsRefuse(c: Config, s: World, v: Worker, x: Input)
    requires v.id < |s.workers| && Idle(v.pc) && !v.pc.Done? && s.workers[v.id] == v
    ensures var next := Work(c, s, v, x).workers[v.id].pc;
            next.Done? ==> next.result.Refused? && !MayHavePut(v.pc)
  {
    if Private(v.pc) {
      PrivateStepsKeepRecords(c, s, v, x);
      PrivateRepliesRefuse(c, s, v, x);
    } else if v.pc.Look? {
      LookingKeepsRecords(s, v, x);
      assert Work(c, s, v, x) == Looking(s, v, x);
    } else if v.pc.Bind? {
      assert Work(c, s, v, x) == Binding(s, v);
    }
  }

  lemma PrivateRepliesRefuse(c: Config, s: World, v: Worker, x: Input)
    requires v.id < |s.workers| && Private(v.pc)
    ensures var next := Privately(c, s, v, x).pc;
            next.Done? ==> next.result.Refused? && !MayHavePut(v.pc)
  {
  }

  /** Whatever /execute answers is true when it answers: a reported mutation was applied, a
      reconciliation applied nothing and the record says whose effect it was, and any refusal but
      OUTCOME_UNKNOWN comes from a request that changed nothing. */
  lemma RepliesAreTrue(c: Config, s: World, i: nat, x: Input)
    requires Reachable(c, s) && WellNumbered(s) && Enabled(c, s, Proceed(i, x)) && !s.workers[i].pc.Done?
    ensures var t := Step(c, s, Proceed(i, x));
            t.workers[i].pc.Done? ==> TrueReply(t, i, t.workers[i].pc.result)
  {
    EveryReachableWorldHasInv(c, s);
    ActedOrNot(c, s, i);
    FlowOf(c, s, i);
    if Holds(s.workers[i]) {
      InvMeansPoised(c, s, i);
    }
    RequestsReplyTruly(c, s, s.workers[i], x);
  }

  lemma FlowOf(c: Config, s: World, i: nat)
    requires WorkersOk(c, s) && i < |s.workers|
    ensures s.workers[i].id == i && Flow(s.workers[i])
  {
    assert WorkerOk(c, s, s.workers[i]);
  }

  lemma RequestsReplyTruly(c: Config, s: World, v: Worker, x: Input)
    requires v.id < |s.workers| && s.workers[v.id] == v && Flow(v) && !v.pc.Done?
    requires Holds(v) ==> Poised(c, s, v)
    requires Acted(s, v.id) <==> v.put == Taken
    ensures var t := Work(c, s, v, x);
            t.workers[v.id].pc.Done? ==> TrueReply(t, v.id, t.workers[v.id].pc.result)
  {
    if Idle(v.pc) {
      IdleStepsReplyTruly(c, s, v, x);
    } else if Writes(v.pc) {
      WritersReplyTruly(s, v, x.now);
      assert Work(c, s, v, x) == Writing(s, v, x.now);
    } else if v.pc.Acquire? {
      ClaimantsReplyTruly(s, v, x.now);
      assert Work(c, s, v, x) == Acquiring(s, v, x.now);
    } else if v.pc.Reacquire? {
      ReclaimantsReplyTruly(s, v, x.now);
      assert Work(c, s, v, x) == Reacquiring(s, v, x.now);
    } else {
      ReleasersReplyTruly(c, s, v, x.now);
      assert Work(c, s, v, x) == GivingBack(s, v, x.now);
    }
  }
}
