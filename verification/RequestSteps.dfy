/** The steps of an /execute request keep the invariant. */
module RequestSteps {
  import opened Prelude
  import opened Authority
  import opened Protocol
  import opened Invariant
  import opened Preservation
  import E = Execution

  /** The request goes from `v` to `w` without gaining a hold it did not have. */
  predicate Continues(v: Worker, w: Worker) {
    && v.id == w.id
    && (Holds(w) ==> Holds(v) && w.exec == v.exec && w.epoch == v.epoch)
    && (Engaged(w) ==> Engaged(v) && w.exec == v.exec)
    && (v.put == Taken ==> w.put == Taken && w.exec == v.exec)
  }

  lemma ContinuedIsCompatible(v: Worker, w: Worker, u: Worker)
    requires Compatible(v, u) && Continues(v, w)
    ensures Compatible(w, u)
  {
  }

  lemma PairsAreSymmetric(c: Config, s: World, i: nat, j: nat)
    requires PairsOk(s) && i < |s.workers| && j < |s.workers| && i != j
    ensures Compatible(s.workers[i], s.workers[j])
  {
    if j < i {
      assert Compatible(s.workers[j], s.workers[i]);
    }
  }

  // --- steps that leave every record alone ---

  lemma QuietStepKeepsInv(c: Config, s: World, t: World, w: Worker)
    requires Inv(c, s) && w.id < |s.workers| && Continues(s.workers[w.id], w)
    requires t == With(s, w).(bindings := t.bindings, sighted := t.sighted, cleared := t.cleared)
    requires Grows(s, t) && SightingsOk(c, t) && ClearancesOk(t) && WorkerOk(c, t, w)
    ensures Inv(c, t)
  {
    forall j | 0 <= j < |s.workers| && j != w.id
      ensures Spared(s, t, s.workers[j]) && Compatible(w, s.workers[j])
    {
      SparedByNothing(c, s, t, j);
      PairsAreSymmetric(c, s, w.id, j);
      ContinuedIsCompatible(s.workers[w.id], w, s.workers[j]);
    }
    if w.exec in t.executions {
      RecordStays(c, s, t, w.exec);
    }
    OneStepKeepsInv(c, s, t, w);
  }

  lemma SparedByNothing(c: Config, s: World, t: World, j: nat)
    requires WorkersOk(c, s) && j < |s.workers| && t.executions == s.executions
    ensures Spared(s, t, s.workers[j])
  {
    assert WorkerOk(c, s, s.workers[j]);
  }

  lemma LocalStepKeepsInv(c: Config, s: World, w: Worker)
    requires Inv(c, s) && w.id < |s.workers| && Continues(s.workers[w.id], w) && WorkerOk(c, s, w)
    ensures Inv(c, With(s, w))
  {
    var t := With(s, w);
    GrowsByNothing(s, t);
    SightingsStay(c, s, t);
    assert Spared(s, t, w);
    WorkerStays(c, s, t, w);
    QuietStepKeepsInv(c, s, t, w);
  }

  lemma GrowsByNothing(s: World, t: World)
    requires t.decisions == s.decisions && t.approvals == s.approvals && t.bindings == s.bindings
    requires t.executions == s.executions
    requires t.applied == s.applied && t.sighted == s.sighted && t.closings == s.closings && t.cleared == s.cleared
    ensures Grows(s, t) && KeepsVerified(s, t)
  {
  }

  /** Ending, in whatever way, is always safe; so is going on to re-acquire a lapsed lease. */
  predicate Ends(v: Worker, next: PC) {
    next.Done? || next.Crashed? || (next.Reacquire? && v.pc.WriteMutated?)
  }

  lemma EndedIsOk(c: Config, s: World, v: Worker, next: PC)
    requires WorkerOk(c, s, v) && Ends(v, next)
    ensures WorkerOk(c, s, v.(pc := next)) && Continues(v, v.(pc := next))
  {
  }

  lemma EndingKeepsInv(c: Config, s: World, v: Worker, next: PC)
    requires Inv(c, s) && v.id < |s.workers| && s.workers[v.id] == v && Ends(v, next)
    ensures Inv(c, With(s, v.(pc := next)))
  {
    assert WorkerOk(c, s, v);
    EndedIsOk(c, s, v, next);
    LocalStepKeepsInv(c, s, v.(pc := next));
  }

  // --- steps that write the request's own record ---

  /** No other request on the same execution has a PUT out. */
  predicate AloneEngaged(s: World, w: Worker) {
    forall j :: 0 <= j < |s.workers| && j != w.id && s.workers[j].exec == w.exec ==> !Engaged(s.workers[j])
  }

  lemma UnattemptedMeansAlone(c: Config, s: World, w: Worker)
    requires WorkersOk(c, s) && w.exec in s.executions
    requires Unattempted(s.executions[w.exec])
    ensures AloneEngaged(s, w)
  {
    forall j | 0 <= j < |s.workers| && j != w.id && s.workers[j].exec == w.exec
      ensures !Engaged(s.workers[j])
    {
      assert WorkerOk(c, s, s.workers[j]);
    }
  }

  lemma EngagedMeansAlone(c: Config, s: World, w: Worker)
    requires PairsOk(s) && w.id < |s.workers| && s.workers[w.id].exec == w.exec && Engaged(s.workers[w.id])
    ensures AloneEngaged(s, w)
  {
    forall j | 0 <= j < |s.workers| && j != w.id && s.workers[j].exec == w.exec
      ensures !Engaged(s.workers[j])
    {
      PairsAreSymmetric(c, s, w.id, j);
    }
  }

  /** A write under the record's current epoch. */
  predicate HolderWrites(s: World, v: Worker, w: Worker, r: E.Record) {
    && v.exec in s.executions
    && var before := s.executions[v.exec];
       && Holds(v) && v.epoch == before.epoch == r.epoch && w.epoch == v.epoch
       && !E.Finished(before)
  }

  /** A takeover, or the first claim. */
  predicate Claims(s: World, v: Worker, w: Worker, r: E.Record) {
    && w.epoch == r.epoch
    && (v.exec in s.executions ==>
          var before := s.executions[v.exec];
          && r.epoch == before.epoch + 1 && !E.Finished(before)
          && r.state == before.state && r.effectPredates == before.effectPredates)
  }

  /** What is written leaves no engaged request behind. */
  predicate HeedsEngaged(s: World, v: Worker, w: Worker, r: E.Record) {
    && (Engaged(w) ==> Engaged(v) || AloneEngaged(s, w))
    && (AloneEngaged(s, w) || v.exec !in s.executions ||
        (&& r.state in {E.MutationRequested, E.Mutated}
         && (r.effectPredates ==> s.executions[v.exec].effectPredates))
        || (r.state == s.executions[v.exec].state && r.effectPredates == s.executions[v.exec].effectPredates))
  }

  function Recorded(s: World, w: Worker, r: E.Record): World
    requires w.id < |s.workers|
  {
    With(s, w).(executions := s.executions[w.exec := r])
  }

  lemma OthersAreSpared(c: Config, s: World, w: Worker, r: E.Record, j: nat)
    requires WorkersOk(c, s) && PairsOk(s) && w.id < |s.workers| && j < |s.workers| && j != w.id
    requires var v := s.workers[w.id];
             v.exec == w.exec && HeedsEngaged(s, v, w, r) && (HolderWrites(s, v, w, r) || Claims(s, v, w, r))
    requires s.workers[w.id].put == Taken || Engaged(s.workers[w.id]) ==> w.exec in s.executions
    ensures Spared(s, Recorded(s, w, r), s.workers[j]) && Compatible(w, s.workers[j])
  {
    var v, u := s.workers[w.id], s.workers[j];
    PairsAreSymmetric(c, s, w.id, j);
    assert WorkerOk(c, s, u);
    if u.exec == w.exec && Knows(u, 5) {
      assert Fits(u, s.executions[u.exec]);
    }
  }

  lemma WriteGrows(s: World, w: Worker, r: E.Record)
    requires w.id < |s.workers|
    requires w.exec in s.executions ==> !E.Finished(s.executions[w.exec])
    ensures Grows(s, Recorded(s, w, r)) && KeepsVerified(s, Recorded(s, w, r))
  {
  }

  lemma WriteIsOneStep(c: Config, s: World, w: Worker, r: E.Record)
    requires SightingsOk(c, s) && ClearancesOk(s) && w.id < |s.workers|
    requires s.workers[w.id].put == Taken ==> w.put == Taken && w.exec == s.workers[w.id].exec
    requires w.exec in s.executions ==> !E.Finished(s.executions[w.exec])
    requires RecordOk(c, s, w.exec, r)
    ensures OneStep(c, s, Recorded(s, w, r), w)
  {
    WriteGrows(s, w, r);
    HistoriesStay(c, s, Recorded(s, w, r), w.exec, r);
    SightingsStay(c, s, Recorded(s, w, r));
  }

  lemma RecordWriteKeepsInv(c: Config, s: World, w: Worker, r: E.Record)
    requires Inv(c, s) && w.id < |s.workers|
    requires var v := s.workers[w.id];
             && v.exec == w.exec && HeedsEngaged(s, v, w, r) && (HolderWrites(s, v, w, r) || Claims(s, v, w, r))
             && (v.put == Taken ==> w.put == Taken)
    requires s.workers[w.id].put == Taken || Engaged(s.workers[w.id]) ==> w.exec in s.executions
    requires WorkerOk(c, Recorded(s, w, r), w)
    requires RecordOk(c, s, w.exec, r)
    ensures Inv(c, Recorded(s, w, r))
  {
    WriteIsOneStep(c, s, w, r);
    forall j | 0 <= j < |s.workers| && j != w.id
      ensures Spared(s, Recorded(s, w, r), s.workers[j]) && Compatible(w, s.workers[j])
    {
      OthersAreSpared(c, s, w, r, j);
    }
    OneStepKeepsInv(c, s, Recorded(s, w, r), w);
  }

  // --- private steps ---

  lemma DecisionReadIsOk(c: Config, s: World, v: Worker, x: Input)
    requires WorkerOk(c, s, v) && v.pc.ReadDecision?
    ensures WorkerOk(c, s, Privately(c, s, v, x)) && Continues(v, Privately(c, s, v, x))
  {
    if v.key !in s.decisions {
      EndedIsOk(c, s, v, Done(Refused(DecisionMissing)));
    }
  }

  lemma IncidentReadIsOk(c: Config, s: World, v: Worker, x: Input)
    requires WorkerOk(c, s, v) && v.pc.ReadIncident?
    ensures WorkerOk(c, s, Privately(c, s, v, x)) && Continues(v, Privately(c, s, v, x))
  {
    if v.key.0 !in s.incidents {
      EndedIsOk(c, s, v, Done(Refused(IncidentMissing)));
    }
  }

  lemma CheckedIsOk(c: Config, s: World, v: Worker, now: int)
    requires WorkerOk(c, s, v) && v.pc.Check?
    ensures WorkerOk(c, s, Checking(c, s, v, now)) && Continues(v, Checking(c, s, v, now))
  {
    if Validate(c, v.decision, v.key.0, Some(v.status), ApprovalOf(s, v.decision), now).None? {
      ValidationSanctions(c, v.decision, v.key.0, Some(v.status), ApprovalOf(s, v.decision), now);
    }
  }

  lemma MovedOnIsOk(c: Config, s: World, v: Worker, w: Worker)
    requires WorkerOk(c, s, v) && Holds(v) && Holds(w)
    requires w == v.(pc := w.pc, snapshot := w.snapshot, put := w.put) && (w.put == Taken ==> v.put == Taken)
    requires Flow(w) && Fits(w, s.executions[v.exec]) && (w.pc.WriteReconciled? ==> WasSighted(c, s, w.exec))
    requires Armed(w) ==> SnapshotOk(s, w)
    requires Commits(w) ==> WasCleared(s, w.id, w.decision)
    ensures WorkerOk(c, s, w)
  {
  }

  /** Within a hold, from one point that is agreed on to the next, nothing else changes. */
  lemma PointMovesOn(c: Config, s: World, v: Worker, next: PC)
    requires WorkerOk(c, s, v) && Holds(v) && v.put == NoPut && Rank(next) == 5
    requires Flow(v.(pc := next)) && Fits(v.(pc := next), s.executions[v.exec])
    requires !next.WriteRequested? && !next.Send? && (next.WriteReconciled? ==> WasSighted(c, s, v.exec))
    requires Commits(v.(pc := next)) ==> WasCleared(s, v.id, v.decision)
    ensures WorkerOk(c, s, v.(pc := next)) && (!next.Await? && !next.WriteRewind? ==> Continues(v, v.(pc := next)))
  {
    MovedOnIsOk(c, s, v, v.(pc := next));
  }

  lemma RecheckedIsOk(c: Config, s: World, v: Worker, x: Input)
    requires WorkerOk(c, s, v) && v.pc.Recheck?
    ensures WorkerOk(c, s, Privately(c, s, v, x)) && Continues(v, Privately(c, s, v, x))
  {
    var w := Privately(c, s, v, x);
    if w.pc.Crashed? {
      EndedIsOk(c, s, v, Crashed);
    } else {
      assert Fits(v, s.executions[v.exec]);
      PointMovesOn(c, s, v, w.pc);
    }
  }

  lemma SnapshotIsOk(c: Config, s: World, v: Worker, x: Input)
    requires WorkerOk(c, s, v) && ServicesOk(s) && v.pc.ReadSnapshot?
    ensures WorkerOk(c, s, Privately(c, s, v, x)) && Continues(v, Privately(c, s, v, x))
  {
    var w := Privately(c, s, v, x);
    if w.pc.Crashed? {
      EndedIsOk(c, s, v, Crashed);
    } else {
      assert Fits(v, s.executions[v.exec]) && SnapshotOk(s, w);
      MovedOnIsOk(c, s, v, w);
    }
  }

  lemma FlightIsOk(c: Config, s: World, v: Worker)
    requires WorkerOk(c, s, v) && v.pc.Send?
    ensures WorkerOk(c, s, v.(pc := Await, put := InFlight)) && Continues(v, v.(pc := Await, put := InFlight))
  {
    assert Fits(v, s.executions[v.exec]) && SnapshotOk(s, v);
    MovedOnIsOk(c, s, v, v.(pc := Await, put := InFlight));
  }

  lemma SentIsOk(c: Config, s: World, v: Worker, x: Input)
    requires WorkerOk(c, s, v) && v.pc.Send?
    ensures WorkerOk(c, s, Privately(c, s, v, x)) && Continues(v, Privately(c, s, v, x))
  {
    if Body(v).Ok? {
      FlightIsOk(c, s, v);
    } else {
      EndedIsOk(c, s, v, Crashed);
    }
  }

  lemma AnsweredIsOk(c: Config, s: World, v: Worker, answer: Answer)
    requires WorkerOk(c, s, v) && v.pc.Await? && AnswerFits(v, answer)
    ensures WorkerOk(c, s, Answered(v, answer)) && Continues(v, Answered(v, answer))
  {
    if answer == Lost {
      EndedIsOk(c, s, v, Crashed);
    } else {
      assert Fits(v, s.executions[v.exec]);
      MovedOnIsOk(c, s, v, Answered(v, answer));
    }
  }

  lemma PrivateStepIsOk(c: Config, s: World, v: Worker, x: Input)
    requires WorkerOk(c, s, v) && ServicesOk(s) && Private(v.pc)
    requires v.pc.Await? ==> AnswerFits(v, x.answer)
    ensures WorkerOk(c, s, Privately(c, s, v, x)) && Continues(v, Privately(c, s, v, x))
  {
    match v.pc
    case ReadDecision => DecisionReadIsOk(c, s, v, x);
    case ReadIncident => IncidentReadIsOk(c, s, v, x);
    case Check => CheckedIsOk(c, s, v, x.now);
    case Recheck => RecheckedIsOk(c, s, v, x);
    case ReadSnapshot => SnapshotIsOk(c, s, v, x);
    case Send => SentIsOk(c, s, v, x);
    case Await => AnsweredIsOk(c, s, v, x.answer);
  }

  lemma PrivateStepKeepsInv(c: Config, s: World, v: Worker, x: Input)
    requires Inv(c, s) && v.id < |s.workers| && s.workers[v.id] == v && Private(v.pc)
    requires v.pc.Await? ==> AnswerFits(v, x.answer)
    ensures Inv(c, With(s, Privately(c, s, v, x)))
  {
    assert WorkerOk(c, s, v);
    PrivateStepIsOk(c, s, v, x);
    LocalStepKeepsInv(c, s, Privately(c, s, v, x));
  }

  // --- binding and looking ---

  lemma BindingShape(s: World, v: Worker)
    requires v.id < |s.workers| && v.pc.Bind?
    ensures var t := Binding(s, v);
            && t == With(s, t.workers[v.id]).(bindings := t.bindings) && Grows(s, t)
            && t.workers[v.id] == v.(pc := t.workers[v.id].pc)
            && (t.workers[v.id].pc.Done?
                || (&& t.workers[v.id].pc.Acquire?
                    && v.fingerprint in t.bindings && t.bindings[v.fingerprint].executionId == v.exec))
  {
  }

  lemma BoundIsOk(c: Config, s: World, v: Worker)
    requires WorkerOk(c, s, v) && v.pc.Bind? && v.id < |s.workers|
    ensures Continues(v, Binding(s, v).workers[v.id]) && WorkerOk(c, Binding(s, v), Binding(s, v).workers[v.id])
  {
    BindingShape(s, v);
    var t := Binding(s, v);
    if t.workers[v.id].pc.Done? {
      EndedIsOk(c, s, v, t.workers[v.id].pc);
    } else {
      assert WorkerOk(c, s, v);
    }
  }

  lemma BindingKeepsInv(c: Config, s: World, v: Worker)
    requires Inv(c, s) && v.id < |s.workers| && s.workers[v.id] == v && v.pc.Bind?
    ensures Inv(c, Binding(s, v))
  {
    assert WorkerOk(c, s, v);
    BindingShape(s, v);
    BoundIsOk(c, s, v);
    SightingsStay(c, s, Binding(s, v));
    QuietStepKeepsInv(c, s, Binding(s, v), Binding(s, v).workers[v.id]);
  }

  function Looked(v: Worker, x: Input): Worker {
    v.(pc := Decide(v, Seen(v, x)))
  }

  lemma SightingWarrants(c: Config, s: World, v: Worker, x: Input)
    requires v.pc.Look? && v.id < |s.workers| && Looked(v, x).pc.WriteReconciled?
    ensures WasSighted(c, Looking(s, v, x), v.exec)
  {
    assert Sighting(v.exec, v.key, x.described) in Looking(s, v, x).sighted;
  }

  lemma ClearanceWarrants(s: World, v: Worker, x: Input)
    requires v.pc.Look? && v.id < |s.workers| && Looked(v, x).pc.WriteChecked?
    ensures WasCleared(Looking(s, v, x), v.id, v.decision)
  {
    assert Clearance(v.id, v.decision, x.described, x.probed) in Looking(s, v, x).cleared;
  }

  /** What is recorded as cleared shows all that must be seen. */
  lemma LookingClears(s: World, v: Worker, x: Input)
    requires v.pc.Look? && v.id < |s.workers| && ClearancesOk(s)
    ensures ClearancesOk(Looking(s, v, x))
  {
    BranchesExactly(v, x);
  }

  lemma LookerStays(c: Config, s: World, t: World, v: Worker)
    requires WorkerOk(c, s, v) && v.pc.Look? && Grows(s, t) && t.executions == s.executions
    ensures WorkerOk(c, t, v)
  {
    WorkerStays(c, s, t, v);
  }

  /** A branch is only taken on what the record allows. */
  lemma BranchFits(v: Worker, x: Input, r: E.Record)
    requires v.pc.Look? && Flow(v) && Fits(v, r)
    ensures Rank(Looked(v, x).pc) == 5 && Flow(Looked(v, x)) && Fits(Looked(v, x), r)
    ensures !Looked(v, x).pc.WriteRequested? && !Looked(v, x).pc.Send? && !Looked(v, x).pc.Await?
    ensures !Looked(v, x).pc.WriteRewind?
  {
  }

  lemma LookedIsOk(c: Config, s: World, v: Worker, x: Input)
    requires WorkerOk(c, s, v) && v.pc.Look? && v.id < |s.workers| && Grows(s, Looking(s, v, x))
    ensures WorkerOk(c, Looking(s, v, x), Looked(v, x)) && Continues(v, Looked(v, x))
  {
    var t := Looking(s, v, x);
    LookerStays(c, s, t, v);
    BranchFits(v, x, t.executions[v.exec]);
    if Looked(v, x).pc.WriteReconciled? {
      SightingWarrants(c, s, v, x);
    }
    if Looked(v, x).pc.WriteChecked? {
      ClearanceWarrants(s, v, x);
    }
    PointMovesOn(c, t, v, Looked(v, x).pc);
  }

  /** What is recorded as sighted is the authorized revision of a stored decision, taking it all. */
  lemma LookingSights(c: Config, s: World, v: Worker, x: Input)
    requires WorkerOk(c, s, v) && v.pc.Look? && v.id < |s.workers| && SightingsOk(c, s)
    ensures SightingsOk(c, Looking(s, v, x)) && Grows(s, Looking(s, v, x))
    ensures Looking(s, v, x) ==
            With(s, Looked(v, x)).(sighted := Looking(s, v, x).sighted, cleared := Looking(s, v, x).cleared)
  {
  }

  lemma LookingKeepsInv(c: Config, s: World, v: Worker, x: Input)
    requires Inv(c, s) && v.id < |s.workers| && s.workers[v.id] == v && v.pc.Look?
    ensures Inv(c, Looking(s, v, x))
  {
    assert WorkerOk(c, s, v);
    LookingSights(c, s, v, x);
    LookingClears(s, v, x);
    LookedIsOk(c, s, v, x);
    QuietStepKeepsInv(c, s, Looking(s, v, x), Looked(v, x));
  }

  // --- claiming ---

  lemma ClaimIsRooted(c: Config, s: World, w: Worker)
    requires WorkerOk(c, s, w) && Knows(w, 4)
    ensures Rooted(c, s, w.exec, E.Fresh(ClaimOf(w), w.owner, 0, 0))
  {
  }

  lemma AcquiredRecordIsOk(c: Config, s: World, v: Worker, now: int)
    requires WorkerOk(c, s, v) && Knows(v, 4) && RecordsOk(c, s)
    ensures Try(s, v, now).0 in {E.Acquired, E.Recovered} ==> RecordOk(c, s, v.exec, Try(s, v, now).1)
  {
    ClaimIsRooted(c, s, v);
  }

  function Claimant(v: Worker, r: E.Record): Worker {
    if v.pc.Acquire? then v.(pc := Look, epoch := r.epoch, record := r)
    else v.(pc := WriteMutatedAgain, epoch := r.epoch)
  }

  lemma ClaimHeeds(c: Config, s: World, v: Worker, now: int)
    requires WorkerOk(c, s, v) && (v.pc.Acquire? || v.pc.Reacquire?)
    ensures var a := Try(s, v, now);
            a.0 in {E.Acquired, E.Recovered} ==>
              && Claims(s, v, Claimant(v, a.1), a.1) && HeedsEngaged(s, v, Claimant(v, a.1), a.1)
              && a.2 == s.executions[v.exec := a.1]
  {
  }

  /** The claimant holds the newest epoch, and what it carries away is what the record says. */
  lemma AcquirerStaysOk(c: Config, s: World, v: Worker, now: int)
    requires WorkerOk(c, s, v) && v.pc.Acquire? && v.id < |s.workers| && Try(s, v, now).0 in {E.Acquired, E.Recovered}
    ensures var r := Try(s, v, now).1; WorkerOk(c, Recorded(s, Claimant(v, r), r), Claimant(v, r))
  {
  }

  lemma ReacquirerStaysOk(c: Config, s: World, v: Worker, now: int)
    requires WorkerOk(c, s, v) && v.pc.Reacquire? && v.id < |s.workers| && Try(s, v, now).0 in {E.Acquired, E.Recovered}
    ensures var r := Try(s, v, now).1; WorkerOk(c, Recorded(s, Claimant(v, r), r), Claimant(v, r))
  {
  }

  lemma ClaimantStaysOk(c: Config, s: World, v: Worker, now: int)
    requires WorkerOk(c, s, v) && (v.pc.Acquire? || v.pc.Reacquire?) && v.id < |s.workers|
    requires Try(s, v, now).0 in {E.Acquired, E.Recovered}
    ensures var r := Try(s, v, now).1; WorkerOk(c, Recorded(s, Claimant(v, r), r), Claimant(v, r))
  {
    if v.pc.Acquire? {
      AcquirerStaysOk(c, s, v, now);
    } else {
      ReacquirerStaysOk(c, s, v, now);
    }
  }

  lemma ClaimKeepsInv(c: Config, s: World, v: Worker, now: int)
    requires Inv(c, s) && v.id < |s.workers| && s.workers[v.id] == v && (v.pc.Acquire? || v.pc.Reacquire?)
    requires Try(s, v, now).0 in {E.Acquired, E.Recovered}
    ensures Inv(c, Recorded(s, Claimant(v, Try(s, v, now).1), Try(s, v, now).1))
  {
    assert WorkerOk(c, s, v);
    AcquiredRecordIsOk(c, s, v, now);
    ClaimHeeds(c, s, v, now);
    ClaimantStaysOk(c, s, v, now);
    RecordWriteKeepsInv(c, s, Claimant(v, Try(s, v, now).1), Try(s, v, now).1);
  }

  lemma AcquiringShape(s: World, v: Worker, now: int)
    requires v.id < |s.workers| && v.pc.Acquire?
    ensures var a := Try(s, v, now);
            if a.0 in {E.Acquired, E.Recovered}
            then Acquiring(s, v, now) == Recorded(s, Claimant(v, a.1), a.1)
            else Acquiring(s, v, now) ==
                 With(s, v.(pc := Done(Duplicate(a.0 == E.AlreadyFinished, a.1.effectPredates))))
  {
  }

  lemma AcquiringKeepsInv(c: Config, s: World, v: Worker, now: int)
    requires Inv(c, s) && v.id < |s.workers| && s.workers[v.id] == v && v.pc.Acquire?
    ensures Inv(c, Acquiring(s, v, now))
  {
    var a := Try(s, v, now);
    AcquiringShape(s, v, now);
    if a.0 in {E.Acquired, E.Recovered} {
      ClaimKeepsInv(c, s, v, now);
    } else {
      EndingKeepsInv(c, s, v, Done(Duplicate(a.0 == E.AlreadyFinished, a.1.effectPredates)));
    }
  }

  lemma ReacquiringShape(s: World, v: Worker, now: int)
    requires v.id < |s.workers| && v.pc.Reacquire?
    ensures var a := Try(s, v, now);
            if a.0 in {E.Acquired, E.Recovered}
            then Reacquiring(s, v, now) == Recorded(s, Claimant(v, a.1), a.1)
            else Reacquiring(s, v, now) == With(s, v.(pc := Done(Mutation(false))))
  {
  }

  lemma ReacquiringKeepsInv(c: Config, s: World, v: Worker, now: int)
    requires Inv(c, s) && v.id < |s.workers| && s.workers[v.id] == v && v.pc.Reacquire?
    ensures Inv(c, Reacquiring(s, v, now))
  {
    ReacquiringShape(s, v, now);
    if Try(s, v, now).0 in {E.Acquired, E.Recovered} {
      ClaimKeepsInv(c, s, v, now);
    } else {
      EndingKeepsInv(c, s, v, Done(Mutation(false)));
    }
  }

  // --- writes under the fence ---

  /** A request in good order, with what the invariant says about its record and its rivals. */
  ghost predicate Poised(c: Config, s: World, v: Worker) {
    && v.id < |s.workers| && s.workers[v.id] == v && Holds(v)
    && WorkerOk(c, s, v) && v.exec in s.executions
    && RecordOk(c, s, v.exec, s.executions[v.exec])
    && (s.executions[v.exec].state !in {E.MutationRequested, E.Mutated, E.Verified} || Engaged(v) ==>
          AloneEngaged(s, v))
  }

  lemma InvMeansPoised(c: Config, s: World, i: nat)
    requires WorkersOk(c, s) && PairsOk(s) && RecordsOk(c, s)
    requires i < |s.workers| && Holds(s.workers[i])
    ensures s.workers[i].id == i && Poised(c, s, s.workers[i])
  {
    var v := s.workers[i];
    assert WorkerOk(c, s, v);
    if s.executions[v.exec].state !in {E.MutationRequested, E.Mutated, E.Verified} {
      UnattemptedMeansAlone(c, s, v);
    }
    if Engaged(v) {
      EngagedMeansAlone(c, s, v);
    }
  }

  /** What makes the write of `r` by the holder `v`, which then becomes `w`, safe. */
  ghost predicate SafeWrite(c: Config, s: World, v: Worker, w: Worker, r: E.Record) {
    && w == v.(pc := w.pc)
    && HeedsEngaged(s, v, w, r)
    && RecordOk(c, s, w.exec, r)
    && Flow(w)
    && (w.pc.Done? || (Holds(w) && Agrees(w, r)))
    && !w.pc.WriteReconciled? && (Armed(w) ==> Armed(v)) && (Commits(w) ==> Commits(v))
    && (Engaged(w) ==> r.state in {E.MutationRequested, E.Mutated} && !r.effectPredates)
  }

  lemma WriterStaysOk(c: Config, s: World, v: Worker, w: Worker, r: E.Record)
    requires WorkerOk(c, s, v) && w.id < |s.workers| && HolderWrites(s, v, w, r) && SafeWrite(c, s, v, w, r)
    ensures WorkerOk(c, Recorded(s, w, r), w)
  {
    assert Armed(w) ==> SnapshotOk(s, v);
  }

  lemma SafeWriteKeepsInv(c: Config, s: World, v: Worker, w: Worker, r: E.Record)
    requires Inv(c, s) && v.id < |s.workers| && s.workers[v.id] == v
    requires HolderWrites(s, v, w, r) && SafeWrite(c, s, v, w, r)
    ensures Inv(c, Recorded(s, w, r))
  {
    assert WorkerOk(c, s, v);
    WriterStaysOk(c, s, v, w, r);
    RecordWriteKeepsInv(c, s, w, r);
  }

  predicate Passes(s: World, v: Worker, u: Write, now: int) {
    Advance(s, v, u, now).0 == E.Advanced
  }

  function After(s: World, v: Worker, u: Write): E.Record
    requires v.exec in s.executions
  {
    E.Progressed(s.executions[v.exec], u.to, u.effect)
  }

  function Refusal(s: World, v: Worker, now: int): PC
    requires Writes(v.pc)
  {
    AfterWrite(WriteOf(v), Advance(s, v, WriteOf(v), now).0)
  }

  lemma WritingShape(s: World, v: Worker, now: int)
    requires v.id < |s.workers| && Writes(v.pc)
    ensures var u := WriteOf(v);
            if Passes(s, v, u, now)
            then v.exec in s.executions && Writing(s, v, now) == Recorded(s, v.(pc := u.ok), After(s, v, u))
            else Writing(s, v, now) == With(s, v.(pc := Refusal(s, v, now)))
  {
  }

  lemma PassingIsHolding(s: World, v: Worker, u: Write, now: int)
    requires Holds(v) && Passes(s, v, u, now)
    ensures v.exec in s.executions && HolderWrites(s, v, v.(pc := u.ok), After(s, v, u))
    ensures s.executions[v.exec].state in u.gate
  {
  }

  lemma ReconcilingIsSafe(c: Config, s: World, v: Worker, now: int)
    requires Poised(c, s, v) && v.pc.WriteReconciled? && Passes(s, v, WriteOf(v), now)
    ensures SafeWrite(c, s, v, v.(pc := WriteOf(v).ok), After(s, v, WriteOf(v)))
  {
    PassingIsHolding(s, v, WriteOf(v), now);
    assert Agrees(v, s.executions[v.exec]);
  }

  lemma UnattemptedMeansAloneNow(c: Config, s: World, v: Worker, now: int)
    requires Poised(c, s, v) && (v.pc.WriteStale? || v.pc.WriteChecked?) && Passes(s, v, WriteOf(v), now)
    ensures HolderWrites(s, v, v.(pc := WriteOf(v).ok), After(s, v, WriteOf(v)))
    ensures s.executions[v.exec].state in {E.Claimed, E.PreconditionChecked} && !s.executions[v.exec].effectPredates
    ensures AloneEngaged(s, v.(pc := WriteOf(v).ok)) && !Engaged(v)
  {
    PassingIsHolding(s, v, WriteOf(v), now);
    assert Agrees(v, s.executions[v.exec]);
  }

  /** Neither STALE nor PRECONDITION_CHECKED is written over an execution with a PUT out. */
  lemma StaleIsSafe(c: Config, s: World, v: Worker, now: int)
    requires Poised(c, s, v) && v.pc.WriteStale? && Passes(s, v, WriteOf(v), now)
    ensures SafeWrite(c, s, v, v.(pc := WriteOf(v).ok), After(s, v, WriteOf(v)))
  {
    UnattemptedMeansAloneNow(c, s, v, now);
  }

  lemma CheckingIsSafe(c: Config, s: World, v: Worker, now: int)
    requires Poised(c, s, v) && v.pc.WriteChecked? && Passes(s, v, WriteOf(v), now)
    ensures SafeWrite(c, s, v, v.(pc := WriteOf(v).ok), After(s, v, WriteOf(v)))
  {
    UnattemptedMeansAloneNow(c, s, v, now);
  }

  lemma RequestingIsSafe(c: Config, s: World, v: Worker, now: int)
    requires Poised(c, s, v) && v.pc.WriteRequested? && Passes(s, v, WriteOf(v), now)
    ensures SafeWrite(c, s, v, v.(pc := WriteOf(v).ok), After(s, v, WriteOf(v)))
  {
    PassingIsHolding(s, v, WriteOf(v), now);
    assert AloneEngaged(s, v) && AloneEngaged(s, v.(pc := Send));
  }

  lemma RewindingIsSafe(c: Config, s: World, v: Worker, now: int)
    requires Poised(c, s, v) && v.pc.WriteRewind? && Passes(s, v, WriteOf(v), now)
    ensures SafeWrite(c, s, v, v.(pc := WriteOf(v).ok), After(s, v, WriteOf(v)))
  {
    PassingIsHolding(s, v, WriteOf(v), now);
    assert AloneEngaged(s, v) && AloneEngaged(s, v.(pc := WriteOf(v).ok));
  }

  lemma RecordingIsSafe(c: Config, s: World, v: Worker, now: int)
    requires Poised(c, s, v) && (v.pc.WriteMutated? || v.pc.WriteMutatedAgain?) && Passes(s, v, WriteOf(v), now)
    ensures SafeWrite(c, s, v, v.(pc := WriteOf(v).ok), After(s, v, WriteOf(v)))
  {
    PassingIsHolding(s, v, WriteOf(v), now);
    assert v.put == Taken && WasApplied(s, v.exec);
  }

  lemma PassedWriteIsSafe(c: Config, s: World, v: Worker, now: int)
    requires Poised(c, s, v) && Writes(v.pc) && Passes(s, v, WriteOf(v), now)
    ensures SafeWrite(c, s, v, v.(pc := WriteOf(v).ok), After(s, v, WriteOf(v)))
  {
    match v.pc
    case WriteReconciled => ReconcilingIsSafe(c, s, v, now);
    case WriteStale => StaleIsSafe(c, s, v, now);
    case WriteChecked => CheckingIsSafe(c, s, v, now);
    case WriteRequested => RequestingIsSafe(c, s, v, now);
    case WriteRewind => RewindingIsSafe(c, s, v, now);
    case WriteMutated | WriteMutatedAgain => RecordingIsSafe(c, s, v, now);
  }

  lemma RefusedWriteEnds(s: World, v: Worker, now: int)
    requires Writes(v.pc) && !Passes(s, v, WriteOf(v), now)
    ensures Ends(v, Refusal(s, v, now))
  {
  }

  lemma PassedWritesAreSafe(c: Config, s: World, v: Worker, now: int)
    requires WorkersOk(c, s) && PairsOk(s) && RecordsOk(c, s)
    requires v.id < |s.workers| && s.workers[v.id] == v && Writes(v.pc) && Passes(s, v, WriteOf(v), now)
    ensures v.exec in s.executions && HolderWrites(s, v, v.(pc := WriteOf(v).ok), After(s, v, WriteOf(v)))
    ensures SafeWrite(c, s, v, v.(pc := WriteOf(v).ok), After(s, v, WriteOf(v)))
  {
    InvMeansPoised(c, s, v.id);
    PassedWriteIsSafe(c, s, v, now);
    PassingIsHolding(s, v, WriteOf(v), now);
  }

  lemma RefusedWriteKeepsInv(c: Config, s: World, v: Worker, now: int)
    requires Inv(c, s) && v.id < |s.workers| && s.workers[v.id] == v && Writes(v.pc) && !Passes(s, v, WriteOf(v), now)
    ensures Inv(c, With(s, v.(pc := Refusal(s, v, now))))
  {
    RefusedWriteEnds(s, v, now);
    EndingKeepsInv(c, s, v, Refusal(s, v, now));
  }

  lemma PassedWriteKeepsInv(c: Config, s: World, v: Worker, now: int)
    requires Inv(c, s) && v.id < |s.workers| && s.workers[v.id] == v && Writes(v.pc) && Passes(s, v, WriteOf(v), now)
    ensures v.exec in s.executions && Inv(c, Recorded(s, v.(pc := WriteOf(v).ok), After(s, v, WriteOf(v))))
  {
    PassedWritesAreSafe(c, s, v, now);
    SafeWriteKeepsInv(c, s, v, v.(pc := WriteOf(v).ok), After(s, v, WriteOf(v)));
  }

  lemma WritingPastKeepsInv(c: Config, s: World, v: Worker, now: int)
    requires Inv(c, s) && v.id < |s.workers| && s.workers[v.id] == v && Writes(v.pc) && Passes(s, v, WriteOf(v), now)
    ensures Inv(c, Writing(s, v, now))
  {
    PassedWriteKeepsInv(c, s, v, now);
    WritingShape(s, v, now);
  }

  lemma WritingInVainKeepsInv(c: Config, s: World, v: Worker, now: int)
    requires Inv(c, s) && v.id < |s.workers| && s.workers[v.id] == v && Writes(v.pc) && !Passes(s, v, WriteOf(v), now)
    ensures Inv(c, Writing(s, v, now))
  {
    RefusedWriteKeepsInv(c, s, v, now);
    WritingShape(s, v, now);
  }

  lemma WritingKeepsInv(c: Config, s: World, v: Worker, now: int)
    requires Inv(c, s) && v.id < |s.workers| && s.workers[v.id] == v && Writes(v.pc)
    ensures Inv(c, Writing(s, v, now))
  {
    if Passes(s, v, WriteOf(v), now) {
      WritingPastKeepsInv(c, s, v, now);
    } else {
      WritingInVainKeepsInv(c, s, v, now);
    }
  }

  // --- giving the lease back ---

  predicate MayRelease(s: World, v: Worker) {
    v.exec in s.executions && E.Owns(s.executions[v.exec], v.owner, v.epoch) && !E.Finished(s.executions[v.exec])
  }

  function Released(s: World, v: Worker, now: int): E.Record
    requires v.exec in s.executions
  {
    s.executions[v.exec].(expires := Some(now))
  }

  lemma GivingBackShape(s: World, v: Worker, now: int)
    requires v.id < |s.workers| && v.exec in s.executions && v.pc.Releasing?
    ensures var w := v.(pc := Done(v.pc.reply));
            GivingBack(s, v, now) == if MayRelease(s, v) then Recorded(s, w, Released(s, v, now)) else With(s, w)
  {
  }

  /** Giving the lease back changes nothing but its expiry. */
  lemma ReleasingIsSafe(c: Config, s: World, v: Worker, now: int)
    requires Poised(c, s, v) && v.pc.Releasing? && MayRelease(s, v)
    ensures var w, r := v.(pc := Done(v.pc.reply)), Released(s, v, now);
            HolderWrites(s, v, w, r) && SafeWrite(c, s, v, w, r)
  {
  }

  lemma GivingBackKeepsInv(c: Config, s: World, v: Worker, now: int)
    requires Inv(c, s) && v.id < |s.workers| && s.workers[v.id] == v && v.pc.Releasing?
    ensures Inv(c, GivingBack(s, v, now))
  {
    InvMeansPoised(c, s, v.id);
    GivingBackShape(s, v, now);
    if MayRelease(s, v) {
      ReleasingIsSafe(c, s, v, now);
      SafeWriteKeepsInv(c, s, v, v.(pc := Done(v.pc.reply)), Released(s, v, now));
    } else {
      EndingKeepsInv(c, s, v, Done(v.pc.reply));
    }
  }

  // --- all of them ---

  lemma WorkKeepsInv(c: Config, s: World, i: nat, x: Input)
    requires Inv(c, s) && i < |s.workers|
    requires s.workers[i].pc == Await ==> AnswerFits(s.workers[i], x.answer)
    ensures s.workers[i].id == i && Inv(c, Work(c, s, s.workers[i], x))
  {
    var v := s.workers[i];
    assert v.id == i;
    if Private(v.pc) {
      PrivateStepKeepsInv(c, s, v, x);
    } else if Writes(v.pc) {
      WritingKeepsInv(c, s, v, x.now);
    } else {
      match v.pc
      case Bind => BindingKeepsInv(c, s, v);
      case Acquire => AcquiringKeepsInv(c, s, v, x.now);
      case Look => LookingKeepsInv(c, s, v, x);
      case Reacquire => ReacquiringKeepsInv(c, s, v, x.now);
      case Releasing(_) => GivingBackKeepsInv(c, s, v, x.now);
      case Done(_) =>
      case Crashed =>
    }
  }

  lemma CrashingKeepsInv(c: Config, s: World, i: nat)
    requires Inv(c, s) && i < |s.workers|
    ensures s.workers[i].id == i && Inv(c, With(s, s.workers[i].(pc := Crashed)))
  {
    assert s.workers[i].id == i;
    EndingKeepsInv(c, s, s.workers[i], Crashed);
  }
}
