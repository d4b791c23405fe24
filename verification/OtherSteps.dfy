/** The steps of everybody else: the server, operators, /terminalize requests, the control plane. */
module OtherSteps {
  import opened Prelude
  import opened Lifecycle
  import opened Authority
  import opened Protocol
  import opened Invariant
  import opened Preservation
  import C = CloudRun
  import E = Execution
  import T = Traffic

  // --- the control plane ---

  ghost predicate SnapshotsStay(s: World, t: World) {
    forall i :: 0 <= i < |s.workers| && SnapshotOk(s, s.workers[i]) ==> SnapshotOk(t, s.workers[i])
  }

  lemma WorkersStay(c: Config, s: World, t: World)
    requires WorkersOk(c, s) && Grows(s, t) && SnapshotsStay(s, t) && t.workers == s.workers
    requires forall j :: 0 <= j < |s.workers| ==> Spared(s, t, s.workers[j])
    ensures WorkersOk(c, t)
  {
    forall j | 0 <= j < |t.workers|
      ensures t.workers[j].id == j && WorkerOk(c, t, t.workers[j])
    {
      assert WorkerOk(c, s, s.workers[j]) && Spared(s, t, s.workers[j]);
      WorkerStays(c, s, t, s.workers[j]);
    }
  }

  lemma UntouchedIsSpared(c: Config, s: World, t: World)
    requires WorkersOk(c, s) && t.executions == s.executions
    ensures forall j :: 0 <= j < |s.workers| ==> Spared(s, t, s.workers[j])
  {
    forall j | 0 <= j < |s.workers|
      ensures Spared(s, t, s.workers[j])
    {
      assert WorkerOk(c, s, s.workers[j]);
    }
  }

  lemma RecordsStay(c: Config, s: World, t: World)
    requires RecordsOk(c, s) && Grows(s, t) && t.executions == s.executions
    ensures RecordsOk(c, t)
  {
    forall exec | exec in t.executions
      ensures RecordOk(c, t, exec, t.executions[exec])
    {
      RecordStays(c, s, t, exec);
    }
  }

  lemma ReceiptsStay(c: Config, s: World, t: World)
    requires ReceiptsOk(c, s) && Grows(s, t) && KeepsVerified(s, t) && t.receipts == s.receipts
    ensures ReceiptsOk(c, t)
  {
    forall r | r in t.receipts && Terminal(r)
      ensures ExecutionVerified(c, t, r.key)
    {
      VerifiedStays(c, s, t, r.key);
    }
  }

  /** Requests, records and histories stand; what the control plane says may have grown. */
  lemma ControlPlaneKeepsInv(c: Config, s: World, t: World)
    requires Inv(c, s) && Grows(s, t) && SnapshotsStay(s, t)
    requires t == s.(decisions := t.decisions, approvals := t.approvals, incidents := t.incidents,
                     services := t.services, closedOn := t.closedOn)
    requires ServicesOk(t) && ResolvedOk(c, t)
    ensures Inv(c, t)
  {
    UntouchedIsSpared(c, s, t);
    WorkersStay(c, s, t);
    RecordsStay(c, s, t);
    AppliedStays(c, s, t);
    ClosersStay(c, s, t);
    ReceiptsStay(c, s, t);
    SightingsStay(c, s, t);
    ClosingsStay(c, s, t);
  }

  lemma ResolvedStays(c: Config, s: World, t: World)
    requires ResolvedOk(c, s) && Grows(s, t) && t.executions == s.executions && t.closedOn == s.closedOn
    requires forall x <- t.incidents :: t.incidents[x] == Resolved ==> x in s.incidents && s.incidents[x] == Resolved
    ensures ResolvedOk(c, t)
  {
    forall x | x in t.incidents && t.incidents[x] == Resolved
      ensures x in t.closedOn && t.closedOn[x].0 == x && ExecutionVerified(c, t, t.closedOn[x])
    {
      VerifiedStays(c, s, t, s.closedOn[x]);
    }
  }

  lemma IncidentStepKeepsInv(c: Config, s: World, incidents: map<string, Status>)
    requires Inv(c, s)
    requires forall x <- incidents :: incidents[x] == Resolved ==> x in s.incidents && s.incidents[x] == Resolved
    ensures Inv(c, s.(incidents := incidents))
  {
    var t := s.(incidents := incidents);
    assert Grows(s, t);
    ResolvedStays(c, s, t);
    ControlPlaneKeepsInv(c, s, t);
  }

  /** Decisions may be added or revised in what is not their core, approvals added or ruled on. */
  lemma DecisionStepKeepsInv(c: Config, s: World, t: World)
    requires Inv(c, s) && t == s.(decisions := t.decisions, approvals := t.approvals) && Grows(s, t)
    ensures Inv(c, t)
  {
    ResolvedStays(c, s, t);
    ControlPlaneKeepsInv(c, s, t);
  }

  lemma OpeningKeepsInv(c: Config, s: World, incident: string)
    requires Inv(c, s) && incident !in s.incidents
    ensures Inv(c, s.(incidents := s.incidents[incident := Intake]))
  {
    IncidentStepKeepsInv(c, s, s.incidents[incident := Intake]);
  }

  lemma MovingKeepsInv(c: Config, s: World, incident: string, to: Status)
    requires Inv(c, s) && to != Resolved
    ensures Inv(c, s.(incidents := s.incidents[incident := to]))
  {
    IncidentStepKeepsInv(c, s, s.incidents[incident := to]);
  }

  lemma DecisionGrows(c: Config, s: World, a: Action)
    requires Enabled(c, s, a) && WellNumbered(s) && (a.SaveDecision? || a.ReviseDecision?)
    ensures var t := Step(c, s, a); Grows(s, t) && t == s.(decisions := t.decisions)
  {
  }

  lemma ApprovalGrows(c: Config, s: World, a: Action)
    requires Enabled(c, s, a) && WellNumbered(s) && (a.RequestApproval? || a.RuleOnApproval?)
    ensures var t := Step(c, s, a); Grows(s, t) && t == s.(approvals := t.approvals)
  {
  }

  lemma RevisingKeepsInv(c: Config, s: World, a: Action)
    requires Inv(c, s) && Enabled(c, s, a) && WellNumbered(s)
    requires a.SaveDecision? || a.ReviseDecision? || a.RequestApproval? || a.RuleOnApproval?
    ensures Inv(c, Step(c, s, a))
  {
    if a.SaveDecision? || a.ReviseDecision? {
      DecisionGrows(c, s, a);
    } else {
      ApprovalGrows(c, s, a);
    }
    DecisionStepKeepsInv(c, s, Step(c, s, a));
  }

  lemma ResolvedOnReceipt(c: Config, s: World, t: World, key: Key)
    requires ResolvedOk(c, s) && ExecutionVerified(c, s, key) && Grows(s, t) && t.executions == s.executions
    requires t.incidents == s.incidents[key.0 := Resolved] && t.closedOn == s.closedOn[key.0 := key]
    ensures ResolvedOk(c, t)
  {
    forall x | x in t.incidents && t.incidents[x] == Resolved
      ensures x in t.closedOn && t.closedOn[x].0 == x && ExecutionVerified(c, t, t.closedOn[x])
    {
      VerifiedStays(c, s, t, t.closedOn[x]);
    }
  }

  /** An incident is resolved only on a terminal receipt of its own decision. */
  lemma ResolvingKeepsInv(c: Config, s: World, key: Key, receipt: Receipt)
    requires Inv(c, s) && receipt in s.receipts && Terminal(receipt) && receipt.key == key
    ensures Inv(c, s.(incidents := s.incidents[key.0 := Resolved], closedOn := s.closedOn[key.0 := key]))
  {
    var t := s.(incidents := s.incidents[key.0 := Resolved], closedOn := s.closedOn[key.0 := key]);
    assert Grows(s, t);
    ResolvedOnReceipt(c, s, t, key);
    ControlPlaneKeepsInv(c, s, t);
  }

  // --- the service ---

  /** A write under a version never used before cannot be mistaken for anybody's snapshot. */
  lemma NewVersionSparesSnapshots(s: World, t: World, target: string, doc: C.Doc)
    requires NewVersion(s, target, doc) && t.services == Written(s, target, doc).services
    ensures SnapshotsStay(s, t)
    ensures ServicesOk(s) ==> ServicesOk(t)
  {
  }

  lemma EditingKeepsInv(c: Config, s: World, target: string, doc: C.Doc)
    requires Inv(c, s) && WellNumbered(s) && Enabled(c, s, OperatorEdits(target, doc))
    ensures Inv(c, Step(c, s, OperatorEdits(target, doc)))
  {
    var t := Step(c, s, OperatorEdits(target, doc));
    assert Grows(s, t);
    NewVersionSparesSnapshots(s, t, target, doc);
    ResolvedStays(c, s, t);
    ControlPlaneKeepsInv(c, s, t);
  }

  /** The compare-and-set: what the server replaces is exactly what the request had read. */
  lemma TakenIsLawful(c: Config, s: World, i: nat, live: C.Doc)
    requires WorkersOk(c, s) && Enabled(c, s, ServerTakes(i, live))
    ensures s.workers[i].id == i
    ensures var t := TakenBy(s, s.workers[i], live);
            && Lawful(c, t, t.applied[|s.applied|])
            && t.applied[|s.applied|].before == s.workers[i].snapshot
  {
    var w := s.workers[i];
    assert WorkerOk(c, s, w);
    PreconditionIsTheSnapshot(w);
    C.TakenReplacementChangesOnlyTraffic(w.snapshot, live, TargetRevision(w.decision));
  }

  lemma PreconditionIsTheSnapshot(w: Worker)
    requires Body(w).Ok?
    ensures C.ResourceVersion(Body(w).value) == C.ResourceVersion(w.snapshot)
  {
    C.PreconditionIsTheSnapshots(w.snapshot, TargetRevision(w.decision));
  }

  /** All that a request with its PUT out knows. */
  predicate Informed(c: Config, t: World, w: Worker) {
    && SameDecision(t, w.key, w.decision) && Warranted(c, w) && Backed(t, w.decision, w.approval)
    && w.fingerprint in t.bindings && t.bindings[w.fingerprint].executionId == w.exec
    && w.exec in t.executions && Fits(w, t.executions[w.exec]) && WasCleared(t, w.id, w.decision)
  }

  lemma InformedStays(c: Config, s: World, t: World, w: Worker)
    requires WorkerOk(c, s, w) && w.put == InFlight && Grows(s, t) && t.executions == s.executions
    ensures Informed(c, t, w)
  {
    assert Knows(w, 1) && Knows(w, 3) && Knows(w, 4) && Knows(w, 5) && Commits(w);
    SameCoreIsTransitive(w.decision, s.decisions[w.key], t.decisions[w.key]);
  }

  /** A rejected PUT is out no longer; the request knows what it knew. */
  lemma RejectedPutIsOk(c: Config, t: World, w: Worker)
    requires Flow(w) && w.put == InFlight && Informed(c, t, w)
    ensures WorkerOk(c, t, w.(put := Rejected))
  {
  }

  /** A taken PUT is in the history, and its snapshot no longer matters. */
  lemma TakenPutIsOk(c: Config, t: World, w: Worker)
    requires Flow(w) && w.put == InFlight && Informed(c, t, w) && WasTaken(t, w.(put := Taken))
    ensures WorkerOk(c, t, w.(put := Taken))
  {
  }

  lemma ServedWorkersOk(c: Config, s: World, t: World, i: nat, status: PutStatus)
    requires WorkersOk(c, s) && Grows(s, t) && SnapshotsStay(s, t) && t.executions == s.executions
    requires i < |s.workers| && s.workers[i].put == InFlight && status in {Taken, Rejected}
    requires t.workers == s.workers[i := s.workers[i].(put := status)]
    requires status == Taken ==> WasTaken(t, t.workers[i])
    ensures WorkersOk(c, t)
  {
    UntouchedIsSpared(c, s, t);
    forall j | 0 <= j < |t.workers|
      ensures t.workers[j].id == j && WorkerOk(c, t, t.workers[j])
    {
      assert WorkerOk(c, s, s.workers[j]) && Spared(s, t, s.workers[j]);
      if j == i {
        InformedStays(c, s, t, s.workers[i]);
        if status == Taken {
          TakenPutIsOk(c, t, s.workers[i]);
        } else {
          RejectedPutIsOk(c, t, s.workers[i]);
        }
      } else {
        WorkerStays(c, s, t, s.workers[j]);
      }
    }
  }

  lemma ServedPairsOk(s: World, t: World, i: nat, status: PutStatus)
    requires PairsOk(s) && i < |s.workers| && s.workers[i].put == InFlight
    requires t.workers == s.workers[i := s.workers[i].(put := status)]
    ensures PairsOk(t)
  {
    forall j, k | 0 <= j < k < |t.workers|
      ensures Compatible(t.workers[j], t.workers[k])
    {
      assert Compatible(s.workers[j], s.workers[k]);
    }
  }

  lemma EarlierStaysLawful(c: Config, s: World, i: nat, live: C.Doc, p: nat)
    requires WorkersOk(c, s) && AppliedOk(c, s) && Enabled(c, s, ServerTakes(i, live)) && p < |s.applied|
    requires s.workers[i].id == i && Grows(s, TakenBy(s, s.workers[i], live))
    ensures Lawful(c, TakenBy(s, s.workers[i], live), s.applied[p]) && s.applied[p].worker != i
  {
    var a := s.applied[p];
    assert Lawful(c, s, a);
    SameCoreIsTransitive(a.decision, s.decisions[a.key], s.decisions[a.key]);
  }

  lemma AppendedAppliedOk(c: Config, s: World, t: World, a: Applied)
    requires AppliedOk(c, s) && t.applied == s.applied + [a] && Lawful(c, t, a)
    requires forall p :: 0 <= p < |s.applied| ==> Lawful(c, t, s.applied[p]) && s.applied[p].worker != a.worker
    ensures AppliedOk(c, t)
  {
  }

  lemma TakenAppliedOk(c: Config, s: World, i: nat, live: C.Doc)
    requires WorkersOk(c, s) && AppliedOk(c, s) && Enabled(c, s, ServerTakes(i, live))
    ensures s.workers[i].id == i
    ensures Grows(s, TakenBy(s, s.workers[i], live)) && AppliedOk(c, TakenBy(s, s.workers[i], live))
  {
    assert s.workers[i].id == i;
    var t := TakenBy(s, s.workers[i], live);
    TakingGrows(s, s.workers[i], live);
    TakenIsLawful(c, s, i, live);
    forall p | 0 <= p < |s.applied|
      ensures Lawful(c, t, s.applied[p]) && s.applied[p].worker != i
    {
      EarlierStaysLawful(c, s, i, live, p);
    }
    AppendedAppliedOk(c, s, t, t.applied[|s.applied|]);
  }

  lemma TakingGrows(s: World, w: Worker, live: C.Doc)
    requires w.id < |s.workers| && w.decision.targetRef in s.services
    ensures Grows(s, TakenBy(s, w, live)) && KeepsVerified(s, TakenBy(s, w, live))
  {
  }

  lemma ServedKeepsInv(c: Config, s: World, t: World, i: nat, status: PutStatus)
    requires Inv(c, s) && i < |s.workers| && s.workers[i].put == InFlight && status in {Taken, Rejected}
    requires t == s.(workers := s.workers[i := s.workers[i].(put := status)], services := t.services,
                     applied := t.applied)
    requires Grows(s, t) && KeepsVerified(s, t) && SnapshotsStay(s, t) && ServicesOk(t) && AppliedOk(c, t)
    requires status == Taken ==> WasTaken(t, t.workers[i])
    ensures Inv(c, t)
  {
    ServedWorkersOk(c, s, t, i, status);
    ServedPairsOk(s, t, i, status);
    RecordsStay(c, s, t);
    ClosingSideStays(c, s, t);
    SightingsStay(c, s, t);
  }

  lemma TakingKeepsInv(c: Config, s: World, i: nat, live: C.Doc)
    requires Inv(c, s) && WellNumbered(s) && Enabled(c, s, ServerTakes(i, live))
    ensures Inv(c, Step(c, s, ServerTakes(i, live)))
  {
    var v := s.workers[i];
    var t := TakenBy(s, v, live);
    TakenAppliedOk(c, s, i, live);
    TakingGrows(s, v, live);
    NewVersionSparesSnapshots(s, t, v.decision.targetRef, live);
    assert t.applied[|s.applied|].worker == i && t.applied[|s.applied|].exec == v.exec;
    ServedKeepsInv(c, s, t, i, Taken);
  }

  lemma RejectedKeepsInv(c: Config, s: World, t: World, i: nat)
    requires Inv(c, s) && i < |s.workers| && s.workers[i].put == InFlight
    requires t == s.(workers := s.workers[i := s.workers[i].(put := Rejected)])
    requires Grows(s, t) && KeepsVerified(s, t) && AppliedOk(c, t)
    ensures Inv(c, t)
  {
    assert SnapshotsStay(s, t);
    ServedKeepsInv(c, s, t, i, Rejected);
  }

  lemma RejectingShape(c: Config, s: World, i: nat)
    requires WellNumbered(s) && Enabled(c, s, ServerRejects(i)) && AppliedOk(c, s)
    ensures var t := Step(c, s, ServerRejects(i));
            && t == s.(workers := s.workers[i := s.workers[i].(put := Rejected)])
            && Grows(s, t) && KeepsVerified(s, t) && AppliedOk(c, t)
  {
    var t := Step(c, s, ServerRejects(i));
    assert s.workers[i].id == i;
    AppliedStays(c, s, t);
  }

  lemma RejectingKeepsInv(c: Config, s: World, i: nat)
    requires Inv(c, s) && WellNumbered(s) && Enabled(c, s, ServerRejects(i))
    ensures Inv(c, Step(c, s, ServerRejects(i)))
  {
    RejectingShape(c, s, i);
    RejectedKeepsInv(c, s, Step(c, s, ServerRejects(i)), i);
  }

  // --- arrivals ---

  lemma ArrivingKeepsInv(c: Config, s: World, key: Key, owner: string)
    requires Inv(c, s) && WellNumbered(s)
    ensures Inv(c, Step(c, s, Arrive(key, owner)))
  {
    var t := Step(c, s, Arrive(key, owner));
    assert Grows(s, t);
    ArrivedWorkersOk(c, s, t, key, owner);
    RecordsStay(c, s, t);
    AppliedStays(c, s, t);
    ClosingSideStays(c, s, t);
    SightingsStay(c, s, t);
  }

  lemma ArrivedWorkersOk(c: Config, s: World, t: World, key: Key, owner: string)
    requires WorkersOk(c, s) && PairsOk(s) && Grows(s, t)
    requires t == s.(workers := s.workers + [NewWorker(|s.workers|, key, owner)])
    ensures WorkersOk(c, t) && PairsOk(t)
  {
    UntouchedIsSpared(c, s, t);
    forall j | 0 <= j < |t.workers|
      ensures t.workers[j].id == j && WorkerOk(c, t, t.workers[j])
    {
      if j < |s.workers| {
        assert WorkerOk(c, s, s.workers[j]) && Spared(s, t, s.workers[j]);
        WorkerStays(c, s, t, s.workers[j]);
      }
    }
    forall j, k | 0 <= j < k < |t.workers|
      ensures Compatible(t.workers[j], t.workers[k])
    {
      if k < |s.workers| {
        assert Compatible(s.workers[j], s.workers[k]);
      }
    }
  }

  // --- /terminalize ---

  /** A step of closer `i` that leaves the executions alone. */
  lemma CloserStepKeepsInv(c: Config, s: World, t: World)
    requires Inv(c, s) && t == s.(closers := t.closers, receipts := t.receipts)
    requires ClosersOk(c, t) && ReceiptsOk(c, t)
    ensures Inv(c, t)
  {
    assert Grows(s, t);
    UntouchedIsSpared(c, s, t);
    WorkersStay(c, s, t);
    RecordsStay(c, s, t);
    AppliedStays(c, s, t);
    ResolvedStays(c, s, t);
    SightingsStay(c, s, t);
    ClosingsStay(c, s, t);
  }

  lemma ArrivingToCloseKeepsInv(c: Config, s: World, key: Key)
    requires Inv(c, s) && WellNumbered(s)
    ensures Inv(c, Step(c, s, ArriveToClose(key)))
  {
    var t := Step(c, s, ArriveToClose(key));
    forall i | 0 <= i < |t.closers|
      ensures CloserOk(c, t, t.closers[i])
    {
      if i < |s.closers| {
        assert CloserOk(c, s, s.closers[i]);
      }
    }
    assert forall r <- t.receipts :: Terminal(r) ==> ExecutionVerified(c, s, r.key);
    CloserStepKeepsInv(c, s, t);
  }

  lemma AttendingIsOk(c: Config, s: World, k: Closer, x: Input)
    requires CloserOk(c, s, k) && !k.pc.CClose?
    ensures CloserOk(c, s, Attend(c, s, k, x))
  {
  }

  lemma AttendedClosersOk(c: Config, s: World, t: World, i: nat, k: Closer)
    requires ClosersOk(c, s) && i < |s.closers| && CloserOk(c, s, k)
    requires t.decisions == s.decisions && t.closers == s.closers[i := k]
    ensures ClosersOk(c, t)
  {
    forall j | 0 <= j < |t.closers|
      ensures CloserOk(c, t, t.closers[j])
    {
      assert CloserOk(c, s, if j == i then k else s.closers[j]);
    }
  }

  /** An echo vouches for what the stored evidence says, and for nothing else. */
  lemma EchoesTellTheRecord(r: E.Record, k: Closer)
    ensures var echo := Echo(r, k);
            && echo.key == k.key && echo.verified && echo.state == E.Verified
            && (echo.serves <==>
                  && r.closing.Some?
                  && var e := r.closing.value; (e.exclusive || e.allocation == map[k.decision.authorizedTarget := 100]))
  {
  }

  /** The echo of a VERIFIED record is a terminal receipt of a verified execution. */
  lemma EchoesAreEarned(c: Config, s: World, k: Closer)
    requires CloserOk(c, s, k)
    ensures forall r <- Echoes(s, k) :: Terminal(r) ==> ExecutionVerified(c, s, r.key)
  {
  }

  lemma LookingOnKeepsInv(c: Config, s: World, i: nat, x: Input)
    requires Inv(c, s) && i < |s.closers| && !s.closers[i].pc.CClose?
    ensures Inv(c, Close(c, s, i, x))
  {
    var k, t := s.closers[i], Close(c, s, i, x);
    assert CloserOk(c, s, k);
    AttendingIsOk(c, s, k, x);
    AttendedClosersOk(c, s, t, i, Attend(c, s, k, x));
    EchoesAreEarned(c, s, k);
    assert forall r <- t.receipts :: Terminal(r) ==> ExecutionVerified(c, s, r.key);
    CloserStepKeepsInv(c, s, t);
  }

  // --- the closing write ---

  predicate Closable(s: World, k: Closer) {
    k.exec in s.executions && s.executions[k.exec].state == E.Mutated
  }

  function ClosedRecord(r: E.Record, k: Closer): E.Record {
    r.(state := E.Verified, owner := None, expires := None, closing := Some(EvidenceOf(k)))
  }

  /** MUTATED closes as VERIFIED; anything else is left alone, and the answer says what was found. */
  lemma ClosingWrites(s: World, i: nat)
    requires i < |s.closers| && s.closers[i].pc == CClose
    ensures var k, t := s.closers[i], CloseRecord(s, i, s.closers[i]);
            && t == s.(closers := s.closers[i := k.(pc := CDone)], executions := t.executions,
                       receipts := t.receipts, closings := t.closings)
            && t.executions == (if Closable(s, k) then s.executions[k.exec := ClosedRecord(s.executions[k.exec], k)]
                                else s.executions)
            && t.closings == (if Closable(s, k) then s.closings + {Closing(k.exec, k.key, k.described, k.probe)}
                              else s.closings)
            && (forall r <- t.receipts - s.receipts :: Terminal(r) ==>
                  r.key == k.key && k.exec in t.executions && t.executions[k.exec].state == E.Verified)
  {
  }

  /** The receipt of a closing write is terminal exactly when the execution is then VERIFIED and was seen
      exclusive; else it says in which state the record was found. */
  lemma ReceiptsTellTheOutcome(s: World, i: nat)
    requires i < |s.closers| && s.closers[i].pc == CClose
    ensures var k, t := s.closers[i], CloseRecord(s, i, s.closers[i]);
            var a := Closure(s, k);
            var r := ReceiptFor(k, a.0, a.1);
            && t.receipts == s.receipts + {r} && r.key == k.key
            && (r.verified <==> k.exec in t.executions && t.executions[k.exec].state in {E.Verified, E.Failed, E.Stale})
            && (k.exec in t.executions ==> r.state == t.executions[k.exec].state)
            && (r.serves <==> T.ServesExclusively(k.described, k.decision.authorizedTarget))
  {
  }

  lemma ClosingGrows(s: World, i: nat)
    requires i < |s.closers| && s.closers[i].pc == CClose
    ensures Grows(s, CloseRecord(s, i, s.closers[i])) && KeepsVerified(s, CloseRecord(s, i, s.closers[i]))
  {
    ClosingWrites(s, i);
  }

  lemma ClosingSpares(c: Config, s: World, i: nat)
    requires WorkersOk(c, s) && i < |s.closers| && s.closers[i].pc == CClose
    ensures forall j :: 0 <= j < |s.workers| ==> Spared(s, CloseRecord(s, i, s.closers[i]), s.workers[j])
  {
    ClosingWrites(s, i);
    forall j | 0 <= j < |s.workers|
      ensures Spared(s, CloseRecord(s, i, s.closers[i]), s.workers[j])
    {
      assert WorkerOk(c, s, s.workers[j]);
    }
  }

  lemma ClosedRecordIsOk(c: Config, s: World, t: World, k: Closer)
    requires Closable(s, k) && RecordOk(c, s, k.exec, s.executions[k.exec]) && CloserOk(c, s, k) && k.pc.CClose?
    requires Grows(s, t) && Closing(k.exec, k.key, k.described, k.probe) in t.closings
    ensures RecordOk(c, t, k.exec, ClosedRecord(s.executions[k.exec], k))
  {
    HistoriesStay(c, s, t, k.exec, s.executions[k.exec]);
  }

  lemma ClosingRecordsOk(c: Config, s: World, i: nat)
    requires RecordsOk(c, s) && i < |s.closers| && s.closers[i].pc == CClose && CloserOk(c, s, s.closers[i])
    ensures RecordsOk(c, CloseRecord(s, i, s.closers[i]))
  {
    var k, t := s.closers[i], CloseRecord(s, i, s.closers[i]);
    ClosingWrites(s, i);
    ClosingGrows(s, i);
    forall exec | exec in t.executions
      ensures RecordOk(c, t, exec, t.executions[exec])
    {
      if exec == k.exec && Closable(s, k) {
        ClosedRecordIsOk(c, s, t, k);
      } else {
        RecordStays(c, s, t, exec);
      }
    }
  }

  lemma ClosingSideOk(c: Config, s: World, i: nat)
    requires ClosersOk(c, s) && ReceiptsOk(c, s) && ClosingsOk(c, s) && i < |s.closers| && s.closers[i].pc == CClose
    ensures var t := CloseRecord(s, i, s.closers[i]); ClosersOk(c, t) && ReceiptsOk(c, t) && ClosingsOk(c, t)
  {
    var k, t := s.closers[i], CloseRecord(s, i, s.closers[i]);
    ClosingWrites(s, i);
    ClosingGrows(s, i);
    assert CloserOk(c, s, k);
    forall j | 0 <= j < |t.closers|
      ensures CloserOk(c, t, t.closers[j])
    {
      assert CloserOk(c, s, s.closers[j]);
    }
    forall r | r in t.receipts && Terminal(r)
      ensures ExecutionVerified(c, t, r.key)
    {
      if r in s.receipts {
        VerifiedStays(c, s, t, r.key);
      }
    }
    forall x | x in t.closings
      ensures
        && x.key in t.decisions && ExecutionOf(c, t.decisions[x.key], x.key) == x.exec
        && T.ServesExclusively(x.described, t.decisions[x.key].authorizedTarget)
        && T.ProbedHealthy(x.probe)
    {
    }
  }

  lemma ClosingResolvedOk(c: Config, s: World, t: World)
    requires ResolvedOk(c, s) && Grows(s, t) && KeepsVerified(s, t)
    requires t.incidents == s.incidents && t.closedOn == s.closedOn
    ensures ResolvedOk(c, t)
  {
    forall x | x in t.incidents && t.incidents[x] == Resolved
      ensures x in t.closedOn && t.closedOn[x].0 == x && ExecutionVerified(c, t, t.closedOn[x])
    {
      VerifiedStays(c, s, t, s.closedOn[x]);
    }
  }

  lemma ClosingKeepsInv(c: Config, s: World, i: nat)
    requires Inv(c, s) && i < |s.closers| && s.closers[i].pc == CClose
    ensures Inv(c, CloseRecord(s, i, s.closers[i]))
  {
    var t := CloseRecord(s, i, s.closers[i]);
    ClosingWrites(s, i);
    ClosingGrows(s, i);
    ClosingSpares(c, s, i);
    WorkersStay(c, s, t);
    assert CloserOk(c, s, s.closers[i]);
    ClosingRecordsOk(c, s, i);
    AppliedStays(c, s, t);
    ClosingSideOk(c, s, i);
    ClosingResolvedOk(c, s, t);
    SightingsStay(c, s, t);
  }
}
