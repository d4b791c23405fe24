/** Every action of the protocol keeps the invariant. */
module Preservation {
  import opened Lifecycle
  import opened Authority
  import opened Protocol
  import opened Invariant
  import E = Execution
  import T = Traffic

  // --- the parts of the invariant that only need growth ---

  /** A VERIFIED record stays VERIFIED. */
  predicate KeepsVerified(s: World, t: World) {
    forall exec <- s.executions :: s.executions[exec].state == E.Verified ==>
      exec in t.executions && t.executions[exec].state == E.Verified
  }

  lemma VerifiedStays(c: Config, s: World, t: World, key: Key)
    requires ExecutionVerified(c, s, key) && Grows(s, t) && KeepsVerified(s, t)
    ensures ExecutionVerified(c, t, key)
  {
    assert SameDecision(t, key, s.decisions[key]);
  }

  /** Closers, receipts, resolutions and histories, when none of them changes. */
  lemma ClosingSideStays(c: Config, s: World, t: World)
    requires ClosersOk(c, s) && ReceiptsOk(c, s) && ResolvedOk(c, s) && ClosingsOk(c, s)
    requires Grows(s, t) && KeepsVerified(s, t)
    requires t.closers == s.closers && t.receipts == s.receipts && t.closings == s.closings
    requires t.incidents == s.incidents && t.closedOn == s.closedOn
    ensures ClosersOk(c, t) && ReceiptsOk(c, t) && ResolvedOk(c, t) && ClosingsOk(c, t)
  {
    ClosersStay(c, s, t);
    forall r | r in t.receipts && Terminal(r)
      ensures ExecutionVerified(c, t, r.key)
    {
      VerifiedStays(c, s, t, r.key);
    }
    forall incident | incident in t.incidents && t.incidents[incident] == Resolved
      ensures incident in t.closedOn && t.closedOn[incident].0 == incident
      ensures ExecutionVerified(c, t, t.closedOn[incident])
    {
      VerifiedStays(c, s, t, s.closedOn[incident]);
    }
    ClosingsStay(c, s, t);
  }

  lemma ClosersStay(c: Config, s: World, t: World)
    requires ClosersOk(c, s) && Grows(s, t) && t.closers == s.closers
    ensures ClosersOk(c, t)
  {
    forall i | 0 <= i < |t.closers|
      ensures CloserOk(c, t, t.closers[i])
    {
      CloserStays(c, s, t, s.closers[i]);
    }
  }

  lemma CloserStays(c: Config, s: World, t: World, k: Closer)
    requires CloserOk(c, s, k) && Grows(s, t)
    ensures CloserOk(c, t, k)
  {
    if !k.pc.CReadDecision? && !k.pc.CDone? {
      SameCoreIsTransitive(k.decision, s.decisions[k.key], t.decisions[k.key]);
    }
  }

  lemma ClosingsStay(c: Config, s: World, t: World)
    requires ClosingsOk(c, s) && Grows(s, t) && t.closings == s.closings
    ensures ClosingsOk(c, t)
  {
    forall x | x in t.closings
      ensures
        && x.key in t.decisions && ExecutionOf(c, t.decisions[x.key], x.key) == x.exec
        && T.ServesExclusively(x.described, t.decisions[x.key].authorizedTarget)
        && T.ProbedHealthy(x.probe)
    {
      assert SameDecision(t, x.key, s.decisions[x.key]);
    }
  }

  lemma SightingsStay(c: Config, s: World, t: World)
    requires SightingsOk(c, s) && Grows(s, t) && t.sighted == s.sighted
    ensures SightingsOk(c, t)
  {
    forall x | x in t.sighted
      ensures
        && x.key in t.decisions && ExecutionOf(c, t.decisions[x.key], x.key) == x.exec
        && T.Active(x.described) == t.decisions[x.key].authorizedTarget
        && t.decisions[x.key].authorizedTarget != ""
    {
      assert SameDecision(t, x.key, s.decisions[x.key]);
    }
  }

  lemma AppliedStays(c: Config, s: World, t: World)
    requires AppliedOk(c, s) && Grows(s, t) && t.applied == s.applied && |s.workers| <= |t.workers|
    requires forall i :: 0 <= i < |s.workers| && s.workers[i].put == Taken ==>
               t.workers[i].put == Taken && t.workers[i].exec == s.workers[i].exec
    ensures AppliedOk(c, t)
  {
    forall p | 0 <= p < |t.applied|
      ensures Lawful(c, t, t.applied[p])
    {
      var a := s.applied[p];
      assert Lawful(c, s, a);
      SameCoreIsTransitive(a.decision, s.decisions[a.key], t.decisions[a.key]);
    }
  }

  // --- one request steps ---

  /** Request `i` becomes `w`; at most its own record changes, and sightings may be added. */
  ghost predicate OneStep(c: Config, s: World, t: World, w: Worker) {
    && w.id < |s.workers|
    && t.workers == s.workers[w.id := w]
    && t == s.(workers := t.workers, executions := t.executions, bindings := t.bindings, sighted := t.sighted,
               cleared := t.cleared)
    && Grows(s, t) && KeepsVerified(s, t)
    && (forall exec <- t.executions :: exec != w.exec ==>
          exec in s.executions && t.executions[exec] == s.executions[exec])
    && (w.exec in t.executions ==> RecordOk(c, t, w.exec, t.executions[w.exec]))
    && SightingsOk(c, t) && ClearancesOk(t)
    && (s.workers[w.id].put == Taken ==> w.put == Taken && w.exec == s.workers[w.id].exec)
  }

  ghost predicate Others(s: World, t: World, w: Worker) {
    forall j :: 0 <= j < |s.workers| && j != w.id ==>
      Spared(s, t, s.workers[j]) && Compatible(w, s.workers[j])
  }

  lemma WorkersKept(c: Config, s: World, t: World, w: Worker)
    requires WorkersOk(c, s) && OneStep(c, s, t, w) && Others(s, t, w) && WorkerOk(c, t, w)
    ensures WorkersOk(c, t)
  {
    forall j | 0 <= j < |t.workers|
      ensures t.workers[j].id == j && WorkerOk(c, t, t.workers[j])
    {
      if j != w.id {
        assert WorkerOk(c, s, s.workers[j]);
        WorkerStays(c, s, t, s.workers[j]);
      }
    }
  }

  lemma PairsKept(c: Config, s: World, t: World, w: Worker)
    requires PairsOk(s) && OneStep(c, s, t, w) && Others(s, t, w)
    ensures PairsOk(t)
  {
    forall i, j | 0 <= i < j < |t.workers|
      ensures Compatible(t.workers[i], t.workers[j])
    {
      if i == w.id {
        assert t.workers[j] == s.workers[j];
      } else if j == w.id {
        assert t.workers[i] == s.workers[i];
      } else {
        assert Compatible(s.workers[i], s.workers[j]);
      }
    }
  }

  lemma RecordsKept(c: Config, s: World, t: World, w: Worker)
    requires RecordsOk(c, s) && OneStep(c, s, t, w)
    ensures RecordsOk(c, t)
  {
    forall exec | exec in t.executions
      ensures RecordOk(c, t, exec, t.executions[exec])
    {
      if exec != w.exec {
        RecordStays(c, s, t, exec);
      }
    }
  }

  lemma HistoriesKept(c: Config, s: World, t: World, w: Worker)
    requires AppliedOk(c, s) && OneStep(c, s, t, w)
    ensures AppliedOk(c, t)
  {
    AppliedStays(c, s, t);
  }

  lemma OneStepKeepsInv(c: Config, s: World, t: World, w: Worker)
    requires Inv(c, s) && OneStep(c, s, t, w) && Others(s, t, w) && WorkerOk(c, t, w)
    ensures Inv(c, t)
  {
    WorkersKept(c, s, t, w);
    PairsKept(c, s, t, w);
    RecordsKept(c, s, t, w);
    HistoriesKept(c, s, t, w);
    ClosingSideStays(c, s, t);
  }
}
