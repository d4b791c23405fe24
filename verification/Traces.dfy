/**
 One request followed step by step, from its arrival on: each lemma carries the
 run of the protocol on by one step and says where the request and the stores
 then stand.
 */
module Traces {
  import opened Prelude
  import opened Lifecycle
  import opened Authority
  import opened Protocol
  import opened Runs
  import C = CloudRun
  import E = Execution
  import R = Repository
  import T = Traffic

  // --- one request and nobody else ---

  /** What the steps of a run took from outside, one after the other. */
  function Inputs(run: seq<Action>): seq<Input> {
    if run == [] then []
    else
      var before, last := Inputs(run[..|run| - 1]), run[|run| - 1];
      if last.Proceed? then before + [last.input] else before
  }

  /** How many steps the request has made. */
  function Steps(run: seq<Action>): nat {
    |Inputs(run)|
  }

  /** Each step took what `at` offers it, its clock and what it observed; only the answer to the PUT is
      the server's own. */
  predicate Fed(run: seq<Action>, at: nat -> Input) {
    forall k :: 0 <= k < Steps(run) ==> Inputs(run)[k] == at(k).(answer := Inputs(run)[k].answer)
  }

  /** `run` is request `i`, from its arrival to its end, and nothing else but what the server does with its
      PUT. */
  predicate Alone(run: seq<Action>, key: Key, owner: string, i: nat) {
    && run != [] && run[0] == Arrive(key, owner)
    && forall k {:trigger run[k]} :: 1 <= k < |run| ==> Concerns(run[k], i)
  }

  predicate Concerns(a: Action, i: nat) {
    (a.Proceed? || a.ServerTakes? || a.ServerRejects?) && a.worker == i
  }

  /** `run` leads from `s` to `t`, is request `i` alone, and takes what `at` offers. */
  ghost predicate SoloRun(c: Config, s: World, at: nat -> Input, run: seq<Action>, t: World,
                          key: Key, owner: string, i: nat) {
    exists worlds ::
      && Path(c, worlds, run) && worlds[0] == s && worlds[|run|] == t
      && Alone(run, key, owner, i) && Fed(run, at)
  }

  /** What has happened so far: such a run, after which the request stands as `w`. */
  ghost predicate Trace(c: Config, s: World, at: nat -> Input, run: seq<Action>, t: World, w: Worker) {
    exists worlds ::
      && Path(c, worlds, run) && worlds[0] == s && worlds[|run|] == t
      && WellNumbered(t) && w.id < |t.workers| && t.workers[w.id] == w
      && Alone(run, w.key, w.owner, w.id) && Fed(run, at)
  }

  lemma TraceMeans(c: Config, s: World, at: nat -> Input, run: seq<Action>, t: World, w: Worker)
    requires Trace(c, s, at, run, t, w)
    ensures Run(c, s, run, t) && WellNumbered(t) && w.id < |t.workers| && t.workers[w.id] == w
    ensures Alone(run, w.key, w.owner, w.id) && Fed(run, at)
    ensures SoloRun(c, s, at, run, t, w.key, w.owner, w.id)
  {
  }

  lemma StillAlone(run: seq<Action>, key: Key, owner: string, i: nat, a: Action)
    requires Alone(run, key, owner, i) && Concerns(a, i)
    ensures Alone(run + [a], key, owner, i)
  {
  }

  lemma InputsGrow(run: seq<Action>, a: Action)
    ensures Inputs(run + [a]) == Inputs(run) + (if a.Proceed? then [a.input] else [])
  {
    assert (run + [a])[..|run|] == run;
  }

  lemma StillFed(run: seq<Action>, at: nat -> Input, a: Action)
    requires Fed(run, at) && (a.Proceed? ==> a.input == at(Steps(run)).(answer := a.input.answer))
    ensures Fed(run + [a], at) && Steps(run + [a]) == Steps(run) + (if a.Proceed? then 1 else 0)
  {
    InputsGrow(run, a);
  }

  /** The run goes on by one action, and the request with it. */
  lemma TraceGrows(c: Config, s: World, at: nat -> Input, run: seq<Action>, t: World, w: Worker, a: Action,
                   u: World, v: Worker)
    requires Trace(c, s, at, run, t, w) && Concerns(a, w.id)
    requires a.Proceed? ==> a.input == at(Steps(run)).(answer := a.input.answer)
    requires Run(c, s, run + [a], u) && w.id < |u.workers| && u.workers[w.id] == v && WellNumbered(u)
    requires v.id == w.id && v.key == w.key && v.owner == w.owner
    ensures Trace(c, s, at, run + [a], u, v) && Steps(run + [a]) == Steps(run) + (if a.Proceed? then 1 else 0)
  {
    TraceMeans(c, s, at, run, t, w);
    StillAlone(run, w.key, w.owner, w.id, a);
    StillFed(run, at, a);
  }

  /** A step of the request carries the run on. */
  lemma WorkGoesOn(c: Config, s: World, at: nat -> Input, run: seq<Action>, t: World, w: Worker, x: Input,
                   u: World, v: Worker)
    requires Trace(c, s, at, run, t, w) && (w.pc.Await? ==> AnswerFits(w, x.answer))
    requires x == at(Steps(run)).(answer := x.answer)
    requires w.id < |t.workers| && u == Work(c, t, w, x) && v == u.workers[w.id]
    requires v.id == w.id && v.key == w.key && v.owner == w.owner
    ensures Trace(c, s, at, run + [Proceed(w.id, x)], u, v) && Steps(run + [Proceed(w.id, x)]) == Steps(run) + 1
  {
    TraceMeans(c, s, at, run, t, w);
    RunGoesOn(c, s, run, t, Proceed(w.id, x));
    TraceGrows(c, s, at, run, t, w, Proceed(w.id, x), u, v);
  }

  /** Whatever holds of every reachable world holds after such a run. */
  lemma SoloRunsStayReachable(c: Config, s: World, at: nat -> Input, run: seq<Action>, t: World,
                              key: Key, owner: string, i: nat)
    requires Reachable(c, s) && SoloRun(c, s, at, run, t, key, owner, i)
    ensures Reachable(c, t)
  {
    var before :| Run(c, GENESIS, before, s);
    RunsJoin(c, GENESIS, before, s, run, t);
  }

  lemma {:induction false} ProceedsAreInputs(run: seq<Action>, j: nat) returns (k: nat)
    requires j < |run| && run[j].Proceed?
    ensures k < Steps(run) && Inputs(run)[k] == run[j].input
  {
    if j == |run| - 1 {
      k := Steps(run) - 1;
    } else {
      k := ProceedsAreInputs(run[..|run| - 1], j);
    }
  }

  /** Between `s` and `t` nothing is recorded as sighted but what the step of `w` was given. */
  predicate Sees(s: World, t: World, w: Worker, x: Input) {
    t.sighted <= s.sighted + {Sighting(w.exec, w.key, x.described)}
  }

  lemma WritingSees(s: World, w: Worker, x: Input)
    requires w.id < |s.workers| && Writes(w.pc)
    ensures Sees(s, Writing(s, w, x.now), w, x)
  {
  }

  lemma AcquiringSees(s: World, w: Worker, x: Input)
    requires w.id < |s.workers|
    ensures Sees(s, Acquiring(s, w, x.now), w, x)
  {
  }

  lemma ReacquiringSees(s: World, w: Worker, x: Input)
    requires w.id < |s.workers|
    ensures Sees(s, Reacquiring(s, w, x.now), w, x)
  {
  }

  lemma GivingBackSees(s: World, w: Worker, x: Input)
    requires w.id < |s.workers| && w.pc.Releasing?
    ensures Sees(s, GivingBack(s, w, x.now), w, x)
  {
  }

  lemma BindingSees(s: World, w: Worker, x: Input)
    requires w.id < |s.workers|
    ensures Sees(s, Binding(s, w), w, x)
  {
  }

  lemma LookingSees(s: World, w: Worker, x: Input)
    requires w.id < |s.workers|
    ensures Sees(s, Looking(s, w, x), w, x)
  {
  }

  lemma PrivatelySees(c: Config, s: World, w: Worker, x: Input)
    requires w.id < |s.workers| && Private(w.pc)
    ensures Sees(s, Work(c, s, w, x), w, x)
  {
    WorkIsPrivate(c, s, w, x);
  }

  lemma WorkSees(c: Config, s: World, w: Worker, x: Input)
    requires w.id < |s.workers|
    ensures Sees(s, Work(c, s, w, x), w, x)
  {
    if Private(w.pc) {
      PrivatelySees(c, s, w, x);
    } else if Writes(w.pc) {
      WritingSees(s, w, x);
    } else {
      match w.pc
      case Bind => BindingSees(s, w, x);
      case Acquire => AcquiringSees(s, w, x);
      case Look => LookingSees(s, w, x);
      case Reacquire => ReacquiringSees(s, w, x);
      case Releasing(_) => GivingBackSees(s, w, x);
      case Done(_) =>
      case Crashed =>
    }
  }

  lemma AttendingSightsNothing(c: Config, s: World, i: nat, x: Input)
    requires i < |s.closers| && !s.closers[i].pc.CClose?
    ensures Close(c, s, i, x).sighted == s.sighted
  {
  }

  lemma ClosersSightNothing(c: Config, s: World, i: nat, x: Input)
    requires i < |s.closers|
    ensures Close(c, s, i, x).sighted == s.sighted
  {
    if !s.closers[i].pc.CClose? {
      AttendingSightsNothing(c, s, i, x);
    }
  }

  lemma OthersSightNothing(c: Config, s: World, a: Action)
    requires WellNumbered(s) && Enabled(c, s, a) && !a.Proceed? && !a.ProceedToClose?
    ensures Step(c, s, a).sighted == s.sighted
  {
  }

  lemma StepsSight(c: Config, s: World, a: Action, t: World, g: Sighting)
    requires Next(c, s, a, t) && g in t.sighted
    ensures g in s.sighted || (a.Proceed? && g.described == a.input.described)
  {
    if a.Proceed? {
      WorkSees(c, s, s.workers[a.worker], a.input);
    } else if a.ProceedToClose? {
      ClosersSightNothing(c, s, a.closer, a.input);
    } else {
      OthersSightNothing(c, s, a);
    }
  }

  lemma {:induction false} SightingsComeFromSteps(c: Config, worlds: seq<World>, run: seq<Action>, g: Sighting)
    returns (j: nat)
    requires Path(c, worlds, run) && g in worlds[|run|].sighted && g !in worlds[0].sighted
    ensures j < |run| && run[j].Proceed? && g.described == run[j].input.described
    decreases |run|
  {
    assert run != [];
    PathTail(c, worlds, run);
    if g in worlds[1].sighted {
      StepsSight(c, worlds[0], run[0], worlds[1], g);
      j := 0;
    } else {
      j := SightingsComeFromSteps(c, worlds[1..], run[1..], g);
      j := j + 1;
    }
  }

  /** The request records as sighted only what was offered to it. */
  lemma SightingsAreOffered(c: Config, s: World, at: nat -> Input, run: seq<Action>, t: World,
                            key: Key, owner: string, i: nat, g: Sighting)
    returns (k: nat)
    requires SoloRun(c, s, at, run, t, key, owner, i) && g in t.sighted && g !in s.sighted
    ensures k < Steps(run) && g.described == at(k).described
  {
    var worlds :|
      && Path(c, worlds, run) && worlds[0] == s && worlds[|run|] == t
      && Alone(run, key, owner, i) && Fed(run, at);
    var j := SightingsComeFromSteps(c, worlds, run, g);
    k := ProceedsAreInputs(run, j);
  }

  lemma ArrivalGoes(c: Config, s: World, at: nat -> Input, key: Key, owner: string)
    returns (run: seq<Action>, u: World, v: Worker)
    requires WellNumbered(s)
    ensures Trace(c, s, at, run, u, v) && Steps(run) == 0
    ensures v == NewWorker(|s.workers|, key, owner) && u == s.(workers := s.workers + [v])
  {
    OneStepRuns(c, s, Arrive(key, owner));
    run, v := [Arrive(key, owner)], NewWorker(|s.workers|, key, owner);
    InputsGrow([], run[0]);
    u := s.(workers := s.workers + [v]);
  }

  lemma PrivateGoes(c: Config, s: World, at: nat -> Input, run0: seq<Action>, t: World, w: Worker, x: Input)
    returns (run: seq<Action>, u: World, v: Worker)
    requires Trace(c, s, at, run0, t, w) && Private(w.pc) && (w.pc.Await? ==> AnswerFits(w, x.answer))
    requires x == at(Steps(run0)).(answer := x.answer)
    ensures Trace(c, s, at, run, u, v) && Steps(run) == Steps(run0) + 1
    ensures u == t.(workers := u.workers) && v == Privately(c, t, w, x)
  {
    TraceMeans(c, s, at, run0, t, w);
    WorkIsPrivate(c, t, w, x);
    v := Privately(c, t, w, x);
    u := With(t, v);
    run := run0 + [Proceed(w.id, x)];
    WorkGoesOn(c, s, at, run0, t, w, x, u, v);
  }

  lemma WorkIsPrivate(c: Config, t: World, w: Worker, x: Input)
    requires w.id < |t.workers| && Private(w.pc)
    ensures Work(c, t, w, x) == With(t, Privately(c, t, w, x))
    ensures With(t, Privately(c, t, w, x)).workers[w.id] == Privately(c, t, w, x)
  {
  }

  lemma DecisionGoes(c: Config, s: World, at: nat -> Input, run0: seq<Action>, t: World, w: Worker)
    returns (run: seq<Action>, u: World, v: Worker)
    requires Trace(c, s, at, run0, t, w) && w.pc.ReadDecision?
    ensures Trace(c, s, at, run, u, v) && Steps(run) == Steps(run0) + 1
    ensures u == t.(workers := u.workers)
    ensures v == if w.key in t.decisions then w.(pc := ReadIncident, decision := t.decisions[w.key])
                 else w.(pc := Done(Refused(DecisionMissing)))
  {
    run, u, v := PrivateGoes(c, s, at, run0, t, w, at(Steps(run0)));
  }

  lemma IncidentGoes(c: Config, s: World, at: nat -> Input, run0: seq<Action>, t: World, w: Worker)
    returns (run: seq<Action>, u: World, v: Worker)
    requires Trace(c, s, at, run0, t, w) && w.pc.ReadIncident?
    ensures Trace(c, s, at, run, u, v) && Steps(run) == Steps(run0) + 1
    ensures u == t.(workers := u.workers)
    ensures v == if w.key.0 in t.incidents then w.(pc := Check, status := t.incidents[w.key.0])
                 else w.(pc := Done(Refused(IncidentMissing)))
  {
    run, u, v := PrivateGoes(c, s, at, run0, t, w, at(Steps(run0)));
  }

  lemma CheckGoes(c: Config, s: World, at: nat -> Input, run0: seq<Action>, t: World, w: Worker,
                 problem: Option<Refusal>)
    returns (run: seq<Action>, u: World, v: Worker)
    requires Trace(c, s, at, run0, t, w) && w.pc.Check?
    requires problem == Validate(c, w.decision, w.key.0, Some(w.status), ApprovalOf(t, w.decision),
                                 at(Steps(run0)).now)
    ensures Trace(c, s, at, run, u, v) && Steps(run) == Steps(run0) + 1
    ensures u == t.(workers := u.workers)
    ensures match problem
            case Some(refusal) => v == w.(pc := Done(Refused(Invalid(refusal))))
            case None => v == w.(pc := Bind, approval := v.approval, checkedAt := at(Steps(run0)).now,
                                 exec := ExecutionOf(c, w.decision, w.key),
                                 fingerprint := FingerprintOf(c, w.decision, w.key.0))
  {
    run, u, v := PrivateGoes(c, s, at, run0, t, w, at(Steps(run0)));
  }

  predicate SameRequest(w: Worker, v: Worker) {
    v.id == w.id && v.key == w.key && v.owner == w.owner && v.decision == w.decision && v.put == w.put
  }

  /** An existing incident is read and the decision validated against it. */
  lemma ValidationGoes(c: Config, s: World, at: nat -> Input, run0: seq<Action>, t: World, w: Worker,
                       problem: Option<Refusal>)
    returns (run: seq<Action>, u: World, v: Worker)
    requires Trace(c, s, at, run0, t, w) && w.pc.ReadIncident? && w.key.0 in t.incidents
    requires problem == Validate(c, w.decision, w.key.0, Some(t.incidents[w.key.0]), ApprovalOf(t, w.decision),
                                 at(Steps(run0) + 1).now)
    ensures Trace(c, s, at, run, u, v) && Steps(run) == Steps(run0) + 2
    ensures u == t.(workers := u.workers) && SameRequest(w, v)
    ensures match problem
            case Some(refusal) => v.pc == Done(Refused(Invalid(refusal)))
            case None =>
              && v.pc.Bind?
              && v.exec == ExecutionOf(c, w.decision, w.key) && v.fingerprint == FingerprintOf(c, w.decision, w.key.0)
  {
    run, u, v := IncidentGoes(c, s, at, run0, t, w);
    run, u, v := CheckGoes(c, s, at, run, u, v, problem);
  }

  lemma RecheckGoes(c: Config, s: World, at: nat -> Input, run0: seq<Action>, t: World, w: Worker)
    returns (run: seq<Action>, u: World, v: Worker)
    requires Trace(c, s, at, run0, t, w) && w.pc.Recheck?
    ensures Trace(c, s, at, run, u, v) && Steps(run) == Steps(run0) + 1
    ensures u == t.(workers := u.workers)
    ensures v == w.(pc := if w.key.0 !in t.incidents then Crashed
                          else if t.incidents[w.key.0] in CLOSED then Releasing(Refused(ClosedMidFlight))
                          else ReadSnapshot)
  {
    run, u, v := PrivateGoes(c, s, at, run0, t, w, at(Steps(run0)));
  }

  lemma SnapshotGoes(c: Config, s: World, at: nat -> Input, run0: seq<Action>, t: World, w: Worker)
    returns (run: seq<Action>, u: World, v: Worker)
    requires Trace(c, s, at, run0, t, w) && w.pc.ReadSnapshot?
    ensures Trace(c, s, at, run, u, v) && Steps(run) == Steps(run0) + 1
    ensures u == t.(workers := u.workers)
    ensures v == if w.decision.targetRef !in t.services then w.(pc := Crashed)
                 else w.(pc := WriteRequested, snapshot := t.services[w.decision.targetRef].live)
  {
    run, u, v := PrivateGoes(c, s, at, run0, t, w, at(Steps(run0)));
  }

  lemma SendGoes(c: Config, s: World, at: nat -> Input, run0: seq<Action>, t: World, w: Worker)
    returns (run: seq<Action>, u: World, v: Worker)
    requires Trace(c, s, at, run0, t, w) && w.pc.Send?
    ensures Trace(c, s, at, run, u, v) && Steps(run) == Steps(run0) + 1
    ensures u == t.(workers := u.workers)
    ensures v == if Body(w).Ok? then w.(pc := Await, put := InFlight) else w.(pc := Crashed)
  {
    run, u, v := PrivateGoes(c, s, at, run0, t, w, at(Steps(run0)));
  }

  lemma AnswerGoes(c: Config, s: World, at: nat -> Input, run0: seq<Action>, t: World, w: Worker, answer: Answer)
    returns (run: seq<Action>, u: World, v: Worker)
    requires Trace(c, s, at, run0, t, w) && w.pc.Await? && AnswerFits(w, answer)
    ensures Trace(c, s, at, run, u, v) && Steps(run) == Steps(run0) + 1
    ensures u == t.(workers := u.workers) && v == Answered(w, answer)
  {
    run, u, v := PrivateGoes(c, s, at, run0, t, w, at(Steps(run0)).(answer := answer));
  }

  lemma BindingGoes(c: Config, s: World, at: nat -> Input, run0: seq<Action>, t: World, w: Worker)
    returns (run: seq<Action>, u: World, v: Worker)
    requires Trace(c, s, at, run0, t, w) && w.pc.Bind?
    ensures Trace(c, s, at, run, u, v) && Steps(run) == Steps(run0) + 1
    ensures var b := E.Bind(t.bindings, w.fingerprint, E.Binding(w.exec, w.key.0, w.key.1));
            && u == t.(workers := u.workers, bindings := b.2)
            && v == w.(pc := if b.0 == E.Conflict then Done(Refused(DuplicateAuthorization)) else Acquire)
  {
    TraceMeans(c, s, at, run0, t, w);
    var x := at(Steps(run0));
    u := Binding(t, w);
    v := u.workers[w.id];
    run := run0 + [Proceed(w.id, x)];
    WorkGoesOn(c, s, at, run0, t, w, x, u, v);
  }

  lemma AcquiringIs(c: Config, t: World, w: Worker, x: Input)
    requires w.id < |t.workers| && w.pc.Acquire?
    ensures Work(c, t, w, x) == Acquiring(t, w, x.now)
    ensures var a, u := Try(t, w, x.now), Acquiring(t, w, x.now);
            u == t.(workers := u.workers, executions := a.2) && u.workers[w.id] == AfterClaim(w, a.0, a.1)
  {
  }

  lemma AcquiringGoes(c: Config, s: World, at: nat -> Input, run0: seq<Action>, t: World, w: Worker)
    returns (run: seq<Action>, u: World, v: Worker)
    requires Trace(c, s, at, run0, t, w) && w.pc.Acquire?
    ensures Trace(c, s, at, run, u, v) && Steps(run) == Steps(run0) + 1
    ensures var a := Try(t, w, at(Steps(run0)).now);
            && u == t.(workers := u.workers, executions := a.2)
            && v == AfterClaim(w, a.0, a.1)
  {
    TraceMeans(c, s, at, run0, t, w);
    var x := at(Steps(run0));
    AcquiringIs(c, t, w, x);
    u := Acquiring(t, w, x.now);
    v := u.workers[w.id];
    run := run0 + [Proceed(w.id, x)];
    WorkGoesOn(c, s, at, run0, t, w, x, u, v);
  }

  lemma ReacquiringIs(c: Config, t: World, w: Worker, x: Input)
    requires w.id < |t.workers| && w.pc.Reacquire?
    ensures Work(c, t, w, x) == Reacquiring(t, w, x.now)
    ensures var a, u := Try(t, w, x.now), Reacquiring(t, w, x.now);
            u == t.(workers := u.workers, executions := a.2) && u.workers[w.id] == AfterReclaim(w, a.0, a.1)
  {
  }

  lemma ReacquiringGoes(c: Config, s: World, at: nat -> Input, run0: seq<Action>, t: World, w: Worker)
    returns (run: seq<Action>, u: World, v: Worker)
    requires Trace(c, s, at, run0, t, w) && w.pc.Reacquire?
    ensures Trace(c, s, at, run, u, v) && Steps(run) == Steps(run0) + 1
    ensures var a := Try(t, w, at(Steps(run0)).now);
            && u == t.(workers := u.workers, executions := a.2)
            && v == AfterReclaim(w, a.0, a.1)
  {
    TraceMeans(c, s, at, run0, t, w);
    var x := at(Steps(run0));
    ReacquiringIs(c, t, w, x);
    u := Reacquiring(t, w, x.now);
    v := u.workers[w.id];
    run := run0 + [Proceed(w.id, x)];
    WorkGoesOn(c, s, at, run0, t, w, x, u, v);
  }

  lemma LookingGoes(c: Config, s: World, at: nat -> Input, run0: seq<Action>, t: World, w: Worker)
    returns (run: seq<Action>, u: World, v: Worker)
    requires Trace(c, s, at, run0, t, w) && w.pc.Look?
    ensures Trace(c, s, at, run, u, v) && Steps(run) == Steps(run0) + 1
    ensures u == t.(workers := u.workers, sighted := u.sighted, cleared := u.cleared)
    ensures v == w.(pc := Decide(w, Seen(w, at(Steps(run0)))))
  {
    TraceMeans(c, s, at, run0, t, w);
    var x := at(Steps(run0));
    u := Looking(t, w, x);
    v := u.workers[w.id];
    run := run0 + [Proceed(w.id, x)];
    WorkGoesOn(c, s, at, run0, t, w, x, u, v);
  }

  lemma WritingGoes(c: Config, s: World, at: nat -> Input, run0: seq<Action>, t: World, w: Worker)
    returns (run: seq<Action>, u: World, v: Worker)
    requires Trace(c, s, at, run0, t, w) && Writes(w.pc)
    ensures Trace(c, s, at, run, u, v) && Steps(run) == Steps(run0) + 1
    ensures var a := Advance(t, w, WriteOf(w), at(Steps(run0)).now);
            && u == t.(workers := u.workers, executions := a.1)
            && v == w.(pc := AfterWrite(WriteOf(w), a.0))
  {
    TraceMeans(c, s, at, run0, t, w);
    var x := at(Steps(run0));
    u := Writing(t, w, x.now);
    v := u.workers[w.id];
    run := run0 + [Proceed(w.id, x)];
    WorkGoesOn(c, s, at, run0, t, w, x, u, v);
  }

  lemma ReleasingGoes(c: Config, s: World, at: nat -> Input, run0: seq<Action>, t: World, w: Worker)
    returns (run: seq<Action>, u: World, v: Worker)
    requires Trace(c, s, at, run0, t, w) && w.pc.Releasing?
    ensures Trace(c, s, at, run, u, v) && Steps(run) == Steps(run0) + 1
    ensures u == t.(workers := u.workers, executions :=
                    E.Release(t.executions, w.exec, w.owner, w.epoch, at(Steps(run0)).now).1)
    ensures v == w.(pc := Done(w.pc.reply))
  {
    TraceMeans(c, s, at, run0, t, w);
    var x := at(Steps(run0));
    u := GivingBack(t, w, x.now);
    v := u.workers[w.id];
    run := run0 + [Proceed(w.id, x)];
    WorkGoesOn(c, s, at, run0, t, w, x, u, v);
  }

  // --- the same for a /terminalize request ---

  /** `run` is /terminalize request `i`, from its arrival on, and nothing else, and takes what `on` offers. */
  predicate ClosingAlone(run: seq<Action>, on: nat -> Input, key: Key, i: nat) {
    && run != [] && run[0] == ArriveToClose(key)
    && forall k {:trigger run[k]} :: 1 <= k < |run| ==> run[k] == ProceedToClose(i, on(k - 1))
  }

  /** `run` leads from `s` to `t` and is that request alone. */
  ghost predicate SoloClosing(c: Config, s: World, on: nat -> Input, run: seq<Action>, t: World, key: Key, i: nat) {
    exists worlds ::
      Path(c, worlds, run) && worlds[0] == s && worlds[|run|] == t && ClosingAlone(run, on, key, i)
  }

  ghost predicate CloserTrace(c: Config, s: World, on: nat -> Input, run: seq<Action>, t: World, i: nat, k: Closer) {
    exists worlds ::
      && Path(c, worlds, run) && worlds[0] == s && worlds[|run|] == t
      && WellNumbered(t) && i < |t.closers| && t.closers[i] == k && ClosingAlone(run, on, k.key, i)
  }

  lemma CloserTraceMeans(c: Config, s: World, on: nat -> Input, run: seq<Action>, t: World, i: nat, k: Closer)
    requires CloserTrace(c, s, on, run, t, i, k)
    ensures Run(c, s, run, t) && WellNumbered(t) && i < |t.closers| && t.closers[i] == k && run != []
    ensures ClosingAlone(run, on, k.key, i) && SoloClosing(c, s, on, run, t, k.key, i)
  {
  }

  /** How many steps the /terminalize request has made. */
  function ClosingSteps(run: seq<Action>): nat {
    if run == [] then 0 else |run| - 1
  }

  lemma StillClosingAlone(run: seq<Action>, on: nat -> Input, key: Key, i: nat)
    requires ClosingAlone(run, on, key, i)
    ensures ClosingAlone(run + [ProceedToClose(i, on(ClosingSteps(run)))], on, key, i)
  {
  }

  lemma AttendingGoes(c: Config, s: World, on: nat -> Input, run0: seq<Action>, t: World, i: nat, k: Closer)
    returns (run: seq<Action>, u: World, l: Closer)
    requires CloserTrace(c, s, on, run0, t, i, k) && !k.pc.CClose?
    ensures CloserTrace(c, s, on, run, u, i, l) && ClosingSteps(run) == ClosingSteps(run0) + 1
    ensures l == Attend(c, t, k, on(ClosingSteps(run0)))
    ensures u == t.(closers := u.closers, receipts := t.receipts + Echoes(t, k))
  {
    CloserTraceMeans(c, s, on, run0, t, i, k);
    var x := on(ClosingSteps(run0));
    RunGoesOn(c, s, run0, t, ProceedToClose(i, x));
    StillClosingAlone(run0, on, k.key, i);
    run, l := run0 + [ProceedToClose(i, x)], Attend(c, t, k, x);
    u := WithCloser(t, i, l).(receipts := t.receipts + Echoes(t, k));
  }

  lemma ReadingAttends(c: Config, s: World, on: nat -> Input, run0: seq<Action>, t: World, i: nat, k: Closer)
    returns (run: seq<Action>, u: World, l: Closer)
    requires CloserTrace(c, s, on, run0, t, i, k) && k.pc.CReadDecision?
    ensures CloserTrace(c, s, on, run, u, i, l) && ClosingSteps(run) == ClosingSteps(run0) + 1
    ensures u == t.(closers := u.closers)
    ensures l == if k.key in t.decisions then k.(pc := CCheck, decision := t.decisions[k.key]) else k.(pc := CDone)
  {
    run, u, l := AttendingGoes(c, s, on, run0, t, i, k);
  }

  lemma CheckingAttends(c: Config, s: World, on: nat -> Input, run0: seq<Action>, t: World, i: nat, k: Closer,
                        approval: Option<R.Approval>)
    returns (run: seq<Action>, u: World, l: Closer)
    requires CloserTrace(c, s, on, run0, t, i, k) && k.pc.CCheck? && approval == ApprovalOf(t, k.decision)
    ensures CloserTrace(c, s, on, run, u, i, l) && ClosingSteps(run) == ClosingSteps(run0) + 1
    ensures u == t.(closers := u.closers)
    ensures l == if Validate(c, k.decision, k.key.0, None, approval, on(ClosingSteps(run0)).now).Some?
                 then k.(pc := CDone)
                 else k.(pc := CGet, exec := ExecutionOf(c, k.decision, k.key))
  {
    run, u, l := AttendingGoes(c, s, on, run0, t, i, k);
  }

  lemma GettingAttends(c: Config, s: World, on: nat -> Input, run0: seq<Action>, t: World, i: nat, k: Closer)
    returns (run: seq<Action>, u: World, l: Closer)
    requires CloserTrace(c, s, on, run0, t, i, k) && k.pc.CGet?
    requires k.exec in t.executions && t.executions[k.exec].state == E.Mutated
    ensures CloserTrace(c, s, on, run, u, i, l) && ClosingSteps(run) == ClosingSteps(run0) + 1
    ensures u == t.(closers := u.closers) && l == k.(pc := CLook)
  {
    run, u, l := AttendingGoes(c, s, on, run0, t, i, k);
  }

  lemma EchoingAttends(c: Config, s: World, on: nat -> Input, run0: seq<Action>, t: World, i: nat, k: Closer)
    returns (run: seq<Action>, u: World, l: Closer)
    requires CloserTrace(c, s, on, run0, t, i, k) && k.pc.CGet?
    requires k.exec in t.executions && t.executions[k.exec].state == E.Verified
    ensures CloserTrace(c, s, on, run, u, i, l) && ClosingSteps(run) == ClosingSteps(run0) + 1
    ensures l == k.(pc := CDone)
    ensures u == t.(closers := u.closers, receipts := t.receipts + {Echo(t.executions[k.exec], k)})
  {
    run, u, l := AttendingGoes(c, s, on, run0, t, i, k);
  }

  /** The observation shows the authorized revision alone with all traffic, and the service answering 200
      with a healthy body. */
  predicate Satisfies(d: Decision, x: Input) {
    && T.ServesExclusively(x.described, d.authorizedTarget)
    && x.live.httpStatus == 200 && x.live.bodyHealthy
  }

  lemma LookingAttends(c: Config, s: World, on: nat -> Input, run0: seq<Action>, t: World, i: nat, k: Closer)
    returns (run: seq<Action>, u: World, l: Closer)
    requires CloserTrace(c, s, on, run0, t, i, k) && k.pc.CLook?
    requires Satisfies(k.decision, on(ClosingSteps(run0)))
    ensures CloserTrace(c, s, on, run, u, i, l) && ClosingSteps(run) == ClosingSteps(run0) + 1
    ensures u == t.(closers := u.closers)
    ensures l == k.(pc := CClose, described := on(ClosingSteps(run0)).described, probe := on(ClosingSteps(run0)).live)
  {
    run, u, l := AttendingGoes(c, s, on, run0, t, i, k);
  }

  lemma ClosingGoes(c: Config, s: World, on: nat -> Input, run0: seq<Action>, t: World, i: nat, k: Closer)
    returns (run: seq<Action>, u: World)
    requires CloserTrace(c, s, on, run0, t, i, k) && k.pc.CClose?
    ensures i < |t.closers| && t.closers[i] == k && u == CloseRecord(t, i, k)
    ensures SoloClosing(c, s, on, run, u, k.key, i)
  {
    CloserTraceMeans(c, s, on, run0, t, i, k);
    var x := on(ClosingSteps(run0));
    RunGoesOn(c, s, run0, t, ProceedToClose(i, x));
    StillClosingAlone(run0, on, k.key, i);
    run, u := run0 + [ProceedToClose(i, x)], CloseRecord(t, i, k);
  }

  /** What the closing write leaves in the stores. */
  lemma ClosureGoes(c: Config, s: World, on: nat -> Input, run0: seq<Action>, t: World, i: nat, k: Closer)
    returns (run: seq<Action>, u: World)
    requires CloserTrace(c, s, on, run0, t, i, k) && k.pc.CClose?
    ensures SoloClosing(c, s, on, run, u, k.key, i)
    ensures var a := Closure(t, k);
            && u == t.(closers := u.closers, executions := a.2, closings := u.closings,
                       receipts := t.receipts + {ReceiptFor(k, a.0, a.1)})
            && u.closings == if a.0 == E.Advanced
                             then t.closings + {Closing(k.exec, k.key, k.described, k.probe)} else t.closings
  {
    run, u := ClosingGoes(c, s, on, run0, t, i, k);
  }

  lemma ArrivalToCloseGoes(c: Config, s: World, on: nat -> Input, key: Key)
    returns (run: seq<Action>, u: World, k: Closer)
    requires WellNumbered(s)
    ensures CloserTrace(c, s, on, run, u, |s.closers|, k) && ClosingSteps(run) == 0
    ensures k == NewCloser(key) && u == s.(closers := s.closers + [k])
  {
    OneStepRuns(c, s, ArriveToClose(key));
    run, k := [ArriveToClose(key)], NewCloser(key);
    u := s.(closers := s.closers + [k]);
  }

  // --- the server's part ---

  ghost predicate InTheAir(t: World, w: Worker) {
    && w.pc.Await? && w.put == InFlight && Body(w).Ok?
    && w.decision.targetRef in t.services && w.snapshot == t.services[w.decision.targetRef].live
  }

  lemma TakenByIs(t: World, w: Worker, doc: C.Doc)
    requires WellNumbered(t) && w.id < |t.workers| && t.workers[w.id] == w && w.decision.targetRef in t.services
    ensures var u := TakenBy(t, w, doc);
            WellNumbered(u) && w.id < |u.workers| && u.workers[w.id] == w.(put := Taken)
  {
  }

  lemma TakingGoes(c: Config, s: World, at: nat -> Input, run0: seq<Action>, t: World, w: Worker, doc: C.Doc)
    returns (run: seq<Action>, u: World, v: Worker)
    requires Trace(c, s, at, run0, t, w) && InTheAir(t, w)
    requires NewVersion(t, w.decision.targetRef, doc) && C.Honours(doc, Body(w).value)
    requires C.ResourceVersion(Body(w).value) == C.ResourceVersion(t.services[w.decision.targetRef].live)
    ensures Trace(c, s, at, run, u, v) && Steps(run) == Steps(run0)
    ensures v == w.(put := Taken) && u == TakenBy(t, w, doc)
  {
    TraceMeans(c, s, at, run0, t, w);
    TakenByIs(t, w, doc);
    run, u, v := run0 + [ServerTakes(w.id, doc)], TakenBy(t, w, doc), w.(put := Taken);
    RunGoesOn(c, s, run0, t, ServerTakes(w.id, doc));
    TraceGrows(c, s, at, run0, t, w, ServerTakes(w.id, doc), u, v);
  }

  lemma RejectingGoes(c: Config, s: World, at: nat -> Input, run0: seq<Action>, t: World, w: Worker)
    returns (run: seq<Action>, u: World, v: Worker)
    requires Trace(c, s, at, run0, t, w) && w.put == InFlight
    ensures Trace(c, s, at, run, u, v) && Steps(run) == Steps(run0)
    ensures v == w.(put := Rejected) && u == t.(workers := u.workers)
  {
    TraceMeans(c, s, at, run0, t, w);
    v := w.(put := Rejected);
    run, u := run0 + [ServerRejects(w.id)], With(t, v);
    RunGoesOn(c, s, run0, t, ServerRejects(w.id));
    TraceGrows(c, s, at, run0, t, w, ServerRejects(w.id), u, v);
  }
}
