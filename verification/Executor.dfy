/**
 /execute and /terminalize as the straight-line programs they are
 (src/scf/app/executor.py:384-1134), and the proof that whatever they do, on
 every path, is a run of the protocol.
 */
module Executor {
  import opened Prelude
  import opened Lifecycle
  import opened Authority
  import opened Protocol
  import opened Traces
  import C = CloudRun
  import E = Execution
  import R = Repository
  import T = Traffic

  /** What reaches the caller: the outcome, a status of 400 or more that is not a 409, or nothing at all,
      which is an exception. */
  datatype Heard = Truth | Failure | Silence

  /** What the server makes of a PUT: takes it (when the version matches) leaving `doc`, rejects it, or
      drops it; and what is heard of it. */
  datatype Behaviour = Takes(doc: C.Doc, heard: Heard) | Rejects(heard: Heard) | Drops(heard: Heard)

  predicate Taking(behaviour: Behaviour, live: C.Doc, body: C.Doc) {
    behaviour.Takes? && C.ResourceVersion(body) == C.ResourceVersion(live)
  }

  function AnswerOf(behaviour: Behaviour, live: C.Doc, body: C.Doc): Answer {
    match behaviour.heard
    case Silence => Lost
    case Failure => Unclear
    case Truth => if behaviour.Drops? then Unclear else if Taking(behaviour, live, body) then Accepted else Conflict409
  }

  datatype FlipError = Unsafe(error: C.SnapshotError) | NoAnswer

  function LiveAfter(behaviour: Behaviour, live: C.Doc, body: C.Doc): C.Doc {
    if Taking(behaviour, live, body) then behaviour.doc else live
  }

  /** The services of the region, as the server holds them. */
  class Region {
    var live: map<string, C.Doc>

    constructor (live: map<string, C.Doc>)
      ensures this.live == live
    {
      this.live := live;
    }

    /** `flip_traffic_to_revision`: a whole-service replacement under the snapshot's version. Without an
        answer the effect is the same and the caller is none the wiser. */
    method FlipTraffic(target: string, revision: string, snapshot: C.Doc, behaviour: Behaviour)
      returns (r: Result<Answer, FlipError>)
      requires target in live
      modifies this`live
      ensures var body := C.Replacement(snapshot, T.BaseName(revision));
              match body
              case Err(e) => r == Err(Unsafe(e)) && live == old(live)
              case Ok(sent) =>
                && live == old(live)[target := LiveAfter(behaviour, old(live)[target], sent)]
                && var answer := AnswerOf(behaviour, old(live)[target], sent);
                   r == if answer == Lost then Err(NoAnswer) else Ok(answer)
    {
      var body := C.BuildTrafficReplacement(snapshot, T.BaseName(revision));
      if body.Err? {
        return Err(Unsafe(body.error));
      }
      var answer := AnswerOf(behaviour, live[target], body.value);
      live := live[target := LiveAfter(behaviour, live[target], body.value)];
      if answer == Lost {
        return Err(NoAnswer);
      }
      return Ok(answer);
    }
  }

  /** How a request stands that has ended: with an answer, or with an exception. */
  function Ended(reply: Option<Reply>): PC {
    match reply case Some(r) => Done(r) case None => Crashed
  }

  // --- the server's part ---

  /** The service after the PUT reached the server. */
  function Served(service: Service, behaviour: Behaviour, body: C.Doc): Service {
    Service(LiveAfter(behaviour, service.live, body),
            if Taking(behaviour, service.live, body)
            then service.spent + {C.ResourceVersion(behaviour.doc)} else service.spent)
  }

  /** A document the server may leave behind when it takes this decision's PUT. */
  ghost predicate Fitting(t: World, d: Decision, behaviour: Behaviour) {
    behaviour.Takes? && d.targetRef in t.services ==>
      && NewVersion(t, d.targetRef, behaviour.doc)
      && var body := C.Replacement(t.services[d.targetRef].live, TargetRevision(d));
         (body.Ok? ==> C.Honours(behaviour.doc, body.value))
  }

  lemma StillFitting(s: World, t: World, d: Decision, behaviour: Behaviour)
    requires Fitting(s, d, behaviour) && t.services == s.services
    ensures Fitting(t, d, behaviour)
  {
  }

  /** What the server's part leaves: the request with its PUT settled or lost, the service as served,
      and an answer that fits. */
  ghost predicate ServerDone(t: World, w: Worker, u: World, v: Worker, behaviour: Behaviour)
    requires InTheAir(t, w)
  {
    var service := t.services[w.decision.targetRef];
    && v == w.(put := v.put) && v.put != NoPut
    && u == t.(workers := u.workers, applied := u.applied,
               services := t.services[w.decision.targetRef := Served(service, behaviour, Body(w).value)])
    && AnswerFits(v, AnswerOf(behaviour, service.live, Body(w).value))
  }

  lemma UntakenIsDone(t: World, w: Worker, u: World, v: Worker, behaviour: Behaviour)
    requires InTheAir(t, w) && !Taking(behaviour, t.services[w.decision.targetRef].live, Body(w).value)
    requires v == w.(put := v.put) && u == t.(workers := u.workers)
    requires if behaviour.Drops? then v.put == InFlight else v.put == Rejected
    ensures ServerDone(t, w, u, v, behaviour)
  {
    var target := w.decision.targetRef;
    assert t.services == t.services[target := Served(t.services[target], behaviour, Body(w).value)];
  }

  lemma TakenIsDone(t: World, w: Worker, behaviour: Behaviour)
    requires w.id < |t.workers| && InTheAir(t, w)
    requires Taking(behaviour, t.services[w.decision.targetRef].live, Body(w).value)
    ensures ServerDone(t, w, TakenBy(t, w, behaviour.doc), w.(put := Taken), behaviour)
  {
  }

  /** Whether it takes, rejects or drops the PUT, the server makes a step of the protocol that fits the
      answer it gives. */
  lemma ServerGoes(c: Config, s: World, at: nat -> Input, run0: seq<Action>, t: World, w: Worker,
                   behaviour: Behaviour)
    returns (run: seq<Action>, u: World, v: Worker)
    requires Trace(c, s, at, run0, t, w) && InTheAir(t, w) && Fitting(t, w.decision, behaviour)
    ensures Trace(c, s, at, run, u, v) && Steps(run) == Steps(run0) && ServerDone(t, w, u, v, behaviour)
  {
    if Taking(behaviour, t.services[w.decision.targetRef].live, Body(w).value) {
      TraceMeans(c, s, at, run0, t, w);
      TakenIsDone(t, w, behaviour);
      run, u, v := TakingGoes(c, s, at, run0, t, w, behaviour.doc);
    } else {
      if behaviour.Drops? {
        run, u, v := run0, t, w;
      } else {
        run, u, v := RejectingGoes(c, s, at, run0, t, w);
      }
      UntakenIsDone(t, w, u, v, behaviour);
    }
  }

  function Lives(services: map<string, Service>): map<string, C.Doc> {
    map target <- services :: services[target].live
  }

  /** The part of a world that the program can see. */
  datatype Facet = Facet(
    decisions: map<Key, Decision>, incidents: map<string, Status>, approvals: map<string, R.Approval>,
    executions: E.Records, bindings: E.Bindings, live: map<string, C.Doc>)

  function FacetOf(t: World): Facet {
    Facet(t.decisions, t.incidents, t.approvals, t.executions, t.bindings, Lives(t.services))
  }

  lemma ServingOne(services: map<string, Service>, target: string, service: Service)
    ensures Lives(services[target := service]) == Lives(services)[target := service.live]
  {
  }

  lemma ServedFacet(t: World, w: Worker, u: World, v: Worker, behaviour: Behaviour)
    requires InTheAir(t, w) && ServerDone(t, w, u, v, behaviour)
    ensures FacetOf(u) == Flipped(t, w.decision.targetRef, behaviour, Body(w).value)
  {
    var target := w.decision.targetRef;
    ServingOne(t.services, target, Served(t.services[target], behaviour, Body(w).value));
  }

  /** What the program sees after the PUT of `body` reached the server. */
  function Flipped(t: World, target: string, behaviour: Behaviour, body: C.Doc): Facet
    requires target in t.services
  {
    FacetOf(t).(live := Lives(t.services)[target := LiveAfter(behaviour, t.services[target].live, body)])
  }

  /** Sending the PUT and what the server makes of it: only this service can have changed. */
  lemma LaunchGoes(c: Config, s: World, at: nat -> Input, run0: seq<Action>, t: World, w: Worker,
                   behaviour: Behaviour)
    returns (run: seq<Action>, u: World, v: Worker)
    requires Trace(c, s, at, run0, t, w) && w.pc.Send? && Fitting(t, w.decision, behaviour) && Body(w).Ok?
    requires w.decision.targetRef in t.services && w.snapshot == t.services[w.decision.targetRef].live
    ensures Trace(c, s, at, run, u, v) && Steps(run) == Steps(run0) + 1
    ensures v == w.(pc := Await, put := v.put) && v.put != NoPut
    ensures FacetOf(u) == Flipped(t, w.decision.targetRef, behaviour, Body(w).value)
    ensures AnswerFits(v, AnswerOf(behaviour, w.snapshot, Body(w).value))
  {
    run, u, v := SendGoes(c, s, at, run0, t, w);
    var sent := v;
    assert Body(sent) == Body(w);
    var before := u;
    run, u, v := ServerGoes(c, s, at, run, before, sent, behaviour);
    ServedFacet(before, sent, u, v, behaviour);
  }

  /** The PUT was built from the live document, which is now as the server left it. */
  ghost predicate Sent(before: map<string, C.Doc>, after: map<string, C.Doc>, w: Worker, behaviour: Behaviour) {
    && w.put != NoPut && Body(w).Ok?
    && w.decision.targetRef in before && w.snapshot == before[w.decision.targetRef]
    && after == before[w.decision.targetRef := LiveAfter(behaviour, w.snapshot, Body(w).value)]
  }

  function HeardBy(w: Worker, behaviour: Behaviour): Answer
    requires Body(w).Ok?
  {
    AnswerOf(behaviour, w.snapshot, Body(w).value)
  }

  /** Neither depends on where the request stands or under which epoch. */
  lemma StillSent(before: map<string, C.Doc>, after: map<string, C.Doc>, w: Worker, v: Worker, behaviour: Behaviour)
    requires Sent(before, after, w, behaviour) && v == w.(pc := v.pc, epoch := v.epoch)
    ensures Sent(before, after, v, behaviour) && HeardBy(v, behaviour) == HeardBy(w, behaviour)
  {
    assert Body(v) == Body(w);
  }

  /** The whole flip: without a body the request ends in an exception. */
  lemma FlipGoes(c: Config, s: World, at: nat -> Input, run0: seq<Action>, t: World, w: Worker,
                 behaviour: Behaviour)
    returns (run: seq<Action>, u: World, v: Worker)
    requires Trace(c, s, at, run0, t, w) && w.pc.Send? && Fitting(t, w.decision, behaviour)
    requires w.decision.targetRef in t.services && w.snapshot == t.services[w.decision.targetRef].live
    ensures Trace(c, s, at, run, u, v) && v == w.(pc := v.pc, put := v.put)
    ensures Steps(run) == Steps(run0) + 1
    ensures match Body(w)
            case Err(_) => v == w.(pc := Crashed) && FacetOf(u) == FacetOf(t)
            case Ok(body) =>
              && FacetOf(u) == Flipped(t, w.decision.targetRef, behaviour, body) && v.pc.Await?
              && Sent(Lives(t.services), Lives(u.services), v, behaviour) && AnswerFits(v, HeardBy(v, behaviour))
  {
    if Body(w).Err? {
      run, u, v := SendGoes(c, s, at, run0, t, w);
    } else {
      run, u, v := LaunchGoes(c, s, at, run0, t, w, behaviour);
      assert Body(v) == Body(w);
    }
  }

  /** The fingerprint is bound to another execution. */
  predicate Conflicts(bs: E.Bindings, fingerprint: string, exec: string) {
    fingerprint in bs && bs[fingerprint].executionId != exec
  }

  // --- what the parts of the program leave behind ---

  /** A last write, or a release: where it leaves the request, and the records. */
  function Concluded(rs: E.Records, v: Worker, now: int): (PC, E.Records)
    requires Writes(v.pc) || v.pc.Releasing?
  {
    if Writes(v.pc) then
      var u := WriteOf(v);
      var a := E.Advance(rs, v.exec, u.to, v.owner, v.epoch, Some(u.gate), u.effect, now);
      (AfterWrite(u, a.0), a.1)
    else (Done(v.pc.reply), E.Release(rs, v.exec, v.owner, v.epoch, now).1)
  }

  /** What an observation leads to. A live revision is recorded as MUTATED, with whether its effect predates
      this execution; an attempt that did not hold is reported and the lease given back; traffic that has
      moved makes the evidence stale, which is recorded; a target that is not offered under a healthy URL is
      refused and the lease given back; and only then nothing speaks against the mutation (None). */
  predicate Concludes(rs: E.Records, after: E.Records, w: Worker, x: Input, now: int, end: Option<Reply>) {
    var r, d := w.record, w.decision;
    var attempted := r.state == E.MutationRequested || r.state == E.Mutated;
    var unfinished := Some({E.Claimed, E.PreconditionChecked, E.MutationRequested, E.Mutated});
    if T.Active(x.described) == d.authorizedTarget then
      var predates := r.effectPredates || !attempted;
      var a := E.Advance(rs, w.exec, E.Mutated, w.owner, w.epoch, unfinished, Some(predates), now);
      && after == a.1
      && end == Some(if a.0 == E.Advanced then Protocol.Reconciled(predates) else Refused(Fenced))
    else if attempted then
      end == Some(Refused(MutationDidNotHold)) && after == E.Release(rs, w.exec, w.owner, w.epoch, now).1
    else if Moved(d, x.described) then
      && end == Some(Refused(StaleEvidence))
      && after == E.Advance(rs, w.exec, E.Stale, w.owner, w.epoch, unfinished, None, now).1
    else if Clears(d, x.described, x.probed) then end == None && after == rs
    else
      end == Some(Refused(TargetNoLongerHealthy)) && after == E.Release(rs, w.exec, w.owner, w.epoch, now).1
  }

  lemma BranchConcludes(w: Worker, x: Input, rs: E.Records, after: E.Records, now: int, end: Option<Reply>)
    requires var v := w.(pc := Decide(w, Seen(w, x)));
             if v.pc.WriteChecked? then end == None && after == rs
             else end.Some? && (Done(end.value), after) == Concluded(rs, v, now)
    ensures Concludes(rs, after, w, x, now, end)
  {
    BranchesExactly(w, x);
  }

  /** The mutation can be recorded under a lease taken again at step 13. */
  predicate Regains(rs: E.Records, exec: string, at: nat -> Input) {
    && exec in rs && rs[exec].state == E.MutationRequested
    && !E.Live(rs[exec], at(13).now) && at(14).now < at(13).now + E.LEASE_SECONDS
  }

  /** The mutation can be recorded: by the holder at step 12, or under a lease taken again. */
  predicate Lands(rs: E.Records, exec: string, owner: string, epoch: nat, at: nat -> Input) {
    && exec in rs && rs[exec].state == E.MutationRequested && E.Owns(rs[exec], owner, epoch)
    && (E.Live(rs[exec], at(12).now) || Regains(rs, exec, at))
  }

  /** Only this execution's record may have moved; it says MUTATED if `recorded`, and what it said if not. */
  predicate Recorded(rs: E.Records, after: E.Records, exec: string, recorded: bool) {
    && (recorded ==> exec in after && after == rs[exec := after[exec]] && after[exec].state == E.Mutated)
    && (!recorded && exec in rs ==>
          exec in after && after == rs[exec := after[exec]] && after[exec].state == rs[exec].state)
  }

  /** The success write. */
  function Recording(rs: E.Records, exec: string, owner: string, epoch: nat, now: int): (E.Outcome, E.Records) {
    E.Advance(rs, exec, E.Mutated, owner, epoch, Some({E.MutationRequested}), None, now)
  }

  lemma LandsExactly(rs: E.Records, exec: string, owner: string, epoch: nat, at: nat -> Input)
    ensures var a := Recording(rs, exec, owner, epoch, at(12).now);
            if a.0 == E.LeaseLost
            then a.1 == rs && (Lands(rs, exec, owner, epoch, at) <==> Regains(rs, exec, at))
            else
              && (a.0 == E.Advanced <==> Lands(rs, exec, owner, epoch, at))
              && Recorded(rs, a.1, exec, a.0 == E.Advanced)
  {
  }

  lemma RegainsExactly(rs: E.Records, exec: string, owner: string, claim: E.Claim, at: nat -> Input)
    ensures var a := E.Acquire(rs, exec, owner, claim, at(13).now, E.LEASE_SECONDS);
            var b := Recording(a.2, exec, owner, a.1.epoch, at(14).now);
            if a.0 !in {E.Acquired, E.Recovered} then !Regains(rs, exec, at) && Recorded(rs, a.2, exec, false)
            else
              && (b.0 == E.Advanced <==> Regains(rs, exec, at)) && Recorded(rs, b.1, exec, b.0 == E.Advanced)
              && (b.0 == E.Advanced ==> b.1[exec].epoch == rs[exec].epoch + 1)
  {
  }

  /** The rewind after a 409. */
  function Rewound(rs: E.Records, exec: string, owner: string, epoch: nat, now: int): (E.Outcome, E.Records) {
    E.Advance(rs, exec, E.PreconditionChecked, owner, epoch, Some({E.MutationRequested}), None, now)
  }

  /** What the answer to the caller says about the answer to the PUT. */
  predicate Tells(reply: Option<Reply>, answer: Answer) {
    match answer
    case Accepted => reply.Some? && reply.value.Mutation?
    case Conflict409 => reply.Some? && reply.value.Refused? && reply.value.reason.ConcurrentModification?
    case Unclear => reply == Some(Refused(OutcomeUnknown))
    case Lost => reply == None
  }

  /** The evidence of an observation that satisfies the decision. */
  function EvidenceFrom(x: Input): E.Evidence {
    E.Evidence(T.Allocate(x.described.statuses), x.live.httpStatus, true, true)
  }

  /** /terminalize echoes a VERIFIED execution, closes a MUTATED one exactly on an observation that
      satisfies the decision, and refuses without a trace otherwise. */
  predicate Terminalized(rs: E.Records, key: Key, d: Decision, exec: string, x: Input,
                         receipt: Option<Receipt>, after: E.Records)
  {
    if exec in rs && rs[exec].state == E.Verified then
      && after == rs
      && receipt.Some? && receipt.value == Receipt(key, true, E.Verified, receipt.value.serves)
      && (receipt.value.serves <==>
            && rs[exec].closing.Some?
            && var e := rs[exec].closing.value; (e.exclusive || e.allocation == map[d.authorizedTarget := 100]))
    else if exec in rs && rs[exec].state == E.Mutated && Satisfies(d, x) then
      && receipt == Some(Receipt(key, true, E.Verified, true))
      && after == rs[exec := rs[exec].(state := E.Verified, owner := None, expires := None,
                                       closing := Some(EvidenceFrom(x)))]
    else receipt == None && after == rs
  }

  lemma ClosedOnSight(rs: E.Records, k: Closer, x: Input)
    requires k.exec in rs && rs[k.exec].state == E.Mutated && Satisfies(k.decision, x)
    requires k.described == x.described && k.probe == x.live
    ensures var a := E.Terminalize(rs, k.exec, E.Verified, TERMINALIZABLE_STATES, EvidenceOf(k));
            && a.0 == E.Advanced
            && Terminalized(rs, k.key, k.decision, k.exec, x, Some(ReceiptFor(k, a.0, a.1)), a.2)
  {
  }

  function Issued(receipt: Option<Receipt>): set<Receipt> {
    match receipt case Some(r) => {r} case None => {}
  }

  // --- the program ---

  /** The deployed service: its stores, the region it acts on, and what the control plane tells it. */
  class ExecutorService {
    const c: Config
    const owner: string
    const store: E.ExecutionStore
    const region: Region
    var decisions: map<Key, Decision>
    var incidents: map<string, Status>
    var approvals: map<string, R.Approval>

    constructor (c: Config, owner: string, store: E.ExecutionStore, region: Region)
      ensures this.c == c && this.owner == owner && this.store == store && this.region == region
    {
      this.c, this.owner, this.store, this.region := c, owner, store, region;
      decisions, incidents, approvals := map[], map[], map[];
    }

    ghost predicate Mirrors(t: World)
      reads this, store, region
    {
      FacetOf(t) == Facet(decisions, incidents, approvals, store.executions, store.authorizations, region.live)
    }

    /** What validation makes of a decision on an existing incident. */
    function Verdict(key: Key, d: Decision, now: int): Option<Reply>
      requires key.0 in incidents
      reads this
    {
      match Validate(c, d, key.0, Some(incidents[key.0]), Approving(d), now)
      case Some(problem) => Some(Refused(Invalid(problem)))
      case None => None
    }

    function Approving(d: Decision): Option<R.Approval>
      reads this
    {
      if d.approvalId in approvals then Some(approvals[d.approvalId]) else None
    }

    /** The credentials the program holds are the request's. */
    ghost predicate Bears(w: Worker, exec: string, epoch: nat)
    {
      w.exec == exec && w.epoch == epoch && w.owner == owner
    }

    /** What an exception before the PUT is due to: the incident is gone, or the service unreadable or not
        safe to replace. */
    ghost predicate Excused(before: map<string, C.Doc>, w: Worker)
      reads this
    {
      || w.key.0 !in incidents
      || w.decision.targetRef !in before
      || C.Replacement(before[w.decision.targetRef], TargetRevision(w.decision)).Err?
    }

    /** What the program leaves of the services and says about them. Without a PUT they are as they were,
        and an exception has its excuse; with one they are as the server left them, and the answer says
        what was heard of it. */
    ghost predicate Outcome(before: map<string, C.Doc>, w: Worker, behaviour: Behaviour, reply: Option<Reply>)
      reads this, region
    {
      if w.put == NoPut then region.live == before && (reply.None? ==> Excused(before, w))
      else Sent(before, region.live, w, behaviour) && Tells(reply, HeardBy(w, behaviour))
    }

    // `at(i)` is what step `i` takes from outside: its clock, and what it observes. 0 to 2 read and
    // validate, 3 binds, 4 claims, 5 observes, 6 is the first write, 7 the re-read, 8 the authorized read,
    // 9 the record of the intent, 10 the PUT, 11 its answer, 12 to 14 record what came of it.

    /** /execute. Whatever it finds and however the server behaves, it makes a run of the protocol that is
        its own alone and takes at each step what `at` offers for it; that run ends with its answer, or with
        an exception (None). */
    method Execute(key: Key, at: nat -> Input, behaviour: Behaviour, ghost s: World)
      returns (reply: Option<Reply>, ghost run: seq<Action>, ghost t: World)
      requires WellNumbered(s) && Mirrors(s)
      requires key in s.decisions ==> Fitting(s, s.decisions[key], behaviour)
      modifies store, region
      ensures SoloRun(c, s, at, run, t, key, owner, |s.workers|) && Mirrors(t)
      ensures |s.workers| < |t.workers| && t.workers[|s.workers|].pc == Ended(reply)
      ensures Outcome(old(region.live), t.workers[|s.workers|], behaviour, reply)
      ensures t.workers[|s.workers|].put != NoPut ==>
                key in decisions && Clears(decisions[key], at(5).described, at(5).probed)
    {
      ghost var w;
      var end, d;
      end, d, run, t, w := Admit(key, at, s);
      TraceMeans(c, s, at, run, t, w);
      if end.Some? {
        return end, run, t;
      }
      assert key in decisions && d == decisions[key] == s.decisions[key];
      StillFitting(s, t, d, behaviour);
      reply, run, t := Pursue(s, run, t, w, key, d, at, behaviour);
    }

    /** A validated decision: bind it, claim its execution, reconcile, and mutate if all that allows it. */
    method Pursue(ghost s: World, ghost run0: seq<Action>, ghost t0: World, ghost w0: Worker,
                  key: Key, d: Decision, at: nat -> Input, behaviour: Behaviour)
      returns (reply: Option<Reply>, ghost run: seq<Action>, ghost t: World)
      requires Trace(c, s, at, run0, t0, w0) && Steps(run0) == 3 && Mirrors(t0) && Fitting(t0, d, behaviour)
      requires w0.pc.Bind? && w0.put == NoPut && w0.key == key && w0.owner == owner && w0.decision == d
      requires w0.exec == ExecutionOf(c, d, key) && w0.fingerprint == FingerprintOf(c, d, key.0)
      modifies store, region
      ensures SoloRun(c, s, at, run, t, key, owner, w0.id) && Mirrors(t)
      ensures w0.id < |t.workers| && t.workers[w0.id].pc == Ended(reply)
      ensures Outcome(old(region.live), t.workers[w0.id], behaviour, reply)
      ensures t.workers[w0.id].put != NoPut ==> Clears(d, at(5).described, at(5).probed)
    {
      ghost var w;
      var exec, fingerprint := ExecutionOf(c, d, key), FingerprintOf(c, d, key.0);
      var end;
      end, run, t, w := BindOnce(s, run0, t0, w0, key, exec, fingerprint, at);
      if end.Some? {
        TraceMeans(c, s, at, run, t, w);
        return end, run, t;
      }
      StillFitting(t0, t, d, behaviour);
      reply, run, t := Act(s, run, t, w, key, d, exec, at, behaviour);
    }

    /** One holder: claim the execution, reconcile against what is live, and only then mutate. */
    method Act(ghost s: World, ghost run0: seq<Action>, ghost t0: World, ghost w0: Worker,
               key: Key, d: Decision, exec: string, at: nat -> Input, behaviour: Behaviour)
      returns (reply: Option<Reply>, ghost run: seq<Action>, ghost t: World)
      requires Trace(c, s, at, run0, t0, w0) && Steps(run0) == 4 && Mirrors(t0) && Fitting(t0, d, behaviour)
      requires w0.pc.Acquire? && w0.put == NoPut
      requires w0.key == key && w0.owner == owner && w0.decision == d && w0.exec == exec
      modifies store, region
      ensures SoloRun(c, s, at, run, t, key, owner, w0.id) && Mirrors(t)
      ensures w0.id < |t.workers| && t.workers[w0.id].pc == Ended(reply)
      ensures Outcome(old(region.live), t.workers[w0.id], behaviour, reply)
      ensures t.workers[w0.id].put != NoPut ==> Clears(d, at(5).described, at(5).probed)
    {
      ghost var w;
      var claim := E.Claim(key.0, key.1, d.actionType, d.targetRef, d.authorizedTarget,
                           d.expectedSource, d.expectedEtag);
      var end, record;
      end, record, run, t, w := Claim(s, run0, t0, w0, exec, claim, at);
      if end.Some? {
        TraceMeans(c, s, at, run, t, w);
        return end, run, t;
      }
      StillFitting(t0, t, d, behaviour);
      reply, run, t := Engage(s, run, t, w, key, d, exec, record, claim, at, behaviour);
    }

    /** The holder: reconcile first, and mutate only if nothing speaks against it. */
    method Engage(ghost s: World, ghost run0: seq<Action>, ghost t0: World, ghost w0: Worker,
                  key: Key, d: Decision, exec: string, record: E.Record, claim: E.Claim,
                  at: nat -> Input, behaviour: Behaviour)
      returns (reply: Option<Reply>, ghost run: seq<Action>, ghost t: World)
      requires Trace(c, s, at, run0, t0, w0) && Steps(run0) == 5 && Mirrors(t0) && Fitting(t0, d, behaviour)
      requires w0.pc.Look? && w0.put == NoPut && w0.key == key && w0.decision == d && w0.record == record
      requires ClaimOf(w0) == claim && Bears(w0, exec, record.epoch)
      modifies store, region
      ensures SoloRun(c, s, at, run, t, key, owner, w0.id) && Mirrors(t)
      ensures w0.id < |t.workers| && t.workers[w0.id].pc == Ended(reply)
      ensures Outcome(old(region.live), t.workers[w0.id], behaviour, reply)
      ensures t.workers[w0.id].put != NoPut ==> Clears(d, at(5).described, at(5).probed)
    {
      var end;
      ghost var w;
      end, run, t, w := Reconcile(s, run0, t0, w0, d, exec, record, at);
      if end.Some? {
        TraceMeans(c, s, at, run, t, w);
        return end, run, t;
      }
      StillFitting(t0, t, d, behaviour);
      reply, run, t := Mutate(s, run, t, w, key, d, exec, record.epoch, claim, at, behaviour);
    }

    /** Reads the decision and validates it against the incident. */
    method Admit(key: Key, at: nat -> Input, ghost s: World)
      returns (end: Option<Reply>, d: Decision, ghost run: seq<Action>, ghost t: World, ghost w: Worker)
      requires WellNumbered(s) && Mirrors(s)
      ensures Trace(c, s, at, run, t, w) && Mirrors(t) && t.services == s.services
      ensures w.id == |s.workers| && w.key == key && w.owner == owner && w.put == NoPut
      ensures key in decisions ==> d == decisions[key]
      ensures end == if key !in decisions then Some(Refused(DecisionMissing))
                     else if key.0 !in incidents then Some(Refused(IncidentMissing))
                     else Verdict(key, decisions[key], at(2).now)
      ensures match end
              case Some(reply) => w.pc == Done(reply)
              case None =>
                && Steps(run) == 3 && key in decisions && d == decisions[key] == w.decision
                && w.pc.Bind? && w.exec == ExecutionOf(c, d, key) && w.fingerprint == FingerprintOf(c, d, key.0)
    {
      d := NO_DECISION;
      run, t, w := ArrivalGoes(c, s, at, key, owner);
      run, t, w := DecisionGoes(c, s, at, run, t, w);
      if key !in decisions {
        return Some(Refused(DecisionMissing)), d, run, t, w;
      }
      d := decisions[key];
      end, run, t, w := Check(s, run, t, w, key, d, at);
    }

    /** Reads the incident, and the approval where one is needed, and validates. */
    method Check(ghost s: World, ghost run0: seq<Action>, ghost t0: World, ghost w0: Worker,
                 key: Key, d: Decision, at: nat -> Input)
      returns (end: Option<Reply>, ghost run: seq<Action>, ghost t: World, ghost w: Worker)
      requires Trace(c, s, at, run0, t0, w0) && Steps(run0) == 1 && Mirrors(t0)
      requires w0.pc.ReadIncident? && w0.key == key && w0.decision == d
      ensures Trace(c, s, at, run, t, w) && Mirrors(t) && t.services == t0.services && SameRequest(w0, w)
      ensures end == if key.0 !in incidents then Some(Refused(IncidentMissing)) else Verdict(key, d, at(2).now)
      ensures match end
              case Some(reply) => w.pc == Done(reply)
              case None =>
                && Steps(run) == 3
                && w.pc.Bind? && w.exec == ExecutionOf(c, d, key) && w.fingerprint == FingerprintOf(c, d, key.0)
    {
      if key.0 !in incidents {
        run, t, w := IncidentGoes(c, s, at, run0, t0, w0);
        return Some(Refused(IncidentMissing)), run, t, w;
      }
      var problem := Validate(c, d, key.0, Some(incidents[key.0]), Approving(d), at(2).now);
      run, t, w := ValidationGoes(c, s, at, run0, t0, w0, problem);
      end := if problem.Some? then Some(Refused(Invalid(problem.value))) else None;
    }

    /** One authorization, one execution. */
    method BindOnce(ghost s: World, ghost run0: seq<Action>, ghost t0: World, ghost w0: Worker,
                    key: Key, exec: string, fingerprint: string, ghost at: nat -> Input)
      returns (end: Option<Reply>, ghost run: seq<Action>, ghost t: World, ghost w: Worker)
      requires Trace(c, s, at, run0, t0, w0) && Mirrors(t0)
      requires w0.pc.Bind? && w0.key == key && w0.exec == exec && w0.fingerprint == fingerprint
      modifies store
      ensures Trace(c, s, at, run, t, w) && Steps(run) == Steps(run0) + 1 && Mirrors(t) && t.services == t0.services
      ensures end == (if Conflicts(old(store.authorizations), fingerprint, exec)
                      then Some(Refused(DuplicateAuthorization)) else None)
      ensures store.executions == old(store.executions)
      ensures w == w0.(pc := match end case Some(reply) => Done(reply) case None => Acquire)
    {
      var binding, bound := store.BindAuthorization(fingerprint, E.Binding(exec, key.0, key.1));
      run, t, w := BindingGoes(c, s, at, run0, t0, w0);
      end := if binding == E.Conflict then Some(Refused(DuplicateAuthorization)) else None;
    }

    /** One execution, one holder. */
    method Claim(ghost s: World, ghost run0: seq<Action>, ghost t0: World, ghost w0: Worker,
                 exec: string, claim: E.Claim, at: nat -> Input)
      returns (end: Option<Reply>, record: E.Record, ghost run: seq<Action>, ghost t: World, ghost w: Worker)
      requires Trace(c, s, at, run0, t0, w0) && Steps(run0) == 4 && Mirrors(t0)
      requires w0.pc.Acquire? && w0.exec == exec && w0.owner == owner && ClaimOf(w0) == claim
      modifies store
      ensures Trace(c, s, at, run, t, w) && Steps(run) == 5 && Mirrors(t) && t.services == t0.services
      ensures var a := E.Acquire(old(store.executions), exec, owner, claim, at(4).now, E.LEASE_SECONDS);
              record == a.1 && store.executions == a.2 && end == Suppressed(a.0, a.1)
      ensures w == match end
                   case Some(reply) => w0.(pc := Done(reply))
                   case None => w0.(pc := Look, epoch := record.epoch, record := record)
    {
      var outcome;
      outcome, record := store.AcquireLease(exec, owner, claim, at(4).now);
      run, t, w := AcquiringGoes(c, s, at, run0, t0, w0);
      end := if outcome == E.AlreadyFinished || outcome == E.HeldByOther
             then Some(Duplicate(outcome == E.AlreadyFinished, record.effectPredates)) else None;
    }

    /** Reconciles against the live service before anything is touched: the branches of CASE A, B and C. */
    method Reconcile(ghost s: World, ghost run0: seq<Action>, ghost t0: World, ghost w0: Worker,
                     d: Decision, exec: string, record: E.Record, at: nat -> Input)
      returns (end: Option<Reply>, ghost run: seq<Action>, ghost t: World, ghost w: Worker)
      requires Trace(c, s, at, run0, t0, w0) && Steps(run0) == 5 && Mirrors(t0)
      requires w0.pc.Look? && w0.decision == d && w0.record == record && Bears(w0, exec, record.epoch)
      modifies store
      ensures Trace(c, s, at, run, t, w) && Mirrors(t) && t.services == t0.services
      ensures Reconciled(old(store.executions), w0.(pc := Decide(w0, Seen(w0, at(5)))), at(6).now, end)
      ensures Concludes(old(store.executions), store.executions, w0, at(5), at(6).now, end)
      ensures end.None? ==> Steps(run) == 6
      ensures w == w0.(pc := match end case Some(reply) => Done(reply) case None => WriteChecked)
    {
      var x := at(5);
      ghost var before := store.executions;
      var active := T.Active(x.described);
      var observed := T.Observe(x.described, x.live, x.probed, d.authorizedTarget, d.actionType == SHIFT);
      run, t, w := LookingGoes(c, s, at, run0, t0, w0);
      if active == d.authorizedTarget {
        var reply;
        reply, run, t, w := Adopt(s, run, t, w, exec, record, at);
        BranchConcludes(w0, x, before, store.executions, at(6).now, Some(reply));
        return Some(reply), run, t, w;
      }
      end, run, t, w := Prevent(s, run, t, w, d, exec, record, active, observed, at);
    }

    /** What follows from the branch taken at `v`: with nothing against it the records stay as they are,
        and in every other case one write or release ends the request. */
    ghost predicate Reconciled(rs: E.Records, v: Worker, now: int, end: Option<Reply>)
      requires Writes(v.pc) || v.pc.Releasing?
      reads store
    {
      if v.pc.WriteChecked? then end == None && store.executions == rs
      else end.Some? && (Done(end.value), store.executions) == Concluded(rs, v, now)
    }

    /** The revision is live already: record that, and whether the effect predates this execution. */
    method Adopt(ghost s: World, ghost run0: seq<Action>, ghost t0: World, ghost w0: Worker,
                 exec: string, record: E.Record, at: nat -> Input)
      returns (reply: Reply, ghost run: seq<Action>, ghost t: World, ghost w: Worker)
      requires Trace(c, s, at, run0, t0, w0) && Steps(run0) == 6 && Mirrors(t0)
      requires w0.pc.WriteReconciled? && w0.record == record && Bears(w0, exec, record.epoch)
      modifies store
      ensures Trace(c, s, at, run, t, w) && Mirrors(t) && t.services == t0.services && w == w0.(pc := Done(reply))
      ensures Reconciled(old(store.executions), w0, at(6).now, Some(reply))
    {
      var predates := record.effectPredates || record.state !in ATTEMPTED_STATES;
      var done, fenced := Protocol.Reconciled(predates), Refused(Fenced);
      var u := Write(E.Mutated, PRE_MUTATION_STATES, Some(predates), Done(done), Done(fenced), Done(fenced));
      var outcome;
      outcome, run, t, w := WriteFenced(s, run0, t0, w0, exec, record.epoch, u, at(6).now, at);
      reply := if outcome == E.Advanced then done else fenced;
    }

    /** What speaks against mutating: an attempt of its own that did not hold, evidence gone stale, or a
        target that no longer answers. */
    method Prevent(ghost s: World, ghost run0: seq<Action>, ghost t0: World, ghost w0: Worker,
                   d: Decision, exec: string, record: E.Record, active: string, observed: T.Observation,
                   at: nat -> Input)
      returns (end: Option<Reply>, ghost run: seq<Action>, ghost t: World, ghost w: Worker)
      requires Trace(c, s, at, run0, t0, w0) && Steps(run0) == 6 && Mirrors(t0) && Bears(w0, exec, record.epoch)
      requires w0.decision == d && w0.record == record && active != d.authorizedTarget
      requires active == T.Active(observed.described) && w0.pc == Decide(w0, observed)
      requires observed == Seen(w0, at(5))
      modifies store
      ensures Trace(c, s, at, run, t, w) && Mirrors(t) && t.services == t0.services
      ensures Reconciled(old(store.executions), w0, at(6).now, end)
      ensures Concludes(old(store.executions), store.executions, w0, at(5), at(6).now, end)
      ensures end.None? ==> Steps(run) == 6
      ensures w == w0.(pc := match end case Some(reply) => Done(reply) case None => WriteChecked)
    {
      run, t, w := run0, t0, w0;
      BranchesExactly(w0, at(5));
      if record.state in ATTEMPTED_STATES {
        run, t, w := GiveBack(s, run, t, w, exec, record.epoch, Refused(MutationDidNotHold), at(6).now, at);
        return Some(Refused(MutationDidNotHold)), run, t, w;
      }
      if d.expectedSource != "" && active != d.expectedSource {
        var stale := Done(Refused(StaleEvidence));
        var u := Write(E.Stale, PRE_MUTATION_STATES, None, stale, stale, stale);
        var outcome;
        outcome, run, t, w := WriteFenced(s, run, t, w, exec, record.epoch, u, at(6).now, at);
        return Some(Refused(StaleEvidence)), run, t, w;
      }
      if T.CandidateIsFresh(observed, d.authorizedTarget).Some? {
        run, t, w := GiveBack(s, run, t, w, exec, record.epoch, Refused(TargetNoLongerHealthy), at(6).now, at);
        return Some(Refused(TargetNoLongerHealthy)), run, t, w;
      }
      end := None;
    }

    /** The part of /execute that acts: nothing is live yet, nothing was tried, and nothing speaks against it. */
    method Mutate(ghost s: World, ghost run0: seq<Action>, ghost t0: World, ghost w0: Worker,
                  key: Key, d: Decision, exec: string, epoch: nat, claim: E.Claim,
                  at: nat -> Input, behaviour: Behaviour)
      returns (reply: Option<Reply>, ghost run: seq<Action>, ghost t: World)
      requires Trace(c, s, at, run0, t0, w0) && Steps(run0) == 6 && Mirrors(t0) && Fitting(t0, d, behaviour)
      requires w0.pc.WriteChecked? && w0.put == NoPut && w0.key == key && w0.decision == d
      requires ClaimOf(w0) == claim && Bears(w0, exec, epoch)
      modifies store, region
      ensures SoloRun(c, s, at, run, t, key, owner, w0.id) && Mirrors(t)
      ensures w0.id < |t.workers| && t.workers[w0.id].pc == Ended(reply)
      ensures Outcome(old(region.live), t.workers[w0.id], behaviour, reply)
    {
      var end, snapshot;
      ghost var w;
      end, run, t, w := Confirm(s, run0, t0, w0, key, exec, epoch, at);
      if end.Some? {
        TraceMeans(c, s, at, run, t, w);
        return end.value, run, t;
      }
      end, snapshot, run, t, w := Request(s, run, t, w, d.targetRef, exec, epoch, at);
      if end.Some? {
        TraceMeans(c, s, at, run, t, w);
        return end.value, run, t;
      }
      StillFitting(t0, t, d, behaviour);
      reply, run, t, w := Shift(s, run, t, w, d, snapshot, exec, epoch, claim, at, behaviour);
      TraceMeans(c, s, at, run, t, w);
    }

    /** The PUT and what comes of it. */
    method Shift(ghost s: World, ghost run0: seq<Action>, ghost t0: World, ghost w0: Worker,
                 d: Decision, snapshot: C.Doc, exec: string, epoch: nat, claim: E.Claim,
                 at: nat -> Input, behaviour: Behaviour)
      returns (reply: Option<Reply>, ghost run: seq<Action>, ghost t: World, ghost w: Worker)
      requires Trace(c, s, at, run0, t0, w0) && Steps(run0) == 10 && Mirrors(t0) && Fitting(t0, d, behaviour)
      requires w0.pc.Send? && w0.put == NoPut && w0.decision == d
      requires ClaimOf(w0) == claim && Bears(w0, exec, epoch)
      requires d.targetRef in t0.services && w0.snapshot == snapshot == t0.services[d.targetRef].live
      modifies store, region
      ensures Trace(c, s, at, run, t, w) && Mirrors(t) && w.pc == Ended(reply)
      ensures w.id == w0.id && w.key == w0.key && w.owner == w0.owner
      ensures Outcome(old(region.live), w, behaviour, reply)
    {
      var answer;
      answer, run, t, w := Flip(s, run0, t0, w0, d.targetRef, d.authorizedTarget, snapshot, at, behaviour);
      if answer.None? {
        UnsentEnds(w0, w, behaviour);
        return None, run, t, w;
      }
      ghost var sent := w;
      assert ClaimOf(sent) == ClaimOf(w0);
      reply, run, t, w := Settle(s, run, t, w, answer.value, exec, epoch, claim, at);
      SentEnds(old(region.live), sent, w, behaviour, reply);
    }

    lemma UnsentEnds(w: Worker, v: Worker, behaviour: Behaviour)
      requires Body(w).Err? && w.put == NoPut && v == w.(pc := Crashed)
      requires w.decision.targetRef in region.live && w.snapshot == region.live[w.decision.targetRef]
      ensures Outcome(region.live, v, behaviour, None)
    {
    }

    lemma SentEnds(before: map<string, C.Doc>, w: Worker, v: Worker, behaviour: Behaviour, reply: Option<Reply>)
      requires Sent(before, region.live, w, behaviour) && v == w.(pc := v.pc, epoch := v.epoch)
      requires Tells(reply, HeardBy(w, behaviour))
      ensures Outcome(before, v, behaviour, reply)
    {
      StillSent(before, region.live, w, v, behaviour);
    }

    /** The final ownership write, and the control-plane re-read. */
    method Confirm(ghost s: World, ghost run0: seq<Action>, ghost t0: World, ghost w0: Worker,
                   key: Key, exec: string, epoch: nat, at: nat -> Input)
      returns (end: Option<Option<Reply>>, ghost run: seq<Action>, ghost t: World, ghost w: Worker)
      requires Trace(c, s, at, run0, t0, w0) && Steps(run0) == 6 && Mirrors(t0)
      requires w0.pc.WriteChecked? && w0.key == key && Bears(w0, exec, epoch)
      modifies store
      ensures Trace(c, s, at, run, t, w) && Mirrors(t) && t.services == t0.services
      ensures var a := E.Advance(old(store.executions), exec, E.PreconditionChecked, owner, epoch,
                                 Some(PRE_MUTATION_STATES), None, at(6).now);
              if a.0 != E.Advanced then end == Some(Some(Refused(Fenced))) && store.executions == a.1
              else if key.0 !in incidents then end == Some(None) && store.executions == a.1
              else if incidents[key.0] in CLOSED then
                && end == Some(Some(Refused(ClosedMidFlight)))
                && store.executions == E.Release(a.1, exec, owner, epoch, at(8).now).1
              else end == None && store.executions == a.1 && Steps(run) == 8
      ensures w == w0.(pc := match end case Some(reply) => Ended(reply) case None => ReadSnapshot)
    {
      var fenced := Done(Refused(Fenced));
      var u := Write(E.PreconditionChecked, PRE_MUTATION_STATES, None, Recheck, fenced, fenced);
      var outcome;
      outcome, run, t, w := WriteFenced(s, run0, t0, w0, exec, epoch, u, at(6).now, at);
      if outcome != E.Advanced {
        return Some(Some(Refused(Fenced))), run, t, w;
      }
      run, t, w := RecheckGoes(c, s, at, run, t, w);
      if key.0 !in incidents {
        return Some(None), run, t, w;
      }
      if incidents[key.0] in CLOSED {
        run, t, w := GiveBack(s, run, t, w, exec, epoch, Refused(ClosedMidFlight), at(8).now, at);
        return Some(Some(Refused(ClosedMidFlight))), run, t, w;
      }
      end := None;
    }

    /** The authorized read, and the record of the intent to mutate. */
    method Request(ghost s: World, ghost run0: seq<Action>, ghost t0: World, ghost w0: Worker,
                   target: string, exec: string, epoch: nat, at: nat -> Input)
      returns (end: Option<Option<Reply>>, snapshot: C.Doc, ghost run: seq<Action>, ghost t: World, ghost w: Worker)
      requires Trace(c, s, at, run0, t0, w0) && Steps(run0) == 8 && Mirrors(t0)
      requires w0.pc.ReadSnapshot? && w0.decision.targetRef == target && Bears(w0, exec, epoch)
      modifies store
      ensures Trace(c, s, at, run, t, w) && Mirrors(t) && t.services == t0.services
      ensures target !in region.live ==> end == Some(None) && store.executions == old(store.executions)
      ensures target in region.live ==>
                var a := E.Advance(old(store.executions), exec, E.MutationRequested, owner, epoch,
                                   Some({E.PreconditionChecked}), None, at(9).now);
                && end == (if a.0 == E.Advanced then None else Some(Some(Refused(Fenced))))
                && store.executions == a.1
      ensures w == w0.(pc := w.pc, snapshot := w.snapshot)
      ensures match end
              case Some(reply) => w.pc == Ended(reply)
              case None =>
                && Steps(run) == 10 && target in t.services && snapshot == t.services[target].live
                && w == w0.(pc := Send, snapshot := snapshot)
    {
      run, t, w := SnapshotGoes(c, s, at, run0, t0, w0);
      snapshot := map[];
      if target !in region.live {
        return Some(None), snapshot, run, t, w;
      }
      snapshot := region.live[target];
      var fenced := Done(Refused(Fenced));
      var u := Write(E.MutationRequested, {E.PreconditionChecked}, None, Send, fenced, fenced);
      var outcome;
      outcome, run, t, w := WriteFenced(s, run, t, w, exec, epoch, u, at(9).now, at);
      end := if outcome != E.Advanced then Some(Some(Refused(Fenced))) else None;
    }

    /** The one mutation, as the server and its answer leave it. */
    method Flip(ghost s: World, ghost run0: seq<Action>, ghost t0: World, ghost w0: Worker,
                target: string, authorized: string, snapshot: C.Doc, ghost at: nat -> Input, behaviour: Behaviour)
      returns (answer: Option<Answer>, ghost run: seq<Action>, ghost t: World, ghost w: Worker)
      requires Trace(c, s, at, run0, t0, w0) && Mirrors(t0)
      requires w0.pc.Send? && w0.put == NoPut
      requires w0.decision.targetRef == target && w0.decision.authorizedTarget == authorized
      requires target in t0.services && w0.snapshot == snapshot == t0.services[target].live
      requires Fitting(t0, w0.decision, behaviour)
      modifies region
      ensures Trace(c, s, at, run, t, w) && Mirrors(t) && w == w0.(pc := w.pc, put := w.put)
      ensures match answer
              case None => Body(w0).Err? && w == w0.(pc := Crashed) && region.live == old(region.live)
              case Some(heard) =>
                && Sent(old(region.live), region.live, w, behaviour) && heard == HeardBy(w, behaviour)
                && w.pc.Await? && AnswerFits(w, heard) && Steps(run) == Steps(run0) + 1
    {
      assert target in region.live && region.live[target] == snapshot;
      run, t, w := FlipGoes(c, s, at, run0, t0, w0, behaviour);
      var flipped := region.FlipTraffic(target, authorized, snapshot, behaviour);
      if flipped == Err(NoAnswer) {
        return Some(Lost), run, t, w;
      }
      answer := if flipped.Ok? then Some(flipped.value) else None;
    }

    /** What the answer to the PUT leads to: a rewind, a recorded mutation, an unknown outcome, or, where
        none came, an exception. */
    method Settle(ghost s: World, ghost run0: seq<Action>, ghost t0: World, ghost w0: Worker,
                  answer: Answer, exec: string, epoch: nat, claim: E.Claim, at: nat -> Input)
      returns (reply: Option<Reply>, ghost run: seq<Action>, ghost t: World, ghost w: Worker)
      requires Trace(c, s, at, run0, t0, w0) && Steps(run0) == 11 && Mirrors(t0)
      requires w0.pc.Await? && AnswerFits(w0, answer) && ClaimOf(w0) == claim && Bears(w0, exec, epoch)
      modifies store
      ensures Trace(c, s, at, run, t, w) && Mirrors(t)
      ensures w == w0.(pc := w.pc, epoch := w.epoch) && w.pc == Ended(reply)
      ensures Tells(reply, answer)
      ensures match answer
              case Accepted =>
                && reply.value == Mutation(Lands(old(store.executions), exec, owner, epoch, at))
                && Recorded(old(store.executions), store.executions, exec, reply.value.recorded)
              case Conflict409 =>
                var a := Rewound(old(store.executions), exec, owner, epoch, at(12).now);
                reply.value == Refused(ConcurrentModification(a.0 == E.Advanced))
              case Unclear =>
                store.executions == E.Release(old(store.executions), exec, owner, epoch, at(12).now).1
              case Lost => store.executions == old(store.executions)
    {
      run, t, w := AnswerGoes(c, s, at, run0, t0, w0, answer);
      var said;
      match answer {
        case Accepted =>
          said, run, t, w := RecordMutation(s, run, t, w, exec, epoch, claim, at);
          return Some(said), run, t, w;
        case Unclear =>
          said := Refused(OutcomeUnknown);
          run, t, w := GiveBack(s, run, t, w, exec, epoch, said, at(12).now, at);
          return Some(said), run, t, w;
        case Conflict409 =>
          said, run, t, w := Rewind(s, run, t, w, exec, epoch, at);
          return Some(said), run, t, w;
        case Lost =>
          return None, run, t, w;
      }
    }

    /** A 409 proves that nothing was applied: wind the record back, and only then give the lease back. */
    method Rewind(ghost s: World, ghost run0: seq<Action>, ghost t0: World, ghost w0: Worker,
                  exec: string, epoch: nat, at: nat -> Input)
      returns (reply: Reply, ghost run: seq<Action>, ghost t: World, ghost w: Worker)
      requires Trace(c, s, at, run0, t0, w0) && Steps(run0) == 12 && Mirrors(t0)
      requires w0.pc.WriteRewind? && Bears(w0, exec, epoch)
      modifies store
      ensures Trace(c, s, at, run, t, w) && Mirrors(t) && w == w0.(pc := Done(reply))
      ensures var a := Rewound(old(store.executions), exec, owner, epoch, at(12).now);
              && reply == Refused(ConcurrentModification(a.0 == E.Advanced))
              && store.executions == (if a.0 == E.Advanced then E.Release(a.1, exec, owner, epoch, at(13).now).1
                                      else old(store.executions))
    {
      var rewound, kept := Refused(ConcurrentModification(true)), Refused(ConcurrentModification(false));
      var u := Write(E.PreconditionChecked, {E.MutationRequested}, None, Releasing(rewound), Done(kept), Done(kept));
      var outcome;
      outcome, run, t, w := WriteFenced(s, run0, t0, w0, exec, epoch, u, at(12).now, at);
      if outcome != E.Advanced {
        return kept, run, t, w;
      }
      run, t, w := GiveBack(s, run, t, w, exec, epoch, rewound, at(13).now, at);
      reply := rewound;
    }

    /** After the PUT was accepted: record it, re-acquiring a lapsed lease once. */
    method RecordMutation(ghost s: World, ghost run0: seq<Action>, ghost t0: World, ghost w0: Worker,
                          exec: string, epoch: nat, claim: E.Claim, at: nat -> Input)
      returns (reply: Reply, ghost run: seq<Action>, ghost t: World, ghost w: Worker)
      requires Trace(c, s, at, run0, t0, w0) && Steps(run0) == 12 && Mirrors(t0)
      requires w0.pc.WriteMutated? && ClaimOf(w0) == claim && Bears(w0, exec, epoch)
      modifies store
      ensures Trace(c, s, at, run, t, w) && Mirrors(t) && w == w0.(pc := w.pc, epoch := w.epoch) && w.pc == Done(reply)
      ensures reply == Mutation(Lands(old(store.executions), exec, owner, epoch, at))
      ensures Recorded(old(store.executions), store.executions, exec, reply.recorded)
    {
      var u := Write(E.Mutated, {E.MutationRequested}, None, Done(Mutation(true)), Reacquire, Done(Mutation(false)));
      var outcome;
      LandsExactly(store.executions, exec, owner, epoch, at);
      outcome, run, t, w := WriteFenced(s, run0, t0, w0, exec, epoch, u, at(12).now, at);
      if outcome != E.LeaseLost {
        return Mutation(outcome == E.Advanced), run, t, w;
      }
      reply, run, t, w := Retake(s, run, t, w, exec, claim, at);
    }

    /** Nobody took over the lapsed lease: take it again and record what happened. */
    method Retake(ghost s: World, ghost run0: seq<Action>, ghost t0: World, ghost w0: Worker,
                  exec: string, claim: E.Claim, at: nat -> Input)
      returns (reply: Reply, ghost run: seq<Action>, ghost t: World, ghost w: Worker)
      requires Trace(c, s, at, run0, t0, w0) && Steps(run0) == 13 && Mirrors(t0)
      requires w0.pc.Reacquire? && ClaimOf(w0) == claim && w0.exec == exec && w0.owner == owner
      modifies store
      ensures Trace(c, s, at, run, t, w) && Mirrors(t) && w == w0.(pc := Done(reply), epoch := w.epoch)
      ensures reply == Mutation(Regains(old(store.executions), exec, at))
      ensures Recorded(old(store.executions), store.executions, exec, reply.recorded)
      ensures reply.recorded ==> store.executions[exec].epoch == old(store.executions)[exec].epoch + 1
    {
      var epoch;
      RegainsExactly(store.executions, exec, owner, claim, at);
      epoch, run, t, w := TakeBack(s, run0, t0, w0, exec, claim, at);
      if epoch.None? {
        return Mutation(false), run, t, w;
      }
      ghost var regained := store.executions;
      var lost := Done(Mutation(false));
      var u := Write(E.Mutated, {E.MutationRequested}, None, Done(Mutation(true)), lost, lost);
      var outcome;
      outcome, run, t, w := WriteFenced(s, run, t, w, exec, epoch.value, u, at(14).now, at);
      assert (outcome, store.executions) == Recording(regained, exec, owner, epoch.value, at(14).now);
      reply := Mutation(outcome == E.Advanced);
    }

    /** The new epoch, if the lease could be had again. */
    method TakeBack(ghost s: World, ghost run0: seq<Action>, ghost t0: World, ghost w0: Worker,
                    exec: string, claim: E.Claim, at: nat -> Input)
      returns (epoch: Option<nat>, ghost run: seq<Action>, ghost t: World, ghost w: Worker)
      requires Trace(c, s, at, run0, t0, w0) && Steps(run0) == 13 && Mirrors(t0)
      requires w0.pc.Reacquire? && ClaimOf(w0) == claim && w0.exec == exec && w0.owner == owner
      modifies store
      ensures Trace(c, s, at, run, t, w) && Steps(run) == 14 && Mirrors(t)
      ensures var a := E.Acquire(old(store.executions), exec, owner, claim, at(13).now, E.LEASE_SECONDS);
              && store.executions == a.2
              && epoch == if a.0 in {E.Acquired, E.Recovered} then Some(a.1.epoch) else None
      ensures w == match epoch
                   case Some(n) => w0.(pc := WriteMutatedAgain, epoch := n)
                   case None => w0.(pc := Done(Mutation(false)))
    {
      var retake, retaken := store.AcquireLease(exec, owner, claim, at(13).now);
      run, t, w := ReacquiringGoes(c, s, at, run0, t0, w0);
      epoch := if retake == E.Acquired || retake == E.Recovered then Some(retaken.epoch) else None;
    }

    /** One write under the fence. */
    method WriteFenced(ghost s: World, ghost run0: seq<Action>, ghost t0: World, ghost w0: Worker,
                       exec: string, epoch: nat, u: Write, now: int, ghost at: nat -> Input)
      returns (outcome: E.Outcome, ghost run: seq<Action>, ghost t: World, ghost w: Worker)
      requires Trace(c, s, at, run0, t0, w0) && now == at(Steps(run0)).now && Mirrors(t0)
      requires Writes(w0.pc) && u == WriteOf(w0) && Bears(w0, exec, epoch)
      modifies store
      ensures Trace(c, s, at, run, t, w) && Steps(run) == Steps(run0) + 1 && Mirrors(t) && t.services == t0.services
      ensures (outcome, store.executions) ==
              E.Advance(old(store.executions), exec, u.to, owner, epoch, Some(u.gate), u.effect, now)
      ensures w == w0.(pc := AfterWrite(u, outcome))
    {
      outcome := store.AdvanceState(exec, u.to, owner, epoch, Some(u.gate), u.effect, now);
      run, t, w := WritingGoes(c, s, at, run0, t0, w0);
    }

    /** Gives the lease back, whatever the store makes of it, and answers. At most the record's expiry is
        another then. */
    method GiveBack(ghost s: World, ghost run0: seq<Action>, ghost t0: World, ghost w0: Worker,
                    exec: string, epoch: nat, reply: Reply, now: int, ghost at: nat -> Input)
      returns (ghost run: seq<Action>, ghost t: World, ghost w: Worker)
      requires Trace(c, s, at, run0, t0, w0) && now == at(Steps(run0)).now && Mirrors(t0)
      requires w0.pc == Releasing(reply) && Bears(w0, exec, epoch)
      modifies store
      ensures Trace(c, s, at, run, t, w) && Mirrors(t) && t.services == t0.services && w == w0.(pc := Done(reply))
      ensures store.executions == E.Release(old(store.executions), exec, owner, epoch, now).1
      ensures store.executions == old(store.executions)
              || (exec in old(store.executions)
                  && store.executions == old(store.executions)[exec :=
                                           old(store.executions)[exec].(expires := Some(now))])
    {
      var _ := store.ReleaseLease(exec, owner, epoch, now);
      run, t, w := ReleasingGoes(c, s, at, run0, t0, w0);
    }

    // For /terminalize `on(i)` is the same: 0 and 1 read and validate, 2 looks at the record, 3 observes.

    /** /terminalize: closes a MUTATED execution on what it sees for itself, or echoes a VERIFIED one. None
        is a refusal without a verdict. Either way it makes a run of the protocol that is its own alone and
        takes what `on` offers, and its receipt is the only one that run issues. */
    method Terminalize(key: Key, on: nat -> Input, ghost s: World)
      returns (receipt: Option<Receipt>, ghost run: seq<Action>, ghost t: World)
      requires WellNumbered(s) && Mirrors(s)
      modifies store
      ensures SoloClosing(c, s, on, run, t, key, |s.closers|) && Mirrors(t)
      ensures t.receipts == s.receipts + Issued(receipt)
      ensures if key in decisions
                 && Validate(c, decisions[key], key.0, None, Approving(decisions[key]), on(1).now).None?
              then Terminalized(old(store.executions), key, decisions[key], ExecutionOf(c, decisions[key], key), on(3),
                                receipt, store.executions)
              else receipt == None && store.executions == old(store.executions)
      ensures key in decisions ==>
                var exec := ExecutionOf(c, decisions[key], key);
                t.closings <= s.closings + {Closing(exec, key, on(3).described, on(3).live)}
    {
      ghost var k;
      run, t, k := ArrivalToCloseGoes(c, s, on, key);
      run, t, k := ReadingAttends(c, s, on, run, t, |s.closers|, k);
      if key !in decisions {
        CloserTraceMeans(c, s, on, run, t, |s.closers|, k);
        return None, run, t;
      }
      receipt, run, t := CloseDecision(s, run, t, |s.closers|, k, key, decisions[key], on);
    }

    /** Validates the decision; a closed incident is no obstacle here. */
    method CloseDecision(ghost s: World, ghost run0: seq<Action>, ghost t0: World, ghost i: nat, ghost k0: Closer,
                         key: Key, d: Decision, on: nat -> Input)
      returns (receipt: Option<Receipt>, ghost run: seq<Action>, ghost t: World)
      requires CloserTrace(c, s, on, run0, t0, i, k0) && ClosingSteps(run0) == 1 && Mirrors(t0)
      requires k0.pc.CCheck? && k0.key == key && k0.decision == d
      modifies store
      ensures SoloClosing(c, s, on, run, t, key, i) && Mirrors(t)
      ensures t.receipts == t0.receipts + Issued(receipt)
      ensures if Validate(c, d, key.0, None, Approving(d), on(1).now).None?
              then Terminalized(old(store.executions), key, d, ExecutionOf(c, d, key), on(3),
                                receipt, store.executions)
              else receipt == None && store.executions == old(store.executions)
      ensures t.closings <= t0.closings + {Closing(ExecutionOf(c, d, key), key, on(3).described, on(3).live)}
    {
      var problem := Validate(c, d, key.0, None, Approving(d), on(1).now);
      ghost var k;
      run, t, k := CheckingAttends(c, s, on, run0, t0, i, k0, Approving(d));
      if problem.Some? {
        CloserTraceMeans(c, s, on, run, t, i, k);
        return None, run, t;
      }
      receipt, run, t := CloseExecution(s, run, t, i, k, key, d, ExecutionOf(c, d, key), on);
    }

    /** Looks at the record first: only a MUTATED one is worth observing the service for. */
    method CloseExecution(ghost s: World, ghost run0: seq<Action>, ghost t0: World, ghost i: nat, ghost k0: Closer,
                          key: Key, d: Decision, exec: string, on: nat -> Input)
      returns (receipt: Option<Receipt>, ghost run: seq<Action>, ghost t: World)
      requires CloserTrace(c, s, on, run0, t0, i, k0) && ClosingSteps(run0) == 2 && Mirrors(t0)
      requires k0.pc.CGet? && k0.key == key && k0.decision == d && k0.exec == exec
      modifies store
      ensures SoloClosing(c, s, on, run, t, key, i) && Mirrors(t)
      ensures t.receipts == t0.receipts + Issued(receipt)
      ensures Terminalized(old(store.executions), key, d, exec, on(3), receipt, store.executions)
      ensures t.closings <= t0.closings + {Closing(exec, key, on(3).described, on(3).live)}
    {
      ghost var k;
      run, t, k := AttendingGoes(c, s, on, run0, t0, i, k0);
      CloserTraceMeans(c, s, on, run, t, i, k);
      if exec !in store.executions {
        return None, run, t;
      }
      var current := store.executions[exec];
      if current.state == E.Verified {
        var serves := match current.closing
          case None => false
          case Some(e) => e.exclusive || e.allocation == map[d.authorizedTarget := 100];
        return Some(Receipt(key, true, E.Verified, serves)), run, t;
      }
      if current.state !in TERMINALIZABLE_STATES {
        return None, run, t;
      }
      receipt, run, t := CloseOnSight(s, run, t, i, k, key, d, exec, on);
    }

    /** Observes, and writes VERIFIED only on an exclusive and healthy observation. */
    method CloseOnSight(ghost s: World, ghost run0: seq<Action>, ghost t0: World, ghost i: nat, ghost k0: Closer,
                        key: Key, d: Decision, exec: string, on: nat -> Input)
      returns (receipt: Option<Receipt>, ghost run: seq<Action>, ghost t: World)
      requires CloserTrace(c, s, on, run0, t0, i, k0) && ClosingSteps(run0) == 3 && Mirrors(t0)
      requires k0.pc.CLook? && k0.key == key && k0.decision == d && k0.exec == exec
      requires exec in store.executions && store.executions[exec].state == E.Mutated
      modifies store
      ensures SoloClosing(c, s, on, run, t, key, i) && Mirrors(t)
      ensures t.receipts == t0.receipts + Issued(receipt)
      ensures Terminalized(old(store.executions), key, d, exec, on(3), receipt, store.executions)
      ensures t.closings == if Satisfies(d, on(3))
                            then t0.closings + {Closing(exec, key, on(3).described, on(3).live)} else t0.closings
    {
      var x := on(3);
      var exclusive, healthy := T.ServesExclusively(x.described, d.authorizedTarget), T.ProbedHealthy(x.live);
      var allocation := T.TrafficAllocation(x.described);
      var evidence := E.Evidence(allocation, x.live.httpStatus, healthy, exclusive);
      ghost var k;
      run, t, k := AttendingGoes(c, s, on, run0, t0, i, k0);
      assert exclusive && healthy <==> Satisfies(d, x);
      if !(exclusive && healthy) {
        CloserTraceMeans(c, s, on, run, t, i, k);
        return None, run, t;
      }
      assert k == k0.(pc := CClose, described := x.described, probe := x.live);
      ClosedOnSight(store.executions, k, x);
      receipt, run, t := WriteVerified(s, run, t, i, k, key, exec, evidence, on);
    }

    /** The closing write, gated on the record's state, and the receipt for what came of it. */
    method WriteVerified(ghost s: World, ghost run0: seq<Action>, ghost t0: World, ghost i: nat, ghost k: Closer,
                         key: Key, exec: string, evidence: E.Evidence, ghost on: nat -> Input)
      returns (receipt: Option<Receipt>, ghost run: seq<Action>, ghost t: World)
      requires CloserTrace(c, s, on, run0, t0, i, k) && Mirrors(t0)
      requires k.pc.CClose? && k.key == key && k.exec == exec && evidence == EvidenceOf(k)
      modifies store
      ensures SoloClosing(c, s, on, run, t, key, i) && Mirrors(t)
      ensures t.receipts == t0.receipts + Issued(receipt)
      ensures var a := E.Terminalize(old(store.executions), exec, E.Verified, TERMINALIZABLE_STATES, evidence);
              && receipt == Some(ReceiptFor(k, a.0, a.1)) && store.executions == a.2
              && t.closings == if a.0 == E.Advanced
                               then t0.closings + {Closing(exec, key, k.described, k.probe)} else t0.closings
    {
      run, t := ClosureGoes(c, s, on, run0, t0, i, k);
      var outcome, record := store.Close(exec, E.Verified, TERMINALIZABLE_STATES, evidence);
      var state := match record case Some(r) => r.state case None => E.Verified;
      receipt := Some(Receipt(key, outcome == E.Advanced || outcome == E.AlreadyTerminal, state, evidence.exclusive));
    }
  }
}
