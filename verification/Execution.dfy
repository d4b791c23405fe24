/**
 The execution plane (src/scf/state/execution_store.py): authorization bindings
 and leased execution records, each operation one transaction.

 Every transaction reads its own clock, so `now` is an argument of each
 operation and nothing below relates one reading to another.
 */
module Execution {
  import opened Prelude

  datatype ExecutionState =
    | Claimed | PreconditionChecked | MutationRequested | Mutated
    | Verified | Failed | Stale

  const TERMINAL_STATES: set<ExecutionState> := {Verified, Failed, Stale}
  const LEASE_SECONDS := 120

  datatype Claim = Claim(
    incidentId: string, decisionId: string, actionType: string, targetRef: string,
    authorizedTarget: string, expectedSource: string, expectedEtag: string)

  /** What a closing observation wrote into the record. */
  datatype Evidence = Evidence(
    allocation: map<string, int>, httpStatus: int, httpHealthy: bool, exclusive: bool)

  datatype Record = Record(
    claim: Claim, state: ExecutionState, owner: Option<string>, epoch: nat,
    expires: Option<int>, recoveries: nat, effectPredates: bool, closing: Option<Evidence>)

  datatype Binding = Binding(executionId: string, incidentId: string, decisionId: string)

  datatype Outcome =
    | Bound | Same | Conflict
    | Acquired | Recovered | HeldByOther | AlreadyFinished
    | Advanced | FencedOut | LeaseLost | AlreadyTerminal | StateMismatch | NotFound

  type Records = map<string, Record>
  type Bindings = map<string, Binding>

  predicate Finished(r: Record) {
    r.state in TERMINAL_STATES
  }

  predicate Owns(r: Record, owner: string, epoch: nat) {
    r.owner == Some(owner) && r.epoch == epoch
  }

  predicate Live(r: Record, now: int) {
    r.expires.Some? && r.expires.value > now
  }

  // --- each transaction as a function of the documents it reads ---

  function Bind(bs: Bindings, fingerprint: string, b: Binding): (Outcome, Option<Binding>, Bindings) {
    if fingerprint !in bs then (Bound, None, bs[fingerprint := b])
    else if bs[fingerprint].executionId == b.executionId then (Same, Some(bs[fingerprint]), bs)
    else (Conflict, Some(bs[fingerprint]), bs)
  }

  function Fresh(claim: Claim, owner: string, now: int, lease: int): Record {
    Record(claim, Claimed, Some(owner), 1, Some(now + lease), 0, false, None)
  }

  function TakenOver(r: Record, owner: string, now: int, lease: int): Record {
    r.(owner := Some(owner), epoch := r.epoch + 1, expires := Some(now + lease),
       recoveries := r.recoveries + 1)
  }

  function Acquire(rs: Records, id: string, owner: string, claim: Claim, now: int, lease: int)
    : (Outcome, Record, Records)
  {
    if id !in rs then
      var r := Fresh(claim, owner, now, lease);
      (Acquired, r, rs[id := r])
    else if Finished(rs[id]) then (AlreadyFinished, rs[id], rs)
    else if Live(rs[id], now) then (HeldByOther, rs[id], rs)
    else
      var r := TakenOver(rs[id], owner, now, lease);
      (Recovered, r, rs[id := r])
  }

  function Renew(rs: Records, id: string, owner: string, epoch: nat, now: int, lease: int)
    : (Outcome, Records)
  {
    if id !in rs then (NotFound, rs)
    else if Finished(rs[id]) then (AlreadyTerminal, rs)
    else if !Owns(rs[id], owner, epoch) then (FencedOut, rs)
    else (Advanced, rs[id := rs[id].(expires := Some(now + lease))])
  }

  function Release(rs: Records, id: string, owner: string, epoch: nat, now: int): (Outcome, Records) {
    if id !in rs then (NotFound, rs)
    else if Finished(rs[id]) then (AlreadyTerminal, rs)
    else if !Owns(rs[id], owner, epoch) then (FencedOut, rs)
    else (Advanced, rs[id := rs[id].(expires := Some(now))])
  }

  /** The document after an advance to `to`; `effect` is the only extra field that is ever read back. */
  function Progressed(r: Record, to: ExecutionState, effect: Option<bool>): Record {
    var moved := r.(state := to, effectPredates := if effect.Some? then effect.value else r.effectPredates);
    if to in TERMINAL_STATES then moved.(owner := None, expires := None) else moved
  }

  function Advance(rs: Records, id: string, to: ExecutionState, owner: string, epoch: nat,
                   allowed: Option<set<ExecutionState>>, effect: Option<bool>, now: int)
    : (Outcome, Records)
  {
    if id !in rs then (NotFound, rs)
    else if Finished(rs[id]) then (AlreadyTerminal, rs)
    else if !Owns(rs[id], owner, epoch) then (FencedOut, rs)
    else if !Live(rs[id], now) then (LeaseLost, rs)
    else if allowed.Some? && rs[id].state !in allowed.value then (StateMismatch, rs)
    else (Advanced, rs[id := Progressed(rs[id], to, effect)])
  }

  function Terminalize(rs: Records, id: string, to: ExecutionState, allowed: set<ExecutionState>,
                       evidence: Evidence)
    : (Outcome, Option<Record>, Records)
  {
    if id !in rs then (NotFound, None, rs)
    else if Finished(rs[id]) then (AlreadyTerminal, Some(rs[id]), rs)
    else if rs[id].state !in allowed then (StateMismatch, Some(rs[id]), rs)
    else
      var r := rs[id].(state := to, owner := None, expires := None, closing := Some(evidence));
      (Advanced, Some(r), rs[id := r])
  }

  /** The store: two collections, updated in place. */
  class ExecutionStore {
    var executions: Records
    var authorizations: Bindings

    constructor ()
      ensures executions == map[] && authorizations == map[]
    {
      executions, authorizations := map[], map[];
    }

    method BindAuthorization(fingerprint: string, b: Binding) returns (outcome: Outcome, seen: Option<Binding>)
      modifies this`authorizations
      ensures (outcome, seen, authorizations) == Bind(old(authorizations), fingerprint, b)
    {
      if fingerprint !in authorizations {
        authorizations := authorizations[fingerprint := b];
        return Bound, None;
      }
      var current := authorizations[fingerprint];
      if current.executionId == b.executionId {
        return Same, Some(current);
      }
      return Conflict, Some(current);
    }

    method AcquireLease(id: string, owner: string, claim: Claim, now: int, lease: int := LEASE_SECONDS)
      returns (outcome: Outcome, record: Record)
      modifies this`executions
      ensures (outcome, record, executions) == Acquire(old(executions), id, owner, claim, now, lease)
    {
      var until := now + lease;
      if id !in executions {
        record := Record(claim, Claimed, Some(owner), 1, Some(until), 0, false, None);
        executions := executions[id := record];
        return Acquired, record;
      }
      record := executions[id];
      if record.state in TERMINAL_STATES {
        return AlreadyFinished, record;
      }
      if record.expires.Some? && record.expires.value > now {
        return HeldByOther, record;
      }
      var epoch := record.epoch + 1;
      record := record.(owner := Some(owner), epoch := epoch, expires := Some(until),
                        recoveries := record.recoveries + 1);
      executions := executions[id := record];
      return Recovered, record;
    }

    method RenewLease(id: string, owner: string, epoch: nat, now: int, lease: int := LEASE_SECONDS)
      returns (outcome: Outcome)
      modifies this`executions
      ensures (outcome, executions) == Renew(old(executions), id, owner, epoch, now, lease)
    {
      if id !in executions { return NotFound; }
      var current := executions[id];
      if current.state in TERMINAL_STATES { return AlreadyTerminal; }
      if current.owner != Some(owner) || current.epoch != epoch { return FencedOut; }
      executions := executions[id := current.(expires := Some(now + lease))];
      return Advanced;
    }

    method ReleaseLease(id: string, owner: string, epoch: nat, now: int) returns (outcome: Outcome)
      modifies this`executions
      ensures (outcome, executions) == Release(old(executions), id, owner, epoch, now)
    {
      if id !in executions { return NotFound; }
      var current := executions[id];
      if current.state in TERMINAL_STATES { return AlreadyTerminal; }
      if current.owner != Some(owner) || current.epoch != epoch { return FencedOut; }
      executions := executions[id := current.(expires := Some(now))];
      return Advanced;
    }

    method AdvanceState(id: string, to: ExecutionState, owner: string, epoch: nat,
                        allowed: Option<set<ExecutionState>>, effect: Option<bool>, now: int)
      returns (outcome: Outcome)
      modifies this`executions
      ensures (outcome, executions) == Advance(old(executions), id, to, owner, epoch, allowed, effect, now)
    {
      if id !in executions { return NotFound; }
      var current := executions[id];
      if current.state in TERMINAL_STATES { return AlreadyTerminal; }
      if current.owner != Some(owner) || current.epoch != epoch { return FencedOut; }
      if current.expires.None? || current.expires.value <= now { return LeaseLost; }
      if allowed.Some? && current.state !in allowed.value { return StateMismatch; }
      var payload := current.(state := to);
      if effect.Some? {
        payload := payload.(effectPredates := effect.value);
      }
      if to in TERMINAL_STATES {
        payload := payload.(expires := None, owner := None);
      }
      executions := executions[id := payload];
      return Advanced;
    }

    method Close(id: string, to: ExecutionState, allowed: set<ExecutionState>, evidence: Evidence)
      returns (outcome: Outcome, seen: Option<Record>)
      modifies this`executions
      ensures (outcome, seen, executions) == Terminalize(old(executions), id, to, allowed, evidence)
    {
      if id !in executions { return NotFound, None; }
      var current := executions[id];
      if current.state in TERMINAL_STATES { return AlreadyTerminal, Some(current); }
      if current.state !in allowed { return StateMismatch, Some(current); }
      current := current.(state := to, expires := None, owner := None, closing := Some(evidence));
      executions := executions[id := current];
      return Advanced, Some(current);
    }
  }

  // --- any history of the store, whoever calls it and whatever the clocks say ---

  datatype Op =
    | OpAcquire(id: string, owner: string, claim: Claim, now: int, lease: int)
    | OpRenew(id: string, owner: string, epoch: nat, now: int, lease: int)
    | OpRelease(id: string, owner: string, epoch: nat, now: int)
    | OpAdvance(id: string, to: ExecutionState, owner: string, epoch: nat,
                allowed: Option<set<ExecutionState>>, effect: Option<bool>, now: int)
    | OpTerminalize(id: string, to: ExecutionState, gate: set<ExecutionState>, evidence: Evidence)

  function Apply(rs: Records, op: Op): Records {
    match op
    case OpAcquire(id, owner, claim, now, lease) => Acquire(rs, id, owner, claim, now, lease).2
    case OpRenew(id, owner, epoch, now, lease) => Renew(rs, id, owner, epoch, now, lease).1
    case OpRelease(id, owner, epoch, now) => Release(rs, id, owner, epoch, now).1
    case OpAdvance(id, to, owner, epoch, allowed, effect, now) =>
      Advance(rs, id, to, owner, epoch, allowed, effect, now).1
    case OpTerminalize(id, to, allowed, evidence) => Terminalize(rs, id, to, allowed, evidence).2
  }

  function History(rs: Records, ops: seq<Op>): Records
    decreases |ops|
  {
    if ops == [] then rs else History(Apply(rs, ops[0]), ops[1..])
  }

  /** The epochs handed out for execution `id` along a history, in order. */
  function Granted(rs: Records, ops: seq<Op>, id: string): seq<nat>
    decreases |ops|
  {
    if ops == [] then []
    else
      var rest := Granted(Apply(rs, ops[0]), ops[1..], id);
      if ops[0].OpAcquire? && ops[0].id == id then
        var a := Acquire(rs, id, ops[0].owner, ops[0].claim, ops[0].now, ops[0].lease);
        if a.0 in {Acquired, Recovered} then [a.1.epoch] + rest else rest
      else rest
  }

  function EpochOf(rs: Records, id: string): nat {
    if id in rs then rs[id].epoch else 0
  }

  /** The epochs granted after a store whose epoch is `n` are exactly n+1, n+2, ..., and the
      last of them is the epoch the record then carries: none is skipped and none repeated. */
  lemma {:induction false} EpochsRiseByOne(rs: Records, ops: seq<Op>, id: string)
    ensures var g := Granted(rs, ops, id);
            && (forall i :: 0 <= i < |g| ==> g[i] == EpochOf(rs, id) + 1 + i)
            && EpochOf(History(rs, ops), id) == EpochOf(rs, id) + |g|
    decreases |ops|
  {
    if ops != [] {
      EpochsRiseByOne(Apply(rs, ops[0]), ops[1..], id);
    }
  }

  predicate Presents(op: Op, id: string, limit: nat) {
    || (op.OpRenew? && op.id == id && op.epoch <= limit)
    || (op.OpRelease? && op.id == id && op.epoch <= limit)
    || (op.OpAdvance? && op.id == id && op.epoch <= limit)
  }

  /** Once epoch n+1 exists, deleting every later write that presents an epoch <= n from the
      history changes nothing: a fenced holder has no effect, whatever owner string it uses. */
  lemma {:induction false} FencedWritesAreVoid(rs: Records, ops: seq<Op>, id: string, n: nat, i: nat)
    requires EpochOf(rs, id) > n
    requires i < |ops| && Presents(ops[i], id, n)
    ensures History(rs, ops) == History(rs, ops[..i] + ops[i + 1..])
    decreases |ops|
  {
    if i == 0 {
      assert ops[..0] + ops[1..] == ops[1..];
    } else {
      var shorter := ops[..i] + ops[i + 1..];
      EpochsRiseByOne(rs, [ops[0]], id);
      assert History(rs, [ops[0]]) == History(Apply(rs, ops[0]), []) == Apply(rs, ops[0]) by {
        assert [ops[0]][1..] == [];
      }
      FencedWritesAreVoid(Apply(rs, ops[0]), ops[1..], id, n, i - 1);
      assert shorter[1..] == ops[1..][..i - 1] + ops[1..][i..];
      assert shorter[0] == ops[0];
    }
  }

  /** A finished record is never written again, by any operation of any caller. */
  lemma {:induction false} FinishedForever(rs: Records, ops: seq<Op>, id: string)
    requires id in rs && Finished(rs[id])
    ensures id in History(rs, ops) && History(rs, ops)[id] == rs[id]
    decreases |ops|
  {
    if ops != [] {
      FinishedForever(Apply(rs, ops[0]), ops[1..], id);
    }
  }

  /** While a lease is live by everybody's clock, the record moves only by its holder's writes or a
      state-gated close: after operations that present other credentials it is unchanged. */
  lemma {:induction false} LeaseExcludes(rs: Records, ops: seq<Op>, id: string, owner: string, epoch: nat)
    requires id in rs && !Finished(rs[id]) && Owns(rs[id], owner, epoch) && rs[id].expires.Some?
    requires forall op <- ops ::
               && (op.OpAcquire? ==> op.now < rs[id].expires.value)
               && (op.OpRenew? || op.OpRelease? || op.OpAdvance? ==> op.owner != owner || op.epoch != epoch)
               && !op.OpTerminalize?
    ensures id in History(rs, ops) && History(rs, ops)[id] == rs[id]
    decreases |ops|
  {
    if ops != [] {
      assert ops[0] in ops;
      LeaseExcludes(Apply(rs, ops[0]), ops[1..], id, owner, epoch);
    }
  }

  /** The full compare-and-set: an advance happens under all five conditions together, moves nothing
      but this record, and keeps the claim, the epoch and the recovery count. */
  lemma OnlyALiveHolderAdvances(rs: Records, id: string, to: ExecutionState, owner: string, epoch: nat,
                                allowed: set<ExecutionState>, effect: Option<bool>, now: int)
    ensures var a := Advance(rs, id, to, owner, epoch, Some(allowed), effect, now);
            && (a.0 == Advanced <==>
                  id in rs && rs[id].state in allowed - TERMINAL_STATES
                  && rs[id].owner == Some(owner) && rs[id].epoch == epoch
                  && rs[id].expires.Some? && now < rs[id].expires.value)
            && (a.0 != Advanced ==> a.1 == rs)
            && a.1.Keys == rs.Keys
            && (forall k :: k in rs && k != id ==> a.1[k] == rs[k])
            && (a.0 == Advanced ==>
                  && a.1[id].state == to
                  && a.1[id].claim == rs[id].claim && a.1[id].epoch == epoch
                  && a.1[id].recoveries == rs[id].recoveries
                  && (a.1[id].owner.None? <==> to in TERMINAL_STATES)
                  && a.1[id].effectPredates == (if effect.Some? then effect.value else rs[id].effectPredates))
  {
  }

  /** What a caller is told of a write: the first thing that stands against it, in this order. */
  lemma WritesAreAnsweredInOrder(rs: Records, id: string, to: ExecutionState, owner: string, epoch: nat,
                                 allowed: set<ExecutionState>, effect: Option<bool>, now: int, lease: int)
    ensures var advanced := Advance(rs, id, to, owner, epoch, Some(allowed), effect, now).0;
            var released, renewed := Release(rs, id, owner, epoch, now).0, Renew(rs, id, owner, epoch, now, lease).0;
            && (id !in rs ==> advanced == released == renewed == NotFound)
            && (id in rs ==>
                  var r := rs[id];
                  var finished := r.state in {Verified, Failed, Stale};
                  var holds := r.owner == Some(owner) && r.epoch == epoch;
                  var live := r.expires.Some? && now < r.expires.value;
                  && (finished ==> advanced == released == renewed == AlreadyTerminal)
                  && (!finished && !holds ==> advanced == released == renewed == FencedOut)
                  && (!finished && holds ==> released == renewed == Advanced)
                  && (!finished && holds && !live ==> advanced == LeaseLost)
                  && (!finished && holds && live && r.state !in allowed ==> advanced == StateMismatch))
  {
  }

  /** What a claim is told, and the record it leaves: a new one, the finished or leased one as it is, or the
      lapsed one under the next epoch, with all it says but its holder. */
  lemma ClaimsAreAnswered(rs: Records, id: string, owner: string, claim: Claim, now: int, lease: int)
    ensures var a := Acquire(rs, id, owner, claim, now, lease);
            && (forall k <- rs :: k != id ==> k in a.2 && a.2[k] == rs[k]) && a.2.Keys == rs.Keys + {id}
            && a.2[id] == a.1
            && (id !in rs ==>
                  && a.0 == Acquired && a.1.claim == claim && a.1.state == Claimed && a.1.epoch == 1
                  && a.1.owner == Some(owner) && a.1.expires == Some(now + lease) && !a.1.effectPredates)
            && (id in rs ==>
                  var r := rs[id];
                  var finished := r.state in {Verified, Failed, Stale};
                  var live := r.expires.Some? && now < r.expires.value;
                  && (finished ==> a.0 == AlreadyFinished && a.1 == r)
                  && (!finished && live ==> a.0 == HeldByOther && a.1 == r)
                  && (!finished && !live ==>
                        && a.0 == Recovered && a.1.epoch == r.epoch + 1 && a.1.owner == Some(owner)
                        && a.1.expires == Some(now + lease) && a.1.recoveries == r.recoveries + 1
                        && a.1 == r.(owner := a.1.owner, epoch := a.1.epoch, expires := a.1.expires,
                                     recoveries := a.1.recoveries)))
  {
  }

  /** A close asks for no lease: it succeeds exactly in an expected, unfinished state, and then the record
      is finished, free and carries the evidence; whatever is found is told. */
  lemma ClosesAreAnswered(rs: Records, id: string, to: ExecutionState, expected: set<ExecutionState>,
                          evidence: Evidence)
    ensures var a := Terminalize(rs, id, to, expected, evidence);
            && (id !in rs ==> a == (NotFound, None, rs))
            && (id in rs ==>
                  var r := rs[id];
                  var finished := r.state in {Verified, Failed, Stale};
                  && (finished ==> a == (AlreadyTerminal, Some(r), rs))
                  && (!finished && r.state !in expected ==> a == (StateMismatch, Some(r), rs))
                  && (!finished && r.state in expected ==>
                        && a.0 == Advanced && a.1 == Some(a.2[id]) && a.2 == rs[id := a.2[id]]
                        && a.2[id].state == to && a.2[id].owner == None && a.2[id].expires == None
                        && a.2[id].closing == Some(evidence)
                        && a.2[id].claim == r.claim && a.2[id].epoch == r.epoch
                        && a.2[id].effectPredates == r.effectPredates))
  {
  }

  /** Giving a lease back keeps the epoch and makes the execution claimable from that instant on,
      with the next epoch and the state untouched. */
  lemma ReleasedIsClaimable(rs: Records, id: string, owner: string, epoch: nat, now: int,
                            other: string, claim: Claim, later: int, lease: int)
    requires id in rs && !Finished(rs[id]) && Owns(rs[id], owner, epoch) && now <= later
    ensures var freed := Release(rs, id, owner, epoch, now).1;
            var a := Acquire(freed, id, other, claim, later, lease);
            && a.0 == Recovered
            && a.1.epoch == epoch + 1
            && a.1.state == rs[id].state
            && a.1.effectPredates == rs[id].effectPredates
            && Advance(a.2, id, Mutated, owner, epoch, None, None, later).0 == FencedOut
  {
    assert Owns(rs[id], owner, epoch);
  }

  /** A renewed lease holds everybody off for its whole new term. */
  lemma RenewedIsHeld(rs: Records, id: string, owner: string, epoch: nat, now: int, lease: int,
                      other: string, claim: Claim, later: int)
    requires id in rs && !Finished(rs[id])
    ensures var renewed := Renew(rs, id, owner, epoch, now, lease);
            renewed.0 == Advanced && later < now + lease ==>
              Acquire(renewed.1, id, other, claim, later, lease).0 == HeldByOther
  {
  }

  // --- bindings ---

  function Binds(bs: Bindings, requests: seq<(string, Binding)>): Bindings
    decreases |requests|
  {
    if requests == [] then bs
    else Binds(Bind(bs, requests[0].0, requests[0].1).2, requests[1..])
  }

  /** First writer wins, permanently: after any requests a bound fingerprint still names the
      execution it first named, so only that execution is ever told BOUND or SAME. */
  lemma {:induction false} FirstWriterWins(bs: Bindings, requests: seq<(string, Binding)>, f: string, late: Binding)
    requires f in bs
    ensures Bind(map[], f, bs[f]) == (Bound, None, map[f := bs[f]])
    ensures f in Binds(bs, requests) && Binds(bs, requests)[f] == bs[f]
    ensures Bind(Binds(bs, requests), f, late).0 ==
            (if late.executionId == bs[f].executionId then Same else Conflict)
    decreases |requests|
  {
    if requests != [] {
      FirstWriterWins(Bind(bs, requests[0].0, requests[0].1).2, requests[1..], f, late);
    }
  }
}
