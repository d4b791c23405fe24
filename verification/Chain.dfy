/**
 The hash-chained audit trail (src/scf/audit/chain.py). The hash and the
 canonical serialization are parameters; of the hash only its output length is
 used, so tamper evidence is stated as "or here is a collision".
 */
module Chain {
  import opened Prelude
  import opened Ids

  /** A payload's members, each value as its canonical JSON text. */
  type Payload = map<string, string>

  datatype AuditRecord = AuditRecord(
    seqNo: int, actor: string, actorIdentity: Option<string>, event: string, payload: Payload,
    traceId: Option<string>, spanId: Option<string>, timestamp: string,
    prevHash: string, hash: string)

  /** Everything a record's own hash commits to. */
  datatype View = View(
    seqNo: int, actor: string, actorIdentity: Option<string>, event: string, payload: Payload,
    traceId: Option<string>, spanId: Option<string>, timestamp: string)

  datatype Sealer = Sealer(h: Hash, canon: View -> string)

  const HASH_LENGTH := 64
  const GENESIS_HASH: string :=
    "0000000000000000000000000000000000000000000000000000000000000000"

  ghost predicate FixedLength(h: Hash) {
    forall x :: |h(x)| == HASH_LENGTH
  }

  function HashableView(r: AuditRecord): View {
    View(r.seqNo, r.actor, r.actorIdentity, r.event, r.payload, r.traceId, r.spanId, r.timestamp)
  }

  function ChainHash(z: Sealer, prev: string, v: View): string {
    z.h(prev + z.canon(v))
  }

  function Seal(z: Sealer, r: AuditRecord): AuditRecord {
    r.(hash := ChainHash(z, r.prevHash, HashableView(r)))
  }

  // --- verification ---

  datatype Reason =
    | SequenceGap | BrokenLink | ContentMismatch
    | TruncatedTail | UnaccountedAppends | TailMismatch

  datatype Verification = Verification(
    ok: bool, checked: nat, brokenAt: Option<int>, reason: Option<Reason>, missingTail: nat)

  function ExpectedPrev(trail: seq<AuditRecord>, i: nat): string
    requires i < |trail|
  {
    if i == 0 then GENESIS_HASH else trail[i - 1].hash
  }

  /** The first thing wrong with record `i`, if anything. */
  function Fault(z: Sealer, trail: seq<AuditRecord>, i: nat): Option<Reason>
    requires i < |trail|
  {
    if trail[i].seqNo != i then Some(SequenceGap)
    else if trail[i].prevHash != ExpectedPrev(trail, i) then Some(BrokenLink)
    else if trail[i].hash != ChainHash(z, trail[i].prevHash, HashableView(trail[i])) then Some(ContentMismatch)
    else None
  }

  predicate Linked(z: Sealer, trail: seq<AuditRecord>) {
    forall i :: 0 <= i < |trail| ==> Fault(z, trail, i) == None
  }

  /** Record `i` is numbered `i`, names its predecessor's hash (the first the genesis hash), and carries
      the hash of that and of its own content. */
  predicate InPlace(z: Sealer, trail: seq<AuditRecord>, i: nat)
    requires i < |trail|
  {
    && trail[i].seqNo == i
    && trail[i].prevHash == (if i == 0 then GENESIS_HASH else trail[i - 1].hash)
    && trail[i].hash == z.h(trail[i].prevHash + z.canon(HashableView(trail[i])))
  }

  lemma LinkedExactly(z: Sealer, trail: seq<AuditRecord>)
    ensures Linked(z, trail) <==> forall i :: 0 <= i < |trail| ==> InPlace(z, trail, i)
  {
    forall i | 0 <= i < |trail|
      ensures Fault(z, trail, i) == None <==> InPlace(z, trail, i)
    {
    }
    if Linked(z, trail) {
      forall i | 0 <= i < |trail|
        ensures InPlace(z, trail, i)
      {
        assert Fault(z, trail, i) == None;
      }
    }
  }

  /** Which fault is reported: the first of the three that is there. */
  lemma FaultsInOrder(z: Sealer, trail: seq<AuditRecord>, i: nat)
    requires i < |trail|
    ensures var r, prev := trail[i], if i == 0 then GENESIS_HASH else trail[i - 1].hash;
            && (Fault(z, trail, i) == Some(SequenceGap) <==> r.seqNo != i)
            && (Fault(z, trail, i) == Some(BrokenLink) <==> r.seqNo == i && r.prevHash != prev)
            && (Fault(z, trail, i) == Some(ContentMismatch) <==>
                  r.seqNo == i && r.prevHash == prev && r.hash != z.h(r.prevHash + z.canon(HashableView(r))))
  {
  }

  predicate Accepted(z: Sealer, trail: seq<AuditRecord>, auditSeq: int, tail: string) {
    && Linked(z, trail)
    && |trail| == auditSeq + 1
    && (trail != [] ==> trail[|trail| - 1].hash == tail)
  }

  /** A refusal names the first faulty record and the first check it fails. */
  method VerifyChain(z: Sealer, trail: seq<AuditRecord>) returns (v: Verification)
    ensures v.ok <==> Linked(z, trail)
    ensures v.ok ==> v == Verification(true, |trail|, None, None, 0)
    ensures !v.ok ==>
              && v.checked < |trail|
              && (forall i :: 0 <= i < v.checked ==> Fault(z, trail, i) == None)
              && v.reason == Fault(z, trail, v.checked) != None
              && v.brokenAt == Some(v.checked) && v.missingTail == 0
  {
    var expectedPrev := GENESIS_HASH;
    var index := 0;
    while index < |trail|
      invariant index <= |trail|
      invariant forall i :: 0 <= i < index ==> Fault(z, trail, i) == None
      invariant index < |trail| ==> expectedPrev == ExpectedPrev(trail, index)
    {
      var r := trail[index];
      if r.seqNo != index {
        assert Fault(z, trail, index) == Some(SequenceGap);
        return Verification(false, index, Some(index), Some(SequenceGap), 0);
      }
      if r.prevHash != expectedPrev {
        assert Fault(z, trail, index) == Some(BrokenLink);
        return Verification(false, index, Some(r.seqNo), Some(BrokenLink), 0);
      }
      if r.hash != ChainHash(z, r.prevHash, HashableView(r)) {
        assert Fault(z, trail, index) == Some(ContentMismatch);
        return Verification(false, index, Some(r.seqNo), Some(ContentMismatch), 0);
      }
      expectedPrev := r.hash;
      index := index + 1;
    }
    return Verification(true, |trail|, None, None, 0);
  }

  /** Against the incident's own tail: structure first, then length, then the tail hash. */
  method VerifyIncidentChain(z: Sealer, trail: seq<AuditRecord>, auditSeq: int, tail: string)
    returns (v: Verification)
    ensures v.ok <==> Accepted(z, trail, auditSeq, tail)
    ensures v.ok ==> v.checked == |trail|
    ensures Linked(z, trail) && |trail| < auditSeq + 1 ==>
              v.reason == Some(TruncatedTail) && v.missingTail == auditSeq + 1 - |trail|
    ensures Linked(z, trail) && |trail| > auditSeq + 1 ==>
              v.reason == Some(UnaccountedAppends) && v.brokenAt == Some(auditSeq + 1)
    ensures Linked(z, trail) && |trail| == auditSeq + 1 && !v.ok ==>
              && v.reason == Some(TailMismatch) && v.checked == |trail|
              && trail != [] && v.brokenAt == Some(trail[|trail| - 1].seqNo)
    ensures !Linked(z, trail) ==>
              v.checked < |trail| && v.reason == Fault(z, trail, v.checked) != None
  {
    v := VerifyChain(z, trail);
    if !v.ok {
      return v;
    }
    var expected := auditSeq + 1;
    if |trail| < expected {
      return Verification(false, |trail|, Some(|trail|), Some(TruncatedTail), expected - |trail|);
    }
    if |trail| > expected {
      return Verification(false, |trail|, Some(expected), Some(UnaccountedAppends), 0);
    }
    if trail != [] && trail[|trail| - 1].hash != tail {
      return Verification(false, |trail|, Some(trail[|trail| - 1].seqNo), Some(TailMismatch), 0);
    }
    return Verification(true, |trail|, None, None, 0);
  }

  // --- tamper evidence ---

  /** Two records with the same chain hash behind equally long previous hashes commit to the same
      text, or the two hashed texts collide. */
  lemma LinksAgree(z: Sealer, a: AuditRecord, b: AuditRecord) returns (x: string, y: string)
    requires |a.prevHash| == |b.prevHash|
    requires ChainHash(z, a.prevHash, HashableView(a)) == ChainHash(z, b.prevHash, HashableView(b))
    ensures || Collision(z.h, x, y)
            || (a.prevHash == b.prevHash && z.canon(HashableView(a)) == z.canon(HashableView(b)))
  {
    x, y := a.prevHash + z.canon(HashableView(a)), b.prevHash + z.canon(HashableView(b));
    if x == y {
      assert x[..|a.prevHash|] == a.prevHash && y[..|b.prevHash|] == b.prevHash;
      assert x[|a.prevHash|..] == z.canon(HashableView(a)) && y[|b.prevHash|..] == z.canon(HashableView(b));
    }
  }

  ghost predicate SameFrom(z: Sealer, a: seq<AuditRecord>, b: seq<AuditRecord>, from: nat) {
    && |a| == |b|
    && forall i :: from <= i < |a| ==>
         && a[i].hash == b[i].hash && a[i].prevHash == b[i].prevHash
         && z.canon(HashableView(a[i])) == z.canon(HashableView(b[i]))
  }

  lemma {:induction false} AgreeBackTo(z: Sealer, a: seq<AuditRecord>, b: seq<AuditRecord>,
                                       auditSeq: int, tail: string, from: nat)
    returns (x: string, y: string)
    requires FixedLength(z.h)
    requires Accepted(z, a, auditSeq, tail) && Accepted(z, b, auditSeq, tail) && from <= |a|
    ensures SameFrom(z, a, b, from) || Collision(z.h, x, y)
    decreases |a| - from
  {
    x, y := "", "";
    if from < |a| {
      x, y := AgreeBackTo(z, a, b, auditSeq, tail, from + 1);
      if SameFrom(z, a, b, from + 1) {
        assert Fault(z, a, from) == None && Fault(z, b, from) == None;
        if from + 1 < |a| {
          assert Fault(z, a, from + 1) == None && Fault(z, b, from + 1) == None;
        }
        assert a[from].hash == b[from].hash;
        if from > 0 {
          assert Fault(z, a, from - 1) == None && Fault(z, b, from - 1) == None;
        }
        x, y := LinksAgree(z, a[from], b[from]);
      }
    }
  }

  /** Tamper evidence. Two trails that pass verification against the same sequence number and tail
      hash agree in every field of every record, unless an explicit hash collision is at hand. */
  lemma TailPinsTheTrail(z: Sealer, a: seq<AuditRecord>, b: seq<AuditRecord>, auditSeq: int, tail: string)
    returns (x: string, y: string)
    requires FixedLength(z.h)
    requires forall u, v :: z.canon(u) == z.canon(v) ==> u == v
    requires Accepted(z, a, auditSeq, tail) && Accepted(z, b, auditSeq, tail)
    ensures a == b || Collision(z.h, x, y)
  {
    x, y := AgreeBackTo(z, a, b, auditSeq, tail, 0);
    if SameFrom(z, a, b, 0) {
      forall i | 0 <= i < |a|
        ensures a[i] == b[i]
      {
        assert HashableView(a[i]) == HashableView(b[i]);
      }
    }
  }
}
