/**
 Reading live traffic (src/scf/tools/cloud_run_evidence.py:71-91 and `_observe`,
 `_candidate_is_fresh`, src/scf/app/executor.py:306-391).
 */
module Traffic {
  import opened Prelude

  /** One `trafficStatuses` entry; `percent` 0 stands for an absent one, "" for an absent string. */
  datatype Status = Status(revision: string, percent: int, tag: string, uri: string)

  datatype Described = Described(statuses: seq<Status>, uri: string, etag: string)

  const KNOWN_GOOD_TAG := "known-good"

  /** `name.rsplit("/", 1)[-1]`. */
  function BaseName(name: string): string {
    if '/' in name then BaseName(name[1..]) else name
  }

  /** What follows the last slash, or the whole name. */
  lemma {:induction false} BaseNameIsLastPart(name: string)
    ensures '/' !in BaseName(name)
    ensures '/' !in name ==> BaseName(name) == name
    ensures '/' in name ==> exists front :: name == front + "/" + BaseName(name)
  {
    if '/' in name {
      BaseNameIsLastPart(name[1..]);
      assert name == [name[0]] + name[1..];
      if '/' in name[1..] {
        var front :| name[1..] == front + "/" + BaseName(name[1..]);
        assert name == ([name[0]] + front) + "/" + BaseName(name);
      } else {
        assert name == "" + "/" + BaseName(name);
      }
    }
  }

  function Add(allocation: map<string, int>, revision: string, percent: int): map<string, int> {
    allocation[revision := (if revision in allocation then allocation[revision] else 0) + percent]
  }

  function Allocate(statuses: seq<Status>): map<string, int> {
    if statuses == [] then map[]
    else
      var before := Allocate(statuses[..|statuses| - 1]);
      var last := statuses[|statuses| - 1];
      if last.percent <= 0 then before else Add(before, BaseName(last.revision), last.percent)
  }

  /** The keys of the allocation in order of first appearance (a dict keeps it). */
  function Order(statuses: seq<Status>): seq<string> {
    if statuses == [] then []
    else
      var before := Order(statuses[..|statuses| - 1]);
      var last := statuses[|statuses| - 1];
      if last.percent <= 0 || BaseName(last.revision) in before then before else before + [BaseName(last.revision)]
  }

  /** The percent that all entries of one revision add up to, counting positive entries only. */
  function Share(statuses: seq<Status>, revision: string): nat {
    if statuses == [] then 0
    else
      var last := statuses[|statuses| - 1];
      Share(statuses[..|statuses| - 1], revision) +
      (if last.percent > 0 && BaseName(last.revision) == revision then last.percent else 0)
  }

  lemma AllocateStep(statuses: seq<Status>, i: nat)
    requires i < |statuses|
    ensures var before, entry := Allocate(statuses[..i]), statuses[i];
            Allocate(statuses[..i + 1]) ==
            if entry.percent <= 0 then before else Add(before, BaseName(entry.revision), entry.percent)
  {
    assert statuses[..i + 1][..i] == statuses[..i] && statuses[..i + 1][i] == statuses[i];
  }

  method TrafficAllocation(described: Described) returns (allocation: map<string, int>)
    ensures allocation == Allocate(described.statuses)
  {
    allocation := map[];
    var entries := described.statuses;
    var i := 0;
    while i < |entries|
      invariant i <= |entries| && allocation == Allocate(entries[..i])
    {
      var entry := entries[i];
      AllocateStep(entries, i);
      if entry.percent > 0 {
        allocation := Add(allocation, BaseName(entry.revision), entry.percent);
      }
      i := i + 1;
    }
    assert entries[..i] == entries;
  }

  lemma {:induction false} AllocationIsShares(statuses: seq<Status>, revision: string)
    ensures revision in Allocate(statuses) <==> Share(statuses, revision) > 0
    ensures revision in Allocate(statuses) ==> Allocate(statuses)[revision] == Share(statuses, revision)
    ensures revision in Order(statuses) <==> revision in Allocate(statuses)
  {
    if statuses != [] {
      AllocationIsShares(statuses[..|statuses| - 1], revision);
    }
  }

  predicate ServesExclusively(described: Described, revision: string) {
    revision != "" && Allocate(described.statuses) == map[revision := 100]
  }

  lemma AllocationIsAllShares(statuses: seq<Status>)
    ensures forall r :: r in Allocate(statuses) <==> Share(statuses, r) > 0
    ensures forall r :: r in Allocate(statuses) ==> Allocate(statuses)[r] == Share(statuses, r)
    ensures forall r :: r in Order(statuses) <==> r in Allocate(statuses)
  {
    forall r
      ensures r in Allocate(statuses) <==> Share(statuses, r) > 0
      ensures r in Allocate(statuses) ==> Allocate(statuses)[r] == Share(statuses, r)
      ensures r in Order(statuses) <==> r in Allocate(statuses)
    {
      AllocationIsShares(statuses, r);
    }
  }

  predicate SoleShare(statuses: seq<Status>, revision: string)
  {
    Share(statuses, revision) == 100 && forall s <- statuses :: s.percent > 0 ==> BaseName(s.revision) == revision
  }

  lemma {:induction false} OthersShareNothing(statuses: seq<Status>, revision: string, other: string)
    requires forall s <- statuses :: s.percent > 0 ==> BaseName(s.revision) == revision
    requires other != revision
    ensures Share(statuses, other) == 0
  {
    if statuses != [] {
      OthersShareNothing(statuses[..|statuses| - 1], revision, other);
    }
  }

  lemma {:induction false} EntriesShare(statuses: seq<Status>, s: Status)
    requires s in statuses && s.percent > 0
    ensures Share(statuses, BaseName(s.revision)) > 0
  {
    var before, last := statuses[..|statuses| - 1], statuses[|statuses| - 1];
    assert statuses == before + [last];
    if s in before {
      EntriesShare(before, s);
    }
  }

  /** Exclusive service: every entry with traffic is the revision's, and they add up to exactly 100. */
  lemma ExclusiveMeansAllOfIt(described: Described, revision: string)
    ensures ServesExclusively(described, revision) <==> revision != "" && SoleShare(described.statuses, revision)
  {
    if ServesExclusively(described, revision) {
      ExclusiveIsSole(described.statuses, revision);
    }
    if SoleShare(described.statuses, revision) {
      SoleIsExclusive(described.statuses, revision);
    }
  }

  lemma ExclusiveIsSole(statuses: seq<Status>, revision: string)
    requires Allocate(statuses) == map[revision := 100]
    ensures SoleShare(statuses, revision)
  {
    AllocationIsShares(statuses, revision);
    forall s | s in statuses && s.percent > 0
      ensures BaseName(s.revision) == revision
    {
      EntriesShare(statuses, s);
      AllocationIsShares(statuses, BaseName(s.revision));
    }
  }

  lemma SoleIsExclusive(statuses: seq<Status>, revision: string)
    requires SoleShare(statuses, revision)
    ensures Allocate(statuses) == map[revision := 100]
  {
    AllocationIsShares(statuses, revision);
    forall r | r in Allocate(statuses)
      ensures r == revision
    {
      AllocationIsShares(statuses, r);
      if r != revision {
        OthersShareNothing(statuses, revision, r);
      }
    }
  }

  /** `next(rev for rev, pct in allocation.items() if pct == 100), "")`. */
  function FirstAtFull(order: seq<string>, allocation: map<string, int>): string
    requires forall r <- order :: r in allocation
  {
    if order == [] then ""
    else if allocation[order[0]] == 100 then order[0]
    else FirstAtFull(order[1..], allocation)
  }

  function Active(described: Described): string {
    assert forall r <- Order(described.statuses) :: r in Allocate(described.statuses) by {
      forall r | r in Order(described.statuses) ensures r in Allocate(described.statuses) {
        AllocationIsShares(described.statuses, r);
      }
    }
    FirstAtFull(Order(described.statuses), Allocate(described.statuses))
  }

  lemma {:induction false} FirstAtFullIsFirst(order: seq<string>, allocation: map<string, int>)
    requires forall r <- order :: r in allocation
    ensures var a := FirstAtFull(order, allocation);
            || (a == "" && forall r <- order :: allocation[r] != 100)
            || exists i :: 0 <= i < |order| && order[i] == a && allocation[a] == 100
                           && forall j :: 0 <= j < i ==> allocation[order[j]] != 100
  {
    if order != [] && allocation[order[0]] != 100 {
      FirstAtFullIsFirst(order[1..], allocation);
      var a := FirstAtFull(order[1..], allocation);
      if i :| 0 <= i < |order| - 1 && order[1..][i] == a && allocation[a] == 100
              && forall j :: 0 <= j < i ==> allocation[order[1..][j]] != 100 {
        assert order[i + 1] == a;
        assert forall j :: 0 < j < i + 1 ==> order[j] == order[1..][j - 1];
      }
    }
  }

  lemma {:induction false} FirstAtFullIsFull(order: seq<string>, allocation: map<string, int>)
    requires forall r <- order :: r in allocation
    ensures var a := FirstAtFull(order, allocation);
            a != "" ==> a in allocation && allocation[a] == 100
    ensures (exists r <- order :: allocation[r] == 100) ==>
              var a := FirstAtFull(order, allocation); a in allocation && allocation[a] == 100
  {
    if order != [] {
      FirstAtFullIsFull(order[1..], allocation);
    }
  }

  /** The active revision, when there is one, takes exactly 100 percent; an exclusively served
      revision is the active one. */
  lemma ActiveTakesAll(described: Described)
    ensures Active(described) != "" ==> Share(described.statuses, Active(described)) == 100
    ensures forall revision :: ServesExclusively(described, revision) ==> Active(described) == revision
  {
    var order, allocation := Order(described.statuses), Allocate(described.statuses);
    AllocationIsAllShares(described.statuses);
    FirstAtFullIsFull(order, allocation);
    forall revision | ServesExclusively(described, revision)
      ensures Active(described) == revision
    {
      assert revision in allocation && revision in order;
    }
  }

  /** The active revision is the first to appear of those that take exactly 100 percent; there is none
      ("") only when no revision does. */
  lemma ActiveIsFirstAtFull(described: Described)
    ensures var order, active := Order(described.statuses), Active(described);
            || (active == "" && forall r :: Share(described.statuses, r) != 100)
            || exists i :: 0 <= i < |order| && order[i] == active && Share(described.statuses, active) == 100
                           && forall j :: 0 <= j < i ==> Share(described.statuses, order[j]) != 100
  {
    var order, allocation := Order(described.statuses), Allocate(described.statuses);
    AllocationIsAllShares(described.statuses);
    FirstAtFullIsFirst(order, allocation);
    var active := Active(described);
    if i :| 0 <= i < |order| && order[i] == active && allocation[active] == 100
            && forall j :: 0 <= j < i ==> allocation[order[j]] != 100 {
      forall j | 0 <= j < i
        ensures Share(described.statuses, order[j]) != 100
      {
        assert order[j] in order && order[j] in allocation;
        AllocationIsShares(described.statuses, order[j]);
      }
      assert active in order && active in allocation;
      AllocationIsShares(described.statuses, active);
    } else {
      forall r
        ensures Share(described.statuses, r) != 100
      {
        assert r in allocation ==> r in order;
      }
    }
  }

  // --- the candidate ---

  datatype Candidate = Candidate(revision: string, uri: string)

  /** The search for the authorized revision's own URL, entry by entry. */
  method FindCandidate(described: Described, authorized: string, acceptUntagged: bool) returns (c: Candidate)
    ensures c == CandidateOf(described.statuses, authorized, acceptUntagged)
  {
    c := Candidate("", "");
    var entries := described.statuses;
    var i := 0;
    while i < |entries|
      invariant i <= |entries|
      invariant forall k :: 0 <= k < i ==> entries[k].tag != KNOWN_GOOD_TAG
      invariant c == LastMatch(entries[..i], authorized, acceptUntagged)
    {
      var entry := entries[i];
      assert entries[..i + 1][..i] == entries[..i];
      if entry.tag == KNOWN_GOOD_TAG {
        FirstTaggedAt(entries, i);
        return Candidate(BaseName(entry.revision), entry.uri);
      }
      if acceptUntagged && authorized != "" && BaseName(entry.revision) == authorized && entry.uri != "" {
        c := Candidate(BaseName(entry.revision), entry.uri);
      }
      i := i + 1;
    }
    assert entries[..i] == entries;
    NoneTagged(entries);
  }

  function FirstTagged(statuses: seq<Status>): Option<Status> {
    if statuses == [] then None
    else if statuses[0].tag == KNOWN_GOOD_TAG then Some(statuses[0])
    else FirstTagged(statuses[1..])
  }

  function LastMatch(statuses: seq<Status>, authorized: string, acceptUntagged: bool): Candidate {
    if statuses == [] then Candidate("", "")
    else
      var last := statuses[|statuses| - 1];
      if acceptUntagged && authorized != "" && BaseName(last.revision) == authorized && last.uri != ""
      then Candidate(authorized, last.uri)
      else LastMatch(statuses[..|statuses| - 1], authorized, acceptUntagged)
  }

  function CandidateOf(statuses: seq<Status>, authorized: string, acceptUntagged: bool): Candidate {
    match FirstTagged(statuses)
    case Some(entry) => Candidate(BaseName(entry.revision), entry.uri)
    case None => LastMatch(statuses, authorized, acceptUntagged)
  }

  lemma {:induction false} FirstTaggedAt(statuses: seq<Status>, i: nat)
    requires i < |statuses| && statuses[i].tag == KNOWN_GOOD_TAG
    requires forall k :: 0 <= k < i ==> statuses[k].tag != KNOWN_GOOD_TAG
    ensures FirstTagged(statuses) == Some(statuses[i])
  {
    if i > 0 {
      assert statuses[0].tag != KNOWN_GOOD_TAG;
      FirstTaggedAt(statuses[1..], i - 1);
    }
  }

  lemma {:induction false} NoneTagged(statuses: seq<Status>)
    ensures FirstTagged(statuses) == None <==> forall k :: 0 <= k < |statuses| ==> statuses[k].tag != KNOWN_GOOD_TAG
    ensures FirstTagged(statuses).Some? ==> FirstTagged(statuses).value in statuses
  {
    if statuses != [] {
      NoneTagged(statuses[1..]);
      assert forall k :: 0 < k < |statuses| ==> statuses[k] == statuses[1..][k - 1];
    }
  }

  /** Some entry of the revision has a URL of its own. */
  predicate Addressable(statuses: seq<Status>, revision: string) {
    exists s <- statuses :: BaseName(s.revision) == revision && s.uri != ""
  }

  lemma {:induction false} LastMatchMeaning(statuses: seq<Status>, authorized: string, acceptUntagged: bool)
    requires authorized != ""
    ensures LastMatch(statuses, authorized, acceptUntagged).revision == authorized <==>
            acceptUntagged && Addressable(statuses, authorized)
    ensures LastMatch(statuses, authorized, acceptUntagged).revision == authorized ==>
              LastMatch(statuses, authorized, acceptUntagged).uri != ""
  {
    if statuses != [] {
      LastMatchMeaning(statuses[..|statuses| - 1], authorized, acceptUntagged);
      var last := statuses[|statuses| - 1];
      assert statuses == statuses[..|statuses| - 1] + [last];
    }
  }

  predicate Matches(s: Status, authorized: string) {
    BaseName(s.revision) == authorized && s.uri != ""
  }

  lemma {:induction false} LastMatchIsLast(statuses: seq<Status>, authorized: string, acceptUntagged: bool)
    requires authorized != ""
    ensures var c := LastMatch(statuses, authorized, acceptUntagged);
            || (c == Candidate("", "") && !(acceptUntagged && Addressable(statuses, authorized)))
            || exists i :: 0 <= i < |statuses| && acceptUntagged && Matches(statuses[i], authorized)
                           && c == Candidate(authorized, statuses[i].uri)
                           && forall j :: i < j < |statuses| ==> !Matches(statuses[j], authorized)
  {
    if statuses != [] {
      var before, last := statuses[..|statuses| - 1], statuses[|statuses| - 1];
      LastMatchIsLast(before, authorized, acceptUntagged);
      assert statuses == before + [last];
      if acceptUntagged && Matches(last, authorized) {
        assert Matches(statuses[|statuses| - 1], authorized);
      } else if i :| 0 <= i < |before| && acceptUntagged && Matches(before[i], authorized)
                     && LastMatch(before, authorized, acceptUntagged) == Candidate(authorized, before[i].uri)
                     && forall j :: i < j < |before| ==> !Matches(before[j], authorized) {
        assert statuses[i] == before[i];
        assert forall j :: i < j < |statuses| ==> !Matches(statuses[j], authorized);
      }
    }
  }

  /** Which URL is probed: that of the first `known-good` entry, under its own revision, and without one
      that of the last entry of the authorized revision that has a URL, for a human-approved shift. */
  lemma CandidateIsExactly(described: Described, authorized: string, acceptUntagged: bool)
    requires authorized != ""
    ensures var statuses, c := described.statuses, CandidateOf(described.statuses, authorized, acceptUntagged);
            || (exists i :: 0 <= i < |statuses| && statuses[i].tag == KNOWN_GOOD_TAG
                            && c == Candidate(BaseName(statuses[i].revision), statuses[i].uri)
                            && forall j :: 0 <= j < i ==> statuses[j].tag != KNOWN_GOOD_TAG)
            || ((forall s <- statuses :: s.tag != KNOWN_GOOD_TAG)
                && ((c == Candidate("", "") && !(acceptUntagged && Addressable(statuses, authorized)))
                    || exists i :: 0 <= i < |statuses| && acceptUntagged && Matches(statuses[i], authorized)
                                   && c == Candidate(authorized, statuses[i].uri)
                                   && forall j :: i < j < |statuses| ==> !Matches(statuses[j], authorized)))
  {
    var statuses := described.statuses;
    if i: nat :| i < |statuses| && statuses[i].tag == KNOWN_GOOD_TAG {
      var first := FirstTaggedIndex(statuses);
      FirstTaggedAt(statuses, first);
    } else {
      NoneTagged(statuses);
      LastMatchIsLast(statuses, authorized, acceptUntagged);
    }
  }

  lemma {:induction false} FirstTaggedIndex(statuses: seq<Status>) returns (first: nat)
    requires exists i :: 0 <= i < |statuses| && statuses[i].tag == KNOWN_GOOD_TAG
    ensures first < |statuses| && statuses[first].tag == KNOWN_GOOD_TAG
    ensures forall j :: 0 <= j < first ==> statuses[j].tag != KNOWN_GOOD_TAG
  {
    first := 0;
    while statuses[first].tag != KNOWN_GOOD_TAG
      invariant first < |statuses| && forall j :: 0 <= j < first ==> statuses[j].tag != KNOWN_GOOD_TAG
      decreases |statuses| - first
    {
      first := first + 1;
    }
  }

  // --- the observation a worker takes away ---

  datatype Probe = Probe(httpStatus: int, bodyHealthy: bool)

  datatype Observation = Observation(described: Described, live: Probe, candidate: Candidate, candidateProbe: Probe)

  predicate ProbedHealthy(p: Probe) {
    p.httpStatus == 200 && p.bodyHealthy
  }

  /** `live` and `probed` are what the two URLs answered; a candidate without a URL is not probed. */
  function Observe(described: Described, live: Probe, probed: Probe, authorized: string, acceptUntagged: bool)
    : Observation
  {
    var c := CandidateOf(described.statuses, authorized, acceptUntagged);
    Observation(described, live, c, if c.uri != "" then probed else Probe(0, false))
  }

  datatype Staleness = CandidateNoLongerApproved | CandidateProbeUnhealthy

  function CandidateIsFresh(o: Observation, authorized: string): Option<Staleness> {
    if o.candidate.revision != authorized then Some(CandidateNoLongerApproved)
    else if !ProbedHealthy(o.candidateProbe) then Some(CandidateProbeUnhealthy)
    else None
  }

  // --- when the precondition on the target holds ---

  /** When the candidate is the authorized revision. A `known-good` tag, wherever it stands, decides
      alone; only when nobody holds it does an addressable entry of the authorized revision do, and
      that for a human-approved shift only. */
  lemma CandidateIsAuthorized(described: Described, authorized: string, acceptUntagged: bool)
    requires authorized != ""
    ensures CandidateOf(described.statuses, authorized, acceptUntagged).revision == authorized <==>
            match FirstTagged(described.statuses)
            case Some(entry) => BaseName(entry.revision) == authorized
            case None => acceptUntagged && Addressable(described.statuses, authorized)
  {
    NoneTagged(described.statuses);
    LastMatchMeaning(described.statuses, authorized, acceptUntagged);
  }

  /** The whole precondition: the target is fresh exactly when its own URL answers healthily and either
      the first `known-good` entry is the target's and has a URL, or nobody holds the tag and a
      human-approved target has an addressable entry. */
  lemma TargetIsFresh(described: Described, live: Probe, probed: Probe, authorized: string, acceptUntagged: bool)
    ensures CandidateIsFresh(Observe(described, live, probed, authorized, acceptUntagged), authorized).None? <==>
            && probed.httpStatus == 200 && probed.bodyHealthy
            && match FirstTagged(described.statuses)
               case Some(entry) => BaseName(entry.revision) == authorized && entry.uri != ""
               case None => acceptUntagged && authorized != "" && Addressable(described.statuses, authorized)
  {
    if authorized == "" {
      NothingMatchesNothing(described.statuses, acceptUntagged);
    } else {
      CandidateIsAuthorized(described, authorized, acceptUntagged);
      LastMatchMeaning(described.statuses, authorized, acceptUntagged);
    }
  }

  lemma {:induction false} NothingMatchesNothing(statuses: seq<Status>, acceptUntagged: bool)
    ensures LastMatch(statuses, "", acceptUntagged) == Candidate("", "")
  {
    if statuses != [] {
      NothingMatchesNothing(statuses[..|statuses| - 1], acceptUntagged);
    }
  }

  /** For a human-approved shift the source promises that an approved revision which is still addressable
      and still healthy passes, "whatever tag carries it". It passes exactly when nobody holds
      `known-good`, or the first holder is the approved revision and has a URL. */
  lemma ApprovedTargetPassesExactly(described: Described, live: Probe, probed: Probe, authorized: string)
    requires authorized != "" && probed.httpStatus == 200 && probed.bodyHealthy
    requires Addressable(described.statuses, authorized)
    ensures CandidateIsFresh(Observe(described, live, probed, authorized, true), authorized).None? <==>
            || (forall s <- described.statuses :: s.tag != KNOWN_GOOD_TAG)
            || (&& FirstTagged(described.statuses).Some?
                && BaseName(FirstTagged(described.statuses).value.revision) == authorized
                && FirstTagged(described.statuses).value.uri != "")
  {
    TargetIsFresh(described, live, probed, authorized, true);
    NoneTagged(described.statuses);
  }

  /** Withdrawing the tag withdraws an automatic rollback: without it no other entry will do. */
  lemma UntaggedRollbackIsRefused(described: Described, live: Probe, probed: Probe, authorized: string)
    requires authorized != "" && forall s <- described.statuses :: s.tag != KNOWN_GOOD_TAG
    ensures CandidateIsFresh(Observe(described, live, probed, authorized, false), authorized).Some?
  {
    NoneTagged(described.statuses);
    TargetIsFresh(described, live, probed, authorized, false);
  }

  /** An operator's `known-good` tag left on another revision makes a human-approved shift impossible,
      however addressable and healthy the approved revision is. */
  lemma TagOnAnotherRevisionBlocksAnApprovedShift(live: Probe, probed: Probe)
    ensures var described := Described([Status("web-2", 0, "candidate", "https://web-2"),
                                        Status("web-1", 100, "known-good", "https://web-1")], "https://web", "e");
            && Addressable(described.statuses, "web-2")
            && CandidateIsFresh(Observe(described, live, probed, "web-2", true), "web-2").Some?
  {
    var addressable := Status("web-2", 0, "candidate", "https://web-2");
    var statuses := [addressable, Status("web-1", 100, "known-good", "https://web-1")];
    assert addressable in statuses && BaseName("web-2") == "web-2" && BaseName("web-1") == "web-1";
    FirstTaggedAt(statuses, 1);
    TargetIsFresh(Described(statuses, "https://web", "e"), live, probed, "web-2", true);
  }

  /** So does the tag on an entry of the approved revision itself that has no URL, although another entry
      of it is addressable. */
  lemma TagWithoutUrlBlocksAnApprovedShift(live: Probe, probed: Probe)
    ensures var described := Described([Status("web-2", 0, "known-good", ""),
                                        Status("web-2", 0, "candidate", "https://web-2"),
                                        Status("web-1", 100, "", "")], "https://web", "e");
            && Addressable(described.statuses, "web-2")
            && CandidateIsFresh(Observe(described, live, probed, "web-2", true), "web-2").Some?
  {
    var addressable := Status("web-2", 0, "candidate", "https://web-2");
    var statuses := [Status("web-2", 0, "known-good", ""), addressable, Status("web-1", 100, "", "")];
    assert addressable in statuses && BaseName("web-2") == "web-2";
    FirstTaggedAt(statuses, 0);
    TargetIsFresh(Described(statuses, "https://web", "e"), live, probed, "web-2", true);
  }
}
