/**
 The route search (`path_to`, src/scf/domain/state_machine.py:100-135), over an
 arbitrary finite table. A node's successors are listed in the order in which
 the search takes them.
 */
module Routes {
  import opened Prelude

  /** Every listed successor has an entry of its own. */
  predicate Total<T(==)>(table: map<T, seq<T>>) {
    forall n <- table :: forall m <- table[n] :: m in table
  }

  /** The node reached after `i` steps of a route from `start`. */
  function Stop<T>(start: T, route: seq<T>, i: nat): T
    requires i <= |route|
  {
    if i == 0 then start else route[i - 1]
  }

  function End<T>(start: T, route: seq<T>): T {
    Stop(start, route, |route|)
  }

  /** A legal route from `start` none of whose stops before the last is in `banned`. */
  ghost predicate Walk<T>(table: map<T, seq<T>>, start: T, route: seq<T>, banned: set<T>) {
    forall i :: 0 <= i < |route| ==>
      && Stop(start, route, i) in table
      && route[i] in table[Stop(start, route, i)]
      && (i > 0 ==> Stop(start, route, i) !in banned)
  }

  /** A route the caller may take to `target`; the target itself is never banned. */
  ghost predicate Admissible<T>(table: map<T, seq<T>>, start: T, target: T, avoid: set<T>, route: seq<T>) {
    && route != []
    && Walk(table, start, route, avoid - {target})
    && End(start, route) == target
  }

  // --- the state of the search ---

  datatype Entry<T> = Entry(node: T, route: seq<T>)

  /** Every node met so far, in the order of meeting; the queue is what lies from `head` on. */
  datatype Log<T> = Log(entries: seq<Entry<T>>, place: map<T, nat>)

  ghost predicate Consistent<T>(log: Log<T>, start: T, target: T) {
    && |log.entries| > 0 && log.entries[0] == Entry(start, [])
    && start in log.place && log.place[start] == 0 && target !in log.place
    && (forall n <- log.place :: log.place[n] < |log.entries| && log.entries[log.place[n]].node == n)
    && (forall i :: 0 <= i < |log.entries| ==> log.entries[i].node in log.place)
  }

  ghost predicate Sound<T>(table: map<T, seq<T>>, start: T, banned: set<T>, e: Entry<T>) {
    && e.node in table
    && Walk(table, start, e.route, banned) && End(start, e.route) == e.node
    && (e.route == [] || e.node !in banned)
  }

  /** Met in order of distance, and from `head` on never more than one step beyond it. */
  ghost predicate Ordered<T>(entries: seq<Entry<T>>, head: nat) {
    && (forall i, j :: 0 <= i < j < |entries| ==> |entries[i].route| <= |entries[j].route|)
    && (head < |entries| ==> forall j :: 0 <= j < |entries| ==> |entries[j].route| <= |entries[head].route| + 1)
  }

  /** The first `j` successors of `e` are known, no further than one step on, and none is the target. */
  ghost predicate Expanded<T>(table: map<T, seq<T>>, target: T, banned: set<T>, log: Log<T>, e: Entry<T>, j: nat)
    requires forall n <- log.place :: log.place[n] < |log.entries|
    requires e.node in table && j <= |table[e.node]|
  {
    forall i :: 0 <= i < j ==>
      var m := table[e.node][i];
      && m != target
      && (m in banned || (m in log.place && |log.entries[log.place[m]].route| <= |e.route| + 1))
  }

  ghost predicate Searching<T>(table: map<T, seq<T>>, start: T, target: T, banned: set<T>, log: Log<T>, head: nat) {
    && Consistent(log, start, target)
    && (forall i :: 0 <= i < |log.entries| ==> Sound(table, start, banned, log.entries[i]))
    && Ordered(log.entries, head)
    && head <= |log.entries|
    && (forall i :: 0 <= i < head ==>
          Expanded(table, target, banned, log, log.entries[i], |table[log.entries[i].node]|))
  }

  /** A successor of an expanded node, unless banned, was met within one step of it. */
  lemma SuccessorWasMet<T>(table: map<T, seq<T>>, start: T, target: T, banned: set<T>, log: Log<T>, head: nat,
                           n: T, m: T)
    requires Searching(table, start, target, banned, log, head)
    requires n in log.place && log.place[n] < head && m in table[n] && m !in banned
    ensures m in log.place && |log.entries[log.place[m]].route| <= |log.entries[log.place[n]].route| + 1
    ensures m != target
  {
    var e := log.entries[log.place[n]];
    assert Expanded(table, target, banned, log, e, |table[e.node]|);
    var i :| 0 <= i < |table[n]| && table[n][i] == m;
  }

  /** Along any permitted walk, some prefix ends in a node met no later than the walk reaches it, and
      unless that prefix is the whole walk the node has not been expanded. */
  lemma {:induction false} WalksMeetTheFrontier<T(!new)>(
      table: map<T, seq<T>>, start: T, target: T, banned: set<T>, log: Log<T>, head: nat, walk: seq<T>)
    returns (k: nat)
    requires Searching(table, start, target, banned, log, head)
    requires Walk(table, start, walk, banned) && (walk == [] || End(start, walk) !in banned)
    ensures k <= |walk|
    ensures var n := Stop(start, walk, k);
            && n in log.place && |log.entries[log.place[n]].route| <= k
            && (k == |walk| || log.place[n] >= head)
    decreases |walk|
  {
    if walk == [] {
      return 0;
    }
    var prefix := walk[..|walk| - 1];
    assert forall i :: 0 <= i <= |prefix| ==> Stop(start, prefix, i) == Stop(start, walk, i);
    k := WalksMeetTheFrontier(table, start, target, banned, log, head, prefix);
    var n := Stop(start, prefix, k);
    if k == |prefix| && log.place[n] < head {
      SuccessorWasMet(table, start, target, banned, log, head, n, walk[|prefix|]);
      k := |walk|;
    }
  }

  /** All but the last step of an admissible route is a permitted walk to a stop before the target. */
  lemma AllButTheLastStep<T>(table: map<T, seq<T>>, start: T, target: T, avoid: set<T>, route: seq<T>)
    requires Admissible(table, start, target, avoid, route)
    ensures var prefix := route[..|route| - 1];
            && Walk(table, start, prefix, avoid - {target})
            && (prefix == [] || End(start, prefix) !in avoid - {target})
            && End(start, prefix) in table && target in table[End(start, prefix)]
  {
    var prefix := route[..|route| - 1];
    assert forall i :: 0 <= i <= |prefix| ==> Stop(start, prefix, i) == Stop(start, route, i);
    assert route[|prefix|] == target;
  }

  lemma OrderOfPlaces<T>(log: Log<T>, start: T, target: T, head: nat, n: T)
    requires Consistent(log, start, target) && Ordered(log.entries, head) && n in log.place && head <= log.place[n]
    ensures head < |log.entries| && |log.entries[head].route| <= |log.entries[log.place[n]].route|
  {
  }

  /** Every admissible route is longer than the way to the node at the head of the queue. */
  lemma NoShorterRoute<T(!new)>(table: map<T, seq<T>>, start: T, target: T, avoid: set<T>,
                                log: Log<T>, head: nat, route: seq<T>)
    requires Searching(table, start, target, avoid - {target}, log, head)
    requires Admissible(table, start, target, avoid, route)
    ensures head < |log.entries| && |log.entries[head].route| < |route|
  {
    var prefix := route[..|route| - 1];
    AllButTheLastStep(table, start, target, avoid, route);
    var k := WalksMeetTheFrontier(table, start, target, avoid - {target}, log, head, prefix);
    var n := Stop(start, prefix, k);
    if log.place[n] < head {
      assert n == End(start, prefix);
      SuccessorWasMet(table, start, target, avoid - {target}, log, head, n, target);
      assert false;
    } else {
      OrderOfPlaces(log, start, target, head, n);
    }
  }

  lemma NothingShorter<T(!new)>(table: map<T, seq<T>>, start: T, target: T, avoid: set<T>, log: Log<T>, head: nat)
    requires Searching(table, start, target, avoid - {target}, log, head)
    ensures forall other :: Admissible(table, start, target, avoid, other) ==>
              head < |log.entries| && |log.entries[head].route| < |other|
  {
    forall other | Admissible(table, start, target, avoid, other)
      ensures head < |log.entries| && |log.entries[head].route| < |other|
    {
      NoShorterRoute(table, start, target, avoid, log, head, other);
    }
  }

  lemma Extend<T>(table: map<T, seq<T>>, start: T, banned: set<T>, e: Entry<T>, next: T)
    requires Sound(table, start, banned, e) && next in table[e.node] && next in table
    ensures Walk(table, start, e.route + [next], banned)
    ensures next !in banned ==> Sound(table, start, banned, Entry(next, e.route + [next]))
  {
    assert forall i :: 0 <= i <= |e.route| ==> Stop(start, e.route + [next], i) == Stop(start, e.route, i);
  }

  ghost function Opening<T>(start: T): Log<T> {
    Log([Entry(start, [])], map[start := 0])
  }

  lemma Open<T>(table: map<T, seq<T>>, start: T, target: T, banned: set<T>)
    requires start in table && start != target
    ensures Searching(table, start, target, banned, Opening(start), 0)
  {
  }

  ghost function Met<T>(log: Log<T>, e: Entry<T>): Log<T> {
    Log(log.entries + [e], log.place[e.node := |log.entries|])
  }

  lemma Shape<T>(log: Log<T>, e: Entry<T>, i: nat, all: set<T>)
    requires i <= |log.entries|
    ensures Met(log, e).entries[i..] == log.entries[i..] + [e]
    ensures Met(log, e).place.Keys == log.place.Keys + {e.node}
    ensures e.node in all && e.node !in log.place ==>
              |all - log.place.Keys| == |all - Met(log, e).place.Keys| + 1
  {
    if e.node in all && e.node !in log.place {
      assert all - log.place.Keys == all - Met(log, e).place.Keys + {e.node};
    }
  }

  lemma MetIsConsistent<T>(log: Log<T>, e: Entry<T>, start: T, target: T)
    requires Consistent(log, start, target) && e.node !in log.place && e.node != target
    ensures Consistent(Met(log, e), start, target)
  {
  }

  lemma MetIsOrdered<T>(entries: seq<Entry<T>>, head: nat, e: Entry<T>)
    requires Ordered(entries, head) && head < |entries| && |e.route| == |entries[head].route| + 1
    ensures Ordered(entries + [e], head)
  {
  }

  lemma StaysExpanded<T>(table: map<T, seq<T>>, start: T, target: T, banned: set<T>, log: Log<T>,
                         late: Entry<T>, e: Entry<T>, j: nat)
    requires Consistent(log, start, target) && late.node !in log.place
    requires e.node in table && j <= |table[e.node]| && Expanded(table, target, banned, log, e, j)
    requires forall n <- Met(log, late).place :: Met(log, late).place[n] < |Met(log, late).entries|
    ensures Expanded(table, target, banned, Met(log, late), e, j)
  {
  }

  /** Meeting a new successor of the head keeps everything known so far. */
  lemma Meet<T>(table: map<T, seq<T>>, start: T, target: T, banned: set<T>, log: Log<T>, head: nat, j: nat)
    requires Total(table)
    requires Searching(table, start, target, banned, log, head) && head < |log.entries|
    requires j < |table[log.entries[head].node]|
    requires Expanded(table, target, banned, log, log.entries[head], j)
    requires var next := table[log.entries[head].node][j];
             next !in log.place && next !in banned && next != target
    ensures var e := log.entries[head];
            var next := table[e.node][j];
            var more := Met(log, Entry(next, e.route + [next]));
            && Searching(table, start, target, banned, more, head)
            && Expanded(table, target, banned, more, more.entries[head], j + 1)
  {
    var e := log.entries[head];
    var next := table[e.node][j];
    var met := Entry(next, e.route + [next]);
    var more := Met(log, met);
    Extend(table, start, banned, e, next);
    MetIsConsistent(log, met, start, target);
    MetIsOrdered(log.entries, head, met);
    StaysExpanded(table, start, target, banned, log, met, e, j);
    forall i | 0 <= i < head
      ensures Expanded(table, target, banned, more, more.entries[i], |table[more.entries[i].node]|)
    {
      StaysExpanded(table, start, target, banned, log, met, log.entries[i], |table[log.entries[i].node]|);
    }
  }

  /** A successor that is banned or was met before is accounted for. */
  lemma Skip<T>(table: map<T, seq<T>>, start: T, target: T, banned: set<T>, log: Log<T>, head: nat, j: nat)
    requires Searching(table, start, target, banned, log, head) && head < |log.entries|
    requires j < |table[log.entries[head].node]|
    requires Expanded(table, target, banned, log, log.entries[head], j)
    requires var next := table[log.entries[head].node][j];
             next in log.place || (next in banned && next != target)
    ensures Expanded(table, target, banned, log, log.entries[head], j + 1)
  {
  }

  /** With all its successors accounted for, the head of the queue is done with. */
  lemma Pass<T>(table: map<T, seq<T>>, start: T, target: T, banned: set<T>, log: Log<T>, head: nat)
    requires Total(table)
    requires Searching(table, start, target, banned, log, head) && head < |log.entries|
    requires Expanded(table, target, banned, log, log.entries[head], |table[log.entries[head].node]|)
    ensures Searching(table, start, target, banned, log, head + 1)
  {
  }

  /** The inner loop: takes every successor of the node just removed from the queue, in order, and
      stops early with a step to the target. */
  method Expand<T(==,!new)>(table: map<T, seq<T>>, ghost start: T, target: T, avoid: set<T>,
                            current: Entry<T>, seen0: set<T>, queue0: seq<Entry<T>>,
                            ghost log0: Log<T>, ghost head: nat)
    returns (found: Option<seq<T>>, seen: set<T>, queue: seq<Entry<T>>, ghost log: Log<T>)
    requires Total(table)
    requires Searching(table, start, target, avoid - {target}, log0, head)
    requires head < |log0.entries| && current == log0.entries[head]
    requires queue0 == log0.entries[head + 1..] && seen0 == log0.place.Keys && seen0 <= table.Keys
    ensures found.Some? ==>
              Admissible(table, start, target, avoid, found.value) && |found.value| == |current.route| + 1
    ensures found.None? ==>
              && Searching(table, start, target, avoid - {target}, log, head + 1)
              && queue == log.entries[head + 1..] && seen == log.place.Keys && seen <= table.Keys
              && |table.Keys - seen| + |queue| == |table.Keys - seen0| + |queue0|
  {
    ghost var banned := avoid - {target};
    found, seen, queue, log := None, seen0, queue0, log0;
    var j := 0;
    while j < |table[current.node]|
      invariant 0 <= j <= |table[current.node]|
      invariant head < |log.entries| && current == log.entries[head]
      invariant queue == log.entries[head + 1..] && seen == log.place.Keys && seen <= table.Keys
      invariant Searching(table, start, target, banned, log, head)
      invariant Expanded(table, target, banned, log, current, j)
      invariant |table.Keys - seen| + |queue| == |table.Keys - seen0| + |queue0|
    {
      var next := table[current.node][j];
      if next in seen || (next in avoid && next != target) {
        Skip(table, start, target, banned, log, head, j);
      } else {
        var step := current.route + [next];
        Extend(table, start, banned, current, next);
        if next == target {
          return Some(step), seen, queue, log;
        }
        Meet(table, start, target, banned, log, head, j);
        Shape(log, Entry(next, step), head + 1, table.Keys);
        seen := seen + {next};
        queue := queue + [Entry(next, step)];
        log := Met(log, Entry(next, step));
      }
      j := j + 1;
    }
    Pass(table, start, target, banned, log, head);
  }

  /** Breadth-first search. The result is a shortest admissible route, and it is empty exactly when
      source and target coincide or no admissible route exists. */
  method PathTo<T(==,!new)>(table: map<T, seq<T>>, start: T, target: T, avoid: set<T>) returns (route: seq<T>)
    requires Total(table) && start in table
    ensures start == target ==> route == []
    ensures route != [] ==> Admissible(table, start, target, avoid, route)
    ensures route != [] ==> forall other :: Admissible(table, start, target, avoid, other) ==> |route| <= |other|
    ensures route == [] && start != target ==> forall other :: !Admissible(table, start, target, avoid, other)
  {
    if start == target {
      return [];
    }
    var seen := {start};
    var queue := [Entry(start, [])];
    ghost var log, head := Opening(start), 0;
    Open(table, start, target, avoid - {target});
    while queue != []
      invariant head <= |log.entries| && queue == log.entries[head..] && seen == log.place.Keys && seen <= table.Keys
      invariant Searching(table, start, target, avoid - {target}, log, head)
      decreases |table.Keys - seen| + |queue|
    {
      var current := queue[0];
      NothingShorter(table, start, target, avoid, log, head);
      var found;
      found, seen, queue, log := Expand(table, start, target, avoid, current, seen, queue[1..], log, head);
      if found.Some? {
        return found.value;
      }
      head := head + 1;
    }
    NothingShorter(table, start, target, avoid, log, head);
    return [];
  }
}
