/**
 Derived identities (src/scf/domain/ids.py). The hash is a parameter. Nothing
 assumes it is collision-free: where two different inputs would have to share a
 hash, the two inputs are exhibited.
 */
module Ids {

  type Hash = string -> string

  ghost predicate Collision(h: Hash, x: string, y: string) {
    x != y && h(x) == h(y)
  }

  /** `"|".join(fields)`. */
  function Join(fields: seq<string>): string {
    if fields == [] then ""
    else if |fields| == 1 then fields[0]
    else fields[0] + "|" + Join(fields[1..])
  }

  function ExecutionId(h: Hash, incidentId: string, actionType: string, targetRef: string, decisionId: string): string {
    h(Join([incidentId, actionType, targetRef, decisionId]))
  }

  function Fingerprint(h: Hash, incidentId: string, actionType: string, targetRef: string,
                       authorizedTarget: string, policyVersion: string, evidenceHash: string): string {
    h(Join([incidentId, actionType, targetRef, authorizedTarget, policyVersion, evidenceHash]))
  }

  predicate BarFree(fields: seq<string>) {
    forall f <- fields :: '|' !in f
  }

  lemma {:induction false} JoinSplits(a: seq<string>, b: seq<string>)
    requires |a| == |b| && BarFree(a) && BarFree(b) && Join(a) == Join(b)
    ensures a == b
  {
    if |a| == 1 {
      assert a == [a[0]] && b == [b[0]];
    } else if |a| > 1 {
      var m, n := |a[0]|, |b[0]|;
      assert '|' !in a[0] && '|' !in b[0];
      assert forall k :: 0 <= k < m ==> Join(a)[k] == a[0][k];
      assert forall k :: 0 <= k < n ==> Join(b)[k] == b[0][k];
      assert Join(a)[m] == '|' && Join(b)[n] == '|';
      assert a[0] == Join(a)[..m] && b[0] == Join(b)[..n];
      assert Join(a)[m + 1..] == Join(a[1..]) && Join(b)[n + 1..] == Join(b[1..]);
      JoinSplits(a[1..], b[1..]);
      assert a == [a[0]] + a[1..] && b == [b[0]] + b[1..];
    }
  }

  lemma {:induction false} JoinOfParts(a: seq<string>, b: seq<string>)
    requires a != [] && b != []
    ensures Join(a + b) == Join(a) + "|" + Join(b)
  {
    assert (a + b)[0] == a[0];
    if |a| == 1 {
      assert (a + b)[1..] == b;
    } else {
      assert (a + b)[1..] == a[1..] + b;
      JoinOfParts(a[1..], b);
    }
  }

  /** A second list of as many fields with the same joined text, when some field holds a bar. */
  lemma Alias(a: seq<string>, i: nat, p: nat) returns (b: seq<string>)
    requires |a| >= 2 && i < |a| && p < |a[i]| && a[i][p] == '|'
    ensures |b| == |a| && b != a && Join(b) == Join(a)
  {
    var k := if i == |a| - 1 then i - 1 else i;
    var whole := a[k] + "|" + a[k + 1];
    var u, v := a[i][..p], a[i][p + 1..];
    assert a[i] == u + "|" + v;
    var left, right := if i == k then u else a[k] + "|" + u, if i == k then v + "|" + a[k + 1] else v;
    assert whole == left + "|" + right;
    b := a[..k] + [left, right] + a[k + 2..];
    assert b[k] == left && |left| != |a[k]|;
    assert [left, right][1..] == [right] && [a[k], a[k + 1]][1..] == [a[k + 1]];
    assert Join([left, right]) == left + "|" + Join([right]) == whole;
    assert Join([a[k], a[k + 1]]) == a[k] + "|" + Join([a[k + 1]]) == whole;
    Rejoin(a[..k], [a[k], a[k + 1]], [left, right], a[k + 2..]);
    assert a == a[..k] + [a[k], a[k + 1]] + a[k + 2..];
  }

  lemma Rejoin(before: seq<string>, x: seq<string>, y: seq<string>, after: seq<string>)
    requires x != [] && y != [] && Join(x) == Join(y)
    ensures Join(before + x + after) == Join(before + y + after)
  {
    if before != [] {
      JoinOfParts(before, x);
      JoinOfParts(before, y);
    } else {
      assert before + x == x && before + y == y;
    }
    if after != [] {
      JoinOfParts(before + x, after);
      JoinOfParts(before + y, after);
    } else {
      assert before + x + after == before + x && before + y + after == before + y;
    }
  }

  /** The joined text of two or more fields identifies them exactly when no field holds a bar. */
  lemma JoinIdentifiesExactlyBarFreeFields(a: seq<string>)
    requires |a| >= 2
    ensures BarFree(a) <==>
            forall b: seq<string> :: |b| == |a| && Join(b) == Join(a) ==> b == a
  {
    if BarFree(a) {
      forall b: seq<string> | |b| == |a| && Join(b) == Join(a)
        ensures b == a
      {
        if BarFree(b) {
          JoinSplits(a, b);
        } else {
          BarsCount(a);
          BarsCount(b);
          var i :| 0 <= i < |b| && '|' in b[i];
          FieldBars(b, i);
        }
      }
    } else {
      var i :| 0 <= i < |a| && '|' in a[i];
      var p :| 0 <= p < |a[i]| && a[i][p] == '|';
      var b := Alias(a, i, p);
    }
  }

  function Bars(s: string): nat {
    if s == "" then 0 else (if s[0] == '|' then 1 else 0) + Bars(s[1..])
  }

  function FieldBarCount(fields: seq<string>): nat {
    if fields == [] then 0 else Bars(fields[0]) + FieldBarCount(fields[1..])
  }

  lemma {:induction false} BarsAdd(s: string, t: string)
    ensures Bars(s + t) == Bars(s) + Bars(t)
  {
    if s == "" {
      assert s + t == t;
    } else {
      assert (s + t)[1..] == s[1..] + t;
      BarsAdd(s[1..], t);
    }
  }

  lemma {:induction false} BarsCount(fields: seq<string>)
    requires fields != []
    ensures Bars(Join(fields)) == FieldBarCount(fields) + |fields| - 1
    ensures BarFree(fields) ==> FieldBarCount(fields) == 0
  {
    NoBars(fields[0]);
    if |fields| > 1 {
      BarsCount(fields[1..]);
      BarsAdd(fields[0] + "|", Join(fields[1..]));
      BarsAdd(fields[0], "|");
      assert BarFree(fields) ==> BarFree(fields[1..]);
    }
  }

  lemma {:induction false} NoBars(s: string)
    ensures Bars(s) == 0 <==> '|' !in s
  {
    if s != "" {
      NoBars(s[1..]);
      assert s == [s[0]] + s[1..];
    }
  }

  lemma {:induction false} FieldBars(fields: seq<string>, i: nat)
    requires i < |fields| && '|' in fields[i]
    ensures FieldBarCount(fields) > 0
  {
    if i == 0 {
      NoBars(fields[0]);
    } else {
      FieldBars(fields[1..], i - 1);
    }
  }

  /** Equal execution ids of bar-free identities mean equal identities, or the hash itself collides. */
  lemma ExecutionIdIsFaithful(h: Hash, a: (string, string, string, string), b: (string, string, string, string))
    requires BarFree([a.0, a.1, a.2, a.3]) && BarFree([b.0, b.1, b.2, b.3])
    requires ExecutionId(h, a.0, a.1, a.2, a.3) == ExecutionId(h, b.0, b.1, b.2, b.3)
    ensures a == b || Collision(h, Join([a.0, a.1, a.2, a.3]), Join([b.0, b.1, b.2, b.3]))
  {
    var x, y := [a.0, a.1, a.2, a.3], [b.0, b.1, b.2, b.3];
    if Join(x) == Join(y) {
      JoinSplits(x, y);
      assert forall i :: 0 <= i < 4 ==> x[i] == y[i];
      assert x[0] == a.0 && x[1] == a.1 && x[2] == a.2 && x[3] == a.3;
    }
  }

  /** Equal fingerprints of bar-free authorizations mean the same incident, action, target, revision,
      policy version and evidence, or the hash itself collides. */
  lemma FingerprintIsFaithful(h: Hash, a: seq<string>, b: seq<string>)
    requires |a| == 6 && |b| == 6 && BarFree(a) && BarFree(b)
    requires Fingerprint(h, a[0], a[1], a[2], a[3], a[4], a[5]) == Fingerprint(h, b[0], b[1], b[2], b[3], b[4], b[5])
    ensures a == b || Collision(h, Join(a), Join(b))
  {
    assert a == [a[0], a[1], a[2], a[3], a[4], a[5]] && b == [b[0], b[1], b[2], b[3], b[4], b[5]];
    if Join(a) == Join(b) {
      JoinSplits(a, b);
    }
  }
}
