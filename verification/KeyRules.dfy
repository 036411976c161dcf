/**
 * Which rules for nested lock keys rule out circular waiting: exactly those that lie inside some strict order. A rule
 * looks at the nearest non-empty key above and at the new key, which a caller knows before submitting.
 */
module KeyRules {
  import opened Basics
  import opened Jobs
  import opened Kernel
  import opened Waits

  type KeyRule = (LockKey, LockKey) -> bool

  /** The rule, as far as it speaks of non-empty keys, implies a strict order. */
  ghost predicate Inside(rule: KeyRule, less: KeyOrder) {
    Strict(less) && forall x: LockKey, y: LockKey :: x != "" && y != "" && rule(x, y) ==> less(x, y)
  }

  ghost predicate InsideStrictOrder(rule: KeyRule) {
    exists less: KeyOrder :: Inside(rule, less)
  }

  /** A nested submission obeys: its key is empty, or none stands above it, or the rule allows it below that one. */
  ghost predicate Obeys(rule: KeyRule, jobs: map<RunId, Job>, inv: Invocation)
    requires Rooted(jobs)
  {
    inv.parent.Some? && inv.parent.value in jobs && inv.lockKey != "" ==>
      TopKey(jobs, inv.parent.value) == "" || rule(TopKey(jobs, inv.parent.value), inv.lockKey)
  }

  ghost predicate Obedient(rule: KeyRule, jobs: map<RunId, Job>) {
    Rooted(jobs) && forall id :: id in jobs ==> Obeys(rule, jobs, jobs[id].inv)
  }

  lemma ObedientIsRising(rule: KeyRule, less: KeyOrder, jobs: map<RunId, Job>)
    requires Inside(rule, less) && Obedient(rule, jobs)
    ensures Rising(less, jobs)
  {
    hide TopKey, Strict;
    forall id | id in jobs ensures RisesAt(less, jobs, jobs[id].inv) {
      assert Obeys(rule, jobs, jobs[id].inv);
    }
  }

  // ---------------------------------------------------------------- paths and cycles of a rule

  /** Non-empty keys, each allowed below the one before. */
  ghost predicate Path(rule: KeyRule, ks: seq<LockKey>) {
    && |ks| >= 2 && (forall i :: 0 <= i < |ks| ==> ks[i] != "")
    && (forall i :: 0 <= i < |ks| - 1 ==> rule(ks[i], ks[i + 1]))
  }

  ghost predicate Joined(rule: KeyRule, x: LockKey, y: LockKey) {
    exists ks :: Path(rule, ks) && ks[0] == x && ks[|ks| - 1] == y
  }

  ghost function Closure(rule: KeyRule): KeyOrder {
    (x, y) => Joined(rule, x, y)
  }

  lemma JoinedTransitive(rule: KeyRule, x: LockKey, y: LockKey, z: LockKey)
    requires Joined(rule, x, y) && Joined(rule, y, z)
    ensures Joined(rule, x, z)
  {
    var a :| Path(rule, a) && a[0] == x && a[|a| - 1] == y;
    var b :| Path(rule, b) && b[0] == y && b[|b| - 1] == z;
    PathsConcat(rule, a, b);
  }

  lemma PathsConcat(rule: KeyRule, a: seq<LockKey>, b: seq<LockKey>)
    requires Path(rule, a) && Path(rule, b) && a[|a| - 1] == b[0]
    ensures Path(rule, a + b[1..])
  {
    var ks := a + b[1..];
    forall i | 0 <= i < |ks| - 1 ensures rule(ks[i], ks[i + 1]) {
      if i >= |a| - 1 {
        assert ks[i] == b[i - (|a| - 1)] && ks[i + 1] == b[i - (|a| - 1) + 1];
      }
    }
  }

  /** A cycle that meets no key twice. */
  ghost predicate SimpleCycle(rule: KeyRule, ks: seq<LockKey>) {
    Path(rule, ks) && ks[0] == ks[|ks| - 1] && NoDups(ks[..|ks| - 1])
  }

  lemma {:induction false} CycleShrinks(rule: KeyRule, ks: seq<LockKey>) returns (cycle: seq<LockKey>)
    requires Path(rule, ks) && ks[0] == ks[|ks| - 1]
    ensures SimpleCycle(rule, cycle)
    decreases |ks|
  {
    if NoDups(ks[..|ks| - 1]) {
      return ks;
    }
    var i, j :| 0 <= i < j < |ks| - 1 && ks[..|ks| - 1][i] == ks[..|ks| - 1][j];
    var shorter := ks[i..j + 1];
    assert forall k :: 0 <= k < |shorter| ==> shorter[k] == ks[i + k];
    forall k | 0 <= k < |shorter| - 1 ensures rule(shorter[k], shorter[k + 1]) {
      assert rule(ks[i + k], ks[i + k + 1]);
    }
    cycle := CycleShrinks(rule, shorter);
  }

  /** A rule lies inside a strict order unless it has a cycle; then it has one that meets no key twice. */
  lemma OrderOrCycle(rule: KeyRule) returns (cycle: seq<LockKey>)
    ensures InsideStrictOrder(rule) || SimpleCycle(rule, cycle)
  {
    cycle := [];
    if k: LockKey :| Joined(rule, k, k) {
      var ks :| Path(rule, ks) && ks[0] == k && ks[|ks| - 1] == k;
      cycle := CycleShrinks(rule, ks);
    } else {
      var less := Closure(rule);
      hide Path;
      forall a: LockKey, b: LockKey, c: LockKey | less(a, b) && less(b, c) ensures less(a, c) {
        JoinedTransitive(rule, a, b, c);
      }
      forall x: LockKey, y: LockKey | x != "" && y != "" && rule(x, y) ensures less(x, y) {
        StepJoins(rule, x, y);
      }
      assert Inside(rule, less);
    }
  }

  lemma StepJoins(rule: KeyRule, x: LockKey, y: LockKey)
    requires x != "" && y != "" && rule(x, y)
    ensures Joined(rule, x, y)
  {
    assert Path(rule, [x, y]);
  }

  /** And not both: a cycle would put a key below itself. */
  lemma {:induction false} CycleBreaksOrder(rule: KeyRule, less: KeyOrder, ks: seq<LockKey>)
    requires Inside(rule, less) && Path(rule, ks)
    ensures less(ks[0], ks[|ks| - 1]) && ks[0] != ks[|ks| - 1]
  {
    assert rule(ks[0], ks[1]);
    if |ks| > 2 {
      assert forall i :: 0 <= i < |ks[1..]| - 1 ==> rule(ks[1..][i], ks[1..][i + 1]) by {
        forall i | 0 <= i < |ks[1..]| - 1 ensures rule(ks[1..][i], ks[1..][i + 1]) {
          assert rule(ks[i + 1], ks[i + 1 + 1]);
        }
      }
      CycleBreaksOrder(rule, less, ks[1..]);
    }
  }
}
