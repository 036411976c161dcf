/** The removal pass of JobStore.cleanup, proved against the order-free specification in Retention. */
module Cleanup {
  import opened Basics
  import opened Retention

  /** The completed runs among `done`, as the first loop collects them. */
  ghost predicate Collected(runs: Table, done: set<RunId>, completed: seq<Stamp>)
    requires Stamped(runs)
  {
    && NoDups(completed)
    && Elems(completed) == set id | id in runs && id in done && !runs[id].active :: StampOf(runs, id)
  }

  method CollectCompleted(runs: Table) returns (completed: seq<Stamp>)
    requires Stamped(runs)
    ensures NoDups(completed) && Elems(completed) == Completed(runs)
  {
    completed := [];
    var todo := runs.Keys;
    while todo != {}
      invariant todo <= runs.Keys
      invariant Collected(runs, runs.Keys - todo, completed)
      decreases |todo|
    {
      var id :| id in todo;
      ghost var done := runs.Keys - todo;
      todo := todo - {id};
      assert runs.Keys - todo == done + {id};
      if !runs[id].active {
        ghost var before := completed;
        var x := Stamp(runs[id].finishedAt.value, id);
        assert x !in Elems(before);
        completed := completed + [x];
        assert Elems(completed) == Elems(before) + {x};
      }
    }
    assert Elems(completed) == Completed(runs);
  }

  /** The expired stamps of a list. */
  method CollectExpired(limits: Limits, completed: seq<Stamp>, now: Time) returns (ids: set<RunId>)
    ensures ids == set x | x in completed && Expired(limits, now, x) :: x.id
  {
    ids := {};
    for i := 0 to |completed|
      invariant ids == set x | x in completed[..i] && Expired(limits, now, x) :: x.id
    {
      assert completed[..i + 1] == completed[..i] + [completed[i]];
      if Expired(limits, now, completed[i]) {
        ids := ids + {completed[i].id};
      }
    }
    assert completed[..|completed|] == completed;
  }

  /** The stamps after the first n of the list sorted newest first. */
  method CollectSurplus(completed: seq<Stamp>, n: nat) returns (ids: set<RunId>)
    requires NoDups(completed)
    ensures ids == set x | x in completed && |Above(Elems(completed), x)| >= n :: x.id
  {
    var sorted := SortDescending(completed);
    SortDescendingCorrect(completed);
    ids := {};
    var i := n;
    while i < |sorted|
      invariant n <= i && (i <= |sorted| || i == n)
      invariant ids == set j | n <= j < i && j < |sorted| :: sorted[j].id
    {
      ids := ids + {sorted[i].id};
      i := i + 1;
    }
    SurplusIsTail(completed, sorted, n);
  }

  lemma SurplusIsTail(completed: seq<Stamp>, sorted: seq<Stamp>, n: nat)
    requires Descending(sorted) && multiset(sorted) == multiset(completed)
    ensures (set j | n <= j < |sorted| :: sorted[j].id)
            == set x | x in completed && |Above(Elems(completed), x)| >= n :: x.id
  {
    hide Descending, Above;
    var tail := set j | n <= j < |sorted| :: sorted[j].id;
    var surplus := set x | x in completed && |Above(Elems(completed), x)| >= n :: x.id;
    forall id | id in tail ensures id in surplus {
      var j :| n <= j < |sorted| && sorted[j].id == id;
      SameRank(completed, sorted, j);
    }
    forall id | id in surplus ensures id in tail {
      var x :| x in completed && |Above(Elems(completed), x)| >= n && x.id == id;
      var j := SamePlace(completed, sorted, x);
      SameRank(completed, sorted, j);
    }
  }

  /** In a permutation sorted newest first, as many stamps stand above one as stand before it. */
  lemma SameRank(completed: seq<Stamp>, sorted: seq<Stamp>, j: nat)
    requires Descending(sorted) && multiset(sorted) == multiset(completed) && j < |sorted|
    ensures sorted[j] in completed && |Above(Elems(completed), sorted[j])| == j
  {
    hide Descending, Above;
    assert sorted[j] in multiset(sorted);
    assert forall x :: x in completed <==> x in multiset(completed);
    assert forall x :: x in sorted <==> x in multiset(sorted);
    assert Elems(completed) == Elems(sorted);
    RankIsIndex(sorted, j);
  }

  lemma SamePlace(completed: seq<Stamp>, sorted: seq<Stamp>, x: Stamp) returns (j: nat)
    requires multiset(sorted) == multiset(completed) && x in completed
    ensures j < |sorted| && sorted[j] == x
  {
    assert x in multiset(completed);
    j :| j < |sorted| && sorted[j] == x;
  }

  /** The ids cleanup removes are exactly those the specification does not keep. */
  method ChooseRemovals(limits: Limits, runs: Table, now: Time) returns (ids: set<RunId>)
    requires Stamped(runs)
    ensures ids == runs.Keys - Kept(limits, runs, now)
    ensures ids <= runs.Keys && forall id :: id in runs ==> (id !in ids <==> MustStay(limits, runs, now, id))
  {
    hide Kept, MustStay, Expired, InTop;
    forall id | id in runs ensures id in Kept(limits, runs, now) <==> MustStay(limits, runs, now, id) {
      KeptMustStay(limits, runs, now, id);
    }
    ids := Removals(limits, runs, now);
  }

  /** The two passes, each when its limit is set. */
  method Removals(limits: Limits, runs: Table, now: Time) returns (ids: set<RunId>)
    requires Stamped(runs)
    ensures ids == runs.Keys - Kept(limits, runs, now)
  {
    if limits.retainLastN == None && limits.ttl == None {
      return {};
    }
    var completed := CollectCompleted(runs);
    ids := {};
    if limits.ttl.Some? {
      ids := CollectExpired(limits, completed, now);
    }
    if limits.retainLastN.Some? && limits.retainLastN.value >= 0 {
      var surplus := CollectSurplus(completed, limits.retainLastN.value);
      ids := ids + surplus;
    }
    ghost var expired := set x | x in completed && Expired(limits, now, x) :: x.id;
    ghost var surplus := set x | x in completed && !InTop(limits, Elems(completed), x) :: x.id;
    assert ids == expired + surplus;
    RemovedIsComplement(limits, runs, now, completed);
  }

  lemma RemovedIsComplement(limits: Limits, runs: Table, now: Time, completed: seq<Stamp>)
    requires Stamped(runs) && Elems(completed) == Completed(runs)
    ensures (set x | x in completed && Expired(limits, now, x) :: x.id)
            + (set x | x in completed && !InTop(limits, Elems(completed), x) :: x.id)
            == runs.Keys - Kept(limits, runs, now)
  {
    assert forall x :: x in completed <==> x in Elems(completed);
    forall id | id in runs
      ensures id !in Kept(limits, runs, now)
              <==> exists x :: x in completed && x.id == id
                               && (Expired(limits, now, x) || !InTop(limits, Elems(completed), x))
    {
      if !runs[id].active {
        assert StampOf(runs, id) in Completed(runs);
      }
    }
    forall x | x in completed ensures x.id in runs && !runs[x.id].active && StampOf(runs, x.id) == x {
      assert x in Completed(runs);
    }
  }

  /** In a descending list of all stamps, the top ones are the first N. */
  lemma TopIsFront(limits: Limits, stamps: set<Stamp>, sorted: seq<Stamp>)
    requires CapsCount(limits) && Descending(sorted) && Elems(sorted) == stamps
    ensures var n := limits.retainLastN.value;
            Top(limits, stamps) == Elems(sorted[..if |sorted| <= n then |sorted| else n])
  {
    var m := if |sorted| <= limits.retainLastN.value then |sorted| else limits.retainLastN.value;
    forall j | 0 <= j < |sorted| ensures sorted[j] in Top(limits, stamps) <==> j < m {
      RankIsIndex(sorted, j);
    }
  }

  lemma DescendingNoDups(sorted: seq<Stamp>)
    requires Descending(sorted)
    ensures NoDups(sorted)
  {
    forall i, j | 0 <= i < j < |sorted| ensures sorted[i] != sorted[j] {
      BeforeIsStrictTotal(sorted[i], sorted[j]);
    }
  }

  /** With keep-last-N in force at most N completed runs survive. */
  lemma AtMostNKept(limits: Limits, stamps: set<Stamp>)
    requires CapsCount(limits)
    ensures |Top(limits, stamps)| == if |stamps| <= limits.retainLastN.value then |stamps| else limits.retainLastN.value
  {
    hide Top, SortDescending, Descending;
    var xs := Listing(stamps);
    var sorted := SortDescending(xs);
    SortDescendingCorrect(xs);
    assert forall x :: x in xs <==> x in multiset(xs);
    assert forall x :: x in sorted <==> x in multiset(sorted);
    assert Elems(sorted) == stamps;
    var m := if |sorted| <= limits.retainLastN.value then |sorted| else limits.retainLastN.value;
    TopIsFront(limits, stamps, sorted);
    DescendingNoDups(sorted);
    NoDupsCardinality(sorted[..m]);
    NoDupsCardinality(sorted);
  }

  lemma {:induction false} Listing(stamps: set<Stamp>) returns (xs: seq<Stamp>)
    ensures NoDups(xs) && Elems(xs) == stamps
    decreases |stamps|
  {
    if stamps == {} { return []; }
    var x :| x in stamps;
    var rest := Listing(stamps - {x});
    xs := rest + [x];
    assert x !in Elems(rest);
    assert Elems(xs) == Elems(rest) + {x};
  }
}
