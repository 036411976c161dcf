/** A session's list of run ids: counting the active ones, and forgetting old inactive ones. */
module RunLists {
  import opened Basics

  /** How many entries of the list are active. */
  function LiveCount(ids: seq<RunId>, live: set<RunId>): nat {
    if ids == [] then 0 else (if ids[0] in live then 1 else 0) + LiveCount(ids[1..], live)
  }

  lemma {:induction false} LiveCountAppend(a: seq<RunId>, b: seq<RunId>, live: set<RunId>)
    ensures LiveCount(a + b, live) == LiveCount(a, live) + LiveCount(b, live)
  {
    if a == [] {
      assert a + b == b;
    } else {
      assert (a + b)[1..] == a[1..] + b;
      LiveCountAppend(a[1..], b, live);
    }
  }

  lemma {:induction false} LiveCountMonotone(ids: seq<RunId>, live: set<RunId>, live': set<RunId>)
    requires forall i :: 0 <= i < |ids| && ids[i] in live' ==> ids[i] in live
    ensures LiveCount(ids, live') <= LiveCount(ids, live) <= |ids|
  {
    if ids != [] { LiveCountMonotone(ids[1..], live, live'); }
  }

  /** _assert_concurrency_limit's loop, with its early exit: does the list hold at least `limit` active runs? */
  method ReachesLimit(ids: seq<RunId>, live: set<RunId>, limit: int) returns (reached: bool)
    requires limit > 0
    ensures reached <==> LiveCount(ids, live) >= limit
  {
    var active := 0;
    for i := 0 to |ids|
      invariant active == LiveCount(ids[..i], live) && active < limit
    {
      assert ids == ids[..i + 1] + ids[i + 1..] && ids[..i + 1] == ids[..i] + [ids[i]];
      LiveCountAppend(ids[..i + 1], ids[i + 1..], live);
      LiveCountAppend(ids[..i], [ids[i]], live);
      if ids[i] in live {
        active := active + 1;
      }
      if active >= limit {
        return true;
      }
    }
    assert ids[..|ids|] == ids;
    return false;
  }

  // ---------------------------------------------------------------- trimming

  /** The list without its first m inactive entries. */
  function DropInactive(ids: seq<RunId>, live: set<RunId>, m: nat): seq<RunId> {
    if ids == [] || m == 0 then ids
    else if ids[0] in live then [ids[0]] + DropInactive(ids[1..], live, m)
    else DropInactive(ids[1..], live, m - 1)
  }

  function Trimmed(ids: seq<RunId>, live: set<RunId>, retain: Option<int>): seq<RunId> {
    if retain == None || retain.value < 0 || |ids| <= retain.value then ids
    else DropInactive(ids, live, |ids| - retain.value)
  }

  /** Entry i survives iff it is active or at least m inactive entries stand before it. */
  predicate StaysAt(ids: seq<RunId>, live: set<RunId>, m: int, i: nat)
    requires i < |ids|
  {
    ids[i] in live || i - LiveCount(ids[..i], live) >= m
  }

  /** The indices that survive, in order, and the entries at them. */
  function Survivors(ids: seq<RunId>, live: set<RunId>, m: int, n: nat): seq<RunId>
    requires n <= |ids|
  {
    if n == 0 then []
    else Survivors(ids, live, m, n - 1) + if StaysAt(ids, live, m, n - 1) then [ids[n - 1]] else []
  }

  lemma {:induction false} DropInactiveSize(ids: seq<RunId>, live: set<RunId>, m: nat)
    ensures var inactive := |ids| - LiveCount(ids, live);
            |DropInactive(ids, live, m)| == |ids| - if m <= inactive then m else inactive
    ensures LiveCount(DropInactive(ids, live, m), live) == LiveCount(ids, live)
  {
    LiveCountMonotone(ids, live, live);
    if ids != [] && m > 0 {
      if ids[0] in live {
        DropInactiveSize(ids[1..], live, m);
        assert ([ids[0]] + DropInactive(ids[1..], live, m))[1..] == DropInactive(ids[1..], live, m);
      } else {
        DropInactiveSize(ids[1..], live, m - 1);
      }
    }
  }

  /** A trimmed list keeps max(R, active) entries, and every active one. */
  lemma TrimmedSize(ids: seq<RunId>, live: set<RunId>, retain: int)
    requires 0 <= retain < |ids|
    ensures var active := LiveCount(ids, live);
            |Trimmed(ids, live, Some(retain))| == if active <= retain then retain else active
    ensures LiveCount(Trimmed(ids, live, Some(retain)), live) == LiveCount(ids, live)
  {
    DropInactiveSize(ids, live, |ids| - retain);
    LiveCountMonotone(ids, live, live);
  }

  /** The survivors are the entries StaysAt picks: the active ones and all but the oldest m inactive ones. */
  lemma {:induction false} DropInactiveIsSurvivors(ids: seq<RunId>, live: set<RunId>, m: nat)
    ensures DropInactive(ids, live, m) == Survivors(ids, live, m, |ids|)
  {
    if m == 0 {
      AllSurvive(ids, live, |ids|);
    } else if ids != [] {
      var rest := ids[1..];
      var m' := if ids[0] in live then m else m - 1;
      DropInactiveIsSurvivors(rest, live, m');
      SurvivorsCons(ids, live, m, |ids|);
    }
  }

  lemma {:induction false} AllSurvive(ids: seq<RunId>, live: set<RunId>, n: nat)
    requires n <= |ids|
    ensures Survivors(ids, live, 0, n) == ids[..n]
  {
    if n > 0 {
      AllSurvive(ids, live, n - 1);
      LiveCountMonotone(ids[..n - 1], live, live);
      assert ids[..n] == ids[..n - 1] + [ids[n - 1]];
    }
  }

  lemma {:induction false} SurvivorsCons(ids: seq<RunId>, live: set<RunId>, m: nat, n: nat)
    requires m > 0 && 1 <= n <= |ids|
    ensures var m' := if ids[0] in live then m else m - 1;
            Survivors(ids, live, m, n)
            == (if ids[0] in live then [ids[0]] else []) + Survivors(ids[1..], live, m', n - 1)
  {
    var rest := ids[1..];
    if n > 1 {
      SurvivorsCons(ids, live, m, n - 1);
      assert ids[..n - 1] == [ids[0]] + rest[..n - 2];
      LiveCountAppend([ids[0]], rest[..n - 2], live);
      assert LiveCount([ids[0]], live) == if ids[0] in live then 1 else 0;
      assert rest[n - 2] == ids[n - 1];
    } else {
      assert ids[..0] == [];
      assert Survivors(ids, live, m, 0) == [];
    }
  }

  /** An active entry at the end stays there. */
  lemma {:induction false} DropInactiveKeepsLast(ids: seq<RunId>, last: RunId, live: set<RunId>, m: nat)
    requires last in live
    ensures DropInactive(ids + [last], live, m) == DropInactive(ids, live, m) + [last]
  {
    if ids != [] && m > 0 {
      assert (ids + [last])[1..] == ids[1..] + [last];
      DropInactiveKeepsLast(ids[1..], last, live, if ids[0] in live then m else m - 1);
    } else if ids == [] {
      assert [] + [last] == [last] && [last][1..] == [];
    }
  }

  lemma {:induction false} DropInactiveKeepsOrder(ids: seq<RunId>, live: set<RunId>, m: nat)
    requires NoDups(ids)
    ensures NoDups(DropInactive(ids, live, m))
    ensures forall x :: x in DropInactive(ids, live, m) ==> x in ids
    ensures forall x :: x in ids && x in live ==> x in DropInactive(ids, live, m)
  {
    if ids != [] && m > 0 {
      DropInactiveKeepsOrder(ids[1..], live, if ids[0] in live then m else m - 1);
      assert ids[0] !in ids[1..];
      assert forall x :: x in ids <==> x == ids[0] || x in ids[1..];
    }
  }

  function RemoveAll(ids: seq<RunId>, xs: seq<RunId>): seq<RunId> {
    if xs == [] then ids else WithoutFirst(RemoveAll(ids, xs[..|xs| - 1]), xs[|xs| - 1])
  }

  /** The first m inactive entries, oldest first. */
  function Oldest(ids: seq<RunId>, live: set<RunId>, n: nat): seq<RunId>
    requires n <= |ids|
  {
    if n == 0 then [] else Oldest(ids, live, n - 1) + if ids[n - 1] in live then [] else [ids[n - 1]]
  }

  /** _trim_runs: collect the oldest inactive ids until few enough would remain, then remove them one by one. */
  method TrimRuns(ids: seq<RunId>, live: set<RunId>, retain: Option<int>) returns (kept: seq<RunId>)
    requires NoDups(ids)
    ensures kept == Trimmed(ids, live, retain)
    ensures kept == if retain == None || retain.value < 0 || |ids| <= retain.value then ids
                    else Survivors(ids, live, |ids| - retain.value, |ids|)
  {
    hide DropInactive, Survivors, NoDups;
    if retain.Some? && 0 <= retain.value < |ids| {
      DropInactiveIsSurvivors(ids, live, |ids| - retain.value);
    }
    if retain == None || retain.value < 0 || |ids| <= retain.value {
      return ids;
    }
    var trimmed := CollectOldest(ids, live, retain.value);
    kept := RemoveEach(ids, trimmed);
  }

  /** The first loop: the oldest inactive ids, until few enough others remain. */
  method CollectOldest(ids: seq<RunId>, live: set<RunId>, retain: nat) returns (trimmed: seq<RunId>)
    requires NoDups(ids) && retain < |ids|
    ensures RemoveAll(ids, trimmed) == DropInactive(ids, live, |ids| - retain)
  {
    hide NoDups, RemoveAll, DropInactive;
    trimmed := [];
    var n := 0;
    while n < |ids|
      invariant n <= |ids| && trimmed == Oldest(ids, live, n)
      invariant |trimmed| < |ids| - retain
    {
      if ids[n] !in live {
        trimmed := trimmed + [ids[n]];
      }
      n := n + 1;
      if |ids| - |trimmed| <= retain {
        break;
      }
    }
    OldestEnough(ids, live, n, |ids| - retain);
  }

  /** The second loop: list.remove for each id. */
  method RemoveEach(ids: seq<RunId>, xs: seq<RunId>) returns (kept: seq<RunId>)
    ensures kept == RemoveAll(ids, xs)
  {
    kept := ids;
    for i := 0 to |xs|
      invariant kept == RemoveAll(ids, xs[..i])
    {
      assert xs[..i + 1][..i] == xs[..i];
      kept := WithoutFirst(kept, xs[i]);
    }
    assert xs[..|xs|] == xs;
  }

  lemma OldestEnough(ids: seq<RunId>, live: set<RunId>, n: nat, surplus: nat)
    requires NoDups(ids) && n <= |ids|
    requires |Oldest(ids, live, n)| == surplus || (n == |ids| && |Oldest(ids, live, n)| < surplus)
    ensures RemoveAll(ids, Oldest(ids, live, n)) == DropInactive(ids, live, surplus)
  {
    hide NoDups, RemoveAll, DropInactive, Oldest;
    RemovingOldest(ids, live, n);
    if |Oldest(ids, live, n)| < surplus {
      OldestSize(ids, live, n);
      assert ids[..n] == ids;
      DropFewer(ids, live, |Oldest(ids, live, n)|, surplus);
    }
  }

  lemma {:induction false} OldestSize(ids: seq<RunId>, live: set<RunId>, n: nat)
    requires n <= |ids|
    ensures |Oldest(ids, live, n)| == n - LiveCount(ids[..n], live)
  {
    if n > 0 {
      OldestSize(ids, live, n - 1);
      assert ids[..n] == ids[..n - 1] + [ids[n - 1]];
      LiveCountAppend(ids[..n - 1], [ids[n - 1]], live);
    }
  }

  /** Asking for more than there is to drop changes nothing. */
  lemma {:induction false} DropFewer(ids: seq<RunId>, live: set<RunId>, m: nat, m': nat)
    requires |ids| - LiveCount(ids, live) <= m <= m'
    ensures DropInactive(ids, live, m) == DropInactive(ids, live, m')
  {
    if ids != [] {
      LiveCountMonotone(ids[1..], live, live);
      if ids[0] in live {
        DropFewer(ids[1..], live, m, m');
        if m == 0 { AllLiveDropsNothing(ids, live, m'); }
      } else {
        DropFewer(ids[1..], live, m - 1, m' - 1);
      }
    }
  }

  lemma {:induction false} AllLiveDropsNothing(ids: seq<RunId>, live: set<RunId>, m: nat)
    requires LiveCount(ids, live) >= |ids|
    ensures DropInactive(ids, live, m) == ids
  {
    if ids != [] {
      LiveCountMonotone(ids[1..], live, live);
      AllLiveDropsNothing(ids[1..], live, m);
    }
  }

  /** Removing the inactive entries among the first n one by one is dropping that many inactive entries. */
  lemma {:induction false} RemovingOldest(ids: seq<RunId>, live: set<RunId>, n: nat)
    requires NoDups(ids) && n <= |ids|
    ensures RemoveAll(ids, Oldest(ids, live, n)) == DropInactive(ids, live, |Oldest(ids, live, n)|)
  {
    hide NoDups, DropInactive, WithoutFirst, LiveCount, RemoveAll;
    if n > 0 {
      RemovingOldest(ids, live, n - 1);
      var before := Oldest(ids, live, n - 1);
      if ids[n - 1] !in live {
        RemoveOneMore(ids, before, ids[n - 1]);
        OldestSize(ids, live, n - 1);
        DropOneMore(ids, live, |before|, n - 1);
      } else {
        assert Oldest(ids, live, n) == before;
      }
    } else {
      RemoveNone(ids, live);
    }
  }

  lemma RemoveOneMore(ids: seq<RunId>, xs: seq<RunId>, x: RunId)
    ensures RemoveAll(ids, xs + [x]) == WithoutFirst(RemoveAll(ids, xs), x)
  {
    assert (xs + [x])[..|xs|] == xs;
  }

  lemma RemoveNone(ids: seq<RunId>, live: set<RunId>)
    ensures RemoveAll(ids, []) == ids == DropInactive(ids, live, 0)
  {
  }

  /** Dropping one inactive entry more removes the next inactive entry of the list. */
  lemma {:induction false} DropOneMore(ids: seq<RunId>, live: set<RunId>, m: nat, i: nat)
    requires NoDups(ids) && i < |ids| && ids[i] !in live && i - LiveCount(ids[..i], live) == m
    ensures WithoutFirst(DropInactive(ids, live, m), ids[i]) == DropInactive(ids, live, m + 1)
  {
    if i > 0 {
      var rest := ids[1..];
      assert rest[i - 1] == ids[i] && ids[0] != ids[i];
      assert ids[..i] == [ids[0]] + rest[..i - 1];
      LiveCountAppend([ids[0]], rest[..i - 1], live);
      LiveCountMonotone(rest[..i - 1], live, live);
      if ids[0] in live {
        DropOneMore(rest, live, m, i - 1);
        if m == 0 {
          assert DropInactive(rest, live, 0) == rest && DropInactive(ids, live, 0) == ids;
        }
      } else {
        DropOneMore(rest, live, m - 1, i - 1);
      }
    }
  }
}
