/** What JobStore.cleanup keeps: an order-free specification of the TTL and keep-last-N rules. */
module Retention {
  import opened Basics

  datatype Limits = Limits(retainLastN: Option<int>, ttl: Option<Time>)

  /** The part of a run that cleanup looks at: whether it is pending/running, and its finish time. */
  datatype Entry = Entry(active: bool, finishedAt: Option<Time>)

  type Table = map<RunId, Entry>

  /** The sort key of a completed run. */
  datatype Stamp = Stamp(at: Time, id: RunId)

  /** Tuple comparison (finished_at, run_id). */
  predicate Before(x: Stamp, y: Stamp) {
    x.at < y.at || (x.at == y.at && LexLess(x.id, y.id))
  }

  lemma BeforeIsStrictTotal(x: Stamp, y: Stamp)
    ensures !(Before(x, y) && Before(y, x))
    ensures x == y || Before(x, y) || Before(y, x)
  {
    LexTotal(x.id, y.id);
    LexIrreflexive(x.id);
    if LexLess(x.id, y.id) && LexLess(y.id, x.id) {
      LexTransitive(x.id, y.id, x.id);
    }
  }

  lemma BeforeTransitive(x: Stamp, y: Stamp, z: Stamp)
    requires Before(x, y) && Before(y, z)
    ensures Before(x, z)
  {
    if x.at == y.at == z.at {
      LexTransitive(x.id, y.id, z.id);
    }
  }

  /** Every completed run carries a finish time; the kernel proves this of every reachable store. */
  ghost predicate Stamped(runs: Table) {
    forall id :: id in runs && !runs[id].active ==> runs[id].finishedAt.Some?
  }

  ghost function StampOf(runs: Table, id: RunId): Stamp
    requires Stamped(runs) && id in runs && !runs[id].active
  {
    Stamp(runs[id].finishedAt.value, id)
  }

  ghost function Completed(runs: Table): set<Stamp>
    requires Stamped(runs)
  {
    set id | id in runs && !runs[id].active :: StampOf(runs, id)
  }

  predicate Expired(limits: Limits, now: Time, x: Stamp) {
    limits.ttl.Some? && now - x.at >= limits.ttl.value
  }

  predicate CapsCount(limits: Limits) {
    limits.retainLastN.Some? && limits.retainLastN.value >= 0
  }

  ghost function Above(stamps: set<Stamp>, x: Stamp): set<Stamp> {
    set y | y in stamps && Before(x, y)
  }

  /** x is among the N greatest of the stamps. */
  ghost predicate InTop(limits: Limits, stamps: set<Stamp>, x: Stamp) {
    CapsCount(limits) ==> |Above(stamps, x)| < limits.retainLastN.value
  }

  ghost predicate Survives(limits: Limits, runs: Table, now: Time, id: RunId)
    requires Stamped(runs) && id in runs
  {
    runs[id].active
    || (!Expired(limits, now, StampOf(runs, id)) && InTop(limits, Completed(runs), StampOf(runs, id)))
  }

  /** The ids cleanup keeps. */
  ghost function Kept(limits: Limits, runs: Table, now: Time): set<RunId>
    requires Stamped(runs)
  {
    set id | id in runs && Survives(limits, runs, now, id)
  }

  ghost function Restrict(runs: Table, ids: set<RunId>): Table {
    map id | id in runs && id in ids :: runs[id]
  }

  // ---------------------------------------------------------------- what that comes to, run by run

  /** The completed runs that finished later than run id, or at the same time with a greater id. */
  ghost function Newer(runs: Table, id: RunId): set<RunId>
    requires Stamped(runs) && id in runs && !runs[id].active
  {
    set other | other in runs && !runs[other].active
                && (runs[other].finishedAt.value > runs[id].finishedAt.value
                    || (runs[other].finishedAt == runs[id].finishedAt && LexLess(id, other)))
  }

  /** Active runs stay; a completed one must be younger than the TTL and have fewer than N newer ones. */
  ghost predicate MustStay(limits: Limits, runs: Table, now: Time, id: RunId)
    requires Stamped(runs) && id in runs
  {
    runs[id].active
    || (&& (limits.ttl == None || now - runs[id].finishedAt.value < limits.ttl.value)
        && (limits.retainLastN == None || limits.retainLastN.value < 0
            || |Newer(runs, id)| < limits.retainLastN.value))
  }

  /** As many ids as stamps. */
  lemma {:induction false} StampsOfIds(runs: Table, ids: set<RunId>)
    requires Stamped(runs) && forall id :: id in ids ==> id in runs && !runs[id].active
    ensures |set id | id in ids && id in runs && !runs[id].active :: StampOf(runs, id)| == |ids|
    decreases |ids|
  {
    var stamps := set id | id in ids && id in runs && !runs[id].active :: StampOf(runs, id);
    if ids == {} {
      assert stamps == {};
    } else {
      var id :| id in ids;
      var rest := ids - {id};
      StampsOfIds(runs, rest);
      var others := set x | x in rest && x in runs && !runs[x].active :: StampOf(runs, x);
      assert StampOf(runs, id) !in others;
      assert stamps == others + {StampOf(runs, id)};
    }
  }

  lemma NewerIsAbove(runs: Table, id: RunId)
    requires Stamped(runs) && id in runs && !runs[id].active
    ensures |Newer(runs, id)| == |Above(Completed(runs), StampOf(runs, id))|
  {
    var ids := Newer(runs, id);
    var stamps := set x | x in ids && x in runs && !runs[x].active :: StampOf(runs, x);
    StampsOfIds(runs, ids);
    forall y | y in Above(Completed(runs), StampOf(runs, id)) ensures y in stamps {
      assert y.id in ids && StampOf(runs, y.id) == y;
    }
    assert Above(Completed(runs), StampOf(runs, id)) == stamps;
  }

  lemma KeptMustStay(limits: Limits, runs: Table, now: Time, id: RunId)
    requires Stamped(runs) && id in runs
    ensures id in Kept(limits, runs, now) <==> MustStay(limits, runs, now, id)
  {
    hide Above, Newer, Completed;
    if !runs[id].active { NewerIsAbove(runs, id); }
  }

  // ---------------------------------------------------------------- the two rules commute

  ghost function Young(limits: Limits, now: Time, stamps: set<Stamp>): set<Stamp> {
    set x | x in stamps && !Expired(limits, now, x)
  }

  ghost function Top(limits: Limits, stamps: set<Stamp>): set<Stamp> {
    set x | x in stamps && InTop(limits, stamps, x)
  }

  /** Dropping the expired runs first and then the surplus, or the other way round, keeps the same runs. */
  lemma RulesCommute(limits: Limits, now: Time, stamps: set<Stamp>)
    ensures Top(limits, Young(limits, now, stamps)) == Young(limits, now, Top(limits, stamps))
  {
    forall x | x in Young(limits, now, stamps)
      ensures Above(Young(limits, now, stamps), x) == Above(stamps, x)
    {
    }
  }

  lemma KeptIsBothRules(limits: Limits, runs: Table, now: Time)
    requires Stamped(runs)
    ensures forall id :: id in runs && !runs[id].active ==>
              (id in Kept(limits, runs, now)
               <==> StampOf(runs, id) in Top(limits, Young(limits, now, Completed(runs))))
    ensures forall id :: id in runs && runs[id].active ==> id in Kept(limits, runs, now)
    ensures forall id :: id in runs ==> (id in Kept(limits, runs, now) <==> MustStay(limits, runs, now, id))
  {
    forall id | id in runs ensures id in Kept(limits, runs, now) <==> MustStay(limits, runs, now, id) {
      KeptMustStay(limits, runs, now, id);
    }
    hide MustStay;
    RulesCommute(limits, now, Completed(runs));
    forall id | id in runs && !runs[id].active
      ensures id in Kept(limits, runs, now)
              <==> StampOf(runs, id) in Top(limits, Young(limits, now, Completed(runs)))
    {
      assert StampOf(runs, id) in Completed(runs);
    }
  }

  /** A second pass at the same time removes nothing. */
  lemma CleanupIdempotent(limits: Limits, runs: Table, now: Time)
    requires Stamped(runs)
    ensures var kept := Kept(limits, runs, now);
            Stamped(Restrict(runs, kept)) && Kept(limits, Restrict(runs, kept), now) == kept
  {
    var kept := Kept(limits, runs, now);
    var after := Restrict(runs, kept);
    forall id | id in kept
      ensures Survives(limits, after, now, id)
    {
      if !runs[id].active {
        var x := StampOf(runs, id);
        assert Completed(after) <= Completed(runs);
        SubsetCardinality(Above(Completed(after), x), Above(Completed(runs), x));
      }
    }
  }

  // ---------------------------------------------------------------- sorting and slicing

  ghost predicate Descending(xs: seq<Stamp>) {
    forall i, j :: 0 <= i < j < |xs| ==> Before(xs[j], xs[i])
  }

  function Insert(x: Stamp, xs: seq<Stamp>): seq<Stamp> {
    if xs == [] || Before(xs[0], x) then [x] + xs else [xs[0]] + Insert(x, xs[1..])
  }

  /** list.sort(reverse=True) on pairs whose ids are distinct. */
  function SortDescending(xs: seq<Stamp>): seq<Stamp> {
    if xs == [] then [] else Insert(xs[0], SortDescending(xs[1..]))
  }

  lemma {:induction false} InsertDescending(x: Stamp, xs: seq<Stamp>)
    requires Descending(xs) && x !in xs
    ensures Descending(Insert(x, xs))
    ensures multiset(Insert(x, xs)) == multiset(xs) + multiset{x}
  {
    if xs == [] {
    } else if Before(xs[0], x) {
      forall j | 0 <= j < |xs| ensures Before(xs[j], x) {
        if j > 0 { BeforeTransitive(xs[j], xs[0], x); }
      }
      assert multiset([x] + xs) == multiset{x} + multiset(xs);
    } else {
      assert xs == [xs[0]] + xs[1..];
      InsertDescending(x, xs[1..]);
      BeforeIsStrictTotal(x, xs[0]);
      var rest := Insert(x, xs[1..]);
      forall y | y in rest ensures Before(y, xs[0]) {
        assert y in multiset(rest);
        assert y == x || y in multiset(xs[1..]);
      }
    }
  }

  lemma {:induction false} SortDescendingCorrect(xs: seq<Stamp>)
    requires NoDups(xs)
    ensures Descending(SortDescending(xs))
    ensures multiset(SortDescending(xs)) == multiset(xs)
  {
    if xs != [] {
      SortDescendingCorrect(xs[1..]);
      assert xs == [xs[0]] + xs[1..];
      assert xs[0] !in SortDescending(xs[1..]) by {
        assert xs[0] !in xs[1..];
        assert xs[0] !in multiset(xs[1..]);
      }
      InsertDescending(xs[0], SortDescending(xs[1..]));
    }
  }

  /** In a strictly descending list the element at index i has exactly i elements above it. */
  lemma RankIsIndex(xs: seq<Stamp>, i: nat)
    requires Descending(xs) && i < |xs|
    ensures |Above(Elems(xs), xs[i])| == i
  {
    forall j | 0 <= j < |xs|
      ensures Before(xs[i], xs[j]) <==> j < i
    {
      BeforeIsStrictTotal(xs[i], xs[j]);
    }
    assert Above(Elems(xs), xs[i]) == Elems(xs[..i]);
    forall a, b | 0 <= a < b < i ensures xs[..i][a] != xs[..i][b] {
      BeforeIsStrictTotal(xs[a], xs[b]);
    }
    NoDupsCardinality(xs[..i]);
  }
}
