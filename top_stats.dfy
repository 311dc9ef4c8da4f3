/** Counting of a creature's top stats, in the two conventions used by the
    library view (only highlighted stats, torpor included) and by the breeding
    planner (every stat except torpor). */
module TopStats {
  import opened Primitives

  /** Stats in order: Health, Stamina, Oxygen, Food, Weight, MeleeDamage,
      Speed, Torpor. */
  const StatCount: nat := 8
  const TorporIndex: nat := 7

  /** The counting loop reads `consider[s]` only for flagged stats; it can run
      over the first `n` stats when both arrays are long enough there. */
  ghost predicate ScannableUpTo(top: seq<bool>, consider: seq<bool>, n: nat) {
    n <= |top| && forall s :: 0 <= s < n && top[s] ==> s < |consider|
  }

  /** Number of flagged stats among the first `n`, torpor excluded. */
  function BreedingPlannerCount(top: seq<bool>, n: nat): (r: nat)
    requires n <= |top|
    ensures r <= n && r <= TorporIndex
  {
    if n == 0 then 0
    else BreedingPlannerCount(top, n - 1) + (if top[n - 1] && n - 1 < TorporIndex then 1 else 0)
  }

  /** Number of stats among the first `n` that are both flagged and
      highlighted by the caller. */
  function HighlightCount(top: seq<bool>, consider: seq<bool>, n: nat): (r: nat)
    requires ScannableUpTo(top, consider, n)
    ensures r <= n
  {
    if n == 0 then 0
    else HighlightCount(top, consider, n - 1) + (if top[n - 1] && consider[n - 1] then 1 else 0)
  }

  /** The stat indices the breeding planner counts. */
  ghost function BreedingPlannerStats(top: seq<bool>, n: nat): set<nat> {
    set s: nat | s < n && s < |top| && s < TorporIndex && top[s]
  }

  /** The stat indices the library view counts. */
  ghost function HighlightedStats(top: seq<bool>, consider: seq<bool>, n: nat): set<nat> {
    set s: nat | s < n && s < |top| && s < |consider| && top[s] && consider[s]
  }

  /** The breeding-planner count is the number of flagged stats other than
      torpor. */
  lemma {:induction false} BreedingPlannerCountIsCardinality(top: seq<bool>, n: nat)
    requires n <= |top|
    ensures BreedingPlannerCount(top, n) == |BreedingPlannerStats(top, n)|
  {
    if n > 0 {
      BreedingPlannerCountIsCardinality(top, n - 1);
      var prev := BreedingPlannerStats(top, n - 1);
      if top[n - 1] && n - 1 < TorporIndex {
        assert BreedingPlannerStats(top, n) == prev + {n - 1};
      } else {
        assert BreedingPlannerStats(top, n) == prev;
      }
    }
  }

  /** The library-view count is the number of stats both flagged and
      highlighted. */
  lemma {:induction false} HighlightCountIsCardinality(top: seq<bool>, consider: seq<bool>, n: nat)
    requires ScannableUpTo(top, consider, n)
    ensures HighlightCount(top, consider, n) == |HighlightedStats(top, consider, n)|
  {
    if n > 0 {
      HighlightCountIsCardinality(top, consider, n - 1);
      var prev := HighlightedStats(top, consider, n - 1);
      if top[n - 1] && consider[n - 1] {
        assert HighlightedStats(top, consider, n) == prev + {n - 1};
      } else {
        assert HighlightedStats(top, consider, n) == prev;
      }
    }
  }

  /** Torpor never changes the breeding-planner count. */
  lemma TorporNotCounted(top: seq<bool>, flag: bool)
    requires |top| == StatCount
    ensures BreedingPlannerCount(top[TorporIndex := flag], StatCount) == BreedingPlannerCount(top, StatCount)
  {
    var top' := top[TorporIndex := flag];
    assert top'[..TorporIndex] == top[..TorporIndex];
    PlannerCountDependsOnPrefix(top, top', TorporIndex);
  }

  lemma {:induction false} PlannerCountDependsOnPrefix(a: seq<bool>, b: seq<bool>, n: nat)
    requires n <= |a| && n <= |b| && a[..n] == b[..n]
    ensures BreedingPlannerCount(a, n) == BreedingPlannerCount(b, n)
  {
    if n > 0 {
      assert a[..n - 1] == b[..n - 1];
      assert a[n - 1] == a[..n][n - 1];
      PlannerCountDependsOnPrefix(a, b, n - 1);
    }
  }

  /** When every stat is highlighted, the library view counts what the
      breeding planner counts, plus torpor when it is flagged. */
  lemma {:induction false} AllHighlightedCount(top: seq<bool>, consider: seq<bool>, n: nat)
    requires n <= StatCount && n <= |top| && n <= |consider|
    requires forall s :: 0 <= s < n ==> consider[s]
    ensures HighlightCount(top, consider, n)
      == BreedingPlannerCount(top, n) + (if TorporIndex < n && top[TorporIndex] then 1 else 0)
  {
    if n > 0 {
      AllHighlightedCount(top, consider, n - 1);
      assert consider[n - 1];
      assert HighlightCount(top, consider, n)
        == HighlightCount(top, consider, n - 1) + (if top[n - 1] then 1 else 0);
    }
  }

  /** The two counts of one scan. */
  datatype TopStatCounts = TopStatCounts(highlighted: Int16, breedingPlanner: Int16)

  /** The loop of `setTopStatCount`: over the eight stats, counts flagged
      stats other than torpor, and flagged stats the caller highlights. An
      index past the end of either array raises an exception in the source,
      which abandons the scan: the result is then `None`. */
  method CountTopStats(top: array<bool>, consider: array<bool>) returns (r: Option<TopStatCounts>)
    ensures r.None? <==> !ScannableUpTo(top[..], consider[..], StatCount)
    ensures r.Some? ==> r.value.highlighted == HighlightCount(top[..], consider[..], StatCount)
    ensures r.Some? ==> r.value.breedingPlanner == BreedingPlannerCount(top[..], StatCount)
  {
    var c, cBP := 0, 0;
    for s := 0 to StatCount
      invariant ScannableUpTo(top[..], consider[..], s)
      invariant c == HighlightCount(top[..], consider[..], s)
      invariant cBP == BreedingPlannerCount(top[..], s)
    {
      if s >= top.Length {
        return None;
      }
      if top[s] {
        if s < TorporIndex {
          cBP := cBP + 1;
        }
        if s >= consider.Length {
          return None;
        }
        if consider[s] {
          c := c + 1;
        }
      }
    }
    r := Some(TopStatCounts(c, cBP));
  }

  /** Seven flagged stats without torpor, all highlighted, count seven in
      both conventions. */
  lemma SevenTopStatsExample()
    ensures var top := [true, true, true, true, true, true, true, false];
      && BreedingPlannerCount(top, StatCount) == 7
      && HighlightCount(top, [true, true, true, true, true, true, true, true], StatCount) == 7
  {
    var top := [true, true, true, true, true, true, true, false];
    AllHighlightedCount(top, [true, true, true, true, true, true, true, true], StatCount);
  }
}
