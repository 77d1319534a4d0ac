/**
Strided recovery lanes: every lane owns each `count`-th index of a window of the source
list, ships it as a sparse manifest, and the runner finds its input by binary search.
*/
module Lanes {
  import opened Wrappers

  const SOURCE_TASK_COUNT: nat := 100_000
  const REUSED_SOURCE_PREFIX_COUNT: nat := 11_000
  const PROCESSING_TASK_COUNT: nat := SOURCE_TASK_COUNT - REUSED_SOURCE_PREFIX_COUNT
  const INPUT_KIND := "growthsent-cloudflare-r2-standard1-regional-inputs-v1"
  const START_SPACING_SECONDS := 5

  // ---------------------------------------------------------------- the stride

  /** `lane_task_count`. */
  function LaneTaskCount(total: nat, lane: nat, count: nat): nat
    requires count > 0
  {
    if total <= lane then 0 else (total - 1 - lane) / count + 1
  }

  /** Python's `list(range(from, to, step))`. */
  function Range(from: nat, end: nat, step: nat): seq<nat>
    requires step > 0
    decreases end - from
  {
    if from >= end then [] else [from] + Range(from + step, end, step)
  }

  lemma Minus(a: int, b: int, c: int)
    ensures (a - b) * c == a * c - b * c
  {
  }

  lemma AtLeastOnce(k: int, c: nat)
    requires k >= 1
    ensures k * c >= c
  {
    Minus(k, 1, c);
  }

  /** Quotient and remainder are unique. */
  lemma Unique(a: int, r: nat, b: int, s: nat, c: nat)
    requires r < c && s < c && a * c + r == b * c + s
    ensures a == b && r == s
  {
    if a < b {
      Minus(b, a, c);
      AtLeastOnce(b - a, c);
    } else if b < a {
      Minus(a, b, c);
      AtLeastOnce(a - b, c);
    }
  }

  lemma DivStep(x: nat, c: nat)
    requires c > 0 && x >= c
    ensures x / c == (x - c) / c + 1
  {
    var y := x - c;
    assert x == c * (x / c) + x % c && y == c * (y / c) + y % c;
    Unique(x / c, x % c, y / c + 1, y % c, c);
  }

  lemma {:induction false} RangeIs(from: nat, end: nat, step: nat)
    requires step > 0
    ensures |Range(from, end, step)| == if from >= end then 0 else (end - 1 - from) / step + 1
    ensures forall i: nat | i < |Range(from, end, step)| :: Range(from, end, step)[i] == from + i * step
    decreases end - from
  {
    if from < end {
      var rest := Range(from + step, end, step);
      RangeIs(from + step, end, step);
      if from + step < end {
        DivStep(end - 1 - from, step);
      } else {
        assert (end - 1 - from) / step == 0 by {
          DivZero(end - 1 - from, step);
        }
      }
      forall i: nat | i < |Range(from, end, step)|
        ensures Range(from, end, step)[i] == from + i * step
      {
        if i > 0 {
          assert rest[i - 1] == from + step + (i - 1) * step;
          assert (i - 1) * step + step == i * step;
        }
      }
    }
  }

  lemma DivZero(x: nat, c: nat)
    requires x < c
    ensures x / c == 0
  {
  }

  /** The indexes of a lane, and that the bundle builder's own length check never fires. */
  function LaneIndexes(start: nat, total: nat, lane: nat, count: nat): (r: seq<nat>)
    requires count > 0
    ensures |r| == LaneTaskCount(total, lane, count)
    ensures forall i: nat | i < |r| :: r[i] == start + lane + i * count
  {
    RangeIs(start + lane, start + total, count);
    Range(start + lane, start + total, count)
  }

  /** The lane that owns an index of the window. */
  function LaneOf(start: nat, count: nat, index: nat): (lane: nat)
    requires count > 0 && start <= index
    ensures lane < count
  {
    (index - start) % count
  }

  lemma Ascending(start: nat, total: nat, lane: nat, count: nat, i: nat, j: nat)
    requires count > 0 && i < j < LaneTaskCount(total, lane, count)
    ensures LaneIndexes(start, total, lane, count)[i] < LaneIndexes(start, total, lane, count)[j]
  {
    Minus(j, i, count);
    AtLeastOnce(j - i, count);
  }

  lemma InWindow(start: nat, total: nat, lane: nat, count: nat, i: nat)
    requires count > 0 && i < LaneTaskCount(total, lane, count)
    ensures start <= LaneIndexes(start, total, lane, count)[i] < start + total
    ensures lane < count ==> LaneOf(start, count, LaneIndexes(start, total, lane, count)[i]) == lane
  {
    var q := (total - 1 - lane) / count;
    assert q * count <= total - 1 - lane;
    assert i * count <= q * count;
    if lane < count {
      ModOf(lane, i, count);
    }
  }

  lemma ModOf(lane: nat, i: nat, count: nat)
    requires lane < count
    ensures (lane + i * count) % count == lane
  {
    var x := lane + i * count;
    assert x == count * (x / count) + x % count;
    Unique(i, lane, x / count, x % count, count);
  }

  /** An index belongs to a lane's list exactly when it is in the window and the lane is its own. */
  lemma LaneHas(start: nat, total: nat, lane: nat, count: nat, index: nat)
    requires lane < count
    ensures index in LaneIndexes(start, total, lane, count)
            <==> start <= index < start + total && LaneOf(start, count, index) == lane
  {
    var indexes := LaneIndexes(start, total, lane, count);
    if index in indexes {
      var i: nat :| i < |indexes| && indexes[i] == index;
      InWindow(start, total, lane, count, i);
    }
    if start <= index < start + total && LaneOf(start, count, index) == lane {
      var i := (index - start) / count;
      QuotientOf(index - start, count);
      assert index - start == i * count + lane;
      AtLeast(i, total - 1 - lane, count);
      assert indexes[i] == index;
    }
  }

  lemma QuotientOf(x: nat, c: nat)
    requires c > 0
    ensures x == (x / c) * c + x % c
  {
  }

  lemma AtLeast(i: nat, y: nat, c: nat)
    requires c > 0 && i * c <= y
    ensures i <= y / c
  {
    QuotientOf(y, c);
    if i > y / c {
      Minus(i, y / c, c);
      AtLeastOnce(i - y / c, c);
    }
  }

  // ---------------------------------------------------------------- the counts add up

  /** How many of the first `total` window offsets fall to a lane. */
  function Owned(total: nat, lane: nat, count: nat): nat
    requires count > 0
  {
    if total == 0 then 0 else Owned(total - 1, lane, count) + if (total - 1) % count == lane then 1 else 0
  }

  lemma PreviousQuotient(x: nat, c: nat)
    requires c > 0 && x > 0
    ensures (x - 1) / c == if x % c == 0 then x / c - 1 else x / c
  {
    QuotientOf(x, c);
    QuotientOf(x - 1, c);
    if x % c == 0 {
      Minus(x / c, 1, c);
      Unique(x / c - 1, c - 1, (x - 1) / c, (x - 1) % c, c);
    } else {
      Unique(x / c, x % c - 1, (x - 1) / c, (x - 1) % c, c);
    }
  }

  lemma SameResidue(t: nat, lane: nat, c: nat)
    requires lane < c && lane <= t
    ensures (t - lane) % c == 0 <==> t % c == lane
  {
    QuotientOf(t, c);
    QuotientOf(t - lane, c);
    if t % c == lane {
      Unique(t / c, 0, (t - lane) / c, (t - lane) % c, c);
    }
    if (t - lane) % c == 0 {
      Unique((t - lane) / c, lane, t / c, t % c, c);
    }
  }

  /** One more task goes to the lane its offset names, and to no other. */
  lemma TaskCountStep(t: nat, lane: nat, count: nat)
    requires lane < count
    ensures LaneTaskCount(t + 1, lane, count) == LaneTaskCount(t, lane, count) + if t % count == lane then 1 else 0
  {
    if t < lane {
      SmallMod(t, count);
    } else {
      SameResidue(t, lane, count);
      if t > lane {
        PreviousQuotient(t - lane, count);
      } else {
        DivZero(0, count);
      }
    }
  }

  lemma SmallMod(t: nat, c: nat)
    requires t < c
    ensures t % c == t
  {
  }

  lemma {:induction false} OwnedIsTaskCount(total: nat, lane: nat, count: nat)
    requires lane < count
    ensures Owned(total, lane, count) == LaneTaskCount(total, lane, count)
  {
    if total > 0 {
      OwnedIsTaskCount(total - 1, lane, count);
      TaskCountStep(total - 1, lane, count);
    }
  }

  function SumOwned(total: nat, lanes: nat, count: nat): nat
    requires count > 0
  {
    if lanes == 0 then 0 else SumOwned(total, lanes - 1, count) + Owned(total, lanes - 1, count)
  }

  lemma {:induction false} SumStep(total: nat, lanes: nat, count: nat)
    requires count > 0
    ensures SumOwned(total + 1, lanes, count) == SumOwned(total, lanes, count) + if total % count < lanes then 1 else 0
  {
    if lanes > 0 {
      SumStep(total, lanes - 1, count);
    }
  }

  lemma {:induction false} SumOwnedIs(total: nat, count: nat)
    requires count > 0
    ensures SumOwned(total, count, count) == total
  {
    if total > 0 {
      SumOwnedIs(total - 1, count);
      SumStep(total - 1, count, count);
    } else {
      NothingOwned(count, count);
    }
  }

  lemma {:induction false} NothingOwned(lanes: nat, count: nat)
    requires count > 0
    ensures SumOwned(0, lanes, count) == 0
  {
    if lanes > 0 {
      NothingOwned(lanes - 1, count);
    }
  }

  function SumCounts(total: nat, lanes: nat, count: nat): nat
    requires count > 0
  {
    if lanes == 0 then 0 else SumCounts(total, lanes - 1, count) + LaneTaskCount(total, lanes - 1, count)
  }

  lemma {:induction false} SumCountsAreOwned(total: nat, lanes: nat, count: nat)
    requires lanes <= count && count > 0
    ensures SumCounts(total, lanes, count) == SumOwned(total, lanes, count)
  {
    if lanes > 0 {
      SumCountsAreOwned(total, lanes - 1, count);
      OwnedIsTaskCount(total, lanes - 1, count);
    }
  }

  /** Over all lanes the task counts sum to the window, for every window and number of lanes. */
  lemma CountsSumToWindow(total: nat, count: nat)
    requires count > 0
    ensures SumCounts(total, count, count) == total
  {
    SumCountsAreOwned(total, count, count);
    SumOwnedIs(total, count);
  }
}
