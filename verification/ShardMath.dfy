/** The arithmetic of contiguous shards, for all totals and counts. */
module ShardMath {
  import opened Wrappers

  datatype BoundsError = TooFewInputs | TooFewShards | TooManyShards | NoSuchShard

  function Min(a: int, b: int): int {
    if a <= b then a else b
  }

  /** Where shard `id` starts; for `id == count` the end of the range. */
  function Start(total: nat, count: nat, id: nat): nat
    requires count > 0
  {
    id * (total / count) + Min(id, total % count)
  }

  function Size(total: nat, count: nat, id: nat): nat
    requires count > 0
  {
    total / count + if id < total % count then 1 else 0
  }

  /** `shard_bounds`, with its refusals. */
  function ShardBounds(total: int, count: int, id: int): (r: Result<(nat, nat), BoundsError>)
    ensures r.Success? <==> 1 <= count <= total && 0 <= id < count
    ensures r == Failure(TooFewInputs) <==> total < 1
    ensures r == Failure(TooManyShards) <==> 1 <= total < count
    ensures r.Success? ==> r.value == (Start(total, count, id), Start(total, count, id + 1))
  {
    if total < 1 then Failure(TooFewInputs)
    else if count < 1 then Failure(TooFewShards)
    else if count > total then Failure(TooManyShards)
    else if id < 0 || id >= count then Failure(NoSuchShard)
    else
      Contiguous(total, count, id);
      Success((Start(total, count, id), Start(total, count, id) + Size(total, count, id)))
  }

  lemma Times(id: nat, q: nat)
    ensures (id + 1) * q == id * q + q
  {
  }

  /** Each shard ends where the next one starts. */
  lemma Contiguous(total: nat, count: nat, id: nat)
    requires count > 0
    ensures Start(total, count, id) + Size(total, count, id) == Start(total, count, id + 1)
  {
    Times(id, total / count);
  }

  lemma Cover(total: nat, count: nat)
    requires count > 0
    ensures Start(total, count, 0) == 0 && Start(total, count, count) == total
  {
    assert count * (total / count) + total % count == total;
  }

  lemma {:induction false} StartMonotone(total: nat, count: nat, i: nat, j: nat)
    requires 0 < count && i <= j
    ensures Start(total, count, i) <= Start(total, count, j)
    decreases j - i
  {
    if i < j {
      Contiguous(total, count, i);
      StartMonotone(total, count, i + 1, j);
    }
  }

  lemma QuotientPositive(total: nat, count: nat)
    requires 0 < count <= total
    ensures total / count >= 1
  {
    assert total == count * (total / count) + total % count;
  }

  /**
   * For every total and count the slices are non-empty, within range, and differ in size by
   * at most one.
   */
  lemma SlicesAreEven(total: nat, count: nat, id: nat, other: nat)
    requires 0 < count <= total && id < count && other < count
    ensures Size(total, count, id) >= 1
    ensures Start(total, count, id) + Size(total, count, id) <= total
    ensures -1 <= Size(total, count, id) - Size(total, count, other) <= 1
  {
    QuotientPositive(total, count);
    Contiguous(total, count, id);
    StartMonotone(total, count, id + 1, count);
    Cover(total, count);
  }

  /** Two different shards share no index. */
  lemma SlicesAreDisjoint(total: nat, count: nat, i: nat, j: nat, k: nat)
    requires 0 < count <= total && i < j < count
    requires Start(total, count, i) <= k < Start(total, count, i) + Size(total, count, i)
    ensures !(Start(total, count, j) <= k < Start(total, count, j) + Size(total, count, j))
  {
    Contiguous(total, count, i);
    StartMonotone(total, count, i + 1, j);
  }

  /** Every index belongs to some shard. */
  lemma {:induction false} EveryIndexHasShard(total: nat, count: nat, k: nat, upTo: nat)
    requires 0 < count <= total && upTo <= count && k < Start(total, count, upTo)
    ensures exists id: nat :: id < upTo && Start(total, count, id) <= k < Start(total, count, id) + Size(total, count, id)
    decreases upTo
  {
    Cover(total, count);
    var last := upTo - 1;
    Contiguous(total, count, last);
    if k < Start(total, count, last) {
      EveryIndexHasShard(total, count, k, last);
    }
  }

  // ---------------------------------------------------------------- the capacity ceiling

  function CeilDiv(a: nat, b: nat): nat
    requires b > 0
  {
    (a + b - 1) / b
  }

  /** `_validate_shard_capacity`, for arguments that pass its integer checks. */
  predicate CapacityOk(total: nat, count: nat, ceiling: nat) {
    0 < count <= total && CeilDiv(total, count) <= ceiling
  }

  lemma Larger(x: int, y: int, b: nat)
    requires x > y
    ensures x * b >= y * b + b
  {
    assert (x - y) * b == x * b - y * b;
    assert (x - y - 1) * b >= 0;
  }

  lemma Quotient(x: nat, b: nat)
    requires b > 0
    ensures x == (x / b) * b + x % b
  {
  }

  /** The one fact about rounding up: it is at most `c` exactly when `c` times `b` reaches `a`. */
  lemma CeilDivAtMost(a: nat, b: nat, c: nat)
    requires b > 0
    ensures CeilDiv(a, b) <= c <==> a <= c * b
  {
    var d := CeilDiv(a, b);
    Quotient(a + b - 1, b);
    if d < c {
      Larger(c, d, b);
    } else if d > c {
      Larger(d, c, b);
    }
  }

  lemma LargestSlice(total: nat, count: nat)
    requires 0 < count
    ensures CeilDiv(total, count) == Size(total, count, 0)
  {
    var q := total / count;
    Quotient(total, count);
    CeilDivAtMost(total, count, q);
    CeilDivAtMost(total, count, q + 1);
    Larger(q + 1, q, count);
    if q > 0 {
      CeilDivAtMost(total, count, q - 1);
      Larger(q, q - 1, count);
    }
  }

  /** The capacity check passes exactly when every slice fits the ceiling. */
  lemma CapacityMeansFit(total: nat, count: nat, ceiling: nat)
    requires 0 < count <= total
    ensures CapacityOk(total, count, ceiling) <==> forall id: nat | id < count :: Size(total, count, id) <= ceiling
  {
    LargestSlice(total, count);
    assert Size(total, count, 0) <= ceiling ==> forall id: nat | id < count :: Size(total, count, id) <= ceiling;
  }

  /** The count the error message suggests is the least one that passes, and all above it pass too. */
  lemma SuggestedCountIsLeast(total: nat, count: nat, ceiling: nat)
    requires 0 < total && 0 < ceiling && 0 < count <= total
    ensures CapacityOk(total, count, ceiling) <==> CeilDiv(total, ceiling) <= count
    ensures 1 <= CeilDiv(total, ceiling) <= total
  {
    CeilDivAtMost(total, count, ceiling);
    CeilDivAtMost(total, ceiling, count);
    CeilDivAtMost(total, ceiling, 0);
    CeilDivAtMost(total, ceiling, total);
    assert ceiling * count == count * ceiling;
    assert total <= total * ceiling by {
      assert total * ceiling == total * (ceiling - 1) + total;
    }
  }
}
