/** The prototype's ship pool (`generate_ship_pool` in test.py): the standard
    lengths repeated until they reach the target tile count, then trimmed from the
    end until they no longer exceed it. */
module ProtoPool {

  /** `BASE_SHIP_LENGTHS`. */
  const BaseShipLengths: seq<int> := [5, 4, 3, 3, 2]

  /** `SHIP_TILES`, the sum of BaseShipLengths. */
  const StandardTiles := 17

  /** Python's `sum`. */
  function Sum(s: seq<int>): int
  {
    if s == [] then 0 else Sum(s[..|s| - 1]) + s[|s| - 1]
  }

  /** The first n entries of BaseShipLengths repeated without end. */
  function Cycle(n: nat): seq<int>
  {
    seq(n, i => BaseShipLengths[i % 5])
  }

  /** `pool` is the longest prefix of the repetition whose sum stays within `target`. */
  predicate IsPoolFor(pool: seq<int>, target: int)
  {
    pool == Cycle(|pool|) && Sum(pool) <= target < Sum(Cycle(|pool| + 1))
  }

  lemma BaseBounds(i: int)
    requires 0 <= i < 5
    ensures 2 <= BaseShipLengths[i] <= 5
  {
  }

  /** Each step of the repetition adds the next base length to the sum. */
  lemma CycleStep(n: nat)
    ensures Cycle(n + 1) == Cycle(n) + [BaseShipLengths[n % 5]]
    ensures Sum(Cycle(n + 1)) == Sum(Cycle(n)) + BaseShipLengths[n % 5]
    ensures 2 <= BaseShipLengths[n % 5] <= 5
  {
    BaseBounds(n % 5);
    assert Cycle(n + 1)[..n] == Cycle(n);
  }

  lemma BlockOffsets(q: nat, n: nat)
    requires n == 5 * q
    ensures n % 5 == 0 && (n + 1) % 5 == 1 && (n + 2) % 5 == 2 && (n + 3) % 5 == 3 && (n + 4) % 5 == 4
  {
  }

  /** From a whole number of repetitions, the next five entries are BaseShipLengths. */
  lemma CycleBlock(q: nat, n: nat)
    requires n == 5 * q
    ensures Cycle(n + 5) == Cycle(n) + BaseShipLengths
    ensures Sum(Cycle(n + 5)) == Sum(Cycle(n)) + StandardTiles
  {
    BlockOffsets(q, n);
    CycleStep(n);
    CycleStep(n + 1);
    CycleStep(n + 2);
    CycleStep(n + 3);
    CycleStep(n + 4);
  }

  /** Sums of longer prefixes are strictly larger, by at least two per entry. */
  lemma {:induction false} CycleSumGrows(m: nat, n: nat)
    requires m <= n
    ensures Sum(Cycle(n)) >= Sum(Cycle(m)) + 2 * (n - m)
    decreases n - m
  {
    if m < n {
      CycleStep(m);
      CycleSumGrows(m + 1, n);
    }
  }

  /** The pool for a target is unique. */
  lemma PoolUnique(p: seq<int>, q: seq<int>, target: int)
    requires IsPoolFor(p, target) && IsPoolFor(q, target)
    ensures p == q
  {
    if |p| < |q| {
      CycleSumGrows(|p| + 1, |q|);
    } else if |q| < |p| {
      CycleSumGrows(|q| + 1, |p|);
    }
  }

  /** The standard 17 tiles give exactly one ship of each standard length. */
  lemma StandardPool(pool: seq<int>)
    requires IsPoolFor(pool, StandardTiles)
    ensures pool == BaseShipLengths
  {
    assert Cycle(0) == [];
    CycleBlock(0, 0);
    assert Cycle(5) == BaseShipLengths && Sum(Cycle(5)) == StandardTiles;
    CycleStep(5);
    assert Sum(Cycle(6)) == StandardTiles + 5;
    PoolUnique(pool, BaseShipLengths, StandardTiles);
  }

  /** A target of zero gives the empty pool. */
  lemma ZeroPool(pool: seq<int>)
    requires IsPoolFor(pool, 0)
    ensures pool == []
  {
    CycleSumGrows(0, |pool|);
  }

  datatype PoolResult = Pool(pool: seq<int>) | PopFromEmpty

  /** The first loop of `generate_ship_pool`: `pool.extend(BASE_SHIP_LENGTHS)`
      while `sum(pool) < target_tiles`. */
  method ExtendPool(target: int) returns (pool: seq<int>)
    ensures pool == Cycle(|pool|) && Sum(pool) >= target
    ensures |pool| % 5 == 0
    ensures target <= 0 <==> pool == []
    ensures pool != [] ==> Sum(pool) - StandardTiles < target
  {
    pool := [];
    ghost var blocks := 0;  // how many times `pool.extend` has run
    while Sum(pool) < target
      invariant |pool| == 5 * blocks && pool == Cycle(|pool|)
      invariant target <= 0 ==> pool == []
      invariant pool != [] ==> Sum(pool) - StandardTiles < target
      decreases target - Sum(pool)
    {
      var n := |pool|;
      assert pool + BaseShipLengths == Cycle(n + 5) && Sum(Cycle(n + 5)) == Sum(pool) + StandardTiles by {
        CycleBlock(blocks, n);
      }
      pool, blocks := pool + BaseShipLengths, blocks + 1;
    }
    BlockOffsets(blocks, |pool|);
  }

  /** `generate_ship_pool(target_tiles)`. For a negative target the second loop
      pops from the empty list, which raises IndexError. */
  method GenerateShipPool(target: int) returns (r: PoolResult)
    ensures r.PopFromEmpty? <==> target < 0
    ensures r.Pool? ==> IsPoolFor(r.pool, target)
  {
    var pool := ExtendPool(target);
    while Sum(pool) > target
      invariant pool == Cycle(|pool|)
      invariant Sum(pool) >= target || Sum(Cycle(|pool| + 1)) > target
      invariant target < 0 ==> pool == []
    {
      if pool == [] {
        return PopFromEmpty;
      }
      var n := |pool| - 1;
      assert pool[..n] == Cycle(n) && Sum(Cycle(n + 1)) > target by {
        CycleStep(n);
      }
      pool := pool[..n];
    }
    assert IsPoolFor(pool, target) by {
      CycleStep(|pool|);
    }
    return Pool(pool);
  }
}
