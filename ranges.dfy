/**
 * The range accumulator: a growable array of (start, count, bias) sub-draws with a running
 * minimum start, maximum end and total index count, all in 32-bit unsigned arithmetic.
 */
module Ranges {

  import opened Indices
  import opened Prim

  /** The last index a range covers, `start + count - 1` wrapped to 32 bits. */
  function LastIndex(r: DrawRange): nat
  {
    (r.start + r.count - 1) % U32
  }

  /** The sum of the counts of the ranges. */
  function SumCounts(rs: seq<DrawRange>): nat
  {
    if rs == [] then 0 else SumCounts(rs[..|rs| - 1]) + rs[|rs| - 1].count
  }

  /** The running `unsigned` total: the counts added one by one, wrapping modulo 2^32. */
  function TotalU32(rs: seq<DrawRange>): nat
  {
    if rs == [] then 0 else AddU32(TotalU32(rs[..|rs| - 1]), rs[|rs| - 1].count)
  }

  /** The running total is the true sum of the counts, reduced modulo 2^32. */
  lemma {:induction false} TotalIsSumMod(rs: seq<DrawRange>)
    ensures TotalU32(rs) == SumCounts(rs) % U32
  {
    if rs != [] {
      var init := rs[..|rs| - 1];
      TotalIsSumMod(init);
      AddMod(SumCounts(init), rs[|rs| - 1].count);
    }
  }

  /** Reducing the first addend modulo 2^32 before adding does not change the sum modulo 2^32. */
  lemma AddMod(a: nat, b: nat)
    ensures (a % U32 + b) % U32 == (a + b) % U32
  {
    var q := a / U32;
    assert a == q * U32 + a % U32;
    ShiftMod(a % U32 + b, q);
  }

  /** Adding whole multiples of 2^32 does not change a value modulo 2^32. */
  lemma {:induction false} ShiftMod(x: nat, q: nat)
    ensures (x + q * U32) % U32 == x % U32
  {
    if q > 0 {
      ShiftMod(x, q - 1);
      assert x + q * U32 == (x + (q - 1) * U32) + U32;
    }
  }

  /** MIN2 of the starts, folded from UINT32_MAX. */
  function MinStart(rs: seq<DrawRange>): nat
  {
    if rs == [] then U32Max else Min(MinStart(rs[..|rs| - 1]), rs[|rs| - 1].start)
  }

  /** MAX2 of the last indices, folded from 0. */
  function MaxLast(rs: seq<DrawRange>): nat
  {
    if rs == [] then 0 else Max(MaxLast(rs[..|rs| - 1]), LastIndex(rs[|rs| - 1]))
  }

  /** The initial capacity of the draws array; it doubles whenever it is full. */
  const InitialCapacity: nat := 10

  /** struct range_info. */
  class RangeInfo {
    var draws: array?<DrawRange>
    var count: nat
    var max: nat
    var minIndex: nat
    var maxIndex: nat
    var totalIndexCount: nat

    /** The array holds `count` ranges in a buffer of `max` slots, unallocated until first use. */
    ghost predicate Allocated()
      reads this
    {
      count <= max && (draws == null <==> max == 0) && (draws != null ==> draws.Length == max)
    }

    /** The ranges recorded so far, in order. */
    ghost function Ranges(): seq<DrawRange>
      reads this, draws
      requires Allocated()
    {
      if draws == null then [] else draws[..count]
    }

    /** The running statistics agree with the recorded ranges. */
    ghost predicate Valid()
      reads this, draws
    {
      && Allocated()
      && StatsAgree(Ranges(), minIndex, maxIndex, totalIndexCount)
    }

    /** An empty accumulator: no array yet, minimum at UINT32_MAX, maximum and total 0. */
    constructor ()
      ensures Valid() && Ranges() == [] && draws == null && max == 0
      ensures minIndex == U32Max && maxIndex == 0 && totalIndexCount == 0
    {
      draws := null;
      count, max := 0, 0;
      minIndex, maxIndex := U32Max, 0;
      totalIndexCount := 0;
    }

    /**
     * add_range: drops a range that trims to a degenerate primitive (reporting success),
     * otherwise appends (start, trimmed count, bias), allocating 10 slots on first use and
     * doubling when full. `allocOk` is whether that allocation succeeds; on failure the
     * array reference is lost and false is returned.
     */
    method AddRange(mode: Mode, start: nat, count: nat, indexBias: int, allocOk: bool) returns (ok: bool)
      requires Valid() && start < U32 && count < U32
      modifies this, draws
      ensures TrimPrim(mode, count).None? ==>
                ok && unchanged(this) && Ranges() == old(Ranges())
      ensures TrimPrim(mode, count).Some? ==>
                var needsAlloc := old(max) == 0 || old(this.count) == old(max);
                && ok == (allocOk || !needsAlloc)
                && (ok ==> Valid() && Ranges() == old(Ranges()) + [DrawRange(start, TrimPrim(mode, count).value, indexBias)])
                && (ok ==> max == if old(max) == 0 then InitialCapacity
                                  else if old(this.count) == old(max) then 2 * old(max) else old(max))
                && (!ok ==> draws == null && this.count == old(this.count)
                            && max == (if old(max) == 0 then InitialCapacity else old(max))
                            && minIndex == old(minIndex) && maxIndex == old(maxIndex)
                            && totalIndexCount == old(totalIndexCount))
      ensures ok ==> old(Ranges()) <= Ranges()
      ensures draws == old(draws) || draws == null || fresh(draws)
    {
      // A degenerate primitive is ignored.
      var trimmed := TrimPrim(mode, count);
      if trimmed.None? {
        return true;
      }
      var n := trimmed.value;

      ok := Reserve(allocOk);
      if ok {
        Save(start, n, indexBias);
      }
    }

    /** Records the range (start, count, bias) in the slot after the last one and updates the statistics. */
    method Save(start: nat, count: nat, indexBias: int)
      requires Valid() && this.count < max && 1 <= count
      modifies this, draws
      ensures Valid() && Ranges() == old(Ranges()) + [DrawRange(start, count, indexBias)]
      ensures draws == old(draws) && max == old(max)
    {
      ghost var before := Ranges();
      ghost var r := DrawRange(start, count, indexBias);
      AppendStats(before, r, minIndex, maxIndex, totalIndexCount);
      minIndex := Min(minIndex, start);
      maxIndex := Max(maxIndex, (start + count - 1) % U32);

      // Save the range.
      draws[this.count] := DrawRange(start, count, indexBias);
      this.count := this.count + 1;
      totalIndexCount := AddU32(totalIndexCount, count);

      assert Ranges() == before + [r];
    }

    /**
     * Makes room for one more range: allocates the initial 10 slots on first use, or
     * doubles a full array, copying the ranges already recorded. When the allocation
     * fails the array reference is lost and false is returned.
     */
    method Reserve(allocOk: bool) returns (ok: bool)
      requires Valid()
      modifies this
      ensures ok == (allocOk || (old(max) != 0 && old(count) < old(max)))
      ensures ok ==> Valid() && count < max && Ranges() == old(Ranges())
      ensures ok ==> max == if old(max) == 0 then InitialCapacity
                            else if old(count) == old(max) then 2 * old(max) else old(max)
      ensures !ok ==> draws == null && max == (if old(max) == 0 then InitialCapacity else old(max))
      ensures count == old(count) && minIndex == old(minIndex) && maxIndex == old(maxIndex)
      ensures totalIndexCount == old(totalIndexCount)
      ensures ok && old(draws) != null ==> draws == old(draws) || fresh(draws)
      ensures ok && old(draws) == null ==> fresh(draws)
    {
      if max == 0 {
        max := InitialCapacity;
        if !allocOk {
          draws := null;
          return false;
        }
        draws := new DrawRange[max];
      } else if count == max {
        // Grow the draws array.
        if !allocOk {
          draws := null;
          return false;
        }
        var grown := new DrawRange[2 * max];
        var k := 0;
        while k < count
          modifies grown
          invariant 0 <= k <= count
          invariant grown[..k] == draws[..k]
        {
          grown[k] := draws[k];
          k := k + 1;
        }
        draws := grown;
        max := 2 * max;
      }
      ok := true;
    }
  }

  /** `minIndex`, `maxIndex` and `total` are the statistics of `rs`. */
  predicate StatsAgree(rs: seq<DrawRange>, minIndex: nat, maxIndex: nat, total: nat)
  {
    minIndex == MinStart(rs) && maxIndex == MaxLast(rs) && total == TotalU32(rs)
  }

  /** The statistics of one more range are folded from those of the ranges before it. */
  lemma AppendStats(rs: seq<DrawRange>, r: DrawRange, minIndex: nat, maxIndex: nat, total: nat)
    requires StatsAgree(rs, minIndex, maxIndex, total)
    ensures StatsAgree(rs + [r], Min(minIndex, r.start), Max(maxIndex, LastIndex(r)), AddU32(total, r.count))
  {
    assert (rs + [r])[..|rs|] == rs;
  }

  /**
   * Three successive add_range calls on one accumulator: a triangle range trimmed from 7 to
   * 6 indices, a degenerate two-index triangle range that is ignored, and a one-point range
   * that fits in the slots already allocated, so a failing allocator is never consulted.
   */
  method AccumulateThree() returns (ok: bool, ranges: seq<DrawRange>, lo: nat, hi: nat, total: nat)
    ensures ok
    ensures ranges == [DrawRange(5, 6, 0), DrawRange(2, 1, -3)]
    ensures lo == 2 && hi == 10 && total == 7
  {
    var info := new RangeInfo();
    var ok1 := info.AddRange(Triangles, 5, 7, 0, true);
    var ok2 := info.AddRange(Triangles, 9, 2, 0, false);
    var ok3 := info.AddRange(Points, 2, 1, -3, false);
    ok := ok1 && ok2 && ok3;
    ranges := if info.draws == null then [] else info.draws[..info.count];
    lo, hi, total := info.minIndex, info.maxIndex, info.totalIndexCount;
  }
}
