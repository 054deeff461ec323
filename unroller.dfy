/**
 * util_prim_restart_convert_to_direct: the scan over an index array with a six-slot
 * window, writing the unrolled stream into a buffer of six times the input count.
 */
module Unroller {

  import opened Indices
  import opened Prim
  import opened UnrollSpec
  import opened UnrollShapes

  /**
   * Unrolls `indexMap` (the `count` indices of a draw, of width `indexSize`) into a fresh
   * zero-filled buffer of `6 * count` entries. On an unsupported index size the result is
   * null; otherwise the first `total` entries of the buffer are the unrolled stream, one
   * draw is reported and the index bounds are reported as unknown (0 to UINT32_MAX).
   */
  method ConvertToDirect(indexMap: seq<nat>, indexSize: nat, mode: Mode, restartIndex: nat)
    returns (outMap: array?<nat>, numDraws: nat, minIndex: nat, maxIndex: nat, total: nat)
    ensures outMap == null <==> !ValidIndexSize(indexSize)
    ensures outMap != null ==>
              && outMap.Length == 6 * |indexMap|
              && total <= outMap.Length
              && outMap[..total] == Unroll(mode, restartIndex, indexMap)
              && (forall k :: total <= k < outMap.Length ==> outMap[k] == 0)
              && numDraws == 1 && minIndex == 0 && maxIndex == U32Max
              && fresh(outMap)
    ensures outMap != null ==>
              && total % VerticesPerPrim(mode) == 0
              && (forall k :: 0 <= k < total ==> outMap[k] != restartIndex && outMap[k] in indexMap)
  {
    var n := |indexMap|;
    var out := new nat[6 * n](_ => 0);
    if !ValidIndexSize(indexSize) {
      return null, 0, 0, 0, 0;
    }

    var buf := new nat[6];
    var count: nat := 0;
    var primBegin: nat := 0;
    var bufSize: nat := 0;
    var i := 0;
    while i < n
      invariant 0 <= i <= n
      invariant bufSize <= buf.Length && count <= out.Length
      invariant ScanState(buf[..bufSize], primBegin, out[..count]) == Scan(mode, restartIndex, indexMap, i)
      invariant forall k :: count <= k < out.Length ==> out[k] == 0
    {
      bufSize, primBegin, count := ScanIndex(mode, restartIndex, indexMap, i, out, buf, bufSize, primBegin, count);
      i := i + 1;
    }

    count := CloseLoop(mode, restartIndex, indexMap, out, buf, bufSize, primBegin, count);
    ghost var unrolled := Unroll(mode, restartIndex, indexMap);
    UnrollHasNoRestart(mode, restartIndex, indexMap);
    UnrollLength(mode, restartIndex, indexMap);
    assert forall k :: 0 <= k < count ==> out[k] == unrolled[k];
    return out, 1, 0, U32Max, count;
  }

  /**
   * One iteration of the scan for index `i`: the index is pushed into the window, then a
   * restart closes a pending line loop and empties the window, and a full window is
   * emitted and advanced according to the topology.
   */
  method ScanIndex(mode: Mode, restartIndex: nat, indexMap: seq<nat>, i: nat,
                   out: array<nat>, buf: array<nat>, bufSize0: nat, primBegin0: nat, count0: nat)
    returns (bufSize: nat, primBegin: nat, count: nat)
    requires i < |indexMap| && out != buf && buf.Length == 6 && out.Length == 6 * |indexMap|
    requires bufSize0 <= buf.Length && count0 <= out.Length
    requires ScanState(buf[..bufSize0], primBegin0, out[..count0]) == Scan(mode, restartIndex, indexMap, i)
    requires forall k :: count0 <= k < out.Length ==> out[k] == 0
    modifies out, buf
    ensures bufSize <= buf.Length && count <= out.Length
    ensures ScanState(buf[..bufSize], primBegin, out[..count]) == Scan(mode, restartIndex, indexMap, i + 1)
    ensures forall k :: count <= k < out.Length ==> out[k] == 0
  {
    var vpp := VerticesPerPrim(mode);
    bufSize, primBegin, count := bufSize0, primBegin0, count0;
    ScanOutBound(mode, restartIndex, indexMap, i);
    ghost var st := Scan(mode, restartIndex, indexMap, i);
    ghost var outBefore := out[..count];
    buf[bufSize] := indexMap[i];
    bufSize := bufSize + 1;
    assert buf[..bufSize] == st.buf + [indexMap[i]];

    if indexMap[i] == restartIndex {
      if mode == LineLoop && bufSize == 2 {
        out[count] := buf[0];
        out[count + 1] := indexMap[primBegin];
        count := count + 2;
        assert out[..count] == outBefore + [buf[0], indexMap[primBegin]];
      }
      primBegin := i + 1;
      bufSize := 0;
      assert ScanState(buf[..bufSize], primBegin, out[..count]) == Step(mode, restartIndex, indexMap, i, st);
    } else if bufSize == vpp {
      bufSize, count := EmitPrimitive(mode, restartIndex, indexMap, i, out, buf, count, st);
    } else {
      StepPush(mode, restartIndex, indexMap, i, st);
    }
    assert ScanState(buf[..bufSize], primBegin, out[..count]) == Step(mode, restartIndex, indexMap, i, st);
  }

  /**
   * A non-restart index has filled the window: the primitive is emitted, then lists start
   * over, fans keep vertex 0 and strips and loops cycle the window by one.
   */
  method EmitPrimitive(mode: Mode, restartIndex: nat, indexMap: seq<nat>, i: nat,
                       out: array<nat>, buf: array<nat>, count0: nat, ghost st: ScanState)
    returns (bufSize: nat, count: nat)
    requires i < |indexMap| && out != buf && buf.Length == 6 && out.Length == 6 * |indexMap|
    requires st == Scan(mode, restartIndex, indexMap, i) && indexMap[i] != restartIndex
    requires |st.buf| + 1 == VerticesPerPrim(mode)
    requires count0 <= out.Length && buf[..VerticesPerPrim(mode)] == st.buf + [indexMap[i]] && out[..count0] == st.out
    requires forall k :: count0 <= k < out.Length ==> out[k] == 0
    modifies out, buf
    ensures bufSize <= buf.Length && count <= out.Length
    ensures ScanState(buf[..bufSize], st.primBegin, out[..count]) == Step(mode, restartIndex, indexMap, i, st)
    ensures forall k :: count <= k < out.Length ==> out[k] == 0
  {
    var vpp := VerticesPerPrim(mode);
    ghost var w := buf[..vpp];
    ScanOutBound(mode, restartIndex, indexMap, i);
    RoomForPrimitive(vpp, i, |indexMap|);
    count := EmitWindow(out, count0, buf, vpp);
    match mode {
      case Points | Lines | Triangles | TrianglesAdjacency | LinesAdjacency =>
        // Lists start over.
        bufSize := 0;
      case TriangleFan =>
        // Fans keep vertex 0.
        bufSize := 1;
      case LineLoop | LineStrip | TriangleStrip =>
        // Strips cycle.
        SlideWindow(buf, vpp);
        bufSize := vpp - 1;
    }
    assert buf[..bufSize] == Carry(mode, w);
    StepEmit(mode, restartIndex, indexMap, i, st);
  }

  /**
   * The end of the scan: a line loop whose window holds one vertex is closed back to the
   * vertex at `primBegin`, which completes the unrolled stream.
   */
  method CloseLoop(mode: Mode, restartIndex: nat, indexMap: seq<nat>, out: array<nat>, buf: array<nat>,
                   bufSize: nat, primBegin: nat, count0: nat)
    returns (count: nat)
    requires out != buf && buf.Length == 6 && out.Length == 6 * |indexMap|
    requires bufSize <= buf.Length && count0 <= out.Length
    requires ScanState(buf[..bufSize], primBegin, out[..count0]) == Scan(mode, restartIndex, indexMap, |indexMap|)
    requires forall k :: count0 <= k < out.Length ==> out[k] == 0
    modifies out
    ensures count <= out.Length
    ensures out[..count] == Unroll(mode, restartIndex, indexMap)
    ensures forall k :: count <= k < out.Length ==> out[k] == 0
  {
    count := count0;
    ScanOutBound(mode, restartIndex, indexMap, |indexMap|);
    if mode == LineLoop && bufSize == 1 {
      ghost var outBefore := out[..count];
      out[count] := buf[0];
      out[count + 1] := indexMap[primBegin];
      count := count + 2;
      assert out[..count] == outBefore + [buf[0], indexMap[primBegin]];
    }
  }

  /** `v` indices emitted for each of the first `i + 1` input indices fit in six per index. */
  lemma RoomForPrimitive(v: nat, i: nat, n: nat)
    requires 1 <= v <= 6 && i < n
    ensures v * i + v <= 6 * n
    ensures v * (i + 1) == v * i + v
  {
    if v == 1 {
    } else if v == 2 {
    } else if v == 3 {
    } else if v == 4 {
    } else if v == 5 {
    } else {
    }
  }

  /** Appends the full window `buf[..size]` to `out[..count]`, leaving the zero tail zero. */
  method EmitWindow(out: array<nat>, count: nat, buf: array<nat>, size: nat) returns (count': nat)
    requires out != buf && size <= buf.Length && count + size <= out.Length
    requires forall k :: count <= k < out.Length ==> out[k] == 0
    modifies out
    ensures count' == count + size
    ensures out[..count'] == old(out[..count]) + buf[..size]
    ensures forall k :: count' <= k < out.Length ==> out[k] == 0
  {
    var j := 0;
    while j < size
      invariant 0 <= j <= size
      invariant out[..count + j] == old(out[..count]) + buf[..j]
      invariant forall k :: count + j <= k < out.Length ==> out[k] == 0
    {
      out[count + j] := buf[j];
      j := j + 1;
    }
    count' := count + size;
  }

  /** Drops the oldest of the `size` window entries, shifting the others down by one slot. */
  method SlideWindow(buf: array<nat>, size: nat)
    requires 1 <= size <= buf.Length
    modifies buf
    ensures buf[..size - 1] == old(buf[1..size])
    ensures buf[size - 1..] == old(buf[size - 1..])
  {
    ghost var w := buf[..];
    var k := 1;
    while k < size
      invariant 1 <= k <= size
      invariant buf[..k - 1] == w[1..k]
      invariant buf[k - 1..] == w[k - 1..]
    {
      buf[k - 1] := buf[k];
      k := k + 1;
    }
  }

  /**
   * The number of entries the output buffer receives as the allocation is written: the
   * element count `draw->count * 6` is computed in 32-bit `unsigned` arithmetic and wraps.
   * It agrees with the `6 * count` of `ConvertToDirect` exactly when that product fits.
   */
  function AllocatedEntries(count: nat): (e: nat)
    ensures e < U32
    ensures e == 6 * count <==> 6 * count < U32
  {
    (6 * count) % U32
  }

  /**
   * For every count between 2^32 / 6 and 2^32 / 5, a restart-free point list is longer
   * than the wrapped allocation, so the scan writes past the end of the buffer.
   */
  lemma WrappedAllocationTooSmall(restartIndex: nat, s: seq<nat>)
    requires U32 <= 6 * |s| && 5 * |s| < U32 && NoRestart(s, restartIndex)
    ensures AllocatedEntries(|s|) == 6 * |s| - U32
    ensures AllocatedEntries(|s|) < |Unroll(Points, restartIndex, s)| == |s|
  {
    UnrollList(Points, restartIndex, s);
  }

  /** The smallest such count: 715,827,883 indices get a two-entry buffer. */
  lemma ExampleWrappedAllocation()
    ensures AllocatedEntries(715_827_883) == 2
  {
  }
}
