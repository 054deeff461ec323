/**
 * The primitive unroller as a pure left fold over the index stream: the state after
 * scanning the first `n` indices is the rolling window, the index where the current
 * primitive began, and the indices emitted so far.
 */
module UnrollSpec {

  import opened Indices
  import opened Prim

  /** The scan state: the window `buf[..buf_size]`, `prim_begin`, and `map[..count]`. */
  datatype ScanState = ScanState(buf: seq<nat>, primBegin: nat, out: seq<nat>)

  /** What the state looks like at the head of every iteration, before index `i` is read. */
  predicate Consistent(m: Mode, input: seq<nat>, i: nat, st: ScanState)
  {
    i <= |input|
    && st.primBegin <= i
    && |st.buf| < VerticesPerPrim(m)
    && (st.buf != [] ==> st.primBegin < i)
  }

  /** The window left after a full primitive `w` was emitted, per topology. */
  function Carry(m: Mode, w: seq<nat>): (b: seq<nat>)
    requires |w| == VerticesPerPrim(m)
    ensures |b| < |w|
  {
    match m
    case Points | Lines | Triangles | TrianglesAdjacency | LinesAdjacency => []
    case TriangleFan => w[..1]
    case LineLoop | LineStrip | TriangleStrip => w[1..]
  }

  /**
   * One iteration for index `i`. The index is pushed into the window before the restart
   * test, so a line loop with a window of size 2 at a restart holds one real vertex.
   */
  function Step(m: Mode, restartIndex: nat, input: seq<nat>, i: nat, st: ScanState): (st': ScanState)
    requires i < |input| && Consistent(m, input, i, st)
    ensures Consistent(m, input, i + 1, st')
  {
    var w := st.buf + [input[i]];
    if input[i] == restartIndex then
      var out := if m == LineLoop && |w| == 2 then st.out + [w[0], input[st.primBegin]] else st.out;
      ScanState([], i + 1, out)
    else if |w| == VerticesPerPrim(m) then
      ScanState(Carry(m, w), st.primBegin, st.out + w)
    else
      ScanState(w, st.primBegin, st.out)
  }

  /** A non-restart index that does not complete a primitive is only pushed into the window. */
  lemma StepPush(m: Mode, restartIndex: nat, input: seq<nat>, i: nat, st: ScanState)
    requires i < |input| && Consistent(m, input, i, st)
    requires input[i] != restartIndex && |st.buf| + 1 < VerticesPerPrim(m)
    ensures Step(m, restartIndex, input, i, st) == ScanState(st.buf + [input[i]], st.primBegin, st.out)
  {
  }

  /** A non-restart index that completes a primitive emits the window and carries part of it. */
  lemma StepEmit(m: Mode, restartIndex: nat, input: seq<nat>, i: nat, st: ScanState)
    requires i < |input| && Consistent(m, input, i, st)
    requires input[i] != restartIndex && |st.buf| + 1 == VerticesPerPrim(m)
    ensures Step(m, restartIndex, input, i, st)
            == ScanState(Carry(m, st.buf + [input[i]]), st.primBegin, st.out + st.buf + [input[i]])
  {
  }

  /** The state after the first `n` indices. */
  function Scan(m: Mode, restartIndex: nat, input: seq<nat>, n: nat): (st: ScanState)
    requires n <= |input|
    ensures Consistent(m, input, n, st)
  {
    if n == 0 then ScanState([], 0, [])
    else Step(m, restartIndex, input, n - 1, Scan(m, restartIndex, input, n - 1))
  }

  /** After the scan, a line loop with one vertex left closes back to `prim_begin`. */
  function Finish(m: Mode, input: seq<nat>, st: ScanState): seq<nat>
    requires Consistent(m, input, |input|, st)
  {
    if m == LineLoop && |st.buf| == 1 then st.out + [st.buf[0], input[st.primBegin]] else st.out
  }

  /** The restart-free index stream the unroller produces. */
  function Unroll(m: Mode, restartIndex: nat, input: seq<nat>): seq<nat>
  {
    Finish(m, input, Scan(m, restartIndex, input, |input|))
  }

  /** The facts the scan keeps about what it has emitted and what its window holds. */
  predicate ScanFacts(m: Mode, restartIndex: nat, input: seq<nat>, n: nat, st: ScanState)
  {
    n <= |input|
    && (forall k :: 0 <= k < |st.out| ==> st.out[k] in input && st.out[k] != restartIndex)
    && (forall k :: 0 <= k < |st.buf| ==> st.buf[k] in input && st.buf[k] != restartIndex)
    && (st.primBegin < n ==> input[st.primBegin] != restartIndex)
    && |st.out| % VerticesPerPrim(m) == 0
    && |st.out| <= VerticesPerPrim(m) * n
  }

  /** Appending one more primitive keeps the length a multiple of the arity (at most 6). */
  lemma AddArity(a: nat, v: nat)
    requires 1 <= v <= 6 && a % v == 0
    ensures (a + v) % v == 0
  {
    if v == 1 {
    } else if v == 2 {
    } else if v == 3 {
    } else if v == 4 {
    } else if v == 5 {
    } else {
    }
  }

  lemma {:induction false} StepKeepsFacts(m: Mode, restartIndex: nat, input: seq<nat>, i: nat, st: ScanState)
    requires i < |input| && Consistent(m, input, i, st)
    requires ScanFacts(m, restartIndex, input, i, st)
    ensures ScanFacts(m, restartIndex, input, i + 1, Step(m, restartIndex, input, i, st))
  {
    var v := VerticesPerPrim(m);
    var w := st.buf + [input[i]];
    var st' := Step(m, restartIndex, input, i, st);
    assert input[i] in input;
    assert v * (i + 1) == v * i + v;
    if input[i] == restartIndex {
      if m == LineLoop && |w| == 2 {
        assert st.primBegin < i;
        assert input[st.primBegin] in input;
        assert w[0] == st.buf[0];
        assert st'.out == st.out + [w[0], input[st.primBegin]];
        AddArity(|st.out|, 2);
      }
    } else if |w| == v {
      assert st'.out == st.out + w;
      AddArity(|st.out|, v);
      assert forall k :: 0 <= k < |st'.buf| ==> st'.buf[k] in w;
    } else {
      assert st'.buf == w;
    }
  }

  lemma {:induction false} ScanKeepsFacts(m: Mode, restartIndex: nat, input: seq<nat>, n: nat)
    requires n <= |input|
    ensures ScanFacts(m, restartIndex, input, n, Scan(m, restartIndex, input, n))
  {
    if n > 0 {
      ScanKeepsFacts(m, restartIndex, input, n - 1);
      StepKeepsFacts(m, restartIndex, input, n - 1, Scan(m, restartIndex, input, n - 1));
    }
  }

  /** After `n` indices at most `VerticesPerPrim(m)` indices per input index have been emitted. */
  lemma ScanOutBound(m: Mode, restartIndex: nat, input: seq<nat>, n: nat)
    requires n <= |input|
    ensures |Scan(m, restartIndex, input, n).out| <= VerticesPerPrim(m) * n
  {
    ScanKeepsFacts(m, restartIndex, input, n);
  }

  /**
   * No restart marker reaches the output: every emitted index is a non-restart element of the
   * input, including the line-loop closing vertices read at `prim_begin`.
   */
  lemma UnrollHasNoRestart(m: Mode, restartIndex: nat, input: seq<nat>)
    ensures forall k :: 0 <= k < |Unroll(m, restartIndex, input)| ==>
              Unroll(m, restartIndex, input)[k] in input && Unroll(m, restartIndex, input)[k] != restartIndex
  {
    ScanKeepsFacts(m, restartIndex, input, |input|);
  }

  /**
   * The output is a whole number of primitives of the topology's arity and fits the
   * `6 * count` entries the output buffer is allocated with.
   */
  lemma UnrollLength(m: Mode, restartIndex: nat, input: seq<nat>)
    ensures |Unroll(m, restartIndex, input)| % VerticesPerPrim(m) == 0
    ensures |Unroll(m, restartIndex, input)| <= 6 * |input|
  {
    var st := Scan(m, restartIndex, input, |input|);
    ScanKeepsFacts(m, restartIndex, input, |input|);
    if m == LineLoop && |st.buf| == 1 {
      assert |Unroll(m, restartIndex, input)| == |st.out| + 2;
    }
  }
}
