/**
 * What the unroller produces, stated without its window: a restart splits the stream into
 * pieces that are unrolled independently, and a restart-free piece unrolls to a closed form
 * that depends only on the topology's family (list, strip, fan, loop).
 */
module UnrollShapes {

  import opened Indices
  import opened Prim
  import opened UnrollSpec

  predicate NoRestart(s: seq<nat>, restartIndex: nat)
  {
    forall k :: 0 <= k < |s| ==> s[k] != restartIndex
  }

  /** The scan of a prefix does not look past that prefix. */
  lemma {:induction false} ScanPrefix(m: Mode, restartIndex: nat, s: seq<nat>, t: seq<nat>, n: nat)
    requires n <= |s|
    ensures Scan(m, restartIndex, s + t, n) == Scan(m, restartIndex, s, n)
  {
    if n > 0 {
      ScanPrefix(m, restartIndex, s, t, n - 1);
      var st := Scan(m, restartIndex, s, n - 1);
      assert (s + t)[n - 1] == s[n - 1];
      assert (s + t)[st.primBegin] == s[st.primBegin];
    }
  }

  /** A state of a scan of `b`, seen inside a longer stream that has `d` indices before `b`. */
  function Shifted(st: ScanState, d: nat, emitted: seq<nat>): ScanState
  {
    ScanState(st.buf, st.primBegin + d, emitted + st.out)
  }

  /** One step of the scan commutes with shifting the stream by `d` indices. */
  lemma StepShift(m: Mode, restartIndex: nat, input: seq<nat>, b: seq<nat>, d: nat, j: nat, st: ScanState, emitted: seq<nat>)
    requires j < |b| && d + |b| <= |input| && Consistent(m, b, j, st)
    requires input[d + j] == b[j]
    requires st.primBegin < j ==> input[st.primBegin + d] == b[st.primBegin]
    ensures Consistent(m, input, d + j, Shifted(st, d, emitted))
    ensures Step(m, restartIndex, input, d + j, Shifted(st, d, emitted))
            == Shifted(Step(m, restartIndex, b, j, st), d, emitted)
  {
    var w := st.buf + [b[j]];
    var x := Step(m, restartIndex, input, d + j, Shifted(st, d, emitted));
    var y := Step(m, restartIndex, b, j, st);
    if b[j] == restartIndex {
      if m == LineLoop && |w| == 2 {
        assert x.out == emitted + st.out + [w[0], b[st.primBegin]];
        assert y.out == st.out + [w[0], b[st.primBegin]];
      }
    } else if |w| == VerticesPerPrim(m) {
      assert x.out == emitted + st.out + w;
    }
  }

  /** Reading the restart index after `a` empties the window and emits exactly `Unroll(a)`. */
  lemma ScanThroughRestart(m: Mode, restartIndex: nat, a: seq<nat>, b: seq<nat>)
    ensures Scan(m, restartIndex, a + [restartIndex] + b, |a| + 1)
            == ScanState([], |a| + 1, Unroll(m, restartIndex, a))
  {
    var input := a + [restartIndex] + b;
    assert input == a + ([restartIndex] + b);
    ScanPrefix(m, restartIndex, a, [restartIndex] + b, |a|);
    var st := Scan(m, restartIndex, a, |a|);
    assert input[|a|] == restartIndex;
    if st.primBegin < |a| {
      assert input[st.primBegin] == a[st.primBegin];
    }
    assert Scan(m, restartIndex, input, |a| + 1) == Step(m, restartIndex, input, |a|, st);
  }

  lemma {:induction false} ScanAfterRestart(m: Mode, restartIndex: nat, a: seq<nat>, b: seq<nat>, j: nat)
    requires j <= |b|
    ensures Scan(m, restartIndex, a + [restartIndex] + b, |a| + 1 + j)
            == Shifted(Scan(m, restartIndex, b, j), |a| + 1, Unroll(m, restartIndex, a))
  {
    var input := a + [restartIndex] + b;
    var d := |a| + 1;
    if j == 0 {
      ScanThroughRestart(m, restartIndex, a, b);
    } else {
      ScanAfterRestart(m, restartIndex, a, b, j - 1);
      var st := Scan(m, restartIndex, b, j - 1);
      var emitted := Unroll(m, restartIndex, a);
      assert input[d + j - 1] == b[j - 1] && input[st.primBegin + d] == b[st.primBegin];
      StepShift(m, restartIndex, input, b, d, j - 1, st, emitted);
    }
  }

  /**
   * A restart index splits the stream: the part before it and the part after it are
   * unrolled independently and their outputs concatenated. A partial list primitive pending
   * at the restart is dropped, and a pending line loop is closed.
   */
  lemma RestartSplits(m: Mode, restartIndex: nat, a: seq<nat>, b: seq<nat>)
    ensures Unroll(m, restartIndex, a + [restartIndex] + b)
            == Unroll(m, restartIndex, a) + Unroll(m, restartIndex, b)
  {
    var input := a + [restartIndex] + b;
    ScanAfterRestart(m, restartIndex, a, b, |b|);
    var st := Scan(m, restartIndex, b, |b|);
    if m == LineLoop && |st.buf| == 1 {
      assert input[st.primBegin + |a| + 1] == b[st.primBegin];
    }
  }

  // ---------------------------------------------------------------- lists

  /** For a restart-free list stream the window is exactly the indices after the last emitted one. */
  predicate ListShape(s: seq<nat>, n: nat, st: ScanState)
  {
    st.primBegin == 0 && |st.out| <= n <= |s| && st.out == s[..|st.out|] && st.buf == s[|st.out|..n]
  }

  lemma {:induction false} ScanList(m: Mode, restartIndex: nat, s: seq<nat>, n: nat)
    requires IsList(m) && NoRestart(s, restartIndex) && n <= |s|
    ensures ListShape(s, n, Scan(m, restartIndex, s, n))
  {
    if n > 0 {
      ScanList(m, restartIndex, s, n - 1);
      ListStep(m, restartIndex, s, n - 1, Scan(m, restartIndex, s, n - 1));
    }
  }

  lemma ListStep(m: Mode, restartIndex: nat, s: seq<nat>, i: nat, st: ScanState)
    requires IsList(m) && i < |s| && s[i] != restartIndex
    requires Consistent(m, s, i, st) && ListShape(s, i, st)
    ensures ListShape(s, i + 1, Step(m, restartIndex, s, i, st))
  {
    var w := st.buf + [s[i]];
    assert w == s[|st.out|..i + 1];
    if |w| == VerticesPerPrim(m) {
      StepEmit(m, restartIndex, s, i, st);
      assert Carry(m, w) == [];
      assert st.out + w == s[..i + 1];
    } else {
      StepPush(m, restartIndex, s, i, st);
    }
  }

  /**
   * A restart-free list stream is emitted unchanged up to its last whole primitive; the
   * trailing partial primitive is dropped.
   */
  lemma UnrollList(m: Mode, restartIndex: nat, s: seq<nat>)
    requires IsList(m) && NoRestart(s, restartIndex)
    ensures |Unroll(m, restartIndex, s)| <= |s|
    ensures Unroll(m, restartIndex, s) == s[..|Unroll(m, restartIndex, s)|]
    ensures |s| < |Unroll(m, restartIndex, s)| + VerticesPerPrim(m)
  {
    ScanList(m, restartIndex, s, |s|);
  }

  // ---------------------------------------------------------------- strips

  /** The primitives of a strip: every run of `v` consecutive vertices, in order. */
  function StripPrims(p: seq<nat>, v: nat): (r: seq<nat>)
  {
    if |p| < v || v == 0 then [] else StripPrims(p[..|p| - 1], v) + p[|p| - v..]
  }

  /** For a restart-free strip the window holds the last `v - 1` indices read (fewer at the start). */
  predicate StripShape(s: seq<nat>, v: nat, n: nat, st: ScanState)
    requires 1 <= v && n <= |s|
  {
    var keep := if n < v - 1 then n else v - 1;
    st == ScanState(s[n - keep..n], 0, StripPrims(s[..n], v))
  }

  lemma {:induction false} ScanStrip(m: Mode, restartIndex: nat, s: seq<nat>, n: nat)
    requires IsStrip(m) && NoRestart(s, restartIndex) && n <= |s|
    ensures StripShape(s, VerticesPerPrim(m), n, Scan(m, restartIndex, s, n))
  {
    if n > 0 {
      ScanStrip(m, restartIndex, s, n - 1);
      var prev := Scan(m, restartIndex, s, n - 1);
      StripStep(m, restartIndex, s, n - 1, prev);
    }
  }

  lemma StripStep(m: Mode, restartIndex: nat, s: seq<nat>, i: nat, st: ScanState)
    requires IsStrip(m) && i < |s| && s[i] != restartIndex
    requires Consistent(m, s, i, st) && StripShape(s, VerticesPerPrim(m), i, st)
    ensures StripShape(s, VerticesPerPrim(m), i + 1, Step(m, restartIndex, s, i, st))
  {
    if i >= VerticesPerPrim(m) - 1 {
      StripSlide(m, restartIndex, s, i, st);
    } else {
      StripFill(m, restartIndex, s, i, st);
    }
  }

  /** Before the first primitive is complete the window just collects the indices read. */
  lemma StripFill(m: Mode, restartIndex: nat, s: seq<nat>, i: nat, st: ScanState)
    requires IsStrip(m) && i < |s| && s[i] != restartIndex && i < VerticesPerPrim(m) - 1
    requires Consistent(m, s, i, st) && st == ScanState(s[..i], 0, [])
    ensures Step(m, restartIndex, s, i, st) == ScanState(s[..i + 1], 0, [])
  {
    assert st.buf + [s[i]] == s[..i + 1];
    StepPush(m, restartIndex, s, i, st);
  }

  /** Once the window holds `v - 1` indices, each index emits one primitive and slides the window. */
  lemma StripSlide(m: Mode, restartIndex: nat, s: seq<nat>, i: nat, st: ScanState)
    requires IsStrip(m) && i < |s| && s[i] != restartIndex && i >= VerticesPerPrim(m) - 1
    requires Consistent(m, s, i, st)
    requires st == ScanState(s[i - (VerticesPerPrim(m) - 1)..i], 0, StripPrims(s[..i], VerticesPerPrim(m)))
    ensures Step(m, restartIndex, s, i, st)
            == ScanState(s[i + 1 - (VerticesPerPrim(m) - 1)..i + 1], 0, StripPrims(s[..i + 1], VerticesPerPrim(m)))
  {
    var v := VerticesPerPrim(m);
    var a := i + 1 - v;
    var w := st.buf + [s[i]];
    assert w == s[a..i + 1];
    StripPrimsSnoc(s, v, i);
    StepEmit(m, restartIndex, s, i, st);
    assert Carry(m, w) == w[1..] == s[a + 1..i + 1];
  }

  /** Reading index `i` of a strip completes the primitive that ends at it. */
  lemma StripPrimsSnoc(s: seq<nat>, v: nat, i: nat)
    requires 1 <= v <= i + 1 <= |s|
    ensures StripPrims(s[..i + 1], v) == StripPrims(s[..i], v) + s[i + 1 - v..i + 1]
  {
    var p := s[..i + 1];
    assert p[..|p| - 1] == s[..i] && p[|p| - v..] == s[i + 1 - v..i + 1];
  }

  /** A restart-free line or triangle strip emits each window of consecutive vertices, unflipped. */
  lemma UnrollStrip(m: Mode, restartIndex: nat, s: seq<nat>)
    requires (m == LineStrip || m == TriangleStrip) && NoRestart(s, restartIndex)
    ensures Unroll(m, restartIndex, s) == StripPrims(s, VerticesPerPrim(m))
  {
    ScanStrip(m, restartIndex, s, |s|);
    assert s[..|s|] == s;
  }

  /**
   * A restart-free line loop emits the edges of the line strip and then the closing edge
   * from the last vertex back to the first; a single vertex gives a degenerate edge.
   */
  lemma UnrollLineLoop(restartIndex: nat, s: seq<nat>)
    requires NoRestart(s, restartIndex)
    ensures Unroll(LineLoop, restartIndex, s)
            == StripPrims(s, 2) + (if s == [] then [] else [s[|s| - 1], s[0]])
  {
    var st := Scan(LineLoop, restartIndex, s, |s|);
    ScanStrip(LineLoop, restartIndex, s, |s|);
    assert s[..|s|] == s;
    assert st.out == StripPrims(s, 2) && st.primBegin == 0;
    if s == [] {
      assert st.buf == [];
    } else {
      assert st.buf == [s[|s| - 1]];
    }
    assert Unroll(LineLoop, restartIndex, s) == Finish(LineLoop, s, st);
  }

  // ---------------------------------------------------------------- fans

  /**
   * The first `k` triangles the unroller emits for a fan: triangle `j` is the anchor with
   * vertices `2j+1` and `2j+2`, so consecutive triangles share only the anchor.
   */
  function FanPairs(p: seq<nat>, k: nat): (r: seq<nat>)
    requires 2 * k < |p|
    ensures |r| == 3 * k
  {
    if k == 0 then [] else FanPairs(p, k - 1) + [p[0], p[2 * k - 1], p[2 * k]]
  }

  /**
   * For a restart-free fan of `n > 0` indices the window holds the anchor, followed by the
   * last index read when it has not yet been used in a triangle.
   */
  predicate FanShape(s: seq<nat>, n: nat, st: ScanState)
    requires 0 < n <= |s|
  {
    st == ScanState(if (n - 1) % 2 == 0 then [s[0]] else [s[0], s[n - 1]], 0, FanPairs(s, (n - 1) / 2))
  }

  lemma {:induction false} ScanFan(restartIndex: nat, s: seq<nat>, n: nat)
    requires NoRestart(s, restartIndex) && 0 < n <= |s|
    ensures FanShape(s, n, Scan(TriangleFan, restartIndex, s, n))
  {
    if n == 1 {
      StepPush(TriangleFan, restartIndex, s, 0, ScanState([], 0, []));
    } else {
      ScanFan(restartIndex, s, n - 1);
      FanStep(restartIndex, s, n - 1, Scan(TriangleFan, restartIndex, s, n - 1));
    }
  }

  lemma FanStep(restartIndex: nat, s: seq<nat>, i: nat, st: ScanState)
    requires 0 < i < |s| && s[i] != restartIndex
    requires Consistent(TriangleFan, s, i, st) && FanShape(s, i, st)
    ensures FanShape(s, i + 1, Step(TriangleFan, restartIndex, s, i, st))
  {
    var k := (i - 1) / 2;
    if (i - 1) % 2 == 0 {
      assert i == 2 * k + 1 && i % 2 == 1 && i / 2 == k;
      assert st == ScanState([s[0]], 0, FanPairs(s, k));
      StepPush(TriangleFan, restartIndex, s, i, st);
      assert Step(TriangleFan, restartIndex, s, i, st) == ScanState([s[0], s[i]], 0, FanPairs(s, k));
    } else {
      assert i == 2 * k + 2 && i % 2 == 0 && i / 2 == k + 1;
      assert st == ScanState([s[0], s[i - 1]], 0, FanPairs(s, k));
      StepEmit(TriangleFan, restartIndex, s, i, st);
      assert FanPairs(s, k + 1) == st.out + [s[0], s[i - 1], s[i]];
      assert Step(TriangleFan, restartIndex, s, i, st) == ScanState([s[0]], 0, FanPairs(s, k + 1));
    }
  }

  /**
   * A restart-free fan keeps only its anchor after each triangle, so it emits (|s| - 1) / 2
   * triangles that each take two fresh vertices.
   */
  lemma UnrollFan(restartIndex: nat, s: seq<nat>)
    requires NoRestart(s, restartIndex) && s != []
    ensures Unroll(TriangleFan, restartIndex, s) == FanPairs(s, (|s| - 1) / 2)
  {
    ScanFan(restartIndex, s, |s|);
  }

  // ---------------------------------------------------------------- the unrolled stream

  /** Two multiples of an arity (1..6) less than one arity apart are equal. */
  lemma SameMultiple(a: nat, b: nat, v: nat)
    requires 1 <= v <= 6 && a % v == 0 && b % v == 0 && b <= a < b + v
    ensures a == b
  {
    if v == 1 {
    } else if v == 2 {
    } else if v == 3 {
    } else if v == 4 {
    } else if v == 5 {
    } else {
    }
  }

  /**
   * The unrolled stream is exactly what a restart-free draw of the decomposed list
   * topology consumes: unrolling it again with that topology gives it back unchanged.
   */
  lemma UnrollDecomposedIsFixpoint(m: Mode, restartIndex: nat, s: seq<nat>)
    ensures var r := Unroll(m, restartIndex, s);
            Unroll(DecomposedPrim(m), restartIndex, r) == r
  {
    var r := Unroll(m, restartIndex, s);
    var d := DecomposedPrim(m);
    UnrollHasNoRestart(m, restartIndex, s);
    UnrollLength(m, restartIndex, s);
    UnrollList(d, restartIndex, r);
    UnrollLength(d, restartIndex, r);
    var r2 := Unroll(d, restartIndex, r);
    SameMultiple(|r|, |r2|, VerticesPerPrim(d));
    assert r[..|r|] == r;
  }

  /** Every unrolled index has the width of the input indices. */
  lemma UnrollKeepsWidth(m: Mode, restartIndex: nat, s: seq<nat>, indexSize: nat)
    requires ValidIndexSize(indexSize) && FitsWidth(s, indexSize)
    ensures FitsWidth(Unroll(m, restartIndex, s), indexSize)
  {
    UnrollHasNoRestart(m, restartIndex, s);
  }

  // ---------------------------------------------------------------- examples

  const R: nat := 0xffff

  lemma ExampleTriangles()
    ensures Unroll(Triangles, R, [0, 1, 2, R, 3, 4, 5]) == [0, 1, 2, 3, 4, 5]
  {
    assert [0, 1, 2, R, 3, 4, 5] == [0, 1, 2] + [R] + [3, 4, 5];
    RestartSplits(Triangles, R, [0, 1, 2], [3, 4, 5]);
    UnrollList(Triangles, R, [0, 1, 2]);
    UnrollList(Triangles, R, [3, 4, 5]);
  }

  lemma ExampleTrianglesPartialDropped()
    ensures Unroll(Triangles, R, [0, 1, R, 2, 3, 4]) == [2, 3, 4]
  {
    assert [0, 1, R, 2, 3, 4] == [0, 1] + [R] + [2, 3, 4];
    RestartSplits(Triangles, R, [0, 1], [2, 3, 4]);
    UnrollList(Triangles, R, [0, 1]);
    UnrollList(Triangles, R, [2, 3, 4]);
  }

  lemma ExampleTriangleStrip()
    ensures Unroll(TriangleStrip, R, [0, 1, 2, 3]) == [0, 1, 2, 1, 2, 3]
  {
    UnrollStrip(TriangleStrip, R, [0, 1, 2, 3]);
  }

  lemma ExampleFanFour()
    ensures Unroll(TriangleFan, R, [0, 1, 2, 3]) == [0, 1, 2]
  {
    UnrollFan(R, [0, 1, 2, 3]);
  }

  lemma ExampleFanFive()
    ensures Unroll(TriangleFan, R, [0, 1, 2, 3, 4]) == [0, 1, 2, 0, 3, 4]
  {
    UnrollFan(R, [0, 1, 2, 3, 4]);
  }

  lemma ExampleLineLoop()
    ensures Unroll(LineLoop, R, [0, 1, 2]) == [0, 1, 1, 2, 2, 0]
  {
    UnrollLineLoop(R, [0, 1, 2]);
  }

  lemma ExampleLineLoopRestart()
    ensures Unroll(LineLoop, R, [0, 1, R, 2, 3]) == [0, 1, 1, 0, 2, 3, 3, 2]
  {
    assert [0, 1, R, 2, 3] == [0, 1] + [R] + [2, 3];
    RestartSplits(LineLoop, R, [0, 1], [2, 3]);
    UnrollLineLoop(R, [0, 1]);
    UnrollLineLoop(R, [2, 3]);
  }

  lemma ExampleLineLoopSingle()
    ensures Unroll(LineLoop, R, [5]) == [5, 5]
  {
    UnrollLineLoop(R, [5]);
  }
}
