/**
 * The primitive topologies the restart helper decomposes, and the three per-topology
 * tables it consults (vertices per primitive, the decomposed topology, and trimming of a
 * vertex count to whole primitives).
 */
module Prim {

  import opened Indices

  /**
   * enum mesa_prim, restricted to the topologies the unroller's window switch names.
   * Every other topology reaches its `unreachable` default.
   */
  datatype Mode =
    | Points
    | Lines
    | LineLoop
    | LineStrip
    | Triangles
    | TriangleStrip
    | TriangleFan
    | LinesAdjacency
    | TrianglesAdjacency

  /** mesa_vertices_per_prim: the arity of one primitive of the topology. */
  function VerticesPerPrim(m: Mode): (n: nat)
    ensures 1 <= n <= 6
  {
    match m
    case Points => 1
    case Lines | LineLoop | LineStrip => 2
    case Triangles | TriangleStrip | TriangleFan => 3
    case LinesAdjacency => 4
    case TrianglesAdjacency => 6
  }

  /** Topologies whose primitives share no vertices: the window is cleared after each one. */
  predicate IsList(m: Mode)
  {
    m.Points? || m.Lines? || m.Triangles? || m.LinesAdjacency? || m.TrianglesAdjacency?
  }

  /** Topologies whose window slides by one vertex after each primitive. */
  predicate IsStrip(m: Mode)
  {
    m.LineLoop? || m.LineStrip? || m.TriangleStrip?
  }

  /** u_decomposed_prim: the list topology that the unrolled index stream is drawn with. */
  function DecomposedPrim(m: Mode): (d: Mode)
    ensures IsList(d)
    ensures VerticesPerPrim(d) == VerticesPerPrim(m)
    ensures IsList(m) ==> d == m
  {
    match m
    case LineLoop | LineStrip => Lines
    case TriangleStrip | TriangleFan => Triangles
    case _ => m
  }

  /** The minimum vertex count of a drawable primitive of the topology. */
  function MinVertices(m: Mode): nat
  {
    match m
    case Points => 1
    case Lines | LineLoop | LineStrip => 2
    case Triangles | TriangleStrip | TriangleFan => 3
    case LinesAdjacency => 4
    case TrianglesAdjacency => 6
  }

  /** How many further vertices each additional primitive of the topology consumes. */
  function VertexIncrement(m: Mode): nat
  {
    match m
    case Points => 1
    case Lines => 2
    case Triangles => 3
    case LinesAdjacency => 4
    case TrianglesAdjacency => 6
    case LineLoop | LineStrip | TriangleStrip | TriangleFan => 1
  }

  /** `n` is a whole number of steps of `k` vertices. */
  predicate MultipleOf(n: nat, k: nat)
    requires k >= 1
    decreases n
  {
    n == 0 || (n >= k && MultipleOf(n - k, k))
  }

  /** `count` rounded down to a multiple of `k`: the largest whole number of `k`-steps it holds. */
  function RoundDown(count: nat, k: nat): (t: nat)
    requires k >= 1
    ensures t <= count && count - t < k && MultipleOf(t, k)
    ensures count >= k ==> t >= k
    decreases count
  {
    if count < k then 0 else RoundDown(count - k, k) + k
  }

  /**
   * u_trim_pipe_prim: `None` when `count` is too short for a single primitive (a degenerate
   * primitive), otherwise the count rounded down to a whole number of vertex increments.
   */
  function TrimPrim(m: Mode, count: nat): (r: Option<nat>)
    ensures r.None? <==> count < MinVertices(m)
    ensures r.Some? ==> 1 <= MinVertices(m) <= r.value <= count
    ensures r.Some? ==> count - r.value < VertexIncrement(m) && MultipleOf(r.value, VertexIncrement(m))
  {
    if count < MinVertices(m) then None else Some(RoundDown(count, VertexIncrement(m)))
  }
}
