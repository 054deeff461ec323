/**
 * util_draw_vbo_without_prim_restart: validates the draw, applies an indirect parameter
 * block, locates the index data, unrolls it and issues one restart-free draw downstream.
 * The downstream `draw_vbo` entry point is modelled by returning the call it receives.
 */
module DrawRewrite {

  import opened Indices
  import opened Prim
  import opened UnrollSpec
  import Unroller

  /** enum pipe_error, restricted to the codes this function returns. */
  datatype PipeError = PipeOk | PipeErrorBadInput | PipeErrorOutOfMemory

  /**
   * The index data of a draw: the contents of an index buffer object, or a host address
   * that may be null (`has_user_indices` together with `index.resource` / `index.user`).
   */
  datatype IndexSource = Resource(data: seq<nat>) | User(ptr: Option<seq<nat>>)

  /** The fields of struct pipe_draw_info that this function reads or writes. */
  datatype DrawInfo = DrawInfo(
    mode: Mode,
    indexSize: nat,
    primitiveRestart: bool,
    restartIndex: nat,
    index: IndexSource,
    instanceCount: nat,
    startInstance: nat,
    minIndex: nat,
    maxIndex: nat,
    indexBoundsValid: bool)

  /** DrawElementsIndirectCommand, as laid out in the indirect buffer. */
  datatype IndirectCommand = IndirectCommand(
    count: nat,
    primCount: nat,
    firstIndex: nat,
    baseVertex: int,
    reservedMustBeZero: nat)

  /** One call of the downstream `draw_vbo` (its indirect argument is always null here). */
  datatype DrawCall = DrawCall(info: DrawInfo, drawidOffset: nat, draws: seq<DrawRange>)

  /** The draw after an indirect block (only its first three fields are read) overrides it. */
  function ResolvedDraw(draw: DrawRange, indirect: Option<IndirectCommand>): (d: DrawRange)
    ensures d.indexBias == draw.indexBias
    ensures indirect.None? ==> d == draw
    ensures indirect.Some? ==> d.count == indirect.value.count && d.start == indirect.value.firstIndex
  {
    match indirect
    case None => draw
    case Some(cmd) => draw.(count := cmd.count, start := cmd.firstIndex)
  }

  /** The index data covers the resolved draw's range (the caller guarantees this). */
  predicate InBounds(info: DrawInfo, d: DrawRange)
  {
    match info.index
    case Resource(data) => d.start + d.count <= |data|
    case User(ptr) => ptr.Some? ==> d.start + d.count <= |ptr.value|
  }

  /** The `count` indices the draw consumes, starting at `start`. */
  function IndexStream(info: DrawInfo, d: DrawRange): (s: seq<nat>)
    requires InBounds(info, d) && info.index != User(None)
    ensures |s| == d.count
  {
    match info.index
    case Resource(data) => data[d.start..d.start + d.count]
    case User(ptr) => ptr.value[d.start..d.start + d.count]
  }

  /**
   * The rewritten draw: restart off, bounds invalid, decomposed topology, user indices from
   * the unroller's buffer, bounds reported as 0..UINT32_MAX, the indirect instance count
   * applied, and every other field as in the original.
   */
  predicate RewrittenInfo(info: DrawInfo, indirect: Option<IndirectCommand>, newInfo: DrawInfo)
  {
    && newInfo.index.User? && newInfo.index.ptr.Some?
    && newInfo == info.(
         primitiveRestart := false,
         indexBoundsValid := false,
         mode := DecomposedPrim(info.mode),
         index := newInfo.index,
         minIndex := 0,
         maxIndex := U32Max,
         instanceCount := if indirect.Some? then indirect.value.primCount else info.instanceCount)
  }

  /**
   * Errors: an index size other than 1, 2 or 4 and a null user index array are bad input; an
   * index buffer that cannot be mapped (`mapOk` false) is out of memory. Otherwise exactly
   * one downstream draw is issued: start 0, the unrolled count, the original draw's bias
   * (never the indirect block's), reading the unrolled stream of the resolved range.
   */
  method DrawVboWithoutPrimRestart(info: DrawInfo, drawidOffset: nat, indirect: Option<IndirectCommand>,
                                   draw: DrawRange, mapOk: bool)
    returns (err: PipeError, call: Option<DrawCall>)
    requires info.primitiveRestart
    requires ValidIndexSize(info.indexSize) && info.index != User(None) && (info.index.Resource? ==> mapOk)
             ==> InBounds(info, ResolvedDraw(draw, indirect))
    ensures err == PipeErrorBadInput <==> !ValidIndexSize(info.indexSize) || info.index == User(None)
    ensures err == PipeErrorOutOfMemory <==> ValidIndexSize(info.indexSize) && info.index.Resource? && !mapOk
    ensures err == PipeOk <==> call.Some?
    ensures call.Some? ==>
              var d := ResolvedDraw(draw, indirect);
              var drawn := Unroll(info.mode, info.restartIndex, IndexStream(info, d));
              && RewrittenInfo(info, indirect, call.value.info)
              && call.value.drawidOffset == drawidOffset
              && call.value.draws == [DrawRange(0, |drawn|, draw.indexBias)]
              && |call.value.info.index.ptr.value| == 6 * d.count
              && |drawn| <= |call.value.info.index.ptr.value|
              && call.value.info.index.ptr.value[..|drawn|] == drawn
  {
    var newInfo := info;
    var newDraw := draw;

    if !ValidIndexSize(info.indexSize) {
      return PipeErrorBadInput, None;
    }

    if indirect.Some? {
      newDraw := newDraw.(count := indirect.value.count, start := indirect.value.firstIndex);
      newInfo := newInfo.(instanceCount := indirect.value.primCount);
    }

    // Get the index data.
    var srcMap: seq<nat>;
    match info.index {
      case Resource(data) =>
        if !mapOk {
          return PipeErrorOutOfMemory, None;
        }
        srcMap := data[newDraw.start..newDraw.start + newDraw.count];
      case User(ptr) =>
        if ptr.None? {
          return PipeErrorBadInput, None;
        }
        srcMap := ptr.value[newDraw.start..newDraw.start + newDraw.count];
    }

    var outMap, numDraws, minIndex, maxIndex, total :=
      Unroller.ConvertToDirect(srcMap, newInfo.indexSize, newInfo.mode, newInfo.restartIndex);
    newInfo := newInfo.(minIndex := minIndex, maxIndex := maxIndex);

    newInfo := newInfo.(
      primitiveRestart := false,
      indexBoundsValid := false,
      mode := DecomposedPrim(info.mode),
      index := User(Some(outMap[..])));

    var directDraw := DrawRange(0, total, draw.indexBias);
    return PipeOk, Some(DrawCall(newInfo, drawidOffset, [directDraw]));
  }

  /**
   * What the downstream draw reads contains no restart index, and is a whole number of
   * primitives of the decomposed topology.
   */
  lemma DrawnStreamIsRestartFree(info: DrawInfo, d: DrawRange)
    requires InBounds(info, d) && info.index != User(None)
    ensures var drawn := Unroll(info.mode, info.restartIndex, IndexStream(info, d));
            && info.restartIndex !in drawn
            && |drawn| % VerticesPerPrim(DecomposedPrim(info.mode)) == 0
            && |drawn| <= 6 * d.count
  {
    var s := IndexStream(info, d);
    UnrollHasNoRestart(info.mode, info.restartIndex, s);
    UnrollLength(info.mode, info.restartIndex, s);
  }
}
