# Primitive-restart emulation, modelled in Dafny

This project models the primitive-restart emulation helper of Mesa's Gallium auxiliary
library (`src/gallium/auxiliary/util/u_prim_restart.c`). A renderer that cannot process
a restart index natively uses the helper in one of two ways:

- it remaps an arbitrary restart index to the width's all-ones sentinel; or
- it *unrolls* the indexed draw into a flat list of points, lines, triangles or adjacency
  primitives with no restart markers.

The model covers the four pieces of index-array logic in that file:

| piece | source | Dafny |
|---|---|---|
| restart-index translator | `util_translate_prim_restart_data` | module `Remap`, file `remap.dfy` |
| primitive unroller (the `SCAN_INDEXES` loop) | `util_prim_restart_convert_to_direct` | pure specification `UnrollSpec` (`unroll_spec.dfy`), closed forms and examples `UnrollShapes` (`unroll_shapes.dfy`), array method `Unroller` (`unroller.dfy`) |
| range accumulator | `struct range_info`, `add_range` | class `Ranges.RangeInfo` (`ranges.dfy`) |
| draw rewrite | `util_draw_vbo_without_prim_restart` | module `DrawRewrite` (`draw_rewrite.dfy`) |

The shared modules are `Indices` (index widths, 32-bit `unsigned` wrap-around, the
`pipe_draw_start_count_bias` record) and `Prim` (the topologies and their tables).

How the model is built:

- Index values are `nat`. The three `SCAN_INDEXES` instantiations (8, 16 and 32 bits) differ
  only in element type, so they are one generic scan.
- The unroller is specified as a left fold, `UnrollSpec.Scan`. Its state is the window,
  `prim_begin` and the indices emitted so far. `UnrollSpec.Unroll` adds the end-of-stream
  line-loop closure.
- `Unroller.ConvertToDirect` runs the same scan imperatively. It uses a six-slot `buf` array
  and an output array of `6 * count` zero-filled entries (the `calloc`, at the size it
  evidently intends; see Findings). It is proved to
  leave exactly `Unroll` in the first `total` entries.
- Beyond the fold, `UnrollShapes` proves these facts:
  - a restart splits the stream into pieces that are unrolled independently;
  - restart-free lists, strips, fans and line loops unroll to closed forms;
  - the unrolled stream is a fixpoint of the decomposed list topology;
  - the concrete examples listed in the table below hold.

Three behaviours of the code are worth knowing when reading the lemmas:

- **Triangle fans.** After each fan triangle the code keeps only `buf[0]` and sets
  `buf_size = 1` (u_prim_restart.c:202-205). The next triangle therefore takes two fresh
  vertices, so `[0,1,2,3]` unrolls to `0,1,2`. `UnrollShapes.UnrollFan` states this:
  triangle `j` is (anchor, `2j+1`, `2j+2`).
- **Triangle strips.** Line and triangle strips slide the window by one slot and do not
  swap vertices for odd triangles (u_prim_restart.c:207-215). `[0,1,2,3]` gives
  `0,1,2,1,2,3`.
- **Translator widening.** 1-byte input is written to a 16-bit destination
  (u_prim_restart.c:67-74). Translating twice therefore equals translating once only for 2-
  and 4-byte indices, and `Remap.TranslateIdempotent` is stated for those.

## Model

| member | source | states |
|---|---|---|
| `Indices.AddU32` | src/gallium/auxiliary/util/u_prim_restart.c:141 | `unsigned` addition: the result is below 2^32, equals the sum when that fits, and is the sum modulo 2^32 |
| `Prim.VerticesPerPrim` | src/gallium/auxiliary/util/u_prim_restart.c:161-167 | the arity of every supported topology is between 1 and 6, so a window of `buf[6]` can hold one primitive |
| `Prim.DecomposedPrim` | src/gallium/auxiliary/util/u_prim_restart.c:323 | the topology the unrolled stream is drawn with is a list topology of the same arity; list topologies map to themselves |
| `Prim.TrimPrim` | src/gallium/auxiliary/util/u_prim_restart.c:111-113 | trimming fails exactly when the count is below one primitive. On success the trimmed count is at least one primitive and at most the count; it is a multiple of the vertex increment and less than one increment below the count |
| `Remap.DestSize` | src/gallium/auxiliary/util/u_prim_restart.c:67-73 | 1-byte input is written to a 16-bit destination; 2- and 4-byte input keep their width |
| `Remap.TranslatePrimRestartData` | src/gallium/auxiliary/util/u_prim_restart.c:62-92 | the first `count` destination entries become the translation of the original source entries (source and destination may be the same array); every later destination entry is unchanged |
| `Remap.TranslateAt` | src/gallium/auxiliary/util/u_prim_restart.c:71-90 | entry `k` of the translation is the sentinel (0xffff for 1- and 2-byte input, 0xffffffff for 4-byte input) if `src[k]` is the restart index, else `src[k]` |
| `Remap.TranslateFitsDest` | src/gallium/auxiliary/util/u_prim_restart.c:67-90 | input that fits its width translates to output that fits the destination width (16 bits for 1-byte input) |
| `Remap.TranslateRemovesRestart` | src/gallium/auxiliary/util/u_prim_restart.c:71-90 | unless the restart index is the sentinel itself, no restart index is left in the output |
| `Remap.TranslateIdempotent` | src/gallium/auxiliary/util/u_prim_restart.c:75-90 | for 2- and 4-byte indices, translating twice with the same restart index equals translating once |
| `UnrollSpec.Carry` | src/gallium/auxiliary/util/u_prim_restart.c:192-219 | the window kept after a primitive is emitted (none for lists, `buf[0]` for fans, the window shifted by one for strips and loops) is shorter than a primitive |
| `UnrollSpec.Step` | src/gallium/auxiliary/util/u_prim_restart.c:172-221 | one iteration keeps the loop-head invariant: `buf_size < verts_per_prim`, `prim_begin <= i`, and a non-empty window implies `prim_begin < i`, so the line-loop read `in_map[prim_begin]` stays inside the input |
| `UnrollSpec.Scan` | src/gallium/auxiliary/util/u_prim_restart.c:166-221 | the same invariant holds at the head of every iteration of the scan |
| `UnrollSpec.ScanKeepsFacts` | src/gallium/auxiliary/util/u_prim_restart.c:172-221 | after any number of indices, everything emitted and everything in the window is a non-restart input element; `in_map[prim_begin]` is not a restart index once read; the output is a multiple of the arity and at most arity times the indices read |
| `UnrollSpec.UnrollHasNoRestart` | src/gallium/auxiliary/util/u_prim_restart.c:172-225 | every emitted index, including the line-loop closing vertices, is a non-restart element of the input, so the output never contains the restart index |
| `UnrollSpec.UnrollLength` | src/gallium/auxiliary/util/u_prim_restart.c:163-225 | the output length is a multiple of `verts_per_prim` and at most `6 * count`, the intended size of the output allocation (see Findings) |
| `UnrollShapes.RestartSplits` | src/gallium/auxiliary/util/u_prim_restart.c:175-184 | unrolling `a + [restart] + b` gives the unrolling of `a` followed by the unrolling of `b`: a pending list primitive is dropped, a pending line loop is closed, and the window restarts empty |
| `UnrollShapes.UnrollList` | src/gallium/auxiliary/util/u_prim_restart.c:193-200 | a restart-free list stream is copied up to its last whole primitive; fewer than one primitive's worth of trailing indices is dropped |
| `UnrollShapes.UnrollStrip` | src/gallium/auxiliary/util/u_prim_restart.c:207-215 | a restart-free line or triangle strip emits every run of `verts_per_prim` consecutive indices, in order, with no winding flip |
| `UnrollShapes.UnrollLineLoop` | src/gallium/auxiliary/util/u_prim_restart.c:207-225 | a restart-free line loop emits the strip's edges and then the edge from the last vertex back to the first; a single vertex gives a degenerate edge |
| `UnrollShapes.UnrollFan` | src/gallium/auxiliary/util/u_prim_restart.c:202-205 | a restart-free fan of `n` indices emits `(n - 1) / 2` triangles; triangle `j` is the anchor with indices `2j+1` and `2j+2` |
| `UnrollShapes.UnrollDecomposedIsFixpoint` | src/gallium/auxiliary/util/u_prim_restart.c:321-329 | unrolling the output again with the decomposed list topology gives it back unchanged, so the restart-free draw consumes every emitted index |
| `UnrollShapes.UnrollKeepsWidth` | src/gallium/auxiliary/util/u_prim_restart.c:166-169 | if the input indices fit the index width, so do the emitted indices |
| `UnrollShapes.ExampleTriangles` | src/gallium/auxiliary/util/u_prim_restart.c:193-200 | triangles `[0,1,2,R,3,4,5]` unroll to `0,1,2,3,4,5` |
| `UnrollShapes.ExampleTrianglesPartialDropped` | src/gallium/auxiliary/util/u_prim_restart.c:175-184 | triangles `[0,1,R,2,3,4]` unroll to `2,3,4`: the partial triangle pending at the restart is dropped |
| `UnrollShapes.ExampleTriangleStrip` | src/gallium/auxiliary/util/u_prim_restart.c:207-215 | triangle strip `[0,1,2,3]` unrolls to `0,1,2,1,2,3` |
| `UnrollShapes.ExampleFanFour` | src/gallium/auxiliary/util/u_prim_restart.c:202-205 | triangle fan `[0,1,2,3]` unrolls to `0,1,2` only |
| `UnrollShapes.ExampleFanFive` | src/gallium/auxiliary/util/u_prim_restart.c:202-205 | triangle fan `[0,1,2,3,4]` unrolls to `0,1,2,0,3,4` |
| `UnrollShapes.ExampleLineLoop` | src/gallium/auxiliary/util/u_prim_restart.c:222-225 | line loop `[0,1,2]` unrolls to `0,1,1,2,2,0` |
| `UnrollShapes.ExampleLineLoopRestart` | src/gallium/auxiliary/util/u_prim_restart.c:176-179 | line loop `[0,1,R,2,3]` unrolls to `0,1,1,0,2,3,3,2` |
| `UnrollShapes.ExampleLineLoopSingle` | src/gallium/auxiliary/util/u_prim_restart.c:222-225 | line loop `[5]` unrolls to the degenerate edge `5,5` |
| `Unroller.ConvertToDirect` | src/gallium/auxiliary/util/u_prim_restart.c:146-250 | an index size other than 1, 2 or 4 returns null. Otherwise it returns a freshly allocated buffer of `6 * count` entries whose first `total` entries are the unrolled stream and whose rest stays zero. `total` is a multiple of `verts_per_prim`, and no emitted entry is the restart index. It reports one draw and bounds 0 to UINT32_MAX |
| `Unroller.ScanIndex` | src/gallium/auxiliary/util/u_prim_restart.c:172-221 | one loop iteration over the arrays takes the window, `prim_begin` and the output prefix from the scan state after `i` indices to the state after `i + 1`, writing only inside the `6 * count` buffer |
| `Unroller.EmitPrimitive` | src/gallium/auxiliary/util/u_prim_restart.c:186-219 | a full window is emitted and the window kept is the topology's carry: empty for lists, vertex 0 for fans, the window shifted by one for strips and loops. Together this is one scan step on a non-restart index that completes a primitive |
| `Unroller.CloseLoop` | src/gallium/auxiliary/util/u_prim_restart.c:222-225 | after the last index, a line loop with one vertex left gets the closing edge back to `prim_begin`. The output prefix then equals the whole unrolled stream, and the tail of the buffer stays zero |
| `Unroller.EmitWindow` | src/gallium/auxiliary/util/u_prim_restart.c:186-190 | the full window is appended to the output prefix and the count grows by exactly `verts_per_prim` |
| `Unroller.SlideWindow` | src/gallium/auxiliary/util/u_prim_restart.c:211-214 | the window's first `size - 1` slots become its old slots `1..size`; the slots from `size - 1` on are unchanged |
| `Ranges.TotalIsSumMod` | src/gallium/auxiliary/util/u_prim_restart.c:141 | the running `unsigned` total is the sum of all recorded counts modulo 2^32 |
| `Ranges.AppendStats` | src/gallium/auxiliary/util/u_prim_restart.c:133-141 | folding one more range into MIN2/MAX2/total gives the statistics of the extended list |
| `Ranges.RangeInfo.constructor` | src/gallium/auxiliary/util/u_prim_restart.c:96-101 | an empty accumulator: no array, capacity 0, minimum UINT32_MAX, maximum and total 0 |
| `Ranges.RangeInfo.Reserve` | src/gallium/auxiliary/util/u_prim_restart.c:115-132 | capacity becomes 10 on first use and doubles when full, keeping the recorded ranges. An allocation failure returns false and loses the array. Otherwise `count < max` afterwards |
| `Ranges.RangeInfo.Save` | src/gallium/auxiliary/util/u_prim_restart.c:133-141 | the range is appended at position `count` with earlier entries unchanged, and minimum, maximum and total are updated |
| `Ranges.RangeInfo.AddRange` | src/gallium/auxiliary/util/u_prim_restart.c:108-144 | a degenerate range returns true and changes nothing. Otherwise it returns false exactly when a needed allocation fails. On success it appends (start, trimmed count, bias), keeps `count <= max`, keeps min/max/total in agreement with the recorded ranges, and never drops or changes an earlier range. The array afterwards is the old one, a fresh one, or null after a failed allocation |
| `Ranges.AccumulateThree` | src/gallium/auxiliary/util/u_prim_restart.c:109-144 | three successive add_range calls on one accumulator: a trimmed range is recorded, a degenerate one is ignored, and a third fits the existing slots; the ranges are (5, 6, 0) and (2, 1, -3), with minimum 2, maximum 10 and total 7 |
| `DrawRewrite.ResolvedDraw` | src/gallium/auxiliary/util/u_prim_restart.c:285-290 | an indirect block overrides only count and start (its first three fields also give the instance count); the bias is always the original draw's |
| `DrawRewrite.IndexStream` | src/gallium/auxiliary/util/u_prim_restart.c:292-311 | the scanned indices are exactly `count` entries from `start` of the buffer or the user array |
| `DrawRewrite.DrawVboWithoutPrimRestart` | src/gallium/auxiliary/util/u_prim_restart.c:258-336 | a bad index size or a null user index array gives bad input; an unmappable index buffer gives out of memory; otherwise exactly one downstream draw is issued (PIPE_OK). That draw has restart off, bounds invalid, the decomposed topology, user indices holding the unrolled stream, the indirect instance count, start 0, the unrolled count and the original bias |
| `DrawRewrite.DrawnStreamIsRestartFree` | src/gallium/auxiliary/util/u_prim_restart.c:314-332 | what the downstream draw reads contains no restart index, is a whole number of primitives of the decomposed topology, and is at most `6 * count` long |
| `Unroller.AllocatedEntries` | src/gallium/auxiliary/util/u_prim_restart.c:163 | the entry count the allocation receives is below 2^32 and equals `6 * count` exactly when that product fits in 32 bits |
| `Unroller.WrappedAllocationTooSmall` | src/gallium/auxiliary/util/u_prim_restart.c:163-225 | for a count between 2^32 / 6 and 2^32 / 5, a restart-free point list unrolls to more entries than the wrapped allocation holds |
| `Unroller.ExampleWrappedAllocation` | src/gallium/auxiliary/util/u_prim_restart.c:163 | 715,827,883 indices get a two-entry buffer |

## Left out

- `read_indirect_elements` (u_prim_restart.c:42-60) reads the indirect block from device memory. The block is an input value (`IndirectCommand`). Only its count, instance count and first index are used, because those are the only fields copied.
- `pipe_buffer_map_range` and `pipe_buffer_unmap` (u_prim_restart.c:295-319) are device-buffer I/O. The mapped index buffer is its contents as a sequence, and a failed mapping is the `mapOk` flag. The caller's promise that the draw's range lies inside the index data is a precondition (`InBounds`), demanded only when the index size is valid, the indices are not a null user array, and, for an index buffer, the mapping succeeds.
- `context->draw_vbo` (u_prim_restart.c:332) is a foreign callback. The model returns the one call it would receive (`DrawCall`).
- `free` of the unrolled buffer after the draw (u_prim_restart.c:333) is not modelled. Dafny arrays are garbage-collected.
- `calloc` in `util_prim_restart_convert_to_direct` (u_prim_restart.c:163) is assumed to succeed, because the source does not check its result.
- The buffer leaked on the bad-size path of `util_prim_restart_convert_to_direct` (u_prim_restart.c:240-242) is not modelled.
- `MALLOC` and `REALLOC` in `add_range` (u_prim_restart.c:117, 124) succeed or fail according to the `allocOk` flag. On failure the array reference is lost (`draws` becomes null), as in the source. The leak of the old block is not modelled.
- `mesa_vertices_per_prim`, `u_decomposed_prim` and `u_trim_pipe_prim` come from u_prim.h, which is not part of this model. They are given as tables: `VerticesPerPrim`, `DecomposedPrim`, and `TrimPrim` with `MinVertices`/`VertexIncrement`. Rounding down to a whole number of increments is `RoundDown`, defined by repeated subtraction.
- Topologies other than the nine the unroller's switch names are excluded by the `Mode` type. These are quads, quad strip, polygon, the strip adjacency topologies and patches. The unroller reaches `unreachable("todo")` for them as soon as one of their primitives completes (u_prim_restart.c:186, 217-218).
- `debug_printf` (u_prim_restart.c:306) and the debug `assert`s are not modelled. The asserts that constrain callers are preconditions: `primitive_restart` set, and a 4-byte size in the translator's last branch.
- `Remap.TranslatePrimRestartData`: the debug assert that the size is 4 in its last branch becomes a precondition, so the model does not say what a release build does with other sizes.
- `Ranges.RangeInfo.AddRange`: takes only the nine topologies of `Mode`, although `add_range` (u_prim_restart.c:109-113) passes any `enum mesa_prim` to `u_trim_pipe_prim`. The trimming table for the other topologies (quads, quad strip, polygon, the adjacency topologies, patches) lives in u_prim.h, which is not part of this model, so `TrimPrim` is given only for these nine.
- `Ranges.RangeInfo.AddRange`: does not model 32-bit wrap-around of `count` and `max` (`max *= 2`), because it needs more than 2^31 ranges. It also takes `index_bias` as a signed value, the type of the field it is stored in.
- `DrawRewrite.IndexStream`: does not model the 32-bit wrap of the byte offset `start * index_size` (u_prim_restart.c:296, 310) or of the mapped length `count * index_size` (u_prim_restart.c:297). It reads the `count` whole indices from `start`. In C a start of 2^30 with 4-byte indices wraps to offset 0, and a count of 2^30 + 1 maps only 4 bytes.
- `DrawRewrite.DrawVboWithoutPrimRestart`: reads the index stream through `IndexStream`, so it inherits the unwrapped offset and map length, and what it promises holds only when `(start + count) * index_size` is below 2^32.
- Byte-level memory layout is not modelled (elements are whole indices). An in-place 1-byte translation, whose 16-bit writes would overwrite unread source bytes in C, is not represented.
- src/asahi/lib/agx_device.h and src/nouveau/vulkan/nvk_private.h are not part of this model. They hold device plumbing, constants and declarations with no index logic.
- `Unroller.ConvertToDirect`: allocates the intended `6 * count` entries, not the 32-bit-wrapped count the source computes (see Findings); the wrapped count is `Unroller.AllocatedEntries`.
- `DrawRewrite.DrawVboWithoutPrimRestart`: its user index array has the intended `6 * count` entries of `Unroller.ConvertToDirect`, not the wrapped allocation (see Findings).
- `Ranges.RangeInfo.constructor`: the initial values (no array, capacity 0, minimum UINT32_MAX, maximum and total 0) are a choice of this model, because the code that initialises a `range_info` is not in u_prim_restart.c. `Ranges.StatsAgree` holds for them and would not hold for other starting statistics.

## Findings

| source | as written | input that shows it | evidently intended | confidence | as-written member | corrected member |
|---|---|---|---|---|---|---|
| src/gallium/auxiliary/util/u_prim_restart.c:163 | the output buffer gets `draw->count * 6` entries, computed in 32-bit `unsigned` arithmetic, so the product wraps | a restart-free `MESA_PRIM_POINTS` draw of 715,827,883 indices: the buffer gets 2 entries and the scan writes 715,827,883 | a buffer of `6 * count` entries, which always holds the unrolled stream | not executed | `Unroller.WrappedAllocationTooSmall` | `Unroller.ConvertToDirect` |
