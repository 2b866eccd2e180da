# cushy: a verified model of the quad renderer and its building blocks

cushy is a small 2D graphics toolkit over OpenGL and glfw. This project models
the CPU-side bookkeeping at its heart and proves what that bookkeeping promises:

- the quad batching renderer (`QuadRenderer`) groups queued quads into runs
  sharing one texture, keeps a quad index buffer large enough for the queue,
  and issues one indexed draw per batch;
- a `Quad`'s size and the four vertices it produces for the CPU and GPU
  renderer types;
- the texture tree: raw textures and sub-regions of them, their sizes, the
  root they resolve to, their UV rectangles and the equality that lets atlas
  regions share a batch;
- the camera's cached projection, integer rectangle geometry with `clip`,
  the row-major canvas pixel buffer with its clipped drawing operations, and
  two colour types with byte packing and alpha blending;
- the GL buffer objects with GL calls kept as logs: index buffer quad
  patterns, vertex buffer capacity growth, vertex array attribute slots and
  offsets, attribute sizes and texture filters;
- the input tables: key names and printability, modifier strings, and the
  translation of glfw window events into cushy events and handler calls.

One module per source file (`Quad`, `Texture`, `Camera`, `Geo`, `Canvas`,
`GfxColor`, `CushyColor`, `Ibo`, `Vbo`, `Vao`, `Vertex`, `Tex2d`, `Keys`,
`Event`, plus `Opt` for `Option`). `f32`/`f64` values are `real`; `u32`
values are `nat`; wherever Rust's `u32` arithmetic can overflow, "## Left
out" names the member and says whether the model bounds the value or leaves
the overflow unmodelled; colours are `bv32`. Objects whose methods update fields are classes:
`QuadRenderer`, `Camera`, `Canvas` (pixels in an `array`), `IndexBuffer`,
`VertexBuffer` and `VertexArray`. GL effects are modelled by what they
leave behind: the renderer's projection, batch texture binds and draw calls,
a vertex buffer's data calls and a vertex array's attribute setups (one entry
per attribute, standing for its enable, pointer and divisor calls) are
entries appended to log fields; an index buffer upload is the copy it leaves
plus a count of uploads; a texture upload is the image value it returns;
other binds and unbinds are not modelled.

## Model

| member | source | states |
|---|---|---|
| Quad.New | cushy-gfx/src/quad.rs:141-149 | a new quad has the default transform, origin (0,0), opaque white, no forced size and no texture, so it has no size |
| Quad.HasSize | cushy-gfx/src/quad.rs:169-171 | a quad has a size when one was forced or a texture is attached |
| Quad.QuadSize | cushy-gfx/src/quad.rs:169-184 | a forced size wins; otherwise the size is the texture's pixel size; only defined when one of them exists |
| Quad.SetSize | cushy-gfx/src/quad.rs:166 | after forcing a size the quad has exactly that size; every other field is kept |
| Quad.SetTexture | cushy-gfx/src/quad.rs:186-188 | attaching a texture gives the quad a size, the texture's own unless one was forced; other fields are kept |
| Quad.MakeVertexCpu | cushy-gfx/src/quad.rs:202-255 | four vertices, each with the quad's colour, corners (0,0),(w,0),(0,h),(w,h) under the quad's transform, and UVs taken from the texture rectangle in the order (u1,v1),(u2,v1),(u1,v2),(u2,v2) |
| Quad.MakeVertexGpu | cushy-gfx/src/quad.rs:257-324 | four vertices with local corners (0,0),(w,0),(0,h),(w,h), the same colour and UV layout, and the same translation, rotation, scale and origin on all four |
| Quad.CpuAndGpuAgree | cushy-gfx/src/quad.rs:202-324 | the two renderer types give each corner the same colour, UV and local corner, and the GPU vertex carries the transform the CPU vertex applies |
| Quad.VertexUvsSelectTexture | cushy-gfx/src/quad.rs:206-213 | an untextured quad gets all-zero UVs; a textured one gets the corners of its texture's UV rectangle |
| Quad.CpuVertices | cushy-gfx/src/quad.rs:470-512 | building CPU vertices yields exactly four per queued quad |
| Quad.CpuVerticesAt | cushy-gfx/src/quad.rs:470-512 | vertex 4i+k of the flattened buffer is corner k of queued quad i: the queue order is kept |
| Quad.GpuVertices | cushy-gfx/src/quad.rs:514-536 | building GPU vertices yields exactly four per queued quad |
| Quad.GpuVerticesAt | cushy-gfx/src/quad.rs:514-536 | vertex 4i+k of the flattened buffer is corner k of queued quad i |
| Quad.BatchWithin | cushy-gfx/src/quad.rs:426-454 | in batches that tile n quads, every batch lies inside the first n quads |
| Quad.AddBatch | cushy-gfx/src/quad.rs:433-453 | the batch list either grows by one batch (texture, start = previous length, count 1) or keeps its length; earlier batches are untouched and the last batch has the quad's texture |
| Quad.AddBatchTiles | cushy-gfx/src/quad.rs:433-453 | adding a quad keeps the batches tiling the queue in order: consecutive, non-empty, covering exactly the quads |
| Quad.AddBatchAlternates | cushy-gfx/src/quad.rs:433-453 | adding a quad keeps adjacent batches' textures unequal |
| Quad.AddBatchHeaded | cushy-gfx/src/quad.rs:433-453 | each batch's texture stays equal to its first quad's texture |
| Quad.AddBatchUniformGrow | cushy-gfx/src/quad.rs:437-441 | extending the last batch keeps every quad's texture equal to its batch's |
| Quad.AddBatchUniformStart | cushy-gfx/src/quad.rs:442-452 | starting a new batch keeps every quad's texture equal to its batch's |
| Quad.AddBatchKeepsRuns | cushy-gfx/src/quad.rs:426-454 | adding a quad preserves the whole invariant: tiling, uniform texture per batch and alternation |
| Quad.BatchingIsRuns | cushy-gfx/src/quad.rs:426-454 | any sequence of adds from an empty renderer yields maximal texture runs |
| Quad.BatchingExample | cushy-gfx/src/quad.rs:426-454 | textures A,A,B,B,A batch as (A,0,2),(B,2,2),(A,4,1), and two regions of one atlas share a batch |
| Quad.BatchCalls | cushy-gfx/src/quad.rs:582-588 | a batch binds its texture's root only when it has one, then draws triangles from index 6·start, 6·count indices |
| Quad.Draws | cushy-gfx/src/quad.rs:582-588 | the draw ranges of a call log are at most as many as its calls |
| Quad.DrawsAppend | cushy-gfx/src/quad.rs:582-588 | the draws of two concatenated logs are the draws of each in turn |
| Quad.BatchDrawsOnce | cushy-gfx/src/quad.rs:582-588 | one batch issues exactly one draw, with range (6·start, 6·count) |
| Quad.Ranges | cushy-gfx/src/quad.rs:582-588 | one index range per batch |
| Quad.RangesSnoc | cushy-gfx/src/quad.rs:582-588 | the ranges of a batch list end with the last batch's range |
| Quad.DrawsAreRanges | cushy-gfx/src/quad.rs:582-588 | the draws issued for a batch list are exactly the batches' ranges, in batch order |
| Quad.OneDrawPerBatch | cushy-gfx/src/quad.rs:582-588 | exactly one draw per batch; draw k starts at index 6·start_k and spans 6·count_k indices |
| Quad.DrawReadsOwnBatch | cushy-gfx/src/quad.rs:543-596 | every index a batch's draw reads is in the index buffer and names a vertex of a quad inside that batch |
| Quad.GrowBatches | cushy-gfx/src/quad.rs:433-453 | the in-place update of the batch list (bump the last count or push a new batch) computes AddBatch |
| Quad.FitSize | cushy-gfx/src/quad.rs:463-468 | the fitted index buffer size is the larger of the old size and the quad count, so it never shrinks |
| Quad.ClearKeepsStaleBatch | cushy-gfx/src/quad.rs:422-424 | after the clear as written, re-adding a quad leaves a batch that points past the queue: the tiling is broken |
| Quad.DrawBatches | cushy-gfx/src/quad.rs:582-588 | the draw loop's call log is the batch-by-batch calls, in order |
| Quad.NothingQueuedRuns | cushy-gfx/src/quad.rs:379-412 | an empty queue with no batches satisfies the batching invariant |
| Quad.NewBuffers | cushy-gfx/src/quad.rs:365-377 | exactly the vertex buffer of the renderer type is created, fresh, valid, with stream usage, no capacity, no vertices and no upload calls, and its layout's attributes are registered on a fresh vertex array |
| Quad.NewIndexBuffer | cushy-gfx/src/quad.rs:456-461 | a fresh static index buffer holding the quad pattern for the given count, uploaded exactly once |
| Quad.QuadRenderer.constructor | cushy-gfx/src/quad.rs:379-412 | the renderer starts valid with an empty queue, no batches, parallel building on, a fresh empty stream vertex buffer of capacity 0 with no upload calls, an index buffer of 1024 quads uploaded once, and attribute slots numbered from 0 |
| Quad.QuadRenderer.ClearAsWritten | cushy-gfx/src/quad.rs:422-424 | clear as written empties the queue and leaves the batches untouched |
| Quad.QuadRenderer.Clear | cushy-gfx/src/quad.rs:422-424 | clear empties the queue and the batches and keeps the renderer valid |
| Quad.QuadRenderer.Add | cushy-gfx/src/quad.rs:426-454 | a quad without a size changes nothing; otherwise it is appended to the queue and the batches grow by AddBatch; the batching invariant is preserved |
| Quad.QuadRenderer.ResizeIbo | cushy-gfx/src/quad.rs:456-461 | the index buffer is regenerated for the new quad count and uploaded once more; nothing else changes |
| Quad.QuadRenderer.FitIbo | cushy-gfx/src/quad.rs:463-468 | the index buffer size becomes FitSize; the buffer is uploaded once more exactly when the count exceeds the old size, and when the queue already fits neither its contents nor its upload count change |
| Quad.QuadRenderer.BuildVerticesCpu | cushy-gfx/src/quad.rs:490-512 | drains the queue and returns its CPU vertices in queue order |
| Quad.QuadRenderer.BuildVerticesGpu | cushy-gfx/src/quad.rs:514-536 | drains the queue and returns its GPU vertices in queue order |
| Quad.QuadRenderer.UploadVertices | cushy-gfx/src/quad.rs:547-566 | the renderer's vertex buffer ends up holding the vertices of the drained queue, its GL store starts with them, and its capacity has grown as `upload` grows it |
| Quad.QuadRenderer.IssueCalls | cushy-gfx/src/quad.rs:571-595 | sets the projection, logs one batch's calls after another, and empties the batches |
| Quad.QuadRenderer.Draw | cushy-gfx/src/quad.rs:543-596 | after drawing, queue and batches are empty, the index buffer covers the drawn quads, never shrinks and is re-uploaded only when the queue outgrew it, the vertex buffer holds and has uploaded the queue's vertices, and the log gains the projection then one draw per batch in order |
| Texture.NewSub | cushy-gfx/src/texture.rs:118-129 | a sub-texture records its parent and region, with no bounds check |
| Texture.Underlying | cushy-gfx/src/texture.rs:131-136 | the GL texture a texture binds is its root raw texture's, through any number of regions |
| Texture.Root | cushy-gfx/src/texture.rs:131-136 | descending through parents always ends at a raw texture |
| Texture.UnderlyingOfNest | cushy-gfx/src/texture.rs:32-40 | any number of nested regions resolve to the same GL texture as the texture they were cut from |
| Texture.GetSize | cushy-gfx/src/texture.rs:138-143 | a raw texture has its stored size; a region has its own width and height |
| Texture.SubSizeIgnoresParent | cushy-gfx/src/texture.rs:138-143 | a region's size does not depend on its parent |
| Texture.SameTex | cushy-gfx/src/texture.rs:15-17 | two textures are equal when their underlying GL textures are |
| Texture.SameOptTex | cushy-gfx/src/quad.rs:437-441 | the optional textures of two quads are equal when both are absent or both present and equal |
| Texture.RegionsOfOneRootAreEqual | cushy-gfx/src/texture.rs:15-17 | a texture equals every region cut from it, and any two regions of one root are equal |
| Texture.SameOptTexIsEquivalence | cushy-gfx/src/texture.rs:15-17 | texture equality, lifted to optional textures with None equal to None, is an equivalence |
| Texture.UvIsPixelRectOverRoot | cushy-gfx/src/texture.rs:145-169 | the UV rectangle of any nesting is the region's pixel rectangle on the root divided by the root's size |
| Texture.InBoundsInsideRoot | cushy-gfx/src/texture.rs:118-129 | regions that fit their parents at every level fit the root |
| Texture.Uv | cushy-gfx/src/texture.rs:145-169 | a raw texture spans (0,0)-(1,1); a region spans its share of its parent's UV rectangle, scaled by its pixel offset and size over the parent's size |
| Texture.UvInUnitSquare | cushy-gfx/src/texture.rs:145-169 | for in-bounds regions the UVs are ordered and inside [0,1] |
| Texture.UvExample | cushy-gfx/src/texture.rs:145-169 | region (50,25,100,50) of a 200×100 texture maps to (0.25,0.25)-(0.75,0.75), and region (0,0,50,25) of that to (0.25,0.25)-(0.5,0.5) |
| Camera.ProjFor | cushy-gfx/src/camera.rs:87-92 | the projection is the orthographic box from (0,0) top-left to the viewport size bottom-right, with near 1 and far -1 |
| Camera.AxisRange | cushy-gfx/src/camera.rs:87-92 | the orthographic map sends the box edges to -1 and 1 and stays within them between |
| Camera.ProjMapsViewport | cushy-gfx/src/camera.rs:87-92 | viewport corners map to the clip-space corners and viewport points stay in [-1,1] |
| Camera.Camera.constructor | cushy-gfx/src/camera.rs:52-60 | no stretch, default transform, a 480×270 viewport and no cached projection |
| Camera.Camera.CalcProjMatrix | cushy-gfx/src/camera.rs:87-92 | caches the projection of the current viewport size and changes nothing else |
| Camera.Camera.SetStretchMode | cushy-gfx/src/camera.rs:66-69 | stores the mode and recomputes the projection from the current viewport |
| Camera.Camera.SetTransform | cushy-gfx/src/camera.rs:71-73 | stores the transform and changes nothing else |
| Camera.Camera.SetVpSize | cushy-gfx/src/camera.rs:75-78 | stores the size and caches its projection |
| Camera.Camera.ResizeEvent | cushy-gfx/src/camera.rs:80-85 | a window resize acts as setting the viewport size; any other event leaves the camera as it was |
| Camera.Camera.ProjMatrix | cushy-gfx/src/camera.rs:94-98 | only callable once a projection is cached; it is the projection of the viewport size |
| Geo.SizeDiv | cushy-gfx/src/geo.rs:39-44 | divides both components, the inverse of multiplying them by the divisor |
| Geo.SizeMul | cushy-gfx/src/geo.rs:50-55 | multiplying by one is the identity |
| Geo.SizeFromU | cushy-gfx/src/geo.rs:60-65 | the float size has exactly the integer size's values |
| Geo.PointFromSize | cushy-gfx/src/geo.rs:252-257 | a point from a size has x = w and y = h |
| Geo.PointAdd | cushy-gfx/src/geo.rs:266-271 | subtracting the addend gives back the first point |
| Geo.PointSub | cushy-gfx/src/geo.rs:280-285 | adding the subtrahend gives back the first point |
| Geo.SizeMulDiv | cushy-gfx/src/geo.rs:39-55 | dividing by a non-zero factor undoes multiplying by it |
| Geo.PointAddSub | cushy-gfx/src/geo.rs:266-285 | point addition and subtraction are inverse |
| Geo.PointMul | cushy-gfx/src/geo.rs:294-299 | scaling by one is the identity and by zero gives the origin |
| Geo.PointMulLinear | cushy-gfx/src/geo.rs:266-299 | scaling twice is scaling by the product, and scaling distributes over point addition |
| Geo.Contains | cushy-gfx/src/geo.rs:100-106 | a point lies in the half-open box x ≤ px < x+w, y ≤ py < y+h |
| Geo.ContainsAll | cushy-gfx/src/geo.rs:108-114 | the inner rectangle lies within the box on both axes |
| Geo.ContainsNone | cushy-gfx/src/geo.rs:116-123 | the other rectangle lies wholly left, right, above or below; touching edges share nothing |
| Geo.Intersects | cushy-gfx/src/geo.rs:125-127 | intersection is the negation of sharing nothing |
| Geo.IntersectsIffCommonCell | cushy-gfx/src/geo.rs:100-127 | two non-empty rectangles intersect exactly when some cell lies in both half-open boxes |
| Geo.Clip | cushy-gfx/src/geo.rs:138-178 | None exactly when either width is non-positive or the rectangles share nothing; otherwise the intersection rectangle and its offset from the other rectangle |
| Geo.ClipInsideBoth | cushy-gfx/src/geo.rs:138-178 | the clipped rectangle is contained in both inputs and its offset is non-negative |
| Geo.ClipNoUnderflow | cushy-gfx/src/geo.rs:150-173 | on unsigned rectangles, once the None guards pass, every subtraction stays non-negative and the result is unsigned |
| Geo.ScalingDefault | cushy-gfx/src/geo.rs:376-381 | default scaling is (1,1) |
| Geo.Reset | cushy-gfx/src/geo.rs:357-361 | reset gives the default scaling |
| Geo.Uniform | cushy-gfx/src/geo.rs:363-367 | uniform scaling by f sets both factors to f; by 1 it is a reset |
| Geo.TransformDefault | cushy-gfx/src/geo.rs:401-403 | the default transform is at the origin, unrotated, with default scaling |
| Geo.WithPos | cushy-gfx/src/geo.rs:405-408 | replaces the position only |
| Geo.WithRot | cushy-gfx/src/geo.rs:410-413 | replaces the rotation only |
| Geo.WithScale | cushy-gfx/src/geo.rs:415-418 | replaces the scaling only |
| Geo.WithAll | cushy-gfx/src/geo.rs:420-425 | replaces all three fields, the same as the three single replacements in turn |
| Canvas.Paint | cushy-gfx/src/canvas.rs:182-264 | painting a shape keeps the buffer length |
| Canvas.PaintAt | cushy-gfx/src/canvas.rs:182-264 | cell (x,y) holds the colour exactly when the shape covers it, and its old value otherwise |
| Canvas.PaintSameCells | cushy-gfx/src/canvas.rs:231-264 | two shapes that cover the same on-canvas cells paint the same result |
| Canvas.PaintTwice | cushy-gfx/src/canvas.rs:231-244 | painting two shapes in one colour is painting their union |
| Canvas.PaintCell | cushy-gfx/src/canvas.rs:182-189 | painting a one-cell box writes exactly that cell |
| Canvas.PaintOffCanvas | cushy-gfx/src/canvas.rs:194-264 | a shape covering no on-canvas cell changes nothing |
| Canvas.PaintWholeCanvas | cushy-gfx/src/canvas.rs:147-154 | painting the full canvas box sets every cell |
| Canvas.OutlineIsFourEdges | cushy-gfx/src/canvas.rs:231-244 | a rectangle outline covers exactly the top and bottom rows and the left and right columns |
| Canvas.RectFillUnderflows | cushy-gfx/src/canvas.rs:254-259 | the width computation as written goes negative for a rectangle starting right of the canvas |
| Canvas.RectFillWidthAsWritten | cushy-gfx/src/canvas.rs:251-259 | the width `rect_fill` clips to as written, computed without the unsigned wrap, so an underflow shows as a negative value |
| Canvas.ClippedExtent | cushy-gfx/src/canvas.rs:194-264 | a clipped run is the requested length or stops at the canvas edge, whichever comes first |
| Canvas.Canvas.constructor | cushy-gfx/src/canvas.rs:22-43 | w·h cells, all of the clear colour, and the canvas is dirty |
| Canvas.Canvas.Clear | cushy-gfx/src/canvas.rs:147-154 | every cell becomes the colour and the canvas is dirty |
| Canvas.Canvas.PosToIndex | cushy-gfx/src/canvas.rs:156-163 | a valid position maps to the row-major index y·w+x inside the buffer |
| Canvas.Canvas.PosValid | cushy-gfx/src/canvas.rs:160-163 | a position is valid when it lies on the canvas |
| Canvas.Canvas.GetPixel | cushy-gfx/src/canvas.rs:168-177 | Some of the cell exactly when the position is on the canvas |
| Canvas.Canvas.SetPixel | cushy-gfx/src/canvas.rs:182-189 | writes only that cell when on the canvas, otherwise nothing; dirty is set exactly when a cell was written |
| Canvas.Canvas.HLine | cushy-gfx/src/canvas.rs:194-210 | writes exactly the on-canvas cells of the row segment, nothing else, and leaves dirty alone |
| Canvas.Canvas.VLine | cushy-gfx/src/canvas.rs:212-229 | writes exactly the on-canvas cells of the column segment, nothing else |
| Canvas.Canvas.Rect | cushy-gfx/src/canvas.rs:231-244 | writes exactly the on-canvas cells of the outline; a zero-width or zero-height rectangle writes nothing |
| Canvas.Canvas.RectFill | cushy-gfx/src/canvas.rs:246-264 | writes exactly the cells of the rectangle that lie on the canvas |
| GfxColor.Default | cushy-gfx/src/color.rs:6 | the default colour has all four bytes zero |
| GfxColor.FromU8 | cushy-gfx/src/color.rs:17-24 | r in bits 0-7, g in 8-15, b in 16-23, a in 24-31 |
| GfxColor.ToU8 | cushy-gfx/src/color.rs:35-42 | reads the bytes back from the same positions |
| GfxColor.ToFromU8 | cushy-gfx/src/color.rs:17-42 | unpacking a packed colour gives the four bytes back |
| GfxColor.FromToU8 | cushy-gfx/src/color.rs:17-42 | packing an unpacked colour gives the colour back, for every 32-bit value |
| GfxColor.AsU32 | cushy-gfx/src/color.rs:55-57 | the u32 value converts back to the same colour |
| GfxColor.FromU32 | cushy-gfx/src/color.rs:74-76 | the colour holds exactly the given bits |
| GfxColor.FromTuple4 | cushy-gfx/src/color.rs:92-94 | a 4-tuple gives the colour whose bytes are that tuple |
| GfxColor.FromTuple3 | cushy-gfx/src/color.rs:98-100 | a 3-tuple gives those bytes with alpha 255 |
| CushyColor.FromU8 | src/color.rs:46-53 | r, g, b, a land in bytes 0 to 3 |
| CushyColor.AsU8 | src/color.rs:78-85 | reads the four bytes back from the same positions |
| CushyColor.AsFromU8 | src/color.rs:17-85 | unpacking a packed colour gives the four bytes back |
| CushyColor.FromAsU8 | src/color.rs:17-85 | packing an unpacked colour gives the colour back |
| CushyColor.AsU32 | src/color.rs:73-75 | the u32 value converts back to the same colour |
| CushyColor.FromU32 | src/color.rs:161-163 | the colour holds exactly the given bits |
| CushyColor.U32RoundTrip | src/color.rs:161-181 | the conversions to and from u32 are mutual inverses |
| CushyColor.FromTuple4 | src/color.rs:167-169 | a 4-tuple gives the colour whose bytes are that tuple |
| CushyColor.WithAlpha | src/color.rs:101-103 | keeps the RGB bits and replaces only the alpha byte |
| CushyColor.Blend | src/color.rs:105-111 | the blend never exceeds the larger input, so the byte cast never truncates; alpha 255 gives the source and 0 the destination |
| CushyColor.BlendBound | src/color.rs:105-111 | the unbounded blend formula is at most the larger input and hits the ends at alpha 255 and 0 |
| CushyColor.BlendSrcAlpha | src/color.rs:116-136 | an opaque source is returned as is, a transparent one yields the destination, otherwise each RGB channel is blended by the source alpha |
| CushyColor.BlendKeepsDstAlpha | src/color.rs:128-135 | a partial blend keeps the destination's alpha byte |
| CushyColor.None | src/color.rs:138-140 | the none colour is transparent black, all bytes zero |
| CushyColor.Transparent | src/color.rs:142-144 | alpha zero |
| CushyColor.Black | src/color.rs:146-148 | bytes (0,0,0,255) |
| CushyColor.White | src/color.rs:150-152 | bytes (255,255,255,255) |
| Ibo.QuadGroup | cushy-gl/src/ibo.rs:78-83 | each quad contributes six indices |
| Ibo.QuadIndices | cushy-gl/src/ibo.rs:69-84 | the index pattern of `auto_quads` for n quads, one group of six per quad |
| Ibo.QuadIndicesAt | cushy-gl/src/ibo.rs:69-84 | entries 6k..6k+5 are 4k+[0,1,2,2,1,3]; every index lies within its own quad's four vertices and below 4n |
| Ibo.QuadIndicesLength | cushy-gl/src/ibo.rs:69-84 | the pattern for n quads has 6n entries |
| Ibo.QuadIndicesPrefix | cushy-gl/src/ibo.rs:69-84 | the pattern for fewer quads is a prefix of the pattern for more |
| Ibo.DrawOffset | cushy-gl/src/ibo.rs:101-108 | the byte offset is four bytes per index, so first counts indices |
| Ibo.IndexBuffer.constructor | cushy-gl/src/ibo.rs:19-33 | starts with no data, nothing uploaded and no uploads made |
| Ibo.IndexBuffer.SetData | cushy-gl/src/ibo.rs:59-62 | replaces the data wholesale; the uploaded copy and upload count are kept |
| Ibo.IndexBuffer.AddData | cushy-gl/src/ibo.rs:64-67 | appends, keeping the existing prefix; the uploaded copy and upload count are kept |
| Ibo.IndexBuffer.AutoQuads | cushy-gl/src/ibo.rs:69-84 | discards the old contents and leaves exactly the quad pattern for the count; nothing is uploaded |
| Ibo.IndexBuffer.Upload | cushy-gl/src/ibo.rs:86-99 | the GPU copy becomes the data, which is unchanged, and the upload count grows by one |
| Vbo.GlUsage | cushy-gl/src/vbo.rs:17-23 | each usage maps to one of the three GL usage constants |
| Vbo.GlUsageInjective | cushy-gl/src/vbo.rs:17-23 | distinct usages map to distinct constants |
| Vbo.Grow | cushy-gl/src/vbo.rs:104-115 | the capacity grows to the data length when that is larger, and otherwise stays |
| Vbo.MaxOf | cushy-gl/src/vbo.rs:104-115 | the maximum is at least every element and is one of them |
| Vbo.CapacityIsMax | cushy-gl/src/vbo.rs:104-115 | across any sequence of uploads the capacity never decreases and is the largest length uploaded |
| Vbo.VertexBuffer.constructor | cushy-gl/src/vbo.rs:39-54 | capacity 0, no data, no GL calls |
| Vbo.VertexBuffer.SetData | cushy-gl/src/vbo.rs:68-70 | replaces the data; capacity and GPU store untouched |
| Vbo.VertexBuffer.SwapData | cushy-gl/src/vbo.rs:72-74 | the buffer takes the argument and hands back its old data |
| Vbo.VertexBuffer.AddVertices | cushy-gl/src/vbo.rs:76-78 | appends the vertices at the end |
| Vbo.VertexBuffer.Upload | cushy-gl/src/vbo.rs:92-118 | data unchanged; a longer data reallocates to its length, otherwise a sub-data update overwrites the prefix; the GPU store then starts with the data |
| Vao.GlType | cushy-gl/src/vao.rs:25-40 | each primitive maps to a GL primitive constant |
| Vao.GlTypeInjective | cushy-gl/src/vao.rs:25-40 | distinct primitives map to distinct constants |
| Vao.Setups | cushy-gl/src/vao.rs:86-125 | one attribute setup per attribute |
| Vao.SetupsAt | cushy-gl/src/vao.rs:86-125 | attribute i gets slot base+i, offset the byte sizes of attributes 0..i-1, the buffer's stride, its component count, GL type and normalisation flag, and a divisor only when positive |
| Vao.OffsetsWithinStride | cushy-gl/src/vao.rs:86-125 | for a consistent layout every attribute ends within the stride |
| Vao.VertexArray.constructor | cushy-gl/src/vao.rs:53-67 | base index 0 and no setups |
| Vao.VertexArray.AddVertexBuffer | cushy-gl/src/vao.rs:86-125 | the base index grows by the attribute count and the log gains the setups numbered from the old base |
| Vertex.GlDataOf | cushy-gl/src/vertex.rs:29-47 | count between 1 and 4, byte size the component count times the component width, float variants pass their normalised flag through, the others are always normalised |
| Vertex.SizeSum | cushy-gl/src/vertex.rs:29-47 | a non-empty attribute list takes at least four bytes |
| Vertex.SizeSumAligned | cushy-gl/src/vertex.rs:29-47 | attribute sizes sum to a multiple of four, between 4 and 16 bytes per attribute |
| Vertex.SizeSumAppend | cushy-gl/src/vertex.rs:29-47 | the byte size of concatenated lists adds |
| Vertex.PosVertex | cushy-gl/src/vertex.rs:63-74 | the position vertex: one Float2 over its two f32 fields |
| Vertex.ColorVertex | cushy-gl/src/vertex.rs:81-91 | the colour vertex: one UByte4 over its u32 |
| Vertex.TexCoordVertex | cushy-gl/src/vertex.rs:98-109 | the texture-coordinate vertex: one Float2 over its two f32 fields |
| Vertex.QuadVertexCpu | cushy-gfx/src/quad.rs:50-62 | the CPU quad vertex: Float3 position, UByte4 colour, Float2 UV over six four-byte fields |
| Vertex.QuadVertexGpu | cushy-gfx/src/quad.rs:99-123 | the GPU quad vertex: seven attributes over eleven f32 fields and one u32 colour |
| Vertex.LayoutsConsistent | cushy-gl/src/vertex.rs:55-108 | the position, colour, texture-coordinate and quad vertices' attributes fill strides of 8, 4, 8, 24 and 48 bytes, with divisor 0 by default |
| Tex2d.GlFilter | cushy-gl/src/tex2d.rs:15-20 | nearest and linear map to their own GL constants |
| Tex2d.DefaultFilters | cushy-gl/src/tex2d.rs:34-38 | the default is nearest for both min and mag |
| Tex2d.Min | cushy-gl/src/tex2d.rs:41-47 | the minifying filter: nearest for NearestNearest and NearestLinear, linear otherwise |
| Tex2d.Mag | cushy-gl/src/tex2d.rs:49-55 | the magnifying filter: nearest for NearestNearest and LinearNearest, linear otherwise |
| Tex2d.GlFilters | cushy-gl/src/tex2d.rs:57-65 | the GL pair is the GL values of min and mag |
| Tex2d.FiltersDeterminedByMinMag | cushy-gl/src/tex2d.rs:41-55 | the four filter pairs are exactly the four min/mag combinations |
| Tex2d.SameTexture | cushy-gl/src/tex2d.rs:152-157 | two textures are equal when their GL ids are |
| Tex2d.SameTextureIsEquivalence | cushy-gl/src/tex2d.rs:152-157 | texture equality is an equivalence on ids alone: the filters play no part |
| Tex2d.UploadRaw | cushy-gl/src/tex2d.rs:121-149 | requires w·h pixels; the image gets the texture's filters, its size and its pixels |
| Keys.Ordinal | cushy-gl/src/keys.rs:6-30 | the declaration position of each of the 120 keys |
| Keys.IsPrintable | cushy-gl/src/keys.rs:34-36 | a key is printable when declared before World1 |
| Keys.PrintableAreFirst48 | cushy-gl/src/keys.rs:34-36 | printable exactly for the 48 keys declared before World1 |
| Keys.PrintableBoundary | cushy-gl/src/keys.rs:6-30 | Space is first, GraveAccent 47th and World1 48th |
| Keys.DisplayName | cushy-gl/src/keys.rs:38-162 | the name shown to the user for each key |
| Keys.DisplayNameOfLetter | cushy-gl/src/keys.rs:38-162 | the display name of A..Z is that single upper-case letter |
| Keys.DisplayNameOfDigit | cushy-gl/src/keys.rs:38-162 | the display name of Num0..Num9 is that single digit |
| Keys.SymName | cushy-gl/src/keys.rs:164-288 | each key's own identifier |
| Keys.KeyOfSym | cushy-gl/src/keys.rs:164-288 | reads a symbol name back to its key, None for any other string |
| Keys.SymNameRoundTrip | cushy-gl/src/keys.rs:164-288 | the symbol name reads back to the key |
| Keys.SymNameInjective | cushy-gl/src/keys.rs:164-288 | distinct keys have distinct symbol names |
| Keys.With | cushy-gl/src/keys.rs:442-449 | sets exactly the given flags |
| Keys.NoModifiers | cushy-gl/src/keys.rs:433-440 | no flag held |
| Keys.ShiftOnly | cushy-gl/src/keys.rs:452 | only Shift held |
| Keys.ControlOnly | cushy-gl/src/keys.rs:453 | only Control held |
| Keys.AltOnly | cushy-gl/src/keys.rs:454 | only Alt held |
| Keys.WinOnly | cushy-gl/src/keys.rs:455 | only the Windows key held |
| Keys.CtrlAlt | cushy-gl/src/keys.rs:457 | Control and Alt held |
| Keys.CtrlShift | cushy-gl/src/keys.rs:458 | Control and Shift held |
| Keys.AltShift | cushy-gl/src/keys.rs:459 | Alt and Shift held |
| Keys.FlagStringDecodes | cushy-gl/src/keys.rs:471-503 | one mark per held modifier, empty exactly when none is held, and the string determines the modifier set |
| Keys.MarksDistinct | cushy-gl/src/keys.rs:471-503 | both mark sets use four distinct characters |
| Keys.StringsAlign | cushy-gl/src/keys.rs:471-503 | both strings have the same length and put the mark of the same modifier at each position |
| Keys.PushFlags | cushy-gl/src/keys.rs:471-503 | the pushes build the marks of the held modifiers in the fixed order |
| Keys.ToString | cushy-gl/src/keys.rs:490-503 | 'S','C','A','W' for held flags in that order; its length is the number held and it decodes back to the set |
| Keys.ToStringAlt | cushy-gl/src/keys.rs:471-484 | '⇧','^','!','#' under the same rules |
| Keys.FromGlfwMods | cushy-gl/src/keys.rs:461-469 | a flag is held exactly when its glfw bit is set |
| Keys.FromGlfwModsLowBits | cushy-gl/src/keys.rs:461-469 | only the four modifier bits matter; no bits give no modifiers |
| Event.F64ToI32 | cushy-gl/src/event.rs:36 | the float-to-i32 cast rounds toward zero, is within one of the input when in range, and saturates to the i32 bounds outside it |
| Event.I32ToU32 | cushy-gl/src/event.rs:40 | the i32-to-u32 cast keeps non-negative values and wraps negative ones by 2^32 |
| Event.KeyEvent | cushy-gl/src/event.rs:47-62 | None exactly for glfw's unknown key; Press and Repeat give KeyDown with the modifiers, Release gives KeyUp |
| Event.MouseButtonEvent | cushy-gl/src/event.rs:64-73 | Press gives MouseDown, Release MouseUp, Repeat nothing |
| Event.MouseWheelEvent | cushy-gl/src/event.rs:75-85 | wheel up above 0.5, wheel down below -0.5, nothing in between |
| Event.FromGlfw | cushy-gl/src/event.rs:31-45 | None only comes from keys, mouse buttons or scrolls, every unlisted event becomes UnknownGlfw, and QuitRequest is never produced |
| Event.FromGlfwCases | cushy-gl/src/event.rs:31-45 | characters, focus and non-negative sizes map to their events, and an unknown key is dropped |
| Event.Dispatch | cushy-gl/src/event.rs:87-106 | the handler called, with its arguments, identifies the event |
| Event.DispatchIsFaithful | cushy-gl/src/event.rs:87-106 | every handler call comes from exactly one event, so dispatch is a bijection between events and calls |

## Left out

- Matrix maths through cgmath: `Transform::calc_matrix`, `Quad::calc_matrix`, rotation conversions and the orthographic matrix entries stay symbolic (`Transformed`, `Ortho`).
- Floating-point rounding, infinities and NaN: `f32`/`f64` are `real`. Texture UVs need non-zero parent sizes, because the source divides by them.
- All GL driver calls, `cushy-gl/src/program.rs`, `cushy-gl/src/shader.rs` and `src/gl.rs`: GL effects appear only as logs and "uploaded" copies.
- Windowing, event polling, timing and benchmarks (`window.rs`, `perf.rs`, the demo programs): I/O and clocks.
- `Key::from_glfw` is a one-to-one renaming of a foreign enum. It is not modelled: a glfw key event carries either a mapped key or Unknown.
- `Modifiers::from_glfw` reads glfw's bitflags as a `bv8` with glfw's bit values.
- PNG loading, `Canvas::new` without a clear colour (uninitialised memory), the commented-out text rendering, f32 colour conversions and `Color::random`: foreign libraries, undefined memory or randomness.
- `Arc` sharing and `Drop`: the texture tree is an immutable datatype, and resource lifetimes are not behaviour.
- The rayon parallel map and the unsafe `convert_vec` are a sequential map followed by a flatten. `parallel` changes nothing observable, so it is only stored.
- Getters and setters of `Quad` other than `set_size`/`set_texture` (position, rotation, scale, origin, colour) are datatype field updates. The `Texture` wrapper's `sub`, `size`, `get_uv` and `get_underlying` delegate to the `TexType` functions modelled here.
- Geo.Reset and Geo.Uniform: `Scaling::reset`/`uniform` update a small `Copy` value in place. They are modelled as functions returning the updated value.
- Canvas.Canvas.HLine, VLine, Rect and RectFill: coordinate sums must stay below 2^32, which excludes the inputs where Rust's `u32` arithmetic would overflow.
- Canvas.Canvas.constructor: requires w·h < 2^32, where Rust's `u32` product would overflow.
- Quad.QuadRenderer.Draw: requires every queued textured quad to have non-zero parent sizes along its texture's chain, because the UV formula divides by them. It also requires a camera whose projection is cached, where the source panics otherwise.
- Quad.QuadRenderer.Draw: `6·start` and `6·count` are unbounded; the source's `u32` overflow beyond 715 million quads is not modelled.
- Camera.Camera.SetTransform and Camera.Camera.ResizeEvent keep `Valid()` only when it held before.
- Ibo.IndexBuffer.AutoQuads: indices are unbounded. The source's `u32` vertex counter (`i += 4`, `i + 3`) overflows once the count reaches 2^30 quads, and that is not modelled.
- Geo.Contains, Geo.ContainsAll, Geo.ContainsNone, Geo.Intersects and Geo.Clip: coordinates are unbounded integers. The sums `x+w` and `y+h` that `RectAny<T>` computes in `T` can overflow for `i32`/`u32` rectangles, and that is not modelled; Geo.ClipNoUnderflow covers only the subtractions.
- Quad.QuadRenderer.Add: a batch's `start` (`len as u32`) and `count += 1` are unbounded; their `u32` overflow past 2^32 quads is not modelled.
- Tex2d.UploadRaw: the pixel count `w*h` is unbounded; the source's `u32` product can overflow (panicking in debug builds) for images of 2^32 pixels or more, and that is not modelled.

## Findings

| source | as written | input that shows it | evidently intended | confidence | as-written member | corrected member |
|---|---|---|---|---|---|---|
| cushy-gfx/src/quad.rs:422-424 | `clear` empties the quad queue but keeps the batch list | add a textured quad, clear, add it again: the old batch (start 0, count 1) is extended to count 2 over a one-quad queue | clear empties both the queue and the batches, as `draw` does | not executed | Quad.ClearKeepsStaleBatch | Quad.QuadRenderer.Clear |
| cushy-gfx/src/canvas.rs:254-259 | when the rectangle overhangs the right edge, `rect_fill` clips its width to `size.w - r.x` in `u32`, which underflows when the rectangle starts right of the canvas (the same for `h` and `r.y`) | 10×10 canvas, rectangle (12, 0, 5, 5) | a rectangle outside the canvas draws nothing | not executed | Canvas.RectFillUnderflows | Canvas.Canvas.RectFill |
