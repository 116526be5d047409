# Display list: recording, replay, bounds and cost

A Dafny model of Flutter's `display_list/` library and proofs about it.

The library is a small recording compiler. A `DisplayListBuilder` receives drawing calls,
drops those without effect, holds saves back until something depends on them, packs the
rest into a byte buffer and patches each saveLayer record, once its content is known, with
a bit that says whether the layer may pass an opacity on to its children. A `DisplayList`
walks, compares and replays that buffer. A `DisplayListCanvasDispatcher` replays it to a
canvas and turns the marked layers into plain saves.

## How the model is laid out

| file | models |
|---|---|
| `Basics.dfy`, `DisplayListOps.dfy` | shared definitions; attributes, operations, their reductions and their opacity class |
| `RecordTree.dfy`, `Recorder.dfy` | the nesting of a stream; what the builder records, as a function of the calls |
| `OpacityBits.dfy`, `Emission.dfy` | the back-patched bits; how the stream evolves and stays balanced |
| `Outlines.dfy`, `Trace.dfy`, `Elision.dfy` | what figures and shapes look like; what a dispatcher sees; elision preserves it |
| `Records.dfy` | what single calls leave behind: recorded or not, in which form, to which effect |
| `Rerecording.dfy`, `NestedCounts.dfy` | recording as a normal form; conservation of counts and bytes |
| `Builder.dfy` | the builder as a class: records by byte offset, level flags, attributes, in-place patch |
| `Canvas.dfy`, `Dispatch.dfy`, `Rendering.dfy` | pixels and canvas; the dispatcher as a machine, with elimination on or off; its frame |
| `LayerElimination.dfy`, `RenderResults.dfy`, `BuiltLists.dfy` | what elimination and group opacity do to pixels; the results for sound lists, and for lists made by builders |
| `OpacityClasses.dfy` | what it means, in pixels, to be compatible with an opacity |
| `Backdrops.dfy` | what elimination does to layers with a backdrop |
| `CanvasDispatcher.dfy` | the dispatcher as a class on a shared canvas |
| `BuilderReuse.dfy` | what a builder's later lists are |
| `OpBuffer.dfy`, `CompareOps.dfy` | the byte buffer and its walk; the batched comparison |
| `RecordStorage.dfy` | the recorded stream in the byte buffer, with the bit patched in place |
| `Geometry.dfy`, `Regions.dfy`, `Vectors.dfy` | affine maps and rectangles; regions, their interiors and bounds; 4x4 matrices on vectors |
| `ClipTracker.dfy`, `BuilderClip.dfy` | the matrix and clip tracker; the builder's own matrix and clip |
| `ImageFilter.dfy`, `DeviceBounds.dfy` | forward and backward bounds of filter trees; device bounds against local ones |
| `FilterRegions.dfy` | the regions that those bounds are bounds of, and that the bounds are no larger than needed |
| `Complexity.dfy` | the cost accumulator of the GL calculator |

Where the library changes things step by step the model is a class whose methods are proved
against functions on values; where it computes, the model is functions. The theorems are
lemmas about those functions, and the classes inherit them through their contracts.

What cannot be seen in the library is a parameter: the shade and coverage of draws, clips,
colour filters, blend modes and image filters on the canvas, the matrix of a rotation, sizes
of records, verdicts of `equals`, cost formulas of single operations, regions enclosed by
shapes.

## Assumptions of the model

- Numbers are reals or integers; finiteness is a flag handed to the calls that check it.
  Rounding out, rounding, floor and ceiling are modelled.
- A draw shades the pixels inside the clip in one piece, or in pieces that may lie on each
  other: points, atlases, hairline paths and hairline arcs through the centre. The shade of a
  piece is scaled by the alpha of the paint, goes through colour filter and inversion, is
  blended, and counts for as much of the pixel as the piece covers. Only SrcOver is given a
  formula. Vertices combine colours of their own with the paint, and shadows do not look at
  it. What Skia shades, covers, filters and blends otherwise is left open, but depends on a
  figure's outline only. None of this looks at how the builder classifies draws.
- A picture, an image and a text blob count as one piece, as the builder takes them to be.
- A new layer is transparent unless a backdrop fills it.
- Pointers are 8 bytes, the header word is little-endian with the type in its low byte.
- Rendering is at opacities from 0 to 1.

## Where the code and its comments or evident intent disagree

The model follows the code.

- `display_list/display_list_builder.cc:147-152`: setting a colour-type source clears the
  builder's source but records only the colour. `Elision.WhenReplayFollowsTheSource` and
  `Rerecording.RecordingIsANormalForm` say exactly when that can be noticed.
- `display_list/display_list_builder.cc:487-497`: a layer with a backdrop counts like any
  other although it reads what is below it. `Backdrops.WhenBackdropShows` says when that shows.
- `display_list/display_list_builder.cc:51-66`: `Build` keeps attributes, base flags, matrix
  and clip. `BuilderReuse.LaterList` says what a later list is, and
  `BuilderReuse.WhenLaterListsAreFirstLists` when that is what a fresh builder makes.
- `display_list/display_list_matrix_clip_tracker.cc:255-280`: the slices never happen.
  `ClipTracker.DifferenceNeverSlices`, `ClipTracker.WhenDifferenceKeepsBounds`.
- `display_list/display_list_matrix_clip_tracker.cc:183-198`: inverse fill is ignored.
  `ClipTracker.WhenInverseFillKeepsBounds` says when that does no harm.
- `display_list/display_list_image_filter.h:687-693`: a local matrix is ignored in local
  space. `DeviceBounds.WhenLocalDilationCovers`.
- `display_list/display_list_image_filter.h:339-344`: the input bounds of a dilation are its
  output bounds shrunk, so they leave out a rim of what is read, although the comment on
  line 139 speaks of the input needed to fill the output.
  `FilterRegions.WhenDilationInputSuffices`.
- `display_list/display_list_complexity_gl.cc:28-49`: the batched cost can wrap around.
  `Complexity.WhenTheScoreIsExact`.

## Model

| member | source | states |
|---|---|---|
| `BuiltLists.LayerEliminationPreservesPixels` | display_list/display_list_canvas_dispatcher.cc:42-73 | for every list made by builders (nested lists included, to any depth) without backdrops, dispatching distributable, bounds-free saveLayers as plain saves leaves the whole canvas as running every saveLayer as a real transparent layer does, whatever the canvas held |
| `BuiltLists.ListOpacityIsSound` | display_list/display_list.cc:196-200 | a list that says it can apply group opacity, rendered at any opacity with layers eliminated, gives the pixels of rendering it into a transparent layer with real layers and compositing that layer at the opacity |
| `BuiltLists.NestedChecksNeverFire` | display_list/display_list_canvas_dispatcher.cc:274-279 | once the outermost RenderTo meets its assertion, every RenderTo reached through drawDisplayList meets it too, backdrops or not, at every nesting depth |
| `BuiltLists.CallsToPixels` | display_list/display_list.cc:196-200 | recording calls with deferral, elision and back-patched bits and dispatching the list with layers eliminated, to any canvas, paints what the raw calls paint there with real layers, for calls that draw nothing with a stale source |
| `BuiltLists.CallsToFadedPixels` | display_list/display_list.cc:196-200 | and at any opacity, if the list says that it can take one, what the raw calls paint on a transparent image, composited at that opacity |
| `BuiltLists.RenderMadeList` | display_list/display_list.cc:196-200 | the imperative dispatcher can render every list made by builders without breaking a check, and without backdrops ends with the canvas of the real-layer rendering |
| `BuiltLists.MadeIsSound` | display_list/display_list_builder.cc:51-66 | every list made by builders is well nested with exact bits at every nesting level, as deep as its own nesting |
| `OpacityBits.BuildIsExact` | display_list/display_list_builder.cc:437-475 | for every call sequence, the built list is balanced and each saveLayer record carries can-distribute if and only if its own attributes allow it and its content, through plain saves but not through layers, has no incompatible and at most one compatible operation; the list's own flag likewise |
| `OpacityClasses.WhenListTakesOpacity` | display_list/display_list_builder.cc:437-475 | for every call sequence, the built list says that it can apply group opacity if and only if it holds, through plain saves, at most one operation or layer, and that one, drawn at any opacity, is itself faded, whatever its colour and whatever Skia does |
| `OpacityClasses.WhenLayerIsDistributable` | display_list/display_list_builder.cc:437-475 | a saveLayer with an exact bit, which all built ones have, carries it if and only if the attributes of the layer do no more than fade it and it holds at most one operation or layer, which takes an opacity |
| `OpacityClasses.WhenDrawTakesOpacity` | display_list/display_list_builder.h:458-498 | an operation counts as compatible if and only if, for every colour, opacity, environment, image and Skia, drawing it at an opacity is drawing it alone and fading the result |
| `OpacityClasses.DrawsThatTakeOpacity` | display_list/display_list_builder.cc:727-904 | operation by operation, under which attributes that is so: the conditions on colour filter, inversion and blending, the hairline rule of paths and of arcs through the centre, and never for points, vertices, atlases and shadows |
| `OpacityClasses.WhenLayerTakesOpacity` | display_list/display_list_builder.cc:482-509 | a layer counts as compatible in its parent if and only if compositing it at an opacity is compositing it alone and fading the result |
| `OpacityClasses.WhenLayerOnlyFades` | display_list/display_list_builder.cc:487-497 | a layer opens as incompatible if and only if its attributes do more to its content than fade it |
| `OpacityClasses.WhenContentFades` | display_list/display_list_builder.h:421-498 | content counts as compatible if and only if it is at most one item, which takes an opacity |
| `OpacityClasses.PiecesForbidOpacity` | display_list/display_list_builder.cc:829-904 | points, vertices, an atlas or a shadow among the items of a group forbid an opacity |
| `OpacityClasses.PointsCannotFade` | display_list/display_list_builder.cc:829-856 | the list that holds one drawPoints cannot apply group opacity |
| `OpacityClasses.ColorAlphaIsApplied` | display_list/display_list_utils.cc:68-74 | a fill or figure of any colour at any opacity is laid over the pixel at the alpha of the colour in 255ths times the opacity |
| `OpacityClasses.DrawnColorAlphaIsApplied` | display_list/display_list_canvas_dispatcher.cc:141-147 | so is drawColor, at the alpha of its own colour |
| `OpacityClasses.LayerAlphaIsApplied` | display_list/display_list_canvas_dispatcher.cc:42-73 | a paint of one colour in an eliminated layer of another comes out at the product of both alphas, in 255ths, and the opacity around the layer |
| `OpacityBits.StepOk` | display_list/display_list_builder.h:421-498 | every call keeps the per-level flags equal to what the recorded content counts for, with open layers already counted in their parents |
| `OpacityBits.CloseOk` | display_list/display_list_builder.cc:437-475 | leaving a level merges its flags into the parent, or decides the layer's bit, without changing what the content counts for |
| `OpacityBits.SettingAgrees` | display_list/display_list_builder.cc:124-198 | the setter that is recorded has the same effect on everything but the colour source as the setter that was called |
| `OpacityBits.ClosedReachesBase` | display_list/display_list_builder.cc:52-54 | the restores made by Build reach the base level exactly |
| `Emission.StreamStep` | display_list/display_list_builder.cc:424-509 | each call appends its records (preceded by a deferred save) and a restore that ends a distributable layer patches exactly the record put there when that layer was opened |
| `Emission.RecordingIsBalanced` | display_list/display_list_builder.cc:424-450 | at every moment the saves and layers open in the stream are exactly the levels above the base whose save is not deferred, and a built list leaves nothing open |
| `Elision.ElisionPreservesMeaning` | display_list/display_list_builder.cc:424-450 | replaying a built list shows the same draws in the same order under the same matrix, clip, layer nesting and attributes as the un-elided calls; the colour source is right everywhere if and only if nothing was drawn while a stale source was live |
| `Elision.WhenReplayFollowsTheSource` | display_list/display_list_builder.cc:140-153 | the replayed colour source follows the caller's at every moment if and only if no colour-type source is ever set while another source is current |
| `Elision.ColourOverShaderIsLost` | display_list/display_list_builder.cc:147-152 | a shader, then a colour-type source, then a draw: the replay draws with the shader, unlike the calls |
| `Elision.LiveSourceIsReplayed` | display_list/display_list_builder.cc:140-198 | what source the recorded stream leaves live, computed from the calls alone |
| `Elision.RecorderFollowsAttrs` | display_list/display_list_builder.h:38-119 | the builder's own attributes are those of all calls applied in order, elided or not |
| `Elision.DeferralKeepsEnvironment` | display_list/display_list_builder.cc:424-435 | at every moment the matrix and clip of the replayed stream are those of the calls, although saves may still be deferred |
| `Elision.ReducedTransform` | display_list/display_list_builder.cc:522-622 | a transform that is dropped, or a full matrix recorded as an affine one, has the effect of the call |
| `Outlines.ReducedLooks` | display_list/display_list_builder.cc:775-784 | the figure that is recorded for a rounded rectangle has the outline of the one that was called |
| `Outlines.ReducedOutline` | display_list/display_list_builder.cc:641-695 | the shape that is recorded for a clip has the outline of the one that was called, and a clip is ignored if and only if it has none |
| `Records.SimplestForms` | display_list/display_list_builder.cc:522-695 | whatever was called, a built list holds no rounded rectangle that is a rectangle or an oval, no path to clip by that is a simpler shape, no clip or transform that is not finite, no full matrix that is affine, and no transform that does nothing |
| `Records.RoundedRectIsSimplified` | display_list/display_list_builder.cc:775-784 | what the list of one drawRRect holds: drawRect of its bounds, drawOval of its bounds, or itself |
| `Records.LooksDecide` | display_list/display_list_builder.cc:775-784 | figures in the simplest form with the same outline are the same figure |
| `Records.WhenTransformIsRecorded` | display_list/display_list_builder.cc:522-602 | a transform is recorded if and only if it can change the matrix, given that matrices multiply and only multiples of 360 degrees rotate by nothing |
| `Records.WhenClipIsRecorded` | display_list/display_list_builder.cc:624-695 | a clip is recorded if and only if it can change the clip |
| `Records.ResetIsRecorded` | display_list/display_list_builder.cc:604-608 | a reset makes the matrix the identity whatever it was, leaves the clip, and is always recorded |
| `Records.TransformsActInside` | display_list/display_list_builder.cc:522-602 | a transform acts on points as the caller gives them, before all transforms called earlier |
| `Records.TransformsMovePoints` | display_list/display_list_canvas_dispatcher.cc:76-107 | where each kind of transform moves a point of the plane |
| `Records.ProductComposes` | display_list/display_list_builder.cc:522-602 | the product of 4x4 matrices meets the laws that these results ask of matrices |
| `Records.AttributesAfter` | display_list/display_list_builder.h:38-119 | a setter sets the attribute that it names and leaves all others alone |
| `Records.ColorsAfter` | display_list/display_list_builder.cc:140-198 | what setters do to the colour, the source and the blending, colour-type sources and blenders that are modes included |
| `Records.CountedRecordsAre` | display_list/display_list_builder.cc:28-49 | what is counted are the records other than setters and matrix resets, one each |
| `Records.ListsCountTheirRecords` | display_list/display_list_builder.cc:28-66 | op_count(false) of a built list is the number of those records modulo 2^32 |
| `Rerecording.RecordingIsANormalForm` | display_list/display_list.cc:189-194 | dispatching a built list into a fresh builder and building again gives the identical list (records, bits, sizes, counts) if and only if no call brought back a source that a colour-type source had left live |
| `Rerecording.ShorterListAgain` | display_list/display_list_builder.h:38-119 | a recorded setter without effect is dropped the second time, so the second list is strictly shorter |
| `Rerecording.ShaderAgainIsDropped` | display_list/display_list_builder.cc:140-153 | a shader, a colour, the same shader: the list changes when it is recorded again |
| `Rerecording.RecordNormal` | display_list/display_list_builder.cc:437-475 | only reduced operations are recorded, and plain save groups always start with the transform or clip that they were waiting for |
| `NestedCounts.CountsAreConserved` | display_list/display_list.h:239-246 | op_count(true) is the number of counted operations in the flattened tree modulo 2^32 with drawDisplayList transparent, and bytes(true) is the sum over all lists of the tree |
| `NestedCounts.BuildIsCounted` | display_list/display_list_builder.cc:1070-1081 | a list built from calls whose nested lists have right totals has right totals |
| `NestedCounts.DrawsAreKept` | display_list/display_list_builder.cc:727-1105 | no draw call is lost, added or reordered by recording |
| `NestedCounts.DrawsOfBuild` | display_list/display_list_builder.cc:51-66 | the list Build makes draws exactly what the calls draw, in order |
| `LayerElimination.EliminationPreservesPixels` | display_list/display_list_canvas_dispatcher.cc:42-73 | eliminating layers leaves the canvas as real layers do for every sound list, at any nesting depth, in which no backdrop layer draws where an opacity may be inherited; backdrops elsewhere are allowed |
| `LayerElimination.GroupOpacityIsSound` | display_list/display_list_builder.cc:1070-1082 | a list whose flag allows it can inherit an opacity through any depth of nested lists |
| `LayerElimination.ForestFades` | display_list/display_list_builder.h:421-440 | content with at most one compatible operation and no incompatible one, run with an inherited opacity, is that content run alone and faded |
| `LayerElimination.ForestFrame` | display_list/display_list_utils.cc:31-41 | what a balanced stream does depends on attributes, opacity, environment and image but not on the stacks below it |
| `RenderResults.ListChecksPass` | display_list/display_list.cc:196-200 | the assertion of RenderTo holds for every nested list of a sound list once it holds for the list |
| `RenderResults.EventsDecideTheImage` | display_list/display_list_canvas_dispatcher.cc:28-74 | with real layers, and whatever matrix, clip and image are found, the image depends only on what is drawn, under which attributes and environment, in which layers |
| `RenderResults.RecordedListsPaintTheCalls` | display_list/display_list.cc:196-200 | for sound lists, dispatching the built list with layers eliminated to any canvas, saved states included, paints what the raw calls paint with real layers, unless something was drawn with a stale source |
| `RenderResults.RecordedListsFadeTheCalls` | display_list/display_list.cc:196-200 | the same at an opacity, for sound lists that say they can take one |
| `Backdrops.WhenBackdropShows` | display_list/display_list_builder.cc:487-497 | where the one operation of a list is a copying backdrop layer behind saves and at least one eliminated layer, the canvas ends as with real layers if and only if the opacity on the way is zero or every pixel inside the clip is opaque or clear |
| `Backdrops.BackdropSeesThroughLayer` | display_list/display_list_builder.cc:487-497 | saveLayer, saveLayer with a backdrop, restore, restore: the list built from these calls shows what they mean if and only if no pixel inside the clip is half transparent |
| `Backdrops.HalfTransparentPixelDoubles` | display_list/display_list_builder.cc:487-497 | those calls over one half-transparent pixel: the images differ |
| `Rendering.ListSettles` | display_list/display_list_canvas_dispatcher.cc:274-279 | rendering a list leaves the canvas stack as it was and every pixel outside the clip alone |
| `CanvasDispatcher.Dispatcher.constructor` | display_list/display_list_utils.h:170-175 | a fresh dispatcher at an opacity: default attributes with the alpha of the paint already combined |
| `CanvasDispatcher.Dispatcher.SetColor` | display_list/display_list_utils.cc:68-74 | the alpha of the paint becomes that of the colour combined with the inherited opacity; what that does to pixels is OpacityClasses.ColorAlphaIsApplied |
| `CanvasDispatcher.Dispatcher.SetOpacity` | display_list/display_list_utils.h:226-231 | a changed opacity recombines the alpha; the attributes stay |
| `CanvasDispatcher.Dispatcher.SaveOpacity` | display_list/display_list_utils.cc:31-34 | the old opacity is on the stack and children inherit the new one |
| `CanvasDispatcher.Dispatcher.RestoreOpacity` | display_list/display_list_utils.cc:35-41 | the opacity of the enclosing level is back; a surplus restore changes nothing |
| `CanvasDispatcher.Dispatcher.SetAttribute` | display_list/display_list_utils.cc:43-96 | a setter changes the attribute it names and keeps paint alpha and opacity combined |
| `CanvasDispatcher.Dispatcher.SafePaint` | display_list/display_list_canvas_dispatcher.cc:15-26 | the paint carries the inherited opacity exactly once, through the attributes or on its own |
| `CanvasDispatcher.Dispatcher.Save` | display_list/display_list_canvas_dispatcher.cc:28-37 | a save of the canvas whose children inherit the same opacity |
| `CanvasDispatcher.Dispatcher.Restore` | display_list/display_list_canvas_dispatcher.cc:38-41 | canvas and opacity of the enclosing level |
| `CanvasDispatcher.Dispatcher.SaveLayer` | display_list/display_list_canvas_dispatcher.cc:42-73 | an eliminated layer hands the combined opacity to its children, a real one opens opaque and applies it itself |
| `CanvasDispatcher.Dispatcher.BrushForDraw` | display_list/display_list_canvas_dispatcher.cc:131-285 | which paint, with which alpha, each kind of draw gets |
| `CanvasDispatcher.Dispatcher.DrawDisplayList` | display_list/display_list_canvas_dispatcher.cc:274-279 | a nested list renders to the shared canvas at the inherited opacity and whatever it leaves open is closed |
| `CanvasDispatcher.Dispatcher.Dispatch` | display_list/display_list.cc:89-109 | the whole stream is received record by record, in order, and the state is that of the specification machine |
| `CanvasDispatcher.RenderList` | display_list/display_list.cc:196-200 | RenderTo on a canvas, with its assertion as a demand on the caller |
| `Builder.DisplayListBuilder.constructor` | display_list/display_list_builder.cc:68-72 | a fresh builder is the starting state of the recorder |
| `Builder.DisplayListBuilder.PushRecord` | display_list/display_list_builder.cc:28-49 | the buffer holds the stream followed by the record, at the offset that the sizes before it add up to, and the counters follow |
| `Builder.DisplayListBuilder.PatchSaveLayer` | display_list/display_list_builder.cc:446-464 | the in-place patch at a remembered byte offset changes the bit of that saveLayer record and no other byte range |
| `Builder.DisplayListBuilder.CheckForDeferredSave` | display_list/display_list_builder.cc:424-429 | a deferred save is written, once, and its level is no longer deferred |
| `Builder.DisplayListBuilder.AddCompatibleOp` | display_list/display_list_builder.h:425-438 | the level counts one more compatible operation, saturating into incompatible at the second |
| `Builder.DisplayListBuilder.UpdateLayerOpacityCompatibility` | display_list/display_list_builder.h:466-474 | the current level gains the weight of the operation; all others keep theirs |
| `Builder.DisplayListBuilder.UpdateCurrentOpacityCompatibility` | display_list/display_list_builder.h:458-464 | the cached flag says whether the current attributes are compatible |
| `Builder.DisplayListBuilder.Save` | display_list/display_list_builder.cc:431-435 | a deferred level that adds nothing to the stream |
| `Builder.DisplayListBuilder.SaveLayer` | display_list/display_list_builder.cc:482-509 | the layer counts in its parent at once, opens with its own incompatibility, remembers its offset, and an incoming optimisation bit never survives |
| `Builder.DisplayListBuilder.PopLevel` | display_list/display_list_builder.cc:443-473 | the popped level's flags decide the patched record or are merged into the level below |
| `Builder.DisplayListBuilder.Restore` | display_list/display_list_builder.cc:437-475 | the innermost level is closed as the recorder closes it; a surplus restore is ignored |
| `Builder.DisplayListBuilder.RestoreToCount` | display_list/display_list_builder.cc:476-481 | exactly the levels above the count are closed, never the base |
| `Builder.DisplayListBuilder.Translate` | display_list/display_list_builder.cc:522-529 | recorded unless it is zero or not finite |
| `Builder.DisplayListBuilder.Scale` | display_list/display_list_builder.cc:530-537 | recorded unless it is one or not finite |
| `Builder.DisplayListBuilder.Rotate` | display_list/display_list_builder.cc:538-544 | recorded unless it is a multiple of 360 degrees |
| `Builder.DisplayListBuilder.Skew` | display_list/display_list_builder.cc:545-552 | recorded unless it is zero or not finite |
| `Builder.DisplayListBuilder.Transform2DAffine` | display_list/display_list_builder.cc:557-574 | recorded unless it is the identity or not finite |
| `Builder.DisplayListBuilder.TransformFullPerspective` | display_list/display_list_builder.cc:576-602 | an affine matrix is recorded in the affine form, or dropped as the identity; another one in full if finite |
| `Builder.DisplayListBuilder.ResetTransform` | display_list/display_list_builder.cc:604-608 | recorded after any deferred save |
| `Builder.DisplayListBuilder.ClipRect` | display_list/display_list_builder.cc:624-640 | recorded after any deferred save unless it is not finite |
| `Builder.DisplayListBuilder.ClipRRect` | display_list/display_list_builder.cc:641-658 | a rounded rectangle that is a rectangle is recorded as one |
| `Builder.DisplayListBuilder.ClipPath` | display_list/display_list_builder.cc:659-695 | a path is recorded as the simplest shape that clips the same, unless it is filled inversely |
| `Builder.DisplayListBuilder.SetAntiAlias` | display_list/display_list_builder.h:38-42 | recorded if and only if it changes the attribute |
| `Builder.DisplayListBuilder.SetDither` | display_list/display_list_builder.h:43-47 | recorded if and only if it changes the attribute |
| `Builder.DisplayListBuilder.SetInvertColors` | display_list/display_list_builder.h:48-52 | recorded if and only if it changes the attribute; the compatibility flag follows |
| `Builder.DisplayListBuilder.SetStrokeCap` | display_list/display_list_builder.h:53-57 | recorded if and only if it changes the attribute |
| `Builder.DisplayListBuilder.SetStrokeJoin` | display_list/display_list_builder.h:58-62 | recorded if and only if it changes the attribute |
| `Builder.DisplayListBuilder.SetStyle` | display_list/display_list_builder.h:63-67 | recorded if and only if it changes the attribute |
| `Builder.DisplayListBuilder.SetStrokeWidth` | display_list/display_list_builder.h:68-72 | recorded if and only if it changes the attribute |
| `Builder.DisplayListBuilder.SetStrokeMiter` | display_list/display_list_builder.h:73-77 | recorded if and only if it changes the attribute |
| `Builder.DisplayListBuilder.SetColor` | display_list/display_list_builder.h:78-82 | recorded if and only if it changes the attribute |
| `Builder.DisplayListBuilder.SetImageFilter` | display_list/display_list_builder.h:100-104 | recorded if and only if it changes the attribute |
| `Builder.DisplayListBuilder.SetColorFilter` | display_list/display_list_builder.h:105-109 | recorded if and only if it changes the attribute; the compatibility flag follows |
| `Builder.DisplayListBuilder.SetPathEffect` | display_list/display_list_builder.h:110-114 | recorded if and only if it changes the attribute |
| `Builder.DisplayListBuilder.SetMaskFilter` | display_list/display_list_builder.h:115-119 | recorded if and only if it changes the attribute |
| `Builder.DisplayListBuilder.SetBlendMode` | display_list/display_list_builder.h:83-87 | recorded if it differs or if a blender was in force, which it ends |
| `Builder.DisplayListBuilder.SetBlender` | display_list/display_list_builder.h:88-94 | a blender equivalent to a mode is recorded as the mode, another one as itself, none as SrcOver |
| `Builder.DisplayListBuilder.SetColorSource` | display_list/display_list_builder.cc:140-198 | a colour-type source becomes the colour and clears the builder's own source without any record of that |
| `Builder.DisplayListBuilder.RecordDraw` | display_list/display_list_builder.h:466-498 | the record follows the stream and its weight goes to the current level |
| `Builder.DisplayListBuilder.DrawWithAttributes` | display_list/display_list_builder.cc:727-800 | a draw that is compatible when the attributes are |
| `Builder.DisplayListBuilder.DrawColor` | display_list/display_list_builder.cc:735-738 | compatible by its own blend mode, whatever the attributes |
| `Builder.DisplayListBuilder.DrawRRect` | display_list/display_list_builder.cc:775-784 | a rounded rectangle that is a rectangle or an oval is recorded as that, as Records.RoundedRectIsSimplified spells out |
| `Builder.DisplayListBuilder.DrawPath` | display_list/display_list_builder.cc:800-803 | a hairline path is incompatible |
| `Builder.DisplayListBuilder.DrawArc` | display_list/display_list_builder.cc:809-819 | a hairline arc is incompatible if it goes through the centre |
| `Builder.DisplayListBuilder.DrawImage` | display_list/display_list_builder.cc:905-994 | an image drawn without the attributes is compatible |
| `Builder.DisplayListBuilder.DrawParts` | display_list/display_list_builder.cc:829-904 | draws made of parts that may overlap, or with colours of their own, are incompatible |
| `Builder.DisplayListBuilder.DrawPicture` | display_list/display_list_builder.cc:1053-1069 | the picture's own counts are added with the call itself transparent |
| `Builder.DisplayListBuilder.DrawDisplayList` | display_list/display_list_builder.cc:1070-1082 | the list's totals are added with the call itself transparent, and its flag decides its compatibility |
| `Builder.DisplayListBuilder.ReceiveAll` | display_list/display_list.cc:189-194 | RenderTo on a builder: the recorder after all records of the list |
| `Builder.DisplayListBuilder.ReadRecords` | display_list/display_list.cc:89-109 | walking the buffer by the sizes of its records visits exactly the recorded stream, patches included, and ends |
| `Builder.DisplayListBuilder.Build` | display_list/display_list_builder.cc:51-66 | every open level is closed; the first list of a fresh builder is the list specified for its calls; attributes and base flags survive for the next list |
| `Builder.LaidPatch` | display_list/display_list_builder.cc:446-464 | writing over the record at its own offset changes that record only, and no size or count |
| `BuilderReuse.LaterList` | display_list/display_list_builder.cc:51-66 | a later list of a builder is the list that the same calls give from the kept attributes, with a group-opacity flag that also counts what the base level counted for all lists before |
| `BuilderReuse.WhenLaterListsAreFirstLists` | display_list/display_list_builder.cc:51-66 | the later lists of a builder are those of a fresh builder, for all calls, if and only if its attributes are the defaults and nothing was ever counted on its base level |
| `BuilderReuse.SecondDrawIsSpoilt` | display_list/display_list_builder.cc:51-66 | one compatible draw in each of two lists: the first says that it can apply group opacity, the second does not |
| `BuilderReuse.KeptColourIsLost` | display_list/display_list_builder.cc:51-66 | the same colour set for each of two lists: the second does not record it and replays in black |
| `Builder.UnwoundIsRecorded` | display_list/display_list_builder.cc:51-54 | closing the open levels is recording that many restore calls |
| `OpBuffer.OpBuffer.Grow` | display_list/display_list_builder.cc:31-41 | the new capacity is a multiple of 4096, strictly above the request by at most that; old bytes stay and all others are zero |
| `OpBuffer.OpBuffer.Construct` | display_list/display_list_builder.cc:42-48 | the record reads as its header, its fields, and zero wherever nothing was written |
| `OpBuffer.OpBuffer.Push` | display_list/display_list_builder.cc:28-49 | the buffer holds the old records followed by the new one, wherever the storage moved to; bytes past the end stay zero |
| `OpBuffer.OpBuffer.PatchByte` | display_list/display_list_builder.cc:446-464 | a byte overwritten in place at a remembered offset changes that record behind its header and no other; no record moves, and the framing stays |
| `OpBuffer.OpBuffer.Release` | display_list/display_list_builder.cc:51-66 | storage of exactly the used size is handed over, holding the pushed records and nothing else |
| `OpBuffer.HeaderRoundTrip` | display_list/display_list_ops.h:54-57 | type and 24-bit size are read back as written |
| `OpBuffer.BytesOfIsFramed` | display_list/display_list_builder.cc:44-46 | a pushed record says its own type in its first byte and its own size in the next three, is the smallest multiple of eight bytes that holds it, and its fields are read back as written |
| `OpBuffer.RecordsAreAligned` | display_list/display_list_builder.cc:30-30 | every record starts at a pointer boundary |
| `OpBuffer.FramingIsUnique` | display_list/display_list.cc:75-98 | bytes are the concatenation of records in at most one way |
| `OpBuffer.ReadOp` | display_list/display_list.cc:79-81 | the record at a pointer is the next one pushed, and its size leads to the one after |
| `OpBuffer.VisitOps` | display_list/display_list.cc:75-121 | Dispatch and DisposeOps visit exactly the pushed records, in order, ending at the byte count |
| `RecordStorage.StoreCall` | display_list/display_list_builder.cc:28-49 | pushing the records of a call, and setting one byte of the saveLayer record when it ends a distributable layer, leaves the buffer with the bytes of the stream after that call, for any encoding of records in which the bit is in one byte |
| `RecordStorage.StoreList` | display_list/display_list_builder.cc:51-66 | the storage of a built list holds the bytes of its records, patched bits included, and nothing else, and is as long as its byte count says |
| `RecordStorage.EncodedPatch` | display_list/display_list_builder.cc:446-464 | overwriting the byte of the option flags gives the record that would have been pushed with the bit |
| `CompareOps.Compare` | display_list/display_list.cc:123-187 | true if and only if both buffers hold the same number of records and each pair has the same type and size and is equal by its own verdict or, if it asks for bulk compare, byte for byte |
| `CompareOps.CompareBacklog` | display_list/display_list.cc:165-175 | one memcmp over a window decides every record in it that asked for bulk compare |
| `CompareOps.BulkIsRecordwise` | display_list/display_list.cc:165-175 | equal windows are equal record by record and the other way round |
| `CompareOps.ListsAreEqual` | display_list/display_list.cc:202-217 | with its shortcuts, true if and only if the op counts agree and the records are the same |
| `CompareOps.ShortcutsAgree` | display_list/display_list.cc:202-217 | lists of different byte counts differ, and identical bytes are the same records |
| `ClipTracker.Is3x3IsTheImage` | display_list/display_list_matrix_clip_tracker.cc:92-101 | the test accepts exactly the 4x4 matrices that some 3x3 matrix stands for |
| `ClipTracker.EmbedRespectsProducts` | display_list/display_list_matrix_clip_tracker.cc:53-90 | multiplying 3x3 matrices and then widening is widening and then multiplying |
| `Vectors.ProductActs` | display_list/display_list_matrix_clip_tracker.cc:33-42 | applying a product to a vector is applying its right factor and then its left one |
| `ClipTracker.LandsThroughProduct` | display_list/display_list_matrix_clip_tracker.cc:68-74 | a point lands through a product of 3x3 matrices, perspective included, exactly where it lands through the right factor and then the left one |
| `ClipTracker.AffineProduct` | display_list/display_list_matrix_clip_tracker.cc:68-74 | the product of matrices without perspective is the composition of their affine maps |
| `ClipTracker.FormDoesNotMatter` | display_list/display_list_matrix_clip_tracker.cc:286-330 | perspective and the 3x3 matrix asked for depend on the 4x4 matrix, not on the form it is kept in |
| `ClipTracker.MatrixClipTracker.constructor` | display_list/display_list_matrix_clip_tracker.cc:110-119 | starts in the smaller form if and only if the matrix fits it |
| `ClipTracker.MatrixClipTracker.With3x3` | display_list/display_list_matrix_clip_tracker.cc:103-108 | starts from a 3x3 matrix |
| `ClipTracker.MatrixClipTracker.Save` | display_list/display_list_matrix_clip_tracker.cc:121-128 | the new level holds the same matrix, form and cull rectangle |
| `ClipTracker.MatrixClipTracker.Restore` | display_list/display_list_matrix_clip_tracker.cc:130-133 | what was saved is back exactly |
| `ClipTracker.MatrixClipTracker.RestoreToCount` | display_list/display_list_matrix_clip_tracker.cc:135-143 | exactly the levels above the count are dropped, never the first |
| `ClipTracker.MatrixClipTracker.Transform3x3` | display_list/display_list_matrix_clip_tracker.h:37-42 | the matrix asked for afterwards applies the argument to a vector first and then what was there before, in either form |
| `ClipTracker.MatrixClipTracker.Transform` | display_list/display_list_matrix_clip_tracker.cc:145-155 | the matrix asked for afterwards applies the 4x4 argument to a vector first and then what was there before, and the form is widened exactly when the argument needs it |
| `ClipTracker.MatrixClipTracker.SetTransform3x3` | display_list/display_list_matrix_clip_tracker.h:43-43 | the matrix is the argument, in either form |
| `ClipTracker.MatrixClipTracker.SetTransform` | display_list/display_list_matrix_clip_tracker.cc:157-167 | the matrix asked for afterwards is the argument, and the form is widened exactly when the argument needs it |
| `ClipTracker.MatrixClipTracker.SetIdentity` | display_list/display_list_matrix_clip_tracker.h:45-45 | the matrix is the identity |
| `ClipTracker.MatrixClipTracker.ClipBounds` | display_list/display_list_matrix_clip_tracker.cc:213-284 | the cull rectangle only shrinks and other levels stay; if it was a bound of the real clip, it is one afterwards if and only if an intersect is not inversely filled or that is harmless, or a difference does not span it or leaves nothing with an area |
| `ClipTracker.MatrixClipTracker.ClipShape` | display_list/display_list_matrix_clip_tracker.cc:169-198 | a difference with a shape that is no rectangle leaves the cull rectangle alone, and so a bound; for all others the bound is kept exactly as by ClipBounds |
| `ClipTracker.MatrixClipTracker.ContentIsCulled` | display_list/display_list_matrix_clip_tracker.cc:200-211 | culled content has no area within the real clip |
| `ClipTracker.MatrixClipTracker.LocalCullRect` | display_list/display_list_matrix_clip_tracker.cc:288-330 | for an invertible affine matrix every local point that can show is within the local cull rectangle |
| `ClipTracker.IntersectKeepsBounds` | display_list/display_list_matrix_clip_tracker.cc:225-239 | with or without perspective, intersecting with a shape keeps the cull rectangle a bound of the clip up to parts without area |
| `ClipTracker.WhenRectsStay` | display_list/display_list_matrix_clip_tracker.cc:244-245 | an invertible matrix is taken to map rectangles to rectangles if and only if it keeps horizontal and vertical sides horizontal or vertical |
| `ClipTracker.RoundIsNearest` | display_list/display_list_matrix_clip_tracker.cc:246-253 | rounding is to the nearest whole number, halves upwards |
| `ClipTracker.DifferenceNeverSlices` | display_list/display_list_matrix_clip_tracker.cc:255-280 | a difference leaves the cull rectangle alone or, whenever its rectangle spans it, empties it: the slice that the comment intends is never made |
| `ClipTracker.WhenDifferenceKeepsBounds` | display_list/display_list_matrix_clip_tracker.cc:240-281 | a difference keeps the cull rectangle a bound if and only if it does not span it or leaves a clip without area |
| `ClipTracker.DifferenceLosesBounds` | display_list/display_list_matrix_clip_tracker.cc:255-280 | a square clip whose upper half is taken out: the lower half is still clipped to, but the cull rectangle is empty |
| `ClipTracker.WhenInverseFillKeepsBounds` | display_list/display_list_matrix_clip_tracker.cc:183-198 | intersecting with an inversely filled path keeps the cull rectangle a bound if and only if it is empty already, the matrix has perspective, or the clip has no interior outside the path's mapped bounds, rounded out or not |
| `ClipTracker.WhenClipKeepsBounds` | display_list/display_list_matrix_clip_tracker.cc:213-284 | for every operation and fill: the cull rectangle stays a bound if and only if the condition of its kind holds |
| `ClipTracker.InverseFillLosesBounds` | display_list/display_list_matrix_clip_tracker.cc:183-198 | a square clip intersected with the outside of a smaller square: the cull rectangle becomes the smaller square, which is the one part that is not clipped to |
| `ClipTracker.WhenContentIsCulled` | display_list/display_list_matrix_clip_tracker.cc:200-211 | content is culled if and only if it or the cull rectangle is empty or, short of perspective, no point is strictly inside both the mapped content and the cull rectangle |
| `ClipTracker.LocalCullIsLeast` | display_list/display_list_matrix_clip_tracker.cc:312-330 | the local cull rectangle is within every rectangle that holds all local points that land in the cull rectangle; it is empty for singular matrices and everything under perspective |
| `ClipTracker.IntersectNarrows` | display_list/display_list_matrix_clip_tracker.cc:225-239 | an intersection without anti-aliasing leaves strictly inside exactly what was inside before and within the mapped clip, and one with it at most a pixel more |
| `ClipTracker.CullShrinks` | display_list/display_list_matrix_clip_tracker.cc:213-284 | no point enters the cull rectangle through a clip call |
| `ClipTracker.CulledContentCannotShow` | display_list/display_list_matrix_clip_tracker.cc:200-211 | the part of culled content that lands in the clip has no area, for any matrix, singular ones included |
| `ClipTracker.LocalCullBounds` | display_list/display_list_matrix_clip_tracker.cc:312-330 | a local point that lands on an interior point of the clip is in the local cull rectangle, for every invertible affine matrix |
| `BuilderClip.LayerClips.constructor` | display_list/display_list_builder.cc:68-72 | the clip starts as the cull rectangle |
| `BuilderClip.LayerClips.Save` | display_list/display_list_builder.cc:431-435 | a new level, deferred or not, has the matrix and clip of the one below |
| `BuilderClip.LayerClips.Restore` | display_list/display_list_builder.cc:437-445 | matrix and clip of the level below are back; the base stays |
| `BuilderClip.LayerClips.PreConcat` | display_list/display_list_builder.cc:522-602 | the matrix is multiplied; the clip bounds stay in device space |
| `BuilderClip.LayerClips.ResetMatrix` | display_list/display_list_builder.cc:604-608 | the matrix is the identity; the clip bounds stay |
| `BuilderClip.LayerClips.IntersectBounds` | display_list/display_list_builder.cc:696-701 | the narrowed bounds contain every interior point of the narrowed clip, or are empty if it has none |
| `BuilderClip.LayerClips.ClipShape` | display_list/display_list_builder.cc:624-695 | after any intersect or difference, inversely filled or not, the tracked bounds contain the real clip up to parts without area; a call that cuts the clip down to the shape leaves strictly inside exactly what was inside and within the mapped bounds, any other leaves them alone |
| `BuilderClip.LayerClips.GetLocalClipBounds` | display_list/display_list_builder.cc:702-710 | for an invertible matrix every local point that can show is within the local bounds, which are the smallest that hold all local points landing in the rounded-out clip bounds; for a singular one they are everything |
| `BuilderClip.LayerClips.QuickReject` | display_list/display_list_builder.cc:712-725 | if bounds are rejected under an invertible matrix, no point inside them lands inside the real clip; if they are not, they are not empty, the matrix is invertible, and some point strictly inside the clip bounds is within a pixel of the mapped bounds |
| `BuilderClip.NothingShows` | display_list/display_list_builder.cc:722-724 | rounded-out device bounds that do not overlap the clip bounds leave no interior point in common |
| `BuilderClip.WithinShape` | display_list/display_list_builder.cc:696-701 | a clip cut down to a shape is within the overlap of the old bounds with the shape's mapped bounds |
| `ImageFilter.RoundTripContains` | display_list/display_list_image_filter.cc:77-118 | for every tree of filters under an affine matrix: if the input bounds for the output bounds of X can be computed, they contain X, sorted or not |
| `ImageFilter.NeedsWhatItWasGiven` | display_list/display_list_image_filter.cc:77-118 | input bounds computed for anything that covers the output bounds of X contain X, which is what carries through compose |
| `ImageFilter.WhenBoundsCanBeComputed` | display_list/display_list_image_filter.h:112-153 | whether a null pointer is returned, forward and backward, depends on the tree and the matrix alone: on unbounded colour filters, missing filters and singular matrices |
| `ImageFilter.FailureMayMissTheInput` | display_list/display_list_image_filter.h:469-484 | when null is returned, the best guess written need not contain the input: a matrix that moves everything to one point misses all that lies to its left |
| `ImageFilter.MatrixAdjoint` | display_list/display_list_image_filter.h:453-484 | through the matrix in device space and back through its inverse, with rounding out on both ways, nothing is lost |
| `ImageFilter.RadiusCovers` | display_list/display_list_image_filter.h:160-189 | the device radius bounds the displacement of every vector within the local radii, on both axes |
| `ImageFilter.RadiusIsAttained` | display_list/display_list_image_filter.h:160-189 | on each axis some vector within the radii is displaced by exactly the bound |
| `FilterRegions.OutputIsBounded` | display_list/display_list_image_filter.h:124-153 | for every tree of filters: the output bounds computed for bounds of some content contain wherever the content can be after the filters |
| `FilterRegions.InputIsBounded` | display_list/display_list_image_filter.h:139-153 | for every tree of filters: the input bounds computed for bounds of some region contain wherever input is looked for |
| `FilterRegions.LocalOutputIsBounded` | display_list/display_list_image_filter.h:112-124 | the same for the output bounds in local space |
| `FilterRegions.OutputBoundsAreLeast` | display_list/display_list_image_filter.h:160-239 | for a single filter, under local matrices or not, no smaller rectangle in whole pixels contains wherever content that fills the bounds can be after it |
| `FilterRegions.InputBoundsAreLeast` | display_list/display_list_image_filter.h:160-239 | for a single filter, no smaller rectangle in whole pixels contains wherever input is looked for |
| `FilterRegions.LocalBoundsAreLeast` | display_list/display_list_image_filter.h:112-124 | for a single filter, no smaller rectangle at all contains wherever content can be in local space |
| `FilterRegions.WhenDilationInputSuffices` | display_list/display_list_image_filter.h:339-344 | the input bounds of a dilation contain all that it reads for the output bounds if and only if its device radius is zero |
| `FilterRegions.DilationRoundTrip` | display_list/display_list_image_filter.h:332-344 | the input bounds of a dilation are those that it takes back to the output bounds: exactly for whole device radii, and to at most a pixel more for others |
| `DeviceBounds.MapBox` | display_list/display_list_image_filter.h:160-189 | the device radius is exactly by how much the bounds of the image of any rectangle extend from the image of its centre |
| `DeviceBounds.WhenOutsetCovers` | display_list/display_list_image_filter.h:216-239 | device bounds outset by the rounded-up radius under one matrix cover the image of the local outset under another, for all bounds, if and only if that radius reaches; under the same matrix it always does |
| `DeviceBounds.WhenInsetCovers` | display_list/display_list_image_filter.h:191-214 | device bounds inset by the rounded-down radius still cover the image of the local inset, for all bounds, if and only if that radius takes off no more |
| `DeviceBounds.WhenMatrixFilterCovers` | display_list/display_list_image_filter.h:447-467 | the device bounds of a matrix filter cover the image of its local bounds, for all bounds, if and only if along both axes bounds spread no further when first mapped in local space |
| `DeviceBounds.AxisAlignedSpreads` | display_list/display_list_image_filter.h:447-467 | that is so whenever the filter's matrix, or the invertible one it is used under, is axis-aligned |
| `DeviceBounds.WhenLocalDilationCovers` | display_list/display_list_image_filter.h:687-703 | a dilation under a local matrix, which local bounds ignore, covers for all bounds if and only if its radius there reaches as far as in local space |
| `DeviceBounds.SkewFallsShort` | display_list/display_list_image_filter.h:447-467 | a skewing filter under a skewed matrix: the condition fails |
| `DeviceBounds.SkewedFilterFallsShort` | display_list/display_list_image_filter.h:447-467 | so there are bounds whose device bounds leave out part of the image of the local ones |
| `DeviceBounds.LocalScaleFallsShort` | display_list/display_list_image_filter.h:687-703 | a dilation by 10 under a local scale of one tenth: the condition fails |
| `DeviceBounds.ScaledDilationFallsShort` | display_list/display_list_image_filter.h:687-703 | so there are bounds for which the device bounds of a dilation under a local matrix fall short |
| `DeviceBounds.DeviceBoundsCoverLocalBounds` | display_list/display_list_image_filter.cc:57-96 | for every tree of filters in which each meets its condition, bounds mapped step by step in whole device pixels cover the image of the bounds mapped in local space |
| `DeviceBounds.AxesKeptTrack` | display_list/display_list_image_filter.cc:57-96 | every tree without local matrices and without an erosion to less than nothing, in which each matrix filter is used under an invertible matrix and one of the two is axis-aligned, meets the conditions |
| `Complexity.Compute` | display_list/display_list_complexity_helper.h:208-225 | the early-exit score of a list, nested to any depth, is exactly the smaller of the ceiling and the plain sum of all costs with the batched ones, for every ceiling |
| `Complexity.GLHelper.AccumulateComplexity` | display_list/display_list_complexity_helper.h:227-235 | the score stands for the sum cut off at the ceiling, even when the amount added was itself cut off at what was left |
| `Complexity.GLHelper.ComplexityScore` | display_list/display_list_complexity_helper.h:208-225 | the smaller of the ceiling and the sum with the batched costs |
| `Complexity.GLHelper.DrawDisplayList` | display_list/display_list_complexity_gl.cc:640-648 | scoring a nested list against what is left adds its own exact cost, as far as the ceiling can tell |
| `Complexity.GLHelper.SaveLayer` | display_list/display_list_complexity_gl.cc:51-65 | a layer is counted for the batched cost, and one with a backdrop costs more than any ceiling |
| `Complexity.GLHelper.DrawTextBlob` | display_list/display_list_complexity_gl.cc:650-664 | a text blob is counted for the batched cost |
| `Complexity.GLHelper.DrawAtlas` | display_list/display_list_complexity_helper.h:178-197 | the series of images costs the sum of their costs |
| `Complexity.GLHelper.DrawUnconditionally` | display_list/display_list_complexity_helper.h:199-205 | adding without looking at the early exit cannot undo it |
| `Complexity.GLHelper.Dispatch` | display_list/display_list_complexity_helper.h:178-225 | the totals tracked are those of the whole stream |
| `Complexity.BatchedIsExact` | display_list/display_list_complexity_gl.cc:28-49 | the 32-bit formula never exceeds the formula itself and equals it if and only if no intermediate result leaves 32 bits, for any numbers of layers and text blobs, counted in 32 bits themselves |
| `Complexity.InfiniteList` | display_list/display_list_complexity_gl.cc:51-57 | a list costs more than any ceiling if and only if some layer in it, or in a list it draws at any depth, has a backdrop |
| `Complexity.WhenTheScoreIsExact` | display_list/display_list_complexity_gl.cc:28-65 | the code's sum is the sum of unbounded costs if and only if some layer in the tree of lists has a backdrop or all layer and text blob counts fit the formula; otherwise the score is too low, and right under a ceiling if and only if it is that ceiling |
| `Complexity.PlainListCosts` | display_list/display_list_complexity_gl.cc:28-49 | a list of fills, text blobs and layers without backdrops costs 50 for each fill, 2000000 for having layers and 40000 for each, and 50000 for having text blobs and a third of 2500 for each |
| `Complexity.PaintIsTheAttributes` | display_list/display_list_complexity_helper.h:88-127 | the paint that costs depend on has the anti-aliasing, style and width that the attributes of a recording have there |
| `Complexity.ManyLayersWrapAround` | display_list/display_list_complexity_gl.cc:28-38 | a list of n layers is scored at its cost if and only if n is at most 107324 |
| `Complexity.CalculatePathComplexity` | display_list/display_list_complexity_helper.h:244-275 | the numbers of lines, quads, conics and cubics, each times its cost, modulo 2^32; other verbs are free |

## Left out

- LayerElimination.EliminationPreservesPixels: sufficient, not necessary, in the condition on backdrops, since whether a backdrop shows depends on the pixels.
- BuiltLists.LayerEliminationPreservesPixels: asks for no backdrops at all; the finer condition is that of LayerElimination.EliminationPreservesPixels.
- DeviceBounds.DeviceBoundsCoverLocalBounds: its condition is exact for each filter on its own, and sufficient for a composition, where what one filter leaves out another may add again.
- FilterRegions.OutputBoundsAreLeast: for single filters, and for erosions that leave something; in a composition each step rounds to whole pixels, so the whole is not least.
- FilterRegions.InputBoundsAreLeast: likewise, for dilations that leave something.
- OpacityClasses.ColorAlphaIsApplied: for the draws that always use the paint; images, pictures and atlases do so only if asked.
- Backdrops.WhenBackdropShows: for backdrop filters that copy what is below and lists with one such layer; what other backdrop filters do to the pixels is open.
- RenderResults.RecordedListsPaintTheCalls: the raw calls are run on a canvas without saved states, since a dispatcher lets their surplus restores pop states of the canvas while the builder ignores them.
- ImageFilter.RoundTripContains: perspective matrices and the bounds of Skia filters of unknown type are not part of this model, and integer bounds do not saturate.
- BuilderClip.LayerClips.QuickReject: perspective matrices are not part of this model; a singular matrix rejects everything, which draws nothing with an area.
- ClipTracker.MatrixClipTracker.ClipBounds: matrices with perspective only in that clips are skipped under them, as in the code.
- ClipTracker.MatrixClipTracker.Restore: restoring the last saved state is undefined in the code and excluded here.
- Builder.DisplayListBuilder.Build: the theorems about lists are about the first list of a builder; how later ones differ is stated in BuilderReuse.
- Builder.DisplayListBuilder.PushRecord: in the class, records sit whole at their byte offsets; the bytes they become are the subject of RecordStorage, where the struct of each operation is a parameter.
- Builder.DisplayListBuilder.PatchSaveLayer: replaces a whole record; that this is one byte of the buffer is shown in RecordStorage.
- BuilderClip.LayerClips.PreConcat: full perspective matrices are not part of this model.
- CanvasDispatcher.Dispatcher.SetAttribute: a colour-type source reaching the dispatcher is taken as that colour; recorded lists never hold one.
- The builder's level information is split into two models, one for the opacity flags and one for matrix and clip.
- setAttributesFromPaint and the draw calls taking a DlPaint, which are sequences of the modelled setters and draws.
- Bounds and R-tree of a list, the canvas recorder, the multiplexer, attribute getters, enum conversions.
- Skia itself: canvas, paint, path geometry, shader and filter evaluation.
- The cost formulas of single operations, and the Metal calculator, which has the shape of the GL one.
- Float rounding, NaN and infinities beyond the finiteness checks.
- Memory: allocation failure, size_t overflow, destructors run by DisposeOps.
