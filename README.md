# Flutter engine frame scheduling, layers and embedders — a Dafny model

This project models a slice of the Flutter engine in Dafny and proves what
that slice promises:

- **Animator** (`shell/common/animator.cc`): the UI-thread frame scheduler.
  Frame requests are coalesced through a one-permit semaphore, and each vsync
  either redraws the last layer tree or begins a new frame. A producer
  continuation is held until Render commits a tree. Idle notifications carry
  a generation id, so a later frame makes them stale. Trace flows are ended
  in order.
- **Layers** (transform, texture, container and the tests' mock layer).
  Preroll computes paint bounds, the matrix, the cull rect and the mutators
  each child sees. Paint is the exact sequence of calls a recording canvas
  observes, including SkCanvas's deferred saves.
- **Layer diff**: damage between two frames' trees. The container diff pairs
  children by common prefix and suffix, and the frame damage is the join of
  the damaged rects.
- **PhysicalShapeLayer**: shadow bounds, the choice of paint bounds, and the
  call sequence Paint issues for each clip behaviour.
- **PaintRegion and LayerTree**: a region as a view into a shared, append-only
  vector of rects, and the layer tree's frame container with its setters.
- **Fuchsia external view embedder**: BeginFrame, the per-view
  PrerollCompositeEmbeddedView, and SubmitFrame's composition loop. The loop
  places platform views and layers in increasing elevation, reuses Scenic
  layers and rectangles, and issues node updates only for changed values.
  View creation, destruction and properties are covered too.
- **Fuchsia ViewHolder**: change-tracking property setters, UpdateScene, and
  the per-thread koid-to-holder bindings.
- **Fuchsia PlatformView**: pointer events (with the down-pointer tracking
  that turns a move into a hover), Scenic metrics and view-size events,
  child-view events and their deferral, the view-bound and view-unbound
  callbacks, and platform messages on channels without a handler.
- **Linux FlEngine**: locale parsing and `setup_locales`, the platform-message
  handler and its data's lifetime, responses, and sends that are dropped when
  no engine runs.
- **ImageGeneratorRegistry**: the priority-ordered set of factories and
  first-match generator creation.
- **Embedder test utilities**: filtering mutations by type, and folding
  transformation mutations into one matrix.

Code that changes state in place is modelled as classes with `modifies`
clauses: the animator, the canvas, the texture registry's textures, the layer
tree, the physical shape layer, the embedder, view holders, the platform
view, the Linux engine and the registry. Each such method is proved against
a function of its old state, and the properties are lemmas about those
functions. Loops in the source are `while` loops with invariants:
`parse_locale`'s `strrchr` and copies, `setup_locales`, the embedder's
mutator-stack folds and its composition loop, the registry's first-match
search, and the test utilities. Values are datatypes: layers, rects,
matrices, mutations, locales and events. The layers' Preroll is a function
returning the tree with its bounds filled in.

Floating-point values are `real`. A matrix is a scale-plus-translate matrix.
Foreign code is modelled by what the model observes of it: the embedder proc
table, Scenic, factory callbacks and message handlers. Their calls are
recorded in logs, and what they return is a parameter.

## Model

| member | source | states |
|---|---|---|
| `Animators.PipelineDepth` | shell/common/animator.cc:31-41 | the pipeline holds 2 trees with Metal and 1 only without Metal when platform and raster threads are shared |
| `Animators.FrameParity` | shell/common/animator.cc:87-93 | "even" without a recorder; with one, "even" exactly when the frame number is odd (as the code is written) |
| `Animators.ParityAlternates` | shell/common/animator.cc:87-93 | consecutive frame numbers always get different parities |
| `Animators.RequestedFrame` | shell/common/animator.cc:228-263 | a request accumulates the regenerate flag and never changes permits plus posted AwaitVSync tasks |
| `Animators.Animator.constructor` | shell/common/animator.cc:24-50 | a new animator runs, has one free permit, no continuation, nothing queued or posted, and the pipeline depth chosen by PipelineDepth |
| `Animators.Animator.Stop` | shell/common/animator.cc:54-56 | only the paused flag changes |
| `Animators.Animator.Start` | shell/common/animator.cc:58-65 | a running animator is unchanged; a paused one unpauses and requests a frame with a new tree |
| `Animators.Animator.SetDimensionChangePending` | shell/common/animator.cc:69-71 | only the pending-dimension-change flag is set |
| `Animators.Animator.EnqueueTraceFlowId` | shell/common/animator.cc:73-83 | the id joins the back of the trace-flow queue and nothing else changes; the secondary vsync callback that line 81 schedules is the separate MaybeClearTraceFlowIds step |
| `Animators.Animator.MaybeClearTraceFlowIds` | shell/common/animator.cc:286-302 | with no frame scheduled and ids queued, every queued flow is ended in order; otherwise nothing changes |
| `Animators.Animator.DrainTraceFlowIds` | shell/common/animator.cc:111-115 | the queue empties into the ended flows, oldest first |
| `Animators.Animator.RequestFrame` | shell/common/animator.cc:228-263 | the new state is RequestedFrame of the old, and the permit invariant is kept |
| `Animators.Animator.RunAwaitVSync` | shell/common/animator.cc:265-279 | the posted task is consumed, one vsync callback becomes pending, and the delegate is told to notify idle |
| `Animators.Animator.CanReuseLastLayerTree` | shell/common/animator.cc:211-213 | the last tree can be reused exactly when no new tree was asked for; OnVsync redraws on it and begins a frame otherwise |
| `Animators.Animator.OnVsync` | shell/common/animator.cc:266-276 | the vsync callback begins a frame when a new tree was asked for and otherwise redraws the last tree |
| `Animators.Animator.DrawLastLayerTree` | shell/common/animator.cc:215-226 | the permit is given back and the delegate is told to draw the last tree with the given timings |
| `Animators.Animator.BeginFrame` | shell/common/animator.cc:101-180 | the new state is BeganFrame of the old: reset, then build with a held or produced continuation, or retry; the delegate's request made while building (with or without a new tree, or none) is passed through to RequestFrame |
| `Animators.Animator.ResetForFrame` | shell/common/animator.cc:101-120 | takes the timings, ends every queued flow, frees the permit and clears the scheduled and regenerate flags |
| `Animators.Animator.BuildFrame` | shell/common/animator.cc:139-179 | tells the delegate to begin the frame, applies the delegate's request for another with its own regenerate flag (or none), and posts an idle task when no frame is scheduled |
| `Animators.Animator.RunIdleTask` | shell/common/animator.cc:171-176 | the delegate is notified exactly when the idle task's generation is current and no frame is scheduled |
| `Animators.Animator.Render` | shell/common/animator.cc:182-209 | the new state is Rendered of the old, for the tree's frame size |
| `Animators.BeganFrame` | shell/common/animator.cc:101-180 | the reference state after BeginFrame: flows ended, permit returned, generation advanced, flags cleared; then a held or produced continuation is built (the in-frame request applied and an idle task posted when unscheduled), or a new tree is requested as a retry; BeginFrameOutcome states each field |
| `Animators.Rendered` | shell/common/animator.cc:182-209 | the reference state after Render: the size is noted, a recorder is made when none is held, a held continuation commits the tree, and the delegate draws with the recorder's timings ended now; RenderOutcome states each field |
| `Animators.Animator.NoteFrameSize` | shell/common/animator.cc:183-187 | a pending dimension change ends when the size differs from the last one; the size is remembered |
| `Animators.Animator.EnsureRecorder` | shell/common/animator.cc:189-195 | held timings stay; otherwise placeholder timings that start now are made |
| `Animators.Animator.CompleteContinuation` | shell/common/animator.cc:202-205 | a held continuation commits a tree of that size and is consumed |
| `AnimatorProperties.PausedRequestSchedulesNothing` | shell/common/animator.cc:228-241 | while paused with no dimension change, a request only records the regenerate wish |
| `AnimatorProperties.RequestsCoalesce` | shell/common/animator.cc:228-263 | two requests equal one request for either; with the permit taken a request posts nothing |
| `AnimatorProperties.RequestTakesPermit` | shell/common/animator.cc:243-262 | with the permit free and the animator running, a request takes it, posts one AwaitVSync and schedules a frame |
| `AnimatorProperties.DrawLastIsInstant` | shell/common/animator.cc:215-226 | redrawing gives the permit back and reports a build that starts and ends at the same instant |
| `AnimatorProperties.BeginFrameOutcome` | shell/common/animator.cc:101-180 | flows end in order; a new idle generation starts; with a continuation the delegate builds exactly once, a new tree is wanted exactly when its request asked for one, and a frame is scheduled exactly when it asked at all (unless paused); otherwise it hears nothing and a retry is scheduled unless paused |
| `AnimatorProperties.IdleTaskPostedWhenIdle` | shell/common/animator.cc:153-179 | an idle task is added exactly when a frame was built and none is scheduled, tagged with the new generation |
| `AnimatorProperties.BeginFrameMakesIdleTasksStale` | shell/common/animator.cc:117-120 | after a BeginFrame no earlier idle task carries the current generation |
| `AnimatorProperties.RenderOutcome` | shell/common/animator.cc:182-209 | the dimension change ends exactly when the size changed; the tree is committed exactly when a continuation was held; the delegate gets timings that end now |
| `AnimatorProperties.RequestWithoutNewTreeRedraws` | shell/common/animator.cc:228-276 | a request without a new tree made while building still schedules a vsync, and that vsync redraws the last tree instead of beginning a frame |
| `AnimatorProperties.CoalescedRequests` | shell/common/animator.cc:228-279 | three quick requests post one AwaitVSync; after the frame is rendered a new request posts again |
| `Geometry.Offset` | flow/layers/texture_layer_unittests.cc:18-32 | an offset rect keeps its width and height and moves its origin by the offset |
| `Geometry.Outset` | flow/layers/physical_shape_layer.cc:160-168 | a non-negative outset contains the rect and grows each side by twice the outset |
| `Geometry.Join` | flow/paint_region.h:40 | joining an empty rect changes nothing; joining into an empty rect yields the other; otherwise the join contains both |
| `Geometry.MakeXYWH` | flow/layers/transform_layer_unittests.cc:45 | the rect has the given width and height and is empty exactly when a side is not positive |
| `Geometry.MakeSize` | flow/layers/texture_layer_unittests.cc:18-32 | the rect sits at the origin with the size's width and height |
| `Geometry.RRectFromRect` | flow/layers/physical_shape_layer.cc:26-48 | the rounded rect of a rect has that rect and square corners |
| `Geometry.RRectFromOval` | flow/layers/physical_shape_layer.cc:26-48 | the rounded rect of an oval has radii half its width and height |
| `Geometry.Inverse` | flow/layers/transform_layer_unittests.cc:72-73 | the inverse of an invertible matrix is invertible |
| `Geometry.MapRect` | flow/layers/transform_layer_unittests.cc:82-83 | a mapped rect is sorted |
| `Geometry.Concat` | flow/layers/transform_layer_unittests.cc:86-87 | Concat(a, b) maps every point through b and then a |
| `Geometry.InverseMaps` | flow/layers/transform_layer_unittests.cc:72-73 | the inverse maps every mapped point back |
| `Geometry.MapSpanCompose` | flow/layers/transform_layer_unittests.cc:124-127 | sorting a mapped interval twice is sorting it once under the composed map |
| `Geometry.MapRectConcat` | flow/layers/transform_layer_unittests.cc:124-127 | mapping through a product is mapping through each factor in turn |
| `Geometry.MapRectIdentity` | flow/layers/transform_layer_unittests.cc:52-53 | the identity leaves a sorted rect unchanged |
| `Geometry.MapRectInverse` | flow/layers/transform_layer_unittests.cc:88-89 | mapping a sorted rect and mapping back through the inverse returns it |
| `Geometry.ConcatIdentity` | flow/layers/transform_layer_unittests.cc:56 | the identity is neutral on both sides of Concat |
| `Geometry.ConcatAssociative` | flow/layers/transform_layer_unittests.cc:131-134 | Concat is associative, so nested transforms group either way |
| `Geometry.JoinAllIsLeastBound` | flow/paint_region.h:40 | a join of rects is empty exactly when all are, contains every non-empty one, and lies inside any rect containing them |
| `Geometry.InverseConcat` | flow/layers/transform_layer_unittests.cc:135-137 | the inverse of a product is the product of the inverses in reverse order |
| `Geometry.MapRectEmptiness` | flow/layers/transform_layer_unittests.cc:19-28 | an empty sorted rect maps to an empty rect, and an invertible matrix maps a non-empty rect to a non-empty one |
| `Geometry.MapRectMonotone` | flow/layers/transform_layer_unittests.cc:124-127 | a rect inside another maps inside its image |
| `Canvas.Alpha` | flow/layers/physical_shape_layer.cc:91-96 | the alpha of a colour is its top byte and is 0xff exactly for opaque colours |
| `Canvas.RestoresLowerSaveCount` | flow/layers/physical_shape_layer.cc:124 | each restore above the base level lowers the save count by exactly one |
| `Canvas.Restores` | flow/layers/physical_shape_layer.cc:124 | n restores in a row: a deferred save is dropped silently, a realized level logs one restore, the base level is kept; the stack never empties, and RestoresLowerSaveCount states each restore lowers the count by one |
| `Canvas.Canvas.constructor` | flow/layers/transform_layer_unittests.cc:61-63 | a new canvas has an empty log and one level with no deferred saves |
| `Canvas.Canvas.Save` | flow/layers/transform_layer_unittests.cc:94-101 | save returns the old save count, raises it by one, and logs nothing until realized |
| `Canvas.Canvas.CheckForDeferredSave` | flow/layers/transform_layer_unittests.cc:94-101 | a deferred save is realized and logged as a save at the current depth; the save count is unchanged |
| `Canvas.Canvas.SaveLayer` | flow/layers/physical_shape_layer.cc:109-111 | saveLayer always reaches the device and opens a new level |
| `Canvas.Canvas.Restore` | flow/layers/transform_layer_unittests.cc:153-154 | a deferred save is dropped silently; a realized level is restored and logged |
| `Canvas.Canvas.RestoreToCount` | flow/layers/physical_shape_layer.cc:124 | restores until the save count is the target, with counts below 1 read as 1 |
| `Canvas.Canvas.Concat` | flow/layers/transform_layer_unittests.cc:42-64 | the identity logs nothing and realizes nothing; any other matrix realizes a deferred save and is logged |
| `Canvas.Canvas.ClipPath` | flow/layers/physical_shape_layer.cc:99-112 | a clip realizes a deferred save and is logged with its anti-aliasing |
| `Canvas.Canvas.Draw` | flow/layers/transform_layer_unittests.cc:61-63 | a drawing call is logged at the current depth and changes no level |
| `Canvas.DeferredSaveRestoresSilently` | flow/layers/transform_layer_unittests.cc:60-63 | a save that nothing realized is undone by restoreToCount without any logged call |
| `Canvas.RealizedSaveRestoresOnce` | flow/layers/transform_layer_unittests.cc:94-101 | a save realized by a matrix or clip change is closed by exactly one logged restore |
| `Canvas.RealizedSaveAndLayerRestoreTwice` | flow/layers/physical_shape_layer.cc:109-124 | a clip-realized save followed by saveLayer is closed by two logged restores |
| `Layers.NewMockLayer` | flow/layers/transform_layer_unittests.cc:46 | a new mock layer is its own origin and needs no painting before Preroll |
| `Layers.NewTransformLayer` | flow/layers/transform_layer_unittests.cc:47-48 | a new transform layer is its own origin and needs no painting before Preroll |
| `Layers.NewContainerLayer` | flow/layers/transform_layer_unittests.cc:276-282 | a new container layer is its own origin and needs no painting before Preroll |
| `Layers.NewTextureLayer` | flow/layers/texture_layer.h:17-21 | a new texture layer is its own origin and needs no painting before Preroll |
| `Layers.IsReplacing` | flow/layers/texture_layer.h:25-27 | a texture layer replaces any texture layer, and any other layer replaces the layers of its own origin; IsReplacingItself shows every layer replaces itself |
| `Layers.AssignOldLayer` | flow/layers/transform_layer_unittests.cc:251-255 | the layer keeps its identity and takes the origin of the layer it replaces |
| `Layers.BoundsOf` | flow/layers/transform_layer_unittests.cc:123-127 | the i-th bound is the i-th layer's paint bounds |
| `Layers.Preroll` | flow/layers/texture_layer.h:35 | Preroll keeps each layer's identity, kind and number of children |
| `Layers.Texture.constructor` | flow/layers/texture_layer_unittests.cc:71-95 | a registered texture starts with no recorded paints |
| `Layers.Texture.Paint` | flow/layers/texture_layer_unittests.cc:88-94 | each paint call is recorded with its bounds, freeze flag and sampling |
| `Layers.Paint` | flow/layers/texture_layer.h:36 | the canvas log grows by PaintCalls of the layer at the current depth, the levels are restored, and each texture records TexturePaints |
| `Layers.PaintTransform` | flow/layers/transform_layer_unittests.cc:93-101 | the transform's save, concat, children and restore, as PaintCalls gives them |
| `Layers.OpenTransform` | flow/layers/transform_layer_unittests.cc:96-98 | the save returns the old count; an identity concat logs nothing and a non-identity concat realizes the save |
| `Layers.CloseTransform` | flow/layers/transform_layer_unittests.cc:101 | the closing restore logs nothing for the identity and one restore otherwise |
| `Layers.PaintChildren` | flow/layers/transform_layer_unittests.cc:142-154 | the children that need painting are painted in order, and the levels are restored |
| `LayerProperties.JoinAllSingle` | flow/layers/transform_layer_unittests.cc:53 | the bounds of one non-empty child are that child's bounds |
| `LayerProperties.JoinAllSorted` | flow/layers/transform_layer_unittests.cc:123-127 | joined bounds are always sorted |
| `LayerProperties.TransformBoundsCoverChildren` | flow/layers/transform_layer_unittests.cc:82-83 | a transform's bounds contain the mapped bounds of every child |
| `LayerProperties.EmptyTransformNeedsNoPainting` | flow/layers/transform_layer_unittests.cc:19-28 | a transform without children has empty bounds, so painting it is refused |
| `LayerProperties.IdentityTransformIsTransparent` | flow/layers/transform_layer_unittests.cc:42-64 | an identity transform passes its child the parent's matrix and cull rect, with the identity on its mutators, and takes the child's bounds |
| `LayerProperties.ChildrenCallsSingle` | flow/layers/transform_layer_unittests.cc:61-63 | painting a one-child list paints that child |
| `LayerProperties.PrerollOneChild` | flow/layers/transform_layer_unittests.cc:79-91 | the child is prerolled under the composed matrix, the inverse-mapped cull rect and the pushed mutator |
| `LayerProperties.TransformOfOneChild` | flow/layers/transform_layer_unittests.cc:82-85 | the transform's bounds are its matrix applied to the child's bounds, and it needs painting |
| `LayerProperties.TransformPrerollAndPaint` | flow/layers/transform_layer_unittests.cc:66-102 | the Simple test: the child sees Concat(parent, M), the inverse-mapped cull rect and [M]; Paint logs save, concat, draw and restore |
| `LayerProperties.NestedMatrices` | flow/layers/transform_layer_unittests.cc:131-137 | nested matrices, inverse cull rects and mapped bounds each compose into one |
| `LayerProperties.NestedTransformsCompose` | flow/layers/transform_layer_unittests.cc:104-141 | the Nested test's Preroll: matrices compose, cull rects go through both inverses, mutators stack innermost first, and bounds are mapped twice |
| `LayerProperties.NestedTransformsPaint` | flow/layers/transform_layer_unittests.cc:142-154 | the Nested test's Paint: two saves and concats around the draw, closed by two restores |
| `LayerProperties.PaintCallsStayAtOrBelow` | flow/layers/transform_layer_unittests.cc:142-154 | no call Paint makes is logged above the depth it started at |
| `LayerProperties.ChildrenCallsStayAtOrBelow` | flow/layers/transform_layer_unittests.cc:142-154 | no call the children's painting makes is logged above the starting depth |
| `LayerProperties.TexturePrerollBounds` | flow/layers/texture_layer_unittests.cc:18-32 | a texture layer's bounds are its size at its offset, and it needs painting exactly when the size is not empty |
| `LayerProperties.PaintTextureLayer` | flow/layers/texture_layer_unittests.cc:18-32 | a texture layer draws nothing on the canvas; a registered texture gets one paint with the layer's bounds, freeze and sampling, and a missing one gets none |
| `LayerDiff.Footprint` | flow/layers/transform_layer_unittests.cc:232-244 | computes the screen rects a layer's leaves paint: a mock layer's path bounds and a texture's size at its offset, mapped by the matrix of the transforms above; FootprintAllMembers and FootprintOfSlice state how list footprints compose |
| `LayerDiff.DiffLayer` | flow/layers/transform_layer_unittests.cc:232-267 | computes a pair's damage: nothing for a mock layer whose old layer is a mock layer with the same path, only the children's diff for a transform over one with the same matrix or a container over a container, and otherwise (texture layers always) the old and the new footprint; DiffLayerWithinFootprints bounds it by the two footprints |
| `LayerDiff.DiffChildren` | flow/layers/transform_layer_unittests.cc:269-334 | computes a children diff: children are paired by the common prefix and suffix of replacing layers, then the unpaired old footprints and each new child's damage follow; it lies within both footprints (DiffChildrenWithinFootprints), is empty against itself (SelfDiffIsEmpty) and is the whole footprint against nothing (FirstDiffDamagesFootprint) |
| `LayerDiff.NewDamage` | flow/layers/transform_layer_unittests.cc:269-334 | computes each new child's contribution in order: nothing for the same object, its pair's diff when paired, its footprint when unpaired; NewDamageWithinFootprints, NewDamageOfRetained and NewDamageOfUnpaired state it |
| `LayerDiff.FrameDamage` | flow/layers/transform_layer_unittests.cc:243-331 | computes DiffLayerTree's damage as the join of the root children's diff; FrameDamageWithinFootprints bounds it, and the Transform and TransformNested lemmas give its values in the tests |
| `LayerDiff.CommonPrefix` | flow/layers/transform_layer_unittests.cc:269-334 | the longest prefix of pairs in which the new layer replaces the old one |
| `LayerDiff.CommonSuffix` | flow/layers/transform_layer_unittests.cc:269-334 | the longest suffix, within a limit, of replacing pairs |
| `LayerDiffProperties.FootprintAllMembers` | flow/layers/transform_layer_unittests.cc:269-296 | a rect is in a list's footprint exactly when it is in one member's footprint |
| `LayerDiffProperties.FootprintOfSlice` | flow/layers/transform_layer_unittests.cc:269-296 | a slice's footprint lies in the whole list's footprint |
| `LayerDiffProperties.DiffLayerWithinFootprints` | flow/layers/transform_layer_unittests.cc:232-267 | a pair's damage lies in the new or the old footprint |
| `LayerDiffProperties.DiffChildrenWithinFootprints` | flow/layers/transform_layer_unittests.cc:269-334 | a children diff's damage lies in the new or the old children's footprints |
| `LayerDiffProperties.NewDamageWithinFootprints` | flow/layers/transform_layer_unittests.cc:269-334 | the damage of the new children lies in the two footprints |
| `LayerDiffProperties.IsReplacingItself` | flow/layers/texture_layer.h:25-27 | every layer replaces itself |
| `LayerDiffProperties.SelfDiffIsEmpty` | flow/layers/transform_layer_unittests.cc:258-266 | diffing a tree against itself damages nothing |
| `LayerDiffProperties.NewDamageOfRetained` | flow/layers/transform_layer_unittests.cc:258-266 | retained children contribute no damage |
| `LayerDiffProperties.FirstDiffDamagesFootprint` | flow/layers/transform_layer_unittests.cc:240-244 | diffing against an empty old tree damages the whole new footprint |
| `LayerDiffProperties.NewDamageOfUnpaired` | flow/layers/transform_layer_unittests.cc:240-244 | unpaired new children damage exactly their footprint |
| `LayerDiffProperties.FrameDamageWithinFootprints` | flow/layers/transform_layer_unittests.cc:232-334 | the frame damage lies within the join of both frames' footprints |
| `LayerDiffProperties.OnePairDamage` | flow/layers/transform_layer_unittests.cc:246-255 | one replacing pair of distinct objects damages what the pair's diff damages |
| `LayerDiffProperties.OneUnpairedDamage` | flow/layers/transform_layer_unittests.cc:296 | a non-replacing pair damages the old and the new footprint |
| `LayerDiffProperties.ThreePairsDamage` | flow/layers/transform_layer_unittests.cc:298-326 | three replacing pairs damage what their three pair diffs damage, in order |
| `LayerDiffProperties.TranslatedMockFootprint` | flow/layers/transform_layer_unittests.cc:235-244 | a translated mock layer's footprint is its path bounds moved by the translation |
| `LayerDiffProperties.TransformDiffFirstFrame` | flow/layers/transform_layer_unittests.cc:240-244 | the first frame of the Transform test damages (10, 10, 60, 60) |
| `LayerDiffProperties.TransformDiffMovedFrame` | flow/layers/transform_layer_unittests.cc:246-255 | moving to translate(20, 20) damages (10, 10, 70, 70) |
| `LayerDiffProperties.TransformDiffUnchangedFrame` | flow/layers/transform_layer_unittests.cc:257-266 | an unchanged translate damages nothing |
| `LayerDiffProperties.NestedTree1Footprint` | flow/layers/transform_layer_unittests.cc:271-289 | the first nested tree's footprint is the three scaled, translated rects |
| `LayerDiffProperties.NestedTree2Footprint` | flow/layers/transform_layer_unittests.cc:298-318 | the second nested tree's footprint is its three scaled, translated rects |
| `LayerDiffProperties.NestedDiffFirstFrame` | flow/layers/transform_layer_unittests.cc:291-296 | the first nested frame damages (20, 20, 500, 500) |
| `LayerDiffProperties.NestedDiffUnassignedFrame` | flow/layers/transform_layer_unittests.cc:319-326 | a new outer transform that is not a new version of the old damages (20, 20, 500, 500) |
| `LayerDiffProperties.UnchangedTransformNoDamage` | flow/layers/transform_layer_unittests.cc:257-266 | a new version of a transform with the same matrix and children damages nothing |
| `LayerDiffProperties.MovedTransformDamage` | flow/layers/transform_layer_unittests.cc:246-255 | a new version with another matrix damages its old and its new footprint |
| `LayerDiffProperties.NestedInnerPairs` | flow/layers/transform_layer_unittests.cc:298-333 | of the three inner pairs only the changed translate damages |
| `LayerDiffProperties.NestedChildrenDamage` | flow/layers/transform_layer_unittests.cc:328-333 | the assigned nested trees' children damage only the moved subtree |
| `LayerDiffProperties.NestedDiffAssignedFrame` | flow/layers/transform_layer_unittests.cc:328-333 | once the outer transform is a new version, the frame damage is only the moved subtree's old and new rects |
| `PaintRegions.RectBuffer.constructor` | flow/paint_region.h:23-27 | the shared vector starts empty |
| `PaintRegions.RectBuffer.Push` | flow/paint_region.h:10-19 | the rect is appended after every rect already there |
| `PaintRegions.View` | flow/paint_region.h:29-37 | the rects from begin to end are the vector's rects at those indices |
| `PaintRegions.PaintRegion.Elements` | flow/paint_region.h:29-37 | iterating from begin() to end() visits exactly the shared vector's rects at indices from up to (not including) to, in order; begin and end require a valid region, as the DCHECKs do |
| `PaintRegions.PaintRegion.IsValid` | flow/paint_region.h:42 | a region is valid exactly when it has a vector; DefaultRegion and MakeRegion state which regions are |
| `PaintRegions.PaintRegion.HasReadback` | flow/paint_region.h:44-46 | the readback flag the region was made with; MakeRegion and DefaultRegion state its value |
| `PaintRegions.PaintRegion.ComputeBounds` | flow/paint_region.h:39-40 | the bounds (assumed to be the join of the region's rects) are empty exactly when every rect of the region is, and hold each non-empty one |
| `PaintRegions.DefaultRegion` | flow/paint_region.h:22 | a default region is invalid, empty and has no readback |
| `PaintRegions.MakeRegion` | flow/paint_region.h:23-27 | a constructed region is valid, refers to the given vector, and reports the given readback flag |
| `PaintRegions.ViewStableUnderAppend` | flow/paint_region.h:10-19 | appending to the vector leaves every existing region's rects unchanged |
| `PaintRegions.ComputeBoundsIsLeastBound` | flow/paint_region.h:39-40 | the join of a region's rects (the assumed definition of ComputeBounds) contains each non-empty rect, is empty exactly when every rect is, and is the smallest such rect |
| `PaintRegions.PushKeepsRegion` | flow/paint_region.h:10-19 | a push by another writer does not change a region's rects |
| `LayerTrees.LayerTree.constructor` | flow/layers/layer_tree.h:22 | a tree keeps the given size and pixel ratio and starts with no root; its initial tracing threshold (0, tracing disabled) and checkerboard flags (false) are assumed, as listed under Left out |
| `LayerTrees.LayerTree.RootLayer` | flow/layers/layer_tree.h:43 | the getter returns the stored root, which SetRootLayer's contract ties to the last value set |
| `LayerTrees.LayerTree.SetRootLayer` | flow/layers/layer_tree.h:43-47 | the getter returns what was set; no other field changes |
| `LayerTrees.LayerTree.SetRasterizerTracingThreshold` | flow/layers/layer_tree.h:59-68 | the threshold round-trips, tracing is on exactly for a non-zero value, and nothing else changes |
| `LayerTrees.LayerTree.SetCheckerboardRasterCacheImages` | flow/layers/layer_tree.h:70-72 | only its flag changes |
| `LayerTrees.LayerTree.SetCheckerboardOffscreenLayers` | flow/layers/layer_tree.h:74-76 | only its flag changes |
| `LayerTrees.CheckerboardSettersCommute` | flow/layers/layer_tree.h:70-84 | two trees that agree on root layer and threshold, with the checkerboard flags set in opposite orders, end with the same root, threshold and flags, and keep their own root and threshold |
| `PhysicalShapeLayers.ComputeShadowBounds` | flow/layers/physical_shape_layer.cc:127-169 | no elevation gives the bounds themselves; with a non-negative elevation and ratio the shadow contains the bounds |
| `PhysicalShapeLayers.ShadowBoundsExtent` | flow/layers/physical_shape_layer.cc:160-168 | each side moves out by the extent the light height, light radius and elevation give |
| `PhysicalShapeLayers.ShadowGrowsWithElevation` | flow/layers/physical_shape_layer.cc:127-169 | a higher layer's shadow contains a lower one's |
| `PhysicalShapeLayers.CompositedShape` | flow/layers/physical_shape_layer.cc:26-48 | the compositor's shape has the path's bounds: a rounded rect as given, an oval's radii half its sides, and square corners otherwise |
| `PhysicalShapeLayers.ShapeBoundsCoverPath` | flow/layers/physical_shape_layer.cc:70-78 | the chosen paint bounds contain the path's bounds and are non-empty when the path's are |
| `PhysicalShapeLayers.ShapeBounds` | flow/layers/physical_shape_layer.cc:70-78 | the bounds Preroll picks without the system compositor: the path's bounds, or their shadow bounds when elevated; ShapeBoundsCoverPath and ShadowGrowsWithElevation state it covers the path and grows with elevation |
| `PhysicalShapeLayers.ShadowFirstIffElevated` | flow/layers/physical_shape_layer.cc:85-88 | a shadow is drawn, first, exactly for an elevated layer |
| `PhysicalShapeLayers.FillOnceByClip` | flow/layers/physical_shape_layer.cc:91-120 | the fill is drawn exactly once: as the path without a save-layer clip, and as drawPaint inside the layer with one |
| `PhysicalShapeLayers.ClipFollowsBehaviour` | flow/layers/physical_shape_layer.cc:99-112 | no clip for Clip::none, a hard-edged or anti-aliased clip as chosen, and a save layer on top of the anti-aliased clip for the save-layer behaviour |
| `PhysicalShapeLayers.ClippedClipOps` | flow/layers/physical_shape_layer.cc:98-124 | the clip and layer calls of the clipped part follow the behaviour |
| `PhysicalShapeLayers.PaintIsBracketed` | flow/layers/physical_shape_layer.cc:81-125 | Paint's calls are well nested and return to the starting depth |
| `PhysicalShapeLayers.CloseClip` | flow/layers/physical_shape_layer.cc:124 | restoreToCount closes exactly what the clip switch opened: nothing, one restore or two |
| `PhysicalShapeLayers.PhysicalShapeLayer.constructor` | flow/layers/physical_shape_layer.cc:15-49 | the fields are as given, the compositor shape exists exactly with system compositing, and the bounds start empty |
| `PhysicalShapeLayers.PhysicalShapeLayer.Preroll` | flow/layers/physical_shape_layer.cc:51-79 | with system compositing the bounds are empty when the frame behind the layer is opaque and the base's otherwise, and compositing is needed as the base says; without it the bounds are ShapeBounds (the path's, or its shadow bounds when elevated) and no compositing is needed |
| `PhysicalShapeLayers.PhysicalShapeLayer.Paint` | flow/layers/physical_shape_layer.cc:81-125 | the canvas log grows by the shadow, fill, clip, children and restores in the fixed order, and the levels are restored |
| `PhysicalShapeLayers.PhysicalShapeLayer.PaintClipped` | flow/layers/physical_shape_layer.cc:98-124 | from the save on, the log grows by ClippedCalls and the levels are restored |
| `PhysicalShapeLayers.PhysicalShapeLayer.ApplyClip` | flow/layers/physical_shape_layer.cc:99-112 | the clip switch realizes the save and logs the clip (and save layer) the behaviour calls for |
| `ImageGeneratorRegistries.Inserted` | lib/ui/painting/image_generator_registry.cc:49-53 | inserting into the ordered set adds exactly one factory |
| `ImageGeneratorRegistries.InsertedKeepsAll` | lib/ui/painting/image_generator_registry.cc:49-53 | insertion keeps every factory already registered and adds the new one |
| `ImageGeneratorRegistries.Consulted` | lib/ui/painting/image_generator_registry.cc:55-64 | never more factories are consulted than there are |
| `ImageGeneratorRegistries.InsertedAt` | lib/ui/painting/image_generator_registry.cc:49-53 | the new factory lands right after the factories ordered before it |
| `ImageGeneratorRegistries.InsertedKeepsOrder` | lib/ui/painting/image_generator_registry.cc:49-53 | a factory with the newest nonce inserted there keeps the set sorted |
| `ImageGeneratorRegistries.ConsultedStopsAtFirst` | lib/ui/painting/image_generator_registry.cc:57-61 | the search stops at the first factory that produces a generator |
| `ImageGeneratorRegistries.ImageGeneratorRegistry.constructor` | lib/ui/painting/image_generator_registry.cc:20-45 | the built-in codec factory at priority 0, then the platform codec on macOS and Windows, with increasing nonces |
| `ImageGeneratorRegistries.ImageGeneratorRegistry.AddFactory` | lib/ui/painting/image_generator_registry.cc:49-53 | the factory is inserted in order with a fresh nonce; nothing is lost |
| `ImageGeneratorRegistries.ImageGeneratorRegistry.CreateCompatibleGenerator` | lib/ui/painting/image_generator_registry.cc:55-64 | the first generator any factory produces, in set order, after every earlier factory refused; none exactly when all refuse |
| `ImageGeneratorRegistries.PositivePriorityTakesPrecedence` | lib/ui/painting/image_generator_registry_unittests.cc:81-94 | a factory added with a positive priority is asked first and wins |
| `ImageGeneratorRegistries.DefaultTakesPrecedenceOverNegativePriority` | lib/ui/painting/image_generator_registry_unittests.cc:96-110 | the built-in codec is asked before a negative-priority factory and wins |
| `ImageGeneratorRegistries.EmptyDataHasNoGenerator` | lib/ui/painting/image_generator_registry_unittests.cc:43-47 | when no codec decodes the data, no generator is returned after every built-in factory was asked |
| `FuchsiaEmbedders.RectHash` | shell/platform/fuchsia/flutter/fuchsia_external_view_embedder.cc:379-381 | computes (width << 32) + height in wrapping uint64 arithmetic; RectHashIdentifiesSize shows it is injective on 31-bit sizes |
| `FuchsiaEmbedders.Clamp01` | shell/platform/fuchsia/flutter/fuchsia_external_view_embedder.cc:26-41 | the clamped value lies in [0, 1] and equals the input inside it |
| `FuchsiaEmbedders.OpacityFromMutatorStack` | shell/platform/fuchsia/flutter/fuchsia_external_view_embedder.cc:26-41 | the loop computes the stack's opacity product |
| `FuchsiaEmbedders.TransformFromMutatorStack` | shell/platform/fuchsia/flutter/fuchsia_external_view_embedder.cc:43-59 | the loop computes the bottom-to-top preConcat of the stack's transforms |
| `FuchsiaEmbedders.StackOpacity` | shell/platform/fuchsia/flutter/fuchsia_external_view_embedder.cc:26-41 | the product of the stack's opacity factors from the bottom up; OpacityInUnitRange and OtherMutatorsKeepOpacity state its range and neutral elements |
| `FuchsiaEmbedders.StackTransform` | shell/platform/fuchsia/flutter/fuchsia_external_view_embedder.cc:43-59 | the preConcat of the stack's transforms from the bottom up; IdentityWithoutTransforms and TransformOfConcatenation state how it composes |
| `FuchsiaEmbedders.PushToView` | shell/platform/fuchsia/flutter/fuchsia_external_view_embedder.cc:254-345 | the view takes the pushed values, and a node update is issued only for each value that changed |
| `FuchsiaEmbedders.UpdatedView` | shell/platform/fuchsia/flutter/fuchsia_external_view_embedder.cc:254-345 | the view after a push: the stack's opacity, the transform at the elevation, the pending hit testing, and the pending properties only when they differ for a non-empty size; PushIsIdempotent and PropertiesWaitForSubmit state it |
| `FuchsiaEmbedders.ViewElevation` | shell/platform/fuchsia/flutter/fuchsia_external_view_embedder.cc:287-290 | a platform view's elevation: the per-layer step times its position plus one platform-view height per view below it; ElevationsIncrease orders it |
| `FuchsiaEmbedders.LayerElevation` | shell/platform/fuchsia/flutter/fuchsia_external_view_embedder.cc:420-422 | a layer's elevation: as its platform view's, but counting its own view too, so it sits above that view; ElevationsIncrease orders it |
| `FuchsiaEmbedders.PlacedPositions` | shell/platform/fuchsia/flutter/fuchsia_external_view_embedder.cc:348-363 | the positions of the layers that were drawn into, increasing |
| `FuchsiaEmbedders.PlaceLayer` | shell/platform/fuchsia/flutter/fuchsia_external_view_embedder.cc:366-450 | a Scenic layer is created only at the end of the kept ones; the layer takes the next rectangle of its size, its elevation, opacity and hit-testing |
| `FuchsiaEmbedders.ComposeFrame` | shell/platform/fuchsia/flutter/fuchsia_external_view_embedder.cc:249-451 | the composition loop yields the submitted placements, the Scenic layer count, the pushed views and their node updates; each size hash then keeps exactly max(its old rectangle count, the placements using it) rectangles, and no other hash changes |
| `FuchsiaEmbedders.PushViewAt` | shell/platform/fuchsia/flutter/fuchsia_external_view_embedder.cc:254-345 | after position i the views so far are pushed and the embedded height counts them |
| `FuchsiaEmbedders.PlaceAt` | shell/platform/fuchsia/flutter/fuchsia_external_view_embedder.cc:348-450 | after position i the placements and Scenic layer count are those of the first i + 1 layers |
| `FuchsiaEmbedders.FuchsiaExternalViewEmbedder.constructor` | shell/platform/fuchsia/flutter/fuchsia_external_view_embedder.cc:63-99 | a new embedder has no frame, no views, no Scenic layers and no rectangles |
| `FuchsiaEmbedders.FuchsiaExternalViewEmbedder.Reset` | shell/platform/fuchsia/flutter/fuchsia_external_view_embedder.cc:558-571 | the frame's layers and size are forgotten and children detached; kept Scenic resources stay |
| `FuchsiaEmbedders.FuchsiaExternalViewEmbedder.BeginFrame` | shell/platform/fuchsia/flutter/fuchsia_external_view_embedder.cc:151-192 | the frame holds only the root layer, first in order, with the given size and ratio; when all input is intercepted, an interceptor centred on the frame is placed at elevation -500, above everything in the frame |
| `FuchsiaEmbedders.FuchsiaExternalViewEmbedder.PrerollCompositeEmbeddedView` | shell/platform/fuchsia/flutter/fuchsia_external_view_embedder.cc:127-136 | the view's layer, sized like the frame, joins the end of the composition order; the frame size, views, Scenic layers and rectangles, interceptor and commands are unchanged |
| `FuchsiaEmbedders.FuchsiaExternalViewEmbedder.CreateView` | shell/platform/fuchsia/flutter/fuchsia_external_view_embedder.cc:510-532 | a new view with default values is recorded and its resource id is reported bound; the frame, its size and ratio, Scenic layers and rectangles, interceptor and commands are unchanged |
| `FuchsiaEmbedders.FuchsiaExternalViewEmbedder.DestroyView` | shell/platform/fuchsia/flutter/fuchsia_external_view_embedder.cc:534-542 | the view is erased and its resource id is reported unbound; the frame, its size and ratio, Scenic layers and rectangles, interceptor and commands are unchanged |
| `FuchsiaEmbedders.FuchsiaExternalViewEmbedder.SetViewProperties` | shell/platform/fuchsia/flutter/fuchsia_external_view_embedder.cc:544-556 | the properties are recorded for the next submit; nothing is sent, and the frame, its size and ratio, Scenic layers and rectangles and interceptor are unchanged |
| `FuchsiaEmbedders.FuchsiaExternalViewEmbedder.SubmitFrame` | shell/platform/fuchsia/flutter/fuchsia_external_view_embedder.cc:200-502 | the frame's placements, views and node updates are those ComposeFrame describes; each size hash keeps exactly max(its old rectangle count, the placements using it) rectangles; the frame, its size and ratio and the interceptor are unchanged |
| `FuchsiaEmbedderProperties.OpacityInUnitRange` | shell/platform/fuchsia/flutter/fuchsia_external_view_embedder.cc:26-41 | a stack's opacity lies in [0, 1] |
| `FuchsiaEmbedderProperties.OtherMutatorsKeepOpacity` | shell/platform/fuchsia/flutter/fuchsia_external_view_embedder.cc:30-37 | non-opacity mutators leave the opacity unchanged |
| `FuchsiaEmbedderProperties.IdentityWithoutTransforms` | shell/platform/fuchsia/flutter/fuchsia_external_view_embedder.cc:43-59 | a stack without transforms yields the identity |
| `FuchsiaEmbedderProperties.TransformOfConcatenation` | shell/platform/fuchsia/flutter/fuchsia_external_view_embedder.cc:43-59 | the transform of stacked stacks is the composition of their transforms |
| `FuchsiaEmbedderProperties.RectHashIdentifiesSize` | shell/platform/fuchsia/flutter/fuchsia_external_view_embedder.cc:379-381 | for non-negative 32-bit sizes two sizes share a hash exactly when they are equal |
| `FuchsiaEmbedderProperties.PushIsIdempotent` | shell/platform/fuchsia/flutter/fuchsia_external_view_embedder.cc:278-338 | pushing the same values twice changes nothing more and issues only the attach |
| `FuchsiaEmbedderProperties.CommandsExactlyForChanges` | shell/platform/fuchsia/flutter/fuchsia_external_view_embedder.cc:278-338 | a push issues node updates exactly when it changes a value |
| `FuchsiaEmbedderProperties.ViewLifecycle` | shell/platform/fuchsia/flutter/fuchsia_external_view_embedder.cc:510-542 | creating and destroying a view leaves the views as they were and reports the same resource id |
| `FuchsiaEmbedderProperties.PropertiesWaitForSubmit` | shell/platform/fuchsia/flutter/fuchsia_external_view_embedder.cc:544-556 | SetViewProperties leaves the pushed values as they were, and the next push takes the new hit-testing |
| `FuchsiaEmbedderProperties.SlotsAfterBounds` | shell/platform/fuchsia/flutter/fuchsia_external_view_embedder.cc:366-376 | Scenic layers are only added, never beyond the number of positions |
| `FuchsiaEmbedderProperties.SlotsWhenAllSurfaced` | shell/platform/fuchsia/flutter/fuchsia_external_view_embedder.cc:366-376 | with every layer drawn into, layers take Scenic layers 0, 1, … in order |
| `FuchsiaEmbedderProperties.SlotsAvailableWhen` | shell/platform/fuchsia/flutter/fuchsia_external_view_embedder.cc:366-376 | with every layer drawn into, the next Scenic layer needed always exists or is the next one created |
| `FuchsiaEmbedderProperties.EmptyRootStarvesOverlay` | shell/platform/fuchsia/flutter/fuchsia_external_view_embedder.cc:366-368 | a fresh embedder's frame whose root layer drew nothing but whose overlay drew fails the Scenic layer check, because the index advances at undrawn positions (line 450) |
| `FuchsiaEmbedderProperties.ViewsInMonotone` | shell/platform/fuchsia/flutter/fuchsia_external_view_embedder.cc:344 | the embedded-views height never decreases along the order |
| `FuchsiaEmbedderProperties.ElevationsIncrease` | shell/platform/fuchsia/flutter/fuchsia_external_view_embedder.cc:288-301 | everything composited later sits higher, and a layer sits above its own platform view |
| `FuchsiaEmbedderProperties.HashCountMonotone` | shell/platform/fuchsia/flutter/fuchsia_external_view_embedder.cc:382-389 | the number of placements per size hash never shrinks along the frame |
| `FuchsiaEmbedderProperties.PlacementsAreExclusive` | shell/platform/fuchsia/flutter/fuchsia_external_view_embedder.cc:366-450 | no two layers share a Scenic layer or a rectangle, and only the first layer is opaque and hit-testable |
| `FuchsiaEmbedderProperties.PlacedRectsKept` | shell/platform/fuchsia/flutter/fuchsia_external_view_embedder.cc:391-405 | after a submitted frame, every placement's rectangle is among those the embedder keeps for its size |
| `ViewHolders.ViewHolder.constructor` | flow/view_holder.cc:73-78 | a holder has a pending token, default properties, default hit testing and nothing changed |
| `ViewHolders.ViewHolder.SetHitTestable` | flow/view_holder.cc:128-131 | hit testing is default when hit-testable and suppressed otherwise; nothing else changes |
| `ViewHolders.ViewHolder.SetFocusable` | flow/view_holder.cc:133-138 | the focus flag is set and the changed flag rises only when it differed |
| `ViewHolders.ViewHolder.SetSize` | flow/view_holder.cc:140-156 | the properties become Resized, and the changed flag rises only when a tracked value differed |
| `ViewHolders.ViewHolder.SetOcclusionHint` | flow/view_holder.cc:158-175 | the insets become the hint's, and the changed flag rises only when one differed |
| `ViewHolders.ViewHolder.SetProperties` | flow/view_holder.cc:115-126 | size, hint and focus are set in turn, and the hint reads back as the four insets |
| `ViewHolders.ViewHolder.UpdateScene` | flow/view_holder.cc:80-113 | the first call makes the nodes and reports creation once; each call attaches, sets opacity, translation and hit testing, and pushes the properties only when changed |
| `ViewHolders.ViewHolderBindings.constructor` | flow/view_holder.cc:34-36 | the thread starts with no bindings |
| `ViewHolders.ViewHolderBindings.Create` | flow/view_holder.cc:29-45 | a fresh holder with a pending token is bound to the koid, making the bindings if needed |
| `ViewHolders.ViewHolderBindings.Destroy` | flow/view_holder.cc:47-57 | the koid is unbound, and its Scenic id is reported only with a callback |
| `ViewHolders.ViewHolderBindings.FromId` | flow/view_holder.cc:59-71 | the holder bound to the koid, or none without bindings or binding |
| `ViewHolderProperties.OcclusionHintRoundTrip` | flow/view_holder.cc:158-175 | the hint set is the hint read back, and setting the hint read back changes nothing |
| `ViewHolderProperties.ResizeIsIdempotent` | flow/view_holder.cc:140-156 | setting the same size twice equals once, and the second marks nothing changed |
| `ViewHolderProperties.EmptySizeTracksNothing` | flow/view_holder.cc:141-155 | a size with a non-positive side changes no tracked value |
| `ViewHolderProperties.PositiveSizeIsTheExtent` | flow/view_holder.cc:141-155 | a positive size becomes the box's extent and leaves the insets alone |
| `ViewHolderProperties.SameValuesAreNotPushedAgain` | flow/view_holder.cc:109-112 | after a push, setting the same values again leads to no second push |
| `ViewHolderProperties.CreationIsReportedOnce` | flow/view_holder.cc:84-100 | on_view_created hears of the holder on its first UpdateScene only |
| `ViewHolderProperties.BindingRoundTrip` | flow/view_holder.cc:29-71 | a koid created and destroyed is no longer found |
| `FuchsiaPlatformViews.ChangeFromPhase` | shell/platform/fuchsia/flutter/platform_view.cc:507-527 | maps each pointer phase to its change, and an unknown phase to cancel; PhasesMatchChanges states the correspondence |
| `FuchsiaPlatformViews.KindFromType` | shell/platform/fuchsia/flutter/platform_view.cc:529-539 | a mouse is a mouse and every other pointer type is touch; KindIsTouchUnlessMouse states it |
| `FuchsiaPlatformViews.PointerTrace` | shell/platform/fuchsia/flutter/platform_view.cc:543-548 | puts the first float's bits in the high half and the second's in the low half; TraceKeepsBothHalves states both halves |
| `FuchsiaPlatformViews.PointerDataFor` | shell/platform/fuchsia/flutter/platform_view.cc:558-573 | the dispatched pointer data: time in microseconds, the reported change, the kind, the device, the position scaled by the pixel ratio (0 while none is known) and the buttons; MoveOnlyWhileDown and PressThenMove state the change it reports |
| `FuchsiaPlatformViews.EventEffect` | shell/platform/fuchsia/flutter/platform_view.cc:228-360 | one Scenic event's effect: a valid, different ratio or size is taken and marks the metrics changed, and a child-view event for an unknown holder is deferred; RepeatedMetricsAreIgnored states it |
| `FuchsiaPlatformViews.BatchEffect` | shell/platform/fuchsia/flutter/platform_view.cc:221-360 | the effects of a batch's events in order, with the changed flags or-ed and the deferred events collected; BatchKeepsMetrics and ViewEventsAnsweredOrDeferred state it |
| `FuchsiaPlatformViews.PlatformView.constructor` | shell/platform/fuchsia/flutter/platform_view.cc:56-136 | a view starts with no metrics, no pointer down, and handlers on its four channels |
| `FuchsiaPlatformViews.PlatformView.OnHandlePointerEvent` | shell/platform/fuchsia/flutter/platform_view.cc:550-608 | the pointer's data is dispatched, the down set is updated, and the trace id holds both radii |
| `FuchsiaPlatformViews.PlatformView.OnChildViewEvent` | shell/platform/fuchsia/flutter/platform_view.cc:431-505 | a message is sent exactly when the view holder is known |
| `FuchsiaPlatformViews.PlatformView.HandleScenicEvent` | shell/platform/fuchsia/flutter/platform_view.cc:228-360 | one event's effect on the state, the changed flag and the deferred events is EventEffect |
| `FuchsiaPlatformViews.PlatformView.OnScenicEvent` | shell/platform/fuchsia/flutter/platform_view.cc:221-429 | a batch's effect is BatchEffect, and metrics are sent only when both values are known and one changed |
| `FuchsiaPlatformViews.PlatformView.RetryDeferred` | shell/platform/fuchsia/flutter/platform_view.cc:365-404 | each deferred event is retried once and answered exactly when its holder is now known |
| `FuchsiaPlatformViews.PlatformView.OnViewBound` | shell/platform/fuchsia/flutter/platform_view.cc:961-976 | the holder id maps to the view id; nothing else changes |
| `FuchsiaPlatformViews.PlatformView.OnViewUnbound` | shell/platform/fuchsia/flutter/platform_view.cc:1069-1085 | the holder id is forgotten; nothing else changes |
| `FuchsiaPlatformViews.PlatformView.HandlePlatformMessage` | shell/platform/fuchsia/flutter/platform_view.cc:710-731 | a registered channel's handler gets the message; any other is answered empty and logged the first time only |
| `FuchsiaPlatformViewProperties.PhasesMatchChanges` | shell/platform/fuchsia/flutter/platform_view.cc:507-527 | known phases and changes correspond one to one, and an unknown phase cancels |
| `FuchsiaPlatformViewProperties.KindIsTouchUnlessMouse` | shell/platform/fuchsia/flutter/platform_view.cc:529-539 | only a mouse is a mouse; everything else is touch |
| `FuchsiaPlatformViewProperties.TraceKeepsBothHalves` | shell/platform/fuchsia/flutter/platform_view.cc:543-548 | the trace id's high half is the first float's bits and its low half the second's |
| `FuchsiaPlatformViewProperties.MoveOnlyWhileDown` | shell/platform/fuchsia/flutter/platform_view.cc:574-602 | a move is a move exactly when its pointer is down and a hover otherwise; other phases keep their change |
| `FuchsiaPlatformViewProperties.PressThenMove` | shell/platform/fuchsia/flutter/platform_view.cc:574-602 | a pressed pointer then moved is down and reported as moving |
| `FuchsiaPlatformViewProperties.RepeatedMetricsAreIgnored` | shell/platform/fuchsia/flutter/platform_view.cc:244-250 | the same pixel ratio or view size a second time changes no metrics |
| `FuchsiaPlatformViewProperties.BatchKeepsMetrics` | shell/platform/fuchsia/flutter/platform_view.cc:231-282 | invalid ratios and sizes never get in, and an unchanged batch keeps the old metrics |
| `FuchsiaPlatformViewProperties.ViewEventsAnsweredOrDeferred` | shell/platform/fuchsia/flutter/platform_view.cc:283-324 | every child-view event of a batch is answered or deferred, none both |
| `FuchsiaPlatformViewProperties.MetricsAfterRatioAndSize` | shell/platform/fuchsia/flutter/platform_view.cc:407-428 | the engine hears the metrics once both are known, in physical pixels |
| `FuchsiaPlatformViewProperties.UnregisteredChannelLoggedOnce` | shell/platform/fuchsia/flutter/platform_view.cc:716-728 | an unregistered channel is logged on its first message only |
| `LinuxEngines.LastIndex` | shell/platform/linux/fl_engine.cc:62-95 | the index of the last occurrence, with none after it; none exactly when the character is absent |
| `LinuxEngines.FindLast` | shell/platform/linux/fl_engine.cc:62-95 | the strrchr loop finds LastIndex of the C string |
| `LinuxEngines.CopyFrom` | shell/platform/linux/fl_engine.cc:62-95 | the g_strdup loop copies the C string from the given index |
| `LinuxEngines.CutAtLast` | shell/platform/linux/fl_engine.cc:62-95 | cutting at the last separator gives SplitAtLast of the string and leaves a shorter C string |
| `LinuxEngines.ParseLocale` | shell/platform/linux/fl_engine.cc:62-95 | parse_locale gives ParsedLocale of the name |
| `LinuxEngines.ParsedLocale` | shell/platform/linux/fl_engine.cc:62-95 | the locale a name denotes: the modifier after the last '@', the codeset after the last '.' of the rest, the territory after the last '_' of what remains, the language the rest; LocaleNameRoundTrip and ParsedLocaleOfName make it inverse to the locale's name |
| `LinuxEngines.LocalesFor` | shell/platform/linux/fl_engine.cc:103-127 | one parsed locale per language name, in order |
| `LinuxEngines.FlEngine.constructor` | shell/platform/linux/fl_engine.cc:327-344 | a new engine is not running, has no handler and has called nothing |
| `LinuxEngines.FlEngine.Start` | shell/platform/linux/fl_engine.cc:428-443 | a failed initialise or run is reported with its message; once running the locales are sent, and a refusal only warns |
| `LinuxEngines.FlEngine.SetupLocales` | shell/platform/linux/fl_engine.cc:97-136 | the engine receives one parsed locale per language name, and a refusal is warned about |
| `LinuxEngines.FlEngine.SetPlatformMessageHandler` | shell/platform/linux/fl_engine.cc:459-475 | a null handler changes nothing; otherwise the previous data is released once and the handler replaced |
| `LinuxEngines.FlEngine.Dispose` | shell/platform/linux/fl_engine.cc:306-311 | the handler's data is released through its destroy-notify, and both are cleared |
| `LinuxEngines.FlEngine.SendPlatformMessageResponse` | shell/platform/linux/fl_engine.cc:494-524 | a null handle is refused silently; with no engine "No engine to send response to"; otherwise the response is sent and a failure reported |
| `LinuxEngines.FlEngine.OnPlatformMessage` | shell/platform/linux/fl_engine.cc:233-250 | the handler gets the message; an unhandled message with a handle gets an empty response |
| `LinuxEngines.FlEngine.SendPlatformMessage` | shell/platform/linux/fl_engine.cc:526-583 | without an engine nothing is sent, and a callback hears "No engine to send to"; with a callback a response handle is created, used and released, and a failed creation or send is reported; without one the message is sent bare |
| `LinuxEngines.FlEngine.SendWindowMetricsEvent` | shell/platform/linux/fl_engine.cc:594-610 | the metrics are sent when an engine runs and dropped otherwise |
| `LinuxEngines.FlEngine.SendMousePointerEvent` | shell/platform/linux/fl_engine.cc:612-640 | the pointer event is sent with the scroll signal set exactly when a scroll delta is non-zero, and dropped without an engine |
| `LinuxEngines.FlEngine.DispatchSemanticsActionTo` | shell/platform/linux/fl_engine.cc:642-661 | the action is dispatched when an engine runs and dropped otherwise |
| `LinuxEngineProperties.SplitAtLastJoins` | shell/platform/linux/fl_engine.cc:62-95 | putting back the separator that was cut gives the string again |
| `LinuxEngineProperties.LocaleNameRoundTrip` | shell/platform/linux/fl_engine.cc:62-95 | joining a parsed locale's parts gives back the name |
| `LinuxEngineProperties.PartsLackTheirSeparator` | shell/platform/linux/fl_engine.cc:62-95 | the modifier holds no '@', the codeset no '.' and the territory no '_' |
| `LinuxEngineProperties.CutAtAddedSeparator` | shell/platform/linux/fl_engine.cc:62-95 | a separator added last before separator-free text is where the cut falls |
| `LinuxEngineProperties.ParsedLocaleOfName` | shell/platform/linux/fl_engine.cc:62-95 | a locale whose parts hold no separators is parsed back from its name |
| `LinuxEngineProperties.HandlerDataReleasedOnce` | shell/platform/linux/fl_engine.cc:459-475 | each handler's data is released exactly once, and a null handler in between releases nothing |
| `LinuxEngineProperties.NotStartedSendsNothing` | shell/platform/linux/fl_engine.cc:494-661 | an engine that never started sends nothing, and reports both "no engine" errors |
| `LinuxEngineProperties.UnhandledMessageGetsEmptyResponse` | shell/platform/linux/fl_engine.cc:233-250 | a message no handler takes is answered with an empty response |
| `EmbedderTestUtils.OfType` | shell/platform/embedder/tests/embedder_unittests_util.cc:151-168 | the filtered mutations are all of the type and no more than the input |
| `EmbedderTestUtils.FilterMutationsByType` | shell/platform/embedder/tests/embedder_unittests_util.cc:151-168 | nothing for a null array; otherwise the mutations of the type among the first count, in order |
| `EmbedderTestUtils.GetTotalMutationTransformationMatrix` | shell/platform/embedder/tests/embedder_unittests_util.cc:178-190 | the identity for a null array; otherwise the preConcat of the transformations among the first count |
| `EmbedderTestUtils.TotalTransformation` | shell/platform/embedder/tests/embedder_unittests_util.cc:178-190 | the preConcat, in order, of the transformation mutations onto the identity; TotalOfTransformations, TotalWithoutTransformations and TotalOfConcatenation state it |
| `EmbedderTestUtils.TotalOfTransformations` | shell/platform/embedder/tests/embedder_unittests_util.cc:178-190 | only transformations count towards the total |
| `EmbedderTestUtilProperties.OfTypeDistributes` | shell/platform/embedder/tests/embedder_unittests_util.cc:151-168 | filtering two runs is filtering each, in order |
| `EmbedderTestUtilProperties.OfTypeKeepsExactlyMatches` | shell/platform/embedder/tests/embedder_unittests_util.cc:151-168 | all-matching mutations are all kept, and non-matching ones all skipped |
| `EmbedderTestUtilProperties.TotalWithoutTransformations` | shell/platform/embedder/tests/embedder_unittests_util.cc:178-190 | without transformations the total is the identity |
| `EmbedderTestUtilProperties.TotalOfConcatenation` | shell/platform/embedder/tests/embedder_unittests_util.cc:178-190 | the total of two runs is the first's total pre-concatenated with the second's |

## Left out

- transform_layer.cc, container_layer.cc, layer.cc and diff_context.cc are not part of this model. The transform layer's Preroll and Paint, the container's child pairing and the diff are reconstructed from `transform_layer_unittests.cc` and `texture_layer.h`.
- Layer::needs_painting is modelled as "paint bounds not empty". The cull-rect quick-reject part is not modelled.
- The texture layer's Diff is modelled as "damage old and new" for a texture layer paired with a different old layer. A retained texture layer (the same layer object in both frames) is skipped like every retained layer and adds no damage (NewDamageOfRetained). Its own `.cc` file is not part of this model.
- Matrices are scale-plus-translate only: rotation, skew and perspective are not modelled. Floats are exact reals, so rounding is not modelled either.
- PaintRegions.PaintRegion.ComputeBounds: paint_region.cc is not part of this model, and the header only declares it. Its definition as the join of the region's rects is assumed.
- LayerTrees.LayerTree.constructor: layer_tree.cc is not part of this model, and layer_tree.h:82-84 declares the threshold and the two checkerboard flags without initialisers. The initial threshold 0 and flags false are assumed, and any check the constructor makes on the pixel ratio is not modelled.
- SkCanvas is modelled only as far as the layer tests observe it: deferred saves, the depth of each call, clips and save layers. No pixels are drawn.
- PhysicalShapeLayers.PhysicalShapeLayer.Preroll: the base class's Preroll is not part of this model. Its bounds and compositing result are parameters.
- PhysicalShapeLayers.PhysicalShapeLayer.Paint: the children's painting is logged as one PaintChildrenOp call, not as the children's own canvas calls. ContainerLayer::PaintChildren is not part of this model, and the transform layer's children are modelled separately in Layers.Paint.
- PhysicalShapeLayers.PhysicalShapeLayer.Paint: DrawShadow's Skia shadow-utility call is one logged operation, and the leaf and internal canvases are one canvas.
- Animator: the layer-tree pipeline is reduced to its depth and to whether Produce handed out a continuation. Task runners and the vsync waiter are explicit steps.
- Animator: RequestFrame's default argument, the Dart deadline conversion, the uint64 width of trace ids and the trace events themselves are not modelled.
- FuchsiaEmbedders.FuchsiaExternalViewEmbedder.SubmitFrame: surface creation, rendering and surface submission (`fuchsia_external_view_embedder.cc` 209-234 and 455-498) are left out. Which layers were drawn into is a parameter. Its precondition SlotsAvailable is the FML_CHECK at line 368: the Scenic layer index advances at every position whether or not that layer drew (line 450), so a frame whose root layer drew nothing but whose later layer drew aborts there on a fresh embedder (EmptyRootStarvesOverlay). The model excludes such frames instead of describing the abort.
- FuchsiaEmbedders: the inverse pixel-ratio scale of the root node (245-246) is not modelled. Neither are CreateView's node setup and translation, nor texture cleanup in Reset.
- FuchsiaEmbedders: the input-interceptor node is kept as a placement and its rectangles. Its Scenic shape details are not modelled.
- FuchsiaEmbedderProperties: a product formula for the opacity of a whole stack is not stated. OpacityInUnitRange and OtherMutatorsKeepOpacity are proved instead.
- FuchsiaPlatformViews: parsing of the JSON and FIDL platform-view messages is not modelled. Only the view-bound and view-unbound callbacks are modelled.
- FuchsiaPlatformViews: text input, accessibility, keyboard, focus and IME handling are not modelled.
- ViewHolders: the Scenic nodes are reduced to the commands UpdateScene issues.
- LinuxEngines: the GObject lifecycle, the GL and task-runner callbacks, the renderer, the AOT data, the binary messenger and the settings plugin are not modelled.
- LinuxEngines: the semantics-node handler setter, the semantics-enabled call at the end of start, and `fl_engine_send_platform_message_finish` are not modelled.
- LinuxEngines: calls into the embedder proc table are recorded in a log, and their results are parameters. Handlers and destroy-notify functions are numbers.
- ImageGeneratorRegistries: the comparator of the factory set is declared in a header that is not part of this model. It is taken as higher priority first, then older nonce first, which is what the registry tests require.
- ImageGeneratorRegistries: decoding is a parameter naming what each factory returns. GetWeakPtr is not modelled.
- EmbedderTestUtils: the view overloads (170-176 and 192-195) only forward to the modelled functions and are not modelled separately. The image-comparison and image-file helpers are not modelled.
- EmbedderTestUtils.FilterMutationsByType: the handler closure is modelled by the sequence of mutations it is invoked with.
