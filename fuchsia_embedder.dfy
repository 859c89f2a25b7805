/** FuchsiaExternalViewEmbedder: the per-frame bookkeeping that turns the
    layers and platform views of one frame into Scenic nodes.

    A frame starts with BeginFrame (the root layer, first in composition
    order), gains one layer per platform view in PrerollCompositeEmbeddedView,
    and ends in SubmitFrame, which walks the composition order: each platform
    view is positioned above everything before it, and each layer that was
    drawn into gets a Scenic shape node, a rectangle reused per size, an
    elevation and an opacity.  Platform views themselves live across frames
    in a map from view id to ScenicView, whose node updates are issued only
    when a value changes. */
module FuchsiaEmbedders {
  import opened Wrappers
  import opened Geometry
  import opened LayerTrees

  const ZElevationBetweenLayers: real := 0.0001
  const ZElevationForPlatformView: real := 100.0
  const ElevationForInputInterceptor: real := 500.0

  /** SK_AlphaOPAQUE. */
  const AlphaOpaque := 255

  /** One entry of a flutter::MutatorsStack; opacity carries an SkAlpha. */
  datatype Mutator =
    | ClipRectMutator(rect: Rect)
    | ClipRRectMutator(rrect: RRect)
    | ClipPathMutator(path: Path)
    | TransformMutator(matrix: Matrix)
    | OpacityMutator(alpha: int)

  /** std::clamp(x, 0, 1). */
  function Clamp01(x: real): (r: real)
    ensures 0.0 <= r <= 1.0
    ensures 0.0 <= x <= 1.0 ==> r == x
  {
    if x < 0.0 then 0.0 else if x > 1.0 then 1.0 else x
  }

  /** Mutator::GetAlphaFloat. */
  function AlphaFloat(alpha: int): real {
    alpha as real / 255.0
  }

  /** The factor a mutator contributes to the opacity: its clamped alpha for
      an opacity mutator, 1 for any other kind. */
  function OpacityFactor(m: Mutator): real {
    if m.OpacityMutator? then Clamp01(AlphaFloat(m.alpha)) else 1.0
  }

  /** A mutators stack as a sequence in push order: index 0 is the element
      MutatorsStack::Bottom() designates and the last index the one pushed
      most recently, so the walk from Bottom() to Top() visits the indices in
      increasing order. */

  /** The opacity of a stack, folded from the bottom (index 0) up. */
  function StackOpacity(stack: seq<Mutator>): real {
    if stack == [] then 1.0
    else StackOpacity(stack[..|stack| - 1]) * OpacityFactor(stack[|stack| - 1])
  }

  /** The transform of a stack: the bottom-to-top (index 0 first)
      preConcat of its transform mutators. */
  function StackTransform(stack: seq<Mutator>): Matrix {
    if stack == [] then Identity
    else
      var below := StackTransform(stack[..|stack| - 1]);
      var top := stack[|stack| - 1];
      if top.TransformMutator? then Concat(below, top.matrix) else below
  }

  /** OpacityFromMutatorStack. */
  method OpacityFromMutatorStack(stack: seq<Mutator>) returns (opacity: real)
    ensures opacity == StackOpacity(stack)
  {
    opacity := 1.0;
    var i := 0;
    while i < |stack|
      invariant 0 <= i <= |stack|
      invariant opacity == StackOpacity(stack[..i])
    {
      assert stack[..i + 1][..i] == stack[..i];
      if stack[i].OpacityMutator? {
        opacity := opacity * Clamp01(AlphaFloat(stack[i].alpha));
      }
      i := i + 1;
    }
    assert stack[..|stack|] == stack;
  }

  /** TransformFromMutatorStack. */
  method TransformFromMutatorStack(stack: seq<Mutator>) returns (transform: Matrix)
    ensures transform == StackTransform(stack)
  {
    transform := Identity;
    var i := 0;
    while i < |stack|
      invariant 0 <= i <= |stack|
      invariant transform == StackTransform(stack[..i])
    {
      assert stack[..i + 1][..i] == stack[..i];
      if stack[i].TransformMutator? {
        transform := Concat(transform, stack[i].matrix);
      }
      i := i + 1;
    }
    assert stack[..|stack|] == stack;
  }

  type uint32 = x: int | 0 <= x < 0x1_0000_0000
  type uint64 = x: int | 0 <= x < 0x1_0000_0000_0000_0000

  /** static_cast<zx_handle_t>(view_id): the view id modulo 2^32. */
  function Handle(viewId: int): uint32 {
    viewId % 0x1_0000_0000
  }

  /** (static_cast<uint64_t>(width) << 32) + height, in uint64 arithmetic. */
  function RectHash(size: ISize): uint64 {
    var w := size.width % 0x1_0000_0000_0000_0000;
    var h := size.height % 0x1_0000_0000_0000_0000;
    (w * 0x1_0000_0000 + h) % 0x1_0000_0000_0000_0000
  }

  /** A frame layer is the root layer (no id) or the overlay of one
      platform view (its handle). */
  type LayerId = Option<uint32>

  /** flutter::EmbeddedViewParams, as far as the embedder reads it. */
  datatype ViewParams = ViewParams(transform: Matrix, sizePoints: Size, mutators: seq<Mutator>)

  /** SkSize::isEmpty. */
  predicate SizeIsEmpty(s: Size) {
    s.width <= 0.0 || s.height <= 0.0
  }

  datatype EmbedderLayer = EmbedderLayer(surfaceSize: ISize, viewParams: Option<ViewParams>)

  /** Where a view's entity node sits: its translation, scale and
      elevation. */
  datatype Pose = Pose(x: real, y: real, scaleX: real, scaleY: real, elevation: real)

  /** The pose a view transform and elevation call for. */
  function PoseOf(m: Matrix, elevation: real): Pose {
    Pose(m.tx, m.ty, m.sx, m.sy, elevation)
  }

  /** What SetViewProperties sends Scenic: the bounding-box size, the
      occlusion hint and focusability. */
  datatype ViewProperties = ViewProperties(size: Size, occlusionHint: Rect, focusable: bool)

  /** The Scenic side of one platform view: the values last pushed to its
      nodes, and the properties waiting for the next frame. */
  datatype ScenicView = ScenicView(
    resourceId: nat, opacity: real, pose: Pose, hitTestable: bool, properties: ViewProperties,
    pendingHitTestable: bool, pendingOcclusionHint: Rect, pendingFocusable: bool)

  /** A view as CreateView makes it (the struct's defaults). */
  function NewScenicView(resourceId: nat): ScenicView {
    ScenicView(resourceId, 1.0, Pose(0.0, 0.0, 1.0, 1.0, 0.0), true,
               ViewProperties(Size(0.0, 0.0), EmptyRect, true), true, EmptyRect, true)
  }

  /** The node updates the embedder sends Scenic for platform views. */
  datatype ViewCommand =
    | SetOpacity(viewId: int, opacity: real)
    | SetTransform(viewId: int, pose: Pose)
    | SetHitTest(viewId: int, hitTestable: bool)
    | PushViewProperties(viewId: int, properties: ViewProperties)
    | AttachView(viewId: int)
    | DetachChildren

  /** The properties a view of the given size would push now. */
  function PendingProperties(v: ScenicView, size: Size): ViewProperties {
    ViewProperties(size, v.pendingOcclusionHint, v.pendingFocusable)
  }

  /** Whether new view properties are pushed: never for an empty size
      (Scenic rejects it), otherwise when the size, the occlusion hint or
      focusability differs from what was last pushed. */
  predicate PushesProperties(v: ScenicView, size: Size) {
    !SizeIsEmpty(size) && PendingProperties(v, size) != v.properties
  }

  /** The view after SubmitFrame has pushed `params` at `elevation` to it. */
  function UpdatedView(v: ScenicView, params: ViewParams, elevation: real): ScenicView {
    v.(opacity := StackOpacity(params.mutators),
       pose := PoseOf(params.transform, elevation),
       hitTestable := v.pendingHitTestable,
       properties := if PushesProperties(v, params.sizePoints) then PendingProperties(v, params.sizePoints)
                     else v.properties)
  }

  /** The commands issued while pushing: one per value that changed, then
      the attach to the layer tree node. */
  function UpdateCommands(v: ScenicView, id: int, params: ViewParams, elevation: real): seq<ViewCommand> {
    var opacity := StackOpacity(params.mutators);
    var pose := PoseOf(params.transform, elevation);
    (if opacity != v.opacity then [SetOpacity(id, opacity)] else []) +
    (if pose != v.pose then [SetTransform(id, pose)] else []) +
    (if v.pendingHitTestable != v.hitTestable then [SetHitTest(id, v.pendingHitTestable)] else []) +
    (if PushesProperties(v, params.sizePoints)
     then [PushViewProperties(id, PendingProperties(v, params.sizePoints))] else []) +
    [AttachView(id)]
  }

  /** Pushes `params` at `elevation` to one view: each value is sent to
      Scenic only when it differs from the one last sent. */
  method PushToView(v0: ScenicView, viewId: int, params: ViewParams, elevation: real)
    returns (v: ScenicView, commands: seq<ViewCommand>)
    ensures v == UpdatedView(v0, params, elevation)
    ensures commands == UpdateCommands(v0, viewId, params, elevation)
  {
    v := v0;
    var opacity := OpacityFromMutatorStack(params.mutators);
    var fade: seq<ViewCommand> := [];
    if opacity != v.opacity {
      fade := [SetOpacity(viewId, opacity)];
      v := v.(opacity := opacity);
    }
    var m := params.transform;
    var pose := Pose(m.tx, m.ty, m.sx, m.sy, elevation);
    var move: seq<ViewCommand> := [];
    if pose != v.pose {
      move := [SetTransform(viewId, pose)];
      v := v.(pose := pose);
    }
    var hitTest: seq<ViewCommand> := [];
    if v.pendingHitTestable != v.hitTestable {
      hitTest := [SetHitTest(viewId, v.pendingHitTestable)];
      v := v.(hitTestable := v.pendingHitTestable);
    }
    var size := params.sizePoints;
    var push: seq<ViewCommand> := [];
    if !SizeIsEmpty(size) &&
       (size != v.properties.size || v.pendingOcclusionHint != v.properties.occlusionHint ||
        v.pendingFocusable != v.properties.focusable) {
      v := v.(properties := ViewProperties(size, v.pendingOcclusionHint, v.pendingFocusable));
      push := [PushViewProperties(viewId, v.properties)];
    }
    commands := fade + move + hitTest + push + [AttachView(viewId)];
  }

  /** The number of platform-view layers in a stretch of composition order. */
  function ViewsIn(order: seq<LayerId>): nat {
    if order == [] then 0
    else ViewsIn(order[..|order| - 1]) + (if order[|order| - 1].Some? then 1 else 0)
  }

  /** The platform view ids in a stretch of composition order. */
  function ViewIds(order: seq<LayerId>): set<int> {
    set x | x in order && x.Some? :: x.value as int
  }

  /** The elevation of the platform view at position i: a hair per layer
      below it plus the height of every platform view below it. */
  function ViewElevation(order: seq<LayerId>, i: nat): real
    requires i <= |order|
  {
    ZElevationBetweenLayers * i as real + ZElevationForPlatformView * ViewsIn(order[..i]) as real
  }

  /** The elevation of the layer at position i: above its own platform view
      too. */
  function LayerElevation(order: seq<LayerId>, i: nat): real
    requires i < |order|
  {
    ZElevationBetweenLayers * i as real + ZElevationForPlatformView * ViewsIn(order[..i + 1]) as real
  }

  /** The positions, among the first n of the order, of the layers that were
      drawn into and got a surface. */
  function PlacedPositions(order: seq<LayerId>, surfaced: set<LayerId>, n: nat): (ps: seq<nat>)
    requires n <= |order|
    ensures forall k | 0 <= k < |ps| :: ps[k] < n && order[ps[k]] in surfaced
    ensures forall j, k | 0 <= j < k < |ps| :: ps[j] < ps[k]
  {
    if n == 0 then []
    else PlacedPositions(order, surfaced, n - 1) + (if order[n - 1] in surfaced then [n - 1] else [])
  }

  /** The number of Scenic layers after the first n positions: a placed layer
      at position i reuses Scenic layer i, or creates it when it is the next
      one. */
  function SlotsAfter(order: seq<LayerId>, surfaced: set<LayerId>, n: nat, count: nat): nat
    requires n <= |order|
  {
    if n == 0 then count
    else
      var slots := SlotsAfter(order, surfaced, n - 1, count);
      if order[n - 1] in surfaced && n - 1 == slots then slots + 1 else slots
  }

  /** The frame never needs a Scenic layer beyond the next one to create. */
  predicate SlotsAvailable(order: seq<LayerId>, surfaced: set<LayerId>, count: nat) {
    forall i | 0 <= i < |order| && order[i] in surfaced :: i <= SlotsAfter(order, surfaced, i, count)
  }

  /** One Scenic shape node attached for a frame layer. */
  datatype LayerPlacement = LayerPlacement(
    position: nat, layer: LayerId, scenicLayer: nat, rectHash: uint64, rectIndex: nat,
    alpha: int, elevation: real, hitTestable: bool, x: real, y: real)

  /** How many of the placements use rectangles of the given size hash. */
  function HashCount(ps: seq<LayerPlacement>, h: uint64): nat {
    if ps == [] then 0
    else HashCount(ps[..|ps| - 1], h) + (if ps[|ps| - 1].rectHash == h then 1 else 0)
  }

  /** The number of rectangles of size hash h once `needed` of them are
      wanted: those already kept are kept, and new ones are made only up to
      `needed`. */
  function KeptCount(rects: map<uint64, nat>, h: uint64, needed: nat): (n: nat)
    ensures n >= needed && (h in rects ==> n >= rects[h])
    ensures n == needed || (h in rects && n == rects[h])
  {
    var kept := if h in rects then rects[h] else 0;
    if kept < needed then needed else kept
  }

  /** The rectangles after a frame's placements: a size hash has rectangles
      exactly when it had some before or a placement used it, and then as
      many as it had or as the placements used, whichever is more; no other
      hash changes. */
  ghost predicate RectsKept(rects0: map<uint64, nat>, placements: seq<LayerPlacement>, rects: map<uint64, nat>) {
    (forall h: uint64 :: h in rects <==> h in rects0 || HashCount(placements, h) > 0) &&
    (forall h | h in rects :: rects[h] == KeptCount(rects0, h, HashCount(placements, h)))
  }

  /** The input-interceptor node's placement: centred over the frame, far
      above it, shaped by the rectangle of the frame's size. */
  datatype Interceptor = Interceptor(x: real, y: real, z: real, rectHash: uint64)

  class FuchsiaExternalViewEmbedder {
    const interceptAllInput: bool
    var frameLayers: map<LayerId, EmbedderLayer>
    var compositionOrder: seq<LayerId>
    var frameSize: ISize
    var frameDpr: real
    var scenicViews: map<int, ScenicView>
    /** scenic_layers_.size(): Scenic layers are kept across frames. */
    var scenicLayerCount: nat
    /** scenic_rects_: how many rectangles are kept per size hash. */
    var scenicRects: map<uint64, nat>
    var interceptorRects: set<uint64>
    var interceptor: Option<Interceptor>
    var viewCommands: seq<ViewCommand>

    /** The frame's layers are exactly those in composition order, each once,
        and a layer carries view parameters exactly when it belongs to a
        platform view. */
    predicate Valid()
      reads this
    {
      (forall i, j | 0 <= i < j < |compositionOrder| :: compositionOrder[i] != compositionOrder[j]) &&
      (forall i | 0 <= i < |compositionOrder| :: compositionOrder[i] in frameLayers) &&
      (forall id | id in frameLayers :: id in compositionOrder) &&
      (forall id | id in frameLayers :: frameLayers[id].viewParams.Some? <==> id.Some?)
    }

    constructor (interceptAllInput: bool)
      ensures Valid() && this.interceptAllInput == interceptAllInput
      ensures frameLayers == map[] && compositionOrder == [] && scenicViews == map[]
      ensures scenicLayerCount == 0 && scenicRects == map[] && interceptorRects == {}
      ensures interceptor == None && viewCommands == []
    {
      this.interceptAllInput := interceptAllInput;
      frameLayers := map[];
      compositionOrder := [];
      frameSize := ISize(0, 0);
      frameDpr := 1.0;
      scenicViews := map[];
      scenicLayerCount := 0;
      scenicRects := map[];
      interceptorRects := {};
      interceptor := None;
      viewCommands := [];
    }

    /** Reset: forgets the frame's layers and size and detaches everything
        from the layer tree node; platform views, Scenic layers and
        rectangles are kept for the next frame. */
    method Reset()
      modifies this
      ensures Valid()
      ensures frameLayers == map[] && compositionOrder == []
      ensures frameSize == ISize(0, 0) && frameDpr == 1.0
      ensures viewCommands == old(viewCommands) + [DetachChildren]
      ensures scenicViews == old(scenicViews) && scenicLayerCount == old(scenicLayerCount)
      ensures scenicRects == old(scenicRects) && interceptorRects == old(interceptorRects)
      ensures interceptor == old(interceptor)
    {
      frameLayers := map[];
      compositionOrder := [];
      frameSize := ISize(0, 0);
      frameDpr := 1.0;
      viewCommands := viewCommands + [DetachChildren];
    }

    /** BeginFrame: a fresh frame holding only the root layer, first in
        composition order; with input interception, the interceptor is moved
        over the frame and shaped by a rectangle of the frame's size. */
    method BeginFrame(size: ISize, devicePixelRatio: real)
      modifies this
      ensures Valid()
      ensures frameLayers == map[None := EmbedderLayer(size, None)] && compositionOrder == [None]
      ensures frameSize == size && frameDpr == devicePixelRatio
      ensures viewCommands == old(viewCommands) + [DetachChildren]
      ensures scenicViews == old(scenicViews) && scenicLayerCount == old(scenicLayerCount)
      ensures scenicRects == old(scenicRects)
      ensures interceptAllInput ==>
        interceptorRects == old(interceptorRects) + {RectHash(size)} &&
        interceptor == Some(Interceptor(size.width as real * 0.5, size.height as real * 0.5,
                                        -ElevationForInputInterceptor, RectHash(size)))
      ensures !interceptAllInput ==> interceptorRects == old(interceptorRects) && interceptor == old(interceptor)
    {
      Reset();
      frameSize := size;
      frameDpr := devicePixelRatio;
      frameLayers := map[None := EmbedderLayer(size, None)];
      compositionOrder := [None];
      if interceptAllInput {
        var hash := RectHash(frameSize);
        if hash !in interceptorRects {
          interceptorRects := interceptorRects + {hash};
        }
        interceptor := Some(Interceptor(size.width as real * 0.5, size.height as real * 0.5,
                                        -ElevationForInputInterceptor, hash));
      }
    }

    /** PrerollCompositeEmbeddedView: the view's layer, sized like the frame,
        joins the frame last in composition order.  The view must not already
        have a layer in this frame. */
    method PrerollCompositeEmbeddedView(viewId: int, params: ViewParams)
      requires Valid() && Some(Handle(viewId)) !in frameLayers
      modifies this
      ensures Valid()
      ensures frameLayers == old(frameLayers)[Some(Handle(viewId)) := EmbedderLayer(frameSize, Some(params))]
      ensures compositionOrder == old(compositionOrder) + [Some(Handle(viewId))]
      ensures frameSize == old(frameSize) && frameDpr == old(frameDpr)
      ensures scenicViews == old(scenicViews) && scenicLayerCount == old(scenicLayerCount)
      ensures scenicRects == old(scenicRects) && viewCommands == old(viewCommands)
      ensures interceptor == old(interceptor) && interceptorRects == old(interceptorRects)
    {
      var handle: LayerId := Some(Handle(viewId));
      frameLayers := frameLayers[handle := EmbedderLayer(frameSize, Some(params))];
      compositionOrder := compositionOrder + [handle];
    }

    /** CreateView: a new platform view with default node values; the view
        must not exist yet.  Returns the resource id reported to
        on_view_bound. */
    method CreateView(viewId: int, resourceId: nat) returns (bound: nat)
      requires viewId !in scenicViews
      modifies this
      ensures scenicViews == old(scenicViews)[viewId := NewScenicView(resourceId)]
      ensures bound == resourceId
      ensures frameLayers == old(frameLayers) && compositionOrder == old(compositionOrder)
      ensures scenicLayerCount == old(scenicLayerCount) && scenicRects == old(scenicRects)
      ensures viewCommands == old(viewCommands)
      ensures frameSize == old(frameSize) && frameDpr == old(frameDpr)
      ensures interceptor == old(interceptor) && interceptorRects == old(interceptorRects)
    {
      scenicViews := scenicViews[viewId := NewScenicView(resourceId)];
      bound := resourceId;
    }

    /** DestroyView: erases an existing view and returns the resource id
        reported to on_view_unbound. */
    method DestroyView(viewId: int) returns (unbound: nat)
      requires viewId in scenicViews
      modifies this
      ensures scenicViews == old(scenicViews) - {viewId}
      ensures unbound == old(scenicViews)[viewId].resourceId
      ensures frameLayers == old(frameLayers) && compositionOrder == old(compositionOrder)
      ensures scenicLayerCount == old(scenicLayerCount) && scenicRects == old(scenicRects)
      ensures viewCommands == old(viewCommands)
      ensures frameSize == old(frameSize) && frameDpr == old(frameDpr)
      ensures interceptor == old(interceptor) && interceptorRects == old(interceptorRects)
    {
      unbound := scenicViews[viewId].resourceId;
      scenicViews := scenicViews - {viewId};
    }

    /** SetViewProperties: records the properties for the next SubmitFrame;
        nothing already pushed to Scenic changes. */
    method SetViewProperties(viewId: int, occlusionHint: Rect, hitTestable: bool, focusable: bool)
      requires viewId in scenicViews
      modifies this
      ensures scenicViews == old(scenicViews)[viewId := old(scenicViews)[viewId].(
                pendingOcclusionHint := occlusionHint, pendingHitTestable := hitTestable,
                pendingFocusable := focusable)]
      ensures frameLayers == old(frameLayers) && compositionOrder == old(compositionOrder)
      ensures scenicLayerCount == old(scenicLayerCount) && scenicRects == old(scenicRects)
      ensures viewCommands == old(viewCommands)
      ensures frameSize == old(frameSize) && frameDpr == old(frameDpr)
      ensures interceptor == old(interceptor) && interceptorRects == old(interceptorRects)
    {
      var v := scenicViews[viewId];
      scenicViews := scenicViews[viewId := v.(pendingOcclusionHint := occlusionHint,
                                               pendingHitTestable := hitTestable,
                                               pendingFocusable := focusable)];
    }
  
    /** SubmitFrame: composes the frame (see ComposeFrame) and keeps the
        updated views, Scenic layers and rectangles for the next frame.
        `surfaced` is the set of layers that were drawn into and got a
        surface.  Every layer must be in the frame, every platform view must
        exist, and no layer may need a Scenic layer beyond the next one to
        create. */
    method SubmitFrame(surfaced: set<LayerId>) returns (placements: seq<LayerPlacement>)
      requires Valid()
      requires forall i | 0 <= i < |compositionOrder| && compositionOrder[i].Some? ::
                 compositionOrder[i].value as int in scenicViews
      requires SlotsAvailable(compositionOrder, surfaced, scenicLayerCount)
      modifies this
      ensures Valid()
      ensures frameLayers == old(frameLayers) && compositionOrder == old(compositionOrder)
      ensures Submitted(compositionOrder, frameLayers, surfaced, placements, |compositionOrder|)
      ensures scenicLayerCount == SlotsAfter(compositionOrder, surfaced, |compositionOrder|, old(scenicLayerCount))
      ensures ViewsPushed(compositionOrder, frameLayers, old(scenicViews), scenicViews, |compositionOrder|)
      ensures viewCommands == old(viewCommands) +
                FrameViewCommands(compositionOrder, frameLayers, old(scenicViews), |compositionOrder|)
      ensures forall h | h in old(scenicRects) :: h in scenicRects && old(scenicRects)[h] <= scenicRects[h]
      ensures RectsKept(old(scenicRects), placements, scenicRects)
      ensures frameSize == old(frameSize) && frameDpr == old(frameDpr)
      ensures interceptor == old(interceptor) && interceptorRects == old(interceptorRects)
    {
      var views, count, rects, commands;
      placements, views, count, rects, commands :=
        ComposeFrame(compositionOrder, frameLayers, surfaced, scenicViews, scenicLayerCount, scenicRects);
      scenicViews := views;
      scenicLayerCount := count;
      scenicRects := rects;
      viewCommands := viewCommands + commands;
    }
  }

  /** The layer half of one composition step, for a layer that has a
      surface: takes Scenic layer `position` (creating it when it is the
      next one), picks the next rectangle of the surface's size in this
      frame (creating it when none is left), and computes the layer's
      opacity, elevation and hit testing. */
  method PlaceLayer(position: nat, id: LayerId, size: ISize, first: bool, embeddedViewsHeight: real,
                    count0: nat, rects0: map<uint64, nat>, rectIndices: map<uint64, nat>)
    returns (placement: LayerPlacement, count: nat, rects: map<uint64, nat>, indices: map<uint64, nat>)
    requires position <= count0
    requires forall h | h in rectIndices :: h in rects0 && rectIndices[h] < rects0[h]
    ensures count == if position == count0 then position + 1 else count0
    ensures var h := RectHash(size);
            placement == LayerPlacement(position, id, position, h,
                                        if h in rectIndices then rectIndices[h] + 1 else 0,
                                        if first then AlphaOpaque else AlphaOpaque - 1,
                                        ZElevationBetweenLayers * position as real + embeddedViewsHeight,
                                        first, size.width as real * 0.5, size.height as real * 0.5) &&
            indices == rectIndices[h := placement.rectIndex] &&
            h in rects && placement.rectIndex < rects[h] &&
            rects == rects0[h := KeptCount(rects0, h, placement.rectIndex + 1)]
    ensures forall h | h in rects0 :: h in rects && rects0[h] <= rects[h]
  {
    count := count0;
    if position == count {
      count := count + 1;
    }
    var hash := RectHash(size);
    var rectIndex := 0;
    if hash in rectIndices {
      rectIndex := rectIndices[hash] + 1;
    }
    indices := rectIndices[hash := rectIndex];
    rects := rects0;
    if hash !in rects {
      rects := rects[hash := 0];
    }
    if rectIndex == rects[hash] {
      rects := rects[hash := rects[hash] + 1];
    }
    var alpha := if first then AlphaOpaque else AlphaOpaque - 1;
    var elevation := ZElevationBetweenLayers * position as real + embeddedViewsHeight;
    placement := LayerPlacement(position, id, position, hash, rectIndex, alpha, elevation, first,
                                size.width as real * 0.5, size.height as real * 0.5);
  }

  /** The composition loop of SubmitFrame, over the frame's layers in
      composition order: each position pushes its platform view (if any),
      then places its layer (if it has a surface).  Returns the placements,
      the updated views, Scenic layer count and rectangle counts, and the
      view commands issued. */
  method ComposeFrame(order: seq<LayerId>, layers: map<LayerId, EmbedderLayer>, surfaced: set<LayerId>,
                      views0: map<int, ScenicView>, count0: nat, rects0: map<uint64, nat>)
    returns (placements: seq<LayerPlacement>, views: map<int, ScenicView>, count: nat,
             rects: map<uint64, nat>, commands: seq<ViewCommand>)
    requires forall a, b | 0 <= a < b < |order| :: order[a] != order[b]
    requires forall i | 0 <= i < |order| :: order[i] in layers
    requires forall i | 0 <= i < |order| && order[i].Some? ::
               layers[order[i]].viewParams.Some? && order[i].value as int in views0
    requires SlotsAvailable(order, surfaced, count0)
    ensures Submitted(order, layers, surfaced, placements, |order|)
    ensures count == SlotsAfter(order, surfaced, |order|, count0)
    ensures ViewsPushed(order, layers, views0, views, |order|)
    ensures commands == FrameViewCommands(order, layers, views0, |order|)
    ensures forall h | h in rects0 :: h in rects && rects0[h] <= rects[h]
    ensures RectsKept(rects0, placements, rects)
  {
    var rectIndices: map<uint64, nat> := map[];
    var embeddedViewsHeight := 0.0;
    var i := 0;
    placements, views, count, rects, commands := [], views0, count0, rects0, [];
    while i < |order|
      invariant 0 <= i <= |order|
      invariant embeddedViewsHeight == ZElevationForPlatformView * ViewsIn(order[..i]) as real
      invariant count == SlotsAfter(order, surfaced, i, count0)
      invariant Submitted(order, layers, surfaced, placements, i)
      invariant RectIndicesOf(rectIndices, placements, rects)
      invariant RectsKept(rects0, placements, rects)
      invariant ViewsPushed(order, layers, views0, views, i)
      invariant commands == FrameViewCommands(order, layers, views0, i)
    {
      views, commands, embeddedViewsHeight := PushViewAt(order, layers, views0, i, views, commands, embeddedViewsHeight);
      placements, count, rects, rectIndices :=
        PlaceAt(order, layers, surfaced, count0, rects0, i, embeddedViewsHeight, placements, count, rects, rectIndices);
      i := i + 1;
    }
    RectsKeptGrows(rects0, placements, rects);
  }

  /** The platform-view half of one composition step: the view at position
      i, if any, is pushed its layer's parameters at the elevation of its
      position, and raises what lies above it by one platform-view height. */
  method PushViewAt(order: seq<LayerId>, layers: map<LayerId, EmbedderLayer>, views0: map<int, ScenicView>,
                    i: nat, views: map<int, ScenicView>, commands: seq<ViewCommand>, embeddedViewsHeight: real)
    returns (views': map<int, ScenicView>, commands': seq<ViewCommand>, embeddedViewsHeight': real)
    requires i < |order|
    requires forall a, b | 0 <= a < b < |order| :: order[a] != order[b]
    requires forall j | 0 <= j < |order| :: order[j] in layers
    requires forall j | 0 <= j < |order| && order[j].Some? ::
               layers[order[j]].viewParams.Some? && order[j].value as int in views0
    requires embeddedViewsHeight == ZElevationForPlatformView * ViewsIn(order[..i]) as real
    requires ViewsPushed(order, layers, views0, views, i)
    requires commands == FrameViewCommands(order, layers, views0, i)
    ensures embeddedViewsHeight' == ZElevationForPlatformView * ViewsIn(order[..i + 1]) as real
    ensures ViewsPushed(order, layers, views0, views', i + 1)
    ensures commands' == FrameViewCommands(order, layers, views0, i + 1)
  {
    var id := order[i];
    ViewsStep(order, i);
    views', commands', embeddedViewsHeight' := views, commands, embeddedViewsHeight;
    if id.Some? {
      ViewStillPending(order, layers, views0, views, i);
      var elevation := ZElevationBetweenLayers * i as real + embeddedViewsHeight;
      assert elevation == ViewElevation(order, i);
      var v, pushed := PushToView(views[id.value], id.value, layers[id].viewParams.value, elevation);
      assert v == UpdatedView(views[id.value], layers[id].viewParams.value, ViewElevation(order, i));
      views' := views[id.value := v];
      commands' := commands + pushed;
      embeddedViewsHeight' := embeddedViewsHeight + ZElevationForPlatformView;
    }
    PushedStep(order, layers, views0, views, views', i);
  }

  /** The layer half of one composition step: the layer at position i, if
      it has a surface, is placed as `Submitted` describes. */
  method PlaceAt(order: seq<LayerId>, layers: map<LayerId, EmbedderLayer>, surfaced: set<LayerId>,
                 count0: nat, rects0: map<uint64, nat>, i: nat, embeddedViewsHeight: real,
                 placements: seq<LayerPlacement>, count: nat, rects: map<uint64, nat>, rectIndices: map<uint64, nat>)
    returns (placements': seq<LayerPlacement>, count': nat, rects': map<uint64, nat>, rectIndices': map<uint64, nat>)
    requires i < |order|
    requires forall j | 0 <= j < |order| :: order[j] in layers
    requires SlotsAvailable(order, surfaced, count0)
    requires embeddedViewsHeight == ZElevationForPlatformView * ViewsIn(order[..i + 1]) as real
    requires count == SlotsAfter(order, surfaced, i, count0)
    requires Submitted(order, layers, surfaced, placements, i)
    requires RectIndicesOf(rectIndices, placements, rects)
    requires RectsKept(rects0, placements, rects)
    ensures count' == SlotsAfter(order, surfaced, i + 1, count0)
    ensures Submitted(order, layers, surfaced, placements', i + 1)
    ensures RectIndicesOf(rectIndices', placements', rects')
    ensures RectsKept(rects0, placements', rects')
  {
    var id := order[i];
    placements', count', rects', rectIndices' := placements, count, rects, rectIndices;
    if id in surfaced {
      var placement;
      placement, count', rects', rectIndices' :=
        PlaceLayer(i, id, layers[id].surfaceSize, i == 0, embeddedViewsHeight, count, rects, rectIndices);
      RectIndicesStep(rectIndices, rectIndices', placements, placement, rects, rects');
      RectsKeptStep(rects0, placements, placement, rects, rects');
      placements' := placements + [placement];
      assert placements'[..|placements|] == placements;
      SubmittedStep(order, layers, surfaced, placements, i, placement);
    } else {
      SubmittedStep(order, layers, surfaced, placements, i, LayerPlacement(0, None, 0, 0, 0, 0, 0.0, false, 0.0, 0.0));
    }
  }

  /** After the first n positions, every platform view among them has been
      pushed the parameters of its layer at the elevation of its position,
      and every other view is as it was. */
  ghost predicate ViewsPushed(order: seq<LayerId>, layers: map<LayerId, EmbedderLayer>,
                              views0: map<int, ScenicView>, views: map<int, ScenicView>, n: nat)
    requires n <= |order|
    requires forall i | 0 <= i < |order| :: order[i] in layers
    requires forall i | 0 <= i < |order| && order[i].Some? ::
               layers[order[i]].viewParams.Some? && order[i].value as int in views0
  {
    views.Keys == views0.Keys &&
    (forall j | 0 <= j < n && order[j].Some? ::
       views[order[j].value] == UpdatedView(views0[order[j].value], layers[order[j]].viewParams.value, ViewElevation(order, j))) &&
    (forall id | id in views && id !in ViewIds(order[..n]) :: views[id] == views0[id])
  }

  /** The view commands SubmitFrame issues for the first n positions: each
      platform view's updates, in composition order. */
  ghost function FrameViewCommands(order: seq<LayerId>, layers: map<LayerId, EmbedderLayer>,
                                   views: map<int, ScenicView>, n: nat): seq<ViewCommand>
    requires n <= |order|
    requires forall i | 0 <= i < |order| :: order[i] in layers
    requires forall i | 0 <= i < |order| && order[i].Some? ::
               layers[order[i]].viewParams.Some? && order[i].value as int in views
  {
    if n == 0 then []
    else
      var id := order[n - 1];
      FrameViewCommands(order, layers, views, n - 1) +
      if id.Some? then UpdateCommands(views[id.value], id.value, layers[id].viewParams.value, ViewElevation(order, n - 1))
      else []
  }

  /** The placements of the first n positions of the order are the ones
      SubmitFrame makes: one per layer that has a surface, in order, on
      Scenic layer `position`, fully opaque and hit-testable only at the
      bottom of the order, above everything below it, on the next unused
      rectangle of its size. */
  ghost predicate Submitted(order: seq<LayerId>, layers: map<LayerId, EmbedderLayer>, surfaced: set<LayerId>,
                            placements: seq<LayerPlacement>, n: nat)
    requires n <= |order|
    requires forall i | 0 <= i < |order| :: order[i] in layers
  {
    var positions := PlacedPositions(order, surfaced, n);
    |placements| == |positions| &&
    forall k | 0 <= k < |placements| :: PlacedAt(order, layers, placements, k, positions[k])
  }

  /** Placement k is the one made for the layer at `position`. */
  ghost predicate PlacedAt(order: seq<LayerId>, layers: map<LayerId, EmbedderLayer>,
                           placements: seq<LayerPlacement>, k: nat, position: nat)
    requires k < |placements| && position < |order|
    requires forall i | 0 <= i < |order| :: order[i] in layers
  {
    var p := placements[k];
    var size := layers[order[position]].surfaceSize;
    p == LayerPlacement(position, order[position], position, RectHash(size), HashCount(placements[..k], RectHash(size)),
                        if position == 0 then AlphaOpaque else AlphaOpaque - 1,
                        LayerElevation(order, position), position == 0,
                        size.width as real * 0.5, size.height as real * 0.5)
  }

  /** The frame's rectangle bookkeeping: a size hash has an entry exactly
      when a placement used it, holding the last index used, and that
      rectangle exists. */
  ghost predicate RectIndicesOf(indices: map<uint64, nat>, placements: seq<LayerPlacement>, rects: map<uint64, nat>) {
    (forall h: uint64 :: h in indices <==> HashCount(placements, h) > 0) &&
    (forall h | h in indices :: indices[h] + 1 == HashCount(placements, h) && h in rects && indices[h] < rects[h])
  }

  lemma ViewsStep(order: seq<LayerId>, i: nat)
    requires i < |order|
    ensures ViewsIn(order[..i + 1]) == ViewsIn(order[..i]) + (if order[i].Some? then 1 else 0)
    ensures ViewIds(order[..i + 1]) == ViewIds(order[..i]) + (if order[i].Some? then {order[i].value as int} else {})
  {
    assert order[..i + 1][..i] == order[..i];
    assert order[..i + 1] == order[..i] + [order[i]];
  }

  /** A platform view appears once in the order, so it is not among the
      views below it. */
  lemma FreshView(order: seq<LayerId>, i: nat)
    requires i < |order| && order[i].Some?
    requires forall a, b | 0 <= a < b < |order| :: order[a] != order[b]
    ensures order[i].value as int !in ViewIds(order[..i])
  {
  }

  lemma HashCountSnoc(ps: seq<LayerPlacement>, p: LayerPlacement)
    ensures forall h :: HashCount(ps + [p], h) == HashCount(ps, h) + (if p.rectHash == h then 1 else 0)
  {
    assert (ps + [p])[..|ps|] == ps;
  }

  lemma SubmittedStep(order: seq<LayerId>, layers: map<LayerId, EmbedderLayer>, surfaced: set<LayerId>,
                      placements: seq<LayerPlacement>, n: nat, p: LayerPlacement)
    requires n < |order|
    requires forall i | 0 <= i < |order| :: order[i] in layers
    requires Submitted(order, layers, surfaced, placements, n)
    requires order[n] in surfaced ==> PlacedAt(order, layers, placements + [p], |placements|, n)
    ensures Submitted(order, layers, surfaced, if order[n] in surfaced then placements + [p] else placements, n + 1)
  {
    var next := if order[n] in surfaced then placements + [p] else placements;
    var positions := PlacedPositions(order, surfaced, n + 1);
    assert positions == PlacedPositions(order, surfaced, n) + (if order[n] in surfaced then [n] else []);
    forall k | 0 <= k < |next|
      ensures PlacedAt(order, layers, next, k, positions[k])
    {
      if k < |placements| {
        assert next[..k] == placements[..k];
        assert PlacedAt(order, layers, placements, k, positions[k]);
      }
    }
  }

  /** A platform view not yet reached still holds its old values. */
  lemma ViewStillPending(order: seq<LayerId>, layers: map<LayerId, EmbedderLayer>,
                         views0: map<int, ScenicView>, views: map<int, ScenicView>, i: nat)
    requires i < |order| && order[i].Some?
    requires forall a, b | 0 <= a < b < |order| :: order[a] != order[b]
    requires forall j | 0 <= j < |order| :: order[j] in layers
    requires forall j | 0 <= j < |order| && order[j].Some? ::
               layers[order[j]].viewParams.Some? && order[j].value as int in views0
    requires ViewsPushed(order, layers, views0, views, i)
    ensures order[i].value as int in views && views[order[i].value] == views0[order[i].value]
  {
    FreshView(order, i);
  }

  /** Pushing the view at position i (if any) extends ViewsPushed by one
      position. */
  lemma PushedStep(order: seq<LayerId>, layers: map<LayerId, EmbedderLayer>,
                   views0: map<int, ScenicView>, before: map<int, ScenicView>, after: map<int, ScenicView>, i: nat)
    requires i < |order|
    requires forall a, b | 0 <= a < b < |order| :: order[a] != order[b]
    requires forall j | 0 <= j < |order| :: order[j] in layers
    requires forall j | 0 <= j < |order| && order[j].Some? ::
               layers[order[j]].viewParams.Some? && order[j].value as int in views0
    requires ViewsPushed(order, layers, views0, before, i)
    requires order[i].None? ==> after == before
    requires order[i].Some? ==>
      after == before[order[i].value := UpdatedView(before[order[i].value], layers[order[i]].viewParams.value,
                                                    ViewElevation(order, i))]
    ensures ViewsPushed(order, layers, views0, after, i + 1)
  {
    ViewsStep(order, i);
    if order[i].Some? {
      ViewStillPending(order, layers, views0, before, i);
      forall j | 0 <= j < i && order[j].Some?
        ensures order[j].value != order[i].value
      {
        assert order[j] != order[i];
      }
    }
  }

  /** Placing one more layer keeps the rectangle bookkeeping, and the
      rectangle it takes is the next unused one of its size. */
  lemma RectIndicesStep(before: map<uint64, nat>, after: map<uint64, nat>, placements: seq<LayerPlacement>,
                        p: LayerPlacement, rectsBefore: map<uint64, nat>, rectsAfter: map<uint64, nat>)
    requires RectIndicesOf(before, placements, rectsBefore)
    requires p.rectIndex == if p.rectHash in before then before[p.rectHash] + 1 else 0
    requires after == before[p.rectHash := p.rectIndex]
    requires p.rectHash in rectsAfter && p.rectIndex < rectsAfter[p.rectHash]
    requires forall h | h in rectsBefore :: h in rectsAfter && rectsBefore[h] <= rectsAfter[h]
    ensures RectIndicesOf(after, placements + [p], rectsAfter)
    ensures p.rectIndex == HashCount(placements, p.rectHash)
  {
    HashCountSnoc(placements, p);
  }

  /** Placing one more layer, on rectangle HashCount(placements, h) of its
      hash h, keeps the rectangle counts exact. */
  lemma RectsKeptStep(rects0: map<uint64, nat>, placements: seq<LayerPlacement>, p: LayerPlacement,
                      rectsBefore: map<uint64, nat>, rectsAfter: map<uint64, nat>)
    requires RectsKept(rects0, placements, rectsBefore)
    requires p.rectIndex == HashCount(placements, p.rectHash)
    requires rectsAfter == rectsBefore[p.rectHash := KeptCount(rectsBefore, p.rectHash, p.rectIndex + 1)]
    ensures RectsKept(rects0, placements + [p], rectsAfter)
  {
    HashCountSnoc(placements, p);
  }

  /** A frame never loses rectangles. */
  lemma RectsKeptGrows(rects0: map<uint64, nat>, placements: seq<LayerPlacement>, rects: map<uint64, nat>)
    requires RectsKept(rects0, placements, rects)
    ensures forall h | h in rects0 :: h in rects && rects0[h] <= rects[h]
  {
  }
}
