/** PhysicalShapeLayer: a filled shape at an elevation, with an optional
    shadow and a clip for its children.  The shadow extent is plain
    arithmetic; Preroll chooses the paint bounds and Paint issues a fixed
    sequence of canvas calls for each clip behaviour. */
module PhysicalShapeLayers {
  import opened Geometry
  import opened Canvas
  import Wrappers

  /** kLightHeight and kLightRadius: the light source the shadow is cast from. */
  const LightHeight: real := 600.0
  const LightRadius: real := 800.0

  /** flutter::Clip. */
  datatype Clip = NoClip | HardEdge | AntiAlias | AntiAliasWithSaveLayer

  /** PhysicalShapeLayer::ComputeShadowBounds: the bounds outset by the extent
      of the shadow a light of radius kLightRadius (scaled by the pixel ratio)
      at height kLightHeight casts from the given elevation. */
  function ComputeShadowBounds(bounds: Rect, elevation: real, pixelRatio: real): (r: Rect)
    ensures elevation == 0.0 ==> r == bounds
    ensures elevation >= 0.0 && pixelRatio >= 0.0 && bounds.IsSorted() ==> r.Contains(bounds)
  {
    var tx := (LightRadius * pixelRatio + bounds.Width() * 0.5) / LightHeight;
    var ty := (LightRadius * pixelRatio + bounds.Height() * 0.5) / LightHeight;
    bounds.Outset(elevation * tx, elevation * ty)
  }

  /** The shadow extent written in the form the geometry gives it: each side
      moves out by elevation * (800 * dpr + half the extent) / 600. */
  lemma ShadowBoundsExtent(bounds: Rect, elevation: real, dpr: real)
    ensures var r := ComputeShadowBounds(bounds, elevation, dpr);
            var ex := elevation * (800.0 * dpr + bounds.Width() / 2.0) / 600.0;
            var ey := elevation * (800.0 * dpr + bounds.Height() / 2.0) / 600.0;
            r == Rect(bounds.left - ex, bounds.top - ey, bounds.right + ex, bounds.bottom + ey)
  {
    var w := bounds.Width();
    var h := bounds.Height();
    var tx := (LightRadius * dpr + w * 0.5) / LightHeight;
    var ty := (LightRadius * dpr + h * 0.5) / LightHeight;
    assert ComputeShadowBounds(bounds, elevation, dpr) == bounds.Outset(elevation * tx, elevation * ty);
    assert elevation * tx == elevation * (800.0 * dpr + w / 2.0) / 600.0;
    assert elevation * ty == elevation * (800.0 * dpr + h / 2.0) / 600.0;
  }

  /** A higher layer casts a larger shadow. */
  lemma ShadowGrowsWithElevation(bounds: Rect, low: real, high: real, dpr: real)
    requires low <= high && dpr >= 0.0 && bounds.IsSorted()
    ensures ComputeShadowBounds(bounds, high, dpr).Contains(ComputeShadowBounds(bounds, low, dpr))
  {
    var tx := (LightRadius * dpr + bounds.Width() * 0.5) / LightHeight;
    var ty := (LightRadius * dpr + bounds.Height() * 0.5) / LightHeight;
    assert tx >= 0.0 && ty >= 0.0;
    assert high * tx - low * tx == (high - low) * tx;
    assert high * ty - low * ty == (high - low) * ty;
  }

  /** The shape the system compositor is given for a path: a rect stays a
      rect, a rounded rect is kept, an oval becomes its oval rrect, and any
      other path is approximated by its bounding rect. */
  function CompositedShape(path: Path): (rr: RRect)
    ensures rr.rect == path.Bounds()
    ensures path.RRectPath? ==> rr == path.rr
    ensures path.OvalPath? ==> 2.0 * rr.rx == path.oval.Width() && 2.0 * rr.ry == path.oval.Height()
    ensures !path.RRectPath? && !path.OvalPath? ==> rr.rx == 0.0 && rr.ry == 0.0
  {
    match path
    case RectPath(r) => RRectFromRect(r)
    case RRectPath(rr) => rr
    case OvalPath(o) => RRectFromOval(o)
    case OtherPath(b) => RRectFromRect(b)
  }

  /** The paint bounds Preroll chooses without the system compositor: the
      path's bounds, grown by the shadow when the layer is elevated. */
  function ShapeBounds(path: Path, elevation: real, dpr: real): Rect {
    if elevation != 0.0 then ComputeShadowBounds(path.Bounds(), elevation, dpr) else path.Bounds()
  }

  /** The shape's bounds always lie inside the chosen paint bounds, so a
      visible shape always needs painting. */
  lemma ShapeBoundsCoverPath(path: Path, elevation: real, dpr: real)
    requires elevation >= 0.0 && dpr >= 0.0 && path.Bounds().IsSorted()
    ensures ShapeBounds(path, elevation, dpr).Contains(path.Bounds())
    ensures !path.Bounds().IsEmpty() ==> !ShapeBounds(path, elevation, dpr).IsEmpty()
  {
    var b := path.Bounds();
    var r := ShapeBounds(path, elevation, dpr);
    assert r.Contains(b);
    if !b.IsEmpty() {
      assert r.left <= b.left < b.right <= r.right;
      assert r.top <= b.top < b.bottom <= r.bottom;
    }
  }

  /** The calls inside the save that Paint opens, from the save on, for a
      canvas at depth d.  The clip realizes the deferred save; without a clip
      the save stays deferred and restoreToCount drops it silently. */
  function ClippedCalls(path: Path, color: Color, clip: Clip, bounds: Rect, d: nat): seq<DrawCall> {
    match clip
    case NoClip =>
      [DrawCall(d, PaintChildrenOp)]
    case HardEdge =>
      [DrawCall(d, SaveOp(d + 1)), DrawCall(d + 1, ClipPathOp(path, false)),
       DrawCall(d + 1, PaintChildrenOp), DrawCall(d + 1, RestoreOp(d))]
    case AntiAlias =>
      [DrawCall(d, SaveOp(d + 1)), DrawCall(d + 1, ClipPathOp(path, true)),
       DrawCall(d + 1, PaintChildrenOp), DrawCall(d + 1, RestoreOp(d))]
    case AntiAliasWithSaveLayer =>
      [DrawCall(d, SaveOp(d + 1)), DrawCall(d + 1, ClipPathOp(path, true)),
       DrawCall(d + 1, SaveLayerOp(bounds, d + 2)), DrawCall(d + 2, DrawPaintOp(color)),
       DrawCall(d + 2, PaintChildrenOp), DrawCall(d + 2, RestoreOp(d + 1)), DrawCall(d + 1, RestoreOp(d))]
  }

  /** Everything PhysicalShapeLayer::Paint logs on a canvas at depth d: the
      shadow, the fill drawn as a path, then the clipped part. */
  function PaintSequence(path: Path, color: Color, shadowColor: Color, elevation: real, clip: Clip,
                         bounds: Rect, dpr: real, d: nat): seq<DrawCall>
  {
    var shadow := if elevation != 0.0 then [DrawCall(d, DrawShadowOp(path, shadowColor, elevation, Alpha(color) != 0xff, dpr))] else [];
    var fill := if clip != AntiAliasWithSaveLayer then [DrawCall(d, DrawPathOp(path, color))] else [];
    shadow + fill + ClippedCalls(path, color, clip, bounds, d)
  }

  /** Which paint calls carry the opacity of the fill. */
  predicate IsFill(op: Op) {
    op.DrawPathOp? || op.DrawPaintOp?
  }

  /** The shadow comes first and only for an elevated layer; its occluder is
      transparent exactly when the colour is not fully opaque. */
  lemma {:induction false} ShadowFirstIffElevated(path: Path, color: Color, shadowColor: Color, elevation: real,
                                                  clip: Clip, bounds: Rect, dpr: real, d: nat)
    ensures var s := PaintSequence(path, color, shadowColor, elevation, clip, bounds, dpr, d);
            |s| > 0 && (s[0].op.DrawShadowOp? <==> elevation != 0.0) &&
            (forall i | 0 <= i < |s| && s[i].op.DrawShadowOp? ::
               i == 0 && s[i].op == DrawShadowOp(path, shadowColor, elevation, Alpha(color) != 0xff, dpr))
  {
    var s := PaintSequence(path, color, shadowColor, elevation, clip, bounds, dpr, d);
    var c := ClippedCalls(path, color, clip, bounds, d);
    assert forall i | 0 <= i < |c| :: !c[i].op.DrawShadowOp?;
  }

  /** The fill is drawn exactly once: as a path when the clip keeps no
      layer, as a paint filling the clipped layer otherwise. */
  lemma {:induction false} FillOnceByClip(path: Path, color: Color, shadowColor: Color, elevation: real,
                                          clip: Clip, bounds: Rect, dpr: real, d: nat)
    ensures var s := PaintSequence(path, color, shadowColor, elevation, clip, bounds, dpr, d);
            exists i :: 0 <= i < |s| && IsFill(s[i].op) &&
              (forall j | 0 <= j < |s| && IsFill(s[j].op) :: j == i) &&
              (clip != AntiAliasWithSaveLayer ==> s[i] == DrawCall(d, DrawPathOp(path, color))) &&
              (clip == AntiAliasWithSaveLayer ==> s[i] == DrawCall(d + 2, DrawPaintOp(color)))
  {
    var s := PaintSequence(path, color, shadowColor, elevation, clip, bounds, dpr, d);
    var shadow := if elevation != 0.0 then [DrawCall(d, DrawShadowOp(path, shadowColor, elevation, Alpha(color) != 0xff, dpr))] else [];
    var k := |shadow|;
    var c := ClippedCalls(path, color, clip, bounds, d);
    if clip != AntiAliasWithSaveLayer {
      assert s == shadow + [DrawCall(d, DrawPathOp(path, color))] + c;
      assert forall j | 0 <= j < |c| :: !IsFill(c[j].op);
      assert forall j | 0 <= j < |s| && j != k :: !IsFill(s[j].op) by {
        forall j | 0 <= j < |s| && j != k
          ensures !IsFill(s[j].op)
        {
          if j > k { assert s[j] == c[j - k - 1]; }
        }
      }
      assert IsFill(s[k].op);
    } else {
      assert s == shadow + c;
      assert c[3] == DrawCall(d + 2, DrawPaintOp(color));
      assert forall j | 0 <= j < |c| && j != 3 :: !IsFill(c[j].op);
      assert s[k + 3] == c[3];
      assert forall j | 0 <= j < |s| && j != k + 3 :: !IsFill(s[j].op) by {
        forall j | 0 <= j < |s| && j != k + 3
          ensures !IsFill(s[j].op)
        {
          if j >= k { assert s[j] == c[j - k]; }
        }
      }
      assert IsFill(s[k + 3].op);
    }
  }

  /** The clip follows the clip behaviour: none for Clip::none, a hard-edged
      clip for hardEdge, an anti-aliased one otherwise; a layer with the paint
      bounds is saved only for antiAliasWithSaveLayer. */
  lemma {:induction false} ClipFollowsBehaviour(path: Path, color: Color, shadowColor: Color, elevation: real,
                                                clip: Clip, bounds: Rect, dpr: real, d: nat)
    ensures var s := PaintSequence(path, color, shadowColor, elevation, clip, bounds, dpr, d);
            ((exists i :: 0 <= i < |s| && s[i].op.ClipPathOp?) <==> clip != NoClip) &&
            (forall i | 0 <= i < |s| && s[i].op.ClipPathOp? :: s[i].op == ClipPathOp(path, clip != HardEdge)) &&
            ((exists i :: 0 <= i < |s| && s[i].op.SaveLayerOp?) <==> clip == AntiAliasWithSaveLayer) &&
            (forall i | 0 <= i < |s| && s[i].op.SaveLayerOp? :: s[i].op.layerBounds == bounds)
  {
    var s := PaintSequence(path, color, shadowColor, elevation, clip, bounds, dpr, d);
    var c := ClippedCalls(path, color, clip, bounds, d);
    var k := |s| - |c|;
    assert s[k..] == c;
    assert forall i | 0 <= i < k :: s[i].op.IsDraw();
    ClippedClipOps(path, color, clip, bounds, d);
    forall i | 0 <= i < |s| && (s[i].op.ClipPathOp? || s[i].op.SaveLayerOp?)
      ensures k <= i && s[i] == c[i - k]
    {
    }
    if clip != NoClip {
      assert s[k + 1] == c[1];
    }
    if clip == AntiAliasWithSaveLayer {
      assert s[k + 2] == c[2];
    }
  }

  /** The clip and layer calls of the clipped part alone. */
  lemma ClippedClipOps(path: Path, color: Color, clip: Clip, bounds: Rect, d: nat)
    ensures var c := ClippedCalls(path, color, clip, bounds, d);
            (clip != NoClip ==> |c| > 2 && c[1].op == ClipPathOp(path, clip != HardEdge)) &&
            (clip == AntiAliasWithSaveLayer ==> c[2].op == SaveLayerOp(bounds, d + 2)) &&
            (forall i | 0 <= i < |c| && c[i].op.ClipPathOp? :: i == 1 && clip != NoClip) &&
            (forall i | 0 <= i < |c| && c[i].op.SaveLayerOp? :: i == 2 && clip == AntiAliasWithSaveLayer)
  {
  }

  /** The whole sequence is well nested, never goes above the depth it
      started at, and returns to it: everything Paint opens it closes. */
  lemma {:induction false} PaintIsBracketed(path: Path, color: Color, shadowColor: Color, elevation: real,
                                            clip: Clip, bounds: Rect, dpr: real, d: nat)
    ensures var s := PaintSequence(path, color, shadowColor, elevation, clip, bounds, dpr, d);
            Nested(s, d, d) && forall i | 0 <= i < |s| :: s[i].depth >= d
  {
    var s := PaintSequence(path, color, shadowColor, elevation, clip, bounds, dpr, d);
    var shadow := if elevation != 0.0 then [DrawCall(d, DrawShadowOp(path, shadowColor, elevation, Alpha(color) != 0xff, dpr))] else [];
    var fill := if clip != AntiAliasWithSaveLayer then [DrawCall(d, DrawPathOp(path, color))] else [];
    var c := ClippedCalls(path, color, clip, bounds, d);
    ClippedCallsNested(path, color, clip, bounds, d);
    NestedDraws(fill, c, d, d);
    NestedDraws(shadow, fill + c, d, d);
    assert s == shadow + (fill + c);
  }

  lemma ClippedCallsNested(path: Path, color: Color, clip: Clip, bounds: Rect, d: nat)
    ensures Nested(ClippedCalls(path, color, clip, bounds, d), d, d)
  {
    var c := ClippedCalls(path, color, clip, bounds, d);
    match clip
    case NoClip =>
      assert Nested(c[1..], d, d);
    case HardEdge =>
      assert Nested(c[4..], d, d);
      assert Nested(c[3..], d + 1, d);
      assert Nested(c[2..], d + 1, d);
      assert Nested(c[1..], d + 1, d);
    case AntiAlias =>
      assert Nested(c[4..], d, d);
      assert Nested(c[3..], d + 1, d);
      assert Nested(c[2..], d + 1, d);
      assert Nested(c[1..], d + 1, d);
    case AntiAliasWithSaveLayer =>
      assert Nested(c[7..], d, d);
      assert Nested(c[6..], d + 1, d);
      assert Nested(c[5..], d + 2, d);
      assert Nested(c[4..], d + 2, d);
      assert Nested(c[3..], d + 2, d);
      assert Nested(c[2..], d + 1, d);
      assert Nested(c[1..], d + 1, d);
  }

  /** Drawing calls at the current depth in front of a nested log keep it nested. */
  lemma NestedDraws(draws: seq<DrawCall>, rest: seq<DrawCall>, d: nat, e: nat)
    requires |draws| <= 1 && forall i | 0 <= i < |draws| :: draws[i].depth == d && draws[i].op.IsDraw()
    requires Nested(rest, d, e)
    ensures Nested(draws + rest, d, e)
  {
    if |draws| == 1 {
      assert (draws + rest)[1..] == rest;
    } else {
      assert draws + rest == rest;
    }
  }

  /** The restores that close what the clip switch opened at depth d. */
  function Closing(clip: Clip, d: nat): seq<DrawCall> {
    match clip
    case NoClip => []
    case AntiAliasWithSaveLayer => [DrawCall(d + 2, RestoreOp(d + 1)), DrawCall(d + 1, RestoreOp(d))]
    case _ => [DrawCall(d + 1, RestoreOp(d))]
  }

  /** The restoreToCount ending PhysicalShapeLayer::Paint: from the stack the
      save and the clip switch left, it logs the closing restores and returns
      to the stack before the save. */
  method CloseClip(clip: Clip, canvas: Canvas, saveCount: nat, ghost stack0: seq<nat>)
    requires canvas.Valid() && |stack0| >= 1 && saveCount >= 1
    requires clip == NoClip ==> canvas.stack == stack0[..|stack0| - 1] + [stack0[|stack0| - 1] + 1]
    requires clip == HardEdge || clip == AntiAlias ==> canvas.stack == stack0 + [0]
    requires clip == AntiAliasWithSaveLayer ==> canvas.stack == stack0 + [0, 0]
    requires canvas.SaveCount() == saveCount + (if clip == AntiAliasWithSaveLayer then 2 else 1)
    modifies canvas
    ensures canvas.Valid() && canvas.stack == stack0
    ensures canvas.calls == old(canvas.calls) + Closing(clip, |stack0| - 1)
  {
    canvas.RestoreToCount(saveCount);
    match clip {
      case NoClip =>
        DeferredSaveRestoresSilently(stack0);
      case HardEdge =>
        RealizedSaveRestoresOnce(stack0);
      case AntiAlias =>
        RealizedSaveRestoresOnce(stack0);
      case AntiAliasWithSaveLayer =>
        RealizedSaveAndLayerRestoreTwice(stack0);
    }
  }

  class PhysicalShapeLayer {
    const color: Color
    const shadowColor: Color
    const elevation: real
    const path: Path
    const clipBehavior: Clip
    /** PhysicalShapeLayerBase::can_system_composite: whether the platform's
        compositor draws elevated shapes itself (fixed per build). */
    const canSystemComposite: bool
    /** The shape handed to the system compositor, when it is used. */
    var dimensions: Wrappers.Option<RRect>
    var paintBounds: Rect
    var needsSystemComposite: bool

    /** Layer::needs_painting. */
    predicate NeedsPainting()
      reads this
    {
      !paintBounds.IsEmpty()
    }

    /** The layer starts with empty paint bounds; with the system compositor
        it also records the shape to composite. */
    constructor (color: Color, shadowColor: Color, elevation: real, path: Path, clipBehavior: Clip,
                 canSystemComposite: bool)
      ensures this.color == color && this.shadowColor == shadowColor && this.elevation == elevation
      ensures this.path == path && this.clipBehavior == clipBehavior
      ensures this.canSystemComposite == canSystemComposite
      ensures dimensions == if canSystemComposite then Wrappers.Some(CompositedShape(path)) else Wrappers.None
      ensures paintBounds == EmptyRect && !needsSystemComposite && !NeedsPainting()
    {
      this.color := color;
      this.shadowColor := shadowColor;
      this.elevation := elevation;
      this.path := path;
      this.clipBehavior := clipBehavior;
      this.canSystemComposite := canSystemComposite;
      paintBounds := EmptyRect;
      needsSystemComposite := false;
      if canSystemComposite {
        dimensions := Wrappers.Some(CompositedShape(path));
      } else {
        dimensions := Wrappers.None;
      }
    }

    /** PhysicalShapeLayer::Preroll.  `baseBounds` and `baseComposite` are the
        paint bounds and compositing flag PhysicalShapeLayerBase::Preroll
        leaves; with the system compositor they stand, except that an opaque
        frame behind the layer empties the bounds.  Otherwise the children's
        bounds are ignored and the shape (and its shadow) decide. */
    method Preroll(isOpaque: bool, dpr: real, baseBounds: Rect, baseComposite: bool)
      modifies this
      ensures dimensions == old(dimensions)
      ensures canSystemComposite ==>
                paintBounds == (if isOpaque then EmptyRect else baseBounds) && needsSystemComposite == baseComposite
      ensures !canSystemComposite ==>
                paintBounds == ShapeBounds(path, elevation, dpr) && !needsSystemComposite
    {
      paintBounds := baseBounds;
      needsSystemComposite := baseComposite;
      if canSystemComposite {
        if isOpaque {
          paintBounds := EmptyRect;
        }
        return;
      }
      needsSystemComposite := false;
      paintBounds := path.Bounds();
      if elevation != 0.0 {
        paintBounds := ComputeShadowBounds(paintBounds, elevation, dpr);
      }
    }

    /** PhysicalShapeLayer::Paint on one canvas (the leaf and internal canvases
        of the paint context are the same recording canvas). */
    method Paint(canvas: Canvas, dpr: real)
      requires canvas.Valid() && NeedsPainting()
      modifies canvas
      ensures canvas.Valid() && canvas.stack == old(canvas.stack)
      ensures canvas.calls == old(canvas.calls) +
                PaintSequence(path, color, shadowColor, elevation, clipBehavior, paintBounds, dpr, old(canvas.Depth()))
    {
      ghost var d := canvas.Depth();
      ghost var shadow := if elevation != 0.0 then [DrawCall(d, DrawShadowOp(path, shadowColor, elevation, Alpha(color) != 0xff, dpr))] else [];
      ghost var fill := if clipBehavior != AntiAliasWithSaveLayer then [DrawCall(d, DrawPathOp(path, color))] else [];
      if elevation != 0.0 {
        canvas.Draw(DrawShadowOp(path, shadowColor, elevation, Alpha(color) != 0xff, dpr));
      }
      if clipBehavior != AntiAliasWithSaveLayer {
        canvas.Draw(DrawPathOp(path, color));
      }
      assert canvas.calls == old(canvas.calls) + shadow + fill;
      PaintClipped(canvas);
    }

    /** The part of Paint from the save on: clip per behaviour, the layer and
        the fill for antiAliasWithSaveLayer, the children, restoreToCount. */
    method PaintClipped(canvas: Canvas)
      requires canvas.Valid()
      modifies canvas
      ensures canvas.Valid() && canvas.stack == old(canvas.stack)
      ensures canvas.calls == old(canvas.calls) + ClippedCalls(path, color, clipBehavior, paintBounds, old(canvas.Depth()))
    {
      ghost var stack0 := canvas.stack;
      ghost var d := canvas.Depth();
      var saveCount := canvas.Save();
      ApplyClip(canvas);
      ghost var stack1 := canvas.stack;
      if clipBehavior == AntiAliasWithSaveLayer {
        canvas.Draw(DrawPaintOp(color));
      }
      canvas.Draw(PaintChildrenOp);
      ghost var calls2 := canvas.calls;
      assert stack0 == stack0[..|stack0| - 1] + [stack0[|stack0| - 1]];
      assert canvas.SaveCount() == saveCount + (if clipBehavior == AntiAliasWithSaveLayer then 2 else 1);
      CloseClip(clipBehavior, canvas, saveCount, stack0);
      assert calls2 + Closing(clipBehavior, d) == old(canvas.calls) + ClippedCalls(path, color, clipBehavior, paintBounds, d);
    }

    /** The clip switch of Paint, right after its save: a clip realizes the
        deferred save; antiAliasWithSaveLayer also opens a layer with the
        paint bounds. */
    method ApplyClip(canvas: Canvas)
      requires canvas.Valid() && canvas.stack[|canvas.stack| - 1] > 0
      modifies canvas
      ensures canvas.Valid()
      ensures var d := old(canvas.Depth());
              var saved := old(canvas.stack[..|canvas.stack| - 1]) + [old(canvas.stack[|canvas.stack| - 1]) - 1, 0];
              match clipBehavior
              case NoClip =>
                canvas.calls == old(canvas.calls) && canvas.stack == old(canvas.stack) &&
                canvas.SaveCount() == old(canvas.SaveCount())
              case HardEdge =>
                canvas.calls == old(canvas.calls) + [DrawCall(d, SaveOp(d + 1)), DrawCall(d + 1, ClipPathOp(path, false))] &&
                canvas.stack == saved && canvas.SaveCount() == old(canvas.SaveCount())
              case AntiAlias =>
                canvas.calls == old(canvas.calls) + [DrawCall(d, SaveOp(d + 1)), DrawCall(d + 1, ClipPathOp(path, true))] &&
                canvas.stack == saved && canvas.SaveCount() == old(canvas.SaveCount())
              case AntiAliasWithSaveLayer =>
                canvas.calls == old(canvas.calls) + [DrawCall(d, SaveOp(d + 1)), DrawCall(d + 1, ClipPathOp(path, true)),
                                                     DrawCall(d + 1, SaveLayerOp(paintBounds, d + 2))] &&
                canvas.stack == saved + [0] && canvas.SaveCount() == old(canvas.SaveCount()) + 1
    {
      match clipBehavior {
        case HardEdge =>
          canvas.ClipPath(path, false);
        case AntiAlias =>
          canvas.ClipPath(path, true);
        case AntiAliasWithSaveLayer =>
          canvas.ClipPath(path, true);
          var _ := canvas.SaveLayer(paintBounds);
        case NoClip =>
      }
    }
  }
}
