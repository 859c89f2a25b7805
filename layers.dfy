/** The layer tree of the flow library as far as transform, texture, container
    and the test-only mock layer go.

    A layer is a value here.  Layer::Preroll stores the layer's paint bounds
    (in its parent's coordinates) and, for the mock layer, the matrix, cull
    rect and mutator stack it saw; Preroll below returns the same tree with
    those fields filled in.  Layer::Paint draws into a canvas and into the
    textures of a texture registry, which are objects; Paint below is a method
    over those objects, proved against the PaintCalls and TexturePaints
    functions.

    Every layer carries `id`, the identity of the C++ object, and `originId`,
    the identity of the layer it was derived from (its own id until
    AssignOldLayer copies another layer's), which the diff uses to pair old
    and new layers. */
module Layers {
  import opened Geometry
  import opened Canvas

  /** SkFilterMode of an SkSamplingOptions. */
  datatype FilterMode = Nearest | Linear

  /** SkSamplingOptions; the default is nearest-neighbour. */
  datatype Sampling = Sampling(filter: FilterMode)

  datatype Point = Point(x: real, y: real)

  /** kGiantRect: the cull rect a child gets under a non-invertible transform. */
  const GiantRect := Rect(-1000000000.0, -1000000000.0, 1000000000.0, 1000000000.0)

  datatype Layer =
      /** MockLayer: draws one path and records what Preroll saw. */
    | MockLayer(id: nat, originId: nat, path: Path, color: Color, bounds: Rect,
                parentMatrix: Matrix, parentCull: Rect, parentMutators: seq<Matrix>)
    | TransformLayer(id: nat, originId: nat, transform: Matrix, children: seq<Layer>, bounds: Rect)
    | ContainerLayer(id: nat, originId: nat, children: seq<Layer>, bounds: Rect)
    | TextureLayer(id: nat, originId: nat, offset: Point, size: Size, textureId: int,
                   freeze: bool, sampling: Sampling, bounds: Rect)
  {
    /** Layer::needs_painting: the paint bounds are not empty. */
    predicate NeedsPainting() {
      !bounds.IsEmpty()
    }
  }

  /** The layer constructors: paint bounds start empty and a layer is its own origin. */
  function NewMockLayer(id: nat, path: Path, color: Color): (l: Layer)
    ensures l.MockLayer? && l.id == id && l.originId == id && !l.NeedsPainting()
  {
    MockLayer(id, id, path, color, EmptyRect, Identity, EmptyRect, [])
  }

  function NewTransformLayer(id: nat, transform: Matrix, children: seq<Layer>): (l: Layer)
    ensures l.TransformLayer? && l.id == id && l.originId == id && !l.NeedsPainting()
  {
    TransformLayer(id, id, transform, children, EmptyRect)
  }

  function NewContainerLayer(id: nat, children: seq<Layer>): (l: Layer)
    ensures l.ContainerLayer? && l.id == id && l.originId == id && !l.NeedsPainting()
  {
    ContainerLayer(id, id, children, EmptyRect)
  }

  function NewTextureLayer(id: nat, offset: Point, size: Size, textureId: int, freeze: bool, sampling: Sampling): (l: Layer)
    ensures l.TextureLayer? && l.id == id && l.originId == id && !l.NeedsPainting()
  {
    TextureLayer(id, id, offset, size, textureId, freeze, sampling, EmptyRect)
  }

  /** Layer::AssignOldLayer: the layer now counts as a new version of `previous`. */
  function AssignOldLayer(l: Layer, previous: Layer): (r: Layer)
    ensures r.originId == previous.originId && r.id == l.id
  {
    l.(originId := previous.originId)
  }

  /** Layer::IsReplacing: a texture layer replaces any texture layer; every
      other layer replaces exactly the layers with the same origin. */
  predicate IsReplacing(l: Layer, previous: Layer) {
    if l.TextureLayer? then previous.TextureLayer? else l.originId == previous.originId
  }

  /** The paint bounds of each layer of a list. */
  function BoundsOf(ls: seq<Layer>): (bs: seq<Rect>)
    ensures |bs| == |ls| && forall i :: 0 <= i < |ls| ==> bs[i] == ls[i].bounds
  {
    seq(|ls|, i requires 0 <= i < |ls| => ls[i].bounds)
  }

  /** The cull rect a transform hands its children. */
  function ChildCull(m: Matrix, cull: Rect): Rect {
    if m.IsInvertible() then m.Inverse().MapRect(cull) else GiantRect
  }

  /** Layer::Preroll under `matrix`, with the context's cull rect and mutator
      stack (innermost mutator first). */
  function Preroll(l: Layer, matrix: Matrix, cull: Rect, mutators: seq<Matrix>): (r: Layer)
    ensures r.id == l.id && r.originId == l.originId
    ensures l.MockLayer? <==> r.MockLayer?
    ensures l.TransformLayer? <==> r.TransformLayer?
    ensures l.ContainerLayer? <==> r.ContainerLayer?
    ensures l.TextureLayer? <==> r.TextureLayer?
    ensures (l.TransformLayer? || l.ContainerLayer?) ==> |r.children| == |l.children|
    decreases l
  {
    match l
    case MockLayer(id, originId, path, color, _, _, _, _) =>
      MockLayer(id, originId, path, color, path.Bounds(), matrix, cull, mutators)
    case TransformLayer(id, originId, m, cs, _) =>
      // the children see the concatenated matrix, the cull rect mapped back
      // through the inverse, and the transform pushed on the mutator stack;
      // the layer's bounds are the joined child bounds mapped by the transform
      var pcs := seq(|cs|, i requires 0 <= i < |cs| =>
                       Preroll(cs[i], Concat(matrix, m), ChildCull(m, cull), [m] + mutators));
      TransformLayer(id, originId, m, pcs, m.MapRect(JoinAll(BoundsOf(pcs))))
    case ContainerLayer(id, originId, cs, _) =>
      var pcs := seq(|cs|, i requires 0 <= i < |cs| => Preroll(cs[i], matrix, cull, mutators));
      ContainerLayer(id, originId, pcs, JoinAll(BoundsOf(pcs)))
    case TextureLayer(id, originId, offset, size, textureId, freeze, sampling, _) =>
      TextureLayer(id, originId, offset, size, textureId, freeze, sampling,
                   MakeXYWH(offset.x, offset.y, size.width, size.height))
  }

  /** The calls Paint makes on the canvas, starting at depth `depth`. */
  function PaintCalls(l: Layer, depth: nat): seq<DrawCall>
    decreases l
  {
    match l
    case MockLayer(_, _, path, color, _, _, _, _) => [DrawCall(depth, DrawPathOp(path, color))]
    case TransformLayer(_, _, m, cs, _) =>
      // concat(identity) changes nothing, so the save stays deferred and is
      // dropped again by the restore
      if m == Identity then ChildrenCalls(cs, depth)
      else [DrawCall(depth, SaveOp(depth + 1)), DrawCall(depth + 1, ConcatOp(m))]
           + ChildrenCalls(cs, depth + 1) + [DrawCall(depth + 1, RestoreOp(depth))]
    case ContainerLayer(_, _, cs, _) => ChildrenCalls(cs, depth)
    case TextureLayer(_, _, _, _, _, _, _, _) => []
  }

  /** ContainerLayer::PaintChildren: the calls of every child that needs painting, in order. */
  function ChildrenCalls(cs: seq<Layer>, depth: nat): seq<DrawCall>
    decreases cs
  {
    if |cs| == 0 then []
    else ChildrenCalls(cs[..|cs| - 1], depth)
         + (if cs[|cs| - 1].NeedsPainting() then PaintCalls(cs[|cs| - 1], depth) else [])
  }

  /** One call of Texture::Paint (the canvas and graphics context it also
      receives are not recorded). */
  datatype TexturePaint = TexturePaint(bounds: Rect, freeze: bool, sampling: Sampling)

  /** The paint calls Paint makes on the texture registered under `textureId`. */
  function TexturePaints(l: Layer, textureId: int): seq<TexturePaint>
    decreases l
  {
    match l
    case MockLayer(_, _, _, _, _, _, _, _) => []
    case TransformLayer(_, _, _, cs, _) => ChildrenTexturePaints(cs, textureId)
    case ContainerLayer(_, _, cs, _) => ChildrenTexturePaints(cs, textureId)
    case TextureLayer(_, _, _, _, tid, freeze, sampling, bounds) =>
      if tid == textureId then [TexturePaint(bounds, freeze, sampling)] else []
  }

  function ChildrenTexturePaints(cs: seq<Layer>, textureId: int): seq<TexturePaint>
    decreases cs
  {
    if |cs| == 0 then []
    else ChildrenTexturePaints(cs[..|cs| - 1], textureId)
         + (if cs[|cs| - 1].NeedsPainting() then TexturePaints(cs[|cs| - 1], textureId) else [])
  }

  /** A registered texture; the test double records its paint calls. */
  class Texture {
    const id: int
    var paintCalls: seq<TexturePaint>

    constructor (id: int)
      ensures this.id == id && paintCalls == []
    {
      this.id := id;
      paintCalls := [];
    }

    method Paint(bounds: Rect, freeze: bool, sampling: Sampling)
      modifies this
      ensures paintCalls == old(paintCalls) + [TexturePaint(bounds, freeze, sampling)]
    {
      paintCalls := paintCalls + [TexturePaint(bounds, freeze, sampling)];
    }
  }

  /** TextureRegistry: every texture is registered under its own id. */
  predicate RegistryValid(registry: map<int, Texture>) {
    forall tid | tid in registry :: registry[tid].id == tid
  }

  /** Layer::Paint, which a layer may only receive when it needs painting. */
  method Paint(l: Layer, canvas: Canvas, registry: map<int, Texture>)
    requires canvas.Valid() && RegistryValid(registry)
    requires l.NeedsPainting()
    modifies canvas, registry.Values
    ensures canvas.Valid() && canvas.stack == old(canvas.stack)
    ensures canvas.calls == old(canvas.calls) + PaintCalls(l, old(canvas.Depth()))
    ensures forall tid | tid in registry ::
              registry[tid].paintCalls == old(registry[tid].paintCalls) + TexturePaints(l, tid)
    decreases l
  {
    match l
    case MockLayer(_, _, path, color, _, _, _, _) =>
      canvas.Draw(DrawPathOp(path, color));
    case TransformLayer(_, _, m, cs, _) =>
      PaintTransform(m, cs, canvas, registry);
    case ContainerLayer(_, _, cs, _) =>
      PaintChildren(cs, canvas, registry);
    case TextureLayer(_, _, _, _, tid, freeze, sampling, bounds) =>
      if tid in registry {
        registry[tid].Paint(bounds, freeze, sampling);
      }
  }

  /** TransformLayer::Paint: save, concat the transform, paint the children,
      restore to the saved count. */
  method PaintTransform(m: Matrix, cs: seq<Layer>, canvas: Canvas, registry: map<int, Texture>)
    requires canvas.Valid() && RegistryValid(registry)
    modifies canvas, registry.Values
    ensures canvas.Valid() && canvas.stack == old(canvas.stack)
    ensures canvas.calls == old(canvas.calls) + PaintCalls(TransformLayer(0, 0, m, cs, EmptyRect), old(canvas.Depth()))
    ensures forall tid | tid in registry ::
              registry[tid].paintCalls == old(registry[tid].paintCalls) + ChildrenTexturePaints(cs, tid)
    decreases cs, 1
  {
    ghost var stack0 := canvas.stack;
    var count := OpenTransform(m, canvas);
    PaintChildren(cs, canvas, registry);
    CloseTransform(m, canvas, count, stack0);
  }

  /** The save and concat that open TransformLayer::Paint: nothing is logged
      for the identity, whose save stays deferred; otherwise the save is
      realized by the concat. */
  method OpenTransform(m: Matrix, canvas: Canvas) returns (count: nat)
    requires canvas.Valid()
    modifies canvas
    ensures canvas.Valid() && count == old(canvas.SaveCount()) && canvas.SaveCount() == count + 1
    ensures m == Identity ==>
              canvas.calls == old(canvas.calls) &&
              canvas.stack == old(canvas.stack[..|canvas.stack| - 1]) + [old(canvas.stack[|canvas.stack| - 1]) + 1]
    ensures m != Identity ==>
              canvas.calls == old(canvas.calls) + [DrawCall(old(canvas.Depth()), SaveOp(old(canvas.Depth()) + 1)),
                                                   DrawCall(old(canvas.Depth()) + 1, ConcatOp(m))] &&
              canvas.stack == old(canvas.stack) + [0]
  {
    ghost var stack0 := canvas.stack;
    count := canvas.Save();
    canvas.Concat(m);
    if m != Identity {
      assert stack0 == stack0[..|stack0| - 1] + [stack0[|stack0| - 1]];
    }
  }

  /** The restoreToCount that closes TransformLayer::Paint: it drops a
      deferred save silently and logs the restore of a realized one. */
  method CloseTransform(m: Matrix, canvas: Canvas, count: nat, ghost stack0: seq<nat>)
    requires canvas.Valid() && |stack0| >= 1 && canvas.SaveCount() == count + 1
    requires m == Identity ==> canvas.stack == stack0[..|stack0| - 1] + [stack0[|stack0| - 1] + 1]
    requires m != Identity ==> canvas.stack == stack0 + [0]
    modifies canvas
    ensures canvas.Valid() && canvas.stack == stack0
    ensures canvas.calls == old(canvas.calls) + if m == Identity then [] else [DrawCall(|stack0|, RestoreOp(|stack0| - 1))]
  {
    canvas.RestoreToCount(count);
    if m == Identity {
      DeferredSaveRestoresSilently(stack0);
    } else {
      RealizedSaveRestoresOnce(stack0);
    }
  }

  /** ContainerLayer::PaintChildren: paints, in order, each child that needs painting. */
  method PaintChildren(cs: seq<Layer>, canvas: Canvas, registry: map<int, Texture>)
    requires canvas.Valid() && RegistryValid(registry)
    modifies canvas, registry.Values
    ensures canvas.Valid() && canvas.stack == old(canvas.stack)
    ensures canvas.calls == old(canvas.calls) + ChildrenCalls(cs, old(canvas.Depth()))
    ensures forall tid | tid in registry ::
              registry[tid].paintCalls == old(registry[tid].paintCalls) + ChildrenTexturePaints(cs, tid)
    decreases cs, 0
  {
    var i := 0;
    while i < |cs|
      invariant 0 <= i <= |cs|
      invariant canvas.Valid() && canvas.stack == old(canvas.stack)
      invariant canvas.calls == old(canvas.calls) + ChildrenCalls(cs[..i], old(canvas.Depth()))
      invariant forall tid | tid in registry ::
                  registry[tid].paintCalls == old(registry[tid].paintCalls) + ChildrenTexturePaints(cs[..i], tid)
    {
      assert cs[..i + 1][..i] == cs[..i];
      if cs[i].NeedsPainting() {
        Paint(cs[i], canvas, registry);
      }
      i := i + 1;
    }
    assert cs[..|cs|] == cs;
  }
}

/** What the layer tests assert about Preroll and Paint of transform and
    texture layers, proved for all inputs. */
module LayerProperties {
  import opened Geometry
  import opened Canvas
  import opened Layers

  /** JoinAll of one non-empty rect is that rect. */
  lemma JoinAllSingle(r: Rect)
    requires !r.IsEmpty()
    ensures JoinAll([r]) == r
  {
    assert [r][..0] == [];
  }

  /** JoinAll yields either EmptyRect or a non-empty rect, so it is sorted. */
  lemma JoinAllSorted(rs: seq<Rect>)
    ensures JoinAll(rs).IsSorted()
  {
    JoinAllIsLeastBound(rs, EmptyRect);
  }

  /** A transform's bounds hold the mapped bounds of every child that needs
      painting; the transform needs painting only if some child does, and
      when it is invertible, exactly when some child does. */
  lemma TransformBoundsCoverChildren(l: Layer, matrix: Matrix, cull: Rect, mutators: seq<Matrix>)
    requires l.TransformLayer?
    ensures var r := Preroll(l, matrix, cull, mutators);
            (forall i :: 0 <= i < |r.children| && r.children[i].NeedsPainting() ==>
               r.bounds.Contains(l.transform.MapRect(r.children[i].bounds))) &&
            (r.NeedsPainting() ==> exists i :: 0 <= i < |r.children| && r.children[i].NeedsPainting()) &&
            (l.transform.IsInvertible() ==>
               (r.NeedsPainting() <==> exists i :: 0 <= i < |r.children| && r.children[i].NeedsPainting()))
  {
    var r := Preroll(l, matrix, cull, mutators);
    var bs := BoundsOf(r.children);
    var j := JoinAll(bs);
    JoinAllIsLeastBound(bs, j);
    JoinAllSorted(bs);
    assert r.bounds == l.transform.MapRect(j);
    forall i | 0 <= i < |r.children| && r.children[i].NeedsPainting()
      ensures r.bounds.Contains(l.transform.MapRect(r.children[i].bounds))
    {
      assert !bs[i].IsEmpty();
      MapRectMonotone(l.transform, bs[i], j);
    }
    MapRectEmptiness(l.transform, j);
  }

  /** A transform with no children has empty bounds, so it needs no painting
      and Paint may not be called on it. */
  lemma EmptyTransformNeedsNoPainting(id: nat, m: Matrix, matrix: Matrix, cull: Rect, mutators: seq<Matrix>)
    ensures !Preroll(NewTransformLayer(id, m, []), matrix, cull, mutators).NeedsPainting()
  {
    MapRectEmptiness(m, EmptyRect);
  }

  /** The identity transform hands its child the parent's matrix and cull rect
      unchanged (pushing the identity as a mutator), takes the child's bounds,
      and paints nothing but the child. */
  lemma IdentityTransformIsTransparent(id: nat, child: Layer, matrix: Matrix, cull: Rect,
                                       mutators: seq<Matrix>, depth: nat)
    requires child.MockLayer? && !child.path.Bounds().IsEmpty() && cull.IsSorted()
    ensures var r := Preroll(NewTransformLayer(id, Identity, [child]), matrix, cull, mutators);
            var c := r.children[0];
            c.parentMatrix == matrix && c.parentCull == cull && c.parentMutators == [Identity] + mutators &&
            c.bounds == child.path.Bounds() && r.bounds == c.bounds &&
            PaintCalls(r, depth) == [DrawCall(depth, DrawPathOp(child.path, child.color))]
  {
    var c := Preroll(child, Concat(matrix, Identity), ChildCull(Identity, cull), [Identity] + mutators);
    assert c.bounds == child.path.Bounds();
    TransformOfOneChild(id, Identity, child, matrix, cull, mutators, depth);
    ConcatIdentity(matrix);
    MapRectIdentity(cull);
    assert Identity.Inverse() == Identity;
    MapRectIdentity(c.bounds);
  }

  /** Painting the children of a one-child list paints that child, if it
      needs painting. */
  lemma ChildrenCallsSingle(c: Layer, depth: nat)
    requires c.NeedsPainting()
    ensures ChildrenCalls([c], depth) == PaintCalls(c, depth)
  {
    assert [c][..0] == [];
  }

  /** A transform over one child prerolls that child in the transform's
      context (the concatenated matrix, the mapped-back cull rect, the
      transform pushed on the mutator stack). */
  lemma PrerollOneChild(id: nat, m: Matrix, child: Layer, matrix: Matrix, cull: Rect,
                        mutators: seq<Matrix>)
    ensures var r := Preroll(NewTransformLayer(id, m, [child]), matrix, cull, mutators);
            r.children == [Preroll(child, Concat(matrix, m), ChildCull(m, cull), [m] + mutators)]
  {
    var r := Preroll(NewTransformLayer(id, m, [child]), matrix, cull, mutators);
    assert |r.children| == 1;
    assert r.children[0] == Preroll(child, Concat(matrix, m), ChildCull(m, cull), [m] + mutators);
  }

  /** A transform over one child that needs painting takes the child's bounds
      mapped by the transform, and paints the child between one save/concat
      and one restore (none of them when the transform is the identity). */
  lemma TransformOfOneChild(id: nat, m: Matrix, child: Layer, matrix: Matrix, cull: Rect,
                            mutators: seq<Matrix>, depth: nat)
    requires Preroll(child, Concat(matrix, m), ChildCull(m, cull), [m] + mutators).NeedsPainting()
    ensures var r := Preroll(NewTransformLayer(id, m, [child]), matrix, cull, mutators);
            var c := Preroll(child, Concat(matrix, m), ChildCull(m, cull), [m] + mutators);
            r.children == [c] && r.bounds == m.MapRect(c.bounds) &&
            (m == Identity ==> PaintCalls(r, depth) == PaintCalls(c, depth)) &&
            (m != Identity ==>
               PaintCalls(r, depth) ==
                 [DrawCall(depth, SaveOp(depth + 1)), DrawCall(depth + 1, ConcatOp(m))]
                 + PaintCalls(c, depth + 1) + [DrawCall(depth + 1, RestoreOp(depth))])
  {
    var c := Preroll(child, Concat(matrix, m), ChildCull(m, cull), [m] + mutators);
    PrerollOneChild(id, m, child, matrix, cull, mutators);
    assert BoundsOf([c]) == [c.bounds];
    JoinAllSingle(c.bounds);
    ChildrenCallsSingle(c, depth);
    ChildrenCallsSingle(c, depth + 1);
  }

  /** A child under one transform M records Concat(parent, M), the cull rect
      mapped through M's inverse (the giant rect if M has none) and M on its
      mutator stack; the transform's bounds are the child's mapped by M; and
      painting is save, concat(M), the child, restore, one level deeper. */
  lemma TransformPrerollAndPaint(id: nat, m: Matrix, child: Layer, matrix: Matrix, cull: Rect,
                                 mutators: seq<Matrix>, depth: nat)
    requires child.MockLayer? && !child.path.Bounds().IsEmpty() && m != Identity
    ensures var r := Preroll(NewTransformLayer(id, m, [child]), matrix, cull, mutators);
            var c := r.children[0];
            c.parentMatrix == Concat(matrix, m) &&
            (m.IsInvertible() ==> c.parentCull == m.Inverse().MapRect(cull)) &&
            (!m.IsInvertible() ==> c.parentCull == GiantRect) &&
            c.parentMutators == [m] + mutators &&
            c.bounds == child.path.Bounds() && r.bounds == m.MapRect(c.bounds) &&
            PaintCalls(r, depth) ==
              [DrawCall(depth, SaveOp(depth + 1)), DrawCall(depth + 1, ConcatOp(m)),
               DrawCall(depth + 1, DrawPathOp(child.path, child.color)),
               DrawCall(depth + 1, RestoreOp(depth))]
  {
    var c := Preroll(child, Concat(matrix, m), ChildCull(m, cull), [m] + mutators);
    assert c.bounds == child.path.Bounds();
    TransformOfOneChild(id, m, child, matrix, cull, mutators, depth);
  }

  /** The matrix facts behind nesting: the product of the matrices, the
      inverse of the product and the mapping of a rect through both. */
  lemma NestedMatrices(matrix: Matrix, a: Matrix, b: Matrix, cull: Rect, r: Rect)
    requires a.IsInvertible() && b.IsInvertible()
    ensures Concat(Concat(matrix, a), b) == Concat(matrix, Concat(a, b))
    ensures b.Inverse().MapRect(a.Inverse().MapRect(cull)) == Concat(a, b).Inverse().MapRect(cull)
    ensures a.MapRect(b.MapRect(r)) == Concat(a, b).MapRect(r)
  {
    ConcatAssociative(matrix, a, b);
    InverseConcat(a, b);
    MapRectConcat(b.Inverse(), a.Inverse(), cull);
    MapRectConcat(a, b, r);
  }

  /** Two nested transforms A and B act as their product: the child records
      Concat(Concat(parent, A), B) = Concat(parent, Concat(A, B)), the cull rect
      mapped back through both inverses, both mutators innermost first; the
      outer bounds are the child's mapped by Concat(A, B). */
  lemma NestedTransformsCompose(id1: nat, id2: nat, a: Matrix, b: Matrix, child: Layer,
                                matrix: Matrix, cull: Rect, mutators: seq<Matrix>)
    requires child.MockLayer? && !child.path.Bounds().IsEmpty()
    requires a.IsInvertible() && b.IsInvertible() && b != Identity
    ensures var pb := child.path.Bounds();
            var ab := Concat(a, b);
            Preroll(NewTransformLayer(id1, a, [NewTransformLayer(id2, b, [child])]), matrix, cull, mutators)
            == TransformLayer(id1, id1, a,
                 [TransformLayer(id2, id2, b,
                    [MockLayer(child.id, child.originId, child.path, child.color, pb,
                               Concat(matrix, ab), ab.Inverse().MapRect(cull), [b, a] + mutators)],
                    b.MapRect(pb))],
                 ab.MapRect(pb))
  {
    var pb := child.path.Bounds();
    var ab := Concat(a, b);
    var m1 := Concat(matrix, a);
    var cull1 := ChildCull(a, cull);
    var innerLayer := NewTransformLayer(id2, b, [child]);
    var c := MockLayer(child.id, child.originId, child.path, child.color, pb,
                       Concat(matrix, ab), ab.Inverse().MapRect(cull), [b, a] + mutators);
    var inner := TransformLayer(id2, id2, b, [c], b.MapRect(pb));
    assert Preroll(child, Concat(m1, b), ChildCull(b, cull1), [b] + ([a] + mutators)) == c by {
      NestedMatrices(matrix, a, b, cull, pb);
      assert [b] + ([a] + mutators) == [b, a] + mutators;
    }
    assert Preroll(innerLayer, m1, cull1, [a] + mutators) == inner by {
      TransformOfOneChild(id2, b, child, m1, cull1, [a] + mutators, 0);
    }
    assert a.MapRect(inner.bounds) == ab.MapRect(pb) by {
      NestedMatrices(matrix, a, b, cull, pb);
    }
    assert inner.NeedsPainting() by {
      MapRectEmptiness(b, pb);
    }
    TransformOfOneChild(id1, a, innerLayer, matrix, cull, mutators, 0);
  }

  /** Painting two nested non-identity transforms nests the
      save/concat/restore brackets one level per transform around the child. */
  lemma NestedTransformsPaint(id1: nat, id2: nat, a: Matrix, b: Matrix, child: Layer,
                              matrix: Matrix, cull: Rect, mutators: seq<Matrix>, depth: nat)
    requires child.MockLayer? && !child.path.Bounds().IsEmpty()
    requires a.IsInvertible() && b.IsInvertible() && a != Identity && b != Identity
    ensures var r := Preroll(NewTransformLayer(id1, a, [NewTransformLayer(id2, b, [child])]), matrix, cull, mutators);
            PaintCalls(r, depth) ==
              [DrawCall(depth, SaveOp(depth + 1)), DrawCall(depth + 1, ConcatOp(a)),
               DrawCall(depth + 1, SaveOp(depth + 2)), DrawCall(depth + 2, ConcatOp(b)),
               DrawCall(depth + 2, DrawPathOp(child.path, child.color)),
               DrawCall(depth + 2, RestoreOp(depth + 1)), DrawCall(depth + 1, RestoreOp(depth))]
  {
    var pb := child.path.Bounds();
    var m1 := Concat(matrix, a);
    var cull1 := a.Inverse().MapRect(cull);
    var innerLayer := NewTransformLayer(id2, b, [child]);
    var inner := Preroll(innerLayer, m1, cull1, [a] + mutators);
    TransformPrerollAndPaint(id2, b, child, m1, cull1, [a] + mutators, depth + 1);
    MapRectEmptiness(b, pb);
    assert inner.NeedsPainting();
    TransformOfOneChild(id1, a, innerLayer, matrix, cull, mutators, depth);
  }

  /** Every call Paint makes happens at or below the depth it started at. */
  lemma {:induction false} PaintCallsStayAtOrBelow(l: Layer, depth: nat)
    ensures forall k :: 0 <= k < |PaintCalls(l, depth)| ==> PaintCalls(l, depth)[k].depth >= depth
    decreases l, 1
  {
    match l
    case MockLayer(_, _, _, _, _, _, _, _) =>
    case TransformLayer(_, _, m, cs, _) =>
      ChildrenCallsStayAtOrBelow(cs, depth);
      ChildrenCallsStayAtOrBelow(cs, depth + 1);
    case ContainerLayer(_, _, cs, _) =>
      ChildrenCallsStayAtOrBelow(cs, depth);
    case TextureLayer(_, _, _, _, _, _, _, _) =>
  }

  lemma {:induction false} ChildrenCallsStayAtOrBelow(cs: seq<Layer>, depth: nat)
    ensures forall k :: 0 <= k < |ChildrenCalls(cs, depth)| ==> ChildrenCalls(cs, depth)[k].depth >= depth
    decreases cs, 0
  {
    if |cs| > 0 {
      ChildrenCallsStayAtOrBelow(cs[..|cs| - 1], depth);
      PaintCallsStayAtOrBelow(cs[|cs| - 1], depth);
    }
  }

  /** A texture layer's bounds are its size placed at its offset; it needs
      painting exactly when both sides are positive. */
  lemma TexturePrerollBounds(l: Layer, matrix: Matrix, cull: Rect, mutators: seq<Matrix>)
    requires l.TextureLayer?
    ensures var r := Preroll(l, matrix, cull, mutators);
            r.bounds == MakeSize(l.size).Offset(l.offset.x, l.offset.y) &&
            (r.NeedsPainting() <==> l.size.width > 0.0 && l.size.height > 0.0)
  {
    var b := MakeSize(l.size).Offset(l.offset.x, l.offset.y);
    assert b.right == l.offset.x + l.size.width && b.bottom == l.offset.y + l.size.height;
  }

  /** A texture layer painted after Preroll: the canvas receives no calls; the
      texture registered under its id, if any, receives exactly one paint call
      with the paint bounds, the freeze flag and the sampling. */
  method PaintTextureLayer(offset: Point, size: Size, textureId: int, freeze: bool, sampling: Sampling,
                           registered: bool)
    returns (canvasCalls: seq<DrawCall>, texturePaints: seq<TexturePaint>)
    requires size.width > 0.0 && size.height > 0.0
    ensures canvasCalls == []
    ensures registered ==>
              texturePaints == [TexturePaint(MakeSize(size).Offset(offset.x, offset.y), freeze, sampling)]
    ensures !registered ==> texturePaints == []
  {
    var canvas := new Canvas();
    var texture := new Texture(textureId);
    var registry: map<int, Texture> := if registered then map[textureId := texture] else map[];
    var layer := Preroll(NewTextureLayer(0, offset, size, textureId, freeze, sampling), Identity, EmptyRect, []);
    TexturePrerollBounds(NewTextureLayer(0, offset, size, textureId, freeze, sampling), Identity, EmptyRect, []);
    assert PaintCalls(layer, 0) == [];
    Paint(layer, canvas, registry);
    assert registered ==> textureId in registry;
    canvasCalls := canvas.calls;
    texturePaints := texture.paintCalls;
  }
}
