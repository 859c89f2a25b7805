/** Damage computation between two frames' layer trees, as the transform
    layer diff tests pin it down.

    A layer's footprint is the list of screen rects its leaves paint: a mock
    layer its path bounds, a texture layer its size at its offset, both
    mapped by the matrix accumulated from the transforms above it.

    The children of two matched containers are paired the way the engine's
    container diff pairs them: the longest common prefix and then the longest
    common suffix of layers that replace one another (Layers.IsReplacing).
    - An old child left unpaired damages its whole old footprint.
    - A new child left unpaired damages its whole new footprint.
    - A pair that is the same layer object is retained and damages nothing.
    - Any other pair is diffed: a mock layer whose path is unchanged, a
      transform whose matrix is unchanged or a container damage only what
      their children's diff damages; anything else (a changed path or matrix,
      a texture, a change of kind) damages its old and its new footprint.

    The same layer object has the same id, and a layer keeps its own id when
    AssignOldLayer makes it a new version of another, so object identity is
    `id` equality. */
module LayerDiff {
  import opened Geometry
  import opened Canvas
  import opened Layers

  /** The screen rects the leaves of `l` paint under `m`. */
  function Footprint(l: Layer, m: Matrix): seq<Rect>
    decreases l
  {
    match l
    case MockLayer(_, _, path, _, _, _, _, _) => [m.MapRect(path.Bounds())]
    case TransformLayer(_, _, t, cs, _) => FootprintAll(cs, Concat(m, t))
    case ContainerLayer(_, _, cs, _) => FootprintAll(cs, m)
    case TextureLayer(_, _, offset, size, _, _, _, _) =>
      [m.MapRect(MakeXYWH(offset.x, offset.y, size.width, size.height))]
  }

  /** The footprints of a list of layers, in order. */
  function FootprintAll(cs: seq<Layer>, m: Matrix): seq<Rect>
    decreases cs
  {
    if |cs| == 0 then [] else Footprint(cs[0], m) + FootprintAll(cs[1..], m)
  }

  /** The length of the longest common prefix of layers that replace their
      old counterparts. */
  function CommonPrefix(ns: seq<Layer>, os: seq<Layer>): (p: nat)
    ensures p <= |ns| && p <= |os|
    ensures forall i :: 0 <= i < p ==> IsReplacing(ns[i], os[i])
    ensures p < |ns| && p < |os| ==> !IsReplacing(ns[p], os[p])
    decreases |ns|
  {
    if |ns| == 0 || |os| == 0 || !IsReplacing(ns[0], os[0]) then 0
    else 1 + CommonPrefix(ns[1..], os[1..])
  }

  /** The length, at most `limit`, of the longest common suffix of layers
      that replace their old counterparts. */
  function CommonSuffix(ns: seq<Layer>, os: seq<Layer>, limit: nat): (s: nat)
    requires limit <= |ns| && limit <= |os|
    ensures s <= limit
    ensures forall j :: |ns| - s <= j < |ns| ==> IsReplacing(ns[j], os[j + |os| - |ns|])
    ensures s < limit ==> !IsReplacing(ns[|ns| - 1 - s], os[|os| - 1 - s])
    decreases limit
  {
    if limit == 0 || !IsReplacing(ns[|ns| - 1], os[|os| - 1]) then 0
    else
      var r := CommonSuffix(ns[..|ns| - 1], os[..|os| - 1], limit - 1);
      assert forall j :: |ns| - 1 - r <= j < |ns| - 1 ==> ns[..|ns| - 1][j] == ns[j];
      1 + r
  }

  /** The damage of a new layer paired with the old layer it replaces. */
  function DiffLayer(n: Layer, o: Layer, m: Matrix): seq<Rect>
    decreases n, 0
  {
    match n
    case MockLayer(_, _, path, _, _, _, _, _) =>
      if o.MockLayer? && o.path == path then [] else Footprint(o, m) + Footprint(n, m)
    case TransformLayer(_, _, t, cs, _) =>
      if o.TransformLayer? && o.transform == t then DiffChildren(cs, o.children, Concat(m, t))
      else Footprint(o, m) + Footprint(n, m)
    case ContainerLayer(_, _, cs, _) =>
      if o.ContainerLayer? then DiffChildren(cs, o.children, m) else Footprint(o, m) + Footprint(n, m)
    case TextureLayer(_, _, _, _, _, _, _, _) =>
      // a texture's content can change behind the layer's back
      Footprint(o, m) + Footprint(n, m)
  }

  /** The damage of two children lists: the unpaired old children's
      footprints, then what each new child contributes in order. */
  function DiffChildren(ns: seq<Layer>, os: seq<Layer>, m: Matrix): seq<Rect>
    decreases ns, |ns| + 1
  {
    var p := CommonPrefix(ns, os);
    var s := CommonSuffix(ns, os, SuffixLimit(ns, os, p));
    FootprintAll(os[p..|os| - s], m) + NewDamage(ns, os, p, s, m, 0)
  }

  /** How far the common suffix may reach without overlapping the prefix:
      what is left of the shorter list. */
  function SuffixLimit(ns: seq<Layer>, os: seq<Layer>, p: nat): (limit: nat)
    requires p <= |ns| && p <= |os|
    ensures p + limit <= |ns| && p + limit <= |os|
  {
    if |ns| < |os| then |ns| - p else |os| - p
  }

  /** What new children `i` and later contribute: a paired child its pair's
      damage (nothing when it is the same object), an unpaired one its
      footprint. */
  function NewDamage(ns: seq<Layer>, os: seq<Layer>, p: nat, s: nat, m: Matrix, i: nat): seq<Rect>
    requires p + s <= |ns| && p + s <= |os| && i <= |ns|
    decreases ns, |ns| - i
  {
    if i == |ns| then []
    else
      var d :=
        if i < p then (if ns[i].id == os[i].id then [] else DiffLayer(ns[i], os[i], m))
        else if i >= |ns| - s then
          var o := os[|os| - |ns| + i];
          if ns[i].id == o.id then [] else DiffLayer(ns[i], o, m)
        else Footprint(ns[i], m);
      d + NewDamage(ns, os, p, s, m, i + 1)
  }

  /** DiffLayerTree: the frame damage of the new root's children against the
      old root's, as one rect. */
  function FrameDamage(news: seq<Layer>, olds: seq<Layer>): Rect {
    JoinAll(DiffChildren(news, olds, Identity))
  }
}

/** The damage a diff reports is bounded by the two frames' footprints, is
    empty for an unchanged tree and is everything for a first frame. */
module LayerDiffProperties {
  import opened Geometry
  import opened Canvas
  import opened Layers
  import opened LayerDiff

  /** A rect is in the footprint of a list exactly when it is in the
      footprint of one of its layers. */
  lemma {:induction false} FootprintAllMembers(cs: seq<Layer>, m: Matrix)
    ensures forall r :: r in FootprintAll(cs, m) <==> exists i :: 0 <= i < |cs| && r in Footprint(cs[i], m)
    decreases |cs|
  {
    if |cs| > 0 {
      var rest := cs[1..];
      FootprintAllMembers(rest, m);
      assert FootprintAll(cs, m) == Footprint(cs[0], m) + FootprintAll(rest, m);
      forall r | exists i :: 0 <= i < |cs| && r in Footprint(cs[i], m)
        ensures r in FootprintAll(cs, m)
      {
        var i :| 0 <= i < |cs| && r in Footprint(cs[i], m);
        if i > 0 {
          assert rest[i - 1] == cs[i];
          assert r in FootprintAll(rest, m);
        }
      }
      forall r | r in FootprintAll(cs, m)
        ensures exists i :: 0 <= i < |cs| && r in Footprint(cs[i], m)
      {
        if r !in Footprint(cs[0], m) {
          assert r in FootprintAll(rest, m);
          var k :| 0 <= k < |rest| && r in Footprint(rest[k], m);
          assert cs[k + 1] == rest[k];
        }
      }
    }
  }

  /** The footprint of a slice lies in the footprint of the whole list. */
  lemma FootprintOfSlice(cs: seq<Layer>, a: nat, b: nat, m: Matrix)
    requires a <= b <= |cs|
    ensures forall r :: r in FootprintAll(cs[a..b], m) ==> r in FootprintAll(cs, m)
  {
    FootprintAllMembers(cs[a..b], m);
    FootprintAllMembers(cs, m);
    forall r | r in FootprintAll(cs[a..b], m)
      ensures r in FootprintAll(cs, m)
    {
      var k :| 0 <= k < |cs[a..b]| && r in Footprint(cs[a..b][k], m);
      assert cs[a..b][k] == cs[a + k];
    }
  }

  /** Every rect a pair's diff damages belongs to the new or the old footprint. */
  lemma {:induction false} DiffLayerWithinFootprints(n: Layer, o: Layer, m: Matrix)
    ensures forall r :: r in DiffLayer(n, o, m) ==> r in Footprint(n, m) || r in Footprint(o, m)
    decreases n, 0
  {
    match n
    case MockLayer(_, _, _, _, _, _, _, _) =>
    case TransformLayer(_, _, t, cs, _) =>
      if o.TransformLayer? && o.transform == t {
        DiffChildrenWithinFootprints(cs, o.children, Concat(m, t));
      }
    case ContainerLayer(_, _, cs, _) =>
      if o.ContainerLayer? {
        DiffChildrenWithinFootprints(cs, o.children, m);
      }
    case TextureLayer(_, _, _, _, _, _, _, _) =>
  }

  /** Every rect a children diff damages belongs to the new or the old
      children's footprint. */
  lemma {:induction false} DiffChildrenWithinFootprints(ns: seq<Layer>, os: seq<Layer>, m: Matrix)
    ensures forall r :: r in DiffChildren(ns, os, m) ==> r in FootprintAll(ns, m) || r in FootprintAll(os, m)
    decreases ns, |ns| + 1
  {
    var p := CommonPrefix(ns, os);
    var s := CommonSuffix(ns, os, SuffixLimit(ns, os, p));
    FootprintOfSlice(os, p, |os| - s, m);
    NewDamageWithinFootprints(ns, os, p, s, m, 0);
    JoinedWithin(FootprintAll(os[p..|os| - s], m), NewDamage(ns, os, p, s, m, 0),
                 FootprintAll(ns, m), FootprintAll(os, m));
  }

  /** Rects drawn from the old footprint, followed by rects drawn from
      either footprint, are drawn from either footprint. */
  lemma JoinedWithin(unpaired: seq<Rect>, rest: seq<Rect>, news: seq<Rect>, olds: seq<Rect>)
    requires forall r :: r in unpaired ==> r in olds
    requires forall r :: r in rest ==> r in news || r in olds
    ensures forall r :: r in unpaired + rest ==> r in news || r in olds
  {
  }

  lemma {:induction false} NewDamageWithinFootprints(ns: seq<Layer>, os: seq<Layer>, p: nat, s: nat, m: Matrix, i: nat)
    requires p + s <= |ns| && p + s <= |os| && i <= |ns|
    ensures forall r :: r in NewDamage(ns, os, p, s, m, i) ==> r in FootprintAll(ns, m) || r in FootprintAll(os, m)
    decreases ns, |ns| - i
  {
    if i < |ns| {
      NewDamageWithinFootprints(ns, os, p, s, m, i + 1);
      FootprintAllMembers(ns, m);
      FootprintAllMembers(os, m);
      if i < p {
        DiffLayerWithinFootprints(ns[i], os[i], m);
      } else if i >= |ns| - s {
        DiffLayerWithinFootprints(ns[i], os[|os| - |ns| + i], m);
      }
    }
  }

  /** A layer replaces itself. */
  lemma IsReplacingItself(l: Layer)
    ensures IsReplacing(l, l)
  {
  }

  /** Diffing a tree against itself damages nothing: every child pairs with
      itself and is retained. */
  lemma SelfDiffIsEmpty(cs: seq<Layer>, m: Matrix)
    ensures DiffChildren(cs, cs, m) == []
  {
    forall i | 0 <= i < |cs|
      ensures IsReplacing(cs[i], cs[i])
    {
      IsReplacingItself(cs[i]);
    }
    assert CommonPrefix(cs, cs) == |cs|;
    NewDamageOfRetained(cs, m, 0);
  }

  lemma {:induction false} NewDamageOfRetained(cs: seq<Layer>, m: Matrix, i: nat)
    requires i <= |cs|
    ensures NewDamage(cs, cs, |cs|, 0, m, i) == []
    decreases |cs| - i
  {
    if i < |cs| {
      NewDamageOfRetained(cs, m, i + 1);
    }
  }

  /** Diffing against an empty old tree damages the whole new footprint. */
  lemma FirstDiffDamagesFootprint(cs: seq<Layer>, m: Matrix)
    ensures DiffChildren(cs, [], m) == FootprintAll(cs, m)
  {
    NewDamageOfUnpaired(cs, m, 0);
    assert cs[0..] == cs;
  }

  lemma {:induction false} NewDamageOfUnpaired(cs: seq<Layer>, m: Matrix, i: nat)
    requires i <= |cs|
    ensures NewDamage(cs, [], 0, 0, m, i) == FootprintAll(cs[i..], m)
    decreases |cs| - i
  {
    if i < |cs| {
      NewDamageOfUnpaired(cs, m, i + 1);
      assert cs[i..][1..] == cs[i + 1..];
    }
  }

  /** The frame damage lies within the join of the new and the old frame's
      footprints. */
  lemma FrameDamageWithinFootprints(news: seq<Layer>, olds: seq<Layer>)
    ensures var d := FrameDamage(news, olds);
            !d.IsEmpty() ==>
              JoinAll(FootprintAll(news, Identity)).Join(JoinAll(FootprintAll(olds, Identity))).Contains(d)
  {
    var damage := DiffChildren(news, olds, Identity);
    var fn := FootprintAll(news, Identity);
    var fo := FootprintAll(olds, Identity);
    var bound := JoinAll(fn).Join(JoinAll(fo));
    DiffChildrenWithinFootprints(news, olds, Identity);
    JoinAllIsLeastBound(fn, bound);
    JoinAllIsLeastBound(fo, bound);
    forall i | 0 <= i < |damage| && !damage[i].IsEmpty()
      ensures bound.Contains(damage[i])
    {
      if damage[i] in fn {
        var k :| 0 <= k < |fn| && fn[k] == damage[i];
      } else {
        var k :| 0 <= k < |fo| && fo[k] == damage[i];
      }
    }
    JoinAllIsLeastBound(damage, bound);
  }

  /** One new child replacing one old child that is another object: the
      damage is the pair's diff. */
  lemma OnePairDamage(n: Layer, o: Layer, m: Matrix)
    requires IsReplacing(n, o) && n.id != o.id
    ensures DiffChildren([n], [o], m) == DiffLayer(n, o, m)
  {
    assert [n][1..] == [] && [o][1..] == [];
    assert CommonPrefix([n], [o]) == 1;
    assert CommonSuffix([n], [o], 0) == 0;
    assert [o][1..1] == [];
    assert NewDamage([n], [o], 1, 0, m, 1) == [];
  }

  /** One new child that does not replace the one old child: both are
      repainted whole. */
  lemma OneUnpairedDamage(n: Layer, o: Layer, m: Matrix)
    requires !IsReplacing(n, o)
    ensures DiffChildren([n], [o], m) == Footprint(o, m) + Footprint(n, m)
  {
    assert CommonPrefix([n], [o]) == 0;
    assert CommonSuffix([n], [o], 1) == 0;
    assert [o][0..1] == [o];
    assert FootprintAll([o], m) == Footprint(o, m) + FootprintAll([], m) by { assert [o][1..] == []; }
    assert NewDamage([n], [o], 0, 0, m, 1) == [];
  }

  /** Three new children each replacing the old child at the same position,
      none of them the same object: the damage is the three pairs' diffs. */
  lemma ThreePairsDamage(ns: seq<Layer>, os: seq<Layer>, m: Matrix)
    requires |ns| == 3 && |os| == 3
    requires forall i :: 0 <= i < 3 ==> IsReplacing(ns[i], os[i]) && ns[i].id != os[i].id
    ensures DiffChildren(ns, os, m) ==
              DiffLayer(ns[0], os[0], m) + DiffLayer(ns[1], os[1], m) + DiffLayer(ns[2], os[2], m)
  {
    assert ns[1..][1..] == ns[2..] && os[1..][1..] == os[2..];
    assert ns[2..][1..] == ns[3..] && os[2..][1..] == os[3..];
    assert ns[2..][0] == ns[2] && os[2..][0] == os[2];
    assert ns[1..][0] == ns[1] && os[1..][0] == os[1];
    assert CommonPrefix(ns[3..], os[3..]) == 0;
    assert CommonPrefix(ns[2..], os[2..]) == 1;
    assert CommonPrefix(ns[1..], os[1..]) == 2;
    assert CommonPrefix(ns, os) == 3;
    assert CommonSuffix(ns, os, 0) == 0;
    assert os[3..3] == [];
    var d0 := DiffLayer(ns[0], os[0], m);
    var d1 := DiffLayer(ns[1], os[1], m);
    var d2 := DiffLayer(ns[2], os[2], m);
    assert NewDamage(ns, os, 3, 0, m, 3) == [];
    assert NewDamage(ns, os, 3, 0, m, 2) == d2;
    assert NewDamage(ns, os, 3, 0, m, 1) == d1 + d2;
    assert NewDamage(ns, os, 3, 0, m, 0) == d0 + (d1 + d2);
  }

  /** The rect path of the layer tests' mock layers, and their (black) paint. */
  const TestPath := RectPath(Rect(0.0, 0.0, 50.0, 50.0))
  const Black: Color := 0xff00_0000

  /** JoinAll of one rect and of two non-empty rects. */
  lemma JoinAllOne(a: Rect)
    ensures JoinAll([a]) == EmptyRect.Join(a)
  {
    assert [a][..0] == [];
  }

  lemma JoinAllTwo(a: Rect, b: Rect)
    ensures JoinAll([a, b]) == EmptyRect.Join(a).Join(b)
  {
    assert [a, b][..1] == [a];
    JoinAllOne(a);
  }

  /** The footprint of a translate(dx, dy) over one mock layer. */
  lemma TranslatedMockFootprint(id: nat, child: Layer, dx: real, dy: real, m: Matrix)
    requires child.MockLayer?
    ensures Footprint(NewTransformLayer(id, Translate(dx, dy), [child]), m)
            == [Concat(m, Translate(dx, dy)).MapRect(child.path.Bounds())]
  {
    var mt := Concat(m, Translate(dx, dy));
    assert [child][1..] == [];
    assert Footprint(child, mt) == [mt.MapRect(child.path.Bounds())];
    assert FootprintAll([child], mt) == Footprint(child, mt) + FootprintAll([], mt);
  }

  /** The layers of the transform diff test: one 50x50 mock layer under
      translate(10, 10), then under translate(20, 20) as a new version of the
      first transform, then again under translate(20, 20) as a new version of
      the second. */
  function TestMock(): Layer { NewMockLayer(1, TestPath, Black) }
  function Transform1(): Layer { NewTransformLayer(2, Translate(10.0, 10.0), [TestMock()]) }
  function Transform2(): Layer { AssignOldLayer(NewTransformLayer(3, Translate(20.0, 20.0), [TestMock()]), Transform1()) }
  function Transform3(): Layer { AssignOldLayer(NewTransformLayer(4, Translate(20.0, 20.0), [TestMock()]), Transform2()) }

  /** The first frame of the transform diff test damages the translated rect,
      (10, 10, 60, 60). */
  lemma TransformDiffFirstFrame()
    ensures FrameDamage([Transform1()], []) == Rect(10.0, 10.0, 60.0, 60.0)
  {
    FirstDiffDamagesFootprint([Transform1()], Identity);
    TranslatedMockFootprint(2, TestMock(), 10.0, 10.0, Identity);
    assert [Transform1()][1..] == [];
    JoinAllOne(Rect(10.0, 10.0, 60.0, 60.0));
  }

  /** Moving the transform to translate(20, 20) damages the old and the new
      footprint, (10, 10, 70, 70). */
  lemma TransformDiffMovedFrame()
    ensures FrameDamage([Transform2()], [Transform1()]) == Rect(10.0, 10.0, 70.0, 70.0)
  {
    OnePairDamage(Transform2(), Transform1(), Identity);
    TranslatedMockFootprint(2, TestMock(), 10.0, 10.0, Identity);
    TranslatedMockFootprint(3, TestMock(), 20.0, 20.0, Identity);
    assert Footprint(Transform2(), Identity) == Footprint(NewTransformLayer(3, Translate(20.0, 20.0), [TestMock()]), Identity);
    var r1 := Rect(10.0, 10.0, 60.0, 60.0);
    var r2 := Rect(20.0, 20.0, 70.0, 70.0);
    assert Footprint(Transform1(), Identity) == [r1];
    assert Footprint(Transform2(), Identity) == [r2];
    assert Transform2().transform != Transform1().transform;
    assert DiffLayer(Transform2(), Transform1(), Identity) == [r1] + [r2];
    assert [r1] + [r2] == [r1, r2];
    JoinAllTwo(r1, r2);
    assert r1.Join(r2) == Rect(10.0, 10.0, 70.0, 70.0);
  }

  /** Diffing an unchanged translate(20, 20) over the same mock layer damages
      nothing. */
  lemma TransformDiffUnchangedFrame()
    ensures FrameDamage([Transform3()], [Transform2()]) == EmptyRect
  {
    OnePairDamage(Transform3(), Transform2(), Identity);
    SelfDiffIsEmpty([TestMock()], Concat(Identity, Translate(20.0, 20.0)));
  }

  /** Joining one more rect onto a list. */
  lemma JoinAllSnoc(rs: seq<Rect>, r: Rect)
    ensures JoinAll(rs + [r]) == JoinAll(rs).Join(r)
  {
    assert (rs + [r])[..|rs|] == rs;
  }

  /** The footprint of a layer with one child is that child's footprint
      under the layer's matrix. */
  lemma OneChildFootprint(child: Layer, m: Matrix)
    ensures FootprintAll([child], m) == Footprint(child, m)
  {
    assert [child][1..] == [];
  }

  /** The footprint of a list of three layers. */
  lemma ThreeFootprints(cs: seq<Layer>, m: Matrix)
    requires |cs| == 3
    ensures FootprintAll(cs, m) == Footprint(cs[0], m) + Footprint(cs[1], m) + Footprint(cs[2], m)
  {
    assert cs[1..][1..] == cs[2..] && cs[2..][1..] == [];
    assert cs[1..][0] == cs[1] && cs[2..][0] == cs[2];
    assert FootprintAll(cs[2..], m) == Footprint(cs[2], m) + FootprintAll([], m);
  }

  /** JoinAll of three rects, joined in order. */
  lemma JoinAllThree(a: Rect, b: Rect, c: Rect)
    ensures JoinAll([a, b, c]) == EmptyRect.Join(a).Join(b).Join(c)
  {
    JoinAllTwo(a, b);
    JoinAllSnoc([a, b], c);
    assert [a, b] + [c] == [a, b, c];
  }

  /** The bounds of the layer tests' mock path. */
  const TestRect := Rect(0.0, 0.0, 50.0, 50.0)

  /** The layers of the nested transform diff test: three mock layers with a
      50x50 path, each in a container under its own translate, the three under
      one scale(2, 2).  The second tree moves the middle translate down by one
      pixel and makes each inner translate a new version of the first tree's;
      its outer scale is made a new version of the first tree's only in the
      last step of the test. */
  function NestedLeaf(k: nat, path: Path): Layer { NewContainerLayer(10 + k, [NewMockLayer(k, path, Black)]) }

  function Inner1(k: nat, t: Matrix, path: Path): Layer { NewTransformLayer(20 + k, t, [NestedLeaf(k, path)]) }

  function Inner2(k: nat, t: Matrix, t1: Matrix, path: Path): Layer {
    AssignOldLayer(NewTransformLayer(30 + k, t, [NestedLeaf(k, path)]), Inner1(k, t1, path))
  }

  function NestedTree1(path: Path): Layer {
    NewTransformLayer(20, Scale(2.0, 2.0),
      [Inner1(1, Translate(10.0, 10.0), path), Inner1(2, Translate(100.0, 100.0), path),
       Inner1(3, Translate(200.0, 200.0), path)])
  }

  function NestedTree2(path: Path): Layer {
    NewTransformLayer(30, Scale(2.0, 2.0),
      [Inner2(1, Translate(10.0, 10.0), Translate(10.0, 10.0), path),
       Inner2(2, Translate(100.0, 101.0), Translate(100.0, 100.0), path),
       Inner2(3, Translate(200.0, 200.0), Translate(200.0, 200.0), path)])
  }

  /** The outer scale under scale(2, 2) then translate(dx, dy): the test
      rect lands at (2dx, 2dy, 2dx + 100, 2dy + 100). */
  lemma ScaledTestRect(dx: real, dy: real)
    ensures Concat(Concat(Identity, Scale(2.0, 2.0)), Translate(dx, dy)).MapRect(TestRect)
            == Rect(2.0 * dx, 2.0 * dy, 2.0 * dx + 100.0, 2.0 * dy + 100.0)
  {
    var c := Concat(Concat(Identity, Scale(2.0, 2.0)), Translate(dx, dy));
    assert c == Matrix(2.0, 2.0, 2.0 * dx, 2.0 * dy);
  }

  /** The footprint of a translate over a nested leaf, under the outer
      scale(2, 2); the origin the layer was assigned plays no part. */
  lemma NestedInnerFootprint(id: nat, origin: nat, k: nat, dx: real, dy: real, path: Path)
    requires path.Bounds() == TestRect
    ensures Footprint(TransformLayer(id, origin, Translate(dx, dy), [NestedLeaf(k, path)], EmptyRect),
                      Concat(Identity, Scale(2.0, 2.0))) ==
              [Rect(2.0 * dx, 2.0 * dy, 2.0 * dx + 100.0, 2.0 * dy + 100.0)]
  {
    var mt := Concat(Concat(Identity, Scale(2.0, 2.0)), Translate(dx, dy));
    var mock := NewMockLayer(k, path, Black);
    OneChildFootprint(NestedLeaf(k, path), mt);
    OneChildFootprint(mock, mt);
    assert Footprint(mock, mt) == [mt.MapRect(TestRect)];
    ScaledTestRect(dx, dy);
  }

  /** The footprint of a list of three given layers. */
  lemma ThreeLayerFootprints(a: Layer, b: Layer, c: Layer, m: Matrix)
    ensures FootprintAll([a, b, c], m) == Footprint(a, m) + Footprint(b, m) + Footprint(c, m)
  {
    ThreeFootprints([a, b, c], m);
  }

  /** The footprints of the first and of the second nested tree. */
  lemma NestedTree1Footprint(path: Path)
    requires path.Bounds() == TestRect
    ensures Footprint(NestedTree1(path), Identity) ==
              [Rect(20.0, 20.0, 120.0, 120.0), Rect(200.0, 200.0, 300.0, 300.0), Rect(400.0, 400.0, 500.0, 500.0)]
  {
    var a := Inner1(1, Translate(10.0, 10.0), path);
    var b := Inner1(2, Translate(100.0, 100.0), path);
    var c := Inner1(3, Translate(200.0, 200.0), path);
    assert a == TransformLayer(21, 21, Translate(10.0, 10.0), [NestedLeaf(1, path)], EmptyRect);
    assert b == TransformLayer(22, 22, Translate(100.0, 100.0), [NestedLeaf(2, path)], EmptyRect);
    assert c == TransformLayer(23, 23, Translate(200.0, 200.0), [NestedLeaf(3, path)], EmptyRect);
    ThreeLayerFootprints(a, b, c, Concat(Identity, Scale(2.0, 2.0)));
    NestedInnerFootprint(21, 21, 1, 10.0, 10.0, path);
    NestedInnerFootprint(22, 22, 2, 100.0, 100.0, path);
    NestedInnerFootprint(23, 23, 3, 200.0, 200.0, path);
  }

  lemma NestedTree2Footprint(path: Path)
    requires path.Bounds() == TestRect
    ensures Footprint(NestedTree2(path), Identity) ==
              [Rect(20.0, 20.0, 120.0, 120.0), Rect(200.0, 202.0, 300.0, 302.0), Rect(400.0, 400.0, 500.0, 500.0)]
  {
    var a := Inner2(1, Translate(10.0, 10.0), Translate(10.0, 10.0), path);
    var b := Inner2(2, Translate(100.0, 101.0), Translate(100.0, 100.0), path);
    var c := Inner2(3, Translate(200.0, 200.0), Translate(200.0, 200.0), path);
    assert a == TransformLayer(31, 21, Translate(10.0, 10.0), [NestedLeaf(1, path)], EmptyRect);
    assert b == TransformLayer(32, 22, Translate(100.0, 101.0), [NestedLeaf(2, path)], EmptyRect);
    assert c == TransformLayer(33, 23, Translate(200.0, 200.0), [NestedLeaf(3, path)], EmptyRect);
    ThreeLayerFootprints(a, b, c, Concat(Identity, Scale(2.0, 2.0)));
    NestedInnerFootprint(31, 21, 1, 10.0, 10.0, path);
    NestedInnerFootprint(32, 22, 2, 100.0, 101.0, path);
    NestedInnerFootprint(33, 23, 3, 200.0, 200.0, path);
  }

  /** The first frame of the nested test damages the union of the three
      scaled footprints, (20, 20, 500, 500). */
  lemma NestedDiffFirstFrame(path: Path)
    requires path.Bounds() == TestRect
    ensures FrameDamage([NestedTree1(path)], []) == Rect(20.0, 20.0, 500.0, 500.0)
  {
    FirstDiffDamagesFootprint([NestedTree1(path)], Identity);
    OneChildFootprint(NestedTree1(path), Identity);
    NestedTree1Footprint(path);
    JoinAllThree(Rect(20.0, 20.0, 120.0, 120.0), Rect(200.0, 200.0, 300.0, 300.0), Rect(400.0, 400.0, 500.0, 500.0));
  }

  /** The join of both nested trees' footprints. */
  lemma NestedFootprintsJoin()
    ensures JoinAll([Rect(20.0, 20.0, 120.0, 120.0), Rect(200.0, 200.0, 300.0, 300.0), Rect(400.0, 400.0, 500.0, 500.0)]
                    + [Rect(20.0, 20.0, 120.0, 120.0), Rect(200.0, 202.0, 300.0, 302.0), Rect(400.0, 400.0, 500.0, 500.0)])
            == Rect(20.0, 20.0, 500.0, 500.0)
  {
    var r1 := Rect(20.0, 20.0, 120.0, 120.0);
    var r2 := Rect(200.0, 200.0, 300.0, 300.0);
    var r3 := Rect(400.0, 400.0, 500.0, 500.0);
    var r2b := Rect(200.0, 202.0, 300.0, 302.0);
    var rs := [r1, r2, r3] + [r1, r2b, r3];
    var big := Rect(20.0, 20.0, 500.0, 500.0);
    JoinAllThree(r1, r2, r3);
    assert JoinAll([r1, r2, r3]) == big;
    JoinAllSnoc([r1, r2, r3], r1);
    assert [r1, r2, r3] + [r1] == rs[..4];
    assert JoinAll(rs[..4]) == big;
    JoinAllSnoc(rs[..4], r2b);
    assert rs[..4] + [r2b] == rs[..5];
    assert JoinAll(rs[..5]) == big;
    JoinAllSnoc(rs[..5], r3);
    assert rs[..5] + [r3] == rs;
  }

  /** While the new outer scale is not a new version of the old one, the two
      trees do not pair up and the whole of both is repainted: again
      (20, 20, 500, 500). */
  lemma NestedDiffUnassignedFrame(path: Path)
    requires path.Bounds() == TestRect
    ensures FrameDamage([NestedTree2(path)], [NestedTree1(path)]) == Rect(20.0, 20.0, 500.0, 500.0)
  {
    OneUnpairedDamage(NestedTree2(path), NestedTree1(path), Identity);
    NestedTree1Footprint(path);
    NestedTree2Footprint(path);
    NestedFootprintsJoin();
  }

  /** A new version of a transform with the same matrix over the same
      children damages nothing. */
  lemma UnchangedTransformNoDamage(n: Layer, o: Layer, m: Matrix)
    requires n.TransformLayer? && o.TransformLayer?
    requires n.transform == o.transform && n.children == o.children
    ensures DiffLayer(n, o, m) == []
  {
    SelfDiffIsEmpty(n.children, Concat(m, n.transform));
  }

  /** A new version of a transform with another matrix damages its old and
      its new footprint. */
  lemma MovedTransformDamage(n: Layer, o: Layer, m: Matrix)
    requires n.TransformLayer? && o.TransformLayer? && n.transform != o.transform
    ensures DiffLayer(n, o, m) == Footprint(o, m) + Footprint(n, m)
  {
  }

  /** Of the three inner pairs of the assigned nested trees, the first and the
      last keep their translate over the same leaf and damage nothing; the
      middle one moved and damages its old and its new footprint. */
  lemma NestedInnerPairs(path: Path)
    requires path.Bounds() == TestRect
    ensures var s := Concat(Identity, Scale(2.0, 2.0));
            var cs1 := NestedTree1(path).children;
            var cs2 := NestedTree2(path).children;
            DiffLayer(cs2[0], cs1[0], s) == [] &&
            DiffLayer(cs2[1], cs1[1], s) == [Rect(200.0, 200.0, 300.0, 300.0), Rect(200.0, 202.0, 300.0, 302.0)] &&
            DiffLayer(cs2[2], cs1[2], s) == []
  {
    var s := Concat(Identity, Scale(2.0, 2.0));
    var cs1 := NestedTree1(path).children;
    var cs2 := NestedTree2(path).children;
    UnchangedTransformNoDamage(cs2[0], cs1[0], s);
    UnchangedTransformNoDamage(cs2[2], cs1[2], s);
    NestedMovedPair(cs2[1], cs1[1], path);
  }

  /** The middle inner translate moved by one pixel: its old and its new
      rect are damaged. */
  lemma NestedMovedPair(n: Layer, o: Layer, path: Path)
    requires path.Bounds() == TestRect
    requires o == TransformLayer(22, 22, Translate(100.0, 100.0), [NestedLeaf(2, path)], EmptyRect)
    requires n == TransformLayer(32, 22, Translate(100.0, 101.0), [NestedLeaf(2, path)], EmptyRect)
    ensures DiffLayer(n, o, Concat(Identity, Scale(2.0, 2.0))) ==
              [Rect(200.0, 200.0, 300.0, 300.0), Rect(200.0, 202.0, 300.0, 302.0)]
  {
    var s := Concat(Identity, Scale(2.0, 2.0));
    MovedTransformDamage(n, o, s);
    NestedInnerFootprint(22, 22, 2, 100.0, 100.0, path);
    NestedInnerFootprint(32, 22, 2, 100.0, 101.0, path);
  }

  /** The inner translates of the second nested tree pair with those of the
      first, and only the moved middle one is damaged. */
  lemma NestedChildrenDamage(path: Path)
    requires path.Bounds() == TestRect
    ensures DiffChildren(NestedTree2(path).children, NestedTree1(path).children, Concat(Identity, Scale(2.0, 2.0)))
            == [Rect(200.0, 200.0, 300.0, 300.0), Rect(200.0, 202.0, 300.0, 302.0)]
  {
    var s := Concat(Identity, Scale(2.0, 2.0));
    var cs1 := NestedTree1(path).children;
    var cs2 := NestedTree2(path).children;
    assert forall i :: 0 <= i < 3 ==> cs2[i].originId == cs1[i].originId && cs2[i].id != cs1[i].id;
    ThreePairsDamage(cs2, cs1, s);
    NestedInnerPairs(path);
  }

  /** Once the new outer scale is a new version of the old one, only the
      moved middle translate is damaged, old and new: (200, 200, 300, 302). */
  lemma NestedDiffAssignedFrame(path: Path)
    requires path.Bounds() == TestRect
    ensures FrameDamage([AssignOldLayer(NestedTree2(path), NestedTree1(path))], [NestedTree1(path)])
            == Rect(200.0, 200.0, 300.0, 302.0)
  {
    var t1 := NestedTree1(path);
    var t2 := AssignOldLayer(NestedTree2(path), t1);
    OnePairDamage(t2, t1, Identity);
    assert DiffLayer(t2, t1, Identity) ==
           DiffChildren(NestedTree2(path).children, t1.children, Concat(Identity, Scale(2.0, 2.0)));
    NestedChildrenDamage(path);
    JoinAllTwo(Rect(200.0, 200.0, 300.0, 300.0), Rect(200.0, 202.0, 300.0, 302.0));
  }
}

