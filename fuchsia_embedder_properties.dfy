/** What the Fuchsia embedder's composition promises: opacity and transform
    of a mutator stack, the rectangle hash, the change tracking of platform
    views, the Scenic layers a frame needs, and the order and exclusivity of
    what a submitted frame places. */
module FuchsiaEmbedderProperties {
  import opened Wrappers
  import opened Geometry
  import opened LayerTrees
  import opened FuchsiaEmbedders

  /** A stack's opacity is always a valid opacity. */
  lemma {:induction false} OpacityInUnitRange(stack: seq<Mutator>)
    ensures 0.0 <= StackOpacity(stack) <= 1.0
  {
    if stack != [] {
      var below := stack[..|stack| - 1];
      OpacityInUnitRange(below);
      var a := StackOpacity(below);
      var b := OpacityFactor(stack[|stack| - 1]);
      assert 0.0 <= b <= 1.0;
      assert 0.0 <= a * b by {
        assert 0.0 <= a && 0.0 <= b;
      }
      assert a * b <= a by {
        assert a * (1.0 - b) >= 0.0;
      }
    }
  }

  /** Mutators other than opacity mutators pushed on a stack leave its
      opacity as it was; in particular a stack without opacity mutators is
      fully opaque. */
  lemma {:induction false} OtherMutatorsKeepOpacity(s: seq<Mutator>, t: seq<Mutator>)
    requires forall i | 0 <= i < |t| :: !t[i].OpacityMutator?
    ensures StackOpacity(s + t) == StackOpacity(s)
  {
    if t == [] {
      assert s + t == s;
    } else {
      var below := t[..|t| - 1];
      OtherMutatorsKeepOpacity(s, below);
      assert (s + t)[..|s + t| - 1] == s + below;
      assert (s + t)[|s + t| - 1] == t[|t| - 1];
    }
  }

  /** A stack without transform mutators does not move anything. */
  lemma {:induction false} IdentityWithoutTransforms(stack: seq<Mutator>)
    requires forall i | 0 <= i < |stack| :: !stack[i].TransformMutator?
    ensures StackTransform(stack) == Identity
  {
    if stack != [] {
      IdentityWithoutTransforms(stack[..|stack| - 1]);
    }
  }

  /** Stacking one stack on another composes their transforms, the lower
      stack's applied last. */
  lemma {:induction false} TransformOfConcatenation(s: seq<Mutator>, t: seq<Mutator>)
    ensures StackTransform(s + t) == Concat(StackTransform(s), StackTransform(t))
  {
    if t == [] {
      assert s + t == s;
      ConcatIdentity(StackTransform(s));
    } else {
      var below := t[..|t| - 1];
      var top := t[|t| - 1];
      TransformOfConcatenation(s, below);
      assert (s + t)[..|s + t| - 1] == s + below;
      assert (s + t)[|s + t| - 1] == top;
      if top.TransformMutator? {
        ConcatAssociative(StackTransform(s), StackTransform(below), top.matrix);
      }
    }
  }

  /** For sizes a signed 32-bit SkISize can hold with no negative side, the
      rectangle hash identifies the size: two surfaces share rectangles
      exactly when they have the same size. */
  lemma RectHashIdentifiesSize(a: ISize, b: ISize)
    requires 0 <= a.width < 0x8000_0000 && 0 <= a.height < 0x8000_0000
    requires 0 <= b.width < 0x8000_0000 && 0 <= b.height < 0x8000_0000
    ensures RectHash(a) == RectHash(b) <==> a == b
  {
    RectHashOfSmallSize(a);
    RectHashOfSmallSize(b);
    if a.width < b.width {
      PackedOrder(a.width, a.height, b.width, b.height);
    } else if b.width < a.width {
      PackedOrder(b.width, b.height, a.width, a.height);
    }
  }

  /** For such sizes no wrap-around happens: the width sits above the
      height. */
  lemma RectHashOfSmallSize(s: ISize)
    requires 0 <= s.width < 0x8000_0000 && 0 <= s.height < 0x8000_0000
    ensures RectHash(s) == s.width * 0x1_0000_0000 + s.height
  {
    assert s.width % 0x1_0000_0000_0000_0000 == s.width;
    assert s.height % 0x1_0000_0000_0000_0000 == s.height;
  }

  /** A smaller width packs to a smaller key, whatever the heights. */
  lemma PackedOrder(w1: int, h1: int, w2: int, h2: int)
    requires w1 < w2 && 0 <= h1 < 0x1_0000_0000 && 0 <= h2
    ensures w1 * 0x1_0000_0000 + h1 < w2 * 0x1_0000_0000 + h2
  {
  }

  /** Pushing the same parameters at the same elevation a second time
      changes nothing and sends Scenic only the re-attach. */
  lemma PushIsIdempotent(v: ScenicView, id: int, params: ViewParams, elevation: real)
    ensures UpdatedView(UpdatedView(v, params, elevation), params, elevation) == UpdatedView(v, params, elevation)
    ensures UpdateCommands(UpdatedView(v, params, elevation), id, params, elevation) == [AttachView(id)]
  {
    var u := UpdatedView(v, params, elevation);
    assert !PushesProperties(u, params.sizePoints);
  }

  /** A push sends Scenic a node update exactly when it changes one of the
      view's values: the only command of a push that changes nothing is the
      re-attach. */
  lemma CommandsExactlyForChanges(v: ScenicView, id: int, params: ViewParams, elevation: real)
    ensures UpdateCommands(v, id, params, elevation) == [AttachView(id)] <==> UpdatedView(v, params, elevation) == v
  {
    if UpdatedView(v, params, elevation) == v {
      assert !PushesProperties(v, params.sizePoints);
    }
  }

  /** A view created and then destroyed leaves the embedder's views as they
      were, and both callbacks report the same resource. */
  method ViewLifecycle(embedder: FuchsiaExternalViewEmbedder, viewId: int, resourceId: nat)
    returns (bound: nat, unbound: nat)
    requires viewId !in embedder.scenicViews
    modifies embedder
    ensures embedder.scenicViews == old(embedder.scenicViews)
    ensures bound == resourceId && unbound == resourceId
  {
    bound := embedder.CreateView(viewId, resourceId);
    unbound := embedder.DestroyView(viewId);
  }

  /** SetViewProperties only affects the next push: the view's pushed values
      stay, and the next push sends the new hit testing when it differs. */
  method PropertiesWaitForSubmit(embedder: FuchsiaExternalViewEmbedder, viewId: int,
                                 occlusionHint: Rect, hitTestable: bool, focusable: bool)
    requires viewId in embedder.scenicViews
    modifies embedder
    ensures viewId in embedder.scenicViews
    ensures var before := old(embedder.scenicViews)[viewId];
            var after := embedder.scenicViews[viewId];
            after.opacity == before.opacity && after.pose == before.pose &&
            after.hitTestable == before.hitTestable && after.properties == before.properties &&
            forall params: ViewParams, e: real ::
              UpdatedView(after, params, e).hitTestable == hitTestable
  {
    embedder.SetViewProperties(viewId, occlusionHint, hitTestable, focusable);
  }

  /** Scenic layers are only added: never fewer than before the frame, and
      never more than the positions of the frame or the count before it. */
  lemma {:induction false} SlotsAfterBounds(order: seq<LayerId>, surfaced: set<LayerId>, n: nat, count: nat)
    requires n <= |order|
    ensures count <= SlotsAfter(order, surfaced, n, count)
    ensures SlotsAfter(order, surfaced, n, count) <= if count < n then n else count
  {
    if n > 0 {
      SlotsAfterBounds(order, surfaced, n - 1, count);
    }
  }

  /** When every layer has a surface, the layers take Scenic layers 0, 1, …
      in order, creating any beyond the ones already there. */
  lemma {:induction false} SlotsWhenAllSurfaced(order: seq<LayerId>, surfaced: set<LayerId>, n: nat, count: nat)
    requires n <= |order|
    requires forall i | 0 <= i < |order| :: order[i] in surfaced
    ensures SlotsAfter(order, surfaced, n, count) == if count < n then n else count
  {
    if n > 0 {
      SlotsWhenAllSurfaced(order, surfaced, n - 1, count);
    }
  }

  /** A frame always finds its Scenic layers when every layer was drawn
      into, or when an earlier frame already made one per position. */
  lemma SlotsAvailableWhen(order: seq<LayerId>, surfaced: set<LayerId>, count: nat)
    requires (forall i | 0 <= i < |order| :: order[i] in surfaced) || |order| <= count
    ensures SlotsAvailable(order, surfaced, count)
  {
    forall i | 0 <= i < |order| && order[i] in surfaced
      ensures i <= SlotsAfter(order, surfaced, i, count)
    {
      if forall j | 0 <= j < |order| :: order[j] in surfaced {
        SlotsWhenAllSurfaced(order, surfaced, i, count);
      } else {
        SlotsAfterBounds(order, surfaced, i, count);
      }
    }
  }

  /** The Scenic layer index advances at every position, drawn or not, so on
      a fresh embedder a frame whose root layer drew nothing but whose view
      overlay drew needs Scenic layer 1 while none exists yet: the check at
      fuchsia_external_view_embedder.cc:368 fails for it. */
  lemma EmptyRootStarvesOverlay()
    ensures !SlotsAvailable([None, Some(1)], {Some(1)}, 0)
  {
    var order: seq<LayerId> := [None, Some(1)];
    assert order[1] in {Some(1)};
    assert SlotsAfter(order, {Some(1)}, 1, 0) == 0;
  }

  /** Platform views counted over a longer stretch of the order are never
      fewer. */
  lemma {:induction false} ViewsInMonotone(order: seq<LayerId>, a: nat, b: nat)
    requires a <= b <= |order|
    ensures ViewsIn(order[..a]) <= ViewsIn(order[..b])
  {
    if a < b {
      ViewsInMonotone(order, a, b - 1);
      assert order[..b][..b - 1] == order[..b - 1];
    }
  }

  /** Everything composited later sits higher: a layer sits above its own
      platform view, and every layer and view sits above every layer before
      it. */
  lemma ElevationsIncrease(order: seq<LayerId>, i: nat, j: nat)
    requires i < j < |order|
    ensures LayerElevation(order, i) < ViewElevation(order, j)
    ensures LayerElevation(order, i) < LayerElevation(order, j)
    ensures order[i].Some? ==> ViewElevation(order, i) < LayerElevation(order, i)
  {
    ViewsInMonotone(order, i + 1, j);
    ViewsInMonotone(order, j, j + 1);
    assert order[..i + 1][..i] == order[..i];
  }

  /** How many placements of a hash there are never shrinks as more of the
      placements are counted. */
  lemma {:induction false} HashCountMonotone(ps: seq<LayerPlacement>, a: nat, b: nat, h: uint64)
    requires a <= b <= |ps|
    ensures HashCount(ps[..a], h) <= HashCount(ps[..b], h)
  {
    if a < b {
      HashCountMonotone(ps, a, b - 1, h);
      assert ps[..b][..b - 1] == ps[..b - 1];
    }
  }

  /** In a submitted frame no two layers share a Scenic layer or a
      rectangle, and only the bottom layer of the composition order, when it
      has a surface, receives input and is drawn fully opaque. */
  lemma PlacementsAreExclusive(order: seq<LayerId>, layers: map<LayerId, EmbedderLayer>, surfaced: set<LayerId>,
                               placements: seq<LayerPlacement>)
    requires forall i | 0 <= i < |order| :: order[i] in layers
    requires Submitted(order, layers, surfaced, placements, |order|)
    ensures forall k, l | 0 <= k < l < |placements| ::
              placements[k].scenicLayer < placements[l].scenicLayer &&
              (placements[k].rectHash, placements[k].rectIndex) != (placements[l].rectHash, placements[l].rectIndex)
    ensures forall k | 0 <= k < |placements| ::
              (placements[k].hitTestable <==> placements[k].position == 0) &&
              (placements[k].alpha == AlphaOpaque <==> placements[k].position == 0)
  {
    var positions := PlacedPositions(order, surfaced, |order|);
    forall k, l | 0 <= k < l < |placements|
      ensures placements[k].scenicLayer < placements[l].scenicLayer
      ensures (placements[k].rectHash, placements[k].rectIndex) != (placements[l].rectHash, placements[l].rectIndex)
    {
      assert PlacedAt(order, layers, placements, k, positions[k]);
      assert PlacedAt(order, layers, placements, l, positions[l]);
      var h := placements[k].rectHash;
      if placements[l].rectHash == h {
        HashCountMonotone(placements, k + 1, l, h);
        assert placements[..k + 1][..k] == placements[..k];
      }
    }
    forall k | 0 <= k < |placements|
      ensures placements[k].hitTestable <==> placements[k].position == 0
      ensures placements[k].alpha == AlphaOpaque <==> placements[k].position == 0
    {
      assert PlacedAt(order, layers, placements, k, positions[k]);
    }
  }

  /** After a submitted frame, the rectangle every placement draws on is one
      the embedder keeps: the rectangles of each size are enough for all the
      layers of that size. */
  lemma PlacedRectsKept(order: seq<LayerId>, layers: map<LayerId, EmbedderLayer>, surfaced: set<LayerId>,
                        placements: seq<LayerPlacement>, rects0: map<uint64, nat>, rects: map<uint64, nat>)
    requires forall i | 0 <= i < |order| :: order[i] in layers
    requires Submitted(order, layers, surfaced, placements, |order|)
    requires RectsKept(rects0, placements, rects)
    ensures forall k | 0 <= k < |placements| ::
              placements[k].rectHash in rects && placements[k].rectIndex < rects[placements[k].rectHash]
  {
    var positions := PlacedPositions(order, surfaced, |order|);
    forall k | 0 <= k < |placements|
      ensures placements[k].rectHash in rects && placements[k].rectIndex < rects[placements[k].rectHash]
    {
      assert PlacedAt(order, layers, placements, k, positions[k]);
      var h := placements[k].rectHash;
      HashCountMonotone(placements, k + 1, |placements|, h);
      assert placements[..k + 1][..k] == placements[..k];
      assert placements[..|placements|] == placements;
    }
  }
}
