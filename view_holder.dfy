/** ViewHolder: the raster thread's handle on a child Fuchsia view embedded
    in a Flutter scene.  Its view properties (bounding box, occlusion insets,
    focusability) are edited by change-tracking setters and pushed to Scenic
    by the next UpdateScene only when one of them changed.  Holders are
    found by the child view's koid through a per-thread bindings map. */
module ViewHolders {
  import opened Wrappers
  import opened Geometry

  /** The depth given to every child view, in place of computing the real
      airspace it needs. */
  const ArbitraryLargeDepth: real := -1000.0

  datatype Vec3 = Vec3(x: real, y: real, z: real)
  datatype BoundingBox = BoundingBox(min: Vec3, max: Vec3)

  /** fuchsia::ui::gfx::ViewProperties, as far as the holder sets it. */
  datatype ViewProperties = ViewProperties(
    boundingBox: BoundingBox, insetFromMin: Vec3, insetFromMax: Vec3, focusChange: bool)

  /** The FIDL defaults: an all-zero box and insets, focus changes allowed. */
  const DefaultProperties := ViewProperties(
    BoundingBox(Vec3(0.0, 0.0, 0.0), Vec3(0.0, 0.0, 0.0)), Vec3(0.0, 0.0, 0.0), Vec3(0.0, 0.0, 0.0), true)

  datatype HitTestBehavior = Default | Suppress

  /** SkPoint. */
  datatype Point = Point(x: real, y: real)

  /** The Scenic commands UpdateScene issues. */
  datatype SceneCommand =
    | AddToContainer
    | SetOpacity(opacity: real)
    | SetTranslation(x: real, y: real, z: real)
    | SetHitTestBehavior(behavior: HitTestBehavior)
    | SetViewProperties(properties: ViewProperties)

  /** Whether two sets of properties differ in a value the setters track:
      the box's maximum, either inset, or focusability.  The box's minimum is
      not tracked. */
  predicate TrackedDiffers(a: ViewProperties, b: ViewProperties) {
    a.boundingBox.max != b.boundingBox.max || a.insetFromMin != b.insetFromMin ||
    a.insetFromMax != b.insetFromMax || a.focusChange != b.focusChange
  }

  /** The properties after set_size: the box's maximum becomes the size when
      both sides are positive, and its minimum depth is always the arbitrary
      large depth. */
  function Resized(p: ViewProperties, size: Size): ViewProperties {
    var max := p.boundingBox.max;
    var newMax := if size.width > 0.0 && size.height > 0.0 then Vec3(size.width, size.height, max.z) else max;
    p.(boundingBox := BoundingBox(p.boundingBox.min.(z := ArbitraryLargeDepth), newMax))
  }

  /** The properties after set_occlusion_hint: left and top become the inset
      from the minimum, right and bottom the inset from the maximum. */
  function WithOcclusionHint(p: ViewProperties, hint: Rect): ViewProperties {
    p.(insetFromMin := p.insetFromMin.(x := hint.left, y := hint.top),
       insetFromMax := p.insetFromMax.(x := hint.right, y := hint.bottom))
  }

  /** The occlusion hint a set of properties encodes. */
  function OcclusionHintOf(p: ViewProperties): Rect {
    Rect(p.insetFromMin.x, p.insetFromMin.y, p.insetFromMax.x, p.insetFromMax.y)
  }

  class ViewHolder {
    /** Whether the view holder token has not yet been used. */
    var pendingToken: bool
    /** Whether an on_view_created callback was given. */
    const notifiesCreation: bool
    /** The Scenic view holder's resource id, once UpdateScene made it. */
    var sceneViewHolder: Option<nat>
    var hitTestBehavior: HitTestBehavior
    var viewProperties: ViewProperties
    var viewPropertiesChanged: bool
    /** The properties Scenic holds for the view. */
    ghost var sceneProperties: ViewProperties

    /** Whenever the changed flag is clear, Scenic holds the tracked values;
        the token is consumed exactly when the Scenic nodes exist. */
    ghost predicate Valid()
      reads this
    {
      (!viewPropertiesChanged ==> !TrackedDiffers(sceneProperties, viewProperties)) &&
      (pendingToken <==> sceneViewHolder.None?)
    }

    /** A holder with its token pending and the default properties. */
    constructor (notifiesCreation: bool)
      ensures Valid() && this.notifiesCreation == notifiesCreation
      ensures pendingToken && sceneViewHolder == None
      ensures hitTestBehavior == Default && viewProperties == DefaultProperties && !viewPropertiesChanged
    {
      this.notifiesCreation := notifiesCreation;
      pendingToken := true;
      sceneViewHolder := None;
      hitTestBehavior := Default;
      viewProperties := DefaultProperties;
      viewPropertiesChanged := false;
      sceneProperties := DefaultProperties;
    }

    /** set_hit_testable: default behaviour when hit-testable, suppressed
        otherwise. */
    method SetHitTestable(value: bool)
      modifies this
      ensures hitTestBehavior == (if value then Default else Suppress)
      ensures viewProperties == old(viewProperties) && viewPropertiesChanged == old(viewPropertiesChanged)
      ensures pendingToken == old(pendingToken) && sceneViewHolder == old(sceneViewHolder)
      ensures sceneProperties == old(sceneProperties)
    {
      hitTestBehavior := if value then Default else Suppress;
    }

    /** set_focusable: marks the properties changed only when focusability
        actually changes. */
    method SetFocusable(value: bool)
      requires Valid()
      modifies this
      ensures Valid()
      ensures viewProperties == old(viewProperties).(focusChange := value)
      ensures viewPropertiesChanged == (old(viewPropertiesChanged) || old(viewProperties).focusChange != value)
      ensures hitTestBehavior == old(hitTestBehavior)
      ensures pendingToken == old(pendingToken) && sceneViewHolder == old(sceneViewHolder)
      ensures sceneProperties == old(sceneProperties)
    {
      if viewProperties.focusChange != value {
        viewProperties := viewProperties.(focusChange := value);
        viewPropertiesChanged := true;
      }
    }

    /** set_size: see Resized; marks the properties changed only when the
        box's maximum actually changes. */
    method SetSize(size: Size)
      requires Valid()
      modifies this
      ensures Valid()
      ensures viewProperties == Resized(old(viewProperties), size)
      ensures viewPropertiesChanged == (old(viewPropertiesChanged) || TrackedDiffers(old(viewProperties), viewProperties))
      ensures hitTestBehavior == old(hitTestBehavior)
      ensures pendingToken == old(pendingToken) && sceneViewHolder == old(sceneViewHolder)
      ensures sceneProperties == old(sceneProperties)
    {
      var box := viewProperties.boundingBox;
      if size.width > 0.0 && size.height > 0.0 {
        if box.max.x != size.width {
          box := box.(max := box.max.(x := size.width));
          viewPropertiesChanged := true;
        }
        if box.max.y != size.height {
          box := box.(max := box.max.(y := size.height));
          viewPropertiesChanged := true;
        }
      }
      box := box.(min := box.min.(z := ArbitraryLargeDepth));
      viewProperties := viewProperties.(boundingBox := box);
    }

    /** set_occlusion_hint: see WithOcclusionHint; marks the properties
        changed only when an inset actually changes. */
    method SetOcclusionHint(hint: Rect)
      requires Valid()
      modifies this
      ensures Valid()
      ensures viewProperties == WithOcclusionHint(old(viewProperties), hint)
      ensures viewPropertiesChanged == (old(viewPropertiesChanged) || TrackedDiffers(old(viewProperties), viewProperties))
      ensures hitTestBehavior == old(hitTestBehavior)
      ensures pendingToken == old(pendingToken) && sceneViewHolder == old(sceneViewHolder)
      ensures sceneProperties == old(sceneProperties)
    {
      var fromMin := viewProperties.insetFromMin;
      var fromMax := viewProperties.insetFromMax;
      if fromMin.x != hint.left {
        fromMin := fromMin.(x := hint.left);
        viewPropertiesChanged := true;
      }
      if fromMin.y != hint.top {
        fromMin := fromMin.(y := hint.top);
        viewPropertiesChanged := true;
      }
      if fromMax.x != hint.right {
        fromMax := fromMax.(x := hint.right);
        viewPropertiesChanged := true;
      }
      if fromMax.y != hint.bottom {
        fromMax := fromMax.(y := hint.bottom);
        viewPropertiesChanged := true;
      }
      viewProperties := viewProperties.(insetFromMin := fromMin, insetFromMax := fromMax);
    }

    /** SetProperties: the size, the occlusion hint built from the four
        insets (left, top, right, bottom) and focusability, in that order. */
    method SetProperties(width: real, height: real, insetTop: real, insetRight: real,
                         insetBottom: real, insetLeft: real, focusable: bool)
      requires Valid()
      modifies this
      ensures Valid()
      ensures viewProperties == WithOcclusionHint(Resized(old(viewProperties), Size(width, height)),
                                                  Rect(insetLeft, insetTop, insetRight, insetBottom)).(focusChange := focusable)
      ensures OcclusionHintOf(viewProperties) == Rect(insetLeft, insetTop, insetRight, insetBottom)
      ensures viewPropertiesChanged == (old(viewPropertiesChanged) || TrackedDiffers(old(viewProperties), viewProperties))
      ensures hitTestBehavior == old(hitTestBehavior)
      ensures pendingToken == old(pendingToken) && sceneViewHolder == old(sceneViewHolder)
    {
      SetSize(Size(width, height));
      SetOcclusionHint(Rect(insetLeft, insetTop, insetRight, insetBottom));
      SetFocusable(focusable);
    }

    /** UpdateScene: on first use the token becomes Scenic nodes with the
        given resource id, reported to on_view_created when a callback was
        given; then the view is attached at `offset`, at its opacity and hit
        testing, and its properties are pushed only if they changed since the
        last push. */
    method UpdateScene(resourceId: nat, offset: Point, opacity: int)
      returns (created: Option<nat>, commands: seq<SceneCommand>)
      requires Valid()
      requires 0 <= opacity <= 255
      modifies this
      ensures Valid() && !viewPropertiesChanged && !pendingToken
      ensures sceneViewHolder == (if old(pendingToken) then Some(resourceId) else old(sceneViewHolder))
      ensures created == (if old(pendingToken) && notifiesCreation then Some(resourceId) else None)
      ensures commands == [AddToContainer, SetOpacity(opacity as real / 255.0),
                           SetTranslation(offset.x, offset.y, -0.1), SetHitTestBehavior(hitTestBehavior)] +
                          (if old(viewPropertiesChanged) then [SetViewProperties(viewProperties)] else [])
      ensures viewProperties == old(viewProperties) && hitTestBehavior == old(hitTestBehavior)
    {
      created := None;
      if pendingToken {
        sceneViewHolder := Some(resourceId);
        pendingToken := false;
        if notifiesCreation {
          created := Some(resourceId);
        }
      }
      commands := [AddToContainer, SetOpacity(opacity as real / 255.0),
                   SetTranslation(offset.x, offset.y, -0.1), SetHitTestBehavior(hitTestBehavior)];
      if viewPropertiesChanged {
        commands := commands + [SetViewProperties(viewProperties)];
        sceneProperties := viewProperties;
        viewPropertiesChanged := false;
      }
    }
  }

  /** The raster thread's bindings from child-view koid to holder; absent
      until the first holder is created on the thread. */
  class ViewHolderBindings {
    var bindings: Option<map<nat, ViewHolder>>

    constructor ()
      ensures bindings == None
    {
      bindings := None;
    }

    /** Create: a new holder for an unbound koid, making the bindings on
        first use. */
    method Create(id: nat, notifiesCreation: bool) returns (holder: ViewHolder)
      requires bindings.None? || id !in bindings.value
      modifies this
      ensures fresh(holder) && holder.Valid() && holder.pendingToken && holder.notifiesCreation == notifiesCreation
      ensures bindings == Some(old(bindings).GetOr(map[])[id := holder])
    {
      if bindings.None? {
        bindings := Some(map[]);
      }
      holder := new ViewHolder(notifiesCreation);
      bindings := Some(bindings.value[id := holder]);
    }

    /** Destroy: erases a bound koid; the destroyed callback, when given,
        is told the Scenic view holder's id if there is one. */
    method Destroy(id: nat, hasCallback: bool) returns (reported: Option<nat>)
      requires bindings.Some? && id in bindings.value
      modifies this
      ensures bindings == Some(old(bindings).value - {id})
      ensures reported == (if hasCallback then old(bindings).value[id].sceneViewHolder else None)
    {
      var holder := bindings.value[id];
      reported := None;
      if holder.sceneViewHolder.Some? && hasCallback {
        reported := holder.sceneViewHolder;
      }
      bindings := Some(bindings.value - {id});
    }

    /** FromId: the holder bound to the koid, or none when the thread has no
        bindings or the koid is unbound. */
    method FromId(id: nat) returns (holder: Option<ViewHolder>)
      ensures holder.Some? <==> bindings.Some? && id in bindings.value
      ensures holder.Some? ==> holder.value == bindings.value[id]
    {
      if bindings.None? {
        return None;
      }
      if id !in bindings.value {
        return None;
      }
      return Some(bindings.value[id]);
    }
  }
}

/** What the view holder's setters and bindings promise. */
module ViewHolderProperties {
  import opened Wrappers
  import opened Geometry
  import opened ViewHolders

  /** The occlusion hint set is the one read back: left and top are the
      insets from the minimum, right and bottom from the maximum. */
  lemma OcclusionHintRoundTrip(p: ViewProperties, hint: Rect)
    ensures OcclusionHintOf(WithOcclusionHint(p, hint)) == hint
    ensures WithOcclusionHint(p, OcclusionHintOf(p)) == p
  {
  }

  /** Setting the same size twice is the same as setting it once, so the
      second call marks nothing changed. */
  lemma ResizeIsIdempotent(p: ViewProperties, size: Size)
    ensures Resized(Resized(p, size), size) == Resized(p, size)
    ensures !TrackedDiffers(Resized(p, size), Resized(Resized(p, size), size))
  {
  }

  /** A size with a side that is not positive leaves every tracked value
      alone, and so never marks the properties changed. */
  lemma EmptySizeTracksNothing(p: ViewProperties, size: Size)
    requires size.width <= 0.0 || size.height <= 0.0
    ensures !TrackedDiffers(p, Resized(p, size))
    ensures Resized(p, size).boundingBox.min.z == ArbitraryLargeDepth
  {
  }

  /** A positive size becomes the box's maximum extent, whatever the box
      held before. */
  lemma PositiveSizeIsTheExtent(p: ViewProperties, size: Size)
    requires size.width > 0.0 && size.height > 0.0
    ensures Resized(p, size).boundingBox.max.x == size.width
    ensures Resized(p, size).boundingBox.max.y == size.height
    ensures Resized(p, size).boundingBox.min.z == ArbitraryLargeDepth
    ensures OcclusionHintOf(Resized(p, size)) == OcclusionHintOf(p)
  {
  }

  /** After UpdateScene pushes the properties, setting the same values again
      marks nothing changed, and the next UpdateScene pushes nothing. */
  method SameValuesAreNotPushedAgain(holder: ViewHolder, size: Size, hint: Rect, focusable: bool,
                                     offset: Point)
    returns (commands: seq<SceneCommand>)
    requires holder.Valid()
    modifies holder
    ensures |commands| == 4
  {
    holder.SetSize(size);
    holder.SetOcclusionHint(hint);
    holder.SetFocusable(focusable);
    var created, pushed := holder.UpdateScene(0, offset, 255);
    ghost var scene := holder.viewProperties;
    holder.SetSize(size);
    ResizeIsIdempotent(scene, size);
    assert holder.viewProperties == scene;
    holder.SetOcclusionHint(hint);
    holder.SetFocusable(focusable);
    assert !holder.viewPropertiesChanged;
    created, commands := holder.UpdateScene(0, offset, 255);
  }

  /** A holder is reported to on_view_created once, on its first
      UpdateScene. */
  method CreationIsReportedOnce(resourceId: nat, offset: Point)
    returns (first: Option<nat>, second: Option<nat>)
    ensures first == Some(resourceId) && second == None
  {
    var holder := new ViewHolder(true);
    var commands;
    first, commands := holder.UpdateScene(resourceId, offset, 255);
    second, commands := holder.UpdateScene(resourceId + 1, offset, 255);
  }

  /** A koid created and destroyed again is unbound, and FromId finds no
      holder for it. */
  method BindingRoundTrip(registry: ViewHolderBindings, id: nat) returns (found: Option<ViewHolder>, reported: Option<nat>)
    requires registry.bindings.None? || id !in registry.bindings.value
    modifies registry
    ensures found == None && reported == None
  {
    var holder := registry.Create(id, true);
    reported := registry.Destroy(id, true);
    found := registry.FromId(id);
  }
}
