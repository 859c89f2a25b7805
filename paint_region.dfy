/** PaintRegion: the screen area a layer subtree painted to, kept as a
    half-open index range [from, to) into one vector of screen-space rects
    that every region of a frame holds a shared reference to, so the regions
    own it jointly. */
module PaintRegions {
  import opened Wrappers
  import opened Geometry

  /** The shared, growable vector of screen rects. */
  class RectBuffer {
    var rects: seq<Rect>

    constructor ()
      ensures rects == []
    {
      rects := [];
    }

    /** Appends one rect; what is already there stays where it is. */
    method Push(r: Rect)
      modifies this
      ensures rects == old(rects) + [r]
    {
      rects := rects + [r];
    }
  }

  /** The rects a [from, to) view of `rects` covers. */
  function View(rects: seq<Rect>, from: nat, to: nat): (v: seq<Rect>)
    requires from <= to <= |rects|
    ensures |v| == to - from
    ensures forall i :: 0 <= i < |v| ==> v[i] == rects[from + i]
  {
    rects[from..to]
  }

  datatype PaintRegion = PaintRegion(rects: Option<RectBuffer>, from: nat, to: nat, readback: bool) {

    /** is_valid: false only for a default-constructed region, which has no vector. */
    predicate IsValid() {
      rects.Some?
    }

    /** Whether a layer in the subtree reads back from the surface. */
    predicate HasReadback() {
      readback
    }

    /** The range lies inside the shared vector. */
    predicate InRange()
      reads if rects.Some? then {rects.value} else {}
    {
      rects.Some? && from <= to <= |rects.value.rects|
    }

    /** begin(): only defined for a valid region; the iterator at index `from`. */
    function Begin(): (i: nat)
      requires IsValid()
      ensures i == from
    {
      from
    }

    /** end(): only defined for a valid region; the iterator at index `to`. */
    function End(): (i: nat)
      requires IsValid()
      ensures i == to
    {
      to
    }

    /** The rects iteration from begin() to end() visits: exactly those of
        the shared vector at the indices [from, to), in order. */
    function Elements(): (e: seq<Rect>)
      requires InRange()
      reads rects.value
      ensures |e| == to - from
      ensures forall k :: 0 <= k < |e| ==> e[k] == rects.value.rects[from + k]
    {
      View(rects.value.rects, Begin(), End())
    }

    /** ComputeBounds: every rect of the region joined into one.  The bounds
        are empty exactly when every rect of the region is, and hold each
        non-empty one; ComputeBoundsIsLeastBound shows they are the least
        such rect. */
    function ComputeBounds(): (b: Rect)
      requires InRange()
      reads rects.value
      ensures b.IsEmpty() <==> forall k :: from <= k < to ==> rects.value.rects[k].IsEmpty()
      ensures forall k :: from <= k < to && !rects.value.rects[k].IsEmpty() ==> b.Contains(rects.value.rects[k])
    {
      ComputeBoundsIsLeastBound(rects.value.rects, from, to, EmptyRect);
      JoinAll(Elements())
    }
  }

  /** PaintRegion(): no vector, empty range, no readback. */
  function DefaultRegion(): (p: PaintRegion)
    ensures !p.IsValid() && p.from == 0 && p.to == 0 && !p.HasReadback()
  {
    PaintRegion(None, 0, 0, false)
  }

  /** PaintRegion(rects, from, to, has_readback): keeps a reference to the
      vector (it copies nothing) and the flag it was given. */
  function MakeRegion(rects: RectBuffer, from: nat, to: nat, hasReadback: bool): (p: PaintRegion)
    ensures p.IsValid() && p.rects == Some(rects)
    ensures p.HasReadback() <==> hasReadback
  {
    PaintRegion(Some(rects), from, to, hasReadback)
  }

  /** A region keeps describing the same rects while later layers append to
      the shared vector: appending never disturbs [from, to). */
  lemma ViewStableUnderAppend(rects: seq<Rect>, more: seq<Rect>, from: nat, to: nat)
    requires from <= to <= |rects|
    ensures View(rects + more, from, to) == View(rects, from, to)
  {
  }

  /** The bounds of a region hold each of its non-empty rects, are empty
      exactly when all of its rects are, and are the smallest such rect. */
  lemma ComputeBoundsIsLeastBound(rects: seq<Rect>, from: nat, to: nat, bound: Rect)
    requires from <= to <= |rects|
    ensures var v := View(rects, from, to);
            (JoinAll(v).IsEmpty() <==> forall i :: from <= i < to ==> rects[i].IsEmpty()) &&
            (forall i :: from <= i < to && !rects[i].IsEmpty() ==> JoinAll(v).Contains(rects[i])) &&
            (((forall i :: from <= i < to && !rects[i].IsEmpty() ==> bound.Contains(rects[i])) &&
              (exists i :: from <= i < to && !rects[i].IsEmpty()))
             ==> bound.Contains(JoinAll(v)))
  {
    var v := View(rects, from, to);
    JoinAllIsLeastBound(v, bound);
    forall i | from <= i < to
      ensures rects[i] == v[i - from]
    {
    }
    if exists i :: from <= i < to && !rects[i].IsEmpty() {
      var i :| from <= i < to && !rects[i].IsEmpty();
      assert !v[i - from].IsEmpty();
    }
  }

  /** Two regions built over the same vector by a push-only writer: a region
      recorded before more rects were pushed still yields the same rects. */
  method PushKeepsRegion(buffer: RectBuffer, p: PaintRegion, r: Rect)
    requires p.rects == Some(buffer) && p.InRange()
    modifies buffer
    ensures p.InRange()
    ensures p.Elements() == old(p.Elements())
  {
    ghost var before := buffer.rects;
    buffer.Push(r);
    ViewStableUnderAppend(before, [r], p.from, p.to);
  }
}
