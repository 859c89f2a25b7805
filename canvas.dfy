/** A recording SkCanvas, as the layer tests observe one: every call that
    reaches the device is logged with the save depth at which it was made.

    SkCanvas defers a save() until something changes the matrix or the clip:
    save() only bumps a per-level counter, and a deferred save that is never
    realized is undone by restore() without reaching the device.  The canvas
    therefore keeps one deferred-save counter per realized level; the depth
    the log shows is the number of realized levels.  A realized save at depth
    d is logged at d as SaveOp(d + 1); a realized restore at depth d is logged
    at d as RestoreOp(d - 1). */
module Canvas {
  import opened Geometry

  /** SkColor: 32-bit ARGB. */
  type Color = c: int | 0 <= c < 0x1_0000_0000

  /** SkColorGetA: the top byte. */
  function Alpha(c: Color): (a: int)
    ensures 0 <= a < 256
    ensures a == 0xff <==> c >= 0xff00_0000
  {
    c / 0x100_0000
  }

  /** One canvas call that reached the device. */
  datatype Op =
    | SaveOp(saveToDepth: nat)
    | SaveLayerOp(layerBounds: Rect, saveToDepth: nat)
    | RestoreOp(restoreToDepth: nat)
    | ConcatOp(matrix: Matrix)
    | ClipPathOp(clip: Path, antiAlias: bool)
    | DrawPathOp(path: Path, color: Color)
    | DrawPaintOp(color: Color)
    | DrawShadowOp(shadowPath: Path, shadowColor: Color, elevation: real, transparentOccluder: bool, dpr: real)
      /** Stands for everything a container layer's children draw. */
    | PaintChildrenOp
  {
    /** Calls that neither save, restore, nor change the matrix or clip. */
    predicate IsDraw() {
      DrawPathOp? || DrawPaintOp? || DrawShadowOp? || PaintChildrenOp?
    }
  }

  datatype DrawCall = DrawCall(depth: nat, op: Op)

  /** The log is well nested from depth `from` to depth `to`: each call is
      made at the current depth, a save or saveLayer opens the next level and
      a restore closes the current one. */
  predicate Nested(calls: seq<DrawCall>, from: nat, to: nat)
    decreases |calls|
  {
    if |calls| == 0 then from == to
    else
      calls[0].depth == from &&
      match calls[0].op
      case SaveOp(k) => k == from + 1 && Nested(calls[1..], from + 1, to)
      case SaveLayerOp(_, k) => k == from + 1 && Nested(calls[1..], from + 1, to)
      case RestoreOp(k) => from > 0 && k == from - 1 && Nested(calls[1..], from - 1, to)
      case _ => Nested(calls[1..], from, to)
  }

  /** Sum of the deferred-save counters. */
  function Sum(s: seq<nat>): nat
  {
    if |s| == 0 then 0 else Sum(s[..|s| - 1]) + s[|s| - 1]
  }

  /** SkCanvas::getSaveCount for a stack of deferred-save counters: one for the
      base level, plus every realized and every deferred save. */
  function SaveCountOf(stack: seq<nat>): nat
  {
    |stack| + Sum(stack)
  }

  /** One SkCanvas::restore: a deferred save on the top level is simply
      forgotten; otherwise the top level is popped and the restore logged;
      the base level is never popped. */
  function RestoreStep(stack: seq<nat>): (r: (seq<DrawCall>, seq<nat>))
    requires |stack| >= 1
    ensures |r.1| >= 1
  {
    var top := stack[|stack| - 1];
    if top > 0 then ([], stack[..|stack| - 1] + [top - 1])
    else if |stack| > 1 then ([DrawCall(|stack| - 1, RestoreOp(|stack| - 2))], stack[..|stack| - 1])
    else ([], stack)
  }

  /** n restores in a row: the calls they log and the stack they leave. */
  function Restores(stack: seq<nat>, n: nat): (r: (seq<DrawCall>, seq<nat>))
    requires |stack| >= 1
    ensures |r.1| >= 1
  {
    if n == 0 then ([], stack)
    else
      var before := Restores(stack, n - 1);
      var step := RestoreStep(before.1);
      (before.0 + step.0, step.1)
  }

  lemma SumSnoc(s: seq<nat>, x: nat)
    ensures Sum(s + [x]) == Sum(s) + x
  {
    assert (s + [x])[..|s|] == s;
  }

  /** Each restore below the base level lowers the save count by exactly one. */
  lemma {:induction false} RestoresLowerSaveCount(stack: seq<nat>, n: nat)
    requires |stack| >= 1 && n < SaveCountOf(stack)
    ensures SaveCountOf(Restores(stack, n).1) == SaveCountOf(stack) - n
  {
    if n > 0 {
      RestoresLowerSaveCount(stack, n - 1);
      var s := Restores(stack, n - 1).1;
      var init := s[..|s| - 1];
      assert s == init + [s[|s| - 1]];
      SumSnoc(init, s[|s| - 1]);
      if s[|s| - 1] > 0 {
        SumSnoc(init, s[|s| - 1] - 1);
      }
    }
  }

  class Canvas {
    /** Every call that reached the device, in order. */
    var calls: seq<DrawCall>
    /** Deferred-save counter of each realized level, the base level first. */
    var stack: seq<nat>

    predicate Valid()
      reads this
    {
      |stack| >= 1
    }

    /** The depth the log records: the number of realized saves. */
    function Depth(): nat
      reads this
      requires Valid()
    {
      |stack| - 1
    }

    /** SkCanvas::getSaveCount. */
    function SaveCount(): nat
      reads this
    {
      SaveCountOf(stack)
    }

    constructor ()
      ensures Valid() && calls == [] && stack == [0]
    {
      calls := [];
      stack := [0];
    }

    /** SkCanvas::save: defers the save and returns the save count from before the call. */
    method Save() returns (count: nat)
      requires Valid()
      modifies this
      ensures Valid()
      ensures count == old(SaveCount()) && SaveCount() == count + 1
      ensures calls == old(calls)
      ensures stack == old(stack[..|stack| - 1]) + [old(stack[|stack| - 1]) + 1]
    {
      var top := stack[|stack| - 1];
      SumSnoc(stack[..|stack| - 1], top);
      assert stack == stack[..|stack| - 1] + [top];
      count := SaveCount();
      stack := stack[..|stack| - 1] + [top + 1];
      SumSnoc(old(stack[..|stack| - 1]), top + 1);
    }

    /** SkCanvas::checkForDeferredSave: realizes one deferred save of the top
        level, if there is one, before the matrix or clip changes. */
    method CheckForDeferredSave()
      requires Valid()
      modifies this
      ensures Valid() && SaveCount() == old(SaveCount())
      ensures var top := old(stack[|stack| - 1]);
              if top > 0 then
                calls == old(calls) + [DrawCall(old(Depth()), SaveOp(old(Depth()) + 1))] &&
                stack == old(stack[..|stack| - 1]) + [top - 1, 0]
              else
                calls == old(calls) && stack == old(stack)
    {
      var top := stack[|stack| - 1];
      if top > 0 {
        var init := stack[..|stack| - 1];
        assert stack == init + [top];
        SumSnoc(init, top);
        calls := calls + [DrawCall(|stack| - 1, SaveOp(|stack|))];
        stack := init + [top - 1, 0];
        assert stack == (init + [top - 1]) + [0];
        SumSnoc(init + [top - 1], 0);
        SumSnoc(init, top - 1);
      }
    }

    /** SkCanvas::saveLayer with bounds and no paint: always reaches the device
        and opens a new level; returns the save count from before the call. */
    method SaveLayer(bounds: Rect) returns (count: nat)
      requires Valid()
      modifies this
      ensures Valid()
      ensures count == old(SaveCount()) && SaveCount() == count + 1
      ensures calls == old(calls) + [DrawCall(old(Depth()), SaveLayerOp(bounds, old(Depth()) + 1))]
      ensures stack == old(stack) + [0]
    {
      count := SaveCount();
      calls := calls + [DrawCall(|stack| - 1, SaveLayerOp(bounds, |stack|))];
      SumSnoc(stack, 0);
      stack := stack + [0];
    }

    /** SkCanvas::restore. */
    method Restore()
      requires Valid()
      modifies this
      ensures Valid()
      ensures calls == old(calls) + RestoreStep(old(stack)).0
      ensures stack == RestoreStep(old(stack)).1
    {
      var top := stack[|stack| - 1];
      if top > 0 {
        stack := stack[..|stack| - 1] + [top - 1];
      } else if |stack| > 1 {
        calls := calls + [DrawCall(|stack| - 1, RestoreOp(|stack| - 2))];
        stack := stack[..|stack| - 1];
      }
    }

    /** SkCanvas::restoreToCount: a count below 1 is treated as 1; restores
        until the save count is down to it, so a count at or above the
        current save count restores nothing. */
    method RestoreToCount(count: int)
      requires Valid()
      modifies this
      ensures Valid()
      ensures var target := if count < 1 then 1 else count;
              var n := if old(SaveCount()) > target then old(SaveCount()) - target else 0;
              calls == old(calls) + Restores(old(stack), n).0 &&
              stack == Restores(old(stack), n).1 &&
              SaveCount() == (if old(SaveCount()) > target then target else old(SaveCount()))
    {
      var target := if count < 1 then 1 else count;
      var n := SaveCount() - target;
      var i := 0;
      while i < n
        invariant Valid()
        invariant if n > 0 then 0 <= i <= n else i == 0
        invariant calls == old(calls) + Restores(old(stack), i).0
        invariant stack == Restores(old(stack), i).1
      {
        Restore();
        i := i + 1;
      }
      if n > 0 {
        assert i == n;
        RestoresLowerSaveCount(old(stack), n);
      } else {
        assert i == 0;
        assert Restores(old(stack), 0).0 == [];
      }
    }

    /** SkCanvas::concat: the identity changes nothing and logs nothing;
        otherwise a deferred save is realized first. */
    method Concat(m: Matrix)
      requires Valid()
      modifies this
      ensures Valid() && SaveCount() == old(SaveCount())
      ensures m == Identity ==> calls == old(calls) && stack == old(stack)
      ensures m != Identity && old(stack[|stack| - 1]) > 0 ==>
                calls == old(calls) + [DrawCall(old(Depth()), SaveOp(old(Depth()) + 1)),
                                       DrawCall(old(Depth()) + 1, ConcatOp(m))] &&
                stack == old(stack[..|stack| - 1]) + [old(stack[|stack| - 1]) - 1, 0]
      ensures m != Identity && old(stack[|stack| - 1]) == 0 ==>
                calls == old(calls) + [DrawCall(old(Depth()), ConcatOp(m))] && stack == old(stack)
    {
      if m != Identity {
        CheckForDeferredSave();
        calls := calls + [DrawCall(|stack| - 1, ConcatOp(m))];
      }
    }

    /** SkCanvas::clipPath: realizes a deferred save, then logs the clip. */
    method ClipPath(path: Path, antiAlias: bool)
      requires Valid()
      modifies this
      ensures Valid() && SaveCount() == old(SaveCount())
      ensures old(stack[|stack| - 1]) > 0 ==>
                calls == old(calls) + [DrawCall(old(Depth()), SaveOp(old(Depth()) + 1)),
                                       DrawCall(old(Depth()) + 1, ClipPathOp(path, antiAlias))] &&
                stack == old(stack[..|stack| - 1]) + [old(stack[|stack| - 1]) - 1, 0]
      ensures old(stack[|stack| - 1]) == 0 ==>
                calls == old(calls) + [DrawCall(old(Depth()), ClipPathOp(path, antiAlias))] && stack == old(stack)
    {
      CheckForDeferredSave();
      calls := calls + [DrawCall(|stack| - 1, ClipPathOp(path, antiAlias))];
    }

    /** Any drawing call, logged at the current depth; it realizes nothing. */
    method Draw(op: Op)
      requires Valid() && op.IsDraw()
      modifies this
      ensures Valid() && stack == old(stack)
      ensures calls == old(calls) + [DrawCall(Depth(), op)]
    {
      calls := calls + [DrawCall(|stack| - 1, op)];
    }
  }

  /** save() followed by restoreToCount(the count save returned), with the
      save still deferred: nothing reaches the device and the stack is back. */
  lemma DeferredSaveRestoresSilently(stack: seq<nat>)
    requires |stack| >= 1
    ensures var saved := stack[..|stack| - 1] + [stack[|stack| - 1] + 1];
            Restores(saved, 1) == ([], stack)
  {
    var saved := stack[..|stack| - 1] + [stack[|stack| - 1] + 1];
    assert saved[..|saved| - 1] == stack[..|stack| - 1];
    assert stack == stack[..|stack| - 1] + [stack[|stack| - 1]];
    assert Restores(saved, 0) == ([], saved);
    assert RestoreStep(saved) == ([], stack);
    assert Restores(saved, 1) == (Restores(saved, 0).0 + RestoreStep(saved).0, RestoreStep(saved).1);
    assert Restores(saved, 0).0 + RestoreStep(saved).0 == [];
  }

  /** save() whose level was realized by a matrix or clip change, followed by
      restoreToCount: exactly one restore is logged and the stack is back. */
  lemma RealizedSaveRestoresOnce(stack: seq<nat>)
    requires |stack| >= 1
    ensures var realized := stack + [0];
            Restores(realized, 1) == ([DrawCall(|stack|, RestoreOp(|stack| - 1))], stack)
  {
    var realized := stack + [0];
    assert realized[..|realized| - 1] == stack;
    var call := DrawCall(|stack|, RestoreOp(|stack| - 1));
    assert Restores(realized, 0) == ([], realized);
    assert RestoreStep(realized) == ([call], stack);
    assert Restores(realized, 1) == (Restores(realized, 0).0 + RestoreStep(realized).0, RestoreStep(realized).1);
    assert Restores(realized, 0).0 + RestoreStep(realized).0 == [call];
  }
  /** save() realized by a clip change and followed by saveLayer(), then
      restoreToCount(the count save returned): two restores are logged, the
      layer's first, and the stack is back. */
  lemma RealizedSaveAndLayerRestoreTwice(stack: seq<nat>)
    requires |stack| >= 1
    ensures var layered := stack + [0, 0];
            Restores(layered, 2) ==
              ([DrawCall(|stack| + 1, RestoreOp(|stack|)), DrawCall(|stack|, RestoreOp(|stack| - 1))], stack)
  {
    var layered := stack + [0, 0];
    assert layered[..|layered| - 1] == stack + [0];
    assert (stack + [0])[..|stack|] == stack;
    var first := DrawCall(|stack| + 1, RestoreOp(|stack|));
    var second := DrawCall(|stack|, RestoreOp(|stack| - 1));
    assert Restores(layered, 0) == ([], layered);
    assert RestoreStep(layered) == ([first], stack + [0]);
    assert Restores(layered, 1) == (Restores(layered, 0).0 + RestoreStep(layered).0, RestoreStep(layered).1);
    assert Restores(layered, 0).0 + RestoreStep(layered).0 == [first];
    assert Restores(layered, 1) == ([first], stack + [0]);
    assert RestoreStep(stack + [0]) == ([second], stack);
    assert Restores(layered, 2) == (Restores(layered, 1).0 + RestoreStep(stack + [0]).0, RestoreStep(stack + [0]).1);
    assert Restores(layered, 1).0 + RestoreStep(stack + [0]).0 == [first, second];
  }
}
