/** Exact-arithmetic stand-ins for the Skia value types the layer code uses:
    SkRect (left/top/right/bottom), SkISize, SkRRect and SkMatrix restricted to
    scale plus translate, so that mapping a rect and inverting a matrix are exact. */
module Geometry {

  function Min(a: real, b: real): (r: real)
    ensures r <= a && r <= b && (r == a || r == b)
  {
    if a <= b then a else b
  }

  function Max(a: real, b: real): (r: real)
    ensures r >= a && r >= b && (r == a || r == b)
  {
    if a >= b then a else b
  }

  /** SkRect: a rectangle given by its four edges. */
  datatype Rect = Rect(left: real, top: real, right: real, bottom: real) {

    function Width(): real { right - left }
    function Height(): real { bottom - top }

    /** SkRect::isEmpty: true unless left < right and top < bottom. */
    predicate IsEmpty() {
      !(left < right && top < bottom)
    }

    /** The edges are in order (what SkRect::sort establishes). */
    predicate IsSorted() {
      left <= right && top <= bottom
    }

    /** Plain edge containment of `other` in this rect. */
    predicate Contains(other: Rect) {
      left <= other.left && top <= other.top && other.right <= right && other.bottom <= bottom
    }

    /** SkRect::makeOffset. */
    function Offset(dx: real, dy: real): (r: Rect)
      ensures r.Width() == Width() && r.Height() == Height()
      ensures r.left == left + dx && r.top == top + dy
    {
      Rect(left + dx, top + dy, right + dx, bottom + dy)
    }

    /** SkRect::outset: moves every edge outwards by dx horizontally and dy vertically. */
    function Outset(dx: real, dy: real): (r: Rect)
      ensures dx >= 0.0 && dy >= 0.0 ==> r.Contains(this)
      ensures r.Width() == Width() + 2.0 * dx && r.Height() == Height() + 2.0 * dy
    {
      Rect(left - dx, top - dy, right + dx, bottom + dy)
    }

    /** SkRect::join: an empty argument changes nothing, an empty receiver is
        replaced by the argument, otherwise the smallest rect holding both. */
    function Join(other: Rect): (r: Rect)
      ensures other.IsEmpty() ==> r == this
      ensures !other.IsEmpty() && IsEmpty() ==> r == other
      ensures !other.IsEmpty() && !IsEmpty() ==> r.Contains(this) && r.Contains(other)
      ensures !other.IsEmpty() ==> r.Contains(other) && !r.IsEmpty()
    {
      if other.IsEmpty() then this
      else if IsEmpty() then other
      else Rect(Min(left, other.left), Min(top, other.top), Max(right, other.right), Max(bottom, other.bottom))
    }
  }

  /** SkRect::MakeEmpty. */
  const EmptyRect := Rect(0.0, 0.0, 0.0, 0.0)

  /** SkRect::MakeXYWH. */
  function MakeXYWH(x: real, y: real, w: real, h: real): (r: Rect)
    ensures r.Width() == w && r.Height() == h
    ensures r.IsEmpty() <==> w <= 0.0 || h <= 0.0
  {
    Rect(x, y, x + w, y + h)
  }

  /** SkSize / SkISize (integer frame sizes are a subset of these). */
  datatype Size = Size(width: real, height: real)

  /** SkRect::MakeSize. */
  function MakeSize(s: Size): (r: Rect)
    ensures r.left == 0.0 && r.top == 0.0 && r.Width() == s.width && r.Height() == s.height
  {
    Rect(0.0, 0.0, s.width, s.height)
  }

  /** SkRRect with one pair of corner radii used for every corner. */
  datatype RRect = RRect(rect: Rect, rx: real, ry: real)

  /** SkRRect::MakeRect: square corners. */
  function RRectFromRect(r: Rect): (rr: RRect)
    ensures rr.rect == r && rr.rx == 0.0 && rr.ry == 0.0
  {
    RRect(r, 0.0, 0.0)
  }

  /** SkRRect::MakeOval: corner radii are half the width and half the height. */
  function RRectFromOval(r: Rect): (rr: RRect)
    ensures rr.rect == r && 2.0 * rr.rx == r.Width() && 2.0 * rr.ry == r.Height()
  {
    RRect(r, r.Width() / 2.0, r.Height() / 2.0)
  }

  /** The shapes an SkPath can be recognised as (isRect, isRRect, isOval), plus
      every other path, of which only the bounds are kept. */
  datatype Path =
    | RectPath(r: Rect)
    | RRectPath(rr: RRect)
    | OvalPath(oval: Rect)
    | OtherPath(pathBounds: Rect)
  {
    /** SkPath::getBounds. */
    function Bounds(): Rect {
      match this
      case RectPath(r) => r
      case RRectPath(rr) => rr.rect
      case OvalPath(o) => o
      case OtherPath(b) => b
    }
  }

  /** A scale-plus-translate SkMatrix: x' = sx * x + tx, y' = sy * y + ty. */
  datatype Matrix = Matrix(sx: real, sy: real, tx: real, ty: real) {

    function MapX(x: real): real { sx * x + tx }
    function MapY(y: real): real { sy * y + ty }

    /** SkMatrix::invert succeeds exactly for non-zero scales. */
    predicate IsInvertible() {
      sx != 0.0 && sy != 0.0
    }

    /** SkMatrix::invert, for an invertible matrix. */
    function Inverse(): (inv: Matrix)
      requires IsInvertible()
      ensures inv.IsInvertible()
    {
      Matrix(1.0 / sx, 1.0 / sy, -tx / sx, -ty / sy)
    }

    /** SkMatrix::mapRect: maps the corners and sorts the result. */
    function MapRect(r: Rect): (m: Rect)
      ensures m.IsSorted()
    {
      Rect(Min(MapX(r.left), MapX(r.right)), Min(MapY(r.top), MapY(r.bottom)),
           Max(MapX(r.left), MapX(r.right)), Max(MapY(r.top), MapY(r.bottom)))
    }
  }

  const Identity := Matrix(1.0, 1.0, 0.0, 0.0)

  /** SkMatrix::Translate. */
  function Translate(dx: real, dy: real): Matrix { Matrix(1.0, 1.0, dx, dy) }

  /** SkMatrix::Scale. */
  function Scale(x: real, y: real): Matrix { Matrix(x, y, 0.0, 0.0) }

  /** SkMatrix::Concat(a, b): the matrix that applies b first and then a. */
  function Concat(a: Matrix, b: Matrix): (c: Matrix)
    ensures forall x :: c.MapX(x) == a.MapX(b.MapX(x))
    ensures forall y :: c.MapY(y) == a.MapY(b.MapY(y))
  {
    Matrix(a.sx * b.sx, a.sy * b.sy, a.sx * b.tx + a.tx, a.sy * b.ty + a.ty)
  }

  /** The inverse maps every mapped point back to where it came from. */
  lemma InverseMaps(m: Matrix, x: real, y: real)
    requires m.IsInvertible()
    ensures m.Inverse().MapX(m.MapX(x)) == x
    ensures m.Inverse().MapY(m.MapY(y)) == y
  {
    UndoAxis(m.sx, m.tx, x);
    UndoAxis(m.sy, m.ty, y);
  }

  lemma UndoAxis(s: real, t: real, x: real)
    requires s != 0.0
    ensures (1.0 / s) * (s * x + t) + -t / s == x
  {
    assert (1.0 / s) * (s * x + t) == (1.0 / s) * (s * x) + (1.0 / s) * t;
    assert (1.0 / s) * (s * x) == x;
    assert (1.0 / s) * t == t / s;
  }

  /** Sorting the two ends of a mapped interval is the same whether the map is
      applied in one step or as two successive maps. */
  lemma {:induction false} MapSpanCompose(a: real, b: real, c: real, d: real, lo: real, hi: real)
    ensures var m1 := Min(c * lo + d, c * hi + d);
            var m2 := Max(c * lo + d, c * hi + d);
            Min(a * m1 + b, a * m2 + b) == Min((a * c) * lo + (a * d + b), (a * c) * hi + (a * d + b)) &&
            Max(a * m1 + b, a * m2 + b) == Max((a * c) * lo + (a * d + b), (a * c) * hi + (a * d + b))
  {
    ComposedOffset(a, c, lo, d, b);
    ComposedOffset(a, c, hi, d, b);
    var u, v := c * lo + d, c * hi + d;
    if u <= v {
      ScaleKeepsOrder(a, u, v);
    } else {
      ScaleKeepsOrder(a, v, u);
    }
  }

  /** Scaling keeps the order of two values, or reverses it for a negative
      factor. */
  lemma ScaleKeepsOrder(a: real, u: real, v: real)
    requires u <= v
    ensures a >= 0.0 ==> a * u <= a * v
    ensures a < 0.0 ==> a * u >= a * v
  {
    assert a * v - a * u == a * (v - u);
  }

  /** Mapping through Concat(a, b) is mapping through b and then through a. */
  lemma MapRectConcat(a: Matrix, b: Matrix, r: Rect)
    ensures Concat(a, b).MapRect(r) == a.MapRect(b.MapRect(r))
  {
    MapRectConcatX(a, b, r);
    MapRectConcatY(a, b, r);
  }

  lemma MapRectConcatX(a: Matrix, b: Matrix, r: Rect)
    ensures Concat(a, b).MapRect(r).left == a.MapRect(b.MapRect(r)).left
    ensures Concat(a, b).MapRect(r).right == a.MapRect(b.MapRect(r)).right
  {
    MapSpanCompose(a.sx, a.tx, b.sx, b.tx, r.left, r.right);
  }

  lemma MapRectConcatY(a: Matrix, b: Matrix, r: Rect)
    ensures Concat(a, b).MapRect(r).top == a.MapRect(b.MapRect(r)).top
    ensures Concat(a, b).MapRect(r).bottom == a.MapRect(b.MapRect(r)).bottom
  {
    MapSpanCompose(a.sy, a.ty, b.sy, b.ty, r.top, r.bottom);
  }

  /** The identity leaves a sorted rect unchanged. */
  lemma MapRectIdentity(r: Rect)
    requires r.IsSorted()
    ensures Identity.MapRect(r) == r
  {
  }

  /** Mapping a sorted rect and mapping back through the inverse returns it. */
  lemma MapRectInverse(m: Matrix, r: Rect)
    requires m.IsInvertible() && r.IsSorted()
    ensures m.Inverse().MapRect(m.MapRect(r)) == r
  {
    MapRectConcat(m.Inverse(), m, r);
    var c := Concat(m.Inverse(), m);
    assert (1.0 / m.sx) * m.sx == 1.0 && (1.0 / m.sy) * m.sy == 1.0;
    assert (1.0 / m.sx) * m.tx + -m.tx / m.sx == 0.0;
    assert (1.0 / m.sy) * m.ty + -m.ty / m.sy == 0.0;
    assert c == Identity;
    MapRectIdentity(r);
  }

  /** Concat composes with the identity on either side. */
  lemma ConcatIdentity(m: Matrix)
    ensures Concat(Identity, m) == m && Concat(m, Identity) == m
  {
  }

  /** Concat is associative, so nested transforms may be grouped either way. */
  lemma ConcatAssociative(a: Matrix, b: Matrix, c: Matrix)
    ensures Concat(Concat(a, b), c) == Concat(a, Concat(b, c))
  {
    var ab, bc := Concat(a, b), Concat(b, c);
    assert ab == Matrix(a.sx * b.sx, a.sy * b.sy, a.sx * b.tx + a.tx, a.sy * b.ty + a.ty);
    assert bc == Matrix(b.sx * c.sx, b.sy * c.sy, b.sx * c.tx + b.tx, b.sy * c.ty + b.ty);
    MulAssociative(a.sx, b.sx, c.sx);
    MulAssociative(a.sy, b.sy, c.sy);
    ComposedOffset(a.sx, b.sx, c.tx, b.tx, a.tx);
    ComposedOffset(a.sy, b.sy, c.ty, b.ty, a.ty);
  }

  lemma MulAssociative(x: real, y: real, z: real)
    ensures (x * y) * z == x * (y * z)
  {
  }

  /** The offset of a composed map, grouped either way. */
  lemma ComposedOffset(s1: real, s2: real, t3: real, t2: real, t1: real)
    ensures (s1 * s2) * t3 + (s1 * t2 + t1) == s1 * (s2 * t3 + t2) + t1
  {
    MulAssociative(s1, s2, t3);
    assert s1 * (s2 * t3 + t2) == s1 * (s2 * t3) + s1 * t2;
  }

  /** The rects joined together from left to right starting from an empty
      rect, as a loop of SkRect::join calls does. */
  function JoinAll(rs: seq<Rect>): Rect
  {
    if |rs| == 0 then EmptyRect else JoinAll(rs[..|rs| - 1]).Join(rs[|rs| - 1])
  }

  /** The joined rect is empty exactly when every rect is, holds every
      non-empty rect, and lies inside any rect that holds every non-empty rect. */
  lemma {:induction false} JoinAllIsLeastBound(rs: seq<Rect>, bound: Rect)
    ensures JoinAll(rs).IsEmpty() <==> forall i :: 0 <= i < |rs| ==> rs[i].IsEmpty()
    ensures forall i :: 0 <= i < |rs| && !rs[i].IsEmpty() ==> JoinAll(rs).Contains(rs[i])
    ensures (exists i :: 0 <= i < |rs| && !rs[i].IsEmpty()) &&
            (forall i :: 0 <= i < |rs| && !rs[i].IsEmpty() ==> bound.Contains(rs[i]))
            ==> bound.Contains(JoinAll(rs))
    ensures (forall i :: 0 <= i < |rs| ==> rs[i].IsEmpty()) ==> JoinAll(rs) == EmptyRect
  {
    if |rs| > 0 {
      var init := rs[..|rs| - 1];
      var last := rs[|rs| - 1];
      JoinAllIsLeastBound(init, bound);
      assert forall i :: 0 <= i < |init| ==> init[i] == rs[i];
      if last.IsEmpty() {
        assert JoinAll(rs) == JoinAll(init);
      } else if JoinAll(init).IsEmpty() {
        assert JoinAll(rs) == last;
      } else {
        var j := JoinAll(init);
        assert forall i :: 0 <= i < |init| && !init[i].IsEmpty() ==> j.Contains(init[i]);
      }
    }
  }

  /** The inverse of a product is the product of the inverses in reverse order. */
  lemma InverseConcat(a: Matrix, b: Matrix)
    requires a.IsInvertible() && b.IsInvertible()
    ensures Concat(a, b).IsInvertible()
    ensures Concat(a, b).Inverse() == Concat(b.Inverse(), a.Inverse())
  {
    InverseConcatX(a, b);
    InverseConcatY(a, b);
  }

  lemma InverseConcatX(a: Matrix, b: Matrix)
    requires a.IsInvertible() && b.IsInvertible()
    ensures Concat(a, b).sx != 0.0
    ensures 1.0 / Concat(a, b).sx == Concat(b.Inverse(), a.Inverse()).sx
    ensures -Concat(a, b).tx / Concat(a, b).sx == Concat(b.Inverse(), a.Inverse()).tx
  {
    InverseOfComposed(a.sx, b.sx, a.tx, b.tx);
  }

  lemma InverseConcatY(a: Matrix, b: Matrix)
    requires a.IsInvertible() && b.IsInvertible()
    ensures Concat(a, b).sy != 0.0
    ensures 1.0 / Concat(a, b).sy == Concat(b.Inverse(), a.Inverse()).sy
    ensures -Concat(a, b).ty / Concat(a, b).sy == Concat(b.Inverse(), a.Inverse()).ty
  {
    InverseOfComposed(a.sy, b.sy, a.ty, b.ty);
  }

  /** Along one axis: undoing x -> s1 * (s2 * x + t2) + t1 is undoing the
      outer map and then the inner one. */
  lemma InverseOfComposed(s1: real, s2: real, t1: real, t2: real)
    requires s1 != 0.0 && s2 != 0.0
    ensures s1 * s2 != 0.0
    ensures 1.0 / (s1 * s2) == (1.0 / s2) * (1.0 / s1)
    ensures -(s1 * t2 + t1) / (s1 * s2) == (1.0 / s2) * (-t1 / s1) + -t2 / s2
  {
    var p := s1 * s2;
    assert (1.0 / s2) * (1.0 / s1) * p == 1.0;
    assert -(s1 * t2 + t1) / p == -(s1 * t2) / p + -t1 / p;
    assert -(s1 * t2) / p == -t2 / s2;
    assert -t1 / p == (1.0 / s2) * (-t1 / s1);
  }

  /** Mapping preserves emptiness of a sorted rect in both directions when the
      matrix is invertible, and a degenerate (zero-area, sorted) rect always
      maps to an empty one. */
  lemma MapRectEmptiness(m: Matrix, r: Rect)
    requires r.IsSorted()
    ensures r.IsEmpty() ==> m.MapRect(r).IsEmpty()
    ensures m.IsInvertible() && !r.IsEmpty() ==> !m.MapRect(r).IsEmpty()
  {
    if r.left == r.right {
      assert m.MapX(r.left) == m.MapX(r.right);
    }
    if r.top == r.bottom {
      assert m.MapY(r.top) == m.MapY(r.bottom);
    }
    if m.IsInvertible() && !r.IsEmpty() {
      MulStrict(m.sx, r.left, r.right);
      MulStrict(m.sy, r.top, r.bottom);
    }
  }

  lemma MulStrict(s: real, x: real, y: real)
    requires x < y && s != 0.0
    ensures s * x != s * y
  {
    assert s * y - s * x == s * (y - x);
  }

  lemma MapXMonotone(m: Matrix, x: real, y: real)
    requires x <= y
    ensures m.sx >= 0.0 ==> m.MapX(x) <= m.MapX(y)
    ensures m.sx < 0.0 ==> m.MapX(x) >= m.MapX(y)
    ensures m.sy >= 0.0 ==> m.MapY(x) <= m.MapY(y)
    ensures m.sy < 0.0 ==> m.MapY(x) >= m.MapY(y)
  {
    assert m.sx * y - m.sx * x == m.sx * (y - x);
    assert m.sy * y - m.sy * x == m.sy * (y - x);
  }

  /** Mapping is monotone: a rect inside another maps inside its image. */
  lemma MapRectMonotone(m: Matrix, inner: Rect, outer: Rect)
    requires inner.IsSorted() && outer.Contains(inner)
    ensures m.MapRect(outer).Contains(m.MapRect(inner))
  {
    MapXMonotone(m, outer.left, inner.left);
    MapXMonotone(m, inner.left, inner.right);
    MapXMonotone(m, inner.right, outer.right);
    MapXMonotone(m, outer.top, inner.top);
    MapXMonotone(m, inner.top, inner.bottom);
    MapXMonotone(m, inner.bottom, outer.bottom);
  }
}
