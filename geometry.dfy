/** Plane geometry shared by the whole game: pygame's `Vector2` and float
    rectangle (`FRect`), overlap tests and Python's `int()` on floats.
    Coordinates are idealised reals (no floating-point rounding). */
module Geometry {

  datatype Vec = Vec(x: real, y: real)
  {
    function Plus(v: Vec): Vec { Vec(x + v.x, y + v.y) }
    function Scale(k: real): Vec { Vec(x * k, y * k) }
  }

  /** A float rectangle given by its top-left corner and its size. */
  datatype FRect = FRect(x: real, y: real, w: real, h: real)
  {
    function Left(): real { x }
    function Right(): real { x + w }
    function Top(): real { y }
    function Bottom(): real { y + h }
    function TopLeft(): Vec { Vec(x, y) }
    function Center(): Vec { Vec(x + w / 2.0, y + h / 2.0) }

    /** Assigning one edge or the centre moves the rectangle and keeps its size. */
    function WithLeft(v: real): FRect { this.(x := v) }
    function WithRight(v: real): FRect { this.(x := v - w) }
    function WithTop(v: real): FRect { this.(y := v) }
    function WithBottom(v: real): FRect { this.(y := v - h) }
    function WithCenter(c: Vec): FRect { this.(x := c.x - w / 2.0, y := c.y - h / 2.0) }
    function Moved(d: Vec): FRect { this.(x := x + d.x, y := y + d.y) }

    /** `inflate(dx, dy)`: grow by `dx` and `dy` about the same centre. */
    function Inflate(dx: real, dy: real): (r: FRect)
      ensures r.Center() == Center()
      ensures r.w == w + dx && r.h == h + dy
    {
      FRect(x - dx / 2.0, y - dy / 2.0, w + dx, h + dy)
    }
  }

  function Min(a: real, b: real): real { if a <= b then a else b }
  function Max(a: real, b: real): real { if a <= b then b else a }

  /** `colliderect`: rectangles of non-zero size whose interiors overlap;
      rectangles that only share an edge do not collide. */
  predicate Collide(a: FRect, b: FRect)
  {
    && a.w != 0.0 && a.h != 0.0 && b.w != 0.0 && b.h != 0.0
    && Min(a.x, a.x + a.w) < Max(b.x, b.x + b.w)
    && Min(a.y, a.y + a.h) < Max(b.y, b.y + b.h)
    && Max(a.x, a.x + a.w) > Min(b.x, b.x + b.w)
    && Max(a.y, a.y + a.h) > Min(b.y, b.y + b.h)
  }

  /** For rectangles of positive size, colliding is the strict overlap of both
      extents; so a rectangle placed flush against another one never collides
      with it. */
  lemma CollideIsStrictOverlap(a: FRect, b: FRect)
    requires a.w > 0.0 && a.h > 0.0 && b.w > 0.0 && b.h > 0.0
    ensures Collide(a, b) <==>
      a.Left() < b.Right() && b.Left() < a.Right() && a.Top() < b.Bottom() && b.Top() < a.Bottom()
  {
  }

  /** Python's `int()` on a float: truncation toward zero. */
  function Trunc(r: real): (i: int)
    ensures 0.0 <= r ==> i as real <= r < i as real + 1.0
    ensures r <= 0.0 ==> i as real - 1.0 < r <= i as real
  {
    if r >= 0.0 then r.Floor else -((-r).Floor)
  }

  /** Python's `%` on floats with a positive divisor, `x - n * floor(x / n)`:
      the remainder takes the divisor's sign, so it lies in [0, n) whatever
      the sign of `x`. */
  function PyMod(x: real, n: real): (r: real)
    requires n > 0.0
    ensures 0.0 <= r < n
  {
    var q := x / n;
    var fraction := q - q.Floor as real;
    assert 0.0 <= fraction < 1.0;
    fraction * n
  }

  /** `int(x % n)` for a positive whole `n`: an index into a list of `n` frames. */
  function WrappedIndex(x: real, n: int): (i: int)
    requires n > 0
    ensures 0 <= i < n
  {
    Trunc(PyMod(x, n as real))
  }
}
