/** Two-dimensional vectors over the reals, standing in for the f32 `Vec2`
    of the rendering library the flock is drawn with. Only the operations the
    flocking update uses are given; rounding is not modelled. */
module Vectors {

  datatype Vec2 = Vec2(x: real, y: real)

  const Zero: Vec2 := Vec2(0.0, 0.0)

  function Add(a: Vec2, b: Vec2): Vec2 {
    Vec2(a.x + b.x, a.y + b.y)
  }

  function Sub(a: Vec2, b: Vec2): Vec2 {
    Vec2(a.x - b.x, a.y - b.y)
  }

  function Neg(a: Vec2): Vec2 {
    Vec2(-a.x, -a.y)
  }

  /** `a * k` for a scalar `k`. */
  function Scale(a: Vec2, k: real): Vec2 {
    Vec2(a.x * k, a.y * k)
  }

  /** `a / k` for a scalar `k`, component by component. */
  function Div(a: Vec2, k: real): Vec2
    requires k != 0.0
  {
    Vec2(a.x / k, a.y / k)
  }

  /** The squared Euclidean length, `length()` squared. */
  function NormSq(a: Vec2): real {
    a.x * a.x + a.y * a.y
  }

  /** The squared Euclidean distance between two points. */
  function DistSq(a: Vec2, b: Vec2): real {
    NormSq(Sub(a, b))
  }

  lemma DistSqSymmetric(a: Vec2, b: Vec2)
    ensures DistSq(a, b) == DistSq(b, a)
  {
    assert (a.x - b.x) * (a.x - b.x) == (b.x - a.x) * (b.x - a.x);
    assert (a.y - b.y) * (a.y - b.y) == (b.y - a.y) * (b.y - a.y);
  }

  lemma ScaleDistributes(a: Vec2, b: Vec2, k: real)
    ensures Scale(Add(a, b), k) == Add(Scale(a, k), Scale(b, k))
  {
    assert (a.x + b.x) * k == a.x * k + b.x * k;
    assert (a.y + b.y) * k == a.y * k + b.y * k;
  }
}
