/** The optional value the lookups and one-shot triggers below return. */
module Options {

  datatype Option<T> = None | Some(value: T)

}

/**
 * Two-dimensional vectors over the reals, standing in for the engine's
 * single-precision Vector2. Only the operations the game code uses are
 * defined; square roots (magnitude, normalized) are not, they are given
 * by the caller wherever the code needs them.
 */
module Geometry {

  datatype Vec2 = Vec2(x: real, y: real)

  const Zero: Vec2 := Vec2(0.0, 0.0)

  /** Vector2.up */
  const Up: Vec2 := Vec2(0.0, 1.0)

  function Add(a: Vec2, b: Vec2): Vec2 {
    Vec2(a.x + b.x, a.y + b.y)
  }

  function Sub(a: Vec2, b: Vec2): Vec2 {
    Vec2(a.x - b.x, a.y - b.y)
  }

  function Scale(k: real, a: Vec2): Vec2 {
    Vec2(k * a.x, k * a.y)
  }

  function Dot(a: Vec2, b: Vec2): real {
    a.x * b.x + a.y * b.y
  }

  /** The direction along a surface with normal n: (n.y, -n.x). */
  function Tangent(n: Vec2): Vec2 {
    Vec2(n.y, -n.x)
  }

  function Abs(r: real): real {
    if r < 0.0 then -r else r
  }

  function Min(a: real, b: real): real {
    if a < b then a else b
  }

}
