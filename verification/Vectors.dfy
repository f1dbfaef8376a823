/** `src/lib/vector.c`: two-dimensional vectors, over exact reals. */
module Vectors {
  import opened Reals

  datatype Vector = Vector(x: real, y: real)

  const ZERO_VECTOR := Vector(0.0, 0.0)

  function Add(first: Vector, second: Vector): Vector {
    Vector(first.x + second.x, first.y + second.y)
  }

  function Multiply(vec: Vector, scalar: real): Vector {
    Vector(Times(vec.x, scalar), Times(vec.y, scalar))
  }

  /** Mirrors one component: the vertical one exactly when the normal has no horizontal part. */
  function ReflectOrthogonal(vec: Vector, normal: Vector): Vector {
    if normal.x == 0.0 then vec.(y := -vec.y) else vec.(x := -vec.x)
  }
}
