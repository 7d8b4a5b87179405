/** Shared vocabulary of the gesture pipeline: the tree mode, optional values,
    2D points and a few facts about real numbers used throughout. */
module Types {

  /** The two shapes of the tree (the TreeMode enum of types.ts). */
  datatype Mode = Assemble | Disperse

  /** A value that may be absent (`T | null` in the source). */
  datatype Option<T> = None | Some(value: T)

  /** A 2D point; the source's `{ x, y }` objects. */
  datatype Point = Point(x: real, y: real)

  function Abs(x: real): real
  {
    if x < 0.0 then -x else x
  }

  function Min(a: real, b: real): real
  {
    if a <= b then a else b
  }

  function Max(a: real, b: real): real
  {
    if a >= b then a else b
  }

  /** Left-to-right sum, the order in which an accumulating loop adds. */
  function Sum(s: seq<real>): real
  {
    if s == [] then 0.0 else Sum(s[..|s| - 1]) + s[|s| - 1]
  }

  /** `base` raised to a natural power. */
  function Pow(base: real, n: nat): real
  {
    if n == 0 then 1.0 else base * Pow(base, n - 1)
  }
}
