/**
 * The few host-engine values the scripts handle themselves: entity ids and
 * two-dimensional vectors (RVector). The scripts only build, copy and add
 * vectors, so a vector is a pair of reals and no floating-point rounding is
 * modelled.
 */
module Host {

  /** An entity id as assigned by the host document. */
  type EntityId = int

  datatype Vector = Vector(x: real, y: real)

  /** `new RVector(0,0)`. */
  const Origin := Vector(0.0, 0.0)

  /** `a.operator_add(b)`: component-wise sum. */
  function Add(a: Vector, b: Vector): Vector {
    Vector(a.x + b.x, a.y + b.y)
  }
}
