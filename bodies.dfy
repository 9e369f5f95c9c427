/** The value types shared by the force law and the integrator: a 3-component
    vector and a simulated point mass. Every `double` is a `real`. */
module Bodies {

  /** A position, velocity or acceleration. The datatype constructor is the
      three-argument constructor: it stores exactly the given components. */
  datatype Vector3 = Vector3(x: real, y: real, z: real)

  /** One point mass. `name` is a display label only; `mu` is the
      gravitational parameter (mass times the gravitational constant). */
  datatype Body = Body(name: string, pos: Vector3, vel: Vector3, mu: real)

  /** The default constructor `Vector3()`. */
  function Zero(): (z: Vector3)
    ensures forall v: Vector3 :: Add(v, z) == v
  {
    Vector3(0.0, 0.0, 0.0)
  }

  /** `operator+`: a fresh vector, the operands are values and stay as they were. */
  function Add(a: Vector3, b: Vector3): (sum: Vector3)
    ensures b == Vector3(0.0, 0.0, 0.0) ==> sum == a
    ensures a == Vector3(0.0, 0.0, 0.0) ==> sum == b
  {
    Vector3(a.x + b.x, a.y + b.y, a.z + b.z)
  }

  /** `operator-`. */
  function Sub(a: Vector3, b: Vector3): (diff: Vector3)
    ensures diff == Vector3(0.0, 0.0, 0.0) <==> a == b
  {
    Vector3(a.x - b.x, a.y - b.y, a.z - b.z)
  }

  /** The scalar product that the update loops write out component by component. */
  function Scale(k: real, v: Vector3): Vector3
  {
    Vector3(k * v.x, k * v.y, k * v.z)
  }

  /** The default constructor `Body()`: at rest at the origin, massless, unnamed. */
  function DefaultBody(): (b: Body)
    ensures b.pos == Zero() && b.vel == Zero() && b.mu == 0.0 && b.name == ""
  {
    Body("", Zero(), Zero(), 0.0)
  }

  /** The constructor `Body(pos, vel, mu)`, which leaves the name empty. */
  function NewBody(pos: Vector3, vel: Vector3, mu: real): (b: Body)
    ensures b.name == DefaultBody().name
  {
    Body("", pos, vel, mu)
  }

  lemma VectorComponentsStored(x: real, y: real, z: real, v: Vector3)
    ensures Vector3(x, y, z).x == x && Vector3(x, y, z).y == y && Vector3(x, y, z).z == z
    ensures Vector3(v.x, v.y, v.z) == v
  {
  }

  /** The default vector is the identity of `+` and what `v - v` gives. */
  lemma ZeroIsIdentity(v: Vector3)
    ensures Zero() == Vector3(0.0, 0.0, 0.0)
    ensures Add(Zero(), v) == v && Add(v, Zero()) == v
    ensures Sub(v, v) == Zero() && Sub(v, Zero()) == v
  {
  }

  /** `-` undoes `+` and the other way round; `+` does not depend on operand order. */
  lemma SubUndoesAdd(a: Vector3, b: Vector3)
    ensures Sub(Add(a, b), b) == a
    ensures Add(Sub(a, b), b) == a
    ensures Add(a, b) == Add(b, a)
  {
  }

  /** The three-argument constructor is the default body with pos, vel and mu
      overwritten, and with all three at their defaults it is the default body. */
  lemma NewBodyOverridesDefault(pos: Vector3, vel: Vector3, mu: real)
    ensures NewBody(pos, vel, mu) == DefaultBody().(pos := pos, vel := vel, mu := mu)
    ensures NewBody(pos, vel, mu).pos == pos && NewBody(pos, vel, mu).vel == vel
    ensures NewBody(pos, vel, mu).mu == mu && NewBody(pos, vel, mu).name == ""
    ensures NewBody(Zero(), Zero(), 0.0) == DefaultBody()
  {
  }
}
