/**
 * The older Vectors.h: Vector2, a second Vector3 template (the same
 * components and the same Dot, -, +, == and Cross expressions as Vector3.h,
 * so it is modelled by the Vector3 module) and Vector4, all over integers.
 */
module Vectors {
  import opened Vector3

  datatype Vector2<T> = Vector2(X: T, Y: T)

  /** Vector4 stores W first, then X, Y, Z. */
  datatype Vector4<T> = Vector4(W: T, X: T, Y: T, Z: T)

  /** What Vector4's default constructor builds. */
  const Default4: Vector4<int> := Vector4(1, 1, 1, 1)

  const Zero4: Vector4<int> := Vector4(0, 0, 0, 0)

  function Dot4(a: Vector4<int>, b: Vector4<int>): int
  {
    a.W * b.W + a.X * b.X + a.Y * b.Y + a.Z * b.Z
  }

  function Sub4(a: Vector4<int>, b: Vector4<int>): Vector4<int>
  {
    Vector4(a.W - b.W, a.X - b.X, a.Y - b.Y, a.Z - b.Z)
  }

  /** Written out component by component rather than through Dot. */
  function MagnitudeSquared4(v: Vector4<int>): (m: int)
    ensures m >= 0
  {
    SquarePositive(v.W);
    SquarePositive(v.X);
    SquarePositive(v.Y);
    SquarePositive(v.Z);
    v.W * v.W + v.X * v.X + v.Y * v.Y + v.Z * v.Z
  }

  /** A Vector2 keeps both components as given. */
  lemma Vector2Stores<T>(x: T, y: T)
    ensures Vector2(x, y).X == x && Vector2(x, y).Y == y
  {
  }

  /** The defaults of both templates are all ones. */
  lemma DefaultsAreOnes()
    ensures Default == Vector3(1, 1, 1)
    ensures Default4.W == 1 && Default4.X == 1 && Default4.Y == 1 && Default4.Z == 1
  {
  }

  /** The separately written squared magnitude agrees with Dot(v, v). */
  lemma MagnitudeSquared4IsDot(v: Vector4<int>)
    ensures MagnitudeSquared4(v) == Dot4(v, v)
  {
  }

  /** Subtraction is componentwise, so v - v is the zero vector. */
  lemma Sub4Self(v: Vector4<int>)
    ensures Sub4(v, v) == Zero4
  {
  }

  /** (a + b) - b == a under the componentwise operator==. */
  lemma AddSubEquals(a: Vector3<int>, b: Vector3<int>)
    ensures Equals(Sub(Add(a, b), b), a)
  {
    AddSubCancel(a, b);
  }
}
