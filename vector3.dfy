/**
 * Vector3<T> of Vector3.h over integers (the template is used with size_t
 * for face indices). Normalize, NormalizedLerp and RandomInUnitSphere are
 * floating point and not modelled.
 */
module Vector3 {
  datatype Vector3<T> = Vector3(X: T, Y: T, Z: T)

  /** What the default constructor builds. */
  const Default: Vector3<int> := Vector3(1, 1, 1)

  const Zero: Vector3<int> := Vector3(0, 0, 0)

  function Dot(a: Vector3<int>, b: Vector3<int>): int
  {
    a.X * b.X + a.Y * b.Y + a.Z * b.Z
  }

  function Sub(a: Vector3<int>, b: Vector3<int>): Vector3<int>
  {
    Vector3(a.X - b.X, a.Y - b.Y, a.Z - b.Z)
  }

  function Add(a: Vector3<int>, b: Vector3<int>): Vector3<int>
  {
    Vector3(a.X + b.X, a.Y + b.Y, a.Z + b.Z)
  }

  /** operator== compares the three components. */
  function Equals(a: Vector3<int>, b: Vector3<int>): (r: bool)
    ensures r <==> a == b
  {
    b.X == a.X && b.Y == a.Y && b.Z == a.Z
  }

  /** operator!= is written separately, as a disjunction of differences. */
  function NotEquals(a: Vector3<int>, b: Vector3<int>): (r: bool)
    ensures r <==> !Equals(a, b)
  {
    b.X != a.X || b.Y != a.Y || b.Z != a.Z
  }

  /** operator[]: components 0, 1, 2, and T() (zero) for any other index. */
  function At(v: Vector3<int>, i: int): (r: int)
    ensures i == 0 ==> r == v.X
    ensures i == 1 ==> r == v.Y
    ensures i == 2 ==> r == v.Z
    ensures i !in {0, 1, 2} ==> r == 0
  {
    match i
    case 0 => v.X
    case 1 => v.Y
    case 2 => v.Z
    case _ => 0
  }

  function MagnitudeSquared(v: Vector3<int>): int
  {
    Dot(v, v)
  }

  function Cross(a: Vector3<int>, b: Vector3<int>): Vector3<int>
  {
    Vector3(a.Y * b.Z - a.Z * b.Y, a.Z * b.X - a.X * b.Z, a.X * b.Y - a.Y * b.X)
  }

  /** The default vector is (1, 1, 1), not the zero vector. */
  lemma DefaultIsOnes()
    ensures Default.X == 1 && Default.Y == 1 && Default.Z == 1
    ensures Default != Zero && MagnitudeSquared(Default) == 3
  {
  }

  lemma DotSymmetric(a: Vector3<int>, b: Vector3<int>)
    ensures Dot(a, b) == Dot(b, a)
  {
  }

  /** The squared magnitude is never negative and is zero only for the zero vector. */
  lemma MagnitudeSquaredNonNegative(v: Vector3<int>)
    ensures MagnitudeSquared(v) >= 0
    ensures MagnitudeSquared(v) == 0 <==> v == Zero
  {
    SquarePositive(v.X);
    SquarePositive(v.Y);
    SquarePositive(v.Z);
  }

  lemma SquarePositive(n: int)
    ensures n * n >= 0
    ensures n != 0 ==> n * n > 0
  {
    if n < 0 {
      assert n * n == (-n) * (-n);
    }
  }

  /** Adding then subtracting the same vector gives the original back. */
  lemma AddSubCancel(a: Vector3<int>, b: Vector3<int>)
    ensures Sub(Add(a, b), b) == a
    ensures Add(Sub(a, b), b) == a
  {
  }

  lemma CrossSelfIsZero(a: Vector3<int>)
    ensures Cross(a, a) == Zero
  {
  }

  lemma CrossAntisymmetric(a: Vector3<int>, b: Vector3<int>)
    ensures Cross(a, b) == Sub(Zero, Cross(b, a))
  {
  }

  /** The cross product is orthogonal to both of its operands. */
  lemma CrossOrthogonal(a: Vector3<int>, b: Vector3<int>)
    ensures Dot(a, Cross(a, b)) == 0
    ensures Dot(b, Cross(a, b)) == 0
  {
  }
}
