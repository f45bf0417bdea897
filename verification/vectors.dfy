/** The immutable 2D vector of src/Vector.ts, over exact reals.
    Every operation builds a new value; nothing is ever updated. */
module Vectors {

  datatype Vector = Vector(x: real, y: real)

  /** `new Vector()`: both coordinates default to 0, which makes it the
      neutral element of `add`. */
  function Zero(): (r: Vector)
    ensures forall v: Vector :: Add(v, r) == v && Add(r, v) == v
  {
    Vector(0.0, 0.0)
  }

  function Add(a: Vector, b: Vector): Vector
  {
    Vector(a.x + b.x, a.y + b.y)
  }

  function Subtract(a: Vector, b: Vector): Vector
  {
    Vector(a.x - b.x, a.y - b.y)
  }

  function Scale(a: Vector, scalar: real): Vector
  {
    Vector(a.x * scalar, a.y * scalar)
  }

  /** Mirror in the X axis: the y part is multiplied by -1. */
  function MirrorX(a: Vector): Vector
  {
    Vector(a.x, a.y * -1.0)
  }

  /** Mirror in the Y axis: the x part is multiplied by -1. */
  function MirrorY(a: Vector): Vector
  {
    Vector(a.x * -1.0, a.y)
  }

  predicate IsEqualTo(a: Vector, b: Vector)
  {
    a.x == b.x && a.y == b.y
  }

  predicate IsOppositeTo(a: Vector, b: Vector)
  {
    a.x == -b.x && a.y == -b.y
  }

  // ---------------------------------------------------------------------
  // Properties of the arithmetic

  /** add and subtract work coordinate by coordinate. */
  lemma AddSubtractComponentwise(a: Vector, b: Vector)
    ensures Add(a, b).x == a.x + b.x && Add(a, b).y == a.y + b.y
    ensures Subtract(a, b).x == a.x - b.x && Subtract(a, b).y == a.y - b.y
    ensures Subtract(a, b) == Add(a, Scale(b, -1.0))
  {
  }

  /** Component equality is exactly value equality of vectors. */
  lemma IsEqualToIsEquality(a: Vector, b: Vector)
    ensures IsEqualTo(a, b) <==> a == b
  {
  }

  /** The default vector is the identity of `add`; it is what a vector minus
      itself and a vector scaled by 0 give. */
  lemma ZeroIsIdentity(v: Vector)
    ensures Add(v, Zero()) == v && Add(Zero(), v) == v
    ensures Subtract(v, v) == Zero()
    ensures Scale(v, 0.0) == Zero()
  {
  }

  /** Subtracting what was added gives back the original vector. */
  lemma AddSubtractRoundTrip(a: Vector, b: Vector)
    ensures IsEqualTo(Subtract(Add(a, b), b), a)
    ensures Subtract(Add(a, b), b) == a
    ensures Add(Subtract(a, b), b) == a
  {
  }

  lemma AddCommutative(a: Vector, b: Vector)
    ensures IsEqualTo(Add(a, b), Add(b, a))
  {
  }

  lemma AddAssociative(a: Vector, b: Vector, c: Vector)
    ensures Add(Add(a, b), c) == Add(a, Add(b, c))
  {
  }

  /** Scaling by -1 gives the opposite vector, and adding it cancels. */
  lemma ScaleMinusOneIsOpposite(v: Vector)
    ensures IsOppositeTo(Scale(v, -1.0), v)
    ensures IsEqualTo(Add(v, Scale(v, -1.0)), Zero())
  {
  }

  /** Two vectors are opposite exactly when their sum is the zero vector. */
  lemma OppositeIffSumIsZero(v: Vector, w: Vector)
    ensures IsOppositeTo(v, w) <==> IsEqualTo(Add(v, w), Zero())
  {
  }

  lemma MirrorXNegatesOnlyY(v: Vector)
    ensures MirrorX(v).x == v.x && MirrorX(v).y == -v.y
    ensures IsEqualTo(MirrorX(MirrorX(v)), v)
  {
  }

  lemma MirrorYNegatesOnlyX(v: Vector)
    ensures MirrorY(v).x == -v.x && MirrorY(v).y == v.y
    ensures IsEqualTo(MirrorY(MirrorY(v)), v)
  {
  }

  /** Mirroring in both axes is the same as scaling by -1. */
  lemma MirrorBothIsOpposite(v: Vector)
    ensures MirrorX(MirrorY(v)) == Scale(v, -1.0)
    ensures IsOppositeTo(MirrorY(MirrorX(v)), v)
  {
  }

  lemma IsEqualToIsEquivalence(a: Vector, b: Vector, c: Vector)
    ensures IsEqualTo(a, a)
    ensures IsEqualTo(a, b) ==> IsEqualTo(b, a)
    ensures IsEqualTo(a, b) && IsEqualTo(b, c) ==> IsEqualTo(a, c)
  {
  }

  /** Being opposite is symmetric, and the opposite of an opposite is equal to the original. */
  lemma IsOppositeToSymmetric(a: Vector, b: Vector, c: Vector)
    ensures IsOppositeTo(a, b) ==> IsOppositeTo(b, a)
    ensures IsOppositeTo(a, b) && IsOppositeTo(b, c) ==> IsEqualTo(a, c)
    ensures !IsOppositeTo(a, a) <==> !IsEqualTo(a, Zero())
  {
  }
}
