/** Exact translation-rotation-scale algebra: doubles become reals, and every rotation has unit norm. */
module Geometry {
  import opened Prelude

  datatype Vec3 = Vec3(x: real, y: real, z: real)
  datatype Quat = Quat(x: real, y: real, z: real, w: real)
  datatype Transform = Transform(position: Vec3, rotation: Quat, scale: Vec3)

  const IDENTITY := Transform(Vec3(0.0, 0.0, 0.0), Quat(0.0, 0.0, 0.0, 1.0), Vec3(1.0, 1.0, 1.0))

  function Squares(x: real, y: real, z: real, w: real): real {
    x * x + y * y + z * z + w * w
  }

  function Sum3(a: real, d: real, b: real, e: real, c: real, f: real): real {
    a * d + b * e + c * f
  }

  /** Squared norm of a quaternion. */
  function Norm(q: Quat): real {
    Squares(q.x, q.y, q.z, q.w)
  }

  function Conjugate(q: Quat): Quat {
    Quat(-q.x, -q.y, -q.z, q.w)
  }

  /** One vector component and the scalar component of a quaternion product. */
  function Part(a: real, b: real, c: real, d: real, e: real, f: real, g: real, h: real): real {
    a * b + c * d + e * f - g * h
  }

  function Last(a: real, b: real, c: real, d: real, e: real, f: real, g: real, h: real): real {
    a * b - c * d - e * f - g * h
  }

  function Product(a: Quat, b: Quat): Quat {
    Quat(Part(a.w, b.x, a.x, b.w, a.y, b.z, a.z, b.y),
         Part(a.w, b.y, a.y, b.w, a.z, b.x, a.x, b.z),
         Part(a.w, b.z, a.z, b.w, a.x, b.y, a.y, b.x),
         Last(a.w, b.w, a.x, b.x, a.y, b.y, a.z, b.z))
  }

  /** The entries of the rotation matrix of a quaternion. */
  function Diagonal(y: real, z: real): real {
    1.0 - 2.0 * (y * y + z * z)
  }

  function Above(x: real, y: real, z: real, w: real): real {
    2.0 * (x * y + z * w)
  }

  function Below(x: real, y: real, z: real, w: real): real {
    2.0 * (x * y - z * w)
  }

  function RowX(q: Quat): Vec3 {
    Vec3(Diagonal(q.y, q.z), Below(q.x, q.y, q.z, q.w), Above(q.x, q.z, q.y, q.w))
  }

  function RowY(q: Quat): Vec3 {
    Vec3(Above(q.x, q.y, q.z, q.w), Diagonal(q.x, q.z), Below(q.y, q.z, q.x, q.w))
  }

  function RowZ(q: Quat): Vec3 {
    Vec3(Below(q.x, q.z, q.y, q.w), Above(q.y, q.z, q.x, q.w), Diagonal(q.x, q.y))
  }

  function Dot(a: Vec3, b: Vec3): real {
    Sum3(a.x, b.x, a.y, b.y, a.z, b.z)
  }

  function Rotate(q: Quat, v: Vec3): Vec3 {
    Vec3(Dot(RowX(q), v), Dot(RowY(q), v), Dot(RowZ(q), v))
  }

  function Add(a: Vec3, b: Vec3): Vec3 {
    Vec3(a.x + b.x, a.y + b.y, a.z + b.z)
  }

  function Minus(a: Vec3, b: Vec3): Vec3 {
    Vec3(a.x - b.x, a.y - b.y, a.z - b.z)
  }

  function Times(k: real, v: Vec3): Vec3 {
    Vec3(k * v.x, k * v.y, k * v.z)
  }

  function Stretched(s: Vec3, v: Vec3): Vec3 {
    Vec3(s.x * v.x, s.y * v.y, s.z * v.z)
  }

  /** Where a transform takes a point. */
  function PointOf(t: Transform, v: Vec3): Vec3 {
    Add(t.position, Rotate(t.rotation, Stretched(t.scale, v)))
  }

  function Over(v: Vec3, k: real): Vec3
    requires k != 0.0
  {
    Vec3(v.x / k, v.y / k, v.z / k)
  }

  predicate NonZero(v: Vec3) {
    v.x != 0.0 && v.y != 0.0 && v.z != 0.0
  }

  /** A transform a slot may hold: unit rotation and no vanishing scale component. */
  predicate Proper(t: Transform) {
    Norm(t.rotation) == 1.0 && NonZero(t.scale)
  }

  /** The scale a parent must have. */
  predicate Uniform(v: Vec3) {
    v.x > 0.0 && v.x == v.y == v.z
  }

  /** World transform of a child placed at `local` under `parent`. */
  function Compose(parent: Transform, local: Transform): Transform {
    var k := parent.scale.x;
    Transform(Add(Rotate(parent.rotation, Times(k, local.position)), parent.position),
              Product(parent.rotation, local.rotation),
              Times(k, local.scale))
  }

  /** The local transform that puts a child of `parent` at `value`. */
  function Relative(parent: Transform, value: Transform): Transform
    requires Uniform(parent.scale)
  {
    var k := parent.scale.x;
    var inverse := Conjugate(parent.rotation);
    Transform(Over(Rotate(inverse, Minus(value.position, parent.position)), k),
              Product(inverse, value.rotation),
              Over(value.scale, k))
  }

  // The polynomial identities are stated over plain numbers; the lemmas above them hide the products.

  lemma FourSquares(a: real, b: real, c: real, d: real, x: real, y: real, z: real, w: real)
    ensures Squares(d * x + a * w + b * z - c * y, d * y + b * w + c * x - a * z,
                    d * z + c * w + a * y - b * x, d * w - a * x - b * y - c * z)
         == Squares(a, b, c, d) * Squares(x, y, z, w)
  {
  }

  lemma PartSquares(a: real, b: real, c: real, d: real, x: real, y: real, z: real, w: real)
    ensures Squares(Part(d, x, a, w, b, z, c, y), Part(d, y, b, w, c, x, a, z), Part(d, z, c, w, a, y, b, x),
                    Last(d, w, a, x, b, y, c, z))
         == Squares(a, b, c, d) * Squares(x, y, z, w)
  {
    hide Squares;
    FourSquares(a, b, c, d, x, y, z, w);
  }

  lemma ProductUnit(a: Quat, b: Quat)
    requires Norm(a) == 1.0 && Norm(b) == 1.0
    ensures Norm(Product(a, b)) == 1.0
  {
    hide Squares, Part, Last;
    PartSquares(a.x, a.y, a.z, a.w, b.x, b.y, b.z, b.w);
  }

  lemma CancelTerms(a: real, b: real, c: real, d: real, x: real, y: real, z: real, w: real)
    ensures Part(d, Part(d, x, -a, w, -b, z, -c, y), a, Last(d, w, -a, x, -b, y, -c, z),
                 b, Part(d, z, -c, w, -a, y, -b, x), c, Part(d, y, -b, w, -c, x, -a, z))
         == Squares(a, b, c, d) * x
    ensures Last(d, Last(d, w, -a, x, -b, y, -c, z), a, Part(d, x, -a, w, -b, z, -c, y),
                 b, Part(d, y, -b, w, -c, x, -a, z), c, Part(d, z, -c, w, -a, y, -b, x))
         == Squares(a, b, c, d) * w
  {
  }

  lemma CancelsXW(q: Quat, r: Quat)
    requires Norm(q) == 1.0
    ensures Product(q, Product(Conjugate(q), r)).x == r.x
    ensures Product(q, Product(Conjugate(q), r)).w == r.w
  {
    hide Squares, Part, Last;
    CancelTerms(q.x, q.y, q.z, q.w, r.x, r.y, r.z, r.w);
  }

  function Cycled(q: Quat): Quat {
    Quat(q.y, q.z, q.x, q.w)
  }

  lemma Rotations(a: real, b: real, c: real, d: real, e: real, f: real, g: real, h: real)
    ensures Last(a, b, c, d, e, f, g, h) == Last(a, b, e, f, g, h, c, d)
    ensures Squares(a, b, c, d) == Squares(b, c, a, d)
  {
  }

  /** Renaming the axes commutes with the product. */
  lemma ProductCycles(a: Quat, b: Quat)
    ensures Product(Cycled(a), Cycled(b)) == Cycled(Product(a, b))
    ensures Conjugate(Cycled(a)) == Cycled(Conjugate(a))
    ensures Norm(Cycled(a)) == Norm(a)
  {
    hide Squares, Part, Last;
    Rotations(a.w, b.w, a.x, b.x, a.y, b.y, a.z, b.z);
    Rotations(a.x, a.y, a.z, a.w, 0.0, 0.0, 0.0, 0.0);
  }

  lemma ProductCancels(q: Quat, r: Quat)
    requires Norm(q) == 1.0
    ensures Product(q, Product(Conjugate(q), r)) == r
  {
    hide Product, Norm;
    var p, q1, r1 := Product(Conjugate(q), r), Cycled(q), Cycled(r);
    CancelsXW(q, r);
    ProductCycles(q, p);
    ProductCycles(Conjugate(q), r);
    ProductCycles(q1, Cycled(p));
    ProductCycles(Conjugate(q1), r1);
    CancelsXW(q1, r1);
    CancelsXW(Cycled(q1), Cycled(r1));
  }

  lemma RowTerms(x: real, y: real, z: real, w: real)
    ensures Sum3(Diagonal(y, z), Diagonal(y, z), Below(x, y, z, w), Below(x, y, z, w),
                 Above(x, z, y, w), Above(x, z, y, w))
         == 1.0 + (Squares(x, y, z, w) - 1.0) * (4.0 * (y * y + z * z))
  {
    assert (x * y - z * w) * (x * y - z * w) + (x * z + y * w) * (x * z + y * w)
        == (x * x + w * w) * (y * y + z * z);
  }

  lemma CrossTerms(x: real, y: real, z: real, w: real)
    ensures Sum3(Diagonal(y, z), Below(x, z, y, w), Below(x, y, z, w), Above(y, z, x, w),
                 Above(x, z, y, w), Diagonal(x, y))
         == (Squares(x, y, z, w) - 1.0) * (-4.0 * (x * z))
  {
  }

  lemma Commutes(a: real, d: real, b: real, e: real, c: real, f: real)
    ensures Sum3(a, d, b, e, c, f) == Sum3(b, e, c, f, a, d)
    ensures Sum3(a, d, b, e, c, f) == Sum3(d, a, e, b, f, c)
  {
  }

  lemma RowsXZ(q: Quat)
    requires Norm(q) == 1.0
    ensures Dot(RowX(q), RowX(q)) == 1.0 && Dot(RowX(q), RowZ(q)) == 0.0
  {
    hide Squares, Sum3, Diagonal, Above, Below;
    RowTerms(q.x, q.y, q.z, q.w);
    CrossTerms(q.x, q.y, q.z, q.w);
  }

  function Turned(v: Vec3): Vec3 {
    Vec3(v.y, v.z, v.x)
  }

  lemma DotFacts(a: Vec3, b: Vec3)
    ensures Dot(Turned(a), Turned(b)) == Dot(a, b) == Dot(b, a)
  {
    hide Sum3;
    Commutes(a.x, b.x, a.y, b.y, a.z, b.z);
  }

  /** Renaming the axes turns one row into the next. */
  lemma RowsCycle(q: Quat)
    ensures RowX(Cycled(q)) == Turned(RowY(q))
    ensures RowY(Cycled(q)) == Turned(RowZ(q))
    ensures RowZ(Cycled(q)) == Turned(RowX(q))
  {
    hide Diagonal, Above, Below;
    CommutesEntries(q.x, q.y, q.z, q.w);
    CommutesEntries(q.x, q.z, q.y, q.w);
    CommutesEntries(q.y, q.z, q.x, q.w);
  }

  lemma CommutesEntries(x: real, y: real, z: real, w: real)
    ensures Above(x, y, z, w) == Above(y, x, z, w) && Below(x, y, z, w) == Below(y, x, z, w)
    ensures Diagonal(x, y) == Diagonal(y, x)
  {
  }

  /** The rows of a rotation matrix are orthonormal. */
  lemma Orthonormal(q: Quat)
    requires Norm(q) == 1.0
    ensures Dot(RowX(q), RowX(q)) == Dot(RowY(q), RowY(q)) == Dot(RowZ(q), RowZ(q)) == 1.0
    ensures Dot(RowX(q), RowY(q)) == Dot(RowX(q), RowZ(q)) == Dot(RowY(q), RowZ(q)) == 0.0
    ensures Dot(RowY(q), RowX(q)) == Dot(RowZ(q), RowX(q)) == Dot(RowZ(q), RowY(q)) == 0.0
  {
    hide Dot, Norm, RowX, RowY, RowZ, Turned;
    var p, r := Cycled(q), Cycled(Cycled(q));
    ProductCycles(q, q);
    ProductCycles(p, p);
    RowsCycle(q);
    RowsCycle(p);
    RowsXZ(q);
    RowsXZ(p);
    RowsXZ(r);
    DotFacts(RowY(q), RowY(q));
    DotFacts(RowY(q), RowX(q));
    DotFacts(RowX(q), RowZ(q));
    DotFacts(RowY(p), RowY(p));
    DotFacts(RowY(p), RowX(p));
    DotFacts(RowZ(q), RowZ(q));
    DotFacts(RowZ(q), RowY(q));
  }

  /** Applying three rows after their transpose takes the pairwise dot products. */
  lemma RowsAfterColumns(r: Vec3, a: Vec3, b: Vec3, c: Vec3, v: Vec3)
    ensures Dot(r, Vec3(Dot(Vec3(a.x, b.x, c.x), v), Dot(Vec3(a.y, b.y, c.y), v), Dot(Vec3(a.z, b.z, c.z), v)))
         == Sum3(Dot(r, a), v.x, Dot(r, b), v.y, Dot(r, c), v.z)
  {
  }

  lemma Negated(x: real, y: real, z: real, w: real)
    ensures Below(-x, -y, -z, w) == Above(x, y, z, w) && Above(-x, -y, -z, w) == Below(x, y, z, w)
    ensures Diagonal(-x, -y) == Diagonal(x, y)
  {
  }

  lemma Transposes(q: Quat)
    ensures
      var (a, b, c) := (RowX(q), RowY(q), RowZ(q));
      && RowX(Conjugate(q)) == Vec3(a.x, b.x, c.x)
      && RowY(Conjugate(q)) == Vec3(a.y, b.y, c.y)
      && RowZ(Conjugate(q)) == Vec3(a.z, b.z, c.z)
  {
    hide Diagonal, Above, Below;
    Negated(q.x, q.y, q.z, q.w);
    Negated(q.x, q.z, q.y, q.w);
    Negated(q.y, q.z, q.x, q.w);
  }

  lemma Pick(x: real, y: real, z: real)
    ensures Sum3(1.0, x, 0.0, y, 0.0, z) == x
    ensures Sum3(0.0, x, 1.0, y, 0.0, z) == y
    ensures Sum3(0.0, x, 0.0, y, 1.0, z) == z
  {
  }

  lemma RotateCancels(q: Quat, v: Vec3)
    requires Norm(q) == 1.0
    ensures Rotate(q, Rotate(Conjugate(q), v)) == v
  {
    hide Dot, Sum3, RowX, RowY, RowZ, Norm;
    Orthonormal(q);
    Transposes(q);
    var (a, b, c) := (RowX(q), RowY(q), RowZ(q));
    RowsAfterColumns(a, a, b, c, v);
    RowsAfterColumns(b, a, b, c, v);
    RowsAfterColumns(c, a, b, c, v);
    Pick(v.x, v.y, v.z);
  }

  lemma ConjugateFacts(q: Quat)
    ensures Conjugate(Conjugate(q)) == q && Norm(Conjugate(q)) == Norm(q)
  {
  }

  lemma OverTimes(k: real, v: Vec3)
    requires k != 0.0
    ensures Times(k, Over(v, k)) == v && Over(Times(k, v), k) == v
  {
  }

  /** Re-anchoring and composing are inverse: a child re-anchored under a parent stays where it is. */
  lemma ComposeRelative(parent: Transform, value: Transform)
    requires Proper(parent) && Uniform(parent.scale)
    ensures Compose(parent, Relative(parent, value)) == value
  {
    var k, q := parent.scale.x, parent.rotation;
    var back := Rotate(Conjugate(q), Minus(value.position, parent.position));
    OverTimes(k, back);
    OverTimes(k, value.scale);
    RotateCancels(q, Minus(value.position, parent.position));
    ProductCancels(q, value.rotation);
  }

  lemma RelativeCompose(parent: Transform, local: Transform)
    requires Proper(parent) && Uniform(parent.scale)
    ensures Relative(parent, Compose(parent, local)) == local
  {
    var k, q := parent.scale.x, parent.rotation;
    ConjugateFacts(q);
    var moved := Rotate(q, Times(k, local.position));
    assert Minus(Add(moved, parent.position), parent.position) == moved;
    RotateCancels(Conjugate(q), Times(k, local.position));
    OverTimes(k, local.position);
    OverTimes(k, local.scale);
    ProductCancels(Conjugate(q), local.rotation);
  }

  lemma PositiveFactor(k: real, a: real)
    requires k > 0.0
    ensures k * a > 0.0 <==> a > 0.0
    ensures k * a == 0.0 <==> a == 0.0
    ensures k * (a / k) == a && (k * a) / k == a
  {
  }

  lemma ScaleFacts(k: real, v: Vec3)
    requires k > 0.0 && NonZero(v)
    ensures NonZero(Times(k, v)) && NonZero(Over(v, k))
    ensures Uniform(Times(k, v)) <==> Uniform(v)
    ensures Uniform(Over(v, k)) <==> Uniform(v)
  {
    PositiveFactor(k, v.x);
    PositiveFactor(k, v.y);
    PositiveFactor(k, v.z);
    PositiveFactor(k, v.x / k);
    PositiveFactor(k, v.y / k);
    PositiveFactor(k, v.z / k);
  }

  /** Derived transforms are proper, so in exact arithmetic a derived transform is never rejected. */
  lemma DerivedProper(parent: Transform, other: Transform)
    requires Proper(parent) && Uniform(parent.scale) && Proper(other)
    ensures Proper(Compose(parent, other)) && Proper(Relative(parent, other))
    ensures Uniform(Compose(parent, other).scale) <==> Uniform(other.scale)
    ensures Uniform(Relative(parent, other).scale) <==> Uniform(other.scale)
  {
    ScaleFacts(parent.scale.x, other.scale);
    ProductUnit(parent.rotation, other.rotation);
    ConjugateFacts(parent.rotation);
    ProductUnit(Conjugate(parent.rotation), other.rotation);
  }
}
