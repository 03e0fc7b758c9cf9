/** What rotations and transforms mean: a rotation is conjugation by its quaternion, a composed transform applies one
    transform after the other. */
module Motions {
  import opened Prelude
  import opened Geometry

  /** The quaternion of a vector. */
  function Pure(v: Vec3): Quat {
    Quat(v.x, v.y, v.z, 0.0)
  }

  // The product

  const I := Quat(1.0, 0.0, 0.0, 0.0)
  const J := Quat(0.0, 1.0, 0.0, 0.0)
  const K := Quat(0.0, 0.0, 1.0, 0.0)
  const ONE := Quat(0.0, 0.0, 0.0, 1.0)

  function Opposite(q: Quat): Quat {
    Quat(-q.x, -q.y, -q.z, -q.w)
  }

  /** The multiplication table of the quaternions, which fixes their handedness. */
  lemma {:induction false} BasisProducts()
    ensures Product(I, J) == K && Product(J, K) == I && Product(K, I) == J
    ensures Product(J, I) == Opposite(K) && Product(K, J) == Opposite(I) && Product(I, K) == Opposite(J)
    ensures Product(I, I) == Product(J, J) == Product(K, K) == Opposite(ONE)
  {
  }

  lemma OneProduct(q: Quat)
    ensures Product(ONE, q) == q == Product(q, ONE)
  {
  }

  lemma AssociateTerms(a: real, b: real, c: real, d: real, e: real, f: real, g: real, h: real, x: real, y: real, z: real, w: real)
    ensures
      Part(Last(d, h, a, e, b, f, c, g), x, Part(d, e, a, h, b, g, c, f), w,
           Part(d, f, b, h, c, e, a, g), z, Part(d, g, c, h, a, f, b, e), y)
      == Part(d, Part(h, x, e, w, f, z, g, y), a, Last(h, w, e, x, f, y, g, z),
              b, Part(h, z, g, w, e, y, f, x), c, Part(h, y, f, w, g, x, e, z))
    ensures
      Last(Last(d, h, a, e, b, f, c, g), w, Part(d, e, a, h, b, g, c, f), x,
           Part(d, f, b, h, c, e, a, g), y, Part(d, g, c, h, a, f, b, e), z)
      == Last(d, Last(h, w, e, x, f, y, g, z), a, Part(h, x, e, w, f, z, g, y),
              b, Part(h, y, f, w, g, x, e, z), c, Part(h, z, g, w, e, y, f, x))
  {
  }

  lemma AssociatesXW(a: Quat, b: Quat, c: Quat)
    ensures Product(Product(a, b), c).x == Product(a, Product(b, c)).x
    ensures Product(Product(a, b), c).w == Product(a, Product(b, c)).w
  {
    hide Part, Last;
    AssociateTerms(a.x, a.y, a.z, a.w, b.x, b.y, b.z, b.w, c.x, c.y, c.z, c.w);
  }

  lemma CycledProducts(a: Quat, b: Quat, c: Quat)
    ensures Product(Product(Cycled(a), Cycled(b)), Cycled(c)) == Cycled(Product(Product(a, b), c))
    ensures Product(Cycled(a), Product(Cycled(b), Cycled(c))) == Cycled(Product(a, Product(b, c)))
  {
    hide Product, Norm;
    ProductCycles(a, b);
    ProductCycles(Product(a, b), c);
    ProductCycles(b, c);
    ProductCycles(a, Product(b, c));
  }

  lemma ProductAssociates(a: Quat, b: Quat, c: Quat)
    ensures Product(Product(a, b), c) == Product(a, Product(b, c))
  {
    hide Product;
    var (a1, b1, c1) := (Cycled(a), Cycled(b), Cycled(c));
    AssociatesXW(a, b, c);
    CycledProducts(a, b, c);
    AssociatesXW(a1, b1, c1);
    CycledProducts(a1, b1, c1);
    AssociatesXW(Cycled(a1), Cycled(b1), Cycled(c1));
  }

  lemma ConjugateProduct(a: Quat, b: Quat)
    ensures Conjugate(Product(a, b)) == Product(Conjugate(b), Conjugate(a))
  {
  }

  // Rotations

  lemma SandwichPolynomial(a: real, b: real, c: real, d: real, x: real, y: real, z: real)
    ensures
      Part(Last(d, 0.0, a, x, b, y, c, z), -a, Part(d, x, a, 0.0, b, z, c, y), d,
           Part(d, y, b, 0.0, c, x, a, z), -c, Part(d, z, c, 0.0, a, y, b, x), -b)
      == Sum3(a * a + d * d - b * b - c * c, x, Below(a, b, c, d), y, Above(a, c, b, d), z)
  {
  }

  lemma SandwichTerms(a: real, b: real, c: real, d: real, x: real, y: real, z: real)
    requires Squares(a, b, c, d) == 1.0
    ensures
      Part(Last(d, 0.0, a, x, b, y, c, z), -a, Part(d, x, a, 0.0, b, z, c, y), d,
           Part(d, y, b, 0.0, c, x, a, z), -c, Part(d, z, c, 0.0, a, y, b, x), -b)
      == Sum3(Diagonal(b, c), x, Below(a, b, c, d), y, Above(a, c, b, d), z)
    ensures
      Last(Last(d, 0.0, a, x, b, y, c, z), d, Part(d, x, a, 0.0, b, z, c, y), -a,
           Part(d, y, b, 0.0, c, x, a, z), -b, Part(d, z, c, 0.0, a, y, b, x), -c)
      == 0.0
  {
    assert Diagonal(b, c) == a * a + d * d - b * b - c * c;
    SandwichPolynomial(a, b, c, d, x, y, z);
  }

  lemma SandwichXW(q: Quat, v: Vec3)
    requires Norm(q) == 1.0
    ensures Product(Product(q, Pure(v)), Conjugate(q)).x == Rotate(q, v).x
    ensures Product(Product(q, Pure(v)), Conjugate(q)).w == 0.0
  {
    hide Part, Last, Sum3, Diagonal, Above, Below, Squares;
    SandwichTerms(q.x, q.y, q.z, q.w, v.x, v.y, v.z);
  }

  lemma RotateCycles(q: Quat, v: Vec3)
    ensures Rotate(Cycled(q), Turned(v)) == Turned(Rotate(q, v))
    ensures Pure(Turned(v)) == Cycled(Pure(v))
  {
    hide Dot, RowX, RowY, RowZ;
    RowsCycle(q);
    DotFacts(RowX(q), v);
    DotFacts(RowY(q), v);
    DotFacts(RowZ(q), v);
  }

  /** Rotating by a unit quaternion is conjugation by it. */
  lemma RotateIsConjugation(q: Quat, v: Vec3)
    requires Norm(q) == 1.0
    ensures Product(Product(q, Pure(v)), Conjugate(q)) == Pure(Rotate(q, v))
  {
    hide Product, Norm, Rotate;
    var (p, u) := (Cycled(q), Turned(v));
    SandwichXW(q, v);
    RotateCycles(q, v);
    ProductCycles(q, q);
    CycledProducts(q, Pure(v), Conjugate(q));
    SandwichXW(p, u);
    RotateCycles(p, u);
    ProductCycles(p, p);
    CycledProducts(p, Pure(u), Conjugate(p));
    SandwichXW(Cycled(p), Turned(u));
  }

  /** A product rotates by its right factor first and its left factor then. */
  lemma RotateProduct(a: Quat, b: Quat, v: Vec3)
    requires Norm(a) == 1.0 && Norm(b) == 1.0
    ensures Rotate(Product(a, b), v) == Rotate(a, Rotate(b, v))
  {
    hide Product, Norm, Rotate, Conjugate;
    var (a', b') := (Conjugate(a), Conjugate(b));
    ProductUnit(a, b);
    RotateIsConjugation(Product(a, b), v);
    RotateIsConjugation(b, v);
    RotateIsConjugation(a, Rotate(b, v));
    ConjugateProduct(a, b);
    ProductAssociates(a, b, Pure(v));
    ProductAssociates(Product(a, Product(b, Pure(v))), b', a');
    ProductAssociates(a, Product(b, Pure(v)), b');
    assert Pure(Rotate(Product(a, b), v)) == Pure(Rotate(a, Rotate(b, v)));
  }

  /** A quaternion along an axis turns counterclockwise about it, by twice its angle. */
  lemma TurnsCounterclockwise(s: real, c: real)
    requires s * s + c * c == 1.0
    ensures Rotate(Quat(0.0, 0.0, s, c), Vec3(1.0, 0.0, 0.0)) == Vec3(c * c - s * s, 2.0 * s * c, 0.0)
    ensures Rotate(Quat(s, 0.0, 0.0, c), Vec3(0.0, 1.0, 0.0)) == Vec3(0.0, c * c - s * s, 2.0 * s * c)
    ensures Rotate(Quat(0.0, s, 0.0, c), Vec3(0.0, 0.0, 1.0)) == Vec3(2.0 * s * c, 0.0, c * c - s * s)
  {
  }

  // Transforms

  lemma DotLinear(r: Vec3, a: Vec3, b: Vec3, k: real)
    ensures Dot(r, Add(a, b)) == Dot(r, a) + Dot(r, b) && Dot(r, Times(k, a)) == k * Dot(r, a)
  {
  }

  lemma RotateLinear(q: Quat, a: Vec3, b: Vec3, k: real)
    ensures Rotate(q, Add(a, b)) == Add(Rotate(q, a), Rotate(q, b)) && Rotate(q, Times(k, a)) == Times(k, Rotate(q, a))
  {
    hide Dot, RowX, RowY, RowZ;
    DotLinear(RowX(q), a, b, k);
    DotLinear(RowY(q), a, b, k);
    DotLinear(RowZ(q), a, b, k);
  }

  lemma Factor(k: real, a: real, b: real)
    ensures k * (a * b) == (k * a) * b
  {
  }

  lemma AddFacts(a: Vec3, b: Vec3, c: Vec3)
    ensures Add(a, Add(b, c)) == Add(Add(a, b), c) && Add(a, b) == Add(b, a)
  {
  }

  lemma TimesAdd(k: real, a: Vec3, b: Vec3)
    ensures Times(k, Add(a, b)) == Add(Times(k, a), Times(k, b))
  {
  }

  lemma TimesStretched(k: real, a: Vec3, b: Vec3)
    ensures Times(k, Stretched(a, b)) == Stretched(Times(k, a), b)
  {
    Factor(k, a.x, b.x);
    Factor(k, a.y, b.y);
    Factor(k, a.z, b.z);
  }

  lemma TimesTimes(k: real, m: real, n: real, a: Vec3)
    requires n == k * m
    ensures Times(k, Times(m, a)) == Times(n, a)
  {
    Factor(k, m, a.x);
    Factor(k, m, a.y);
    Factor(k, m, a.z);
  }

  lemma StretchedUniform(k: real, a: Vec3)
    ensures Stretched(Vec3(k, k, k), a) == Times(k, a)
  {
  }

  /** Composing applies the local transform first and the one of the parent then, to every point. */
  lemma ComposeMovesPoints(parent: Transform, local: Transform, v: Vec3)
    requires Proper(parent) && Proper(local) && Uniform(parent.scale)
    ensures PointOf(Compose(parent, local), v) == PointOf(parent, PointOf(local, v))
  {
    hide Rotate, Product, Add, Times, Stretched, Norm, NonZero;
    var (k, p, q) := (parent.scale.x, parent.rotation, local.rotation);
    var w := Stretched(local.scale, v);
    var (moved, turned) := (Rotate(p, Times(k, local.position)), Rotate(p, Times(k, Rotate(q, w))));
    assert PointOf(parent, PointOf(local, v)) == Add(parent.position, Add(moved, turned)) by {
      StretchedUniform(k, PointOf(local, v));
      TimesAdd(k, local.position, Rotate(q, w));
      RotateLinear(p, Times(k, local.position), Times(k, Rotate(q, w)), k);
    }
    assert Rotate(Product(p, q), Stretched(Times(k, local.scale), v)) == turned by {
      TimesStretched(k, local.scale, v);
      RotateLinear(q, w, w, k);
      RotateProduct(p, q, Times(k, w));
    }
    AddFacts(parent.position, moved, turned);
    AddFacts(moved, parent.position, turned);
  }

  /** Composition is associative: hanging a whole subtree elsewhere moves it as one. */
  lemma ComposeAssociates(a: Transform, b: Transform, c: Transform)
    requires Proper(a) && Proper(b) && Uniform(a.scale) && Uniform(b.scale)
    ensures Compose(Compose(a, b), c) == Compose(a, Compose(b, c))
  {
    hide Rotate, Product, Add, Times, Norm, NonZero;
    var (k, m, p, q) := (a.scale.x, b.scale.x, a.rotation, b.rotation);
    var inner, n := Rotate(q, Times(m, c.position)), Times(k, b.scale).x;
    TimesX(k, b.scale);
    var (moved, turned) := (Rotate(p, Times(k, b.position)), Rotate(p, Times(k, inner)));
    assert Compose(a, Compose(b, c)).position == Add(Add(turned, moved), a.position) by {
      TimesAdd(k, inner, b.position);
      RotateLinear(p, Times(k, inner), Times(k, b.position), k);
    }
    assert Rotate(Product(p, q), Times(n, c.position)) == turned by {
      TimesTimes(k, m, n, c.position);
      RotateLinear(q, Times(m, c.position), c.position, k);
      RotateProduct(p, q, Times(n, c.position));
    }
    TimesTimes(k, m, n, c.scale);
    ProductAssociates(p, q, c.rotation);
    AddFacts(turned, moved, a.position);
  }

  lemma TimesX(k: real, v: Vec3)
    ensures Times(k, v).x == k * v.x
  {
  }

  lemma ComposeIdentity(t: Transform)
    requires Uniform(t.scale)
    ensures Compose(IDENTITY, t) == t == Compose(t, IDENTITY)
  {
    OneProduct(t.rotation);
  }
}
