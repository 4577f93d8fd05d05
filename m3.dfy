/** The 3x3 affine matrix library of the renderer, over exact reals.

    A matrix is the nine numbers `m0 .. m8` of the flat array the library
    passes around.  Reading the array row by row (row i holds m[3i], m[3i+1],
    m[3i+2]), a point is the row vector (x, y, 1) multiplied by the matrix,
    so the translation sits in `m6`, `m7` and `Multiply(a, b)` is the
    row-major product B * A: the point goes through `b` first, then `a`. */
module M3 {
  import opened Wrappers

  datatype Mat3 = Mat3(m0: real, m1: real, m2: real,
                       m3: real, m4: real, m5: real,
                       m6: real, m7: real, m8: real)

  /** A 2D point, the `[number, number]` pair of the library. */
  datatype Vec2 = Vec2(x: real, y: real)

  /** A rotation angle, given by its cosine and sine (no trigonometry here). */
  datatype Angle = Angle(cos: real, sin: real)

  /** The pairs that really are the cosine and sine of some angle. */
  type UnitAngle = a: Angle | a.cos * a.cos + a.sin * a.sin == 1.0 witness Angle(1.0, 0.0)

  /** Matrices that keep the homogeneous coordinate at 1: all the library builds. */
  predicate IsAffine(m: Mat3)
  {
    m.m2 == 0.0 && m.m5 == 0.0 && m.m8 == 1.0
  }

  function Identity(): (r: Mat3)
    ensures IsAffine(r)
  {
    Mat3(1.0, 0.0, 0.0, 0.0, 1.0, 0.0, 0.0, 0.0, 1.0)
  }

  function Translation(tx: real, ty: real): (r: Mat3)
    ensures IsAffine(r)
  {
    Mat3(1.0, 0.0, 0.0, 0.0, 1.0, 0.0, tx, ty, 1.0)
  }

  function Rotation(a: Angle): (r: Mat3)
    ensures IsAffine(r)
  {
    Mat3(a.cos, -a.sin, 0.0, a.sin, a.cos, 0.0, 0.0, 0.0, 1.0)
  }

  function Scaling(sx: real, sy: real): (r: Mat3)
    ensures IsAffine(r)
  {
    Mat3(sx, 0.0, 0.0, 0.0, sy, 0.0, 0.0, 0.0, 1.0)
  }

  /** Pixel space (origin top-left, y down) to clip space (y up). */
  function Projection(width: real, height: real): (r: Mat3)
    requires width != 0.0 && height != 0.0
    ensures IsAffine(r)
  {
    Mat3(2.0 / width, 0.0, 0.0, 0.0, -2.0 / height, 0.0, -1.0, 1.0, 1.0)
  }

  /** The library's `multiply(a, b)`: the row-major product B * A. */
  function Multiply(a: Mat3, b: Mat3): Mat3
  {
    Mat3(b.m0 * a.m0 + b.m1 * a.m3 + b.m2 * a.m6,
         b.m0 * a.m1 + b.m1 * a.m4 + b.m2 * a.m7,
         b.m0 * a.m2 + b.m1 * a.m5 + b.m2 * a.m8,
         b.m3 * a.m0 + b.m4 * a.m3 + b.m5 * a.m6,
         b.m3 * a.m1 + b.m4 * a.m4 + b.m5 * a.m7,
         b.m3 * a.m2 + b.m4 * a.m5 + b.m5 * a.m8,
         b.m6 * a.m0 + b.m7 * a.m3 + b.m8 * a.m6,
         b.m6 * a.m1 + b.m7 * a.m4 + b.m8 * a.m7,
         b.m6 * a.m2 + b.m7 * a.m5 + b.m8 * a.m8)
  }

  function Translate(mat: Mat3, tx: real, ty: real): Mat3
  {
    Multiply(Translation(tx, ty), mat)
  }

  function Rotate(mat: Mat3, a: Angle): Mat3
  {
    Multiply(Rotation(a), mat)
  }

  function Scale(mat: Mat3, sx: real, sy: real): Mat3
  {
    Multiply(Scaling(sx, sy), mat)
  }

  /** The cofactors `invert` computes, laid out as the matrix it scales by
      the reciprocal determinant (the adjugate, in the library's layout). */
  function Adjugate(m: Mat3): Mat3
  {
    Mat3(m.m8 * m.m4 - m.m5 * m.m7,
         -m.m8 * m.m1 + m.m2 * m.m7,
         m.m5 * m.m1 - m.m2 * m.m4,
         -m.m8 * m.m3 + m.m5 * m.m6,
         m.m8 * m.m0 - m.m2 * m.m6,
         -m.m5 * m.m0 + m.m2 * m.m3,
         m.m7 * m.m3 - m.m4 * m.m6,
         -m.m7 * m.m0 + m.m1 * m.m6,
         m.m4 * m.m0 - m.m1 * m.m3)
  }

  /** The determinant, expanded along the first row with those cofactors. */
  function Det(m: Mat3): real
  {
    var b := Adjugate(m);
    m.m0 * b.m0 + m.m1 * b.m3 + m.m2 * b.m6
  }

  /** Entry-wise multiplication by a scalar. */
  function Times(m: Mat3, k: real): Mat3
  {
    Mat3(m.m0 * k, m.m1 * k, m.m2 * k, m.m3 * k, m.m4 * k, m.m5 * k, m.m6 * k, m.m7 * k, m.m8 * k)
  }

  /** `None` (the library's `null`) exactly when the determinant is 0: there
      is no tolerance.  Otherwise the cofactors times the reciprocal. */
  function Invert(m: Mat3): Option<Mat3>
  {
    var det := Det(m);
    if det == 0.0 then None else Some(Times(Adjugate(m), 1.0 / det))
  }

  /** The row vector (x, y, 1) times `mat`; the third column is ignored. */
  function TransformPoint(p: Vec2, mat: Mat3): Vec2
  {
    Vec2(mat.m0 * p.x + mat.m3 * p.y + mat.m6,
         mat.m1 * p.x + mat.m4 * p.y + mat.m7)
  }

  // ---------------------------------------------------------------------
  // Algebraic laws of `Multiply`

  lemma MultiplyIdentity(m: Mat3)
    ensures Multiply(Identity(), m) == m
    ensures Multiply(m, Identity()) == m
  {
  }

  /** One entry of a triple product, summed in either order.  `x` is a
      column of `b * a`, `y` a row of `c * b`. */
  lemma RowColumnAssociates(c0: real, c1: real, c2: real, x0: real, x1: real, x2: real,
                            b: Mat3, a0: real, a1: real, a2: real, y0: real, y1: real, y2: real)
    requires x0 == b.m0 * a0 + b.m1 * a1 + b.m2 * a2
    requires x1 == b.m3 * a0 + b.m4 * a1 + b.m5 * a2
    requires x2 == b.m6 * a0 + b.m7 * a1 + b.m8 * a2
    requires y0 == c0 * b.m0 + c1 * b.m3 + c2 * b.m6
    requires y1 == c0 * b.m1 + c1 * b.m4 + c2 * b.m7
    requires y2 == c0 * b.m2 + c1 * b.m5 + c2 * b.m8
    ensures c0 * x0 + c1 * x1 + c2 * x2 == y0 * a0 + y1 * a1 + y2 * a2
  {
  }

  lemma MultiplyAssociative00(a: Mat3, b: Mat3, c: Mat3)
    ensures Multiply(Multiply(a, b), c).m0 == Multiply(a, Multiply(b, c)).m0
  {
    var x, y := Multiply(a, b), Multiply(b, c);
    RowColumnAssociates(c.m0, c.m1, c.m2, x.m0, x.m3, x.m6, b,
                        a.m0, a.m3, a.m6, y.m0, y.m1, y.m2);
  }

  lemma MultiplyAssociative01(a: Mat3, b: Mat3, c: Mat3)
    ensures Multiply(Multiply(a, b), c).m1 == Multiply(a, Multiply(b, c)).m1
  {
    var x, y := Multiply(a, b), Multiply(b, c);
    RowColumnAssociates(c.m0, c.m1, c.m2, x.m1, x.m4, x.m7, b,
                        a.m1, a.m4, a.m7, y.m0, y.m1, y.m2);
  }

  lemma MultiplyAssociative02(a: Mat3, b: Mat3, c: Mat3)
    ensures Multiply(Multiply(a, b), c).m2 == Multiply(a, Multiply(b, c)).m2
  {
    var x, y := Multiply(a, b), Multiply(b, c);
    RowColumnAssociates(c.m0, c.m1, c.m2, x.m2, x.m5, x.m8, b,
                        a.m2, a.m5, a.m8, y.m0, y.m1, y.m2);
  }

  lemma MultiplyAssociative10(a: Mat3, b: Mat3, c: Mat3)
    ensures Multiply(Multiply(a, b), c).m3 == Multiply(a, Multiply(b, c)).m3
  {
    var x, y := Multiply(a, b), Multiply(b, c);
    RowColumnAssociates(c.m3, c.m4, c.m5, x.m0, x.m3, x.m6, b,
                        a.m0, a.m3, a.m6, y.m3, y.m4, y.m5);
  }

  lemma MultiplyAssociative11(a: Mat3, b: Mat3, c: Mat3)
    ensures Multiply(Multiply(a, b), c).m4 == Multiply(a, Multiply(b, c)).m4
  {
    var x, y := Multiply(a, b), Multiply(b, c);
    RowColumnAssociates(c.m3, c.m4, c.m5, x.m1, x.m4, x.m7, b,
                        a.m1, a.m4, a.m7, y.m3, y.m4, y.m5);
  }

  lemma MultiplyAssociative12(a: Mat3, b: Mat3, c: Mat3)
    ensures Multiply(Multiply(a, b), c).m5 == Multiply(a, Multiply(b, c)).m5
  {
    var x, y := Multiply(a, b), Multiply(b, c);
    RowColumnAssociates(c.m3, c.m4, c.m5, x.m2, x.m5, x.m8, b,
                        a.m2, a.m5, a.m8, y.m3, y.m4, y.m5);
  }

  lemma MultiplyAssociative20(a: Mat3, b: Mat3, c: Mat3)
    ensures Multiply(Multiply(a, b), c).m6 == Multiply(a, Multiply(b, c)).m6
  {
    var x, y := Multiply(a, b), Multiply(b, c);
    RowColumnAssociates(c.m6, c.m7, c.m8, x.m0, x.m3, x.m6, b,
                        a.m0, a.m3, a.m6, y.m6, y.m7, y.m8);
  }

  lemma MultiplyAssociative21(a: Mat3, b: Mat3, c: Mat3)
    ensures Multiply(Multiply(a, b), c).m7 == Multiply(a, Multiply(b, c)).m7
  {
    var x, y := Multiply(a, b), Multiply(b, c);
    RowColumnAssociates(c.m6, c.m7, c.m8, x.m1, x.m4, x.m7, b,
                        a.m1, a.m4, a.m7, y.m6, y.m7, y.m8);
  }

  lemma MultiplyAssociative22(a: Mat3, b: Mat3, c: Mat3)
    ensures Multiply(Multiply(a, b), c).m8 == Multiply(a, Multiply(b, c)).m8
  {
    var x, y := Multiply(a, b), Multiply(b, c);
    RowColumnAssociates(c.m6, c.m7, c.m8, x.m2, x.m5, x.m8, b,
                        a.m2, a.m5, a.m8, y.m6, y.m7, y.m8);
  }

  /** Entry by entry, through the lemmas above. */
  lemma MultiplyAssociative(a: Mat3, b: Mat3, c: Mat3)
    ensures Multiply(Multiply(a, b), c) == Multiply(a, Multiply(b, c))
  {
    MultiplyAssociative00(a, b, c);
    MultiplyAssociative01(a, b, c);
    MultiplyAssociative02(a, b, c);
    MultiplyAssociative10(a, b, c);
    MultiplyAssociative11(a, b, c);
    MultiplyAssociative12(a, b, c);
    MultiplyAssociative20(a, b, c);
    MultiplyAssociative21(a, b, c);
    MultiplyAssociative22(a, b, c);
  }

  lemma MultiplyKeepsAffine(a: Mat3, b: Mat3)
    requires IsAffine(a) && IsAffine(b)
    ensures IsAffine(Multiply(a, b))
  {
  }

  lemma InvertKeepsAffine(m: Mat3)
    requires IsAffine(m) && Invert(m).Some?
    ensures IsAffine(Invert(m).value)
  {
  }

  // ---------------------------------------------------------------------
  // Points

  lemma TransformIdentity(p: Vec2)
    ensures TransformPoint(p, Identity()) == p
  {
  }

  lemma TransformTranslation(p: Vec2, tx: real, ty: real)
    ensures TransformPoint(p, Translation(tx, ty)) == Vec2(p.x + tx, p.y + ty)
  {
  }

  lemma TransformScaling(p: Vec2, sx: real, sy: real)
    ensures TransformPoint(p, Scaling(sx, sy)) == Vec2(sx * p.x, sy * p.y)
  {
  }

  /** The rotation matrix turns a point by minus its angle: clockwise when
      y points up, counter-clockwise on a y-down pixel grid. */
  lemma TransformRotation(p: Vec2, a: Angle)
    ensures TransformPoint(p, Rotation(a)) == Vec2(a.cos * p.x + a.sin * p.y, a.cos * p.y - a.sin * p.x)
  {
  }

  /** One coordinate of a point sent through `b` and then `a`: `q` is the
      point after `b`, `r0, r3, r6` a column of the product. */
  lemma CoordinateComposes(x: real, y: real, a0: real, a3: real, a6: real,
                           b0: real, b1: real, b2: real, b3: real, b4: real, b5: real,
                           b6: real, b7: real, b8: real,
                           qx: real, qy: real, r0: real, r3: real, r6: real)
    requires b2 == 0.0 && b5 == 0.0 && b8 == 1.0
    requires qx == b0 * x + b3 * y + b6 && qy == b1 * x + b4 * y + b7
    requires r0 == b0 * a0 + b1 * a3 + b2 * a6
    requires r3 == b3 * a0 + b4 * a3 + b5 * a6
    requires r6 == b6 * a0 + b7 * a3 + b8 * a6
    ensures r0 * x + r3 * y + r6 == a0 * qx + a3 * qy + a6
  {
  }

  /** `Multiply(a, b)` sends a point through `b` first, then through `a`,
      as long as `b` keeps the homogeneous coordinate at 1. */
  lemma TransformMultiply(p: Vec2, a: Mat3, b: Mat3)
    requires IsAffine(b)
    ensures TransformPoint(p, Multiply(a, b)) == TransformPoint(TransformPoint(p, b), a)
  {
    var r, q := Multiply(a, b), TransformPoint(p, b);
    CoordinateComposes(p.x, p.y, a.m0, a.m3, a.m6, b.m0, b.m1, b.m2, b.m3, b.m4, b.m5, b.m6, b.m7, b.m8,
                       q.x, q.y, r.m0, r.m3, r.m6);
    CoordinateComposes(p.x, p.y, a.m1, a.m4, a.m7, b.m0, b.m1, b.m2, b.m3, b.m4, b.m5, b.m6, b.m7, b.m8,
                       q.x, q.y, r.m1, r.m4, r.m7);
  }

  /** `translate` moves every image point by (tx, ty). */
  lemma TranslateMovesPoints(p: Vec2, mat: Mat3, tx: real, ty: real)
    requires IsAffine(mat)
    ensures TransformPoint(p, Translate(mat, tx, ty))
         == Vec2(TransformPoint(p, mat).x + tx, TransformPoint(p, mat).y + ty)
  {
    TransformMultiply(p, Translation(tx, ty), mat);
    TransformTranslation(TransformPoint(p, mat), tx, ty);
  }

  /** `rotate` turns every image point about the origin. */
  lemma RotateTurnsPoints(p: Vec2, mat: Mat3, a: Angle)
    requires IsAffine(mat)
    ensures var q := TransformPoint(p, mat);
            TransformPoint(p, Rotate(mat, a)) == Vec2(a.cos * q.x + a.sin * q.y, a.cos * q.y - a.sin * q.x)
  {
    TransformMultiply(p, Rotation(a), mat);
    TransformRotation(TransformPoint(p, mat), a);
  }

  /** `scale` stretches every image point away from the origin. */
  lemma ScaleStretchesPoints(p: Vec2, mat: Mat3, sx: real, sy: real)
    requires IsAffine(mat)
    ensures TransformPoint(p, Scale(mat, sx, sy))
         == Vec2(sx * TransformPoint(p, mat).x, sy * TransformPoint(p, mat).y)
  {
    TransformMultiply(p, Scaling(sx, sy), mat);
    TransformScaling(TransformPoint(p, mat), sx, sy);
  }

  /** The top-left pixel lands on clip (-1, 1), the bottom-right on (1, -1). */
  lemma ProjectionCorners(width: real, height: real)
    requires width != 0.0 && height != 0.0
    ensures TransformPoint(Vec2(0.0, 0.0), Projection(width, height)) == Vec2(-1.0, 1.0)
    ensures TransformPoint(Vec2(width, height), Projection(width, height)) == Vec2(1.0, -1.0)
  {
  }

  // ---------------------------------------------------------------------
  // Determinants

  /** `Det` written out entry by entry, along the first row. */
  lemma DetExpansion(m: Mat3)
    ensures Det(m) == m.m0 * (m.m8 * m.m4 - m.m5 * m.m7)
                    + m.m1 * (-m.m8 * m.m3 + m.m5 * m.m6)
                    + m.m2 * (m.m7 * m.m3 - m.m4 * m.m6)
  {
    var b := Adjugate(m);
    assert b.m0 == m.m8 * m.m4 - m.m5 * m.m7;
    assert b.m3 == -m.m8 * m.m3 + m.m5 * m.m6;
    assert b.m6 == m.m7 * m.m3 - m.m4 * m.m6;
  }

  /** The cofactor expansion the library uses is the determinant: it agrees
      with the rule of Sarrus, six signed products of one entry from each
      row and each column. */
  lemma DetSarrus(m: Mat3)
    ensures Det(m) == m.m0 * m.m4 * m.m8 + m.m1 * m.m5 * m.m6 + m.m2 * m.m3 * m.m7
                    - m.m2 * m.m4 * m.m6 - m.m1 * m.m3 * m.m8 - m.m0 * m.m5 * m.m7
  {
    DetExpansion(m);
  }

  /** `invert` gives up exactly on a zero determinant, with no tolerance. */
  lemma InvertNoneIff(m: Mat3)
    ensures Invert(m).None? <==>
            m.m0 * (m.m8 * m.m4 - m.m5 * m.m7)
            + m.m1 * (-m.m8 * m.m3 + m.m5 * m.m6)
            + m.m2 * (m.m7 * m.m3 - m.m4 * m.m6) == 0.0
  {
    DetExpansion(m);
  }

  lemma InvertSomeIff(m: Mat3)
    ensures Invert(m).Some? <==> Det(m) != 0.0
    ensures Invert(m).Some? ==> Invert(m).value == Times(Adjugate(m), 1.0 / Det(m))
  {
  }

  /** For an affine matrix only the upper-left 2x2 block counts. */
  lemma AffineDet(m: Mat3)
    requires IsAffine(m)
    ensures Det(m) == m.m0 * m.m4 - m.m1 * m.m3
  {
    DetExpansion(m);
  }

  /** The 2x2 block of a product of two affine matrices. */
  lemma BlockDetMultiply(a0: real, a1: real, a3: real, a4: real, a6: real, a7: real,
                         b0: real, b1: real, b2: real, b3: real, b4: real, b5: real,
                         r0: real, r1: real, r3: real, r4: real, da: real, db: real)
    requires b2 == 0.0 && b5 == 0.0
    requires da == a0 * a4 - a1 * a3 && db == b0 * b4 - b1 * b3
    requires r0 == b0 * a0 + b1 * a3 + b2 * a6
    requires r1 == b0 * a1 + b1 * a4 + b2 * a7
    requires r3 == b3 * a0 + b4 * a3 + b5 * a6
    requires r4 == b3 * a1 + b4 * a4 + b5 * a7
    ensures r0 * r4 - r1 * r3 == da * db
  {
  }

  /** The determinant is multiplicative on the matrices the library builds. */
  lemma AffineDetMultiply(a: Mat3, b: Mat3)
    requires IsAffine(a) && IsAffine(b)
    ensures Det(Multiply(a, b)) == Det(a) * Det(b)
  {
    var r := Multiply(a, b);
    MultiplyKeepsAffine(a, b);
    AffineDet(a);
    AffineDet(b);
    AffineDet(r);
    BlockDetMultiply(a.m0, a.m1, a.m3, a.m4, a.m6, a.m7, b.m0, b.m1, b.m2, b.m3, b.m4, b.m5,
                     r.m0, r.m1, r.m3, r.m4, Det(a), Det(b));
  }

  /** A product of affine matrices is invertible when both factors are. */
  lemma MultiplyInvertible(a: Mat3, b: Mat3)
    requires IsAffine(a) && IsAffine(b) && Det(a) != 0.0 && Det(b) != 0.0
    ensures Invert(Multiply(a, b)).Some?
  {
    AffineDetMultiply(a, b);
    InvertSomeIff(Multiply(a, b));
  }

  lemma ProjectionDet(width: real, height: real)
    requires width != 0.0 && height != 0.0
    ensures Det(Projection(width, height)) == (2.0 / width) * (-2.0 / height)
    ensures Det(Projection(width, height)) != 0.0
  {
    AffineDet(Projection(width, height));
  }

  lemma TranslationDet(tx: real, ty: real)
    ensures Det(Translation(tx, ty)) == 1.0
  {
    AffineDet(Translation(tx, ty));
  }

  lemma RotationDet(a: UnitAngle)
    ensures Det(Rotation(a)) == 1.0
  {
    AffineDet(Rotation(a));
  }

  lemma ScalingDet(sx: real, sy: real)
    ensures Det(Scaling(sx, sy)) == sx * sy
  {
    AffineDet(Scaling(sx, sy));
  }

  /** A scaling can be undone exactly when neither factor is 0. */
  lemma ScalingInvertible(sx: real, sy: real)
    ensures Invert(Scaling(sx, sy)).Some? <==> sx != 0.0 && sy != 0.0
  {
    ScalingDet(sx, sy);
    ProductNonzero(sx, sy);
    InvertSomeIff(Scaling(sx, sy));
  }

  lemma ProductNonzero(x: real, y: real)
    ensures x * y != 0.0 <==> x != 0.0 && y != 0.0
  {
    if x != 0.0 && y != 0.0 {
      assert x * y / y == x;
    }
  }
}
