/** The inverse law of the library's `invert`: whenever it returns a
    matrix, that matrix is a two-sided inverse under `multiply`, and an
    affine matrix's inverse undoes it on points.

    Each of the eighteen entries of the two products is one lemma over plain
    reals (the cofactor identity, then the reciprocal), and one lemma that
    ties it to the entry of `Multiply`. */
module M3Inverse {
  import opened Wrappers
  import opened M3

  lemma RightCell00(m0: real, m1: real, m2: real, m3: real, m4: real, m5: real, m6: real, m7: real, m8: real, a0: real, a1: real, a2: real, a3: real, a6: real, d: real, k: real, i0: real, i1: real, i2: real)
    requires a0 == m8 * m4 - m5 * m7
    requires a1 == -m8 * m1 + m2 * m7
    requires a2 == m5 * m1 - m2 * m4
    requires a3 == -m8 * m3 + m5 * m6
    requires a6 == m7 * m3 - m4 * m6
    requires d == m0 * a0 + m1 * a3 + m2 * a6
    requires d * k == 1.0
    requires i0 == a0 * k
    requires i1 == a1 * k
    requires i2 == a2 * k
    ensures i0 * m0 + i1 * m3 + i2 * m6 == 1.0
  {
    assert m0 * a0 == m0 * m8 * m4 - m0 * m5 * m7;
    assert m3 * a1 == -m3 * m8 * m1 + m3 * m2 * m7;
    assert m6 * a2 == m6 * m5 * m1 - m6 * m2 * m4;
    assert m1 * a3 == -m1 * m8 * m3 + m1 * m5 * m6;
    assert m2 * a6 == m2 * m7 * m3 - m2 * m4 * m6;
    assert a0 * m0 + a1 * m3 + a2 * m6 == d;
    assert i0 * m0 + i1 * m3 + i2 * m6 == d * k;
  }

  lemma RightCell00Link(m: Mat3, inv: Mat3, k: real)
    requires Det(m) * k == 1.0
    requires inv.m0 == Adjugate(m).m0 * k
    requires inv.m1 == Adjugate(m).m1 * k
    requires inv.m2 == Adjugate(m).m2 * k
    ensures Multiply(m, inv).m0 == 1.0
  {
    var a := Adjugate(m);
    RightCell00(m.m0, m.m1, m.m2, m.m3, m.m4, m.m5, m.m6, m.m7, m.m8, a.m0, a.m1, a.m2, a.m3, a.m6, Det(m), k, inv.m0, inv.m1, inv.m2);
  }

  lemma RightCell01(m0: real, m1: real, m2: real, m3: real, m4: real, m5: real, m6: real, m7: real, m8: real, a0: real, a1: real, a2: real, k: real, i0: real, i1: real, i2: real)
    requires a0 == m8 * m4 - m5 * m7
    requires a1 == -m8 * m1 + m2 * m7
    requires a2 == m5 * m1 - m2 * m4
    requires i0 == a0 * k
    requires i1 == a1 * k
    requires i2 == a2 * k
    ensures i0 * m1 + i1 * m4 + i2 * m7 == 0.0
  {
    assert m1 * a0 == m1 * m8 * m4 - m1 * m5 * m7;
    assert m4 * a1 == -m4 * m8 * m1 + m4 * m2 * m7;
    assert m7 * a2 == m7 * m5 * m1 - m7 * m2 * m4;
    assert a0 * m1 + a1 * m4 + a2 * m7 == 0.0;
    assert i0 * m1 + i1 * m4 + i2 * m7 == (a0 * m1 + a1 * m4 + a2 * m7) * k;
  }

  lemma RightCell01Link(m: Mat3, inv: Mat3, k: real)
    requires inv.m0 == Adjugate(m).m0 * k
    requires inv.m1 == Adjugate(m).m1 * k
    requires inv.m2 == Adjugate(m).m2 * k
    ensures Multiply(m, inv).m1 == 0.0
  {
    var a := Adjugate(m);
    RightCell01(m.m0, m.m1, m.m2, m.m3, m.m4, m.m5, m.m6, m.m7, m.m8, a.m0, a.m1, a.m2, k, inv.m0, inv.m1, inv.m2);
  }

  lemma RightCell02(m0: real, m1: real, m2: real, m3: real, m4: real, m5: real, m6: real, m7: real, m8: real, a0: real, a1: real, a2: real, k: real, i0: real, i1: real, i2: real)
    requires a0 == m8 * m4 - m5 * m7
    requires a1 == -m8 * m1 + m2 * m7
    requires a2 == m5 * m1 - m2 * m4
    requires i0 == a0 * k
    requires i1 == a1 * k
    requires i2 == a2 * k
    ensures i0 * m2 + i1 * m5 + i2 * m8 == 0.0
  {
    assert m2 * a0 == m2 * m8 * m4 - m2 * m5 * m7;
    assert m5 * a1 == -m5 * m8 * m1 + m5 * m2 * m7;
    assert m8 * a2 == m8 * m5 * m1 - m8 * m2 * m4;
    assert a0 * m2 + a1 * m5 + a2 * m8 == 0.0;
    assert i0 * m2 + i1 * m5 + i2 * m8 == (a0 * m2 + a1 * m5 + a2 * m8) * k;
  }

  lemma RightCell02Link(m: Mat3, inv: Mat3, k: real)
    requires inv.m0 == Adjugate(m).m0 * k
    requires inv.m1 == Adjugate(m).m1 * k
    requires inv.m2 == Adjugate(m).m2 * k
    ensures Multiply(m, inv).m2 == 0.0
  {
    var a := Adjugate(m);
    RightCell02(m.m0, m.m1, m.m2, m.m3, m.m4, m.m5, m.m6, m.m7, m.m8, a.m0, a.m1, a.m2, k, inv.m0, inv.m1, inv.m2);
  }

  lemma RightCell10(m0: real, m1: real, m2: real, m3: real, m4: real, m5: real, m6: real, m7: real, m8: real, a3: real, a4: real, a5: real, k: real, i3: real, i4: real, i5: real)
    requires a3 == -m8 * m3 + m5 * m6
    requires a4 == m8 * m0 - m2 * m6
    requires a5 == -m5 * m0 + m2 * m3
    requires i3 == a3 * k
    requires i4 == a4 * k
    requires i5 == a5 * k
    ensures i3 * m0 + i4 * m3 + i5 * m6 == 0.0
  {
    assert m0 * a3 == -m0 * m8 * m3 + m0 * m5 * m6;
    assert m3 * a4 == m3 * m8 * m0 - m3 * m2 * m6;
    assert m6 * a5 == -m6 * m5 * m0 + m6 * m2 * m3;
    assert a3 * m0 + a4 * m3 + a5 * m6 == 0.0;
    assert i3 * m0 + i4 * m3 + i5 * m6 == (a3 * m0 + a4 * m3 + a5 * m6) * k;
  }

  lemma RightCell10Link(m: Mat3, inv: Mat3, k: real)
    requires inv.m3 == Adjugate(m).m3 * k
    requires inv.m4 == Adjugate(m).m4 * k
    requires inv.m5 == Adjugate(m).m5 * k
    ensures Multiply(m, inv).m3 == 0.0
  {
    var a := Adjugate(m);
    RightCell10(m.m0, m.m1, m.m2, m.m3, m.m4, m.m5, m.m6, m.m7, m.m8, a.m3, a.m4, a.m5, k, inv.m3, inv.m4, inv.m5);
  }

  lemma RightCell11(m0: real, m1: real, m2: real, m3: real, m4: real, m5: real, m6: real, m7: real, m8: real, a0: real, a3: real, a4: real, a5: real, a6: real, d: real, k: real, i3: real, i4: real, i5: real)
    requires a0 == m8 * m4 - m5 * m7
    requires a3 == -m8 * m3 + m5 * m6
    requires a4 == m8 * m0 - m2 * m6
    requires a5 == -m5 * m0 + m2 * m3
    requires a6 == m7 * m3 - m4 * m6
    requires d == m0 * a0 + m1 * a3 + m2 * a6
    requires d * k == 1.0
    requires i3 == a3 * k
    requires i4 == a4 * k
    requires i5 == a5 * k
    ensures i3 * m1 + i4 * m4 + i5 * m7 == 1.0
  {
    assert m1 * a3 == -m1 * m8 * m3 + m1 * m5 * m6;
    assert m4 * a4 == m4 * m8 * m0 - m4 * m2 * m6;
    assert m7 * a5 == -m7 * m5 * m0 + m7 * m2 * m3;
    assert m0 * a0 == m0 * m8 * m4 - m0 * m5 * m7;
    assert m2 * a6 == m2 * m7 * m3 - m2 * m4 * m6;
    assert a3 * m1 + a4 * m4 + a5 * m7 == d;
    assert i3 * m1 + i4 * m4 + i5 * m7 == d * k;
  }

  lemma RightCell11Link(m: Mat3, inv: Mat3, k: real)
    requires Det(m) * k == 1.0
    requires inv.m3 == Adjugate(m).m3 * k
    requires inv.m4 == Adjugate(m).m4 * k
    requires inv.m5 == Adjugate(m).m5 * k
    ensures Multiply(m, inv).m4 == 1.0
  {
    var a := Adjugate(m);
    RightCell11(m.m0, m.m1, m.m2, m.m3, m.m4, m.m5, m.m6, m.m7, m.m8, a.m0, a.m3, a.m4, a.m5, a.m6, Det(m), k, inv.m3, inv.m4, inv.m5);
  }

  lemma RightCell12(m0: real, m1: real, m2: real, m3: real, m4: real, m5: real, m6: real, m7: real, m8: real, a3: real, a4: real, a5: real, k: real, i3: real, i4: real, i5: real)
    requires a3 == -m8 * m3 + m5 * m6
    requires a4 == m8 * m0 - m2 * m6
    requires a5 == -m5 * m0 + m2 * m3
    requires i3 == a3 * k
    requires i4 == a4 * k
    requires i5 == a5 * k
    ensures i3 * m2 + i4 * m5 + i5 * m8 == 0.0
  {
    assert m2 * a3 == -m2 * m8 * m3 + m2 * m5 * m6;
    assert m5 * a4 == m5 * m8 * m0 - m5 * m2 * m6;
    assert m8 * a5 == -m8 * m5 * m0 + m8 * m2 * m3;
    assert a3 * m2 + a4 * m5 + a5 * m8 == 0.0;
    assert i3 * m2 + i4 * m5 + i5 * m8 == (a3 * m2 + a4 * m5 + a5 * m8) * k;
  }

  lemma RightCell12Link(m: Mat3, inv: Mat3, k: real)
    requires inv.m3 == Adjugate(m).m3 * k
    requires inv.m4 == Adjugate(m).m4 * k
    requires inv.m5 == Adjugate(m).m5 * k
    ensures Multiply(m, inv).m5 == 0.0
  {
    var a := Adjugate(m);
    RightCell12(m.m0, m.m1, m.m2, m.m3, m.m4, m.m5, m.m6, m.m7, m.m8, a.m3, a.m4, a.m5, k, inv.m3, inv.m4, inv.m5);
  }

  lemma RightCell20(m0: real, m1: real, m2: real, m3: real, m4: real, m5: real, m6: real, m7: real, m8: real, a6: real, a7: real, a8: real, k: real, i6: real, i7: real, i8: real)
    requires a6 == m7 * m3 - m4 * m6
    requires a7 == -m7 * m0 + m1 * m6
    requires a8 == m4 * m0 - m1 * m3
    requires i6 == a6 * k
    requires i7 == a7 * k
    requires i8 == a8 * k
    ensures i6 * m0 + i7 * m3 + i8 * m6 == 0.0
  {
    assert m0 * a6 == m0 * m7 * m3 - m0 * m4 * m6;
    assert m3 * a7 == -m3 * m7 * m0 + m3 * m1 * m6;
    assert m6 * a8 == m6 * m4 * m0 - m6 * m1 * m3;
    assert a6 * m0 + a7 * m3 + a8 * m6 == 0.0;
    assert i6 * m0 + i7 * m3 + i8 * m6 == (a6 * m0 + a7 * m3 + a8 * m6) * k;
  }

  lemma RightCell20Link(m: Mat3, inv: Mat3, k: real)
    requires inv.m6 == Adjugate(m).m6 * k
    requires inv.m7 == Adjugate(m).m7 * k
    requires inv.m8 == Adjugate(m).m8 * k
    ensures Multiply(m, inv).m6 == 0.0
  {
    var a := Adjugate(m);
    RightCell20(m.m0, m.m1, m.m2, m.m3, m.m4, m.m5, m.m6, m.m7, m.m8, a.m6, a.m7, a.m8, k, inv.m6, inv.m7, inv.m8);
  }

  lemma RightCell21(m0: real, m1: real, m2: real, m3: real, m4: real, m5: real, m6: real, m7: real, m8: real, a6: real, a7: real, a8: real, k: real, i6: real, i7: real, i8: real)
    requires a6 == m7 * m3 - m4 * m6
    requires a7 == -m7 * m0 + m1 * m6
    requires a8 == m4 * m0 - m1 * m3
    requires i6 == a6 * k
    requires i7 == a7 * k
    requires i8 == a8 * k
    ensures i6 * m1 + i7 * m4 + i8 * m7 == 0.0
  {
    assert m1 * a6 == m1 * m7 * m3 - m1 * m4 * m6;
    assert m4 * a7 == -m4 * m7 * m0 + m4 * m1 * m6;
    assert m7 * a8 == m7 * m4 * m0 - m7 * m1 * m3;
    assert a6 * m1 + a7 * m4 + a8 * m7 == 0.0;
    assert i6 * m1 + i7 * m4 + i8 * m7 == (a6 * m1 + a7 * m4 + a8 * m7) * k;
  }

  lemma RightCell21Link(m: Mat3, inv: Mat3, k: real)
    requires inv.m6 == Adjugate(m).m6 * k
    requires inv.m7 == Adjugate(m).m7 * k
    requires inv.m8 == Adjugate(m).m8 * k
    ensures Multiply(m, inv).m7 == 0.0
  {
    var a := Adjugate(m);
    RightCell21(m.m0, m.m1, m.m2, m.m3, m.m4, m.m5, m.m6, m.m7, m.m8, a.m6, a.m7, a.m8, k, inv.m6, inv.m7, inv.m8);
  }

  lemma RightCell22(m0: real, m1: real, m2: real, m3: real, m4: real, m5: real, m6: real, m7: real, m8: real, a0: real, a3: real, a6: real, a7: real, a8: real, d: real, k: real, i6: real, i7: real, i8: real)
    requires a0 == m8 * m4 - m5 * m7
    requires a3 == -m8 * m3 + m5 * m6
    requires a6 == m7 * m3 - m4 * m6
    requires a7 == -m7 * m0 + m1 * m6
    requires a8 == m4 * m0 - m1 * m3
    requires d == m0 * a0 + m1 * a3 + m2 * a6
    requires d * k == 1.0
    requires i6 == a6 * k
    requires i7 == a7 * k
    requires i8 == a8 * k
    ensures i6 * m2 + i7 * m5 + i8 * m8 == 1.0
  {
    assert m2 * a6 == m2 * m7 * m3 - m2 * m4 * m6;
    assert m5 * a7 == -m5 * m7 * m0 + m5 * m1 * m6;
    assert m8 * a8 == m8 * m4 * m0 - m8 * m1 * m3;
    assert m0 * a0 == m0 * m8 * m4 - m0 * m5 * m7;
    assert m1 * a3 == -m1 * m8 * m3 + m1 * m5 * m6;
    assert a6 * m2 + a7 * m5 + a8 * m8 == d;
    assert i6 * m2 + i7 * m5 + i8 * m8 == d * k;
  }

  lemma RightCell22Link(m: Mat3, inv: Mat3, k: real)
    requires Det(m) * k == 1.0
    requires inv.m6 == Adjugate(m).m6 * k
    requires inv.m7 == Adjugate(m).m7 * k
    requires inv.m8 == Adjugate(m).m8 * k
    ensures Multiply(m, inv).m8 == 1.0
  {
    var a := Adjugate(m);
    RightCell22(m.m0, m.m1, m.m2, m.m3, m.m4, m.m5, m.m6, m.m7, m.m8, a.m0, a.m3, a.m6, a.m7, a.m8, Det(m), k, inv.m6, inv.m7, inv.m8);
  }

  lemma LeftCell00(m0: real, m1: real, m2: real, m3: real, m4: real, m5: real, m6: real, m7: real, m8: real, a0: real, a3: real, a6: real, d: real, k: real, i0: real, i3: real, i6: real)
    requires a0 == m8 * m4 - m5 * m7
    requires a3 == -m8 * m3 + m5 * m6
    requires a6 == m7 * m3 - m4 * m6
    requires d == m0 * a0 + m1 * a3 + m2 * a6
    requires d * k == 1.0
    requires i0 == a0 * k
    requires i3 == a3 * k
    requires i6 == a6 * k
    ensures m0 * i0 + m1 * i3 + m2 * i6 == 1.0
  {
    assert m0 * a0 == m0 * m8 * m4 - m0 * m5 * m7;
    assert m1 * a3 == -m1 * m8 * m3 + m1 * m5 * m6;
    assert m2 * a6 == m2 * m7 * m3 - m2 * m4 * m6;
    assert m0 * a0 + m1 * a3 + m2 * a6 == d;
    assert m0 * i0 + m1 * i3 + m2 * i6 == d * k;
  }

  lemma LeftCell00Link(m: Mat3, inv: Mat3, k: real)
    requires Det(m) * k == 1.0
    requires inv.m0 == Adjugate(m).m0 * k
    requires inv.m3 == Adjugate(m).m3 * k
    requires inv.m6 == Adjugate(m).m6 * k
    ensures Multiply(inv, m).m0 == 1.0
  {
    var a := Adjugate(m);
    LeftCell00(m.m0, m.m1, m.m2, m.m3, m.m4, m.m5, m.m6, m.m7, m.m8, a.m0, a.m3, a.m6, Det(m), k, inv.m0, inv.m3, inv.m6);
  }

  lemma LeftCell01(m0: real, m1: real, m2: real, m3: real, m4: real, m5: real, m6: real, m7: real, m8: real, a1: real, a4: real, a7: real, k: real, i1: real, i4: real, i7: real)
    requires a1 == -m8 * m1 + m2 * m7
    requires a4 == m8 * m0 - m2 * m6
    requires a7 == -m7 * m0 + m1 * m6
    requires i1 == a1 * k
    requires i4 == a4 * k
    requires i7 == a7 * k
    ensures m0 * i1 + m1 * i4 + m2 * i7 == 0.0
  {
    assert m0 * a1 == -m0 * m8 * m1 + m0 * m2 * m7;
    assert m1 * a4 == m1 * m8 * m0 - m1 * m2 * m6;
    assert m2 * a7 == -m2 * m7 * m0 + m2 * m1 * m6;
    assert m0 * a1 + m1 * a4 + m2 * a7 == 0.0;
    assert m0 * i1 + m1 * i4 + m2 * i7 == (m0 * a1 + m1 * a4 + m2 * a7) * k;
  }

  lemma LeftCell01Link(m: Mat3, inv: Mat3, k: real)
    requires inv.m1 == Adjugate(m).m1 * k
    requires inv.m4 == Adjugate(m).m4 * k
    requires inv.m7 == Adjugate(m).m7 * k
    ensures Multiply(inv, m).m1 == 0.0
  {
    var a := Adjugate(m);
    LeftCell01(m.m0, m.m1, m.m2, m.m3, m.m4, m.m5, m.m6, m.m7, m.m8, a.m1, a.m4, a.m7, k, inv.m1, inv.m4, inv.m7);
  }

  lemma LeftCell02(m0: real, m1: real, m2: real, m3: real, m4: real, m5: real, m6: real, m7: real, m8: real, a2: real, a5: real, a8: real, k: real, i2: real, i5: real, i8: real)
    requires a2 == m5 * m1 - m2 * m4
    requires a5 == -m5 * m0 + m2 * m3
    requires a8 == m4 * m0 - m1 * m3
    requires i2 == a2 * k
    requires i5 == a5 * k
    requires i8 == a8 * k
    ensures m0 * i2 + m1 * i5 + m2 * i8 == 0.0
  {
    assert m0 * a2 == m0 * m5 * m1 - m0 * m2 * m4;
    assert m1 * a5 == -m1 * m5 * m0 + m1 * m2 * m3;
    assert m2 * a8 == m2 * m4 * m0 - m2 * m1 * m3;
    assert m0 * a2 + m1 * a5 + m2 * a8 == 0.0;
    assert m0 * i2 + m1 * i5 + m2 * i8 == (m0 * a2 + m1 * a5 + m2 * a8) * k;
  }

  lemma LeftCell02Link(m: Mat3, inv: Mat3, k: real)
    requires inv.m2 == Adjugate(m).m2 * k
    requires inv.m5 == Adjugate(m).m5 * k
    requires inv.m8 == Adjugate(m).m8 * k
    ensures Multiply(inv, m).m2 == 0.0
  {
    var a := Adjugate(m);
    LeftCell02(m.m0, m.m1, m.m2, m.m3, m.m4, m.m5, m.m6, m.m7, m.m8, a.m2, a.m5, a.m8, k, inv.m2, inv.m5, inv.m8);
  }

  lemma LeftCell10(m0: real, m1: real, m2: real, m3: real, m4: real, m5: real, m6: real, m7: real, m8: real, a0: real, a3: real, a6: real, k: real, i0: real, i3: real, i6: real)
    requires a0 == m8 * m4 - m5 * m7
    requires a3 == -m8 * m3 + m5 * m6
    requires a6 == m7 * m3 - m4 * m6
    requires i0 == a0 * k
    requires i3 == a3 * k
    requires i6 == a6 * k
    ensures m3 * i0 + m4 * i3 + m5 * i6 == 0.0
  {
    assert m3 * a0 == m3 * m8 * m4 - m3 * m5 * m7;
    assert m4 * a3 == -m4 * m8 * m3 + m4 * m5 * m6;
    assert m5 * a6 == m5 * m7 * m3 - m5 * m4 * m6;
    assert m3 * a0 + m4 * a3 + m5 * a6 == 0.0;
    assert m3 * i0 + m4 * i3 + m5 * i6 == (m3 * a0 + m4 * a3 + m5 * a6) * k;
  }

  lemma LeftCell10Link(m: Mat3, inv: Mat3, k: real)
    requires inv.m0 == Adjugate(m).m0 * k
    requires inv.m3 == Adjugate(m).m3 * k
    requires inv.m6 == Adjugate(m).m6 * k
    ensures Multiply(inv, m).m3 == 0.0
  {
    var a := Adjugate(m);
    LeftCell10(m.m0, m.m1, m.m2, m.m3, m.m4, m.m5, m.m6, m.m7, m.m8, a.m0, a.m3, a.m6, k, inv.m0, inv.m3, inv.m6);
  }

  lemma LeftCell11(m0: real, m1: real, m2: real, m3: real, m4: real, m5: real, m6: real, m7: real, m8: real, a0: real, a1: real, a3: real, a4: real, a6: real, a7: real, d: real, k: real, i1: real, i4: real, i7: real)
    requires a0 == m8 * m4 - m5 * m7
    requires a1 == -m8 * m1 + m2 * m7
    requires a3 == -m8 * m3 + m5 * m6
    requires a4 == m8 * m0 - m2 * m6
    requires a6 == m7 * m3 - m4 * m6
    requires a7 == -m7 * m0 + m1 * m6
    requires d == m0 * a0 + m1 * a3 + m2 * a6
    requires d * k == 1.0
    requires i1 == a1 * k
    requires i4 == a4 * k
    requires i7 == a7 * k
    ensures m3 * i1 + m4 * i4 + m5 * i7 == 1.0
  {
    assert m3 * a1 == -m3 * m8 * m1 + m3 * m2 * m7;
    assert m4 * a4 == m4 * m8 * m0 - m4 * m2 * m6;
    assert m5 * a7 == -m5 * m7 * m0 + m5 * m1 * m6;
    assert m0 * a0 == m0 * m8 * m4 - m0 * m5 * m7;
    assert m1 * a3 == -m1 * m8 * m3 + m1 * m5 * m6;
    assert m2 * a6 == m2 * m7 * m3 - m2 * m4 * m6;
    assert m3 * a1 + m4 * a4 + m5 * a7 == d;
    assert m3 * i1 + m4 * i4 + m5 * i7 == d * k;
  }

  lemma LeftCell11Link(m: Mat3, inv: Mat3, k: real)
    requires Det(m) * k == 1.0
    requires inv.m1 == Adjugate(m).m1 * k
    requires inv.m4 == Adjugate(m).m4 * k
    requires inv.m7 == Adjugate(m).m7 * k
    ensures Multiply(inv, m).m4 == 1.0
  {
    var a := Adjugate(m);
    LeftCell11(m.m0, m.m1, m.m2, m.m3, m.m4, m.m5, m.m6, m.m7, m.m8, a.m0, a.m1, a.m3, a.m4, a.m6, a.m7, Det(m), k, inv.m1, inv.m4, inv.m7);
  }

  lemma LeftCell12(m0: real, m1: real, m2: real, m3: real, m4: real, m5: real, m6: real, m7: real, m8: real, a2: real, a5: real, a8: real, k: real, i2: real, i5: real, i8: real)
    requires a2 == m5 * m1 - m2 * m4
    requires a5 == -m5 * m0 + m2 * m3
    requires a8 == m4 * m0 - m1 * m3
    requires i2 == a2 * k
    requires i5 == a5 * k
    requires i8 == a8 * k
    ensures m3 * i2 + m4 * i5 + m5 * i8 == 0.0
  {
    assert m3 * a2 == m3 * m5 * m1 - m3 * m2 * m4;
    assert m4 * a5 == -m4 * m5 * m0 + m4 * m2 * m3;
    assert m5 * a8 == m5 * m4 * m0 - m5 * m1 * m3;
    assert m3 * a2 + m4 * a5 + m5 * a8 == 0.0;
    assert m3 * i2 + m4 * i5 + m5 * i8 == (m3 * a2 + m4 * a5 + m5 * a8) * k;
  }

  lemma LeftCell12Link(m: Mat3, inv: Mat3, k: real)
    requires inv.m2 == Adjugate(m).m2 * k
    requires inv.m5 == Adjugate(m).m5 * k
    requires inv.m8 == Adjugate(m).m8 * k
    ensures Multiply(inv, m).m5 == 0.0
  {
    var a := Adjugate(m);
    LeftCell12(m.m0, m.m1, m.m2, m.m3, m.m4, m.m5, m.m6, m.m7, m.m8, a.m2, a.m5, a.m8, k, inv.m2, inv.m5, inv.m8);
  }

  lemma LeftCell20(m0: real, m1: real, m2: real, m3: real, m4: real, m5: real, m6: real, m7: real, m8: real, a0: real, a3: real, a6: real, k: real, i0: real, i3: real, i6: real)
    requires a0 == m8 * m4 - m5 * m7
    requires a3 == -m8 * m3 + m5 * m6
    requires a6 == m7 * m3 - m4 * m6
    requires i0 == a0 * k
    requires i3 == a3 * k
    requires i6 == a6 * k
    ensures m6 * i0 + m7 * i3 + m8 * i6 == 0.0
  {
    assert m6 * a0 == m6 * m8 * m4 - m6 * m5 * m7;
    assert m7 * a3 == -m7 * m8 * m3 + m7 * m5 * m6;
    assert m8 * a6 == m8 * m7 * m3 - m8 * m4 * m6;
    assert m6 * a0 + m7 * a3 + m8 * a6 == 0.0;
    assert m6 * i0 + m7 * i3 + m8 * i6 == (m6 * a0 + m7 * a3 + m8 * a6) * k;
  }

  lemma LeftCell20Link(m: Mat3, inv: Mat3, k: real)
    requires inv.m0 == Adjugate(m).m0 * k
    requires inv.m3 == Adjugate(m).m3 * k
    requires inv.m6 == Adjugate(m).m6 * k
    ensures Multiply(inv, m).m6 == 0.0
  {
    var a := Adjugate(m);
    LeftCell20(m.m0, m.m1, m.m2, m.m3, m.m4, m.m5, m.m6, m.m7, m.m8, a.m0, a.m3, a.m6, k, inv.m0, inv.m3, inv.m6);
  }

  lemma LeftCell21(m0: real, m1: real, m2: real, m3: real, m4: real, m5: real, m6: real, m7: real, m8: real, a1: real, a4: real, a7: real, k: real, i1: real, i4: real, i7: real)
    requires a1 == -m8 * m1 + m2 * m7
    requires a4 == m8 * m0 - m2 * m6
    requires a7 == -m7 * m0 + m1 * m6
    requires i1 == a1 * k
    requires i4 == a4 * k
    requires i7 == a7 * k
    ensures m6 * i1 + m7 * i4 + m8 * i7 == 0.0
  {
    assert m6 * a1 == -m6 * m8 * m1 + m6 * m2 * m7;
    assert m7 * a4 == m7 * m8 * m0 - m7 * m2 * m6;
    assert m8 * a7 == -m8 * m7 * m0 + m8 * m1 * m6;
    assert m6 * a1 + m7 * a4 + m8 * a7 == 0.0;
    assert m6 * i1 + m7 * i4 + m8 * i7 == (m6 * a1 + m7 * a4 + m8 * a7) * k;
  }

  lemma LeftCell21Link(m: Mat3, inv: Mat3, k: real)
    requires inv.m1 == Adjugate(m).m1 * k
    requires inv.m4 == Adjugate(m).m4 * k
    requires inv.m7 == Adjugate(m).m7 * k
    ensures Multiply(inv, m).m7 == 0.0
  {
    var a := Adjugate(m);
    LeftCell21(m.m0, m.m1, m.m2, m.m3, m.m4, m.m5, m.m6, m.m7, m.m8, a.m1, a.m4, a.m7, k, inv.m1, inv.m4, inv.m7);
  }

  lemma LeftCell22(m0: real, m1: real, m2: real, m3: real, m4: real, m5: real, m6: real, m7: real, m8: real, a0: real, a2: real, a3: real, a5: real, a6: real, a8: real, d: real, k: real, i2: real, i5: real, i8: real)
    requires a0 == m8 * m4 - m5 * m7
    requires a2 == m5 * m1 - m2 * m4
    requires a3 == -m8 * m3 + m5 * m6
    requires a5 == -m5 * m0 + m2 * m3
    requires a6 == m7 * m3 - m4 * m6
    requires a8 == m4 * m0 - m1 * m3
    requires d == m0 * a0 + m1 * a3 + m2 * a6
    requires d * k == 1.0
    requires i2 == a2 * k
    requires i5 == a5 * k
    requires i8 == a8 * k
    ensures m6 * i2 + m7 * i5 + m8 * i8 == 1.0
  {
    assert m6 * a2 == m6 * m5 * m1 - m6 * m2 * m4;
    assert m7 * a5 == -m7 * m5 * m0 + m7 * m2 * m3;
    assert m8 * a8 == m8 * m4 * m0 - m8 * m1 * m3;
    assert m0 * a0 == m0 * m8 * m4 - m0 * m5 * m7;
    assert m1 * a3 == -m1 * m8 * m3 + m1 * m5 * m6;
    assert m2 * a6 == m2 * m7 * m3 - m2 * m4 * m6;
    assert m6 * a2 + m7 * a5 + m8 * a8 == d;
    assert m6 * i2 + m7 * i5 + m8 * i8 == d * k;
  }

  lemma LeftCell22Link(m: Mat3, inv: Mat3, k: real)
    requires Det(m) * k == 1.0
    requires inv.m2 == Adjugate(m).m2 * k
    requires inv.m5 == Adjugate(m).m5 * k
    requires inv.m8 == Adjugate(m).m8 * k
    ensures Multiply(inv, m).m8 == 1.0
  {
    var a := Adjugate(m);
    LeftCell22(m.m0, m.m1, m.m2, m.m3, m.m4, m.m5, m.m6, m.m7, m.m8, a.m0, a.m2, a.m3, a.m5, a.m6, a.m8, Det(m), k, inv.m2, inv.m5, inv.m8);
  }

  lemma InvertRightRow0(m: Mat3)
    requires Invert(m).Some?
    ensures Multiply(m, Invert(m).value).m0 == 1.0
    ensures Multiply(m, Invert(m).value).m1 == 0.0
    ensures Multiply(m, Invert(m).value).m2 == 0.0
  {
    var inv := Invert(m).value;
    var k := 1.0 / Det(m);
    assert inv == Times(Adjugate(m), k);
    assert Det(m) * k == 1.0;
    RightCell00Link(m, inv, k);
    RightCell01Link(m, inv, k);
    RightCell02Link(m, inv, k);
  }

  lemma InvertRightRow1(m: Mat3)
    requires Invert(m).Some?
    ensures Multiply(m, Invert(m).value).m3 == 0.0
    ensures Multiply(m, Invert(m).value).m4 == 1.0
    ensures Multiply(m, Invert(m).value).m5 == 0.0
  {
    var inv := Invert(m).value;
    var k := 1.0 / Det(m);
    assert inv == Times(Adjugate(m), k);
    assert Det(m) * k == 1.0;
    RightCell10Link(m, inv, k);
    RightCell11Link(m, inv, k);
    RightCell12Link(m, inv, k);
  }

  lemma InvertRightRow2(m: Mat3)
    requires Invert(m).Some?
    ensures Multiply(m, Invert(m).value).m6 == 0.0
    ensures Multiply(m, Invert(m).value).m7 == 0.0
    ensures Multiply(m, Invert(m).value).m8 == 1.0
  {
    var inv := Invert(m).value;
    var k := 1.0 / Det(m);
    assert inv == Times(Adjugate(m), k);
    assert Det(m) * k == 1.0;
    RightCell20Link(m, inv, k);
    RightCell21Link(m, inv, k);
    RightCell22Link(m, inv, k);
  }

  lemma InvertRight(m: Mat3)
    requires Invert(m).Some?
    ensures Multiply(m, Invert(m).value) == Identity()
  {
    InvertRightRow0(m);
    InvertRightRow1(m);
    InvertRightRow2(m);
  }

  lemma InvertLeftRow0(m: Mat3)
    requires Invert(m).Some?
    ensures Multiply(Invert(m).value, m).m0 == 1.0
    ensures Multiply(Invert(m).value, m).m1 == 0.0
    ensures Multiply(Invert(m).value, m).m2 == 0.0
  {
    var inv := Invert(m).value;
    var k := 1.0 / Det(m);
    assert inv == Times(Adjugate(m), k);
    assert Det(m) * k == 1.0;
    LeftCell00Link(m, inv, k);
    LeftCell01Link(m, inv, k);
    LeftCell02Link(m, inv, k);
  }

  lemma InvertLeftRow1(m: Mat3)
    requires Invert(m).Some?
    ensures Multiply(Invert(m).value, m).m3 == 0.0
    ensures Multiply(Invert(m).value, m).m4 == 1.0
    ensures Multiply(Invert(m).value, m).m5 == 0.0
  {
    var inv := Invert(m).value;
    var k := 1.0 / Det(m);
    assert inv == Times(Adjugate(m), k);
    assert Det(m) * k == 1.0;
    LeftCell10Link(m, inv, k);
    LeftCell11Link(m, inv, k);
    LeftCell12Link(m, inv, k);
  }

  lemma InvertLeftRow2(m: Mat3)
    requires Invert(m).Some?
    ensures Multiply(Invert(m).value, m).m6 == 0.0
    ensures Multiply(Invert(m).value, m).m7 == 0.0
    ensures Multiply(Invert(m).value, m).m8 == 1.0
  {
    var inv := Invert(m).value;
    var k := 1.0 / Det(m);
    assert inv == Times(Adjugate(m), k);
    assert Det(m) * k == 1.0;
    LeftCell20Link(m, inv, k);
    LeftCell21Link(m, inv, k);
    LeftCell22Link(m, inv, k);
  }

  lemma InvertLeft(m: Mat3)
    requires Invert(m).Some?
    ensures Multiply(Invert(m).value, m) == Identity()
  {
    InvertLeftRow0(m);
    InvertLeftRow1(m);
    InvertLeftRow2(m);
  }

  /** `multiply(m, invert(m))` and `multiply(invert(m), m)` are the identity. */
  lemma InvertIsInverse(m: Mat3)
    requires Invert(m).Some?
    ensures Multiply(m, Invert(m).value) == Identity()
    ensures Multiply(Invert(m).value, m) == Identity()
  {
    InvertRight(m);
    InvertLeft(m);
  }

  /** Sending a point through an affine matrix and then through its inverse
      gives the point back, and so does the other order. */
  lemma InvertRoundTrip(p: Vec2, m: Mat3)
    requires IsAffine(m) && Invert(m).Some?
    ensures TransformPoint(TransformPoint(p, m), Invert(m).value) == p
    ensures TransformPoint(TransformPoint(p, Invert(m).value), m) == p
  {
    var inv := Invert(m).value;
    InvertKeepsAffine(m);
    TransformMultiply(p, inv, m);
    TransformMultiply(p, m, inv);
    InvertLeft(m);
    InvertRight(m);
    TransformIdentity(p);
  }

  lemma ReciprocalNonzero(x: real, y: real)
    requires x * y == 1.0
    ensures y != 0.0
  {
  }

  /** A right inverse of an affine matrix has a nonzero determinant. */
  lemma RightInverseDet(a: Mat3, b: Mat3)
    requires IsAffine(a) && IsAffine(b) && Multiply(a, b) == Identity()
    ensures Det(a) * Det(b) == 1.0 && Det(b) != 0.0
  {
    var r := Multiply(a, b);
    AffineDet(a);
    AffineDet(b);
    BlockDetMultiply(a.m0, a.m1, a.m3, a.m4, a.m6, a.m7, b.m0, b.m1, b.m2, b.m3, b.m4, b.m5,
                     r.m0, r.m1, r.m3, r.m4, Det(a), Det(b));
    ReciprocalNonzero(Det(a), Det(b));
  }

  /** The inverse of an affine matrix is itself invertible. */
  lemma InverseDetNonzero(m: Mat3)
    requires IsAffine(m) && Invert(m).Some?
    ensures Det(Invert(m).value) != 0.0
  {
    InvertKeepsAffine(m);
    InvertRight(m);
    RightInverseDet(m, Invert(m).value);
  }

  /** `invert` finds the only inverse there is: an affine matrix with an
      affine right inverse `b` is inverted to exactly `b`. */
  lemma InvertUnique(m: Mat3, b: Mat3)
    requires IsAffine(m) && IsAffine(b) && Multiply(m, b) == Identity()
    ensures Invert(m) == Some(b)
  {
    RightInverseDet(m, b);
    ReciprocalNonzero(Det(b), Det(m));
    InvertSomeIff(m);
    var inv := Invert(m).value;
    InvertLeft(m);
    MultiplyAssociative(inv, m, b);
    MultiplyIdentity(b);
    MultiplyIdentity(inv);
  }
}
