/**
 * Homogeneous 4x4 transforms over the reals and the script's `inv`
 * (kitti2bag.py, lines 211-219), which inverts a rigid body transform
 * [R | t; 0 | 1] as [R^T | -R^T t; 0 | 1] starting from an identity matrix.
 */
module Geometry {

  predicate IsMatrix4(m: seq<seq<real>>)
  {
    |m| == 4 && forall i :: 0 <= i < 4 ==> |m[i]| == 4
  }

  /** A numpy 4x4 float array, indexed m[row][column]. */
  type Mat4 = m: seq<seq<real>> | IsMatrix4(m)
    witness [[1.0, 0.0, 0.0, 0.0], [0.0, 1.0, 0.0, 0.0], [0.0, 0.0, 1.0, 0.0], [0.0, 0.0, 0.0, 1.0]]

  /** np.eye(4) */
  function Identity(): (e: Mat4)
  {
    seq(4, i => seq(4, j => if i == j then 1.0 else 0.0))
  }

  /** Matrix product A.dot(B). */
  function Mul(a: Mat4, b: Mat4): (c: Mat4)
  {
    seq(4, i requires 0 <= i < 4 =>
      seq(4, j requires 0 <= j < 4 =>
        a[i][0] * b[0][j] + a[i][1] * b[1][j] + a[i][2] * b[2][j] + a[i][3] * b[3][j]))
  }

  /** Entry i of R^T t, where R = m[0:3, 0:3] and t = m[0:3, 3]. */
  function RotatedBack(m: Mat4, i: nat): (r: real)
    requires i < 3
  {
    m[0][i] * m[0][3] + m[1][i] * m[1][3] + m[2][i] * m[2][3]
  }

  /** Dot product of rows i and j of the rotation block (entry (i, j) of R R^T). */
  function RowDot(m: Mat4, i: nat, j: nat): (r: real)
    requires i < 3 && j < 3
  {
    m[i][0] * m[j][0] + m[i][1] * m[j][1] + m[i][2] * m[j][2]
  }

  /** Dot product of columns i and j of the rotation block (entry (i, j) of R^T R). */
  function ColDot(m: Mat4, i: nat, j: nat): (r: real)
    requires i < 3 && j < 3
  {
    m[0][i] * m[0][j] + m[1][i] * m[1][j] + m[2][i] * m[2][j]
  }

  predicate BottomRowIsUnit(m: Mat4)
  {
    m[3] == [0.0, 0.0, 0.0, 1.0]
  }

  /** R R^T = I */
  predicate RowsOrthonormal(m: Mat4)
  {
    forall i, j :: 0 <= i < 3 && 0 <= j < 3 ==> RowDot(m, i, j) == if i == j then 1.0 else 0.0
  }

  /** R^T R = I */
  predicate ColumnsOrthonormal(m: Mat4)
  {
    forall i, j :: 0 <= i < 3 && 0 <= j < 3 ==> ColDot(m, i, j) == if i == j then 1.0 else 0.0
  }

  /** What the doc-string "rigid body transformation matrix" presupposes. */
  predicate IsRigid(m: Mat4)
  {
    BottomRowIsUnit(m) && RowsOrthonormal(m)
  }

  /** inv(transform): the rotation block transposed, the translation -R^T t, the rest of np.eye(4). */
  function Inv(m: Mat4): (r: Mat4)
    ensures forall i, j :: 0 <= i < 3 && 0 <= j < 3 ==> r[i][j] == m[j][i]
    ensures forall i :: 0 <= i < 3 ==> r[i][3] == -RotatedBack(m, i)
    ensures BottomRowIsUnit(r)
  {
    seq(4, i requires 0 <= i < 4 =>
      seq(4, j requires 0 <= j < 4 =>
        if i < 3 && j < 3 then m[j][i]
        else if i < 3 then -1.0 * RotatedBack(m, i)
        else if j == 3 then 1.0
        else 0.0))
  }

  lemma Ext(a: Mat4, b: Mat4)
    requires forall i, j :: 0 <= i < 4 && 0 <= j < 4 ==> a[i][j] == b[i][j]
    ensures a == b
  {
    forall i | 0 <= i < 4 ensures a[i] == b[i] {
      assert forall j :: 0 <= j < 4 ==> a[i][j] == b[i][j];
    }
  }

  /** inv reads nothing but the upper 3x4 block of its argument. */
  lemma InvReadsOnlyUpperBlock(a: Mat4, b: Mat4)
    requires forall i, j :: 0 <= i < 3 && 0 <= j < 4 ==> a[i][j] == b[i][j]
    ensures Inv(a) == Inv(b)
  {
    forall i, j | 0 <= i < 4 && 0 <= j < 4 ensures Inv(a)[i][j] == Inv(b)[i][j] {
      if i < 3 && j == 3 {
        assert a[0][i] == b[0][i] && a[1][i] == b[1][i] && a[2][i] == b[2][i];
        assert a[0][3] == b[0][3] && a[1][3] == b[1][3] && a[2][3] == b[2][3];
      }
    }
    Ext(Inv(a), Inv(b));
  }

  /** Entry (i, j) of A . B. */
  lemma MulAt(a: Mat4, b: Mat4, i: nat, j: nat)
    requires i < 4 && j < 4
    ensures Mul(a, b)[i][j] == a[i][0] * b[0][j] + a[i][1] * b[1][j] + a[i][2] * b[2][j] + a[i][3] * b[3][j]
  {
  }

  lemma BottomEntries(m: Mat4, j: nat)
    requires BottomRowIsUnit(m) && j < 4
    ensures m[3][j] == if j == 3 then 1.0 else 0.0
  {
    assert m[3] == [0.0, 0.0, 0.0, 1.0];
  }

  /** The facts about n = inv(m) that the products below use, for column j of n. */
  lemma InvColumn(m: Mat4, j: nat)
    requires j < 4
    ensures j < 3 ==> Inv(m)[0][j] == m[j][0] && Inv(m)[1][j] == m[j][1] && Inv(m)[2][j] == m[j][2]
    ensures j == 3 ==>
      Inv(m)[0][3] == -RotatedBack(m, 0) && Inv(m)[1][3] == -RotatedBack(m, 1) && Inv(m)[2][3] == -RotatedBack(m, 2)
    ensures Inv(m)[3][j] == if j == 3 then 1.0 else 0.0
  {
    BottomEntries(Inv(m), j);
  }

  /** a . (R^T t) = (R a) . t, for a row a, written out over the entries. */
  lemma Regroup(a0: real, a1: real, a2: real,
                r00: real, r01: real, r02: real, r10: real, r11: real, r12: real, r20: real, r21: real, r22: real,
                t0: real, t1: real, t2: real)
    ensures a0 * (r00 * t0 + r10 * t1 + r20 * t2) + a1 * (r01 * t0 + r11 * t1 + r21 * t2) + a2 * (r02 * t0 + r12 * t1 + r22 * t2)
         == (a0 * r00 + a1 * r01 + a2 * r02) * t0 + (a0 * r10 + a1 * r11 + a2 * r12) * t1 + (a0 * r20 + a1 * r21 + a2 * r22) * t2
  {
  }

  /** With orthonormal rows, R (R^T t) = t, row by row. */
  lemma RotateForthAndBack(m: Mat4, i: nat)
    requires i < 3
    requires RowDot(m, i, 0) == (if i == 0 then 1.0 else 0.0)
    requires RowDot(m, i, 1) == (if i == 1 then 1.0 else 0.0)
    requires RowDot(m, i, 2) == (if i == 2 then 1.0 else 0.0)
    ensures m[i][0] * RotatedBack(m, 0) + m[i][1] * RotatedBack(m, 1) + m[i][2] * RotatedBack(m, 2) == m[i][3]
  {
    Regroup(m[i][0], m[i][1], m[i][2],
            m[0][0], m[0][1], m[0][2], m[1][0], m[1][1], m[1][2], m[2][0], m[2][1], m[2][2],
            m[0][3], m[1][3], m[2][3]);
  }

  lemma RightInverseBlock(m: Mat4, n: Mat4, i: nat, j: nat)
    requires i < 3 && j < 3
    requires n[0][j] == m[j][0] && n[1][j] == m[j][1] && n[2][j] == m[j][2] && n[3][j] == 0.0
    ensures Mul(m, n)[i][j] == RowDot(m, i, j)
  {
    MulAt(m, n, i, j);
  }

  lemma RightInverseColumn(m: Mat4, n: Mat4, i: nat)
    requires i < 3
    requires n[0][3] == -RotatedBack(m, 0) && n[1][3] == -RotatedBack(m, 1) && n[2][3] == -RotatedBack(m, 2)
    requires n[3][3] == 1.0
    requires m[i][0] * RotatedBack(m, 0) + m[i][1] * RotatedBack(m, 1) + m[i][2] * RotatedBack(m, 2) == m[i][3]
    ensures Mul(m, n)[i][3] == 0.0
  {
    MulAt(m, n, i, 3);
  }

  /** T . inv(T) = I for a rigid body transform T. */
  lemma InvIsRightInverse(m: Mat4)
    requires IsRigid(m)
    ensures Mul(m, Inv(m)) == Identity()
  {
    var n := Inv(m);
    forall i, j | 0 <= i < 4 && 0 <= j < 4 ensures Mul(m, n)[i][j] == Identity()[i][j] {
      InvColumn(m, j);
      if i < 3 && j < 3 {
        RightInverseBlock(m, n, i, j);
      } else if i < 3 {
        RotateForthAndBack(m, i);
        RightInverseColumn(m, n, i);
      } else {
        MulAt(m, n, i, j);
        BottomEntries(m, 0); BottomEntries(m, 1); BottomEntries(m, 2); BottomEntries(m, 3);
      }
    }
    Ext(Mul(m, n), Identity());
  }

  lemma LeftInverseAt(m: Mat4, n: Mat4, i: nat, j: nat)
    requires i < 3 && j < 4
    requires n[i][0] == m[0][i] && n[i][1] == m[1][i] && n[i][2] == m[2][i] && n[i][3] == -RotatedBack(m, i)
    requires m[3][j] == if j == 3 then 1.0 else 0.0
    requires j < 3 ==> ColDot(m, i, j) == if i == j then 1.0 else 0.0
    ensures Mul(n, m)[i][j] == if i == j then 1.0 else 0.0
  {
    MulAt(n, m, i, j);
    if j < 3 {
      assert Mul(n, m)[i][j] == ColDot(m, i, j);
    }
  }

  /** inv(T) . T = I when the columns of R are orthonormal (R^T R = I). */
  lemma InvIsLeftInverse(m: Mat4)
    requires BottomRowIsUnit(m) && ColumnsOrthonormal(m)
    ensures Mul(Inv(m), m) == Identity()
  {
    var n := Inv(m);
    forall i, j | 0 <= i < 4 && 0 <= j < 4 ensures Mul(n, m)[i][j] == Identity()[i][j] {
      BottomEntries(m, j);
      if i < 3 {
        LeftInverseAt(m, n, i, j);
      } else {
        MulAt(n, m, i, j);
        BottomEntries(n, 0); BottomEntries(n, 1); BottomEntries(n, 2); BottomEntries(n, 3);
      }
    }
    Ext(Mul(n, m), Identity());
  }

  lemma NegatedRotateBack(m: Mat4, n: Mat4, i: nat)
    requires i < 3
    requires n[0][i] == m[i][0] && n[1][i] == m[i][1] && n[2][i] == m[i][2]
    requires n[0][3] == -RotatedBack(m, 0) && n[1][3] == -RotatedBack(m, 1) && n[2][3] == -RotatedBack(m, 2)
    ensures RotatedBack(n, i) == -(m[i][0] * RotatedBack(m, 0) + m[i][1] * RotatedBack(m, 1) + m[i][2] * RotatedBack(m, 2))
  {
  }

  /** inv(inv(T)) = T for a rigid body transform T. */
  lemma InvInvolutive(m: Mat4)
    requires IsRigid(m)
    ensures Inv(Inv(m)) == m
  {
    var n, q := Inv(m), Inv(Inv(m));
    forall i, j | 0 <= i < 4 && 0 <= j < 4 ensures q[i][j] == m[i][j] {
      if i < 3 && j == 3 {
        RotateForthAndBack(m, i);
        InvColumn(m, i);
        InvColumn(m, 3);
        NegatedRotateBack(m, n, i);
      } else if i == 3 {
        BottomEntries(m, j);
        BottomEntries(q, j);
      }
    }
    Ext(q, m);
  }
}
