/** matrixMultiplication of pythagoras_tree.py. A matrix is a list of
    columns, each a list of reals; entry m[j][i] sits in column j, row i. */
module Matrix {
  import opened Colour

  type Matrix = seq<seq<real>>

  /** Every entry the product reads exists: m1 is not empty, each column of
      m1 is at least as long as its first, and each column of m2 has an entry
      for every column of m1. */
  predicate Readable(m1: Matrix, m2: Matrix) {
    && |m1| > 0
    && (forall k :: 0 <= k < |m1| ==> |m1[k]| >= |m1[0]|)
    && (forall j :: 0 <= j < |m2| ==> |m2[j]| >= |m1|)
  }

  /** The sum of m1[k][i] * m2[j][k] over k < n: row i of m1 times column j
      of m2, over the first n terms. */
  function Dot(m1: Matrix, m2: Matrix, j: int, i: int, n: int): real
    requires Readable(m1, m2) && 0 <= j < |m2| && 0 <= i < |m1[0]| && 0 <= n <= |m1|
  {
    if n == 0 then 0.0 else Dot(m1, m2, j, i, n - 1) + m1[n - 1][i] * m2[j][n - 1]
  }

  /** r is m1 times m2: one column per column of m2, one row per row of m1,
      each entry the full dot product. */
  predicate IsProduct(m1: Matrix, m2: Matrix, r: Matrix)
    requires Readable(m1, m2)
  {
    && |r| == |m2|
    && (forall j :: 0 <= j < |r| ==> |r[j]| == |m1[0]|)
    && (forall j, i :: 0 <= j < |r| && 0 <= i < |r[j]| ==> r[j][i] == Dot(m1, m2, j, i, |m1|))
  }

  /** How many terms of entry (jj, ii) are summed once the loops of
      matrixMultiplication reach row i, column j and term k. */
  function Terms(i: int, j: int, k: int, ii: int, jj: int, n: int): int {
    if ii < i || (ii == i && jj < j) then n
    else if ii == i && jj == j then k
    else 0
  }

  /** The state of the result matrix inside the accumulation loops. */
  predicate Accumulated(m1: Matrix, m2: Matrix, r: Matrix, i: int, j: int, k: int)
    requires Readable(m1, m2)
  {
    && |r| == |m2|
    && (forall jj :: 0 <= jj < |r| ==> |r[jj]| == |m1[0]|)
    && 0 <= k <= |m1|
    && (forall jj, ii :: 0 <= jj < |r| && 0 <= ii < |r[jj]| ==>
          r[jj][ii] == Dot(m1, m2, jj, ii, Terms(i, j, k, ii, jj, |m1|)))
  }

  /** None when the number of columns of matrix1 differs from the length of
      the first column of matrix2; otherwise the product, built as a zero
      matrix whose entries are then summed term by term. The source indexes
      matrix2[0] first and, once the shapes agree, reads the entries that
      Readable names, so it demands both of its callers. */
  method MatrixMultiplication(m1: Matrix, m2: Matrix) returns (r: Option<Matrix>)
    requires |m2| > 0
    requires |m1| == |m2[0]| ==> Readable(m1, m2)
    ensures r.None? <==> |m1| != |m2[0]|
    ensures r.Some? ==> Readable(m1, m2) && IsProduct(m1, m2, r.value)
  {
    if |m1| != |m2[0]| {
      return None;
    }
    var res: Matrix := [];
    var i := 0;
    while i < |m2|
      invariant 0 <= i <= |m2| && |res| == i
      invariant forall jj :: 0 <= jj < i ==> |res[jj]| == |m1[0]|
      invariant forall jj, ii :: 0 <= jj < i && 0 <= ii < |res[jj]| ==> res[jj][ii] == 0.0
    {
      var column: seq<real> := [];
      var j := 0;
      while j < |m1[0]|
        invariant 0 <= j <= |m1[0]| && |column| == j
        invariant forall ii :: 0 <= ii < j ==> column[ii] == 0.0
      {
        column := column + [0.0];
        j := j + 1;
      }
      res := res + [column];
      i := i + 1;
    }
    assert Accumulated(m1, m2, res, 0, 0, 0);
    i := 0;
    while i < |res[0]|
      invariant 0 <= i <= |m1[0]|
      invariant Accumulated(m1, m2, res, i, 0, 0)
    {
      var j := 0;
      while j < |res|
        invariant 0 <= j <= |m2|
        invariant Accumulated(m1, m2, res, i, j, 0)
      {
        var k := 0;
        while k < |m1|
          invariant Accumulated(m1, m2, res, i, j, k)
        {
          res := res[j := res[j][i := res[j][i] + m1[k][i] * m2[j][k]]];
          k := k + 1;
        }
        j := j + 1;
      }
      i := i + 1;
    }
    return Some(res);
  }

  /** The product of the column-major 3x3 matrix [a, b, t] with the point
      column [x, y, 1] is the affine map x a + y b + t. */
  lemma AffineColumn(a: seq<real>, b: seq<real>, t: seq<real>, x: real, y: real, r: Matrix)
    requires |a| == |b| == |t| == 3
    requires IsProduct([a, b, t], [[x, y, 1.0]], r)
    ensures |r| == 1 && |r[0]| == 3
    ensures r[0][0] == a[0] * x + b[0] * y + t[0]
    ensures r[0][1] == a[1] * x + b[1] * y + t[1]
    ensures r[0][2] == a[2] * x + b[2] * y + t[2]
  {
    AffineEntry(a, b, t, x, y, 0);
    AffineEntry(a, b, t, x, y, 1);
    AffineEntry(a, b, t, x, y, 2);
  }

  lemma AffineEntry(a: seq<real>, b: seq<real>, t: seq<real>, x: real, y: real, i: int)
    requires |a| == |b| == |t| == 3 && 0 <= i < 3
    ensures Readable([a, b, t], [[x, y, 1.0]])
    ensures Dot([a, b, t], [[x, y, 1.0]], 0, i, 3) == a[i] * x + b[i] * y + t[i]
  {
    var m1, m2 := [a, b, t], [[x, y, 1.0]];
    assert Dot(m1, m2, 0, i, 1) == a[i] * x;
    assert Dot(m1, m2, 0, i, 2) == a[i] * x + b[i] * y;
  }
}
