/**
 * Fixed-size dense linear algebra over the reals, as used by the Kalman
 * filter: vectors are sequences and matrices are sequences of rows.
 * The filter's float32 arithmetic is modelled by exact real arithmetic.
 */
module Linalg {

  type Vector = seq<real>
  type Matrix = seq<seq<real>>

  /** `m` has `rows` rows, each of length `cols`. */
  predicate IsMatrix(m: Matrix, rows: nat, cols: nat)
  {
    |m| == rows && forall i :: 0 <= i < rows ==> |m[i]| == cols
  }

  function ZeroVector(n: nat): (v: Vector)
    ensures |v| == n
    ensures forall i :: 0 <= i < n ==> v[i] == 0.0
  {
    seq(n, _ => 0.0)
  }

  /** The `rows` x `cols` zero matrix (np.zeros). */
  function Zeros(rows: nat, cols: nat): (z: Matrix)
    ensures IsMatrix(z, rows, cols)
    ensures forall i, j :: 0 <= i < rows && 0 <= j < cols ==> z[i][j] == 0.0
  {
    seq(rows, _ => ZeroVector(cols))
  }

  /** The `n` x `n` identity matrix (np.eye, np.identity). */
  function Identity(n: nat): (id: Matrix)
    ensures IsMatrix(id, n, n)
    ensures forall i, j :: 0 <= i < n && 0 <= j < n ==> id[i][j] == (if i == j then 1.0 else 0.0)
  {
    seq(n, i => seq(n, j => if i == j then 1.0 else 0.0))
  }

  /** Every entry multiplied by `c`. */
  function Scale(c: real, m: Matrix): (r: Matrix)
    ensures |r| == |m|
    ensures forall i :: 0 <= i < |m| ==> |r[i]| == |m[i]|
    ensures forall i, j :: 0 <= i < |m| && 0 <= j < |m[i]| ==> r[i][j] == c * m[i][j]
  {
    seq(|m|, i requires 0 <= i < |m| => seq(|m[i]|, j requires 0 <= j < |m[i]| => c * m[i][j]))
  }

  /** The in-place write `m[i, j] = v`, as a new value: one entry changes, nothing else. */
  function SetEntry(m: Matrix, i: nat, j: nat, v: real): (r: Matrix)
    requires i < |m| && j < |m[i]|
    ensures |r| == |m|
    ensures forall k :: 0 <= k < |m| ==> |r[k]| == |m[k]|
    ensures r[i][j] == v
    ensures forall k, l :: 0 <= k < |m| && 0 <= l < |m[k]| && (k != i || l != j) ==> r[k][l] == m[k][l]
  {
    m[i := m[i][j := v]]
  }

  /** Two matrices of the same shape with the same entries are equal. */
  lemma MatrixExtensionality(a: Matrix, b: Matrix, rows: nat, cols: nat)
    requires IsMatrix(a, rows, cols) && IsMatrix(b, rows, cols)
    requires forall i, j :: 0 <= i < rows && 0 <= j < cols ==> a[i][j] == b[i][j]
    ensures a == b
  {
    forall i | 0 <= i < rows
      ensures a[i] == b[i]
    {
      assert forall j :: 0 <= j < cols ==> a[i][j] == b[i][j];
    }
  }

  function Dot(u: Vector, v: Vector): real
    requires |u| == |v|
  {
    if |u| == 0 then 0.0 else u[0] * v[0] + Dot(u[1..], v[1..])
  }

  /** A dot product with a zero vector on the left is zero. */
  lemma {:induction false} DotZeroLeft(u: Vector, v: Vector)
    requires |u| == |v|
    requires forall j :: 0 <= j < |u| ==> u[j] == 0.0
    ensures Dot(u, v) == 0.0
  {
    if |u| > 0 {
      assert forall j :: 0 <= j < |u| - 1 ==> u[1..][j] == u[j + 1];
      DotZeroLeft(u[1..], v[1..]);
    }
  }

  /** A dot product with a zero vector on the right is zero. */
  lemma {:induction false} DotZeroRight(u: Vector, v: Vector)
    requires |u| == |v|
    requires forall j :: 0 <= j < |v| ==> v[j] == 0.0
    ensures Dot(u, v) == 0.0
  {
    if |u| > 0 {
      assert forall j :: 0 <= j < |v| - 1 ==> v[1..][j] == v[j + 1];
      DotZeroRight(u[1..], v[1..]);
    }
  }

  /** When `u` has at most one non-zero entry, at `k`, the dot product picks `v[k]` scaled by it. */
  lemma {:induction false} DotSingle(u: Vector, v: Vector, k: nat)
    requires |u| == |v| && k < |u|
    requires forall j :: 0 <= j < |u| && j != k ==> u[j] == 0.0
    ensures Dot(u, v) == u[k] * v[k]
  {
    assert forall j :: 0 <= j < |u| - 1 ==> u[1..][j] == u[j + 1];
    if k == 0 {
      DotZeroLeft(u[1..], v[1..]);
    } else {
      DotSingle(u[1..], v[1..], k - 1);
    }
  }

  /** Matrix times vector: entry `i` is the dot product of row `i` with `v`. */
  function MatVec(m: Matrix, v: Vector): (r: Vector)
    requires forall i :: 0 <= i < |m| ==> |m[i]| == |v|
    ensures |r| == |m|
    ensures forall i :: 0 <= i < |m| ==> r[i] == Dot(m[i], v)
  {
    seq(|m|, i requires 0 <= i < |m| => Dot(m[i], v))
  }

  /** A matrix applied to the zero vector gives the zero vector. */
  lemma MatVecZero(m: Matrix, v: Vector)
    requires forall i :: 0 <= i < |m| ==> |m[i]| == |v|
    requires forall j :: 0 <= j < |v| ==> v[j] == 0.0
    ensures MatVec(m, v) == ZeroVector(|m|)
  {
    forall i | 0 <= i < |m|
      ensures MatVec(m, v)[i] == 0.0
    {
      DotZeroRight(m[i], v);
    }
  }

  function Column(m: Matrix, j: nat): (c: Vector)
    requires forall i :: 0 <= i < |m| ==> j < |m[i]|
    ensures |c| == |m|
    ensures forall i :: 0 <= i < |m| ==> c[i] == m[i][j]
  {
    seq(|m|, i requires 0 <= i < |m| => m[i][j])
  }

  function Transpose(m: Matrix, rows: nat, cols: nat): (t: Matrix)
    requires IsMatrix(m, rows, cols)
    ensures IsMatrix(t, cols, rows)
  {
    seq(cols, i requires 0 <= i < cols => Column(m, i))
  }

  /** The product of an `m` x `n` and an `n` x `p` matrix. */
  function MatMul(a: Matrix, b: Matrix, m: nat, n: nat, p: nat): (c: Matrix)
    requires IsMatrix(a, m, n) && IsMatrix(b, n, p)
    ensures IsMatrix(c, m, p)
  {
    seq(m, i requires 0 <= i < m => seq(p, j requires 0 <= j < p => Dot(a[i], Column(b, j))))
  }

  function MatAdd(a: Matrix, b: Matrix, rows: nat, cols: nat): (c: Matrix)
    requires IsMatrix(a, rows, cols) && IsMatrix(b, rows, cols)
    ensures IsMatrix(c, rows, cols)
  {
    seq(rows, i requires 0 <= i < rows => seq(cols, j requires 0 <= j < cols => a[i][j] + b[i][j]))
  }

  function MatSub(a: Matrix, b: Matrix, rows: nat, cols: nat): (c: Matrix)
    requires IsMatrix(a, rows, cols) && IsMatrix(b, rows, cols)
    ensures IsMatrix(c, rows, cols)
  {
    seq(rows, i requires 0 <= i < rows => seq(cols, j requires 0 <= j < cols => a[i][j] - b[i][j]))
  }

  function VecAdd(u: Vector, v: Vector): (w: Vector)
    requires |u| == |v|
    ensures |w| == |u|
    ensures forall i :: 0 <= i < |u| ==> w[i] == u[i] + v[i]
  {
    seq(|u|, i requires 0 <= i < |u| => u[i] + v[i])
  }

  function VecSub(u: Vector, v: Vector): (w: Vector)
    requires |u| == |v|
    ensures |w| == |u|
    ensures forall i :: 0 <= i < |u| ==> w[i] == u[i] - v[i]
  {
    seq(|u|, i requires 0 <= i < |u| => u[i] - v[i])
  }
}
