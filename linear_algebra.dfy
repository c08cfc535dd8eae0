/**
 * Real 2-vectors, and the dense vector and matrix algebra that the constraint
 * solver performs with numpy (`dot`, `.T`, `+`, `-`), over exact reals.
 * Vectors are `seq<real>`, matrices are sequences of rows.
 */
module LinearAlgebra {

  /** A two-component vector: a particle's position, velocity or force accumulator. */
  datatype Vec2 = Vec2(x: real, y: real) {

    /** Component `d`, as numpy's `v[d]`. */
    function At(d: nat): real
      requires d < 2
    {
      if d == 0 then x else y
    }

    /** This vector with component `d` replaced, as numpy's `v[d] = value`. */
    function With(d: nat, value: real): (r: Vec2)
      requires d < 2
      ensures r.At(d) == value
      ensures forall e :: 0 <= e < 2 && e != d ==> r.At(e) == At(e)
    {
      if d == 0 then Vec2(value, y) else Vec2(x, value)
    }

    function Plus(other: Vec2): Vec2 {
      Vec2(x + other.x, y + other.y)
    }

    function Times(c: real): Vec2 {
      Vec2(x * c, y * c)
    }

    function Over(c: real): Vec2
      requires c != 0.0
    {
      Vec2(x / c, y / c)
    }
  }

  /** No element of the list appears twice: the body lists of the drivers and the constraint manager, read by identity. */
  predicate Distinct<T(==)>(xs: seq<T>) {
    forall i, k :: 0 <= i < k < |xs| ==> xs[i] != xs[k]
  }

  const Zero: Vec2 := Vec2(0.0, 0.0)

  /** Every row of `a` has `width` entries. */
  predicate IsMatrix(a: seq<seq<real>>, width: nat) {
    forall r :: 0 <= r < |a| ==> |a[r]| == width
  }

  function Zeros(n: nat): (r: seq<real>)
    ensures |r| == n && forall k :: 0 <= k < n ==> r[k] == 0.0
  {
    seq(n, _ => 0.0)
  }

  function Add(u: seq<real>, v: seq<real>): (r: seq<real>)
    requires |u| == |v|
    ensures |r| == |u| && forall k :: 0 <= k < |u| ==> r[k] == u[k] + v[k]
  {
    seq(|u|, k requires 0 <= k < |u| => u[k] + v[k])
  }

  function Scale(c: real, u: seq<real>): (r: seq<real>)
    ensures |r| == |u|
  {
    seq(|u|, k requires 0 <= k < |u| => c * u[k])
  }

  function Neg(u: seq<real>): (r: seq<real>)
    ensures |r| == |u| && forall k :: 0 <= k < |u| ==> r[k] == -u[k]
  {
    seq(|u|, k requires 0 <= k < |u| => -u[k])
  }

  /** The inner product, summed from the front. */
  function Dot(u: seq<real>, v: seq<real>): real
    requires |u| == |v|
    decreases |u|
  {
    if |u| == 0 then 0.0 else Dot(u[..|u| - 1], v[..|v| - 1]) + u[|u| - 1] * v[|v| - 1]
  }

  /** Matrix times column vector, as `a.dot(v)`. */
  function MatVec(a: seq<seq<real>>, v: seq<real>): (r: seq<real>)
    requires IsMatrix(a, |v|)
    ensures |r| == |a| && forall i :: 0 <= i < |a| ==> r[i] == Dot(a[i], v)
  {
    seq(|a|, i requires 0 <= i < |a| => Dot(a[i], v))
  }

  /** Column `k` of `a`. */
  function Column(a: seq<seq<real>>, width: nat, k: nat): (r: seq<real>)
    requires IsMatrix(a, width) && k < width
    ensures |r| == |a| && forall i :: 0 <= i < |a| ==> r[i] == a[i][k]
  {
    seq(|a|, i requires 0 <= i < |a| => a[i][k])
  }

  /**
   * The transpose of a matrix whose rows have `width` entries; the width is
   * explicit because a matrix with no rows still has columns (numpy's shape (0, n)).
   */
  function Transpose(a: seq<seq<real>>, width: nat): (r: seq<seq<real>>)
    requires IsMatrix(a, width)
    ensures |r| == width && IsMatrix(r, |a|)
    ensures forall k :: 0 <= k < width ==> r[k] == Column(a, width, k)
  {
    seq(width, k requires 0 <= k < width => Column(a, width, k))
  }

  /** Row vector times matrix: the combination of the rows of `b` weighted by `a`. */
  function VecMat(a: seq<real>, b: seq<seq<real>>, width: nat): (r: seq<real>)
    requires |a| == |b| && IsMatrix(b, width)
    ensures |r| == width
    decreases |a|
  {
    if |a| == 0 then Zeros(width)
    else Add(VecMat(a[..|a| - 1], b[..|b| - 1], width), Scale(a[|a| - 1], b[|b| - 1]))
  }

  /** Matrix product, as `a.dot(b)`, for `b` with `width` columns. */
  function MatMul(a: seq<seq<real>>, b: seq<seq<real>>, width: nat): (r: seq<seq<real>>)
    requires IsMatrix(a, |b|) && IsMatrix(b, width)
    ensures |r| == |a| && IsMatrix(r, width)
    ensures forall i :: 0 <= i < |a| ==> r[i] == VecMat(a[i], b, width)
  {
    seq(|a|, i requires 0 <= i < |a| => VecMat(a[i], b, width))
  }

  /** The square matrix with `d` on its diagonal and zeros elsewhere. */
  function Diagonal(d: seq<real>): (r: seq<seq<real>>)
    ensures |r| == |d| && IsMatrix(r, |d|)
    ensures forall i, k :: 0 <= i < |d| && 0 <= k < |d| ==> r[i][k] == if i == k then d[i] else 0.0
  {
    seq(|d|, i requires 0 <= i < |d| => seq(|d|, k requires 0 <= k < |d| => if i == k then d[i] else 0.0))
  }

  function Identity(n: nat): (r: seq<seq<real>>)
    ensures |r| == n && IsMatrix(r, n)
  {
    Diagonal(seq(n, _ => 1.0))
  }

  // ---------------------------------------------------------------------------
  // Lemmas about the inner product

  /** Distributing a product over a sum, away from any sequence. */
  lemma Distribute(c: real, x: real, y: real, z: real)
    requires z == x + y
    ensures c * z == c * x + c * y && z * c == x * c + y * c
  {
  }

  lemma {:induction false} AddPrefix(u: seq<real>, v: seq<real>, n: nat)
    requires |u| == |v| && n <= |u|
    ensures Add(u, v)[..n] == Add(u[..n], v[..n])
  {
  }

  lemma {:induction false} ScalePrefix(c: real, u: seq<real>, n: nat)
    requires n <= |u|
    ensures Scale(c, u)[..n] == Scale(c, u[..n])
  {
    assert forall m :: 0 <= m < n ==> Scale(c, u)[..n][m] == Scale(c, u[..n])[m];
  }

  /** The inner product splits off its last term. */
  lemma {:induction false} DotLast(u: seq<real>, v: seq<real>, n: nat)
    requires |u| == |v| == n + 1
    ensures Dot(u, v) == Dot(u[..n], v[..n]) + u[n] * v[n]
  {
  }

  lemma {:induction false} DotAddLeft(u: seq<real>, w: seq<real>, v: seq<real>)
    requires |u| == |w| == |v|
    ensures Dot(Add(u, w), v) == Dot(u, v) + Dot(w, v)
    decreases |u|
  {
    if |u| > 0 {
      var n := |u| - 1;
      DotLast(Add(u, w), v, n);
      DotLast(u, v, n);
      DotLast(w, v, n);
      AddPrefix(u, w, n);
      Distribute(v[n], u[n], w[n], Add(u, w)[n]);
      DotAddLeft(u[..n], w[..n], v[..n]);
    }
  }

  lemma {:induction false} DotAddRight(u: seq<real>, v: seq<real>, w: seq<real>)
    requires |u| == |v| == |w|
    ensures Dot(u, Add(v, w)) == Dot(u, v) + Dot(u, w)
    decreases |u|
  {
    if |u| > 0 {
      var n := |u| - 1;
      DotLast(u, Add(v, w), n);
      DotLast(u, v, n);
      DotLast(u, w, n);
      AddPrefix(v, w, n);
      Distribute(u[n], v[n], w[n], Add(v, w)[n]);
      DotAddRight(u[..n], v[..n], w[..n]);
    }
  }

  /** A vector that is zero outside the two entries `k` and `k + 1` meets `v` only there. */
  lemma {:induction false} DotPair(u: seq<real>, v: seq<real>, k: nat)
    requires |u| == |v| && k + 1 < |u|
    requires forall m :: 0 <= m < |u| && m != k && m != k + 1 ==> u[m] == 0.0
    ensures Dot(u, v) == u[k] * v[k] + u[k + 1] * v[k + 1]
    decreases |u|
  {
    var n := |u| - 1;
    if n == k + 1 {
      DotZero(u[..n - 1], v[..n - 1]);
      assert u[..n][..n - 1] == u[..n - 1] && v[..n][..n - 1] == v[..n - 1];
    } else {
      DotPair(u[..n], v[..n], k);
    }
  }

  /** A vector that is zero outside entry `k` meets `v` only there. */
  lemma {:induction false} DotSingle(u: seq<real>, v: seq<real>, k: nat)
    requires |u| == |v| && k < |u|
    requires forall m :: 0 <= m < |u| && m != k ==> u[m] == 0.0
    ensures Dot(u, v) == u[k] * v[k]
    decreases |u|
  {
    var n := |u| - 1;
    if n == k {
      DotZero(u[..n], v[..n]);
    } else {
      DotSingle(u[..n], v[..n], k);
    }
  }

  lemma {:induction false} DotZero(u: seq<real>, v: seq<real>)
    requires |u| == |v|
    requires forall m :: 0 <= m < |u| ==> u[m] == 0.0
    ensures Dot(u, v) == 0.0
    decreases |u|
  {
    if |u| > 0 {
      DotZero(u[..|u| - 1], v[..|v| - 1]);
    }
  }

  // ---------------------------------------------------------------------------
  // Lemmas about products

  /** Entry `k` of a row-vector product is the inner product with column `k`. */
  lemma {:induction false} VecMatColumn(a: seq<real>, b: seq<seq<real>>, width: nat, k: nat)
    requires |a| == |b| && IsMatrix(b, width) && k < width
    ensures VecMat(a, b, width)[k] == Dot(a, Column(b, width, k))
    decreases |a|
  {
    if |a| > 0 {
      var n := |a| - 1;
      assert Column(b, width, k)[..n] == Column(b[..n], width, k);
      VecMatColumn(a[..n], b[..n], width, k);
    }
  }

  // ---------------------------------------------------------------------------
  // Associativity of the products, through sums of entries

  /** The sum of the entries, from the front. */
  function Sum(x: seq<real>): real
    decreases |x|
  {
    if |x| == 0 then 0.0 else Sum(x[..|x| - 1]) + x[|x| - 1]
  }

  /** The entrywise products of two vectors of one length. */
  function Products(u: seq<real>, v: seq<real>): (r: seq<real>)
    requires |u| == |v|
    ensures |r| == |u|
  {
    seq(|u|, k requires 0 <= k < |u| => u[k] * v[k])
  }

  /** The sum of every row of a matrix. */
  function RowSums(m: seq<seq<real>>): (r: seq<real>)
    ensures |r| == |m| && forall i :: 0 <= i < |m| ==> r[i] == Sum(m[i])
  {
    seq(|m|, i requires 0 <= i < |m| => Sum(m[i]))
  }

  /** The sum of every column of a matrix whose rows have `width` entries. */
  function ColumnSums(m: seq<seq<real>>, width: nat): (r: seq<real>)
    requires IsMatrix(m, width)
    ensures |r| == width && forall k :: 0 <= k < width ==> r[k] == Sum(Column(m, width, k))
  {
    seq(width, k requires 0 <= k < width => Sum(Column(m, width, k)))
  }

  lemma {:induction false} ProductsAt(u: seq<real>, v: seq<real>, k: nat)
    requires |u| == |v| && k < |u|
    ensures Products(u, v)[k] == u[k] * v[k]
  {
  }

  lemma {:induction false} SumLast(x: seq<real>, n: nat)
    requires |x| == n + 1
    ensures Sum(x) == Sum(x[..n]) + x[n]
  {
  }

  lemma {:induction false} ProductsPrefix(u: seq<real>, v: seq<real>, n: nat)
    requires |u| == |v| && n <= |u|
    ensures Products(u, v)[..n] == Products(u[..n], v[..n])
  {
    assert forall k :: 0 <= k < n ==> Products(u, v)[..n][k] == Products(u[..n], v[..n])[k];
  }

  /** The inner product is the sum of the entrywise products. */
  lemma {:induction false} DotIsSum(u: seq<real>, v: seq<real>)
    requires |u| == |v|
    ensures Dot(u, v) == Sum(Products(u, v))
    decreases |u|
  {
    if |u| > 0 {
      var n := |u| - 1;
      DotLast(u, v, n);
      SumLast(Products(u, v), n);
      ProductsPrefix(u, v, n);
      DotIsSum(u[..n], v[..n]);
    }
  }

  lemma {:induction false} SumZeros(n: nat)
    ensures Sum(Zeros(n)) == 0.0
  {
    if n > 0 {
      assert Zeros(n)[..n - 1] == Zeros(n - 1);
      SumZeros(n - 1);
    }
  }

  lemma {:induction false} SumAdd(x: seq<real>, y: seq<real>)
    requires |x| == |y|
    ensures Sum(Add(x, y)) == Sum(x) + Sum(y)
    decreases |x|
  {
    if |x| > 0 {
      var n := |x| - 1;
      SumLast(Add(x, y), n);
      SumLast(x, n);
      SumLast(y, n);
      AddPrefix(x, y, n);
      SumAdd(x[..n], y[..n]);
    }
  }

  lemma {:induction false} SumScale(c: real, x: seq<real>)
    ensures Sum(Scale(c, x)) == c * Sum(x)
    decreases |x|
  {
    if |x| > 0 {
      var n := |x| - 1;
      SumLast(Scale(c, x), n);
      SumLast(x, n);
      ScalePrefix(c, x, n);
      Distribute(c, Sum(x[..n]), x[n], Sum(x));
      SumScale(c, x[..n]);
    }
  }

  lemma {:induction false} ColumnSumsLast(m: seq<seq<real>>, width: nat, n: nat)
    requires IsMatrix(m, width) && |m| == n + 1
    ensures ColumnSums(m, width) == Add(ColumnSums(m[..n], width), m[n])
  {
    forall k | 0 <= k < width
      ensures ColumnSums(m, width)[k] == ColumnSums(m[..n], width)[k] + m[n][k]
    {
      SumLast(Column(m, width, k), n);
      assert Column(m, width, k)[..n] == Column(m[..n], width, k);
    }
  }

  /** Summing a matrix row by row or column by column gives the same total. */
  lemma {:induction false} SumSwap(m: seq<seq<real>>, width: nat)
    requires IsMatrix(m, width)
    ensures Sum(RowSums(m)) == Sum(ColumnSums(m, width))
    decreases |m|
  {
    if |m| == 0 {
      assert ColumnSums(m, width) == Zeros(width);
      SumZeros(width);
    } else {
      var n := |m| - 1;
      SumLast(RowSums(m), n);
      assert RowSums(m)[..n] == RowSums(m[..n]);
      ColumnSumsLast(m, width, n);
      SumAdd(ColumnSums(m[..n], width), m[n]);
      SumSwap(m[..n], width);
    }
  }

  /** The terms `a[i] * b[i][k] * v[k]` of both sides of `a . (B v) == (a B) . v`. */
  function Terms(a: seq<real>, b: seq<seq<real>>, v: seq<real>): (r: seq<seq<real>>)
    requires |a| == |b| && IsMatrix(b, |v|)
    ensures |r| == |a| && IsMatrix(r, |v|)
  {
    seq(|a|, i requires 0 <= i < |a| => Scale(a[i], Products(b[i], v)))
  }

  /** Entry `i` of `B v`, weighted by `a[i]`, is the sum of row `i` of the terms. */
  lemma {:induction false} RowTerm(a: seq<real>, b: seq<seq<real>>, v: seq<real>, i: nat)
    requires |a| == |b| && IsMatrix(b, |v|) && i < |a|
    ensures Products(a, MatVec(b, v))[i] == Sum(Terms(a, b, v)[i])
  {
    DotIsSum(b[i], v);
    SumScale(a[i], Products(b[i], v));
  }

  /** Equal factors give equal products, in either order. */
  lemma Commute(x: real, y: real, c: real)
    requires x == y
    ensures x * c == c * y
  {
  }

  /** Reordering a product of three reals. */
  lemma Rotate(x: real, y: real, z: real)
    ensures x * (y * z) == z * (x * y)
  {
  }

  /** Column `k` of the terms is `a` times column `k` of `B`, weighted by `v[k]`. */
  lemma {:induction false} TermsColumn(a: seq<real>, b: seq<seq<real>>, v: seq<real>, k: nat)
    requires |a| == |b| && IsMatrix(b, |v|) && k < |v|
    ensures Column(Terms(a, b, v), |v|, k) == Scale(v[k], Products(a, Column(b, |v|, k)))
  {
    forall i | 0 <= i < |a|
      ensures Column(Terms(a, b, v), |v|, k)[i] == Scale(v[k], Products(a, Column(b, |v|, k)))[i]
    {
      Rotate(a[i], b[i][k], v[k]);
    }
  }

  /** Entry `k` of `a B`, weighted by `v[k]`, is the sum of column `k` of the terms. */
  lemma {:induction false} ColumnTerm(a: seq<real>, b: seq<seq<real>>, v: seq<real>, k: nat)
    requires |a| == |b| && IsMatrix(b, |v|) && k < |v|
    ensures Products(VecMat(a, b, |v|), v)[k] == Sum(Column(Terms(a, b, v), |v|, k))
  {
    var row, column := VecMat(a, b, |v|), Column(b, |v|, k);
    var p := Products(a, column);
    VecMatColumn(a, b, |v|, k);
    DotIsSum(a, column);
    Commute(row[k], Sum(p), v[k]);
    SumScale(v[k], p);
    TermsColumn(a, b, v, k);
    ProductsAt(row, v, k);
  }

  /** `a . (B v) == (a B) . v`: the product is associative. */
  lemma {:induction false} DotMatVec(a: seq<real>, b: seq<seq<real>>, v: seq<real>)
    requires |a| == |b| && IsMatrix(b, |v|)
    ensures Dot(a, MatVec(b, v)) == Dot(VecMat(a, b, |v|), v)
  {
    var terms := Terms(a, b, v);
    forall i | 0 <= i < |a|
      ensures Products(a, MatVec(b, v))[i] == RowSums(terms)[i]
    {
      RowTerm(a, b, v, i);
    }
    assert Products(a, MatVec(b, v)) == RowSums(terms);
    forall k | 0 <= k < |v|
      ensures Products(VecMat(a, b, |v|), v)[k] == ColumnSums(terms, |v|)[k]
    {
      ColumnTerm(a, b, v, k);
    }
    assert Products(VecMat(a, b, |v|), v) == ColumnSums(terms, |v|);
    DotIsSum(a, MatVec(b, v));
    DotIsSum(VecMat(a, b, |v|), v);
    SumSwap(terms, |v|);
  }

  /** `A (B v) == (A B) v`. */
  lemma {:induction false} MatVecMatMul(a: seq<seq<real>>, b: seq<seq<real>>, v: seq<real>)
    requires IsMatrix(a, |b|) && IsMatrix(b, |v|)
    ensures MatVec(a, MatVec(b, v)) == MatVec(MatMul(a, b, |v|), v)
  {
    forall i | 0 <= i < |a|
      ensures MatVec(a, MatVec(b, v))[i] == MatVec(MatMul(a, b, |v|), v)[i]
    {
      DotMatVec(a[i], b, v);
    }
  }

  /** Adding `u` to `-v - u` leaves `-v`. */
  lemma {:induction false} AddNegCancel(u: seq<real>, v: seq<real>)
    requires |u| == |v|
    ensures Add(u, Add(Neg(v), Neg(u))) == Neg(v)
  {
    var total := Add(u, Add(Neg(v), Neg(u)));
    assert forall k :: 0 <= k < |total| ==> total[k] == Neg(v)[k];
  }

  /** `A (u + v) == A u + A v`. */
  lemma {:induction false} MatVecAdd(a: seq<seq<real>>, u: seq<real>, v: seq<real>)
    requires |u| == |v| && IsMatrix(a, |u|)
    ensures MatVec(a, Add(u, v)) == Add(MatVec(a, u), MatVec(a, v))
  {
    forall i | 0 <= i < |a|
      ensures MatVec(a, Add(u, v))[i] == Add(MatVec(a, u), MatVec(a, v))[i]
    {
      DotAddRight(a[i], u, v);
    }
  }

  /** A diagonal matrix times the diagonal matrix of reciprocals is the identity. */
  lemma {:induction false} DiagonalInverse(d: seq<real>, w: seq<real>)
    requires |d| == |w|
    requires forall i :: 0 <= i < |d| ==> d[i] * w[i] == 1.0
    ensures MatMul(Diagonal(d), Diagonal(w), |w|) == Identity(|d|)
  {
    var n := |d|;
    var p := MatMul(Diagonal(d), Diagonal(w), n);
    forall i | 0 <= i < n
      ensures p[i] == Identity(n)[i]
    {
      forall k | 0 <= k < n
        ensures p[i][k] == Identity(n)[i][k]
      {
        VecMatColumn(Diagonal(d)[i], Diagonal(w), n, k);
        DotSingle(Diagonal(d)[i], Column(Diagonal(w), n, k), i);
      }
    }
  }

  /** `n` contributions of `w` added one after another: what a body listed `n` times receives. */
  function Repeated(n: nat, w: real): real {
    if n == 0 then 0.0 else Repeated(n - 1, w) + w
  }

  /** Adding `w` once per listing is adding `n w`. */
  lemma {:induction false} RepeatedIsProduct(n: nat, w: real)
    ensures Repeated(n, w) == n as real * w
  {
    if n > 0 {
      RepeatedIsProduct(n - 1, w);
      assert n as real * w == (n - 1) as real * w + w;
    }
  }

  /** How many times `x` is listed in `s`. */
  function Occurrences<T(==)>(s: seq<T>, x: T): nat
    decreases |s|
  {
    if |s| == 0 then 0 else Occurrences(s[..|s| - 1], x) + (if s[|s| - 1] == x then 1 else 0)
  }

  /** The listing count is the multiplicity of `x` in the multiset of `s`. */
  lemma {:induction false} OccurrencesIsMultiplicity<T>(s: seq<T>, x: T)
    ensures Occurrences(s, x) == multiset(s)[x]
    decreases |s|
  {
    if |s| > 0 {
      OccurrencesIsMultiplicity(s[..|s| - 1], x);
      assert s == s[..|s| - 1] + [s[|s| - 1]];
    }
  }

  /** Extending a prefix by one entry counts that entry once more and every other value as before. */
  lemma {:induction false} OccurrencesStep<T>(s: seq<T>, i: nat, x: T)
    requires i < |s|
    ensures Occurrences(s[..i + 1], x) == Occurrences(s[..i], x) + (if x == s[i] then 1 else 0)
  {
    assert s[..i + 1][..i] == s[..i];
  }
}
