/**
 * The accelerometer's 3x3 mount matrix, row by row as nine numbers: the truncating
 * "all zero" test with its fallback, and the product applied to every reading.
 */
module Matrix {

  type Matrix = m: seq<real> | |m| == 9 witness [1.0, 0.0, 0.0, 0.0, 1.0, 0.0, 0.0, 0.0, 1.0]

  datatype Vec3 = Vec3(x: real, y: real, z: real)

  const IDENTITY: Matrix := [1.0, 0.0, 0.0, 0.0, 1.0, 0.0, 0.0, 0.0, 1.0]
  const ZERO: Matrix := [0.0, 0.0, 0.0, 0.0, 0.0, 0.0, 0.0, 0.0, 0.0]

  /** Conversion from floating point to a C integer drops the fraction. */
  function Truncate(r: real): (t: int)
    ensures r >= 0.0 ==> 0.0 <= t as real <= r < t as real + 1.0
    ensures r <= 0.0 ==> t as real - 1.0 < r <= t as real <= 0.0
  {
    if r >= 0.0 then r.Floor else -(-r).Floor
  }

  /** The running sum kept in an integer: it is truncated after every single addition. */
  function TruncatedSum(m: Matrix, n: nat): int
    requires n <= 9
  {
    if n == 0 then 0 else Truncate(TruncatedSum(m, n - 1) as real + m[n - 1])
  }

  /** Only the diagonal is replaced when the truncated sum is zero. */
  function Fallback(m: Matrix): Matrix {
    if TruncatedSum(m, 9) == 0 then m[0 := 1.0][4 := 1.0][8 := 1.0] else m
  }

  function Dot(a: real, b: real, c: real, v: Vec3): real {
    a * v.x + b * v.y + c * v.z
  }

  function Apply(m: Matrix, v: Vec3): Vec3 {
    Vec3(Dot(m[0], m[1], m[2], v), Dot(m[3], m[4], m[5], v), Dot(m[6], m[7], m[8], v))
  }

  function Transpose(m: Matrix): Matrix {
    [m[0], m[3], m[6], m[1], m[4], m[7], m[2], m[5], m[8]]
  }

  function NormSquared(v: Vec3): real {
    v.x * v.x + v.y * v.y + v.z * v.z
  }

  // ---------------------------------------------------------------------
  // What applying a matrix means
  // ---------------------------------------------------------------------

  function Plus(a: Vec3, b: Vec3): Vec3 { Vec3(a.x + b.x, a.y + b.y, a.z + b.z) }

  function Times(k: real, a: Vec3): Vec3 { Vec3(k * a.x, k * a.y, k * a.z) }

  /** The matrix, row by row, sends the three axes to its columns ... */
  lemma AxesToColumns(m: Matrix)
    ensures Apply(m, Vec3(1.0, 0.0, 0.0)) == Vec3(m[0], m[3], m[6])
    ensures Apply(m, Vec3(0.0, 1.0, 0.0)) == Vec3(m[1], m[4], m[7])
    ensures Apply(m, Vec3(0.0, 0.0, 1.0)) == Vec3(m[2], m[5], m[8])
  {
  }

  /** ... and is linear, which together leave it no freedom. */
  lemma ApplyIsAdditive(m: Matrix, a: Vec3, b: Vec3)
    ensures Apply(m, Plus(a, b)) == Plus(Apply(m, a), Apply(m, b))
  {
    SumOfDots(m[0], m[1], m[2], a, b);
    SumOfDots(m[3], m[4], m[5], a, b);
    SumOfDots(m[6], m[7], m[8], a, b);
  }

  lemma ApplyIsHomogeneous(m: Matrix, k: real, a: Vec3)
    ensures Apply(m, Times(k, a)) == Times(k, Apply(m, a))
  {
    MultipleOfDot(m[0], m[1], m[2], k, a);
    MultipleOfDot(m[3], m[4], m[5], k, a);
    MultipleOfDot(m[6], m[7], m[8], k, a);
  }

  lemma SumOfDots(p: real, q: real, r: real, a: Vec3, b: Vec3)
    ensures Dot(p, q, r, Plus(a, b)) == Dot(p, q, r, a) + Dot(p, q, r, b)
  {
  }

  lemma MultipleOfDot(p: real, q: real, r: real, k: real, a: Vec3)
    ensures Dot(p, q, r, Times(k, a)) == k * Dot(p, q, r, a)
  {
    assert p * (k * a.x) == k * (p * a.x);
    assert q * (k * a.y) == k * (q * a.y);
    assert r * (k * a.z) == k * (r * a.z);
  }

  /** A rotation takes the directions given by its rows to the three axes. */
  lemma RowsToAxes(m: Matrix)
    requires UnitRows(m) && RightAngles(m)
    ensures Apply(m, Vec3(m[0], m[1], m[2])) == Vec3(1.0, 0.0, 0.0)
    ensures Apply(m, Vec3(m[3], m[4], m[5])) == Vec3(0.0, 1.0, 0.0)
    ensures Apply(m, Vec3(m[6], m[7], m[8])) == Vec3(0.0, 0.0, 1.0)
  {
    DotsCommute(Vec3(m[0], m[1], m[2]), Vec3(m[3], m[4], m[5]));
    DotsCommute(Vec3(m[0], m[1], m[2]), Vec3(m[6], m[7], m[8]));
    DotsCommute(Vec3(m[3], m[4], m[5]), Vec3(m[6], m[7], m[8]));
  }

  lemma DotsCommute(a: Vec3, b: Vec3)
    ensures Dot(a.x, a.y, a.z, b) == Dot(b.x, b.y, b.z, a)
  {
  }

  // ---------------------------------------------------------------------
  // When the fallback fires
  // ---------------------------------------------------------------------

  predicate Whole(m: Matrix) {
    forall k :: 0 <= k < 9 ==> m[k] == m[k].Floor as real
  }

  function WholeSum(m: Matrix, n: nat): int
    requires n <= 9
  {
    if n == 0 then 0 else WholeSum(m, n - 1) + m[n - 1].Floor
  }

  lemma {:induction false} WholeSumIsExact(m: Matrix, n: nat)
    requires Whole(m) && n <= 9
    ensures TruncatedSum(m, n) == WholeSum(m, n)
  {
    if n > 0 {
      WholeSumIsExact(m, n - 1);
      var w := WholeSum(m, n - 1) + m[n - 1].Floor;
      assert TruncatedSum(m, n - 1) as real + m[n - 1] == w as real;
      if w < 0 { assert -(w as real) == (-w) as real; }
    }
  }

  /** The exact condition, for every matrix: the truncated sum is zero and the diagonal is not all ones already. */
  lemma FallbackChanges(m: Matrix)
    ensures Fallback(m) != m <==> TruncatedSum(m, 9) == 0 && !(m[0] == m[4] == m[8] == 1.0)
    ensures Fallback(m) != m ==> Fallback(m) == m[0 := 1.0][4 := 1.0][8 := 1.0]
  {
    var d := m[0 := 1.0][4 := 1.0][8 := 1.0];
    assert d[0] == d[4] == d[8] == 1.0;
    if m[0] == m[4] == m[8] == 1.0 {
      assert d == m;
    }
  }

  /** A matrix of whole numbers falls back exactly when its nine entries add up to zero. */
  lemma FallbackOnWhole(m: Matrix)
    requires Whole(m)
    ensures Fallback(m) != m <==> WholeSum(m, 9) == 0 && !(m[0] == m[4] == m[8] == 1.0)
    ensures WholeSum(m, 9) == 0 ==> Fallback(m) == m[0 := 1.0][4 := 1.0][8 := 1.0]
  {
    WholeSumIsExact(m, 9);
    FallbackChanges(m);
  }

  /** The intended case: an all-zero matrix becomes exactly the identity. */
  lemma ZeroBecomesIdentity()
    ensures Fallback(ZERO) == IDENTITY
  {
  }

  /**
   * The result is the identity exactly for the identity itself and for matrices that are zero off
   * the diagonal and truncate to zero.
   */
  lemma FallbackIsIdentity(m: Matrix)
    ensures Fallback(m) == IDENTITY <==>
            m == IDENTITY ||
            (TruncatedSum(m, 9) == 0 && forall k :: 0 <= k < 9 && k % 4 != 0 ==> m[k] == 0.0)
  {
  }

  /** "Is it all zero" is not what the test decides: fractions vanish one by one... */
  lemma FallbackFiresOnFractions(m: Matrix)
    requires forall k :: 0 <= k < 9 ==> -1.0 < m[k] < 1.0
    ensures Fallback(m) == m[0 := 1.0][4 := 1.0][8 := 1.0]
  {
    SmallTruncates(m, 9);
  }

  lemma {:induction false} SmallTruncates(m: Matrix, n: nat)
    requires n <= 9 && forall k :: 0 <= k < 9 ==> -1.0 < m[k] < 1.0
    ensures TruncatedSum(m, n) == 0
  {
    if n > 0 { SmallTruncates(m, n - 1); }
  }

  lemma WholeSumRow(m: Matrix, n: nat)
    requires n <= 6
    ensures WholeSum(m, n + 3) == WholeSum(m, n) + m[n].Floor + m[n + 1].Floor + m[n + 2].Floor
  {
    assert WholeSum(m, n + 2) == WholeSum(m, n + 1) + m[n + 1].Floor;
  }

  // ---------------------------------------------------------------------
  // Mount matrices that only swap and mirror axes
  // ---------------------------------------------------------------------

  predicate Unit(r: real) { r == 1.0 || r == -1.0 }

  /** Exactly one entry of the three is +1 or -1, the others are zero. */
  predicate OneUnit(a: real, b: real, c: real) {
    (Unit(a) && b == 0.0 && c == 0.0) || (a == 0.0 && Unit(b) && c == 0.0) || (a == 0.0 && b == 0.0 && Unit(c))
  }

  predicate SignedPermutation(m: Matrix) {
    && OneUnit(m[0], m[1], m[2]) && OneUnit(m[3], m[4], m[5]) && OneUnit(m[6], m[7], m[8])
    && OneUnit(m[0], m[3], m[6]) && OneUnit(m[1], m[4], m[7]) && OneUnit(m[2], m[5], m[8])
  }

  /** The truncated sum of such a matrix is odd, so the fallback leaves it alone. */
  lemma SignedPermutationKept(m: Matrix)
    requires SignedPermutation(m)
    ensures TruncatedSum(m, 9) % 2 == 1
    ensures Fallback(m) == m
  {
    SignedPermutationWhole(m);
    WholeSumIsExact(m, 9);
    WholeSumRow(m, 0);
    WholeSumRow(m, 3);
    WholeSumRow(m, 6);
    RowSum(m[0], m[1], m[2]);
    RowSum(m[3], m[4], m[5]);
    RowSum(m[6], m[7], m[8]);
  }

  lemma SignedPermutationWhole(m: Matrix)
    requires SignedPermutation(m)
    ensures Whole(m)
  {
  }

  lemma RowSum(a: real, b: real, c: real)
    requires OneUnit(a, b, c)
    ensures a.Floor + b.Floor + c.Floor == 1 || a.Floor + b.Floor + c.Floor == -1
  {
  }

  // ---------------------------------------------------------------------
  // Rotations and reflections in general
  // ---------------------------------------------------------------------

  /** The rows are unit vectors at right angles: the matrix is a rotation, possibly mirrored. */
  predicate Orthonormal(m: Matrix) {
    UnitRows(m) && RightAngles(m)
  }

  predicate UnitRows(m: Matrix) {
    && m[0] * m[0] + m[1] * m[1] + m[2] * m[2] == 1.0
    && m[3] * m[3] + m[4] * m[4] + m[5] * m[5] == 1.0
    && m[6] * m[6] + m[7] * m[7] + m[8] * m[8] == 1.0
  }

  predicate RightAngles(m: Matrix) {
    && m[0] * m[3] + m[1] * m[4] + m[2] * m[5] == 0.0
    && m[0] * m[6] + m[1] * m[7] + m[2] * m[8] == 0.0
    && m[3] * m[6] + m[4] * m[7] + m[5] * m[8] == 0.0
  }

  lemma PositiveProduct(a: real, b: real) returns (p: real)
    requires a > 0.0 && b > 0.0
    ensures p == a * b && p > 0.0
  {
    p := a * b;
  }

  lemma SquareOf(a: real) returns (p: real)
    ensures p == a * a && p >= 0.0 && (a > 0.0 || a < 0.0 ==> p > 0.0)
  {
    if a > 0.0 {
      p := PositiveProduct(a, a);
    } else if a < 0.0 {
      p := PositiveProduct(-a, -a);
    } else {
      p := 0.0;
    }
  }

  lemma UnitEntry(a: real)
    ensures a * a == 1.0 ==> Unit(a)
  {
    if a > 1.0 {
      var p := PositiveProduct(a - 1.0, a + 1.0);
    } else if a < -1.0 {
      var p := PositiveProduct(1.0 - a, -1.0 - a);
    } else if -1.0 < a < 1.0 {
      var p := PositiveProduct(1.0 - a, 1.0 + a);
    }
  }

  /** A unit row that stays one when its diagonal entry becomes 1 has nothing else in it. */
  lemma DiagonalRow(x: real, a: real, b: real)
    requires x * x + a * a + b * b == 1.0 && 1.0 + a * a + b * b == 1.0
    ensures a == 0.0 && b == 0.0 && Unit(x)
  {
    var p := SquareOf(a);
    var q := SquareOf(b);
    assert p + q == 0.0;
    UnitEntry(x);
  }

  lemma UnitRowsOnDiagonal(m: Matrix)
    requires UnitRows(m) && UnitRows(m[0 := 1.0][4 := 1.0][8 := 1.0])
    ensures SignedPermutation(m)
  {
    var d := m[0 := 1.0][4 := 1.0][8 := 1.0];
    assert d[0] == d[4] == d[8] == 1.0;
    assert d[1] == m[1] && d[2] == m[2] && d[3] == m[3] && d[5] == m[5] && d[6] == m[6] && d[7] == m[7];
    DiagonalRow(m[0], m[1], m[2]);
    DiagonalRow(m[4], m[3], m[5]);
    DiagonalRow(m[8], m[6], m[7]);
  }

  /** A rotation the fallback touches is no rotation afterwards. */
  lemma FallbackSpoilsRotations(m: Matrix)
    requires Orthonormal(m) && Fallback(m) != m
    ensures !Orthonormal(Fallback(m))
  {
    FallbackChanges(m);
    if Orthonormal(Fallback(m)) {
      UnitRowsOnDiagonal(m);
      SignedPermutationKept(m);
    }
  }

  /** Every rotation that maps no axis onto an axis is lost that way ... */
  lemma ObliqueRotationLost(m: Matrix)
    requires Orthonormal(m) && forall k :: 0 <= k < 9 ==> -1.0 < m[k] < 1.0
    ensures Fallback(m) != m && !Orthonormal(Fallback(m))
  {
    FallbackFiresOnFractions(m);
    FallbackChanges(m);
    FallbackSpoilsRotations(m);
  }

  /** ... and there are such rotations: this one, by 60 degrees about the diagonal. */
  lemma ObliqueRotationExists()
    ensures var m: Matrix := [2.0 / 3.0, -1.0 / 3.0, 2.0 / 3.0,
                              2.0 / 3.0, 2.0 / 3.0, -1.0 / 3.0,
                              -1.0 / 3.0, 2.0 / 3.0, 2.0 / 3.0];
            Orthonormal(m) && !Orthonormal(Fallback(m))
  {
    var m: Matrix := [2.0 / 3.0, -1.0 / 3.0, 2.0 / 3.0,
                      2.0 / 3.0, 2.0 / 3.0, -1.0 / 3.0,
                      -1.0 / 3.0, 2.0 / 3.0, 2.0 / 3.0];
    ObliqueRotationLost(m);
  }

  /** Swapping and mirroring axes keeps the length of every reading ... */
  lemma SignedPermutationKeepsNorm(m: Matrix, v: Vec3)
    requires SignedPermutation(m)
    ensures NormSquared(Apply(m, v)) == NormSquared(v)
  {
  }

  /** ... and the transpose takes it back. */
  lemma SignedPermutationUndone(m: Matrix, v: Vec3)
    requires SignedPermutation(m)
    ensures Apply(Transpose(m), Apply(m, v)) == v
  {
  }

}
