/** The scalar helpers behind every similarity mode: the lock-step sum of
    squared differences that the Euclidian distance takes the root of, and the
    reciprocal and exponential transforms that turn a distance into a
    similarity. Doubles are modelled as mathematical reals. */
module SimilarityFunctions {

  /** The two C math library functions the helpers call. Their values are not
      modelled: a caller passes them in, and `Sound` states the only facts the
      proofs rely on. */
  datatype MathLib = MathLib(sqrt: real -> real, exp: real -> real)

  /** `sqrt` is the non-negative square root on non-negative arguments, and
      `exp` is positive, strictly increasing and maps 0 to 1. */
  ghost predicate Sound(lib: MathLib)
  {
    && (forall x :: 0.0 <= x ==> 0.0 <= lib.sqrt(x) && Square(lib.sqrt(x)) == x)
    && lib.exp(0.0) == 1.0
    && (forall x :: 0.0 < lib.exp(x))
    && (forall x, y :: x < y ==> lib.exp(x) < lib.exp(y))
  }

  /** The square of a real, as the distance loop computes it for one
      coordinate difference. */
  function Square(x: real): (r: real)
    ensures 0.0 <= r
  {
    x * x
  }

  /** A square is positive unless its root is zero. */
  lemma SquarePositive(x: real)
    requires x != 0.0
    ensures 0.0 < Square(x)
  {
    if x < 0.0 {
      calc {
        0.0;
      < (-x) * (-x);
      == x * x;
      == Square(x);
      }
    } else {
      calc {
        0.0;
      < x * x;
      == Square(x);
      }
    }
  }

  /** Squaring is strictly increasing on non-negative reals. */
  lemma SquareStrictlyIncreasing(a: real, b: real)
    requires 0.0 <= a < b
    ensures Square(a) < Square(b)
  {
    calc {
      Square(a);
    == a * a;
    <= { MultiplyMonotone(a, b, a); }
      b * a;
    == a * b;
    < { MultiplyStrictlyMonotone(a, b, b); }
      b * b;
    == Square(b);
    }
  }

  lemma MultiplyMonotone(x: real, y: real, z: real)
    requires x <= y && 0.0 <= z
    ensures x * z <= y * z
  {
  }

  lemma MultiplyStrictlyMonotone(x: real, y: real, z: real)
    requires x < y && 0.0 < z
    ensures x * z < y * z
  {
  }

  /** The square root of a non-negative real is zero exactly when the real is. */
  lemma SqrtZeroIff(lib: MathLib, x: real)
    requires Sound(lib)
    requires 0.0 <= x
    ensures lib.sqrt(x) == 0.0 <==> x == 0.0
  {
    var s := lib.sqrt(x);
    assert 0.0 <= s && Square(s) == x;
    if s != 0.0 {
      SquarePositive(s);
    }
  }

  /** The square root undoes squaring on non-negative reals. */
  lemma SqrtOfSquare(lib: MathLib, x: real)
    requires Sound(lib)
    requires 0.0 <= x
    ensures lib.sqrt(Square(x)) == x
  {
    var s := lib.sqrt(Square(x));
    assert 0.0 <= s && Square(s) == Square(x);
    if s < x {
      SquareStrictlyIncreasing(s, x);
    } else if x < s {
      SquareStrictlyIncreasing(x, s);
    }
  }

  /** The sum of squared differences of the first `n` coordinates of `a` and
      `b`, taken in lock-step. */
  function SumOfSquares(a: seq<real>, b: seq<real>, n: nat): (s: real)
    requires n <= |a| && n <= |b|
    ensures 0.0 <= s
    decreases n
  {
    if n == 0 then 0.0 else SumOfSquares(a, b, n - 1) + Square(a[n - 1] - b[n - 1])
  }

  /** The Euclidian distance between `a` and the first `|a|` coordinates of `b`. */
  function Distance(lib: MathLib, a: seq<real>, b: seq<real>): (d: real)
    requires Sound(lib)
    requires |a| <= |b|
    ensures 0.0 <= d
    ensures Square(d) == SumOfSquares(a, b, |a|)
  {
    lib.sqrt(SumOfSquares(a, b, |a|))
  }

  /** The sum of squares vanishes exactly when the two vectors agree on every
      coordinate it covers. */
  lemma {:induction false} SumOfSquaresZeroIff(a: seq<real>, b: seq<real>, n: nat)
    requires n <= |a| && n <= |b|
    ensures SumOfSquares(a, b, n) == 0.0 <==> a[..n] == b[..n]
  {
    if n > 0 {
      SumOfSquaresZeroIff(a, b, n - 1);
      assert a[..n] == a[..n - 1] + [a[n - 1]];
      assert b[..n] == b[..n - 1] + [b[n - 1]];
      if a[n - 1] != b[n - 1] {
        SquarePositive(a[n - 1] - b[n - 1]);
        assert a[..n][n - 1] != b[..n][n - 1];
      } else {
        assert Square(a[n - 1] - b[n - 1]) == 0.0;
      }
    }
  }

  /** For vectors of equal length the sum of squares does not depend on the
      order of its arguments. */
  lemma {:induction false} SumOfSquaresSymmetric(a: seq<real>, b: seq<real>, n: nat)
    requires n <= |a| && n <= |b|
    ensures SumOfSquares(a, b, n) == SumOfSquares(b, a, n)
  {
    if n > 0 {
      SumOfSquaresSymmetric(a, b, n - 1);
      assert Square(a[n - 1] - b[n - 1]) == Square(b[n - 1] - a[n - 1]);
    }
  }

  /** Coordinates of `b` at or past `n` never contribute: a longer second
      vector is silently truncated to the length of the first. */
  lemma {:induction false} SumOfSquaresIgnoresTail(a: seq<real>, b: seq<real>, b': seq<real>, n: nat)
    requires n <= |a| && n <= |b| && n <= |b'|
    requires b[..n] == b'[..n]
    ensures SumOfSquares(a, b, n) == SumOfSquares(a, b', n)
  {
    if n > 0 {
      assert b[..n - 1] == b[..n][..n - 1] && b'[..n - 1] == b'[..n][..n - 1];
      assert b[n - 1] == b[..n][n - 1] && b'[n - 1] == b'[..n][n - 1];
      SumOfSquaresIgnoresTail(a, b, b', n - 1);
    }
  }

  /** The distance is zero exactly when `a` equals the first `|a|` coordinates
      of `b`. */
  lemma DistanceZeroIff(lib: MathLib, a: seq<real>, b: seq<real>)
    requires Sound(lib)
    requires |a| <= |b|
    ensures Distance(lib, a, b) == 0.0 <==> a == b[..|a|]
  {
    SqrtZeroIff(lib, SumOfSquares(a, b, |a|));
    SumOfSquaresZeroIff(a, b, |a|);
    assert a[..|a|] == a;
  }

  /** The distance between [0, 0] and [3, 4] is 5. */
  lemma DistanceExample(lib: MathLib)
    requires Sound(lib)
    ensures Distance(lib, [0.0, 0.0], [3.0, 4.0]) == 5.0
  {
    var a, b := [0.0, 0.0], [3.0, 4.0];
    assert SumOfSquares(a, b, 1) == 9.0;
    assert SumOfSquares(a, b, 2) == Square(5.0);
    SqrtOfSquare(lib, 5.0);
  }

  /** The source's distance loop: it walks `a` to its end and reads `b` at the
      same position, so `b` must be at least as long as `a`. */
  method EuclidianDistance(lib: MathLib, a: seq<real>, b: seq<real>) returns (d: real)
    requires Sound(lib)
    requires |a| <= |b|
    ensures d == Distance(lib, a, b)
    ensures 0.0 <= d
    ensures d == 0.0 <==> a == b[..|a|]
  {
    var v := 0.0;
    var i := 0;
    while i < |a|
      invariant i <= |a|
      invariant v == SumOfSquares(a, b, i)
    {
      v := v + Square(a[i] - b[i]);
      i := i + 1;
    }
    d := lib.sqrt(v);
    DistanceZeroIff(lib, a, b);
  }

  /** Similarity `1 / (d + 1)`. A real has no infinity, so the pole at
      `d == -1`, unreachable from a distance, is excluded. */
  function ReciprocalSimilarity(d: real): (r: real)
    requires d != -1.0
    ensures r * (d + 1.0) == 1.0
    ensures 0.0 <= d ==> 0.0 < r <= 1.0
    ensures d == 0.0 ==> r == 1.0
  {
    1.0 / (d + 1.0)
  }

  /** Larger distances give strictly smaller reciprocal similarities. */
  lemma ReciprocalStrictlyDecreasing(d1: real, d2: real)
    requires 0.0 <= d1 < d2
    ensures ReciprocalSimilarity(d2) < ReciprocalSimilarity(d1)
  {
  }

  /** Similarity `exp(-d * d / f)`, where `f` is the squared normalization
      factor. A real has no infinity, so `f == 0` is excluded. */
  function ExponentialSimilarity(lib: MathLib, d: real, f: real): (r: real)
    requires Sound(lib)
    requires f != 0.0
    ensures 0.0 < r
    ensures 0.0 < f ==> r <= 1.0
    ensures d == 0.0 ==> r == 1.0
  {
    lib.exp(-Square(d) / f)
  }

  /** With a positive factor, farther points are strictly less similar. */
  lemma ExponentialStrictlyDecreasing(lib: MathLib, d1: real, d2: real, f: real)
    requires Sound(lib)
    requires 0.0 < f
    requires 0.0 <= d1 < d2
    ensures ExponentialSimilarity(lib, d2, f) < ExponentialSimilarity(lib, d1, f)
  {
    SquareStrictlyIncreasing(d1, d2);
    assert -Square(d2) / f < -Square(d1) / f;
  }
}
