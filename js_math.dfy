/**
 * The part of JavaScript's number semantics the park scene relies on, over
 * the mathematical reals.
 *
 * `Math.sin`, `Math.cos` and `Math.sqrt` are not computed here: a `Math`
 * value carries them as function values, and `Lawful(m)` states the only
 * facts any proof uses about them. `Math.random` becomes a stream of draws
 * `rand: nat -> real` read from a cursor; `UnitDraws(rand)` says every draw
 * lies in [0, 1), as `Math.random` promises.
 */
module JsMath {

  /** The transcendental part of JavaScript's `Math` object. */
  datatype Math = Math(sin: real -> real, cos: real -> real, sqrt: real -> real, PI: real)

  /**
   * The facts about sin, cos, sqrt and PI that most proofs use: the ranges of
   * sin and cos, the defining property of sqrt, and sqrt(0) = 0.
   */
  ghost predicate Lawful(m: Math) {
    && 3.14 < m.PI < 3.15
    && (forall x :: -1.0 <= m.sin(x) <= 1.0)
    && (forall x :: -1.0 <= m.cos(x) <= 1.0)
    && (forall v :: 0.0 <= v ==> 0.0 <= m.sqrt(v) && m.sqrt(v) * m.sqrt(v) == v && (v == 0.0 ==> m.sqrt(v) == 0.0))
  }

  /** sin² + cos² = 1, kept apart from `Lawful` so that only the proofs that need it see it. */
  ghost predicate Circular(m: Math) {
    forall x :: m.sin(x) * m.sin(x) + m.cos(x) * m.cos(x) == 1.0
  }

  /** A half turn negates sine and cosine. */
  ghost predicate HalfTurn(m: Math) {
    && (forall x, y :: y == x + m.PI ==> m.sin(y) == -m.sin(x))
    && (forall x, y :: y == x + m.PI ==> m.cos(y) == -m.cos(x))
  }

  /** A value that may be `null` (or `undefined`) in the source. */
  datatype Option<T> = None | Some(value: T)

  /** Every draw of the stream is a possible result of `Math.random()`. */
  ghost predicate UnitDraws(rand: nat -> real) {
    forall k :: 0.0 <= rand(k) < 1.0
  }

  function Abs(x: real): (r: real)
    ensures 0.0 <= r && (r == x || r == -x)
  {
    if x < 0.0 then -x else x
  }

  function Min(a: real, b: real): (r: real)
    ensures r <= a && r <= b && (r == a || r == b)
  {
    if a <= b then a else b
  }

  function Max(a: real, b: real): (r: real)
    ensures a <= r && b <= r && (r == a || r == b)
  {
    if a >= b then a else b
  }

  /** `Math.pow(x, 2)`. */
  function Square(x: real): (r: real)
    ensures 0.0 <= r
  {
    x * x
  }

  /** `Math.floor`. */
  function Floor(x: real): (r: int)
    ensures r as real <= x < r as real + 1.0
  {
    x.Floor
  }

  /** Truncation toward zero, as JavaScript's `%` uses it. */
  function Trunc(x: real): (r: int)
    ensures 0.0 <= x ==> r == Floor(x)
    ensures x < 0.0 ==> x <= r as real <= 0.0 && r as real < x + 1.0
  {
    if x >= 0.0 then Floor(x) else -Floor(-x)
  }

  /**
   * JavaScript's `a % n` on numbers: the remainder keeps the sign of the
   * dividend (unlike Dafny's Euclidean `%`).
   */
  function JsMod(a: real, n: real): real
    requires n != 0.0
  {
    a - n * (Trunc(a / n) as real)
  }

  /** For a positive divisor the remainder lies in (-n, n) and has the dividend's sign. */
  lemma JsModRange(a: real, n: real)
    requires 0.0 < n
    ensures 0.0 <= a ==> 0.0 <= JsMod(a, n) < n
    ensures a < 0.0 ==> -n < JsMod(a, n) <= 0.0
  {
    var q := a / n;
    assert q * n == a;
    var t := Trunc(q) as real;
    assert JsMod(a, n) == a - t * n;
    if 0.0 <= a {
      calc {
        t * n;
      <= { ProductMonotone(t, q, n); }
        q * n;
      == a;
      }
      calc {
        a;
      == q * n;
      < { StrictProduct(q, t + 1.0, n); }
        (t + 1.0) * n;
      == t * n + n;
      }
    } else {
      calc {
        a;
      == q * n;
      <= { ProductMonotone(q, t, n); }
        t * n;
      }
      calc {
        t * n;
      < { StrictProduct(t, q + 1.0, n); }
        (q + 1.0) * n;
      == q * n + n;
      == a + n;
      }
    }
  }

  /** For a non-negative dividend and a positive divisor, `%` is the floor remainder. */
  lemma JsModFloor(a: real, n: real)
    requires 0.0 <= a && 0.0 < n
    ensures JsMod(a, n) == a - n * (Floor(a / n) as real)
  {
    assert 0.0 <= a / n;
  }

  /** Adding whole multiples of the divisor to a non-negative dividend does not change `%`. */
  lemma JsModPeriodic(a: real, n: real, k: nat)
    requires 0.0 <= a && 0.0 < n
    ensures JsMod(a + (k as real) * n, n) == JsMod(a, n)
  {
    var b := a + (k as real) * n;
    assert b / n == a / n + k as real;
    FloorShift(a / n, k);
    JsModFloor(a, n);
    JsModFloor(b, n);
  }

  lemma FloorShift(x: real, k: int)
    ensures Floor(x + k as real) == Floor(x) + k
  {
  }

  lemma ProductMonotone(a: real, b: real, n: real)
    requires a <= b && 0.0 <= n
    ensures a * n <= b * n
  {
  }

  /** A fraction of a non-negative amount lies between zero and the amount. */
  lemma FractionOf(f: real, n: real)
    requires 0.0 <= f <= 1.0 && 0.0 <= n
    ensures 0.0 <= f * n <= n
  {
    ProductMonotone(0.0, f, n);
    ProductMonotone(f, 1.0, n);
  }

  /** a·(1 − f) + b·f: the linear blend from a (f = 0) to b (f = 1). */
  function Lerp(a: real, b: real, f: real): real {
    a - a * f + b * f
  }

  /** A blend with a weight in [0, 1] lies between its two ends. */
  lemma LerpBetween(a: real, b: real, f: real)
    requires 0.0 <= f <= 1.0
    ensures Min(a, b) <= Lerp(a, b, f) <= Max(a, b)
  {
    if a <= b {
      LerpOrdered(a, b, f);
    } else {
      LerpOrdered(b, a, 1.0 - f);
      LerpSwap(a, b, f);
    }
  }

  lemma LerpOrdered(a: real, b: real, f: real)
    requires a <= b && 0.0 <= f <= 1.0
    ensures a <= Lerp(a, b, f) <= b
  {
    LerpAbove(a, b, f);
    LerpBelow(a, b, f);
  }

  lemma LerpAbove(a: real, b: real, f: real)
    requires a <= b && 0.0 <= f
    ensures a <= Lerp(a, b, f)
  {
    ProductMonotone(a, b, f);
  }

  lemma LerpBelow(a: real, b: real, f: real)
    requires a <= b && f <= 1.0
    ensures Lerp(a, b, f) <= b
  {
    ProductMonotone(f, 1.0, b - a);
    assert f * (b - a) == b * f - a * f;
  }

  /** Blending from b to a with the complementary weight gives the same point. */
  lemma LerpSwap(a: real, b: real, f: real)
    ensures Lerp(b, a, 1.0 - f) == Lerp(a, b, f)
  {
  }

  /** At weight 1 the blend is its far end. */
  lemma LerpAtOne(a: real, b: real, f: real)
    requires f == 1.0
    ensures Lerp(a, b, f) == b
  {
  }

  /** Scaling by a weight in [0, 1] keeps a value within [-k, k]. */
  lemma ScaledWithin(v: real, w: real, k: real)
    requires -k <= v <= k && 0.0 <= w <= 1.0
    ensures -k <= v * w <= k
  {
    ScaledAbove(v, w, k);
    ScaledBelow(v, w, k);
  }

  lemma ScaledAbove(v: real, w: real, k: real)
    requires v <= k && 0.0 <= w <= 1.0 && 0.0 <= k
    ensures v * w <= k
  {
    if 0.0 <= v {
      ProductMonotone(w, 1.0, v);
      assert w * v == v * w;
    } else {
      ProductMonotone(0.0, w, -v);
      assert w * -v == -(v * w);
    }
  }

  lemma ScaledBelow(v: real, w: real, k: real)
    requires -k <= v && 0.0 <= w <= 1.0 && 0.0 <= k
    ensures -k <= v * w
  {
    ScaledAbove(-v, w, k);
    assert -v * w == -(v * w);
  }

  lemma StrictProduct(a: real, b: real, n: real)
    requires a < b && 0.0 < n
    ensures a * n < b * n
  {
  }

  /** On non-negative numbers squaring preserves and reflects the order. */
  lemma SquareOrder(a: real, b: real)
    requires 0.0 <= a && 0.0 <= b
    ensures a * a <= b * b <==> a <= b
    ensures a * a < b * b <==> a < b
  {
    if a < b {
      calc {
        a * a;
      <= { ProductMonotone(a, b, a); }
        b * a;
      == a * b;
      < { StrictProduct(a, b, b); }
        b * b;
      }
    } else if b < a {
      calc {
        b * b;
      <= { ProductMonotone(b, a, b); }
        a * b;
      == b * a;
      < { StrictProduct(b, a, a); }
        a * a;
      }
    }
  }

  /** A product of two factors bounded by 1 in magnitude is bounded by 1. */
  lemma ProductBound(a: real, b: real)
    requires -1.0 <= a <= 1.0 && -1.0 <= b <= 1.0
    ensures -1.0 <= a * b <= 1.0
  {
    ProductMonotone(Abs(a), 1.0, Abs(b));
    ProductMonotone(Abs(b), 1.0, 1.0);
    var p := Abs(a) * Abs(b);
    assert p <= 1.0;
    assert p == a * b || p == -(a * b) by {
      if a < 0.0 && b < 0.0 { assert p == (-a) * (-b); }
      else if a < 0.0 { assert p == (-a) * b; }
      else if b < 0.0 { assert p == a * (-b); }
    }
  }

  /** A square root is at least k when the radicand is at least k². */
  lemma SqrtAtLeast(m: Math, v: real, k: real)
    requires Lawful(m) && 0.0 <= k && k * k <= v
    ensures k <= m.sqrt(v)
  {
    SquareOrder(k, m.sqrt(v));
  }

  /** A square root is below k when the radicand is below k². */
  lemma SqrtBelow(m: Math, v: real, k: real)
    requires Lawful(m) && 0.0 <= v && 0.0 < k && v < k * k
    ensures m.sqrt(v) < k
  {
    SquareOrder(m.sqrt(v), k);
  }

  /** The square root of a square of a non-negative number is that number. */
  lemma SqrtOfSquare(m: Math, k: real)
    requires Lawful(m) && 0.0 <= k
    ensures m.sqrt(k * k) == k
  {
    SquareOrder(m.sqrt(k * k), k);
  }

  /** A point at distance d along any angle is at distance d from the centre. */
  lemma PolarRadius(m: Math, a: real, d: real)
    requires Circular(m)
    ensures Square(m.cos(a) * d) + Square(m.sin(a) * d) == Square(d)
  {
    var c, s := m.cos(a), m.sin(a);
    assert c * c + s * s == 1.0;
    assert (c * d) * (c * d) + (s * d) * (s * d) == (c * c + s * s) * (d * d);
  }
}
