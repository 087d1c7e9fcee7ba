/**
 Task ids on their way to a worker and back.  A worker reads the JSON number of an id as a float64 and
 reports that float64; the handler converts it to uint64.  Ids are rounded to nearest, ties to even
 (the number range is discussed in section 6 of RFC 8259).
 */
module TaskIds {
  import Server

  function Pow2(k: nat): (p: nat)
    ensures p > 0
  {
    if k == 0 then 1 else 2 * Pow2(k - 1)
  }

  const TWO_TO_THE_53: nat := 9007199254740992

  /** The non-negative integers a float64 can hold, up to its largest exponent. */
  ghost predicate Representable(x: nat) {
    exists m: nat, j: nat :: IsFloat(x, m, j)
  }

  predicate IsFloat(x: nat, m: nat, j: nat) {
    m < TWO_TO_THE_53 && x == m * Pow2(j)
  }

  /** The least exponent that leaves `n` a significand of 53 bits. */
  function Exponent(n: nat): (k: nat)
    ensures n < TWO_TO_THE_53 * Pow2(k)
    ensures k > 0 ==> TWO_TO_THE_53 * Pow2(k - 1) <= n
  {
    if n < TWO_TO_THE_53 then 0 else 1 + Exponent(n / 2)
  }

  /** The distance between neighbouring float64 values around `n`. */
  function Ulp(n: nat): nat {
    Pow2(Exponent(n))
  }

  /** The significand of the rounded value, in units of the spacing. */
  function Significand(n: nat): nat {
    var u := Ulp(n);
    var q, r := n / u, n % u;
    if 2 * r < u || (2 * r == u && q % 2 == 0) then q else q + 1
  }

  function Round(n: nat): nat {
    Significand(n) * Ulp(n)
  }

  // ---------------------------------------------------------------- it is the float64 rounding

  lemma {:induction false} Pow2Adds(i: nat, j: nat)
    ensures Pow2(i + j) == Pow2(i) * Pow2(j)
  {
    if i > 0 {
      Pow2Adds(i - 1, j);
    }
  }

  lemma {:induction false} Pow2Grows(i: nat, j: nat)
    requires i <= j
    ensures Pow2(i) <= Pow2(j)
    decreases j
  {
    if i < j {
      Pow2Grows(i, j - 1);
    }
  }

  lemma Split(n: nat, u: nat)
    requires u > 0
    ensures n == (n / u) * u + n % u
    ensures (n / u + 1) * u == (n / u) * u + u
  {
  }

  lemma SmallExponent(m: nat, j: nat, k: nat)
    requires m < TWO_TO_THE_53 && j < k
    ensures m * Pow2(j) < TWO_TO_THE_53 * Pow2(k - 1)
  {
    Pow2Grows(j, k - 1);
    MulLess(m, TWO_TO_THE_53, Pow2(j), Pow2(k - 1));
  }

  /** A float64 of at least the magnitude where the spacing is `Pow2(k)` is a multiple of it. */
  lemma LargeFloatsAreMultiples(x: nat, m: nat, j: nat, k: nat) returns (c: nat)
    requires IsFloat(x, m, j) && k > 0 && x >= TWO_TO_THE_53 * Pow2(k - 1)
    ensures x == c * Pow2(k)
  {
    if j < k {
      SmallExponent(m, j, k);
    }
    Pow2Adds(j - k, k);
    c := m * Pow2(j - k);
    Assoc(m, Pow2(j - k), Pow2(k));
  }

  lemma MulLess(a: nat, b: nat, x: nat, y: nat)
    requires a < b && 0 < x <= y
    ensures a * x < b * y
  {
    assert a * x <= a * y;
  }

  lemma Assoc(a: nat, b: nat, c: nat)
    ensures a * (b * c) == (a * b) * c
  {
  }

  /** No float64 lies strictly between the two candidates of the rounding. */
  lemma NothingBetween(n: nat, x: nat)
    requires Representable(x)
    ensures x <= (n / Ulp(n)) * Ulp(n) || x >= (n / Ulp(n) + 1) * Ulp(n)
  {
    var k, u, q := Exponent(n), Ulp(n), n / Ulp(n);
    Split(n, u);
    var m: nat, j: nat :| IsFloat(x, m, j);
    if k > 0 && q * u < x {
      QuotientIsLarge(n);
      var c := LargeFloatsAreMultiples(x, m, j, k);
      if c <= q {
        MulMono(c, q, u);
      } else {
        MulMono(q + 1, c, u);
      }
    }
  }

  lemma MulMono(a: nat, b: nat, u: nat)
    requires a <= b
    ensures a * u <= b * u
  {
  }

  /** The lower candidate is itself of the magnitude where the spacing is `Ulp(n)`. */
  lemma QuotientIsLarge(n: nat)
    requires Exponent(n) > 0
    ensures TWO_TO_THE_53 * Pow2(Exponent(n) - 1) <= (n / Ulp(n)) * Ulp(n)
    ensures TWO_TO_THE_53 / 2 <= n / Ulp(n) < TWO_TO_THE_53
  {
    var k, u, q := Exponent(n), Ulp(n), n / Ulp(n);
    var half := TWO_TO_THE_53 / 2;
    Split(n, u);
    assert half * u == TWO_TO_THE_53 * Pow2(k - 1);
    if q < half {
      MulMono(q + 1, half, u);
    }
    if q >= TWO_TO_THE_53 {
      MulMono(TWO_TO_THE_53, q, u);
    }
    MulMono(half, q, u);
  }

  lemma FloatOf(q: nat, k: nat)
    requires q <= TWO_TO_THE_53
    ensures Representable(q * Pow2(k))
  {
    if q < TWO_TO_THE_53 {
      assert IsFloat(q * Pow2(k), q, k);
    } else {
      var p := Pow2(k);
      assert Pow2(k + 1) == 2 * p && TWO_TO_THE_53 / 2 == 4503599627370496;
      assert q * p == 4503599627370496 * (2 * p);
      assert IsFloat(q * p, 4503599627370496, k + 1);
    }
  }

  function Distance(a: nat, b: nat): nat {
    if a <= b then b - a else a - b
  }

  /** With the only candidates around `n` at `lo` and `lo + u`, the nearer one is nearest of all. */
  lemma NearerIsNearest(n: nat, lo: nat, u: nat, r: nat, x: nat)
    requires n == lo + r && r < u && (x <= lo || x >= lo + u)
    ensures 2 * r <= u ==> Distance(lo, n) <= Distance(x, n)
    ensures 2 * r >= u ==> Distance(lo + u, n) <= Distance(x, n)
  {
  }

  /** The two candidates are `lo` and `lo + Ulp(n)`; the remainder decides. */
  lemma Candidates(n: nat) returns (lo: nat, r: nat)
    ensures n == lo + r && r < Ulp(n) && r == n % Ulp(n)
    ensures lo == (n / Ulp(n)) * Ulp(n) && lo + Ulp(n) == (n / Ulp(n) + 1) * Ulp(n)
    ensures (Round(n) == lo && 2 * r <= Ulp(n)) || (Round(n) == lo + Ulp(n) && 2 * r >= Ulp(n))
  {
    Split(n, Ulp(n));
    lo, r := (n / Ulp(n)) * Ulp(n), n % Ulp(n);
  }

  lemma RoundIsFloat(n: nat)
    ensures Representable(Round(n))
  {
    if Exponent(n) > 0 {
      QuotientIsLarge(n);
    }
    FloatOf(Significand(n), Exponent(n));
  }

  /** `Round` yields a float64, none is nearer, and a tie goes to the even significand. */
  lemma RoundIsNearest(n: nat, x: nat)
    requires Representable(x)
    ensures Representable(Round(n)) && Distance(Round(n), n) <= Distance(x, n)
    ensures 2 * (n % Ulp(n)) == Ulp(n) ==> Significand(n) % 2 == 0
  {
    RoundIsFloat(n);
    NothingBetween(n, x);
    var lo, r := Candidates(n);
    NearerIsNearest(n, lo, Ulp(n), r, x);
  }

  // ---------------------------------------------------------------- which ids survive

  /** What the handler takes for the id when a worker reports task `n`. */
  function Reported(n: nat, unspecified: nat): nat {
    Server.ToTaskId(Round(n) as real, unspecified)
  }

  /** Converting drops the fraction, and is up to the platform iff the rest is no 64-bit id. */
  lemma ConversionTruncates(v: real, unspecified: nat)
    ensures var n := if v >= 0.0 then v.Floor else -(-v).Floor;
            Server.ToTaskId(v, unspecified) == if 0 <= n < TWO_TO_THE_64 then n else unspecified
  {
  }

  /** An id survives the rounding iff it is a multiple of the spacing at its magnitude. */
  lemma RoundIsExactIff(n: nat)
    ensures Round(n) == n <==> n % Ulp(n) == 0
  {
    Split(n, Ulp(n));
  }

  const TWO_TO_THE_64: nat := 0x1_0000_0000_0000_0000

  lemma ExponentBelow(n: nat, k: nat)
    requires n < TWO_TO_THE_53 * Pow2(k)
    ensures Exponent(n) <= k
  {
    if Exponent(n) > k {
      Pow2Grows(k, Exponent(n) - 1);
      MulMono(Pow2(k), Pow2(Exponent(n) - 1), TWO_TO_THE_53);
    }
  }

  lemma ExponentIs(n: nat, k: nat)
    requires k > 0 && TWO_TO_THE_53 * Pow2(k - 1) <= n < TWO_TO_THE_53 * Pow2(k)
    ensures Exponent(n) == k
  {
    ExponentBelow(n, k);
    if Exponent(n) < k {
      Pow2Grows(Exponent(n), k - 1);
      MulMono(Pow2(Exponent(n)), Pow2(k - 1), TWO_TO_THE_53);
    }
  }

  lemma Pow2Of11()
    ensures Pow2(10) == 1024 && Pow2(11) == 2048
  {
    assert Pow2(5) == 32;
    Pow2Adds(5, 5);
  }

  /** The last 1024 ids of 64 bits round up to 2^64, which is none. */
  lemma RoundsOutIff(n: nat)
    requires n < TWO_TO_THE_64
    ensures Round(n) >= TWO_TO_THE_64 <==> n >= TWO_TO_THE_64 - 1024
  {
    Pow2Of11();
    if n >= TWO_TO_THE_64 / 2 {
      ExponentIs(n, 11);
      Split(n, 2048);
    } else {
      var lo, r := Candidates(n);
      SmallUlp(n);
    }
  }

  lemma SmallUlp(n: nat)
    requires n < TWO_TO_THE_64 / 2
    ensures Ulp(n) <= 1024
  {
    Pow2Of11();
    ExponentBelow(n, 10);
    Pow2Grows(Exponent(n), 10);
  }

  /**
   A report of a 64-bit id addresses the task it was made for iff the id is a float64, or is one of the
   last 1024 ids and the very one the platform makes of 2^64.
   */
  lemma ReportAddressesIff(n: nat, unspecified: nat)
    requires n < TWO_TO_THE_64
    ensures Reported(n, unspecified) == n <==>
            n % Ulp(n) == 0 || (n >= TWO_TO_THE_64 - 1024 && unspecified == n)
  {
    RoundsOutIff(n);
    RoundIsExactIff(n);
    assert (Round(n) as real).Floor == Round(n);
  }

  /** All ids up to 2^53 survive, so reports of two tasks never meet; 2^53 + 1 is the first that fails. */
  lemma SafeIds(a: nat, b: nat, unspecified: nat)
    requires a <= TWO_TO_THE_53 && b <= TWO_TO_THE_53
    ensures Reported(a, unspecified) == a
    ensures Reported(a, unspecified) == Reported(b, unspecified) ==> a == b
    ensures Reported(TWO_TO_THE_53 + 1, unspecified) == TWO_TO_THE_53
  {
    SmallIsExact(a);
    SmallIsExact(b);
    FirstFailure();
  }

  lemma FirstFailure()
    ensures Round(TWO_TO_THE_53 + 1) == TWO_TO_THE_53
  {
    assert Exponent(TWO_TO_THE_53 + 1) == 1;
    assert Ulp(TWO_TO_THE_53 + 1) == 2;
  }

  lemma SmallIsExact(n: nat)
    requires n <= TWO_TO_THE_53
    ensures Round(n) == n && Reported(n, 0) == n
  {
    if n < TWO_TO_THE_53 {
      assert Ulp(n) == 1;
    } else {
      assert Exponent(n) == 1;
      assert Ulp(n) == 2;
    }
    RoundIsExactIff(n);
    assert (n as real).Floor == n;
  }
}
