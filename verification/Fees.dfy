/**
 Fee arithmetic (wasm/txbuild.go), in exact arithmetic: a rate is a real number of sat/vB, and
 the rates the fee field takes are whole hundredths of one.
 */
module Fees {
  const DUST_LIMIT := 546
  const MAX_FEE_RATE := 10_000
  const MIN_RELAY_FEE_RATE := 1

  /** The fee for `vsize` bytes, rounded to the nearest satoshi, halves up. */
  function FeeFor(rate: real, vsize: nat): int {
    (rate * vsize as real + 0.5).Floor
  }

  function Hundredths(h: nat): real {
    h as real / 100.0
  }

  /** A spend of `value` at this rate leaves an output that relays. */
  predicate Clears(value: int, rate: real, vsize: nat) {
    value - FeeFor(rate, vsize) >= DUST_LIMIT
  }

  lemma FloorOfQuotient(x: nat)
    ensures (x as real / 100.0).Floor == x / 100
  {
    var q := x / 100;
    assert 100 * q <= x < 100 * q + 100;
    assert q as real <= x as real / 100.0 < q as real + 1.0;
  }

  lemma FeeOfHundredths(h: nat, vsize: nat)
    ensures FeeFor(Hundredths(h), vsize) == (h * vsize + 50) / 100
  {
    var x := h * vsize + 50;
    assert x as real == h as real * vsize as real + 50.0;
    ScaleDown(h as real, vsize as real);
    assert Hundredths(h) * vsize as real + 0.5 == x as real / 100.0;
    FloorOfQuotient(x);
  }

  lemma ScaleDown(a: real, b: real)
    ensures a / 100.0 * b == a * b / 100.0
  {
  }

  lemma RateTimesSize(a: real, b: real, v: real)
    requires a <= b && 0.0 <= v
    ensures a * v <= b * v
  {
  }

  /** A higher rate never costs less, and a larger transaction never costs less. */
  lemma FeeMonotone(a: real, b: real, v: nat, w: nat)
    requires 0.0 <= a <= b && v <= w
    ensures FeeFor(a, v) <= FeeFor(b, w)
  {
    RateTimesSize(a, b, v as real);
    RateTimesSize(v as real, w as real, b);
    assert a * v as real <= b * w as real;
  }

  /** The fee at one sat/vB is the size. */
  lemma FeeAtRelayMinimum(vsize: nat)
    ensures FeeFor(MIN_RELAY_FEE_RATE as real, vsize) == vsize
  {
    assert 1.0 * vsize as real == vsize as real;
  }

  /** A rate the tool may quote: a whole number of hundredths between the relay minimum and the ceiling. */
  predicate Quotable(h: nat) {
    100 * MIN_RELAY_FEE_RATE <= h <= 100 * MAX_FEE_RATE
  }

  /** `h` is the highest quotable rate at which `value` clears the dust limit over `vsize` bytes, zero if none. */
  ghost predicate IsMaxRate(value: int, vsize: nat, h: nat) {
    && (h > 0 ==> Quotable(h) && Clears(value, Hundredths(h), vsize))
    && forall k: nat :: Quotable(k) && Clears(value, Hundredths(k), vsize) ==> k <= h
  }

  /** The fees a rate in hundredths and one hundredth less pay: between them lies any budget just missed. */
  lemma OneStepDown(budget: nat, vsize: nat, h: nat)
    requires vsize > 0 && budget > 0
    requires h == (2 * budget + 1) * 50 / vsize
    ensures h * vsize <= 100 * budget + 50
    ensures (h + 1) * vsize > 100 * budget + 50
  {
    var n := (2 * budget + 1) * 50;
    assert n == 100 * budget + 50;
    DivisionBounds(n, vsize);
  }

  lemma DivisionBounds(n: nat, d: nat)
    requires d > 0
    ensures (n / d) * d <= n < (n / d + 1) * d
  {
    assert n == (n / d) * d + n % d;
  }

  lemma ProductMonotone(a: nat, b: nat, v: nat)
    requires a <= b
    ensures a * v <= b * v
  {
  }

  /**
   The highest rate, in hundredths of a sat/vB, at which spending `value` over `vsize` bytes still
   leaves an output above the dust limit; zero when there is none. The inversion picks a candidate
   and the loop asks the fee function whether it fits, which fails at most once.
   */
  method MaxViableFeeRate(value: int, vsize: int) returns (h: nat, ghost steps: nat)
    ensures vsize > 0 ==> IsMaxRate(value, vsize, h)
    ensures vsize <= 0 ==> h == 0
    ensures steps <= 1
  {
    steps := 0;
    var budget := value - DUST_LIMIT;
    if budget <= 0 || vsize <= 0 {
      if vsize > 0 {
        forall k: nat | Quotable(k) ensures !Clears(value, Hundredths(k), vsize) {
          FeeOfHundredths(k, vsize);
          ProductMonotone(100, k, vsize);
        }
      }
      return 0, 0;
    }
    h := (2 * budget + 1) * 50 / vsize;
    OneStepDown(budget, vsize, h);
    ghost var candidate := h;
    if h > 100 * MAX_FEE_RATE {
      h := 100 * MAX_FEE_RATE;
    }
    ghost var capped := h;
    FeeOfHundredths(h, vsize);
    ProductMonotone(h, candidate, vsize);
    while h >= 100 * MIN_RELAY_FEE_RATE && FeeFor(Hundredths(h), vsize) > budget
      invariant h + steps == capped && steps <= 1
      invariant steps == 1 ==> FeeFor(Hundredths(capped), vsize) > budget
      invariant steps == 1 ==> FeeFor(Hundredths(h), vsize) <= budget
      invariant steps == 0 ==> h == capped
    {
      assert (h * vsize + 50) / 100 > budget;
      assert h * vsize <= 100 * budget + 50;
      assert (h - 1) * vsize == h * vsize - vsize;
      h := h - 1;
      steps := steps + 1;
      FeeOfHundredths(h, vsize);
    }
    forall k: nat | Quotable(k) && Clears(value, Hundredths(k), vsize) ensures k <= h {
      FeeOfHundredths(k, vsize);
      FeeOfHundredths(capped, vsize);
      if k > candidate {
        ProductMonotone(candidate + 1, k, vsize);
        assert false;
      }
    }
    if h < 100 * MIN_RELAY_FEE_RATE { h := 0; }
  }
}
