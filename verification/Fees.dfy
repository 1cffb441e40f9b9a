/**
 The two fee formulas of transactions_service.go, over Go's uint64, and the parts-per-million bounds
 that circle_hub_service.go enforces for them.
 */
module Fees {
  import opened Sums

  const UINT64_RANGE: nat := 0x1_0000_0000_0000_0000
  const MAX_INT64: nat := 0x7FFF_FFFF_FFFF_FFFF
  const PPM_DIVISOR: nat := 1_000_000
  const MAX_FEES_PPM: int := 1_000_000
  const MIN_FEE_RESERVE: nat := 10_000

  /** What a uint64 addition or multiplication leaves of the mathematical result. */
  function Wrap(x: nat): nat
  {
    x % UINT64_RANGE
  }

  /** 1% rounded up, at least 10000 mloki. */
  function CalculateFeeReserveMloki(amount: nat): (r: nat)
    ensures r >= MIN_FEE_RESERVE && 100 * r >= amount
    ensures r == MIN_FEE_RESERVE || 100 * (r - 1) < amount
  {
    var onePercent := (amount + 99) / 100;
    if onePercent > MIN_FEE_RESERVE then onePercent else MIN_FEE_RESERVE
  }

  function CalculateFeeSkimMloki(amount: nat, feesPpm: int): nat
  {
    if feesPpm <= 0 then 0 else Wrap(amount * feesPpm) / PPM_DIVISOR
  }

  /** The bounds CreateCircleHub and UpdateCircleHubConfig put on a hub's fee. */
  predicate ValidFeesPpm(feesPpm: int)
  {
    0 <= feesPpm <= MAX_FEES_PPM
  }

  /** The rate the skim arithmetic promises: the exact floor of amount * ppm / 1000000. */
  predicate IsFloorOfShare(skim: nat, amount: nat, feesPpm: nat)
  {
    skim * PPM_DIVISOR <= amount * feesPpm < (skim + 1) * PPM_DIVISOR
  }

  /** The uint64 formula is the exact floor precisely when the product does not wrap. */
  lemma SkimExactIffNoWrap(amount: nat, feesPpm: nat)
    ensures IsFloorOfShare(CalculateFeeSkimMloki(amount, feesPpm), amount, feesPpm)
       <==> amount * feesPpm < UINT64_RANGE
  {
    var x := amount * feesPpm;
    if feesPpm == 0 {
      assert x == 0;
    } else {
      FloorOfWrapped(x);
    }
  }

  lemma FloorOfWrapped(x: nat)
    ensures x < UINT64_RANGE ==> Wrap(x) == x
    ensures Wrap(x) / PPM_DIVISOR * PPM_DIVISOR <= x < (Wrap(x) / PPM_DIVISOR + 1) * PPM_DIVISOR <==> x < UINT64_RANGE
  {
    var q := x / UINT64_RANGE;
    assert x == q * UINT64_RANGE + Wrap(x);
    if x >= UINT64_RANGE {
      assert q >= 1;
      assert q * UINT64_RANGE >= UINT64_RANGE;
      assert (Wrap(x) / PPM_DIVISOR + 1) * PPM_DIVISOR <= Wrap(x) + PPM_DIVISOR;
    }
  }

  /** With an enforced rate a skim never exceeds the payment it is taken from. */
  lemma SkimAtMostAmount(amount: nat, feesPpm: int)
    requires ValidFeesPpm(feesPpm)
    ensures CalculateFeeSkimMloki(amount, feesPpm) <= amount
  {
    if feesPpm > 0 {
      assert amount * feesPpm <= amount * PPM_DIVISOR by {
        ProductMonotone(amount, feesPpm, PPM_DIVISOR);
      }
      assert Wrap(amount * feesPpm) <= amount * feesPpm;
    }
  }

  lemma ProductMonotone(a: nat, b: nat, c: nat)
    requires b <= c
    ensures a * b <= a * c
  {
    assert a * c == a * b + a * (c - b);
  }

  lemma SkimMonotone(a: nat, b: nat, feesPpm: int)
    requires a <= b
    requires feesPpm > 0 ==> b * feesPpm < UINT64_RANGE
    ensures CalculateFeeSkimMloki(a, feesPpm) <= CalculateFeeSkimMloki(b, feesPpm)
  {
    if feesPpm > 0 {
      assert a * feesPpm <= b * feesPpm by {
        ProductMonotone(feesPpm, a, b);
      }
    }
  }

  ghost function Amount(): nat -> int
  {
    (a: nat) => a
  }

  ghost function SkimAt(feesPpm: int): nat -> int
  {
    (a: nat) => CalculateFeeSkimMloki(a, feesPpm)
  }

  ghost function Whole(parts: seq<nat>): nat
  {
    SumNonNegative(parts, Amount());
    Sum(parts, Amount())
  }

  /** A payment split into n parts costs the hub at most n - 1 mloki of its cut, and never earns it more. */
  lemma {:induction false} SplitPaymentSkim(parts: seq<nat>, feesPpm: nat)
    requires |parts| > 0
    requires Whole(parts) * feesPpm < UINT64_RANGE
    ensures Sum(parts, SkimAt(feesPpm)) <= CalculateFeeSkimMloki(Whole(parts), feesPpm)
    ensures CalculateFeeSkimMloki(Whole(parts), feesPpm) <= Sum(parts, SkimAt(feesPpm)) + |parts| - 1
  {
    var n := |parts| - 1;
    var init, last := parts[..n], parts[n];
    var total := Whole(init);
    if n == 0 {
      assert total == 0;
      assert Sum(init, SkimAt(feesPpm)) == 0;
    } else {
      assert total * feesPpm <= (total + last) * feesPpm by {
        ProductMonotone(feesPpm, total, total + last);
      }
      SplitPaymentSkim(init, feesPpm);
      TwoPartSkim(total, last, feesPpm);
    }
  }

  lemma TwoPartSkim(a: nat, b: nat, feesPpm: nat)
    requires (a + b) * feesPpm < UINT64_RANGE
    ensures CalculateFeeSkimMloki(a, feesPpm) + CalculateFeeSkimMloki(b, feesPpm)
         <= CalculateFeeSkimMloki(a + b, feesPpm)
    ensures CalculateFeeSkimMloki(a + b, feesPpm)
         <= CalculateFeeSkimMloki(a, feesPpm) + CalculateFeeSkimMloki(b, feesPpm) + 1
  {
    var x, y := a * feesPpm, b * feesPpm;
    assert (a + b) * feesPpm == x + y;
    TwoPartFloor(x, y);
    SkimNoWrap(a, feesPpm);
    SkimNoWrap(b, feesPpm);
    SkimNoWrap(a + b, feesPpm);
  }

  lemma SkimNoWrap(amount: nat, feesPpm: nat)
    requires amount * feesPpm < UINT64_RANGE
    ensures CalculateFeeSkimMloki(amount, feesPpm) == amount * feesPpm / PPM_DIVISOR
  {
    var x := amount * feesPpm;
    SmallUnwrapped(x);
    if feesPpm == 0 {
      assert x == 0;
    }
  }

  lemma SmallUnwrapped(x: nat)
    requires x < UINT64_RANGE
    ensures Wrap(x) == x
  {
  }

  lemma TwoPartFloor(x: nat, y: nat)
    ensures x / PPM_DIVISOR + y / PPM_DIVISOR <= (x + y) / PPM_DIVISOR <= x / PPM_DIVISOR + y / PPM_DIVISOR + 1
  {
  }

  /** The loss of n - 1 is reached: n parts of 1 mloki at 999999 ppm earn nothing, one payment of n earns n - 1. */
  lemma SplitLossIsReached(n: nat)
    requires 0 < n <= PPM_DIVISOR
    ensures Sum<nat>(seq(n, i => 1), SkimAt(999_999)) == 0
    ensures CalculateFeeSkimMloki(n, 999_999) == n - 1
  {
    SumOfZeros<nat>(seq(n, i => 1), SkimAt(999_999));
    var x := n * 999_999;
    assert x == (n - 1) * PPM_DIVISOR + (PPM_DIVISOR - n);
  }
}
