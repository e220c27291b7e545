/** Basis-point arithmetic: the fee split and the slash. */
module FeeMath {
  import opened Base

  const BPS_DENOMINATOR: i128 := 10_000
  const MAX_FEE_BPS: u32 := 1_000
  const DEFAULT_FEE_BPS: u32 := 50

  /** The overflow-avoiding quotient/remainder form. */
  function CumulativeFee(amount: i128, feeBps: u32): Result<i128>
  {
    if amount == 0 then Ok(0)
    else
      var quotient := TruncDiv(amount, BPS_DENOMINATOR);
      var remainder := TruncRem(amount, BPS_DENOMINATOR);
      var quotientFee :- CheckedI128(quotient * feeBps).OkOr(InvalidAmount);
      var remainderProduct :- CheckedI128(remainder * feeBps).OkOr(InvalidAmount);
      var remainderFee := TruncDiv(remainderProduct, BPS_DENOMINATOR);
      CheckedI128(quotientFee + remainderFee).OkOr(InvalidAmount)
  }

  /** The plain multiply-then-divide form; returns the fee and the payout. */
  function ComputeFee(amount: i128, feeBps: u32): Result<(i128, i128)>
  {
    var product :- CheckedI128(amount * feeBps).OkOr(ArithmeticOverflow);
    var fee: i128 := TruncDiv(product, BPS_DENOMINATOR);
    var payout :- CheckedSub(amount, fee).OkOr(ArithmeticOverflow);
    Ok((fee, payout))
  }

  /** The exact fee: the floor of the real-valued one. */
  function FloorFee(amount: nat, feeBps: nat): nat
  {
    Mul(amount, feeBps) / 10_000
  }

  /** Multiplication under a name, so that proofs unfold it only where they mean to. */
  function Mul(a: nat, b: nat): nat { a * b }

  function Abs(x: int): nat { if x >= 0 then x else -x }

  lemma FloorFeeSplits(a: nat, b: nat)
    ensures FloorFee(a, b) == (a / 10_000) * b + ((a % 10_000) * b) / 10_000
  {
    var q, r := a / 10_000, a % 10_000;
    assert a * b == 10_000 * (q * b) + r * b by {
      assert a == 10_000 * q + r;
      assert (10_000 * q + r) * b == 10_000 * (q * b) + r * b;
    }
  }

  /** For every amount, negative ones included, and every u32 rate: the form never forming the
      product succeeds exactly when the rounded-toward-zero fee is an i128, and yields it. */
  lemma CumulativeFeeIsTruncatedProduct(amount: i128, feeBps: u32)
    ensures CumulativeFee(amount, feeBps) == CheckedI128(TruncDiv(amount * feeBps, 10_000)).OkOr(InvalidAmount)
  {
    if amount >= 0 {
      CumulativeFeeNonNegative(amount, feeBps);
    } else {
      CumulativeFeeNegative(amount, feeBps);
    }
  }

  lemma ProductSplits(a: nat, feeBps: u32)
    ensures
      var quotientFee, remainderProduct := (a / 10_000) * feeBps, (a % 10_000) * feeBps;
      && 0 <= quotientFee && 0 <= remainderProduct <= 9_999 * U32_MAX
      && (a * feeBps) / 10_000 == quotientFee + remainderProduct / 10_000
  {
    FloorFeeSplits(a, feeBps);
    MulMono(a % 10_000, 9_999, feeBps);
    assert Mul(a, feeBps) == a * feeBps;
  }

  lemma CumulativeFeeNonNegative(amount: i128, feeBps: u32)
    requires amount >= 0
    ensures CumulativeFee(amount, feeBps) == CheckedI128(TruncDiv(amount * feeBps, 10_000)).OkOr(InvalidAmount)
  {
    ProductSplits(amount, feeBps);
    assert TruncDiv(amount, BPS_DENOMINATOR) == amount / 10_000;
    assert TruncRem(amount, BPS_DENOMINATOR) == amount % 10_000;
    assert amount * feeBps >= 0;
  }

  lemma CumulativeFeeNegative(amount: i128, feeBps: u32)
    requires amount < 0
    ensures CumulativeFee(amount, feeBps) == CheckedI128(TruncDiv(amount * feeBps, 10_000)).OkOr(InvalidAmount)
  {
    var a: int := Abs(amount);
    ProductSplits(a, feeBps);
    var q: int, r: int := a / 10_000, a % 10_000;
    assert TruncDiv(amount, BPS_DENOMINATOR) == -q;
    assert TruncRem(amount, BPS_DENOMINATOR) == -r;
    NegatedProduct(q, feeBps);
    NegatedProduct(r, feeBps);
    NegatedProduct(a, feeBps);
  }

  /** Truncation is symmetric around zero. */
  lemma NegatedProduct(a: int, b: int)
    requires a >= 0 && b >= 0
    ensures (-a) * b == -(a * b)
    ensures TruncDiv((-a) * b, 10_000) == -((a * b) / 10_000)
  {
    var p := a * b;
    assert (-a) * b == -p && p >= 0;
  }

  /** On the domain the contract uses, the fee is total and is the floor. */
  lemma CumulativeFeeTotal(amount: i128, feeBps: u32)
    requires amount >= 0 && feeBps <= 10_000
    ensures CumulativeFee(amount, feeBps) == Ok(FloorFee(amount, feeBps))
    ensures FloorFee(amount, feeBps) <= amount
  {
    CumulativeFeeIsTruncatedProduct(amount, feeBps);
    FloorFeeGrowth(0, amount, feeBps);
    assert amount * feeBps == Mul(amount, feeBps);
  }

  /** The fee is monotone and grows no faster than the amount: every tranche fee is in [0, gross]. */
  lemma FloorFeeGrowth(before: nat, after: nat, feeBps: nat)
    requires before <= after && feeBps <= 10_000
    ensures 0 <= FloorFee(after, feeBps) - FloorFee(before, feeBps) <= after - before
  {
    var d := after - before;
    assert after * feeBps == before * feeBps + d * feeBps;
    assert 0 <= d * feeBps <= d * 10_000;
    assert (before * feeBps + d * 10_000) / 10_000 == before * feeBps / 10_000 + d;
  }

  /** Wherever the plain form succeeds, on any amount and rate, the two agree; and on non-negative
      amounts with a rate of at most 100% the plain form fails exactly when the product overflows,
      while the quotient form never fails. */
  lemma CumulativeFeeRefinesComputeFee(amount: i128, feeBps: u32)
    ensures ComputeFee(amount, feeBps).Ok? ==>
              && CumulativeFee(amount, feeBps) == Ok(ComputeFee(amount, feeBps).value.0)
              && ComputeFee(amount, feeBps).value.0 + ComputeFee(amount, feeBps).value.1 == amount
    ensures amount >= 0 && feeBps <= 10_000 ==>
              && CumulativeFee(amount, feeBps).Ok?
              && (ComputeFee(amount, feeBps).Ok? <==> amount * feeBps <= I128_MAX)
  {
    CumulativeFeeIsTruncatedProduct(amount, feeBps);
    if amount >= 0 && feeBps <= 10_000 {
      CumulativeFeeTotal(amount, feeBps);
      assert amount * feeBps == Mul(amount, feeBps);
    }
  }

  /** An amount on which the plain form fails and the quotient form does not. */
  lemma PlainFormOverflows()
    ensures ComputeFee(I128_MAX, DEFAULT_FEE_BPS) == Err(ArithmeticOverflow)
    ensures CumulativeFee(I128_MAX, DEFAULT_FEE_BPS) == Ok(850_705_917_302_346_158_658_436_518_579_420_528)
  {
  }

  // ---- Slashing ----

  /** `as u128` on a signed value wraps modulo 2^128. */
  function AsU128(x: i128): u128 { if x < 0 then x + U128_MAX + 1 else x }

  function AsI128(x: u128): i128 { if x > I128_MAX then x - U128_MAX - 1 else x }

  function CheckedU128(x: int): Option<u128>
  {
    if 0 <= x <= U128_MAX then Some(x) else None
  }

  function SaturatingMulU128(a: u128, b: u128): u128
  {
    if a * b <= U128_MAX then a * b else U128_MAX
  }

  /** The three tiers: i128 product, u128 product, divide first; then the two fallbacks. */
  function SlashAmount(stake: i128, slashBps: u32): i128
  {
    var wide := AsU128(stake);
    var fast := match CheckedMul(stake, slashBps)
      case Some(v) => Some(AsU128(TruncDiv(v, 10_000)))
      case None =>
        match CheckedU128(wide * slashBps)
        case Some(v) => Some(v / 10_000)
        case None => Some(SaturatingMulU128(wide / 10_000, slashBps));
    var raw := if fast.Some? then fast.value else wide;
    AsI128(if raw <= wide then raw else wide)
  }

  /** For every recorded stake and rate: within [0, stake]; the exact floor while the product fits
      in 128 unsigned bits; beyond, below the floor by less than the rate. No fallback shows. */
  lemma SlashAmountTiers(stake: i128, slashBps: u32)
    requires stake >= 0 && slashBps <= 10_000
    ensures 0 <= SlashAmount(stake, slashBps) <= stake
    ensures stake * slashBps <= U128_MAX ==> SlashAmount(stake, slashBps) == FloorFee(stake, slashBps)
    ensures stake * slashBps > U128_MAX ==>
              && SlashAmount(stake, slashBps) == (stake / 10_000) * slashBps
              && FloorFee(stake, slashBps) - slashBps < SlashAmount(stake, slashBps) <= FloorFee(stake, slashBps)
  {
    if stake * slashBps <= U128_MAX {
      SlashExact(stake, slashBps);
    } else {
      SlashDivideFirst(stake, slashBps);
    }
  }

  /** A full slash leaves nothing exactly when the product fits in 128 unsigned bits or the stake is a
      multiple of 10000. */
  lemma FullSlashLeavesNothing(stake: i128)
    requires stake >= 0
    ensures SlashAmount(stake, 10_000) == stake <==> stake * 10_000 <= U128_MAX || stake % 10_000 == 0
  {
    hide SlashAmount;
    SlashAmountTiers(stake, 10_000);
    assert FloorFee(stake, 10_000) == stake;
  }

  lemma SlashExact(stake: i128, slashBps: u32)
    requires stake >= 0 && slashBps <= 10_000 && stake * slashBps <= U128_MAX
    ensures SlashAmount(stake, slashBps) == FloorFee(stake, slashBps) <= stake
  {
    FloorFeeGrowth(0, stake, slashBps);
    var p := stake * slashBps;
    assert FloorFee(stake, slashBps) == p / 10_000 <= stake;
    if p <= I128_MAX {
      assert CheckedMul(stake, slashBps) == Some(p);
    }
  }

  lemma SlashDivideFirst(stake: i128, slashBps: u32)
    requires stake >= 0 && slashBps <= 10_000 && stake * slashBps > U128_MAX
    ensures SlashAmount(stake, slashBps) == (stake / 10_000) * slashBps
    ensures 0 <= (stake / 10_000) * slashBps <= stake
    ensures FloorFee(stake, slashBps) - slashBps < (stake / 10_000) * slashBps <= FloorFee(stake, slashBps)
  {
    DivideFirstBounds(stake, slashBps);
    assert CheckedMul(stake, slashBps) == None && CheckedU128(stake * slashBps) == None;
    assert SaturatingMulU128(stake / 10_000, slashBps) == (stake / 10_000) * slashBps;
  }

  lemma DivideFirstBounds(stake: nat, slashBps: nat)
    requires 0 < stake * slashBps && slashBps <= 10_000
    ensures 0 <= (stake / 10_000) * slashBps <= stake
    ensures FloorFee(stake, slashBps) - slashBps < (stake / 10_000) * slashBps <= FloorFee(stake, slashBps)
  {
    FloorFeeSplits(stake, slashBps);
    FloorFeeGrowth(0, stake, slashBps);
    assert slashBps > 0;
    RemainderShare(stake % 10_000, slashBps);
  }

  lemma RemainderShare(r: nat, slashBps: nat)
    requires r < 10_000 && slashBps > 0
    ensures 0 <= r * slashBps / 10_000 < slashBps
  {
    MulMono(r, 9_999, slashBps);
  }

  /** The stake left after `n` lost votes. */
  function SlashTimes(stake: i128, slashBps: u32, n: nat): (left: i128)
    requires stake >= 0 && slashBps <= 10_000
    ensures 0 <= left <= stake
  {
    if n == 0 then stake
    else
      var before := SlashTimes(stake, slashBps, n - 1);
      SlashAmountTiers(before, slashBps);
      before - SlashAmount(before, slashBps)
  }

  function Pow(base: nat, n: nat): nat
  {
    if n == 0 then 1 else base * Pow(base, n - 1)
  }

  /** One slash against the real-valued one. */
  lemma SlashStep(stake: i128, slashBps: u32)
    requires stake >= 0 && slashBps <= 10_000
    ensures (stake - SlashAmount(stake, slashBps)) * 10_000 >= stake * (10_000 - slashBps)
    ensures stake * slashBps <= U128_MAX ==>
              (stake - SlashAmount(stake, slashBps)) * 10_000 <= stake * (10_000 - slashBps) + 9_999
  {
    SlashAmountTiers(stake, slashBps);
    assert stake * slashBps == Mul(stake, slashBps);
    assert FloorFee(stake, slashBps) * 10_000 <= stake * slashBps < FloorFee(stake, slashBps) * 10_000 + 10_000;
    assert stake * (10_000 - slashBps) == stake * 10_000 - stake * slashBps;
  }

  /** Compounding: after n lost votes the stake is at least the real-valued compound, and, while the
      first product fits in 128 unsigned bits, above it by at most n. */
  lemma {:induction false} CompoundedSlash(stake: i128, slashBps: u32, n: nat)
    requires stake >= 0 && slashBps <= 10_000
    ensures SlashTimes(stake, slashBps, n) * Pow(10_000, n) >= stake * Pow(10_000 - slashBps, n)
    ensures stake * slashBps <= U128_MAX ==>
              SlashTimes(stake, slashBps, n) * Pow(10_000, n)
              <= stake * Pow(10_000 - slashBps, n) + n * Pow(10_000, n)
  {
    if n > 0 {
      CompoundedSlash(stake, slashBps, n - 1);
      var c := 10_000 - slashBps;
      var s, t := SlashTimes(stake, slashBps, n - 1), SlashTimes(stake, slashBps, n);
      var d, k := Pow(10_000, n - 1), Pow(c, n - 1);
      assert Pow(10_000, n) == 10_000 * d && Pow(c, n) == c * k;
      assert t * 10_000 >= s * c && (stake * slashBps <= U128_MAX ==> t * 10_000 <= s * c + 9_999) by {
        SlashStep(s, slashBps);
        MulMono(s, stake, slashBps);
      }
      CompoundStep(stake, c, s, t, d, k, n);
    }
  }

  /** The arithmetic of one more round, with the powers abstracted: d = 10000^(n-1), k = c^(n-1). */
  lemma CompoundStep(s0: nat, c: nat, s: nat, t: nat, d: nat, k: nat, n: nat)
    requires c <= 10_000 && n > 0
    requires s * d >= s0 * k && t * 10_000 >= s * c
    ensures t * (10_000 * d) >= s0 * (c * k)
    ensures s * d <= s0 * k + (n - 1) * d && t * 10_000 <= s * c + 9_999 ==>
              t * (10_000 * d) <= s0 * (c * k) + n * (10_000 * d)
  {
    calc {
      t * (10_000 * d);
      (t * 10_000) * d;
    >= { MulMono(s * c, t * 10_000, d); }
      (s * c) * d;
      { MulSwap(s, c, d); }
      (s * d) * c;
    >= { MulMono(s0 * k, s * d, c); }
      (s0 * k) * c;
      { MulSwap(s0, k, c); MulAssoc(s0, c, k); }
      s0 * (c * k);
    }
    if s * d <= s0 * k + (n - 1) * d && t * 10_000 <= s * c + 9_999 {
      calc {
        t * (10_000 * d);
        (t * 10_000) * d;
      <= { MulMono(t * 10_000, s * c + 9_999, d); }
        (s * c + 9_999) * d;
        { MulSwap(s, c, d); MulDist(s * c, 9_999, d); }
        (s * d) * c + 9_999 * d;
      <= { MulMono(s * d, s0 * k + (n - 1) * d, c); }
        (s0 * k + (n - 1) * d) * c + 9_999 * d;
        { MulDist(s0 * k, (n - 1) * d, c); }
        (s0 * k) * c + ((n - 1) * d) * c + 9_999 * d;
      <= { MulMono(c, 10_000, (n - 1) * d); }
        (s0 * k) * c + ((n - 1) * d) * 10_000 + 10_000 * d;
        { MulSwap(s0, k, c); MulAssoc(s0, c, k); MulDist(n - 1, 1, d); }
        s0 * (c * k) + (n * d) * 10_000;
        { MulSwap(n, d, 10_000); MulAssoc(n, 10_000, d); }
        s0 * (c * k) + n * (10_000 * d);
      }
    }
  }

  lemma MulMono(a: nat, b: nat, c: nat)
    requires a <= b
    ensures a * c <= b * c && c * a <= c * b
  {
  }

  lemma MulSwap(a: nat, b: nat, c: nat)
    ensures (a * b) * c == (a * c) * b
  {
    MulAssoc(a, b, c);
    MulAssoc(a, c, b);
  }

  lemma MulAssoc(a: nat, b: nat, c: nat)
    ensures (a * b) * c == a * (b * c)
  {
  }

  lemma MulDist(a: nat, b: nat, c: nat)
    ensures (a + b) * c == a * c + b * c
  {
  }
}
