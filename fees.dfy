/** `calculate_fee`: a fee as a checked fraction of a token amount. */
module Fees {
  import opened Wrappers
  import opened Ints

  /** `u128::checked_mul`. */
  function CheckedMul(a: U128, b: U128): (r: Option<U128>)
    ensures r.None? <==> a * b > U128_MAX
    ensures r.Some? ==> r.value == a * b
  {
    if a * b <= U128_MAX then Some(a * b) else None
  }

  /** `u128::checked_div`: fails only on a zero divisor. */
  function CheckedDiv(a: U128, b: U128): (r: Option<U128>)
    ensures r.None? <==> b == 0
    ensures r.Some? ==> r.value == a / b
  {
    if b == 0 then None else Some(a / b)
  }

  /**
   * `calculate_fee(token_amount, fee_numerator, fee_denominator)`: zero when either
   * fee parameter is zero; otherwise the checked product divided by the denominator,
   * cast to u64; None when the product overflows u128.
   */
  function CalculateFee(tokenAmount: U128, feeNumerator: U128, feeDenominator: U128): (r: Option<U64>)
    ensures feeNumerator == 0 || feeDenominator == 0 ==> r == Some(0)
    ensures feeNumerator != 0 && feeDenominator != 0 ==>
      && (r.None? <==> tokenAmount * feeNumerator > U128_MAX)
      && (r.Some? ==> r.value == (tokenAmount * feeNumerator / feeDenominator) % TWO_POW_64)
  {
    if feeNumerator == 0 || feeDenominator == 0 then Some(0)
    else
      match CheckedMul(tokenAmount, feeNumerator)
      case None => None
      case Some(product) =>
        match CheckedDiv(product, feeDenominator)
        case None => None
        case Some(fee) => Some(AsU64(fee))
  }

  /** The unit tests of `calculate_fee`. */
  lemma CalculateFeeTests()
    ensures CalculateFee(1_000_000, 0, 0) == Some(0)
    ensures CalculateFee(1_000_000, 1, 0) == Some(0)
    ensures CalculateFee(1_000_000, 1, 2) == Some(500_000)
    ensures CalculateFee(1_000_000, 1, 10_000) == Some(100)
    ensures CalculateFee(1_000_000, 1, 100_000) == Some(10)
    ensures CalculateFee(1_000_000, 1, 500) == Some(2000)
  {
  }

  /** With u64-sized operands the product cannot overflow u128, so a fee is always returned. */
  lemma FeeDefinedForU64Operands(tokenAmount: U128, feeNumerator: U128, feeDenominator: U128)
    requires tokenAmount <= U64_MAX && feeNumerator <= U64_MAX
    ensures CalculateFee(tokenAmount, feeNumerator, feeDenominator).Some?
  {
    MulMonotone(tokenAmount, U64_MAX, feeNumerator);
    MulMonotone(feeNumerator, U64_MAX, U64_MAX);
    assert U64_MAX * U64_MAX <= U128_MAX;
  }

  /**
   * A fee rate of at most one on a u64 amount: the fee is the exact floor of
   * amount * numerator / denominator, the u64 cast loses nothing, and the fee never
   * exceeds the amount.
   */
  lemma FeeAtMostAmount(tokenAmount: U64, feeNumerator: U64, feeDenominator: U64)
    requires 0 < feeNumerator <= feeDenominator
    ensures CalculateFee(tokenAmount, feeNumerator, feeDenominator) == Some(tokenAmount * feeNumerator / feeDenominator)
    ensures tokenAmount * feeNumerator / feeDenominator <= tokenAmount
  {
    FeeDefinedForU64Operands(tokenAmount, feeNumerator, feeDenominator);
    var product := tokenAmount * feeNumerator;
    MulMonotone(feeNumerator, feeDenominator, tokenAmount);
    assert feeNumerator * tokenAmount == product;
    DivAtMost(product, tokenAmount, feeDenominator);
  }

  /**
   * A fee rate of at most one on u128 operands: whenever a fee is returned at all, it
   * does not exceed the amount (the cast can only make it smaller).
   */
  lemma FeeAtMostAmountU128(tokenAmount: U128, feeNumerator: U128, feeDenominator: U128)
    requires feeNumerator <= feeDenominator
    ensures var r := CalculateFee(tokenAmount, feeNumerator, feeDenominator);
      r.Some? ==> r.value <= tokenAmount
  {
    var r := CalculateFee(tokenAmount, feeNumerator, feeDenominator);
    if r.Some? && feeNumerator != 0 && feeDenominator != 0 {
      var product := tokenAmount * feeNumerator;
      MulMonotone(feeNumerator, feeDenominator, tokenAmount);
      assert feeNumerator * tokenAmount == product;
      DivAtMost(product, tokenAmount, feeDenominator);
    }
  }

  /** The `as u64` cast keeps only the low 64 bits: a quotient of exactly 2^64 comes back as 0. */
  lemma FeeCastTruncates()
    ensures CalculateFee(TWO_POW_64, 1, 1) == Some(0)
    ensures CalculateFee(TWO_POW_64 + 7, 3, 3) == Some(7)
  {
  }
}
