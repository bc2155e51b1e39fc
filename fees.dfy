/** Basis-point fee arithmetic of the action registry and the factory. */
module Fees {

  /** 10000 basis points make 100%. */
  const BPS_DENOMINATOR: nat := 10000

  /** The factory's base fee per minted NFT, in stroops (0.1 XLM). */
  const BASE_FEE_PER_NFT: nat := 1_000_000

  /** The registry's fee on a logged action: `total_amount * fee_bps / 10000`.
      The contract evaluates it only after rejecting `total_amount <= 0`, so the
      division never sees a negative operand and truncation agrees with Euclidean
      division. The result is the floor of the exact share. */
  function ActionFee(totalAmount: int, feeBps: nat): (fee: int)
    requires totalAmount > 0
    ensures 0 <= fee
    ensures fee * BPS_DENOMINATOR <= totalAmount * feeBps < (fee + 1) * BPS_DENOMINATOR
    ensures feeBps == 0 ==> fee == 0
    ensures feeBps <= BPS_DENOMINATOR ==> fee <= totalAmount
  {
    var fee := totalAmount * feeBps / BPS_DENOMINATOR;
    FloorShareBounds(totalAmount, feeBps, fee);
    fee
  }

  lemma FloorShareBounds(total: int, bps: nat, fee: int)
    requires total > 0 && fee == total * bps / BPS_DENOMINATOR
    ensures 0 <= fee
    ensures fee * BPS_DENOMINATOR <= total * bps < (fee + 1) * BPS_DENOMINATOR
    ensures bps <= BPS_DENOMINATOR ==> fee <= total
  {
    var p := total * bps;
    assert p >= 0;
    assert p == fee * BPS_DENOMINATOR + p % BPS_DENOMINATOR;
    if bps <= BPS_DENOMINATOR {
      assert p <= total * BPS_DENOMINATOR;
    }
  }

  /** The factory's mint fee: nothing when the rate is zero, otherwise
      `1_000_000 * amount * fee_bps / 10000`. Because the base fee is a multiple of
      10000 the division is exact and the fee is `100 * amount * fee_bps`. */
  function MintFee(amount: nat, feeBps: nat): (fee: nat)
    ensures fee == 100 * amount * feeBps
    ensures fee == 0 <==> amount == 0 || feeBps == 0
    ensures feeBps <= BPS_DENOMINATOR ==> fee <= BASE_FEE_PER_NFT * amount
  {
    if feeBps > 0 then
      var totalBaseFee := BASE_FEE_PER_NFT * amount;
      ExactShare(amount, feeBps);
      totalBaseFee * feeBps / BPS_DENOMINATOR
    else
      0
  }

  lemma ExactShare(amount: nat, bps: nat)
    ensures BASE_FEE_PER_NFT * amount * bps / BPS_DENOMINATOR == 100 * amount * bps
    ensures bps <= BPS_DENOMINATOR ==> 100 * amount * bps <= BASE_FEE_PER_NFT * amount
  {
    var q := 100 * amount * bps;
    assert BASE_FEE_PER_NFT * amount * bps == q * BPS_DENOMINATOR;
    if bps <= BPS_DENOMINATOR {
      assert amount * bps <= amount * BPS_DENOMINATOR;
    }
  }

  /** The registry's worked examples: 5% of 10000 is 500, and a zero rate takes nothing. */
  lemma ActionFeeExamples()
    ensures ActionFee(10000, 500) == 500
    ensures ActionFee(10000, 0) == 0
  {
  }

  /** The factory's worked examples: 3 NFTs at 500 bps cost 150_000, and a zero rate costs nothing. */
  lemma MintFeeExamples()
    ensures MintFee(3, 500) == 150_000
    ensures MintFee(3, 0) == 0
  {
  }
}
