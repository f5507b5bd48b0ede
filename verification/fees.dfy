/** The transfer-fee record a swap case carries, and the reorientation it
    undergoes when a case swaps in the opposite direction. */
module Fees {

  /** Token-transfer tax parameters, split by leg (source/destination) and by
      context (plain transfer / transfer routed through the DEX). */
  datatype TransferFeeParams = TransferFeeParams(
    srcFee: int,
    destFee: int,
    srcDexFee: int,
    destDexFee: int)

  /** The record used when the caller passes none: every fee zero. */
  const NoFees := TransferFeeParams(0, 0, 0, 0)

  /** JavaScript truthiness of a number (`!!x`); NaN is not modelled. */
  predicate Truthy(x: int) {
    x != 0
  }

  /** `{...f, srcDexFee: f.destDexFee, destDexFee: f.srcDexFee}`: the DEX fees
      trade places, the plain transfer fees keep theirs. */
  function SwapDexFees(f: TransferFeeParams): (r: TransferFeeParams)
    ensures r.srcFee == f.srcFee && r.destFee == f.destFee
    ensures r.srcDexFee == f.destDexFee && r.destDexFee == f.srcDexFee
  {
    f.(srcDexFee := f.destDexFee, destDexFee := f.srcDexFee)
  }

  /** Swapping twice gives back the caller's record. */
  lemma SwapDexFeesInvolution(f: TransferFeeParams)
    ensures SwapDexFees(SwapDexFees(f)) == f
  {
  }

  /** The swap changes a record exactly when its two DEX fees differ. */
  lemma SwapDexFeesFixedPoint(f: TransferFeeParams)
    ensures SwapDexFees(f) == f <==> f.srcDexFee == f.destDexFee
  {
  }
}
