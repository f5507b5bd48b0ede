/** The scenarios the Algebra test file declares, and what the expansion
    registers for each of them, for any contents of the external registries. */
module Scenarios {
  import opened Wrappers
  import opened Fees
  import opened Sides
  import opened Matrix

  const POLYGON: Network := 137
  const ARBITRUM: Network := 42161
  const OPTIMISM: Network := 10

  /** The side→methods map as configured: SELL with `swapExactAmountIn` only. */
  const ConfiguredEntries: seq<Entry> := [Entry(SELL, [SwapExactAmountIn])]

  /** The same map with its commented-out BUY line enabled. */
  const WithBuyEntries: seq<Entry> := [Entry(SELL, [SwapExactAmountIn]), Entry(BUY, [SimpleBuy, Buy])]

  const QuickSwapPolygon := Scenario(POLYGON, "QuickSwapV3", "USDC", "DAI",
    "1000000000", "1000000000000000000000", "1000000000000000000", None)

  const ZyberSwapArbitrum := Scenario(ARBITRUM, "ZyberSwapV3", "USDC", "DAI",
    "1000000000", "1000000000000000000000", "1000000000000000000", None)

  const ZyberSwapOptimism := Scenario(OPTIMISM, "ZyberSwapV3", "USDC", "USDT",
    "100000000", "50000", "100000000000000", None)

  /** RDPX charges a DEX fee when it is the source token. */
  const CamelotTaxTokens := Scenario(ARBITRUM, "CamelotV3", "RDPX", "WETH",
    "100000000000000000000", "100000000000000000", "1000000000000000000",
    Some(TransferFeeParams(0, 0, 1000, 0)))

  const CamelotNonTaxTokens := Scenario(ARBITRUM, "CamelotV3", "USDCe", "USDT",
    "1000000000", "1000000000", "1000000000000000000", None)

  /** With the configured map, any scenario registers exactly the four SELL
      `swapExactAmountIn` cases, whatever its fees. */
  lemma ConfiguredExpansion(s: Scenario, reg: Registry)
    ensures Expand(s, reg, FromEntries(ConfiguredEntries)) == Quad(s, reg, SELL, SwapExactAmountIn)
  {
    var m := FromEntries(ConfiguredEntries);
    assert m == [Entry(SELL, [SwapExactAmountIn])];
    assert Expand(s, reg, m[1..]) == [];
  }

  /** The QuickSwapV3 scenario on Polygon: USDC→DAI, DAI→USDC, native→USDC,
      USDC→native, all SELL, all with the zero fee record, each moving the
      amount of its source token. */
  lemma QuickSwapPolygonVector(reg: Registry)
    ensures var r := Expand(QuickSwapPolygon, reg, FromEntries(ConfiguredEntries));
      && |r| == 4
      && (r[0].src, r[0].dest, r[0].amount) == ("USDC", "DAI", "1000000000")
      && (r[1].src, r[1].dest, r[1].amount) == ("DAI", "USDC", "1000000000000000000000")
      && (r[2].src, r[2].dest, r[2].amount) == (reg.nativeSymbol, "USDC", "1000000000000000000")
      && (r[3].src, r[3].dest, r[3].amount) == ("USDC", reg.nativeSymbol, "1000000000")
      && forall c :: c in r ==>
           && c.side == SELL
           && c.contractMethod == SwapExactAmountIn
           && c.fees == NoFees
           && c.dexKey == "QuickSwapV3"
           && c.network == POLYGON
  {
    ConfiguredExpansion(QuickSwapPolygon, reg);
  }

  /** The untaxed scenarios each register four SELL cases with zero fees. */
  lemma UntaxedVectors(reg: Registry, s: Scenario)
    requires s in [QuickSwapPolygon, ZyberSwapArbitrum, ZyberSwapOptimism, CamelotNonTaxTokens]
    ensures var r := Expand(s, reg, FromEntries(ConfiguredEntries));
      && |r| == 4
      && forall c :: c in r ==> c.side == SELL && c.fees == NoFees
  {
    ConfiguredExpansion(s, reg);
  }

  /** The CamelotV3 tax-token scenario is not skipped (its groups are SELL);
      its reversed legs carry the DEX fee on the destination side, its
      forward legs on the source side. */
  lemma CamelotTaxVector(reg: Registry)
    ensures var r := Expand(CamelotTaxTokens, reg, FromEntries(ConfiguredEntries));
      && |r| == 4
      && (r[0].src, r[0].dest) == ("RDPX", "WETH")
      && r[0].fees == TransferFeeParams(0, 0, 1000, 0)
      && (r[1].src, r[1].dest) == ("WETH", "RDPX")
      && r[1].fees == TransferFeeParams(0, 0, 0, 1000)
      && r[2].fees == TransferFeeParams(0, 0, 0, 1000)
      && r[3].fees == TransferFeeParams(0, 0, 1000, 0)
  {
    ConfiguredExpansion(CamelotTaxTokens, reg);
  }

  /** A map declaring SELL then BUY keeps both keys in that order, so the
      SELL groups come first. */
  lemma TwoSideExpansion(s: Scenario, reg: Registry, sellMethods: seq<ContractMethod>, buyMethods: seq<ContractMethod>)
    ensures Expand(s, reg, FromEntries([Entry(SELL, sellMethods), Entry(BUY, buyMethods)]))
         == ExpandMethods(s, reg, SELL, sellMethods) + ExpandMethods(s, reg, BUY, buyMethods)
  {
    var sell := Entry(SELL, sellMethods);
    var buy := Entry(BUY, buyMethods);
    var es := [sell, buy];
    assert es[..1] == [sell];
    assert FromEntries([sell][..0]) == [];
    assert FromEntries([sell]) == [sell];
    assert es[..|es| - 1] == [sell] && es[|es| - 1] == buy;
    assert Set([sell], BUY, buyMethods) == [sell] + Set([], BUY, buyMethods);
    var m := FromEntries(es);
    assert m == es;
    assert m[1..][1..] == [];
  }

  /** With BUY methods declared too, a scenario whose source token has a DEX
      fee still registers only its four SELL cases. */
  lemma TaxedWithBuy(s: Scenario, reg: Registry)
    requires Truthy(EffectiveFees(s).srcDexFee)
    ensures Expand(s, reg, FromEntries(WithBuyEntries)) == Quad(s, reg, SELL, SwapExactAmountIn)
  {
    TwoSideExpansion(s, reg, [SwapExactAmountIn], [SimpleBuy, Buy]);
    OneMethod(s, reg, SELL, SwapExactAmountIn);
    assert |ExpandMethods(s, reg, BUY, [SimpleBuy, Buy])| == 0;
  }

  /** The CamelotV3 tax-token scenario with the BUY line enabled. */
  lemma TaxedWithBuyVector(reg: Registry)
    ensures var r := Expand(CamelotTaxTokens, reg, FromEntries(WithBuyEntries));
      && r == Quad(CamelotTaxTokens, reg, SELL, SwapExactAmountIn)
      && forall c :: c in r ==> c.side == SELL
  {
    TaxedWithBuy(CamelotTaxTokens, reg);
  }

  /** A scenario whose source DEX fee is zero registers four cases for each
      of the three (side, method) groups, in map order. */
  lemma UntaxedWithBuy(s: Scenario, reg: Registry)
    requires !Truthy(EffectiveFees(s).srcDexFee)
    ensures var r := Expand(s, reg, FromEntries(WithBuyEntries));
      && |r| == 12
      && r[..4] == Quad(s, reg, SELL, SwapExactAmountIn)
      && r[4..8] == Quad(s, reg, BUY, SimpleBuy)
      && r[8..] == Quad(s, reg, BUY, Buy)
  {
    TwoSideExpansion(s, reg, [SwapExactAmountIn], [SimpleBuy, Buy]);
    OneMethod(s, reg, SELL, SwapExactAmountIn);
    TwoMethods(s, reg, BUY, SimpleBuy, Buy);
    SliceThree(Expand(s, reg, FromEntries(WithBuyEntries)),
      Quad(s, reg, SELL, SwapExactAmountIn), Quad(s, reg, BUY, SimpleBuy), Quad(s, reg, BUY, Buy));
  }

  lemma OneMethod(s: Scenario, reg: Registry, side: SwapSide, cm: ContractMethod)
    requires !Skipped(EffectiveFees(s), side)
    ensures ExpandMethods(s, reg, side, [cm]) == Quad(s, reg, side, cm)
  {
    assert ExpandMethods(s, reg, side, [cm]) == Quad(s, reg, side, cm) + ExpandMethods(s, reg, side, []);
  }

  lemma TwoMethods(s: Scenario, reg: Registry, side: SwapSide, cm1: ContractMethod, cm2: ContractMethod)
    requires !Skipped(EffectiveFees(s), side)
    ensures ExpandMethods(s, reg, side, [cm1, cm2]) == Quad(s, reg, side, cm1) + Quad(s, reg, side, cm2)
  {
    assert [cm1, cm2][1..] == [cm2];
    OneMethod(s, reg, side, cm2);
  }

  /** The CamelotV3 non-tax scenario with BUY methods declared: twelve cases. */
  lemma UntaxedWithBuyVector(reg: Registry)
    ensures |Expand(CamelotNonTaxTokens, reg, FromEntries(WithBuyEntries))| == 12
  {
    UntaxedWithBuy(CamelotNonTaxTokens, reg);
  }

  lemma SliceThree<T>(r: seq<T>, a: seq<T>, b: seq<T>, c: seq<T>)
    requires |a| == 4 && |b| == 4 && r == a + (b + c)
    ensures r[..4] == a && r[4..8] == b && r[8..] == c
  {
  }
}
