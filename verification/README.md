# Algebra end-to-end test matrix, modelled in Dafny

This project models `testForNetwork` from the Algebra DEX end-to-end test
file of paraswap-dex-lib. One call takes a scenario and expands it into the
swap cases the test runner registers. A scenario is a network, a DEX key,
two token symbols A and B, three amount strings and an optional
transfer-fee record. For every (side, contract method) group declared in
the side→methods map, the function registers four cases in a fixed order:
A→B, B→A, native→A and A→native. Each case's amount depends on the side.
Its holder is the holder of the source token. On B→A and native→A, the
fee record has its two DEX fees exchanged. A whole group is skipped when
the side is BUY and the source DEX fee is non-zero.

Registration is replaced by returning the cases as a sequence, in
registration order (`Matrix.Expand`). Everything is a pure function of its
arguments. Two calls with equal arguments therefore produce equal
sequences, and no state is shared between calls.

Modules:

- `Wrappers`: `Option`, which stands for omitted arguments and for
  JavaScript `undefined`, and `Lookup`, which indexes a plain object.
- `Fees`: the four-field `TransferFeeParams` record, its all-zero default,
  numeric truthiness, and the DEX-fee swap.
- `Sides`: `SwapSide`, `ContractMethod`, and the side→methods map. The map
  is an insertion-ordered list of entries with JavaScript `Map`
  semantics: `FromEntries` is `new Map(entries)` and `Pairs` is the nested
  `forEach` order.
- `Matrix`: `Scenario`, `Registry` (the scenario network's native symbol
  and holder table), `Case`, and the expansion. `Quad` is the four `it`
  blocks as written. `Expand` is the nested iteration with the skip rule.
  `LegCase` and `Quads` are independent reference definitions. `LegCase`
  is stated by token roles, with one uniform rule for amount and fee
  orientation. `Quads` is a flat concatenation of the kept groups. The two
  sides are proved equal.
- `Scenarios`: the scenarios the file declares, checked against the
  configured map `{SELL → [swapExactAmountIn]}` for any registry contents.
  They are also checked against the map with the commented-out BUY line
  enabled.

Only the B→A and native→A cases get the record with the DEX fees
exchanged; A→native passes the caller's record unchanged
(`src/dex/algebra/algebra-e2e.test.ts:173`), as A→B does.

## Model

| member | source | states |
|---|---|---|
| Fees.SwapDexFees | src/dex/algebra/algebra-e2e.test.ts:132-136 | the reoriented record exchanges `srcDexFee` and `destDexFee` and keeps `srcFee` and `destFee` |
| Fees.SwapDexFeesInvolution | src/dex/algebra/algebra-e2e.test.ts:132-136 | swapping the DEX fees twice gives back the caller's record |
| Fees.SwapDexFeesFixedPoint | src/dex/algebra/algebra-e2e.test.ts:132-136 | the swap leaves a record unchanged exactly when its two DEX fees are equal |
| Sides.SetKeys | src/dex/algebra/algebra-e2e.test.ts:79-92 | setting a key already present keeps the key order; a new key goes last |
| Sides.SetGet | src/dex/algebra/algebra-e2e.test.ts:79-92 | after a set, the key reads the new value and every other key reads what it read before |
| Sides.SetDistinct | src/dex/algebra/algebra-e2e.test.ts:79-92 | setting a key never creates a duplicate key |
| Sides.FromEntries | src/dex/algebra/algebra-e2e.test.ts:79-92 | building the map from entries gives distinct keys in first-occurrence order, each with its last entry's value |
| Sides.Pairs | src/dex/algebra/algebra-e2e.test.ts:95-97 | a (side, method) group is iterated exactly when that side's entry lists that method |
| Sides.PairsOf | src/dex/algebra/algebra-e2e.test.ts:97 | one side's groups are its methods in array order, all tagged with that side |
| Matrix.Quad | src/dex/algebra/algebra-e2e.test.ts:102-175 | the four cases as written equal the role-based reference (`LegCase`) for A→B, B→A, native→A and A→native, in that order |
| Matrix.ExpandMethods | src/dex/algebra/algebra-e2e.test.ts:97-176 | one side yields no cases when skipped and otherwise four per method; every case has that side, one of its methods, the holder of its source token, and the caller's record or its swap |
| Matrix.Kept | src/dex/algebra/algebra-e2e.test.ts:100 | the skip rule never adds groups, and with a zero source DEX fee it keeps every declared group |
| Matrix.KeptMembers | src/dex/algebra/algebra-e2e.test.ts:100 | a group survives the skip rule exactly when it is declared and is not a BUY group with a non-zero source DEX fee |
| Matrix.Expand | src/dex/algebra/algebra-e2e.test.ts:94-180 | the case count is four times the number of surviving groups; every case carries the scenario's dexKey and network, its source token's holder, a declared (side, method) and an unskipped side |
| Matrix.KeptAppend | src/dex/algebra/algebra-e2e.test.ts:100 | the skip rule acts on each group independently, so it distributes over concatenation |
| Matrix.KeptOneSide | src/dex/algebra/algebra-e2e.test.ts:100 | within one side, the skip rule keeps every group or none, since it depends only on the side and the fees |
| Matrix.Quads | src/dex/algebra/algebra-e2e.test.ts:102-175 | the reference expansion has four cases per group |
| Matrix.QuadsAppend | src/dex/algebra/algebra-e2e.test.ts:95-97 | the reference expansion of consecutive group lists is the concatenation of their expansions |
| Matrix.QuadsAt | src/dex/algebra/algebra-e2e.test.ts:102-175 | leg k of group j sits at position 4·j + k of the reference expansion |
| Matrix.ExpandMethodsIsQuads | src/dex/algebra/algebra-e2e.test.ts:97-176 | one side's iteration equals the reference expansion of its surviving groups |
| Matrix.ExpandIsQuads | src/dex/algebra/algebra-e2e.test.ts:94-180 | the nested side/method iteration equals the reference expansion of the surviving groups, in map order |
| Matrix.ExpandIndex | src/dex/algebra/algebra-e2e.test.ts:95-175 | registered case i is leg i mod 4 (A→B, B→A, native→A, A→native) of the (i div 4)-th surviving group |
| Matrix.ExpandAtGroup | src/dex/algebra/algebra-e2e.test.ts:95-175 | leg k of the j-th surviving group is registered at position 4·j + k |
| Matrix.GroupPresent | src/dex/algebra/algebra-e2e.test.ts:95-175 | every declared, unskipped group registers all four of its cases |
| Matrix.SellGroupsExpanded | src/dex/algebra/algebra-e2e.test.ts:100 | SELL groups are never skipped, whatever the fees: all four of their cases are registered |
| Matrix.BuyCasesIff | src/dex/algebra/algebra-e2e.test.ts:100 | some BUY case is registered if and only if the map declares a BUY method and the source DEX fee is zero |
| Matrix.FeeOrientation | src/dex/algebra/algebra-e2e.test.ts:115-173 | A→B and A→native carry the caller's record; B→A and native→A carry it with the DEX fees swapped, so swapping back restores it; srcFee and destFee are always the caller's |
| Matrix.AmountSelection | src/dex/algebra/algebra-e2e.test.ts:107-165 | on SELL every case moves its source token's amount, and on BUY its destination token's amount |
| Matrix.DefaultFeesEverywhere | src/dex/algebra/algebra-e2e.test.ts:63-68 | with the default (or an all-zero) fee record, every registered case carries the all-zero record |
| Scenarios.ConfiguredExpansion | src/dex/algebra/algebra-e2e.test.ts:79-92 | with the configured map, any scenario registers exactly the four SELL swapExactAmountIn cases, whatever its fees |
| Scenarios.QuickSwapPolygonVector | src/dex/algebra/algebra-e2e.test.ts:184-205 | the QuickSwapV3 Polygon scenario registers USDC→DAI, DAI→USDC, native→USDC and USDC→native, with the expected amounts, SELL, swapExactAmountIn and zero fees |
| Scenarios.UntaxedVectors | src/dex/algebra/algebra-e2e.test.ts:183-298 | each of the four untaxed scenarios registers four SELL cases with zero fees |
| Scenarios.CamelotTaxVector | src/dex/algebra/algebra-e2e.test.ts:256-279 | the CamelotV3 tax-token scenario is not skipped; B→A and native→A carry srcDexFee 0 and destDexFee 1000, and A→B and A→native carry 1000 and 0 |
| Scenarios.TwoSideExpansion | src/dex/algebra/algebra-e2e.test.ts:79-92 | a map declaring SELL then BUY registers all SELL groups before all BUY groups |
| Scenarios.TaxedWithBuyVector | src/dex/algebra/algebra-e2e.test.ts:90-100 | with the BUY line enabled, the tax-token scenario still registers only its four SELL cases |
| Scenarios.UntaxedWithBuy | src/dex/algebra/algebra-e2e.test.ts:90-100 | with the BUY line enabled, a scenario with zero source DEX fee registers twelve cases: the SELL group, then simpleBuy, then buy |
| Scenarios.UntaxedWithBuyVector | src/dex/algebra/algebra-e2e.test.ts:281-298 | the CamelotV3 non-tax scenario with the BUY line enabled registers twelve cases |

## Left out

- Provider construction and environment loading (`dotenv`, `StaticJsonRpcProvider`, `generateConfig`). These are network I/O and configuration; a case does not carry a provider handle.
- The swap-execution call `testE2E` and everything it checks. Each case is the data handed to it. The two `undefined` override arguments are constant and are not recorded.
- The token registry `Tokens[network]`. A case records the token symbol that the lookup is keyed by. The native-symbol and holder registries are the `Registry` argument, already restricted to the scenario's network. A missing holder is `None`, standing for `undefined`. A network missing from a registry, which would fail inside the runner, is not modelled.
- Test-runner registration (`describe`/`it`) and label formatting. A label is represented by its case's (src, dest) symbols. The describe path is represented by the case's network, side and method.
- The numeric meaning of amounts. They are opaque strings, passed through unparsed.
- Fee values are integers. JavaScript numbers are floating point, so NaN, which is falsy, and fractional fees are not modelled. A `null` fee record, which the type forbids, is not modelled either.
- `ContractMethod` lists only the methods the file names, plus a catch-all. `src/constants.ts`, which defines them, is not part of this model. The networks are identified by chain id (Polygon 137, Arbitrum 42161, Optimism 10).
