/** The test-matrix expansion of `testForNetwork`: from a scenario (token
    pair, amounts, optional fee record) and the side→methods map, the
    sequence of swap cases it registers, in registration order. */
module Matrix {
  import opened Wrappers
  import opened Fees
  import opened Sides

  /** A token symbol; the token registry entry it selects is represented by the symbol. */
  type Symbol = string
  /** A decimal amount string, passed through unparsed. */
  type Amount = string
  /** A holder address, opaque. */
  type Address = string
  /** A network, by chain id. */
  type Network = nat

  /** The arguments of one `testForNetwork` call. `transferFees` is `None`
      when the caller omits it. */
  datatype Scenario = Scenario(
    network: Network,
    dexKey: string,
    tokenA: Symbol,
    tokenB: Symbol,
    amountA: Amount,
    amountB: Amount,
    nativeAmount: Amount,
    transferFees: Option<TransferFeeParams>)

  /** The scenario network's entries of the external registries: its native
      token symbol and its holders by token symbol. */
  datatype Registry = Registry(nativeSymbol: Symbol, holders: map<Symbol, Address>)

  /** One registered case: the arguments handed to the swap-execution call.
      The label is the (src, dest) pair; `holder` is `None` where the holder
      registry has no entry (JavaScript `undefined`). */
  datatype Case = Case(
    src: Symbol,
    dest: Symbol,
    holder: Option<Address>,
    amount: Amount,
    side: SwapSide,
    dexKey: string,
    contractMethod: ContractMethod,
    network: Network,
    fees: TransferFeeParams)

  /** The fee record in force: the caller's, or the all-zero default. */
  function EffectiveFees(s: Scenario): TransferFeeParams {
    s.transferFees.GetOr(NoFees)
  }

  /** The skip rule: a source token with a DEX fee cannot be tested on BUY. */
  predicate Skipped(fees: TransferFeeParams, side: SwapSide) {
    Truthy(fees.srcDexFee) && side == BUY
  }

  // ---------------------------------------------------------------------
  // Reference description of the four legs, by the role each token plays.

  datatype Role = TokenA | TokenB | NativeToken

  datatype Leg = Leg(src: Role, dest: Role)

  /** The four legs of a group, in registration order. */
  const Legs: seq<Leg> := [
    Leg(TokenA, TokenB),
    Leg(TokenB, TokenA),
    Leg(NativeToken, TokenA),
    Leg(TokenA, NativeToken)
  ]

  function SymbolOf(s: Scenario, reg: Registry, role: Role): Symbol {
    match role
    case TokenA => s.tokenA
    case TokenB => s.tokenB
    case NativeToken => reg.nativeSymbol
  }

  /** The amount denominated in the token playing `role`. */
  function AmountOf(s: Scenario, role: Role): Amount {
    match role
    case TokenA => s.amountA
    case TokenB => s.amountB
    case NativeToken => s.nativeAmount
  }

  /** The case a leg should produce: the amount is the source's on SELL and
      the destination's on BUY; the fee record keeps its orientation exactly
      when token A is the source, and has its DEX fees swapped otherwise. */
  function LegCase(s: Scenario, reg: Registry, side: SwapSide, contractMethod: ContractMethod, leg: Leg): Case {
    var src := SymbolOf(s, reg, leg.src);
    var f := EffectiveFees(s);
    Case(
      src,
      SymbolOf(s, reg, leg.dest),
      Lookup(reg.holders, src),
      AmountOf(s, if side == SELL then leg.src else leg.dest),
      side,
      s.dexKey,
      contractMethod,
      s.network,
      if leg.src == TokenA then f else SwapDexFees(f))
  }

  // ---------------------------------------------------------------------
  // The expansion as the test file writes it.

  /** The four `it` blocks of one (side, method) group, each written out
      with its own amount ternary and fee record. */
  function Quad(s: Scenario, reg: Registry, side: SwapSide, contractMethod: ContractMethod): (r: seq<Case>)
    ensures |r| == |Legs|
    ensures forall k :: 0 <= k < |Legs| ==> r[k] == LegCase(s, reg, side, contractMethod, Legs[k])
  {
    var f := EffectiveFees(s);
    var sell := side == SELL;
    var native := reg.nativeSymbol;
    [
      Case(s.tokenA, s.tokenB, Lookup(reg.holders, s.tokenA),
           if sell then s.amountA else s.amountB,
           side, s.dexKey, contractMethod, s.network, f),
      Case(s.tokenB, s.tokenA, Lookup(reg.holders, s.tokenB),
           if sell then s.amountB else s.amountA,
           side, s.dexKey, contractMethod, s.network,
           f.(srcDexFee := f.destDexFee, destDexFee := f.srcDexFee)),
      Case(native, s.tokenA, Lookup(reg.holders, native),
           if sell then s.nativeAmount else s.amountA,
           side, s.dexKey, contractMethod, s.network,
           f.(srcDexFee := f.destDexFee, destDexFee := f.srcDexFee)),
      Case(s.tokenA, native, Lookup(reg.holders, s.tokenA),
           if sell then s.amountA else s.nativeAmount,
           side, s.dexKey, contractMethod, s.network, f)
    ]
  }

  /** The body of one `describe(contractMethod)`: nothing when skipped. */
  function Group(s: Scenario, reg: Registry, side: SwapSide, contractMethod: ContractMethod): seq<Case> {
    if Skipped(EffectiveFees(s), side) then [] else Quad(s, reg, side, contractMethod)
  }

  /** Facts every case of an expansion satisfies whatever its position. */
  predicate WellFormedCase(s: Scenario, reg: Registry, c: Case) {
    var f := EffectiveFees(s);
    && c.dexKey == s.dexKey
    && c.network == s.network
    && c.holder == Lookup(reg.holders, c.src)
    && !Skipped(f, c.side)
    && (c.fees == f || c.fees == SwapDexFees(f))
  }

  /** `contractMethods.forEach(...)` for one side. */
  function ExpandMethods(s: Scenario, reg: Registry, side: SwapSide, contractMethods: seq<ContractMethod>): (r: seq<Case>)
    ensures |r| == if Skipped(EffectiveFees(s), side) then 0 else 4 * |contractMethods|
    ensures forall c :: c in r ==> WellFormedCase(s, reg, c) && c.side == side && c.contractMethod in contractMethods
  {
    if contractMethods == [] then []
    else
      var head := Group(s, reg, side, contractMethods[0]);
      assert forall c :: c in head ==> WellFormedCase(s, reg, c) && c.contractMethod == contractMethods[0] by {
        forall c | c in head
          ensures WellFormedCase(s, reg, c) && c.contractMethod == contractMethods[0]
        {
          var k :| 0 <= k < |head| && head[k] == c;
        }
      }
      head + ExpandMethods(s, reg, side, contractMethods[1..])
  }

  /** The groups the skip rule keeps, in order. */
  function Kept(ps: seq<(SwapSide, ContractMethod)>, f: TransferFeeParams): (r: seq<(SwapSide, ContractMethod)>)
    ensures |r| <= |ps|
    ensures !Truthy(f.srcDexFee) ==> r == ps
  {
    if ps == [] then []
    else (if Skipped(f, ps[0].0) then [] else [ps[0]]) + Kept(ps[1..], f)
  }

  /** A group survives the skip rule exactly when it is declared and its side
      is not skipped. */
  lemma {:induction false} KeptMembers(ps: seq<(SwapSide, ContractMethod)>, f: TransferFeeParams, p: (SwapSide, ContractMethod))
    ensures p in Kept(ps, f) <==> p in ps && !Skipped(f, p.0)
  {
    if ps != [] {
      KeptMembers(ps[1..], f, p);
      assert ps == [ps[0]] + ps[1..];
    }
  }

  /** `testForNetwork`: every (side, method) group of the map in iteration
      order, each contributing its four cases unless skipped. */
  function Expand(s: Scenario, reg: Registry, m: SideMap): (r: seq<Case>)
    ensures |r| == 4 * |Kept(Pairs(m), EffectiveFees(s))|
    ensures forall c :: c in r ==> WellFormedCase(s, reg, c) && (c.side, c.contractMethod) in Pairs(m)
  {
    if m == [] then []
    else
      var head := ExpandMethods(s, reg, m[0].side, m[0].methods);
      var tail := Expand(s, reg, m[1..]);
      KeptAppend(PairsOf(m[0].side, m[0].methods), Pairs(m[1..]), EffectiveFees(s));
      KeptOneSide(m[0].side, m[0].methods, EffectiveFees(s));
      head + tail
  }

  // ---------------------------------------------------------------------
  // Lemmas.

  lemma {:induction false} KeptAppend(a: seq<(SwapSide, ContractMethod)>, b: seq<(SwapSide, ContractMethod)>, f: TransferFeeParams)
    ensures Kept(a + b, f) == Kept(a, f) + Kept(b, f)
  {
    if a != [] {
      assert (a + b)[0] == a[0];
      assert (a + b)[1..] == a[1..] + b;
      KeptAppend(a[1..], b, f);
      var h := if Skipped(f, a[0].0) then [] else [a[0]];
      calc {
        Kept(a + b, f);
        h + Kept(a[1..] + b, f);
        h + (Kept(a[1..], f) + Kept(b, f));
        (h + Kept(a[1..], f)) + Kept(b, f);
      }
    } else {
      assert a + b == b;
    }
  }

  /** Within one side the skip rule keeps all groups or none. */
  lemma {:induction false} KeptOneSide(side: SwapSide, contractMethods: seq<ContractMethod>, f: TransferFeeParams)
    ensures Kept(PairsOf(side, contractMethods), f) == if Skipped(f, side) then [] else PairsOf(side, contractMethods)
  {
    if contractMethods != [] {
      assert PairsOf(side, contractMethods)[1..] == PairsOf(side, contractMethods[1..]);
      KeptOneSide(side, contractMethods[1..], f);
    }
  }

  /** Reference expansion: the groups' four cases, concatenated in order. */
  function Quads(s: Scenario, reg: Registry, ps: seq<(SwapSide, ContractMethod)>): (r: seq<Case>)
    ensures |r| == 4 * |ps|
  {
    if ps == [] then [] else Quad(s, reg, ps[0].0, ps[0].1) + Quads(s, reg, ps[1..])
  }

  lemma {:induction false} QuadsAppend(s: Scenario, reg: Registry, a: seq<(SwapSide, ContractMethod)>, b: seq<(SwapSide, ContractMethod)>)
    ensures Quads(s, reg, a + b) == Quads(s, reg, a) + Quads(s, reg, b)
  {
    if a == [] {
      assert a + b == b;
    } else {
      assert (a + b)[0] == a[0];
      assert (a + b)[1..] == a[1..] + b;
      QuadsAppend(s, reg, a[1..], b);
    }
  }

  /** Leg `k` of group `j` sits at position `4 * j + k` of the reference
      expansion. */
  lemma {:induction false} QuadsAt(s: Scenario, reg: Registry, ps: seq<(SwapSide, ContractMethod)>, j: int, k: int)
    requires 0 <= j < |ps| && 0 <= k < |Legs|
    ensures 4 * j + k < |Quads(s, reg, ps)|
    ensures Quads(s, reg, ps)[4 * j + k] == LegCase(s, reg, ps[j].0, ps[j].1, Legs[k])
    decreases j
  {
    var q := Quad(s, reg, ps[0].0, ps[0].1);
    assert Quads(s, reg, ps) == q + Quads(s, reg, ps[1..]);
    if j > 0 {
      QuadsAt(s, reg, ps[1..], j - 1, k);
      assert 4 * j + k == 4 + (4 * (j - 1) + k);
    }
  }

  /** One side's expansion is the reference expansion of its kept groups. */
  lemma {:induction false} ExpandMethodsIsQuads(s: Scenario, reg: Registry, side: SwapSide, methods: seq<ContractMethod>)
    ensures ExpandMethods(s, reg, side, methods) == Quads(s, reg, Kept(PairsOf(side, methods), EffectiveFees(s)))
  {
    var f := EffectiveFees(s);
    KeptOneSide(side, methods, f);
    if methods != [] && !Skipped(f, side) {
      assert PairsOf(side, methods)[1..] == PairsOf(side, methods[1..]);
      KeptOneSide(side, methods[1..], f);
      ExpandMethodsIsQuads(s, reg, side, methods[1..]);
    } else if methods != [] {
      ExpandMethodsIsQuads(s, reg, side, methods[1..]);
    }
  }

  /** The nested iteration of the test file equals the reference expansion of
      the kept groups: registration order is group order, then leg order. */
  lemma {:induction false} ExpandIsQuads(s: Scenario, reg: Registry, m: SideMap)
    ensures Expand(s, reg, m) == Quads(s, reg, Kept(Pairs(m), EffectiveFees(s)))
  {
    if m != [] {
      var f := EffectiveFees(s);
      ExpandMethodsIsQuads(s, reg, m[0].side, m[0].methods);
      ExpandIsQuads(s, reg, m[1..]);
      KeptAppend(PairsOf(m[0].side, m[0].methods), Pairs(m[1..]), f);
      QuadsAppend(s, reg, Kept(PairsOf(m[0].side, m[0].methods), f), Kept(Pairs(m[1..]), f));
    }
  }

  /** Every case, by position: case `i` is leg `i % 4` (A→B, B→A, native→A,
      A→native) of the `i / 4`-th group the skip rule keeps. */
  lemma ExpandIndex(s: Scenario, reg: Registry, m: SideMap)
    ensures var r := Expand(s, reg, m);
      var ks := Kept(Pairs(m), EffectiveFees(s));
      forall i :: 0 <= i < |r| ==> r[i] == LegCase(s, reg, ks[i / 4].0, ks[i / 4].1, Legs[i % 4])
  {
    var ks := Kept(Pairs(m), EffectiveFees(s));
    ExpandIsQuads(s, reg, m);
    forall i | 0 <= i < 4 * |ks|
      ensures Quads(s, reg, ks)[i] == LegCase(s, reg, ks[i / 4].0, ks[i / 4].1, Legs[i % 4])
    {
      var j, k := i / 4, i % 4;
      assert i == 4 * j + k && j < |ks|;
      QuadsAt(s, reg, ks, j, k);
    }
  }

  /** Leg `k` of the `j`-th kept group is registered at position `4 * j + k`. */
  lemma ExpandAtGroup(s: Scenario, reg: Registry, m: SideMap, j: int, k: int)
    requires 0 <= j < |Kept(Pairs(m), EffectiveFees(s))| && 0 <= k < |Legs|
    ensures var ks := Kept(Pairs(m), EffectiveFees(s));
      && 4 * j + k < |Expand(s, reg, m)|
      && Expand(s, reg, m)[4 * j + k] == LegCase(s, reg, ks[j].0, ks[j].1, Legs[k])
  {
    ExpandIsQuads(s, reg, m);
    QuadsAt(s, reg, Kept(Pairs(m), EffectiveFees(s)), j, k);
  }

  /** Completeness: every declared group the skip rule keeps contributes its
      four cases. */
  lemma GroupPresent(s: Scenario, reg: Registry, m: SideMap, side: SwapSide, contractMethod: ContractMethod, k: int)
    requires (side, contractMethod) in Pairs(m)
    requires !Skipped(EffectiveFees(s), side)
    requires 0 <= k < |Legs|
    ensures LegCase(s, reg, side, contractMethod, Legs[k]) in Expand(s, reg, m)
  {
    var ks := Kept(Pairs(m), EffectiveFees(s));
    KeptMembers(Pairs(m), EffectiveFees(s), (side, contractMethod));
    var j :| 0 <= j < |ks| && ks[j] == (side, contractMethod);
    ExpandAtGroup(s, reg, m, j, k);
    var r := Expand(s, reg, m);
    assert r[4 * j + k] in r;
  }

  /** SELL groups are never skipped, whatever the fees. */
  lemma SellGroupsExpanded(s: Scenario, reg: Registry, m: SideMap, contractMethod: ContractMethod, k: int)
    requires (SELL, contractMethod) in Pairs(m)
    requires 0 <= k < |Legs|
    ensures LegCase(s, reg, SELL, contractMethod, Legs[k]) in Expand(s, reg, m)
  {
    GroupPresent(s, reg, m, SELL, contractMethod, k);
  }

  /** The skip rule, both ways: a BUY case is registered exactly when the map
      declares a BUY method and the source DEX fee is zero. */
  lemma BuyCasesIff(s: Scenario, reg: Registry, m: SideMap)
    ensures (exists c :: c in Expand(s, reg, m) && c.side == BUY)
        <==> !Truthy(EffectiveFees(s).srcDexFee) && exists mt :: (BUY, mt) in Pairs(m)
  {
    if !Truthy(EffectiveFees(s).srcDexFee) && exists mt :: (BUY, mt) in Pairs(m) {
      var mt :| (BUY, mt) in Pairs(m);
      GroupPresent(s, reg, m, BUY, mt, 0);
    }
  }

  /** The reversed legs (B→A, native→A) carry the caller's record with the DEX
      fees swapped, so swapping back recovers it; the forward legs (A→B,
      A→native) carry it unchanged. */
  lemma FeeOrientation(s: Scenario, reg: Registry, m: SideMap)
    ensures var r := Expand(s, reg, m);
      var f := EffectiveFees(s);
      forall i :: 0 <= i < |r| ==>
        && (i % 4 == 0 || i % 4 == 3 ==> r[i].fees == f)
        && (i % 4 == 1 || i % 4 == 2 ==> SwapDexFees(r[i].fees) == f)
        && r[i].fees.srcFee == f.srcFee
        && r[i].fees.destFee == f.destFee
  {
    ExpandIndex(s, reg, m);
    SwapDexFeesInvolution(EffectiveFees(s));
  }

  /** Amount selection: on SELL every case moves the amount of its source
      token, on BUY the amount of its destination token. */
  lemma AmountSelection(s: Scenario, reg: Registry, m: SideMap)
    ensures var r := Expand(s, reg, m);
      forall i :: 0 <= i < |r| ==>
        r[i].amount == AmountOf(s, if r[i].side == SELL then Legs[i % 4].src else Legs[i % 4].dest)
  {
    ExpandIndex(s, reg, m);
  }

  /** With the default (or an all-zero) fee record every case carries the
      all-zero record. */
  lemma DefaultFeesEverywhere(s: Scenario, reg: Registry, m: SideMap)
    requires s.transferFees == None || s.transferFees == Some(NoFees)
    ensures forall c :: c in Expand(s, reg, m) ==> c.fees == NoFees
  {
  }
}
