/** Swap sides, contract methods, and the insertion-ordered side→methods map
    that decides which (side, method) groups a scenario exercises. */
module Sides {
  import opened Wrappers

  /** Which of the two amounts is authoritative: source-denominated (SELL)
      or destination-denominated (BUY). */
  datatype SwapSide = SELL | BUY

  /** Adapter invocation styles; the ones the test file names, plus any other. */
  datatype ContractMethod =
    | SwapExactAmountIn
    | SimpleSwap
    | MultiSwap
    | MegaSwap
    | SimpleBuy
    | Buy
    | OtherMethod(name: string)

  /** One key/value pair of the map. */
  datatype Entry = Entry(side: SwapSide, methods: seq<ContractMethod>)

  /** A JavaScript `Map<SwapSide, ContractMethod[]>`, as its entries in
      iteration (insertion) order. */
  type SideMap = seq<Entry>

  /** The keys of `m` in iteration order. */
  function Keys(m: SideMap): (r: seq<SwapSide>)
    ensures |r| == |m|
  {
    if m == [] then [] else [m[0].side] + Keys(m[1..])
  }

  lemma {:induction false} KeysAt(m: SideMap, i: int)
    requires 0 <= i < |m|
    ensures Keys(m)[i] == m[i].side
  {
    if i > 0 {
      KeysAt(m[1..], i - 1);
    }
  }

  /** The keys of a prefix are the prefix of the keys. */
  lemma {:induction false} KeysPrefix(m: SideMap, n: int)
    requires 0 <= n <= |m|
    ensures Keys(m[..n]) == Keys(m)[..n]
  {
    if n > 0 {
      assert m[..n][1..] == m[1..][..n - 1];
      KeysPrefix(m[1..], n - 1);
    }
  }

  /** No key occurs twice, as in every JavaScript Map. */
  predicate DistinctKeys(m: SideMap) {
    forall i, j :: 0 <= i < j < |m| ==> m[i].side != m[j].side
  }

  /** `m.get(side)`. */
  function Get(m: SideMap, side: SwapSide): (r: Option<seq<ContractMethod>>)
    ensures r.None? <==> side !in Keys(m)
    ensures r.Some? ==> Entry(side, r.value) in m
  {
    if m == [] then None
    else if m[0].side == side then Some(m[0].methods)
    else
      assert Keys(m) == [m[0].side] + Keys(m[1..]);
      Get(m[1..], side)
  }

  /** `m.set(side, methods)`: a present key keeps its position and takes the
      new value; a new key goes last. */
  function Set(m: SideMap, side: SwapSide, methods: seq<ContractMethod>): SideMap {
    if m == [] then [Entry(side, methods)]
    else if m[0].side == side then [Entry(side, methods)] + m[1..]
    else [m[0]] + Set(m[1..], side, methods)
  }

  lemma {:induction false} SetKeys(m: SideMap, side: SwapSide, methods: seq<ContractMethod>)
    ensures Keys(Set(m, side, methods)) == if side in Keys(m) then Keys(m) else Keys(m) + [side]
  {
    if m != [] && m[0].side != side {
      SetKeys(m[1..], side, methods);
      var r := Set(m, side, methods);
      assert r[1..] == Set(m[1..], side, methods);
      assert Keys(r) == [m[0].side] + Keys(r[1..]);
      assert Keys(m) == [m[0].side] + Keys(m[1..]);
      assert side in Keys(m) <==> side in Keys(m[1..]);
      assert [m[0].side] + (Keys(m[1..]) + [side]) == Keys(m) + [side];
    } else if m != [] {
      var r := Set(m, side, methods);
      assert r[1..] == m[1..];
      assert Keys(m)[0] == side;
    }
  }

  lemma {:induction false} SetGet(m: SideMap, side: SwapSide, methods: seq<ContractMethod>, s: SwapSide)
    ensures Get(Set(m, side, methods), s) == if s == side then Some(methods) else Get(m, s)
  {
    if m != [] && m[0].side != side {
      SetGet(m[1..], side, methods, s);
    }
  }

  lemma SetDistinct(m: SideMap, side: SwapSide, methods: seq<ContractMethod>)
    requires DistinctKeys(m)
    ensures DistinctKeys(Set(m, side, methods))
  {
  }

  /** The value the LAST entry for `side` gives it, if any. */
  function LastValue(es: seq<Entry>, side: SwapSide): Option<seq<ContractMethod>> {
    if es == [] then None
    else if es[|es| - 1].side == side then Some(es[|es| - 1].methods)
    else LastValue(es[..|es| - 1], side)
  }

  /** Each element of `xs` at the position of its first occurrence. */
  function FirstOccurrences<T(==)>(xs: seq<T>): seq<T> {
    if xs == [] then []
    else
      var init := FirstOccurrences(xs[..|xs| - 1]);
      if xs[|xs| - 1] in xs[..|xs| - 1] then init else init + [xs[|xs| - 1]]
  }

  lemma {:induction false} FirstOccurrencesMembers<T>(xs: seq<T>, x: T)
    ensures x in FirstOccurrences(xs) <==> x in xs
    decreases |xs|
  {
    if xs != [] {
      FirstOccurrencesMembers(xs[..|xs| - 1], x);
      assert xs == xs[..|xs| - 1] + [xs[|xs| - 1]];
    }
  }

  /** `new Map(entries)`: keys are distinct, listed in order of first
      occurrence, and each holds the value of its last entry. */
  function FromEntries(es: seq<Entry>): (r: SideMap)
    ensures DistinctKeys(r)
    ensures Keys(r) == FirstOccurrences(Keys(es))
    ensures forall s :: Get(r, s) == LastValue(es, s)
    decreases |es|
  {
    if es == [] then []
    else
      var init := es[..|es| - 1];
      var last := es[|es| - 1];
      var m := FromEntries(init);
      KeysPrefix(es, |es| - 1);
      KeysAt(es, |es| - 1);
      FirstOccurrencesMembers(Keys(init), last.side);
      SetKeys(m, last.side, last.methods);
      SetDistinct(m, last.side, last.methods);
      forall s ensures Get(Set(m, last.side, last.methods), s) == LastValue(es, s) {
        SetGet(m, last.side, last.methods, s);
      }
      Set(m, last.side, last.methods)
  }

  /** The (side, method) groups `m` declares, in iteration order: each key's
      methods in array order. */
  function Pairs(m: SideMap): (r: seq<(SwapSide, ContractMethod)>)
    ensures forall p :: p in r <==> exists i :: 0 <= i < |m| && m[i].side == p.0 && p.1 in m[i].methods
  {
    if m == [] then []
    else
      PairsOf(m[0].side, m[0].methods) + Pairs(m[1..])
  }

  /** The groups of one key. */
  function PairsOf(side: SwapSide, methods: seq<ContractMethod>): (r: seq<(SwapSide, ContractMethod)>)
    ensures |r| == |methods|
    ensures forall i :: 0 <= i < |r| ==> r[i] == (side, methods[i])
  {
    seq(|methods|, i requires 0 <= i < |methods| => (side, methods[i]))
  }
}
