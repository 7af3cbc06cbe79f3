/** Model prices and the estimated cost of one scoring call, as exact decimals. */
module Pricing {
  import opened Common

  /** US cents per million tokens: every list price has at most two decimals. */
  datatype ModelPrice = ModelPrice(inputCents: nat, outputCents: nat)

  datatype Entry = Entry(name: string, price: ModelPrice)

  const PRICES: seq<Entry> := [
    Entry("gpt-4.1-mini", ModelPrice(40, 160)),
    Entry("gpt-4.1-nano", ModelPrice(10, 40)),
    Entry("gpt-4o-mini", ModelPrice(15, 60)),
    Entry("gpt-5-mini", ModelPrice(25, 200)),
    Entry("gpt-5-nano", ModelPrice(5, 40))
  ]

  /** The first entry from the k-th on whose name equals the model. */
  function Exact(table: seq<Entry>, model: string): Option<ModelPrice> {
    if table == [] then None
    else if table[0].name == model then Some(table[0].price)
    else Exact(table[1..], model)
  }

  /** The price of the first entry whose name is a prefix of the model. */
  function ByPrefix(table: seq<Entry>, model: string): Option<ModelPrice> {
    if table == [] then None
    else if table[0].name <= model then Some(table[0].price)
    else ByPrefix(table[1..], model)
  }

  /** An exact match, or else the first prefix in table order. */
  function PriceIn(table: seq<Entry>, model: string): Option<ModelPrice> {
    if Exact(table, model).Some? then Exact(table, model) else ByPrefix(table, model)
  }

  /** The early-return loop over the table. */
  method PriceFor(model: string) returns (price: Option<ModelPrice>)
    ensures price == PriceIn(PRICES, model)
  {
    if Exact(PRICES, model).Some? {
      return Exact(PRICES, model);
    }
    for i := 0 to |PRICES|
      invariant ByPrefix(PRICES, model) == ByPrefix(PRICES[i..], model)
    {
      assert PRICES[i..][0] == PRICES[i] && PRICES[i..][1..] == PRICES[i + 1..];
      if PRICES[i].name <= model {
        return Some(PRICES[i].price);
      }
    }
    return None;
  }

  // ----- The lookup does not depend on the order of the table ---------------------------------------

  /** No name of the table is a prefix of another one. */
  ghost predicate PrefixFree(table: seq<Entry>) {
    forall i, j | 0 <= i < |table| && 0 <= j < |table| && table[i].name <= table[j].name :: i == j
  }

  lemma PricesArePrefixFree()
    ensures PrefixFree(PRICES)
  {
    forall i, j | 0 <= i < |PRICES| && 0 <= j < |PRICES| && i != j
      ensures !(PRICES[i].name <= PRICES[j].name)
    {
      DifferentLetter(i, j);
    }
  }

  /** Two names differ at a position that both have. */
  lemma DifferentLetter(i: nat, j: nat)
    requires i < |PRICES| && j < |PRICES| && i != j
    ensures exists k :: 0 <= k < |PRICES[i].name| && k < |PRICES[j].name| && PRICES[i].name[k] != PRICES[j].name[k]
  {
    var a, b := PRICES[i].name, PRICES[j].name;
    assert |a| >= 10 && |b| >= 10;
    assert a[4] != b[4] || a[5] != b[5] || a[7] != b[7] || a[9] != b[9];
  }

  lemma PrefixesCompare(a: string, b: string, model: string)
    requires a <= model && b <= model
    ensures a <= b || b <= a
  {
    if |a| <= |b| {
      assert a == model[..|a|] == b[..|a|];
    } else {
      assert b == model[..|b|] == a[..|b|];
    }
  }

  /** At most one table name is a prefix of any model string. */
  lemma OnePrefixAtMost(table: seq<Entry>, model: string, i: nat, j: nat)
    requires PrefixFree(table) && i < |table| && j < |table|
    requires table[i].name <= model && table[j].name <= model
    ensures i == j
  {
    PrefixesCompare(table[i].name, table[j].name, model);
  }

  lemma {:induction false} ByPrefixFinds(table: seq<Entry>, model: string, i: nat)
    requires PrefixFree(table) && i < |table| && table[i].name <= model
    ensures ByPrefix(table, model) == Some(table[i].price)
  {
    if table[0].name <= model {
      OnePrefixAtMost(table, model, 0, i);
    } else {
      assert forall k | 0 <= k < |table[1..]| :: table[1..][k] == table[k + 1];
      ByPrefixFinds(table[1..], model, i - 1);
    }
  }

  lemma {:induction false} ByPrefixMisses(table: seq<Entry>, model: string)
    requires forall k | 0 <= k < |table| :: !(table[k].name <= model)
    ensures ByPrefix(table, model) == None
  {
    if table != [] {
      ByPrefixMisses(table[1..], model);
    }
  }

  lemma {:induction false} ExactIsAnEntry(table: seq<Entry>, model: string) returns (k: nat)
    requires Exact(table, model).Some?
    ensures k < |table| && table[k].name == model && Exact(table, model) == Some(table[k].price)
  {
    if table[0].name == model {
      k := 0;
    } else {
      k := ExactIsAnEntry(table[1..], model);
      k := k + 1;
    }
  }

  /** With a prefix-free table the exact-match shortcut changes nothing. */
  lemma ShortcutIsRedundant(table: seq<Entry>, model: string)
    requires PrefixFree(table)
    ensures PriceIn(table, model) == ByPrefix(table, model)
  {
    if Exact(table, model).Some? {
      var k := ExactIsAnEntry(table, model);
      ByPrefixFinds(table, model, k);
    }
  }

  /** The same entries in any order give the same price for every model string. */
  lemma LookupIgnoresOrder(table: seq<Entry>, other: seq<Entry>, model: string)
    requires PrefixFree(table) && PrefixFree(other)
    requires forall e :: e in table <==> e in other
    ensures PriceIn(table, model) == PriceIn(other, model)
  {
    ShortcutIsRedundant(table, model);
    ShortcutIsRedundant(other, model);
    if i :| 0 <= i < |table| && table[i].name <= model {
      ByPrefixFinds(table, model, i);
      assert table[i] in other;
      var j :| 0 <= j < |other| && other[j] == table[i];
      ByPrefixFinds(other, model, j);
    } else {
      forall j | 0 <= j < |other|
        ensures !(other[j].name <= model)
      {
        assert other[j] in table;
      }
      ByPrefixMisses(table, model);
      ByPrefixMisses(other, model);
    }
  }

  // ----- Cost ---------------------------------------------------------------------------------------

  const PER_MILLION: real := 1000000.0

  /** US dollars with eight decimals, rounded half up. */
  function Quantize(cost: real): real {
    ((cost * 100000000.0 + 0.5).Floor as real) / 100000000.0
  }

  function Dollars(cents: nat): real {
    (cents as real) / 100.0
  }

  function RawCost(p: ModelPrice, promptTokens: nat, completionTokens: nat): real {
    ((promptTokens as real) * Dollars(p.inputCents) + (completionTokens as real) * Dollars(p.outputCents)) / PER_MILLION
  }

  function EstimateCost(model: string, promptTokens: Option<nat>, completionTokens: Option<nat>): Option<real> {
    var price := PriceIn(PRICES, model);
    if price.None? || promptTokens.None? || completionTokens.None? then None
    else Some(Quantize(RawCost(price.value, promptTokens.value, completionTokens.value)))
  }

  /** A cost is reported exactly when both token counts are known and a listed name starts the model's. */
  lemma CostKnownIff(model: string, promptTokens: Option<nat>, completionTokens: Option<nat>)
    ensures EstimateCost(model, promptTokens, completionTokens).Some? <==>
            promptTokens.Some? && completionTokens.Some? && exists i :: 0 <= i < |PRICES| && PRICES[i].name <= model
  {
    PricesArePrefixFree();
    ShortcutIsRedundant(PRICES, model);
    if i :| 0 <= i < |PRICES| && PRICES[i].name <= model {
      ByPrefixFinds(PRICES, model, i);
    } else {
      ByPrefixMisses(PRICES, model);
    }
  }

  /** The cost in units of the eighth decimal is a whole number. */
  lemma CostIsWhole(p: ModelPrice, a: nat, b: nat)
    ensures RawCost(p, a, b) * 100000000.0 == (a * p.inputCents + b * p.outputCents) as real
  {
    var x, y := (a as real) * (p.inputCents as real), (b as real) * (p.outputCents as real);
    assert (a as real) * Dollars(p.inputCents) == x / 100.0;
    assert (b as real) * Dollars(p.outputCents) == y / 100.0;
    assert x == (a * p.inputCents) as real && y == (b * p.outputCents) as real;
  }

  /** Rounding to the column's eight decimals never changes a cost. */
  lemma RoundingIsExact(p: ModelPrice, a: nat, b: nat)
    ensures Quantize(RawCost(p, a, b)) == RawCost(p, a, b)
  {
    CostIsWhole(p, a, b);
    var whole := a * p.inputCents + b * p.outputCents;
    assert ((whole as real) + 0.5).Floor == whole;
  }

  /** So the recorded costs of two calls add up to the cost of their tokens taken together. */
  lemma CostIsAdditive(model: string, a: nat, b: nat, a': nat, b': nat)
    requires PriceIn(PRICES, model).Some?
    ensures EstimateCost(model, Some(a), Some(b)).value + EstimateCost(model, Some(a'), Some(b')).value
            == EstimateCost(model, Some(a + a'), Some(b + b')).value
  {
    var p := PriceIn(PRICES, model).value;
    RoundingIsExact(p, a, b);
    RoundingIsExact(p, a', b');
    RoundingIsExact(p, a + a', b + b');
    CostIsWhole(p, a, b);
    CostIsWhole(p, a', b');
    CostIsWhole(p, a + a', b + b');
    assert (a + a') * p.inputCents == a * p.inputCents + a' * p.inputCents;
    assert (b + b') * p.outputCents == b * p.outputCents + b' * p.outputCents;
  }

  /**
   The cost that is reported, in units of the eighth decimal of a dollar: the prompt tokens at the
   listed input price plus the completion tokens at the listed output price.
   */
  lemma CostIs(model: string, a: nat, b: nat, i: nat)
    requires i < |PRICES| && PRICES[i].name <= model
    ensures var cost := EstimateCost(model, Some(a), Some(b));
            cost.Some?
            && cost.value * 100000000.0 == (a * PRICES[i].price.inputCents + b * PRICES[i].price.outputCents) as real
  {
    PricesArePrefixFree();
    ShortcutIsRedundant(PRICES, model);
    ByPrefixFinds(PRICES, model, i);
    RoundingIsExact(PRICES[i].price, a, b);
    CostIsWhole(PRICES[i].price, a, b);
  }

  lemma CostOfMillion(model: string, i: nat)
    requires i < |PRICES| && PRICES[i].name <= model
    ensures EstimateCost(model, Some(1000000), Some(0)) == Some((PRICES[i].price.inputCents as real) / 100.0)
    ensures EstimateCost(model, Some(0), Some(1000000)) == Some((PRICES[i].price.outputCents as real) / 100.0)
  {
    CostIs(model, 1000000, 0, i);
    CostIs(model, 0, 1000000, i);
  }

  /** The list prices: what a million prompt or completion tokens of each model cost in dollars. */
  lemma ListPrices(model: string)
    ensures "gpt-4.1-mini" <= model ==> EstimateCost(model, Some(1000000), Some(0)) == Some(0.40)
                                        && EstimateCost(model, Some(0), Some(1000000)) == Some(1.60)
    ensures "gpt-4.1-nano" <= model ==> EstimateCost(model, Some(1000000), Some(0)) == Some(0.10)
                                        && EstimateCost(model, Some(0), Some(1000000)) == Some(0.40)
    ensures "gpt-4o-mini" <= model ==> EstimateCost(model, Some(1000000), Some(0)) == Some(0.15)
                                       && EstimateCost(model, Some(0), Some(1000000)) == Some(0.60)
    ensures "gpt-5-mini" <= model ==> EstimateCost(model, Some(1000000), Some(0)) == Some(0.25)
                                      && EstimateCost(model, Some(0), Some(1000000)) == Some(2.00)
    ensures "gpt-5-nano" <= model ==> EstimateCost(model, Some(1000000), Some(0)) == Some(0.05)
                                      && EstimateCost(model, Some(0), Some(1000000)) == Some(0.40)
  {
    if i: nat :| i < |PRICES| && PRICES[i].name <= model {
      CostOfMillion(model, i);
      forall j: nat | j < |PRICES| && PRICES[j].name <= model
        ensures j == i
      {
        PricesArePrefixFree();
        OnePrefixAtMost(PRICES, model, i, j);
      }
    }
    assert PRICES[0].name == "gpt-4.1-mini" && PRICES[1].name == "gpt-4.1-nano" && PRICES[2].name == "gpt-4o-mini";
    assert PRICES[3].name == "gpt-5-mini" && PRICES[4].name == "gpt-5-nano";
  }

  /** The token columns are 32-bit integers. */
  const MAX_TOKENS := 0x7FFF_FFFF

  lemma {:induction false} PricesAreBounded(table: seq<Entry>, model: string)
    requires forall k | 0 <= k < |table| :: table[k].price.inputCents <= 40 && table[k].price.outputCents <= 200
    ensures PriceIn(table, model).Some? ==>
              PriceIn(table, model).value.inputCents <= 40 && PriceIn(table, model).value.outputCents <= 200
    ensures ByPrefix(table, model).Some? ==>
              ByPrefix(table, model).value.inputCents <= 40 && ByPrefix(table, model).value.outputCents <= 200
  {
    if table != [] {
      PricesAreBounded(table[1..], model);
    }
  }

  lemma ProductBounded(x: nat, y: nat, m: nat)
    requires y <= m
    ensures x * y <= x * m
  {
  }

  /** In units of the eighth decimal, no cost reaches ten thousand dollars. */
  lemma WholeCostIsBounded(p: ModelPrice, a: nat, b: nat)
    requires p.inputCents <= 40 && p.outputCents <= 200 && a <= MAX_TOKENS && b <= MAX_TOKENS
    ensures a * p.inputCents + b * p.outputCents < 1000000000000
  {
    ProductBounded(a, p.inputCents, 40);
    ProductBounded(b, p.outputCents, 200);
  }

  lemma RawCostIsBounded(p: ModelPrice, a: nat, b: nat)
    requires a * p.inputCents + b * p.outputCents < 1000000000000
    ensures 0.0 <= RawCost(p, a, b) < 10000.0
  {
    var whole := a * p.inputCents + b * p.outputCents;
    CostIsWhole(p, a, b);
    assert (whole as real) < 1000000000000.0;
  }

  /** A cost of storable token counts fits the column: twelve digits, eight of them decimals. */
  lemma CostFitsColumn(model: string, a: nat, b: nat)
    requires PriceIn(PRICES, model).Some? && a <= MAX_TOKENS && b <= MAX_TOKENS
    ensures 0.0 <= EstimateCost(model, Some(a), Some(b)).value < 10000.0
  {
    PricesAreBounded(PRICES, model);
    var p := PriceIn(PRICES, model).value;
    RoundingIsExact(p, a, b);
    WholeCostIsBounded(p, a, b);
    RawCostIsBounded(p, a, b);
  }
}
