/** Cost arithmetic: token prices, the six-decimal spend column, and how far its running
    total can drift from the exact sum of the event costs. */
module Money {
  import opened Store

  // Rounding to a whole number, halves away from zero, as assignment to NUMERIC(12,6) does.
  function Round(x: real): (n: int)
    ensures -0.5 <= n as real - x <= 0.5
  {
    if x >= 0.0 then (x + 0.5).Floor else -((-x + 0.5).Floor)
  }

  lemma RoundWhole(k: int)
    ensures Round(k as real) == k
  {
    var n := Round(k as real);
    assert (n - k) as real == n as real - k as real;
  }

  /** A half goes away from zero. */
  lemma RoundHalf(k: nat)
    ensures Round(k as real + 0.5) == k + 1 && Round(-(k as real) - 0.5) == -(k + 1)
  {
    assert (k + 1) as real == k as real + 0.5 + 0.5;
  }

  // The spend column after adding a cost, in micro-dollars.
  function AddSpend(spent: int, cost: real): int {
    Round(spent as real + cost * 1000000.0)
  }

  predicate WholeMicros(cost: real) {
    (cost * 1000000.0).Floor as real == cost * 1000000.0
  }

  // A cost that has been through llm_cache.cost_usd NUMERIC(10,6).
  function CachedCost(cost: real): (c: real)
    ensures WholeMicros(c)
    ensures WholeMicros(cost) ==> c == cost
    ensures -0.5 <= c * 1000000.0 - cost * 1000000.0 <= 0.5
  {
    RoundWhole((cost * 1000000.0).Floor);
    var c := Round(cost * 1000000.0) as real / 1000000.0;
    assert c * 1000000.0 == Round(cost * 1000000.0) as real;
    c
  }

  function Total(log: seq<Event>): real {
    if log == [] then 0.0 else Total(log[..|log| - 1]) + CostOf(log[|log| - 1].payload)
  }

  // The spend column after committing the events of `log` one by one.
  function Spent(log: seq<Event>): int {
    if log == [] then 0 else AddSpend(Spent(log[..|log| - 1]), CostOf(log[|log| - 1].payload))
  }

  predicate AllWhole(log: seq<Event>) {
    forall i :: 0 <= i < |log| ==> WholeMicros(CostOf(log[i].payload))
  }

  lemma SpentAppend(log: seq<Event>, e: Event)
    ensures Spent(log + [e]) == AddSpend(Spent(log), CostOf(e.payload))
    ensures Total(log + [e]) == Total(log) + CostOf(e.payload)
  {
    assert (log + [e])[..|log|] == log;
  }

  /** After n events the column is within n half micro-dollars of the exact sum. */
  lemma {:induction false} SpendDrift(log: seq<Event>)
    ensures -(|log| as real) / 2.0 <= Spent(log) as real - Total(log) * 1000000.0 <= |log| as real / 2.0
  {
    if log != [] { SpendDrift(log[..|log| - 1]); }
  }

  /** With whole micro-dollar costs the column is exact. */
  lemma {:induction false} SpendExact(log: seq<Event>)
    requires AllWhole(log)
    ensures Spent(log) as real == Total(log) * 1000000.0
  {
    if log != [] {
      var pre, c := log[..|log| - 1], CostOf(log[|log| - 1].payload);
      SpendExact(pre);
      assert WholeMicros(c);
      var x := Spent(pre) as real + c * 1000000.0;
      var k := Spent(pre) + (c * 1000000.0).Floor;
      assert x == k as real;
      RoundWhole(k);
    }
  }

  // token_cost, prices in dollars per million tokens.
  function TokenCost(inTokens: int, outTokens: int, priceIn: real, priceOut: real): real {
    (inTokens as real * priceIn + outTokens as real * priceOut) / 1000000.0
  }

  /** A million input tokens cost the input price, a million output tokens the output price, and
      what both cost adds up. */
  lemma TokenCostOfEach(inTokens: int, outTokens: int, priceIn: real, priceOut: real)
    ensures TokenCost(1000000, 0, priceIn, priceOut) == priceIn && TokenCost(0, 1000000, priceIn, priceOut) == priceOut
    ensures TokenCost(inTokens, 0, priceIn, priceOut) * 1000000.0 == inTokens as real * priceIn
    ensures TokenCost(0, outTokens, priceIn, priceOut) * 1000000.0 == outTokens as real * priceOut
    ensures TokenCost(inTokens, outTokens, priceIn, priceOut)
              == TokenCost(inTokens, 0, priceIn, priceOut) + TokenCost(0, outTokens, priceIn, priceOut)
  {
    var i, o := inTokens as real * priceIn, outTokens as real * priceOut;
    assert (i + o) / 1000000.0 == i / 1000000.0 + o / 1000000.0;
  }

  lemma MillionthIsWhole(x: real, micros: int)
    requires x == micros as real / 1000000.0
    ensures WholeMicros(x)
  {
    assert x * 1000000.0 == micros as real;
  }

  /** Whole-dollar prices per million tokens give whole micro-dollar costs. */
  lemma TokenCostWhole(inTokens: int, outTokens: int, priceIn: int, priceOut: int)
    ensures WholeMicros(TokenCost(inTokens, outTokens, priceIn as real, priceOut as real))
  {
    ProductAsReal(inTokens, priceIn);
    ProductAsReal(outTokens, priceOut);
    MillionthIsWhole(TokenCost(inTokens, outTokens, priceIn as real, priceOut as real),
                     inTokens * priceIn + outTokens * priceOut);
  }

  lemma {:induction false} ProductAsReal(a: int, b: int)
    ensures a as real * b as real == (a * b) as real
    decreases if a < 0 then -a else a
  {
    if a > 0 {
      ProductAsReal(a - 1, b);
      assert (a - 1) * b == a * b - b;
      assert (a - 1) as real * b as real == a as real * b as real - b as real;
    } else if a < 0 {
      ProductAsReal(a + 1, b);
      assert (a + 1) * b == a * b + b;
      assert (a + 1) as real * b as real == a as real * b as real + b as real;
    }
  }
}
