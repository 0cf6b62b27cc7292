/** The reference solution of task 13: the fewest coins by bottom-up dynamic programming. */
module CoinChange {

  function Sum(s: seq<nat>): nat {
    if s == [] then 0 else Sum(s[..|s| - 1]) + s[|s| - 1]
  }

  // A choice of coins, each available any number of times, that makes exactly the amount.
  ghost predicate Pays(coins: seq<nat>, choice: seq<nat>, amount: nat) {
    (forall i :: 0 <= i < |choice| ==> choice[i] in coins) && Sum(choice) == amount
  }

  // v is the least size of a choice that pays a, or the sentinel when no choice does.
  ghost predicate IsBest(coins: seq<nat>, a: nat, v: nat, sentinel: nat) {
    && (v != sentinel ==> v <= a && exists choice :: Pays(coins, choice, a) && |choice| == v)
    && (forall choice :: Pays(coins, choice, a) ==> v != sentinel && v <= |choice|)
  }

  function Without(s: seq<nat>, k: nat): seq<nat>
    requires k < |s|
  {
    s[..k] + s[k + 1..]
  }

  lemma {:induction false} SumWithout(s: seq<nat>, k: nat)
    requires k < |s|
    ensures Sum(s) == Sum(Without(s, k)) + s[k]
  {
    var n := |s| - 1;
    if k == n {
      assert Without(s, k) == s[..n];
    } else {
      SumWithout(s[..n], k);
      var w := Without(s, k);
      assert w[..|w| - 1] == Without(s[..n], k) && w[|w| - 1] == s[n];
    }
  }

  // A choice that pays a positive amount holds a positive coin.
  lemma {:induction false} PositiveCoin(s: seq<nat>) returns (k: nat)
    requires Sum(s) > 0
    ensures k < |s| && 0 < s[k] <= Sum(s)
  {
    var n := |s| - 1;
    if s[n] > 0 { k := n; } else { k := PositiveCoin(s[..n]); }
  }

  lemma OneCoinMore(coins: seq<nat>, choice: seq<nat>, a: nat, c: nat)
    requires Pays(coins, choice, a) && c in coins
    ensures Pays(coins, choice + [c], a + c)
  {
    assert (choice + [c])[..|choice|] == choice;
  }

  // A choice for a positive amount, less one of its positive coins.
  lemma DropCoin(coins: seq<nat>, choice: seq<nat>, a: nat) returns (c: nat, rest: seq<nat>)
    requires Pays(coins, choice, a) && a > 0
    ensures c in coins && 0 < c <= a && Pays(coins, rest, a - c) && |rest| == |choice| - 1
  {
    var k := PositiveCoin(choice);
    SumWithout(choice, k);
    c, rest := choice[k], Without(choice, k);
    assert forall i :: 0 <= i < |rest| ==> rest[i] == choice[if i < k then i else i + 1];
  }

  // The entries below a are best.
  ghost predicate Solved(coins: seq<nat>, table: seq<nat>, a: nat, sentinel: nat) {
    a <= |table| && forall b :: 0 <= b < a ==> IsBest(coins, b, table[b], sentinel)
  }

  // v is the sentinel or the size of some choice that pays a.
  ghost predicate Attained(coins: seq<nat>, a: nat, v: nat, sentinel: nat) {
    v <= sentinel && (v != sentinel ==> v <= a && exists choice :: Pays(coins, choice, a) && |choice| == v)
  }

  // No one of the coins improves on v for amount a.
  predicate Settled(coins: seq<nat>, table: seq<nat>, a: nat, v: nat) {
    a <= |table| && forall i :: 0 <= i < |coins| && 0 < coins[i] <= a ==> v <= table[a - coins[i]] + 1
  }

  lemma Improves(coins: seq<nat>, table: seq<nat>, a: nat, c: nat, v: nat, sentinel: nat)
    requires Solved(coins, table, a, sentinel) && c in coins && 0 < c <= a < sentinel
    requires table[a - c] + 1 < v <= sentinel
    ensures Attained(coins, a, table[a - c] + 1, sentinel)
  {
    assert IsBest(coins, a - c, table[a - c], sentinel);
    var choice :| Pays(coins, choice, a - c) && |choice| == table[a - c];
    OneCoinMore(coins, choice, a - c, c);
  }

  /** An attained entry that no single coin improves is best, given that all smaller ones are. */
  lemma Unimprovable(coins: seq<nat>, table: seq<nat>, a: nat, v: nat, sentinel: nat)
    requires 0 < a < |table| && a < sentinel && Solved(coins, table, a, sentinel)
    requires Attained(coins, a, v, sentinel) && Settled(coins, table, a, v)
    ensures Solved(coins, table[a := v], a + 1, sentinel)
  {
    forall choice | Pays(coins, choice, a) ensures v != sentinel && v <= |choice| {
      var c, rest := DropCoin(coins, choice, a);
      assert IsBest(coins, a - c, table[a - c], sentinel);
    }
  }

  // The inner loop: entry a from the smaller ones.
  method FillEntry(coins: seq<nat>, best: array<nat>, a: nat, ghost sentinel: nat)
    requires 0 < a < best.Length && best.Length == sentinel && best[a] == sentinel
    requires Solved(coins, best[..], a, sentinel)
    modifies best
    ensures best[..] == old(best[..])[a := best[a]]
    ensures Solved(coins, best[..], a + 1, sentinel)
  {
    ghost var table := best[..];
    for i := 0 to |coins|
      invariant best[..] == table[a := best[a]]
      invariant Attained(coins, a, best[a], sentinel)
      invariant Settled(coins[..i], table, a, best[a])
    {
      var c := coins[i];
      assert coins[..i + 1] == coins[..i] + [c];
      if c <= a && best[a - c] + 1 < best[a] {
        Improves(coins, table, a, c, best[a], sentinel);
        best[a] := best[a - c] + 1;
      }
    }
    assert coins[..|coins|] == coins;
    Unimprovable(coins, table, a, best[a], sentinel);
  }

  /** min_coins: the least number of coins that make exactly the amount, -1 when none do. The
      sentinel amount + 1 is never a real answer, because every best entry a is at most a. */
  method MinCoins(coins: seq<nat>, amount: nat) returns (r: int)
    ensures r == -1 <==> forall choice :: !Pays(coins, choice, amount)
    ensures r != -1 ==> exists choice :: Pays(coins, choice, amount) && |choice| == r
    ensures r != -1 ==> forall choice :: Pays(coins, choice, amount) ==> r <= |choice|
  {
    var inf := amount + 1;
    var best := new nat[amount + 1](i => if i == 0 then 0 else inf);
    assert Pays(coins, [], 0);
    for a := 1 to amount + 1
      invariant Solved(coins, best[..], a, inf)
      invariant forall b :: a <= b <= amount ==> best[..][b] == inf
    {
      FillEntry(coins, best, a, inf);
    }
    assert IsBest(coins, amount, best[..][amount], inf);
    r := if best[amount] != inf then best[amount] else -1;
  }
}
