/** Accounting of the token supply: the sum of all stored balances, how each
    entry point moves it, and how that relates to the `TOTAL` counter. */
module Supply {
  import opened Types
  import opened Ledger

  /** The sum of all stored balances. */
  ghost function Total(m: map<Address, uint64>): (t: int)
    ensures t >= 0
    decreases |m|
  {
    if m == map[] then 0
    else
      var k :| k in m;
      assert |m - {k}| < |m| by { assert (m - {k}).Keys == m.Keys - {k}; }
      m[k] + Total(m - {k})
  }

  /** The counter `TOTAL` equals the sum of the balances. */
  ghost predicate SupplyMatches(s: State) {
    Total(s.balances) == s.totalSupply
  }

  /** `Total` may be unfolded at any key, not only at the one it picks. */
  lemma {:induction false} TotalAt(m: map<Address, uint64>, k: Address)
    requires k in m
    ensures Total(m) == m[k] + Total(m - {k})
    decreases |m|
  {
    var j :| j in m && Total(m) == m[j] + Total(m - {j});
    if j != k {
      assert (m - {j}).Keys == m.Keys - {j};
      assert (m - {k}).Keys == m.Keys - {k};
      TotalAt(m - {j}, k);
      TotalAt(m - {k}, j);
      assert m - {j} - {k} == m - {k} - {j};
    }
  }

  /** Writing `v` at `k` changes the sum by the difference with what was stored. */
  lemma TotalUpdate(m: map<Address, uint64>, k: Address, v: uint64)
    ensures Total(m[k := v]) == Total(m) - (if k in m then m[k] else 0) + v
  {
    TotalAt(m[k := v], k);
    assert m[k := v] - {k} == m - {k};
    if k in m {
      TotalAt(m, k);
    } else {
      assert m - {k} == m;
    }
  }

  /** No balance exceeds the sum; two distinct balances together do not either. */
  lemma TotalBounds(m: map<Address, uint64>, a: Address, b: Address)
    ensures a in m ==> m[a] <= Total(m)
    ensures a != b && a in m && b in m ==> m[a] + m[b] <= Total(m)
  {
    if a in m {
      TotalAt(m, a);
      if b != a && b in m {
        TotalAt(m - {a}, b);
      }
    }
  }

  /** The balance the host reports is bounded by the sum of all balances. */
  lemma BalanceBelowTotal(s: State, a: Address)
    ensures BalanceOf(s, a) <= Total(s.balances)
  {
    TotalBounds(s.balances, a, a);
  }

  /** A transfer between two distinct addresses moves supply without creating any. */
  lemma TransferConservesTotal(s: State, ctx: Context, from: Address, to: Address, amount: uint64)
    requires from != to
    requires Transfer(s, ctx, from, to, amount).result.Ok?
    ensures var s' := Transfer(s, ctx, from, to, amount).state;
      Total(s'.balances) == Total(s.balances) && s'.totalSupply == s.totalSupply
  {
    var fb, tb := BalanceOf(s, from), BalanceOf(s, to);
    TotalUpdate(s.balances, from, fb - amount);
    TotalUpdate(s.balances[from := fb - amount], to, tb + amount);
  }

  /** Same for a transfer made with an allowance. */
  lemma TransferFromConservesTotal(s: State, ctx: Context, spender: Address, from: Address, to: Address,
                                   amount: uint64)
    requires from != to
    requires TransferFrom(s, ctx, spender, from, to, amount).result.Ok?
    ensures var s' := TransferFrom(s, ctx, spender, from, to, amount).state;
      Total(s'.balances) == Total(s.balances) && s'.totalSupply == s.totalSupply
  {
    var fb, tb := BalanceOf(s, from), BalanceOf(s, to);
    TotalUpdate(s.balances, from, fb - amount);
    TotalUpdate(s.balances[from := fb - amount], to, tb + amount);
  }

  /** A transfer to oneself succeeds and adds `amount` to the sum of the
      balances while the supply counter stays put: the balances no longer
      add up to the supply. */
  lemma SelfTransferInflates(s: State, ctx: Context, a: Address, amount: uint64)
    requires Transfer(s, ctx, a, a, amount).result.Ok?
    ensures var s' := Transfer(s, ctx, a, a, amount).state;
      && Total(s'.balances) == Total(s.balances) + amount
      && s'.totalSupply == s.totalSupply
      && (SupplyMatches(s) ==> !SupplyMatches(s'))
  {
    var b := BalanceOf(s, a);
    TotalUpdate(s.balances, a, b - amount);
    TotalUpdate(s.balances[a := b - amount], a, b + amount);
    assert s.balances[a := b - amount][a := b + amount] == s.balances[a := b + amount];
  }

  /** The same inflation through `transfer_from` with `from == to`. */
  lemma SelfTransferFromInflates(s: State, ctx: Context, spender: Address, a: Address, amount: uint64)
    requires TransferFrom(s, ctx, spender, a, a, amount).result.Ok?
    ensures var s' := TransferFrom(s, ctx, spender, a, a, amount).state;
      && Total(s'.balances) == Total(s.balances) + amount
      && s'.totalSupply == s.totalSupply
      && (SupplyMatches(s) ==> !SupplyMatches(s'))
  {
    var b := BalanceOf(s, a);
    TotalUpdate(s.balances, a, b - amount);
    TotalUpdate(s.balances[a := b - amount], a, b + amount);
    assert s.balances[a := b - amount][a := b + amount] == s.balances[a := b + amount];
  }

  /** Minting raises the sum of the balances and the counter by the same amount. */
  lemma MintAddsToTotal(s: State, ctx: Context, generator: Address, amount: uint64, hours: uint64)
    requires MintEnergyTokens(s, ctx, generator, amount, hours).result.Ok?
    ensures var s' := MintEnergyTokens(s, ctx, generator, amount, hours).state;
      && Total(s'.balances) == Total(s.balances) + amount
      && s'.totalSupply == s.totalSupply + amount
  {
    TotalUpdate(s.balances, generator, BalanceOf(s, generator) + amount);
  }

  /** Burning lowers the sum of the balances and the counter by the same amount. */
  lemma BurnRemovesFromTotal(s: State, ctx: Context, consumer: Address, tokenId: uint64, amount: uint64)
    requires BurnEnergyTokens(s, ctx, consumer, tokenId, amount).result.Ok?
    ensures var s' := BurnEnergyTokens(s, ctx, consumer, tokenId, amount).state;
      && Total(s'.balances) == Total(s.balances) - amount
      && s'.totalSupply == s.totalSupply - amount
  {
    TotalUpdate(s.balances, consumer, BalanceOf(s, consumer) - amount);
  }

  /** While the balances add up to the supply, a transfer between distinct
      addresses that passes the contract's checks never overflows the
      recipient's balance. */
  lemma DistinctTransferNeverOverflows(s: State, ctx: Context, from: Address, to: Address, amount: uint64)
    requires SupplyMatches(s)
    requires from != to && from in ctx.signers && 0 < amount <= BalanceOf(s, from)
    ensures Transfer(s, ctx, from, to, amount).result.Ok?
  {
    TotalBounds(s.balances, from, to);
  }

  /** While the balances add up to the supply, the decrement of the supply
      counter in `burn_energy_tokens` cannot underflow: a burn that passes the
      consumer's balance check and finds its generator succeeds exactly when
      the generator has produced at least `amount`, and otherwise aborts on
      the production subtraction alone. */
  lemma BurnSupplyNeverUnderflows(s: State, ctx: Context, consumer: Address, tokenId: uint64, amount: uint64)
    requires SupplyMatches(s)
    ensures var o := BurnEnergyTokens(s, ctx, consumer, tokenId, amount);
      o.result.Ok? <==>
        && consumer in ctx.signers
        && tokenId in s.tokens
        && ctx.now <= s.tokens[tokenId].expiryTimestamp
        && !s.tokens[tokenId].isConsumed
        && amount <= BalanceOf(s, consumer)
        && s.tokens[tokenId].generatorId in s.generators
        && amount <= s.generators[s.tokens[tokenId].generatorId].currentProduction
    ensures var o := BurnEnergyTokens(s, ctx, consumer, tokenId, amount);
      (&& consumer in ctx.signers && tokenId in s.tokens
       && ctx.now <= s.tokens[tokenId].expiryTimestamp && !s.tokens[tokenId].isConsumed
       && amount <= BalanceOf(s, consumer)
       && s.tokens[tokenId].generatorId in s.generators
       && s.generators[s.tokens[tokenId].generatorId].currentProduction < amount) ==>
        o == Outcome(s, Err(Panic(ArithmeticOverflow)))
  {
    BalanceBelowTotal(s, consumer);
  }
}
