/** Properties relating two invocations of the contract: what a first call
    makes a second call do. */
module Properties {
  import opened Types
  import opened Ledger
  import Trace

  /** `initialize` succeeds at most once: after a successful call every later
      call fails with NotAuthorized, whoever signs it. */
  lemma InitializeOnlyOnce(s: State, ctx: Context, admin: Address, name: string, symbol: string, decimals: uint32,
                           ctx': Context, admin': Address, name': string, symbol': string, decimals': uint32)
    requires Initialize(s, ctx, admin, name, symbol, decimals).result.Ok?
    ensures var s' := Initialize(s, ctx, admin, name, symbol, decimals).state;
      && s'.admin == Some(admin)
      && s'.totalSupply == 0
      && Initialize(s', ctx', admin', name', symbol', decimals') == Outcome(s', Err(ContractError(NotAuthorized)))
  {
  }

  /** A token burns at most once: right after a successful burn, burning the
      same id again fails, with AlreadyBurned whenever the consumer signs and
      the token has not expired. */
  lemma BurnAtMostOnce(s: State, ctx: Context, consumer: Address, tokenId: uint64, amount: uint64,
                       ctx': Context, consumer': Address, amount': uint64)
    requires BurnEnergyTokens(s, ctx, consumer, tokenId, amount).result.Ok?
    ensures var s' := BurnEnergyTokens(s, ctx, consumer, tokenId, amount).state;
      var again := BurnEnergyTokens(s', ctx', consumer', tokenId, amount');
      && again.result.Err?
      && again.state == s'
      && (consumer' in ctx'.signers && ctx'.now <= s.tokens[tokenId].expiryTimestamp ==>
            again.result.fault == ContractError(AlreadyBurned))
  {
  }

  /** Token ids are ledger timestamps: two mints at the same time return the
      same id, and the second record replaces the first. */
  lemma SameTimeMintsCollide(s: State, ctx: Context, generator: Address, amount: uint64, hours: uint64,
                             ctx': Context, generator': Address, amount': uint64, hours': uint64)
    requires ctx'.now == ctx.now
    requires MintEnergyTokens(s, ctx, generator, amount, hours).result.Ok?
    requires MintEnergyTokens(MintEnergyTokens(s, ctx, generator, amount, hours).state,
                              ctx', generator', amount', hours').result.Ok?
    ensures var first := MintEnergyTokens(s, ctx, generator, amount, hours);
      var second := MintEnergyTokens(first.state, ctx', generator', amount', hours');
      && first.result.value == second.result.value
      && second.state.tokens[ctx.now].generatorId == generator'
      && second.state.tokens[ctx.now].amountKwh == amount'
      && second.state.tokens.Keys == first.state.tokens.Keys
  {
  }

  /** Because of that collision a consumed token can be revived: a mint at
      the timestamp equal to a burned token's id stores an unconsumed record
      under that id, which can then be burned again. */
  lemma CollisionRevivesBurnedToken(s: State, ctx: Context, generator: Address, amount: uint64, hours: uint64)
    requires ctx.now in s.tokens && s.tokens[ctx.now].isConsumed
    requires MintEnergyTokens(s, ctx, generator, amount, hours).result.Ok?
    ensures var s' := MintEnergyTokens(s, ctx, generator, amount, hours).state;
      && !s'.tokens[ctx.now].isConsumed
      && BurnEnergyTokens(s', ctx, generator, ctx.now, amount).result.Ok?
  {
  }

  /** `update_generator_capacity` does not check the new capacity against the
      generator's production: an admin can leave a generator producing more
      than its capacity. */
  lemma CapacityUpdateCanBreakBound(s: State, ctx: Context, generator: Address, newCapacityKw: uint64)
    requires AdminCheck(s, ctx).None?
    requires generator in s.generators
    requires newCapacityKw < s.generators[generator].currentProduction
    ensures var o := UpdateGeneratorCapacity(s, ctx, generator, newCapacityKw);
      && o.result.Ok?
      && !Trace.ProductionWithinCapacity(o.state)
  {
  }

  /** `burn_energy_tokens` subtracts `amount` from the production of the
      token's generator without relating it to the token's own amount: when
      the consumer's balance allows more than the generator has produced, the
      subtraction underflows and the invocation aborts. */
  lemma BurnBeyondProductionAborts(s: State, ctx: Context, consumer: Address, tokenId: uint64, amount: uint64)
    requires consumer in ctx.signers && tokenId in s.tokens
    requires ctx.now <= s.tokens[tokenId].expiryTimestamp && !s.tokens[tokenId].isConsumed
    requires amount <= BalanceOf(s, consumer)
    requires s.tokens[tokenId].generatorId in s.generators
    requires s.generators[s.tokens[tokenId].generatorId].currentProduction < amount
    ensures BurnEnergyTokens(s, ctx, consumer, tokenId, amount) == Outcome(s, Err(Panic(ArithmeticOverflow)))
  {
  }
}
