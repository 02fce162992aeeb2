/** The contract's storage as one value, and every entry point as a function
    from the storage before an invocation to the storage after it and the
    invocation's result. An invocation that aborts (a contract error or a
    panic) leaves the storage as it was: the host discards its writes. */
module Ledger {
  import opened Types

  /** What the host supplies to an invocation: the ledger timestamp and the
      addresses whose authorisation the invocation carries. */
  datatype Context = Context(now: uint64, signers: set<Address>)

  /** The contract's storage entries. Absent map keys are absent entries;
      `totalSupply` is the `TOTAL` entry, read everywhere as 0 when absent. */
  datatype State = State(
    admin: Option<Address>,
    metadata: Option<TokenMetadata>,
    totalSupply: uint64,
    balances: map<Address, uint64>,
    allowances: map<(Address, Address), uint64>,
    generators: map<Address, EnergyGenerator>,
    tokens: map<uint64, EnergyToken>)

  /** The storage of a freshly deployed contract. */
  function Empty(): State {
    State(None, None, 0, map[], map[], map[], map[])
  }

  /** The storage after an invocation, and what the invocation returned. */
  datatype Outcome<T> = Outcome(state: State, result: Result<T>)

  function Abort<T>(s: State, f: Fault): Outcome<T> {
    Outcome(s, Err(f))
  }

  /** `balance_of`: the stored balance, 0 for an address never written. */
  function BalanceOf(s: State, a: Address): uint64 {
    if a in s.balances then s.balances[a] else 0
  }

  /** `allowance`: what `spender` may still move out of `owner`'s balance. */
  function AllowanceOf(s: State, owner: Address, spender: Address): uint64 {
    if (owner, spender) in s.allowances then s.allowances[(owner, spender)] else 0
  }

  /** `get_metadata`: panics (`unwrap`) before `initialize`. */
  function GetMetadata(s: State): (r: Result<TokenMetadata>)
    ensures r.Ok? <==> s.metadata.Some?
    ensures r.Ok? ==> r.value == s.metadata.value
    ensures r.Err? ==> r.fault == Panic(MetadataUnset)
  {
    if s.metadata.Some? then Ok(s.metadata.value) else Err(Panic(MetadataUnset))
  }

  /** `get_generator`: the registered record or the GeneratorNotFound error. */
  function GetGenerator(s: State, generator: Address): (r: Result<EnergyGenerator>)
    ensures r.Ok? <==> generator in s.generators
    ensures r.Ok? ==> r.value == s.generators[generator]
    ensures r.Err? ==> r.fault == ContractError(GeneratorNotFound)
  {
    if generator in s.generators then Ok(s.generators[generator])
    else Err(ContractError(GeneratorNotFound))
  }

  /** `get_energy_token`: the stored record or the TokenNotFound error. */
  function GetEnergyToken(s: State, tokenId: uint64): (r: Result<EnergyToken>)
    ensures r.Ok? <==> tokenId in s.tokens
    ensures r.Ok? ==> r.value == s.tokens[tokenId]
    ensures r.Err? ==> r.fault == ContractError(TokenNotFound)
  {
    if tokenId in s.tokens then Ok(s.tokens[tokenId]) else Err(ContractError(TokenNotFound))
  }

  /** `initialize`: only while no admin is stored; stores the admin, the
      metadata (with a metadata supply of 0) and a total supply of 0. */
  function Initialize(s: State, ctx: Context, admin: Address, name: string, symbol: string,
                      decimals: uint32): (o: Outcome<()>)
    ensures o.result.Err? ==> o.state == s
    ensures o.result.Ok? <==> s.admin.None? && admin in ctx.signers
    ensures s.admin.Some? ==> o.result == Err(ContractError(NotAuthorized))
    ensures s.admin.None? && admin !in ctx.signers ==> o.result == Err(Panic(AuthMissing(admin)))
    ensures o.result.Ok? ==>
      && o.state.admin == Some(admin)
      && o.state.metadata == Some(TokenMetadata(name, symbol, decimals, 0))
      && o.state.totalSupply == 0
      && o.state.(admin := s.admin, metadata := s.metadata, totalSupply := s.totalSupply) == s
  {
    if s.admin.Some? then Abort(s, ContractError(NotAuthorized))
    else if admin !in ctx.signers then Abort(s, Panic(AuthMissing(admin)))
    else
      var metadata := TokenMetadata(name, symbol, decimals, 0);
      Outcome(s.(admin := Some(admin), metadata := Some(metadata), totalSupply := 0), Ok(()))
  }

  /** The admin guard of the administrative entry points: `expect` on the
      stored admin, then `require_auth` on it. */
  function AdminCheck(s: State, ctx: Context): (f: Option<Fault>)
    ensures f.None? <==> s.admin.Some? && s.admin.value in ctx.signers
  {
    if s.admin.None? then Some(Panic(AdminUnset))
    else if s.admin.value !in ctx.signers then Some(Panic(AuthMissing(s.admin.value)))
    else None
  }

  /** `register_generator`: admin only; a zero capacity is InvalidAmount;
      otherwise (re)writes the generator's record as active, with production
      0 and the ledger time as registration date. */
  function RegisterGenerator(s: State, ctx: Context, generator: Address, capacityKw: uint64): (o: Outcome<()>)
    ensures o.result.Err? ==> o.state == s
    ensures o.result.Ok? <==> AdminCheck(s, ctx).None? && capacityKw != 0
    ensures AdminCheck(s, ctx).Some? ==> o.result == Err(AdminCheck(s, ctx).value)
    ensures AdminCheck(s, ctx).None? && capacityKw == 0 ==> o.result == Err(ContractError(InvalidAmount))
    ensures o.result.Ok? ==>
      && generator in o.state.generators
      && var g := o.state.generators[generator];
      && g.address == generator && g.capacityKw == capacityKw && g.currentProduction == 0
      && g.isActive && g.registrationDate == ctx.now
    ensures o.result.Ok? ==>
      && o.state.generators - {generator} == s.generators - {generator}
      && o.state.(generators := s.generators) == s
  {
    var denied := AdminCheck(s, ctx);
    if denied.Some? then Abort(s, denied.value)
    else if capacityKw == 0 then Abort(s, ContractError(InvalidAmount))
    else
      var record := EnergyGenerator(generator, capacityKw, 0, true, ctx.now);
      Outcome(s.(generators := s.generators[generator := record]), Ok(()))
  }

  /** `mint_energy_tokens`: the generator signs, must be registered and
      active, and may not produce beyond its capacity. The new token's id is
      the ledger time, so it replaces any token minted at the same time. */
  function MintEnergyTokens(s: State, ctx: Context, generator: Address, energyAmountKwh: uint64,
                            expiryHours: uint64): (o: Outcome<uint64>)
    ensures o.result.Err? ==> o.state == s
    ensures o.result.Ok? <==>
      && generator in ctx.signers
      && generator in s.generators
      && s.generators[generator].isActive
      && s.generators[generator].currentProduction + energyAmountKwh <= s.generators[generator].capacityKw
      && ctx.now + 3600 * expiryHours <= U64_MAX
      && BalanceOf(s, generator) + energyAmountKwh <= U64_MAX
      && s.totalSupply + energyAmountKwh <= U64_MAX
    ensures generator !in ctx.signers ==> o.result == Err(Panic(AuthMissing(generator)))
    ensures generator in ctx.signers && generator !in s.generators ==>
      o.result == Err(Panic(GeneratorUnregistered))
    ensures generator in ctx.signers && generator in s.generators && !s.generators[generator].isActive ==>
      o.result == Err(ContractError(GeneratorInactive))
    ensures (&& generator in ctx.signers && generator in s.generators && s.generators[generator].isActive
             && s.generators[generator].capacityKw < s.generators[generator].currentProduction + energyAmountKwh
             && s.generators[generator].currentProduction + energyAmountKwh <= U64_MAX) ==>
      o.result == Err(ContractError(InsufficientCapacity))
    ensures o.result.Ok? ==>
      && o.result.value == ctx.now
      && o.state.tokens == s.tokens[ctx.now := EnergyToken(ctx.now, generator, energyAmountKwh, ctx.now,
                                                           ctx.now + 3600 * expiryHours, false)]
    ensures o.result.Ok? ==>
      && generator in o.state.generators
      && o.state.generators - {generator} == s.generators - {generator}
      && var g, g' := s.generators[generator], o.state.generators[generator];
      && g' == g.(currentProduction := g.currentProduction + energyAmountKwh)
      && g'.currentProduction <= g'.capacityKw
    ensures o.result.Ok? ==>
      && BalanceOf(o.state, generator) == BalanceOf(s, generator) + energyAmountKwh
      && (forall a :: a != generator ==> BalanceOf(o.state, a) == BalanceOf(s, a))
      && o.state.totalSupply == s.totalSupply + energyAmountKwh
    ensures o.result.Ok? ==>
      o.state.admin == s.admin && o.state.metadata == s.metadata && o.state.allowances == s.allowances
  {
    if generator !in ctx.signers then Abort(s, Panic(AuthMissing(generator)))
    else if generator !in s.generators then Abort(s, Panic(GeneratorUnregistered))
    else
      var g := s.generators[generator];
      if !g.isActive then Abort(s, ContractError(GeneratorInactive))
      else if g.currentProduction + energyAmountKwh > U64_MAX then Abort(s, Panic(ArithmeticOverflow))
      else if g.currentProduction + energyAmountKwh > g.capacityKw then
        Abort(s, ContractError(InsufficientCapacity))
      else if expiryHours * 3600 > U64_MAX || ctx.now + expiryHours * 3600 > U64_MAX then
        Abort(s, Panic(ArithmeticOverflow))
      else if BalanceOf(s, generator) + energyAmountKwh > U64_MAX then Abort(s, Panic(ArithmeticOverflow))
      else if s.totalSupply + energyAmountKwh > U64_MAX then Abort(s, Panic(ArithmeticOverflow))
      else
        var tokenId := ctx.now;
        var token := EnergyToken(tokenId, generator, energyAmountKwh, ctx.now, ctx.now + expiryHours * 3600, false);
        var produced := g.(currentProduction := g.currentProduction + energyAmountKwh);
        Outcome(s.(generators := s.generators[generator := produced],
                   tokens := s.tokens[tokenId := token],
                   balances := s.balances[generator := BalanceOf(s, generator) + energyAmountKwh],
                   totalSupply := s.totalSupply + energyAmountKwh),
                Ok(tokenId))
  }

  /** `burn_energy_tokens`: the consumer signs; the token must exist, be
      unexpired and unconsumed, and the consumer must hold `amount`. Nothing
      ties `amount` to the token's `amountKwh` or the consumer to the token's
      generator; the generator's production drops by `amount` and must not
      underflow. */
  function BurnEnergyTokens(s: State, ctx: Context, consumer: Address, tokenId: uint64, amount: uint64): (o: Outcome<()>)
    ensures o.result.Err? ==> o.state == s
    ensures o.result.Ok? <==>
      && consumer in ctx.signers
      && tokenId in s.tokens
      && ctx.now <= s.tokens[tokenId].expiryTimestamp
      && !s.tokens[tokenId].isConsumed
      && amount <= BalanceOf(s, consumer)
      && s.tokens[tokenId].generatorId in s.generators
      && amount <= s.generators[s.tokens[tokenId].generatorId].currentProduction
      && amount <= s.totalSupply
    ensures consumer in ctx.signers && tokenId !in s.tokens ==> o.result == Err(Panic(TokenUnknown))
    ensures consumer in ctx.signers && tokenId in s.tokens && ctx.now > s.tokens[tokenId].expiryTimestamp ==>
      o.result == Err(ContractError(TokenNotFound))
    ensures (&& consumer in ctx.signers && tokenId in s.tokens && ctx.now <= s.tokens[tokenId].expiryTimestamp
             && s.tokens[tokenId].isConsumed) ==>
      o.result == Err(ContractError(AlreadyBurned))
    ensures (&& consumer in ctx.signers && tokenId in s.tokens && ctx.now <= s.tokens[tokenId].expiryTimestamp
             && !s.tokens[tokenId].isConsumed && BalanceOf(s, consumer) < amount) ==>
      o.result == Err(ContractError(InsufficientBalance))
    ensures o.result.Ok? ==>
      && tokenId in o.state.tokens
      && o.state.tokens[tokenId] == s.tokens[tokenId].(isConsumed := true)
      && o.state.tokens - {tokenId} == s.tokens - {tokenId}
    ensures o.result.Ok? ==>
      && var gid := s.tokens[tokenId].generatorId;
      && gid in o.state.generators
      && o.state.generators[gid].currentProduction == s.generators[gid].currentProduction - amount
      && o.state.generators[gid].(currentProduction := s.generators[gid].currentProduction) == s.generators[gid]
      && o.state.generators - {gid} == s.generators - {gid}
    ensures o.result.Ok? ==>
      && BalanceOf(o.state, consumer) == BalanceOf(s, consumer) - amount
      && (forall a :: a != consumer ==> BalanceOf(o.state, a) == BalanceOf(s, a))
      && o.state.totalSupply == s.totalSupply - amount
    ensures o.result.Ok? ==>
      o.state.admin == s.admin && o.state.metadata == s.metadata && o.state.allowances == s.allowances
  {
    if consumer !in ctx.signers then Abort(s, Panic(AuthMissing(consumer)))
    else if tokenId !in s.tokens then Abort(s, Panic(TokenUnknown))
    else
      var token := s.tokens[tokenId];
      if ctx.now > token.expiryTimestamp then Abort(s, ContractError(TokenNotFound))
      else if token.isConsumed then Abort(s, ContractError(AlreadyBurned))
      else if BalanceOf(s, consumer) < amount then Abort(s, ContractError(InsufficientBalance))
      else if token.generatorId !in s.generators then Abort(s, Panic(GeneratorUnregistered))
      else
        var g := s.generators[token.generatorId];
        if g.currentProduction < amount then Abort(s, Panic(ArithmeticOverflow))
        else if s.totalSupply < amount then Abort(s, Panic(ArithmeticOverflow))
        else
          Outcome(s.(tokens := s.tokens[tokenId := token.(isConsumed := true)],
                     balances := s.balances[consumer := BalanceOf(s, consumer) - amount],
                     generators := s.generators[token.generatorId := g.(currentProduction := g.currentProduction - amount)],
                     totalSupply := s.totalSupply - amount),
                  Ok(()))
  }

  /** `transfer`: `from` signs; a zero amount is InvalidAmount and `from` must
      hold `amount`. Both balances are read before either is written, so when
      `from == to` the second write wins and the balance grows by `amount`. */
  function Transfer(s: State, ctx: Context, from: Address, to: Address, amount: uint64): (o: Outcome<()>)
    ensures o.result.Err? ==> o.state == s
    ensures o.result.Ok? <==>
      from in ctx.signers && 0 < amount <= BalanceOf(s, from) && BalanceOf(s, to) + amount <= U64_MAX
    ensures from !in ctx.signers ==> o.result == Err(Panic(AuthMissing(from)))
    ensures from in ctx.signers && amount == 0 ==> o.result == Err(ContractError(InvalidAmount))
    ensures from in ctx.signers && 0 < amount && BalanceOf(s, from) < amount ==>
      o.result == Err(ContractError(InsufficientBalance))
    ensures o.result.Ok? && from != to ==>
      && BalanceOf(o.state, from) == BalanceOf(s, from) - amount
      && BalanceOf(o.state, to) == BalanceOf(s, to) + amount
    ensures o.result.Ok? && from == to ==> BalanceOf(o.state, from) == BalanceOf(s, from) + amount
    ensures o.result.Ok? ==> forall a :: a != from && a != to ==> BalanceOf(o.state, a) == BalanceOf(s, a)
    ensures o.result.Ok? ==> o.state.(balances := s.balances) == s
  {
    if from !in ctx.signers then Abort(s, Panic(AuthMissing(from)))
    else if amount == 0 then Abort(s, ContractError(InvalidAmount))
    else
      var fromBalance := BalanceOf(s, from);
      if fromBalance < amount then Abort(s, ContractError(InsufficientBalance))
      else
        var toBalance := BalanceOf(s, to);
        if toBalance + amount > U64_MAX then Abort(s, Panic(ArithmeticOverflow))
        else
          Outcome(s.(balances := s.balances[from := fromBalance - amount][to := toBalance + amount]), Ok(()))
  }

  /** `approve`: `owner` signs; the allowance is overwritten, not added to. */
  function Approve(s: State, ctx: Context, owner: Address, spender: Address, amount: uint64): (o: Outcome<()>)
    ensures o.result.Err? ==> o.state == s
    ensures o.result.Ok? <==> owner in ctx.signers
    ensures owner !in ctx.signers ==> o.result == Err(Panic(AuthMissing(owner)))
    ensures o.result.Ok? ==>
      && AllowanceOf(o.state, owner, spender) == amount
      && (forall o', s' :: (o', s') != (owner, spender) ==> AllowanceOf(o.state, o', s') == AllowanceOf(s, o', s'))
      && o.state.(allowances := s.allowances) == s
  {
    if owner !in ctx.signers then Abort(s, Panic(AuthMissing(owner)))
    else Outcome(s.(allowances := s.allowances[(owner, spender) := amount]), Ok(()))
  }

  /** `transfer_from`: `spender` signs; checks a zero amount, then the
      allowance `from` gave `spender`, then `from`'s balance; moves `amount`
      like `transfer` (with the same self-transfer behaviour) and lowers the
      allowance by `amount`. */
  function TransferFrom(s: State, ctx: Context, spender: Address, from: Address, to: Address, amount: uint64): (o: Outcome<()>)
    ensures o.result.Err? ==> o.state == s
    ensures o.result.Ok? <==>
      && spender in ctx.signers
      && 0 < amount <= AllowanceOf(s, from, spender)
      && amount <= BalanceOf(s, from)
      && BalanceOf(s, to) + amount <= U64_MAX
    ensures spender !in ctx.signers ==> o.result == Err(Panic(AuthMissing(spender)))
    ensures spender in ctx.signers && amount == 0 ==> o.result == Err(ContractError(InvalidAmount))
    ensures spender in ctx.signers && 0 < amount && AllowanceOf(s, from, spender) < amount ==>
      o.result == Err(ContractError(InsufficientAllowance))
    ensures spender in ctx.signers && 0 < amount <= AllowanceOf(s, from, spender) && BalanceOf(s, from) < amount ==>
      o.result == Err(ContractError(InsufficientBalance))
    ensures o.result.Ok? && from != to ==>
      && BalanceOf(o.state, from) == BalanceOf(s, from) - amount
      && BalanceOf(o.state, to) == BalanceOf(s, to) + amount
    ensures o.result.Ok? && from == to ==> BalanceOf(o.state, from) == BalanceOf(s, from) + amount
    ensures o.result.Ok? ==> forall a :: a != from && a != to ==> BalanceOf(o.state, a) == BalanceOf(s, a)
    ensures o.result.Ok? ==>
      && AllowanceOf(o.state, from, spender) == AllowanceOf(s, from, spender) - amount
      && (forall o', s' :: (o', s') != (from, spender) ==> AllowanceOf(o.state, o', s') == AllowanceOf(s, o', s'))
    ensures o.result.Ok? ==> o.state.(balances := s.balances, allowances := s.allowances) == s
  {
    if spender !in ctx.signers then Abort(s, Panic(AuthMissing(spender)))
    else if amount == 0 then Abort(s, ContractError(InvalidAmount))
    else
      var allowance := AllowanceOf(s, from, spender);
      if allowance < amount then Abort(s, ContractError(InsufficientAllowance))
      else
        var fromBalance := BalanceOf(s, from);
        if fromBalance < amount then Abort(s, ContractError(InsufficientBalance))
        else
          var toBalance := BalanceOf(s, to);
          if toBalance + amount > U64_MAX then Abort(s, Panic(ArithmeticOverflow))
          else
            Outcome(s.(balances := s.balances[from := fromBalance - amount][to := toBalance + amount],
                       allowances := s.allowances[(from, spender) := allowance - amount]),
                    Ok(()))
  }

  /** `set_generator_status`: admin only; the generator must be registered
      (a panic otherwise); only its `isActive` changes. */
  function SetGeneratorStatus(s: State, ctx: Context, generator: Address, isActive: bool): (o: Outcome<()>)
    ensures o.result.Err? ==> o.state == s
    ensures o.result.Ok? <==> AdminCheck(s, ctx).None? && generator in s.generators
    ensures AdminCheck(s, ctx).Some? ==> o.result == Err(AdminCheck(s, ctx).value)
    ensures AdminCheck(s, ctx).None? && generator !in s.generators ==> o.result == Err(Panic(GeneratorUnregistered))
    ensures o.result.Ok? ==>
      && generator in o.state.generators
      && o.state.generators[generator] == s.generators[generator].(isActive := isActive)
      && o.state.generators - {generator} == s.generators - {generator}
      && o.state.(generators := s.generators) == s
  {
    var denied := AdminCheck(s, ctx);
    if denied.Some? then Abort(s, denied.value)
    else if generator !in s.generators then Abort(s, Panic(GeneratorUnregistered))
    else
      var g := s.generators[generator];
      Outcome(s.(generators := s.generators[generator := g.(isActive := isActive)]), Ok(()))
  }

  /** `update_generator_capacity`: admin only; the generator must be
      registered; only its capacity changes, with no check against its
      current production (nor against zero). */
  function UpdateGeneratorCapacity(s: State, ctx: Context, generator: Address, newCapacityKw: uint64): (o: Outcome<()>)
    ensures o.result.Err? ==> o.state == s
    ensures o.result.Ok? <==> AdminCheck(s, ctx).None? && generator in s.generators
    ensures AdminCheck(s, ctx).Some? ==> o.result == Err(AdminCheck(s, ctx).value)
    ensures AdminCheck(s, ctx).None? && generator !in s.generators ==> o.result == Err(Panic(GeneratorUnregistered))
    ensures o.result.Ok? ==>
      && generator in o.state.generators
      && o.state.generators[generator] == s.generators[generator].(capacityKw := newCapacityKw)
      && o.state.generators - {generator} == s.generators - {generator}
      && o.state.(generators := s.generators) == s
  {
    var denied := AdminCheck(s, ctx);
    if denied.Some? then Abort(s, denied.value)
    else if generator !in s.generators then Abort(s, Panic(GeneratorUnregistered))
    else
      var g := s.generators[generator];
      Outcome(s.(generators := s.generators[generator := g.(capacityKw := newCapacityKw)]), Ok(()))
  }
}
