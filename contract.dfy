/** The deployed STRGRID contract: an object whose fields are the storage
    entries and whose methods are the entry points. Each method reads the
    entries it needs, runs its checks in the order the contract does, and only
    then writes; its postcondition says that the new storage and the result
    are those of the matching function in `Ledger`. */
module Contract {
  import opened Types
  import Ledger

  class StrgridContract {
    var admin: Option<Address>
    var metadata: Option<TokenMetadata>
    var totalSupply: uint64
    var balances: map<Address, uint64>
    var allowances: map<(Address, Address), uint64>
    var generators: map<Address, EnergyGenerator>
    var tokens: map<uint64, EnergyToken>

    /** The storage held by this object, as a value. */
    function State(): Ledger.State
      reads this
    {
      Ledger.State(admin, metadata, totalSupply, balances, allowances, generators, tokens)
    }

    /** A freshly deployed contract: no entries at all. */
    constructor ()
      ensures State() == Ledger.Empty()
    {
      admin, metadata, totalSupply := None, None, 0;
      balances, allowances, generators, tokens := map[], map[], map[], map[];
    }

    method Initialize(ctx: Ledger.Context, newAdmin: Address, name: string, symbol: string, decimals: uint32)
      returns (r: Result<()>)
      modifies this
      ensures Ledger.Outcome(State(), r) == Ledger.Initialize(old(State()), ctx, newAdmin, name, symbol, decimals)
    {
      if admin.Some? {
        return Err(ContractError(NotAuthorized));
      }
      if newAdmin !in ctx.signers {
        return Err(Panic(AuthMissing(newAdmin)));
      }
      admin := Some(newAdmin);
      metadata := Some(TokenMetadata(name, symbol, decimals, 0));
      totalSupply := 0;
      r := Ok(());
    }

    /** The admin guard shared by the administrative entry points. */
    method RequireAdmin(ctx: Ledger.Context) returns (denied: Option<Fault>)
      ensures denied == Ledger.AdminCheck(State(), ctx)
      ensures denied.None? ==> admin.Some? && admin.value in ctx.signers
    {
      if admin.None? {
        return Some(Panic(AdminUnset));
      }
      if admin.value !in ctx.signers {
        return Some(Panic(AuthMissing(admin.value)));
      }
      denied := None;
    }

    method RegisterGenerator(ctx: Ledger.Context, generator: Address, capacityKw: uint64) returns (r: Result<()>)
      modifies this
      ensures Ledger.Outcome(State(), r) == Ledger.RegisterGenerator(old(State()), ctx, generator, capacityKw)
    {
      var denied := RequireAdmin(ctx);
      if denied.Some? {
        return Err(denied.value);
      }
      if capacityKw == 0 {
        return Err(ContractError(InvalidAmount));
      }
      var energyGenerator := EnergyGenerator(generator, capacityKw, 0, true, ctx.now);
      generators := generators[generator := energyGenerator];
      r := Ok(());
    }

    method MintEnergyTokens(ctx: Ledger.Context, generator: Address, energyAmountKwh: uint64, expiryHours: uint64)
      returns (r: Result<uint64>)
      modifies this
      ensures Ledger.Outcome(State(), r)
           == Ledger.MintEnergyTokens(old(State()), ctx, generator, energyAmountKwh, expiryHours)
    {
      if generator !in ctx.signers {
        return Err(Panic(AuthMissing(generator)));
      }
      if generator !in generators {
        return Err(Panic(GeneratorUnregistered));
      }
      var energyGenerator := generators[generator];
      if !energyGenerator.isActive {
        return Err(ContractError(GeneratorInactive));
      }
      if energyGenerator.currentProduction + energyAmountKwh > U64_MAX {
        return Err(Panic(ArithmeticOverflow));
      }
      if energyGenerator.currentProduction + energyAmountKwh > energyGenerator.capacityKw {
        return Err(ContractError(InsufficientCapacity));
      }
      var currentTime := ctx.now;
      var tokenId := currentTime;
      if expiryHours * 3600 > U64_MAX || currentTime + expiryHours * 3600 > U64_MAX {
        return Err(Panic(ArithmeticOverflow));
      }
      var energyToken := EnergyToken(tokenId, generator, energyAmountKwh, currentTime,
                                     currentTime + expiryHours * 3600, false);
      energyGenerator := energyGenerator.(currentProduction := energyGenerator.currentProduction + energyAmountKwh);
      var currentBalance := if generator in balances then balances[generator] else 0;
      var supply := totalSupply;
      // The sums written last overflow after the first writes; the host then
      // discards those writes, which is the same as failing before them.
      if currentBalance + energyAmountKwh > U64_MAX || supply + energyAmountKwh > U64_MAX {
        return Err(Panic(ArithmeticOverflow));
      }
      generators := generators[generator := energyGenerator];
      tokens := tokens[tokenId := energyToken];
      balances := balances[generator := currentBalance + energyAmountKwh];
      totalSupply := supply + energyAmountKwh;
      r := Ok(tokenId);
    }

    method BurnEnergyTokens(ctx: Ledger.Context, consumer: Address, tokenId: uint64, amount: uint64)
      returns (r: Result<()>)
      modifies this
      ensures Ledger.Outcome(State(), r) == Ledger.BurnEnergyTokens(old(State()), ctx, consumer, tokenId, amount)
    {
      if consumer !in ctx.signers {
        return Err(Panic(AuthMissing(consumer)));
      }
      if tokenId !in tokens {
        return Err(Panic(TokenUnknown));
      }
      var energyToken := tokens[tokenId];
      if ctx.now > energyToken.expiryTimestamp {
        return Err(ContractError(TokenNotFound));
      }
      if energyToken.isConsumed {
        return Err(ContractError(AlreadyBurned));
      }
      var consumerBalance := if consumer in balances then balances[consumer] else 0;
      if consumerBalance < amount {
        return Err(ContractError(InsufficientBalance));
      }
      if energyToken.generatorId !in generators {
        return Err(Panic(GeneratorUnregistered));
      }
      var generatorData := generators[energyToken.generatorId];
      if generatorData.currentProduction < amount {
        return Err(Panic(ArithmeticOverflow));
      }
      generatorData := generatorData.(currentProduction := generatorData.currentProduction - amount);
      energyToken := energyToken.(isConsumed := true);
      var supply := totalSupply;
      // The supply is decremented after the other writes; an underflow there
      // makes the host discard them.
      if supply < amount {
        return Err(Panic(ArithmeticOverflow));
      }
      tokens := tokens[tokenId := energyToken];
      balances := balances[consumer := consumerBalance - amount];
      generators := generators[energyToken.generatorId := generatorData];
      totalSupply := supply - amount;
      r := Ok(());
    }

    method Transfer(ctx: Ledger.Context, from: Address, to: Address, amount: uint64) returns (r: Result<()>)
      modifies this
      ensures Ledger.Outcome(State(), r) == Ledger.Transfer(old(State()), ctx, from, to, amount)
    {
      if from !in ctx.signers {
        return Err(Panic(AuthMissing(from)));
      }
      if amount == 0 {
        return Err(ContractError(InvalidAmount));
      }
      var fromBalance := if from in balances then balances[from] else 0;
      if fromBalance < amount {
        return Err(ContractError(InsufficientBalance));
      }
      var toBalance := if to in balances then balances[to] else 0;
      if toBalance + amount > U64_MAX {
        return Err(Panic(ArithmeticOverflow));
      }
      balances := balances[from := fromBalance - amount];
      balances := balances[to := toBalance + amount];
      r := Ok(());
    }

    method Approve(ctx: Ledger.Context, owner: Address, spender: Address, amount: uint64) returns (r: Result<()>)
      modifies this
      ensures Ledger.Outcome(State(), r) == Ledger.Approve(old(State()), ctx, owner, spender, amount)
    {
      if owner !in ctx.signers {
        return Err(Panic(AuthMissing(owner)));
      }
      allowances := allowances[(owner, spender) := amount];
      r := Ok(());
    }

    method TransferFrom(ctx: Ledger.Context, spender: Address, from: Address, to: Address, amount: uint64)
      returns (r: Result<()>)
      modifies this
      ensures Ledger.Outcome(State(), r) == Ledger.TransferFrom(old(State()), ctx, spender, from, to, amount)
    {
      if spender !in ctx.signers {
        return Err(Panic(AuthMissing(spender)));
      }
      if amount == 0 {
        return Err(ContractError(InvalidAmount));
      }
      var currentAllowance := if (from, spender) in allowances then allowances[(from, spender)] else 0;
      if currentAllowance < amount {
        return Err(ContractError(InsufficientAllowance));
      }
      var fromBalance := if from in balances then balances[from] else 0;
      if fromBalance < amount {
        return Err(ContractError(InsufficientBalance));
      }
      var toBalance := if to in balances then balances[to] else 0;
      if toBalance + amount > U64_MAX {
        return Err(Panic(ArithmeticOverflow));
      }
      balances := balances[from := fromBalance - amount];
      balances := balances[to := toBalance + amount];
      allowances := allowances[(from, spender) := currentAllowance - amount];
      r := Ok(());
    }

    method Allowance(owner: Address, spender: Address) returns (amount: uint64)
      ensures amount == Ledger.AllowanceOf(State(), owner, spender)
      ensures (owner, spender) !in allowances ==> amount == 0
    {
      amount := if (owner, spender) in allowances then allowances[(owner, spender)] else 0;
    }

    method BalanceOf(address: Address) returns (balance: uint64)
      ensures balance == Ledger.BalanceOf(State(), address)
      ensures address !in balances ==> balance == 0
    {
      balance := if address in balances then balances[address] else 0;
    }

    method TotalSupply() returns (supply: uint64)
      ensures supply == State().totalSupply
    {
      supply := totalSupply;
    }

    method GetMetadata() returns (r: Result<TokenMetadata>)
      ensures r == Ledger.GetMetadata(State())
    {
      if metadata.None? {
        return Err(Panic(MetadataUnset));
      }
      r := Ok(metadata.value);
    }

    method GetGenerator(generator: Address) returns (r: Result<EnergyGenerator>)
      ensures r == Ledger.GetGenerator(State(), generator)
    {
      if generator !in generators {
        return Err(ContractError(GeneratorNotFound));
      }
      r := Ok(generators[generator]);
    }

    method GetEnergyToken(tokenId: uint64) returns (r: Result<EnergyToken>)
      ensures r == Ledger.GetEnergyToken(State(), tokenId)
    {
      if tokenId !in tokens {
        return Err(ContractError(TokenNotFound));
      }
      r := Ok(tokens[tokenId]);
    }

    method SetGeneratorStatus(ctx: Ledger.Context, generator: Address, isActive: bool) returns (r: Result<()>)
      modifies this
      ensures Ledger.Outcome(State(), r) == Ledger.SetGeneratorStatus(old(State()), ctx, generator, isActive)
    {
      var denied := RequireAdmin(ctx);
      if denied.Some? {
        return Err(denied.value);
      }
      if generator !in generators {
        return Err(Panic(GeneratorUnregistered));
      }
      var energyGenerator := generators[generator];
      energyGenerator := energyGenerator.(isActive := isActive);
      generators := generators[generator := energyGenerator];
      r := Ok(());
    }

    method UpdateGeneratorCapacity(ctx: Ledger.Context, generator: Address, newCapacityKw: uint64)
      returns (r: Result<()>)
      modifies this
      ensures Ledger.Outcome(State(), r)
           == Ledger.UpdateGeneratorCapacity(old(State()), ctx, generator, newCapacityKw)
    {
      var denied := RequireAdmin(ctx);
      if denied.Some? {
        return Err(denied.value);
      }
      if generator !in generators {
        return Err(Panic(GeneratorUnregistered));
      }
      var energyGenerator := generators[generator];
      energyGenerator := energyGenerator.(capacityKw := newCapacityKw);
      generators := generators[generator := energyGenerator];
      r := Ok(());
    }
  }
}
