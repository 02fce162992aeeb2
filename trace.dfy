/** Sequences of invocations of the contract's state-changing entry points,
    from a fresh deployment, and the invariants that hold along them. */
module Trace {
  import opened Types
  import Ledger
  import Supply

  /** A state-changing entry point with its arguments. */
  datatype Call =
    | Initialize(admin: Address, name: string, symbol: string, decimals: uint32)
    | RegisterGenerator(generator: Address, capacityKw: uint64)
    | MintEnergyTokens(generator: Address, energyAmountKwh: uint64, expiryHours: uint64)
    | BurnEnergyTokens(consumer: Address, tokenId: uint64, amount: uint64)
    | Transfer(from: Address, to: Address, amount: uint64)
    | Approve(owner: Address, spender: Address, amount: uint64)
    | TransferFrom(spender: Address, from: Address, to: Address, amount: uint64)
    | SetGeneratorStatus(generator: Address, isActive: bool)
    | UpdateGeneratorCapacity(generator: Address, newCapacityKw: uint64)

  /** One invocation: the call and the ledger context it runs in. */
  datatype Invocation = Invocation(ctx: Ledger.Context, call: Call)

  /** The storage after one invocation, whether it succeeded or aborted. */
  function Step(s: Ledger.State, i: Invocation): Ledger.State {
    var ctx := i.ctx;
    match i.call
    case Initialize(admin, name, symbol, decimals) => Ledger.Initialize(s, ctx, admin, name, symbol, decimals).state
    case RegisterGenerator(generator, capacityKw) => Ledger.RegisterGenerator(s, ctx, generator, capacityKw).state
    case MintEnergyTokens(generator, amount, hours) => Ledger.MintEnergyTokens(s, ctx, generator, amount, hours).state
    case BurnEnergyTokens(consumer, tokenId, amount) => Ledger.BurnEnergyTokens(s, ctx, consumer, tokenId, amount).state
    case Transfer(from, to, amount) => Ledger.Transfer(s, ctx, from, to, amount).state
    case Approve(owner, spender, amount) => Ledger.Approve(s, ctx, owner, spender, amount).state
    case TransferFrom(spender, from, to, amount) => Ledger.TransferFrom(s, ctx, spender, from, to, amount).state
    case SetGeneratorStatus(generator, isActive) => Ledger.SetGeneratorStatus(s, ctx, generator, isActive).state
    case UpdateGeneratorCapacity(generator, capacity) => Ledger.UpdateGeneratorCapacity(s, ctx, generator, capacity).state
  }

  /** The storage after a sequence of invocations, in order. */
  function Run(s: Ledger.State, trace: seq<Invocation>): Ledger.State
    decreases |trace|
  {
    if trace == [] then s else Run(Step(s, trace[0]), trace[1..])
  }

  /** A transfer (direct or by allowance) whose source is its destination. */
  predicate IsSelfTransfer(c: Call) {
    || (c.Transfer? && c.from == c.to)
    || (c.TransferFrom? && c.from == c.to)
  }

  /** What holds of every reachable storage: nothing (no metadata, generator,
      token or supply) exists before `initialize`; the metadata's own supply
      field stays 0; every generator record is stored under its own address,
      and every token record under its own id and for a registered
      generator. */
  ghost predicate Structural(s: Ledger.State) {
    && (s.admin.None? ==> s.metadata.None? && s.totalSupply == 0 && s.generators == map[] && s.tokens == map[])
    && (s.admin.Some? ==> s.metadata.Some?)
    && (s.metadata.Some? ==> s.metadata.value.totalSupply == 0)
    && (forall g :: g in s.generators ==> s.generators[g].address == g)
    && (forall id :: id in s.tokens ==> s.tokens[id].id == id && s.tokens[id].generatorId in s.generators)
  }

  /** What holds of every storage reachable without self-transfers: the
      structural facts, and the balances add up to the supply counter. */
  ghost predicate Invariant(s: Ledger.State) {
    Structural(s) && Supply.SupplyMatches(s)
  }

  lemma EmptySatisfiesInvariant()
    ensures Invariant(Ledger.Empty())
  {
  }

  /** Every invocation, self-transfers included, keeps the structural facts. */
  lemma StepKeepsStructural(s: Ledger.State, i: Invocation)
    requires Structural(s)
    ensures Structural(Step(s, i))
  {
    match i.call
    case Initialize(admin, name, symbol, decimals) =>
    case RegisterGenerator(generator, capacityKw) =>
    case MintEnergyTokens(generator, amount, hours) =>
    case BurnEnergyTokens(consumer, tokenId, amount) =>
    case Transfer(from, to, amount) =>
    case Approve(owner, spender, amount) =>
    case TransferFrom(spender, from, to, amount) =>
    case SetGeneratorStatus(generator, isActive) =>
    case UpdateGeneratorCapacity(generator, capacity) =>
  }

  lemma {:induction false} RunKeepsStructural(s: Ledger.State, trace: seq<Invocation>)
    requires Structural(s)
    ensures Structural(Run(s, trace))
    decreases |trace|
  {
    if trace != [] {
      StepKeepsStructural(s, trace[0]);
      RunKeepsStructural(Step(s, trace[0]), trace[1..]);
    }
  }

  /** From a fresh deployment, any sequence of invocations whatsoever leaves
      the supply recorded in the metadata at 0, every token tied to a
      registered generator, and nothing minted unless `initialize` succeeded. */
  lemma ReachableStructural(trace: seq<Invocation>)
    ensures var s := Run(Ledger.Empty(), trace);
      && (s.metadata.Some? ==> s.metadata.value.totalSupply == 0)
      && (s.admin.None? ==> s.totalSupply == 0 && s.tokens == map[] && s.generators == map[])
      && (forall id :: id in s.tokens ==> s.tokens[id].id == id && s.tokens[id].generatorId in s.generators)
  {
    RunKeepsStructural(Ledger.Empty(), trace);
  }

  /** Every invocation other than a self-transfer keeps the invariant. */
  lemma StepKeepsInvariant(s: Ledger.State, i: Invocation)
    requires Invariant(s)
    requires !IsSelfTransfer(i.call)
    ensures Invariant(Step(s, i))
  {
    StepKeepsStructural(s, i);
    var ctx := i.ctx;
    match i.call
    case Initialize(admin, name, symbol, decimals) =>
    case RegisterGenerator(generator, capacityKw) =>
    case MintEnergyTokens(generator, amount, hours) =>
      if Ledger.MintEnergyTokens(s, ctx, generator, amount, hours).result.Ok? {
        Supply.MintAddsToTotal(s, ctx, generator, amount, hours);
      }
    case BurnEnergyTokens(consumer, tokenId, amount) =>
      if Ledger.BurnEnergyTokens(s, ctx, consumer, tokenId, amount).result.Ok? {
        Supply.BurnRemovesFromTotal(s, ctx, consumer, tokenId, amount);
      }
    case Transfer(from, to, amount) =>
      if Ledger.Transfer(s, ctx, from, to, amount).result.Ok? {
        Supply.TransferConservesTotal(s, ctx, from, to, amount);
      }
    case Approve(owner, spender, amount) =>
    case TransferFrom(spender, from, to, amount) =>
      if Ledger.TransferFrom(s, ctx, spender, from, to, amount).result.Ok? {
        Supply.TransferFromConservesTotal(s, ctx, spender, from, to, amount);
      }
    case SetGeneratorStatus(generator, isActive) =>
    case UpdateGeneratorCapacity(generator, capacity) =>
  }

  lemma {:induction false} RunKeepsInvariant(s: Ledger.State, trace: seq<Invocation>)
    requires Invariant(s)
    requires forall k :: 0 <= k < |trace| ==> !IsSelfTransfer(trace[k].call)
    ensures Invariant(Run(s, trace))
    decreases |trace|
  {
    if trace != [] {
      StepKeepsInvariant(s, trace[0]);
      RunKeepsInvariant(Step(s, trace[0]), trace[1..]);
    }
  }

  /** From a fresh deployment, any sequence of invocations without
      self-transfers leaves the balances summing to `total_supply`. */
  lemma ReachableSupplyMatches(trace: seq<Invocation>)
    requires forall k :: 0 <= k < |trace| ==> !IsSelfTransfer(trace[k].call)
    ensures var s := Run(Ledger.Empty(), trace);
      Supply.Total(s.balances) == s.totalSupply
  {
    EmptySatisfiesInvariant();
    RunKeepsInvariant(Ledger.Empty(), trace);
  }

  /** Every generator produces no more than its capacity. */
  ghost predicate ProductionWithinCapacity(s: Ledger.State) {
    forall g :: g in s.generators ==> s.generators[g].currentProduction <= s.generators[g].capacityKw
  }

  /** Only `update_generator_capacity` can break the capacity bound. */
  lemma StepKeepsCapacityBound(s: Ledger.State, i: Invocation)
    requires ProductionWithinCapacity(s)
    requires !i.call.UpdateGeneratorCapacity?
    ensures ProductionWithinCapacity(Step(s, i))
  {
  }

  lemma {:induction false} RunKeepsCapacityBound(s: Ledger.State, trace: seq<Invocation>)
    requires ProductionWithinCapacity(s)
    requires forall k :: 0 <= k < |trace| ==> !trace[k].call.UpdateGeneratorCapacity?
    ensures ProductionWithinCapacity(Run(s, trace))
    decreases |trace|
  {
    if trace != [] {
      StepKeepsCapacityBound(s, trace[0]);
      RunKeepsCapacityBound(Step(s, trace[0]), trace[1..]);
    }
  }

  /** A reachable run that breaks the supply invariant: initialise, register
      a generator, mint 500 and transfer 200 from the generator to itself.
      The generator then holds 700 while the supply counter says 500. */
  lemma SelfTransferRun(admin: Address, generator: Address)
    ensures var ctx := Ledger.Context(0, {admin, generator});
      var s := Run(Ledger.Empty(), [
        Invocation(ctx, Initialize(admin, "STRGRID", "STRGRID", 7)),
        Invocation(ctx, RegisterGenerator(generator, 1000)),
        Invocation(ctx, MintEnergyTokens(generator, 500, 24)),
        Invocation(ctx, Transfer(generator, generator, 200))]);
      && Ledger.BalanceOf(s, generator) == 700
      && s.totalSupply == 500
  {
    var ctx := Ledger.Context(0, {admin, generator});
    var trace := [
      Invocation(ctx, Initialize(admin, "STRGRID", "STRGRID", 7)),
      Invocation(ctx, RegisterGenerator(generator, 1000)),
      Invocation(ctx, MintEnergyTokens(generator, 500, 24)),
      Invocation(ctx, Transfer(generator, generator, 200))];
    var s0 := Ledger.Empty();
    var s1 := Step(s0, trace[0]);
    var s2 := Step(s1, trace[1]);
    var s3 := Step(s2, trace[2]);
    var s4 := Step(s3, trace[3]);
    assert Ledger.BalanceOf(s3, generator) == 500 && s3.totalSupply == 500;
    assert Run(s0, trace) == Run(s1, trace[1..]);
    assert Run(s1, trace[1..]) == Run(s2, trace[2..]) by { assert trace[1..][1..] == trace[2..]; }
    assert Run(s2, trace[2..]) == Run(s3, trace[3..]) by { assert trace[2..][1..] == trace[3..]; }
    assert Run(s3, trace[3..]) == s4 by { assert trace[3..][1..] == []; }
  }

  /** A mint whose timestamp is `id`: the only call that can store a new
      record under that token id. */
  predicate MintsAt(i: Invocation, id: uint64) {
    i.call.MintEnergyTokens? && i.ctx.now == id
  }

  /** A consumed token stays stored and consumed across every invocation
      except a mint at the timestamp equal to its id. */
  lemma StepKeepsConsumed(s: Ledger.State, i: Invocation, id: uint64)
    requires id in s.tokens && s.tokens[id].isConsumed
    requires !MintsAt(i, id)
    ensures id in Step(s, i).tokens && Step(s, i).tokens[id].isConsumed
  {
  }

  lemma {:induction false} RunKeepsConsumed(s: Ledger.State, trace: seq<Invocation>, id: uint64)
    requires id in s.tokens && s.tokens[id].isConsumed
    requires forall k :: 0 <= k < |trace| ==> !MintsAt(trace[k], id)
    ensures id in Run(s, trace).tokens && Run(s, trace).tokens[id].isConsumed
    decreases |trace|
  {
    if trace != [] {
      StepKeepsConsumed(s, trace[0], id);
      RunKeepsConsumed(Step(s, trace[0]), trace[1..], id);
    }
  }

  /** A token burns at most once over a whole run: after a successful burn,
      and any later invocations none of which mints at the timestamp equal to
      the token's id, burning that id again fails and changes nothing. */
  lemma BurnedStaysBurned(s: Ledger.State, ctx: Ledger.Context, consumer: Address, tokenId: uint64, amount: uint64,
                          trace: seq<Invocation>, ctx': Ledger.Context, consumer': Address, amount': uint64)
    requires Ledger.BurnEnergyTokens(s, ctx, consumer, tokenId, amount).result.Ok?
    requires forall k :: 0 <= k < |trace| ==> !MintsAt(trace[k], tokenId)
    ensures var s' := Run(Ledger.BurnEnergyTokens(s, ctx, consumer, tokenId, amount).state, trace);
      var again := Ledger.BurnEnergyTokens(s', ctx', consumer', tokenId, amount');
      again.result.Err? && again.state == s'
  {
    RunKeepsConsumed(Ledger.BurnEnergyTokens(s, ctx, consumer, tokenId, amount).state, trace, tokenId);
  }
}
