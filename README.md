# STRGRID energy token contract — a Dafny model

This project models the STRGRID Soroban smart contract
(`strgrid_token/contracts/token/src/lib.rs`): a ledger that tokenises
renewable energy. An admin registers energy generators with a capacity in kW.
A registered, active generator mints tokens for the energy it produces; every
mint also records an energy token with an id, an expiry and a consumed flag.
Consumers burn tokens when the energy is used. Balances move by `transfer` or
by ERC-20-style allowances (`approve`, `transfer_from`), and a global
`TOTAL_SUPPLY` counter follows mints and burns.

Layout:

- `types.dfy` (`Types`): `u64`/`u32` as range-restricted integers, the opaque
  `Address`, the three stored records (`EnergyGenerator`, `EnergyToken`,
  `TokenMetadata`), the `STRGRIDError` enumeration and its codes, and `Fault`,
  which says why an invocation aborted: a contract error or a panic.
- `ledger.dfy` (`Ledger`): the contract storage as a value (`State`), and one
  function per entry point. Each maps the storage before an invocation to an
  `Outcome`: the storage after it and the result. Each function's contract
  says when the call succeeds (an if-and-only-if), which error it raises first,
  what the new storage holds and what does not change. An aborted invocation
  leaves the storage as it was, because the host discards its writes.
- `contract.dfy` (`Contract`): the class `StrgridContract`. Its fields are the
  storage entries: `admin`, `metadata`, `totalSupply`, `balances`,
  `allowances`, `generators` and `tokens`. Its methods are the entry points,
  written as the contract writes them: read the entries, check in source
  order, then update the fields. Each method is proved to produce exactly the
  storage and result of the matching `Ledger` function.
- `supply.dfy` (`Supply`): the sum of all balances, and how each entry point
  changes it compared with the supply counter.
- `trace.dfy` (`Trace`): sequences of invocations from a fresh deployment. It
  proves invariants over every reachable storage, and gives a concrete run
  that breaks the supply invariant.
- `properties.dfy` (`Properties`): properties that relate two invocations.

Modelling choices:

- The ledger context (`Ledger.Context`) is a parameter of every state-changing
  call. It holds the ledger timestamp and the set of addresses that authorised
  the invocation. `require_auth` on an address outside that set aborts with
  `Panic(AuthMissing(address))`, at the point where the contract calls it.
- `u64` overflow is modelled as an explicit abort, `Panic(ArithmeticOverflow)`,
  as a build with `overflow-checks = true` behaves. The build profile is not
  part of this model. An overflow after some writes (the balance and supply
  sums at lib.rs:179-180, the supply decrement at lib.rs:236) is checked
  before the writes in the model. The host discards the writes of an aborted
  invocation, so the outcome is the same.
- `expect`/`unwrap` on an absent entry is a panic (`AdminUnset`,
  `GeneratorUnregistered`, `TokenUnknown`, `MetadataUnset`). It is not one of
  the contract's error codes. So `register_generator` before `initialize`
  panics with "Not authorized"; it does not raise `NotAuthorized`.
- Absent `BALANCE`, `ALLOW` and `TOTAL` entries read as 0 everywhere, so the
  supply counter is an ordinary `uint64` that starts at 0.

Behaviour reproduced as written:

- A transfer to oneself (`transfer` or `transfer_from` with `from == to`)
  raises the balance by `amount`. Both balances are read before either is
  written, and the second write wins (`Supply.SelfTransferInflates`,
  `Trace.SelfTransferRun`). It is the only way the balances stop summing to
  `total_supply` (`Trace.ReachableSupplyMatches`).
- Token ids are ledger timestamps. Two mints at the same time collide, and
  the second replaces the first record (`Properties.SameTimeMintsCollide`).
  A mint can even revive a burned token (`Properties.CollisionRevivesBurnedToken`);
  no other call can (`Trace.BurnedStaysBurned`).
- `TokenMetadata.total_supply` is written as 0 and never changed, on every
  run (`Trace.ReachableStructural`).
- A burn does not check `amount` against the token's `amount_kwh`, nor the
  consumer against the token's generator. Subtracting `amount` from the
  generator's production can underflow (`Properties.BurnBeyondProductionAborts`).
- `update_generator_capacity` accepts a capacity below the current production
  (and a capacity of 0) (`Properties.CapacityUpdateCanBreakBound`). Every
  other entry point keeps production within capacity (`Trace.RunKeepsCapacityBound`).
- Re-registering a generator overwrites its record and resets its production
  to 0.
- The test at `test.rs:364-392` expects the panic message
  "TokenAlreadyConsumed". The contract raises `AlreadyBurned` for a second
  burn, and the model follows the contract (`Properties.BurnAtMostOnce`).

## Model

| member | source | states |
|---|---|---|
| `Types.ErrorCode` | strgrid_token/contracts/token/src/lib.rs:51-61 | each contract error is reported under a code between 1 and 9 |
| `Ledger.GetMetadata` | strgrid_token/contracts/token/src/lib.rs:337-339 | returns the stored metadata, and panics before `initialize` |
| `Ledger.GetGenerator` | strgrid_token/contracts/token/src/lib.rs:342-347 | returns the registered record, or GeneratorNotFound exactly when the address was never registered |
| `Ledger.GetEnergyToken` | strgrid_token/contracts/token/src/lib.rs:350-355 | returns the stored token record, or TokenNotFound exactly when no token has that id |
| `Ledger.Initialize` | strgrid_token/contracts/token/src/lib.rs:70-93 | succeeds iff no admin is stored and the admin signs; a second call fails with NotAuthorized; on success the admin is set, the metadata holds the given name, symbol and decimals with supply 0, the supply counter is 0 and nothing else changes |
| `Ledger.AdminCheck` | strgrid_token/contracts/token/src/lib.rs:101-103 | the admin guard passes iff an admin is stored and has signed |
| `Ledger.RegisterGenerator` | strgrid_token/contracts/token/src/lib.rs:96-118 | succeeds iff the admin guard passes and the capacity is non-zero (InvalidAmount otherwise); stores an active record with production 0 and the ledger time as registration date; no other generator or entry changes |
| `Ledger.MintEnergyTokens` | strgrid_token/contracts/token/src/lib.rs:121-183 | succeeds iff the generator signs, is registered and active, production plus amount stays within capacity, and no u64 sum overflows; errors come in source order (GeneratorInactive, then InsufficientCapacity); on success the id is the ledger time, the token record has expiry now + 3600·hours and is unconsumed, production, the generator's balance and the supply counter each rise by the amount, production stays within capacity, and nothing else changes |
| `Ledger.BurnEnergyTokens` | strgrid_token/contracts/token/src/lib.rs:186-237 | succeeds iff the consumer signs, the token exists, is unexpired and unconsumed, the consumer holds the amount, and neither production nor the supply counter underflows; errors in source order (TokenNotFound when expired, AlreadyBurned, InsufficientBalance); on success the token is marked consumed and the consumer's balance, the supply counter and the token's generator's production each drop by the amount, with nothing else changed |
| `Ledger.Transfer` | strgrid_token/contracts/token/src/lib.rs:240-266 | succeeds iff `from` signs, 0 < amount <= balance of `from`, and the recipient's balance does not overflow; InvalidAmount before InsufficientBalance; for distinct addresses `from` drops and `to` rises by the amount; for `from == to` the balance rises by the amount; every other balance and every other entry is unchanged |
| `Ledger.Approve` | strgrid_token/contracts/token/src/lib.rs:269-279 | succeeds iff the owner signs; the allowance becomes the amount (overwritten, not added to); every other allowance and entry is unchanged |
| `Ledger.TransferFrom` | strgrid_token/contracts/token/src/lib.rs:282-319 | succeeds iff the spender signs, 0 < amount <= allowance, amount <= balance of `from`, and no overflow; checks zero amount, then allowance (InsufficientAllowance), then balance (InsufficientBalance); moves the amount as `transfer` does and lowers that allowance by the amount, leaving everything else unchanged |
| `Ledger.SetGeneratorStatus` | strgrid_token/contracts/token/src/lib.rs:358-376 | succeeds iff the admin guard passes and the generator is registered (a panic otherwise); only that generator's active flag changes |
| `Ledger.UpdateGeneratorCapacity` | strgrid_token/contracts/token/src/lib.rs:379-397 | succeeds iff the admin guard passes and the generator is registered; only that generator's capacity changes, with no check against its production |
| `Contract.StrgridContract.constructor` | strgrid_token/contracts/token/src/lib.rs:63-64 | a freshly deployed contract has no storage entries |
| `Contract.StrgridContract.Initialize` | strgrid_token/contracts/token/src/lib.rs:70-93 | the new fields and the result are those of `Ledger.Initialize` on the old fields |
| `Contract.StrgridContract.RequireAdmin` | strgrid_token/contracts/token/src/lib.rs:101-103 | the guard passes only when an admin is stored and has signed |
| `Contract.StrgridContract.RegisterGenerator` | strgrid_token/contracts/token/src/lib.rs:96-118 | the new fields and the result are those of `Ledger.RegisterGenerator` |
| `Contract.StrgridContract.MintEnergyTokens` | strgrid_token/contracts/token/src/lib.rs:121-183 | the new fields and the returned id are those of `Ledger.MintEnergyTokens` |
| `Contract.StrgridContract.BurnEnergyTokens` | strgrid_token/contracts/token/src/lib.rs:186-237 | the new fields and the result are those of `Ledger.BurnEnergyTokens` |
| `Contract.StrgridContract.Transfer` | strgrid_token/contracts/token/src/lib.rs:240-266 | the new fields and the result are those of `Ledger.Transfer`, including the second write winning when `from == to` |
| `Contract.StrgridContract.Approve` | strgrid_token/contracts/token/src/lib.rs:269-279 | the new fields and the result are those of `Ledger.Approve` |
| `Contract.StrgridContract.TransferFrom` | strgrid_token/contracts/token/src/lib.rs:282-319 | the new fields and the result are those of `Ledger.TransferFrom` |
| `Contract.StrgridContract.Allowance` | strgrid_token/contracts/token/src/lib.rs:322-324 | the stored allowance, 0 for a pair never approved |
| `Contract.StrgridContract.BalanceOf` | strgrid_token/contracts/token/src/lib.rs:327-329 | the stored balance, 0 for an address never credited |
| `Contract.StrgridContract.TotalSupply` | strgrid_token/contracts/token/src/lib.rs:332-334 | the supply counter |
| `Contract.StrgridContract.GetMetadata` | strgrid_token/contracts/token/src/lib.rs:337-339 | the result of `Ledger.GetMetadata` on the current storage |
| `Contract.StrgridContract.GetGenerator` | strgrid_token/contracts/token/src/lib.rs:342-347 | the result of `Ledger.GetGenerator` on the current storage |
| `Contract.StrgridContract.GetEnergyToken` | strgrid_token/contracts/token/src/lib.rs:350-355 | the result of `Ledger.GetEnergyToken` on the current storage |
| `Contract.StrgridContract.SetGeneratorStatus` | strgrid_token/contracts/token/src/lib.rs:358-376 | the new fields and the result are those of `Ledger.SetGeneratorStatus` |
| `Contract.StrgridContract.UpdateGeneratorCapacity` | strgrid_token/contracts/token/src/lib.rs:379-397 | the new fields and the result are those of `Ledger.UpdateGeneratorCapacity` |
| `Supply.TransferConservesTotal` | strgrid_token/contracts/token/src/lib.rs:256-265 | a successful transfer between distinct addresses leaves the sum of all balances and the supply counter unchanged |
| `Supply.TransferFromConservesTotal` | strgrid_token/contracts/token/src/lib.rs:307-318 | the same for `transfer_from` between distinct addresses |
| `Supply.SelfTransferInflates` | strgrid_token/contracts/token/src/lib.rs:256-265 | a successful self-transfer adds the amount to the sum of the balances but not to the supply counter, so balances that matched the supply no longer do |
| `Supply.SelfTransferFromInflates` | strgrid_token/contracts/token/src/lib.rs:307-318 | the same for `transfer_from` with `from == to` |
| `Supply.MintAddsToTotal` | strgrid_token/contracts/token/src/lib.rs:173-180 | a successful mint raises the sum of the balances and the supply counter by the same amount |
| `Supply.BurnRemovesFromTotal` | strgrid_token/contracts/token/src/lib.rs:211-236 | a successful burn lowers the sum of the balances and the supply counter by the same amount |
| `Supply.DistinctTransferNeverOverflows` | strgrid_token/contracts/token/src/lib.rs:256-265 | while the balances sum to the supply, a transfer between distinct addresses that passes the amount and balance checks succeeds (the recipient's sum cannot overflow) |
| `Supply.BurnSupplyNeverUnderflows` | strgrid_token/contracts/token/src/lib.rs:211-236 | while the balances sum to the supply, the supply check of a burn is redundant: the burn succeeds exactly when the consumer signs, the token exists, is unexpired and unconsumed, the balance covers `amount`, the generator is registered and has produced at least `amount`; past the balance check it aborts only on the production underflow |
| `Trace.EmptySatisfiesInvariant` | strgrid_token/contracts/token/src/lib.rs:63-64 | a fresh deployment satisfies the storage invariant |
| `Trace.StepKeepsInvariant` | strgrid_token/contracts/token/src/lib.rs:70-397 | every invocation except a self-transfer keeps the invariant: the structural facts and balances summing to the supply |
| `Trace.RunKeepsInvariant` | strgrid_token/contracts/token/src/lib.rs:70-397 | any sequence of invocations without self-transfers keeps the invariant |
| `Trace.StepKeepsStructural` | strgrid_token/contracts/token/src/lib.rs:70-397 | every invocation, self-transfers included, keeps the structural facts: no metadata, generator, token or supply exists before `initialize`, the metadata supply stays 0, records are keyed by their own address or id, and every token's generator is registered |
| `Trace.RunKeepsStructural` | strgrid_token/contracts/token/src/lib.rs:70-397 | any sequence of invocations whatsoever keeps the structural facts |
| `Trace.ReachableStructural` | strgrid_token/contracts/token/src/lib.rs:70-397 | from a fresh deployment, after any sequence of invocations, the metadata supply is 0, nothing is minted or registered unless `initialize` succeeded, and every token is stored under its id for a registered generator |
| `Trace.ReachableSupplyMatches` | strgrid_token/contracts/token/src/lib.rs:70-397 | from a fresh deployment, without self-transfers, the balances always sum to `total_supply` |
| `Trace.StepKeepsCapacityBound` | strgrid_token/contracts/token/src/lib.rs:141-170 | every invocation except a capacity update keeps each generator's production within its capacity |
| `Trace.RunKeepsCapacityBound` | strgrid_token/contracts/token/src/lib.rs:141-170 | any sequence without capacity updates keeps every production within capacity |
| `Trace.StepKeepsConsumed` | strgrid_token/contracts/token/src/lib.rs:156-230 | a consumed token stays stored and consumed across any invocation except a mint at the timestamp equal to its id |
| `Trace.RunKeepsConsumed` | strgrid_token/contracts/token/src/lib.rs:156-230 | the same across any sequence of invocations without such a mint |
| `Trace.BurnedStaysBurned` | strgrid_token/contracts/token/src/lib.rs:206-230 | after a successful burn and any later invocations with no mint at the token's id as timestamp, burning that id again fails and changes nothing (the exception is `Properties.CollisionRevivesBurnedToken`) |
| `Trace.SelfTransferRun` | strgrid_token/contracts/token/src/lib.rs:256-265 | initialise, register, mint 500, self-transfer 200: the generator holds 700 while the supply counter is 500 |
| `Properties.InitializeOnlyOnce` | strgrid_token/contracts/token/src/lib.rs:77-92 | after a successful `initialize` the admin is set, the supply is 0, and every later `initialize` fails with NotAuthorized and changes nothing |
| `Properties.BurnAtMostOnce` | strgrid_token/contracts/token/src/lib.rs:206-209 | right after a successful burn, burning the same token again fails and changes nothing, with AlreadyBurned whenever the consumer signs before expiry |
| `Properties.SameTimeMintsCollide` | strgrid_token/contracts/token/src/lib.rs:156-178 | two mints at the same ledger time return the same id and the second record replaces the first |
| `Properties.CollisionRevivesBurnedToken` | strgrid_token/contracts/token/src/lib.rs:156-178 | a mint at a burned token's id stores an unconsumed record there, which its generator can burn again |
| `Properties.CapacityUpdateCanBreakBound` | strgrid_token/contracts/token/src/lib.rs:395-396 | an admin can set a capacity below the current production, and the update succeeds and breaks the capacity bound |
| `Properties.BurnBeyondProductionAborts` | strgrid_token/contracts/token/src/lib.rs:219-224 | a burn whose checks all pass but whose amount exceeds the generator's production aborts on the u64 underflow and changes nothing |

## Left out

- The `oracle_proof` argument of `mint_energy_tokens` is not modelled. Its branch is empty (lib.rs:130-134).
- The Soroban host: `Env`, the instance and persistent storage tiers with their
  lifetimes, and `symbol_short!` keys. Storage is plain maps and fields.
- The host's authorisation framework. `require_auth` is modelled only as
  membership of the address in the set of signers of the invocation.
- The contents of `name` and `symbol`. They are opaque strings.
- The tests (`test.rs`, `debug_test.rs`, `simple_test.rs`). They are used only
  as evidence of intended behaviour.
- The repository's off-chain data-aggregation service (caching, fallback
  data, composite market indices). It is described for this repository, but
  its code is not part of this model, so it is not modelled. The contract
  modelled here is the only on-chain logic.
- Whether `u64` arithmetic wraps or aborts depends on a build profile that is
  not part of this model. The model aborts on overflow.
