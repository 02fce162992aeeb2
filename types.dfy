/** Values stored and exchanged by the STRGRID energy-token contract: the
    machine integer types, addresses, the three stored records, the contract's
    error enumeration and the ways an invocation can abort. */
module Types {

  const U64_MAX: int := 0xFFFF_FFFF_FFFF_FFFF
  const U32_MAX: int := 0xFFFF_FFFF

  /** Rust's `u64` and `u32`: unbounded integers restricted to their range. */
  type uint64 = x: int | 0 <= x <= U64_MAX
  type uint32 = x: int | 0 <= x <= U32_MAX

  /** A ledger address (account or contract). Only equality is observable. */
  type Address(==, !new)

  datatype Option<T> = None | Some(value: T)

  /** A registered energy source. */
  datatype EnergyGenerator = EnergyGenerator(
    address: Address,
    capacityKw: uint64,
    currentProduction: uint64,
    isActive: bool,
    registrationDate: uint64)

  /** The record kept for one mint, keyed by its id. */
  datatype EnergyToken = EnergyToken(
    id: uint64,
    generatorId: Address,
    amountKwh: uint64,
    creationTimestamp: uint64,
    expiryTimestamp: uint64,
    isConsumed: bool)

  /** Token metadata; `name` and `symbol` are opaque strings. */
  datatype TokenMetadata = TokenMetadata(
    name: string,
    symbol: string,
    decimals: uint32,
    totalSupply: uint64)

  /** The contract's error enumeration, raised with `panic_with_error!`. */
  datatype StrgridError =
    | NotAuthorized
    | InvalidAmount
    | InsufficientBalance
    | GeneratorNotFound
    | GeneratorInactive
    | InsufficientCapacity
    | TokenNotFound
    | InsufficientAllowance
    | AlreadyBurned

  /** The `u32` discriminant the host reports for each error. */
  function ErrorCode(e: StrgridError): (code: uint32)
    ensures 1 <= code <= 9
  {
    match e
    case NotAuthorized => 1
    case InvalidAmount => 2
    case InsufficientBalance => 3
    case GeneratorNotFound => 4
    case GeneratorInactive => 5
    case InsufficientCapacity => 6
    case TokenNotFound => 7
    case InsufficientAllowance => 8
    case AlreadyBurned => 9
  }

  /** Aborts that are not contract errors: a missing authorisation, an
      `expect`/`unwrap` on an absent storage entry, an overflowing `u64`
      operation. */
  datatype PanicReason =
    | AuthMissing(address: Address)   // `require_auth` on an address that did not sign
    | AdminUnset                      // `expect("Not authorized")` on the admin entry
    | GeneratorUnregistered           // `expect("Generator not found")`
    | TokenUnknown                    // `expect("Token not found")`
    | MetadataUnset                   // `unwrap()` on the metadata entry
    | ArithmeticOverflow              // a `u64` `+`, `-` or `*` out of range

  /** Why an invocation aborted. Either way the host discards its writes. */
  datatype Fault = ContractError(error: StrgridError) | Panic(reason: PanicReason)

  datatype Result<T> = Ok(value: T) | Err(fault: Fault)
}
