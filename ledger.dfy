/** The parts of the Radix ledger library that the DAO blueprint relies on:
    64-bit timestamps and the clock, fixed-point decimals, non-fungible ids,
    resource addresses and non-fungible vaults. */
module Ledger {
  import opened Wrappers

  const I64_MIN: int := -0x8000_0000_0000_0000
  const I64_MAX: int := 0x7FFF_FFFF_FFFF_FFFF

  /** Rust's `i64`. */
  type I64 = x: int | I64_MIN <= x <= I64_MAX

  predicate InI64(x: int) {
    I64_MIN <= x <= I64_MAX
  }

  const SECONDS_IN_A_MINUTE: I64 := 60
  const SECONDS_IN_A_DAY: I64 := 86400

  /** `Instant`: whole seconds since the Unix epoch, as an `i64`. */
  datatype Instant = Instant(secondsSinceUnixEpoch: I64)

  /** A reading of the ledger clock, in seconds since the Unix epoch. The
      ledger never reports a time before the epoch. */
  type ClockSeconds = s: int | 0 <= s <= I64_MAX

  /** `Clock::current_time_rounded_to_minutes()`, given the clock reading:
      the last whole minute at or before `now`. */
  function CurrentTimeRoundedToMinutes(now: ClockSeconds): (r: Instant)
    ensures r.secondsSinceUnixEpoch % SECONDS_IN_A_MINUTE == 0
    ensures 0 <= r.secondsSinceUnixEpoch <= now < r.secondsSinceUnixEpoch + SECONDS_IN_A_MINUTE
  {
    Instant(now / SECONDS_IN_A_MINUTE * SECONDS_IN_A_MINUTE)
  }

  /** `i64::checked_mul`. */
  function CheckedMul(a: I64, b: I64): Option<I64> {
    if InI64(a * b) then Some(a * b) else None
  }

  /** `i64::checked_add`. */
  function CheckedAdd(a: I64, b: I64): Option<I64> {
    if InI64(a + b) then Some(a + b) else None
  }

  /** `Instant::add_days`: the day count is turned into seconds and added,
      each step checked against the `i64` range; `None` when either leaves it. */
  function AddDays(t: Instant, days: I64): (r: Option<Instant>)
    ensures r.Some? <==>
      InI64(days * SECONDS_IN_A_DAY) && InI64(t.secondsSinceUnixEpoch + days * SECONDS_IN_A_DAY)
    ensures r.Some? ==>
      r.value.secondsSinceUnixEpoch == t.secondsSinceUnixEpoch + days * SECONDS_IN_A_DAY
    ensures r.Some? && days > 0 ==> r.value.secondsSinceUnixEpoch > t.secondsSinceUnixEpoch
  {
    match CheckedMul(days, SECONDS_IN_A_DAY)
    case None => None
    case Some(offset) =>
      match CheckedAdd(t.secondsSinceUnixEpoch, offset)
      case None => None
      case Some(seconds) => Some(Instant(seconds))
  }

  /** Number of indivisible units ("attos") in one `Decimal`. */
  const ATTOS_PER_UNIT: int := 1_000_000_000_000_000_000

  /** Scrypto's `Decimal`: a fixed-point number with 18 decimal places, held
      as a whole number of attos. */
  datatype Decimal = Decimal(attos: int) {
    predicate LessOrEqual(other: Decimal) {
      attos <= other.attos
    }

    function Plus(other: Decimal): Decimal {
      Decimal(attos + other.attos)
    }
  }

  /** `Decimal::from(n)` for a whole number `n`. */
  function DecimalFromInt(n: int): Decimal {
    Decimal(n * ATTOS_PER_UNIT)
  }

  /** The id of a non-fungible issued with a random-unique (RUID) local id. */
  datatype NonFungibleLocalId = Ruid(bytes: seq<bv8>)

  /** The address of a resource (a token kind) on the ledger. */
  datatype ResourceAddress = ResourceAddress(bytes: seq<bv8>)

  /** `NonFungibleVault`: a container for non-fungibles of one resource, each
      held under its local id together with its data. */
  datatype NonFungibleVault<T> = NonFungibleVault(resourceAddress: ResourceAddress, contents: map<NonFungibleLocalId, T>) {

    /** `amount()`: the number of non-fungibles held. */
    function Amount(): nat {
      |contents|
    }

    /** `amount()` as the `Decimal` the ledger reports. */
    function AmountDecimal(): Decimal {
      DecimalFromInt(Amount())
    }

    /** `put`: deposit one non-fungible under its local id. */
    function Put(id: NonFungibleLocalId, data: T): (v: NonFungibleVault<T>)
      ensures v.resourceAddress == resourceAddress
      ensures v.contents.Keys == contents.Keys + {id} && v.contents[id] == data
      ensures forall k :: k in contents && k != id ==> v.contents[k] == contents[k]
      ensures id !in contents ==> v.Amount() == Amount() + 1
      ensures v.Amount() <= Amount() + 1
    {
      NonFungibleVault(resourceAddress, contents[id := data])
    }
  }

  /** `NonFungibleVault::new(address)`. */
  function EmptyVault<T>(resourceAddress: ResourceAddress): (v: NonFungibleVault<T>)
    ensures v.resourceAddress == resourceAddress && v.Amount() == 0
  {
    NonFungibleVault(resourceAddress, map[])
  }
}
