# Proposal creation in the realm256 DAO blueprint

This project models the proposal-creation half of the `Dao` blueprint in
`realm256/src/dao.rs`, a Scrypto (Radix ledger) component. A community
member creates one of three kinds of proposal: whitelisting an NFT
collection, changing an NFT collection's configuration, or changing the
DAO's own configuration. Each proposal is a non-fungible that holds common
data (description, status, voting window, vote results) and the metadata of
its kind. The DAO keeps it in an "open proposals" vault, one vault per kind.

Files and modules:

- `wrappers.dfy` (`Wrappers`): `Option`, `Result` and `Outcome`.
- `ledger.dfy` (`Ledger`): the library pieces the blueprint uses. These are
  `i64`, `Instant` with `add_days` (a checked multiply by 86400 seconds,
  then a checked add), and the clock reading rounded down to the minute.
  Also `Decimal` (a whole number of 10^-18 units), non-fungible local ids,
  resource addresses and `NonFungibleVault` with `amount` and `put`.
- `proposal_data.dfy` (`ProposalData`): `Vote`, `Status`,
  `ProposalDataTypes`, the metadata and proposal-data records,
  `DaoConfiguration` (the Rust struct is spelled `DaoConfiguraiton`) and its
  default values.
- `dao_transitions.dfy` (`DaoTransitions`): the DAO's state as a value.
  It holds `create_common_proposal_data` and one step function per
  creation method; each step returns the new state or the reason for the
  abort. Each step also has a checked version. The checked version adds
  the ledger's checks at minting and deposit, given the three resource
  managers.
- `dao.dfy` (`DaoBlueprint`): the `Dao` class. It has the three vault
  fields, the three resource managers and the configuration. The
  constructor stands for `instantiate_dao`. The three creation methods
  change only their own vault field. Each is proved against its checked
  step function.
- `dao_properties.dfy` (`DaoProperties`): lemmas about single calls and
  about any sequence of calls. `Run` replays calls through the unchecked
  steps, `RunOnLedger` through the checked ones.

Modelling choices:

- The clock is a parameter. `now` is the ledger's reading in seconds since
  the Unix epoch, which is never negative.
- RUID minting is an oracle. Each creation method takes the id `minted` and
  requires that no vault already holds it.
- A panic aborts the transaction. Such a call returns `Fail(..)` and leaves
  every field as it was. The panics are the `assert!` on the whitelist
  vault, `unwrap()` on an `add_days` that overflows, and the ledger
  refusing a mint or a deposit.
- Minting is refused when the data's type is not the one the manager was
  declared with. A deposit is refused when the bucket's resource is not
  the vault's.
- Kept as written: the whitelist guard is `amount <= max_capacity`, so it
  admits a call when the vault holds 20. Under consistent wiring, a 21st
  proposal is stored (`WhitelistGrowsPastCapacity`) and a 22nd never is
  (`RunKeepsWhitelistBound`). As written, nothing is stored (see below).
- Kept as written: the other two kinds have no capacity check.
- Kept as written: the whitelist vault is created for the config-change
  proposal resource, and the config-change vault for the whitelist
  resource (lines 202-207).
- Kept as written: the DAO config-change resource manager is declared with
  the NFT config-change data type (line 172), though
  `create_dao_config_change_proposal` mints DAO config-change data.
- Because of those two wirings, every creation call on an instantiated
  `Dao` is refused by the ledger. The `Dao` class and `LedgerRefusesAsWrittenWiring`
  state this. The unchecked step functions describe the calls as they
  behave once each manager is wired to its own kind's vault.
  `RunOnLedgerMatchesRun` proves that, under such wiring, the checked and
  unchecked calls agree. The properties of the unchecked steps therefore
  describe the intended design (see "## Findings").

Facts about the code that the model keeps:

- Only `create_nft_collection_whitelist_proposal` checks capacity, and with
  `<=` (dao.rs:240-246). Step 0 of the other two methods is empty.
- No method checks the proposer's stake, a creation fee or the metadata's
  kind. The other four configuration fields are stored and never read.
- The start instant is the clock rounded down to the minute. The end
  instant is a whole number of days later (dao.rs:348-356).

## Model

| member | source | states |
|---|---|---|
| `Ledger.CurrentTimeRoundedToMinutes` | realm256/src/dao.rs:348 | the instant is a whole minute, at or before the clock reading and less than a minute before it |
| `Ledger.AddDays` | realm256/src/dao.rs:354-356 | succeeds exactly when the day offset and the sum fit in `i64`; the result is the instant plus days times 86400 seconds, later than the start for a positive day count |
| `DaoProperties.AddDaysRoundTrip` | realm256/src/dao.rs:354-356 | adding days and then subtracting them gives back the original instant |
| `DaoProperties.RoundingIsIdempotent` | realm256/src/dao.rs:348 | rounding an already rounded instant changes nothing |
| `DaoTransitions.CreateCommonProposalData` | realm256/src/dao.rs:347-359 | new common data keeps the caller's description unchanged, has status `VotingStarted` and no votes, starts at the rounded clock value and ends exactly `proposal_period_in_days` days later; it fails with `ClockOverflow` exactly when that end leaves the `i64` range |
| `DaoProperties.DefaultTiming` | realm256/src/dao.rs:348-356 | with the default 10-day period the window ends exactly 864000 s after it starts, strictly later; creation fails only when the rounded start is above `i64::MAX - 864000` |
| `DaoProperties.ClockOverflowAbortsCreation` | realm256/src/dao.rs:354-356 | at the largest clock reading, every creation call that passes the whitelist guard aborts with `ClockOverflow`, and the state stays as it was |
| `Ledger.NonFungibleVault.Put` | realm256/src/dao.rs:265-266 | the deposited record is held under its id, every other record is kept, and the amount grows by one when the id is new; it does no resource check (that check is modelled in `DaoTransitions.LedgerChecked`) |
| `DaoTransitions.LedgerChecked` | realm256/src/dao.rs:257-266 | a creation that otherwise succeeds is kept exactly when the manager is declared for the kind minted and mints the vault's resource; otherwise it aborts with `MintDataTypeMismatch` or `VaultResourceMismatch` |
| `ProposalData.DefaultDaoConfig` | realm256/src/dao.rs:191-198 | the default configuration: quorum 200, one vote weight per REM, minimum holding ratio 0.001, no fee, a positive period of 10 days and capacity 20 |
| `Ledger.EmptyVault` | realm256/src/dao.rs:202-210 | `NonFungibleVault::new`: a vault for the given resource that holds nothing |
| `DaoTransitions.InitialManagers` | realm256/src/dao.rs:131-189 | the whitelist and config-change managers are declared with their own data type; the DAO config-change manager is declared with the NFT config-change type (line 172), so it is not wired for DAO config-change data |
| `DaoTransitions.IntendedManagers` | realm256/src/dao.rs:171-172 | the corrected declarations: each manager is declared for the data type it mints, including DAO config-change data for the third |
| `DaoTransitions.InitialState` | realm256/src/dao.rs:191-210 | instantiation leaves every vault empty with the default configuration; the whitelist and config-change vaults are tagged with each other's resource address |
| `DaoBlueprint.Dao.InstantiateDao` | realm256/src/dao.rs:191-215 | the new DAO has default configuration and empty vaults, with the swapped vault wiring; the DAO config-change resource manager is declared with the NFT config-change data type |
| `DaoTransitions.IntendedInitialState` | realm256/src/dao.rs:200-210 | the initial state with each vault created for its own kind's resource: empty vaults, the default configuration, and wiring consistent with the intended managers |
| `DaoTransitions.WhitelistCapacityCheckPasses` | realm256/src/dao.rs:240-246 | the `assert!` passes exactly when the whitelist vault's amount is at most the whole part of `open_proposals_vault_max_capacity` |
| `DaoTransitions.CreateWhitelistStep` | realm256/src/dao.rs:234-267 | aborts with `VaultCapacityExceeded(amount)` when the whitelist vault's amount is above the capacity; otherwise aborts only on clock overflow; on success adds exactly the record (common data plus the caller's metadata) under the minted id, grows the vault by one when the id is fresh, and leaves the other vaults and the configuration as they were |
| `DaoTransitions.CreateConfigChangeStep` | realm256/src/dao.rs:281-304 | has no capacity guard and fails only on clock overflow; on success adds exactly the record under the minted id to the config-change vault and changes nothing else |
| `DaoTransitions.CreateDaoConfigChangeStep` | realm256/src/dao.rs:318-341 | has no capacity guard and fails only on clock overflow; on success adds exactly the record under the minted id to the DAO config-change vault and changes nothing else |
| `DaoTransitions.CheckedWhitelistStep` | realm256/src/dao.rs:234-267 | with the ledger's checks: equals `CreateWhitelistStep` when the whitelist manager is wired to the whitelist vault, and aborts otherwise |
| `DaoTransitions.CheckedConfigChangeStep` | realm256/src/dao.rs:281-304 | with the ledger's checks: equals `CreateConfigChangeStep` when the config-change manager is wired to its vault, and aborts otherwise |
| `DaoTransitions.CheckedDaoConfigChangeStep` | realm256/src/dao.rs:318-341 | with the ledger's checks: equals `CreateDaoConfigChangeStep` when the DAO config-change manager is declared for DAO config-change data and wired to its vault, and aborts otherwise |
| `DaoBlueprint.Dao.CreateNftCollectionWhitelistProposal` | realm256/src/dao.rs:234-267 | the call's outcome and new state are those of `CheckedWhitelistStep`; a failure leaves the vault as it was, a success grows it by one and stores the caller's metadata and description; only the whitelist vault is written |
| `DaoBlueprint.Dao.CreateNftCollectionConfigChangeProposal` | realm256/src/dao.rs:281-304 | the call's outcome and new state are those of `CheckedConfigChangeStep`; only the config-change vault is written |
| `DaoBlueprint.Dao.CreateDaoConfigChangeProposal` | realm256/src/dao.rs:318-341 | the call's outcome and new state are those of `CheckedDaoConfigChangeStep`; only the DAO config-change vault is written |
| `DaoProperties.DefaultWhitelistGuard` | realm256/src/dao.rs:240-246 | under the default capacity of 20 the guard passes exactly when the vault holds at most 20 proposals |
| `DaoProperties.WhitelistGrowsPastCapacity` | realm256/src/dao.rs:240-266 | a whitelist vault that already holds 20 proposals accepts one more and then holds 21 |
| `DaoProperties.WhitelistRefusedBeyondBound` | realm256/src/dao.rs:240-246 | with 21 proposals the whitelist creation aborts with `VaultCapacityExceeded(21)` |
| `DaoProperties.UnguardedKindsAlwaysAdmit` | realm256/src/dao.rs:286-303 | config-change and DAO config-change creation succeed whatever their vaults hold, unless the clock overflows |
| `DaoProperties.RunLeavesConfigUnchanged` | realm256/src/dao.rs:234-359 | no sequence of creation calls changes `dao_config` |
| `DaoProperties.RunKeepsWhitelistBound` | realm256/src/dao.rs:240-266 | if the whitelist vault holds at most capacity + 1 proposals, it still does after any sequence of calls |
| `DaoProperties.RunKeepsStoredProposals` | realm256/src/dao.rs:252-340 | with freshly minted ids, every stored proposal stays in its vault unchanged after any sequence of calls |
| `DaoProperties.LedgerRefusesAsWrittenWiring` | realm256/src/dao.rs:171-207 | on a DAO as `instantiate_dao` builds it, every creation call is refused by the ledger and the state stays as it was |
| `DaoProperties.AsWrittenVaultsStayEmpty` | realm256/src/dao.rs:171-341 | as written, no sequence of creation calls changes the new DAO's state: its vaults stay empty |
| `DaoProperties.ConsistentWiringPassesLedgerChecks` | realm256/src/dao.rs:257-266 | when every manager is wired to its own kind's vault, the ledger's checks refuse nothing and the wiring is kept |
| `DaoProperties.RunOnLedgerMatchesRun` | realm256/src/dao.rs:234-341 | with consistent wiring, any sequence of calls on the ledger reaches the same state as the unchecked steps |
| `DaoProperties.ReachableFromIntendedInstantiation` | realm256/src/dao.rs:191-266 | every state reachable on the ledger from the intended wiring equals the unchecked run, has the default configuration and at most 21 whitelist proposals |

## Findings

| source | as written | input that shows it | evidently intended | confidence | as-written member | corrected member |
|---|---|---|---|---|---|---|
| realm256/src/dao.rs:202-207 | the whitelist vault is created for the config-change resource, and the config-change vault for the whitelist resource | any `create_nft_collection_whitelist_proposal` or `create_nft_collection_config_change_proposal` on a new DAO: the ledger refuses the `put` | each vault created for its own kind's resource | medium, not executed; relies on the ledger refusing a deposit of another resource | `DaoProperties.LedgerRefusesAsWrittenWiring` | `DaoProperties.ReachableFromIntendedInstantiation` |
| realm256/src/dao.rs:172 | the DAO config-change manager is declared with `NftCollectionConfigChangeProposalData` | any `create_dao_config_change_proposal`: the ledger refuses to mint `DaoConfigChangeProposalData` | declared with `DaoConfigChangeProposalData` | medium, not executed; relies on the ledger checking minted data against the declared type | `DaoProperties.AsWrittenVaultsStayEmpty` | `DaoProperties.RunOnLedgerMatchesRun` |

## Left out

- Building the resource managers (roles, metadata, mint and burn rules),
  address reservation and globalization (lines 127-189, 216-219). These are
  ledger plumbing. The model keeps each manager's address and declared data
  type, the default configuration and the empty vaults.
- The ledger's checks at minting and deposit are modelled by data type
  and resource address alone. The ledger's full schema validation of the
  minted data is not modelled.
- RUID generation and the `Clock` system call. They are replaced by the
  `minted` parameter, with its freshness guarantee, and the `now` parameter.
- The contents of `update_fields`. This `KeyValueStore<String, String>` is
  a plain map.
- `nft_whitelist_open_proposals_kv`: never written (the insert at line 262
  is commented out).
- Voting, tallying, quorum, stake and fee checks, status transitions and
  closing. The source has none of these. `quorum_treshold`,
  `rem_to_vote_ratio`, the minimum holding ratio and the fee are stored
  but never read.
- The 192-bit range of `Decimal`. The only values that occur are small.
- `realm256/transaction-manifest/config_and_manifest_generator.py`. It is
  a deployment script built on an HTTP gateway query, JSON file reads and
  writes, and regeneration of manifest files.
