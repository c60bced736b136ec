/** Properties of proposal creation: the timing of a new proposal under the
    default configuration, what the whitelist capacity guard admits, and what
    any sequence of creation calls can and cannot change. */
module DaoProperties {
  import opened Wrappers
  import opened Ledger
  import opened ProposalData
  import opened DaoTransitions

  /** A creation call with its arguments, the clock reading it sees and the
      id the ledger mints for it. */
  datatype CreateCall =
    | WhitelistCall(whitelistMetadata: NftCollectionWhiteListMetadata, description: string,
                    now: ClockSeconds, minted: NonFungibleLocalId)
    | ConfigChangeCall(configChangeMetadata: NftCollectionConfigChangeMetadata, description: string,
                       now: ClockSeconds, minted: NonFungibleLocalId)
    | DaoConfigChangeCall(daoConfigChangeMetadata: DaoConfigChangeMetadata, description: string,
                          now: ClockSeconds, minted: NonFungibleLocalId)

  function Attempt(s: DaoState, c: CreateCall): Result<DaoState, CreationError> {
    match c
    case WhitelistCall(m, d, now, id) => CreateWhitelistStep(s, m, d, now, id)
    case ConfigChangeCall(m, d, now, id) => CreateConfigChangeStep(s, m, d, now, id)
    case DaoConfigChangeCall(m, d, now, id) => CreateDaoConfigChangeStep(s, m, d, now, id)
  }

  /** The state after one call: a call that aborts changes nothing. */
  function Apply(s: DaoState, c: CreateCall): DaoState {
    Commit(s, Attempt(s, c))
  }

  /** The state after a sequence of calls, one transaction each. */
  function Run(s: DaoState, calls: seq<CreateCall>): DaoState
    decreases |calls|
  {
    if calls == [] then s else Run(Apply(s, calls[0]), calls[1..])
  }

  /** A call as the ledger runs it, with its checks at minting and deposit. */
  function AttemptOnLedger(s: DaoState, m: ProposalManagers, c: CreateCall): Result<DaoState, CreationError> {
    match c
    case WhitelistCall(md, d, now, id) => CheckedWhitelistStep(s, m, md, d, now, id)
    case ConfigChangeCall(md, d, now, id) => CheckedConfigChangeStep(s, m, md, d, now, id)
    case DaoConfigChangeCall(md, d, now, id) => CheckedDaoConfigChangeStep(s, m, md, d, now, id)
  }

  function ApplyOnLedger(s: DaoState, m: ProposalManagers, c: CreateCall): DaoState {
    Commit(s, AttemptOnLedger(s, m, c))
  }

  function RunOnLedger(s: DaoState, m: ProposalManagers, calls: seq<CreateCall>): DaoState
    decreases |calls|
  {
    if calls == [] then s else RunOnLedger(ApplyOnLedger(s, m, calls[0]), m, calls[1..])
  }

  /** Every call is given an id not yet held in any vault (what the ledger's
      RUID minting guarantees). */
  predicate FreshIds(s: DaoState, calls: seq<CreateCall>)
    decreases |calls|
  {
    calls == [] || (calls[0].minted !in s.Ids() && FreshIds(Apply(s, calls[0]), calls[1..]))
  }

  /** Voting under the default configuration: the window opens at the clock
      reading rounded down to the minute and closes exactly ten days later,
      strictly after it opens; creation fails only when that end would not
      fit in an `i64`. */
  lemma DefaultTiming(description: string, now: ClockSeconds)
    ensures var r := CreateCommonProposalData(description, DefaultDaoConfig(), now);
            && (r.Success? <==> now / 60 * 60 <= I64_MAX - 864_000)
            && (r.Success? ==>
                  && r.value.votingEndedInstant.secondsSinceUnixEpoch
                     == r.value.votingStartedInstant.secondsSinceUnixEpoch + 864_000
                  && r.value.votingStartedInstant.secondsSinceUnixEpoch
                     < r.value.votingEndedInstant.secondsSinceUnixEpoch)
  {
  }

  /** At the last second the clock can report, the default ten-day window
      overflows: every creation call aborts with `ClockOverflow` and the state
      stays as it was. */
  lemma ClockOverflowAbortsCreation(s: DaoState, c: CreateCall)
    requires s.daoConfig == DefaultDaoConfig()
    requires c.now == I64_MAX
    requires c.WhitelistCall? ==> WhitelistCapacityCheckPasses(s)
    ensures Attempt(s, c) == Failure(ClockOverflow)
    ensures Apply(s, c) == s
  {
  }

  /** Under the default capacity of 20, the whitelist guard admits a vault
      holding up to 20 proposals, so a 21st is accepted and a 22nd refused. */
  lemma DefaultWhitelistGuard(s: DaoState)
    requires s.daoConfig == DefaultDaoConfig()
    ensures WhitelistCapacityCheckPasses(s) <==> s.whitelistVault.Amount() <= 20
    ensures WhitelistWithinBound(s) <==> s.whitelistVault.Amount() <= 21
  {
  }

  /** The `<=` guard lets a full vault (20 proposals) grow to 21. */
  lemma WhitelistGrowsPastCapacity(s: DaoState, metadata: NftCollectionWhiteListMetadata, description: string,
                                   now: ClockSeconds, minted: NonFungibleLocalId)
    requires s.daoConfig == DefaultDaoConfig()
    requires s.whitelistVault.Amount() == 20
    requires minted !in s.Ids()
    requires now <= I64_MAX - 864_000
    ensures var r := CreateWhitelistStep(s, metadata, description, now, minted);
            r.Success? && r.value.whitelistVault.Amount() == 21
  {
  }

  /** With 21 proposals the whitelist vault refuses another, reporting its
      amount. */
  lemma WhitelistRefusedBeyondBound(s: DaoState, metadata: NftCollectionWhiteListMetadata, description: string,
                                    now: ClockSeconds, minted: NonFungibleLocalId)
    requires s.daoConfig == DefaultDaoConfig()
    requires s.whitelistVault.Amount() == 21
    ensures CreateWhitelistStep(s, metadata, description, now, minted) == Failure(VaultCapacityExceeded(21))
  {
  }

  /** The two kinds without a guard accept a proposal whatever their vaults
      hold, as long as the voting window fits the clock. */
  lemma UnguardedKindsAlwaysAdmit(s: DaoState, c: CreateCall)
    requires s.daoConfig == DefaultDaoConfig()
    requires !c.WhitelistCall?
    requires c.now <= I64_MAX - 864_000
    ensures Attempt(s, c).Success?
  {
  }

  /** No creation call writes the configuration. */
  lemma {:induction false} RunLeavesConfigUnchanged(s: DaoState, calls: seq<CreateCall>)
    ensures Run(s, calls).daoConfig == s.daoConfig
    decreases |calls|
  {
    if calls != [] {
      RunLeavesConfigUnchanged(Apply(s, calls[0]), calls[1..]);
    }
  }

  /** The whitelist vault never holds more than one proposal over capacity,
      whatever calls are made. */
  lemma {:induction false} RunKeepsWhitelistBound(s: DaoState, calls: seq<CreateCall>)
    requires WhitelistWithinBound(s)
    ensures WhitelistWithinBound(Run(s, calls))
    decreases |calls|
  {
    if calls != [] {
      RunKeepsWhitelistBound(Apply(s, calls[0]), calls[1..]);
    }
  }

  /** Proposals, once stored, stay in their vault unchanged: creation only
      ever adds. */
  lemma {:induction false} RunKeepsStoredProposals(s: DaoState, calls: seq<CreateCall>)
    requires FreshIds(s, calls)
    ensures var t := Run(s, calls);
            && (forall k :: k in s.whitelistVault.contents ==>
                  k in t.whitelistVault.contents && t.whitelistVault.contents[k] == s.whitelistVault.contents[k])
            && (forall k :: k in s.configChangeVault.contents ==>
                  k in t.configChangeVault.contents && t.configChangeVault.contents[k] == s.configChangeVault.contents[k])
            && (forall k :: k in s.daoConfigChangeVault.contents ==>
                  k in t.daoConfigChangeVault.contents && t.daoConfigChangeVault.contents[k] == s.daoConfigChangeVault.contents[k])
    decreases |calls|
  {
    if calls != [] {
      RunKeepsStoredProposals(Apply(s, calls[0]), calls[1..]);
    }
  }

  /** Every state reachable on the ledger from a DAO wired as intended is the
      state the unchecked steps reach, has the default configuration and at
      most 21 whitelist proposals. */
  lemma ReachableFromIntendedInstantiation(whitelistAddress: ResourceAddress, configChangeAddress: ResourceAddress,
                                           daoConfigChangeAddress: ResourceAddress, calls: seq<CreateCall>)
    ensures var s := IntendedInitialState(whitelistAddress, configChangeAddress, daoConfigChangeAddress);
            var t := RunOnLedger(s, IntendedManagers(whitelistAddress, configChangeAddress, daoConfigChangeAddress), calls);
            t == Run(s, calls) && t.daoConfig == DefaultDaoConfig() && t.whitelistVault.Amount() <= 21
  {
    var s := IntendedInitialState(whitelistAddress, configChangeAddress, daoConfigChangeAddress);
    RunOnLedgerMatchesRun(s, IntendedManagers(whitelistAddress, configChangeAddress, daoConfigChangeAddress), calls);
    RunLeavesConfigUnchanged(s, calls);
    RunKeepsWhitelistBound(s, calls);
    DefaultWhitelistGuard(Run(s, calls));
  }

  /** As `instantiate_dao` wires them, every creation call on a new DAO is
      refused by the ledger: the whitelist and config-change proposals are put
      into each other's vault, and DAO config-change data is minted by a
      manager declared for NFT config-change data. */
  lemma LedgerRefusesAsWrittenWiring(whitelistAddress: ResourceAddress, configChangeAddress: ResourceAddress,
                                     daoConfigChangeAddress: ResourceAddress, c: CreateCall)
    requires whitelistAddress != configChangeAddress
    ensures var s := InitialState(whitelistAddress, configChangeAddress, daoConfigChangeAddress);
            var m := InitialManagers(whitelistAddress, configChangeAddress, daoConfigChangeAddress);
            AttemptOnLedger(s, m, c).Failure? && ApplyOnLedger(s, m, c) == s
  {
  }

  /** As written, the three vaults stay empty whatever calls are made. */
  lemma {:induction false} AsWrittenVaultsStayEmpty(whitelistAddress: ResourceAddress, configChangeAddress: ResourceAddress,
                                                    daoConfigChangeAddress: ResourceAddress, calls: seq<CreateCall>)
    requires whitelistAddress != configChangeAddress
    ensures var s := InitialState(whitelistAddress, configChangeAddress, daoConfigChangeAddress);
            RunOnLedger(s, InitialManagers(whitelistAddress, configChangeAddress, daoConfigChangeAddress), calls) == s
    decreases |calls|
  {
    if calls != [] {
      LedgerRefusesAsWrittenWiring(whitelistAddress, configChangeAddress, daoConfigChangeAddress, calls[0]);
      AsWrittenVaultsStayEmpty(whitelistAddress, configChangeAddress, daoConfigChangeAddress, calls[1..]);
    }
  }

  /** With every manager wired to its own kind's vault, the ledger's checks
      refuse nothing, and the wiring survives the call. */
  lemma ConsistentWiringPassesLedgerChecks(s: DaoState, m: ProposalManagers, c: CreateCall)
    requires ConsistentWiring(s, m)
    ensures AttemptOnLedger(s, m, c) == Attempt(s, c)
    ensures ConsistentWiring(Apply(s, c), m)
  {
  }

  /** With consistent wiring, a sequence of calls on the ledger reaches the
      same state as the unchecked steps. */
  lemma {:induction false} RunOnLedgerMatchesRun(s: DaoState, m: ProposalManagers, calls: seq<CreateCall>)
    requires ConsistentWiring(s, m)
    ensures RunOnLedger(s, m, calls) == Run(s, calls)
    decreases |calls|
  {
    if calls != [] {
      ConsistentWiringPassesLedgerChecks(s, m, calls[0]);
      RunOnLedgerMatchesRun(Apply(s, calls[0]), m, calls[1..]);
    }
  }

  /** Adding a number of days and then taking them away again gives back the
      instant started from. */
  lemma AddDaysRoundTrip(t: Instant, days: I64)
    requires AddDays(t, days).Some?
    ensures AddDays(AddDays(t, days).value, -days) == Some(t)
  {
  }

  /** Rounding to the minute is idempotent. */
  lemma RoundingIsIdempotent(now: ClockSeconds)
    ensures var r := CurrentTimeRoundedToMinutes(now);
            CurrentTimeRoundedToMinutes(r.secondsSinceUnixEpoch) == r
  {
  }
}
