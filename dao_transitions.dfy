/** The DAO blueprint's state as a value and what each proposal-creation call
    does to it. A call that panics (`assert!`, `unwrap()` on `None`) aborts its
    transaction, so the ledger keeps the state it had before the call. */
module DaoTransitions {
  import opened Wrappers
  import opened Ledger
  import opened ProposalData

  /** Why a creation call aborts. */
  datatype CreationError =
    | VaultCapacityExceeded(vaultAmount: nat)  // the `assert!` on the whitelist vault
    | ClockOverflow                            // `add_days(..).unwrap()` on `None`
    | MintDataTypeMismatch                     // minting data of a type the manager was not declared with
    | VaultResourceMismatch                    // `put` of a bucket of another resource into a vault

  /** The fields of `Dao` that creation calls read or write: the three open
      proposal vaults and the configuration. */
  datatype DaoState = DaoState(
    whitelistVault: NonFungibleVault<NftCollectionWhiteListProposalData>,
    configChangeVault: NonFungibleVault<NftCollectionConfigChangeProposalData>,
    daoConfigChangeVault: NonFungibleVault<DaoConfigChangeProposalData>,
    daoConfig: DaoConfiguration)
  {
    /** Every local id held in any of the three vaults. */
    function Ids(): set<NonFungibleLocalId> {
      whitelistVault.contents.Keys + configChangeVault.contents.Keys + daoConfigChangeVault.contents.Keys
    }
  }

  /** A proposal resource manager: the address of the resource it mints and
      the proposal data type it was declared with. */
  datatype ResourceManager = ResourceManager(address: ResourceAddress, declaredDataType: ProposalDataTypes)

  /** The three proposal resource managers of a `Dao`. */
  datatype ProposalManagers = ProposalManagers(
    whitelistManager: ResourceManager,
    configChangeManager: ResourceManager,
    daoConfigChangeManager: ResourceManager)

  /** The managers `instantiate_dao` creates. The DAO config-change manager is
      declared with the NFT config-change data type. */
  function InitialManagers(whitelistAddress: ResourceAddress, configChangeAddress: ResourceAddress,
                           daoConfigChangeAddress: ResourceAddress): (m: ProposalManagers)
    ensures m.whitelistManager.address == whitelistAddress
    ensures m.configChangeManager.address == configChangeAddress
    ensures m.daoConfigChangeManager.address == daoConfigChangeAddress
    ensures m.whitelistManager.declaredDataType == NftCollectionWhiteList
    ensures m.configChangeManager.declaredDataType == NftCollectionConfigChange
    ensures m.daoConfigChangeManager.declaredDataType == NftCollectionConfigChange
    ensures !WiredFor(m.daoConfigChangeManager, DaoConfigChange, daoConfigChangeAddress)
  {
    ProposalManagers(
      ResourceManager(whitelistAddress, NftCollectionWhiteList),
      ResourceManager(configChangeAddress, NftCollectionConfigChange),
      ResourceManager(daoConfigChangeAddress, NftCollectionConfigChange))
  }

  /** The managers with each declared for the data type it mints. */
  function IntendedManagers(whitelistAddress: ResourceAddress, configChangeAddress: ResourceAddress,
                            daoConfigChangeAddress: ResourceAddress): (m: ProposalManagers)
    ensures WiredFor(m.whitelistManager, NftCollectionWhiteList, whitelistAddress)
    ensures WiredFor(m.configChangeManager, NftCollectionConfigChange, configChangeAddress)
    ensures WiredFor(m.daoConfigChangeManager, DaoConfigChange, daoConfigChangeAddress)
  {
    ProposalManagers(
      ResourceManager(whitelistAddress, NftCollectionWhiteList),
      ResourceManager(configChangeAddress, NftCollectionConfigChange),
      ResourceManager(daoConfigChangeAddress, DaoConfigChange))
  }

  /** A manager can mint data of `kind`, and what it mints can be put into a
      vault of `vaultResource`. */
  predicate WiredFor(manager: ResourceManager, kind: ProposalDataTypes, vaultResource: ResourceAddress) {
    manager == ResourceManager(vaultResource, kind)
  }

  /** Every kind's manager mints its own kind's data into that kind's vault. */
  predicate ConsistentWiring(s: DaoState, m: ProposalManagers) {
    && WiredFor(m.whitelistManager, NftCollectionWhiteList, s.whitelistVault.resourceAddress)
    && WiredFor(m.configChangeManager, NftCollectionConfigChange, s.configChangeVault.resourceAddress)
    && WiredFor(m.daoConfigChangeManager, DaoConfigChange, s.daoConfigChangeVault.resourceAddress)
  }

  /** The state `instantiate_dao` builds from the addresses of the three
      proposal resources: empty vaults and the default configuration. As
      written, the whitelist vault is created for the config-change resource
      and the config-change vault for the whitelist resource. */
  function InitialState(whitelistAddress: ResourceAddress, configChangeAddress: ResourceAddress,
                        daoConfigChangeAddress: ResourceAddress): (s: DaoState)
    ensures s.Ids() == {} && s.daoConfig == DefaultDaoConfig()
    ensures s.whitelistVault.resourceAddress == configChangeAddress
    ensures s.configChangeVault.resourceAddress == whitelistAddress
    ensures s.daoConfigChangeVault.resourceAddress == daoConfigChangeAddress
  {
    DaoState(
      whitelistVault := EmptyVault(configChangeAddress),
      configChangeVault := EmptyVault(whitelistAddress),
      daoConfigChangeVault := EmptyVault(daoConfigChangeAddress),
      daoConfig := DefaultDaoConfig())
  }

  /** The initial state with each vault created for its own kind's resource. */
  function IntendedInitialState(whitelistAddress: ResourceAddress, configChangeAddress: ResourceAddress,
                                daoConfigChangeAddress: ResourceAddress): (s: DaoState)
    ensures s.Ids() == {} && s.daoConfig == DefaultDaoConfig()
    ensures ConsistentWiring(s, IntendedManagers(whitelistAddress, configChangeAddress, daoConfigChangeAddress))
  {
    DaoState(
      whitelistVault := EmptyVault(whitelistAddress),
      configChangeVault := EmptyVault(configChangeAddress),
      daoConfigChangeVault := EmptyVault(daoConfigChangeAddress),
      daoConfig := DefaultDaoConfig())
  }

  /** `create_common_proposal_data`, with the clock reading `now` passed in:
      voting starts at `now` rounded down to the minute and ends the
      configured number of days later; the call aborts when that end falls
      outside the `i64` range of seconds. */
  function CreateCommonProposalData(description: string, config: DaoConfiguration, now: ClockSeconds)
    : (r: Result<CommonProposalData, CreationError>)
    ensures var start := now / SECONDS_IN_A_MINUTE * SECONDS_IN_A_MINUTE;
            var offset := config.proposalPeriodInDays * SECONDS_IN_A_DAY;
            r.Success? <==> InI64(offset) && InI64(start + offset)
    ensures r.Failure? ==> r.error == ClockOverflow
    ensures r.Success? ==>
      && r.value.description == description
      && r.value.status == VotingStarted
      && r.value.voteResults == map[]
      && r.value.votingStartedInstant.secondsSinceUnixEpoch % SECONDS_IN_A_MINUTE == 0
      && r.value.votingStartedInstant.secondsSinceUnixEpoch <= now
      && now < r.value.votingStartedInstant.secondsSinceUnixEpoch + SECONDS_IN_A_MINUTE
      && r.value.votingEndedInstant.secondsSinceUnixEpoch
         == r.value.votingStartedInstant.secondsSinceUnixEpoch + config.proposalPeriodInDays * SECONDS_IN_A_DAY
  {
    var currentInstant := CurrentTimeRoundedToMinutes(now);
    match AddDays(currentInstant, config.proposalPeriodInDays)
    case None => Failure(ClockOverflow)
    case Some(votingEnded) =>
      Success(CommonProposalData(
        description := description,
        status := VotingStarted,
        votingStartedInstant := currentInstant,
        votingEndedInstant := votingEnded,
        voteResults := map[]))
  }

  /** The guard of `create_nft_collection_whitelist_proposal`: the vault's
      amount is at most the configured capacity (`<=`, not `<`), that is, at
      most the capacity's whole part. */
  predicate WhitelistCapacityCheckPasses(s: DaoState): (passes: bool)
    ensures passes <==> s.whitelistVault.Amount() <= s.daoConfig.openProposalsVaultMaxCapacity.attos / ATTOS_PER_UNIT
  {
    s.whitelistVault.AmountDecimal().LessOrEqual(s.daoConfig.openProposalsVaultMaxCapacity)
  }

  /** The bound the whitelist guard actually keeps: at most one proposal more
      than the configured capacity. */
  predicate WhitelistWithinBound(s: DaoState) {
    s.whitelistVault.AmountDecimal().LessOrEqual(s.daoConfig.openProposalsVaultMaxCapacity.Plus(DecimalFromInt(1)))
  }

  /** `create_nft_collection_whitelist_proposal` on the state `s`, with `minted`
      the id the ledger issues for the new proposal. */
  function CreateWhitelistStep(s: DaoState, metadata: NftCollectionWhiteListMetadata, description: string,
                               now: ClockSeconds, minted: NonFungibleLocalId)
    : (r: Result<DaoState, CreationError>)
    ensures !WhitelistCapacityCheckPasses(s) ==> r == Failure(VaultCapacityExceeded(s.whitelistVault.Amount()))
    ensures WhitelistCapacityCheckPasses(s) ==>
      (r.Success? <==> CreateCommonProposalData(description, s.daoConfig, now).Success?)
    ensures r.Failure? && WhitelistCapacityCheckPasses(s) ==> r.error == ClockOverflow
    ensures r.Success? ==>
      && r.value.configChangeVault == s.configChangeVault
      && r.value.daoConfigChangeVault == s.daoConfigChangeVault
      && r.value.daoConfig == s.daoConfig
      && r.value.whitelistVault.resourceAddress == s.whitelistVault.resourceAddress
      && r.value.whitelistVault.contents.Keys == s.whitelistVault.contents.Keys + {minted}
      && (forall k :: k in s.whitelistVault.contents && k != minted ==>
            r.value.whitelistVault.contents[k] == s.whitelistVault.contents[k])
      && r.value.whitelistVault.contents[minted] ==
         NftCollectionWhiteListProposalData(CreateCommonProposalData(description, s.daoConfig, now).value, metadata)
    ensures r.Success? && minted !in s.Ids() ==>
      r.value.whitelistVault.Amount() == s.whitelistVault.Amount() + 1
    ensures r.Success? ==> r.value.whitelistVault.Amount() <= s.whitelistVault.Amount() + 1
  {
    // 0.
    var vaultAmount := s.whitelistVault.Amount();
    if !s.whitelistVault.AmountDecimal().LessOrEqual(s.daoConfig.openProposalsVaultMaxCapacity) then
      Failure(VaultCapacityExceeded(vaultAmount))
    else
      // 1.
      match CreateCommonProposalData(description, s.daoConfig, now)
      case Failure(e) => Failure(e)
      case Success(commonData) =>
        // 2.
        var proposalData := NftCollectionWhiteListProposalData(commonData, metadata);
        // 3.
        Success(s.(whitelistVault := s.whitelistVault.Put(minted, proposalData)))
  }

  /** `create_nft_collection_config_change_proposal`: no capacity check. */
  function CreateConfigChangeStep(s: DaoState, metadata: NftCollectionConfigChangeMetadata, description: string,
                                  now: ClockSeconds, minted: NonFungibleLocalId)
    : (r: Result<DaoState, CreationError>)
    ensures r.Success? <==> CreateCommonProposalData(description, s.daoConfig, now).Success?
    ensures r.Failure? ==> r.error == ClockOverflow
    ensures r.Success? ==>
      && r.value.whitelistVault == s.whitelistVault
      && r.value.daoConfigChangeVault == s.daoConfigChangeVault
      && r.value.daoConfig == s.daoConfig
      && r.value.configChangeVault.resourceAddress == s.configChangeVault.resourceAddress
      && r.value.configChangeVault.contents.Keys == s.configChangeVault.contents.Keys + {minted}
      && (forall k :: k in s.configChangeVault.contents && k != minted ==>
            r.value.configChangeVault.contents[k] == s.configChangeVault.contents[k])
      && r.value.configChangeVault.contents[minted] ==
         NftCollectionConfigChangeProposalData(CreateCommonProposalData(description, s.daoConfig, now).value, metadata)
    ensures r.Success? && minted !in s.Ids() ==>
      r.value.configChangeVault.Amount() == s.configChangeVault.Amount() + 1
  {
    // 0. is empty in `create_nft_collection_config_change_proposal`
    // 1.
    match CreateCommonProposalData(description, s.daoConfig, now)
    case Failure(e) => Failure(e)
    case Success(commonData) =>
      // 2.
      var proposalData := NftCollectionConfigChangeProposalData(commonData, metadata);
      // 3.
      Success(s.(configChangeVault := s.configChangeVault.Put(minted, proposalData)))
  }

  /** `create_dao_config_change_proposal`: no capacity check. */
  function CreateDaoConfigChangeStep(s: DaoState, metadata: DaoConfigChangeMetadata, description: string,
                                     now: ClockSeconds, minted: NonFungibleLocalId)
    : (r: Result<DaoState, CreationError>)
    ensures r.Success? <==> CreateCommonProposalData(description, s.daoConfig, now).Success?
    ensures r.Failure? ==> r.error == ClockOverflow
    ensures r.Success? ==>
      && r.value.whitelistVault == s.whitelistVault
      && r.value.configChangeVault == s.configChangeVault
      && r.value.daoConfig == s.daoConfig
      && r.value.daoConfigChangeVault.resourceAddress == s.daoConfigChangeVault.resourceAddress
      && r.value.daoConfigChangeVault.contents.Keys == s.daoConfigChangeVault.contents.Keys + {minted}
      && (forall k :: k in s.daoConfigChangeVault.contents && k != minted ==>
            r.value.daoConfigChangeVault.contents[k] == s.daoConfigChangeVault.contents[k])
      && r.value.daoConfigChangeVault.contents[minted] ==
         DaoConfigChangeProposalData(CreateCommonProposalData(description, s.daoConfig, now).value, metadata)
    ensures r.Success? && minted !in s.Ids() ==>
      r.value.daoConfigChangeVault.Amount() == s.daoConfigChangeVault.Amount() + 1
  {
    // 0. is empty in `create_dao_config_change_proposal`
    // 1.
    match CreateCommonProposalData(description, s.daoConfig, now)
    case Failure(e) => Failure(e)
    case Success(commonData) =>
      // 2.
      var proposalData := DaoConfigChangeProposalData(commonData, metadata);
      // 3.
      Success(s.(daoConfigChangeVault := s.daoConfigChangeVault.Put(minted, proposalData)))
  }

  /** The ledger's checks at minting (step 2) and deposit (step 3), applied to
      the result `r` of a creation step: the mint aborts when the manager was
      declared for another data type, the `put` when the vault holds another
      resource than the one the manager mints. */
  function LedgerChecked(r: Result<DaoState, CreationError>, manager: ResourceManager, kind: ProposalDataTypes,
                         vaultResource: ResourceAddress)
    : (c: Result<DaoState, CreationError>)
    ensures r.Failure? ==> c == r
    ensures r.Success? ==> (c == r <==> WiredFor(manager, kind, vaultResource))
    ensures r.Success? && manager.declaredDataType != kind ==> c == Failure(MintDataTypeMismatch)
    ensures r.Success? && manager.declaredDataType == kind && manager.address != vaultResource ==>
      c == Failure(VaultResourceMismatch)
  {
    if r.Failure? then r
    else if manager.declaredDataType != kind then Failure(MintDataTypeMismatch)
    else if manager.address != vaultResource then Failure(VaultResourceMismatch)
    else r
  }

  /** `create_nft_collection_whitelist_proposal` including the ledger's mint
      and deposit checks: the same as `CreateWhitelistStep` when the whitelist
      manager is wired to the whitelist vault, an abort otherwise. */
  function CheckedWhitelistStep(s: DaoState, m: ProposalManagers, metadata: NftCollectionWhiteListMetadata,
                                description: string, now: ClockSeconds, minted: NonFungibleLocalId)
    : (r: Result<DaoState, CreationError>)
    ensures WiredFor(m.whitelistManager, NftCollectionWhiteList, s.whitelistVault.resourceAddress) ==>
      r == CreateWhitelistStep(s, metadata, description, now, minted)
    ensures !WiredFor(m.whitelistManager, NftCollectionWhiteList, s.whitelistVault.resourceAddress) ==> r.Failure?
  {
    LedgerChecked(CreateWhitelistStep(s, metadata, description, now, minted),
                  m.whitelistManager, NftCollectionWhiteList, s.whitelistVault.resourceAddress)
  }

  /** `create_nft_collection_config_change_proposal` including the ledger's
      mint and deposit checks. */
  function CheckedConfigChangeStep(s: DaoState, m: ProposalManagers, metadata: NftCollectionConfigChangeMetadata,
                                   description: string, now: ClockSeconds, minted: NonFungibleLocalId)
    : (r: Result<DaoState, CreationError>)
    ensures WiredFor(m.configChangeManager, NftCollectionConfigChange, s.configChangeVault.resourceAddress) ==>
      r == CreateConfigChangeStep(s, metadata, description, now, minted)
    ensures !WiredFor(m.configChangeManager, NftCollectionConfigChange, s.configChangeVault.resourceAddress) ==>
      r.Failure?
  {
    LedgerChecked(CreateConfigChangeStep(s, metadata, description, now, minted),
                  m.configChangeManager, NftCollectionConfigChange, s.configChangeVault.resourceAddress)
  }

  /** `create_dao_config_change_proposal` including the ledger's mint and
      deposit checks. */
  function CheckedDaoConfigChangeStep(s: DaoState, m: ProposalManagers, metadata: DaoConfigChangeMetadata,
                                      description: string, now: ClockSeconds, minted: NonFungibleLocalId)
    : (r: Result<DaoState, CreationError>)
    ensures WiredFor(m.daoConfigChangeManager, DaoConfigChange, s.daoConfigChangeVault.resourceAddress) ==>
      r == CreateDaoConfigChangeStep(s, metadata, description, now, minted)
    ensures !WiredFor(m.daoConfigChangeManager, DaoConfigChange, s.daoConfigChangeVault.resourceAddress) ==>
      r.Failure?
  {
    LedgerChecked(CreateDaoConfigChangeStep(s, metadata, description, now, minted),
                  m.daoConfigChangeManager, DaoConfigChange, s.daoConfigChangeVault.resourceAddress)
  }

  /** The state the ledger keeps after a call: the call's new state when it
      succeeds, the state before it when it aborts. */
  function Commit(s: DaoState, r: Result<DaoState, CreationError>): DaoState {
    if r.Success? then r.value else s
  }

  /** What the caller of a creation call sees. */
  function OutcomeOf(r: Result<DaoState, CreationError>): Outcome<CreationError> {
    if r.Success? then Pass else Fail(r.error)
  }
}
