/** The `Dao` component of realm256/src/dao.rs: its state and its three
    proposal-creation methods, each proved against its ledger-checked step
    function in `DaoTransitions`. */
module DaoBlueprint {
  import opened Wrappers
  import opened Ledger
  import opened ProposalData
  import opened DaoTransitions

  class Dao {
    /** `nft_collection_whitelist_open_proposals_vault` */
    var whitelistVault: NonFungibleVault<NftCollectionWhiteListProposalData>
    /** `nft_collection_config_change_open_proposals_vault` */
    var configChangeVault: NonFungibleVault<NftCollectionConfigChangeProposalData>
    /** `dao_config_change_open_proposals_vault` */
    var daoConfigChangeVault: NonFungibleVault<DaoConfigChangeProposalData>
    const whitelistProposalManager: ResourceManager
    const configChangeProposalManager: ResourceManager
    const daoConfigChangeProposalManager: ResourceManager
    var daoConfig: DaoConfiguration

    /** The vaults and the configuration as one value. */
    function State(): DaoState
      reads this
    {
      DaoState(whitelistVault, configChangeVault, daoConfigChangeVault, daoConfig)
    }

    /** The three resource managers as one value. */
    function Managers(): ProposalManagers
      reads this
    {
      ProposalManagers(whitelistProposalManager, configChangeProposalManager, daoConfigChangeProposalManager)
    }

    /** Holds of every instantiated `Dao`: the configuration is still the
        default one, and the whitelist vault holds at most one proposal more
        than the capacity. */
    ghost predicate Valid()
      reads this
    {
      daoConfig == DefaultDaoConfig() && WhitelistWithinBound(State())
    }

    /** `instantiate_dao`, given the addresses the ledger assigns to the three
        proposal resources (distinct, as the ledger allocates them). */
    constructor InstantiateDao(whitelistAddress: ResourceAddress, configChangeAddress: ResourceAddress,
                               daoConfigChangeAddress: ResourceAddress)
      requires whitelistAddress != configChangeAddress
      requires whitelistAddress != daoConfigChangeAddress
      requires configChangeAddress != daoConfigChangeAddress
      ensures Valid()
      ensures State() == InitialState(whitelistAddress, configChangeAddress, daoConfigChangeAddress)
      ensures Managers() == InitialManagers(whitelistAddress, configChangeAddress, daoConfigChangeAddress)
      ensures daoConfig == DefaultDaoConfig()
      ensures whitelistVault.Amount() == 0 && configChangeVault.Amount() == 0 && daoConfigChangeVault.Amount() == 0
      ensures whitelistVault.resourceAddress == configChangeAddress
      ensures configChangeVault.resourceAddress == whitelistAddress
      ensures whitelistVault.resourceAddress != whitelistProposalManager.address
      ensures configChangeVault.resourceAddress != configChangeProposalManager.address
      ensures daoConfigChangeVault.resourceAddress == daoConfigChangeProposalManager.address
      ensures whitelistProposalManager == ResourceManager(whitelistAddress, NftCollectionWhiteList)
      ensures configChangeProposalManager == ResourceManager(configChangeAddress, NftCollectionConfigChange)
      ensures daoConfigChangeProposalManager == ResourceManager(daoConfigChangeAddress, NftCollectionConfigChange)
    {
      whitelistProposalManager := ResourceManager(whitelistAddress, NftCollectionWhiteList);
      configChangeProposalManager := ResourceManager(configChangeAddress, NftCollectionConfigChange);
      // declared with the config-change data type, though it mints DAO config-change data
      daoConfigChangeProposalManager := ResourceManager(daoConfigChangeAddress, NftCollectionConfigChange);
      daoConfig := DefaultDaoConfig();
      // the first two vaults are wired to each other's resource, as `instantiate_dao` wires them
      configChangeVault := EmptyVault(whitelistAddress);
      whitelistVault := EmptyVault(configChangeAddress);
      daoConfigChangeVault := EmptyVault(daoConfigChangeAddress);
    }

    /** `create_nft_collection_whitelist_proposal`; `now` is the clock reading
        and `minted` the fresh id the ledger issues for the proposal.
        Implements `CheckedWhitelistStep`. */
    method CreateNftCollectionWhitelistProposal(metadata: NftCollectionWhiteListMetadata, description: string,
                                                now: ClockSeconds, minted: NonFungibleLocalId)
      returns (outcome: Outcome<CreationError>)
      requires Valid()
      requires minted !in State().Ids()
      modifies this`whitelistVault
      ensures Valid()
      ensures outcome == OutcomeOf(CheckedWhitelistStep(old(State()), Managers(), metadata, description, now, minted))
      ensures State() == Commit(old(State()), CheckedWhitelistStep(old(State()), Managers(), metadata, description, now, minted))
      ensures outcome.Fail? ==> whitelistVault == old(whitelistVault)
      ensures outcome.Pass? ==> whitelistVault.Amount() == old(whitelistVault.Amount()) + 1
      ensures outcome.Pass? ==> whitelistVault.contents[minted].metadata == metadata
      ensures outcome.Pass? ==> whitelistVault.contents[minted].commonData.description == description
    {
      // 0.
      var vaultAmount := whitelistVault.Amount();
      if !whitelistVault.AmountDecimal().LessOrEqual(daoConfig.openProposalsVaultMaxCapacity) {
        return Fail(VaultCapacityExceeded(vaultAmount));
      }
      // 1.
      var commonData := CreateCommonProposalData(description, daoConfig, now);
      if commonData.Failure? {
        return Fail(commonData.error);
      }
      // 2.
      var proposalData := NftCollectionWhiteListProposalData(commonData.value, metadata);
      if whitelistProposalManager.declaredDataType != NftCollectionWhiteList {
        return Fail(MintDataTypeMismatch);
      }
      // 3.
      if whitelistProposalManager.address != whitelistVault.resourceAddress {
        return Fail(VaultResourceMismatch);
      }
      whitelistVault := whitelistVault.Put(minted, proposalData);
      return Pass;
    }

    /** `create_nft_collection_config_change_proposal`: no capacity check.
        Implements `CheckedConfigChangeStep`. */
    method CreateNftCollectionConfigChangeProposal(metadata: NftCollectionConfigChangeMetadata, description: string,
                                                   now: ClockSeconds, minted: NonFungibleLocalId)
      returns (outcome: Outcome<CreationError>)
      requires Valid()
      requires minted !in State().Ids()
      modifies this`configChangeVault
      ensures Valid()
      ensures outcome == OutcomeOf(CheckedConfigChangeStep(old(State()), Managers(), metadata, description, now, minted))
      ensures State() == Commit(old(State()), CheckedConfigChangeStep(old(State()), Managers(), metadata, description, now, minted))
      ensures outcome.Fail? ==> configChangeVault == old(configChangeVault)
      ensures outcome.Pass? ==> configChangeVault.Amount() == old(configChangeVault.Amount()) + 1
      ensures outcome.Pass? ==> configChangeVault.contents[minted].metadata == metadata
      ensures outcome.Pass? ==> configChangeVault.contents[minted].commonData.description == description
    {
      // 1.
      var commonData := CreateCommonProposalData(description, daoConfig, now);
      if commonData.Failure? {
        return Fail(commonData.error);
      }
      // 2.
      var proposalData := NftCollectionConfigChangeProposalData(commonData.value, metadata);
      if configChangeProposalManager.declaredDataType != NftCollectionConfigChange {
        return Fail(MintDataTypeMismatch);
      }
      // 3.
      if configChangeProposalManager.address != configChangeVault.resourceAddress {
        return Fail(VaultResourceMismatch);
      }
      configChangeVault := configChangeVault.Put(minted, proposalData);
      return Pass;
    }

    /** `create_dao_config_change_proposal`: no capacity check.
        Implements `CheckedDaoConfigChangeStep`. */
    method CreateDaoConfigChangeProposal(metadata: DaoConfigChangeMetadata, description: string,
                                         now: ClockSeconds, minted: NonFungibleLocalId)
      returns (outcome: Outcome<CreationError>)
      requires Valid()
      requires minted !in State().Ids()
      modifies this`daoConfigChangeVault
      ensures Valid()
      ensures outcome == OutcomeOf(CheckedDaoConfigChangeStep(old(State()), Managers(), metadata, description, now, minted))
      ensures State() == Commit(old(State()), CheckedDaoConfigChangeStep(old(State()), Managers(), metadata, description, now, minted))
      ensures outcome.Fail? ==> daoConfigChangeVault == old(daoConfigChangeVault)
      ensures outcome.Pass? ==> daoConfigChangeVault.Amount() == old(daoConfigChangeVault.Amount()) + 1
      ensures outcome.Pass? ==> daoConfigChangeVault.contents[minted].metadata == metadata
      ensures outcome.Pass? ==> daoConfigChangeVault.contents[minted].commonData.description == description
    {
      // 1.
      var commonData := CreateCommonProposalData(description, daoConfig, now);
      if commonData.Failure? {
        return Fail(commonData.error);
      }
      // 2.
      var proposalData := DaoConfigChangeProposalData(commonData.value, metadata);
      if daoConfigChangeProposalManager.declaredDataType != DaoConfigChange {
        return Fail(MintDataTypeMismatch);
      }
      // 3.
      if daoConfigChangeProposalManager.address != daoConfigChangeVault.resourceAddress {
        return Fail(VaultResourceMismatch);
      }
      daoConfigChangeVault := daoConfigChangeVault.Put(minted, proposalData);
      return Pass;
    }
  }
}
