/** The records of the DAO blueprint (realm256/src/dao.rs): votes, proposal
    status, the three kinds of proposal with their metadata, the data common
    to every proposal, and the DAO configuration with its default values. */
module ProposalData {
  import opened Ledger

  datatype Vote = Yes | No | Blank

  /** `ProposalDataTypes`: the three kinds of proposal. */
  datatype ProposalDataTypes =
    | NftCollectionWhiteList
    | NftCollectionConfigChange
    | DaoConfigChange

  /** Lifecycle of a proposal. Only `VotingStarted` is ever produced. */
  datatype Status =
    | VotingStarted
    | VotingClosed
    | ProposalActionCompleted
    | ProposalRejected

  /** `CommonProposalData`: what every proposal carries, whatever its kind.
      `voteResults` maps a voter's resource address to the vote cast. */
  datatype CommonProposalData = CommonProposalData(
    description: string,
    status: Status,
    votingStartedInstant: Instant,
    votingEndedInstant: Instant,
    voteResults: map<ResourceAddress, Vote>)

  /** Metadata of a proposal to whitelist an NFT collection. */
  datatype NftCollectionWhiteListMetadata = NftCollectionWhiteListMetadata(resourceAddress: ResourceAddress)

  /** Metadata of a proposal to change an NFT collection's configuration;
      the key-value store of field updates is taken as a plain map. */
  datatype NftCollectionConfigChangeMetadata = NftCollectionConfigChangeMetadata(
    resourceAddress: ResourceAddress,
    updateFields: map<string, string>)

  /** Metadata of a proposal to change the DAO's own configuration. */
  datatype DaoConfigChangeMetadata = DaoConfigChangeMetadata(updateFields: map<string, string>)

  /** The non-fungible data of a whitelist proposal. */
  datatype NftCollectionWhiteListProposalData = NftCollectionWhiteListProposalData(
    commonData: CommonProposalData,
    metadata: NftCollectionWhiteListMetadata)

  /** The non-fungible data of an NFT collection config-change proposal. */
  datatype NftCollectionConfigChangeProposalData = NftCollectionConfigChangeProposalData(
    commonData: CommonProposalData,
    metadata: NftCollectionConfigChangeMetadata)

  /** The non-fungible data of a DAO config-change proposal. */
  datatype DaoConfigChangeProposalData = DaoConfigChangeProposalData(
    commonData: CommonProposalData,
    metadata: DaoConfigChangeMetadata)

  /** `DaoConfiguraiton`, as the Rust struct is spelled. Only
      `proposalPeriodInDays` and `openProposalsVaultMaxCapacity` are read by
      the blueprint; the other four are carried and never consulted. */
  datatype DaoConfiguration = DaoConfiguration(
    quorumTreshold: Decimal,
    remToVoteRatio: Decimal,
    proposalCreationMinRemHoldingRatio: Decimal,
    proposalCreationXrdFee: Decimal,
    proposalPeriodInDays: I64,
    openProposalsVaultMaxCapacity: Decimal)

  /** The configuration a new DAO starts with. */
  function DefaultDaoConfig(): (c: DaoConfiguration)
    ensures c.quorumTreshold.attos == 200 * ATTOS_PER_UNIT
    ensures c.remToVoteRatio.attos == ATTOS_PER_UNIT
    ensures 1000 * c.proposalCreationMinRemHoldingRatio.attos == ATTOS_PER_UNIT
    ensures c.proposalCreationXrdFee.attos == 0
    ensures c.proposalPeriodInDays == 10 && c.proposalPeriodInDays > 0
    ensures c.openProposalsVaultMaxCapacity.attos == 20 * ATTOS_PER_UNIT
  {
    DaoConfiguration(
      quorumTreshold := DecimalFromInt(200),
      remToVoteRatio := DecimalFromInt(1),
      proposalCreationMinRemHoldingRatio := Decimal(1_000_000_000_000_000), // 0.001
      proposalCreationXrdFee := DecimalFromInt(0),
      proposalPeriodInDays := 10,
      openProposalsVaultMaxCapacity := DecimalFromInt(20))
  }
}
