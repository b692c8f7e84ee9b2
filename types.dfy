/**
 * The records the client hands to its callers (src/types.ts) and an abstract view of the
 * ledger transactions its builders produce.
 */
module Types {
  import opened Wrappers
  import opened Bytes

  /** An account address, kept as the 32-byte public key its checksummed text encodes. */
  datatype Address = Address(publicKey: seq<byte>)

  /** How the ABI layer delivers a small integer field: as a bigint or as a plain number. */
  datatype AbiInteger = BigIntValue(n: nat) | NumberValue(n: nat)

  datatype Environment = DEV | PROD

  datatype NetworkConstants = NetworkConstants(
    maxBalance: nat,
    upgradePeriod: nat,
    feeUpdatePeriod: nat,
    feeUpdateMaxDelta: nat,
    ratePrecision: nat,
    tm2AppId: nat,
    arc59AppId: nat)

  /** `Partial<NetworkConstants>`: an absent key is None. */
  datatype PartialNetworkConstants = PartialNetworkConstants(
    maxBalance: Option<nat>,
    upgradePeriod: Option<nat>,
    feeUpdatePeriod: Option<nat>,
    feeUpdateMaxDelta: Option<nat>,
    ratePrecision: Option<nat>,
    tm2AppId: Option<nat>,
    arc59AppId: Option<nat>)

  /** The 15-field `get_contract_listing` return value, in its ABI positional order. */
  datatype ListingTuple = ListingTuple(
    rate: nat,
    algoBalance: nat,
    asaBalance: nat,
    staked: nat,
    lstId: nat,
    lstName: string,
    asaId: nat,
    asaName: string,
    asaUnitName: string,
    asaDecimals: AbiInteger,
    needSwap: bool,
    incentiveEligible: bool,
    isOnline: bool,
    upgrading: bool,
    userProtestingStake: nat)

  /** DSContractListing: a pool snapshot at a ledger round. */
  datatype ContractListing = ContractListing(
    round: nat,
    appId: nat,
    rate: nat,
    algoBalance: nat,
    asaBalance: nat,
    staked: nat,
    lstId: nat,
    lstName: string,
    asaId: nat,
    asaName: string,
    asaUnitName: string,
    asaDecimals: AbiInteger,
    needSwap: bool,
    incentiveEligible: bool,
    isOnline: bool,
    upgrading: bool,
    userProtestingStake: nat)

  /** `{ round, appId, ...listing }`: the tuple has neither key, so nothing is overridden. */
  function WithRoundAndApp(round: nat, appId: nat, t: ListingTuple): (l: ContractListing)
    ensures l.round == round && l.appId == appId && l.asaDecimals == t.asaDecimals
    ensures l.asaId == t.asaId && l.lstId == t.lstId && l.rate == t.rate && l.lstName == t.lstName
    ensures l.asaUnitName == t.asaUnitName
  {
    ContractListing(round, appId, t.rate, t.algoBalance, t.asaBalance, t.staked, t.lstId, t.lstName,
                    t.asaId, t.asaName, t.asaUnitName, t.asaDecimals, t.needSwap, t.incentiveEligible,
                    t.isOnline, t.upgrading, t.userProtestingStake)
  }

  datatype FeeUpdateState = FeeUpdateState(
    applicableTimestamp: nat,
    nextNoderunnerFeeBps: nat,
    nextPlatformFeeBps: nat)

  datatype ContractUpgradeState = ContractUpgradeState(
    applicableTimestamp: nat,
    contractPageHashes: seq<string>)

  /**
   * DSContractState. It extends DSContractListing; the listing part is kept whole in
   * `listing` (with the keys the global state overrides already overridden).
   */
  datatype ContractState = ContractState(
    listing: ContractListing,
    version: nat,
    platformFees: nat,
    noderunnerFees: nat,
    platformFeeBps: nat,
    noderunnerFeeBps: nat,
    adminAddr: Address,
    feeAdminAddr: Address,
    noderunnerAddr: Address,
    lpType: seq<byte>,
    lpId: Address,
    delayOptin: bool,
    feeUpdate: Option<FeeUpdateState>,
    contractUpgrade: Option<ContractUpgradeState>,
    protestCount: nat,
    protestSum: nat,
    tinymanAppId: nat,
    arc59AppId: nat,
    maxBalance: nat,
    ratePrecision: nat,
    upgradePeriod: nat,
    feeUpdatePeriod: nat,
    feeUpdateMaxDelta: nat)

  /** DSContractMapping: a registry entry pairing an ASA with its pool app and pool token. */
  datatype ContractMapping = ContractMapping(asaId: nat, appId: nat, lstId: nat)

  /** The oracle's decoded `get_price_and_tvl` value (its fields as the examples read them). */
  datatype PriceAndTvl = PriceAndTvl(
    dualstakeUnitPriceInAlgo: nat,
    algoTvlInAlgo: nat,
    asaTvlInAlgo: nat,
    totalTvlInAlgo: nat)

  /** DSPriceAndTVL: the oracle's values joined with the pool's listing. */
  datatype PriceAndTvlEntry = PriceAndTvlEntry(
    appId: nat,
    dualStakeAsaId: nat,
    dualStakeName: string,
    pairedAsaId: nat,
    pairedAsaUnitName: string,
    oracle: PriceAndTvl)

  // ---- transactions ---------------------------------------------------------------

  datatype AbiMethod =
    | Mint | Redeem | SwapOrFail | ProtestStake | UnprotestStake | AdminUnprotestStake
    | DissolveProtestingStake | KeyregOnline | KeyregOffline | WithdrawNodeRunnerFees
    | WithdrawPlatformFees | ChangeNoderunner | ChangeFeeaddr | ChangeAdmin1 | ChangeAdmin2
    | UpdateMaxBalance | Configure | Configure2 | QueueUpdateFees | ResetUpdateFees
    | QueueUpgrade | ResetUpgrade | AssignContract | UnassignContract

  /**
   * The name of an ABI method argument, as the builders pass it in the call's `args`
   * object (`AsaId` stands for the argument named `asaId`, and so on).
   */
  datatype ArgName =
    | User | Fee | Amount | NewAdmin | Hashes | Key
    | SelectionKey | VotingKey | SpKey | FirstRound | LastRound | KeyDilution
    | AsaId | DelayOptin | LpType | LpId | PlatformFeeBps | NoderunnerFeeBps
    | AdminAddr | FeeAdminAddr | NoderunnerAddr
    | MaxBalance | UpgradePeriod | FeeUpdatePeriod | FeeUpdateMaxDelta | RatePrecision | Tm2AppId | Arc59AppId

  datatype AbiArg = UintArg(n: nat) | BoolArg(b: bool) | BytesArg(bytes: seq<byte>) | AddressArg(addr: Address)

  /** A box reference; app 0 means the called app itself. */
  datatype BoxRef = BoxRef(appId: nat, name: seq<byte>)

  datatype Txn =
    | Payment(sender: Address, receiver: Address, amount: nat)
    | AssetTransfer(sender: Address, receiver: Address, assetId: nat, amount: nat)
    | AppCall(sender: Address, appId: nat, call: AbiMethod, args: map<ArgName, AbiArg>,
              staticFee: Option<nat>, appRefs: seq<nat>, assetRefs: seq<nat>,
              accountRefs: seq<Address>, boxRefs: seq<BoxRef>)
    | AppUpdate(sender: Address, appId: nat, approvalProgram: seq<byte>, clearProgram: seq<byte>)
    | AppDelete(sender: Address, appId: nat, foreignAssets: seq<nat>)

  /** The zero-amount transfer to oneself that opts an account into an asset. */
  predicate IsOptIn(t: Txn)
  {
    t.AssetTransfer? && t.sender == t.receiver && t.amount == 0
  }

  function OptIn(account: Address, assetId: nat): (t: Txn)
    ensures IsOptIn(t) && t.sender == account && t.assetId == assetId
  {
    AssetTransfer(account, account, assetId, 0)
  }

  /** A call with no static fee and no references. */
  function PlainCall(sender: Address, appId: nat, call: AbiMethod, args: map<ArgName, AbiArg>): (t: Txn)
    ensures t.AppCall? && t.call == call && t.staticFee.None? && t.sender == sender && t.appId == appId
  {
    AppCall(sender, appId, call, args, None, [], [], [], [])
  }

  type GroupId = seq<byte>

  datatype GroupedTxn = GroupedTxn(txn: Txn, group: GroupId)
}
