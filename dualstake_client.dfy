/**
 * src/dualstake-client.ts: the client of one DualSTAKE pool app. It caches the pool's ASA
 * and LST ids, assembles the pool state from the listing and the app's global state, and
 * builds the transaction groups of the pool's ABI methods.
 *
 * Ledger reads are inputs: the simulated `get_contract_listing` reply, the global state,
 * an account's asset holdings, the ARC-59 router box and the app account's incentive
 * eligibility. The group id is the abstract `digest` of the ordered transactions.
 */
module DualStakeClient {
  import opened Wrappers
  import opened Bytes
  import opened Types
  import opened Utils
  import opened Networks

  // ---- getState -------------------------------------------------------------------

  /**
   * The app's global state as `state.global.getAll()` returns it. Byte-slice keys the app
   * has not written are None; integer keys are read as present.
   */
  datatype GlobalState = GlobalState(
    version: nat,
    asaId: nat,
    lstId: nat,
    staked: nat,
    platformFees: nat,
    noderunnerFees: nat,
    platformFeeBps: nat,
    noderunnerFeeBps: nat,
    protestCount: nat,
    protestSum: nat,
    delayOptin: Option<nat>,
    adminAddr: Option<seq<byte>>,
    feeAdminAddr: Option<seq<byte>>,
    noderunnerAddr: Option<seq<byte>>,
    lpType: Option<seq<byte>>,
    lpId: Option<seq<byte>>,
    ratePrecision: nat,
    maxBalance: nat,
    feeUpdate: Option<seq<byte>>,
    feeUpdateMaxDelta: nat,
    feeUpdatePeriod: nat,
    contractUpgrade: Option<seq<byte>>,
    upgradePeriod: nat,
    tm2AppId: nat,
    arc59AppId: nat)

  /**
   * Why `getState` rejects: a byte key is absent (reading `asByteArray()` of undefined
   * throws), or the fee-update blob does not decode.
   */
  datatype StateError = MissingKey(key: string) | UndecodableFeeUpdate(cause: CodecError)

  /** The simulated `get_contract_listing` reply: the tuple and the simulation's last round. */
  datatype ListingSimulation = ListingSimulation(listing: ListingTuple, lastRound: nat)

  function Present(o: Option<seq<byte>>, key: string): (r: Result<seq<byte>, StateError>)
    ensures r.Ok? <==> o.Some?
    ensures r.Ok? ==> r.value == o.value
    ensures r.Err? ==> r.error == MissingKey(key)
  {
    if o.Some? then Ok(o.value) else Err(MissingKey(key))
  }

  /** `Boolean(x)` of an integer key: false when absent or zero. */
  predicate Truthy(v: Option<nat>)
  {
    v.Some? && v.value != 0
  }

  predicate AllBytesPresent(gs: GlobalState)
  {
    && gs.adminAddr.Some? && gs.feeAdminAddr.Some? && gs.noderunnerAddr.Some?
    && gs.lpType.Some? && gs.lpId.Some? && gs.feeUpdate.Some? && gs.contractUpgrade.Some?
  }

  /**
   * The object literal of `getState`: the listing spread first, the global-state keys over
   * it, evaluated left to right so that the first failing key decides the error.
   */
  function BuildState(listing: ContractListing, gs: GlobalState): (r: Result<ContractState, StateError>)
    ensures r.Err? <==> !AllBytesPresent(gs) || ParseFeeUpdate(gs.feeUpdate.value).Err?
    ensures gs.adminAddr.None? ==> r == Err(MissingKey("adminAddr"))
    ensures gs.adminAddr.Some? && gs.feeAdminAddr.None? ==> r == Err(MissingKey("feeAdminAddr"))
    ensures gs.adminAddr.Some? && gs.feeAdminAddr.Some? && gs.noderunnerAddr.None? ==> r == Err(MissingKey("noderunnerAddr"))
    ensures (gs.adminAddr.Some? && gs.feeAdminAddr.Some? && gs.noderunnerAddr.Some? && gs.lpType.None?)
      ==> r == Err(MissingKey("lpType"))
    ensures (gs.adminAddr.Some? && gs.feeAdminAddr.Some? && gs.noderunnerAddr.Some? && gs.lpType.Some?
             && gs.lpId.None?)
      ==> r == Err(MissingKey("lpId"))
    ensures (gs.adminAddr.Some? && gs.feeAdminAddr.Some? && gs.noderunnerAddr.Some? && gs.lpType.Some?
             && gs.lpId.Some? && gs.feeUpdate.None?)
      ==> r == Err(MissingKey("feeUpdate"))
    ensures (gs.adminAddr.Some? && gs.feeAdminAddr.Some? && gs.noderunnerAddr.Some? && gs.lpType.Some?
             && gs.lpId.Some? && gs.feeUpdate.Some? && ParseFeeUpdate(gs.feeUpdate.value).Err?)
      ==> r == Err(UndecodableFeeUpdate(ParseFeeUpdate(gs.feeUpdate.value).error))
    ensures (gs.adminAddr.Some? && gs.feeAdminAddr.Some? && gs.noderunnerAddr.Some? && gs.lpType.Some?
             && gs.lpId.Some? && gs.feeUpdate.Some? && ParseFeeUpdate(gs.feeUpdate.value).Ok?
             && gs.contractUpgrade.None?)
      ==> r == Err(MissingKey("contractUpgrade"))
    ensures AllBytesPresent(gs) && r.Err? ==> r.error == UndecodableFeeUpdate(ParseFeeUpdate(gs.feeUpdate.value).error)
    ensures r.Ok? ==>
      && r.value.listing == listing.(asaId := gs.asaId, lstId := gs.lstId, staked := gs.staked)
      && r.value.version == gs.version
      && r.value.platformFees == gs.platformFees && r.value.noderunnerFees == gs.noderunnerFees
      && r.value.platformFeeBps == gs.platformFeeBps && r.value.noderunnerFeeBps == gs.noderunnerFeeBps
      && r.value.protestCount == gs.protestCount && r.value.protestSum == gs.protestSum
      && (r.value.delayOptin <==> gs.delayOptin.Some? && gs.delayOptin.value != 0)
      && r.value.adminAddr == Address(gs.adminAddr.value)
      && r.value.feeAdminAddr == Address(gs.feeAdminAddr.value)
      && r.value.noderunnerAddr == Address(gs.noderunnerAddr.value)
      && r.value.lpType == gs.lpType.value && r.value.lpId == Address(gs.lpId.value)
      && r.value.feeUpdate == ParseFeeUpdate(gs.feeUpdate.value).value
      && r.value.contractUpgrade == ParseContractUpgrade(gs.contractUpgrade.value).value
      && r.value.tinymanAppId == gs.tm2AppId && r.value.arc59AppId == gs.arc59AppId
      && r.value.maxBalance == gs.maxBalance && r.value.ratePrecision == gs.ratePrecision
      && r.value.upgradePeriod == gs.upgradePeriod && r.value.feeUpdatePeriod == gs.feeUpdatePeriod
      && r.value.feeUpdateMaxDelta == gs.feeUpdateMaxDelta
  {
    var admin :- Present(gs.adminAddr, "adminAddr");
    var feeAdmin :- Present(gs.feeAdminAddr, "feeAdminAddr");
    var noderunner :- Present(gs.noderunnerAddr, "noderunnerAddr");
    var lpType :- Present(gs.lpType, "lpType");
    var lpId :- Present(gs.lpId, "lpId");
    var feeBytes :- Present(gs.feeUpdate, "feeUpdate");
    var fee := ParseFeeUpdate(feeBytes);
    if fee.Err? then Err(UndecodableFeeUpdate(fee.error))
    else
      var upgradeBytes :- Present(gs.contractUpgrade, "contractUpgrade");
      Ok(ContractState(
        listing.(asaId := gs.asaId, lstId := gs.lstId, staked := gs.staked),
        gs.version, gs.platformFees, gs.noderunnerFees, gs.platformFeeBps, gs.noderunnerFeeBps,
        Address(admin), Address(feeAdmin), Address(noderunner), lpType, Address(lpId),
        Truthy(gs.delayOptin), fee.value, ParseContractUpgrade(upgradeBytes).value,
        gs.protestCount, gs.protestSum, gs.tm2AppId, gs.arc59AppId, gs.maxBalance,
        gs.ratePrecision, gs.upgradePeriod, gs.feeUpdatePeriod, gs.feeUpdateMaxDelta))
  }

  /**
   * A fee update the contract stored with safe-integer fields reads back unchanged through
   * `getState`; an empty blob reads back as no pending update.
   */
  lemma StateFeeUpdateRoundTrip(listing: ContractListing, gs: GlobalState, f: FeeUpdateState)
    requires AllBytesPresent(gs)
    requires f.applicableTimestamp <= MAX_SAFE_INTEGER && f.nextNoderunnerFeeBps <= MAX_SAFE_INTEGER
    requires f.nextPlatformFeeBps <= MAX_SAFE_INTEGER
    ensures MAX_SAFE_INTEGER < UINT64_LIMIT
    ensures gs.feeUpdate.value == EncodeFeeUpdate(f) ==> BuildState(listing, gs).Ok?
    ensures gs.feeUpdate.value == EncodeFeeUpdate(f) ==> BuildState(listing, gs).value.feeUpdate == Some(f)
    ensures gs.feeUpdate.value == [] ==> BuildState(listing, gs).Ok?
    ensures gs.feeUpdate.value == [] ==> BuildState(listing, gs).value.feeUpdate == None
  {
    if gs.feeUpdate.value == EncodeFeeUpdate(f) {
      FeeUpdateRoundTrip(f);
    }
  }

  /**
   * A queued upgrade the contract stores as a 4-byte timestamp followed by whole 32-byte
   * page hashes reads back through `getState` as that timestamp and those hashes in hex.
   */
  lemma StateUpgradeRoundTrip(listing: ContractListing, gs: GlobalState, ts: nat, pages: seq<seq<byte>>)
    requires AllBytesPresent(gs) && ParseFeeUpdate(gs.feeUpdate.value).Ok?
    requires ts < Pow256(4) && pages != []
    requires forall i :: 0 <= i < |pages| ==> |pages[i]| == 32
    requires gs.contractUpgrade.value == BeEncode(ts, 4) + Concat(pages)
    ensures BuildState(listing, gs).Ok?
    ensures BuildState(listing, gs).value.contractUpgrade == Some(ContractUpgradeState(ts, HexPages(pages)))
  {
    UpgradeRoundTrip(ts, pages);
  }

  // ---- transaction groups -----------------------------------------------------------

  /**
   * The ASA deposit of `makeMintTransactions`: `algoAmount * rate / 10000000000` in bigint
   * arithmetic, i.e. the ALGO amount priced at the pool rate (scaled by RATE_PRECISION),
   * rounded down.
   */
  function MintAsaAmount(algoAmount: nat, rate: nat): (r: nat)
    ensures r * RATE_PRECISION <= algoAmount * rate < (r + 1) * RATE_PRECISION
    ensures rate <= RATE_PRECISION ==> r <= algoAmount
  {
    algoAmount * rate / 10000000000
  }

  /**
   * `makeMintTransactions`: an LST opt-in only when the sender holds no LST, the mint call,
   * then the ALGO payment right after the call, then an ASA deposit only when the rate is
   * positive.
   */
  function MintTxns(from: Address, appAddr: Address, appId: nat, asaId: nat, lstId: nat,
                    st: ContractState, lstOptedIn: bool, algoAmount: nat): (r: seq<Txn>)
    ensures var k := if lstOptedIn then 0 else 1;
      && |r| == k + 2 + (if st.listing.rate > 0 then 1 else 0)
      && (!lstOptedIn ==> r[0] == OptIn(from, lstId))
      && (forall i :: k <= i < |r| ==> !IsOptIn(r[i]) || from == appAddr)
      && r[k] == AppCall(from, appId, Mint, map[], Some(2000), [st.tinymanAppId], [asaId, lstId], [st.lpId], [])
      && r[k + 1] == Payment(from, appAddr, algoAmount)
      && (st.listing.rate > 0 ==>
            r[k + 2] == AssetTransfer(from, appAddr, asaId, MintAsaAmount(algoAmount, st.listing.rate)))
  {
    (if lstOptedIn then [] else [OptIn(from, lstId)])
    + [AppCall(from, appId, Mint, map[], Some(2000), [st.tinymanAppId], [asaId, lstId], [st.lpId], []),
       Payment(from, appAddr, algoAmount)]
    + (if st.listing.rate > 0
       then [AssetTransfer(from, appAddr, asaId, MintAsaAmount(algoAmount, st.listing.rate))] else [])
  }

  /**
   * `makeRedeemTransactions`: an ASA opt-in only when the sender holds no ASA, the LST
   * deposit, then the redeem call with fee 3000.
   */
  function RedeemTxns(from: Address, appAddr: Address, appId: nat, asaId: nat, lstId: nat,
                      st: ContractState, asaOptedIn: bool, amount: nat): (r: seq<Txn>)
    ensures var k := if asaOptedIn then 0 else 1;
      && |r| == k + 2
      && (!asaOptedIn ==> r[0] == OptIn(from, asaId))
      && r[k] == AssetTransfer(from, appAddr, lstId, amount)
      && r[k + 1] == AppCall(from, appId, Redeem, map[], Some(3000), [st.tinymanAppId], [asaId, lstId], [st.lpId], [])
  {
    (if asaOptedIn then [] else [OptIn(from, asaId)])
    + [AssetTransfer(from, appAddr, lstId, amount),
       AppCall(from, appId, Redeem, map[], Some(3000), [st.tinymanAppId], [asaId, lstId], [st.lpId], [])]
  }

  /** `makeProtestTransactions`: the LST deposit, then the call naming the sender's box. */
  function ProtestTxns(from: Address, appAddr: Address, appId: nat, lstId: nat, amount: nat): (r: seq<Txn>)
    ensures |r| == 2 && r[0] == AssetTransfer(from, appAddr, lstId, amount)
    ensures r[1].AppCall? && r[1].call == ProtestStake && r[1].boxRefs == [BoxRef(0, from.publicKey)]
    ensures r[1].staticFee.None? && r[1].assetRefs == []
  {
    [AssetTransfer(from, appAddr, lstId, amount),
     AppCall(from, appId, ProtestStake, map[], None, [], [], [], [BoxRef(0, from.publicKey)])]
  }

  /** `makeUndoProtestTransactions`: an LST opt-in when needed, then the unprotest call. */
  function UndoProtestTxns(from: Address, appId: nat, lstId: nat, lstOptedIn: bool): (r: seq<Txn>)
    ensures |r| == (if lstOptedIn then 1 else 2)
    ensures !lstOptedIn ==> r[0] == OptIn(from, lstId)
    ensures r[|r| - 1] == AppCall(from, appId, UnprotestStake, map[], Some(2000), [], [lstId], [],
                                  [BoxRef(0, from.publicKey)])
  {
    (if lstOptedIn then [] else [OptIn(from, lstId)])
    + [AppCall(from, appId, UnprotestStake, map[], Some(2000), [], [lstId], [], [BoxRef(0, from.publicKey)])]
  }

  /**
   * The account references of the admin-unprotest and dissolve calls: the user, then the
   * address held in the user's ARC-59 router box, only when the opt-in check failed and the
   * box lookup succeeded (a failed lookup is swallowed).
   */
  function RouterAccounts(user: Address, optedIn: bool, routerBox: Option<seq<byte>>): (r: seq<Address>)
    ensures 1 <= |r| <= 2 && r[0] == user
    ensures |r| == 2 <==> !optedIn && routerBox.Some?
    ensures |r| == 2 ==> r[1] == Address(routerBox.value)
  {
    [user] + (if !optedIn && routerBox.Some? then [Address(routerBox.value)] else [])
  }

  /** The call shared by admin-unprotest and dissolve: the user's box here and in ARC-59. */
  function ProtestResolution(from: Address, appId: nat, call: AbiMethod, user: Address, assetId: nat,
                             arc59AppId: nat, optedIn: bool, routerBox: Option<seq<byte>>, fee: nat): (t: Txn)
    ensures t.AppCall? && t.sender == from && t.appId == appId && t.call == call
    ensures t.args == map[User := AddressArg(user)] && t.staticFee == Some(fee)
    ensures t.appRefs == [arc59AppId] && t.assetRefs == [assetId]
    ensures t.accountRefs == RouterAccounts(user, optedIn, routerBox)
    ensures t.boxRefs == [BoxRef(0, user.publicKey), BoxRef(arc59AppId, user.publicKey)]
  {
    AppCall(from, appId, call, map[User := AddressArg(user)], Some(fee), [arc59AppId], [assetId],
            RouterAccounts(user, optedIn, routerBox),
            [BoxRef(0, user.publicKey), BoxRef(arc59AppId, user.publicKey)])
  }

  /** The inputs of `makeKeyregOnlineTransactions`. */
  datatype KeyregArgs = KeyregArgs(
    selectionKey: seq<byte>,
    votingKey: seq<byte>,
    spKey: seq<byte>,
    firstRound: nat,
    lastRound: nat,
    keyDilution: nat,
    fee: nat)

  /** The ALGO the app needs to pay the incentive-eligible registration fee. */
  const KEYREG_ELIGIBILITY_FEE: nat := 2_000_000

  /**
   * `makeKeyregOnlineTransactions`: when the app account is not yet incentive eligible, the
   * call asks the app to pay the 2 ALGO eligibility fee and a payment of exactly that fee
   * follows. The caller's `fee` is ignored.
   */
  function KeyregOnlineTxns(from: Address, appAddr: Address, appId: nat, keys: KeyregArgs,
                            incentiveEligible: bool): (r: seq<Txn>)
    ensures |r| == (if incentiveEligible then 1 else 2)
    ensures r[0].AppCall? && r[0].call == KeyregOnline && r[0].sender == from && r[0].appId == appId
    ensures r[0].staticFee == Some(if incentiveEligible then 2000 else 1000)
    ensures Fee in r[0].args && r[0].args[Fee] == UintArg(if incentiveEligible then 0 else KEYREG_ELIGIBILITY_FEE)
    ensures VotingKey in r[0].args && r[0].args[VotingKey] == BytesArg(keys.votingKey)
    ensures KeyDilution in r[0].args && r[0].args[KeyDilution] == UintArg(keys.keyDilution)
    ensures !incentiveEligible ==> r[1] == Payment(from, appAddr, r[0].args[Fee].n)
  {
    var feeArg := if incentiveEligible then 0 else KEYREG_ELIGIBILITY_FEE;
    var args := map[SelectionKey := BytesArg(keys.selectionKey), VotingKey := BytesArg(keys.votingKey),
                    SpKey := BytesArg(keys.spKey), FirstRound := UintArg(keys.firstRound),
                    LastRound := UintArg(keys.lastRound), KeyDilution := UintArg(keys.keyDilution),
                    Fee := UintArg(feeArg)];
    [AppCall(from, appId, KeyregOnline, args, Some(if incentiveEligible then 2000 else 1000), [], [], [], [])]
    + (if incentiveEligible then [] else [Payment(from, appAddr, KEYREG_ELIGIBILITY_FEE)])
  }

  /** The caller's `fee` does not reach the group. */
  lemma KeyregIgnoresCallerFee(from: Address, appAddr: Address, appId: nat, keys: KeyregArgs,
                               incentiveEligible: bool, fee: nat)
    ensures KeyregOnlineTxns(from, appAddr, appId, keys.(fee := fee), incentiveEligible)
            == KeyregOnlineTxns(from, appAddr, appId, keys, incentiveEligible)
  {
  }

  /** `makeChangeAdminTransactions`: the current admin names the new one, who then accepts. */
  function ChangeAdminTxns(from: Address, appId: nat, admin: Address): (r: seq<Txn>)
    ensures |r| == 2
    ensures r[0] == PlainCall(from, appId, ChangeAdmin1, map[NewAdmin := AddressArg(admin)])
    ensures r[1].AppCall? && r[1].call == ChangeAdmin2 && r[1].sender == admin && r[1].args == map[]
  {
    [PlainCall(from, appId, ChangeAdmin1, map[NewAdmin := AddressArg(admin)]),
     PlainCall(admin, appId, ChangeAdmin2, map[])]
  }

  /** `MakeConfigureTransactionArgs`; `lpType` is already the bytes of its UTF-8 text. */
  datatype ConfigureArgs = ConfigureArgs(
    env: Environment,
    asaId: nat,
    lpType: seq<byte>,
    lpId: Address,
    platformFeeBps: nat,
    noderunnerFeeBps: nat,
    adminAddr: Address,
    feeAdminAddr: Address,
    noderunnerAddr: Address,
    delayOptin: bool,
    overrides: PartialNetworkConstants)

  /** The minimum-balance payment of `configure`: one asset opt-in less when it is delayed. */
  function ConfigureMbr(delayOptin: bool): (r: nat)
    ensures r == 303_000 - (if delayOptin then 101_000 else 0)
  {
    if delayOptin then 202_000 else 303_000
  }

  /**
   * The `args` object of `configure`: the named fields, then the merged network constants
   * spread after them (no name is shared, so none overrides another).
   */
  function ConfigureAbiArgs(a: ConfigureArgs): (r: map<ArgName, AbiArg>)
  {
    var nc := MergeConstants(Defaults(a.env), a.overrides);
    map[AsaId := UintArg(a.asaId), DelayOptin := BoolArg(a.delayOptin), LpType := BytesArg(a.lpType),
        LpId := BytesArg(a.lpId.publicKey), PlatformFeeBps := UintArg(a.platformFeeBps),
        NoderunnerFeeBps := UintArg(a.noderunnerFeeBps), AdminAddr := AddressArg(a.adminAddr),
        FeeAdminAddr := AddressArg(a.feeAdminAddr), NoderunnerAddr := AddressArg(a.noderunnerAddr),
        MaxBalance := UintArg(nc.maxBalance), UpgradePeriod := UintArg(nc.upgradePeriod),
        FeeUpdatePeriod := UintArg(nc.feeUpdatePeriod), FeeUpdateMaxDelta := UintArg(nc.feeUpdateMaxDelta),
        RatePrecision := UintArg(nc.ratePrecision), Tm2AppId := UintArg(nc.tm2AppId),
        Arc59AppId := UintArg(nc.arc59AppId)]
  }

  /**
   * `configure` is passed exactly the nine named fields and the seven network constants: the
   * asset, pool, opt-in, fee and role arguments as given (the pool address as its public key),
   * and the constants of the merged network constants, where an override wins over the default.
   */
  lemma ConfigureAbiArgsFields(a: ConfigureArgs)
    ensures ConfigureAbiArgs(a).Keys == {AsaId, DelayOptin, LpType, LpId, PlatformFeeBps, NoderunnerFeeBps,
                                         AdminAddr, FeeAdminAddr, NoderunnerAddr, MaxBalance, UpgradePeriod,
                                         FeeUpdatePeriod, FeeUpdateMaxDelta, RatePrecision, Tm2AppId, Arc59AppId}
    ensures var r := ConfigureAbiArgs(a);
      && r[AsaId] == UintArg(a.asaId) && r[LpType] == BytesArg(a.lpType)
      && r[LpId] == BytesArg(a.lpId.publicKey) && r[DelayOptin] == BoolArg(a.delayOptin)
    ensures var r := ConfigureAbiArgs(a);
      && r[PlatformFeeBps] == UintArg(a.platformFeeBps) && r[NoderunnerFeeBps] == UintArg(a.noderunnerFeeBps)
      && r[AdminAddr] == AddressArg(a.adminAddr) && r[FeeAdminAddr] == AddressArg(a.feeAdminAddr)
      && r[NoderunnerAddr] == AddressArg(a.noderunnerAddr)
    ensures var r := ConfigureAbiArgs(a); var nc := MergeConstants(Defaults(a.env), a.overrides);
      && r[Tm2AppId] == UintArg(nc.tm2AppId) && r[Arc59AppId] == UintArg(nc.arc59AppId)
      && r[RatePrecision] == UintArg(nc.ratePrecision) && r[MaxBalance] == UintArg(nc.maxBalance)
      && r[UpgradePeriod] == UintArg(nc.upgradePeriod) && r[FeeUpdatePeriod] == UintArg(nc.feeUpdatePeriod)
      && r[FeeUpdateMaxDelta] == UintArg(nc.feeUpdateMaxDelta)
  {
  }

  /**
   * `makeConfigureTransaction`: the MBR payment, then the configure call whose app
   * references are the Tinyman and ARC-59 ids of the merged constants.
   */
  function ConfigureTxns(from: Address, appAddr: Address, appId: nat, a: ConfigureArgs): (r: seq<Txn>)
    ensures var nc := MergeConstants(Defaults(a.env), a.overrides);
      && |r| == 2
      && r[0] == Payment(from, appAddr, ConfigureMbr(a.delayOptin))
      && r[1].AppCall? && r[1].call == Configure && r[1].args == ConfigureAbiArgs(a)
      && r[1].appRefs == [nc.tm2AppId, nc.arc59AppId] && r[1].assetRefs == [a.asaId]
      && r[1].accountRefs == [a.lpId]
  {
    var nc := MergeConstants(Defaults(a.env), a.overrides);
    [Payment(from, appAddr, ConfigureMbr(a.delayOptin)),
     AppCall(from, appId, Configure, ConfigureAbiArgs(a), None, [nc.tm2AppId, nc.arc59AppId], [a.asaId], [a.lpId], [])]
  }

  /** Without overrides, `configure` passes the environment's defaults, and references its apps. */
  lemma ConfigureDefaults(from: Address, appAddr: Address, appId: nat, a: ConfigureArgs)
    requires a.overrides == NoOverrides()
    ensures ConfigureTxns(from, appAddr, appId, a)[1].appRefs == [Defaults(a.env).tm2AppId, Defaults(a.env).arc59AppId]
    ensures ConfigureAbiArgs(a)[RatePrecision] == UintArg(RATE_PRECISION)
    ensures a.env == PROD ==> ConfigureAbiArgs(a)[UpgradePeriod] == UintArg(WEEKS_1)
    ensures a.env == DEV ==> ConfigureAbiArgs(a)[UpgradePeriod] == UintArg(3600)
  {
  }

  // ---- makeQueueUpgradeTransactions ---------------------------------------------------

  /** The error `makeQueueUpgradeTransactions` throws for a page hash of the wrong length. */
  datatype UpgradeError = WrongHashLength(index: nat, length: nat)

  predicate AllPageHashes(hashes: seq<seq<byte>>)
  {
    forall i :: 0 <= i < |hashes| ==> |hashes[i]| == 32
  }

  /** Concatenated page hashes are 32 bytes per page. */
  lemma {:induction false} ConcatLength(hashes: seq<seq<byte>>)
    requires AllPageHashes(hashes)
    ensures |Concat(hashes)| == 32 * |hashes|
    decreases |hashes|
  {
    if hashes != [] {
      ConcatLength(hashes[..|hashes| - 1]);
    }
  }

  /**
   * The queued hashes come back from the stored upgrade blob: once the contract prefixes
   * them with a 4-byte timestamp, `parseContractUpgrade` returns them, hex-encoded.
   */
  lemma QueuedHashesReadBack(ts: nat, hashes: seq<seq<byte>>)
    requires ts < Pow256(4) && hashes != [] && AllPageHashes(hashes)
    ensures |Concat(hashes)| == 32 * |hashes|
    ensures ParseContractUpgrade(BeEncode(ts, 4) + Concat(hashes)).value
            == Some(ContractUpgradeState(ts, HexPages(hashes)))
  {
    ConcatLength(hashes);
    UpgradeRoundTrip(ts, hashes);
  }

  // ---- the client -------------------------------------------------------------------

  /** `!this.asaId`: the cache is empty (undefined) or holds 0n. */
  predicate NeedsFetch(asaId: Option<nat>)
  {
    asaId.None? || asaId.value == 0
  }

  /** The LST id cached after `init()`. */
  function LstAfterInit(asaId: Option<nat>, lstId: Option<nat>, sim: ListingSimulation): nat
    requires NeedsFetch(asaId) || lstId.Some?
  {
    if NeedsFetch(asaId) then Fixed(sim.listing).lstId else lstId.value
  }

  /** The ASA id cached after `init()`. */
  function AsaAfterInit(asaId: Option<nat>, sim: ListingSimulation): nat
  {
    if NeedsFetch(asaId) then Fixed(sim.listing).asaId else asaId.value
  }

  /** What `getState` yields for a reply and a global state. */
  function StateOf(appId: nat, sim: ListingSimulation, gs: GlobalState): Result<ContractState, StateError>
  {
    BuildState(WithRoundAndApp(sim.lastRound, appId, Fixed(sim.listing)), gs)
  }

  class Client {
    const appId: nat
    const appAddr: Address
    const from: Address
    var asaId: Option<nat>
    var lstId: Option<nat>

    /** `getListing` writes both ids together. */
    ghost predicate Valid()
      reads this
    {
      asaId.Some? <==> lstId.Some?
    }

    constructor(appId: nat, appAddr: Address, from: Address)
      ensures this.appId == appId && this.appAddr == appAddr && this.from == from
      ensures asaId.None? && lstId.None? && Valid()
    {
      this.appId := appId;
      this.appAddr := appAddr;
      this.from := from;
      asaId := None;
      lstId := None;
    }

    /** `getListing`: fixes the simulated listing, caches its two ids and stamps it. */
    method GetListing(sim: ListingSimulation) returns (l: ContractListing)
      modifies this
      ensures asaId == Some(Fixed(sim.listing).asaId) && lstId == Some(Fixed(sim.listing).lstId)
      ensures Valid()
      ensures l == WithRoundAndApp(sim.lastRound, appId, Fixed(sim.listing))
    {
      var listing := ContractListingFromTupleFixed(sim.listing);
      asaId := Some(listing.asaId);
      lstId := Some(listing.lstId);
      l := WithRoundAndApp(sim.lastRound, appId, listing.Fields());
    }

    /** `init`: fetches the listing only when the ASA id is not cached (or is 0). */
    method Init(sim: ListingSimulation)
      requires Valid()
      modifies this
      ensures Valid() && asaId.Some? && lstId.Some?
      ensures asaId == Some(AsaAfterInit(old(asaId), sim))
      ensures lstId == Some(LstAfterInit(old(asaId), old(lstId), sim))
      ensures !NeedsFetch(old(asaId)) ==> unchanged(this)
    {
      if NeedsFetch(asaId) {
        var _ := GetListing(sim);
      }
    }

    /** `getState`: the listing is fetched (refreshing the cache) even when the state rejects. */
    method GetState(sim: ListingSimulation, gs: GlobalState) returns (r: Result<ContractState, StateError>)
      modifies this
      ensures asaId == Some(Fixed(sim.listing).asaId) && lstId == Some(Fixed(sim.listing).lstId)
      ensures Valid()
      ensures r == StateOf(appId, sim, gs)
    {
      var listing := GetListing(sim);
      r := BuildState(listing, gs);
    }

    /**
     * `makeMintTransactions`: the LST opt-in check uses the id cached by `init`; the
     * transactions use the ids `getState` has just cached.
     */
    method MakeMintTransactions(algoAmount: nat, sim: ListingSimulation, gs: GlobalState,
                                holdings: seq<AssetHolding>, digest: seq<Txn> -> GroupId)
      returns (r: Result<seq<GroupedTxn>, StateError>)
      requires Valid()
      modifies this
      ensures Valid() && asaId == Some(Fixed(sim.listing).asaId) && lstId == Some(Fixed(sim.listing).lstId)
      ensures StateOf(appId, sim, gs).Err? ==> r == Err(StateOf(appId, sim, gs).error)
      ensures StateOf(appId, sim, gs).Ok? ==> r == Ok(GroupTxns(MintTxns(
        from, appAddr, appId, asaId.value, lstId.value, StateOf(appId, sim, gs).value,
        IsOptedIn(holdings, LstAfterInit(old(asaId), old(lstId), sim)), algoAmount), digest))
    {
      Init(sim);
      var optedIn := IsOptedIn(holdings, lstId.value);
      var state := GetState(sim, gs);
      if state.Err? {
        return Err(state.error);
      }
      var st := state.value;
      var txns: seq<Txn> := [];
      if !optedIn {
        txns := txns + [OptIn(from, lstId.value)];
      }
      txns := txns + [AppCall(from, appId, Mint, map[], Some(2000), [st.tinymanAppId],
                              [asaId.value, lstId.value], [st.lpId], [])];
      txns := txns + [Payment(from, appAddr, algoAmount)];
      var asaAmount := algoAmount * st.listing.rate / 10000000000;
      if st.listing.rate > 0 {
        txns := txns + [AssetTransfer(from, appAddr, asaId.value, asaAmount)];
      }
      assert txns == MintTxns(from, appAddr, appId, asaId.value, lstId.value, st, optedIn, algoAmount);
      r := Ok(GroupTxns(txns, digest));
    }

    /** `makeRedeemTransactions`: the ASA opt-in check uses the id cached by `init`. */
    method MakeRedeemTransactions(amount: nat, sim: ListingSimulation, gs: GlobalState,
                                  holdings: seq<AssetHolding>, digest: seq<Txn> -> GroupId)
      returns (r: Result<seq<GroupedTxn>, StateError>)
      requires Valid()
      modifies this
      ensures Valid() && asaId == Some(Fixed(sim.listing).asaId) && lstId == Some(Fixed(sim.listing).lstId)
      ensures StateOf(appId, sim, gs).Err? ==> r == Err(StateOf(appId, sim, gs).error)
      ensures StateOf(appId, sim, gs).Ok? ==> r == Ok(GroupTxns(RedeemTxns(
        from, appAddr, appId, asaId.value, lstId.value, StateOf(appId, sim, gs).value,
        IsOptedIn(holdings, AsaAfterInit(old(asaId), sim)), amount), digest))
    {
      Init(sim);
      var optedIn := IsOptedIn(holdings, asaId.value);
      var state := GetState(sim, gs);
      if state.Err? {
        return Err(state.error);
      }
      var st := state.value;
      var txns: seq<Txn> := [];
      if !optedIn {
        txns := txns + [OptIn(from, asaId.value)];
      }
      txns := txns + [AssetTransfer(from, appAddr, lstId.value, amount)];
      txns := txns + [AppCall(from, appId, Redeem, map[], Some(3000), [st.tinymanAppId],
                              [asaId.value, lstId.value], [st.lpId], [])];
      assert txns == RedeemTxns(from, appAddr, appId, asaId.value, lstId.value, st, optedIn, amount);
      r := Ok(GroupTxns(txns, digest));
    }

    /** `makeSwapTransactions`: one call whose asset references come from the global state. */
    method MakeSwapTransactions(sim: ListingSimulation, gs: GlobalState, digest: seq<Txn> -> GroupId)
      returns (r: Result<seq<GroupedTxn>, StateError>)
      requires Valid()
      modifies this
      ensures Valid() && asaId == Some(Fixed(sim.listing).asaId) && lstId == Some(Fixed(sim.listing).lstId)
      ensures StateOf(appId, sim, gs).Err? ==> r == Err(StateOf(appId, sim, gs).error)
      ensures StateOf(appId, sim, gs).Ok? ==> r.Ok? && |r.value| == 1
      ensures StateOf(appId, sim, gs).Ok? ==> r.value[0].txn == AppCall(from, appId, SwapOrFail, map[], None,
        [gs.tm2AppId], [gs.asaId, gs.lstId], [Address(gs.lpId.value)], [])
    {
      Init(sim);
      var state := GetState(sim, gs);
      if state.Err? {
        return Err(state.error);
      }
      var st := state.value;
      r := Ok(GroupTxns([AppCall(from, appId, SwapOrFail, map[], None, [st.tinymanAppId],
                                 [st.listing.asaId, st.listing.lstId], [st.lpId], [])], digest));
    }

    /** `makeProtestTransactions`: only `init`, no state read. */
    method MakeProtestTransactions(amount: nat, sim: ListingSimulation, digest: seq<Txn> -> GroupId)
      returns (r: seq<GroupedTxn>)
      requires Valid()
      modifies this
      ensures Valid() && asaId == Some(AsaAfterInit(old(asaId), sim)) && lstId == Some(LstAfterInit(old(asaId), old(lstId), sim))
      ensures r == GroupTxns(ProtestTxns(from, appAddr, appId, LstAfterInit(old(asaId), old(lstId), sim), amount), digest)
    {
      Init(sim);
      var txns: seq<Txn> := [];
      txns := txns + [AssetTransfer(from, appAddr, lstId.value, amount)];
      txns := txns + [AppCall(from, appId, ProtestStake, map[], None, [], [], [], [BoxRef(0, from.publicKey)])];
      assert txns == ProtestTxns(from, appAddr, appId, lstId.value, amount);
      r := GroupTxns(txns, digest);
    }

    /** `makeUndoProtestTransactions`: the opt-in check uses the id cached by `init`. */
    method MakeUndoProtestTransactions(sim: ListingSimulation, gs: GlobalState,
                                       holdings: seq<AssetHolding>, digest: seq<Txn> -> GroupId)
      returns (r: Result<seq<GroupedTxn>, StateError>)
      requires Valid()
      modifies this
      ensures Valid() && asaId == Some(Fixed(sim.listing).asaId) && lstId == Some(Fixed(sim.listing).lstId)
      ensures StateOf(appId, sim, gs).Err? ==> r == Err(StateOf(appId, sim, gs).error)
      ensures StateOf(appId, sim, gs).Ok? ==> r == Ok(GroupTxns(UndoProtestTxns(
        from, appId, lstId.value, IsOptedIn(holdings, LstAfterInit(old(asaId), old(lstId), sim))), digest))
    {
      Init(sim);
      var optedIn := IsOptedIn(holdings, lstId.value);
      var state := GetState(sim, gs);
      if state.Err? {
        return Err(state.error);
      }
      var txns: seq<Txn> := [];
      if !optedIn {
        txns := txns + [OptIn(from, lstId.value)];
      }
      txns := txns + [AppCall(from, appId, UnprotestStake, map[], Some(2000), [], [lstId.value], [],
                              [BoxRef(0, from.publicKey)])];
      assert txns == UndoProtestTxns(from, appId, lstId.value, optedIn);
      r := Ok(GroupTxns(txns, digest));
    }

    /**
     * `makeAdminUndoProtestTransactions`: the LST opt-in check is made on the sender's
     * holdings (`senderHoldings`), and the router box is looked up only when it fails.
     */
    method MakeAdminUndoProtestTransactions(user: Address, sim: ListingSimulation, gs: GlobalState,
                                            senderHoldings: seq<AssetHolding>, routerBox: Option<seq<byte>>,
                                            digest: seq<Txn> -> GroupId)
      returns (r: Result<seq<GroupedTxn>, StateError>)
      requires Valid()
      modifies this
      ensures Valid() && asaId == Some(Fixed(sim.listing).asaId) && lstId == Some(Fixed(sim.listing).lstId)
      ensures StateOf(appId, sim, gs).Err? ==> r == Err(StateOf(appId, sim, gs).error)
      ensures StateOf(appId, sim, gs).Ok? ==> r == Ok(GroupTxns([ProtestResolution(
        from, appId, AdminUnprotestStake, user, lstId.value, gs.arc59AppId,
        IsOptedIn(senderHoldings, LstAfterInit(old(asaId), old(lstId), sim)), routerBox, 2000)], digest))
    {
      Init(sim);
      var optedIn := IsOptedIn(senderHoldings, lstId.value);
      var state := GetState(sim, gs);
      if state.Err? {
        return Err(state.error);
      }
      var st := state.value;
      var accountReferences := [user];
      if !optedIn && routerBox.Some? {
        accountReferences := accountReferences + [Address(routerBox.value)];
      }
      var call := AppCall(from, appId, AdminUnprotestStake, map[User := AddressArg(user)], Some(2000),
                          [st.arc59AppId], [lstId.value], accountReferences,
                          [BoxRef(0, user.publicKey), BoxRef(st.arc59AppId, user.publicKey)]);
      assert call == ProtestResolution(from, appId, AdminUnprotestStake, user, lstId.value, st.arc59AppId,
                                       optedIn, routerBox, 2000);
      r := Ok(GroupTxns([call], digest));
    }

    /**
     * `makeDissolveProtestTransactions`: the ASA opt-in check is made on the user's
     * holdings; the fee covers the ASA transfer only when the user can receive it.
     */
    method MakeDissolveProtestTransactions(user: Address, sim: ListingSimulation, gs: GlobalState,
                                           userHoldings: seq<AssetHolding>, routerBox: Option<seq<byte>>,
                                           digest: seq<Txn> -> GroupId)
      returns (r: Result<seq<GroupedTxn>, StateError>)
      requires Valid()
      modifies this
      ensures Valid() && asaId == Some(Fixed(sim.listing).asaId) && lstId == Some(Fixed(sim.listing).lstId)
      ensures StateOf(appId, sim, gs).Err? ==> r == Err(StateOf(appId, sim, gs).error)
      ensures StateOf(appId, sim, gs).Ok? ==>
        var optedIn := IsOptedIn(userHoldings, AsaAfterInit(old(asaId), sim));
        r == Ok(GroupTxns([ProtestResolution(from, appId, DissolveProtestingStake, user, asaId.value,
                gs.arc59AppId, optedIn, routerBox, if optedIn then 3000 else 1000)], digest))
    {
      Init(sim);
      var optedIn := IsOptedIn(userHoldings, asaId.value);
      var state := GetState(sim, gs);
      if state.Err? {
        return Err(state.error);
      }
      var st := state.value;
      var accountReferences := [user];
      if !optedIn && routerBox.Some? {
        accountReferences := accountReferences + [Address(routerBox.value)];
      }
      var call := AppCall(from, appId, DissolveProtestingStake, map[User := AddressArg(user)],
                          Some(if optedIn then 3000 else 1000), [st.arc59AppId], [asaId.value], accountReferences,
                          [BoxRef(0, user.publicKey), BoxRef(st.arc59AppId, user.publicKey)]);
      assert call == ProtestResolution(from, appId, DissolveProtestingStake, user, asaId.value, st.arc59AppId,
                                       optedIn, routerBox, if optedIn then 3000 else 1000);
      r := Ok(GroupTxns([call], digest));
    }

    /** `makeKeyregOnlineTransactions`. */
    method MakeKeyregOnlineTransactions(keys: KeyregArgs, incentiveEligible: bool, digest: seq<Txn> -> GroupId)
      returns (r: seq<GroupedTxn>)
      ensures r == GroupTxns(KeyregOnlineTxns(from, appAddr, appId, keys, incentiveEligible), digest)
    {
      var txns: seq<Txn> := [];
      var args := map[SelectionKey := BytesArg(keys.selectionKey), VotingKey := BytesArg(keys.votingKey),
                      SpKey := BytesArg(keys.spKey), FirstRound := UintArg(keys.firstRound),
                      LastRound := UintArg(keys.lastRound), KeyDilution := UintArg(keys.keyDilution),
                      Fee := UintArg(if incentiveEligible then 0 else 2_000_000)];
      txns := txns + [AppCall(from, appId, KeyregOnline, args, Some(if incentiveEligible then 2000 else 1000),
                              [], [], [], [])];
      if !incentiveEligible {
        txns := txns + [Payment(from, appAddr, 2_000_000)];
      }
      assert txns == KeyregOnlineTxns(from, appAddr, appId, keys, incentiveEligible);
      r := GroupTxns(txns, digest);
    }

    /** `makeKeyregOfflineTransactions`: one call with fee 2000 covering the inner keyreg. */
    method MakeKeyregOfflineTransactions(digest: seq<Txn> -> GroupId) returns (r: seq<GroupedTxn>)
      ensures |r| == 1 && r[0].txn == AppCall(from, appId, KeyregOffline, map[], Some(2000), [], [], [], [])
    {
      r := GroupTxns([AppCall(from, appId, KeyregOffline, map[], Some(2000), [], [], [], [])], digest);
    }

    /** `makeWithdrawNoderunnerFeesTransactions`: the state is always read. */
    method MakeWithdrawNoderunnerFeesTransactions(amount: Option<nat>, sim: ListingSimulation, gs: GlobalState,
                                                  digest: seq<Txn> -> GroupId)
      returns (r: Result<seq<GroupedTxn>, StateError>)
      modifies this
      ensures Valid() && asaId == Some(Fixed(sim.listing).asaId) && lstId == Some(Fixed(sim.listing).lstId)
      ensures StateOf(appId, sim, gs).Err? ==> r == Err(StateOf(appId, sim, gs).error)
      ensures StateOf(appId, sim, gs).Ok? ==> r.Ok? && |r.value| == 1
      ensures StateOf(appId, sim, gs).Ok? ==> r.value[0].txn == AppCall(from, appId, WithdrawNodeRunnerFees,
        map[Amount := UintArg(if amount.Some? then amount.value else gs.noderunnerFees)], Some(2000),
        [], [], [Address(gs.noderunnerAddr.value)], [])
    {
      var state := GetState(sim, gs);
      if state.Err? {
        return Err(state.error);
      }
      var st := state.value;
      var args := map[Amount := UintArg(if amount.Some? then amount.value else st.noderunnerFees)];
      r := Ok(GroupTxns([AppCall(from, appId, WithdrawNodeRunnerFees, args, Some(2000), [], [], [st.noderunnerAddr], [])],
                        digest));
    }

    /** `makeWithdrawPlatformFeesTransactions`: the state is read only when no amount is given. */
    method MakeWithdrawPlatformFeesTransactions(amount: Option<nat>, sim: ListingSimulation, gs: GlobalState,
                                                digest: seq<Txn> -> GroupId)
      returns (r: Result<seq<GroupedTxn>, StateError>)
      modifies this
      ensures amount.Some? ==> unchanged(this)
      ensures amount.None? ==> Valid() && asaId == Some(Fixed(sim.listing).asaId) && lstId == Some(Fixed(sim.listing).lstId)
      ensures amount.None? && StateOf(appId, sim, gs).Err? ==> r == Err(StateOf(appId, sim, gs).error)
      ensures amount.Some? || StateOf(appId, sim, gs).Ok? ==> r.Ok? && |r.value| == 1
      ensures amount.Some? || StateOf(appId, sim, gs).Ok? ==> r.value[0].txn == AppCall(from, appId, WithdrawPlatformFees,
        map[Amount := UintArg(if amount.Some? then amount.value else gs.platformFees)], Some(2000), [], [], [], [])
    {
      var value: nat;
      if amount.Some? {
        value := amount.value;
      } else {
        var state := GetState(sim, gs);
        if state.Err? {
          return Err(state.error);
        }
        value := state.value.platformFees;
      }
      r := Ok(GroupTxns([AppCall(from, appId, WithdrawPlatformFees, map[Amount := UintArg(value)], Some(2000),
                                 [], [], [], [])], digest));
    }

    /** `makeChangeAdminTransactions`. */
    method MakeChangeAdminTransactions(admin: Address, digest: seq<Txn> -> GroupId) returns (r: seq<GroupedTxn>)
      ensures r == GroupTxns(ChangeAdminTxns(from, appId, admin), digest)
    {
      var txns: seq<Txn> := [];
      txns := txns + [PlainCall(from, appId, ChangeAdmin1, map[NewAdmin := AddressArg(admin)])];
      txns := txns + [PlainCall(admin, appId, ChangeAdmin2, map[])];
      assert txns == ChangeAdminTxns(from, appId, admin);
      r := GroupTxns(txns, digest);
    }

    /** `makeConfigureTransaction`. */
    method MakeConfigureTransaction(a: ConfigureArgs, digest: seq<Txn> -> GroupId) returns (r: seq<GroupedTxn>)
      ensures r == GroupTxns(ConfigureTxns(from, appAddr, appId, a), digest)
    {
      var txns: seq<Txn> := [];
      txns := txns + [Payment(from, appAddr, if a.delayOptin then 202_000 else 303_000)];
      var networkConstants := MergeConstants(Defaults(a.env), a.overrides);
      var args := ConfigureAbiArgs(a);
      txns := txns + [AppCall(from, appId, Configure, args, None,
                              [networkConstants.tm2AppId, networkConstants.arc59AppId], [a.asaId], [a.lpId], [])];
      assert txns == ConfigureTxns(from, appAddr, appId, a);
      r := GroupTxns(txns, digest);
    }

    /**
     * `makeQueueUpgradeTransactions`: rejects at the first hash that is not 32 bytes long,
     * naming its index and length; otherwise queues the concatenated hashes.
     */
    method MakeQueueUpgradeTransactions(hashes: seq<seq<byte>>, digest: seq<Txn> -> GroupId)
      returns (r: Result<seq<GroupedTxn>, UpgradeError>)
      ensures r.Err? <==> !AllPageHashes(hashes)
      ensures r.Err? ==> && r.error.index < |hashes| && |hashes[r.error.index]| != 32
                         && r.error.length == |hashes[r.error.index]|
                         && AllPageHashes(hashes[..r.error.index])
      ensures r.Ok? ==> r.value == GroupTxns([PlainCall(from, appId, QueueUpgrade,
                                                        map[Hashes := BytesArg(Concat(hashes))])], digest)
    {
      for i := 0 to |hashes|
        invariant AllPageHashes(hashes[..i])
      {
        if |hashes[i]| != 32 {
          return Err(WrongHashLength(i, |hashes[i]|));
        }
        assert hashes[..i + 1] == hashes[..i] + [hashes[i]];
      }
      assert hashes[..|hashes|] == hashes;
      r := Ok(GroupTxns([PlainCall(from, appId, QueueUpgrade, map[Hashes := BytesArg(Concat(hashes))])], digest));
    }

    /** `makeUpgradeTransactions`: one application update from the sender. */
    method MakeUpgradeTransactions(approvalProgram: seq<byte>, clearProgram: seq<byte>, digest: seq<Txn> -> GroupId)
      returns (r: seq<GroupedTxn>)
      ensures |r| == 1 && r[0].txn == AppUpdate(from, appId, approvalProgram, clearProgram)
    {
      r := GroupTxns([AppUpdate(from, appId, approvalProgram, clearProgram)], digest);
    }

    /** `makeDeleteTransactions`: the deletion references the two cached assets. */
    method MakeDeleteTransactions(sim: ListingSimulation, digest: seq<Txn> -> GroupId) returns (r: seq<GroupedTxn>)
      requires Valid()
      modifies this
      ensures Valid() && asaId == Some(AsaAfterInit(old(asaId), sim)) && lstId == Some(LstAfterInit(old(asaId), old(lstId), sim))
      ensures |r| == 1
      ensures r[0].txn == AppDelete(from, appId, [AsaAfterInit(old(asaId), sim), LstAfterInit(old(asaId), old(lstId), sim)])
    {
      Init(sim);
      r := GroupTxns([AppDelete(from, appId, [asaId.value, lstId.value])], digest);
    }
  }
}
