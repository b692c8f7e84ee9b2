# dualSTAKE TypeScript SDK — a Dafny model of its client core

The dualSTAKE SDK is the off-chain client of three Algorand contracts:
- a **registry** that records the deployed pool apps in boxes;
- one **pool app** per paired ASA, which mints and redeems a liquid staking token (LST) against ALGO plus the paired ASA;
- a **price oracle** that reports the price and TVL of a batch of pools in one simulated call.

The model covers what the SDK computes between its ledger reads and the transaction groups it returns:

| file | models |
|---|---|
| `bytes.dfy` | algosdk's uint64 codec (`decodeUint64` in safe and bigint modes, `encodeUint64`), `Uint8Array.slice` clamping, hex text |
| `jsmap.dfy` | a JavaScript `Map`: insertion-ordered keys, `set` overwriting in place; `Valid` states that each key is listed once and the listed keys are the domain, which every map the SDK builds satisfies |
| `types.dfy` | the records of `src/types.ts`, plus an abstract view of the transactions the builders emit (ABI argument names are the enumeration `ArgName`) |
| `utils.dfy` | `src/utils.ts`: `chunk`, `mergeMaps`, `parseFeeUpdate`, `parseContractUpgrade`, `fixContractListing` (an in-place update of a listing object), `replaceTemplateVars`, `isOptedIn`, `groupTxns` |
| `network_constants.dfy` | `src/network-constants.ts` |
| `registry_client.dfy` | `src/registry-client.ts`: box-name and box-value decoding, `getContractListings`, the assign and unassign builders |
| `price_oracle_client.dfy` | `src/price-oracle-client.ts`: joining oracle logs with listings by position |
| `dualstake.dfy` | `src/dualstake.ts`: the batch coordinator (chunks of 32 listings and 42 prices, merged in chunk order, with the known-listings fast path) |
| `dualstake_client.dfy` | `src/dualstake-client.ts`: `getState`'s assembly of the pool state, the `asaId`/`lstId` cache of `init`/`getListing` as a class with mutable fields, and the pool's transaction builders |

Each method that loops or updates state is proved against a specification function:
- `Chunk` against `ChunkOf`;
- `MergeMaps` against `MergeAll`;
- the listing and price loops against `FromPairs` of their pairs;
- every builder against the list of transactions it must produce.

The lemmas then prove what the SDK relies on about those functions:
- codec round trips (fee-update blob, upgrade blob, uint64, box keys);
- the chunking arithmetic (70 ids take reads of 32, 32 and 6);
- last-wins merging and key coverage of the batch maps;
- the partition of known listings from bare ids.

Points where the code behaves differently from what a reader might expect, modelled as the code is written:
- Chunk results are merged with `mergeMaps`, and a later map overwrites an earlier one for the same key (`Utils.MergeLastWins`). Later chunks are not kept from overwriting.
- `getState` treats only the byte-valued global keys as required. A missing integer key is passed on as `undefined` (the `!` is a type assertion only), so the integer keys are modelled as present.
- The protest boxes are named by the user's raw 32-byte public key, in the pool app and in the ARC-59 app alike. No tag byte is prefixed.
- `makeAdminUndoProtestTransactions` checks the **sender's** LST holdings before it looks up the user's router box. `makeDissolveProtestTransactions` checks the user's ASA holdings. Both are modelled as written.
- `getListing` rewrites the cached `asaId`/`lstId` on every call, including the one inside every `getState`. They are not write-once.

## Model

| member | source | states |
|---|---|---|
| Bytes.DecodeUint64 | src/utils.ts:38-46 | decoding succeeds exactly for 1 to 8 bytes and, in safe mode, a value at most 2^53-1; the value is the big-endian number and is below 2^64 |
| Bytes.EncodeUint64 | src/registry-client.ts:126-129 | encoding succeeds exactly below 2^64 and gives 8 bytes whose big-endian value is the input |
| Bytes.Uint64RoundTrip | src/registry-client.ts:126-129 | decoding an encoded id gives it back in bigint mode, and in safe mode exactly when it is a safe integer |
| Bytes.DecodeEncode | src/registry-client.ts:126-129 | the big-endian value of a fixed-width encoding is the encoded number |
| Bytes.EncodeDecode | src/utils.ts:38-46 | re-encoding a decoded byte string at its width gives the same bytes |
| Bytes.Slice | src/utils.ts:42-44 | `slice` clamps to the input: the length is min(to, len) - from, or 0 |
| Bytes.HexRoundTrip | src/utils.ts:53-55 | the hex text of a page hash has only hex digits and decodes back to the hash |
| JsMap.Set | src/utils.ts:149-157 | `Map.set` overwrites an existing key in place and appends a new key at the end |
| JsMap.SetValid | src/utils.ts:149-157 | `Map.set` keeps every key listed once, and the listed keys the domain |
| JsMap.FromPairsValid | src/price-oracle-client.ts:82-84 | a map built from pairs is well formed |
| JsMap.SetPrefixValid | src/utils.ts:149-157 | setting the entries of one well-formed map into another keeps it well formed |
| JsMap.Values | src/dualstake.ts:150 | `values()` lists the entries in key-insertion order |
| JsMap.FromPairsLastWins | src/price-oracle-client.ts:82-84 | a map built from pairs holds the last value given for each key |
| JsMap.FromPairsKeys | src/price-oracle-client.ts:82-84 | a key is present exactly when some pair carries it |
| JsMap.SetAllEntries | src/dualstake.ts:143-145 | setting every entry of one map into another gives the union with the second map winning |
| JsMap.SetAllIntoEmpty | src/utils.ts:149-157 | copying a map into an empty map reproduces it, key order included |
| Utils.ChunkFlatten | src/utils.ts:66-79 | concatenating the chunks gives the input back |
| Utils.ChunkSizes | src/utils.ts:66-79 | every chunk but the last is full; an empty input gives one empty chunk; the last chunk of a non-empty input has 1 to `num` elements |
| Utils.ChunkCount | src/utils.ts:66-79 | a non-empty input of n elements takes ceil(n / num) chunks |
| Utils.ChunkAppendPage | src/utils.ts:66-79 | appending one page to a full-page prefix appends one chunk |
| Utils.FlattenMember | src/utils.ts:66-79 | an element is in the flattened chunks exactly when it is in one of them |
| Utils.Chunk | src/utils.ts:66-79 | the reduce loop yields the chunking, whose concatenation is the input |
| Utils.MergeValid | src/utils.ts:149-157 | the merge of well-formed maps is well formed |
| Utils.MergeKeys | src/utils.ts:149-157 | the merged map has a key exactly when one of the maps has it |
| Utils.MergeLastWins | src/utils.ts:149-157 | the merged value of a key is the one from the last map holding it |
| Utils.MergeCopies | src/dualstake.ts:147-152 | merging copies of one map gives that map |
| Utils.MergeValueFrom | src/utils.ts:149-157 | every merged value comes from one of the input maps |
| Utils.MergeMaps | src/utils.ts:149-157 | the nested set loop computes the merge |
| Utils.ParseFeeUpdate | src/utils.ts:38-46 | an empty blob is no update; 1 to 16 bytes fail; from 24 bytes, decoding succeeds exactly when all three fields are safe integers; the fields are bytes [0,8), [8,16) and [16,24) |
| Utils.FeeUpdateRoundTrip | src/utils.ts:38-46 | an encoded fee update decodes back to itself exactly when its three fields are safe integers |
| Utils.ParseContractUpgrade | src/utils.ts:48-60 | never fails; an empty blob is no upgrade; the timestamp is bytes [0,4) and the hashes are the 32-byte pages of the rest, in hex |
| Utils.ShortUpgradeBlobHasOneEmptyHash | src/utils.ts:48-60 | a blob of 1 to 4 bytes yields one empty page hash |
| Utils.ChunkOfPages | src/utils.ts:53-55 | concatenated 32-byte pages chunk back into the same pages |
| Utils.UpgradeRoundTrip | src/utils.ts:48-60 | a 4-byte timestamp followed by 32-byte page hashes parses back to that timestamp and those hashes |
| Utils.ToNumber | src/utils.ts:144-147 | `Number(x)` keeps the value and makes it a plain number |
| Utils.Fixed | src/utils.ts:144-147 | the fix-up changes only `asaDecimals`, to a plain number of the same value |
| Utils.ListingObject.FromTuple | src/utils.ts:121-142 | the object built from the 15-field tuple holds its fields positionally |
| Utils.FixContractListing | src/utils.ts:144-147 | narrows `asaDecimals` of the given object in place and returns that same object |
| Utils.ContractListingFromTupleFixed | src/utils.ts:121-142 | a fresh listing object holding the fixed tuple |
| Utils.Decimal | src/utils.ts:88-90 | `String(value)` of a number is a non-empty run of decimal digits |
| Utils.DecimalRoundTrip | src/utils.ts:88-90 | the decimal text of a number reads back as that number |
| Utils.ReplaceAbsent | src/utils.ts:88-90 | a global replace of an absent pattern leaves the text unchanged |
| Utils.ReplaceFirstOccurrence | src/utils.ts:88-90 | a global replace rewrites the first occurrence and continues after the replacement |
| Utils.MergeConstants | src/utils.ts:86 | without overrides the defaults are kept; a present override wins; an absent one keeps the default |
| Utils.ReplaceTemplateVars | src/utils.ts:81-93 | the loop replaces `TMPL_<key>` by each merged constant, in key order |
| Utils.IsOptedIn | src/utils.ts:25-36 | an account is opted in exactly when one of its holdings is for the asset |
| Utils.GroupTxns | src/utils.ts:103-111 | every transaction keeps its position and all carry one group id, the digest of the ordered list |
| Utils.Ungrouped | src/utils.ts:103-111 | the transactions of a group, in order |
| Networks.Defaults | src/network-constants.ts:1-28 | both environments use rate precision 1e10, a fee delta of 250 bps and a 65M ALGO cap; PROD stages upgrades and fee updates for one week and names the mainnet Tinyman and ARC-59 apps; DEV uses one hour and one day |
| RegistryClient.PoolBoxId | src/registry-client.ts:44-51 | a 9-byte box name names the big-endian id in bytes [1,9), below 2^64 |
| RegistryClient.AvailableContractIds | src/registry-client.ts:44-51 | at most one id per box name |
| RegistryClient.AvailableContractIdsMembers | src/registry-client.ts:44-51 | an id is reported exactly when some 9-byte name carries it |
| RegistryClient.AvailableContractIdsAppend | src/registry-client.ts:44-51 | the filter keeps box order |
| RegistryClient.MappingOf | src/registry-client.ts:53-63 | an 8-byte box decodes exactly when its value has at least 9 bytes; ASA id from the name, LST id from value bytes [0,8), app id from bytes [8,16) |
| RegistryClient.MappingBoxes | src/registry-client.ts:55 | only 8-byte boxes are mapping entries |
| RegistryClient.AvailableContracts | src/registry-client.ts:53-63 | succeeds exactly when every mapping box has a value of at least 9 bytes, and then yields one mapping per mapping box |
| RegistryClient.AvailableContractsInOrder | src/registry-client.ts:53-63 | the j-th mapping is the decoding of the j-th mapping box |
| RegistryClient.AppBoxKey | src/registry-client.ts:126-129 | the pool key is `'a'` followed by the 8-byte app id, and fails for ids of 2^64 or more |
| RegistryClient.AsaBoxKey | src/registry-client.ts:137 | the mapping key is the 8-byte ASA id |
| RegistryClient.BoxKeysRoundTrip | src/registry-client.ts:44-63 | the keys the assign builder writes read back as that pool id and that one mapping box |
| RegistryClient.MappingRoundTrip | src/registry-client.ts:53-63 | a mapping stored in the registry's layout decodes to itself |
| RegistryClient.ListingPairs | src/registry-client.ts:86-101 | log i becomes the fixed listing of the i-th requested id, stamped with that id and the round |
| RegistryClient.PairListingsKeys | src/registry-client.ts:86-101 | the result has a key exactly for the requested ids that received a log |
| RegistryClient.PairListingsLastLog | src/registry-client.ts:86-101 | the entry of a repeated id comes from its last log |
| RegistryClient.PairListingsEntries | src/registry-client.ts:86-101 | every entry carries its own key as app id, and the simulation round |
| RegistryClient.GetContractListings | src/registry-client.ts:65-104 | the log loop builds the paired map |
| RegistryClient.MakeAssignContractTransactions | src/registry-client.ts:106-145 | fails exactly when an id is 2^64 or more, the app id first; otherwise a 12100 microALGO box payment to the registry, then the assign call referencing the pool app and both boxes; the box names read back as the pool id |
| RegistryClient.MakeUnassignContractTransactions | src/registry-client.ts:147-177 | fails exactly when an id is 2^64 or more, the ASA id first; otherwise one unassign call with the mapping key as argument and both boxes referenced |
| PriceOracleClient.ListingAppIds | src/price-oracle-client.ts:80 | the app ids of the listings, in order |
| PriceOracleClient.ListingsByIdHas | src/price-oracle-client.ts:82-84 | every listed app id is a key of the lookup map |
| PriceOracleClient.ListingsByIdLastWins | src/price-oracle-client.ts:82-84 | a repeated app id looks up its last listing |
| PriceOracleClient.JoinEntry | src/price-oracle-client.ts:113-120 | the entry takes the LST id and name and the ASA id and unit name from the listing, and the oracle values from the log |
| PriceOracleClient.PairPrices | src/price-oracle-client.ts:77-124 | fails exactly when there are more logs than listings, naming the first unmatched log |
| PriceOracleClient.AbsentLogsGiveEmptyMap | src/price-oracle-client.ts:104 | missing or empty logs give an empty result, not an error |
| PriceOracleClient.PairPricesKeys | src/price-oracle-client.ts:105-121 | the result has a key exactly for the app ids that received a log |
| PriceOracleClient.PairPricesEntry | src/price-oracle-client.ts:105-121 | an id's entry joins its last log with its last listing |
| PriceOracleClient.GetPricesAndTVL | src/price-oracle-client.ts:77-124 | the index loop computes the paired result, including its error |
| DualStake.ChunkListings | src/dualstake.ts:98-102 | one registry read per chunk, in chunk order |
| DualStake.GetContractListings | src/dualstake.ts:93-104 | requests chunks of 32 ids that concatenate to the input (one empty chunk for no ids) and returns their merge |
| DualStake.SeventyIdsTakeThreeReads | src/dualstake.ts:98 | 70 ids take three reads, of 32, 32 and 6 ids |
| DualStake.ContractListingsEntries | src/dualstake.ts:93-104 | every merged key was requested and its listing carries it as app id |
| DualStake.CompleteRepliesCoverAllIds | src/dualstake.ts:93-104 | when each read returns one log per id, the merged keys are exactly the requested ids |
| DualStake.AppIdsOf | src/dualstake.ts:129-131 | a bare id stays itself; a listing contributes its app id |
| DualStake.HaveNeedPartition | src/dualstake.ts:132-133 | the known listings and the bare ids partition the input |
| DualStake.HaveNeedAppend | src/dualstake.ts:132-133 | both filters keep input order |
| DualStake.SetListingsLastWins | src/dualstake.ts:143-145 | setting fetched listings keeps the last one for each app id |
| DualStake.SetListingsKeeps | src/dualstake.ts:143-145 | ids not fetched keep their known listing |
| DualStake.FetchedListingsOverride | src/dualstake.ts:134-146 | a fetched listing replaces a known one for the same id; other known listings stay |
| DualStake.FetchListingsMap | src/dualstake.ts:134-146 | reads the registry only when some ids are bare, in chunks of 32 |
| DualStake.MergedPrices | src/dualstake.ts:149-152 | the merged oracle read fails with `MissingListing` of the request size when any call fails, and its map is well formed |
| DualStake.MergedPricesFails | src/dualstake.ts:149-152 | the merged read fails exactly when some call logs more entries than there are listings |
| DualStake.MergedPricesKeys | src/dualstake.ts:149-152 | an app id is in the merged map exactly when some oracle call priced it |
| DualStake.MergedPricesLastWins | src/dualstake.ts:149-152 | a merged entry is the one from the last oracle call that priced its app id |
| DualStake.MergedPricesSameReplies | src/dualstake.ts:149-152 | when every oracle call logs the same, the merged read equals one call's reply |
| DualStake.QueryOracle | src/dualstake.ts:147-152 | every oracle call is sent the same full listing set, and the loop's result is the first failure or the call-order merge of every call's map |
| DualStake.GetPricesAndTVL | src/dualstake.ts:125-153 | registry reads only for bare ids; one oracle call per chunk of 42 ids, each sent every listing; the result is the merge of those calls' replies |
| DualStake.GetAvailablePricesAndTVL | src/dualstake.ts:83-90 | the registry's pool ids are read in chunks of 32 and all passed on as known listings |
| DualStake.OnlyListings | src/dualstake.ts:118-123 | passing only listings needs no registry read |
| DualStakeClient.BuildState | src/dualstake-client.ts:116-177 | fails exactly when a byte key is missing or the fee-update blob does not decode, the first failing key in literal order deciding the error; otherwise the listing with `asaId`, `lstId` and `staked` overridden by global state, `delayOptin` true only for a present non-zero value, addresses from their key bytes, and the Tinyman app from `tm2AppId` |
| DualStakeClient.StateFeeUpdateRoundTrip | src/dualstake-client.ts:169 | a stored fee update with safe fields reads back unchanged through `getState`, and an empty blob as none |
| DualStakeClient.StateUpgradeRoundTrip | src/dualstake-client.ts:172 | a stored upgrade reads back as its timestamp and hex page hashes |
| DualStakeClient.MintAsaAmount | src/dualstake-client.ts:233 | the ASA deposit is the ALGO amount priced at the rate over RATE_PRECISION, rounded down, and never exceeds it while the rate is at most 1 |
| DualStakeClient.MintTxns | src/dualstake-client.ts:193-245 | an LST opt-in first exactly when the sender holds no LST; the mint call with fee 2000 referencing Tinyman, both assets and the LP account; the ALGO payment right after the call; the ASA deposit exactly when the rate is positive |
| DualStakeClient.RedeemTxns | src/dualstake-client.ts:262-297 | an ASA opt-in first exactly when the sender holds no ASA; the LST deposit; then the redeem call with fee 3000 |
| DualStakeClient.ProtestTxns | src/dualstake-client.ts:327-349 | the LST deposit, then the protest call naming the sender's box |
| DualStakeClient.UndoProtestTxns | src/dualstake-client.ts:362-392 | an LST opt-in exactly when needed, then the unprotest call with fee 2000 naming the sender's box |
| DualStakeClient.RouterAccounts | src/dualstake-client.ts:409-422 | the user, then the router box's address exactly when the opt-in check failed and the box was found |
| DualStakeClient.ProtestResolution | src/dualstake-client.ts:424-435 | the call references the ARC-59 app, the user's box in both apps and the router accounts |
| DualStakeClient.KeyregOnlineTxns | src/dualstake-client.ts:485-531 | when not incentive eligible, the call asks the app to pay the 2 ALGO fee and a payment of exactly that amount follows (fee 1000); otherwise the fee argument is 0 (fee 2000) |
| DualStakeClient.ChangeAdminTxns | src/dualstake-client.ts:616-641 | the current admin names the new admin, whose acceptance call follows in the same group |
| DualStakeClient.ConfigureMbr | src/dualstake-client.ts:672-679 | delaying the opt-in saves 101000 microALGO of the 303000 MBR payment |
| DualStakeClient.ConfigureAbiArgsFields | src/dualstake-client.ts:681-697 | configure passes exactly the nine named fields, as given (the pool account as its public key), and the seven network constants, the user's overrides winning over the environment defaults |
| DualStakeClient.ConfigureTxns | src/dualstake-client.ts:654-711 | the MBR payment, then the configure call referencing the merged Tinyman and ARC-59 apps, the ASA and the LP account |
| DualStakeClient.ConfigureDefaults | src/dualstake-client.ts:681-684 | without overrides, configure passes the environment's defaults |
| DualStakeClient.ConcatLength | src/dualstake-client.ts:770 | the queued bytes are 32 per page hash |
| DualStakeClient.QueuedHashesReadBack | src/dualstake-client.ts:757-775 | queued hashes come back from `parseContractUpgrade` once the contract prefixes their timestamp |
| DualStakeClient.Client.constructor | src/dualstake-client.ts:43-61 | a new client has nothing cached |
| DualStakeClient.Client.GetListing | src/dualstake-client.ts:73-95 | caches the fixed listing's ASA and LST ids and returns the listing stamped with round and app id |
| DualStakeClient.Client.Init | src/dualstake-client.ts:63-67 | fetches the listing exactly when no ASA id, or 0, is cached, and otherwise changes nothing |
| DualStakeClient.Client.GetState | src/dualstake-client.ts:116-177 | refreshes the cache, even when the state then fails, and returns the assembled state |
| DualStakeClient.Client.MakeMintTransactions | src/dualstake-client.ts:183-248 | the opt-in check uses the LST id cached by `init` and the transactions use the ids `getState` re-caches; a failing state fails the builder |
| DualStakeClient.Client.MakeRedeemTransactions | src/dualstake-client.ts:250-300 | the redeem group, with the ASA opt-in decided on the id cached by `init` |
| DualStakeClient.Client.MakeSwapTransactions | src/dualstake-client.ts:302-318 | one swap call whose asset references come from the global state; afterwards both cached ids are the fixed listing's |
| DualStakeClient.Client.MakeProtestTransactions | src/dualstake-client.ts:320-352 | the protest group for the cached LST id, without reading the state; afterwards the cache holds the ids `init` settles on |
| DualStakeClient.Client.MakeUndoProtestTransactions | src/dualstake-client.ts:354-395 | the unprotest group, with the opt-in decided on the id cached by `init`; afterwards both cached ids are the fixed listing's |
| DualStakeClient.Client.MakeAdminUndoProtestTransactions | src/dualstake-client.ts:397-438 | one admin-unprotest call with fee 2000 on the cached LST id; the router account is added only when the sender's opt-in check fails; afterwards both cached ids are the fixed listing's |
| DualStakeClient.Client.MakeDissolveProtestTransactions | src/dualstake-client.ts:440-483 | one dissolve call on the cached ASA id; fee 3000 when the user holds the ASA, else 1000 and the router account if found; afterwards both cached ids are the fixed listing's |
| DualStakeClient.Client.MakeKeyregOnlineTransactions | src/dualstake-client.ts:485-531 | the push sequence builds the key-registration group |
| DualStakeClient.Client.MakeKeyregOfflineTransactions | src/dualstake-client.ts:533-542 | one offline call with fee 2000 |
| DualStakeClient.Client.MakeWithdrawNoderunnerFeesTransactions | src/dualstake-client.ts:544-561 | withdraws the given amount, or all accrued node-runner fees, referencing the node runner; afterwards both cached ids are the fixed listing's |
| DualStakeClient.Client.MakeWithdrawPlatformFeesTransactions | src/dualstake-client.ts:563-583 | reads the state only when no amount is given, and then withdraws all accrued platform fees and leaves both cached ids the fixed listing's |
| DualStakeClient.Client.MakeChangeAdminTransactions | src/dualstake-client.ts:616-641 | the push sequence builds the admin hand-over group |
| DualStakeClient.Client.MakeConfigureTransaction | src/dualstake-client.ts:654-711 | the push sequence builds the configure group |
| DualStakeClient.Client.MakeQueueUpgradeTransactions | src/dualstake-client.ts:757-775 | fails exactly when some hash is not 32 bytes, naming the first such index and its length; otherwise queues the concatenated hashes |
| DualStakeClient.Client.MakeUpgradeTransactions | src/dualstake-client.ts:800-819 | one application update from the sender with the two programs |
| DualStakeClient.Client.MakeDeleteTransactions | src/dualstake-client.ts:821-838 | one deletion referencing the two ids cached by `init`, which the cache then holds |

## Left out

- Network I/O is modelled as inputs: simulate calls, `getTransactionParams`, `accountInformation`, `getBoxNames`/`getBoxValues`, `getApplicationBoxByName` and the global-state read. A failing read is not modelled, apart from the swallowed router-box lookup, which is `None`.
- Concurrency (`Promise.all`, `REQUEST_CONCURRENCY`) is modelled as sequential calls in chunk order. Each oracle call gets its own reply, so calls may see different rounds; every oracle failure is the same error, so which call rejects first does not change the result.
- `groupTxns`: the SHA-512/256 group-id derivation is the abstract `digest` over the ordered list, and transaction re-encoding is left out.
- ABI tuple decoding of listing and oracle logs, `ContractListingFromTuple`'s positional mapping, and address checksums are left out. Addresses are their 32-byte public keys, and `encodeAddress` is taken not to reject other lengths.
- `lpType` is kept as its bytes; the `asString()` text decoding and `strToUint` are not modelled.
- Suggested params, signers and the generated client's default sender are left out. Calls without an explicit sender are modelled as sent by `from`.
- Pool and registry app addresses are inputs: `getApplicationAddress` is not modelled.
- Left out as I/O or randomness: `genLease`, `compile`, `makeVanityConfigureTransaction`, `getRate`, `getNeedSwap`, `parseArc28EventSpec`, `createMethodSelectorMap`, base-client deployment helpers and the example scripts.
- `makeChangeNoderunnerTransactions`, `makeChangeFeeAdminTransactions`, `makeUpdateMaxBalance(Transactions)`, `makeConfigure2Transaction`, `makeQueueUpdateFeesTransactions`, `makeResetUpdateFeesTransactions` and `makeResetUpgradeTransactions` are not modelled. Each is one call forwarding its arguments, with no reference, fee or state logic to state.
- `DualStake.getAvailableContractIDs` and `getAvailableContracts` only delegate to the registry client, which is modelled.
- RegistryClient.GetContractListings: requires no more logs than requested ids. An extra log would be keyed by `undefined`, which the model's natural-number keys cannot express.
- DualStakeClient.BuildState: integer global keys are taken as present. A missing one would flow on as `undefined`.
- PriceOracleClient.JoinEntry: the oracle's four values sit in their own `oracle` field rather than spread over the entry. The source spreads them last, so a same-named listing key would be overridden; the oracle tuple has no field named like a listing key (its type lives in the generated client, which is not part of this model), so that override never takes effect.
- Utils.MergeConstants: an override key present with the value `undefined` (which would erase the default) is not modelled; an absent override is `None`.
- Values are unbounded naturals. Transaction amounts and ids are not checked against 2^64 except where an `encodeUint64` would throw.
