/**
 * src/price-oracle-client.ts: the simulated `log_prices_and_tvl` call emits one log per
 * requested pool, and the client joins log `idx` back to the listing of the idx-th app id.
 */
module PriceOracleClient {
  import opened Wrappers
  import opened JsMap
  import opened Types

  /**
   * Log `logIndex` has no app id to join with: `appIds[logIndex]` is undefined, the map
   * lookup yields undefined and reading `lstId` from it throws a TypeError.
   */
  datatype OracleError = MissingListing(logIndex: nat)

  /** `listings.map(a => a.appId)`. */
  function ListingAppIds(listings: seq<ContractListing>): (r: seq<nat>)
    ensures |r| == |listings| && forall i :: 0 <= i < |listings| ==> r[i] == listings[i].appId
  {
    seq(|listings|, i requires 0 <= i < |listings| => listings[i].appId)
  }

  function ListingPairsById(listings: seq<ContractListing>): (r: seq<(nat, ContractListing)>)
    ensures |r| == |listings| && forall i :: 0 <= i < |listings| ==> r[i] == (listings[i].appId, listings[i])
  {
    seq(|listings|, i requires 0 <= i < |listings| => (listings[i].appId, listings[i]))
  }

  /** `new Map(listings.map(l => [l.appId, l]))`. */
  function ListingsById(listings: seq<ContractListing>): (r: OrderedMap<nat, ContractListing>)
    ensures r.Valid()
  {
    FromPairsValid(ListingPairsById(listings));
    FromPairs(ListingPairsById(listings))
  }

  /** Every listing's app id is a key of the lookup map, so the `!` lookup of a listed id succeeds. */
  lemma ListingsByIdHas(listings: seq<ContractListing>, i: nat)
    requires i < |listings|
    ensures listings[i].appId in ListingsById(listings).entries
  {
    FromPairsKeys(ListingPairsById(listings), listings[i].appId);
    assert ListingPairsById(listings)[i].0 == listings[i].appId;
  }

  /** With duplicate app ids the lookup map keeps the last listing for that id. */
  lemma ListingsByIdLastWins(listings: seq<ContractListing>, j: nat)
    requires j < |listings|
    requires forall m :: j < m < |listings| ==> listings[m].appId != listings[j].appId
    ensures listings[j].appId in ListingsById(listings).entries
    ensures ListingsById(listings).entries[listings[j].appId] == listings[j]
  {
    FromPairsLastWins(ListingPairsById(listings), listings[j].appId, j);
  }

  /** The joined entry: the five listing fields, then the decoded oracle fields. */
  function JoinEntry(appId: nat, listing: ContractListing, tvl: PriceAndTvl): (e: PriceAndTvlEntry)
    ensures e.appId == appId && e.dualStakeAsaId == listing.lstId && e.dualStakeName == listing.lstName
    ensures e.pairedAsaId == listing.asaId && e.pairedAsaUnitName == listing.asaUnitName && e.oracle == tvl
  {
    PriceAndTvlEntry(appId, listing.lstId, listing.lstName, listing.asaId, listing.asaUnitName, tvl)
  }

  /** The pairs set by the first `n` iterations: log `i` joined under the i-th app id. */
  function PricePairsUpTo(listings: seq<ContractListing>, logs: seq<PriceAndTvl>, n: nat): (r: seq<(nat, PriceAndTvlEntry)>)
    requires n <= |logs| && n <= |listings|
    ensures |r| == n
    ensures forall i :: 0 <= i < n ==> r[i].0 == listings[i].appId
  {
    var byId := ListingsById(listings);
    seq(n, i requires 0 <= i < n =>
      ListingsByIdHas(listings, i);
      (listings[i].appId, JoinEntry(listings[i].appId, byId.entries[listings[i].appId], logs[i])))
  }

  /** One more iteration appends one more pair. */
  lemma PricePairsUpToStep(listings: seq<ContractListing>, logs: seq<PriceAndTvl>, n: nat)
    requires n < |logs| && n < |listings|
    ensures listings[n].appId in ListingsById(listings).entries
    ensures PricePairsUpTo(listings, logs, n + 1) == PricePairsUpTo(listings, logs, n)
      + [(listings[n].appId, JoinEntry(listings[n].appId, ListingsById(listings).entries[listings[n].appId], logs[n]))]
  {
    ListingsByIdHas(listings, n);
    var a := PricePairsUpTo(listings, logs, n + 1);
    var b := PricePairsUpTo(listings, logs, n);
    assert forall i :: 0 <= i < n ==> a[i] == b[i];
  }

  function PricePairs(listings: seq<ContractListing>, logs: seq<PriceAndTvl>): (r: seq<(nat, PriceAndTvlEntry)>)
    requires |logs| <= |listings|
    ensures |r| == |logs|
    ensures forall i :: 0 <= i < |logs| ==> r[i].0 == listings[i].appId
  {
    PricePairsUpTo(listings, logs, |logs|)
  }

  /** `confirmations[0].logs ?? []`. */
  function LogsOrEmpty(logs: Option<seq<PriceAndTvl>>): seq<PriceAndTvl>
  {
    if logs.Some? then logs.value else []
  }

  /** What `getPricesAndTVL` returns for the given listings and simulated logs. */
  function PairPrices(listings: seq<ContractListing>, logs: Option<seq<PriceAndTvl>>): (r: Result<OrderedMap<nat, PriceAndTvlEntry>, OracleError>)
    ensures r.Err? <==> |LogsOrEmpty(logs)| > |listings|
    ensures r.Err? ==> r.error == MissingListing(|listings|)
    ensures r.Ok? ==> r.value.Valid()
  {
    var ls := LogsOrEmpty(logs);
    if |ls| > |listings| then Err(MissingListing(|listings|))
    else
      FromPairsValid(PricePairs(listings, ls));
      Ok(FromPairs(PricePairs(listings, ls)))
  }

  /** No logs is an empty result, not an error. */
  lemma AbsentLogsGiveEmptyMap(listings: seq<ContractListing>)
    ensures PairPrices(listings, None) == Ok(Empty())
    ensures PairPrices(listings, Some([])) == Ok(Empty())
  {
    assert PricePairs(listings, []) == [];
  }

  /** The result has a key for the idx-th app id exactly when there is a log `idx`. */
  lemma PairPricesKeys(listings: seq<ContractListing>, logs: Option<seq<PriceAndTvl>>, k: nat)
    requires PairPrices(listings, logs).Ok?
    ensures k in PairPrices(listings, logs).value.entries <==> k in ListingAppIds(listings)[..|LogsOrEmpty(logs)|]
  {
    var ls := LogsOrEmpty(logs);
    var pairs := PricePairs(listings, ls);
    var ids := ListingAppIds(listings);
    assert PairPrices(listings, logs).value == FromPairs(pairs);
    if k in ids[..|ls|] {
      var i :| 0 <= i < |ls| && ids[..|ls|][i] == k;
      FromPairsHasIndex(pairs, i);
    }
    if k in FromPairs(pairs).entries {
      var i := FromPairsKeyIndex(pairs, k);
      assert ids[..|ls|][i] == k;
    }
  }

  /**
   * The entry of the idx-th app id (taking its last log) is that id joined with the last
   * listing carrying the id and with the decoded log.
   */
  lemma PairPricesEntry(listings: seq<ContractListing>, logs: seq<PriceAndTvl>, idx: nat, j: nat)
    requires idx < |logs| <= |listings|
    requires forall m :: idx < m < |logs| ==> listings[m].appId != listings[idx].appId
    requires j < |listings| && listings[j].appId == listings[idx].appId
    requires forall m :: j < m < |listings| ==> listings[m].appId != listings[j].appId
    ensures PairPrices(listings, Some(logs)).Ok?
    ensures listings[idx].appId in PairPrices(listings, Some(logs)).value.entries
    ensures PairPrices(listings, Some(logs)).value.entries[listings[idx].appId]
            == JoinEntry(listings[idx].appId, listings[j], logs[idx])
  {
    var pairs := PricePairs(listings, logs);
    assert pairs[idx].0 == listings[idx].appId;
    FromPairsLastWins(pairs, listings[idx].appId, idx);
    ListingsByIdLastWins(listings, j);
  }

  /**
   * `getPricesAndTVL`: the index loop over the logs, each joined with the listing of
   * `appIds[idx]` and set into `tvlStates`.
   */
  method GetPricesAndTVL(listings: seq<ContractListing>, logs: Option<seq<PriceAndTvl>>)
    returns (r: Result<OrderedMap<nat, PriceAndTvlEntry>, OracleError>)
    ensures r == PairPrices(listings, logs)
  {
    var appIds := ListingAppIds(listings);
    var listingsMap := ListingsById(listings);
    var tvlStates: OrderedMap<nat, PriceAndTvlEntry> := Empty();
    var ls := if logs.Some? then logs.value else [];
    for idx := 0 to |ls|
      invariant idx <= |listings|
      invariant tvlStates == FromPairs(PricePairsUpTo(listings, ls, idx))
    {
      if idx >= |appIds| {
        return Err(MissingListing(idx));
      }
      var appId := appIds[idx];
      ListingsByIdHas(listings, idx);
      var listing := listingsMap.entries[appId];
      tvlStates := Set(tvlStates, appId, JoinEntry(appId, listing, ls[idx]));
      PricePairsUpToStep(listings, ls, idx);
    }
    r := Ok(tvlStates);
  }
}
