/**
 * src/dualstake.ts: batched reads. App ids are cut into chunks (32 per registry listing
 * simulation, 42 per oracle simulation) and the per-chunk maps are merged. The simulations
 * are inputs: `simulate` stands for the registry's `log_dualstake_listings` simulation, given
 * the ids it is asked about, and `oracle` for the price oracle's `log_prices_and_tvl`
 * simulation, given the call's number and its ids. The calls run concurrently in the source;
 * here they run in chunk order.
 */
module DualStake {
  import opened Wrappers
  import opened Bytes
  import opened JsMap
  import opened Types
  import opened Utils
  import RegistryClient
  import opened PriceOracleClient

  const LISTINGS_CHUNK: nat := 32
  const PRICES_CHUNK: nat := 42

  /** What one registry simulation yields: the decoded listing logs and the last round. */
  datatype ListingsReply = ListingsReply(logs: seq<ListingTuple>, lastRound: nat)

  /** The registry contract logs at most one listing per requested app id. */
  ghost predicate OneLogPerId(simulate: seq<nat> -> ListingsReply)
  {
    forall ids :: |simulate(ids).logs| <= |ids|
  }

  /** The registry answers every requested app id. */
  ghost predicate CompleteReplies(simulate: seq<nat> -> ListingsReply)
  {
    forall ids :: |simulate(ids).logs| == |ids|
  }

  /** The map `getContractListings` of the registry client returns for one chunk. */
  function ChunkListing(ids: seq<nat>, simulate: seq<nat> -> ListingsReply): OrderedMap<nat, ContractListing>
    requires OneLogPerId(simulate)
  {
    RegistryClient.PairListings(ids, simulate(ids).logs, simulate(ids).lastRound)
  }

  function ChunkListings(chunks: seq<seq<nat>>, simulate: seq<nat> -> ListingsReply): (r: seq<OrderedMap<nat, ContractListing>>)
    requires OneLogPerId(simulate)
    ensures |r| == |chunks| && forall i :: 0 <= i < |chunks| ==> r[i] == ChunkListing(chunks[i], simulate)
  {
    seq(|chunks|, i requires 0 <= i < |chunks| => ChunkListing(chunks[i], simulate))
  }

  lemma ChunkListingsValid(chunks: seq<seq<nat>>, simulate: seq<nat> -> ListingsReply)
    requires OneLogPerId(simulate)
    ensures AllValid(ChunkListings(chunks, simulate))
  {
    var maps := ChunkListings(chunks, simulate);
    forall i | 0 <= i < |maps| ensures maps[i].Valid() {
      var ids := chunks[i];
      RegistryClient.PairListingsValid(ids, simulate(ids).logs, simulate(ids).lastRound);
    }
  }

  /** What `DualStake.getContractListings` returns. */
  function ContractListings(appIds: seq<nat>, simulate: seq<nat> -> ListingsReply): (r: OrderedMap<nat, ContractListing>)
    requires OneLogPerId(simulate)
    ensures r.Valid()
  {
    ChunkListingsValid(ChunkOf(appIds, LISTINGS_CHUNK), simulate);
    MergeValid(ChunkListings(ChunkOf(appIds, LISTINGS_CHUNK), simulate));
    MergeAll(ChunkListings(ChunkOf(appIds, LISTINGS_CHUNK), simulate))
  }

  /**
   * `getContractListings`: one registry simulation per chunk of 32 ids, the results merged.
   * `requests` lists the id chunks the simulations were issued for, in order.
   */
  method GetContractListings(appIds: seq<nat>, simulate: seq<nat> -> ListingsReply)
    returns (listings: OrderedMap<nat, ContractListing>, requests: seq<seq<nat>>)
    requires OneLogPerId(simulate)
    ensures requests == ChunkOf(appIds, LISTINGS_CHUNK) && Flatten(requests) == appIds
    ensures appIds == [] ==> requests == [[]]
    ensures listings == ContractListings(appIds, simulate)
  {
    requests := Chunk(appIds, LISTINGS_CHUNK);
    var data: seq<OrderedMap<nat, ContractListing>> := [];
    for i := 0 to |requests|
      invariant |data| == i
      invariant forall j :: 0 <= j < i ==> data[j] == ChunkListing(requests[j], simulate)
    {
      var reply := simulate(requests[i]);
      var chunkListings := RegistryClient.GetContractListings(requests[i], reply.logs, reply.lastRound);
      data := data + [chunkListings];
    }
    assert data == ChunkListings(requests, simulate);
    ChunkListingsValid(requests, simulate);
    listings := MergeMaps(data);
  }

  /** 70 ids take three registry reads, of 32, 32 and 6 ids. */
  lemma SeventyIdsTakeThreeReads(appIds: seq<nat>)
    requires |appIds| == 70
    ensures |ChunkOf(appIds, LISTINGS_CHUNK)| == 3
    ensures |ChunkOf(appIds, LISTINGS_CHUNK)[0]| == 32 && |ChunkOf(appIds, LISTINGS_CHUNK)[1]| == 32
    ensures |ChunkOf(appIds, LISTINGS_CHUNK)[2]| == 6
  {
    ChunkSizes(appIds, LISTINGS_CHUNK);
    var r := ChunkOf(appIds, LISTINGS_CHUNK);
    var n := |r|;
    assert 70 == (n - 1) * 32 + |r[n - 1]|;
    assert 1 <= |r[n - 1]| <= 32;
    assert n == 3;
  }

  /** The merged listings hold only requested ids, and each entry carries its key as `appId`. */
  lemma ContractListingsEntries(appIds: seq<nat>, simulate: seq<nat> -> ListingsReply, k: nat)
    requires OneLogPerId(simulate)
    requires k in ContractListings(appIds, simulate).entries
    ensures k in appIds
    ensures ContractListings(appIds, simulate).entries[k].appId == k
  {
    var chunks := ChunkOf(appIds, LISTINGS_CHUNK);
    var maps := ChunkListings(chunks, simulate);
    ChunkListingsValid(chunks, simulate);
    var i := MergeValueFrom(maps, k);
    var reply := simulate(chunks[i]);
    RegistryClient.PairListingsKeys(chunks[i], reply.logs, reply.lastRound, k);
    RegistryClient.PairListingsEntries(chunks[i], reply.logs, reply.lastRound, k);
    ChunkFlatten(appIds, LISTINGS_CHUNK);
    FlattenMember(chunks, k);
  }

  /** When the registry answers every id, the merged listings have exactly the requested ids as keys. */
  lemma CompleteRepliesCoverAllIds(appIds: seq<nat>, simulate: seq<nat> -> ListingsReply, k: nat)
    requires CompleteReplies(simulate)
    ensures OneLogPerId(simulate)
    ensures k in ContractListings(appIds, simulate).entries <==> k in appIds
  {
    assert OneLogPerId(simulate);
    if k in appIds {
      RequestedIdIsListed(appIds, simulate, k);
    }
    if k in ContractListings(appIds, simulate).entries {
      ContractListingsEntries(appIds, simulate, k);
    }
  }

  lemma RequestedIdIsListed(appIds: seq<nat>, simulate: seq<nat> -> ListingsReply, k: nat)
    requires CompleteReplies(simulate) && OneLogPerId(simulate) && k in appIds
    ensures k in ContractListings(appIds, simulate).entries
  {
    var chunks := ChunkOf(appIds, LISTINGS_CHUNK);
    var i := ChunkHolding(appIds, LISTINGS_CHUNK, k);
    CompleteChunkListsAll(chunks[i], simulate, k);
    ChunkListingsValid(chunks, simulate);
    MergeHas(ChunkListings(chunks, simulate), k, i);
  }

  /** A registry read that answers every id lists each id it was asked about. */
  lemma CompleteChunkListsAll(ids: seq<nat>, simulate: seq<nat> -> ListingsReply, k: nat)
    requires CompleteReplies(simulate) && OneLogPerId(simulate) && k in ids
    ensures k in ChunkListing(ids, simulate).entries
  {
    var reply := simulate(ids);
    assert ids[..|reply.logs|] == ids;
    RegistryClient.PairListingsKeys(ids, reply.logs, reply.lastRound, k);
  }

  // ---- getPricesAndTVL ------------------------------------------------------------

  /** An element of `appIdsOrListings`: a bare app id (a bigint) or a listing. */
  datatype IdOrListing = Id(id: nat) | Listing(listing: ContractListing)

  function AppIdOf(a: IdOrListing): nat
  {
    if a.Id? then a.id else a.listing.appId
  }

  /** `appIdsOrListings.map(a => typeof a === "bigint" ? a : a.appId)`. */
  function AppIdsOf(items: seq<IdOrListing>): (r: seq<nat>)
    ensures |r| == |items|
    ensures forall i :: 0 <= i < |items| ==> r[i] == (if items[i].Id? then items[i].id else items[i].listing.appId)
  {
    seq(|items|, i requires 0 <= i < |items| => AppIdOf(items[i]))
  }

  /** `listingsHave`: the listings, in input order. */
  function Have(items: seq<IdOrListing>): seq<ContractListing>
    decreases |items|
  {
    if items == [] then []
    else if items[0].Listing? then [items[0].listing] + Have(items[1..])
    else Have(items[1..])
  }

  /** `listingsNeed`: the bare ids, in input order. */
  function Need(items: seq<IdOrListing>): seq<nat>
    decreases |items|
  {
    if items == [] then []
    else if items[0].Id? then [items[0].id] + Need(items[1..])
    else Need(items[1..])
  }

  function AsListings(ls: seq<ContractListing>): (r: seq<IdOrListing>)
    ensures |r| == |ls| && forall i :: 0 <= i < |ls| ==> r[i] == Listing(ls[i])
  {
    seq(|ls|, i requires 0 <= i < |ls| => Listing(ls[i]))
  }

  function AsIds(ids: seq<nat>): (r: seq<IdOrListing>)
    ensures |r| == |ids| && forall i :: 0 <= i < |ids| ==> r[i] == Id(ids[i])
  {
    seq(|ids|, i requires 0 <= i < |ids| => Id(ids[i]))
  }

  /** The two filters split the input: every element lands in exactly one of them. */
  lemma {:induction false} HaveNeedPartition(items: seq<IdOrListing>)
    ensures multiset(AsListings(Have(items))) + multiset(AsIds(Need(items))) == multiset(items)
    ensures |Have(items)| + |Need(items)| == |items|
    decreases |items|
  {
    if items != [] {
      HaveNeedPartition(items[1..]);
      assert items == [items[0]] + items[1..];
      if items[0].Listing? {
        assert AsListings(Have(items)) == [items[0]] + AsListings(Have(items[1..]));
        assert AsIds(Need(items)) == AsIds(Need(items[1..]));
      } else {
        assert AsIds(Need(items)) == [items[0]] + AsIds(Need(items[1..]));
        assert AsListings(Have(items)) == AsListings(Have(items[1..]));
      }
    }
  }

  /** Both filters keep input order: they distribute over concatenation. */
  lemma {:induction false} HaveNeedAppend(a: seq<IdOrListing>, b: seq<IdOrListing>)
    ensures Have(a + b) == Have(a) + Have(b) && Need(a + b) == Need(a) + Need(b)
    decreases |a|
  {
    if a == [] {
      assert a + b == b;
    } else {
      assert (a + b)[0] == a[0] && (a + b)[1..] == a[1..] + b;
      HaveNeedAppend(a[1..], b);
    }
  }

  /** The `for..of` over the fetched listings: each is set under its own `appId`. */
  function SetListings(acc: OrderedMap<nat, ContractListing>, ls: seq<ContractListing>): OrderedMap<nat, ContractListing>
    decreases |ls|
  {
    if ls == [] then acc else Set(SetListings(acc, ls[..|ls| - 1]), ls[|ls| - 1].appId, ls[|ls| - 1])
  }

  /** Setting listings into a well-formed map keeps it well formed. */
  lemma {:induction false} SetListingsValid(acc: OrderedMap<nat, ContractListing>, ls: seq<ContractListing>)
    requires acc.Valid()
    ensures SetListings(acc, ls).Valid()
    decreases |ls|
  {
    if ls != [] {
      SetListingsValid(acc, ls[..|ls| - 1]);
      SetValid(SetListings(acc, ls[..|ls| - 1]), ls[|ls| - 1].appId, ls[|ls| - 1]);
    }
  }

  lemma {:induction false} SetListingsLastWins(acc: OrderedMap<nat, ContractListing>, ls: seq<ContractListing>, i: nat)
    requires i < |ls| && forall j :: i < j < |ls| ==> ls[j].appId != ls[i].appId
    ensures ls[i].appId in SetListings(acc, ls).entries && SetListings(acc, ls).entries[ls[i].appId] == ls[i]
    decreases |ls|
  {
    if i < |ls| - 1 {
      SetListingsLastWins(acc, ls[..|ls| - 1], i);
    }
  }

  lemma {:induction false} SetListingsKeeps(acc: OrderedMap<nat, ContractListing>, ls: seq<ContractListing>, k: nat)
    requires forall j :: 0 <= j < |ls| ==> ls[j].appId != k
    ensures k in SetListings(acc, ls).entries <==> k in acc.entries
    ensures k in acc.entries ==> SetListings(acc, ls).entries[k] == acc.entries[k]
    decreases |ls|
  {
    if ls != [] {
      SetListingsKeeps(acc, ls[..|ls| - 1], k);
    }
  }

  lemma SetListingsStep(acc: OrderedMap<nat, ContractListing>, ls: seq<ContractListing>, i: nat)
    requires i < |ls|
    ensures SetListings(acc, ls[..i + 1]) == Set(SetListings(acc, ls[..i]), ls[i].appId, ls[i])
  {
    assert ls[..i + 1][..i] == ls[..i];
  }

  /** `listingsMap` once the missing listings have been fetched and set. */
  function ListingsMapFor(items: seq<IdOrListing>, simulate: seq<nat> -> ListingsReply): (r: OrderedMap<nat, ContractListing>)
    requires OneLogPerId(simulate)
    ensures r.Valid()
  {
    var have := ListingsById(Have(items));
    if |Need(items)| > 0 then
      var fetched := Values(ContractListings(Need(items), simulate));
      SetListingsValid(have, fetched);
      SetListings(have, fetched)
    else have
  }

  /**
   * A fetched listing replaces any supplied listing with the same app id; a supplied
   * listing whose id was not fetched stays.
   */
  lemma FetchedListingsOverride(items: seq<IdOrListing>, simulate: seq<nat> -> ListingsReply, k: nat)
    requires OneLogPerId(simulate) && |Need(items)| > 0
    ensures k in ContractListings(Need(items), simulate).entries ==>
      k in ListingsMapFor(items, simulate).entries
      && ListingsMapFor(items, simulate).entries[k] == ContractListings(Need(items), simulate).entries[k]
    ensures k !in ContractListings(Need(items), simulate).entries ==>
      (k in ListingsMapFor(items, simulate).entries <==> k in ListingsById(Have(items)).entries)
  {
    var fetched := ContractListings(Need(items), simulate);
    var vals := Values(fetched);
    var have := ListingsById(Have(items));
    forall j | 0 <= j < |vals| ensures vals[j].appId == fetched.keys[j] {
      ContractListingsEntries(Need(items), simulate, fetched.keys[j]);
    }
    if k in fetched.entries {
      var i :| 0 <= i < |fetched.keys| && fetched.keys[i] == k;
      forall j | i < j < |vals| ensures vals[j].appId != vals[i].appId {
        assert fetched.keys[j] != fetched.keys[i];
      }
      SetListingsLastWins(have, vals, i);
    } else {
      SetListingsKeeps(have, vals, k);
    }
  }

  /** The request one oracle simulation is given: every listing in the map, in map order. */
  function OracleRequest(items: seq<IdOrListing>, simulate: seq<nat> -> ListingsReply): seq<ContractListing>
    requires OneLogPerId(simulate)
  {
    Values(ListingsMapFor(items, simulate))
  }

  /**
   * The oracle simulations: `oracle(c, ids)` is what the `c`-th call logs when asked about
   * `ids`. The calls are separate reads, so two of them may see different ledger rounds.
   */
  type OracleSim = (nat, seq<nat>) -> Option<seq<PriceAndTvl>>

  /** The map the `c`-th oracle call yields for `request`. */
  function CallPrices(request: seq<ContractListing>, oracle: OracleSim, c: nat): Result<OrderedMap<nat, PriceAndTvlEntry>, OracleError>
  {
    PairPrices(request, oracle(c, ListingAppIds(request)))
  }

  /** Every one of the first `calls` oracle calls succeeds. */
  predicate AllCallsPriced(request: seq<ContractListing>, calls: nat, oracle: OracleSim)
  {
    forall c :: 0 <= c < calls ==> CallPrices(request, oracle, c).Ok?
  }

  /** The maps of the first `calls` oracle calls, in call order. */
  function CallMaps(request: seq<ContractListing>, calls: nat, oracle: OracleSim): (r: seq<OrderedMap<nat, PriceAndTvlEntry>>)
    requires AllCallsPriced(request, calls, oracle)
    ensures |r| == calls && AllValid(r)
    ensures forall c :: 0 <= c < calls ==> Ok(r[c]) == CallPrices(request, oracle, c)
  {
    seq(calls, c requires 0 <= c < calls => CallPrices(request, oracle, c).value)
  }

  /**
   * `mergeMaps(...await Promise.all(...))` over `calls` oracle calls: the read fails when any
   * call finds more logs than listings (every such failure is the same error), and otherwise
   * the calls' maps are merged in call order.
   */
  function MergedPrices(request: seq<ContractListing>, calls: nat, oracle: OracleSim): (r: Result<OrderedMap<nat, PriceAndTvlEntry>, OracleError>)
    ensures r.Err? ==> r.error == MissingListing(|request|)
    ensures r.Ok? ==> r.value.Valid()
  {
    if AllCallsPriced(request, calls, oracle) then
      var maps := CallMaps(request, calls, oracle);
      MergeValid(maps);
      Ok(MergeAll(maps))
    else Err(MissingListing(|request|))
  }

  /** The merged read fails exactly when some oracle call logs more entries than there are listings. */
  lemma MergedPricesFails(request: seq<ContractListing>, calls: nat, oracle: OracleSim)
    ensures MergedPrices(request, calls, oracle).Err?
      <==> exists c :: 0 <= c < calls && |LogsOrEmpty(oracle(c, ListingAppIds(request)))| > |request|
  {
    if AllCallsPriced(request, calls, oracle) {
      forall c | 0 <= c < calls ensures |LogsOrEmpty(oracle(c, ListingAppIds(request)))| <= |request| {
        assert CallPrices(request, oracle, c).Ok?;
      }
    } else {
      var c :| 0 <= c < calls && !CallPrices(request, oracle, c).Ok?;
      assert |LogsOrEmpty(oracle(c, ListingAppIds(request)))| > |request|;
    }
  }

  /** A merged app id is one some oracle call priced. */
  lemma MergedPricesKeys(request: seq<ContractListing>, calls: nat, oracle: OracleSim, k: nat)
    requires MergedPrices(request, calls, oracle).Ok?
    ensures k in MergedPrices(request, calls, oracle).value.entries
      <==> exists c :: 0 <= c < calls && CallPrices(request, oracle, c).Ok? && k in CallPrices(request, oracle, c).value.entries
  {
    var maps := CallMaps(request, calls, oracle);
    MergeKeys(maps, k);
    if k in MergeAll(maps).entries {
      var c :| 0 <= c < calls && k in maps[c].entries;
      assert Ok(maps[c]) == CallPrices(request, oracle, c);
    }
  }

  /** A merged entry is the one from the last oracle call that priced its app id. */
  lemma MergedPricesLastWins(request: seq<ContractListing>, calls: nat, oracle: OracleSim, k: nat, c: nat)
    requires MergedPrices(request, calls, oracle).Ok? && c < calls
    requires CallPrices(request, oracle, c).Ok? && k in CallPrices(request, oracle, c).value.entries
    requires forall d :: c < d < calls ==> CallPrices(request, oracle, d).Ok? && k !in CallPrices(request, oracle, d).value.entries
    ensures k in MergedPrices(request, calls, oracle).value.entries
    ensures MergedPrices(request, calls, oracle).value.entries[k] == CallPrices(request, oracle, c).value.entries[k]
  {
    var maps := CallMaps(request, calls, oracle);
    forall d | c < d < calls ensures k !in maps[d].entries {
      assert Ok(maps[d]) == CallPrices(request, oracle, d);
    }
    assert Ok(maps[c]) == CallPrices(request, oracle, c);
    MergeLastWins(maps, k, c);
  }

  /** When every oracle call logs the same, the merged read is that one call's reply. */
  lemma MergedPricesSameReplies(request: seq<ContractListing>, calls: nat, oracle: OracleSim)
    requires calls >= 1
    requires forall c :: 0 <= c < calls ==> oracle(c, ListingAppIds(request)) == oracle(0, ListingAppIds(request))
    ensures MergedPrices(request, calls, oracle) == CallPrices(request, oracle, 0)
  {
    var one := CallPrices(request, oracle, 0);
    assert forall c :: 0 <= c < calls ==> CallPrices(request, oracle, c) == one;
    if one.Ok? {
      var maps := CallMaps(request, calls, oracle);
      MergeCopies(maps, one.value);
    }
  }

  /** What `DualStake.getPricesAndTVL` returns: one oracle call per chunk of 42 ids, merged. */
  function PricesAndTvl(items: seq<IdOrListing>, simulate: seq<nat> -> ListingsReply, oracle: OracleSim): Result<OrderedMap<nat, PriceAndTvlEntry>, OracleError>
    requires OneLogPerId(simulate)
  {
    MergedPrices(OracleRequest(items, simulate), |ChunkOf(AppIdsOf(items), PRICES_CHUNK)|, oracle)
  }

  /**
   * `getPricesAndTVL`: the ids are split into bare ids and listings, the missing listings
   * are fetched only when there are bare ids, and one oracle simulation is made per chunk
   * of 42 ids, each passed all listings rather than its own chunk; the replies are merged.
   */
  method GetPricesAndTVL(items: seq<IdOrListing>, simulate: seq<nat> -> ListingsReply,
                         oracle: OracleSim)
    returns (r: Result<OrderedMap<nat, PriceAndTvlEntry>, OracleError>,
             registryRequests: seq<seq<nat>>, oracleRequests: seq<seq<ContractListing>>)
    requires OneLogPerId(simulate)
    ensures registryRequests == if |Need(items)| > 0 then ChunkOf(Need(items), LISTINGS_CHUNK) else []
    ensures |oracleRequests| == |ChunkOf(AppIdsOf(items), PRICES_CHUNK)| >= 1
    ensures forall c :: c in oracleRequests ==> c == OracleRequest(items, simulate)
    ensures r == PricesAndTvl(items, simulate, oracle)
  {
    var appIds := AppIdsOf(items);
    var listingsMap;
    listingsMap, registryRequests := FetchListingsMap(items, simulate);
    var chunks := Chunk(appIds, PRICES_CHUNK);
    r, oracleRequests := QueryOracle(Values(listingsMap), |chunks|, oracle);
  }

  /** The `listingsMap` stage: supplied listings first, then the fetched ones set over them. */
  method FetchListingsMap(items: seq<IdOrListing>, simulate: seq<nat> -> ListingsReply)
    returns (listingsMap: OrderedMap<nat, ContractListing>, registryRequests: seq<seq<nat>>)
    requires OneLogPerId(simulate)
    ensures registryRequests == if |Need(items)| > 0 then ChunkOf(Need(items), LISTINGS_CHUNK) else []
    ensures listingsMap == ListingsMapFor(items, simulate)
  {
    var listingsHave := Have(items);
    var listingsNeed := Need(items);
    listingsMap := ListingsById(listingsHave);
    registryRequests := [];
    if |listingsNeed| > 0 {
      var missingListings;
      missingListings, registryRequests := GetContractListings(listingsNeed, simulate);
      var missing := Values(missingListings);
      listingsMap := SetEach(listingsMap, missing);
    }
  }

  /** `for (const l of missing) listingsMap.set(l.appId, l)`. */
  method SetEach(start: OrderedMap<nat, ContractListing>, missing: seq<ContractListing>)
    returns (listingsMap: OrderedMap<nat, ContractListing>)
    ensures listingsMap == SetListings(start, missing)
  {
    listingsMap := start;
    for i := 0 to |missing|
      invariant listingsMap == SetListings(start, missing[..i])
    {
      SetListingsStep(start, missing, i);
      listingsMap := Set(listingsMap, missing[i].appId, missing[i]);
    }
    assert missing[..|missing|] == missing;
  }

  /** The oracle stage: `calls` simulations, all given `request`, their maps merged. */
  method QueryOracle(request: seq<ContractListing>, calls: nat, oracle: OracleSim)
    returns (r: Result<OrderedMap<nat, PriceAndTvlEntry>, OracleError>, oracleRequests: seq<seq<ContractListing>>)
    ensures |oracleRequests| == calls && forall c :: c in oracleRequests ==> c == request
    ensures r == MergedPrices(request, calls, oracle)
  {
    oracleRequests := seq(calls, _ => request);
    var data: seq<OrderedMap<nat, PriceAndTvlEntry>> := [];
    for c := 0 to calls
      invariant |data| == c && forall j :: 0 <= j < c ==> Ok(data[j]) == CallPrices(request, oracle, j)
    {
      var reply := PriceOracleClient.GetPricesAndTVL(request, oracle(c, ListingAppIds(request)));
      if reply.Err? {
        FailedCall(request, calls, oracle, c);
        return reply, oracleRequests;
      }
      data := data + [reply.value];
    }
    AllCallsMaps(request, calls, oracle, data);
    var merged := MergeMaps(data);
    r := Ok(merged);
  }

  /** One failing oracle call decides the merged read. */
  lemma FailedCall(request: seq<ContractListing>, calls: nat, oracle: OracleSim, c: nat)
    requires c < calls && CallPrices(request, oracle, c).Err?
    ensures MergedPrices(request, calls, oracle) == CallPrices(request, oracle, c)
  {
  }

  /** The maps of calls that all succeeded are the ones the merged read merges. */
  lemma AllCallsMaps(request: seq<ContractListing>, calls: nat, oracle: OracleSim, data: seq<OrderedMap<nat, PriceAndTvlEntry>>)
    requires |data| == calls && forall j :: 0 <= j < calls ==> Ok(data[j]) == CallPrices(request, oracle, j)
    ensures AllValid(data) && MergedPrices(request, calls, oracle) == Ok(MergeAll(data))
  {
    assert AllCallsPriced(request, calls, oracle);
    assert data == CallMaps(request, calls, oracle);
  }

  /**
   * `getAvailablePricesAndTVL`: the registry's listings are passed on as listings, so the
   * second stage has no bare ids and makes no registry read of its own.
   */
  method GetAvailablePricesAndTVL(boxNames: seq<seq<byte>>, simulate: seq<nat> -> ListingsReply,
                                  oracle: OracleSim)
    returns (r: Result<OrderedMap<nat, PriceAndTvlEntry>, OracleError>, registryRequests: seq<seq<nat>>)
    requires OneLogPerId(simulate)
    ensures registryRequests == ChunkOf(RegistryClient.AvailableContractIds(boxNames), LISTINGS_CHUNK)
    ensures var listings := Values(ContractListings(RegistryClient.AvailableContractIds(boxNames), simulate));
      r == PricesAndTvl(AsListings(listings), simulate, oracle)
      && Need(AsListings(listings)) == [] && Have(AsListings(listings)) == listings
  {
    var appIds := RegistryClient.AvailableContractIds(boxNames);
    var listings;
    listings, registryRequests := GetContractListings(appIds, simulate);
    var items := AsListings(Values(listings));
    OnlyListings(Values(listings));
    var secondRequests, oracleRequests;
    r, secondRequests, oracleRequests := GetPricesAndTVL(items, simulate, oracle);
  }

  /** A list of listings has no bare ids, and its listings are itself. */
  lemma {:induction false} OnlyListings(ls: seq<ContractListing>)
    ensures Need(AsListings(ls)) == [] && Have(AsListings(ls)) == ls
    decreases |ls|
  {
    if ls != [] {
      OnlyListings(ls[1..]);
      assert AsListings(ls)[1..] == AsListings(ls[1..]);
    }
  }
}
