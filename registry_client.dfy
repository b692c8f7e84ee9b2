/**
 * src/registry-client.ts: the registry app's box layout, read back into pool ids and
 * ASA mappings, the index pairing of simulated listing logs with the requested app ids, and
 * the two builders that add and remove a registry entry.
 *
 * Box names: `'a' ++ BE64(appId)` (9 bytes) marks a registered pool app, and `BE64(asaId)`
 * (8 bytes) maps a paired ASA to its pool, the value being `BE64(lstId) ++ BE64(appId)`.
 */
module RegistryClient {
  import opened Wrappers
  import opened Bytes
  import opened JsMap
  import opened Types
  import opened Utils

  // ---- reading the boxes ----------------------------------------------------------

  /** The id a 9-byte pool box names: its bytes [1, 9), whatever the tag byte is. */
  function PoolBoxId(name: seq<byte>): (id: nat)
    requires |name| == 9
    ensures id == BeValue(name[1..]) && id < UINT64_LIMIT
  {
    assert Slice(name, 1, |name|) == name[1..];
    DecodeUint64(Slice(name, 1, |name|), BigInt).value
  }

  /** `getAvailableContractIDs` over the box names: keep the 9-byte names, decode each. */
  function AvailableContractIds(names: seq<seq<byte>>): (ids: seq<nat>)
    ensures |ids| <= |names|
    decreases |names|
  {
    if names == [] then []
    else if |names[0]| == 9 then [PoolBoxId(names[0])] + AvailableContractIds(names[1..])
    else AvailableContractIds(names[1..])
  }

  /** An id is reported iff some 9-byte name carries it in bytes [1, 9). */
  lemma {:induction false} AvailableContractIdsMembers(names: seq<seq<byte>>, id: nat)
    ensures id in AvailableContractIds(names) <==>
      exists i :: 0 <= i < |names| && |names[i]| == 9 && BeValue(names[i][1..]) == id
    decreases |names|
  {
    if names != [] {
      AvailableContractIdsMembers(names[1..], id);
      if exists i :: 0 <= i < |names| && |names[i]| == 9 && BeValue(names[i][1..]) == id {
        var i :| 0 <= i < |names| && |names[i]| == 9 && BeValue(names[i][1..]) == id;
        if i > 0 {
          assert names[1..][i - 1] == names[i];
        }
      }
      if exists i :: 0 <= i < |names[1..]| && |names[1..][i]| == 9 && BeValue(names[1..][i][1..]) == id {
        var i :| 0 <= i < |names[1..]| && |names[1..][i]| == 9 && BeValue(names[1..][i][1..]) == id;
        assert names[i + 1] == names[1..][i];
      }
    }
  }

  /** The filter keeps input order: the ids of a concatenation are the concatenated ids. */
  lemma {:induction false} AvailableContractIdsAppend(a: seq<seq<byte>>, b: seq<seq<byte>>)
    ensures AvailableContractIds(a + b) == AvailableContractIds(a) + AvailableContractIds(b)
    decreases |a|
  {
    if a != [] {
      assert (a + b)[0] == a[0];
      assert (a + b)[1..] == a[1..] + b;
      AvailableContractIdsAppend(a[1..], b);
    } else {
      assert a + b == b;
    }
  }

  /** One box of `getBoxValues`. */
  datatype Box = Box(name: seq<byte>, value: seq<byte>)

  /** The mapping an 8-byte box names; its value must hold at least 9 bytes to decode. */
  function MappingOf(box: Box): (r: Result<ContractMapping, CodecError>)
    requires |box.name| == 8
    ensures r.Ok? <==> |box.value| >= 9
    ensures r.Ok? ==> r.value.asaId == BeValue(box.name) && r.value.lstId == BeValue(box.value[..8])
    ensures r.Ok? ==> r.value.appId == BeValue(Slice(box.value, 8, 16))
    ensures r.Err? ==> r.error == UnacceptableLength(|Slice(box.value, 0, 8)|) || r.error == UnacceptableLength(|Slice(box.value, 8, 16)|)
  {
    var asaId := DecodeUint64(box.name, BigInt).value;
    var lstId :- DecodeUint64(Slice(box.value, 0, 8), BigInt);
    var appId :- DecodeUint64(Slice(box.value, 8, 16), BigInt);
    Ok(ContractMapping(asaId, appId, lstId))
  }

  function MappingBoxes(boxes: seq<Box>): (r: seq<Box>)
    ensures forall j :: 0 <= j < |r| ==> |r[j].name| == 8 && r[j] in boxes
    decreases |boxes|
  {
    if boxes == [] then []
    else if |boxes[0].name| == 8 then [boxes[0]] + MappingBoxes(boxes[1..])
    else MappingBoxes(boxes[1..])
  }

  /**
   * `getAvailableContracts` over the boxes: keep the 8-byte names and decode each; the
   * first mapping box whose value is shorter than 9 bytes makes `decodeUint64` throw.
   */
  function AvailableContracts(boxes: seq<Box>): (r: Result<seq<ContractMapping>, CodecError>)
    ensures r.Ok? <==> MappingValuesLong(boxes)
    ensures r.Ok? ==> |r.value| == |MappingBoxes(boxes)|
    decreases |boxes|
  {
    if boxes == [] then Ok([])
    else
      MappingValuesLongTail(boxes);
      if |boxes[0].name| == 8 then
        var m :- MappingOf(boxes[0]);
        var rest :- AvailableContracts(boxes[1..]);
        Ok([m] + rest)
      else
        AvailableContracts(boxes[1..])
  }

  /** The j-th decoded mapping is that of the j-th mapping box. */
  lemma {:induction false} AvailableContractsInOrder(boxes: seq<Box>, j: nat)
    requires AvailableContracts(boxes).Ok? && j < |AvailableContracts(boxes).value|
    ensures Ok(AvailableContracts(boxes).value[j]) == MappingOf(MappingBoxes(boxes)[j])
    decreases |boxes|
  {
    assert boxes != [];
    if |boxes[0].name| == 8 {
      var rest := AvailableContracts(boxes[1..]).value;
      assert AvailableContracts(boxes).value == [MappingOf(boxes[0]).value] + rest;
      assert MappingBoxes(boxes) == [boxes[0]] + MappingBoxes(boxes[1..]);
      if j > 0 {
        AvailableContractsInOrder(boxes[1..], j - 1);
      }
    } else {
      AvailableContractsInOrder(boxes[1..], j);
    }
  }

  /** Every mapping box has a value of at least 9 bytes. */
  ghost predicate MappingValuesLong(boxes: seq<Box>)
  {
    forall i :: 0 <= i < |boxes| && |boxes[i].name| == 8 ==> |boxes[i].value| >= 9
  }

  lemma MappingValuesLongTail(boxes: seq<Box>)
    requires boxes != []
    ensures MappingValuesLong(boxes) <==>
      (|boxes[0].name| == 8 ==> |boxes[0].value| >= 9) && MappingValuesLong(boxes[1..])
  {
    assert forall i :: 1 <= i < |boxes| ==> boxes[i] == boxes[1..][i - 1];
  }

  // ---- the keys the builders write -------------------------------------------------

  /** The pool box key `'a' ++ encodeUint64(appId)`. */
  function AppBoxKey(appId: nat): (r: Result<seq<byte>, CodecError>)
    ensures r.Ok? <==> appId < UINT64_LIMIT
    ensures r.Ok? ==> |r.value| == 9 && r.value[0] == 0x61 && BeValue(r.value[1..]) == appId
  {
    var encoded :- EncodeUint64(appId);
    assert ([0x61] + encoded)[1..] == encoded;
    Ok([0x61] + encoded)
  }

  /** The mapping box key `encodeUint64(asaId)`. */
  function AsaBoxKey(asaId: nat): (r: Result<seq<byte>, CodecError>)
    ensures r.Ok? <==> asaId < UINT64_LIMIT
    ensures r.Ok? ==> |r.value| == 8 && BeValue(r.value) == asaId
  {
    EncodeUint64(asaId)
  }

  /**
   * The keys an assignment creates read back as intended: the pool key is listed as the
   * app id, the mapping key is not (it is classified as a mapping instead).
   */
  lemma BoxKeysRoundTrip(asaId: nat, appId: nat)
    requires asaId < UINT64_LIMIT && appId < UINT64_LIMIT
    ensures AvailableContractIds([AsaBoxKey(asaId).value, AppBoxKey(appId).value]) == [appId]
    ensures MappingBoxes([Box(AsaBoxKey(asaId).value, []), Box(AppBoxKey(appId).value, [])])
            == [Box(AsaBoxKey(asaId).value, [])]
  {
    var names: seq<seq<byte>> := [AsaBoxKey(asaId).value, AppBoxKey(appId).value];
    assert |names[1..][1..]| == 0;
    var boxes: seq<Box> := [Box(AsaBoxKey(asaId).value, []), Box(AppBoxKey(appId).value, [])];
    var none: seq<Box> := [];
    assert boxes[1..][1..] == none;
    assert MappingBoxes(boxes[1..]) == MappingBoxes(none);
  }

  /** The value stored under a mapping key: `BE64(lstId) ++ BE64(appId)`. */
  function MappingBoxValue(m: ContractMapping): (r: seq<byte>)
    requires m.lstId < UINT64_LIMIT && m.appId < UINT64_LIMIT
    ensures |r| == 16
  {
    EncodeUint64(m.lstId).value + EncodeUint64(m.appId).value
  }

  /** A mapping box written in the registry's layout decodes to the mapping it stores. */
  lemma MappingRoundTrip(m: ContractMapping)
    requires m.asaId < UINT64_LIMIT && m.lstId < UINT64_LIMIT && m.appId < UINT64_LIMIT
    ensures AvailableContracts([Box(AsaBoxKey(m.asaId).value, MappingBoxValue(m))]) == Ok([m])
  {
    var v := MappingBoxValue(m);
    assert v[..8] == EncodeUint64(m.lstId).value;
    assert Slice(v, 8, 16) == EncodeUint64(m.appId).value;
    var boxes: seq<Box> := [Box(AsaBoxKey(m.asaId).value, v)];
    var none: seq<Box> := [];
    assert boxes[1..] == none;
    assert AvailableContracts(none) == Ok([]);
    var r := MappingOf(boxes[0]);
    assert r.Ok?;
    assert r.value.asaId == m.asaId && r.value.lstId == m.lstId && r.value.appId == m.appId;
    assert r == Ok(m);
    assert AvailableContracts(boxes) == Ok([m] + []);
    assert [m] + [] == [m];
  }

  // ---- getContractListings --------------------------------------------------------

  /** The entry for log `i`: its decoded tuple, fixed, keyed by the i-th requested app id. */
  function ListingPairs(appIds: seq<nat>, logs: seq<ListingTuple>, round: nat): (r: seq<(nat, ContractListing)>)
    requires |logs| <= |appIds|
    ensures |r| == |logs|
    ensures forall i :: 0 <= i < |logs| ==> r[i] == (appIds[i], WithRoundAndApp(round, appIds[i], Fixed(logs[i])))
  {
    seq(|logs|, i requires 0 <= i < |logs| => (appIds[i], WithRoundAndApp(round, appIds[i], Fixed(logs[i]))))
  }

  /** What `getContractListings` returns: the pairs set into a fresh map in log order. */
  function PairListings(appIds: seq<nat>, logs: seq<ListingTuple>, round: nat): OrderedMap<nat, ContractListing>
    requires |logs| <= |appIds|
  {
    FromPairs(ListingPairs(appIds, logs, round))
  }

  lemma PairListingsValid(appIds: seq<nat>, logs: seq<ListingTuple>, round: nat)
    requires |logs| <= |appIds|
    ensures PairListings(appIds, logs, round).Valid()
  {
    FromPairsValid(ListingPairs(appIds, logs, round));
  }

  /** The result has a key exactly for the ids that have a log. */
  lemma PairListingsKeys(appIds: seq<nat>, logs: seq<ListingTuple>, round: nat, k: nat)
    requires |logs| <= |appIds|
    ensures k in PairListings(appIds, logs, round).entries <==> k in appIds[..|logs|]
  {
    var pairs := ListingPairs(appIds, logs, round);
    if k in appIds[..|logs|] {
      var i :| 0 <= i < |logs| && appIds[..|logs|][i] == k;
      FromPairsHasIndex(pairs, i);
    }
    if k in FromPairs(pairs).entries {
      var i := FromPairsKeyIndex(pairs, k);
      assert appIds[..|logs|][i] == k;
    }
  }

  /** The entry for an id is built from that id's last log. */
  lemma PairListingsLastLog(appIds: seq<nat>, logs: seq<ListingTuple>, round: nat, i: nat)
    requires |logs| <= |appIds| && i < |logs|
    requires forall j :: i < j < |logs| ==> appIds[j] != appIds[i]
    ensures appIds[i] in PairListings(appIds, logs, round).entries
    ensures PairListings(appIds, logs, round).entries[appIds[i]] == WithRoundAndApp(round, appIds[i], Fixed(logs[i]))
  {
    FromPairsLastWins(ListingPairs(appIds, logs, round), appIds[i], i);
  }

  /** Every entry carries its own key as `appId` and the one simulation round. */
  lemma PairListingsEntries(appIds: seq<nat>, logs: seq<ListingTuple>, round: nat, k: nat)
    requires |logs| <= |appIds|
    requires k in PairListings(appIds, logs, round).entries
    ensures PairListings(appIds, logs, round).entries[k].appId == k
    ensures PairListings(appIds, logs, round).entries[k].round == round
  {
    var i := FromPairsKeyIndex(ListingPairs(appIds, logs, round), k);
    var last := LastIndex(appIds, |logs|, k, i);
    PairListingsLastLog(appIds, logs, round, last);
  }

  /** The position of the last occurrence of `k` before `n`, at or after a known one. */
  function LastIndex(s: seq<nat>, n: nat, k: nat, i: nat): (r: nat)
    requires i < n <= |s| && s[i] == k
    ensures i <= r < n && s[r] == k && forall j :: r < j < n ==> s[j] != k
    decreases n - i
  {
    if exists j :: i < j < n && s[j] == k then
      var j :| i < j < n && s[j] == k;
      LastIndex(s, n, k, j)
    else i
  }

  /**
   * `getContractListings`: the simulated `log_dualstake_listings` call emits one encoded
   * listing per requested app id; log `idx` is decoded, fixed and set under `appIds[idx]`.
   */
  method GetContractListings(appIds: seq<nat>, logs: seq<ListingTuple>, lastRound: nat)
    returns (retMap: OrderedMap<nat, ContractListing>)
    requires |logs| <= |appIds|
    ensures retMap == PairListings(appIds, logs, lastRound)
  {
    var round := lastRound;
    ghost var pairs := ListingPairs(appIds, logs, round);
    retMap := Empty();
    for idx := 0 to |logs|
      invariant retMap == FromPairs(pairs[..idx])
    {
      var appId := appIds[idx];
      var listing := ContractListingFromTupleFixed(logs[idx]);
      FromPairsPrefixStep(pairs, idx);
      retMap := Set(retMap, appId, WithRoundAndApp(round, appId, listing.Fields()));
    }
    assert pairs[..|logs|] == pairs;
  }

  // ---- builders -------------------------------------------------------------------

  /** The names of a call's box references. */
  function BoxNames(refs: seq<BoxRef>): (r: seq<seq<byte>>)
    ensures |r| == |refs| && forall i :: 0 <= i < |refs| ==> r[i] == refs[i].name
  {
    seq(|refs|, i requires 0 <= i < |refs| => refs[i].name)
  }

  /**
   * `makeAssignContractTransactions`: a 12100 microAlgo payment funding the two new boxes,
   * then the `assignContract` call referencing the pool app and both box keys, as one group.
   * `encodeUint64` throws for an id outside the uint64 range, the app id being encoded first.
   */
  method MakeAssignContractTransactions(from: Address, registryAppId: nat, registryAppAddr: Address,
                                        asaId: nat, appId: nat, digest: seq<Txn> -> GroupId)
    returns (r: Result<seq<GroupedTxn>, CodecError>)
    ensures r.Ok? <==> asaId < UINT64_LIMIT && appId < UINT64_LIMIT
    ensures appId >= UINT64_LIMIT ==> r == Err(NotUint64(appId))
    ensures appId < UINT64_LIMIT <= asaId ==> r == Err(NotUint64(asaId))
    ensures r.Ok? ==> |r.value| == 2 && r.value == GroupTxns(Ungrouped(r.value), digest)
    ensures r.Ok? ==> r.value[0].txn == Payment(from, registryAppAddr, 12100)
    ensures r.Ok? ==> var call := r.value[1].txn;
      && call.AppCall? && call.call == AssignContract && call.appId == registryAppId && call.appRefs == [appId]
      && call.sender == from && call.args == map[] && call.staticFee.None?
      && call.boxRefs == [BoxRef(0, AsaBoxKey(asaId).value), BoxRef(0, AppBoxKey(appId).value)]
      && AvailableContractIds(BoxNames(call.boxRefs)) == [appId]
  {
    var txns: seq<Txn> := [];
    txns := txns + [Payment(from, registryAppAddr, 12100)];
    var appBox :- AppBoxKey(appId);
    var asaBox :- AsaBoxKey(asaId);
    var call := AppCall(from, registryAppId, AssignContract, map[], None, [appId], [], [],
                        [BoxRef(0, asaBox), BoxRef(0, appBox)]);
    txns := txns + [call];
    BoxKeysRoundTrip(asaId, appId);
    assert BoxNames(call.boxRefs) == [asaBox, appBox];
    r := Ok(GroupTxns(txns, digest));
    assert Ungrouped(r.value) == txns;
  }

  /**
   * `makeUnassignContractTransactions`: the single `unassignContract` call, whose `key`
   * argument is the mapping key, referencing the same two boxes as the assignment.
   */
  method MakeUnassignContractTransactions(from: Address, registryAppId: nat, asaId: nat, appId: nat,
                                          digest: seq<Txn> -> GroupId)
    returns (r: Result<seq<GroupedTxn>, CodecError>)
    ensures r.Ok? <==> asaId < UINT64_LIMIT && appId < UINT64_LIMIT
    ensures asaId >= UINT64_LIMIT ==> r == Err(NotUint64(asaId))
    ensures asaId < UINT64_LIMIT <= appId ==> r == Err(NotUint64(appId))
    ensures r.Ok? ==> |r.value| == 1 && r.value == GroupTxns(Ungrouped(r.value), digest)
    ensures r.Ok? ==> var call := r.value[0].txn;
      && call.AppCall? && call.call == UnassignContract && call.appId == registryAppId
      && call.sender == from && call.appRefs == [appId] && call.staticFee.None?
      && call.args == map[Key := BytesArg(AsaBoxKey(asaId).value)]
      && call.boxRefs == [BoxRef(0, AsaBoxKey(asaId).value), BoxRef(0, AppBoxKey(appId).value)]
  {
    var txns: seq<Txn> := [];
    var key :- AsaBoxKey(asaId);
    var appBox :- AppBoxKey(appId);
    var call := AppCall(from, registryAppId, UnassignContract, map[Key := BytesArg(key)], None, [appId], [], [],
                        [BoxRef(0, key), BoxRef(0, appBox)]);
    txns := txns + [call];
    r := Ok(GroupTxns(txns, digest));
    assert Ungrouped(r.value) == txns;
  }
}
