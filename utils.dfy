/**
 * src/utils.ts: list chunking, map merging, the two binary state decoders, the listing
 * fix-up, template substitution, the opt-in membership test and transaction grouping.
 */
module Utils {
  import opened Wrappers
  import opened Bytes
  import opened JsMap
  import opened Types

  // ---- chunk ----------------------------------------------------------------------

  /**
   * One step of `chunk`'s reduce: if the last chunk already holds `num` elements a new
   * empty chunk is opened, and `cur` is pushed onto the last chunk.
   */
  function ChunkStep<T>(out: seq<seq<T>>, cur: T, num: int): (r: seq<seq<T>>)
    requires |out| >= 1
    ensures |r| >= 1
  {
    var last := out[|out| - 1];
    if |last| == num then out + [[cur]] else out[..|out| - 1] + [last + [cur]]
  }

  /** `chunk(elems, num)`: the reduce over `elems` started from `[[]]`. */
  function ChunkOf<T>(elems: seq<T>, num: int): (r: seq<seq<T>>)
    ensures |r| >= 1
    decreases |elems|
  {
    if elems == [] then [[]]
    else ChunkStep(ChunkOf(elems[..|elems| - 1], num), elems[|elems| - 1], num)
  }

  function Flatten<T>(chunks: seq<seq<T>>): seq<T>
    decreases |chunks|
  {
    if chunks == [] then [] else Flatten(chunks[..|chunks| - 1]) + chunks[|chunks| - 1]
  }

  /** Concatenating the chunks gives back the input, whatever `num` is. */
  lemma {:induction false} ChunkFlatten<T>(elems: seq<T>, num: int)
    ensures Flatten(ChunkOf(elems, num)) == elems
    decreases |elems|
  {
    if elems == [] {
      var none: seq<seq<T>> := [];
      assert Flatten(none + [[]]) == Flatten(none) + [];
      assert none + [[]] == [[]];
    } else {
      var p := elems[..|elems| - 1];
      var x := elems[|elems| - 1];
      var out := ChunkOf(p, num);
      ChunkFlatten(p, num);
      var n := |out|;
      var last := out[n - 1];
      if |last| == num {
        assert (out + [[x]])[..n] == out;
      } else {
        var front := out[..n - 1];
        assert (front + [last + [x]])[..n - 1] == front;
        assert out[..n - 1] == front;
        assert Flatten(out) == Flatten(front) + last;
      }
      assert elems == p + [x];
    }
  }

  /**
   * For `num >= 1`: every chunk but the last has exactly `num` elements, the last has
   * between 1 and `num` unless the input is empty (then the result is `[[]]`), and the
   * lengths add up to the input's length.
   */
  lemma {:induction false} ChunkSizes<T>(elems: seq<T>, num: int)
    requires num >= 1
    ensures var r := ChunkOf(elems, num);
      && (forall k :: 0 <= k < |r| - 1 ==> |r[k]| == num)
      && (elems == [] ==> r == [[]])
      && (elems != [] ==> 1 <= |r[|r| - 1]| <= num)
      && |elems| == (|r| - 1) * num + |r[|r| - 1]|
    decreases |elems|
  {
    if elems != [] {
      var p := elems[..|elems| - 1];
      var x := elems[|elems| - 1];
      assert elems == p + [x];
      ChunkSizes(p, num);
      ChunkOfSnoc(p, x, num);
      var out := ChunkOf(p, num);
      var n := |out|;
      var front := out[..n - 1];
      var last := out[n - 1];
      assert out == front + [last];
      ChunkStepOnLast(front, last, x, num);
      if |last| == num {
        MulSucc(n - 1, num);
      }
    }
  }

  lemma MulSucc(a: int, b: int)
    ensures (a + 1) * b == a * b + b
  {
  }

  /** Hence there are ceil(n / num) chunks for a non-empty input of length n. */
  lemma ChunkCount<T>(elems: seq<T>, num: int)
    requires num >= 1 && elems != []
    ensures (|ChunkOf(elems, num)| - 1) * num < |elems| <= |ChunkOf(elems, num)| * num
  {
    ChunkSizes(elems, num);
    var r := ChunkOf(elems, num);
    assert |r| * num == (|r| - 1) * num + num;
  }

  /** `ChunkOf` unfolded once on an input written as `p + [x]`. */
  lemma ChunkOfSnoc<T>(p: seq<T>, x: T, num: int)
    ensures ChunkOf(p + [x], num) == ChunkStep(ChunkOf(p, num), x, num)
  {
    var s := p + [x];
    assert s[..|s| - 1] == p;
  }

  /** `ChunkStep` on an accumulator whose last chunk is `c`. */
  lemma ChunkStepOnLast<T>(base: seq<seq<T>>, c: seq<T>, x: T, num: int)
    ensures |c| == num ==> ChunkStep(base + [c], x, num) == base + [c] + [[x]]
    ensures |c| != num ==> ChunkStep(base + [c], x, num) == base + [c + [x]]
  {
    var out := base + [c];
    assert out[|out| - 1] == c;
    assert out[..|out| - 1] == base;
  }

  /** A full last chunk followed by at most `num` more elements yields exactly one more chunk. */
  lemma {:induction false} ChunkAppendPage<T>(prefix: seq<T>, page: seq<T>, num: int)
    requires num >= 1 && 1 <= |page| <= num
    requires prefix != [] ==> |ChunkOf(prefix, num)[|ChunkOf(prefix, num)| - 1]| == num
    ensures ChunkOf(prefix + page, num) == (if prefix == [] then [] else ChunkOf(prefix, num)) + [page]
    decreases |page|
  {
    var base: seq<seq<T>> := if prefix == [] then [] else ChunkOf(prefix, num);
    var init := page[..|page| - 1];
    var x := page[|page| - 1];
    assert page == init + [x];
    assert prefix + page == (prefix + init) + [x];
    ChunkOfSnoc(prefix + init, x, num);
    if |page| == 1 {
      assert prefix + init == prefix;
      if prefix == [] {
        var e: seq<seq<T>> := [];
        assert ChunkOf(prefix, num) == e + [[]];
        ChunkStepOnLast(e, [], x, num);
      } else {
        var out := ChunkOf(prefix, num);
        assert out == out[..|out| - 1] + [out[|out| - 1]];
        ChunkStepOnLast(out[..|out| - 1], out[|out| - 1], x, num);
      }
    } else {
      ChunkAppendPage(prefix, init, num);
      ChunkStepOnLast(base, init, x, num);
    }
  }

  /** An element of the concatenation lies in one of the pieces. */
  lemma {:induction false} FlattenMember<T>(chunks: seq<seq<T>>, x: T)
    ensures x in Flatten(chunks) <==> exists i :: 0 <= i < |chunks| && x in chunks[i]
    decreases |chunks|
  {
    if chunks != [] {
      var n := |chunks| - 1;
      FlattenMember(chunks[..n], x);
      if exists i :: 0 <= i < n && x in chunks[..n][i] {
        var i :| 0 <= i < n && x in chunks[..n][i];
        assert x in chunks[i];
      }
      if exists i :: 0 <= i < |chunks| && x in chunks[i] {
        var i :| 0 <= i < |chunks| && x in chunks[i];
        if i < n {
          assert x in chunks[..n][i];
        }
      }
    }
  }

  /** Every element of the input lies in some chunk. */
  lemma ChunkHolding<T>(elems: seq<T>, num: int, x: T) returns (i: nat)
    requires x in elems
    ensures i < |ChunkOf(elems, num)| && x in ChunkOf(elems, num)[i]
  {
    ChunkFlatten(elems, num);
    FlattenMember(ChunkOf(elems, num), x);
    i :| 0 <= i < |ChunkOf(elems, num)| && x in ChunkOf(elems, num)[i];
  }

  /** `chunk` itself: a reduce that pushes onto the accumulator's last array. */
  method Chunk<T>(elems: seq<T>, num: int) returns (out: seq<seq<T>>)
    ensures out == ChunkOf(elems, num)
    ensures Flatten(out) == elems
  {
    out := [[]];
    for i := 0 to |elems|
      invariant |out| >= 1
      invariant out == ChunkOf(elems[..i], num)
    {
      assert elems[..i + 1][..i] == elems[..i];
      var last := out[|out| - 1];
      if |last| == num {
        out := out + [[elems[i]]];
      } else {
        out := out[..|out| - 1] + [last + [elems[i]]];
      }
    }
    assert elems[..|elems|] == elems;
    ChunkFlatten(elems, num);
  }

  // ---- mergeMaps ------------------------------------------------------------------

  /** `mergeMaps(...maps)`: every entry of every map is set, in order, into a fresh map. */
  function MergeAll<K, V>(maps: seq<OrderedMap<K, V>>): OrderedMap<K, V>
    decreases |maps|
  {
    if maps == [] then Empty() else SetAll(MergeAll(maps[..|maps| - 1]), maps[|maps| - 1])
  }

  /** Every map of a list is well formed. */
  ghost predicate AllValid<K, V>(maps: seq<OrderedMap<K, V>>) {
    forall i {:trigger maps[i].Valid()} :: 0 <= i < |maps| ==> maps[i].Valid()
  }

  /** Merging well-formed maps gives a well-formed map. */
  lemma {:induction false} MergeValid<K, V>(maps: seq<OrderedMap<K, V>>)
    requires AllValid(maps)
    ensures MergeAll(maps).Valid()
    decreases |maps|
  {
    if maps != [] {
      var n := |maps| - 1;
      assert AllValid(maps[..n]);
      MergeValid(maps[..n]);
      SetPrefixValid(MergeAll(maps[..n]), maps[n], |maps[n].keys|);
    }
  }

  /** The merged key set is the union of the inputs' key sets. */
  lemma {:induction false} MergeKeys<K, V>(maps: seq<OrderedMap<K, V>>, k: K)
    requires AllValid(maps)
    ensures k in MergeAll(maps).entries <==> exists i :: 0 <= i < |maps| && k in maps[i].entries
    decreases |maps|
  {
    if maps != [] {
      var n := |maps| - 1;
      var front := maps[..n];
      assert AllValid(front);
      MergeKeys(front, k);
      SetAllAt(MergeAll(front), maps[n], k);
      assert forall i :: 0 <= i < n ==> front[i] == maps[i];
    }
  }

  /** On a shared key, the value of the last map that holds the key wins. */
  lemma {:induction false} MergeLastWins<K, V>(maps: seq<OrderedMap<K, V>>, k: K, i: nat)
    requires AllValid(maps) && i < |maps| && k in maps[i].entries
    requires forall j :: i < j < |maps| ==> k !in maps[j].entries
    ensures k in MergeAll(maps).entries && MergeAll(maps).entries[k] == maps[i].entries[k]
    decreases |maps|
  {
    var n := |maps| - 1;
    SetAllAt(MergeAll(maps[..n]), maps[n], k);
    if i < n {
      assert AllValid(maps[..n]);
      MergeLastWins(maps[..n], k, i);
    }
  }

  /** Merging one map, or several copies of it, gives back that map. */
  lemma {:induction false} MergeCopies<K, V>(maps: seq<OrderedMap<K, V>>, m: OrderedMap<K, V>)
    requires m.Valid() && |maps| >= 1 && forall i :: 0 <= i < |maps| ==> maps[i] == m
    ensures MergeAll(maps) == m
    decreases |maps|
  {
    var n := |maps| - 1;
    if n == 0 {
      assert maps[..0] == [];
      SetAllIntoEmpty(m);
    } else {
      MergeCopies(maps[..n], m);
      SetPrefixSelf(m, |m.keys|);
    }
  }

  /** A key of any input is a key of the merge. */
  lemma MergeHas<K, V>(maps: seq<OrderedMap<K, V>>, k: K, i: nat)
    requires AllValid(maps) && i < |maps| && k in maps[i].entries
    ensures k in MergeAll(maps).entries
  {
    MergeKeys(maps, k);
  }

  /** A merged value is the value of the last input map holding the key. */
  lemma MergeValueFrom<K, V>(maps: seq<OrderedMap<K, V>>, k: K) returns (i: nat)
    requires AllValid(maps) && k in MergeAll(maps).entries
    ensures i < |maps| && k in maps[i].entries && MergeAll(maps).entries[k] == maps[i].entries[k]
  {
    MergeKeys(maps, k);
    var i0 :| 0 <= i0 < |maps| && k in maps[i0].entries;
    i := LastHolding(maps, k, i0);
    MergeLastWins(maps, k, i);
  }

  function LastHolding<K, V>(maps: seq<OrderedMap<K, V>>, k: K, i: nat): (r: nat)
    requires i < |maps| && k in maps[i].entries
    ensures i <= r < |maps| && k in maps[r].entries && forall j :: r < j < |maps| ==> k !in maps[j].entries
    decreases |maps| - i
  {
    if exists j :: i < j < |maps| && k in maps[j].entries then
      var j :| i < j < |maps| && k in maps[j].entries;
      LastHolding(maps, k, j)
    else i
  }

  /** `mergeMaps` itself: two nested loops calling `result.set`. */
  method MergeMaps<K, V>(maps: seq<OrderedMap<K, V>>) returns (result: OrderedMap<K, V>)
    requires AllValid(maps)
    ensures result == MergeAll(maps)
  {
    result := Empty();
    for i := 0 to |maps|
      invariant result == MergeAll(maps[..i])
    {
      result := SetEntries(result, maps[i]);
      MergeAllStep(maps, i);
    }
    assert maps[..|maps|] == maps;
  }

  /** The inner loop of `mergeMaps`: `for (const [k, v] of m) result.set(k, v)`. */
  method SetEntries<K, V>(acc: OrderedMap<K, V>, m: OrderedMap<K, V>) returns (result: OrderedMap<K, V>)
    requires m.Valid()
    ensures result == SetAll(acc, m)
  {
    result := acc;
    for j := 0 to |m.keys|
      invariant result == SetPrefix(acc, m, j)
    {
      var key := m.keys[j];
      ListedKey(m, j);
      SetPrefixUnfold(acc, m, j + 1);
      result := Set(result, key, m.entries[key]);
    }
  }

  /** Merging one more map sets all of its entries over the merge of those before it. */
  lemma MergeAllStep<K, V>(maps: seq<OrderedMap<K, V>>, i: nat)
    requires i < |maps|
    ensures MergeAll(maps[..i + 1]) == SetAll(MergeAll(maps[..i]), maps[i])
  {
    assert maps[..i + 1][..i] == maps[..i];
  }

  // ---- parseFeeUpdate / parseContractUpgrade --------------------------------------

  /**
   * `parseFeeUpdate`: an empty blob is no pending update; otherwise three "safe" uint64
   * decodes of bytes [0,8), [8,16) and [16,24).
   */
  function ParseFeeUpdate(value: seq<byte>): (r: Result<Option<FeeUpdateState>, CodecError>)
    ensures r == Ok(None) <==> |value| == 0
    ensures 0 < |value| <= 16 ==> r.Err?
    ensures |value| >= 24 ==>
      (r.Ok? <==> BeValue(value[..8]) <= MAX_SAFE_INTEGER && BeValue(value[8..16]) <= MAX_SAFE_INTEGER
                  && BeValue(value[16..24]) <= MAX_SAFE_INTEGER)
    ensures r.Ok? && r.value.Some? ==>
      && 16 < |value|
      && r.value.value.applicableTimestamp == BeValue(value[..8])
      && r.value.value.nextNoderunnerFeeBps == BeValue(value[8..16])
      && r.value.value.nextPlatformFeeBps == BeValue(Slice(value, 16, 24))
  {
    if |value| == 0 then Ok(None)
    else
      var applicableTimestamp :- DecodeUint64(Slice(value, 0, 8), Safe);
      var nextNoderunnerFeeBps :- DecodeUint64(Slice(value, 8, 16), Safe);
      var nextPlatformFeeBps :- DecodeUint64(Slice(value, 16, 24), Safe);
      Ok(Some(FeeUpdateState(applicableTimestamp, nextNoderunnerFeeBps, nextPlatformFeeBps)))
  }

  /** The 24-byte blob the contract stores for a pending fee update. */
  function EncodeFeeUpdate(f: FeeUpdateState): (r: seq<byte>)
    requires f.applicableTimestamp < UINT64_LIMIT && f.nextNoderunnerFeeBps < UINT64_LIMIT
    requires f.nextPlatformFeeBps < UINT64_LIMIT
    ensures |r| == 24
  {
    Pow256Of8();
    BeEncode(f.applicableTimestamp, 8) + BeEncode(f.nextNoderunnerFeeBps, 8) + BeEncode(f.nextPlatformFeeBps, 8)
  }

  /** Decoding an encoded fee update gives it back exactly when every field is a safe integer. */
  lemma FeeUpdateRoundTrip(f: FeeUpdateState)
    requires f.applicableTimestamp < UINT64_LIMIT && f.nextNoderunnerFeeBps < UINT64_LIMIT
    requires f.nextPlatformFeeBps < UINT64_LIMIT
    ensures ParseFeeUpdate(EncodeFeeUpdate(f)) == Ok(Some(f)) <==>
      f.applicableTimestamp <= MAX_SAFE_INTEGER && f.nextNoderunnerFeeBps <= MAX_SAFE_INTEGER
      && f.nextPlatformFeeBps <= MAX_SAFE_INTEGER
  {
    Pow256Of8();
    var a := BeEncode(f.applicableTimestamp, 8);
    var b := BeEncode(f.nextNoderunnerFeeBps, 8);
    var c := BeEncode(f.nextPlatformFeeBps, 8);
    var v := EncodeFeeUpdate(f);
    assert v[..8] == a && v[8..16] == b && v[16..24] == c;
    DecodeEncode(f.applicableTimestamp, 8);
    DecodeEncode(f.nextNoderunnerFeeBps, 8);
    DecodeEncode(f.nextPlatformFeeBps, 8);
  }

  function HexPages(pages: seq<seq<byte>>): (r: seq<string>)
    ensures |r| == |pages| && forall i :: 0 <= i < |pages| ==> r[i] == Hex(pages[i])
  {
    seq(|pages|, i requires 0 <= i < |pages| => Hex(pages[i]))
  }

  /**
   * `parseContractUpgrade`: an empty blob is no pending upgrade; otherwise the first four
   * bytes are the timestamp and the rest is cut into 32-byte pages, each hex-encoded.
   */
  function ParseContractUpgrade(value: seq<byte>): (r: Result<Option<ContractUpgradeState>, CodecError>)
    ensures r.Ok?
    ensures r.value.None? <==> |value| == 0
    ensures r.value.Some? ==> r.value.value.applicableTimestamp == BeValue(Slice(value, 0, 4))
    ensures r.value.Some? ==> r.value.value.contractPageHashes == HexPages(ChunkOf(Slice(value, 4, |value|), 32))
  {
    if |value| == 0 then Ok(None)
    else
      var contractPageHashes := HexPages(ChunkOf(Slice(value, 4, |value|), 32));
      ShortValueIsSafe(Slice(value, 0, 4));
      var applicableTimestamp := DecodeUint64(Slice(value, 0, 4), Safe).value;
      Ok(Some(ContractUpgradeState(applicableTimestamp, contractPageHashes)))
  }

  /** At most four bytes always decode to a safe integer. */
  lemma ShortValueIsSafe(s: seq<byte>)
    requires |s| <= 4
    ensures BeValue(s) < 0x1_0000_0000 <= MAX_SAFE_INTEGER
  {
    BeValueBound(s);
    assert Pow256(0) == 1 && Pow256(1) == 256 && Pow256(2) == 0x1_0000;
    assert Pow256(3) == 0x100_0000 && Pow256(4) == 0x1_0000_0000;
  }

  /** A blob of at most four bytes has no page bytes, yet yields exactly one empty hash. */
  lemma ShortUpgradeBlobHasOneEmptyHash(value: seq<byte>)
    requires 1 <= |value| <= 4
    ensures ParseContractUpgrade(value).value.value.contractPageHashes == [""]
  {
    assert Slice(value, 4, |value|) == [];
  }

  function Concat(pages: seq<seq<byte>>): seq<byte>
    decreases |pages|
  {
    if pages == [] then [] else Concat(pages[..|pages| - 1]) + pages[|pages| - 1]
  }

  lemma {:induction false} ChunkOfPages(pages: seq<seq<byte>>)
    requires forall i :: 0 <= i < |pages| ==> |pages[i]| == 32
    ensures pages != [] ==> ChunkOf(Concat(pages), 32) == pages
    decreases |pages|
  {
    if pages != [] {
      var n := |pages| - 1;
      var front := pages[..n];
      ChunkOfPages(front);
      if front != [] {
        assert |Concat(front)| > 0 by {
          assert |Concat(front)| >= |front[|front| - 1]|;
        }
      } else {
        assert Concat(front) == [];
      }
      ChunkAppendPage(Concat(front), pages[n], 32);
      assert front + [pages[n]] == pages;
    }
  }

  /** The stored upgrade blob: a 4-byte timestamp followed by the 32-byte page hashes. */
  lemma UpgradeRoundTrip(ts: nat, pages: seq<seq<byte>>)
    requires ts < Pow256(4) && pages != []
    requires forall i :: 0 <= i < |pages| ==> |pages[i]| == 32
    ensures ParseContractUpgrade(BeEncode(ts, 4) + Concat(pages))
            == Ok(Some(ContractUpgradeState(ts, HexPages(pages))))
  {
    var v := BeEncode(ts, 4) + Concat(pages);
    ChunkOfPages(pages);
    assert Slice(v, 4, |v|) == Concat(pages);
    assert Slice(v, 0, 4) == BeEncode(ts, 4);
    DecodeEncode(ts, 4);
  }

  // ---- fixContractListing ---------------------------------------------------------

  /** `Number(x)`: a bigint becomes a plain number (the decimals field is a uint8, so exact). */
  function ToNumber(x: AbiInteger): (r: AbiInteger)
    ensures r.NumberValue? && r.n == x.n
  {
    NumberValue(x.n)
  }

  /** The listing object the ABI layer builds from the 15-field tuple. */
  class ListingObject {
    var rate: nat
    var algoBalance: nat
    var asaBalance: nat
    var staked: nat
    var lstId: nat
    var lstName: string
    var asaId: nat
    var asaName: string
    var asaUnitName: string
    var asaDecimals: AbiInteger
    var needSwap: bool
    var incentiveEligible: bool
    var isOnline: bool
    var upgrading: bool
    var userProtestingStake: nat

    /** `ContractListingFromTuple`: a positional copy. */
    constructor FromTuple(t: ListingTuple)
      ensures Fields() == t
    {
      rate, algoBalance, asaBalance, staked, lstId := t.rate, t.algoBalance, t.asaBalance, t.staked, t.lstId;
      lstName, asaId, asaName, asaUnitName := t.lstName, t.asaId, t.asaName, t.asaUnitName;
      asaDecimals, needSwap, incentiveEligible := t.asaDecimals, t.needSwap, t.incentiveEligible;
      isOnline, upgrading, userProtestingStake := t.isOnline, t.upgrading, t.userProtestingStake;
    }

    function Fields(): ListingTuple
      reads this
    {
      ListingTuple(rate, algoBalance, asaBalance, staked, lstId, lstName, asaId, asaName, asaUnitName,
                   asaDecimals, needSwap, incentiveEligible, isOnline, upgrading, userProtestingStake)
    }
  }

  /** The tuple after the fix-up: only the decimals change, to a plain number of the same value. */
  function Fixed(t: ListingTuple): (r: ListingTuple)
    ensures r.asaDecimals.NumberValue? && r.asaDecimals.n == t.asaDecimals.n
    ensures r.(asaDecimals := t.asaDecimals) == t
  {
    t.(asaDecimals := ToNumber(t.asaDecimals))
  }

  /** `fixContractListing`: narrows `asaDecimals` in place and returns the same object. */
  method FixContractListing(listing: ListingObject) returns (r: ListingObject)
    modifies listing
    ensures r == listing
    ensures listing.Fields() == Fixed(old(listing.Fields()))
  {
    listing.asaDecimals := ToNumber(listing.asaDecimals);
    r := listing;
  }

  /** `ContractListingFromTupleFixed`. */
  method ContractListingFromTupleFixed(t: ListingTuple) returns (l: ListingObject)
    ensures fresh(l) && l.Fields() == Fixed(t)
  {
    var obj := new ListingObject.FromTuple(t);
    l := FixContractListing(obj);
  }

  // ---- replaceTemplateVars --------------------------------------------------------

  function DigitChar(d: nat): char
    requires d < 10
  {
    '0' + d as char
  }

  /** `String(n)` for a non-negative integer: its decimal digits. */
  function Decimal(n: nat): (r: string)
    ensures |r| >= 1 && forall i :: 0 <= i < |r| ==> '0' <= r[i] <= '9'
  {
    if n < 10 then [DigitChar(n)] else Decimal(n / 10) + [DigitChar(n % 10)]
  }

  function DecimalValue(s: string): nat
  {
    if s == [] then 0 else DecimalValue(s[..|s| - 1]) * 10 + ((s[|s| - 1] as int - '0' as int) % 10)
  }

  lemma {:induction false} DecimalRoundTrip(n: nat)
    ensures DecimalValue(Decimal(n)) == n
  {
    if n >= 10 {
      DecimalRoundTrip(n / 10);
      var d := Decimal(n);
      assert d[..|d| - 1] == Decimal(n / 10);
    }
  }

  ghost predicate OccursAt(s: string, pat: string, i: nat)
  {
    i + |pat| <= |s| && s[i..i + |pat|] == pat
  }

  /** `s.replace(new RegExp(pat, "g"), rep)`: leftmost match first, scanning resumes after it. */
  function ReplaceAll(s: string, pat: string, rep: string): string
    requires |pat| > 0
    decreases |s|
  {
    if |s| < |pat| then s
    else if s[..|pat|] == pat then rep + ReplaceAll(s[|pat|..], pat, rep)
    else [s[0]] + ReplaceAll(s[1..], pat, rep)
  }

  /** Text without the pattern is left as it is. */
  lemma {:induction false} ReplaceAbsent(s: string, pat: string, rep: string)
    requires |pat| > 0
    requires forall i :: 0 <= i <= |s| - |pat| ==> !OccursAt(s, pat, i)
    ensures ReplaceAll(s, pat, rep) == s
    decreases |s|
  {
    if |s| >= |pat| {
      assert !OccursAt(s, pat, 0);
      forall i | 0 <= i <= |s[1..]| - |pat| ensures !OccursAt(s[1..], pat, i) {
        assert !OccursAt(s, pat, i + 1);
        assert s[1..][i..i + |pat|] == s[i + 1..i + 1 + |pat|];
      }
      ReplaceAbsent(s[1..], pat, rep);
    }
  }

  /** No occurrence starts inside `a` after its first character either. */
  lemma NoEarlyOccurrenceTail(a: string, pat: string, b: string)
    requires |a| > 0
    requires forall i :: 0 <= i < |a| ==> !OccursAt(a + pat + b, pat, i)
    ensures forall i :: 0 <= i < |a[1..]| ==> !OccursAt(a[1..] + pat + b, pat, i)
  {
    var s := a + pat + b;
    forall i | 0 <= i < |a[1..]| ensures !OccursAt(a[1..] + pat + b, pat, i) {
      assert !OccursAt(s, pat, i + 1);
      assert (a[1..] + pat + b)[i..] == s[i + 1..];
    }
  }

  /** The first occurrence is replaced, and replacing goes on after it. */
  lemma {:induction false} ReplaceFirstOccurrence(a: string, pat: string, b: string, rep: string)
    requires |pat| > 0
    requires forall i :: 0 <= i < |a| ==> !OccursAt(a + pat + b, pat, i)
    ensures ReplaceAll(a + pat + b, pat, rep) == a + rep + ReplaceAll(b, pat, rep)
    decreases |a|
  {
    var s := a + pat + b;
    if a == [] {
      assert s == pat + b;
      assert s[..|pat|] == pat;
      assert s[|pat|..] == b;
    } else {
      assert s[..|pat|] != pat by {
        assert !OccursAt(s, pat, 0);
      }
      NoEarlyOccurrenceTail(a, pat, b);
      ReplaceFirstOccurrence(a[1..], pat, b, rep);
      ReplaceSkipHead(a, pat, b, rep);
    }
  }

  /** Where no occurrence starts at the head, the head is kept and replacing goes on after it. */
  lemma ReplaceSkipHead(a: string, pat: string, b: string, rep: string)
    requires |a| > 0 && |pat| > 0
    requires (a + pat + b)[..|pat|] != pat
    requires ReplaceAll(a[1..] + pat + b, pat, rep) == a[1..] + rep + ReplaceAll(b, pat, rep)
    ensures ReplaceAll(a + pat + b, pat, rep) == a + rep + ReplaceAll(b, pat, rep)
  {
    var s := a + pat + b;
    assert s[1..] == a[1..] + pat + b;
    assert ReplaceAll(s, pat, rep) == [a[0]] + ReplaceAll(s[1..], pat, rep);
    assert a == [a[0]] + a[1..];
  }

  function NoOverrides(): PartialNetworkConstants
  {
    PartialNetworkConstants(None, None, None, None, None, None, None)
  }

  /** `{ ...templateVarMap, ...overrides }`: an override that is present wins. */
  function MergeConstants(base: NetworkConstants, overrides: PartialNetworkConstants): (r: NetworkConstants)
    ensures overrides == NoOverrides() ==> r == base
    ensures overrides.maxBalance.Some? ==> r.maxBalance == overrides.maxBalance.value
    ensures overrides.maxBalance.None? ==> r.maxBalance == base.maxBalance
    ensures overrides.upgradePeriod.Some? ==> r.upgradePeriod == overrides.upgradePeriod.value
    ensures overrides.upgradePeriod.None? ==> r.upgradePeriod == base.upgradePeriod
    ensures overrides.feeUpdatePeriod.Some? ==> r.feeUpdatePeriod == overrides.feeUpdatePeriod.value
    ensures overrides.feeUpdatePeriod.None? ==> r.feeUpdatePeriod == base.feeUpdatePeriod
    ensures overrides.feeUpdateMaxDelta.Some? ==> r.feeUpdateMaxDelta == overrides.feeUpdateMaxDelta.value
    ensures overrides.feeUpdateMaxDelta.None? ==> r.feeUpdateMaxDelta == base.feeUpdateMaxDelta
    ensures overrides.ratePrecision.Some? ==> r.ratePrecision == overrides.ratePrecision.value
    ensures overrides.ratePrecision.None? ==> r.ratePrecision == base.ratePrecision
    ensures overrides.tm2AppId.Some? ==> r.tm2AppId == overrides.tm2AppId.value
    ensures overrides.tm2AppId.None? ==> r.tm2AppId == base.tm2AppId
    ensures overrides.arc59AppId.Some? ==> r.arc59AppId == overrides.arc59AppId.value
    ensures overrides.arc59AppId.None? ==> r.arc59AppId == base.arc59AppId
  {
    NetworkConstants(
      if overrides.maxBalance.Some? then overrides.maxBalance.value else base.maxBalance,
      if overrides.upgradePeriod.Some? then overrides.upgradePeriod.value else base.upgradePeriod,
      if overrides.feeUpdatePeriod.Some? then overrides.feeUpdatePeriod.value else base.feeUpdatePeriod,
      if overrides.feeUpdateMaxDelta.Some? then overrides.feeUpdateMaxDelta.value else base.feeUpdateMaxDelta,
      if overrides.ratePrecision.Some? then overrides.ratePrecision.value else base.ratePrecision,
      if overrides.tm2AppId.Some? then overrides.tm2AppId.value else base.tm2AppId,
      if overrides.arc59AppId.Some? then overrides.arc59AppId.value else base.arc59AppId)
  }

  /** `Object.entries` of the merged constants, in the keys' declaration order. */
  function TemplateEntries(nc: NetworkConstants): (r: seq<(string, nat)>)
    ensures |r| == 7
  {
    [("maxBalance", nc.maxBalance), ("upgradePeriod", nc.upgradePeriod),
     ("feeUpdatePeriod", nc.feeUpdatePeriod), ("feeUpdateMaxDelta", nc.feeUpdateMaxDelta),
     ("ratePrecision", nc.ratePrecision), ("tm2AppId", nc.tm2AppId), ("arc59AppId", nc.arc59AppId)]
  }

  /** Replaces `TMPL_<key>` by the value's decimal text, entry after entry. */
  function Substitute(s: string, entries: seq<(string, nat)>): string
    decreases |entries|
  {
    if entries == [] then s
    else
      var e := entries[|entries| - 1];
      ReplaceAll(Substitute(s, entries[..|entries| - 1]), "TMPL_" + e.0, Decimal(e.1))
  }

  /** `replaceTemplateVars`: reassigns `out` once per entry of the merged constants. */
  method ReplaceTemplateVars(approval: string, templateVarMap: NetworkConstants, overrides: PartialNetworkConstants)
    returns (out: string)
    ensures out == Substitute(approval, TemplateEntries(MergeConstants(templateVarMap, overrides)))
  {
    out := approval;
    var entries := TemplateEntries(MergeConstants(templateVarMap, overrides));
    for i := 0 to |entries|
      invariant out == Substitute(approval, entries[..i])
    {
      var (key, value) := entries[i];
      out := ReplaceAll(out, "TMPL_" + key, Decimal(value));
      assert entries[..i + 1][..i] == entries[..i];
    }
    assert entries[..|entries|] == entries;
  }

  // ---- isOptedIn ------------------------------------------------------------------

  /** An entry of `accountInformation(user).assets`. */
  datatype AssetHolding = AssetHolding(assetId: nat, amount: nat)

  /** The membership test of `isOptedIn`: some holding's `asset-id` is the asset. */
  function IsOptedIn(holdings: seq<AssetHolding>, assetId: nat): (r: bool)
    ensures r <==> exists i :: 0 <= i < |holdings| && holdings[i].assetId == assetId
  {
    if holdings == [] then false
    else holdings[0].assetId == assetId || IsOptedIn(holdings[1..], assetId)
  }

  // ---- groupTxns ------------------------------------------------------------------

  /**
   * `groupTxns`: every transaction is stamped with one group id, the digest of the whole
   * ordered list (algosdk's SHA-512/256 construction, passed in as `digest`).
   */
  function GroupTxns(txns: seq<Txn>, digest: seq<Txn> -> GroupId): (r: seq<GroupedTxn>)
    ensures |r| == |txns|
    ensures forall i :: 0 <= i < |r| ==> r[i].txn == txns[i] && r[i].group == digest(txns)
  {
    seq(|txns|, i requires 0 <= i < |txns| => GroupedTxn(txns[i], digest(txns)))
  }

  function Ungrouped(g: seq<GroupedTxn>): (r: seq<Txn>)
    ensures |r| == |g| && forall i :: 0 <= i < |g| ==> r[i] == g[i].txn
  {
    seq(|g|, i requires 0 <= i < |g| => g[i].txn)
  }
}
