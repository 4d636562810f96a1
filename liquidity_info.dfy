/**
 * The pool-list side of src/application/liquidity/useLiquidityInfoLoader.tsx:
 * merging the API's official and unofficial pool lists with locally known
 * extra pools into the liquidity store, the date-keyed daily pool map, and
 * the ids of the pools whose LP token the wallet holds.
 */
module LiquidityInfo {
  import opened Wrappers
  import opened ArrayMethods
  import DateFormat

  /** An API pool entry, reduced to the fields this code reads. */
  datatype PoolInfo = PoolInfo(id: string, lpMint: string)

  /** The pool API response; either list may be missing. */
  datatype ApiPoolInfo = ApiPoolInfo(official: Option<seq<PoolInfo>>, unOfficial: Option<seq<PoolInfo>>)

  datatype ApiCacheInfo = ApiCacheInfo(fetchTime: int, data: ApiPoolInfo)

  function Ids(pools: seq<PoolInfo>): set<string> {
    set p | p in pools :: p.id
  }

  lemma IdsAppend(a: seq<PoolInfo>, b: seq<PoolInfo>)
    ensures Ids(a + b) == Ids(a) + Ids(b)
  {
    assert forall p :: p in a + b <==> p in a || p in b;
  }

  function OfficialOf(response: Option<ApiPoolInfo>): seq<PoolInfo> {
    if response.Some? then response.value.official.GetOr([]) else []
  }

  function UnOfficialOf(response: Option<ApiPoolInfo>): seq<PoolInfo> {
    if response.Some? then response.value.unOfficial.GetOr([]) else []
  }

  /** The extra pools that get merged: those whose id neither API list has. */
  function ReadyMergePools(extras: seq<PoolInfo>, officialIds: set<string>, unOfficialIds: set<string>)
    : (r: seq<PoolInfo>)
    ensures forall p :: p in r <==> p in extras && p.id !in officialIds && p.id !in unOfficialIds
  {
    Filter(extras, (p: PoolInfo) => p.id !in officialIds && p.id !in unOfficialIds)
  }

  /** The pool list `parseAndSetPoolList` stores: official, then unofficial, then the extras it merges. */
  function PoolList(response: Option<ApiPoolInfo>, extras: seq<PoolInfo>): seq<PoolInfo> {
    OfficialOf(response) + UnOfficialOf(response)
    + ReadyMergePools(extras, Ids(OfficialOf(response)), Ids(UnOfficialOf(response)))
  }

  /**
   * The stored list keeps both API lists in front, and no extra pool whose
   * id an API list already has is added after them.
   */
  lemma PoolListNoDuplicatedExtras(response: Option<ApiPoolInfo>, extras: seq<PoolInfo>)
    ensures var official, unOfficial := OfficialOf(response), UnOfficialOf(response);
            var list := PoolList(response, extras);
            && list[..|official| + |unOfficial|] == official + unOfficial
            && forall k :: |official| + |unOfficial| <= k < |list| ==> list[k].id !in Ids(official) + Ids(unOfficial)
  {
    var official, unOfficial := OfficialOf(response), UnOfficialOf(response);
    var list := PoolList(response, extras);
    var ready := ReadyMergePools(extras, Ids(official), Ids(unOfficial));
    forall k | |official| + |unOfficial| <= k < |list|
      ensures list[k].id !in Ids(official) + Ids(unOfficial)
    {
      assert list[k] == ready[k - |official| - |unOfficial|];
      assert list[k] in ready;
    }
  }

  /** Every pool of the stored list has its id in one of the two id sets. */
  lemma PoolListIdsCovered(response: Option<ApiPoolInfo>, extras: seq<PoolInfo>)
    ensures var official, unOfficial := OfficialOf(response), UnOfficialOf(response);
            Ids(PoolList(response, extras))
            == Ids(official) + (Ids(unOfficial) + Ids(ReadyMergePools(extras, Ids(official), Ids(unOfficial))))
  {
    var official, unOfficial := OfficialOf(response), UnOfficialOf(response);
    IdsAppend(official, unOfficial);
    IdsAppend(official + unOfficial, ReadyMergePools(extras, Ids(official), Ids(unOfficial)));
  }

  /** The `forEach` that adds each merged pool's id to the unofficial id set. */
  method AddIds(ids: set<string>, pools: seq<PoolInfo>) returns (r: set<string>)
    ensures r == ids + Ids(pools)
  {
    r := ids;
    for i := 0 to |pools|
      invariant r == ids + Ids(pools[..i])
    {
      assert pools[..i + 1] == pools[..i] + [pools[i]];
      IdsAppend(pools[..i], [pools[i]]);
      r := r + {pools[i].id};
    }
    assert pools[..|pools|] == pools;
  }

  /** `fetchTime || Date.now()`: a missing or zero fetch time is replaced by the current time. */
  function CacheTime(fetchTime: Option<int>, now: int): (t: int)
    ensures fetchTime.Some? && fetchTime.value != 0 ==> t == fetchTime.value
    ensures fetchTime.None? || fetchTime.value == 0 ==> t == now
  {
    if fetchTime.Some? && fetchTime.value != 0 then fetchTime.value else now
  }

  /** The liquidity store fields `parseAndSetPoolList` writes, and the extra pools it reads. */
  class LiquidityStore {
    var jsonInfos: seq<PoolInfo>
    var officialIds: set<string>
    var unOfficialIds: set<string>
    var apiCacheInfo: Option<ApiCacheInfo>
    var extraPoolInfos: seq<PoolInfo>

    constructor (extras: seq<PoolInfo>)
      ensures jsonInfos == [] && officialIds == {} && unOfficialIds == {} && apiCacheInfo == None
      ensures extraPoolInfos == extras
    {
      jsonInfos, officialIds, unOfficialIds, apiCacheInfo := [], {}, {}, None;
      extraPoolInfos := extras;
    }

    /**
     * `parseAndSetPoolList`: the merged list and both id sets are replaced;
     * the cache record is replaced only when a response is given.
     */
    method ParseAndSetPoolList(response: Option<ApiPoolInfo>, fetchTime: Option<int>, now: int)
      modifies this
      ensures jsonInfos == PoolList(response, old(extraPoolInfos))
      ensures officialIds == Ids(OfficialOf(response))
      ensures unOfficialIds == Ids(UnOfficialOf(response))
                               + Ids(ReadyMergePools(old(extraPoolInfos), officialIds, Ids(UnOfficialOf(response))))
      ensures response.Some? ==> apiCacheInfo == Some(ApiCacheInfo(CacheTime(fetchTime, now), response.value))
      ensures response.None? ==> apiCacheInfo == old(apiCacheInfo)
      ensures extraPoolInfos == old(extraPoolInfos)
    {
      var liquidityInfoList := OfficialOf(response) + UnOfficialOf(response);
      var official := Ids(OfficialOf(response));
      var unOfficial := Ids(UnOfficialOf(response));
      var readyMergePools := ReadyMergePools(extraPoolInfos, official, unOfficial);
      liquidityInfoList := liquidityInfoList + readyMergePools;
      unOfficial := AddIds(unOfficial, readyMergePools);
      if response.Some? {
        apiCacheInfo := Some(ApiCacheInfo(CacheTime(fetchTime, now), response.value));
      }
      jsonInfos, officialIds, unOfficialIds := liquidityInfoList, official, unOfficial;
    }
  }

  // ---------------------------------------------------------------- fetchUpdatePoolInfo

  /** `n` in decimal, without leading zeros. */
  function DecimalString(n: nat): (s: string)
    ensures |s| >= 1 && forall i :: 0 <= i < |s| ==> DateFormat.IsDigit(s[i])
  {
    if n < 10 then [(('0' as int) + n) as char]
    else DecimalString(n / 10) + [(('0' as int) + n % 10) as char]
  }

  function Pow10(w: nat): nat {
    if w == 0 then 1 else 10 * Pow10(w - 1)
  }

  /** A number with exactly `w` digits prints as its `w`-digit rendering. */
  lemma {:induction false} DecimalStringWidth(n: nat, w: nat)
    requires 1 <= w && n < Pow10(w) && (w == 1 || Pow10(w - 1) <= n)
    ensures DecimalString(n) == DateFormat.Digits(n, w)
    decreases w
  {
    if w == 1 {
      assert n < 10;
      assert DateFormat.Digits(n, 1) == DateFormat.Digits(n / 10, 0) + [(('0' as int) + n % 10) as char];
    } else {
      assert n >= 10 by {
        PowMonotone(w - 1);
      }
      assert Pow10(w - 2) <= n / 10 < Pow10(w - 1);
      DecimalStringWidth(n / 10, w - 1);
    }
  }

  lemma {:induction false} PowMonotone(w: nat)
    requires w >= 1
    ensures Pow10(w) >= 10
    decreases w
  {
    if w > 1 {
      PowMonotone(w - 1);
    }
  }

  /** `checkPrefix`: a value below ten gets a leading zero. */
  function CheckPrefix(val: nat): string {
    if val < 10 then "0" + DecimalString(val) else DecimalString(val)
  }

  /** Below 100, `checkPrefix` is the two-digit zero-padded rendering. */
  lemma CheckPrefixIsTwoDigits(val: nat)
    requires val < 100
    ensures CheckPrefix(val) == DateFormat.Digits(val, 2)
  {
    if val < 10 {
      DecimalStringWidth(val, 1);
      assert DateFormat.Digits(val, 2) == DateFormat.Digits(val / 10, 1) + DateFormat.Digits(val, 1);
    } else {
      DecimalStringWidth(val, 2);
    }
  }

  /** The `/YYYY-MM-DD` part of the daily pool-info URL, from the UTC year, month (1-based) and day. */
  function DailyKey(year: nat, month: nat, day: nat): string {
    DecimalString(year) + "-" + CheckPrefix(month) + "-" + CheckPrefix(day)
  }

  /**
   * For a four-digit year the key is `YYYY-MM-DD` with month and day padded
   * to two digits, the same date form `toUTC` accepts.
   */
  lemma DailyKeyIsIsoDate(year: nat, month: nat, day: nat)
    requires 1000 <= year <= 9999 && 1 <= month <= 12 && 1 <= day <= 31
    ensures DailyKey(year, month, day)
            == DateFormat.Digits(year, 4) + "-" + DateFormat.Digits(month, 2) + "-" + DateFormat.Digits(day, 2)
    ensures DateFormat.MatchDate(DailyKey(year, month, day))
            == Some((DateFormat.Digits(year, 4), DateFormat.Digits(month, 2), DateFormat.Digits(day, 2)))
  {
    assert Pow10(3) == 1000 && Pow10(4) == 10000;
    DecimalStringWidth(year, 4);
    CheckPrefixIsTwoDigits(month);
    CheckPrefixIsTwoDigits(day);
    DateFormat.MatchDateOfParts(DateFormat.Digits(year, 4), DateFormat.Digits(month, 2), DateFormat.Digits(day, 2));
  }

  /** The id map after `set(pool.id, pool)` for each pool in turn. */
  function IdMap(pools: seq<PoolInfo>): map<string, PoolInfo> {
    if pools == [] then map[] else IdMap(pools[..|pools| - 1])[pools[|pools| - 1].id := pools[|pools| - 1]]
  }

  /** The map has an entry for every pool id, and the last pool with an id is the one kept. */
  lemma {:induction false} IdMapLastWins(pools: seq<PoolInfo>, k: nat)
    requires k < |pools|
    requires forall j :: k < j < |pools| ==> pools[j].id != pools[k].id
    ensures pools[k].id in IdMap(pools) && IdMap(pools)[pools[k].id] == pools[k]
    decreases |pools|
  {
    if k < |pools| - 1 {
      var init := pools[..|pools| - 1];
      assert forall j :: k < j < |init| ==> init[j] == pools[j];
      IdMapLastWins(init, k);
    }
  }

  lemma {:induction false} IdMapKeys(pools: seq<PoolInfo>)
    ensures IdMap(pools).Keys == Ids(pools)
    decreases |pools|
  {
    if pools != [] {
      var init := pools[..|pools| - 1];
      assert pools == init + [pools[|pools| - 1]];
      IdsAppend(init, [pools[|pools| - 1]]);
      IdMapKeys(init);
    }
  }

  /**
   * `fetchUpdatePoolInfo` after the fetch: official pools, then unofficial
   * ones, are stored by id. No response gives an empty map; a response
   * without both lists makes the source throw, which is `None` here.
   */
  method FetchUpdatePoolInfo(response: Option<ApiPoolInfo>) returns (data: Option<map<string, PoolInfo>>)
    ensures response.None? ==> data == Some(map[])
    ensures response.Some? && (response.value.official.None? || response.value.unOfficial.None?) ==> data.None?
    ensures response.Some? && response.value.official.Some? && response.value.unOfficial.Some?
            ==> data == Some(IdMap(response.value.official.value + response.value.unOfficial.value))
  {
    if response.None? {
      return Some(map[]);
    }
    if response.value.official.None? || response.value.unOfficial.None? {
      return None;
    }
    var pools := response.value.official.value + response.value.unOfficial.value;
    var m: map<string, PoolInfo> := map[];
    for i := 0 to |pools|
      invariant m == IdMap(pools[..i])
    {
      assert pools[..i + 1][..i] == pools[..i];
      m := m[pools[i].id := pools[i]];
    }
    assert pools[..|pools|] == pools;
    return Some(m);
  }

  // ---------------------------------------------------------------- userExhibitionLiquidityIds

  /** A pool is exhibited when the wallet holds a positive balance of its LP mint. */
  predicate HasLpBalance(pool: PoolInfo, balances: map<string, int>) {
    pool.lpMint in balances && balances[pool.lpMint] > 0
  }

  /** The ids of the exhibited pools, in pool-list order. */
  function UserExhibitionLiquidityIds(jsonInfos: seq<PoolInfo>, balances: map<string, int>): (ids: seq<string>)
    ensures |ids| <= |jsonInfos|
    ensures forall id :: id in ids <==> exists p :: p in jsonInfos && HasLpBalance(p, balances) && p.id == id
  {
    if jsonInfos == [] then []
    else
      var rest := UserExhibitionLiquidityIds(jsonInfos[1..], balances);
      assert forall p :: p in jsonInfos <==> p == jsonInfos[0] || p in jsonInfos[1..];
      if HasLpBalance(jsonInfos[0], balances) then [jsonInfos[0].id] + rest else rest
  }

  /** The ids follow the list: exhibiting a concatenation concatenates the ids. */
  lemma {:induction false} ExhibitionIdsAppend(a: seq<PoolInfo>, b: seq<PoolInfo>, balances: map<string, int>)
    ensures UserExhibitionLiquidityIds(a + b, balances)
            == UserExhibitionLiquidityIds(a, balances) + UserExhibitionLiquidityIds(b, balances)
    decreases |a|
  {
    if a == [] {
      assert a + b == b;
    } else {
      assert (a + b)[0] == a[0] && (a + b)[1..] == a[1..] + b;
      ExhibitionIdsAppend(a[1..], b, balances);
    }
  }
}
