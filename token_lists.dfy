/**
 * The token-list collector of src/application/token/useTokenListsLoader.tsx.
 * Each fetched list is folded into one `TokenInfoCollector`: mint sets per
 * list kind, a blacklist, and a record of token infos keyed by mint. Pool
 * lists contribute placeholder infos for mints no token list names.
 * `mergeToken` is not part of this model and is passed in as a function.
 */
module TokenLists {
  import opened Wrappers
  import opened ArrayMethods

  /** The base58 address of the SPL Token-2022 program. */
  const TOKEN_2022_PROGRAM_ID: string := "TokenzQdBNbLqP5VEhdkAS6EPFLC1PHnBqCXEpPxuEb"

  /** `TokenJson`; `version` is the optional `extensions.version` tag. */
  datatype TokenJson = TokenJson(symbol: Option<string>, name: Option<string>, mint: string, decimals: int,
                                 version: Option<string>)

  /** `mergeToken(a, b)`: either side may be missing (an absent record entry). */
  type Merge = (Option<TokenJson>, Option<TokenJson>) -> TokenJson

  function Lookup(tokens: map<string, TokenJson>, mint: string): Option<TokenJson> {
    if mint in tokens then Some(tokens[mint]) else None
  }

  function Mints(ts: seq<TokenJson>): set<string> {
    set t | t in ts :: t.mint
  }

  // ---------------------------------------------------------------- deleteFetchedNativeSOLToken

  /** `deleteFetchedNativeSOLToken`: drop the tokens listed under the SOL mint, keep the rest in order. */
  function DeleteFetchedNativeSOLToken(tokenJsons: seq<TokenJson>, solMint: string): (r: seq<TokenJson>)
    ensures forall i :: 0 <= i < |r| ==> r[i].mint != solMint
    ensures forall t: TokenJson :: t.mint != solMint ==> multiset(r)[t] == multiset(tokenJsons)[t]
    ensures Mints(r) == Mints(tokenJsons) - {solMint}
  {
    FilterCounts(tokenJsons, (t: TokenJson) => t.mint != solMint);
    Filter(tokenJsons, (t: TokenJson) => t.mint != solMint)
  }

  /** Deleting distributes over concatenation, so the kept tokens stay in their order. */
  lemma DeleteSolDistributes(a: seq<TokenJson>, b: seq<TokenJson>, solMint: string)
    ensures DeleteFetchedNativeSOLToken(a + b, solMint)
            == DeleteFetchedNativeSOLToken(a, solMint) + DeleteFetchedNativeSOLToken(b, solMint)
  {
    FilterAppend(a, b, (t: TokenJson) => t.mint != solMint);
  }

  /** A list without the SOL mint passes through unchanged. */
  lemma DeleteSolWithoutSol(ts: seq<TokenJson>, solMint: string)
    requires solMint !in Mints(ts)
    ensures DeleteFetchedNativeSOLToken(ts, solMint) == ts
  {
    assert forall i :: 0 <= i < |ts| ==> ts[i].mint != solMint by {
      forall i | 0 <= i < |ts| ensures ts[i].mint != solMint {
        assert ts[i] in ts;
      }
    }
    FilterAllPass(ts, (t: TokenJson) => t.mint != solMint);
  }

  // ---------------------------------------------------------------- collectToken

  /** The new record entry for `t`: a low-priority token yields to the existing entry. */
  function MergedEntry(tokens: map<string, TokenJson>, t: TokenJson, lowPriority: bool, merge: Merge): TokenJson {
    if lowPriority then merge(Some(t), Lookup(tokens, t.mint)) else merge(Lookup(tokens, t.mint), Some(t))
  }

  /** The record after `collectToken` has stored each token of `ts` in turn. */
  function Collected(tokens: map<string, TokenJson>, ts: seq<TokenJson>, lowPriority: bool, merge: Merge)
    : map<string, TokenJson>
    decreases |ts|
  {
    if ts == [] then tokens
    else Collected(tokens[ts[0].mint := MergedEntry(tokens, ts[0], lowPriority, merge)], ts[1..], lowPriority, merge)
  }

  lemma MintsCons(ts: seq<TokenJson>)
    requires ts != []
    ensures Mints(ts) == {ts[0].mint} + Mints(ts[1..])
  {
    assert forall t :: t in ts <==> t == ts[0] || t in ts[1..];
  }

  /** After `collectToken` every listed mint has an entry, and entries of unlisted mints are untouched. */
  lemma {:induction false} CollectedKeys(tokens: map<string, TokenJson>, ts: seq<TokenJson>, lowPriority: bool,
                                         merge: Merge)
    ensures Collected(tokens, ts, lowPriority, merge).Keys == tokens.Keys + Mints(ts)
    ensures forall m :: m in tokens && m !in Mints(ts) ==> Collected(tokens, ts, lowPriority, merge)[m] == tokens[m]
    decreases |ts|
  {
    if ts != [] {
      MintsCons(ts);
      CollectedKeys(tokens[ts[0].mint := MergedEntry(tokens, ts[0], lowPriority, merge)], ts[1..], lowPriority, merge);
    }
  }

  /** Collecting two lists one after the other is collecting their concatenation. */
  lemma {:induction false} CollectedAppend(tokens: map<string, TokenJson>, a: seq<TokenJson>, b: seq<TokenJson>,
                                           lowPriority: bool, merge: Merge)
    ensures Collected(Collected(tokens, a, lowPriority, merge), b, lowPriority, merge)
            == Collected(tokens, a + b, lowPriority, merge)
    decreases |a|
  {
    if a != [] {
      var next := tokens[a[0].mint := MergedEntry(tokens, a[0], lowPriority, merge)];
      assert (a + b)[0] == a[0] && (a + b)[1..] == a[1..] + b;
      assert Collected(tokens, a + b, lowPriority, merge) == Collected(next, a[1..] + b, lowPriority, merge);
      assert Collected(tokens, a, lowPriority, merge) == Collected(next, a[1..], lowPriority, merge);
      CollectedAppend(next, a[1..], b, lowPriority, merge);
    } else {
      assert a + b == b;
    }
  }

  lemma MintsAppend(a: seq<TokenJson>, b: seq<TokenJson>)
    ensures Mints(a + b) == Mints(a) + Mints(b)
  {
    assert forall t :: t in a + b <==> t in a || t in b;
  }

  predicate DistinctMints(ts: seq<TokenJson>) {
    forall i, j :: 0 <= i < j < |ts| ==> ts[i].mint != ts[j].mint
  }

  /**
   * With distinct mints each token's entry is one merge with the entry found
   * before the call: `mergeToken(new, existing)` for a low-priority list,
   * `mergeToken(existing, new)` otherwise.
   */
  lemma {:induction false} CollectedEntry(tokens: map<string, TokenJson>, ts: seq<TokenJson>, lowPriority: bool,
                                          merge: Merge, k: nat)
    requires DistinctMints(ts) && k < |ts|
    ensures ts[k].mint in Collected(tokens, ts, lowPriority, merge)
    ensures Collected(tokens, ts, lowPriority, merge)[ts[k].mint]
            == if lowPriority then merge(Some(ts[k]), Lookup(tokens, ts[k].mint))
               else merge(Lookup(tokens, ts[k].mint), Some(ts[k]))
    decreases k
  {
    var next := tokens[ts[0].mint := MergedEntry(tokens, ts[0], lowPriority, merge)];
    CollectedKeys(next, ts[1..], lowPriority, merge);
    if k == 0 {
      CollectedKeys(next, ts[1..], lowPriority, merge);
      assert ts[0].mint !in Mints(ts[1..]) by {
        forall t | t in ts[1..] ensures t.mint != ts[0].mint {
          var j :| 0 <= j < |ts[1..]| && ts[1..][j] == t;
          assert ts[j + 1] == t;
        }
      }
    } else {
      CollectedEntry(next, ts[1..], lowPriority, merge, k - 1);
      assert ts[1..][k - 1] == ts[k];
      assert Lookup(next, ts[k].mint) == Lookup(tokens, ts[k].mint);
    }
  }

  // ---------------------------------------------------------------- the collector

  /** The collector's contents as a value. */
  datatype Registry = Registry(devMints: set<string>, unOfficialMints: set<string>, officialMints: set<string>,
                               unNamedMints: set<string>, blacklist: set<string>, tokens: map<string, TokenJson>)

  /** The Raydium main token list file: any of its three lists may be missing. */
  datatype MainTokenFile = MainTokenFile(official: Option<seq<TokenJson>>, unOfficial: Option<seq<TokenJson>>,
                                         blacklist: Option<seq<string>>)

  /** The collector after `fetchMainToken` has read a complete main token list. */
  function FetchedMain(reg: Registry, official: seq<TokenJson>, unOfficial: seq<TokenJson>, blacklist: seq<string>,
                       solMint: string, merge: Merge): Registry
  {
    var withoutNativeSol := DeleteFetchedNativeSOLToken(official, solMint);
    Registry(reg.devMints,
             reg.unOfficialMints + Mints(unOfficial),
             reg.officialMints + Mints(withoutNativeSol),
             reg.unNamedMints - Mints(withoutNativeSol) - Mints(unOfficial),
             reg.blacklist + (set b | b in blacklist),
             Collected(reg.tokens, withoutNativeSol + unOfficial, false, merge))
  }

  /**
   * After a main list every listed mint has an entry and none of them is
   * unnamed; the official SOL entry is neither recorded nor counted as
   * official; every blacklisted mint is in the blacklist.
   */
  lemma FetchedMainRegisters(reg: Registry, official: seq<TokenJson>, unOfficial: seq<TokenJson>,
                             blacklist: seq<string>, solMint: string, merge: Merge)
    ensures var r := FetchedMain(reg, official, unOfficial, blacklist, solMint, merge);
            && r.tokens.Keys == reg.tokens.Keys + (Mints(official) - {solMint}) + Mints(unOfficial)
            && r.unNamedMints !! (Mints(official) - {solMint}) + Mints(unOfficial)
            && (solMint in r.officialMints ==> solMint in reg.officialMints)
            && (solMint in r.tokens ==> solMint in reg.tokens || solMint in Mints(unOfficial))
            && (forall b :: b in blacklist ==> b in r.blacklist)
  {
    var withoutNativeSol := DeleteFetchedNativeSOLToken(official, solMint);
    CollectedKeys(reg.tokens, withoutNativeSol + unOfficial, false, merge);
    MintsAppend(withoutNativeSol, unOfficial);
  }

  /** A pool-side mint that lacks a token info, with what its placeholder needs. */
  datatype Target = Target(mint: string, decimals: int, isToken2022: bool)

  /** `s.slice(0, n)` */
  function Slice(s: string, n: nat): string {
    if |s| <= n then s else s[..n]
  }

  /** The placeholder info for a pool mint no list names. */
  function Placeholder(t: Target): (token: TokenJson)
    ensures token.mint == t.mint && token.decimals == t.decimals
    ensures token.symbol.Some? && |token.symbol.value| == if |t.mint| < 6 then |t.mint| else 6
    ensures token.name.Some? && |token.name.value| == if |t.mint| < 12 then |t.mint| else 12
    ensures token.symbol.value <= token.name.value <= t.mint
    ensures token.version == Some("TOKEN2022") <==> t.isToken2022
  {
    TokenJson(Some(Slice(t.mint, 6)), Some(Slice(t.mint, 12)), t.mint, t.decimals,
              if t.isToken2022 then Some("TOKEN2022") else None)
  }

  /** One target: a mint with no entry gets a placeholder and, when no list names it, joins the unnamed set. */
  function PlaceTarget(reg: Registry, t: Target, merge: Merge): Registry {
    if t.mint in reg.tokens then reg
    else
      reg.(unNamedMints := if t.mint !in reg.officialMints && t.mint !in reg.unOfficialMints
                           then reg.unNamedMints + {t.mint} else reg.unNamedMints,
           tokens := Collected(reg.tokens, [Placeholder(t)], true, merge))
  }

  /** The record update of a placeholder: one low-priority merge with nothing. */
  lemma PlaceTargetTokens(reg: Registry, t: Target, merge: Merge)
    ensures t.mint !in reg.tokens ==>
              PlaceTarget(reg, t, merge).tokens == reg.tokens[t.mint := merge(Some(Placeholder(t)), None)]
  {
    if t.mint !in reg.tokens {
      var p := Placeholder(t);
      var updated := reg.tokens[t.mint := merge(Some(p), None)];
      assert MergedEntry(reg.tokens, p, true, merge) == merge(Some(p), None);
      assert [p][1..] == [];
      assert Collected(reg.tokens, [p], true, merge) == Collected(updated, [], true, merge);
    }
  }

  function TargetMints(targets: seq<Target>): set<string> {
    set t | t in targets :: t.mint
  }

  lemma TargetMintsCons(targets: seq<Target>)
    requires targets != []
    ensures TargetMints(targets) == {targets[0].mint} + TargetMints(targets[1..])
  {
    assert forall t :: t in targets <==> t == targets[0] || t in targets[1..];
  }

  /** A mint the placeholder pass marks unnamed: no entry yet, and neither list names it. */
  predicate Unnamable(reg: Registry, m: string) {
    m !in reg.tokens && m !in reg.officialMints && m !in reg.unOfficialMints
  }

  /** The unnamed mints a list of targets adds to `reg`. */
  function NewlyUnnamed(reg: Registry, targets: seq<Target>): set<string> {
    set m | m in TargetMints(targets) && Unnamable(reg, m)
  }

  /** The collector after the placeholder pass over `targets`, in order. */
  function PlaceTargets(reg: Registry, targets: seq<Target>, merge: Merge): Registry
    decreases |targets|
  {
    if targets == [] then reg else PlaceTargets(PlaceTarget(reg, targets[0], merge), targets[1..], merge)
  }

  /**
   * The placeholder pass gives every target mint an entry, leaves existing
   * entries and the list-kind sets alone, and marks unnamed exactly the
   * target mints that had no entry and that neither list names.
   */
  lemma {:induction false} PlaceTargetsFrame(reg: Registry, targets: seq<Target>, merge: Merge)
    ensures var r := PlaceTargets(reg, targets, merge);
            && r.tokens.Keys == reg.tokens.Keys + TargetMints(targets)
            && (forall m :: m in reg.tokens ==> r.tokens[m] == reg.tokens[m])
            && r.unNamedMints == reg.unNamedMints + NewlyUnnamed(reg, targets)
            && r.devMints == reg.devMints && r.officialMints == reg.officialMints
            && r.unOfficialMints == reg.unOfficialMints && r.blacklist == reg.blacklist
    decreases |targets|
  {
    if targets != [] {
      var t := targets[0];
      var next := PlaceTarget(reg, t, merge);
      PlaceTargetTokens(reg, t, merge);
      TargetMintsCons(targets);
      assert next.tokens.Keys == reg.tokens.Keys + {t.mint};
      assert forall m :: Unnamable(next, m) <==> Unnamable(reg, m) && m != t.mint;
      assert next.unNamedMints == reg.unNamedMints + (if Unnamable(reg, t.mint) then {t.mint} else {});
      PlaceTargetsFrame(next, targets[1..], merge);
    }
  }

  /** Placing two lists one after the other is placing their concatenation. */
  lemma {:induction false} PlaceTargetsAppend(reg: Registry, a: seq<Target>, b: seq<Target>, merge: Merge)
    ensures PlaceTargets(PlaceTargets(reg, a, merge), b, merge) == PlaceTargets(reg, a + b, merge)
    decreases |a|
  {
    if a != [] {
      var next := PlaceTarget(reg, a[0], merge);
      assert (a + b)[0] == a[0] && (a + b)[1..] == a[1..] + b;
      assert PlaceTargets(reg, a + b, merge) == PlaceTargets(next, a[1..] + b, merge);
      PlaceTargetsAppend(next, a[1..], b, merge);
    } else {
      assert a + b == b;
    }
  }

  /**
   * A mint that had no entry gets its placeholder from the first target that
   * names it, merged with nothing.
   */
  lemma {:induction false} PlaceTargetsEntry(reg: Registry, targets: seq<Target>, merge: Merge, k: nat)
    requires k < |targets| && targets[k].mint !in reg.tokens
    requires forall j :: 0 <= j < k ==> targets[j].mint != targets[k].mint
    ensures targets[k].mint in PlaceTargets(reg, targets, merge).tokens
    ensures PlaceTargets(reg, targets, merge).tokens[targets[k].mint] == merge(Some(Placeholder(targets[k])), None)
    decreases k
  {
    var next := PlaceTarget(reg, targets[0], merge);
    PlaceTargetTokens(reg, targets[0], merge);
    if k == 0 {
      PlaceTargetsFrame(next, targets[1..], merge);
    } else {
      assert targets[1..][k - 1] == targets[k];
      PlaceTargetsEntry(next, targets[1..], merge, k - 1);
    }
  }

  /** A liquidity pool entry of the pool list file, reduced to its two mints. */
  datatype LiquidityPool = LiquidityPool(baseMint: string, baseDecimals: int, quoteMint: string, quoteDecimals: int)

  /** The pool list file: `official` may be missing, and a missing `unOfficial` makes the pass do nothing. */
  datatype LiquidityPoolsFile = LiquidityPoolsFile(official: Option<seq<LiquidityPool>>,
                                                   unOfficial: Option<seq<LiquidityPool>>)

  /** A CLMM pool entry: two mints, each with its token program. */
  datatype ClmmPool = ClmmPool(mintA: string, mintDecimalsA: int, mintProgramIdA: string,
                               mintB: string, mintDecimalsB: int, mintProgramIdB: string)

  datatype ClmmPoolsFile = ClmmPoolsFile(data: Option<seq<ClmmPool>>)

  function PoolTargets(pool: LiquidityPool): seq<Target> {
    [Target(pool.baseMint, pool.baseDecimals, false), Target(pool.quoteMint, pool.quoteDecimals, false)]
  }

  /** A CLMM mint is a Token-2022 mint exactly when its program is the Token-2022 program. */
  function ClmmTargets(pool: ClmmPool): (targets: seq<Target>)
    ensures |targets| == 2
    ensures targets[0].mint == pool.mintA && targets[1].mint == pool.mintB
    ensures targets[0].isToken2022 <==> pool.mintProgramIdA == TOKEN_2022_PROGRAM_ID
    ensures targets[1].isToken2022 <==> pool.mintProgramIdB == TOKEN_2022_PROGRAM_ID
  {
    [Target(pool.mintA, pool.mintDecimalsA, pool.mintProgramIdA == TOKEN_2022_PROGRAM_ID),
     Target(pool.mintB, pool.mintDecimalsB, pool.mintProgramIdB == TOKEN_2022_PROGRAM_ID)]
  }

  function AllPoolTargets(pools: seq<LiquidityPool>): seq<Target> {
    if pools == [] then [] else AllPoolTargets(pools[..|pools| - 1]) + PoolTargets(pools[|pools| - 1])
  }

  function AllClmmTargets(pools: seq<ClmmPool>): seq<Target> {
    if pools == [] then [] else AllClmmTargets(pools[..|pools| - 1]) + ClmmTargets(pools[|pools| - 1])
  }

  /** The pools `fetchNormalLiquidityPoolToken` walks: the unofficial ones, then the official ones. */
  function NormalPools(response: LiquidityPoolsFile): seq<LiquidityPool>
    requires response.unOfficial.Some?
  {
    response.unOfficial.value + response.official.GetOr([])
  }

  /** A CLMM mint's placeholder is tagged `TOKEN2022` exactly when its program is Token-2022. */
  lemma ClmmPlaceholderVersion(pool: ClmmPool)
    ensures Placeholder(ClmmTargets(pool)[0]).version == Some("TOKEN2022") <==> pool.mintProgramIdA == TOKEN_2022_PROGRAM_ID
    ensures Placeholder(ClmmTargets(pool)[1]).version == Some("TOKEN2022") <==> pool.mintProgramIdB == TOKEN_2022_PROGRAM_ID
  {
  }

  /** Constant-product pool mints never get a `TOKEN2022` tag. */
  lemma NormalPlaceholderVersion(pool: LiquidityPool)
    ensures forall t :: t in PoolTargets(pool) ==> Placeholder(t).version.None?
  {
  }

  // ---------------------------------------------------------------- loadTokens blacklist filter

  /** The blacklist step of `loadTokens`: keep the infos whose mint is not blacklisted. */
  function WithoutBlacklisted(infos: seq<TokenJson>, blacklist: set<string>): (r: seq<TokenJson>)
    ensures forall i :: 0 <= i < |r| ==> r[i].mint !in blacklist
    ensures forall t: TokenJson :: t.mint !in blacklist ==> multiset(r)[t] == multiset(infos)[t]
  {
    FilterCounts(infos, (info: TokenJson) => info.mint !in blacklist);
    Filter(infos, (info: TokenJson) => info.mint !in blacklist)
  }

  /** A blacklist that names none of the infos keeps every info, in order. */
  lemma UnlistedKeepsAll(infos: seq<TokenJson>, blacklist: set<string>)
    requires forall i :: 0 <= i < |infos| ==> infos[i].mint !in blacklist
    ensures WithoutBlacklisted(infos, blacklist) == infos
  {
    FilterAllPass(infos, (info: TokenJson) => info.mint !in blacklist);
  }

  /** `TokenInfoCollector`, whose sets and record the fetch passes change in place. */
  class TokenInfoCollector {
    var devMints: set<string>
    var unOfficialMints: set<string>
    var officialMints: set<string>
    var unNamedMints: set<string>
    var blacklist: set<string>
    var tokens: map<string, TokenJson>

    /**
     * The collector seeded with the mints the list settings already hold,
     * the blacklist found so far and a copy of the tokens already known.
     */
    constructor (init: Registry)
      ensures State() == init
    {
      devMints, unOfficialMints, officialMints := init.devMints, init.unOfficialMints, init.officialMints;
      unNamedMints, blacklist, tokens := init.unNamedMints, init.blacklist, init.tokens;
    }

    function State(): Registry
      reads this
    {
      Registry(devMints, unOfficialMints, officialMints, unNamedMints, blacklist, tokens)
    }

    /** `isAnIncludedMint`: an info record is always truthy, so this is membership. */
    predicate IsAnIncludedMint(mint: string)
      reads this
    {
      mint in tokens
    }

    /** `collectToken`: store the merge of each token with the entry under its mint. */
    method CollectToken(list: seq<TokenJson>, lowPriority: bool, merge: Merge)
      modifies this
      ensures State() == old(State()).(tokens := Collected(old(tokens), list, lowPriority, merge))
    {
      for i := 0 to |list|
        invariant State() == old(State()).(tokens := tokens)
        invariant Collected(tokens, list[i..], lowPriority, merge) == Collected(old(tokens), list, lowPriority, merge)
      {
        assert list[i..][1..] == list[i + 1..];
        tokens := tokens[list[i].mint := MergedEntry(tokens, list[i], lowPriority, merge)];
      }
    }

    /** The `forEach` over the official list: each mint becomes official and stops being unnamed. */
    method RegisterOfficial(list: seq<TokenJson>)
      modifies this
      ensures officialMints == old(officialMints) + Mints(list)
      ensures unNamedMints == old(unNamedMints) - Mints(list)
      ensures devMints == old(devMints) && unOfficialMints == old(unOfficialMints)
      ensures blacklist == old(blacklist) && tokens == old(tokens)
    {
      for i := 0 to |list|
        invariant officialMints == old(officialMints) + Mints(list[..i])
        invariant unNamedMints == old(unNamedMints) - Mints(list[..i])
        invariant devMints == old(devMints) && unOfficialMints == old(unOfficialMints)
        invariant blacklist == old(blacklist) && tokens == old(tokens)
      {
        MintsAppend(list[..i], [list[i]]);
        assert list[..i + 1] == list[..i] + [list[i]];
        officialMints := officialMints + {list[i].mint};
        unNamedMints := unNamedMints - {list[i].mint};
      }
      assert list[..|list|] == list;
    }

    /** The `forEach` over the unofficial list: each mint becomes unofficial and stops being unnamed. */
    method RegisterUnOfficial(list: seq<TokenJson>)
      modifies this
      ensures unOfficialMints == old(unOfficialMints) + Mints(list)
      ensures unNamedMints == old(unNamedMints) - Mints(list)
      ensures devMints == old(devMints) && officialMints == old(officialMints)
      ensures blacklist == old(blacklist) && tokens == old(tokens)
    {
      for i := 0 to |list|
        invariant unOfficialMints == old(unOfficialMints) + Mints(list[..i])
        invariant unNamedMints == old(unNamedMints) - Mints(list[..i])
        invariant devMints == old(devMints) && officialMints == old(officialMints)
        invariant blacklist == old(blacklist) && tokens == old(tokens)
      {
        MintsAppend(list[..i], [list[i]]);
        assert list[..i + 1] == list[..i] + [list[i]];
        unOfficialMints := unOfficialMints + {list[i].mint};
        unNamedMints := unNamedMints - {list[i].mint};
      }
      assert list[..|list|] == list;
    }

    /** The `forEach` over the blacklist: each mint joins the blacklist. */
    method AddToBlacklist(mints: seq<string>)
      modifies this
      ensures blacklist == old(blacklist) + (set b | b in mints)
      ensures devMints == old(devMints) && officialMints == old(officialMints)
      ensures unOfficialMints == old(unOfficialMints) && unNamedMints == old(unNamedMints) && tokens == old(tokens)
    {
      for i := 0 to |mints|
        invariant blacklist == old(blacklist) + (set b | b in mints[..i])
        invariant devMints == old(devMints) && officialMints == old(officialMints)
        invariant unOfficialMints == old(unOfficialMints) && unNamedMints == old(unNamedMints)
        invariant tokens == old(tokens)
      {
        assert mints[..i + 1] == mints[..i] + [mints[i]];
        blacklist := blacklist + {mints[i]};
      }
      assert mints[..|mints|] == mints;
    }

    /** `fetchMainToken`: nothing happens unless the file has all three lists. */
    method FetchMainToken(response: MainTokenFile, solMint: string, merge: Merge)
      modifies this
      ensures response.official.None? || response.unOfficial.None? || response.blacklist.None?
              ==> State() == old(State())
      ensures response.official.Some? && response.unOfficial.Some? && response.blacklist.Some?
              ==> State() == FetchedMain(old(State()), response.official.value, response.unOfficial.value,
                                         response.blacklist.value, solMint, merge)
    {
      if response.official.None? || response.unOfficial.None? || response.blacklist.None? {
        return;
      }
      var unOfficial := response.unOfficial.value;
      var withoutNativeSolToken := DeleteFetchedNativeSOLToken(response.official.value, solMint);
      RegisterOfficial(withoutNativeSolToken);
      RegisterUnOfficial(unOfficial);
      CollectToken(withoutNativeSolToken, false, merge);
      CollectToken(unOfficial, false, merge);
      CollectedAppend(old(tokens), withoutNativeSolToken, unOfficial, false, merge);
      AddToBlacklist(response.blacklist.value);
    }

    /** The inner `for (const target of targets)` loop of both pool passes. */
    method CollectPoolTargets(targets: seq<Target>, merge: Merge)
      modifies this
      ensures State() == PlaceTargets(old(State()), targets, merge)
    {
      for j := 0 to |targets|
        invariant State() == PlaceTargets(old(State()), targets[..j], merge)
      {
        var target := targets[j];
        PlaceTargetsAppend(old(State()), targets[..j], [target], merge);
        assert targets[..j + 1] == targets[..j] + [target];
        if !IsAnIncludedMint(target.mint) {
          var token := Placeholder(target);
          if target.mint !in officialMints && target.mint !in unOfficialMints {
            unNamedMints := unNamedMints + {target.mint};
          }
          CollectToken([token], true, merge);
        }
      }
      assert targets[..|targets|] == targets;
    }

    /** `fetchNormalLiquidityPoolToken`: placeholders for the base and quote mints of every pool. */
    method FetchNormalLiquidityPoolToken(response: LiquidityPoolsFile, merge: Merge)
      modifies this
      ensures response.unOfficial.None? ==> State() == old(State())
      ensures response.unOfficial.Some?
              ==> State() == PlaceTargets(old(State()), AllPoolTargets(NormalPools(response)), merge)
    {
      if response.unOfficial.None? {
        return;
      }
      var pools := NormalPools(response);
      for i := 0 to |pools|
        invariant State() == PlaceTargets(old(State()), AllPoolTargets(pools[..i]), merge)
      {
        assert pools[..i + 1][..i] == pools[..i];
        PlaceTargetsAppend(old(State()), AllPoolTargets(pools[..i]), PoolTargets(pools[i]), merge);
        CollectPoolTargets(PoolTargets(pools[i]), merge);
      }
      assert pools[..|pools|] == pools;
    }

    /** `fetchClmmLiquidityPoolToken`: placeholders for both mints of every CLMM pool. */
    method FetchClmmLiquidityPoolToken(response: Option<ClmmPoolsFile>, merge: Merge)
      modifies this
      ensures response.None? || response.value.data.None? ==> State() == old(State())
      ensures response.Some? && response.value.data.Some?
              ==> State() == PlaceTargets(old(State()), AllClmmTargets(response.value.data.value), merge)
    {
      if response.None? || response.value.data.None? {
        return;
      }
      var pools := response.value.data.value;
      for i := 0 to |pools|
        invariant State() == PlaceTargets(old(State()), AllClmmTargets(pools[..i]), merge)
      {
        assert pools[..i + 1][..i] == pools[..i];
        PlaceTargetsAppend(old(State()), AllClmmTargets(pools[..i]), ClmmTargets(pools[i]), merge);
        CollectPoolTargets(ClmmTargets(pools[i]), merge);
      }
      assert pools[..|pools|] == pools;
    }
  }
}
