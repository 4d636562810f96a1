# Raydium frontend core, modelled in Dafny

This project models the pieces of logic underneath the Raydium web frontend (a
Solana AMM and concentrated-liquidity exchange UI) that do more than render:

- the request cache behind `tryFetch` and the `jFetch` JSON pipeline;
- the array and set helpers of `arrayMethods.ts`, including the in-place
  compaction `filterInplace`;
- the transaction-pieces collector that assembles front and end instructions;
- `offsetDateTime` and the `toUTC` reshaping of ISO timestamps;
- the token-list collector that sorts mints into official, unofficial, unnamed
  and blacklisted sets and synthesises placeholder tokens for pool mints;
- the liquidity pool-list merge, the daily pool-info key and id map, and the
  wallet's exhibited pools;
- the concentrated-pool store's filter, refresh and chart actions;
- the swap transaction builder's side choice, preconditions, compute-limit
  prefix, Setup/Swap/Cleanup labelling and slippage-error test;
- the pool page's tab, own-pools and min/max range filters;
- the reward-rate adjustment dialog and the new-reward card of the
  concentrated-pool editor;
- the list-data manager hook and the mint-pair pool search.

Each module follows one source file. Stateful pieces are classes whose methods
update fields (`FetchCache.ResultCache`, `TransactionCollector.TransactionPiecesCollector`,
`TokenLists.TokenInfoCollector`, `LiquidityInfo.LiquidityStore`,
`ConcentratedStore.Store`, `ListDataManager.Manager`) and are proved against
pure functions that specify them. The loops of the source are methods with loop
invariants (`ArrayMethods.FilterInplace`, `TxSwap.PrependComputeLimit`,
`PoolsFilter.PassesTargets` and the collector loops). The rules embedded in
pages are pure functions over `real` (the source's exact `Fraction`
arithmetic) and `int` milliseconds. Absent values (`undefined`, an empty input
box) are `Option`s.

Clocks, the network, wallet balances and SDK lookups are parameters: `now`, the
fetch outcome, `hasEnoughBalance`, `balanceOf`, `fits` (the transaction-size
forecast), `merge` (`mergeToken`), `search` (`searchJsonLiquidityInfo`),
`getItemKey`, and `num` (reading a typed bound as a number).

## Model

| member | source | states |
|---|---|---|
| FetchCache.CacheKey | raydium-frontend/src/functions/dom/jFetch.tsx:71 | the key is the URL followed by the body text, split exactly at the URL's length |
| FetchCache.DistinctBodiesDistinctKeys | raydium-frontend/src/functions/dom/jFetch.tsx:71 | different bodies sent to the same URL get different cache keys |
| FetchCache.CacheKeyCanCollide | raydium-frontend/src/functions/dom/jFetch.tsx:71 | a bodyless URL and a shorter URL with a body can share a key, because the key is plain concatenation |
| FetchCache.Decide | raydium-frontend/src/functions/dom/jFetch.tsx:72-86 | joins exactly when the entry has no (truthy) response time; reuses as too frequent exactly within 2000 ms of the settle; reuses as fresh only without ignoreCache and with a truthy cacheFreshTime; fetches exactly when the key is absent or no reuse rule applies |
| FetchCache.CachedText | raydium-frontend/src/functions/dom/jFetch.tsx:101-118 | the cached text is present exactly for an OK response, and is its body |
| FetchCache.IssuerResult | raydium-frontend/src/functions/dom/jFetch.tsx:120-134 | the issuing call returns the body of any HTTP response, OK or not, and nothing on a network error |
| FetchCache.AfterBegin | raydium-frontend/src/functions/dom/jFetch.tsx:86-101 | only a new request changes the cache, installing an in-flight entry for its key and keeping every other entry |
| FetchCache.AfterSettle | raydium-frontend/src/functions/dom/jFetch.tsx:112-133 | settling stamps the key with the settle time and the cached text, and keeps every other entry |
| FetchCache.ResultCache.constructor | raydium-frontend/src/functions/dom/jFetch.tsx:23 | the cache starts empty |
| FetchCache.ResultCache.Begin | raydium-frontend/src/functions/dom/jFetch.tsx:70-101 | returns the decision and the reused text as Decide and ReusedText give them, and leaves the map as AfterBegin describes |
| FetchCache.ResultCache.Settle | raydium-frontend/src/functions/dom/jFetch.tsx:101-134 | returns the issuing call's result and leaves the map as AfterSettle describes, a network error included |
| FetchCache.ReusedText | raydium-frontend/src/functions/dom/jFetch.tsx:72-76 | a too-frequent or still-fresh call gets exactly the text held by the entry, and any other decision reuses nothing |
| FetchCache.ReuseSeesSettledText | raydium-frontend/src/functions/dom/jFetch.tsx:72-118 | a call within 2000 ms of a settle is too frequent and reuses exactly what that settle cached, the body of an OK response |
| FetchCache.JoinedCallSeesCachedText | raydium-frontend/src/functions/dom/jFetch.tsx:72-118 | a call made while a request is pending joins it, installs nothing, and sees what that request caches |
| FetchCache.IgnoreCacheStillHonoursFloor | raydium-frontend/src/functions/dom/jFetch.tsx:73-76 | within 2000 ms of a settle the entry is reused even with ignoreCache |
| FetchCache.NoFreshTimeAlwaysRefetches | raydium-frontend/src/functions/dom/jFetch.tsx:79-86 | past the 2000 ms floor, a call without cacheFreshTime always fetches again |
| FetchCache.FreshnessWindow | raydium-frontend/src/functions/dom/jFetch.tsx:79-86 | past the floor, an entry is reused as fresh exactly while younger than cacheFreshTime |
| FetchCache.PoolListScenario | raydium-frontend/src/functions/dom/jFetch.tsx:70-118 | a concrete timeline: fetch, reuse at +500 ms and +1500 ms, fetch again at +2500 ms, cached body kept |
| FetchCache.JFetch | raydium-frontend/src/functions/dom/jFetch.tsx:28-44 | an absent or empty text gives nothing; a result exists iff the renamed text is non-empty, parses and afterJson does not throw; it is the parse without afterJson or when afterJson gives null, and afterJson's value otherwise |
| FetchCache.Renamed | raydium-frontend/src/functions/dom/jFetch.tsx:35 | the text beforeJson returns when it returns one; otherwise, or without beforeJson, the text unchanged |
| FetchCache.JFetchWithoutTransformsIsParse | raydium-frontend/src/functions/dom/jFetch.tsx:32-40 | with no transforms, a non-empty text yields exactly its parse |
| FetchCache.EmptyRenameGivesNothing | raydium-frontend/src/functions/dom/jFetch.tsx:35-36 | a beforeJson that returns an empty text makes jFetch return nothing |
| ArrayMethods.Filter | raydium-frontend/src/functions/arrayMethods.ts:45 | the result holds exactly the elements of the input that satisfy the predicate |
| ArrayMethods.FilterCounts | raydium-frontend/src/functions/arrayMethods.ts:45 | every copy of a passing element is kept, and no copy of a failing one |
| ArrayMethods.FilterAppend | raydium-frontend/src/functions/arrayMethods.ts:45 | filtering distributes over concatenation, so relative order is kept |
| ArrayMethods.FilterAllPass | raydium-frontend/src/functions/arrayMethods.ts:45 | a filter every element passes returns its input |
| ArrayMethods.HasSameItems | raydium-frontend/src/functions/arrayMethods.ts:5-9 | false on different lengths, true when both are empty, otherwise true iff every element of the first occurs in the second |
| ArrayMethods.PermutationHasSameItems | raydium-frontend/src/functions/arrayMethods.ts:5-9 | every permutation passes hasSameItems |
| ArrayMethods.HasSameItemsIsNotSymmetric | raydium-frontend/src/functions/arrayMethods.ts:5-9 | [1,1] has the same items as [1,2] but not the other way round |
| ArrayMethods.AddItem | raydium-frontend/src/functions/arrayMethods.ts:14-16 | the input with exactly the item appended |
| ArrayMethods.AddItemToSet | raydium-frontend/src/functions/arrayMethods.ts:18-22 | the input set plus the item, and nothing else |
| ArrayMethods.AddItems | raydium-frontend/src/functions/arrayMethods.ts:28-30 | the input followed by the items, in order |
| ArrayMethods.AddItemsToSet | raydium-frontend/src/functions/arrayMethods.ts:32-38 | the loop yields the union of the set and the items |
| ArrayMethods.RemoveItem | raydium-frontend/src/functions/arrayMethods.ts:44-46 | the item is gone and every other element keeps its count |
| ArrayMethods.RemoveItemFromSet | raydium-frontend/src/functions/arrayMethods.ts:48-52 | the input set without the item, and nothing else removed |
| ArrayMethods.RemoveAddedItem | raydium-frontend/src/functions/arrayMethods.ts:13-53 | removing a just-added item equals removing it from the input, for arrays and for sets |
| ArrayMethods.FirstIndex | raydium-frontend/src/functions/arrayMethods.ts:56 | the index of the first occurrence, which `new Set` uses for its order |
| ArrayMethods.FirstIndexInPrefix | raydium-frontend/src/functions/arrayMethods.ts:56 | a first occurrence inside a prefix is the first occurrence overall |
| ArrayMethods.UnifyItem | raydium-frontend/src/functions/arrayMethods.ts:55-57 | no repeats, the same elements as the input, in first-occurrence order |
| ArrayMethods.UnifyItemPrefix | raydium-frontend/src/functions/arrayMethods.ts:55-57 | unifying a concatenation starts with the unified first part |
| ArrayMethods.UnifyItemOfDistinct | raydium-frontend/src/functions/arrayMethods.ts:55-57 | an input without repeats is its own unification |
| ArrayMethods.ShakeUndefinedItem | raydium-frontend/src/functions/arrayMethods.ts:62-63 | no null or undefined remains, and every other value keeps its count |
| ArrayMethods.ShakeUndefinedFromSet | raydium-frontend/src/functions/arrayMethods.ts:64-67 | only undefined is removed from a set; null stays |
| ArrayMethods.ShakeFalsyItem | raydium-frontend/src/functions/arrayMethods.ts:71-73 | only truthy values remain, each with its count |
| ArrayMethods.ShakeFalsyAfterUndefined | raydium-frontend/src/functions/arrayMethods.ts:61-73 | shaking falsy values after nullish ones is shaking falsy values |
| ArrayMethods.ShakeFalsyAfterUndefinedFilter | raydium-frontend/src/functions/arrayMethods.ts:61-73 | the same fact stated on the two filters |
| ArrayMethods.MergeWithOld | raydium-frontend/src/functions/arrayMethods.ts:108-126 | no old data gives the new data; otherwise no repeats and exactly the old and new elements |
| ArrayMethods.MergeWithOldKeepsOldFirst | raydium-frontend/src/functions/arrayMethods.ts:126 | old data without repeats comes first and in its order |
| ArrayMethods.MergeWithOldSet | raydium-frontend/src/functions/arrayMethods.ts:108-115 | no old set gives the new set; otherwise the union of old and new |
| ArrayMethods.Kept | raydium-frontend/src/functions/arrayMethods.ts:138-150 | the compacted contents are never longer than the input |
| ArrayMethods.KeptIsFilter | raydium-frontend/src/functions/arrayMethods.ts:138-150 | for an index-blind condition, filterInplace keeps what filter returns |
| ArrayMethods.FilterInplace | raydium-frontend/src/functions/arrayMethods.ts:138-150 | the array's prefix of the returned length holds the passing elements in order |
| Solana.Transaction.constructor | raydium-frontend/src/application/txTools/createTransaction.ts:40 | a new transaction has no instructions |
| Solana.Transaction.Add | raydium-frontend/src/application/txTools/createTransaction.ts:42 | `add` appends the instructions to the transaction itself |
| TransactionCollector.Reverse | raydium-frontend/src/application/txTools/createTransaction.ts:42 | reversal keeps the length |
| TransactionCollector.ReverseAt | raydium-frontend/src/application/txTools/createTransaction.ts:42 | element k of the reversal is element length-1-k of the input |
| TransactionCollector.ReverseReverse | raydium-frontend/src/application/txTools/createTransaction.ts:42 | reversing twice restores the order |
| TransactionCollector.SpawnedInstructions | raydium-frontend/src/application/txTools/createTransaction.ts:41-43 | the front list first, then the end list from its last element to its first |
| TransactionCollector.SecondSpawnSeesOriginalOrder | raydium-frontend/src/application/txTools/createTransaction.ts:42 | after the in-place reverse, a second spawn adds the end list in its original order |
| TransactionCollector.AsQueue | raydium-frontend/src/application/txTools/createTransaction.ts:47-49 | the inner transactions as queue items, one for one |
| TransactionCollector.TransactionPiecesCollector.constructor | raydium-frontend/src/application/txTools/createTransaction.ts:20-25 | empty lists, no raw transaction, the given default |
| TransactionCollector.TransactionPiecesCollector.SetRawTransaction | raydium-frontend/src/application/txTools/createTransaction.ts:27-29 | replaces the raw-transaction slot and nothing else |
| TransactionCollector.TransactionPiecesCollector.AddInstruction | raydium-frontend/src/application/txTools/createTransaction.ts:30-32 | appends to the front list only |
| TransactionCollector.TransactionPiecesCollector.AddEndInstruction | raydium-frontend/src/application/txTools/createTransaction.ts:33-35 | appends to the end list only |
| TransactionCollector.TransactionPiecesCollector.AddInnerTransactions | raydium-frontend/src/application/txTools/createTransaction.ts:36-38 | appends to the inner-transaction list only |
| TransactionCollector.TransactionPiecesCollector.SpawnTransaction | raydium-frontend/src/application/txTools/createTransaction.ts:39-45 | picks the raw slot, else the default, else a fresh transaction; adds nothing without instructions, otherwise adds the spawned instructions and leaves the end list reversed; changes no transaction but the one it picks, and none without instructions |
| TransactionCollector.TransactionPiecesCollector.SpawnTransactionQueue | raydium-frontend/src/application/txTools/createTransaction.ts:46-50 | the inner transactions alone without instructions, changing no transaction, otherwise followed by exactly one spawned transaction; the raw slot is kept |
| DateFormat.GetTime | raydium-frontend/src/functions/date/dateFormat.ts:43-44 | a falsy date (absent, 0 or empty text) reads as now, any other as its own time |
| DateFormat.OffsetDateTime | raydium-frontend/src/functions/date/dateFormat.ts:109-128 | the base time plus days, hours, minutes, seconds and milliseconds in milliseconds, a zero result reading as now |
| DateFormat.EmptyOffsetIsGetTime | raydium-frontend/src/functions/date/dateFormat.ts:121-126 | an empty offset returns getTime of the base |
| DateFormat.OffsetRoundTrip | raydium-frontend/src/functions/date/dateFormat.ts:119-128 | offsetting by x and then by -x returns the original time |
| DateFormat.DaysOffset | raydium-frontend/src/functions/date/dateFormat.ts:122 | a day offset moves the time by 86400000 ms per day |
| DateFormat.OffsetToEpochGivesNow | raydium-frontend/src/functions/date/dateFormat.ts:121-127 | an offset landing on the epoch yields the current time |
| DateFormat.MapToAmPmHour | raydium-frontend/src/functions/date/dateFormat.ts:50-51 | hours above 12 become h-12 PM, the others stay AM |
| DateFormat.AmPmHourRange | raydium-frontend/src/functions/date/dateFormat.ts:50-51 | a clock hour maps into 0..12, with 12 AM and 13 as 1 PM |
| DateFormat.MapToEnglishDay | raydium-frontend/src/functions/date/dateFormat.ts:47 | 0..6 name Sun..Sat, anything else the empty string |
| DateFormat.DigitRun | raydium-frontend/src/functions/date/dateFormat.ts:14 | the longest run of digits at the start (`\d+`) |
| DateFormat.DateRun | raydium-frontend/src/functions/date/dateFormat.ts:14 | the longest run of digits and dashes at the start (`[\d-]+`) |
| DateFormat.MatchIso | raydium-frontend/src/functions/date/dateFormat.ts:14-15 | a match has non-empty date, hour, minute and second parts |
| DateFormat.MatchDate | raydium-frontend/src/functions/date/dateFormat.ts:16-17 | a match has a 4-digit year and 2-digit month and day |
| DateFormat.ToUTC | raydium-frontend/src/functions/date/dateFormat.ts:9-24 | a text comes out exactly when both patterns match |
| DateFormat.LastTwoDigits | raydium-frontend/src/functions/date/dateFormat.ts:18 | `year.slice(-2)` of a 4-digit year is the year modulo 100 |
| DateFormat.ToUTCOfIsoString | raydium-frontend/src/functions/date/dateFormat.ts:13-23 | the ISO form of a valid time becomes MM/DD/YY HH:mm with the options applied, hideHourMinuteSecond first |
| DateFormat.ToUTCRejectsEmpty | raydium-frontend/src/functions/date/dateFormat.ts:14-17 | an empty text matches nothing |
| DateFormat.ToUTCRejectsMalformedDate | raydium-frontend/src/functions/date/dateFormat.ts:14-17 | a date part that is not 10 characters long passes the first pattern but fails the second |
| TokenLists.DeleteFetchedNativeSOLToken | raydium-frontend/src/application/token/useTokenListsLoader.tsx:86-88 | no SOL-mint token remains, every other token keeps its count, and the mints are the input's minus SOL |
| TokenLists.DeleteSolDistributes | raydium-frontend/src/application/token/useTokenListsLoader.tsx:86-88 | deletion distributes over concatenation, so order is kept |
| TokenLists.DeleteSolWithoutSol | raydium-frontend/src/application/token/useTokenListsLoader.tsx:86-88 | a list without SOL is returned unchanged |
| TokenLists.CollectedKeys | raydium-frontend/src/application/token/useTokenListsLoader.tsx:108-112 | every listed mint gets an entry, and other entries are untouched |
| TokenLists.CollectedAppend | raydium-frontend/src/application/token/useTokenListsLoader.tsx:108-112 | collecting two lists in turn is collecting their concatenation |
| TokenLists.CollectedEntry | raydium-frontend/src/application/token/useTokenListsLoader.tsx:109-111 | each entry is mergeToken(new, existing) for a low-priority list and mergeToken(existing, new) otherwise |
| TokenLists.FetchedMainRegisters | raydium-frontend/src/application/token/useTokenListsLoader.tsx:115-130 | every listed non-SOL mint has an entry and none is unnamed, the official list's SOL entry is neither recorded nor made official, and every blacklisted mint is blacklisted |
| TokenLists.Placeholder | raydium-frontend/src/application/token/useTokenListsLoader.tsx:151-159 | the mint and decimals of the pool, symbol its first 6 and name its first 12 characters, TOKEN2022 iff flagged |
| TokenLists.PlaceTargetTokens | raydium-frontend/src/application/token/useTokenListsLoader.tsx:149-163 | a mint without an entry gets a low-priority placeholder merge; an included mint is untouched |
| TokenLists.PlaceTargetsFrame | raydium-frontend/src/application/token/useTokenListsLoader.tsx:148-165 | the pass keeps existing entries and list sets, and marks unnamed exactly the target mints without an entry that no list names |
| TokenLists.PlaceTargetsAppend | raydium-frontend/src/application/token/useTokenListsLoader.tsx:147-148 | placing two target lists in turn is placing their concatenation |
| TokenLists.PlaceTargetsEntry | raydium-frontend/src/application/token/useTokenListsLoader.tsx:149-163 | a mint without an entry gets the placeholder of the first target naming it |
| TokenLists.ClmmTargets | raydium-frontend/src/application/token/useTokenListsLoader.tsx:174-191 | the pool's two mints, each flagged Token-2022 iff its program is the Token-2022 program |
| TokenLists.ClmmPlaceholderVersion | raydium-frontend/src/application/token/useTokenListsLoader.tsx:186-198 | a CLMM placeholder is tagged TOKEN2022 iff its mint's program is Token-2022 |
| TokenLists.NormalPlaceholderVersion | raydium-frontend/src/application/token/useTokenListsLoader.tsx:156-158 | a constant-product placeholder never gets a version |
| TokenLists.WithoutBlacklisted | raydium-frontend/src/application/token/useTokenListsLoader.tsx:463-466 | no blacklisted mint remains and every other info keeps its count |
| TokenLists.UnlistedKeepsAll | raydium-frontend/src/application/token/useTokenListsLoader.tsx:463-466 | a blacklist naming none of the infos keeps them all, in order |
| TokenLists.TokenInfoCollector.constructor | raydium-frontend/src/application/token/useTokenListsLoader.tsx:301-308 | the collector starts with exactly the seeded mint sets, blacklist and known tokens |
| TokenLists.TokenInfoCollector.CollectToken | raydium-frontend/src/application/token/useTokenListsLoader.tsx:100-113 | the loop leaves the record as Collected describes and changes no set |
| TokenLists.TokenInfoCollector.RegisterOfficial | raydium-frontend/src/application/token/useTokenListsLoader.tsx:118-121 | the mints join officialMints, leave unNamedMints, and nothing else changes |
| TokenLists.TokenInfoCollector.RegisterUnOfficial | raydium-frontend/src/application/token/useTokenListsLoader.tsx:122-125 | the mints join unOfficialMints, leave unNamedMints, and nothing else changes |
| TokenLists.TokenInfoCollector.AddToBlacklist | raydium-frontend/src/application/token/useTokenListsLoader.tsx:128-129 | the mints join the blacklist, and nothing else changes |
| TokenLists.TokenInfoCollector.FetchMainToken | raydium-frontend/src/application/token/useTokenListsLoader.tsx:115-130 | nothing changes unless all three lists are present; then the collector becomes FetchedMain |
| TokenLists.TokenInfoCollector.CollectPoolTargets | raydium-frontend/src/application/token/useTokenListsLoader.tsx:148-165 | the loop leaves the collector as PlaceTargets describes |
| TokenLists.TokenInfoCollector.FetchNormalLiquidityPoolToken | raydium-frontend/src/application/token/useTokenListsLoader.tsx:132-167 | nothing without an unofficial list; otherwise the base and quote targets of the unofficial then official pools are placed |
| TokenLists.TokenInfoCollector.FetchClmmLiquidityPoolToken | raydium-frontend/src/application/token/useTokenListsLoader.tsx:169-209 | nothing without data; otherwise both targets of every CLMM pool are placed |
| LiquidityInfo.ReadyMergePools | raydium-frontend/src/application/liquidity/useLiquidityInfoLoader.tsx:32 | exactly the extra pools whose id neither list has |
| LiquidityInfo.PoolListNoDuplicatedExtras | raydium-frontend/src/application/liquidity/useLiquidityInfoLoader.tsx:25-33 | the list is official, then unofficial, then extras, and no merged extra shares an id with the API lists |
| LiquidityInfo.PoolListIdsCovered | raydium-frontend/src/application/liquidity/useLiquidityInfoLoader.tsx:28-34 | the stored list's ids are the official ids, the unofficial ids and the merged extras' ids |
| LiquidityInfo.AddIds | raydium-frontend/src/application/liquidity/useLiquidityInfoLoader.tsx:34 | the loop adds exactly the pools' ids |
| LiquidityInfo.CacheTime | raydium-frontend/src/application/liquidity/useLiquidityInfoLoader.tsx:38 | a missing or zero fetch time is replaced by now |
| LiquidityInfo.LiquidityStore.constructor | raydium-frontend/src/application/liquidity/useLiquidityInfoLoader.tsx:31 | an empty store holding the given extra pools |
| LiquidityInfo.LiquidityStore.ParseAndSetPoolList | raydium-frontend/src/application/liquidity/useLiquidityInfoLoader.tsx:23-43 | stores the merged list, the official ids, the unofficial ids plus merged extras, and the cache info only when a response is given |
| LiquidityInfo.DecimalString | raydium-frontend/src/application/liquidity/useLiquidityInfoLoader.tsx:47 | a number prints as at least one digit |
| LiquidityInfo.DecimalStringWidth | raydium-frontend/src/application/liquidity/useLiquidityInfoLoader.tsx:47 | a w-digit number prints as its w-digit rendering |
| LiquidityInfo.CheckPrefixIsTwoDigits | raydium-frontend/src/application/liquidity/useLiquidityInfoLoader.tsx:47 | below 100, checkPrefix is the two-digit zero-padded form |
| LiquidityInfo.DailyKeyIsIsoDate | raydium-frontend/src/application/liquidity/useLiquidityInfoLoader.tsx:47-50 | the URL suffix is YYYY-MM-DD, as the date pattern reads it |
| LiquidityInfo.IdMapLastWins | raydium-frontend/src/application/liquidity/useLiquidityInfoLoader.tsx:51-57 | the last pool with an id is the one the map keeps |
| LiquidityInfo.IdMapKeys | raydium-frontend/src/application/liquidity/useLiquidityInfoLoader.tsx:51-57 | the map's keys are exactly the pool ids |
| LiquidityInfo.FetchUpdatePoolInfo | raydium-frontend/src/application/liquidity/useLiquidityInfoLoader.tsx:51-58 | an absent response gives an empty map, a response missing a list fails, otherwise the id map of official then unofficial pools |
| LiquidityInfo.UserExhibitionLiquidityIds | raydium-frontend/src/application/liquidity/useLiquidityInfoLoader.tsx:98-105 | exactly the ids of pools whose LP mint has a positive balance |
| LiquidityInfo.ExhibitionIdsAppend | raydium-frontend/src/application/liquidity/useLiquidityInfoLoader.tsx:103-105 | the ids follow pool-list order |
| ConcentratedStore.TimeMapRoundTrip | raydium-frontend/src/application/concentrated/useConcentrated.tsx:51-55 | each period name leads back to its time basis |
| ConcentratedStore.TimeMapInjective | raydium-frontend/src/application/concentrated/useConcentrated.tsx:51-55 | timeMap is one-to-one |
| ConcentratedStore.Filters.With | raydium-frontend/src/application/concentrated/useConcentrated.tsx:251 | the spread replaces one target and keeps the other three |
| ConcentratedStore.SetFilterResult | raydium-frontend/src/application/concentrated/useConcentrated.tsx:249-253 | the chosen bound becomes the value; the other bound, the label and the other targets are unchanged |
| ConcentratedStore.ResetFilterResult | raydium-frontend/src/application/concentrated/useConcentrated.tsx:254-258 | both bounds of the target become empty texts, its label and the other targets are kept |
| ConcentratedStore.ResetAfterSet | raydium-frontend/src/application/concentrated/useConcentrated.tsx:249-258 | a reset forgets a preceding set on that target |
| ConcentratedStore.SetFilterOverwrites | raydium-frontend/src/application/concentrated/useConcentrated.tsx:249-253 | setting the same bound twice keeps the second value |
| ConcentratedStore.SetFilterCommutes | raydium-frontend/src/application/concentrated/useConcentrated.tsx:249-253 | sets on different targets commute |
| ConcentratedStore.ReplacePoolIdPlaceholder | raydium-frontend/src/application/concentrated/useConcentrated.tsx:190 | the first `<poolId>` of the URL template is replaced by the pool id |
| ConcentratedStore.ReplaceWithoutPlaceholder | raydium-frontend/src/application/concentrated/useConcentrated.tsx:190 | a template without the placeholder is unchanged |
| ConcentratedStore.ChartCacheFreshTime | raydium-frontend/src/application/concentrated/useConcentrated.tsx:191 | no freshness when forced, sixty seconds otherwise |
| ConcentratedStore.Store.constructor | raydium-frontend/src/application/concentrated/useConcentrated.tsx:198-248 | refreshCount 1, time basis 24H, label-only filters, no chart points |
| ConcentratedStore.Store.RefreshConcentrated | raydium-frontend/src/application/concentrated/useConcentrated.tsx:199-203 | refreshCount goes up by exactly one and nothing else changes |
| ConcentratedStore.Store.SetFilter | raydium-frontend/src/application/concentrated/useConcentrated.tsx:249-253 | the filters become SetFilterResult and nothing else changes |
| ConcentratedStore.Store.ResetFilter | raydium-frontend/src/application/concentrated/useConcentrated.tsx:254-258 | the filters become ResetFilterResult and nothing else changes |
| ConcentratedStore.Store.LoadChartPoints | raydium-frontend/src/application/concentrated/useConcentrated.tsx:193-195 | points are stored only for a response about the current pool; otherwise nothing changes |
| TxSwap.OrZero | raydium-frontend/src/application/swap/txSwap.ts:37-41 | a missing amount counts as zero, a present one as itself |
| TxSwap.ChooseSides | raydium-frontend/src/application/swap/txSwap.ts:35-41 | coin 1 is up unless the direction is reversed, when the coins and amounts trade places |
| TxSwap.ReversingSwapsSides | raydium-frontend/src/application/swap/txSwap.ts:35-41 | flipping the direction exchanges up and down |
| TxSwap.SwapPrecheck | raydium-frontend/src/application/swap/txSwap.ts:43-54 | no error iff both amounts are positive, both coins set with different mints, a route and route type exist and the balance suffices; the amount checks come first |
| TxSwap.SameMintRefused | raydium-frontend/src/application/swap/txSwap.ts:47 | the same mint on both sides is refused once amounts and coins are given |
| TxSwap.IsSwapTransaction | raydium-frontend/src/application/swap/txSwap.ts:139-152 | true iff one of the ten swap instruction kinds occurs |
| TxSwap.FindSwapIndex | raydium-frontend/src/application/swap/txSwap.ts:134 | the first swap's index, or -1 exactly when there is none |
| TxSwap.LastSwapIndexMeaning | raydium-frontend/src/application/swap/txSwap.ts:135 | the last swap's index, or the length exactly when there is no swap |
| TxSwap.DescriptionMeaning | raydium-frontend/src/application/swap/txSwap.ts:133-137 | Setup iff no swap at or before the index but one after; Cleanup iff none at or after but one before |
| TxSwap.NoSwapMeansAllSwap | raydium-frontend/src/application/swap/txSwap.ts:134-136 | with no swap transaction every index is labelled Swap |
| TxSwap.DescriptionsOrdered | raydium-frontend/src/application/swap/txSwap.ts:109-137 | along the queue the labels never go back from Cleanup or Swap |
| TxSwap.CheckSwapSlippageError | raydium-frontend/src/application/swap/txSwap.ts:157-169 | true iff the error is an instruction error with custom code 38 or 6022 |
| TxSwap.ReplaceMemoKeys | raydium-frontend/src/application/swap/txSwap.ts:101-103 | keys equal to the Memo program become the owner, others stay |
| TxSwap.RebuildInstructions | raydium-frontend/src/application/swap/txSwap.ts:96-105 | each instruction keeps its program and data and gets its Memo keys replaced |
| TxSwap.WithComputeLimitIdempotent | raydium-frontend/src/application/swap/txSwap.ts:92-95 | applying the prefix twice changes nothing more |
| TxSwap.WithComputeLimitShape | raydium-frontend/src/application/swap/txSwap.ts:92-105 | a prefixed transaction has one more instruction, the limit first, the others' programs kept, no Memo key left |
| TxSwap.PrependComputeLimit | raydium-frontend/src/application/swap/txSwap.ts:91-107 | every transaction is updated in place as WithComputeLimit says; one without instructions stops the loop there with the rest untouched |
| PoolsFilter.UnZeroBalanceMints | raydium-frontend/src/pages/pools.tsx:426 | exactly the mints with a positive balance |
| PoolsFilter.DataSource | raydium-frontend/src/pages/pools.tsx:444-456 | with hydrated rows, those in the tab and, with the switch on, holding their LP token; otherwise the JSON rows in the tab |
| PoolsFilter.JsonSourceIgnoresSelfSwitch | raydium-frontend/src/pages/pools.tsx:452-454 | before hydrated rows arrive the own-pools switch has no effect |
| PoolsFilter.AllTabKeepsEverything | raydium-frontend/src/pages/pools.tsx:450-451 | the All tab with the switch off keeps every row in order |
| PoolsFilter.FilteredKey | raydium-frontend/src/pages/pools.tsx:525-534 | liquidity reads the liquidity field; the others read the field of the time basis's category |
| PoolsFilter.FieldKeyInjective | raydium-frontend/src/pages/pools.tsx:528-533 | distinct fields have distinct property names |
| PoolsFilter.FilteredKeyInjective | raydium-frontend/src/pages/pools.tsx:525-534 | distinct targets read distinct fields |
| PoolsFilter.ActiveTargets | raydium-frontend/src/pages/pools.tsx:538-539 | exactly the targets with a non-empty min or max |
| PoolsFilter.TargetPassesMeaning | raydium-frontend/src/pages/pools.tsx:550-570 | no bound passes; min only iff value >= min; max only iff value <= max; min > max is ignored; otherwise iff min <= value <= max |
| PoolsFilter.PassesTargets | raydium-frontend/src/pages/pools.tsx:548-573 | the loop passes iff every listed target passes |
| PoolsFilter.ItemPasses | raydium-frontend/src/pages/pools.tsx:547-574 | the callback passes iff the row passes every active target |
| PoolsFilter.Filtered | raydium-frontend/src/pages/pools.tsx:537-575 | no active target returns the sorted list and hides the count; otherwise exactly the rows passing every active target |
| PoolsFilter.NoActiveTargetKeepsAll | raydium-frontend/src/pages/pools.tsx:540-543 | with no active target, filtering would keep every row anyway |
| PoolsFilter.FilteredKeepsOrder | raydium-frontend/src/pages/pools.tsx:547 | filtering distributes over any split, so the sorted order is kept |
| PoolsFilter.ResetTargetIsInactive | raydium-frontend/src/pages/pools.tsx:538 | after resetFilter a target takes no part in filtering |
| RewardUtils.ToFixed | raydium-frontend/src/pageComponents/ConcentratedEdit/AdjustRewardDialog.tsx:86 | the result is a whole number of 10^-d steps, chosen by rounding half away from zero |
| RewardUtils.ToFixedSymmetric | raydium-frontend/src/pageComponents/ConcentratedEdit/AdjustRewardDialog.tsx:86 | a negated value rounds to the negated result |
| RewardUtils.NegativeTieRoundsAwayFromZero | raydium-frontend/src/pageComponents/ConcentratedEdit/AdjustRewardDialog.tsx:86 | -0.005 written to two decimals is -0.01 |
| RewardUtils.ToFixedStepApart | raydium-frontend/src/pageComponents/ConcentratedEdit/AdjustRewardDialog.tsx:86 | values a whole step or more apart stay strictly ordered after rounding |
| RewardUtils.ToFixedError | raydium-frontend/src/pageComponents/ConcentratedEdit/AdjustRewardDialog.tsx:86 | rounding moves a value by at most half a step |
| RewardUtils.ToFixedIdempotent | raydium-frontend/src/pageComponents/ConcentratedEdit/AdjustRewardDialog.tsx:86 | rounding an already rounded value changes nothing |
| RewardUtils.ToFixedMonotone | raydium-frontend/src/pageComponents/ConcentratedEdit/AdjustRewardDialog.tsx:86 | rounding keeps order |
| AdjustReward.RemainSeconds | raydium-frontend/src/pageComponents/ConcentratedEdit/AdjustRewardDialog.tsx:68 | the whole seconds left, rounded down |
| AdjustReward.RemainDays | raydium-frontend/src/pageComponents/ConcentratedEdit/AdjustRewardDialog.tsx:70 | the days left, rounded up |
| AdjustReward.Within72HrsMeaning | raydium-frontend/src/pageComponents/ConcentratedEdit/AdjustRewardDialog.tsx:68-84 | within 72 hours iff the end is 0 to 259200999 ms away |
| AdjustReward.NewPerSecond | raydium-frontend/src/pageComponents/ConcentratedEdit/AdjustRewardDialog.tsx:73-81 | defined iff both divisors are non-zero, and then the smaller of plan A and plan B |
| AdjustReward.NewPerWeekBound | raydium-frontend/src/pageComponents/ConcentratedEdit/AdjustRewardDialog.tsx:74-82 | a week at the new rate is at most the added amount times seven over the added days |
| AdjustReward.IsDecreaseSpeed | raydium-frontend/src/pageComponents/ConcentratedEdit/AdjustRewardDialog.tsx:85-87 | a decrease needs a reward and a new rate |
| AdjustReward.DecreaseWhenStepSlower | raydium-frontend/src/pageComponents/ConcentratedEdit/AdjustRewardDialog.tsx:84-87 | a new rate at least one smallest unit per second below the current rate is a decrease |
| AdjustReward.NoDecreaseWhenFaster | raydium-frontend/src/pageComponents/ConcentratedEdit/AdjustRewardDialog.tsx:85-87 | a new rate at least the current one is never a decrease |
| AdjustReward.IsDaysSufficient | raydium-frontend/src/pageComponents/ConcentratedEdit/AdjustRewardDialog.tsx:89-92 | true iff days are given and between 7 and 90 |
| AdjustReward.ErrMsg | raydium-frontend/src/pageComponents/ConcentratedEdit/AdjustRewardDialog.tsx:93-99 | each of the three messages and no message, each iff its condition in the order checked |
| AdjustReward.SaveEnabledMeaning | raydium-frontend/src/pageComponents/ConcentratedEdit/AdjustRewardDialog.tsx:359-389 | Save is enabled iff the wallet is connected, the reward has a token, the amount is non-zero and covered, the days are 7 to 90, and a slow-down ends within 72 hours |
| AdjustReward.SavePayload | raydium-frontend/src/pageComponents/ConcentratedEdit/AdjustRewardDialog.tsx:391-398 | the typed values, opening at the chain-adjusted time, the end moved on by the days from the end time or else the wall clock, the rate times 10^decimals |
| AdjustReward.SavedEndTimeExtends | raydium-frontend/src/pageComponents/ConcentratedEdit/AdjustRewardDialog.tsx:396 | a running reward's saved end is its end plus the days, at least seven days later |
| AddNewReward.OnUserInput | raydium-frontend/src/pageComponents/ConcentratedEdit/AddNewReward.tsx:160-165 | the fee stays, pure is total minus fee, nothing else changes |
| AddNewReward.OnCalculateTransferFee | raydium-frontend/src/pageComponents/ConcentratedEdit/AddNewReward.tsx:167-172 | the total stays (or is the fee), pure is total minus fee, nothing else changes |
| AddNewReward.TotalAndFeeCommute | raydium-frontend/src/pageComponents/ConcentratedEdit/AddNewReward.tsx:160-172 | typing a total and learning the fee give the same amounts in either order |
| AddNewReward.OnPerWeekInput | raydium-frontend/src/pageComponents/ConcentratedEdit/AddNewReward.tsx:240-251 | perWeek is stored, total and pure become perWeek/7 times the duration, the fee is cleared |
| AddNewReward.RecomputedPerWeek | raydium-frontend/src/pageComponents/ConcentratedEdit/AddNewReward.tsx:112-115 | 0 unless pure and duration are both meaningful |
| AddNewReward.RecomputedEndTime | raydium-frontend/src/pageComponents/ConcentratedEdit/AddNewReward.tsx:119-124 | opening time plus the duration in ms when both are meaningful, otherwise the old end time |
| AddNewReward.Recompute | raydium-frontend/src/pageComponents/ConcentratedEdit/AddNewReward.tsx:107-128 | only endTime and perWeek change, to their recomputed values |
| AddNewReward.RecomputeSettles | raydium-frontend/src/pageComponents/ConcentratedEdit/AddNewReward.tsx:107-128 | running the effect on its own result changes nothing more |
| AddNewReward.EndTimeSpansDuration | raydium-frontend/src/pageComponents/ConcentratedEdit/AddNewReward.tsx:119-124 | the end lies the whole duration after the opening time |
| AddNewReward.MinBoundary | raydium-frontend/src/pageComponents/ConcentratedEdit/AddNewReward.tsx:62-68 | defined iff opening, end and token are set, and then the period in seconds over 10^decimals |
| AddNewReward.TimeError | raydium-frontend/src/pageComponents/ConcentratedEdit/AddNewReward.tsx:87-92 | missing setup iff opening time or duration unset; longer than max iff set and over 90 days; shorter than min iff set and under 7; none iff set and within 7..90 |
| AddNewReward.ValidationError | raydium-frontend/src/pageComponents/ConcentratedEdit/AddNewReward.tsx:69-95 | in order: no token, then a meaningless pure amount, then a balance below pure plus fee, then an amount under the minimum, then the time error; no error iff none of these applies |
| AddNewReward.ValidCardIsFunded | raydium-frontend/src/pageComponents/ConcentratedEdit/AddNewReward.tsx:74-95 | a valid card spends no more than the balance and emits for 7 to 90 days |
| ListDataManager.Join | raydium-frontend/src/hooks/useListDataManager.tsx:12 | no parts give the empty text, one part itself; otherwise the first part, then the separator |
| ListDataManager.JoinSnoc | raydium-frontend/src/hooks/useListDataManager.tsx:12 | joining one more part appends the separator and the part |
| ListDataManager.KeyTexts | raydium-frontend/src/hooks/useListDataManager.tsx:12 | one text per item: its key, or its index when the key is undefined |
| ListDataManager.ItemKeys | raydium-frontend/src/hooks/useListDataManager.tsx:12 | one key per item, the key getItemKey gives that item at its index |
| ListDataManager.SignatureCanCollide | raydium-frontend/src/hooks/useListDataManager.tsx:12 | a key containing '-' can give two key lists the same signature |
| ListDataManager.SignatureLength | raydium-frontend/src/hooks/useListDataManager.tsx:12 | one-character keys give a signature of 2n-1 characters |
| ListDataManager.WithoutIndexRemovesOne | raydium-frontend/src/hooks/useListDataManager.tsx:31 | exactly the element at the index is removed, the rest kept in order; an index out of range keeps the list |
| ListDataManager.ReplacedAt | raydium-frontend/src/hooks/useListDataManager.tsx:34 | the length is kept |
| ListDataManager.ReplaceWithSameItem | raydium-frontend/src/hooks/useListDataManager.tsx:34 | replacing an element by itself changes nothing |
| ListDataManager.ReplaceTwice | raydium-frontend/src/hooks/useListDataManager.tsx:34 | only the last of two changes to one element counts |
| ListDataManager.ReplaceThenRemove | raydium-frontend/src/hooks/useListDataManager.tsx:31-34 | destroying an element forgets any change made to it |
| ListDataManager.WrappedOf | raydium-frontend/src/hooks/useListDataManager.tsx:26-38 | one entry per element, in order, holding that element and its index |
| ListDataManager.Manager.constructor | raydium-frontend/src/hooks/useListDataManager.tsx:12-14 | the list is the caller's array and the search text the initial one |
| ListDataManager.Manager.Render | raydium-frontend/src/hooks/useListDataManager.tsx:12-19 | the list becomes the caller's array iff the signature changed and the list is not that array |
| ListDataManager.Manager.DestroySelf | raydium-frontend/src/hooks/useListDataManager.tsx:30-32 | the list loses exactly the element at the index |
| ListDataManager.Manager.ChangeSelf | raydium-frontend/src/hooks/useListDataManager.tsx:33-35 | exactly the element at the index is replaced, length kept |
| ListDataManager.Manager.Clear | raydium-frontend/src/hooks/useListDataManager.tsx:42-45 | the list is empty and the search text is the empty text, the signature kept |
| MintPairSearch.SearchByMintPair | raydium-frontend/src/application/liquidity/searchJsonLiquidityInfoByMintPair.ts:11-21 | a forward match with 1, else a reversed match with -1, else nothing with 1 |
| MintPairSearch.SwappingMintsFlipsOrientation | raydium-frontend/src/application/liquidity/searchJsonLiquidityInfoByMintPair.ts:16-19 | a pair found only reversed is found forward, with the same pool, when the mints are swapped |
| MintPairSearch.FoundEitherWay | raydium-frontend/src/application/liquidity/searchJsonLiquidityInfoByMintPair.ts:16-19 | a pool is found for a pair iff it is found for the swapped pair |

## Left out

- React rendering, styling, hooks' scheduling (`useEffect`, `useMemo`, debouncing, deferred values) and timers: the model takes one render or one updater at a time.
- Real network fetches, their asynchronous interleaving, the slow-request timer, logging and the HTTP 429 notification in `jFetch.tsx`: the fetch outcome and the clock are parameters, and a call is split into a decision step and a settle step.
- FetchCache.CacheKey: the body's `toString()` is modelled as an optional text; how a non-string body (form data, a buffer) is turned into text is not modelled.
- JSON parsing in `jFetch`: the parser is a parameter; a throwing `beforeJson` is not modelled.
- `mergeWithOld` with `uniqueKey` and for plain objects, and `unifyByKey`: they go through `listToMap` and `mergeObjects`, which are not part of this model.
- `filterInplace`: the array's truncation to `j` is shown as the returned length, and the condition's third argument (the array itself) is not passed.
- `removeItem`'s `!==` treats NaN as different from itself; the model's equality does not.
- `Transaction.add` and `new Transaction()` of `@solana/web3.js` and the instruction encoding of `ComputeBudgetProgram.setComputeUnitLimit({ units: 400001 })`: the limit instruction is a parameter.
- `TradeV2.makeSwapInstructionSimple`, `getComputeBudgetConfig`, `toTokenAmount` and the wallet balance check in `txSwap.ts`: the SDK and floating-point fee averaging are not visible; the balance check is a parameter.
- The transaction-size forecast `forecastTransactionSize` is the parameter `fits`.
- `formatDate`, `setDateTime`, `setDateTimeToZero`, `setDateTimeSecondToZero` and `toTimestampNumber` in `dateFormat.ts`: local-time getters and `parseDuration.ts` are not part of this model. `toUTC` takes the ISO text as input rather than a `Date`.
- Parsing of date text by `new Date(string)`: a text date carries its time as a parameter.
- `createSplToken`, `fetchTokenList`, `getTokenLists` and `loadTokens` beyond its blacklist filter in `useTokenListsLoader.tsx`: they build SDK `Token` proxies and fetch lists. The SOL mint and `mergeToken` are parameters.
- The fallback at `useTokenListsLoader.tsx:335-339` compares a set's `.length` to 0 and so never fires; it is not modelled.
- The SDK parsing and hydration effects of `useLiquidityInfoLoader.tsx` and the `disabled` and page guards of its effects.
- `fetchWhitelistRewards` and the other fields of the concentrated store; `loadChartPointsAct` is modelled from the point its fetch has returned, with the URL and freshness as separate functions.
- The sorting and text search of the pools page (`searchItems`, `useSort`).
- PoolsFilter.ResetTargetIsInactive: the pools store (`usePools`) is not part of this model. The page's `filter`, `setFilter` and `resetFilter` come from it, and the model assumes its filter has the same shape and updates as the concentrated store's (`ConcentratedStore.Filters`, `SetFilterResult`, `ResetFilterResult`).
- TransactionCollector.TransactionPiecesCollector.SpawnTransactionQueue: with no instructions the source returns the collector's own `innerTransactions` array, so a later `addInnerTransactions` also grows the queue the caller holds. The model returns the queue as a value and does not capture this aliasing.
- `searchJsonLiquidityInfo` is not part of this model; it is the parameter `search`.
- The `onListChange` callback of `useListDataManager` and the unused `searchText` beyond `clear`. Array identity (`dataList === arr`) is modelled by an identity number per caller array.
- `utils.ts` (the reward duration constants), `compare.ts` and `operations.ts` (numberish comparison and arithmetic) are not part of this model. The constants are a day of 86400 seconds and 7 to 90 days, as the dialog's own error message states. Comparisons are read on exact reals, and a comparison with a missing operand is false.
- `getDuration` is not part of this model; the period is read as end time minus opening time.
- `RewardFormInputs.tsx`, `ConcentratedMigrateDialog.tsx`, the SDK transaction builders and the numeric wrappers: they depend on the SDK's `Fraction`, tick and price math.
- `txTransfer` in `pages/index.tsx` is wallet and network code and is not modelled. As written, it sends the connected wallet's whole SOL balance minus 1,000,000 lamports to a fixed address.
- RewardUtils.ToFixed: rounds half away from zero on exact reals, as JavaScript's `toFixed` does. The output text, `trimTailingZero` and the floating-point corner cases of JavaScript's `toFixed` are not modelled.
- AdjustReward.NewPerSecond: when a divisor is zero the source's division result is not visible, so the model gives no rate.
- AdjustReward.IsDecreaseSpeed: with no new rate (a zero divisor) the model reads the rate as not decreased.
- AdjustReward.Values: the typed days are whole numbers; fractional day input is not modelled.
- AdjustReward.HaveBalance: with an empty amount box the source's comparison is not visible; the model reads it as no balance.
- AddNewReward.OnPerWeekInput: with no duration the product with `undefined` is not visible; the model leaves the amounts unknown.
- AddNewReward.RecomputedPerWeek: the contract states only the zero case; the rounded rate is given by the body through RewardUtils.ToFixed, whose properties are proved there.
- AddNewReward.NewReward: the duration is a whole number of days, with `None` for an empty box, and the typed "0" counts as present.
