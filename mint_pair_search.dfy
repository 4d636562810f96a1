/**
 * `searchJsonLiquidityInfoByMintPair` of
 * src/application/liquidity/searchJsonLiquidityInfoByMintPair.ts: find a pool
 * for a mint pair in either orientation. The single-orientation lookup
 * `searchJsonLiquidityInfo` is not part of this model; it is the parameter
 * `search`, any deterministic function of the base mint, the quote mint and
 * the pool list.
 */
module MintPairSearch {
  import opened Wrappers

  /** The pool found, and 1 when the pair is (base, quote) or -1 when it was found reversed. */
  function SearchByMintPair<P>(mint1: string, mint2: string, jsonInfos: seq<P>,
                               search: (string, string, seq<P>) -> Option<P>): (r: (Option<P>, int))
    ensures search(mint1, mint2, jsonInfos).Some? ==> r == (search(mint1, mint2, jsonInfos), 1)
    ensures search(mint1, mint2, jsonInfos).None? && search(mint2, mint1, jsonInfos).Some?
            ==> r == (search(mint2, mint1, jsonInfos), -1)
    ensures search(mint1, mint2, jsonInfos).None? && search(mint2, mint1, jsonInfos).None? ==> r == (None, 1)
    ensures r.1 == 1 || r.1 == -1
  {
    var result := search(mint1, mint2, jsonInfos);
    if result.Some? then (result, 1)
    else
      var resultReversed := search(mint2, mint1, jsonInfos);
      if resultReversed.Some? then (resultReversed, -1)
      else (None, 1)
  }

  /** A pair found only reversed is found the right way round, with orientation 1, when the mints are swapped. */
  lemma SwappingMintsFlipsOrientation<P>(mint1: string, mint2: string, jsonInfos: seq<P>,
                                         search: (string, string, seq<P>) -> Option<P>)
    requires search(mint1, mint2, jsonInfos).None?
    ensures SearchByMintPair(mint2, mint1, jsonInfos, search).1 == 1
    ensures SearchByMintPair(mint1, mint2, jsonInfos, search).0 == SearchByMintPair(mint2, mint1, jsonInfos, search).0
  {
  }

  /** A pool is found for a pair exactly when it is found for the swapped pair. */
  lemma FoundEitherWay<P>(mint1: string, mint2: string, jsonInfos: seq<P>,
                          search: (string, string, seq<P>) -> Option<P>)
    ensures SearchByMintPair(mint1, mint2, jsonInfos, search).0.Some?
            <==> SearchByMintPair(mint2, mint1, jsonInfos, search).0.Some?
  {
  }
}
