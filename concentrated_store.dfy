/**
 * The concentrated-liquidity store of
 * src/application/concentrated/useConcentrated.tsx, reduced to the fields its
 * own actions write: the refresh counter, the four range filters of the pool
 * list, the chart points of the current pool, and the time basis with its
 * `timeMap`.
 */
module ConcentratedStore {
  import opened Wrappers

  datatype TimeBasis = Day | Week | Month

  /** The enum's string value. */
  function TimeBasisLabel(tb: TimeBasis): string {
    match tb
    case Day => "24H"
    case Week => "7D"
    case Month => "30D"
  }

  /** `timeMap`: the API period name for each time basis. */
  function TimeMap(tb: TimeBasis): string {
    match tb
    case Day => "day"
    case Week => "week"
    case Month => "month"
  }

  /** The time basis an API period name stands for. */
  function TimeBasisOfPeriod(period: string): Option<TimeBasis> {
    if period == "day" then Some(Day)
    else if period == "week" then Some(Week)
    else if period == "month" then Some(Month)
    else None
  }

  /** `timeMap` is one-to-one: each period name leads back to its time basis. */
  lemma TimeMapRoundTrip(tb: TimeBasis)
    ensures TimeBasisOfPeriod(TimeMap(tb)) == Some(tb)
  {
  }

  lemma TimeMapInjective(a: TimeBasis, b: TimeBasis)
    ensures TimeMap(a) == TimeMap(b) <==> a == b
  {
    TimeMapRoundTrip(a);
    TimeMapRoundTrip(b);
  }

  datatype FilterTarget = Liquidity | Volume | Fees | Apr

  datatype FilterOption = Min | Max

  /** `FilterType`: its `label` and the optional bounds the user typed. */
  datatype FilterType = FilterType(labelText: string, min: Option<string>, max: Option<string>)

  datatype Filters = Filters(liquidity: FilterType, volume: FilterType, fees: FilterType, apr: FilterType)
  {
    function Get(target: FilterTarget): FilterType {
      match target
      case Liquidity => liquidity
      case Volume => volume
      case Fees => fees
      case Apr => apr
    }

    /** `{ ...filter, [target]: ft }` */
    function With(target: FilterTarget, ft: FilterType): (r: Filters)
      ensures r.Get(target) == ft
      ensures forall other :: other != target ==> r.Get(other) == Get(other)
    {
      match target
      case Liquidity => this.(liquidity := ft)
      case Volume => this.(volume := ft)
      case Fees => this.(fees := ft)
      case Apr => this.(apr := ft)
    }
  }

  /** The initial filters: labels only, no bounds. */
  const InitialFilters: Filters :=
    Filters(FilterType("Liquidity", None, None), FilterType("Volume", None, None),
            FilterType("Fees", None, None), FilterType("Apr", None, None))

  /** `{ ...ft, [option]: value }` */
  function WithOption(ft: FilterType, option: FilterOption, value: string): FilterType {
    match option
    case Min => ft.(min := Some(value))
    case Max => ft.(max := Some(value))
  }

  function OptionValue(ft: FilterType, option: FilterOption): Option<string> {
    match option
    case Min => ft.min
    case Max => ft.max
  }

  /** The filters after `setFilter(target, option, value)`. */
  function SetFilterResult(filters: Filters, target: FilterTarget, option: FilterOption, value: string): (r: Filters)
    ensures OptionValue(r.Get(target), option) == Some(value)
    ensures forall o :: o != option ==> OptionValue(r.Get(target), o) == OptionValue(filters.Get(target), o)
    ensures r.Get(target).labelText == filters.Get(target).labelText
    ensures forall other :: other != target ==> r.Get(other) == filters.Get(other)
  {
    filters.With(target, WithOption(filters.Get(target), option, value))
  }

  /** The filters after `resetFilter(target)`. */
  function ResetFilterResult(filters: Filters, target: FilterTarget): (r: Filters)
    ensures r.Get(target) == FilterType(filters.Get(target).labelText, Some(""), Some(""))
    ensures forall other :: other != target ==> r.Get(other) == filters.Get(other)
  {
    var ft := filters.Get(target);
    filters.With(target, ft.(max := Some(""), min := Some("")))
  }

  /** Resetting forgets whatever was set on that target before. */
  lemma ResetAfterSet(filters: Filters, target: FilterTarget, option: FilterOption, value: string)
    ensures ResetFilterResult(SetFilterResult(filters, target, option, value), target)
            == ResetFilterResult(filters, target)
  {
    var a := ResetFilterResult(SetFilterResult(filters, target, option, value), target);
    var b := ResetFilterResult(filters, target);
    assert forall t :: a.Get(t) == b.Get(t);
    assert a.liquidity == a.Get(Liquidity) && b.liquidity == b.Get(Liquidity);
    assert a.volume == a.Get(Volume) && b.volume == b.Get(Volume);
    assert a.fees == a.Get(Fees) && b.fees == b.Get(Fees);
  }

  /** Setting the same bound twice keeps only the second value. */
  lemma SetFilterOverwrites(filters: Filters, target: FilterTarget, option: FilterOption, v1: string, v2: string)
    ensures SetFilterResult(SetFilterResult(filters, target, option, v1), target, option, v2)
            == SetFilterResult(filters, target, option, v2)
  {
  }

  /** Setting different targets commutes. */
  lemma SetFilterCommutes(filters: Filters, t1: FilterTarget, o1: FilterOption, v1: string,
                          t2: FilterTarget, o2: FilterOption, v2: string)
    requires t1 != t2
    ensures SetFilterResult(SetFilterResult(filters, t1, o1, v1), t2, o2, v2)
            == SetFilterResult(SetFilterResult(filters, t2, o2, v2), t1, o1, v1)
  {
    var a := SetFilterResult(SetFilterResult(filters, t1, o1, v1), t2, o2, v2);
    var b := SetFilterResult(SetFilterResult(filters, t2, o2, v2), t1, o1, v1);
    assert forall t :: a.Get(t) == b.Get(t);
    assert a.liquidity == a.Get(Liquidity) && b.liquidity == b.Get(Liquidity);
    assert a.volume == a.Get(Volume) && b.volume == b.Get(Volume);
    assert a.fees == a.Get(Fees) && b.fees == b.Get(Fees);
  }

  // ---------------------------------------------------------------- loadChartPointsAct

  const POOL_ID_PLACEHOLDER: string := "<poolId>"

  /** `String.prototype.replace` with a string pattern: only the first occurrence is replaced. */
  function ReplaceFirst(s: string, pattern: string, replacement: string): string
    decreases |s|
  {
    if |pattern| <= |s| && s[..|pattern|] == pattern then replacement + s[|pattern|..]
    else if s == [] then []
    else [s[0]] + ReplaceFirst(s[1..], pattern, replacement)
  }

  /** A URL template whose prefix has no `<` gets the pool id in place of its `<poolId>`. */
  lemma {:induction false} ReplacePoolIdPlaceholder(pre: string, post: string, poolId: string)
    requires '<' !in pre
    ensures ReplaceFirst(pre + POOL_ID_PLACEHOLDER + post, POOL_ID_PLACEHOLDER, poolId) == pre + poolId + post
    decreases |pre|
  {
    var s := pre + POOL_ID_PLACEHOLDER + post;
    if pre == [] {
      assert s == POOL_ID_PLACEHOLDER + post;
      assert s[..|POOL_ID_PLACEHOLDER|] == POOL_ID_PLACEHOLDER;
    } else {
      assert s[0] == pre[0] && pre[0] != '<';
      assert s[..|POOL_ID_PLACEHOLDER|][0] == pre[0];
      assert s[1..] == pre[1..] + POOL_ID_PLACEHOLDER + post;
      ReplacePoolIdPlaceholder(pre[1..], post, poolId);
    }
  }

  /** A template without the placeholder is left as it is. */
  lemma {:induction false} ReplaceWithoutPlaceholder(s: string, poolId: string)
    requires '<' !in s
    ensures ReplaceFirst(s, POOL_ID_PLACEHOLDER, poolId) == s
    decreases |s|
  {
    if s != [] {
      if |POOL_ID_PLACEHOLDER| <= |s| {
        assert s[..|POOL_ID_PLACEHOLDER|][0] == s[0];
      }
      assert '<' !in s[1..] by {
        assert forall c :: c in s[1..] ==> c in s;
      }
      ReplaceWithoutPlaceholder(s[1..], poolId);
    }
  }

  /** The chart request's freshness: none when forced, otherwise sixty seconds. */
  function ChartCacheFreshTime(force: bool): (t: Option<int>)
    ensures force <==> t.None?
    ensures t.Some? ==> t.value == 60 * 1000
  {
    if force then None else Some(60 * 1000)
  }

  datatype ChartPoint = ChartPoint(price: real, liquidity: real)

  datatype ChartResponse = ChartResponse(data: seq<ChartPoint>)

  /** The fields of the store that its own actions write. */
  class Store {
    var refreshCount: int
    var timeBasis: TimeBasis
    var filter: Filters
    var chartPoints: Option<seq<ChartPoint>>
    /** The `idString` of `currentAmmPool`, when one is selected. */
    var currentAmmPoolId: Option<string>

    constructor ()
      ensures refreshCount == 1 && timeBasis == Day && filter == InitialFilters
      ensures chartPoints == None && currentAmmPoolId == None
    {
      refreshCount, timeBasis, filter := 1, Day, InitialFilters;
      chartPoints, currentAmmPoolId := None, None;
    }

    /** `refreshConcentrated`: one more refresh. */
    method RefreshConcentrated()
      modifies this
      ensures refreshCount == old(refreshCount) + 1
      ensures filter == old(filter) && chartPoints == old(chartPoints) && timeBasis == old(timeBasis)
      ensures currentAmmPoolId == old(currentAmmPoolId)
    {
      refreshCount := refreshCount + 1;
    }

    method SetFilter(target: FilterTarget, option: FilterOption, value: string)
      modifies this
      ensures filter == SetFilterResult(old(filter), target, option, value)
      ensures refreshCount == old(refreshCount) && chartPoints == old(chartPoints) && timeBasis == old(timeBasis)
      ensures currentAmmPoolId == old(currentAmmPoolId)
    {
      filter := filter.With(target, WithOption(filter.Get(target), option, value));
    }

    method ResetFilter(target: FilterTarget)
      modifies this
      ensures filter == ResetFilterResult(old(filter), target)
      ensures refreshCount == old(refreshCount) && chartPoints == old(chartPoints) && timeBasis == old(timeBasis)
      ensures currentAmmPoolId == old(currentAmmPoolId)
    {
      var ft := filter.Get(target);
      filter := filter.With(target, ft.(max := Some(""), min := Some("")));
    }

    /**
     * The part of `loadChartPointsAct` after the fetch: the points are stored
     * only when there is a response and the request's pool is still the
     * current pool.
     */
    method LoadChartPoints(poolId: string, chartResponse: Option<ChartResponse>)
      modifies this
      ensures chartResponse.Some? && currentAmmPoolId == Some(poolId) ==> chartPoints == Some(chartResponse.value.data)
      ensures chartResponse.None? || currentAmmPoolId != Some(poolId) ==> chartPoints == old(chartPoints)
      ensures refreshCount == old(refreshCount) && filter == old(filter) && timeBasis == old(timeBasis)
      ensures currentAmmPoolId == old(currentAmmPoolId)
    {
      if chartResponse.None? || currentAmmPoolId != Some(poolId) {
        return;
      }
      chartPoints := Some(chartResponse.value.data);
    }
  }
}
