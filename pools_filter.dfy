/**
 * The pool list of src/pages/pools.tsx: the tab and own-pools data source,
 * the field each range filter reads for the chosen time basis, and the range
 * filter applied to the sorted list.
 *
 * Filter bounds are the text the user typed. `num` stands for reading such
 * a text as a number (`toFraction`); only non-empty texts are ever read.
 *
 * The page reads `filter`, `setFilter` and `resetFilter` from the pools
 * store; the model takes that store's filter to have the same shape and
 * updates as the concentrated store's (`ConcentratedStore.Filters`).
 */
module PoolsFilter {
  import opened Wrappers
  import ArrayMethods
  import opened ConcentratedStore

  /** A pool row with the fields the page filters on. */
  datatype PoolItem = PoolItem(
    ammId: string, lpMint: string, official: bool,
    liquidity: real,
    volume24h: real, volume7d: real, volume30d: real,
    fee24h: real, fee7d: real, fee30d: real,
    apr24h: real, apr7d: real, apr30d: real)

  // ---------------------------------------------------------------- data source

  datatype Tab = All | Raydium | OtherTab(name: string)

  predicate InTab(tab: Tab, item: PoolItem) {
    match tab
    case All => true
    case Raydium => item.official
    case OtherTab(_) => !item.official
  }

  /** `objectFilter(balances, gt 0)`'s keys: the mints with a positive balance. */
  function UnZeroBalanceMints(balances: map<string, real>): (r: set<string>)
    ensures forall m :: m in r <==> m in balances && balances[m] > 0.0
  {
    set m | m in balances && balances[m] > 0.0
  }

  /**
   * `dataSource`: hydrated rows once any are loaded, filtered by tab and, when
   * `onlySelfPools` is on, by holding their LP token; otherwise the JSON rows
   * filtered by tab only.
   */
  function DataSource(hydrated: seq<PoolItem>, json: seq<PoolItem>, tab: Tab, onlySelfPools: bool,
                      balances: map<string, real>): (r: seq<PoolItem>)
    ensures |hydrated| > 0 ==> forall x :: x in r <==>
              x in hydrated && InTab(tab, x) && (onlySelfPools ==> x.lpMint in balances && balances[x.lpMint] > 0.0)
    ensures |hydrated| == 0 ==> forall x :: x in r <==> x in json && InTab(tab, x)
  {
    var mints := UnZeroBalanceMints(balances);
    if |hydrated| > 0 then
      ArrayMethods.Filter(ArrayMethods.Filter(hydrated, (i: PoolItem) => InTab(tab, i)),
                          (i: PoolItem) => if onlySelfPools then i.lpMint in mints else true)
    else ArrayMethods.Filter(json, (i: PoolItem) => InTab(tab, i))
  }

  /** Before hydrated rows arrive, the own-pools switch has no effect. */
  lemma JsonSourceIgnoresSelfSwitch(json: seq<PoolItem>, tab: Tab, balances: map<string, real>)
    ensures DataSource([], json, tab, true, balances) == DataSource([], json, tab, false, balances)
  {
  }

  /** The 'All' tab without the own-pools switch keeps every loaded row in order. */
  lemma {:induction false} AllTabKeepsEverything(rows: seq<PoolItem>)
    ensures ArrayMethods.Filter(rows, (i: PoolItem) => InTab(All, i)) == rows
    ensures ArrayMethods.Filter(rows, (i: PoolItem) => if false then i.lpMint in {} else true) == rows
  {
    ArrayMethods.FilterAllPass(rows, (i: PoolItem) => InTab(All, i));
    ArrayMethods.FilterAllPass(rows, (i: PoolItem) => if false then i.lpMint in {} else true);
  }

  // ---------------------------------------------------------------- filteredKey

  /** The time category of a key suffix. */
  datatype TimeCategory = H24 | D7 | D30

  function TimeCategoryOf(tb: TimeBasis): TimeCategory {
    match tb
    case Day => H24
    case Week => D7
    case Month => D30
  }

  function Suffix(c: TimeCategory): string {
    match c
    case H24 => "24h"
    case D7 => "7d"
    case D30 => "30d"
  }

  /** The numeric fields of a row the filters can read. */
  datatype RowField = LiquidityField | VolumeField(c: TimeCategory) | FeeField(c: TimeCategory) | AprField(c: TimeCategory)

  /** The property name of a row field. */
  function FieldKey(f: RowField): string {
    match f
    case LiquidityField => "liquidity"
    case VolumeField(c) => "volume" + Suffix(c)
    case FeeField(c) => "fee" + Suffix(c)
    case AprField(c) => "apr" + Suffix(c)
  }

  /** `item[key]` */
  function FieldValue(item: PoolItem, f: RowField): real {
    match f
    case LiquidityField => item.liquidity
    case VolumeField(H24) => item.volume24h
    case VolumeField(D7) => item.volume7d
    case VolumeField(D30) => item.volume30d
    case FeeField(H24) => item.fee24h
    case FeeField(D7) => item.fee7d
    case FeeField(D30) => item.fee30d
    case AprField(H24) => item.apr24h
    case AprField(D7) => item.apr7d
    case AprField(D30) => item.apr30d
  }

  /** `filteredKey[target]`: the row field a filter target reads under a time basis. */
  function FilteredKey(tb: TimeBasis, target: FilterTarget): (f: RowField)
    ensures target == Liquidity <==> f == LiquidityField
    ensures target != Liquidity ==> f.c == TimeCategoryOf(tb)
  {
    match target
    case Liquidity => LiquidityField
    case Volume => VolumeField(TimeCategoryOf(tb))
    case Fees => FeeField(TimeCategoryOf(tb))
    case Apr => AprField(TimeCategoryOf(tb))
  }

  function Head(f: RowField): char {
    match f
    case LiquidityField => 'l'
    case VolumeField(_) => 'v'
    case FeeField(_) => 'f'
    case AprField(_) => 'a'
  }

  /** Where the time suffix starts in a field's name. */
  function Pre(f: RowField): nat {
    match f
    case LiquidityField => 0
    case VolumeField(_) => 6
    case FeeField(_) => 3
    case AprField(_) => 3
  }

  function SuffixHead(c: TimeCategory): char {
    match c
    case H24 => '2'
    case D7 => '7'
    case D30 => '3'
  }

  lemma FieldKeyChars(f: RowField)
    ensures |FieldKey(f)| > Pre(f) && FieldKey(f)[0] == Head(f)
    ensures !f.LiquidityField? ==> FieldKey(f)[Pre(f)] == SuffixHead(f.c)
  {
  }

  /** Distinct fields have distinct property names, so each key names exactly one field. */
  lemma FieldKeyInjective(f1: RowField, f2: RowField)
    ensures FieldKey(f1) == FieldKey(f2) <==> f1 == f2
  {
    if f1 != f2 && FieldKey(f1) == FieldKey(f2) {
      FieldKeyChars(f1);
      FieldKeyChars(f2);
    }
  }

  /** The filters read the field of their time basis, and distinct targets read distinct fields. */
  lemma FilteredKeyInjective(tb: TimeBasis, t1: FilterTarget, t2: FilterTarget)
    ensures FilteredKey(tb, t1) == FilteredKey(tb, t2) <==> t1 == t2
  {
  }

  function TargetValue(item: PoolItem, tb: TimeBasis, target: FilterTarget): real {
    FieldValue(item, FilteredKey(tb, target))
  }

  // ---------------------------------------------------------------- range filter

  /** `Boolean(bound)`: a bound counts once its text is non-empty. */
  predicate IsSet(bound: Option<string>) {
    bound.Some? && bound.value != ""
  }

  /** A target takes part in filtering when either of its bounds is set. */
  predicate Active(ft: FilterType) {
    IsSet(ft.min) || IsSet(ft.max)
  }

  /** `Object.keys(availableFilter)`: the active targets in declaration order. */
  function ActiveTargets(filters: Filters): (r: seq<FilterTarget>)
    ensures forall t :: t in r <==> Active(filters.Get(t))
  {
    ArrayMethods.Filter([Liquidity, Volume, Fees, Apr], (t: FilterTarget) => Active(filters.Get(t)))
  }

  /** `lte(value, bound)`; with an unset bound the answer never decides anything. */
  predicate LteBound(v: real, bound: Option<string>, num: string -> real) {
    IsSet(bound) && v <= num(bound.value)
  }

  predicate GteBound(v: real, bound: Option<string>, num: string -> real) {
    IsSet(bound) && v >= num(bound.value)
  }

  /**
   * One target's steps in the loop body: whether the row may go on to the
   * next target (`continue`) rather than fail (`passed = false; break`).
   */
  predicate TargetPasses(ft: FilterType, v: real, num: string -> real) {
    if !IsSet(ft.min) && !IsSet(ft.max) then true
    else
      var isLteMax := LteBound(v, ft.max, num);
      var isGteMin := GteBound(v, ft.min, num);
      if !IsSet(ft.min) && isLteMax then true
      else if !IsSet(ft.max) && isGteMin then true
      else if IsSet(ft.min) && IsSet(ft.max) && (num(ft.min.value) > num(ft.max.value) || num(ft.max.value) < num(ft.min.value)) then true
      else isLteMax && isGteMin
  }

  /** What a target's bounds mean for a value, case by case. */
  lemma TargetPassesMeaning(ft: FilterType, v: real, num: string -> real)
    ensures !IsSet(ft.min) && !IsSet(ft.max) ==> TargetPasses(ft, v, num)
    ensures IsSet(ft.min) && !IsSet(ft.max) ==> (TargetPasses(ft, v, num) <==> v >= num(ft.min.value))
    ensures !IsSet(ft.min) && IsSet(ft.max) ==> (TargetPasses(ft, v, num) <==> v <= num(ft.max.value))
    ensures IsSet(ft.min) && IsSet(ft.max) && num(ft.min.value) > num(ft.max.value) ==> TargetPasses(ft, v, num)
    ensures IsSet(ft.min) && IsSet(ft.max) && num(ft.min.value) <= num(ft.max.value)
            ==> (TargetPasses(ft, v, num) <==> num(ft.min.value) <= v <= num(ft.max.value))
  {
  }

  /** The row passes one target's bounds, read from the field that target reads under the time basis. */
  predicate PassesTarget(filters: Filters, tb: TimeBasis, num: string -> real, item: PoolItem, t: FilterTarget) {
    TargetPasses(filters.Get(t), TargetValue(item, tb, t), num)
  }

  /** A row is kept when it passes every active target. */
  predicate Kept(filters: Filters, tb: TimeBasis, num: string -> real, item: PoolItem) {
    forall t :: Active(filters.Get(t)) ==> PassesTarget(filters, tb, num, item, t)
  }

  /** The `for` loop over `filterTargets`: whether the row passes them all, stopping at the first failure. */
  method PassesTargets(filterTargets: seq<FilterTarget>, filters: Filters, tb: TimeBasis, num: string -> real,
                       item: PoolItem) returns (passed: bool)
    ensures passed <==> forall k :: 0 <= k < |filterTargets| ==> PassesTarget(filters, tb, num, item, filterTargets[k])
  {
    passed := true;
    var i := 0;
    while i < |filterTargets|
      invariant 0 <= i <= |filterTargets|
      invariant forall k :: 0 <= k < i ==> PassesTarget(filters, tb, num, item, filterTargets[k])
    {
      if !PassesTarget(filters, tb, num, item, filterTargets[i]) {
        passed := false;
        break;
      }
      i := i + 1;
    }
  }

  /** The callback given to `sorted.filter`, over the active targets. */
  method ItemPasses(filters: Filters, tb: TimeBasis, num: string -> real, item: PoolItem) returns (passed: bool)
    ensures passed <==> Kept(filters, tb, num, item)
  {
    var filterTargets := ActiveTargets(filters);
    passed := PassesTargets(filterTargets, filters, tb, num, item);
    if passed {
      forall t | Active(filters.Get(t))
        ensures PassesTarget(filters, tb, num, item, t)
      {
        var k :| 0 <= k < |filterTargets| && filterTargets[k] == t;
      }
    } else {
      var k :| 0 <= k < |filterTargets| && !PassesTarget(filters, tb, num, item, filterTargets[k]);
      assert filterTargets[k] in filterTargets;
    }
  }

  /**
   * `filtered`: the sorted rows unchanged (with the count hidden) when no
   * target is active, otherwise the rows that pass every active target.
   */
  function Filtered(sorted: Option<seq<PoolItem>>, filters: Filters, tb: TimeBasis, num: string -> real)
    : (r: (Option<seq<PoolItem>>, bool))
    ensures r.1 <==> ActiveTargets(filters) != []
    ensures !r.1 ==> r.0 == sorted
    ensures r.0.Some? <==> sorted.Some?
    ensures r.0.Some? ==> forall x :: x in r.0.value <==> x in sorted.value && Kept(filters, tb, num, x)
  {
    if ActiveTargets(filters) == [] then (sorted, false)
    else if sorted.None? then (None, true)
    else (Some(ArrayMethods.Filter(sorted.value, (item: PoolItem) => Kept(filters, tb, num, item))), true)
  }

  /** With no active target every row passes anyway, so the unchanged list is also the filtered one. */
  lemma {:induction false} NoActiveTargetKeepsAll(sorted: seq<PoolItem>, filters: Filters, tb: TimeBasis, num: string -> real)
    requires ActiveTargets(filters) == []
    ensures ArrayMethods.Filter(sorted, (item: PoolItem) => Kept(filters, tb, num, item)) == sorted
  {
    ArrayMethods.FilterAllPass(sorted, (item: PoolItem) => Kept(filters, tb, num, item));
  }

  /** Filtering keeps rows in their sorted order: it distributes over any split of the list. */
  lemma FilteredKeepsOrder(front: seq<PoolItem>, back: seq<PoolItem>, filters: Filters, tb: TimeBasis, num: string -> real)
    requires ActiveTargets(filters) != []
    ensures Filtered(Some(front + back), filters, tb, num).0.value
            == Filtered(Some(front), filters, tb, num).0.value + Filtered(Some(back), filters, tb, num).0.value
  {
    ArrayMethods.FilterAppend(front, back, (item: PoolItem) => Kept(filters, tb, num, item));
  }

  /** Resetting a target's bounds to empty texts takes it out of filtering. */
  lemma ResetTargetIsInactive(filters: Filters, target: FilterTarget)
    ensures target !in ActiveTargets(ResetFilterResult(filters, target))
  {
  }
}
