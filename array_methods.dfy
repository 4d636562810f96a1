/**
 * The array and set helpers of src/functions/arrayMethods.ts.
 *
 * JavaScript arrays are sequences; JavaScript `Set`s are Dafny sets (the
 * helpers only ever ask what a set contains). Where a helper looks at the
 * JavaScript value itself (`!= null`, `Boolean(x)`), elements are `JsValue`s.
 */
module ArrayMethods {
  import opened Wrappers

  /** The JavaScript values whose nullishness and truthiness the helpers test. */
  datatype JsValue =
    | Undefined
    | Null
    | Bool(b: bool)
    | Number(n: real)
    | NaN
    | BigInt(i: int)
    | Str(s: string)
    | Object(id: nat)

  /** `Boolean(v)`: everything except false, 0, NaN, 0n, '', null and undefined. */
  predicate Truthy(v: JsValue) {
    match v
    case Undefined => false
    case Null => false
    case Bool(b) => b
    case Number(n) => n != 0.0
    case NaN => false
    case BigInt(i) => i != 0
    case Str(s) => s != ""
    case Object(_) => true
  }

  /** `Array.prototype.filter`: the elements satisfying `p`, in their original order. */
  function Filter<T(==,!new)>(s: seq<T>, p: T -> bool): (r: seq<T>)
    ensures |r| <= |s|
    ensures forall i :: 0 <= i < |r| ==> p(r[i])
    ensures forall x :: x in r <==> x in s && p(x)
  {
    if s == [] then []
    else (if p(s[0]) then [s[0]] else []) + Filter(s[1..], p)
  }

  /** Filtering keeps every copy of each element that passes and no copy of the others. */
  lemma {:induction false} FilterCounts<T(!new)>(s: seq<T>, p: T -> bool)
    ensures forall x :: multiset(Filter(s, p))[x] == if p(x) then multiset(s)[x] else 0
  {
    if s != [] {
      FilterCounts(s[1..], p);
      assert s == [s[0]] + s[1..];
    }
  }

  /** Filtering distributes over concatenation, so it keeps the relative order of what it keeps. */
  lemma {:induction false} FilterAppend<T(!new)>(a: seq<T>, b: seq<T>, p: T -> bool)
    ensures Filter(a + b, p) == Filter(a, p) + Filter(b, p)
  {
    if a == [] {
      assert a + b == b;
    } else {
      assert (a + b)[1..] == a[1..] + b;
      FilterAppend(a[1..], b, p);
    }
  }

  /** A filter that every element passes returns its input. */
  lemma {:induction false} FilterAllPass<T(!new)>(s: seq<T>, p: T -> bool)
    requires forall i :: 0 <= i < |s| ==> p(s[i])
    ensures Filter(s, p) == s
  {
    if s != [] {
      FilterAllPass(s[1..], p);
    }
  }

  // ---------------------------------------------------------------- hasSameItems

  /** `hasSameItems`: equal lengths, and every element of `arr1` occurs in `arr2`. */
  function HasSameItems<T(==,!new)>(arr1: seq<T>, arr2: seq<T>): (r: bool)
    ensures |arr1| != |arr2| ==> !r
    ensures |arr1| == 0 && |arr2| == 0 ==> r
    ensures |arr1| == |arr2| ==> (r <==> forall x :: x in arr1 ==> x in arr2)
  {
    if |arr1| != |arr2| then false
    else if |arr1| == 0 then true
    else forall i :: 0 <= i < |arr1| ==> arr1[i] in arr2
  }

  /** Every permutation passes `hasSameItems`. */
  lemma PermutationHasSameItems<T(!new)>(arr1: seq<T>, arr2: seq<T>)
    requires multiset(arr1) == multiset(arr2)
    ensures HasSameItems(arr1, arr2)
  {
    assert |arr1| == |multiset(arr1)| == |multiset(arr2)| == |arr2|;
    forall x | x in arr1 ensures x in arr2 {
      assert x in multiset(arr1);
    }
  }

  /** The check looks at membership only, so it is not symmetric when `arr1` repeats an element. */
  lemma HasSameItemsIsNotSymmetric()
    ensures HasSameItems([1, 1], [1, 2]) && !HasSameItems([1, 2], [1, 1])
  {
    assert 2 !in [1, 1];
  }

  // ---------------------------------------------------------------- addItem(s), removeItem

  /** `addItem` on an array: a new array with `item` appended. */
  function AddItem<T>(arr: seq<T>, item: T): (r: seq<T>)
    ensures |r| == |arr| + 1 && r[..|arr|] == arr && r[|arr|] == item
  {
    arr + [item]
  }

  /** `addItem` on a set: a new set that also holds `item`. */
  function AddItemToSet<T>(s: set<T>, item: T): (r: set<T>)
    ensures item in r && s <= r && r - {item} == s - {item}
  {
    s + {item}
  }

  /** `addItems` on an array: the items appended in their iteration order. */
  function AddItems<T>(arr: seq<T>, items: seq<T>): (r: seq<T>)
    ensures |r| == |arr| + |items| && r[..|arr|] == arr && r[|arr|..] == items
  {
    arr + items
  }

  /** `addItems` on a set: a copy of the set that every item is added to in turn. */
  method AddItemsToSet<T>(s: set<T>, items: seq<T>) returns (r: set<T>)
    ensures r == s + set x | x in items
  {
    r := s;
    for i := 0 to |items|
      invariant r == s + set x | x in items[..i]
    {
      assert items[..i + 1] == items[..i] + [items[i]];
      r := r + {items[i]};
    }
    assert items[..|items|] == items;
  }

  /** `removeItem` on an array: the elements other than `item`, in their original order. */
  function RemoveItem<T(==,!new)>(arr: seq<T>, item: T): (r: seq<T>)
    ensures item !in r
    ensures forall x :: x != item ==> multiset(r)[x] == multiset(arr)[x]
  {
    FilterCounts(arr, x => x != item);
    Filter(arr, x => x != item)
  }

  /** `removeItem` on a set: a new set without `item`. */
  function RemoveItemFromSet<T>(s: set<T>, item: T): (r: set<T>)
    ensures item !in r && r <= s && s - r <= {item}
  {
    s - {item}
  }

  /** Removing what was just added gives the input back, minus earlier copies of that element. */
  lemma RemoveAddedItem<T(!new)>(arr: seq<T>, item: T)
    ensures RemoveItem(AddItem(arr, item), item) == RemoveItem(arr, item)
    ensures RemoveItemFromSet(AddItemToSet((set x | x in arr), item), item) == (set x | x in arr) - {item}
  {
    FilterAppend(arr, [item], x => x != item);
  }

  // ---------------------------------------------------------------- unifyItem

  predicate NoDuplicates<T(==,!new)>(s: seq<T>) {
    forall i, j :: 0 <= i < j < |s| ==> s[i] != s[j]
  }

  /** The index of the first occurrence of `x` in `s`. */
  function FirstIndex<T(==,!new)>(s: seq<T>, x: T): (k: nat)
    requires x in s
    ensures k < |s| && s[k] == x && x !in s[..k]
  {
    if s[0] == x then 0
    else
      assert x in s[1..];
      var k := 1 + FirstIndex(s[1..], x);
      assert s[..k] == [s[0]] + s[1..][..k - 1];
      k
  }

  /** A first occurrence inside a prefix is the first occurrence in the whole sequence. */
  lemma FirstIndexInPrefix<T(!new)>(s: seq<T>, n: nat, x: T)
    requires n <= |s| && x in s[..n]
    ensures x in s && FirstIndex(s, x) == FirstIndex(s[..n], x)
  {
    var k := FirstIndex(s[..n], x);
    assert s[..n][..k] == s[..k];
  }

  /**
   * `unifyItem` (`[...new Set(arr)]`): each distinct element once, in the
   * order of its first occurrence.
   */
  function UnifyItem<T(==,!new)>(arr: seq<T>): (r: seq<T>)
    ensures NoDuplicates(r)
    ensures forall x :: x in r <==> x in arr
    ensures forall i, j :: 0 <= i < j < |r| ==> FirstIndex(arr, r[i]) < FirstIndex(arr, r[j])
  {
    if arr == [] then []
    else
      var init := arr[..|arr| - 1];
      var last := arr[|arr| - 1];
      var u := UnifyItem(init);
      assert arr == init + [last];
      forall y | y in u ensures FirstIndex(arr, y) == FirstIndex(init, y) && FirstIndex(arr, y) < |arr| - 1 {
        FirstIndexInPrefix(arr, |arr| - 1, y);
      }
      if last in u then u
      else
        assert FirstIndex(arr, last) == |arr| - 1;
        u + [last]
  }

  /** Unifying a concatenation starts with the unified first part. */
  lemma {:induction false} UnifyItemPrefix<T(!new)>(a: seq<T>, b: seq<T>)
    ensures |UnifyItem(a)| <= |UnifyItem(a + b)| && UnifyItem(a + b)[..|UnifyItem(a)|] == UnifyItem(a)
  {
    if b == [] {
      assert a + b == a;
    } else {
      var b' := b[..|b| - 1];
      assert (a + b)[..|a + b| - 1] == a + b';
      UnifyItemPrefix(a, b');
    }
  }

  /** A sequence without repeats is its own unification. */
  lemma {:induction false} UnifyItemOfDistinct<T(!new)>(s: seq<T>)
    requires NoDuplicates(s)
    ensures UnifyItem(s) == s
  {
    if s != [] {
      var init := s[..|s| - 1];
      UnifyItemOfDistinct(init);
      assert s[|s| - 1] !in init;
      assert s == init + [s[|s| - 1]];
    }
  }

  // ---------------------------------------------------------------- shake*

  predicate IsNullish(v: JsValue) {
    v == Undefined || v == Null
  }

  /** `shakeUndifindedItem` on an array: `filter(item => item != null)` drops `null` and `undefined`. */
  function ShakeUndefinedItem(arr: seq<JsValue>): (r: seq<JsValue>)
    ensures forall i :: 0 <= i < |r| ==> !IsNullish(r[i])
    ensures forall v :: !IsNullish(v) ==> multiset(r)[v] == multiset(arr)[v]
  {
    FilterCounts(arr, v => !IsNullish(v));
    Filter(arr, v => !IsNullish(v))
  }

  /** `shakeUndifindedItem` on a set: deletes `undefined` only, so `null` survives. */
  function ShakeUndefinedFromSet(s: set<JsValue>): (r: set<JsValue>)
    ensures Undefined !in r
    ensures Null in r <==> Null in s
    ensures forall v :: v != Undefined ==> (v in r <==> v in s)
  {
    s - {Undefined}
  }

  /** `shakeFalsyItem`: `filter(Boolean)` keeps exactly the truthy elements, in order. */
  function ShakeFalsyItem(arr: seq<JsValue>): (r: seq<JsValue>)
    ensures forall i :: 0 <= i < |r| ==> Truthy(r[i])
    ensures forall v :: Truthy(v) ==> multiset(r)[v] == multiset(arr)[v]
  {
    FilterCounts(arr, Truthy);
    Filter(arr, Truthy)
  }

  /** Truthy values are never nullish, so shaking falsy items after nullish ones changes nothing more. */
  lemma ShakeFalsyAfterUndefined(arr: seq<JsValue>)
    ensures ShakeFalsyItem(ShakeUndefinedItem(arr)) == ShakeFalsyItem(arr)
  {
    ShakeFalsyAfterUndefinedFilter(arr);
  }

  lemma {:induction false} ShakeFalsyAfterUndefinedFilter(arr: seq<JsValue>)
    ensures Filter(Filter(arr, (v: JsValue) => !IsNullish(v)), Truthy) == Filter(arr, Truthy)
  {
    if arr != [] {
      var notNullish := (v: JsValue) => !IsNullish(v);
      ShakeFalsyAfterUndefinedFilter(arr[1..]);
      var head := if notNullish(arr[0]) then [arr[0]] else [];
      assert Filter(arr, notNullish) == head + Filter(arr[1..], notNullish);
      FilterAppend(head, Filter(arr[1..], notNullish), Truthy);
      assert Filter(head, Truthy) == if Truthy(arr[0]) then [arr[0]] else [];
    }
  }

  // ---------------------------------------------------------------- mergeWithOld

  /** `mergeWithOld` on arrays without `uniqueKey`: the new data alone, or `unifyItem([...old, ...new])`. */
  function MergeWithOld<T(==,!new)>(newData: seq<T>, oldData: Option<seq<T>>): (r: seq<T>)
    ensures oldData.None? ==> r == newData
    ensures oldData.Some? ==> NoDuplicates(r) && forall x :: x in r <==> x in oldData.value || x in newData
  {
    match oldData
    case None => newData
    case Some(previous) => UnifyItem(previous + newData)
  }

  /** Merging keeps every old element ahead of the new ones, in the old order when the old data has no repeats. */
  lemma MergeWithOldKeepsOldFirst<T(!new)>(newData: seq<T>, oldData: seq<T>)
    requires NoDuplicates(oldData)
    ensures |oldData| <= |MergeWithOld(newData, Some(oldData))|
    ensures MergeWithOld(newData, Some(oldData))[..|oldData|] == oldData
  {
    UnifyItemPrefix(oldData, newData);
    UnifyItemOfDistinct(oldData);
  }

  /** `mergeWithOld` on two sets: a copy of the old set that each new item is added to. */
  method MergeWithOldSet<T>(newData: set<T>, oldData: Option<set<T>>) returns (r: set<T>)
    ensures oldData.None? ==> r == newData
    ensures oldData.Some? ==> r == oldData.value + newData
  {
    if oldData.None? {
      return newData;
    }
    r := oldData.value;
    var rest := newData;
    while rest != {}
      invariant rest <= newData
      invariant r == oldData.value + (newData - rest)
      decreases rest
    {
      var item :| item in rest;
      if item !in r {
        r := r + {item};
      }
      rest := rest - {item};
    }
  }

  // ---------------------------------------------------------------- filterInplace

  /**
   * The elements `filterInplace` keeps: those for which `condition(value, index)`
   * holds, indices being positions in the original array.
   */
  function Kept<T>(s: seq<T>, condition: (T, nat) -> bool): (r: seq<T>)
    ensures |r| <= |s|
  {
    if s == [] then []
    else
      var n := |s| - 1;
      Kept(s[..n], condition) + (if condition(s[n], n) then [s[n]] else [])
  }

  /** For a condition that ignores the index, what `filterInplace` keeps is what `filter` returns. */
  lemma {:induction false} KeptIsFilter<T(!new)>(s: seq<T>, p: T -> bool)
    ensures Kept(s, (x: T, i: nat) => p(x)) == Filter(s, p)
  {
    if s != [] {
      var n := |s| - 1;
      var cond := (x: T, i: nat) => p(x);
      KeptIsFilter(s[..n], p);
      assert Kept(s, cond) == Kept(s[..n], cond) + (if p(s[n]) then [s[n]] else []);
      assert s == s[..n] + [s[n]];
      FilterAppend(s[..n], [s[n]], p);
      assert Filter([s[n]], p) == (if p(s[n]) then [s[n]] else []) + Filter([], p);
    }
  }

  /**
   * `filterInplace`: compacts the kept elements to the front of the array and
   * returns the new length (the source then truncates the array to it).
   */
  method FilterInplace<T>(a: array<T>, condition: (T, nat) -> bool) returns (len: nat)
    modifies a
    ensures len <= a.Length
    ensures a[..len] == Kept(old(a[..]), condition)
  {
    ghost var orig := a[..];
    var i, j := 0, 0;
    while i < a.Length
      invariant 0 <= j <= i <= a.Length
      invariant a[..j] == Kept(orig[..i], condition)
      invariant a[i..] == orig[i..]
    {
      var value := a[i];
      assert value == orig[i];
      assert orig[..i + 1][..i] == orig[..i];
      if condition(value, i) {
        a[j] := value;
        j := j + 1;
      }
      assert a[i + 1..] == orig[i + 1..];
      i := i + 1;
    }
    assert orig[..a.Length] == orig;
    len := j;
  }
}
