/**
 * The `useListDataManager` hook of src/hooks/useListDataManager.tsx: a list
 * held in component state, re-synced from the caller's array when the keys'
 * signature changes, with per-item `destorySelf`/`changeSelf` and a `clear`
 * control.
 *
 * JavaScript arrays are compared by identity (`dataList === arr`); the model
 * gives each caller array an identity number, and a list made by an updater
 * (a new array nobody else holds) has none.
 */
module ListDataManager {
  import opened Wrappers
  import LiquidityInfo

  // ---------------------------------------------------------------- signature

  /** `parts.join('-')` */
  function Join(parts: seq<string>): (s: string)
    ensures parts == [] ==> s == ""
    ensures |parts| == 1 ==> s == parts[0]
    ensures parts != [] ==> |parts[0]| <= |s| && s[..|parts[0]|] == parts[0]
    ensures |parts| > 1 ==> |parts[0]| < |s| && s[|parts[0]|] == '-'
  {
    if parts == [] then ""
    else if |parts| == 1 then parts[0]
    else parts[0] + "-" + Join(parts[1..])
  }

  /** `getItemKey(i, idx) ?? idx` for each position, with the key already written as text. */
  function KeyTexts(keys: seq<Option<string>>, start: nat): (r: seq<string>)
    ensures |r| == |keys|
    ensures forall i :: 0 <= i < |keys| ==> r[i] == if keys[i].Some? then keys[i].value else LiquidityInfo.DecimalString(start + i)
    decreases |keys|
  {
    if keys == [] then []
    else [if keys[0].Some? then keys[0].value else LiquidityInfo.DecimalString(start)] + KeyTexts(keys[1..], start + 1)
  }

  /** Joining one more part puts a separator between it and the join of the others. */
  lemma {:induction false} JoinSnoc(parts: seq<string>, last: string)
    requires parts != []
    ensures Join(parts + [last]) == Join(parts) + "-" + last
    decreases |parts|
  {
    if |parts| > 1 {
      assert (parts + [last])[1..] == parts[1..] + [last];
      JoinSnoc(parts[1..], last);
    } else {
      assert parts + [last] == [parts[0], last];
    }
  }

  /** `wholeArrSignature` from the keys of the items, in order. */
  function Signature(keys: seq<Option<string>>): string {
    Join(KeyTexts(keys, 0))
  }

  /** `getItemKey` applied to each item and its index, a number key already written as text. */
  function ItemKeys<T>(arr: seq<T>, getItemKey: (T, nat) -> Option<string>): (keys: seq<Option<string>>)
    ensures |keys| == |arr|
    ensures forall i :: 0 <= i < |arr| ==> keys[i] == getItemKey(arr[i], i)
  {
    seq(|arr|, i requires 0 <= i < |arr| => getItemKey(arr[i], i))
  }

  /** A key containing the separator can make two different key lists share a signature. */
  lemma SignatureCanCollide()
    ensures Signature([Some("a-b")]) == Signature([Some("a"), Some("b")])
  {
    assert KeyTexts([Some("a"), Some("b")], 0) == ["a", "b"];
    assert Join(["a", "b"]) == "a" + "-" + Join(["b"]);
  }

  /** With one-character keys the signature is one character per item plus the separators between them. */
  lemma {:induction false} SignatureLength(parts: seq<string>)
    requires forall i :: 0 <= i < |parts| ==> |parts[i]| == 1
    ensures |Join(parts)| == if parts == [] then 0 else 2 * |parts| - 1
    decreases |parts|
  {
    if |parts| > 1 {
      SignatureLength(parts[1..]);
    }
  }

  // ---------------------------------------------------------------- updaters

  /** `prev.filter((_, dataIndex) => dataIndex !== idx)`, reading positions from `offset`. */
  function WithoutIndex<T>(s: seq<T>, idx: int, offset: nat): seq<T>
    decreases |s|
  {
    if s == [] then []
    else (if offset != idx then [s[0]] else []) + WithoutIndex(s[1..], idx, offset + 1)
  }

  /** Dropping an index removes exactly that element and keeps the rest in order; any other index keeps the list. */
  lemma {:induction false} WithoutIndexRemovesOne<T>(s: seq<T>, idx: int, offset: nat)
    ensures WithoutIndex(s, idx, offset)
            == if offset <= idx < offset + |s| then s[..idx - offset] + s[idx - offset + 1..] else s
    decreases |s|
  {
    if s != [] {
      WithoutIndexRemovesOne(s[1..], idx, offset + 1);
      if offset == idx {
        assert s[1..] == s[idx - offset + 1..];
      } else if offset < idx < offset + |s| {
        assert s[..idx - offset] == [s[0]] + s[1..][..idx - offset - 1];
        assert s[idx - offset + 1..] == s[1..][idx - offset - 1 + 1..];
      } else {
        assert s == [s[0]] + s[1..];
      }
    }
  }

  /** `prev.map((dataItem, dataIndex) => dataIndex === idx ? newItem : dataItem)` */
  function ReplacedAt<T>(s: seq<T>, idx: int, newItem: T): (r: seq<T>)
    ensures |r| == |s|
  {
    seq(|s|, i requires 0 <= i < |s| => if i == idx then newItem else s[i])
  }

  /** Replacing an element by itself leaves the list as it was. */
  lemma ReplaceWithSameItem<T>(s: seq<T>, idx: nat)
    requires idx < |s|
    ensures ReplacedAt(s, idx, s[idx]) == s
  {
  }

  /** Only the last of two changes to one element counts. */
  lemma ReplaceTwice<T>(s: seq<T>, idx: int, a: T, b: T)
    ensures ReplacedAt(ReplacedAt(s, idx, a), idx, b) == ReplacedAt(s, idx, b)
  {
  }

  /** Destroying an element forgets any change made to it. */
  lemma ReplaceThenRemove<T>(s: seq<T>, idx: int, newItem: T)
    ensures WithoutIndex(ReplacedAt(s, idx, newItem), idx, 0) == WithoutIndex(s, idx, 0)
  {
    var r := ReplacedAt(s, idx, newItem);
    WithoutIndexRemovesOne(r, idx, 0);
    WithoutIndexRemovesOne(s, idx, 0);
    if 0 <= idx < |s| {
      assert r[..idx] == s[..idx];
      assert r[idx + 1..] == s[idx + 1..];
    } else {
      assert r == s;
    }
  }

  /** One entry of `wrapped`: the item and the position its two callbacks act on. */
  datatype Wrapped<T> = Wrapped(data: T, idx: nat)

  function WrappedOf<T>(dataList: seq<T>): (w: seq<Wrapped<T>>)
    ensures |w| == |dataList|
    ensures forall i :: 0 <= i < |w| ==> w[i].data == dataList[i] && w[i].idx == i
  {
    seq(|dataList|, i requires 0 <= i < |dataList| => Wrapped(dataList[i], i))
  }

  // ---------------------------------------------------------------- the hook's state

  class Manager<T> {
    var dataList: seq<T>
    /** The identity of the caller array `dataList` is, if it is one. */
    var dataListId: Option<nat>
    var searchText: Option<string>
    /** The signature seen at the last render. */
    var signature: string

    /** First render: the list is the caller's array itself. */
    constructor (arr: seq<T>, arrId: nat, getItemKey: (T, nat) -> Option<string>, initialSearchText: Option<string>)
      ensures dataList == arr && dataListId == Some(arrId) && searchText == initialSearchText
      ensures signature == Signature(ItemKeys(arr, getItemKey))
    {
      dataList, dataListId, searchText := arr, Some(arrId), initialSearchText;
      signature := Signature(ItemKeys(arr, getItemKey));
    }

    /**
     * A later render with the caller's array `arr`: when the signature has
     * changed and the list is not that very array, the list becomes `arr`.
     */
    method Render(arr: seq<T>, arrId: nat, getItemKey: (T, nat) -> Option<string>)
      modifies this
      ensures signature == Signature(ItemKeys(arr, getItemKey))
      ensures Signature(ItemKeys(arr, getItemKey)) != old(signature) && old(dataListId) != Some(arrId)
              ==> dataList == arr && dataListId == Some(arrId)
      ensures !(Signature(ItemKeys(arr, getItemKey)) != old(signature) && old(dataListId) != Some(arrId))
              ==> dataList == old(dataList) && dataListId == old(dataListId)
      ensures searchText == old(searchText)
    {
      var wholeArrSignature := Signature(ItemKeys(arr, getItemKey));
      if wholeArrSignature != signature && dataListId != Some(arrId) {
        dataList, dataListId := arr, Some(arrId);
      }
      signature := wholeArrSignature;
    }

    /** `wrapped[idx].destorySelf()` */
    method DestroySelf(idx: nat)
      modifies this
      ensures dataList == WithoutIndex(old(dataList), idx, 0)
      ensures idx < |old(dataList)| ==> dataList == old(dataList)[..idx] + old(dataList)[idx + 1..]
      ensures idx >= |old(dataList)| ==> dataList == old(dataList)
      ensures dataListId == None
      ensures searchText == old(searchText) && signature == old(signature)
    {
      WithoutIndexRemovesOne(dataList, idx, 0);
      dataList, dataListId := WithoutIndex(dataList, idx, 0), None;
    }

    /** `wrapped[idx].changeSelf(newItem)` */
    method ChangeSelf(idx: nat, newItem: T)
      modifies this
      ensures |dataList| == |old(dataList)|
      ensures forall i :: 0 <= i < |dataList| ==> dataList[i] == if i == idx then newItem else old(dataList)[i]
      ensures dataListId == None
      ensures searchText == old(searchText) && signature == old(signature)
    {
      dataList, dataListId := ReplacedAt(dataList, idx, newItem), None;
    }

    /** `controls.clear()` */
    method Clear()
      modifies this
      ensures dataList == [] && dataListId == None && searchText == Some("")
      ensures signature == old(signature)
    {
      dataList, dataListId, searchText := [], None, Some("");
    }
  }
}
