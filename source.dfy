/**
 * `MainRepository.Source`: the windowed reader over the shared, densely
 * indexed list of items. A load reads a snapshot of the list and answers a
 * request with a page of items and the keys of the neighbouring pages; an
 * absent `nextKey` tells the pager that local data ran out.
 *
 * Each request kind has a reference definition on slices of the list
 * (`AppendPage`, `PrependPage`, `RefreshPage`); the methods do what the source
 * does (index scans through `getOrNull`) and are proved to meet them.
 */
module PageSource {
  import opened Wrappers
  import opened Items

  /** `PagingSource.LoadParams`: request kind, requested key (`Int?`) and load size. */
  datatype LoadParams =
    | Refresh(key: Option<int>, loadSize: int)
    | Append(key: Option<int>, loadSize: int)
    | Prepend(key: Option<int>, loadSize: int)

  /** `LoadResult.Page`: the items read and the keys of the previous and next pages. */
  datatype Page = Page(data: seq<Item>, prevKey: Option<int>, nextKey: Option<int>)

  // ---------------------------------------------------------------------------
  // Reading the list
  // ---------------------------------------------------------------------------

  /** `List.getOrNull(i)`: the element at `i`, or nothing outside `0..size-1`. */
  function GetOrNull(list: seq<Item>, i: int): (r: Option<Item>)
    ensures r.Some? <==> 0 <= i < |list|
    ensures r.Some? ==> r.value == list[i]
  {
    if 0 <= i < |list| then Some(list[i]) else None
  }

  function Clamp(x: int, n: nat): (c: nat)
    ensures c <= n
  {
    if x < 0 then 0 else if x > n then n else x
  }

  /** The items present at the indices `lo`, ..., `hi - 1`, in order (`WindowIsSlice`: a slice of the list). */
  function Window(list: seq<Item>, lo: int, hi: int): seq<Item>
    decreases hi - lo
  {
    if hi <= lo then [] else Window(list, lo, hi - 1) + (if 0 <= hi - 1 < |list| then [list[hi - 1]] else [])
  }

  /** Since the list has no holes, the items present in a range are one contiguous slice. */
  lemma {:induction false} WindowIsSlice(list: seq<Item>, lo: int, hi: int)
    requires lo <= hi
    ensures Window(list, lo, hi) == list[Clamp(lo, |list|)..Clamp(hi, |list|)]
    decreases hi - lo
  {
    if lo < hi {
      WindowIsSlice(list, lo, hi - 1);
      if 0 <= hi - 1 < |list| {
        assert list[Clamp(lo, |list|)..hi] == list[Clamp(lo, |list|)..hi - 1] + [list[hi - 1]];
      }
    }
  }

  /** The range `lo .. hi` is empty or lies inside the list: no index in it is missing (`CoveredMeans`). */
  predicate Covered(list: seq<Item>, lo: int, hi: int)
  {
    hi <= lo || (0 <= lo && hi <= |list|)
  }

  /** Adjacent windows join without gap or overlap. */
  lemma {:induction false} WindowConcat(list: seq<Item>, a: int, b: int, c: int)
    requires a <= b <= c
    ensures Window(list, a, b) + Window(list, b, c) == Window(list, a, c)
    decreases c - b
  {
    if b < c {
      WindowConcat(list, a, b, c - 1);
      var last := if 0 <= c - 1 < |list| then [list[c - 1]] else [];
      assert Window(list, a, b) + (Window(list, b, c - 1) + last) == (Window(list, a, b) + Window(list, b, c - 1)) + last;
    }
  }

  /** A range is covered exactly when `getOrNull` finds an item at every index of it. */
  lemma CoveredMeans(list: seq<Item>, lo: int, hi: int)
    ensures Covered(list, lo, hi) <==> forall j :: lo <= j < hi ==> GetOrNull(list, j).Some?
  {
    if !Covered(list, lo, hi) {
      var j := if lo < 0 then lo else hi - 1;
      assert GetOrNull(list, j).None?;
    }
  }

  // ---------------------------------------------------------------------------
  // Key arithmetic
  // ---------------------------------------------------------------------------

  /**
   * The previous page's key for a request at `key` spanning `size` items
   * backwards: absent at the very start, otherwise a non-negative key below
   * `key` at most `size` back.
   */
  function PrevKey(key: int, size: int): (r: Option<int>)
    ensures r.Some? ==> r.value >= 0
    ensures 0 <= key && 0 < size ==> (r.None? <==> key == 0)
    ensures 0 <= key && 0 < size && r.Some? ==> 0 <= r.value < key && key - r.value <= size
    ensures 0 <= key && 0 < size && r.Some? && r.value > 0 ==> key - r.value == size
  {
    if key >= size then Some(key - size) else if key == 0 then None else Some(0)
  }

  /** Kotlin's `n / 2` on Int: the quotient rounded toward zero. */
  function Half(n: int): (h: int)
    ensures n >= 0 ==> 0 <= n - 2 * h <= 1
    ensures n < 0 ==> 0 <= 2 * h - n <= 1
  {
    if n >= 0 then n / 2 else -((-n) / 2)
  }

  // ---------------------------------------------------------------------------
  // Reference definitions of the three request kinds
  // ---------------------------------------------------------------------------

  /** Append at `key`: the window `key .. key+loadSize`, truncated to the items present. */
  function AppendPage(list: seq<Item>, key: int, loadSize: int): Page
  {
    var data := Window(list, key, key + loadSize);
    Page(data, PrevKey(key, loadSize),
         if Covered(list, key, key + loadSize) then Some(key + |data|) else None)
  }

  /** Prepend at `key`: the run of present items from the previous key up to `key`; the next key is always `key`. */
  function PrependPage(list: seq<Item>, key: int, loadSize: int): (page: Page)
    ensures page.nextKey == Some(key)
  {
    var prevKey := PrevKey(key, loadSize);
    var start := prevKey.GetOr(0);
    Page(Window(list, start, key), prevKey, Some(key))
  }

  /** Refresh at `key`: half the load size on either side of `key`, clamped at 0. */
  function RefreshPage(list: seq<Item>, key: int, loadSize: int): Page
  {
    var half := Half(loadSize);
    var start := if key - half < 0 then 0 else key - half;
    Page(Window(list, start, key + half), PrevKey(key, half),
         if Covered(list, start, key + half) then Some(key + half) else None)
  }

  /** A request's page: an absent key reads as 0. */
  function LoadPage(list: seq<Item>, params: LoadParams): Page
  {
    var key := params.key.GetOr(0);
    match params
    case Append(_, loadSize) => AppendPage(list, key, loadSize)
    case Prepend(_, loadSize) => PrependPage(list, key, loadSize)
    case Refresh(_, loadSize) => RefreshPage(list, key, loadSize)
  }

  // ---------------------------------------------------------------------------
  // Source.load
  // ---------------------------------------------------------------------------

  /**
   * The scan shared by Append and Refresh: visits `lo`, ..., `hi - 1`, keeps
   * every present item and notes whether any index was missing.
   */
  method ScanWindow(list: seq<Item>, lo: int, hi: int) returns (newList: seq<Item>, noMoreDataInLocal: bool)
    ensures newList == Window(list, lo, hi)
    ensures lo <= hi ==> newList == list[Clamp(lo, |list|)..Clamp(hi, |list|)]
    ensures noMoreDataInLocal <==> !Covered(list, lo, hi)
  {
    newList := [];
    noMoreDataInLocal := false;
    var i := lo;
    while i < hi
      invariant i == lo || lo <= i <= hi
      invariant newList == Window(list, lo, i)
      invariant noMoreDataInLocal <==> !Covered(list, lo, i)
    {
      var v := GetOrNull(list, i);
      if v.None? {
        noMoreDataInLocal := true;
      } else {
        newList := newList + [v.value];
      }
      i := i + 1;
    }
    if lo <= hi {
      WindowIsSlice(list, lo, hi);
    }
  }

  method LoadAppend(list: seq<Item>, key: int, loadSize: int) returns (page: Page)
    ensures page == AppendPage(list, key, loadSize)
  {
    var prevKey := PrevKey(key, loadSize);
    var newList, noMoreDataInLocal := ScanWindow(list, key, key + loadSize);
    if noMoreDataInLocal {
      page := Page(newList, prevKey, None);
    } else {
      page := Page(newList, prevKey, Some(key + |newList|));
    }
  }

  method LoadPrepend(list: seq<Item>, key: int, loadSize: int) returns (page: Page)
    ensures page == PrependPage(list, key, loadSize)
  {
    var prevKey := PrevKey(key, loadSize);
    var start := prevKey.GetOr(0);
    var newList: seq<Item> := [];
    var i := start;
    while i < key
      invariant i == start || start <= i <= key
      invariant i > start ==> 0 <= start && i <= |list|
      invariant newList == Window(list, start, i)
    {
      var v := GetOrNull(list, i);
      if v.None? {
        break;
      }
      newList := newList + [v.value];
      i := i + 1;
    }
    if 0 <= start && i < key {
      // the scan stopped at the first missing index, past the end of the list
      WindowConcat(list, start, i, key);
      WindowIsSlice(list, i, key);
    }
    page := Page(newList, prevKey, Some(key));
  }

  method LoadRefresh(list: seq<Item>, key: int, loadSize: int) returns (page: Page)
    ensures page == RefreshPage(list, key, loadSize)
  {
    var halfLoadSize := Half(loadSize);
    var prevKey := PrevKey(key, halfLoadSize);
    var startFrom := if key - halfLoadSize < 0 then 0 else key - halfLoadSize;
    var newList, noMoreDataInLocal := ScanWindow(list, startFrom, key + halfLoadSize);
    if noMoreDataInLocal {
      page := Page(newList, prevKey, None);
    } else {
      page := Page(newList, prevKey, Some(key + halfLoadSize));
    }
  }

  /** `Source.load(params)`: dispatches on the request kind, reading an absent key as 0. */
  method Load(list: seq<Item>, params: LoadParams) returns (page: Page)
    ensures page == LoadPage(list, params)
  {
    var key := params.key.GetOr(0);
    match params
    case Append(_, loadSize) => page := LoadAppend(list, key, loadSize);
    case Prepend(_, loadSize) => page := LoadPrepend(list, key, loadSize);
    case Refresh(_, loadSize) => page := LoadRefresh(list, key, loadSize);
  }

  // ---------------------------------------------------------------------------
  // Source.getRefreshKey
  // ---------------------------------------------------------------------------

  /**
   * `getRefreshKey(state)`: the integer parsed from the id of the item closest
   * to the anchor; nothing when there is no anchor or no such item. The
   * paging state is given by its anchor and its closest-item resolver.
   */
  function GetRefreshKey(anchorPosition: Option<int>, closestItemToPosition: int -> Option<Item>): (r: Option<int>)
    requires anchorPosition.Some? && closestItemToPosition(anchorPosition.value).Some?
             ==> ParseInt(closestItemToPosition(anchorPosition.value).value.id).Some?
    ensures r.None? <==> anchorPosition.None? || closestItemToPosition(anchorPosition.value).None?
    ensures r.Some? ==> Some(r.value) == ParseInt(closestItemToPosition(anchorPosition.value).value.id)
  {
    match anchorPosition
    case None => None
    case Some(anchor) =>
      match closestItemToPosition(anchor)
      case None => None
      case Some(item) => ParseInt(item.id)
  }

  // ---------------------------------------------------------------------------
  // Properties of the pages
  // ---------------------------------------------------------------------------

  /** An Append window that fits returns exactly `loadSize` items from `key`; the next page starts right after. */
  lemma AppendFullWindow(list: seq<Item>, key: int, loadSize: int)
    requires 0 <= key && 0 <= loadSize && key + loadSize <= |list|
    ensures AppendPage(list, key, loadSize)
         == Page(list[key..key + loadSize], PrevKey(key, loadSize), Some(key + loadSize))
  {
    WindowIsSlice(list, key, key + loadSize);
  }

  /** An Append window that runs past the end returns the items that are there, and no next key. */
  lemma AppendPastEnd(list: seq<Item>, key: int, loadSize: int)
    requires 0 <= key && 0 < loadSize && key + loadSize > |list|
    ensures AppendPage(list, key, loadSize).nextKey == None
    ensures AppendPage(list, key, loadSize).data == if key < |list| then list[key..] else []
    ensures |AppendPage(list, key, loadSize).data| == if key < |list| then |list| - key else 0
  {
    WindowIsSlice(list, key, key + loadSize);
  }

  /**
   * A Prepend at `key` always names `key` as the next page, and returns the
   * items from its previous key (at most `loadSize` back) up to `key` that
   * exist; at key 0 it is the empty page with no previous key.
   */
  lemma PrependWindow(list: seq<Item>, key: int, loadSize: int)
    requires 0 <= key && 0 < loadSize
    ensures PrependPage(list, key, loadSize).nextKey == Some(key)
    ensures PrependPage(list, key, loadSize).prevKey.GetOr(0) <= key
    ensures key - PrependPage(list, key, loadSize).prevKey.GetOr(0) <= loadSize
    ensures PrependPage(list, key, loadSize).data
         == list[Clamp(PrependPage(list, key, loadSize).prevKey.GetOr(0), |list|)..Clamp(key, |list|)]
    ensures key == 0 ==> PrependPage(list, key, loadSize) == Page([], None, Some(0))
  {
    var start := PrevKey(key, loadSize).GetOr(0);
    if start <= key {
      WindowIsSlice(list, start, key);
    }
  }

  function Sum(sizes: seq<nat>): nat
  {
    if sizes == [] then 0 else sizes[0] + Sum(sizes[1..])
  }

  /**
   * Scrolling forward: Appends of the given sizes, each at the previous
   * page's next key, stopping at the first page that reports exhaustion.
   * `ScrollItems` gives the items read, `ScrollNextKey` the last next key.
   */
  function ScrollItems(list: seq<Item>, key: int, sizes: seq<nat>): seq<Item>
    decreases |sizes|
  {
    if sizes == [] then []
    else
      var page := AppendPage(list, key, sizes[0]);
      match page.nextKey
      case None => page.data
      case Some(next) => page.data + ScrollItems(list, next, sizes[1..])
  }

  function ScrollNextKey(list: seq<Item>, key: int, sizes: seq<nat>): Option<int>
    decreases |sizes|
  {
    if sizes == [] then Some(key)
    else
      match AppendPage(list, key, sizes[0]).nextKey
      case None => None
      case Some(next) => ScrollNextKey(list, next, sizes[1..])
  }

  /**
   * Tiling: consecutive Appends read one contiguous slice from the starting
   * key up to `hi`, the end of their combined window, with no gap, overlap
   * or duplicate.
   */
  lemma {:induction false} ScrollItemsTile(list: seq<Item>, key: int, sizes: seq<nat>, hi: int)
    requires 0 <= key <= |list| && hi == key + Sum(sizes)
    ensures ScrollItems(list, key, sizes) == Window(list, key, hi)
    decreases |sizes|
  {
    if sizes != [] {
      var size, rest := sizes[0], sizes[1..];
      if key + size <= |list| {
        ScrollItemsStep(list, key, sizes);
        ScrollItemsTile(list, key + size, rest, hi);
        WindowExtend(list, key, key + size, hi, ScrollItems(list, key + size, rest));
      } else {
        ScrollItemsLast(list, key, sizes);
        WindowPastEnd(list, key, key + size, hi);
      }
    }
  }

  /** A full first page is followed by the scroll from its end. */
  lemma ScrollItemsStep(list: seq<Item>, key: int, sizes: seq<nat>)
    requires sizes != [] && 0 <= key && key + sizes[0] <= |list|
    ensures ScrollItems(list, key, sizes) == list[key..key + sizes[0]] + ScrollItems(list, key + sizes[0], sizes[1..])
  {
    AppendFullWindow(list, key, sizes[0]);
  }

  /** A first page that runs past the end is the whole scroll: the rest of the list. */
  lemma ScrollItemsLast(list: seq<Item>, key: int, sizes: seq<nat>)
    requires sizes != [] && 0 <= key <= |list| < key + sizes[0]
    ensures ScrollItems(list, key, sizes) == list[key..]
  {
    AppendFullWindowOrLast(list, key, sizes[0]);
  }

  /** The scroll reports exhaustion exactly when the combined window runs past the end of the list. */
  lemma {:induction false} ScrollNextKeyEnd(list: seq<Item>, key: int, sizes: seq<nat>, hi: int)
    requires 0 <= key <= |list| && hi == key + Sum(sizes)
    ensures ScrollNextKey(list, key, sizes) == if hi <= |list| then Some(hi) else None
    decreases |sizes|
  {
    if sizes != [] {
      AppendFullWindowOrLast(list, key, sizes[0]);
      if key + sizes[0] <= |list| {
        ScrollNextKeyEnd(list, key + sizes[0], sizes[1..], hi);
      }
    }
  }

  /** One Append page from a key inside the list: the full window, or the rest of the list and no next key. */
  lemma AppendFullWindowOrLast(list: seq<Item>, key: int, size: nat)
    requires 0 <= key <= |list|
    ensures key + size <= |list| ==>
              AppendPage(list, key, size).data == list[key..key + size] && AppendPage(list, key, size).nextKey == Some(key + size)
    ensures key + size > |list| ==>
              AppendPage(list, key, size).data == list[key..] && AppendPage(list, key, size).nextKey == None
  {
    if key + size <= |list| {
      AppendFullWindow(list, key, size);
    } else {
      AppendPastEnd(list, key, size);
    }
  }

  /** A slice inside the list followed by the adjacent window is one window. */
  lemma WindowExtend(list: seq<Item>, lo: int, mid: int, hi: int, tail: seq<Item>)
    requires 0 <= lo <= mid <= |list| && mid <= hi
    requires tail == Window(list, mid, hi)
    ensures list[lo..mid] + tail == Window(list, lo, hi)
  {
    WindowIsSlice(list, lo, mid);
    WindowConcat(list, lo, mid, hi);
  }

  lemma WindowPastEnd(list: seq<Item>, lo: int, a: int, b: int)
    requires 0 <= lo <= |list| < a <= b
    ensures Window(list, lo, a) == Window(list, lo, b) == list[lo..]
  {
    WindowIsSlice(list, lo, a);
    WindowIsSlice(list, lo, b);
  }

  /** A Prepend page followed by the Append at its next key: neither gap nor overlap. */
  lemma PrependThenAppend(list: seq<Item>, key: int, prependSize: int, appendSize: int)
    requires 0 <= key && 0 <= prependSize && 0 <= appendSize
    ensures PrependPage(list, key, prependSize).nextKey == Some(key)
    ensures PrependPage(list, key, prependSize).data + AppendPage(list, key, appendSize).data
         == Window(list, PrependPage(list, key, prependSize).prevKey.GetOr(0), key + appendSize)
  {
    WindowConcat(list, PrependPage(list, key, prependSize).prevKey.GetOr(0), key, key + appendSize);
  }

  /** Two Prepends in a row, the second at the first one's previous key, join into one slice. */
  lemma PrependTiles(list: seq<Item>, key: int, loadSize: int)
    requires 0 <= key && 0 < loadSize && PrevKey(key, loadSize).Some?
    ensures PrependPage(list, PrevKey(key, loadSize).value, loadSize).nextKey == PrevKey(key, loadSize)
    ensures PrependPage(list, PrevKey(key, loadSize).value, loadSize).data + PrependPage(list, key, loadSize).data
         == Window(list, PrependPage(list, PrevKey(key, loadSize).value, loadSize).prevKey.GetOr(0), key)
  {
    var p := PrevKey(key, loadSize).value;
    WindowConcat(list, PrependPage(list, p, loadSize).prevKey.GetOr(0), p, key);
  }

  /**
   * Refresh reads `loadSize / 2` items on each side of `key` (clamped at 0);
   * the next key is `key + loadSize / 2` unless that runs past the end; the
   * previous key is `key - loadSize / 2`, or 0 near the start, or absent at 0.
   */
  lemma RefreshWindow(list: seq<Item>, key: int, loadSize: int)
    requires 0 <= key && 2 <= loadSize
    ensures Half(loadSize) == loadSize / 2
    ensures RefreshPage(list, key, loadSize).data
         == list[Clamp(key - loadSize / 2, |list|)..Clamp(key + loadSize / 2, |list|)]
    ensures RefreshPage(list, key, loadSize).nextKey
         == if key + loadSize / 2 <= |list| then Some(key + loadSize / 2) else None
    ensures RefreshPage(list, key, loadSize).prevKey
         == if key >= loadSize / 2 then Some(key - loadSize / 2) else if key == 0 then None else Some(0)
  {
    WindowIsSlice(list, if key - Half(loadSize) < 0 then 0 else key - Half(loadSize), key + Half(loadSize));
  }

  /** Refresh with enough data on both sides of `key` is centred on it. */
  lemma RefreshCentered(list: seq<Item>, key: int, loadSize: int)
    requires 2 <= loadSize && loadSize / 2 <= key && key + loadSize / 2 <= |list|
    ensures RefreshPage(list, key, loadSize)
         == Page(list[key - loadSize / 2..key + loadSize / 2], Some(key - loadSize / 2), Some(key + loadSize / 2))
  {
    RefreshWindow(list, key, loadSize);
  }

  /** The first load (Refresh with no key) reads only the first half of the load size. */
  lemma RefreshFromStart(list: seq<Item>, loadSize: int)
    requires 2 <= loadSize && loadSize / 2 <= |list|
    ensures LoadPage(list, Refresh(None, loadSize)) == Page(list[..loadSize / 2], None, Some(loadSize / 2))
  {
    RefreshWindow(list, 0, loadSize);
  }

  /**
   * On a list whose ids are their indices, the refresh key recomputed from an
   * anchor whose closest item is `list[k]` is `k`, and the Refresh page read
   * from it still shows that item.
   */
  lemma RefreshKeepsAnchorVisible(list: seq<Item>, anchor: int, closest: int -> Option<Item>, k: nat, loadSize: int)
    requires IdsMatchIndices(list) && k < |list| && closest(anchor) == Some(list[k])
    requires 2 <= loadSize
    ensures GetRefreshKey(Some(anchor), closest) == Some(k)
    ensures list[k] in LoadPage(list, Refresh(Some(k), loadSize)).data
  {
    IdsAreKeys(list, k, k);
    RefreshWindow(list, k, loadSize);
    var data := LoadPage(list, Refresh(Some(k), loadSize)).data;
    var lo := Clamp(k - loadSize / 2, |list|);
    assert data[k - lo] == list[k];
  }
}
