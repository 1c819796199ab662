# Remote-mediator paging engine, in Dafny

A model of the paging core of the RemoteMediator sample app. A shared,
append-only list of items (`MainRepository.list`) is read in windows by a page
source (`MainRepository.Source`). When the source reports that local data ran
out, a remote mediator (`MainRepository.Mediator`) appends a generated batch
(`ItemGenerator.getRemoteData`). It then fires single-shot listeners that
invalidate the current source. After that, the next source resumes from a key
recomputed from the anchor item's id.

Files:

- `wrappers.dfy`: `Option`, standing for Kotlin's nullable types.
- `items.dfy` (module `Items`): the `Item` record; `Int.toString` and
  `String.toInt` written out on decimal digits, with their round trip; the
  remote batch generator as a loop; and the invariant that the item at index
  `j` has id `"j"`.
- `source.dfy` (module `PageSource`): load requests and pages. Append, Prepend
  and Refresh each have a reference definition on windows of the list: the
  items `getOrNull` finds at each index of a range, in order. Because the
  list has no holes, a window is one slice of the list. The
  loop methods that do what `Source.load` does are proved to meet those
  definitions. The file also holds `getRefreshKey`, and lemmas for the exact
  windows, the keys, tiling of consecutive pages and refresh centring.
- `mediator.dfy` (module `Mediation`): the initial 51-item list, the store
  object holding the list, and the `Mediator` class. The class has its
  listener registry (`addListener`, `removeListener`, `notifyListeners`) and
  its three-way `load`.
- `scenarios.dfy` (module `Scenarios`): the app's own cycle, as lemmas and a
  client method. Every Refresh uses the initial load size 50; Append and
  Prepend use the page size 20.

Modelling choices:

- The list is a `seq<Item>` field of a `LocalStore` object. The mediator
  holds a reference to it instead of reaching a global. `Source.load` reads
  the list's current value. Each call is atomic.
- A listener is an identifier. What a callback does when invoked is a
  parameter `onFire: ListenerId -> seq<ListenerId>`: the listeners the
  callback registers while it runs. The app's callback calls
  `source.invalidate()`, and it is the paging library that later builds a new
  source and registers a new listener.
- `PagingState` becomes its anchor position plus a closest-item resolver
  (`int -> Option<Item>`), both parameters of `GetRefreshKey`.
- Kotlin's `/` truncates toward zero, so `loadSize / 2` is `Half`, written
  out for negative sizes.
- Behaviours of the code that the model keeps as written:
  - A Refresh reads `loadSize / 2` items on each side of the key, with the
    start clamped at 0 (MainRepository.kt:154-160). So the first load (no
    key, load size 50) returns items 0..24 with next key 25
    (`Scenarios.FirstLoad`).
  - Append and Refresh skip a missing index and go on scanning; any missing
    index makes the next key absent (MainRepository.kt:116-124 and 160-167).
    On a list without holes the items read are one slice
    (`PageSource.WindowIsSlice`, `PageSource.AppendPastEnd`).
  - Prepend scans forward from the previous key up to the key and stops at
    the first missing index (MainRepository.kt:138-141).
  - The mediator always returns `Success`: the generator has no failure
    path (MainRepository.kt:25-54, Item.kt:11-23).

## Model

| member | source | states |
|---|---|---|
| `Items.NatToString` | app/src/main/java/com/ohyeah5566/remotemediator/Item.kt:14-16 | an id written by the `"$n"` template is a non-empty string of decimal digits without a leading zero |
| `Items.ParseIntOfIntToString` | app/src/main/java/com/ohyeah5566/remotemediator/MainRepository.kt:94 | `toInt()` on the id written for `n` gives back `n`, for every integer |
| `Items.IntToStringInjective` | app/src/main/java/com/ohyeah5566/remotemediator/Item.kt:16 | two positions with the same id are the same position |
| `Items.IdsAreKeys` | app/src/main/java/com/ohyeah5566/remotemediator/MainRepository.kt:92-95 | on a list whose ids are their indices, the parsed id of item `i` is `i`, and items at different positions differ |
| `Items.GetRemoteData` | app/src/main/java/com/ohyeah5566/remotemediator/Item.kt:11-23 | the loop builds exactly the batch whose `i`-th item is the generated item for position `startIndex + i` |
| `Items.RemoteBatchShape` | app/src/main/java/com/ohyeah5566/remotemediator/Item.kt:13-18 | a batch has 21 items; every item `k` has an id parsing to `start + k`, the name `"remote data"` followed by its id and the description `"desc"`; no two items are equal |
| `Items.AppendBatchKeepsIds` | app/src/main/java/com/ohyeah5566/remotemediator/MainRepository.kt:48 | appending the batch generated at the current size keeps every id equal to its index |
| `PageSource.PrevKey` | app/src/main/java/com/ohyeah5566/remotemediator/MainRepository.kt:114 | for a non-negative key and positive span, the previous key is absent exactly at key 0. Otherwise it is a non-negative key below the key, at most the span back, and exactly the span back unless it is 0 |
| `PageSource.Half` | app/src/main/java/com/ohyeah5566/remotemediator/MainRepository.kt:154 | `loadSize / 2` rounds toward zero, for negative sizes too |
| `PageSource.ScanWindow` | app/src/main/java/com/ohyeah5566/remotemediator/MainRepository.kt:116-120 | the scan through `getOrNull` returns exactly the slice of present items in the range. It flags exhaustion exactly when some index of the range is missing |
| `PageSource.LoadAppend` | app/src/main/java/com/ohyeah5566/remotemediator/MainRepository.kt:109-129 | the Append branch returns the reference page: the window from the key, the previous key, and a next key of key plus items read, or none when exhausted |
| `PageSource.LoadPrepend` | app/src/main/java/com/ohyeah5566/remotemediator/MainRepository.kt:130-144 | the Prepend branch, with its early `break`, returns the reference page: the run of present items from the previous key up to the key, with next key equal to the key |
| `PageSource.LoadRefresh` | app/src/main/java/com/ohyeah5566/remotemediator/MainRepository.kt:145-172 | the Refresh branch returns the reference page: half the load size on each side of the key, start clamped at 0, and next key `key + half` or none when exhausted |
| `PageSource.Load` | app/src/main/java/com/ohyeah5566/remotemediator/MainRepository.kt:103-108 | `load` answers each request kind with its reference page, reading an absent key as 0 |
| `PageSource.GetRefreshKey` | app/src/main/java/com/ohyeah5566/remotemediator/MainRepository.kt:84-96 | no key exactly when there is no anchor or no closest item. Otherwise the integer parsed from that item's id |
| `PageSource.WindowIsSlice` | app/src/main/java/com/ohyeah5566/remotemediator/MainRepository.kt:116-120 | the items found index by index over a range form the contiguous slice `list[max(lo,0)..min(hi,size)]`, since the list has no holes |
| `PageSource.CoveredMeans` | app/src/main/java/com/ohyeah5566/remotemediator/MainRepository.kt:117-118 | a scanned range has no missing index exactly when it is empty or lies inside `0..size` |
| `PageSource.WindowConcat` | app/src/main/java/com/ohyeah5566/remotemediator/MainRepository.kt:116-120 | windows over adjacent ranges join into the window over their union |
| `PageSource.AppendFullWindow` | app/src/main/java/com/ohyeah5566/remotemediator/MainRepository.kt:116-127 | an Append window inside the list returns exactly `list[key..key+loadSize]` with next key `key + loadSize` |
| `PageSource.AppendPastEnd` | app/src/main/java/com/ohyeah5566/remotemediator/MainRepository.kt:116-124 | an Append window running past the end returns the items from the key to the end, in order, `max(0, size - key)` of them, and no next key |
| `PageSource.PrependWindow` | app/src/main/java/com/ohyeah5566/remotemediator/MainRepository.kt:135-143 | a Prepend names the key itself as the next key. Its items are the present part of `list[prevKey..key]`, at most `loadSize` back. At key 0 it is the empty page with no previous key and next key 0 |
| `PageSource.ScrollItemsTile` | app/src/main/java/com/ohyeah5566/remotemediator/MainRepository.kt:116-127 | consecutive Appends, each at the previous next key, read one contiguous window from the first key to the end of their combined range, with no gap and no overlap |
| `PageSource.ScrollNextKeyEnd` | app/src/main/java/com/ohyeah5566/remotemediator/MainRepository.kt:121-127 | consecutive Appends end with next key equal to the end of their combined range when it fits in the list, and report exhaustion exactly when it passes the end |
| `PageSource.PrependThenAppend` | app/src/main/java/com/ohyeah5566/remotemediator/MainRepository.kt:138-143 | a Prepend page followed by the Append at its next key is one contiguous slice |
| `PageSource.PrependTiles` | app/src/main/java/com/ohyeah5566/remotemediator/MainRepository.kt:135-143 | a Prepend at a page's previous key ends where that page begins. Together they form one slice |
| `PageSource.RefreshWindow` | app/src/main/java/com/ohyeah5566/remotemediator/MainRepository.kt:154-171 | a Refresh reads `list[max(key-half,0) .. key+half]` as far as present. The next key is `key + half` unless that passes the end. The previous key is `key - half`, 0 near the start, or none at 0 |
| `PageSource.RefreshCentered` | app/src/main/java/com/ohyeah5566/remotemediator/MainRepository.kt:157-170 | with enough data on both sides, a Refresh returns exactly `list[key-half..key+half]` with keys `key - half` and `key + half` |
| `PageSource.RefreshFromStart` | app/src/main/java/com/ohyeah5566/remotemediator/MainRepository.kt:105-106 | a Refresh with no key reads `list[..loadSize/2]`, with no previous key and next key `loadSize / 2` |
| `PageSource.RefreshKeepsAnchorVisible` | app/src/main/java/com/ohyeah5566/remotemediator/MainRepository.kt:92-95 | on a list whose ids are their indices, the refresh key from an anchor whose closest item is `list[k]` is `k`, and the Refresh page at `k` still contains that item |
| `Mediation.InitialList` | app/src/main/java/com/ohyeah5566/remotemediator/MainRepository.kt:10-20 | the initialiser builds 51 items; item `i` has id `"i"`, name `"local data i"` and description `"desc"`, so ids equal indices |
| `Mediation.LocalStore.constructor` | app/src/main/java/com/ohyeah5566/remotemediator/MainRepository.kt:8-21 | the shared list starts with the 51 initial items |
| `Mediation.RemoveFirst` | app/src/main/java/com/ohyeah5566/remotemediator/MainRepository.kt:64-66 | `remove` drops one occurrence of a present listener, the head one when it is first. It leaves a list without it unchanged |
| `Mediation.RegisteredDuringMembers` | app/src/main/java/com/ohyeah5566/remotemediator/MainRepository.kt:69-74 | after a pass, a listener is registered exactly when one of the pass's callbacks registered it |
| `Mediation.SilentPassLeavesNothing` | app/src/main/java/com/ohyeah5566/remotemediator/MainRepository.kt:68-74 | when the callbacks register nothing, a pass leaves no listener, so the next pass invokes none |
| `Mediation.Mediator.constructor` | app/src/main/java/com/ohyeah5566/remotemediator/MainRepository.kt:59 | a new mediator shares the given list and has no listeners |
| `Mediation.Mediator.AddListener` | app/src/main/java/com/ohyeah5566/remotemediator/MainRepository.kt:60-62 | the listener is added at the end of the registry |
| `Mediation.Mediator.RemoveListener` | app/src/main/java/com/ohyeah5566/remotemediator/MainRepository.kt:64-66 | the registry loses one occurrence of the listener, if it has one |
| `Mediation.Mediator.NotifyListeners` | app/src/main/java/com/ohyeah5566/remotemediator/MainRepository.kt:69-74 | invokes exactly the listeners registered on entry, in order, each once. Afterwards exactly the listeners that those callbacks registered remain, in the order registered |
| `Mediation.Mediator.Load` | app/src/main/java/com/ohyeah5566/remotemediator/MainRepository.kt:25-54 | REFRESH: success, not at end, nothing changed. PREPEND: end of pagination, nothing changed. APPEND: the list grows by exactly the batch generated at its old size, the old prefix is kept, listeners are notified once, success, not at end. Ids stay equal to indices |
| `Scenarios.FirstLoad` | app/src/main/java/com/ohyeah5566/remotemediator/MainViewModel.kt:22 | the first load with initial load size 50 returns items 0..24, no previous key, next key 25 |
| `Scenarios.AppendAtEndOfLocalData` | app/src/main/java/com/ohyeah5566/remotemediator/MainViewModel.kt:24 | an Append of one page (20) at key 50 of the initial list returns only item 50, previous key 30 and no next key |
| `Scenarios.RefreshAfterFetch` | app/src/main/java/com/ohyeah5566/remotemediator/MainRepository.kt:48-50 | after one fetch the list has 72 items. Anchoring on item `"60"` gives key 60, and the Refresh that follows, with load size 50, reads items 35..71 with previous key 35 and no next key: local data runs out again |
| `Scenarios.PrependAtStart` | app/src/main/java/com/ohyeah5566/remotemediator/MainRepository.kt:135-143 | a Prepend at key 0 is the empty page with no previous key and next key 0, on any list |
| `Scenarios.NotifyTwice` | app/src/main/java/com/ohyeah5566/remotemediator/MainRepository.kt:69-74 | two notifications with callbacks that register nothing: the first invokes every registered listener once, the second invokes none |

## Left out

- `Log.d` calls: diagnostic output only.
- `delay(1000)` and the `suspend` modifiers: coroutine timing. Every load is one atomic, sequential step.
- Concurrency between the mediator's append and reads of the list. Each call reads or updates the list as one step.
- The paging library: `Pager`, `PagingConfig`, `cachedIn`, `invalidate()` and how `closestItemToPosition` finds an item. The library code is not part of this model. The anchor and resolver are parameters. A callback's effect is the `onFire` parameter.
- `PageSource.GetRefreshKey` requires that the resolved item's id parse as an integer: `toInt()` throws on a non-numeric id, and the exception is library behaviour. On the list the mediator keeps, every id parses (`Items.IdsAreKeys`).
- 32-bit `Int` arithmetic: `key + loadSize`, `startIndex + i` and `toInt()` overflow are not modelled. Keys are unbounded integers.
- `String.toInt()` also accepts non-ASCII Unicode decimal digits. The model accepts ASCII `0`-`9` only.
- `LoadResult.Error`, `LoadResult.Invalid` and `MediatorResult.Error`: the code never produces them. The generator cannot fail, so there is no failed fetch to model.
- `Mediation.RemoveFirst`: its contract states which occurrence goes only when the listener is at the head, the case `notifyListeners` uses. Elsewhere it states one occurrence by multiset count.
- MainActivity.kt: UI code. MainViewModel.kt only wires the pager, and its sizes 50 and 20 appear in `Scenarios`.
