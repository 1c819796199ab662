/**
 * The paging cycle of the app stated in the model with its own
 * configuration (every Refresh with the initial load size 50, Append and
 * Prepend with the page size 20): the first load, the exhaustion of local
 * data, the remote fetch, the invalidation and the refresh that follows.
 */
module Scenarios {
  import opened Wrappers
  import opened Items
  import P = PageSource
  import M = Mediation

  /** The first load (Refresh, no key, load size 50) reads items 0..24 and names 25 as the next key. */
  lemma FirstLoad(list: seq<Item>)
    requires list == M.InitialItems()
    ensures P.LoadPage(list, P.Refresh(None, 50))
         == P.Page(list[..25], None, Some(25))
  {
    P.RefreshFromStart(list, 50);
  }

  /** An Append of 20 at key 50 finds only item 50 and reports exhaustion. */
  lemma AppendAtEndOfLocalData()
    ensures P.LoadPage(M.InitialItems(), P.Append(Some(50), 20))
         == P.Page([M.LocalItem(50)], Some(30), None)
  {
    P.AppendPastEnd(M.InitialItems(), 50, 20);
  }

  /**
   * After one remote fetch the list holds 72 items with ids equal to their
   * indices; an anchor resolving to item "60" gives key 60, and the Refresh
   * that follows (load size 50, as every Refresh in the app) reads items
   * 35..71 and again reports that local data ran out.
   */
  lemma RefreshAfterFetch(grown: seq<Item>, anchor: int, closest: int -> Option<Item>)
    requires grown == M.InitialItems() + RemoteBatch(M.InitialSize)
    requires closest(anchor) == Some(grown[60])
    ensures |grown| == 72
    ensures P.GetRefreshKey(Some(anchor), closest) == Some(60)
    ensures P.LoadPage(grown, P.Refresh(Some(60), 50)) == P.Page(grown[35..], Some(35), None)
  {
    AppendBatchKeepsIds(M.InitialItems());
    P.RefreshKeepsAnchorVisible(grown, anchor, closest, 60, 50);
    P.RefreshWindow(grown, 60, 50);
    assert P.LoadPage(grown, P.Refresh(Some(60), 50)) == P.RefreshPage(grown, 60, 50);
  }

  /** A Prepend at key 0 is the empty page with no previous key and next key 0, whatever the list. */
  lemma PrependAtStart(list: seq<Item>)
    ensures P.LoadPage(list, P.Prepend(Some(0), 20)) == P.Page([], None, Some(0))
  {
    P.PrependWindow(list, 0, 20);
  }

  /**
   * Notifying twice with callbacks that register nothing: the first pass
   * invokes every registered listener once, the second invokes none.
   */
  method NotifyTwice(mediator: M.Mediator, onFire: M.ListenerId -> seq<M.ListenerId>)
    returns (first: seq<M.ListenerId>, second: seq<M.ListenerId>)
    requires forall l :: onFire(l) == []
    modifies mediator
    ensures first == old(mediator.listeners) && second == [] && mediator.listeners == []
  {
    first := mediator.NotifyListeners(onFire);
    M.SilentPassLeavesNothing(first, onFire);
    second := mediator.NotifyListeners(onFire);
  }

  /** The whole cycle on the objects: store, mediator, source loads and one fetch. */
  method PagingCycle()
  {
    var store := new M.LocalStore();
    var mediator := new M.Mediator(store);
    mediator.AddListener(1);

    var first := P.Load(store.items, P.Refresh(None, 50));
    FirstLoad(store.items);
    assert first.nextKey == Some(25);

    var last := P.Load(store.items, P.Append(Some(50), 20));
    AppendAtEndOfLocalData();
    assert last.data == [M.LocalItem(50)] && last.nextKey == None;

    var result, fired := mediator.Load(M.Append, l => if l == 1 then [2] else []);
    assert result == M.Success(false);
    assert fired == [1];
    assert mediator.listeners == [2];
    assert |store.items| == 72;

    var next := P.Load(store.items, P.Append(Some(50), 20));
    P.AppendFullWindow(store.items, 50, 20);
    assert next == P.Page(store.items[50..70], Some(30), Some(70));
  }
}
