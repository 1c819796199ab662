/**
 * The shared local list (`MainRepository.list`) and `MainRepository.Mediator`:
 * the remote mediator that appends a generated batch to the list when the
 * pager runs out of local data, and the single-shot listener registry through
 * which it tells the current page source to invalidate itself.
 */
module Mediation {
  import opened Wrappers
  import opened Items

  /** `LoadType` handed to `RemoteMediator.load`. */
  datatype LoadType = Refresh | Prepend | Append

  /** `MediatorResult.Success(endOfPaginationReached)`; this mediator never reports an error. */
  datatype MediatorResult = Success(endOfPaginationReached: bool)

  /** A registered callback, by identity (the lambda object `remove` compares against). */
  type ListenerId = nat

  // ---------------------------------------------------------------------------
  // The local list
  // ---------------------------------------------------------------------------

  /** The local list starts with 51 items: its loop runs over 0..50 inclusive. */
  const InitialSize: nat := 51

  function LocalItem(i: int): Item
  {
    Item(IntToString(i), "local data " + IntToString(i), "desc")
  }

  /** The content the local list starts with. */
  function InitialItems(): seq<Item>
  {
    seq(InitialSize, i => LocalItem(i))
  }

  /** The companion object's initialiser: adds item `i` for `i` in 0..50. */
  method InitialList() returns (list: seq<Item>)
    ensures list == InitialItems()
    ensures IdsMatchIndices(list)
  {
    list := [];
    for i := 0 to InitialSize
      invariant |list| == i
      invariant forall k :: 0 <= k < i ==> list[k] == LocalItem(k)
    {
      list := list + [Item(IntToString(i), "local data " + IntToString(i), "desc")];
    }
  }

  /** The process-wide mutable list that both the source and the mediator use. */
  class LocalStore {
    var items: seq<Item>

    constructor ()
      ensures items == InitialItems()
    {
      var list := InitialList();
      items := list;
    }
  }

  // ---------------------------------------------------------------------------
  // The listener registry
  // ---------------------------------------------------------------------------

  /** `ArrayList.remove(x)`: drops the first occurrence of `x` and leaves a list without `x` unchanged. */
  function RemoveFirst(s: seq<ListenerId>, x: ListenerId): (r: seq<ListenerId>)
    ensures x !in s ==> r == s
    ensures x in s ==> |r| == |s| - 1 && multiset(r) == multiset(s) - multiset{x}
    ensures |s| > 0 && s[0] == x ==> r == s[1..]
  {
    if s == [] then []
    else if s[0] == x then assert s == [x] + s[1..]; s[1..]
    else assert s == [s[0]] + s[1..]; [s[0]] + RemoveFirst(s[1..], x)
  }

  /**
   * The listeners registered while the callbacks in `fired` run, in the
   * order they register; `onFire(l)` is what callback `l` registers.
   */
  function RegisteredDuring(fired: seq<ListenerId>, onFire: ListenerId -> seq<ListenerId>): seq<ListenerId>
  {
    if fired == [] then []
    else RegisteredDuring(fired[..|fired| - 1], onFire) + onFire(fired[|fired| - 1])
  }

  /** A listener is still registered after a pass exactly when some callback of that pass registered it. */
  lemma {:induction false} RegisteredDuringMembers(fired: seq<ListenerId>, onFire: ListenerId -> seq<ListenerId>, x: ListenerId)
    ensures x in RegisteredDuring(fired, onFire) <==> exists i :: 0 <= i < |fired| && x in onFire(fired[i])
  {
    if fired != [] {
      var init := fired[..|fired| - 1];
      RegisteredDuringMembers(init, onFire, x);
      if x in RegisteredDuring(init, onFire) {
        var i :| 0 <= i < |init| && x in onFire(init[i]);
        assert fired[i] == init[i];
      }
      if exists i :: 0 <= i < |fired| && x in onFire(fired[i]) {
        var i :| 0 <= i < |fired| && x in onFire(fired[i]);
        if i < |init| {
          assert init[i] == fired[i];
        }
      }
    }
  }

  /** Callbacks that register nothing leave nothing registered: a second pass invokes no one. */
  lemma {:induction false} SilentPassLeavesNothing(fired: seq<ListenerId>, onFire: ListenerId -> seq<ListenerId>)
    requires forall i :: 0 <= i < |fired| ==> onFire(fired[i]) == []
    ensures RegisteredDuring(fired, onFire) == []
  {
    if fired != [] {
      var init := fired[..|fired| - 1];
      assert forall i :: 0 <= i < |init| ==> init[i] == fired[i];
      SilentPassLeavesNothing(init, onFire);
    }
  }

  // ---------------------------------------------------------------------------
  // The mediator
  // ---------------------------------------------------------------------------

  class Mediator {
    /** The shared local list, passed in rather than reached through a global. */
    const store: LocalStore
    var listeners: seq<ListenerId>

    constructor (store: LocalStore)
      ensures this.store == store && listeners == []
    {
      this.store := store;
      listeners := [];
    }

    method AddListener(listener: ListenerId)
      modifies this
      ensures listeners == old(listeners) + [listener]
    {
      listeners := listeners + [listener];
    }

    method RemoveListener(listener: ListenerId)
      modifies this
      ensures listeners == RemoveFirst(old(listeners), listener)
    {
      listeners := RemoveFirst(listeners, listener);
    }

    /**
     * Invokes every listener of a snapshot taken on entry, in registration
     * order, removing one occurrence of each after its call. Listeners that
     * the callbacks register meanwhile are not invoked and stay registered.
     * The callbacks' own effect is given by `onFire`.
     */
    method NotifyListeners(onFire: ListenerId -> seq<ListenerId>) returns (fired: seq<ListenerId>)
      modifies this
      ensures fired == old(listeners)
      ensures listeners == RegisteredDuring(old(listeners), onFire)
    {
      var snapshot := listeners;
      fired := [];
      for i := 0 to |snapshot|
        invariant fired == snapshot[..i]
        invariant listeners == snapshot[i..] + RegisteredDuring(snapshot[..i], onFire)
      {
        var listener := snapshot[i];
        listeners := listeners + onFire(listener);
        fired := fired + [listener];
        assert snapshot[..i + 1][..i] == snapshot[..i];
        assert listeners == [listener] + (snapshot[i + 1..] + RegisteredDuring(snapshot[..i + 1], onFire));
        RemoveListener(listener);
      }
      assert snapshot[..|snapshot|] == snapshot;
    }

    /**
     * `load(loadType, state)`: Refresh does nothing; Prepend reports the end
     * of pagination; Append adds the batch generated at the current size to
     * the list and then notifies the listeners. The list keeps ids equal to
     * indices.
     */
    method Load(loadType: LoadType, onFire: ListenerId -> seq<ListenerId>) returns (result: MediatorResult, fired: seq<ListenerId>)
      modifies this, store
      ensures loadType != Append ==> store.items == old(store.items) && listeners == old(listeners) && fired == []
      ensures loadType == Refresh ==> result == Success(false)
      ensures loadType == Prepend ==> result == Success(true)
      ensures loadType == Append ==>
                result == Success(false)
                && store.items == old(store.items) + RemoteBatch(|old(store.items)|)
                && fired == old(listeners)
                && listeners == RegisteredDuring(old(listeners), onFire)
      ensures IdsMatchIndices(old(store.items)) ==> IdsMatchIndices(store.items)
    {
      match loadType
      case Refresh =>
        result, fired := Success(false), [];
      case Prepend =>
        result, fired := Success(true), [];
      case Append =>
        var batch := GetRemoteData(|store.items|);
        if IdsMatchIndices(store.items) {
          AppendBatchKeepsIds(store.items);
        }
        store.items := store.items + batch;
        fired := NotifyListeners(onFire);
        result := Success(false);
    }
  }
}
