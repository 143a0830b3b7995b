/**
 * The list control that keeps one visual element per source item
 * (Assets/Scripts/UI/Controls/SimpleListView.cs).
 *
 * The delegates (makeItem, bindItem, unbindItem, destroyItem) are compared by
 * identity only; their effects are recorded in a ghost log of calls. makeItem
 * yields a fresh element, which the control adds to its container.
 */
module ListView {
  import opened Optional

  /** A visual element; only its identity matters. */
  class Element {
  }

  /** The bound IList: a reference whose current Count the refresh reads. */
  class ItemsSource {
    var Count: nat
  }

  /** A delegate, identified for the setters' equality checks. */
  datatype Callback = Callback(id: nat)

  datatype FlexDirection = Row | RowReverse | Column | ColumnReverse

  /** What the control does to elements, in order. */
  datatype ListCall =
    | Made(item: Element?)              // makeItem() returned it; it was added to the container
    | Bound(item: Element?, index: nat)
    | Unbound(item: Element?, index: nat)
    | Removed(item: Element?)           // RemoveFromHierarchy
    | Destroyed(item: Element?)         // the destroyItem delegate

  /** DestroyItem: a non-null element leaves the hierarchy and then goes to destroyItem, if set. */
  function DestroyCalls(item: Element?, hasDestroy: bool): seq<ListCall>
  {
    if item == null then [] else [Removed(item)] + if hasDestroy then [Destroyed(item)] else []
  }

  /** One step of the teardown: unbind slot `i` (if unbindItem is set), then destroy its element. */
  function ExcessStep(items: seq<Element?>, i: nat, hasUnbind: bool, hasDestroy: bool): seq<ListCall>
    requires i < |items|
  {
    (if hasUnbind then [Unbound(items[i], i)] else []) + DestroyCalls(items[i], hasDestroy)
  }

  /** The teardown of slots `from` up to (not including) `to`, in index order. */
  function ExcessCalls(items: seq<Element?>, from: nat, stop: nat, hasUnbind: bool, hasDestroy: bool): seq<ListCall>
    requires stop <= |items|
    decreases stop
  {
    if stop <= from then []
    else ExcessCalls(items, from, stop - 1, hasUnbind, hasDestroy) + ExcessStep(items, stop - 1, hasUnbind, hasDestroy)
  }

  /** Slot `i` is created anew: it lay past the old list or held null. */
  predicate Missing(old_: seq<Element?>, i: nat)
  {
    i >= |old_| || old_[i] == null
  }

  /** The calls for slot `i`: make a missing element or unbind a kept one, then bind. */
  function SlotCalls(old_: seq<Element?>, result: seq<Element?>, i: nat, hasUnbind: bool): seq<ListCall>
    requires i < |result|
  {
    (if Missing(old_, i) then [Made(result[i])]
     else if hasUnbind then [Unbound(result[i], i)]
     else []) +
    [Bound(result[i], i)]
  }

  /** The calls of the create-or-update loop over the slots of `result`. */
  function BindCalls(old_: seq<Element?>, result: seq<Element?>, hasUnbind: bool): seq<ListCall>
    decreases |result|
  {
    if result == [] then []
    else BindCalls(old_, result[..|result| - 1], hasUnbind) + SlotCalls(old_, result, |result| - 1, hasUnbind)
  }

  /**
   * A log holding the calls for the first `k` slots holds, after filling slot
   * `k` of a list whose first `k` slots are settled, the calls for `k + 1`.
   */
  lemma BindLogStep(start: seq<ListCall>, prev: seq<ListCall>, next: seq<ListCall>, items: seq<Element?>,
                    before: seq<Element?>, after: seq<Element?>, k: nat, hasUnbind: bool)
    requires k < |after| && k <= |before| && forall j :: 0 <= j < k ==> after[j] == before[j]
    requires Missing(before, k) == Missing(items, k)
    requires prev == start + BindCalls(items, before[..k], hasUnbind)
    requires next == prev + SlotCalls(before, after, k, hasUnbind)
    ensures next == start + BindCalls(items, after[..k + 1], hasUnbind)
  {
    assert after[..k + 1][..k] == before[..k];
    assert BindCalls(items, after[..k + 1], hasUnbind) ==
      BindCalls(items, before[..k], hasUnbind) + SlotCalls(items, after[..k + 1], k, hasUnbind);
    AppendAssoc(start, BindCalls(items, before[..k], hasUnbind), SlotCalls(before, after, k, hasUnbind));
  }

  lemma AppendAssoc(a: seq<ListCall>, b: seq<ListCall>, c: seq<ListCall>)
    ensures (a + b) + c == a + (b + c)
  {
  }

  /** How many times `index` is bound in `calls`. */
  function CountBound(calls: seq<ListCall>, index: nat): nat
  {
    if calls == [] then 0
    else (if calls[0].Bound? && calls[0].index == index then 1 else 0) + CountBound(calls[1..], index)
  }

  lemma {:induction false} CountBoundAppend(a: seq<ListCall>, b: seq<ListCall>, index: nat)
    ensures CountBound(a + b, index) == CountBound(a, index) + CountBound(b, index)
  {
    if a == [] {
      assert a + b == b;
    } else {
      assert (a + b)[1..] == a[1..] + b;
      CountBoundAppend(a[1..], b, index);
    }
  }

  /** A slot's own calls bind exactly that slot, once. */
  lemma SlotBoundOnce(old_: seq<Element?>, result: seq<Element?>, i: nat, hasUnbind: bool, index: nat)
    requires i < |result|
    ensures CountBound(SlotCalls(old_, result, i, hasUnbind), index) == if index == i then 1 else 0
  {
    var s := SlotCalls(old_, result, i, hasUnbind);
    if Missing(old_, i) || hasUnbind {
      assert |s| == 2 && !s[0].Bound? && s[1] == Bound(result[i], i);
      var t := s[1..];
      assert t == [Bound(result[i], i)] && t[1..] == [];
      assert CountBound(t, index) == (if index == i then 1 else 0) + CountBound(t[1..], index);
      assert CountBound(s, index) == CountBound(t, index);
    } else {
      assert s == [Bound(result[i], i)] && s[1..] == [];
    }
  }

  /** Every slot is bound exactly once, and no index outside the slots is bound. */
  lemma {:induction false} BoundOncePerSlot(old_: seq<Element?>, result: seq<Element?>, hasUnbind: bool, index: nat)
    ensures CountBound(BindCalls(old_, result, hasUnbind), index) == if index < |result| then 1 else 0
    decreases |result|
  {
    if result != [] {
      var n := |result| - 1;
      BoundOncePerSlot(old_, result[..n], hasUnbind, index);
      CountBoundAppend(BindCalls(old_, result[..n], hasUnbind), SlotCalls(old_, result, n, hasUnbind), index);
      SlotBoundOnce(old_, result, n, hasUnbind, index);
    }
  }

  /** makeItem is called only for slots that were missing or null, and what it made fills that slot. */
  lemma {:induction false} MadeOnlyForMissing(old_: seq<Element?>, result: seq<Element?>, hasUnbind: bool, k: nat)
    requires k < |BindCalls(old_, result, hasUnbind)| && BindCalls(old_, result, hasUnbind)[k].Made?
    ensures exists i ::
      0 <= i < |result| && Missing(old_, i) && BindCalls(old_, result, hasUnbind)[k].item == result[i]
    decreases |result|
  {
    var n := |result| - 1;
    var prefix := result[..n];
    var calls := BindCalls(old_, result, hasUnbind);
    var first := BindCalls(old_, prefix, hasUnbind);
    assert calls == first + SlotCalls(old_, result, n, hasUnbind);
    if k < |first| {
      MadeOnlyForMissing(old_, prefix, hasUnbind, k);
      var i :| 0 <= i < |prefix| && Missing(old_, i) && first[k].item == prefix[i];
      assert result[i] == prefix[i];
    } else {
      assert calls[k] == SlotCalls(old_, result, n, hasUnbind)[k - |first|];
      assert Missing(old_, n) && calls[k].item == result[n];
    }
  }

  /** A second refresh with an unchanged count finds every slot filled: it makes and destroys nothing. */
  lemma RefreshAgainMakesNothing(items: seq<Element?>, hasUnbind: bool, hasDestroy: bool)
    requires forall i :: 0 <= i < |items| ==> items[i] != null
    ensures ExcessCalls(items, |items|, |items|, hasUnbind, hasDestroy) == []
    ensures forall k :: 0 <= k < |BindCalls(items, items, hasUnbind)| ==> !BindCalls(items, items, hasUnbind)[k].Made?
  {
    forall k | 0 <= k < |BindCalls(items, items, hasUnbind)|
      ensures !BindCalls(items, items, hasUnbind)[k].Made?
    {
      if BindCalls(items, items, hasUnbind)[k].Made? {
        MadeOnlyForMissing(items, items, hasUnbind, k);
        assert false;
      }
    }
  }

  /** The teardown of one more slot appends that slot's step. */
  lemma ExcessCallsUnfold(items: seq<Element?>, from: nat, stop: nat, hasUnbind: bool, hasDestroy: bool)
    requires from < stop <= |items|
    ensures ExcessCalls(items, from, stop, hasUnbind, hasDestroy) ==
      ExcessCalls(items, from, stop - 1, hasUnbind, hasDestroy) + ExcessStep(items, stop - 1, hasUnbind, hasDestroy)
  {
  }

  /** A log holding the teardown up to slot `i` holds, after slot `i`'s step, the teardown up to `i + 1`. */
  lemma ExcessLogStep(start: seq<ListCall>, prev: seq<ListCall>, next: seq<ListCall>,
                      items: seq<Element?>, from: nat, i: nat, hasUnbind: bool, hasDestroy: bool)
    requires from <= i < |items|
    requires prev == start + ExcessCalls(items, from, i, hasUnbind, hasDestroy)
    requires next == prev + ExcessStep(items, i, hasUnbind, hasDestroy)
    ensures next == start + ExcessCalls(items, from, i + 1, hasUnbind, hasDestroy)
  {
    ExcessCallsUnfold(items, from, i + 1, hasUnbind, hasDestroy);
    AppendAssoc(start, ExcessCalls(items, from, i, hasUnbind, hasDestroy), ExcessStep(items, i, hasUnbind, hasDestroy));
  }

  /** Tearing down a slot that holds an element removes that element. */
  lemma RemovedInStep(items: seq<Element?>, j: nat, hasUnbind: bool, hasDestroy: bool)
    requires j < |items| && items[j] != null
    ensures Removed(items[j]) in ExcessStep(items, j, hasUnbind, hasDestroy)
  {
    var destroy := DestroyCalls(items[j], hasDestroy);
    assert destroy[0] == Removed(items[j]);
    var unbind: seq<ListCall> := if hasUnbind then [Unbound(items[j], j)] else [];
    assert ExcessStep(items, j, hasUnbind, hasDestroy) == unbind + destroy;
    assert ExcessStep(items, j, hasUnbind, hasDestroy)[|unbind|] == Removed(items[j]);
  }

  /** Every non-null element of the torn-down slots leaves the hierarchy. */
  lemma {:induction false} ExcessRemovesAll(items: seq<Element?>, from: nat, stop: nat, hasUnbind: bool, hasDestroy: bool, i: nat)
    requires from <= i < stop <= |items| && items[i] != null
    ensures Removed(items[i]) in ExcessCalls(items, from, stop, hasUnbind, hasDestroy)
    decreases stop
  {
    var rest := ExcessCalls(items, from, stop - 1, hasUnbind, hasDestroy);
    var step := ExcessStep(items, stop - 1, hasUnbind, hasDestroy);
    ExcessCallsUnfold(items, from, stop, hasUnbind, hasDestroy);
    if i == stop - 1 {
      RemovedInStep(items, i, hasUnbind, hasDestroy);
      assert Removed(items[i]) in rest + step;
    } else {
      ExcessRemovesAll(items, from, stop - 1, hasUnbind, hasDestroy, i);
      assert Removed(items[i]) in rest + step;
    }
  }

  class SimpleListView {
    var itemsSource: ItemsSource?
    var makeItem: Option<Callback>
    var bindItem: Option<Callback>
    var destroyItem: Option<Callback>
    var unbindItem: Option<Callback>
    var activeItems: seq<Element?>
    var layoutDirection: FlexDirection
    /** The container's flex direction style. */
    var containerDirection: FlexDirection
    var disposed: bool
    ghost var log: seq<ListCall>

    /** The container always lays out in the control's direction. */
    ghost predicate Valid()
      reads this
    {
      containerDirection == layoutDirection
    }

    /** Everything but the active list and the log. */
    ghost function Settings(): (ItemsSource?, Option<Callback>, Option<Callback>, Option<Callback>, Option<Callback>,
                                FlexDirection, FlexDirection, bool)
      reads this
    {
      (itemsSource, makeItem, bindItem, destroyItem, unbindItem, layoutDirection, containerDirection, disposed)
    }

    /**
     * After a refresh against `n` source items: one non-null element per item,
     * kept where the old slot held one, and the calls are the teardown of the
     * excess followed by the create-or-update loop.
     */
    ghost predicate RefreshedFrom(oldItems: seq<Element?>, oldLog: seq<ListCall>, n: nat)
      reads this
    {
      |activeItems| == n &&
      (forall i :: 0 <= i < n ==> activeItems[i] != null) &&
      (forall i :: 0 <= i < n && !Missing(oldItems, i) ==> activeItems[i] == oldItems[i]) &&
      log == oldLog + ExcessCalls(oldItems, n, |oldItems|, unbindItem.Some?, destroyItem.Some?) +
                      BindCalls(oldItems, activeItems, unbindItem.Some?)
    }

    constructor ()
      ensures Valid()
      ensures itemsSource == null && makeItem.None? && bindItem.None?
      ensures destroyItem.None? && unbindItem.None?
      ensures activeItems == [] && layoutDirection == Column && !disposed && log == []
    {
      itemsSource := null;
      makeItem, bindItem, destroyItem, unbindItem := None, None, None, None;
      activeItems := [];
      layoutDirection := Column;
      containerDirection := Column;
      disposed := false;
      log := [];
    }

    /** The layoutDirection setter: a new direction reaches the container. */
    method SetLayoutDirection(value: FlexDirection)
      requires Valid()
      modifies this
      ensures Valid() && layoutDirection == value
      ensures activeItems == old(activeItems) && log == old(log) && itemsSource == old(itemsSource)
      ensures makeItem == old(makeItem) && bindItem == old(bindItem)
      ensures destroyItem == old(destroyItem) && unbindItem == old(unbindItem) && disposed == old(disposed)
    {
      if layoutDirection != value {
        layoutDirection := value;
        containerDirection := layoutDirection;
      }
    }

    /** The destroyItem setter. */
    method SetDestroyItem(value: Option<Callback>)
      modifies this`destroyItem
      ensures destroyItem == value && activeItems == old(activeItems) && log == old(log)
      ensures itemsSource == old(itemsSource) && makeItem == old(makeItem) && bindItem == old(bindItem)
      ensures unbindItem == old(unbindItem) && disposed == old(disposed)
      ensures layoutDirection == old(layoutDirection) && containerDirection == old(containerDirection)
    {
      destroyItem := value;
    }

    /** The unbindItem setter. */
    method SetUnbindItem(value: Option<Callback>)
      modifies this`unbindItem
      ensures unbindItem == value && activeItems == old(activeItems) && log == old(log)
      ensures itemsSource == old(itemsSource) && makeItem == old(makeItem) && bindItem == old(bindItem)
      ensures destroyItem == old(destroyItem) && disposed == old(disposed)
      ensures layoutDirection == old(layoutDirection) && containerDirection == old(containerDirection)
    {
      unbindItem := value;
    }

    /** DestroyItem. */
    method DestroyItem(item: Element?)
      modifies this
      ensures log == old(log) + DestroyCalls(item, destroyItem.Some?)
      ensures activeItems == old(activeItems) && destroyItem == old(destroyItem) && unbindItem == old(unbindItem)
      ensures itemsSource == old(itemsSource) && makeItem == old(makeItem) && bindItem == old(bindItem)
      ensures layoutDirection == old(layoutDirection) && containerDirection == old(containerDirection)
      ensures disposed == old(disposed)
    {
      if item != null {
        log := log + [Removed(item)];
        if destroyItem.Some? {
          log := log + [Destroyed(item)];
        }
      }
    }

    /** One pass of the teardown loop: unbind slot `i` of `items` (if asked), then destroy its element. */
    method TearDownSlot(items: seq<Element?>, i: nat, hasUnbind: bool)
      requires i < |items|
      modifies this
      ensures destroyItem == old(destroyItem)
      ensures log == old(log) + ExcessStep(items, i, hasUnbind, destroyItem.Some?)
      ensures activeItems == old(activeItems) && Settings() == old(Settings())
    {
      ghost var unbind: seq<ListCall> := if hasUnbind then [Unbound(items[i], i)] else [];
      if hasUnbind {
        log := log + [Unbound(items[i], i)];
      }
      DestroyItem(items[i]);
      AppendAssoc(old(log), unbind, DestroyCalls(items[i], destroyItem.Some?));
    }

    /** Tears down the slots from `n` on, in order; the active list itself is left as it was. */
    method DestroyFrom(n: nat, hasUnbind: bool)
      requires n <= |activeItems| && (hasUnbind ==> unbindItem.Some?)
      modifies this
      ensures log == old(log) + ExcessCalls(activeItems, n, |activeItems|, hasUnbind, destroyItem.Some?)
      ensures activeItems == old(activeItems) && Settings() == old(Settings())
    {
      var items := activeItems;
      var d := destroyItem.Some?;
      ghost var start := log;
      var i := n;
      while i < |items|
        invariant n <= i <= |items|
        invariant destroyItem == old(destroyItem) && log == start + ExcessCalls(items, n, i, hasUnbind, d)
        invariant activeItems == items && Settings() == old(Settings())
        decreases |items| - i
      {
        ghost var prev := log;
        TearDownSlot(items, i, hasUnbind);
        ExcessLogStep(start, prev, log, items, n, i, hasUnbind, d);
        i := i + 1;
      }
    }

    /** Destroys every active element in order and empties the list. */
    method DestroyAllItems()
      modifies this
      ensures activeItems == []
      ensures log == old(log) + ExcessCalls(old(activeItems), 0, |old(activeItems)|, false, destroyItem.Some?)
      ensures Settings() == old(Settings())
    {
      DestroyFrom(0, false);
      activeItems := [];
    }

    /** One pass of the create-or-update loop, for slot `k`. */
    method CreateOrUpdateSlot(k: nat)
      requires k <= |activeItems|
      modifies this
      ensures |activeItems| == if k < |old(activeItems)| then |old(activeItems)| else k + 1
      ensures forall j :: 0 <= j < |old(activeItems)| && j != k ==> activeItems[j] == old(activeItems)[j]
      ensures activeItems[k] != null
      ensures !Missing(old(activeItems), k) ==> activeItems[k] == old(activeItems)[k]
      ensures Missing(old(activeItems), k) ==> fresh(activeItems[k])
      ensures log == old(log) + SlotCalls(old(activeItems), activeItems, k, unbindItem.Some?)
      ensures Settings() == old(Settings())
    {
      if k >= |activeItems| || activeItems[k] == null {
        var newItem := new Element;
        log := log + [Made(newItem)];
        if k < |activeItems| {
          activeItems := activeItems[k := newItem];
        } else {
          activeItems := activeItems + [newItem];
        }
      } else if unbindItem.Some? {
        log := log + [Unbound(activeItems[k], k)];
      }
      log := log + [Bound(activeItems[k], k)];
    }

    /**
     * The create-or-update loop over `n` slots of an active list already cut
     * down to at most `n`: missing or null slots get a new element; kept ones
     * are unbound (if unbindItem is set); every slot is then bound.
     */
    method CreateOrUpdate(n: nat, ghost items: seq<Element?>)
      requires |activeItems| <= n && |activeItems| <= |items|
      requires activeItems == items[..|activeItems|] && (|activeItems| < n ==> |activeItems| == |items|)
      modifies this
      ensures |activeItems| == n && forall i :: 0 <= i < n ==> activeItems[i] != null
      ensures forall i :: 0 <= i < n && !Missing(items, i) ==> activeItems[i] == items[i]
      ensures forall i :: 0 <= i < n && Missing(items, i) ==> fresh(activeItems[i])
      ensures log == old(log) + BindCalls(items, activeItems, unbindItem.Some?)
      ensures Settings() == old(Settings())
    {
      var u := unbindItem.Some?;
      var k0 := |activeItems|;
      ghost var start := log;
      var k := 0;
      while k < n
        invariant 0 <= k <= n && k0 <= |items|
        invariant k <= k0 ==> |activeItems| == k0
        invariant k0 <= k ==> |activeItems| == k
        invariant forall j :: 0 <= j < k ==> activeItems[j] != null
        invariant forall j :: 0 <= j < k && !Missing(items, j) ==> activeItems[j] == items[j]
        invariant forall j :: 0 <= j < k && Missing(items, j) ==> fresh(activeItems[j])
        invariant forall j :: k <= j < k0 ==> activeItems[j] == items[j]
        invariant log == start + BindCalls(items, activeItems[..k], u)
        invariant Settings() == old(Settings())
      {
        ghost var before := activeItems;
        ghost var prev := log;
        assert Missing(before, k) == Missing(items, k);
        CreateOrUpdateSlot(k);
        BindLogStep(start, prev, log, items, before, activeItems, k, u);
        k := k + 1;
      }
      assert activeItems[..n] == activeItems;
    }

    /**
     * Resizes the active list to the source count in place: the excess is
     * unbound, destroyed and removed; missing or null slots get a new element;
     * every slot is unbound if kept and then bound. Without a source, makeItem
     * or bindItem nothing happens.
     */
    method RefreshItems()
      modifies this
      ensures Settings() == old(Settings())
      ensures itemsSource == null || makeItem.None? || bindItem.None? ==>
        activeItems == old(activeItems) && log == old(log)
      ensures itemsSource != null && makeItem.Some? && bindItem.Some? ==>
        RefreshedFrom(old(activeItems), old(log), itemsSource.Count) &&
        forall i :: 0 <= i < |activeItems| && Missing(old(activeItems), i) ==> fresh(activeItems[i])
    {
      if itemsSource == null || makeItem.None? || bindItem.None? {
        return;
      }
      var n := itemsSource.Count;
      ghost var items := activeItems;
      if n < |activeItems| {
        DestroyFrom(n, unbindItem.Some?);
        activeItems := activeItems[..n];
      }
      CreateOrUpdate(n, items);
    }

    /**
     * The itemsSource setter: the same reference does nothing; null destroys
     * every element and empties the list; anything else refreshes.
     */
    method SetItemsSource(value: ItemsSource?)
      modifies this
      ensures itemsSource == value
      ensures makeItem == old(makeItem) && bindItem == old(bindItem)
      ensures destroyItem == old(destroyItem) && unbindItem == old(unbindItem)
      ensures layoutDirection == old(layoutDirection) && containerDirection == old(containerDirection)
      ensures disposed == old(disposed)
      ensures old(itemsSource) == value ==> activeItems == old(activeItems) && log == old(log)
      ensures old(itemsSource) != value && value == null ==>
        activeItems == [] &&
        log == old(log) + ExcessCalls(old(activeItems), 0, |old(activeItems)|, false, destroyItem.Some?)
      ensures old(itemsSource) != value && value != null && makeItem.Some? && bindItem.Some? ==>
        RefreshedFrom(old(activeItems), old(log), value.Count)
      ensures old(itemsSource) != value && value != null && (makeItem.None? || bindItem.None?) ==>
        activeItems == old(activeItems) && log == old(log)
    {
      if itemsSource == value {
        return;
      }
      itemsSource := value;
      if itemsSource == null {
        DestroyAllItems();
        return;
      }
      RefreshItems();
    }

    /** The makeItem setter: a different delegate triggers a refresh. */
    method SetMakeItem(value: Option<Callback>)
      modifies this
      ensures makeItem == value && itemsSource == old(itemsSource) && bindItem == old(bindItem)
      ensures destroyItem == old(destroyItem) && unbindItem == old(unbindItem) && disposed == old(disposed)
      ensures layoutDirection == old(layoutDirection) && containerDirection == old(containerDirection)
      ensures old(makeItem) == value ==> activeItems == old(activeItems) && log == old(log)
      ensures old(makeItem) != value && itemsSource != null && value.Some? && bindItem.Some? ==>
        RefreshedFrom(old(activeItems), old(log), itemsSource.Count)
      ensures old(makeItem) != value && (itemsSource == null || value.None? || bindItem.None?) ==>
        activeItems == old(activeItems) && log == old(log)
    {
      if makeItem != value {
        makeItem := value;
        RefreshItems();
      }
    }

    /** The bindItem setter: a different delegate triggers a refresh. */
    method SetBindItem(value: Option<Callback>)
      modifies this
      ensures bindItem == value && itemsSource == old(itemsSource) && makeItem == old(makeItem)
      ensures destroyItem == old(destroyItem) && unbindItem == old(unbindItem) && disposed == old(disposed)
      ensures layoutDirection == old(layoutDirection) && containerDirection == old(containerDirection)
      ensures old(bindItem) == value ==> activeItems == old(activeItems) && log == old(log)
      ensures old(bindItem) != value && itemsSource != null && makeItem.Some? && value.Some? ==>
        RefreshedFrom(old(activeItems), old(log), itemsSource.Count)
      ensures old(bindItem) != value && (itemsSource == null || makeItem.None? || value.None?) ==>
        activeItems == old(activeItems) && log == old(log)
    {
      if bindItem != value {
        bindItem := value;
        RefreshItems();
      }
    }

    /** Dispose: the first call destroys every element and empties the list; later calls do nothing. */
    method Dispose()
      modifies this
      ensures disposed
      ensures old(disposed) ==> activeItems == old(activeItems) && log == old(log)
      ensures !old(disposed) ==>
        activeItems == [] &&
        log == old(log) + ExcessCalls(old(activeItems), 0, |old(activeItems)|, false, destroyItem.Some?)
      ensures itemsSource == old(itemsSource) && makeItem == old(makeItem) && bindItem == old(bindItem)
      ensures destroyItem == old(destroyItem) && unbindItem == old(unbindItem)
      ensures layoutDirection == old(layoutDirection) && containerDirection == old(containerDirection)
    {
      if !disposed {
        DestroyAllItems();
        disposed := true;
      }
    }
  }
}
