/** `Bulk<ObjectType>` (src/Containers/Bulk.hpp): a growing store of items addressed by a
    32-bit `ItemID`. `blank` stands for the value-initialised item `push_back` appends. */
module Bulk {
  import opened Helpers

  class Bulk<T> {
    /** `m_items`. */
    var items: seq<T>
    const blank: T

    constructor (blank: T)
      ensures items == [] && this.blank == blank
    {
      items := [];
      this.blank := blank;
    }

    /** `AllocateItem()` as written: one blank item is appended and the new item count,
        converted to `ItemID`, is returned, which is one past the new item's index. */
    method AllocateItemAsWritten() returns (id: nat)
      modifies this
      ensures items == old(items) + [blank]
      ensures id == ToUint32(|items|)
      ensures |items| < TwoTo32 ==> id == |items| && !(id < |items|)
    {
      items := items + [blank];
      id := ToUint32(|items|);
    }

    /** `AllocateItem()` returning the index of the item it appended, so that the ID it
        hands out addresses that item in `GetUnderlyingItem`. */
    method AllocateItem() returns (id: nat)
      modifies this
      ensures items == old(items) + [blank]
      ensures id == ToUint32(|old(items)|)
      ensures |old(items)| < TwoTo32 ==> id < |items| && items[id] == blank
    {
      id := ToUint32(|items|);
      items := items + [blank];
    }

    /** `DeleteItem(item)`: not implemented; its `assert(false)` fires on every call. */
    method DeleteItem(item: nat) returns (outcome: Outcome)
      ensures outcome == Thrown(AssertionFailed)
    {
      return Thrown(AssertionFailed);
    }

    /** `GetUnderlyingItem(item)`: `m_items[item]`, defined only for an ID below the item
        count. */
    method GetUnderlyingItem(item: nat) returns (r: T)
      requires item < |items|
      ensures r == items[item]
    {
      r := items[item];
    }
  }

  /** A fresh store: the ID the as-written allocation hands out cannot be passed to
      `GetUnderlyingItem`, while the corrected one addresses the blank item. */
  method FirstAllocation<T>(blank: T) returns (asWrittenInRange: bool, correctedItem: T)
    ensures !asWrittenInRange
    ensures correctedItem == blank
  {
    var store := new Bulk<T>(blank);
    var id := store.AllocateItemAsWritten();
    asWrittenInRange := id < |store.items|;
    var fixed := new Bulk<T>(blank);
    var index := fixed.AllocateItem();
    correctedItem := fixed.GetUnderlyingItem(index);
  }
}
