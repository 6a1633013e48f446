/** InventorySO: the stored-item list that the inventory events add to and remove from. */
module Inventory {
  import opened Lists

  /** A stored item is a plain class, so two items are the same only when they are the same object. */
  class StoredItem {
    constructor () { }
  }

  class InventorySO {
    var storedItems: seq<StoredItem>

    constructor (initial: seq<StoredItem>)
      ensures storedItems == initial
    {
      storedItems := initial;
    }

    /** AddToList: `list.Add(item)` appends at the end and leaves earlier items in place. */
    method AddToList(item: StoredItem)
      modifies this
      ensures storedItems == old(storedItems) + [item]
      ensures |storedItems| == |old(storedItems)| + 1
      ensures storedItems[..|old(storedItems)|] == old(storedItems)
    {
      storedItems := storedItems + [item];
    }

    /**
      RemoveFromList: `list.RemoveAt(list.IndexOf(item))`. An item that is not in the list gives
      index -1, and `RemoveAt(-1)` throws; `ok` is false and the list is unchanged in that case.
    */
    method RemoveFromList(item: StoredItem) returns (ok: bool)
      modifies this
      ensures ok <==> item in old(storedItems)
      ensures ok ==> storedItems == RemoveAt(old(storedItems), IndexOf(old(storedItems), item))
      ensures ok ==> multiset(storedItems) == multiset(old(storedItems)) - multiset{item}
      ensures !ok ==> storedItems == old(storedItems)
    {
      var i := IndexOf(storedItems, item);
      if i < 0 {
        return false;
      }
      RemoveFirstMultiset(storedItems, item);
      storedItems := RemoveAt(storedItems, i);
      ok := true;
    }
  }
}
