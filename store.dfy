/** The local item and bill store: two storage keys, `items` and `bills`, each
    holding a whole list that every operation reads, transforms and writes back. */
module Store {
  import opened Wrappers
  import opened Seqs

  type Id = string

  /** A catalogue item; `id` is absent on an item that has never been saved. */
  datatype Item = Item(id: Option<Id>, name: string, price: int)

  /** A line of a bill: a copy of an item's fields plus the quantity sold. */
  datatype BillLine = BillLine(id: Option<Id>, name: string, price: int, quantity: int)

  /** A saved bill. Bills built by the bill screen carry no `billId`. */
  datatype Bill = Bill(billId: Option<Id>, id: Option<Id>, lines: seq<BillLine>, total: int, date: int)

  /** What a storage key holds: nothing yet, a list, or content whose read or
      parse fails. */
  datatype Slot<T> = Missing | Unreadable | Stored(list: seq<T>)

  /** The list a tolerant read yields: the empty list when nothing is stored or
      the stored text cannot be read. */
  function Read<T>(slot: Slot<T>): seq<T>
  {
    if slot.Stored? then slot.list else []
  }

  /** JavaScript truthiness of an item's `id`: present and not empty. */
  predicate HasId(item: Item)
  {
    item.id.Some? && item.id.value != ""
  }

  /** Every stored item carries a truthy id. */
  predicate AllIdentified(items: seq<Item>)
  {
    forall i :: 0 <= i < |items| ==> HasId(items[i])
  }

  /** No two stored items share an id. */
  predicate UniqueIds(items: seq<Item>)
  {
    forall i, j :: 0 <= i < j < |items| ==> items[i].id != items[j].id
  }

  /** Whether some entry has the given id. */
  predicate IdIn(items: seq<Item>, id: Option<Id>)
  {
    exists i :: 0 <= i < |items| && items[i].id == id
  }

  /** The list with every entry whose id equals `item.id` replaced by `item`. */
  function ReplaceById(items: seq<Item>, item: Item): (r: seq<Item>)
    ensures |r| == |items|
    ensures forall i :: 0 <= i < |r| ==> r[i] == if items[i].id == item.id then item else items[i]
  {
    if items == [] then []
    else [if items[0].id == item.id then item else items[0]] + ReplaceById(items[1..], item)
  }

  /** The list `saveItem` stores: an item with a truthy id replaces the entries
      with that id; any other item is appended with the fresh id. */
  function SaveItems(existing: seq<Item>, item: Item, freshId: Id): (r: seq<Item>)
    ensures HasId(item) ==> |r| == |existing|
    ensures HasId(item) ==> forall i :: 0 <= i < |r| ==>
      (existing[i].id == item.id ==> r[i] == item) && (existing[i].id != item.id ==> r[i] == existing[i])
    ensures !HasId(item) ==> |r| == |existing| + 1 && r[..|existing|] == existing
    ensures !HasId(item) ==> r[|existing|] == Item(Some(freshId), item.name, item.price)
  {
    if HasId(item) then ReplaceById(existing, item)
    else existing + [item.(id := Some(freshId))]
  }

  /** The items whose id differs from `id`, in their order. */
  function RemoveById(items: seq<Item>, id: Option<Id>): seq<Item>
  {
    Filter(items, (x: Item) => x.id != id)
  }

  /** The items whose id is not in `ids`, in their order. */
  function RemoveIds(items: seq<Item>, ids: set<Option<Id>>): seq<Item>
  {
    Filter(items, (x: Item) => x.id !in ids)
  }

  /** The bills whose `billId` differs from `billId`, in their order. */
  function RemoveBills(bills: seq<Bill>, billId: Id): seq<Bill>
  {
    Filter(bills, (b: Bill) => b.billId != Some(billId))
  }

  /** Replacing by an id that no entry has changes nothing. */
  lemma ReplaceAbsent(items: seq<Item>, item: Item)
    requires !IdIn(items, item.id)
    ensures ReplaceById(items, item) == items
  {
  }

  /** Replacing keeps ids distinct and keeps every id truthy. */
  lemma ReplaceKeepsIds(items: seq<Item>, item: Item)
    ensures UniqueIds(items) ==> UniqueIds(ReplaceById(items, item))
    ensures AllIdentified(items) && HasId(item) ==> AllIdentified(ReplaceById(items, item))
  {
  }

  /** Saving an item with an id that no entry has is a silent no-op. */
  lemma SaveAbsentIdIsNoOp(existing: seq<Item>, item: Item, freshId: Id)
    requires HasId(item) && !IdIn(existing, item.id)
    ensures SaveItems(existing, item, freshId) == existing
  {
    ReplaceAbsent(existing, item);
  }

  /** Saving keeps every stored item identified and the ids distinct, as long
      as the generated id is truthy and not already in use. */
  lemma SaveKeepsIds(existing: seq<Item>, item: Item, freshId: Id)
    requires AllIdentified(existing) && UniqueIds(existing)
    requires freshId != "" && !IdIn(existing, Some(freshId))
    ensures AllIdentified(SaveItems(existing, item, freshId))
    ensures UniqueIds(SaveItems(existing, item, freshId))
  {
    if HasId(item) {
      ReplaceKeepsIds(existing, item);
    } else {
      var r := SaveItems(existing, item, freshId);
      forall i, j | 0 <= i < j < |r| ensures r[i].id != r[j].id {
        if j == |existing| {
          assert r[i] == existing[i];
        }
      }
    }
  }

  /** After deleting an id no entry carries it, every other entry is kept, and
      the survivors keep their relative order. */
  lemma RemoveByIdSpec(items: seq<Item>, id: Option<Id>, more: seq<Item>)
    ensures !IdIn(RemoveById(items, id), id)
    ensures forall i :: 0 <= i < |items| && items[i].id != id ==> items[i] in RemoveById(items, id)
    ensures RemoveById(items + more, id) == RemoveById(items, id) + RemoveById(more, id)
  {
    FilterConcat(items, more, (x: Item) => x.id != id);
  }

  /** Deleting an id that no entry has is a no-op; deleting twice is deleting once. */
  lemma RemoveByIdNoOpAndIdempotent(items: seq<Item>, id: Option<Id>)
    ensures !IdIn(items, id) ==> RemoveById(items, id) == items
    ensures RemoveById(RemoveById(items, id), id) == RemoveById(items, id)
  {
    if !IdIn(items, id) {
      FilterAllKept(items, (x: Item) => x.id != id);
    }
    FilterIdempotent(items, (x: Item) => x.id != id);
  }

  /** With distinct ids, deleting a present id shortens the list by exactly one. */
  lemma RemovePresentDropsOne(items: seq<Item>, k: nat)
    requires UniqueIds(items) && k < |items|
    ensures |RemoveById(items, items[k].id)| == |items| - 1
  {
    FilterDropsOne(items, (x: Item) => x.id != items[k].id, k);
  }

  /** Deleting one id after a set of ids is deleting the enlarged set. */
  lemma RemoveIdsStep(items: seq<Item>, ids: set<Option<Id>>, id: Option<Id>)
    ensures RemoveById(RemoveIds(items, ids), id) == RemoveIds(items, ids + {id})
    ensures RemoveById(items, id) == RemoveIds(items, {id})
  {
    FilterFilter(items, (x: Item) => x.id !in ids, (x: Item) => x.id != id, (x: Item) => x.id !in ids + {id});
    var single := {id};
    FilterSame(items, (x: Item) => x.id != id, (x: Item) => x.id !in single);
  }

  /** Deleting by bill id removes exactly the bills carrying that `billId`;
      bills without one are never removed. */
  lemma RemoveBillsSpec(bills: seq<Bill>, billId: Id)
    ensures forall i :: 0 <= i < |RemoveBills(bills, billId)| ==> RemoveBills(bills, billId)[i].billId != Some(billId)
    ensures forall i :: 0 <= i < |bills| && bills[i].billId.None? ==> bills[i] in RemoveBills(bills, billId)
    ensures (forall i :: 0 <= i < |bills| ==> bills[i].billId != Some(billId)) ==> RemoveBills(bills, billId) == bills
  {
    if forall i :: 0 <= i < |bills| ==> bills[i].billId != Some(billId) {
      FilterAllKept(bills, (b: Bill) => b.billId != Some(billId));
    }
  }

  /** The two storage keys. Each method is one atomic read-modify-write. */
  class Database {
    var items: Slot<Item>
    var bills: Slot<Bill>

    constructor (items: Slot<Item>, bills: Slot<Bill>)
      ensures this.items == items && this.bills == bills
    {
      this.items := items;
      this.bills := bills;
    }

    /** `getItems`: the stored list, or the empty list when nothing is stored or the read fails. */
    method GetItems() returns (r: seq<Item>)
      ensures items.Stored? ==> r == items.list
      ensures !items.Stored? ==> r == []
    {
      r := if items.Stored? then items.list else [];
    }

    /** `getBills`: the stored list, or the empty list when nothing is stored or the read fails. */
    method GetBills() returns (r: seq<Bill>)
      ensures bills.Stored? ==> r == bills.list
      ensures !bills.Stored? ==> r == []
    {
      r := if bills.Stored? then bills.list else [];
    }

    /** `saveItem`: updates or appends, stores the new list and returns exactly it. */
    method SaveItem(item: Item, freshId: Id) returns (saved: seq<Item>)
      modifies this
      ensures saved == SaveItems(Read(old(items)), item, freshId)
      ensures items == Stored(saved) && bills == old(bills)
    {
      var existing := GetItems();
      saved := SaveItems(existing, item, freshId);
      items := Stored(saved);
    }

    /** `updateItem`: replaces the entries with the item's id. */
    method UpdateItem(item: Item)
      modifies this
      ensures items == Stored(ReplaceById(Read(old(items)), item)) && bills == old(bills)
    {
      var existing := GetItems();
      items := Stored(ReplaceById(existing, item));
    }

    /** `deleteItem`: keeps the entries whose id differs. */
    method DeleteItem(id: Option<Id>)
      modifies this
      ensures items == Stored(RemoveById(Read(old(items)), id)) && bills == old(bills)
    {
      var existing := GetItems();
      items := Stored(RemoveById(existing, id));
    }

    /** `saveBill`: appends the bill, starting from the empty list when nothing is
        stored. A stored text that cannot be parsed makes the call fail before it
        writes, and that failure is swallowed. */
    method SaveBill(bill: Bill)
      modifies this
      ensures old(bills).Missing? ==> bills == Stored([bill])
      ensures old(bills).Stored? ==> bills == Stored(old(bills).list + [bill])
      ensures old(bills).Unreadable? ==> bills == old(bills)
      ensures items == old(items)
    {
      match bills
      case Missing => bills := Stored([bill]);
      case Stored(list) => bills := Stored(list + [bill]);
      case Unreadable =>
    }

    /** `deleteBill`: keeps the bills whose `billId` differs. */
    method DeleteBill(billId: Id)
      modifies this
      ensures bills == Stored(RemoveBills(Read(old(bills)), billId)) && items == old(items)
    {
      var existing := GetBills();
      bills := Stored(RemoveBills(existing, billId));
    }
  }
}
