/** The home screen's handler state: the loaded catalogue, the bill selection,
    the item whose quantity is being edited, and the manage tab's flags. */
module Home {
  import opened Wrappers
  import opened Store
  import opened Selection
  import opened ItemEdit

  /** What the bulk delete did. */
  datatype DeleteOutcome = NothingSelected | Cancelled | Deleted(ids: set<Key>)

  class HomeScreen {
    const db: Database
    var items: seq<Item>
    var selected: seq<Entry>
    var quantityTarget: Option<Item>
    var flags: map<Key, bool>

    /** The selection never holds two entries for one item. */
    ghost predicate Valid()
      reads this
    {
      UniqueKeys(selected)
    }

    constructor (db: Database)
      ensures Valid() && this.db == db
      ensures items == [] && selected == [] && quantityTarget == None && flags == map[]
    {
      this.db := db;
      items, selected, quantityTarget, flags := [], [], None, map[];
    }

    /** `loadItems`. */
    method LoadItems()
      modifies this
      ensures items == Read(db.items)
      ensures selected == old(selected) && quantityTarget == old(quantityTarget) && flags == old(flags)
    {
      items := db.GetItems();
    }

    /** `handleItemPress`. */
    method PressItem(item: Item)
      requires Valid()
      modifies this
      ensures Valid()
      ensures selected == Toggle(old(selected), item)
      ensures forall k :: (Lookup(selected, k) ==
        if k != item.id then Lookup(old(selected), k)
        else if Lookup(old(selected), k).Some? then None
        else Some(Entry(item, 1)))
      ensures items == old(items) && quantityTarget == old(quantityTarget) && flags == old(flags)
    {
      forall k ensures Lookup(Toggle(selected, item), k) ==
        if k != item.id then Lookup(selected, k)
        else if Lookup(selected, k).Some? then None
        else Some(Entry(item, 1))
      {
        TogglePress(selected, item, k);
      }
      TogglePress(selected, item, item.id);
      selected := Toggle(selected, item);
    }

    /** `handleItemLongPress`: opens the quantity editor on the item. */
    method LongPressItem(item: Item)
      modifies this
      ensures quantityTarget == Some(item)
      ensures items == old(items) && selected == old(selected) && flags == old(flags)
    {
      quantityTarget := Some(item);
    }

    /** `handleSaveQuantity`: with an item under edit, its entry becomes that
        item with the new quantity and the editor closes; otherwise nothing. */
    method SaveQuantity(quantity: int)
      requires Valid()
      modifies this
      ensures Valid() && quantityTarget == None
      ensures old(quantityTarget).None? ==> selected == old(selected)
      ensures old(quantityTarget).Some? ==> selected == SetQuantity(old(selected), old(quantityTarget).value, quantity)
      ensures old(quantityTarget).Some? ==> forall k :: (Lookup(selected, k) ==
        if k == old(quantityTarget).value.id then Some(Entry(old(quantityTarget).value, quantity))
        else Lookup(old(selected), k))
      ensures items == old(items) && flags == old(flags)
    {
      if quantityTarget.Some? {
        var item := quantityTarget.value;
        var e := Entry(item, quantity);
        forall k ensures Lookup(Put(selected, e), k) == if k == item.id then Some(e) else Lookup(selected, k) {
          LookupPut(selected, e, k);
        }
        LookupPut(selected, e, item.id);
        selected := SetQuantity(selected, item, quantity);
      }
      quantityTarget := None;
    }

    /** `handleGenerateBill`: the lines handed to the bill screen, none when
        nothing is selected. */
    method GenerateBillLines() returns (lines: Option<seq<BillLine>>)
      ensures lines.None? <==> selected == []
      ensures lines.Some? ==> lines.value == Lines(selected) && LinesTotal(lines.value) == Total(selected)
    {
      lines := GenerateBill(selected);
    }

    /** `handleSelectManageItem`. */
    method SelectManageItem(item: Item)
      modifies this
      ensures flags == FlipFlag(old(flags), item.id)
      ensures items == old(items) && selected == old(selected) && quantityTarget == old(quantityTarget)
    {
      flags := FlipFlag(flags, item.id);
    }

    /** `handleSaveItem` behind the editor's validation: a valid edit is saved
        through the store and the catalogue reloaded. */
    method SaveEditedItem(id: Option<Id>, name: string, price: Option<int>, freshId: Id)
      returns (r: Result<seq<Item>, EditError>)
      modifies this, db
      ensures r.Err? <==> ValidateEdit(id, name, price).Err?
      ensures r.Err? ==> r.error == ValidateEdit(id, name, price).error
      ensures r.Ok? ==> r.value == SaveItems(Read(old(db.items)), ValidateEdit(id, name, price).value, freshId)
      ensures r.Err? ==> db.items == old(db.items) && items == old(items)
      ensures r.Ok? ==> db.items == Stored(r.value) && items == r.value
      ensures db.bills == old(db.bills)
      ensures selected == old(selected) && quantityTarget == old(quantityTarget) && flags == old(flags)
    {
      var checked := ValidateEdit(id, name, price);
      if checked.Err? {
        r := Err(checked.error);
      } else {
        var saved := db.SaveItem(checked.value, freshId);
        items := db.GetItems();
        r := Ok(saved);
      }
    }

    /** `handleDeleteSelected`: refuses when no flag is set; once confirmed,
        deletes every flagged id one after another, clears the flags and
        reloads the catalogue. */
    method DeleteSelected(confirmed: bool) returns (outcome: DeleteOutcome)
      modifies this, db
      ensures Flagged(old(flags)) == {} ==> outcome == NothingSelected
      ensures Flagged(old(flags)) != {} && !confirmed ==> outcome == Cancelled
      ensures Flagged(old(flags)) != {} && confirmed ==> outcome == Deleted(Flagged(old(flags)))
      ensures outcome.Deleted? ==> db.items == Stored(RemoveIds(Read(old(db.items)), outcome.ids))
      ensures outcome.Deleted? ==> flags == map[] && items == Read(db.items)
      ensures !outcome.Deleted? ==> db.items == old(db.items) && flags == old(flags) && items == old(items)
      ensures db.bills == old(db.bills)
      ensures selected == old(selected) && quantityTarget == old(quantityTarget)
    {
      var ids := Flagged(flags);
      if ids == {} {
        return NothingSelected;
      }
      if !confirmed {
        return Cancelled;
      }
      ghost var original := Read(db.items);
      var todo := ids;
      ghost var done: set<Key> := {};
      while todo != {}
        invariant todo + done == ids && todo !! done
        invariant done == {} ==> db.items == old(db.items)
        invariant done != {} ==> db.items == Stored(RemoveIds(original, done))
        invariant db.bills == old(db.bills)
        invariant selected == old(selected) && quantityTarget == old(quantityTarget) && flags == old(flags)
        decreases todo
      {
        var id :| id in todo;
        ghost var before := Read(db.items);
        db.DeleteItem(id);
        if done == {} {
          RemoveIdsStep(original, {}, id);
          assert done + {id} == {id};
        } else {
          RemoveIdsStep(original, done, id);
          assert before == RemoveIds(original, done);
        }
        todo := todo - {id};
        done := done + {id};
      }
      flags := map[];
      items := db.GetItems();
      outcome := Deleted(ids);
    }
  }
}
