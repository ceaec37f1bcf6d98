/** The home screen's selections. The bill selection is an object keyed by item
    id whose values are the item's fields plus a quantity; its keys keep
    insertion order, so it is modelled as a list of entries with distinct keys. */
module Selection {
  import opened Wrappers
  import opened Seqs
  import opened Store

  type Key = Option<Id>

  /** One value of the selection: an item snapshot and its quantity. */
  datatype Entry = Entry(item: Item, quantity: int)

  /** No key occurs twice. */
  predicate UniqueKeys(sel: seq<Entry>)
  {
    forall i, j :: 0 <= i < j < |sel| ==> sel[i].item.id != sel[j].item.id
  }

  /** `sel[k]`: the entry stored under key `k`, if any. */
  function Lookup(sel: seq<Entry>, k: Key): (r: Option<Entry>)
    ensures r.Some? ==> r.value in sel && r.value.item.id == k
    ensures r.None? <==> forall i :: 0 <= i < |sel| ==> sel[i].item.id != k
  {
    if sel == [] then None
    else if sel[0].item.id == k then Some(sel[0])
    else Lookup(sel[1..], k)
  }

  /** `delete sel[k]`: the other keys keep their order. */
  function Delete(sel: seq<Entry>, k: Key): seq<Entry>
  {
    Filter(sel, (e: Entry) => e.item.id != k)
  }

  /** `{...sel, [e.item.id]: e}`: an existing key keeps its position and gets
      the new value; a new key goes last. */
  function Put(sel: seq<Entry>, e: Entry): (r: seq<Entry>)
    ensures |r| == if Lookup(sel, e.item.id).Some? then |sel| else |sel| + 1
  {
    if sel == [] then [e]
    else if sel[0].item.id == e.item.id then [e] + sel[1..]
    else [sel[0]] + Put(sel[1..], e)
  }

  /** `handleItemPress`: a selected item is dropped, any other is added with quantity 1. */
  function Toggle(sel: seq<Entry>, item: Item): seq<Entry>
  {
    if Lookup(sel, item.id).Some? then Delete(sel, item.id) else sel + [Entry(item, 1)]
  }

  /** `handleSaveQuantity`: the entry for the item is set to the given quantity. */
  function SetQuantity(sel: seq<Entry>, item: Item, quantity: int): seq<Entry>
  {
    Put(sel, Entry(item, quantity))
  }

  /** `calculateTotal`: the sum of price times quantity over the entries. */
  function Total(sel: seq<Entry>): int
  {
    if sel == [] then 0 else sel[0].item.price * sel[0].quantity + Total(sel[1..])
  }

  /** The sum of price times quantity over the lines of a bill. */
  function LinesTotal(lines: seq<BillLine>): int
  {
    if lines == [] then 0 else lines[0].price * lines[0].quantity + LinesTotal(lines[1..])
  }

  /** The bill line snapshotting one entry. */
  function LineOf(e: Entry): BillLine
  {
    BillLine(e.item.id, e.item.name, e.item.price, e.quantity)
  }

  /** The lines `handleGenerateBill` hands to the bill screen, one per entry. */
  function Lines(sel: seq<Entry>): (r: seq<BillLine>)
    ensures |r| == |sel|
    ensures forall i :: 0 <= i < |sel| ==>
      r[i].id == sel[i].item.id && r[i].name == sel[i].item.name &&
      r[i].price == sel[i].item.price && r[i].quantity == sel[i].quantity
  {
    if sel == [] then [] else [LineOf(sel[0])] + Lines(sel[1..])
  }

  /** `handleGenerateBill`: no bill for an empty selection, otherwise its lines. */
  function GenerateBill(sel: seq<Entry>): (r: Option<seq<BillLine>>)
    ensures r.None? <==> sel == []
    ensures r.Some? ==> |r.value| == |sel| && LinesTotal(r.value) == Total(sel)
    ensures r.Some? ==> forall i :: 0 <= i < |sel| ==> r.value[i] == LineOf(sel[i])
  {
    if sel == [] then None else LinesTotalMatches(sel); Some(Lines(sel))
  }

  /** The lines of a selection add up to the selection's total. */
  lemma {:induction false} LinesTotalMatches(sel: seq<Entry>)
    ensures LinesTotal(Lines(sel)) == Total(sel)
  {
    if sel != [] {
      LinesTotalMatches(sel[1..]);
      assert Lines(sel)[1..] == Lines(sel[1..]);
    }
  }

  /** The total of a concatenation is the sum of the totals. */
  lemma {:induction false} TotalConcat(a: seq<Entry>, b: seq<Entry>)
    ensures Total(a + b) == Total(a) + Total(b)
  {
    if a == [] {
      assert a + b == b;
    } else {
      assert (a + b)[1..] == a[1..] + b;
      TotalConcat(a[1..], b);
    }
  }

  /** With non-negative prices and quantities the total is non-negative. */
  lemma {:induction false} TotalNonNegative(sel: seq<Entry>)
    requires forall i :: 0 <= i < |sel| ==> sel[i].item.price >= 0 && sel[i].quantity >= 0
    ensures Total(sel) >= 0
  {
    if sel != [] {
      TotalNonNegative(sel[1..]);
    }
  }

  /** After deleting a key it is gone and every other key keeps its entry. */
  lemma {:induction false} LookupDelete(sel: seq<Entry>, k: Key, k': Key)
    ensures Lookup(Delete(sel, k), k') == if k' == k then None else Lookup(sel, k')
  {
    if sel != [] {
      LookupDelete(sel[1..], k, k');
      if sel[0].item.id != k {
        assert Delete(sel, k) == [sel[0]] + Delete(sel[1..], k);
      } else {
        assert Delete(sel, k) == Delete(sel[1..], k);
      }
    }
  }

  /** After a put the key holds the new entry and every other key is unchanged;
      distinct keys stay distinct. */
  lemma {:induction false} LookupPut(sel: seq<Entry>, e: Entry, k: Key)
    requires UniqueKeys(sel)
    ensures Lookup(Put(sel, e), k) == if k == e.item.id then Some(e) else Lookup(sel, k)
    ensures UniqueKeys(Put(sel, e))
  {
    if sel != [] {
      LookupPut(sel[1..], e, k);
      if sel[0].item.id == e.item.id {
        assert Put(sel, e)[1..] == sel[1..];
      } else {
        var r := Put(sel, e);
        assert r[1..] == Put(sel[1..], e);
        LookupPut(sel[1..], e, sel[0].item.id);
        assert Lookup(sel[1..], sel[0].item.id).None?;
      }
    }
  }

  /** Deleting a key keeps the remaining keys distinct. */
  lemma {:induction false} DeleteKeepsUnique(sel: seq<Entry>, k: Key)
    requires UniqueKeys(sel)
    ensures UniqueKeys(Delete(sel, k))
  {
    if sel != [] {
      DeleteKeepsUnique(sel[1..], k);
      var rest := Delete(sel[1..], k);
      if sel[0].item.id != k {
        assert Delete(sel, k) == [sel[0]] + rest;
        forall j | 0 <= j < |rest| ensures rest[j].item.id != sel[0].item.id {
          assert rest[j] in sel[1..];
        }
      } else {
        assert Delete(sel, k) == rest;
      }
    }
  }

  /** A press changes only the pressed item's key: it disappears if it was
      there and otherwise maps to the item with quantity 1. */
  lemma TogglePress(sel: seq<Entry>, item: Item, k: Key)
    requires UniqueKeys(sel)
    ensures UniqueKeys(Toggle(sel, item))
    ensures Lookup(Toggle(sel, item), k) ==
      if k != item.id then Lookup(sel, k)
      else if Lookup(sel, k).Some? then None
      else Some(Entry(item, 1))
  {
    if Lookup(sel, item.id).Some? {
      LookupDelete(sel, item.id, k);
      DeleteKeepsUnique(sel, item.id);
    } else {
      var e := Entry(item, 1);
      assert Put(sel, e) == sel + [e] by { PutNewAppends(sel, e); }
      LookupPut(sel, e, k);
    }
  }

  /** Putting a key that is absent appends it. */
  lemma {:induction false} PutNewAppends(sel: seq<Entry>, e: Entry)
    requires Lookup(sel, e.item.id).None?
    ensures Put(sel, e) == sel + [e]
  {
    if sel != [] {
      PutNewAppends(sel[1..], e);
    }
  }

  /** Putting a key that is present replaces its entry where it stands and
      leaves every other entry in its place. */
  lemma {:induction false} PutInPlace(sel: seq<Entry>, e: Entry)
    requires UniqueKeys(sel) && Lookup(sel, e.item.id).Some?
    ensures |Put(sel, e)| == |sel|
    ensures forall i :: 0 <= i < |sel| ==> Put(sel, e)[i] == if sel[i].item.id == e.item.id then e else sel[i]
  {
    if sel[0].item.id == e.item.id {
      assert Lookup(sel[1..], e.item.id).None?;
    } else {
      PutInPlace(sel[1..], e);
      assert Put(sel, e) == [sel[0]] + Put(sel[1..], e);
    }
  }

  /** Pressing an unselected item twice restores the selection exactly, order included. */
  lemma ToggleTwice(sel: seq<Entry>, item: Item)
    requires Lookup(sel, item.id).None?
    ensures Toggle(Toggle(sel, item), item) == sel
  {
    var e := Entry(item, 1);
    var keep := (x: Entry) => x.item.id != item.id;
    assert Lookup(sel + [e], item.id).Some? by {
      assert (sel + [e])[|sel|] == e;
    }
    FilterConcat(sel, [e], keep);
    FilterAllKept(sel, keep);
    assert Filter([e], keep) == [] by {
      assert [e][1..] == [];
    }
  }

  /** Pressing an unselected item raises the total by its price. */
  lemma TogglePressTotal(sel: seq<Entry>, item: Item)
    requires Lookup(sel, item.id).None?
    ensures Total(Toggle(sel, item)) == Total(sel) + item.price
  {
    var e := Entry(item, 1);
    TotalConcat(sel, [e]);
    assert [e][1..] == [];
  }

  /** The manage tab's flags: `handleSelectManageItem` negates the flag, an
      absent flag counting as false. */
  function FlipFlag(flags: map<Key, bool>, k: Key): (r: map<Key, bool>)
    ensures k in r && r[k] == !(k in flags && flags[k])
    ensures forall k' :: k' != k ==> (k' in r <==> k' in flags) && (k' in flags ==> r[k'] == flags[k'])
  {
    flags[k := !(k in flags && flags[k])]
  }

  /** The ids `handleDeleteSelected` acts on: exactly the keys whose flag is true. */
  function Flagged(flags: map<Key, bool>): (ids: set<Key>)
    ensures forall k :: k in ids <==> k in flags && flags[k]
  {
    set k | k in flags && flags[k]
  }

  /** Flipping a flag adds its key to, or removes it from, the ids to delete. */
  lemma FlipFlagged(flags: map<Key, bool>, k: Key)
    ensures Flagged(FlipFlag(flags, k)) == if k in Flagged(flags) then Flagged(flags) - {k} else Flagged(flags) + {k}
    ensures Flagged(FlipFlag(FlipFlag(flags, k), k)) == Flagged(flags)
  {
  }
}
