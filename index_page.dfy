/** The item-list updates of the main page (src/pages/Index.tsx): saving an
    edited or a new item, and deleting by id. */
module IndexPage {
  import opened Inventory
  import opened ExportUtils

  /** handleSaveItem. `editing` is the item the editor was opened on (`null`
      for a new item); only whether it is present matters. An edit replaces
      EVERY entry whose id equals the saved item's id, in place; a new item
      is appended at the end. */
  function SaveItem(items: seq<InventoryItem>, item: InventoryItem, editing: Option<InventoryItem>): (r: seq<InventoryItem>)
    ensures editing.Some? ==> |r| == |items|
    ensures editing.Some? ==> forall i :: 0 <= i < |items| && items[i].id == item.id ==> r[i] == item
    ensures editing.Some? ==> forall i :: 0 <= i < |items| && items[i].id != item.id ==> r[i] == items[i]
    ensures editing.None? ==> |r| == |items| + 1 && r[..|items|] == items && r[|items|] == item
  {
    if editing.Some? then
      seq(|items|, i requires 0 <= i < |items| => if items[i].id == item.id then item else items[i])
    else
      items + [item]
  }

  /** handleDelete: the items whose id differs from `id`, in their original order. */
  function Delete(items: seq<InventoryItem>, id: int): (r: seq<InventoryItem>)
    ensures |r| <= |items|
    ensures forall i :: 0 <= i < |r| ==> r[i].id != id
  {
    if items == [] then []
    else if items[0].id == id then Delete(items[1..], id)
    else [items[0]] + Delete(items[1..], id)
  }

  /** An item survives the deletion exactly when it was in the list and its
      id differs from the deleted one. */
  lemma {:induction false} DeleteMembers(items: seq<InventoryItem>, id: int)
    ensures forall x :: x in Delete(items, id) <==> x in items && x.id != id
  {
    if items != [] {
      DeleteMembers(items[1..], id);
      assert items == [items[0]] + items[1..];
    }
  }

  /** Deleting from a concatenation deletes from each part: the relative
      order of the kept items is the original order. */
  lemma {:induction false} DeleteAppend(a: seq<InventoryItem>, b: seq<InventoryItem>, id: int)
    ensures Delete(a + b, id) == Delete(a, id) + Delete(b, id)
  {
    if a != [] {
      DeleteAppend(a[1..], b, id);
      assert (a + b)[0] == a[0];
      assert (a + b)[1..] == a[1..] + b;
      if a[0].id == id {
        assert Delete(a + b, id) == Delete(a[1..] + b, id);
        assert Delete(a, id) == Delete(a[1..], id);
      } else {
        assert Delete(a + b, id) == [a[0]] + Delete(a[1..] + b, id);
        assert Delete(a, id) == [a[0]] + Delete(a[1..], id);
        assert [a[0]] + (Delete(a[1..], id) + Delete(b, id)) == ([a[0]] + Delete(a[1..], id)) + Delete(b, id);
      }
    } else {
      assert a + b == b;
    }
  }

  /** Deleting an id that no item carries leaves the list as it was. */
  lemma {:induction false} DeleteAbsent(items: seq<InventoryItem>, id: int)
    requires forall i :: 0 <= i < |items| ==> items[i].id != id
    ensures Delete(items, id) == items
  {
    if items != [] {
      DeleteAbsent(items[1..], id);
    }
  }

  /** Deleting twice is deleting once. */
  lemma DeleteIdempotent(items: seq<InventoryItem>, id: int)
    ensures Delete(Delete(items, id), id) == Delete(items, id)
  {
    DeleteAbsent(Delete(items, id), id);
  }

  /** Adding an item and then deleting its id is the same as deleting the id
      from the list before the addition. */
  lemma DeleteAfterAdd(items: seq<InventoryItem>, item: InventoryItem)
    ensures Delete(SaveItem(items, item, None), item.id) == Delete(items, item.id)
  {
    DeleteAppend(items, [item], item.id);
    assert Delete([item], item.id) == [];
  }

  /** Editing an item and then deleting its id is the same as deleting the
      id from the list before the edit: the edit touches only entries that
      carry that id. */
  lemma {:induction false} DeleteAfterEdit(items: seq<InventoryItem>, item: InventoryItem, editing: InventoryItem)
    ensures Delete(SaveItem(items, item, Some(editing)), item.id) == Delete(items, item.id)
  {
    if items != [] {
      var saved := SaveItem(items, item, Some(editing));
      DeleteAfterEdit(items[1..], item, editing);
      assert saved[1..] == SaveItem(items[1..], item, Some(editing));
    }
  }

  /** Saving the same edit twice is saving it once. */
  lemma SaveEditIdempotent(items: seq<InventoryItem>, item: InventoryItem, editing: InventoryItem)
    ensures SaveItem(SaveItem(items, item, Some(editing)), item, Some(editing)) == SaveItem(items, item, Some(editing))
  {
  }

  /** A summary of the list after adding an item adds that item's
      contribution to the summary of the list before. */
  lemma SummaryAfterAdd(items: seq<InventoryItem>, item: InventoryItem)
    ensures SummaryOf(SaveItem(items, item, None)) == AddSummary(SummaryOf(items), ItemSummary(item))
  {
    ItemSummariesSnoc(items, item);
    assert ItemSummaries(SaveItem(items, item, None)) == ItemSummaries(items) + [ItemSummary(item)];
    SumSummariesSnocOne(ItemSummaries(items), ItemSummary(item));
  }

  lemma ItemSummariesSnoc(items: seq<InventoryItem>, item: InventoryItem)
    ensures ItemSummaries(items + [item]) == ItemSummaries(items) + [ItemSummary(item)]
  {
    ItemSummariesAppend(items, [item]);
    ItemSummariesAt([item], 0);
  }

  lemma SumSummariesSnocOne(ss: seq<SummaryData>, c: SummaryData)
    ensures SumSummaries(ss + [c]) == AddSummary(SumSummaries(ss), c)
  {
    assert (ss + [c])[..|ss|] == ss;
  }
}
