/** The item editor's form transforms (src/components/ItemDialog.tsx): the
    blank new item and the add / update / remove operations on one of its two
    batch lists. Each operation builds a new item; the `Date.now()` ids the
    editor uses are parameters here. */
module ItemDialog {
  import opened Inventory
  import opened Fifo
  import opened ExportUtils

  /** Which of the two batch lists an edit targets. */
  datatype BatchListKind = PrevMonth | ReceivedThisMonth

  /** Which numeric field of a batch an edit targets. */
  datatype BatchField = Qty | Rate

  /** The blank form opened for a new item, keyed by the id the caller supplies. */
  function NewItem(id: int): InventoryItem {
    InventoryItem(id, "", "KG", BatchGroup([]), BatchGroup([]), ExpenditureEntry(0.0))
  }

  function BatchesOf(item: InventoryItem, kind: BatchListKind): seq<Batch> {
    match kind
    case PrevMonth => item.prevMonth.batches
    case ReceivedThisMonth => item.receivedThisMonth.batches
  }

  /** The item with the chosen list replaced and everything else kept. */
  function WithBatches(item: InventoryItem, kind: BatchListKind, bs: seq<Batch>): (r: InventoryItem)
    ensures BatchesOf(r, kind) == bs
    ensures SameExceptBatches(item, r, kind)
  {
    match kind
    case PrevMonth => item.(prevMonth := BatchGroup(bs))
    case ReceivedThisMonth => item.(receivedThisMonth := BatchGroup(bs))
  }

  /** The two items agree on id, name, unit, expenditure and the list that is not `kind`. */
  predicate SameExceptBatches(a: InventoryItem, b: InventoryItem, kind: BatchListKind) {
    && a.id == b.id
    && a.name == b.name
    && a.unit == b.unit
    && a.expenditureThisMonth == b.expenditureThisMonth
    && (kind == PrevMonth ==> a.receivedThisMonth == b.receivedThisMonth)
    && (kind == ReceivedThisMonth ==> a.prevMonth == b.prevMonth)
  }

  /** A new item starts with no stock and no request: its totals, its
      allocation, its balance and its summary contribution are all empty. */
  lemma NewItemIsEmpty(id: int)
    ensures var item := NewItem(id);
      && item.id == id && item.name == "" && item.unit == "KG"
      && AllBatches(item) == []
      && item.expenditureThisMonth.qty == 0.0
      && TotalReceived(item) == QtyRateAmount(0.0, 0.0, 0.0)
      && Allocation(AllBatches(item), item.expenditureThisMonth.qty) == []
      && Leftover(AllBatches(item), item.expenditureThisMonth.qty) == []
      && ItemSummary(item) == ZeroSummary
  {
    var item := NewItem(id);
    assert AllBatches(item) == [];
  }

  /** addBatch: one zero batch appended at the end of the chosen list. */
  function AddBatch(item: InventoryItem, kind: BatchListKind, batchId: int): (r: InventoryItem)
    ensures SameExceptBatches(item, r, kind)
    ensures |BatchesOf(r, kind)| == |BatchesOf(item, kind)| + 1
    ensures BatchesOf(r, kind)[..|BatchesOf(item, kind)|] == BatchesOf(item, kind)
    ensures BatchesOf(r, kind)[|BatchesOf(item, kind)|] == Batch(batchId, 0.0, 0.0)
  {
    WithBatches(item, kind, BatchesOf(item, kind) + [Batch(batchId, 0.0, 0.0)])
  }

  /** A batch with one field set to `value`, keeping its id and the other field. */
  function SetField(b: Batch, field: BatchField, value: real): (r: Batch)
    ensures r.id == b.id
    ensures field == Qty ==> r.qty == value && r.rate == b.rate
    ensures field == Rate ==> r.rate == value && r.qty == b.qty
  {
    match field
    case Qty => b.(qty := value)
    case Rate => b.(rate := value)
  }

  /** updateBatch: the chosen list mapped position by position, the batch at
      `index` getting the new field value. An index outside the list matches
      no position and leaves the item as it was. */
  function UpdateBatch(item: InventoryItem, kind: BatchListKind, index: int, field: BatchField, value: real): (r: InventoryItem)
    ensures SameExceptBatches(item, r, kind)
    ensures var bs := BatchesOf(item, kind);
      0 <= index < |bs| ==> BatchesOf(r, kind) == bs[index := SetField(bs[index], field, value)]
    ensures !(0 <= index < |BatchesOf(item, kind)|) ==> r == item
  {
    var bs := BatchesOf(item, kind);
    var mapped := seq(|bs|, i requires 0 <= i < |bs| => if i == index then SetField(bs[i], field, value) else bs[i]);
    if !(0 <= index < |bs|) then
      assert mapped == bs;
      WithOwnBatches(item, WithBatches(item, kind, mapped), kind);
      WithBatches(item, kind, mapped)
    else
      WithBatches(item, kind, mapped)
  }

  /** The list without its entry at `index`, keeping the others in order
      (`filter((_, i) => i !== index)`). */
  function RemoveAt(bs: seq<Batch>, index: int): (r: seq<Batch>)
    ensures 0 <= index < |bs| ==> r == bs[..index] + bs[index + 1..]
    ensures !(0 <= index < |bs|) ==> r == bs
  {
    if bs == [] then []
    else
      var rest := RemoveAt(bs[1..], index - 1);
      if index == 0 then
        assert rest == bs[1..];
        rest
      else
        assert 0 < index < |bs| ==> rest == bs[1..][..index - 1] + bs[1..][index..];
        assert 0 < index < |bs| ==> [bs[0]] + bs[1..][..index - 1] == bs[..index];
        assert 0 < index < |bs| ==> bs[1..][index..] == bs[index + 1..];
        [bs[0]] + rest
  }

  /** removeBatch: exactly the batch at `index` is dropped from the chosen list. */
  function RemoveBatch(item: InventoryItem, kind: BatchListKind, index: int): (r: InventoryItem)
    ensures SameExceptBatches(item, r, kind)
    ensures var bs, bs' := BatchesOf(item, kind), BatchesOf(r, kind);
      && |bs'| == (if 0 <= index < |bs| then |bs| - 1 else |bs|)
      && (forall i :: 0 <= i < |bs'| && i < index ==> bs'[i] == bs[i])
      && (forall i :: 0 <= i < |bs'| && 0 <= index <= i ==> bs'[i] == bs[i + 1])
    ensures !(0 <= index < |BatchesOf(item, kind)|) ==> r == item
  {
    var bs := BatchesOf(item, kind);
    RemoveAtEntries(bs, index);
    var r := WithBatches(item, kind, RemoveAt(bs, index));
    if 0 <= index < |bs| then
      r
    else
      WithOwnBatches(item, r, kind);
      r
  }

  /** Entry by entry, removing position `index` keeps the entries before it
      and shifts the later ones down by one. */
  lemma RemoveAtEntries(bs: seq<Batch>, index: int)
    ensures var r := RemoveAt(bs, index);
      && |r| == (if 0 <= index < |bs| then |bs| - 1 else |bs|)
      && (forall i :: 0 <= i < |r| && i < index ==> r[i] == bs[i])
      && (forall i :: 0 <= i < |r| && 0 <= index <= i ==> r[i] == bs[i + 1])
  {
    var r := RemoveAt(bs, index);
    if 0 <= index < |bs| {
      assert forall i :: 0 <= i < |r| && i < index ==> r[i] == bs[..index][i];
      assert forall i :: 0 <= i < |r| && index <= i ==> r[i] == bs[index + 1..][i - index];
    }
  }

  /** Putting the changed list back in place, the item is rebuilt exactly. */
  lemma WithOwnBatches(item: InventoryItem, r: InventoryItem, kind: BatchListKind)
    requires SameExceptBatches(item, r, kind)
    requires BatchesOf(r, kind) == BatchesOf(item, kind)
    ensures r == item
  {
    match kind
    case PrevMonth =>
    case ReceivedThisMonth =>
  }

  /** Removing the batch just added gives back the item as it was. */
  lemma RemoveAfterAdd(item: InventoryItem, kind: BatchListKind, batchId: int)
    ensures RemoveBatch(AddBatch(item, kind, batchId), kind, |BatchesOf(item, kind)|) == item
  {
    var added := AddBatch(item, kind, batchId);
    var r := RemoveBatch(added, kind, |BatchesOf(item, kind)|);
    var bs := BatchesOf(added, kind);
    assert BatchesOf(r, kind) == bs[..|BatchesOf(item, kind)|] + bs[|BatchesOf(item, kind)| + 1..];
    assert bs[|BatchesOf(item, kind)| + 1..] == [];
    WithOwnBatches(item, r, kind);
  }

  /** Writing back a batch field's former value undoes an update. */
  lemma UpdateRestores(item: InventoryItem, kind: BatchListKind, index: int, field: BatchField, value: real)
    requires 0 <= index < |BatchesOf(item, kind)|
    ensures var b := BatchesOf(item, kind)[index];
      var former := if field == Qty then b.qty else b.rate;
      UpdateBatch(UpdateBatch(item, kind, index, field, value), kind, index, field, former) == item
  {
    var bs := BatchesOf(item, kind);
    var b := bs[index];
    var former := if field == Qty then b.qty else b.rate;
    var r := UpdateBatch(UpdateBatch(item, kind, index, field, value), kind, index, field, former);
    assert SetField(SetField(b, field, value), field, former) == b;
    assert BatchesOf(r, kind) == bs;
    WithOwnBatches(item, r, kind);
  }

  /** The quantity sum after one entry is replaced. */
  lemma {:induction false} SumQtyUpdate(bs: seq<Batch>, i: nat, b: Batch)
    requires i < |bs|
    ensures SumQty(bs[i := b]) == SumQty(bs) - bs[i].qty + b.qty
  {
    if i > 0 {
      SumQtyUpdate(bs[1..], i - 1, b);
      assert bs[i := b][1..] == bs[1..][i - 1 := b];
    }
  }

  /** The total received quantity of an item, over its two lists. */
  lemma TotalReceivedQty(item: InventoryItem, kind: BatchListKind)
    ensures TotalReceived(item).qty == SumQty(BatchesOf(item, kind)) + SumQty(BatchesOf(item, if kind == PrevMonth then ReceivedThisMonth else PrevMonth))
  {
  }

  /** Setting a batch's quantity moves the item's total received quantity by
      the difference between the new and the former quantity. */
  lemma UpdateQtyShiftsTotal(item: InventoryItem, kind: BatchListKind, index: int, value: real)
    requires 0 <= index < |BatchesOf(item, kind)|
    ensures TotalReceived(UpdateBatch(item, kind, index, Qty, value)).qty
      == TotalReceived(item).qty - BatchesOf(item, kind)[index].qty + value
  {
    var bs := BatchesOf(item, kind);
    var r := UpdateBatch(item, kind, index, Qty, value);
    SumQtyUpdate(bs, index, SetField(bs[index], Qty, value));
    TotalReceivedQty(item, kind);
    TotalReceivedQty(r, kind);
  }

  /** A newly added zero batch changes neither the total received quantity nor its amount. */
  lemma AddKeepsTotals(item: InventoryItem, kind: BatchListKind, batchId: int)
    ensures TotalReceived(AddBatch(item, kind, batchId)).qty == TotalReceived(item).qty
    ensures TotalReceived(AddBatch(item, kind, batchId)).amount == TotalReceived(item).amount
  {
    var bs := BatchesOf(item, kind);
    SumsAppend(bs, [Batch(batchId, 0.0, 0.0)]);
    assert BatchesOf(AddBatch(item, kind, batchId), kind) == bs + [Batch(batchId, 0.0, 0.0)];
  }

  /** Removing a batch lowers the item's total received quantity by exactly that batch's quantity. */
  lemma RemoveLowersTotal(item: InventoryItem, kind: BatchListKind, index: int)
    requires 0 <= index < |BatchesOf(item, kind)|
    ensures TotalReceived(RemoveBatch(item, kind, index)).qty
      == TotalReceived(item).qty - BatchesOf(item, kind)[index].qty
  {
    var bs := BatchesOf(item, kind);
    var r := RemoveBatch(item, kind, index);
    assert bs == bs[..index] + bs[index..];
    assert bs[index..] == [bs[index]] + bs[index + 1..];
    SumsAppend(bs[..index], bs[index..]);
    SumsAppend([bs[index]], bs[index + 1..]);
    SumsAppend(bs[..index], bs[index + 1..]);
    TotalReceivedQty(item, kind);
    TotalReceivedQty(r, kind);
  }
}
