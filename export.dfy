/** The two report producers of src/utils/exportUtils.ts: the row
    materializer (createBatchRows) and the summary fold (calculateSummary).
    The spreadsheet and document writers that consume them are not modelled.

    A cell field that the report prints with `toFixed(2)` is `Some` of the
    exact number; a field it prints as `''` is `None`. */
module ExportUtils {
  import opened Inventory
  import opened Fifo

  /** The batch at position i of a list; `None` past its end, where the
      source reads `undefined`. */
  function At(bs: seq<Batch>, i: nat): (r: Option<Batch>)
    ensures r.Some? <==> i < |bs|
    ensures i < |bs| ==> r.value == bs[i]
  {
    if i < |bs| then Some(bs[i]) else None
  }

  /** `batch?.qty || 0` */
  function QtyOrZero(b: Option<Batch>): real {
    if b.Some? then b.value.qty else 0.0
  }

  /** `batch?.rate || 0` */
  function RateOrZero(b: Option<Batch>): real {
    if b.Some? then b.value.rate else 0.0
  }

  /** A number shown only when positive: `x > 0 ? x.toFixed(2) : ''`. */
  function IfPositive(x: real): (r: Option<real>)
    ensures r.Some? <==> x > 0.0
    ensures r.GetOr(0.0) == if x > 0.0 then x else 0.0
  {
    if x > 0.0 then Some(x) else None
  }

  /** The all-zero cell of an item with no batches at all. */
  const ZeroCell := Cell(Some(0.0), Some(0.0), Some(0.0))

  /** The blank cell `{ qty: '', rate: '', amount: '' }`. */
  const BlankCell: Cell := Cell(None, None, None)

  /** A previous-month or received cell: the batch's qty, rate and
      qty × rate, or blank when there is no batch at this row. */
  function BatchCell(b: Option<Batch>): (c: Cell)
    ensures b.None? ==> c == BlankCell
    ensures b.Some? ==> c == Cell(Some(b.value.qty), Some(b.value.rate), Some(Amount(b.value)))
  {
    match b
    case None => BlankCell
    case Some(x) => Cell(Some(x.qty), Some(x.rate), Some(Amount(x)))
  }

  /** The row-wise total-received cell: the sum of this row's previous and
      received batches (a missing one counts as 0); each field blank unless
      positive. */
  function RowTotalCell(p: Option<Batch>, q: Option<Batch>): Cell {
    var qty := RowQty(p, q);
    var amount := RowAmount(p, q);
    Cell(IfPositive(qty), IfPositive(RateOf(amount, qty)), IfPositive(amount))
  }

  /** `(prevBatch?.qty || 0) + (receivedBatch?.qty || 0)` */
  function RowQty(p: Option<Batch>, q: Option<Batch>): real {
    QtyOrZero(p) + QtyOrZero(q)
  }

  /** The row's amount, a missing batch counting as qty 0 at rate 0. */
  function RowAmount(p: Option<Batch>, q: Option<Batch>): real {
    QtyOrZero(p) * RateOrZero(p) + QtyOrZero(q) * RateOrZero(q)
  }

  /** The expenditure cell of an item's first row: the REQUESTED quantity,
      with the rate and amount of the FIFO allocation. */
  function ExpenditureCell(item: InventoryItem): Cell {
    var x := item.expenditureThisMonth.qty;
    var amount := SumAmount(Allocation(AllBatches(item), x));
    Cell(Some(x), Some(RateOf(amount, x)), Some(amount))
  }

  /** The balance cell of an item's first row: totals of the leftover queue. */
  function BalanceCell(item: InventoryItem): Cell {
    var left := Leftover(AllBatches(item), item.expenditureThisMonth.qty);
    Cell(Some(SumQty(left)), Some(FifoRate(left)), Some(SumAmount(left)))
  }

  /** The total-received quantity column of a block of rows, blanks read as 0. */
  function ColumnQty(rows: seq<BatchRow>): real {
    if rows == [] then 0.0 else rows[0].totalReceived.qty.GetOr(0.0) + ColumnQty(rows[1..])
  }

  /** The total-received amount column of a block of rows, blanks read as 0. */
  function ColumnAmount(rows: seq<BatchRow>): real {
    if rows == [] then 0.0 else rows[0].totalReceived.amount.GetOr(0.0) + ColumnAmount(rows[1..])
  }

  /** The tail of a batch list, empty for an empty list. */
  function Tail(bs: seq<Batch>): (t: seq<Batch>)
    ensures |t| == if bs == [] then 0 else |bs| - 1
    ensures forall i: nat :: At(t, i) == At(bs, i + 1)
    ensures NonNegativeQty(bs) ==> NonNegativeQty(t)
    ensures NonNegativeRate(bs) ==> NonNegativeRate(t)
  {
    if bs == [] then [] else bs[1..]
  }

  /** With non-negative quantities, a total-received quantity column at
      least as long as both batch lists, read with blanks as 0, adds up to the
      two lists' quantities. */
  lemma {:induction false} ColumnQtySums(rows: seq<BatchRow>, p: seq<Batch>, q: seq<Batch>)
    requires |rows| >= |p| && |rows| >= |q|
    requires forall i :: 0 <= i < |rows| ==>
      rows[i].totalReceived.qty == IfPositive(RowQty(At(p, i), At(q, i)))
    requires NonNegativeQty(p) && NonNegativeQty(q)
    ensures ColumnQty(rows) == SumQty(p) + SumQty(q)
  {
    if rows != [] {
      var rows' := rows[1..];
      var hp, hq := At(p, 0), At(q, 0);
      forall i | 0 <= i < |rows'|
        ensures rows'[i].totalReceived.qty == IfPositive(RowQty(At(Tail(p), i), At(Tail(q), i)))
      {
        assert rows'[i] == rows[i + 1];
      }
      ColumnQtySums(rows', Tail(p), Tail(q));
      assert SumQty(p) == QtyOrZero(hp) + SumQty(Tail(p));
      assert SumQty(q) == QtyOrZero(hq) + SumQty(Tail(q));
      assert RowQty(hp, hq) >= 0.0;
      assert ColumnQty(rows) == RowQty(hp, hq) + ColumnQty(rows');
    }
  }

  /** With non-negative quantities and rates, a total-received amount column
      at least as long as both batch lists, read with blanks as 0, adds up to
      the two lists' amounts. */
  lemma {:induction false} ColumnAmountSums(rows: seq<BatchRow>, p: seq<Batch>, q: seq<Batch>)
    requires |rows| >= |p| && |rows| >= |q|
    requires forall i :: 0 <= i < |rows| ==>
      rows[i].totalReceived.amount == IfPositive(RowAmount(At(p, i), At(q, i)))
    requires NonNegativeQty(p) && NonNegativeQty(q)
    requires NonNegativeRate(p) && NonNegativeRate(q)
    ensures ColumnAmount(rows) == SumAmount(p) + SumAmount(q)
  {
    if rows != [] {
      var rows' := rows[1..];
      var hp, hq := At(p, 0), At(q, 0);
      forall i | 0 <= i < |rows'|
        ensures rows'[i].totalReceived.amount == IfPositive(RowAmount(At(Tail(p), i), At(Tail(q), i)))
      {
        assert rows'[i] == rows[i + 1];
      }
      ColumnAmountSums(rows', Tail(p), Tail(q));
      HeadAmount(p);
      HeadAmount(q);
      RowAmountNonNegative(hp, hq);
      assert rows[0].totalReceived.amount.GetOr(0.0) == RowAmount(hp, hq);
      assert ColumnAmount(rows) == RowAmount(hp, hq) + ColumnAmount(rows');
    }
  }

  lemma HeadAmount(bs: seq<Batch>)
    ensures SumAmount(bs) == QtyOrZero(At(bs, 0)) * RateOrZero(At(bs, 0)) + SumAmount(Tail(bs))
  {
  }

  lemma RowAmountNonNegative(a: Option<Batch>, b: Option<Batch>)
    requires a.Some? ==> a.value.qty >= 0.0 && a.value.rate >= 0.0
    requires b.Some? ==> b.value.qty >= 0.0 && b.value.rate >= 0.0
    ensures RowAmount(a, b) >= 0.0
  {
  }

  /** createBatchRows: one block of report rows for an item, as many rows as
      its longer batch list (one all-zero row when both are empty). Only the
      first row carries the serial number, name and unit, and only the first
      row carries the expenditure and balance. */
  method CreateBatchRows(item: InventoryItem, slNo: int) returns (rows: seq<BatchRow>)
    ensures var m := Max(|item.prevMonth.batches|, |item.receivedThisMonth.batches|);
      |rows| == if m == 0 then 1 else m
    ensures |item.prevMonth.batches| == 0 && |item.receivedThisMonth.batches| == 0 ==>
      rows == [BatchRow(slNo, item.name, item.unit, ZeroCell, ZeroCell, ZeroCell, ZeroCell, ZeroCell)]
    ensures |item.prevMonth.batches| > 0 || |item.receivedThisMonth.batches| > 0 ==>
      forall i :: 0 <= i < |rows| ==> rows[i] == BlockRow(item, slNo, i, ExpenditureCell(item), BalanceCell(item))
    ensures |rows| > 0 && rows[0].slNo == slNo && rows[0].itemName == item.name && rows[0].unit == item.unit
  {
    var prevBatches := item.prevMonth.batches;
    var receivedBatches := item.receivedThisMonth.batches;
    var maxBatches := Max(|prevBatches|, |receivedBatches|);
    if maxBatches == 0 {
      rows := [BatchRow(slNo, item.name, item.unit, ZeroCell, ZeroCell, ZeroCell, ZeroCell, ZeroCell)];
      assert rows[1..] == [];
      return;
    }
    rows := [];
    var expenditureCell, balanceCell := FirstRowData(item);
    for i := 0 to maxBatches
      invariant |rows| == i
      invariant forall j :: 0 <= j < i ==> rows[j] == BlockRow(item, slNo, j, expenditureCell, balanceCell)
    {
      var prevBatch := At(prevBatches, i);
      var receivedBatch := At(receivedBatches, i);
      var row := BatchRow(
        if i == 0 then slNo else 0,
        if i == 0 then item.name else "",
        if i == 0 then item.unit else "",
        BatchCell(prevBatch),
        BatchCell(receivedBatch),
        RowTotalCell(prevBatch, receivedBatch),
        if i == 0 then expenditureCell else BlankCell,
        if i == 0 then balanceCell else BlankCell);
      rows := rows + [row];
    }
  }

  /** The expenditure and balance cells of a block's first row, from the
      results of calculateExpenditureBatches and calculateBalanceNextMonth. */
  method FirstRowData(item: InventoryItem) returns (expenditure: Cell, balance: Cell)
    ensures expenditure == ExpenditureCell(item)
    ensures balance == BalanceCell(item)
  {
    var expenditureData := CalculateExpenditureBatches(item);
    var balanceData := CalculateBalanceNextMonth(item);
    expenditure := Cell(Some(item.expenditureThisMonth.qty), Some(expenditureData.rate), Some(expenditureData.amount));
    balance := Cell(Some(balanceData.qty), Some(balanceData.rate), Some(balanceData.amount));
  }

  /** Row i of an item's block when at least one batch list is non-empty. */
  function BlockRow(item: InventoryItem, slNo: int, i: nat, expenditure: Cell, balance: Cell): BatchRow {
    var p, q := At(item.prevMonth.batches, i), At(item.receivedThisMonth.batches, i);
    BatchRow(
      if i == 0 then slNo else 0,
      if i == 0 then item.name else "",
      if i == 0 then item.unit else "",
      BatchCell(p),
      BatchCell(q),
      RowTotalCell(p, q),
      if i == 0 then expenditure else BlankCell,
      if i == 0 then balance else BlankCell)
  }

  /** What each row of a block carries, read off position by position. */
  lemma {:induction false} BlockRowsFields(item: InventoryItem, slNo: int, rows: seq<BatchRow>)
    requires |rows| == Max(|item.prevMonth.batches|, |item.receivedThisMonth.batches|) > 0
    requires forall j :: 0 <= j < |rows| ==> rows[j] == BlockRow(item, slNo, j, ExpenditureCell(item), BalanceCell(item))
    ensures rows[0].slNo == slNo && rows[0].itemName == item.name && rows[0].unit == item.unit
    ensures rows[0].expenditure == ExpenditureCell(item) && rows[0].balance == BalanceCell(item)
    ensures forall i :: 0 < i < |rows| ==>
      && rows[i].slNo == 0 && rows[i].itemName == "" && rows[i].unit == ""
      && rows[i].expenditure == BlankCell && rows[i].balance == BlankCell
    ensures forall i :: 0 <= i < |rows| ==>
      && rows[i].prevMonth == BatchCell(At(item.prevMonth.batches, i))
      && rows[i].receivedThisMonth == BatchCell(At(item.receivedThisMonth.batches, i))
      && rows[i].totalReceived == RowTotalCell(At(item.prevMonth.batches, i), At(item.receivedThisMonth.batches, i))
    ensures NonNegativeQty(item.prevMonth.batches) && NonNegativeQty(item.receivedThisMonth.batches) ==>
      ColumnQty(rows) == TotalReceived(item).qty
    ensures && NonNegativeQty(item.prevMonth.batches) && NonNegativeQty(item.receivedThisMonth.batches)
            && NonNegativeRate(item.prevMonth.batches) && NonNegativeRate(item.receivedThisMonth.batches)
            ==> ColumnAmount(rows) == TotalReceived(item).amount
  {
    assert rows[0] == BlockRow(item, slNo, 0, ExpenditureCell(item), BalanceCell(item));
    RowColumnsSum(item, rows);
  }

  /** A block with one row per position of the longer batch list, each
      carrying that position's row-wise total-received cell, has columns that
      add up to the item's total received. */
  lemma {:induction false} RowColumnsSum(item: InventoryItem, rows: seq<BatchRow>)
    requires |rows| == Max(|item.prevMonth.batches|, |item.receivedThisMonth.batches|)
    requires forall j :: 0 <= j < |rows| ==>
      rows[j].totalReceived == RowTotalCell(At(item.prevMonth.batches, j), At(item.receivedThisMonth.batches, j))
    ensures NonNegativeQty(item.prevMonth.batches) && NonNegativeQty(item.receivedThisMonth.batches) ==>
      ColumnQty(rows) == TotalReceived(item).qty
    ensures && NonNegativeQty(item.prevMonth.batches) && NonNegativeQty(item.receivedThisMonth.batches)
            && NonNegativeRate(item.prevMonth.batches) && NonNegativeRate(item.receivedThisMonth.batches)
            ==> ColumnAmount(rows) == TotalReceived(item).amount
  {
    var p, q := item.prevMonth.batches, item.receivedThisMonth.batches;
    if NonNegativeQty(p) && NonNegativeQty(q) {
      ColumnQtySums(rows, p, q);
      if NonNegativeRate(p) && NonNegativeRate(q) {
        ColumnAmountSums(rows, p, q);
      }
    }
  }

  /** The five per-item contributions calculateSummary adds for one item. */
  function ItemSummary(item: InventoryItem): SummaryData {
    var all := AllBatches(item);
    var x := item.expenditureThisMonth.qty;
    SummaryData(
      QtyAmount(SumQty(item.prevMonth.batches), SumAmount(item.prevMonth.batches)),
      QtyAmount(SumQty(item.receivedThisMonth.batches), SumAmount(item.receivedThisMonth.batches)),
      QtyAmount(SumQty(all), SumAmount(all)),
      QtyAmount(x, SumAmount(Allocation(all, x))),
      QtyAmount(SumQty(Leftover(all, x)), SumAmount(Leftover(all, x))))
  }

  function Plus(a: QtyAmount, b: QtyAmount): QtyAmount {
    QtyAmount(a.qty + b.qty, a.amount + b.amount)
  }

  function AddSummary(s: SummaryData, t: SummaryData): SummaryData {
    SummaryData(
      Plus(s.prevMonthTotal, t.prevMonthTotal),
      Plus(s.receivedThisMonthTotal, t.receivedThisMonthTotal),
      Plus(s.totalReceivedTotal, t.totalReceivedTotal),
      Plus(s.totalExpenditureTotal, t.totalExpenditureTotal),
      Plus(s.balanceNextMonthTotal, t.balanceNextMonthTotal))
  }

  const ZeroTotal := QtyAmount(0.0, 0.0)

  const ZeroSummary := SummaryData(ZeroTotal, ZeroTotal, ZeroTotal, ZeroTotal, ZeroTotal)

  /** `f` applied to each item, in list order. */
  function MapItems(f: InventoryItem -> SummaryData, items: seq<InventoryItem>): (ss: seq<SummaryData>)
    ensures |ss| == |items|
  {
    if items == [] then [] else [f(items[0])] + MapItems(f, items[1..])
  }

  lemma {:induction false} MapItemsAt(f: InventoryItem -> SummaryData, items: seq<InventoryItem>, i: nat)
    requires i < |items|
    ensures MapItems(f, items)[i] == f(items[i])
  {
    if i > 0 {
      MapItemsAt(f, items[1..], i - 1);
    }
  }

  lemma {:induction false} MapItemsAppend(f: InventoryItem -> SummaryData, a: seq<InventoryItem>, b: seq<InventoryItem>)
    ensures MapItems(f, a + b) == MapItems(f, a) + MapItems(f, b)
  {
    if a == [] {
      assert a + b == b;
    } else {
      MapItemsAppend(f, a[1..], b);
      assert (a + b)[0] == a[0];
      assert (a + b)[1..] == a[1..] + b;
      assert MapItems(f, a + b) == [f(a[0])] + MapItems(f, a[1..] + b);
      ConcatAssociativeSummaries([f(a[0])], MapItems(f, a[1..]), MapItems(f, b));
    }
  }

  lemma ConcatAssociativeSummaries(a: seq<SummaryData>, b: seq<SummaryData>, c: seq<SummaryData>)
    ensures (a + b) + c == a + (b + c)
  {
  }

  /** The per-item contributions, in list order. */
  function ItemSummaries(items: seq<InventoryItem>): (ss: seq<SummaryData>)
    ensures |ss| == |items|
  {
    MapItems(ItemSummary, items)
  }

  /** Entry i of the contributions is item i's contribution. */
  lemma ItemSummariesAt(items: seq<InventoryItem>, i: nat)
    requires i < |items|
    ensures ItemSummaries(items)[i] == ItemSummary(items[i])
  {
    MapItemsAt(ItemSummary, items, i);
  }

  /** The contributions of a concatenation are those of its parts, in order. */
  lemma ItemSummariesAppend(a: seq<InventoryItem>, b: seq<InventoryItem>)
    ensures ItemSummaries(a + b) == ItemSummaries(a) + ItemSummaries(b)
  {
    MapItemsAppend(ItemSummary, a, b);
  }

  /** Contributions added up in list order, starting from all zeros. */
  function SumSummaries(ss: seq<SummaryData>): SummaryData {
    if ss == [] then ZeroSummary
    else AddSummary(SumSummaries(ss[..|ss| - 1]), ss[|ss| - 1])
  }

  /** The summary of a list of items. */
  function SummaryOf(items: seq<InventoryItem>): SummaryData {
    SumSummaries(ItemSummaries(items))
  }

  /** calculateSummary: five running (qty, amount) totals over all items. */
  method CalculateSummary(items: seq<InventoryItem>) returns (s: SummaryData)
    ensures s == SummaryOf(items)
  {
    ghost var ss := ItemSummaries(items);
    var prevMonthTotal := ZeroTotal;
    var receivedThisMonthTotal := ZeroTotal;
    var totalReceivedTotal := ZeroTotal;
    var totalExpenditureTotal := ZeroTotal;
    var balanceNextMonthTotal := ZeroTotal;
    for i := 0 to |items|
      invariant SummaryData(prevMonthTotal, receivedThisMonthTotal, totalReceivedTotal,
        totalExpenditureTotal, balanceNextMonthTotal) == SumSummaries(ss[..i])
    {
      SumSummariesSnoc(ss, i);
      var c := ItemTotals(items, i);
      prevMonthTotal := Plus(prevMonthTotal, c.prevMonthTotal);
      receivedThisMonthTotal := Plus(receivedThisMonthTotal, c.receivedThisMonthTotal);
      totalReceivedTotal := Plus(totalReceivedTotal, c.totalReceivedTotal);
      totalExpenditureTotal := Plus(totalExpenditureTotal, c.totalExpenditureTotal);
      balanceNextMonthTotal := Plus(balanceNextMonthTotal, c.balanceNextMonthTotal);
    }
    assert ss[..|items|] == ss;
    s := SummaryData(prevMonthTotal, receivedThisMonthTotal, totalReceivedTotal,
      totalExpenditureTotal, balanceNextMonthTotal);
  }

  /** Pass i of the calculateSummary loop: item i's five (qty, amount)
      figures, from its two lists and the three engine calls; expenditure qty
      is the REQUESTED qty. */
  method ItemTotals(items: seq<InventoryItem>, i: nat) returns (c: SummaryData)
    requires i < |items|
    ensures c == ItemSummaries(items)[i]
  {
    var item := items[i];
    var prevBatches := item.prevMonth.batches;
    var receivedBatches := item.receivedThisMonth.batches;
    var totalReceived := TotalReceived(item);
    var expenditure := CalculateExpenditureBatches(item);
    var balance := CalculateBalanceNextMonth(item);
    c := SummaryData(
      QtyAmount(SumQty(prevBatches), SumAmount(prevBatches)),
      QtyAmount(SumQty(receivedBatches), SumAmount(receivedBatches)),
      QtyAmount(totalReceived.qty, totalReceived.amount),
      QtyAmount(item.expenditureThisMonth.qty, expenditure.amount),
      QtyAmount(balance.qty, balance.amount));
    ItemContribution(item, totalReceived, expenditure, balance, ItemSummary(item));
    ItemSummariesAt(items, i);
  }

  /** What one pass of the summary loop adds is the item's contribution. */
  lemma ItemContribution(item: InventoryItem, t: QtyRateAmount, e: Expenditure, b: QtyRateAmount, c: SummaryData)
    requires c == ItemSummary(item)
    requires t == TotalReceived(item)
    requires e.amount == SumAmount(Allocation(AllBatches(item), item.expenditureThisMonth.qty))
    requires b.qty == SumQty(Leftover(AllBatches(item), item.expenditureThisMonth.qty))
    requires b.amount == SumAmount(Leftover(AllBatches(item), item.expenditureThisMonth.qty))
    ensures c == SummaryData(
      QtyAmount(SumQty(item.prevMonth.batches), SumAmount(item.prevMonth.batches)),
      QtyAmount(SumQty(item.receivedThisMonth.batches), SumAmount(item.receivedThisMonth.batches)),
      QtyAmount(t.qty, t.amount),
      QtyAmount(item.expenditureThisMonth.qty, e.amount),
      QtyAmount(b.qty, b.amount))
  {
  }

  lemma SumSummariesSnoc(ss: seq<SummaryData>, i: nat)
    requires i < |ss|
    ensures SumSummaries(ss[..i + 1]) == AddSummary(SumSummaries(ss[..i]), ss[i])
  {
    assert ss[..i + 1][..i] == ss[..i];
  }

  lemma AddSummaryAssociative(x: SummaryData, y: SummaryData, z: SummaryData)
    ensures AddSummary(AddSummary(x, y), z) == AddSummary(x, AddSummary(y, z))
  {
  }

  /** Adding up contributions distributes over concatenation. */
  lemma {:induction false} SumSummariesAppend(ss: seq<SummaryData>, tt: seq<SummaryData>)
    ensures SumSummaries(ss + tt) == AddSummary(SumSummaries(ss), SumSummaries(tt))
  {
    if tt == [] {
      assert ss + tt == ss;
    } else {
      var tt' := tt[..|tt| - 1];
      SumSummariesAppend(ss, tt');
      AddSummaryAssociative(SumSummaries(ss), SumSummaries(tt'), tt[|tt| - 1]);
      assert (ss + tt)[..|ss + tt| - 1] == ss + tt';
      assert (ss + tt)[|ss + tt| - 1] == tt[|tt| - 1];
    }
  }

  /** The summary of an empty list is all zeros; the summary of a
      concatenation adds the summaries of its parts. */
  lemma SummaryOfAppend(a: seq<InventoryItem>, b: seq<InventoryItem>)
    ensures SummaryOf([]) == ZeroSummary
    ensures SummaryOf(a + b) == AddSummary(SummaryOf(a), SummaryOf(b))
  {
    var sa, sb, sab := ItemSummaries(a), ItemSummaries(b), ItemSummaries(a + b);
    assert sab == sa + sb by {
      forall i | 0 <= i < |sab| ensures sab[i] == (sa + sb)[i] {
        ItemSummariesAt(a + b, i);
        if i < |a| {
          ItemSummariesAt(a, i);
          assert (a + b)[i] == a[i];
        } else {
          ItemSummariesAt(b, i - |a|);
          assert (a + b)[i] == b[i - |a|];
        }
      }
    }
    SumSummariesAppend(sa, sb);
  }

  /** The linear relations a summary or a contribution satisfies: total
      received is previous plus received in qty and amount, and expenditure
      amount plus balance amount is the total received amount. */
  predicate Reconciled(s: SummaryData) {
    && s.totalReceivedTotal.qty == s.prevMonthTotal.qty + s.receivedThisMonthTotal.qty
    && s.totalReceivedTotal.amount == s.prevMonthTotal.amount + s.receivedThisMonthTotal.amount
    && s.totalExpenditureTotal.amount + s.balanceNextMonthTotal.amount == s.totalReceivedTotal.amount
  }

  /** Each item's contribution reconciles, for any quantities and request. */
  lemma ItemReconciles(item: InventoryItem)
    ensures Reconciled(ItemSummary(item))
  {
    Conservation(AllBatches(item), item.expenditureThisMonth.qty);
    SumsAppend(item.prevMonth.batches, item.receivedThisMonth.batches);
  }

  lemma {:induction false} SumReconciled(ss: seq<SummaryData>)
    requires forall i :: 0 <= i < |ss| ==> Reconciled(ss[i])
    ensures Reconciled(SumSummaries(ss))
  {
    if ss != [] {
      SumReconciled(ss[..|ss| - 1]);
    }
  }

  /** The grand totals reconcile: total received is previous plus received,
      in quantity and in amount, and expenditure amount plus balance amount is
      the total received amount. */
  lemma SummaryReconciles(items: seq<InventoryItem>)
    ensures Reconciled(SummaryOf(items))
  {
    var ss := ItemSummaries(items);
    forall i | 0 <= i < |ss| ensures Reconciled(ss[i]) {
      ItemSummariesAt(items, i);
      ItemReconciles(items[i]);
    }
    SumReconciled(ss);
  }

  /** The quantity columns reconcile for one item exactly when its request
      does not exceed what it holds: expenditure qty is the REQUESTED qty, so
      an over-request reports more than was allocated. */
  lemma ItemQtyReconcilesIffCovered(item: InventoryItem)
    requires NonNegativeQty(AllBatches(item))
    requires item.expenditureThisMonth.qty >= 0.0
    ensures var s := ItemSummary(item);
      s.totalExpenditureTotal.qty + s.balanceNextMonthTotal.qty == s.totalReceivedTotal.qty
      <==> item.expenditureThisMonth.qty <= s.totalReceivedTotal.qty
  {
    BalanceQty(AllBatches(item), item.expenditureThisMonth.qty);
    SumsAppend(item.prevMonth.batches, item.receivedThisMonth.batches);
  }

  /** Quantities balance: expenditure qty plus balance qty equals total received qty. */
  predicate QtyBalanced(s: SummaryData) {
    s.totalExpenditureTotal.qty + s.balanceNextMonthTotal.qty == s.totalReceivedTotal.qty
  }

  lemma {:induction false} SumQtyBalanced(ss: seq<SummaryData>)
    requires forall i :: 0 <= i < |ss| ==> QtyBalanced(ss[i])
    ensures QtyBalanced(SumSummaries(ss))
  {
    if ss != [] {
      SumQtyBalanced(ss[..|ss| - 1]);
    }
  }

  /** Items whose requests are covered by their stock and whose quantities
      are non-negative: grand expenditure qty plus grand balance qty is the
      grand total received qty. */
  lemma SummaryQtyReconciles(items: seq<InventoryItem>)
    requires forall i :: 0 <= i < |items| ==>
      && NonNegativeQty(AllBatches(items[i]))
      && 0.0 <= items[i].expenditureThisMonth.qty <= TotalReceived(items[i]).qty
    ensures QtyBalanced(SummaryOf(items))
  {
    var ss := ItemSummaries(items);
    forall i | 0 <= i < |ss| ensures QtyBalanced(ss[i]) {
      ItemSummariesAt(items, i);
      ItemQtyReconcilesIffCovered(items[i]);
    }
    SumQtyBalanced(ss);
  }
}
