/** The record shapes of the inventory tracker (src/types/inventory.ts) and a
    few numeric helpers shared by the engine and the report producers.

    Quantities and rates are exact reals; identifiers are unbounded integers.
    A report cell field is `None` where the report prints a blank string. */
module Inventory {

  datatype Option<T> = None | Some(value: T) {
    function GetOr(default: T): T {
      match this
      case Some(v) => v
      case None => default
    }
  }

  /** One cost lot: a quantity bought at a unit rate. Its amount is derived. */
  datatype Batch = Batch(id: int, qty: real, rate: real)

  /** The `{ batches: Batch[] }` wrapper used for both batch lists of an item. */
  datatype BatchGroup = BatchGroup(batches: seq<Batch>)

  /** The `{ qty }` wrapper of the month's single requested expenditure. */
  datatype ExpenditureEntry = ExpenditureEntry(qty: real)

  datatype InventoryItem = InventoryItem(
    id: int,
    name: string,
    unit: string,
    prevMonth: BatchGroup,
    receivedThisMonth: BatchGroup,
    expenditureThisMonth: ExpenditureEntry)

  /** One (qty, rate, amount) triple of a report row; each field is blank or a number. */
  datatype Cell = Cell(qty: Option<real>, rate: Option<real>, amount: Option<real>)

  /** One fixed-shape report row (the `BatchRow` interface). */
  datatype BatchRow = BatchRow(
    slNo: int,
    itemName: string,
    unit: string,
    prevMonth: Cell,
    receivedThisMonth: Cell,
    totalReceived: Cell,
    expenditure: Cell,
    balance: Cell)

  /** A `{ qty, amount }` pair of the summary. */
  datatype QtyAmount = QtyAmount(qty: real, amount: real)

  datatype SummaryData = SummaryData(
    prevMonthTotal: QtyAmount,
    receivedThisMonthTotal: QtyAmount,
    totalReceivedTotal: QtyAmount,
    totalExpenditureTotal: QtyAmount,
    balanceNextMonthTotal: QtyAmount)

  /** `Math.min` on reals. */
  function Min(a: real, b: real): (r: real)
    ensures r <= a && r <= b
    ensures r == a || r == b
  {
    if a <= b then a else b
  }

  /** `Math.max` on naturals. */
  function Max(a: nat, b: nat): (r: nat)
    ensures r >= a && r >= b
    ensures r == a || r == b
  {
    if a >= b then a else b
  }

  /** The value of a batch: quantity times rate. */
  function Amount(b: Batch): real {
    b.qty * b.rate
  }

  /** The guarded division used for every reported rate: `qty > 0 ? amount / qty : 0`. */
  function RateOf(amount: real, qty: real): (r: real)
    ensures qty > 0.0 ==> r * qty == amount
    ensures qty <= 0.0 ==> r == 0.0
  {
    if qty > 0.0 then amount / qty else 0.0
  }

  /** Those two properties determine the rate: any rate that times a positive
      quantity gives the amount, and is 0 otherwise, is RateOf's. */
  lemma RateOfUnique(r: real, amount: real, qty: real)
    requires qty > 0.0 ==> r * qty == amount
    requires qty <= 0.0 ==> r == 0.0
    ensures r == RateOf(amount, qty)
  {
    if qty > 0.0 {
      var s := RateOf(amount, qty);
      assert (r - s) * qty == 0.0;
    }
  }

  /** Every batch of the list has a non-negative quantity. */
  predicate NonNegativeQty(bs: seq<Batch>) {
    forall k :: 0 <= k < |bs| ==> bs[k].qty >= 0.0
  }

  /** Every batch of the list has a non-negative rate. */
  predicate NonNegativeRate(bs: seq<Batch>) {
    forall k :: 0 <= k < |bs| ==> bs[k].rate >= 0.0
  }
}
