/** The FIFO costing engine (src/utils/fifoCalculations.ts).

    An item's previous-month batches followed by this month's receipts form
    one queue, consumed front to back by the requested expenditure. The
    specification functions `Allocation` and `Leftover` describe what the two
    imperative walks over that queue produce; the methods are proved against
    them, and the lemmas state what the walks promise: entry-wise shape,
    prefix/suffix structure, and conservation of quantity and amount. */
module Fifo {
  import opened Inventory

  /** Sum of the quantities of a batch list (the `reduce` over `qty`). */
  function SumQty(bs: seq<Batch>): real {
    if bs == [] then 0.0 else bs[0].qty + SumQty(bs[1..])
  }

  /** Sum of the amounts of a batch list (the `reduce` over `qty * rate`). */
  function SumAmount(bs: seq<Batch>): real {
    if bs == [] then 0.0 else Amount(bs[0]) + SumAmount(bs[1..])
  }

  lemma {:induction false} SumsAppend(a: seq<Batch>, b: seq<Batch>)
    ensures SumQty(a + b) == SumQty(a) + SumQty(b)
    ensures SumAmount(a + b) == SumAmount(a) + SumAmount(b)
  {
    if a != [] {
      assert (a + b)[1..] == a[1..] + b;
      SumsAppend(a[1..], b);
    } else {
      assert a + b == b;
    }
  }

  lemma {:induction false} SumQtyNonNegative(bs: seq<Batch>)
    requires NonNegativeQty(bs)
    ensures SumQty(bs) >= 0.0
  {
    if bs != [] {
      SumQtyNonNegative(bs[1..]);
    }
  }

  /** calculateFIFORate: the weighted-average rate of a batch list, 0 when
      the list is empty or its quantities do not sum to a positive number. */
  function FifoRate(bs: seq<Batch>): (r: real)
    ensures |bs| == 0 ==> r == 0.0
    ensures SumQty(bs) <= 0.0 ==> r == 0.0
    ensures SumQty(bs) > 0.0 ==> r * SumQty(bs) == SumAmount(bs)
  {
    if |bs| == 0 then 0.0 else RateOf(SumAmount(bs), SumQty(bs))
  }

  /** With non-negative quantities, the amount of a list lies between its
      quantity times the least rate and its quantity times the greatest rate. */
  lemma {:induction false} SumAmountBounds(bs: seq<Batch>, lo: real, hi: real)
    requires NonNegativeQty(bs)
    requires forall k :: 0 <= k < |bs| ==> lo <= bs[k].rate <= hi
    ensures lo * SumQty(bs) <= SumAmount(bs) <= hi * SumQty(bs)
  {
    if bs != [] {
      var b, rest := bs[0], bs[1..];
      SumAmountBounds(rest, lo, hi);
      assert lo * b.qty <= b.qty * b.rate <= hi * b.qty by {
        assert b.qty >= 0.0 && lo <= b.rate <= hi;
        assert (b.rate - lo) * b.qty >= 0.0;
        assert (hi - b.rate) * b.qty >= 0.0;
      }
      assert lo * SumQty(bs) == lo * b.qty + lo * SumQty(rest);
      assert hi * SumQty(bs) == hi * b.qty + hi * SumQty(rest);
    }
  }

  /** The FIFO rate is a weighted average: it lies between the least and the
      greatest batch rate whenever the quantities sum to a positive number. */
  lemma FifoRateWithinBounds(bs: seq<Batch>, lo: real, hi: real)
    requires NonNegativeQty(bs)
    requires forall k :: 0 <= k < |bs| ==> lo <= bs[k].rate <= hi
    requires SumQty(bs) > 0.0
    ensures lo <= FifoRate(bs) <= hi
  {
    var q, amount := SumQty(bs), SumAmount(bs);
    var r := FifoRate(bs);
    assert r * q == amount;
    SumAmountBounds(bs, lo, hi);
    assert lo * q <= amount <= hi * q;
    RatioWithinBounds(r, q, amount, lo, hi);
  }

  /** A ratio r = amount / q with lo * q <= amount <= hi * q lies in [lo, hi]. */
  lemma RatioWithinBounds(r: real, q: real, amount: real, lo: real, hi: real)
    requires q > 0.0 && r * q == amount
    requires lo * q <= amount <= hi * q
    ensures lo <= r <= hi
  {
  }

  /** The FIFO queue of an item: previous-month batches, then this month's receipts. */
  function AllBatches(item: InventoryItem): seq<Batch> {
    item.prevMonth.batches + item.receivedThisMonth.batches
  }

  /** calculateTotalReceived: totals of the concatenated queue. */
  function TotalReceived(item: InventoryItem): (r: QtyRateAmount)
    ensures r.qty == SumQty(item.prevMonth.batches) + SumQty(item.receivedThisMonth.batches)
    ensures r.amount == SumAmount(item.prevMonth.batches) + SumAmount(item.receivedThisMonth.batches)
    ensures r.rate == FifoRate(AllBatches(item))
  {
    SumsAppend(item.prevMonth.batches, item.receivedThisMonth.batches);
    Totals(AllBatches(item))
  }

  /** The `{ qty, rate, amount }` totals of a batch list: the two reductions
      and the guarded rate `qty > 0 ? amount / qty : 0`, which is the FIFO rate. */
  function Totals(bs: seq<Batch>): (r: QtyRateAmount)
    ensures r.qty == SumQty(bs) && r.amount == SumAmount(bs)
    ensures r.rate == FifoRate(bs)
  {
    var qty := SumQty(bs);
    var amount := SumAmount(bs);
    QtyRateAmount(qty, RateOf(amount, qty), amount)
  }

  /** What calculateExpenditureBatches returns. */
  datatype Expenditure = Expenditure(batches: seq<Batch>, rate: real, amount: real)

  /** A `{ qty, rate, amount }` triple, as calculateTotalReceived and
      calculateBalanceNextMonth return it. */
  datatype QtyRateAmount = QtyRateAmount(qty: real, rate: real, amount: real)

  /** The consumed allocation: walking the queue with the remaining
      expenditure, stop at the first batch reached with nothing left to
      consume; otherwise take min(batch qty, remaining) at the batch's own id
      and rate. */
  function Allocation(queue: seq<Batch>, remaining: real): (r: seq<Batch>)
    ensures |r| <= |queue|
    ensures remaining <= 0.0 ==> r == []
    ensures remaining > 0.0 && queue != [] ==> |r| > 0
  {
    if queue == [] || remaining <= 0.0 then []
    else
      var used := Min(queue[0].qty, remaining);
      [Batch(queue[0].id, used, queue[0].rate)] + Allocation(queue[1..], remaining - used)
  }

  /** The leftover balance: walking the queue with the same remaining
      expenditure, a reached batch contributes what is left of it when that is
      positive, and once nothing remains every later batch is copied as is. */
  function Leftover(queue: seq<Batch>, remaining: real): seq<Batch> {
    if queue == [] then []
    else if remaining > 0.0 then
      var used := Min(queue[0].qty, remaining);
      var left := queue[0].qty - used;
      (if left > 0.0 then [Batch(queue[0].id, left, queue[0].rate)] else [])
        + Leftover(queue[1..], remaining - used)
    else
      [queue[0]] + Leftover(queue[1..], remaining)
  }

  /** The remaining expenditure just before batch k is reached, had the walk
      not stopped: each earlier batch takes min(its qty, what remained). */
  function RemainingBefore(queue: seq<Batch>, remaining: real, k: nat): real
    requires k <= |queue|
  {
    if k == 0 then remaining
    else RemainingBefore(queue[1..], remaining - Min(queue[0].qty, remaining), k - 1)
  }

  /** Entry k of the allocation carries batch k's id and rate with
      qty = min(batch k qty, remaining before k); every batch it covers was
      reached with something left, and the walk stops at the first batch
      reached with nothing left. */
  lemma {:induction false} AllocationEntries(queue: seq<Batch>, remaining: real)
    ensures var a := Allocation(queue, remaining);
      forall k :: 0 <= k < |a| ==>
        && RemainingBefore(queue, remaining, k) > 0.0
        && a[k] == Batch(queue[k].id, Min(queue[k].qty, RemainingBefore(queue, remaining, k)), queue[k].rate)
    ensures var a := Allocation(queue, remaining);
      |a| < |queue| ==> RemainingBefore(queue, remaining, |a|) <= 0.0
  {
    if queue != [] && remaining > 0.0 {
      var used := Min(queue[0].qty, remaining);
      var rest := queue[1..];
      AllocationEntries(rest, remaining - used);
      var a := Allocation(queue, remaining);
      var a' := Allocation(rest, remaining - used);
      assert a == [Batch(queue[0].id, used, queue[0].rate)] + a';
      forall k | 0 < k < |a|
        ensures RemainingBefore(queue, remaining, k) > 0.0
        ensures a[k] == Batch(queue[k].id, Min(queue[k].qty, RemainingBefore(queue, remaining, k)), queue[k].rate)
      {
        assert a[k] == a'[k - 1];
        assert queue[k] == rest[k - 1];
      }
    }
  }

  /** Once nothing remains, the walk copies the rest of the queue unchanged. */
  lemma {:induction false} LeftoverUntouched(queue: seq<Batch>, remaining: real)
    requires remaining <= 0.0
    ensures Leftover(queue, remaining) == queue
  {
    if queue != [] {
      LeftoverUntouched(queue[1..], remaining);
    }
  }

  /** What the last consumed batch still holds, at its own id and rate, when
      that is positive; nothing when no batch was consumed. */
  function PartialRemainder(queue: seq<Batch>, remaining: real): seq<Batch> {
    var a := Allocation(queue, remaining);
    if |a| == 0 then []
    else
      var last := |a| - 1;
      var left := queue[last].qty - a[last].qty;
      if left > 0.0 then [Batch(queue[last].id, left, queue[last].rate)] else []
  }

  /** The balance keeps queue order: every consumed batch but the last is
      consumed whole and omitted, the last contributes its positive remainder,
      and every batch after the allocation is copied unchanged. */
  lemma {:induction false} LeftoverStructure(queue: seq<Batch>, remaining: real)
    ensures Leftover(queue, remaining)
      == PartialRemainder(queue, remaining) + queue[|Allocation(queue, remaining)|..]
  {
    if queue == [] {
    } else if remaining <= 0.0 {
      LeftoverUntouched(queue, remaining);
    } else {
      var used := Min(queue[0].qty, remaining);
      LeftoverStructure(queue[1..], remaining - used);
      StructureStep(queue, remaining);
    }
  }

  /** The right-hand side of LeftoverStructure after one consumed batch:
      that batch's positive remainder, if any, then the same shape for the
      rest of the queue. */
  lemma StructureStep(queue: seq<Batch>, remaining: real)
    requires queue != [] && remaining > 0.0
    ensures var used := Min(queue[0].qty, remaining);
      var rest, r' := queue[1..], remaining - used;
      var piece := if queue[0].qty - used > 0.0 then [Batch(queue[0].id, queue[0].qty - used, queue[0].rate)] else [];
      PartialRemainder(queue, remaining) + queue[|Allocation(queue, remaining)|..]
        == piece + (PartialRemainder(rest, r') + rest[|Allocation(rest, r')|..])
  {
    var used := Min(queue[0].qty, remaining);
    var rest, r' := queue[1..], remaining - used;
    var a, a' := Allocation(queue, remaining), Allocation(rest, r');
    assert a == [Batch(queue[0].id, used, queue[0].rate)] + a';
    assert queue[|a|..] == rest[|a'|..];
    if |a'| > 0 {
      assert used == queue[0].qty;
      assert a[|a| - 1] == a'[|a'| - 1];
      assert queue[|a| - 1] == rest[|a'| - 1];
      assert PartialRemainder(queue, remaining) == PartialRemainder(rest, r');
    } else {
      assert PartialRemainder(rest, r') == [];
    }
  }

  /** Conservation: the allocated and the leftover quantities add up to the
      queue's, and so do their amounts, for any requested expenditure (both
      walks follow the same remaining trajectory). */
  lemma {:induction false} Conservation(queue: seq<Batch>, remaining: real)
    ensures SumQty(Allocation(queue, remaining)) + SumQty(Leftover(queue, remaining)) == SumQty(queue)
    ensures SumAmount(Allocation(queue, remaining)) + SumAmount(Leftover(queue, remaining)) == SumAmount(queue)
  {
    if queue == [] {
    } else if remaining <= 0.0 {
      LeftoverUntouched(queue, remaining);
    } else {
      var b := queue[0];
      var used := Min(b.qty, remaining);
      var rest := queue[1..];
      var r' := remaining - used;
      Conservation(rest, r');
      var head := [Batch(b.id, used, b.rate)];
      var part := if b.qty - used > 0.0 then [Batch(b.id, b.qty - used, b.rate)] else [];
      assert Allocation(queue, remaining) == head + Allocation(rest, r');
      assert Leftover(queue, remaining) == part + Leftover(rest, r');
      SumsAppend(head, Allocation(rest, r'));
      SumsAppend(part, Leftover(rest, r'));
      SplitBatch(b, used);
      assert SumQty(queue) == b.qty + SumQty(rest);
      assert SumAmount(queue) == Amount(b) + SumAmount(rest);
    }
  }

  /** Splitting one batch into a consumed part and its positive remainder
      keeps its quantity and its amount. */
  lemma SplitBatch(b: Batch, used: real)
    requires used <= b.qty
    ensures var part := if b.qty - used > 0.0 then [Batch(b.id, b.qty - used, b.rate)] else [];
      && SumQty([Batch(b.id, used, b.rate)]) + SumQty(part) == b.qty
      && SumAmount([Batch(b.id, used, b.rate)]) + SumAmount(part) == Amount(b)
  {
    var part := if b.qty - used > 0.0 then [Batch(b.id, b.qty - used, b.rate)] else [];
    assert SumQty([Batch(b.id, used, b.rate)]) == used;
    assert SumAmount([Batch(b.id, used, b.rate)]) == used * b.rate;
    if b.qty - used > 0.0 {
      assert SumQty(part) == b.qty - used;
      assert SumAmount(part) == (b.qty - used) * b.rate;
    } else {
      assert used == b.qty;
    }
    assert used * b.rate + (b.qty - used) * b.rate == b.qty * b.rate;
  }

  /** With non-negative quantities and request, the allocated quantity is the
      request capped by what the queue holds. */
  lemma {:induction false} AllocatedQty(queue: seq<Batch>, remaining: real)
    requires NonNegativeQty(queue)
    requires remaining >= 0.0
    ensures SumQty(Allocation(queue, remaining)) == Min(remaining, SumQty(queue))
  {
    SumQtyNonNegative(queue);
    if queue != [] && remaining > 0.0 {
      var used := Min(queue[0].qty, remaining);
      var rest := queue[1..];
      assert NonNegativeQty(rest) by {
        forall k | 0 <= k < |rest| ensures rest[k].qty >= 0.0 {
          assert rest[k] == queue[k + 1];
        }
      }
      AllocatedQty(rest, remaining - used);
      SumsAppend([Batch(queue[0].id, used, queue[0].rate)], Allocation(rest, remaining - used));
    }
  }

  /** With non-negative quantities and request, the balance quantity is what
      the queue holds beyond the request, and never negative. */
  lemma BalanceQty(queue: seq<Batch>, remaining: real)
    requires NonNegativeQty(queue)
    requires remaining >= 0.0
    ensures SumQty(Leftover(queue, remaining))
      == if SumQty(queue) > remaining then SumQty(queue) - remaining else 0.0
  {
    Conservation(queue, remaining);
    AllocatedQty(queue, remaining);
  }

  /** calculateExpenditureBatches: walk the queue, consuming the requested
      quantity front to back; the rate divides the consumed amount by the
      REQUESTED quantity (not the allocated one). */
  method CalculateExpenditureBatches(item: InventoryItem) returns (e: Expenditure)
    ensures e.batches == Allocation(AllBatches(item), item.expenditureThisMonth.qty)
    ensures e.amount == SumAmount(e.batches)
    ensures e.rate == RateOf(e.amount, item.expenditureThisMonth.qty)
  {
    var expenditureQty := item.expenditureThisMonth.qty;
    var remainingExpenditure := expenditureQty;
    var expenditureBatches: seq<Batch> := [];
    var allBatches := item.prevMonth.batches + item.receivedThisMonth.batches;
    var i := 0;
    while i < |allBatches|
      invariant 0 <= i <= |allBatches|
      invariant expenditureBatches + Allocation(allBatches[i..], remainingExpenditure)
        == Allocation(allBatches, expenditureQty)
    {
      if remainingExpenditure <= 0.0 {
        break;
      }
      var batch := allBatches[i];
      var qtyToUse := Min(batch.qty, remainingExpenditure);
      AllocationStep(allBatches, i, remainingExpenditure);
      ConcatAssociative(expenditureBatches, [Batch(batch.id, qtyToUse, batch.rate)],
        Allocation(allBatches[i + 1..], remainingExpenditure - qtyToUse));
      expenditureBatches := expenditureBatches + [Batch(batch.id, qtyToUse, batch.rate)];
      remainingExpenditure := remainingExpenditure - qtyToUse;
      i := i + 1;
    }
    var amount := SumAmount(expenditureBatches);
    var rate := RateOf(amount, expenditureQty);
    e := Expenditure(expenditureBatches, rate, amount);
  }

  /** One step of the expenditure walk at position i of the queue, with something left to consume. */
  lemma AllocationStep(queue: seq<Batch>, i: nat, remaining: real)
    requires i < |queue| && remaining > 0.0
    ensures var used := Min(queue[i].qty, remaining);
      Allocation(queue[i..], remaining)
        == [Batch(queue[i].id, used, queue[i].rate)] + Allocation(queue[i + 1..], remaining - used)
  {
    assert queue[i..][1..] == queue[i + 1..];
  }

  lemma ConcatAssociative(a: seq<Batch>, b: seq<Batch>, c: seq<Batch>)
    ensures (a + b) + c == a + (b + c)
  {
  }

  /** One step of the balance walk at position i of the queue. */
  lemma LeftoverStep(queue: seq<Batch>, i: nat, remaining: real)
    requires i < |queue|
    ensures var b, used := queue[i], Min(queue[i].qty, remaining);
      Leftover(queue[i..], remaining)
        == if remaining > 0.0 then
             (if b.qty - used > 0.0 then [Batch(b.id, b.qty - used, b.rate)] else [])
               + Leftover(queue[i + 1..], remaining - used)
           else [b] + Leftover(queue[i + 1..], remaining)
  {
    assert queue[i..][1..] == queue[i + 1..];
  }

  /** One pass of the balance loop keeps "what is collected, followed by the
      balance of the rest of the queue, is the whole balance". */
  lemma LeftoverLoopStep(queue: seq<Batch>, i: nat, remaining: real, acc: seq<Batch>, target: seq<Batch>)
    requires i < |queue|
    requires acc + Leftover(queue[i..], remaining) == target
    ensures var b, used := queue[i], Min(queue[i].qty, remaining);
      && (remaining > 0.0 && b.qty - used > 0.0 ==>
            (acc + [Batch(b.id, b.qty - used, b.rate)]) + Leftover(queue[i + 1..], remaining - used) == target)
      && (remaining > 0.0 && b.qty - used <= 0.0 ==>
            acc + Leftover(queue[i + 1..], remaining - used) == target)
      && (remaining <= 0.0 ==> (acc + [b]) + Leftover(queue[i + 1..], remaining) == target)
  {
    var b, used := queue[i], Min(queue[i].qty, remaining);
    LeftoverStep(queue, i, remaining);
    if remaining > 0.0 {
      if b.qty - used > 0.0 {
        ConcatAssociative(acc, [Batch(b.id, b.qty - used, b.rate)], Leftover(queue[i + 1..], remaining - used));
      } else {
        assert [] + Leftover(queue[i + 1..], remaining - used) == Leftover(queue[i + 1..], remaining - used);
      }
    } else {
      ConcatAssociative(acc, [b], Leftover(queue[i + 1..], remaining));
    }
  }

  /** calculateBalanceNextMonth: walk the queue again with the same
      remaining expenditure and total what is left over. */
  method CalculateBalanceNextMonth(item: InventoryItem) returns (r: QtyRateAmount)
    ensures r.qty == SumQty(Leftover(AllBatches(item), item.expenditureThisMonth.qty))
    ensures r.amount == SumAmount(Leftover(AllBatches(item), item.expenditureThisMonth.qty))
    ensures r.rate == FifoRate(Leftover(AllBatches(item), item.expenditureThisMonth.qty))
  {
    var remainingExpenditure := item.expenditureThisMonth.qty;
    var balanceBatches: seq<Batch> := [];
    var allBatches := item.prevMonth.batches + item.receivedThisMonth.batches;
    for i := 0 to |allBatches|
      invariant balanceBatches + Leftover(allBatches[i..], remainingExpenditure)
        == Leftover(allBatches, item.expenditureThisMonth.qty)
    {
      var batch := allBatches[i];
      LeftoverLoopStep(allBatches, i, remainingExpenditure, balanceBatches, Leftover(allBatches, item.expenditureThisMonth.qty));
      if remainingExpenditure > 0.0 {
        var qtyUsed := Min(batch.qty, remainingExpenditure);
        remainingExpenditure := remainingExpenditure - qtyUsed;
        var remainingQty := batch.qty - qtyUsed;
        if remainingQty > 0.0 {
          balanceBatches := balanceBatches + [Batch(batch.id, remainingQty, batch.rate)];
        }
      } else {
        balanceBatches := balanceBatches + [batch];
      }
    }
    assert allBatches[|allBatches|..] == [];
    assert balanceBatches == Leftover(allBatches, item.expenditureThisMonth.qty);
    r := Totals(balanceBatches);
  }
}
