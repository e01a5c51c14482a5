/** The three sample items the main page starts with when nothing is stored
    (src/pages/Index.tsx:10-69), and the figures the engine and the report
    yield for them. */
module SampleData {
  import opened Inventory
  import opened Fifo
  import opened ExportUtils

  const BasmatiRice := InventoryItem(1, "Basmati Rice", "KG",
    BatchGroup([Batch(1, 100.0, 10.0), Batch(2, 50.0, 12.0), Batch(3, 75.0, 11.0),
                Batch(4, 60.0, 10.5), Batch(5, 40.0, 11.5)]),
    BatchGroup([Batch(6, 80.0, 11.0), Batch(7, 90.0, 11.2), Batch(8, 70.0, 10.8)]),
    ExpenditureEntry(320.0))

  const OliveOil := InventoryItem(2, "Olive Oil", "L",
    BatchGroup([Batch(1, 150.0, 15.0), Batch(2, 100.0, 15.5)]),
    BatchGroup([Batch(3, 100.0, 16.0), Batch(4, 50.0, 15.5), Batch(5, 75.0, 16.2)]),
    ExpenditureEntry(280.0))

  const WheatFlour := InventoryItem(3, "Wheat Flour", "KG",
    BatchGroup([Batch(1, 75.0, 8.0), Batch(2, 60.0, 8.2), Batch(3, 50.0, 7.8)]),
    BatchGroup([Batch(4, 125.0, 8.5)]),
    ExpenditureEntry(210.0))

  const SampleItems := [BasmatiRice, OliveOil, WheatFlour]

  /** Basmati Rice holds 565 units worth 6159. */
  lemma BasmatiTotalReceived()
    ensures TotalReceived(BasmatiRice).qty == 565.0
    ensures TotalReceived(BasmatiRice).amount == 6159.0
  {
  }

  /** The 320 requested are drawn from the first five batches in order,
      taking the whole of the first four and 35 of the 40 in the fifth. */
  lemma BasmatiAllocation()
    ensures Allocation(AllBatches(BasmatiRice), 320.0)
      == [Batch(1, 100.0, 10.0), Batch(2, 50.0, 12.0), Batch(3, 75.0, 11.0),
          Batch(4, 60.0, 10.5), Batch(5, 35.0, 11.5)]
    ensures SumAmount(Allocation(AllBatches(BasmatiRice), 320.0)) == 3457.5
  {
    var q := AllBatches(BasmatiRice);
    assert Allocation(q[5..], 0.0) == [];
    assert Allocation(q[4..], 35.0) == [Batch(5, 35.0, 11.5)] + Allocation(q[5..], 0.0);
    assert Allocation(q[3..], 95.0) == [q[3]] + Allocation(q[4..], 35.0);
    assert Allocation(q[2..], 170.0) == [q[2]] + Allocation(q[3..], 95.0);
    assert Allocation(q[1..], 220.0) == [q[1]] + Allocation(q[2..], 170.0);
    assert Allocation(q, 320.0) == [q[0]] + Allocation(q[1..], 220.0);
    var a := [Batch(1, 100.0, 10.0), Batch(2, 50.0, 12.0), Batch(3, 75.0, 11.0),
              Batch(4, 60.0, 10.5), Batch(5, 35.0, 11.5)];
    assert Allocation(q, 320.0) == a;
    assert SumAmount(a) == 1000.0 + 600.0 + 825.0 + 630.0 + 402.5;
  }

  /** 245 units worth 2701.5 remain for next month: 5 of the fifth batch and
      all three batches received this month. */
  lemma BasmatiBalance()
    ensures Leftover(AllBatches(BasmatiRice), 320.0)
      == [Batch(5, 5.0, 11.5), Batch(6, 80.0, 11.0), Batch(7, 90.0, 11.2), Batch(8, 70.0, 10.8)]
    ensures SumQty(Leftover(AllBatches(BasmatiRice), 320.0)) == 245.0
    ensures SumAmount(Leftover(AllBatches(BasmatiRice), 320.0)) == 2701.5
  {
    var q := AllBatches(BasmatiRice);
    LeftoverUntouched(q[5..], 0.0);
    assert Leftover(q[4..], 35.0) == [Batch(5, 5.0, 11.5)] + Leftover(q[5..], 0.0);
    assert Leftover(q[3..], 95.0) == Leftover(q[4..], 35.0);
    assert Leftover(q[2..], 170.0) == Leftover(q[3..], 95.0);
    assert Leftover(q[1..], 220.0) == Leftover(q[2..], 170.0);
    assert Leftover(q, 320.0) == Leftover(q[1..], 220.0);
  }

  /** Olive Oil holds 475 units; 195 remain after the 280 requested. */
  lemma OliveOilFigures()
    ensures TotalReceived(OliveOil).qty == 475.0
    ensures SumQty(Leftover(AllBatches(OliveOil), 280.0)) == 195.0
  {
    SumsAppend(OliveOil.prevMonth.batches, OliveOil.receivedThisMonth.batches);
    BalanceQty(AllBatches(OliveOil), 280.0);
  }

  /** Wheat Flour holds 310 units; 100 remain after the 210 requested. */
  lemma WheatFlourFigures()
    ensures TotalReceived(WheatFlour).qty == 310.0
    ensures SumQty(Leftover(AllBatches(WheatFlour), 210.0)) == 100.0
  {
    SumsAppend(WheatFlour.prevMonth.batches, WheatFlour.receivedThisMonth.batches);
    BalanceQty(AllBatches(WheatFlour), 210.0);
  }

  /** With five previous and three received batches, the report gives
      Basmati Rice five rows. */
  method BasmatiRows() returns (rows: seq<BatchRow>)
    ensures |rows| == 5
    ensures rows[0].slNo == 1 && rows[0].itemName == "Basmati Rice"
  {
    rows := CreateBatchRows(BasmatiRice, 1);
  }
}
