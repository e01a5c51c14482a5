# FIFO inventory costing — a Dafny model

This project models the core of a browser-based inventory tracker for a
canteen. The tracker values stock movement by First-In-First-Out costing.
Each inventory item holds:

- the batches carried over from the previous month;
- the batches received this month;
- one requested expenditure quantity.

Previous batches followed by received batches form one queue. The engine
consumes that queue front to back to find which cost lots the expenditure
draws on and what is left for next month. Two report producers turn this
into a block of report rows per item and a five-way summary over all
items. The item editor and the main page build new item lists by editing
batches and by saving and deleting items.

Modules, following the source files:

- `Inventory` (`inventory.dfy`): the record shapes of `src/types/inventory.ts`, plus shared helpers used by the other modules: `Min`, `Max`, the guarded division `RateOf` and the non-negativity predicates.
- `Fifo` (`fifo.dfy`): `src/utils/fifoCalculations.ts`.
  - The two queue walks are methods with loops.
  - They are proved equal to the specification functions `Allocation` and `Leftover`.
  - The lemmas about those functions state what the walks promise.
- `ExportUtils` (`export.dfy`): `createBatchRows` and `calculateSummary` from `src/utils/exportUtils.ts`.
  - Both are methods with loops, proved against their specifications.
  - `CreateBatchRows` is proved equal, row by row, to the specification row `BlockRow`; `BlockRowsFields` states what those rows carry.
  - The summary's specification `SummaryOf` is a fold of per-item contributions.
- `ItemDialog` (`item_dialog.dfy`): the new-item form and the batch add / update / remove transforms of `src/components/ItemDialog.tsx`.
- `IndexPage` (`index_page.dfy`): the save and delete list updates of `src/pages/Index.tsx`.
- `SampleData` (`samples.dfy`): the three sample items of `src/pages/Index.tsx` and the figures the engine yields for them. `src/pages/Index.tsx` thus gives two modules, `IndexPage` and `SampleData`.

Representation choices:

- Quantities, rates and amounts are exact `real`s.
- A report cell is `Cell(qty, rate, amount)`, each field an `Option<real>`.
  - `Some(x)` is a number the report prints with two decimals.
  - `None` is a field printed as the empty string.
- Per-field options are needed because the total-received cell blanks each of its three fields on its own.

Facts about the code that a reader might expect otherwise:

- A report block has `max(|previous|, |received|)` rows, or 1 when both lists are empty. The lengths of the concatenated queue, the allocation and the balance play no part in the row count.
- Row i's total-received cell is the row-wise sum of `previous[i]` and `received[i]`, a missing batch counting as 0. It is not entry i of the concatenated queue.
- Allocated plus leftover quantity and amount always equal the queue's totals, for every request, including one beyond the supply; `Fifo.Conservation` proves this.
- The summary reports the REQUESTED quantity as expenditure, not the allocated one. For one item's contribution, `ExportUtils.ItemQtyReconcilesIffCovered` shows that expenditure qty + balance qty = total received qty exactly when the request is covered. For the grand summary, `ExportUtils.SummaryQtyReconciles` proves the "if" direction: the quantity columns balance when every item's request is covered.

## Model

| member | source | states |
|---|---|---|
| Inventory.RateOf | src/utils/fifoCalculations.ts:18 | the guarded rate: rate × qty = amount when qty > 0, and 0 otherwise (never a division by zero) |
| Inventory.RateOfUnique | src/utils/fifoCalculations.ts:46 | any rate that times a positive qty gives the amount, and is 0 for a non-positive qty, is the guarded rate |
| Fifo.SumsAppend | src/utils/fifoCalculations.ts:16-17 | the quantity and amount reductions of a concatenation are the sums of the reductions of its parts |
| Fifo.FifoRate | src/utils/fifoCalculations.ts:3-8 | the weighted-average rate: 0 for an empty list and when the quantities do not sum to a positive number; otherwise rate × Σqty = Σqty·rate |
| Fifo.SumAmountBounds | src/utils/fifoCalculations.ts:5-6 | with non-negative quantities, the amount of a list lies between Σqty × least rate and Σqty × greatest rate |
| Fifo.FifoRateWithinBounds | src/utils/fifoCalculations.ts:3-8 | with non-negative quantities summing to a positive number, the FIFO rate lies between the least and the greatest batch rate |
| Fifo.TotalReceived | src/utils/fifoCalculations.ts:10-21 | total received qty and amount are previous plus received sums; its rate is the FIFO rate of the concatenated queue previous ++ received |
| Fifo.Totals | src/utils/fifoCalculations.ts:81-85 | the closing reduce-and-divide of a list yields its Σqty, its Σqty·rate and exactly its FIFO rate, so the source's separate empty-list guard changes nothing |
| Fifo.Leftover | src/utils/fifoCalculations.ts:55-79 | the balance walk: with something left to consume, a batch gives up min(its qty, what remains) and contributes its positive remainder at its own id and rate; once nothing remains, each later batch is copied as is (its properties are the lemmas `LeftoverUntouched`, `LeftoverStructure`, `Conservation` and `BalanceQty`) |
| Fifo.Allocation | src/utils/fifoCalculations.ts:33-43 | the allocation is no longer than the queue; it is empty when nothing is requested, and non-empty when something is requested from a non-empty queue |
| Fifo.AllocationEntries | src/utils/fifoCalculations.ts:33-43 | allocation entry k carries batch k's id and rate with qty = min(batch k qty, remaining before k), every covered batch is reached with something left, and the walk stops at the first batch reached with nothing left |
| Fifo.LeftoverUntouched | src/utils/fifoCalculations.ts:76-78 | once nothing remains to be consumed, the balance walk copies the whole rest of the queue unchanged |
| Fifo.LeftoverStructure | src/utils/fifoCalculations.ts:63-79 | the balance keeps queue order: fully consumed batches are omitted, the last consumed batch contributes its positive remainder at its own id and rate, and every later batch is copied unchanged |
| Fifo.Conservation | src/utils/fifoCalculations.ts:33-79 | allocated qty + balance qty = queue qty, and allocated amount + balance amount = queue amount, for every request including one beyond the supply |
| Fifo.AllocatedQty | src/utils/fifoCalculations.ts:33-45 | with non-negative quantities and request, the allocated quantities sum to min(request, total available) |
| Fifo.BalanceQty | src/utils/fifoCalculations.ts:63-85 | with non-negative quantities and request, balance qty = total qty − request when that is positive, else 0 |
| Fifo.CalculateExpenditureBatches | src/utils/fifoCalculations.ts:23-49 | the loop with its early break yields exactly the allocation of the queue; amount is the allocation's Σqty·rate; rate is the guarded rate of that amount over the REQUESTED qty (so rate × requested qty = amount when requested > 0, else 0, by `Inventory.RateOf`) |
| Fifo.CalculateBalanceNextMonth | src/utils/fifoCalculations.ts:51-86 | the loop's result is the qty, amount and FIFO rate of exactly the leftover queue |
| ExportUtils.At | src/utils/exportUtils.ts:40-41 | the batch at a row index is present exactly when the index is inside the list, and is then that list entry |
| ExportUtils.IfPositive | src/utils/exportUtils.ts:64-66 | a total-received field is shown exactly when its value is positive, and reads as that value or 0 |
| ExportUtils.BatchCell | src/utils/exportUtils.ts:53-62 | a previous or received cell is blank when the row has no batch there, else that batch's qty, rate and qty × rate |
| ExportUtils.ColumnQtySums | src/utils/exportUtils.ts:44-64 | with non-negative quantities, the row-wise total-received qty column, blanks read as 0, adds up to Σprevious qty + Σreceived qty |
| ExportUtils.ColumnAmountSums | src/utils/exportUtils.ts:45-66 | with non-negative quantities and rates, the row-wise total-received amount column, blanks read as 0, adds up to the two lists' Σqty·rate |
| ExportUtils.CreateBatchRows | src/utils/exportUtils.ts:11-83 | as many rows as the longer batch list, or one all-zero row when both are empty (zero expenditure even when one is requested); row 0 carries slNo, name and unit; otherwise row i is the block row of position i, with the expenditure and balance cells of the FIFO allocation and leftover specifications |
| ExportUtils.FirstRowData | src/utils/exportUtils.ts:36-78 | the first row's cells, built from the results of the two engine methods, are the expenditure cell (requested qty with the allocation's rate and amount) and the balance cell (the leftover queue's qty, FIFO rate and amount) |
| ExportUtils.RowTotalCell | src/utils/exportUtils.ts:43-67 | the row-wise total-received cell: qty = previous qty + received qty and amount = the two batches' qty × rate, a missing batch counting as 0; rate = amount / qty when qty > 0, else 0; each field blank unless positive |
| ExportUtils.BlockRow | src/utils/exportUtils.ts:49-79 | row i of a block: slNo, name and unit only at i = 0 (0 and '' later); the previous and received cells of batch i; the row-wise total cell; the given expenditure and balance cells at i = 0, blank later |
| ExportUtils.BlockRowsFields | src/utils/exportUtils.ts:39-80 | in a block, only row 0 carries slNo, name, unit, expenditure and balance; every later row has them blank; row i's previous, received and row-wise total cells follow batch i of each list; the total-received columns add up to the item's total received |
| ExportUtils.RowColumnsSum | src/utils/exportUtils.ts:39-66 | a block with one row per position of the longer list has qty and amount total-received columns that add up to the item's total received qty and amount |
| ExportUtils.ItemSummary | src/utils/exportUtils.ts:94-116 | one item's five (qty, amount) figures: previous sums, received sums, total received sums, the requested qty with the allocation's amount, and the leftover queue's sums |
| ExportUtils.SumSummaries | src/utils/exportUtils.ts:86-117 | contributions added up in list order, starting from all zeros, as the five accumulators of the `forEach` do |
| ExportUtils.SummaryOf | src/utils/exportUtils.ts:85-126 | the summary of a list of items: the fold of their contributions |
| ExportUtils.ItemSummaries | src/utils/exportUtils.ts:92-117 | one contribution per item |
| ExportUtils.ItemSummariesAt | src/utils/exportUtils.ts:92-116 | entry i of the contributions is item i's five (qty, amount) figures, so list order is kept |
| ExportUtils.ItemSummariesAppend | src/utils/exportUtils.ts:92-117 | the contributions of a concatenation are those of its parts, in order |
| ExportUtils.ItemTotals | src/utils/exportUtils.ts:92-116 | one pass of the loop, calling the three engine methods, produces exactly item i's contribution |
| ExportUtils.CalculateSummary | src/utils/exportUtils.ts:85-126 | the five running totals of the loop are exactly the fold of the per-item contributions (expenditure qty being the requested qty) |
| ExportUtils.SumSummariesAppend | src/utils/exportUtils.ts:92-117 | accumulating contributions distributes over concatenation |
| ExportUtils.SummaryOfAppend | src/utils/exportUtils.ts:85-126 | the summary of no items is all zeros, and the summary of a concatenation adds the summaries of its parts |
| ExportUtils.ItemReconciles | src/utils/exportUtils.ts:103-116 | for any item, total received = previous + received in qty and amount, and expenditure amount + balance amount = total received amount |
| ExportUtils.SumReconciled | src/utils/exportUtils.ts:92-117 | totals of contributions that reconcile reconcile |
| ExportUtils.SummaryReconciles | src/utils/exportUtils.ts:85-126 | the grand totals reconcile: total received = previous + received in qty and amount, and expenditure amount + balance amount = total received amount |
| ExportUtils.ItemQtyReconcilesIffCovered | src/utils/exportUtils.ts:108-116 | with non-negative quantities and request, an item's expenditure qty + balance qty = total received qty if and only if the request does not exceed the total received |
| ExportUtils.SumQtyBalanced | src/utils/exportUtils.ts:92-117 | totals of contributions whose quantities balance balance |
| ExportUtils.SummaryQtyReconciles | src/utils/exportUtils.ts:85-126 | when every item's quantities are non-negative and its request is covered, grand expenditure qty + grand balance qty = grand total received qty |
| ItemDialog.NewItem | src/components/ItemDialog.tsx:30-37 | the blank form for a new item: the given id, name '', unit 'KG', no batches and request 0 |
| ItemDialog.NewItemIsEmpty | src/components/ItemDialog.tsx:30-37 | a new item has the given id, name '', unit 'KG', no batches and request 0, so its totals, allocation, balance and summary contribution are all zero or empty |
| ItemDialog.WithBatches | src/components/ItemDialog.tsx:48-52 | replacing a batch list keeps id, name, unit, expenditure and the other list |
| ItemDialog.AddBatch | src/components/ItemDialog.tsx:41-53 | one zero batch with the given id is appended at the end of the chosen list; earlier batches keep their positions; nothing else changes |
| ItemDialog.SetField | src/components/ItemDialog.tsx:61 | setting qty or rate changes only that field of the batch |
| ItemDialog.UpdateBatch | src/components/ItemDialog.tsx:56-65 | in range, the chosen list equals the old one with entry `index` given the new field value; out of range, the item is unchanged; nothing else changes |
| ItemDialog.RemoveAt | src/components/ItemDialog.tsx:71 | filtering out position `index` gives the list before it followed by the list after it, or the list unchanged when the index is outside it |
| ItemDialog.RemoveBatch | src/components/ItemDialog.tsx:67-74 | the length drops by one in range; entries before `index` stay, later entries shift down by one; an index outside the list leaves the item unchanged; nothing else changes |
| ItemDialog.RemoveAfterAdd | src/components/ItemDialog.tsx:41-74 | removing the batch just added gives back the original item |
| ItemDialog.UpdateRestores | src/components/ItemDialog.tsx:56-65 | writing back a field's former value undoes an update |
| ItemDialog.UpdateQtyShiftsTotal | src/components/ItemDialog.tsx:56-65 | setting a batch's qty moves the item's total received qty by new − former qty |
| ItemDialog.AddKeepsTotals | src/components/ItemDialog.tsx:41-53 | adding the zero batch keeps the item's total received qty and amount |
| ItemDialog.RemoveLowersTotal | src/components/ItemDialog.tsx:67-74 | removing a batch lowers the item's total received qty by exactly that batch's qty |
| IndexPage.SaveItem | src/pages/Index.tsx:93-102 | an edit keeps the length, replaces every entry with the saved item's id by the saved item and keeps all others in place; a new item is appended at the end after the unchanged list |
| IndexPage.Delete | src/pages/Index.tsx:109-111 | no kept item has the deleted id, and the list never grows |
| IndexPage.DeleteMembers | src/pages/Index.tsx:111 | an item is kept exactly when it was present and its id differs from the deleted one |
| IndexPage.DeleteAppend | src/pages/Index.tsx:111 | deleting from a concatenation deletes from each part, so kept items stay in their original order |
| IndexPage.DeleteAbsent | src/pages/Index.tsx:111 | deleting an id no item carries leaves the list unchanged |
| IndexPage.DeleteIdempotent | src/pages/Index.tsx:111 | deleting twice is deleting once |
| IndexPage.DeleteAfterAdd | src/pages/Index.tsx:97-111 | adding an item and deleting its id equals deleting that id from the list before the addition |
| IndexPage.DeleteAfterEdit | src/pages/Index.tsx:94-111 | editing an item and deleting its id equals deleting that id from the list before the edit |
| IndexPage.SaveEditIdempotent | src/pages/Index.tsx:94-95 | saving the same edit twice is saving it once |
| IndexPage.SummaryAfterAdd | src/pages/Index.tsx:97-98 | the summary after adding an item is the summary before plus that item's contribution |
| SampleData.BasmatiTotalReceived | src/pages/Index.tsx:10-32 | Basmati Rice holds 565 units worth 6159 |
| SampleData.BasmatiAllocation | src/pages/Index.tsx:10-32 | the 320 requested take batches 1–4 whole and 35 of batch 5's 40, for an amount of 3457.5 |
| SampleData.BasmatiBalance | src/pages/Index.tsx:10-32 | 5 of batch 5 plus all received batches remain: 245 units worth 2701.5 |
| SampleData.OliveOilFigures | src/pages/Index.tsx:33-51 | Olive Oil holds 475 units and 195 remain after the 280 requested |
| SampleData.WheatFlourFigures | src/pages/Index.tsx:52-69 | Wheat Flour holds 310 units and 100 remain after the 210 requested |
| SampleData.BasmatiRows | src/pages/Index.tsx:251-253 | five previous and three received batches give Basmati Rice a block of five rows headed by its serial number and name |

## Left out

- `exportToExcel` and `exportToPDF` (src/utils/exportUtils.ts:128-290): they call spreadsheet and document libraries and download a file; only their inputs, rows and summary, are modelled.
- `toFixed(2)` formatting: a cell field is the exact number it would print; the printed string is presentation.
- Floating point: the model computes with exact reals, so rounding error in the browser's sums and divisions is not captured.
- The values `totalReceived` and `expenditureData` computed and never used inside `calculateBalanceNextMonth` (src/utils/fifoCalculations.ts:52-53), and `totalReceived` computed and never used inside `createBatchRows` (src/utils/exportUtils.ts:35): they do not affect any result.
- The `|| []` guards on batch lists: the Dafny types cannot hold a missing list.
- `Date.now()` ids for new items and new batches: they are parameters of `ItemDialog.NewItem` and `ItemDialog.AddBatch`.
- `parseFloat(...) || 0` input coercion and the name, unit and expenditure input handlers of the item editor: they are plain field replacements driven by text input. The editor does not reject negatives, so lemmas that need non-negative quantities or rates state it as a precondition.
- React state, effects, `localStorage` loading and saving, `confirm`, toasts and the month label of the main page.
- `src/components/RationSection.tsx`, `src/components/SummarySection.tsx` and `src/components/InventoryTable.tsx`: RationSection.tsx and SummarySection.tsx are component state and one-line sums; InventoryTable.tsx renders engine results, calling `calculateFIFORate` for its rates (src/components/InventoryTable.tsx:55, 61) and repeating only the two reductions inline. They are not part of this model.
- Fifo.AllocatedQty: stated only for non-negative quantities and request; with a negative batch, `min` no longer caps the sum at the request.
- Fifo.BalanceQty: stated only for non-negative quantities and request, for the same reason.
- ExportUtils.ColumnQtySums: stated only for non-negative quantities; a negative row total is blanked and no longer adds up.
- ExportUtils.ColumnAmountSums: stated only for non-negative quantities and rates, for the same reason.
- ExportUtils.BlockRowsFields: its two column-sum ensures are stated only for non-negative quantities (and rates, for the amount column), for the same reason.
- ExportUtils.RowColumnsSum: stated only for non-negative quantities (and rates, for the amount column), for the same reason.
