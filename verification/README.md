# Models of an Odoo commerce suite

Dafny models of the add-ons under `shipstation/` and `pickpackship/`: importing orders and products from
stores, sending stock back, moving goods through the warehouse, and running the jobs in between. Records
are plain values with ids, record sets are sequences or sets of ids, a one2many command list is a datatype
with an `Apply` function, and a database transaction is one atomic step: an operation that raises leaves the
state as it was. Money is in cents, quantities are in hundredths; reals appear where a price is divided or a
tax rate applied.

`dafny verify dfyconfig.toml` checks everything.

| file | what it models |
|---|---|
| `OrderLines`, `OrderUpdate` | order lines, the commands that change them, the two update paths |
| `OrderTaxes` | which part of a total is tax, over every run of updates |
| `OrderMergeLaws`, `OrderMergeTwice` | what merging store data keeps: totals, repetition, when it fails |
| `OrderBuilder`, `AmazonImport` | from store data to order lines; rounding error of an import |
| `OrderParts`, `OrderLifecycle`, `OrderHistory` | an order created from store data, confirmed, and updated with newer data, once or any number of times |
| `InventorySync`, `KitClosure` | the change log behind inventory synchronisation; kits affected by a change |
| `WaveScan`, `PickingBins`, `Text`, `PackingQueue` | picking, sorting and packing |
| `JobQueue`, `JobJson`, `JobJsonReading` | the job state machine and its stored form; job arguments as JSON, and what is read back |
| `ServiceTransfers`, `ServiceOutcomes`, `ShipmentAllocation`, `ServiceShipment` | service transfers with remainders, what each step leaves; shipped quantity over moves, of one item and of several |
| `VariantImport`, `VariantImportStart`, `VariantImportOutcomes`, `VariantImportLaws`, `VariantImportMasters`, `VariantImportRepeat`, `VariantImportInputs` | importing the variants of a store product: the start, one variant, one import, every run, shared masters, the same data again |
| `ListingMirror`, `ListingWrites` | a listing and its sole variant; what one write leaves |
| `Deposits`, `SalesGraph` | deposits applied to an invoice; weekly sales buckets |
| `Sequences`, `Options` | sums, stable sorting, optional values |

The methods follow the code, and each is proved against a function or a step relation. The main results are
the lemmas about those: invariants over every run, conservation, exact conditions. Where the code does not
do what its documentation or its other half promises, a lemma gives an input on which it fails, and another
gives the exact condition under which it does.

Where code and documentation or comments disagree, the code is followed:

- `_get_retry_seconds` says that the pattern is ordered from higher to lower counts; it is sorted ascending.
- `get_picking` says that it returns the shipping transfer of the picking; it returns the picking itself.
- The state help of a service transfer says that a done transfer cannot be cancelled; `action_cancel` cancels
  done moves unless a context key asks it not to. `unlink` says that it checks whether moves are done; it does not.
- `_sync_in_queue_job_with_manage_variants` without automatic masters still creates a master for a store
  variant that has no attributes.
- `_check_invalid_mapping` deletes the mapping and then raises; the rollback undoes the deletion.

## Model

| member | source | states |
|---|---|---|
| OrderUpdate.SaleOrder.LookUpProductLines | shipstation/multichannel_order/models/sale_order.py:1083-1107 | The loop over the product dictionaries of an update yields one create or write for each, in order, fails when a priced one is looked up to several lines, and remembers exactly the lines looked up |
| OrderUpdate.SaleOrder.ProcessUpdateOrderLine | shipstation/multichannel_order/models/sale_order.py:1070-1114 | Updating a confirmed order yields the data commands, then a zero quantity for every product line no dictionary was looked up to, then the sections and notes whose name the order does not show yet |
| OrderUpdate.SaleOrder.AmountAll | shipstation/multichannel_order/models/sale_order.py:280-296 | Untaxed, tax and total are the sums over the lines, a tax line counting its subtotal as tax and no tax of its own; the total is their sum line by line |
| OrderUpdate.SaleOrder.UpdateInQueueJob | shipstation/multichannel_order/models/sale_order.py:1130-1165 | An unconfirmed order has its lines replaced, a confirmed one merged; a merge that raises leaves the lines as they were; afterwards the stored total is that of the lines |
| OrderLines.NewFlags | shipstation/multichannel_order/utils/order_processing_helper.py:131-141 | A created line has a flag exactly if its dictionary sets it true |
| OrderLines.RewrittenFlags | shipstation/multichannel_order/models/sale_order.py:1094-1105 | A written line has a flag exactly if the dictionary sets it true, or does not name it and the line had it |
| OrderTaxes.CreatedTaxSplit | shipstation/multichannel_order/utils/order_processing_helper.py:126-148 | The tax of an order with replaced lines is the sum of its positive taxes, and the untaxed amount is the items and fees less discount and coupons, told from the store data alone |
| OrderTaxes.UpdatedTaxSplit | shipstation/multichannel_order/models/sale_order.py:280-296 | An accepted update of an order the ledger describes: its tax is what the ledger and the new data say, its untaxed amount all the rest of the total |
| OrderTaxes.HistoryTaxSplit | shipstation/multichannel_order/models/sale_order.py:1130-1165 | Over every run of updates exactly the lines of the tax product are marked as tax, so each accepted update splits tax and untaxed amount that way |
| OrderMergeLaws.MergeRaisesIff | shipstation/multichannel_order/models/sale_order.py:1092-1105 | An update raises exactly when some priced dictionary is looked up to more than one line |
| OrderMergeLaws.MergeAppliesToMerged | shipstation/multichannel_order/models/sale_order.py:1070-1114 | For every accepted update, applying the merge commands one after the other rewrites each looked up line by all its dictionaries in turn, puts the other product lines to zero and appends the rest |
| OrderMergeLaws.FoldedIs | shipstation/multichannel_order/models/sale_order.py:1094-1105 | Where several dictionaries are written to one line, the last one's name and price and the last quantity given win |
| OrderMergeLaws.MergeTotalVersusReplace | shipstation/multichannel_order/models/sale_order.py:1140-1142 | For every order and every accepted update, the merged total is the replaced total plus, for each line, what its last writers leave on it less what all its dictionaries ask |
| OrderMergeLaws.MergeMatchesReplaceIff | shipstation/multichannel_order/models/sale_order.py:1070-1114 | Where lines are shared by deductions only, the two update paths agree on the total exactly when no deduction worth a cent is written to a line at quantity zero or overwritten by a later one |
| OrderMergeTwice.MergeTwice | shipstation/multichannel_order/models/sale_order.py:1083-1114 | After an accepted update the same data is accepted again exactly when no dictionary finds a line created or renamed for another; then it changes no line and holds no create command |
| OrderMergeTwice.UnkeyedIsCreatedAgain | shipstation/multichannel_order/models/sale_order.py:1090-1091 | A product line with neither store id nor fee flag is created again by every update |
| OrderMergeTwice.DiscountBesideCouponRaises | shipstation/multichannel_order/models/sale_order.py:1088-1089 | Failure: discounts and coupons share one default product, so an order holding a discount line and a coupon line can never be updated again with a discount |
| OrderMergeTwice.RevivedDiscountIsLost | shipstation/multichannel_order/models/sale_order.py:1109-1110 | Failure: a discount dropped by one update and back in the next stays at quantity zero, so the customer is asked 5.00 more |
| OrderMergeTwice.SharedLineLosesDiscount | shipstation/multichannel_order/models/sale_order.py:1088-1100 | Failure: a discount arriving beside a lone coupon line is written to the coupon line and then overwritten |
| OrderBuilder.ProcessDiscountLines | shipstation/multichannel_order/utils/order_processing_helper.py:62-102 | The section, the discount and its note, and one negative line for each coupon, in this order |
| OrderBuilder.ProcessFeeLines | shipstation/multichannel_order/utils/order_processing_helper.py:104-124 | One line for each positive fee in the order shipping, handling, wrapping, other, each with its own flag, and the section after them |
| OrderBuilder.ProcessTaxLines | shipstation/multichannel_order/utils/order_processing_helper.py:126-148 | The section before the positive taxes, then the tax note |
| OrderBuilder.PrepareOrderData | shipstation/multichannel_order/utils/order_processing_helper.py:156-160 | Discounts, fees, taxes and then the product lines |
| OrderBuilder.CreatedOrderTotal | shipstation/multichannel_order/utils/order_processing_helper.py:62-160 | Conservation: the total of a created order is the product lines plus the positive fees and taxes, minus a positive discount and all coupons, to the cent |
| AmazonImport.ProcessOrderLineData | shipstation/multichannel_amazon/utils/amazon_order_helper.py:155-181 | Unit prices are item price over quantity rounded to the cent, halves to even, 0 without price or quantity; then spread over the units a listing stands for |
| AmazonImport.ProcessOtherLines | shipstation/multichannel_amazon/utils/amazon_order_helper.py:218-238 | Discount, shipping, COD fee, wrapping and tax are the sums over the items of their parts |
| AmazonImport.OtherAmounts | shipstation/multichannel_amazon/utils/amazon_order_helper.py:218-238 | What the importer hands on, told in the fields of the items: the tax is the sum of five fields, the discount of three, shipping, COD fee and wrapping of one each |
| AmazonImport.OnlyUnitPricesRound | shipstation/multichannel_amazon/utils/amazon_order_helper.py:155-238 | The imported total is off by exactly what the unit prices are off: every other amount of every item arrives to the cent |
| AmazonImport.LinesError | shipstation/multichannel_order/models/sale_order.py:913-918 | The product lines are off by at most half a cent for each unit ordered, and half a cent more for each unit of a listing that stands for several |
| AmazonImport.ImportOrder | shipstation/multichannel_amazon/utils/amazon_order_helper.py:155-238 | The whole import through both roundings, the line builders and the total: off by at most the bound, for every order, including items without price or quantity |
| AmazonImport.ImportedTotalError | shipstation/multichannel_amazon/utils/amazon_order_helper.py:155-181 | For positive quantities and listings of one unit the imported total differs from the store's by at most half a cent times the total quantity |
| AmazonImport.ErrorBoundIsMet | shipstation/multichannel_amazon/utils/amazon_order_helper.py:160-162 | The bound is met by an order of any size |
| OrderParts.FoundByKind | shipstation/multichannel_order/utils/order_processing_helper.py:62-160 | How many lines of an order created from store data a dictionary finds: a discount all deductions, a tax all positive taxes, a fee or item at most one |
| OrderParts.FoundByCoupon | shipstation/multichannel_order/models/sale_order.py:1092-1093 | A coupon finds the line of its code, and the discount line too when the code is `Discounts` |
| OrderLifecycle.UpdateRaisesIff | shipstation/multichannel_order/models/sale_order.py:1083-1107 | A confirmed order created from data a raises under data b exactly when b has a discount and a two or more deductions, b has a positive tax and a two or more, or a discount stands beside a coupon `Discounts` that b has too |
| OrderLifecycle.TwoTaxesRaise | shipstation/multichannel_order/utils/order_processing_helper.py:131-141 | Failure: all taxes share one default product, so a confirmed order with two positive taxes raises when updated with its own data |
| OrderLifecycle.UpdatedTotal | shipstation/multichannel_order/models/sale_order.py:1129-1165 | A confirmed order updated with newer data it accepts asks what an order created from the newer data asks, plus a discount overwritten by the coupon of the only deduction line, less the taxes overwritten by the last one; coupons and any number of taxes included |
| OrderLifecycle.UpdatedTwice | shipstation/multichannel_order/models/sale_order.py:1083-1114 | The same data once more is accepted exactly when the update created no second tax line and no second deduction line beside a discount; then it changes nothing and holds no create command |
| OrderLifecycle.AmazonOrderUpdated | shipstation/multichannel_amazon/utils/amazon_order_helper.py:155-238 | From import to update: a confirmed Amazon order updated with newer items is accepted, any number of times, and differs from what the store now asks by no more than the rounding of unit prices |
| OrderHistory.UpdateTracked | shipstation/multichannel_order/models/sale_order.py:1083-1114 | One update of a confirmed order, whatever happened to it before, with any coupons, discount and taxes: it is accepted exactly when the ledger of the order (the names and quantities of its deduction lines, the number of its tax lines) accepts the data; then the new ledger and the total follow from the old ledger and the data |
| OrderHistory.HistoryTotal | shipstation/multichannel_order/models/sale_order.py:1129-1165 | Over every run of updates with any data: the next one is accepted exactly when the ledger left by the earlier data accepts it, and the order then asks what a fresh order asks, plus every discount overwritten by a coupon and every deduction written to a line at quantity zero, less the taxes overwritten by the last; a refused update changes nothing |
| OrderHistory.CouponsAccepted | shipstation/multichannel_order/models/sale_order.py:1092-1093 | Over every run without discounts and with one tax at most, whatever the coupons, every update is accepted: each code has one line at most |
| OrderHistory.DiscountHistory | shipstation/multichannel_order/models/sale_order.py:1109-1110 | Over every run without coupons and with one tax at most every update is accepted and the total is exactly that of a fresh order, until a discount that was dropped returns: then the order asks that discount more |
| InventorySync.SyncServer.QuantChanged | shipstation/multichannel_fulfillment/hooks.py:14-34 | The trigger adds the product of a changed quant to the table unless it is there |
| InventorySync.SyncServer.GetProductsToSync | shipstation/multichannel_fulfillment/models/stock_move.py:61-83 | Reads the existing products of the table, narrowed by a product filter, adds the kits they affect, and empties the table unless all records are synchronised |
| InventorySync.SyncServer.UpdateInventory | shipstation/multichannel_fulfillment/models/ecommerce_channel.py:193-242 | A store is sent the exported products, for a bulk run also its tracked listings, less those an exclude rule matches |
| InventorySync.SyncServer.UpdateChannels | shipstation/multichannel_fulfillment/models/stock_move.py:121-124 | Every target store with an updater is sent to once, and no other |
| InventorySync.SyncServer.Synchronise | shipstation/multichannel_fulfillment/models/stock_move.py:96-128 | One synchronisation is one step of the change log |
| InventorySync.ChangedSinceIff | shipstation/multichannel_fulfillment/models/stock_move.py:56-59 | A product is waiting exactly when it changed and nothing emptied the table after that |
| InventorySync.AuditHoldsChanges | shipstation/multichannel_fulfillment/models/stock_move.py:61-83 | In every reachable state the table holds exactly the products changed since it was last emptied, each once |
| InventorySync.ScheduledSyncSends | shipstation/multichannel_fulfillment/models/stock_move.py:96-128 | In every run, a scheduled synchronisation sends every enabled store exactly the waiting products and their kits, less those an exclude rule matches |
| InventorySync.SyncSendsIff | shipstation/multichannel_fulfillment/models/stock_move.py:96-128 | Every synchronisation of every run, told from the events and the rules: a product is sent to a store exactly if the store is asked for or enabled and has an updater, the product waits or is affected or is a tracked listing of a bulk run, and no rule names it, its template or one of its categories |
| InventorySync.ChangeIsDelivered | shipstation/multichannel_fulfillment/models/stock_move.py:96-128 | No change is forgotten: a product changed before a scheduled run is sent by it to every enabled store unless something emptied the table or a rule excludes it |
| InventorySync.NarrowSyncForgets | shipstation/multichannel_fulfillment/models/stock_move.py:81-82 | Failure: a synchronisation narrowed to other products empties the table too, and the change is never sent |
| KitClosure.ExtendedIsLeastClosed | shipstation/multichannel_fulfillment_mrp/models/stock_move.py:10-35 | The kits returned are the least set that holds the changed products and every variant of a template whose phantom bill of materials uses a member; the recursion ends on cyclic bills too |
| KitClosure.ExtendedIsReached | shipstation/multichannel_fulfillment_mrp/models/stock_move.py:17-32 | A product is returned exactly when a chain of kits leads to it from a changed product |
| WaveScan.WaveBatch.UpdateWavePicking | pickpackship/wave_picking_barcode/models/stock_picking_batch.py:70-124 | A scan changes the done quantities of the lines of the product at the location and of no other; the reported demand and done are the sums over the lines after the scan |
| WaveScan.SelectedIs | pickpackship/wave_picking_barcode/models/stock_picking_batch.py:88-92 | The lines a scan looks at are those of the product at the location, each once, lowest id first |
| WaveScan.ScanTotals | pickpackship/wave_picking_barcode/models/stock_picking_batch.py:91-119 | Over all lines of the wave: up, the product at the location gains the smaller of the scanned quantity and what its lines still ask for; down, it loses the smaller of that and all it has |
| WaveScan.RaisedTotal | pickpackship/wave_picking_barcode/models/stock_picking_batch.py:91-100 | A scan up raises the total done by exactly the smaller of the scanned quantity and the open demand |
| WaveScan.RaisedPrefix | pickpackship/wave_picking_barcode/models/stock_picking_batch.py:93-100 | It fills lines in id order as a prefix, one of them partly, and raises no line above its demand |
| WaveScan.LoweredTotal | pickpackship/wave_picking_barcode/models/stock_picking_batch.py:101-112 | A scan down lowers the total done by exactly the smaller of the scanned quantity and the total, and never below zero |
| WaveScan.LoweredSuffix | pickpackship/wave_picking_barcode/models/stock_picking_batch.py:102-112 | It empties lines from the highest id down |
| WaveScan.SessionIsFilled | pickpackship/wave_picking_barcode/models/stock_picking_batch.py:91-112 | After any sequence of scans up and down the lines are those filled in id order up to the running total: the order of scans leaves no trace |
| WaveScan.ScanUndone | pickpackship/wave_picking_barcode/models/stock_picking_batch.py:91-112 | A scan down undoes a scan up of the same quantity, line by line |
| Text.SplitUndoesJoin | pickpackship/wave_picking_barcode/models/stock_move_line.py:56 | Splitting undoes joining for pieces without a comma |
| Text.JoinOfSplit | pickpackship/wave_picking_barcode/models/stock_move_line.py:98-101 | Joining undoes splitting, for every string |
| Text.PrefilterFinds | pickpackship/wave_picking_barcode/models/stock_move_line.py:42-49 | A bin found by its own search pattern is found in every list that holds it as an exact piece |
| Text.PrefilterExactIff | pickpackship/wave_picking_barcode/models/stock_move_line.py:42-49 | The `ilike` prefilter loses no exact piece exactly when the pattern of the barcode finds the barcode |
| Text.SearchFinds | pickpackship/wave_picking_barcode/models/stock_move_line.py:42 | A barcode without percent sign and backslash is found exactly in the lists in which it stands somewhere, in whatever case, an underscore standing for any character |
| Text.PrefilterFindsPlain | pickpackship/wave_picking_barcode/models/stock_move_line.py:42 | That is so for every barcode without a backslash, wildcards included |
| Text.PrefilterLosesBackslash | pickpackship/wave_picking_barcode/models/stock_move_line.py:42 | Failure: the pattern of a barcode with a backslash does not find it |
| PickingBins.SortingFloor.UpdateSortedMoveLine | pickpackship/wave_picking_barcode/models/stock_move_line.py:33-65 | A bin another order holds is refused; otherwise it joins the transfer's list, in any order, and the line gets the quantity |
| PickingBins.SortingFloor.ResetPickingBins | pickpackship/wave_picking_barcode/models/stock_move_line.py:92-104 | Unsorting takes the bin out of the list and the quantity off the line; an unset list raises |
| PickingBins.SortingFloor.DoneAndPrintLabel | pickpackship/packing_barcode/models/stock_picking.py:129-158 | A fully reserved shipping transfer and its pick transfers lose their bins; a partly reserved one is refused |
| PickingBins.SortingFloor.ClearBatchPicking | pickpackship/wave_picking_barcode/models/stock_picking_batch.py:340-345 | Clearing a batch puts its lines to zero and clears its bins |
| PickingBins.RefusedIff | pickpackship/wave_picking_barcode/models/stock_move_line.py:38-51 | A sort is refused exactly if another transfer lists the bin that is not single and an open out transfer or a done pick transfer |
| PickingBins.LabelledHoldNothing | pickpackship/packing_barcode/models/stock_picking.py:154-156 | Once a shipment is labelled neither it nor its pick transfers have a bin; a sort is refused on account of the same other transfers as before |
| PickingBins.LabelledBinIsFree | pickpackship/packing_barcode/models/stock_picking.py:154-156 | A bin that one of them held is free for any order afterwards, while the bins are exclusive |
| PickingBins.BinsAfterAdd | pickpackship/wave_picking_barcode/models/stock_move_line.py:53-56 | Adding a barcode adds its comma-separated pieces to the set of bins |
| PickingBins.BinsListedOnce | pickpackship/wave_picking_barcode/models/stock_move_line.py:53-56 | A bin added to a list leaves each bin of the list written once |
| PickingBins.BinsAfterRemove | pickpackship/wave_picking_barcode/models/stock_move_line.py:98-101 | Removing a bin removes that bin and nothing else |
| PickingBins.HolderIsFound | pickpackship/wave_picking_barcode/models/stock_move_line.py:42-49 | The search finds every holder of a plain barcode |
| PickingBins.SortKeepsExclusiveIff | pickpackship/wave_picking_barcode/models/stock_move_line.py:33-61 | An accepted sort keeps the bins exclusive exactly when no other holder has one of the comma-separated pieces of the barcode |
| PickingBins.PlainRunKeepsExclusive | pickpackship/wave_picking_barcode/models/stock_move_line.py:33-104 | Over every run of sort, unsort, label and clear steps that scan plain barcodes, no bin is ever held by two transfers: the code's own search is all it takes |
| PickingBins.StatusKeepsExclusiveIff | pickpackship/wave_picking_barcode/models/stock_move_line.py:38-47 | A status change keeps the bins exclusive exactly unless the transfer becomes a holder while another holder has one of the bins it lists |
| PickingBins.GuardedRunIff | pickpackship/wave_picking_barcode/models/stock_move_line.py:33-104 | Over a run of such steps and status changes the bins are exclusive at every point if and only if each status change on the way is of that kind |
| PickingBins.AlwaysExclusiveIff | pickpackship/wave_picking_barcode/models/stock_move_line.py:38-47 | The bins are exclusive in whatever statuses the transfers take exactly when no bin is listed in two transfers that hold bins in some status |
| PickingBins.SortKeepsClaimsIff | pickpackship/wave_picking_barcode/models/stock_move_line.py:33-61 | An accepted sort keeps that exactly when no other such transfer lists a piece of the barcode, whatever its status |
| PickingBins.SearchSufficesIff | pickpackship/wave_picking_barcode/models/stock_move_line.py:42-49 | The search sees to that for a plain barcode exactly unless a transfer lists it that does not hold it yet |
| PickingBins.RunKeepsExclusive | pickpackship/wave_picking_barcode/models/stock_move_line.py:33-104 | Over every run of sort, unsort, label, clear and status steps, with any barcodes and status changes, the bins are exclusive in whatever statuses the transfers may take, at every point, if and only if no accepted barcode is listed by another transfer that may come to hold it |
| PickingBins.UnsortUndoesSort | pickpackship/wave_picking_barcode/models/stock_move_line.py:92-104 | An unsort undoes an accepted sort of a new bin |
| PickingBins.CommaBarcodeShared | pickpackship/wave_picking_barcode/models/stock_move_line.py:49 | Failure: a barcode with a comma is checked as a whole and stored as two bins, one of them taken |
| PickingBins.OpenPicksShareBin | pickpackship/wave_picking_barcode/models/stock_move_line.py:43-44 | Failure: two pick transfers still being picked get the same bin and both hold it once done |
| PackingQueue.SinglePackingQueue.ActionDone | pickpackship/packing_barcode/models/stock_picking.py:15-46 | Done single picks are queued unless queued before, and the picks of done shipments leave the queue unless told to stay |
| PackingQueue.SinglePackingQueue.InsertRecord | pickpackship/packing_barcode/models/single_packing_queue.py:56-69 | The first pick of the shipment is queued, or the unique constraint refuses it and nothing changes |
| PackingQueue.SinglePackingQueue.UnholdPicking | pickpackship/packing_barcode/models/stock_picking.py:48-54 | Taking a shipment off hold inserts its row once for each pick transfer that is done and single; a refusal undoes every insertion |
| PackingQueue.UnheldIs | pickpackship/packing_barcode/models/stock_picking.py:48-54 | It raises exactly when two of its pick transfers or more are done and single, or one is and the first pick transfer is queued already; otherwise it queues the first pick transfer, be it the done one or not |
| PackingQueue.UnheldTwice | pickpackship/packing_barcode/models/stock_picking.py:48-54 | In every reachable queue, with one done single pick, it raises exactly if the first pick transfer is queued, and after it has queued that one it raises the second time |
| PackingQueue.SinglePackingQueue.Earliest | pickpackship/packing_barcode/models/single_packing_queue.py:34-40 | The row popped is dated no later than any other unlocked row of the product and warehouse |
| PackingQueue.SinglePackingQueue.GetPicking | pickpackship/packing_barcode/models/single_packing_queue.py:24-54 | The loop ends; it hands out the earliest matching row with a destination, discarding only earlier rows without one, or empties them all and returns nothing |
| PackingQueue.ScanIs | pickpackship/packing_barcode/models/single_packing_queue.py:34-54 | A scan hands out the earliest row that is unlocked, of the warehouse, of the barcode and with a destination, none exactly if no row is; rows of other barcodes or warehouses stay, and only such rows without destination are dropped |
| PackingQueue.InsertIs | pickpackship/packing_barcode/models/single_packing_queue.py:56-69 | Inserting is refused exactly if the table has a row of this product and transfer; else one new row has the first pick transfer, its first product, and warehouse and date of the shipment |
| PackingQueue.CompletedRows | pickpackship/packing_barcode/models/stock_picking.py:15-46 | A transfer is queued after completing a batch exactly if it was queued or is a done single pick of the batch, and no shipment of the batch comes from it unless the queue is kept; other rows stay as they are |
| PackingQueue.StepKeepsInv | pickpackship/packing_barcode/models/stock_picking.py:15-46 | Every step keeps one row for each picking and every row ever inserted in exactly one place |
| PackingQueue.ReachableQueue | pickpackship/packing_barcode/models/single_packing_queue.py:18-54 | In every reachable state, with any interleaving of packers, the queue has at most one row for each picking and no row is in two places |
| PackingQueue.ReachableCounts | pickpackship/packing_barcode/models/single_packing_queue.py:24-69 | inserted = queued + handed out + discarded + removed, in every reachable state |
| PackingQueue.HandedOnce | pickpackship/packing_barcode/models/single_packing_queue.py:24-54 | A row handed to a packer stays with that packer and is never queued or handed out again |
| PackingQueue.CompletedLeavesQueue | pickpackship/packing_barcode/models/stock_picking.py:39-45 | Completing a shipment takes its picks out of the queue |
| JobJson.NumberOfDigits | shipstation/queue_job/fields.py:81-84 | Reading back a number written in a fixed number of digits gives the number |
| JobJson.MomentRoundTrip | shipstation/queue_job/fields.py:81-82 | Parsing the ISO text of a date and time gives it back, with and without microseconds |
| JobJson.DateRoundTrip | shipstation/queue_job/fields.py:83-84 | Parsing the ISO text of a date gives the date at midnight |
| JobJsonReading.ValidIff | shipstation/queue_job/fields.py:81-84 | The moments meant are those of the calendar: the days each month has, 29 in February of a leap year, and the times of a day |
| JobJsonReading.ReadIsSpelled | shipstation/queue_job/fields.py:112-115 | Nothing is read but a day of the calendar at a time of the day, and the text spells it, as a date, a date and time, or both with a fraction |
| JobJson.RecordsetRoundTrip | shipstation/queue_job/fields.py:73-80 | A recordset keeps its model, ids in order, user and superuser flag, whoever decodes it |
| JobJsonReading.BelongsTo | shipstation/queue_job/fields.py:108-111 | A decoded recordset belongs to the user it names, or else to the one who decodes it; without a superuser flag it is a superuser's only if it names no user and the one who decodes it is one |
| JobJson.HookKeepsIff | shipstation/queue_job/fields.py:104-118 | The object hook leaves a dictionary alone exactly when its tag is not one of the four reserved ones |
| JobJson.XmlRoundTrip | shipstation/queue_job/fields.py:85-89 | An element is written with its tail: read back, white space after it is lost, other text cannot be parsed |
| JobJsonReading.EscapedReadsBack | shipstation/queue_job/fields.py:85-89 | A tail is written without markup or carriage returns and reads back as it was |
| JobJsonReading.ReadElement | shipstation/queue_job/fields.py:116-117 | What is read is an element up to its last tag, with nothing after it but white space, which is not kept |
| JobJson.JobArgumentRoundTripIff | shipstation/queue_job/fields.py:69-118 | For every nested argument, decoding its encoding gives it back, tuples as lists, exactly when no plain dictionary in it uses a reserved tag and no XML element in it has a tail |
| JobQueue.Job.Perform | shipstation/queue_job/job.py:499-523 | An attempt counts unless it asks to be ignored; a retryable error at the limit becomes FailedJobError |
| JobQueue.Job.GetRetrySeconds | shipstation/queue_job/job.py:685-700 | The early-exit scan over the sorted pattern gives the delay of the specification, drawn inside its range; an empty range raises |
| JobQueue.Job.Postpone | shipstation/queue_job/job.py:702-713 | The eta becomes now plus the delay, the error is cleared, a given result is kept |
| JobQueue.PatternDelay | shipstation/queue_job/job.py:685-700 | For every pattern and count: the delay of the greatest count not above the retry counter, or the default interval if there is none |
| JobQueue.PostponedByPattern | shipstation/queue_job/job.py:702-713 | Postponing waits the delay in force, within its range; a delay of zero leaves no eta |
| JobQueue.GivenDelay | shipstation/queue_job/job.py:685-700 | A delay the error asks for comes before the pattern, unless it is zero |
| JobQueue.StoreLoadRoundTrip | shipstation/queue_job_enhancement/job.py:120-136 | Storing and loading keeps everything but empty texts and an unset pid, exactly; doing it twice changes nothing more |
| JobQueue.StepCounts | shipstation/queue_job/job.py:499-523 | Every step, loading an older record included, keeps counter and log in agreement |
| JobQueue.RunCounts | shipstation/queue_job/job.py:499-582 | Over every run of retryable attempts with a positive limit the counter is the number of counted attempts, never exceeds the limit, and FailedJobError is raised at exactly the attempt that reaches it |
| JobQueue.Job.RunJob | shipstation/queue_job/controllers/main.py:24-107 | Running a queued job stores its start, performs it and stores it as done, failed, or postponed and pending with its counter kept; a job not queued is left alone, and one whose delay cannot be drawn stays started |
| JobQueue.RunSucceeds | shipstation/queue_job/controllers/main.py:24-107 | The whole record after a run that succeeds: done, counted, with result, start and end, without an error |
| JobQueue.RunFails | shipstation/queue_job/controllers/main.py:24-107 | The whole record after a run that fails or reaches its limit: failed, counted, with the error and the start |
| JobQueue.RunPostpones | shipstation/queue_job/controllers/main.py:41-49 | The whole record after an attempt to be tried again: pending, its eta the end of the attempt plus the seconds asked for, those of the pattern entry in force, or ten minutes; or left started if they cannot be drawn |
| JobQueue.ButtonsLeave | shipstation/queue_job/models/queue_job.py:208-240 | Putting a job back starts its counter over and clears its times; marking it as done keeps the counter |
| JobQueue.RunIsSteps | shipstation/queue_job/controllers/main.py:41-49 | A run that ends in a retryable error is a run of the steps load, start, store, perform, postpone or fail, set pending, store |
| JobQueue.LifeCounts | shipstation/queue_job/models/queue_job.py:208-240 | Over the whole life of a stored job, queued, run with any ending, put back and marked as done: the counter is the number of counted attempts since the last requeue and never exceeds the limit, a pending or queued job has an attempt left, and a job that is not done has failed exactly if its last attempt gave up |
| JobQueue.UndrawableIsLost | shipstation/queue_job/controllers/main.py:41-49 | An attempt leaves the job started exactly when its delay cannot be drawn; then it is not counted, and the job stays started until a user acts |
| ServiceTransfers.ServiceOrder.ActionDone | shipstation/multichannel_fulfillment/models/stock_service_move.py:130-142 | Finishing the draft moves of a transfer, cancelling those whose done quantity the coarse zero test takes for zero; a negative quantity raises before anything is written; delivered quantities are recomputed |
| ServiceTransfers.ServiceOrder.ActionConfirm | shipstation/multichannel_fulfillment/models/stock_service_picking.py:96-131 | Refuses a transfer whose plans all count as zero, asks when nothing is done, else delivers what counts as done and plans the remainder in a new transfer |
| ServiceTransfers.ServiceOrder.ActionCancel | shipstation/multichannel_fulfillment/models/stock_service_picking.py:144-149 | Cancels the moves of a transfer, done ones too unless told to skip them, and recomputes delivered quantities |
| ServiceTransfers.ServiceOrder.GenerateServiceMoves | shipstation/multichannel_order/models/sale_order.py:153-165 | A new move for every short line without a draft move |
| ServiceOutcomes.AnswerIs | shipstation/multichannel_fulfillment/models/stock_service_picking.py:96-124 | Confirming goes on exactly if a move of the transfer plans something that counts, a draft one has something done and none a negative quantity; it asks exactly if something is planned and nothing done |
| ServiceOutcomes.ConfirmLeaves | shipstation/multichannel_fulfillment/models/stock_service_picking.py:96-131 | Move by move what confirming leaves: draft moves done or cancelled, delivered quantities of the lines touched, one draft move in a new transfer for each line still short, for what is missing; and nothing changed if it does not go on |
| ServiceOutcomes.ImmediateLeaves | shipstation/multichannel_fulfillment/models/stock_service_move.py:130-142 | Doing all at once leaves every draft move of the transfer done, in full where nothing that counts was done, or changes nothing if one is negative |
| ServiceOutcomes.CancelLeaves | shipstation/multichannel_fulfillment/models/stock_service_picking.py:144-149 | Cancelling leaves every move of the transfer cancelled but done ones that are to be skipped, the delivered quantities of its lines recomputed and all else as it was |
| ServiceOutcomes.GenerateLeaves | shipstation/multichannel_order/models/sale_order.py:153-165 | One draft move for each service line that is short and has no draft move, in the order of the lines, for what is missing, and nothing else |
| ServiceOutcomes.StateIs | shipstation/multichannel_fulfillment/models/stock_service_picking.py:64-79 | Draft while there is no move or a draft one, cancelled when there are only cancelled ones |
| ServiceOutcomes.CancelledState | shipstation/multichannel_fulfillment/models/stock_service_picking.py:64-79 | A cancelled transfer is cancelled, or done if a done move was skipped |
| ServiceTransfers.ConfirmedAssigned | shipstation/multichannel_fulfillment/models/stock_service_picking.py:96-131 | After every completed confirmation, done plus planned on a deliverable line is the larger of ordered and what was assigned with the transfer's plans replaced by what counts as done |
| ServiceTransfers.ConfirmedKeepsAssignedIff | shipstation/multichannel_fulfillment/models/stock_service_picking.py:96-131 | It is the larger of ordered and previously assigned exactly when what counts as done is what the transfer planned for the line or neither figure exceeds the order |
| ServiceTransfers.OverAssignedIsGivenBack | shipstation/multichannel_fulfillment/models/stock_service_picking.py:126-129 | Failure of that reading: a line over-assigned before keeps only what was done, and of 0.40 done nothing |
| ServiceTransfers.ConfirmedDeliversIff | shipstation/multichannel_fulfillment/models/stock_service_move.py:137 | A completed confirmation delivers what was done of a line exactly when no done quantity is taken for zero: the unit's rounding is passed as a number of digits, so with 0.01 all up to 0.48 are |
| ServiceTransfers.GeneratedAssigned | shipstation/multichannel_order/models/sale_order.py:153-165 | Generating moves tops a line up to its order exactly unless a draft move of the short line exists |
| ServiceTransfers.RunKeepsDelivered | shipstation/multichannel_fulfillment/models/sale_order.py:34-37 | Over every run of confirm, immediate transfer, cancel, generate and edits, the delivered quantity of each service line is the sum of its done moves |
| ServiceTransfers.DeletedKeepsDeliveredIff | shipstation/multichannel_fulfillment/models/stock_service_picking.py:91-94 | Deleting a transfer keeps the delivered quantities right exactly when its done moves amount to nothing on every service line |
| ServiceTransfers.ConfirmedState | shipstation/multichannel_fulfillment/models/stock_service_picking.py:64-79 | A completed confirmation leaves the transfer done if a move was done or has a done quantity that counts, and cancelled otherwise |
| ServiceTransfers.SmallDoneIsCancelled | shipstation/multichannel_fulfillment/models/stock_service_picking.py:102-131 | Failure: ordered 1.00, planned 1.00, done 0.40 is cancelled and delivers nothing |
| ServiceTransfers.SmallPlanIsRefused | shipstation/multichannel_fulfillment/models/stock_service_picking.py:104-109 | Failure: a transfer planned at 0.40 is refused as if it planned nothing |
| ShipmentAllocation.AllocateItem | shipstation/multichannel_fulfillment/models/stock_picking.py:212-224 | The loop over the moves of one product writes the specified quantities |
| ShipmentAllocation.ProcessShipmentGetLines | shipstation/multichannel_fulfillment/models/stock_picking.py:201-225 | The commands of all items of a shipment, in order |
| ShipmentAllocation.AllocatedAt | shipstation/multichannel_fulfillment/models/stock_picking.py:213-224 | Every move but the last gets the smaller of its demand and what is left, the last all that is left; a move is written exactly when something is left for it |
| ShipmentAllocation.OnlyLastExceeds | shipstation/multichannel_fulfillment/models/stock_picking.py:216-220 | Only the last move in demand order can exceed its demand, exactly when more is shipped than demanded, and by exactly the excess |
| ShipmentAllocation.ItemIsSpread | shipstation/multichannel_fulfillment/models/stock_picking.py:212-224 | Writing one item to untouched moves leaves exactly the shipped quantity on them |
| ShipmentAllocation.ShipmentConservesIff | shipstation/multichannel_fulfillment/models/stock_picking.py:201-225 | A whole shipment leaves on the moves of a product exactly what it ships of it if and only if at most one item ships something of it |
| ShipmentAllocation.RepeatedProductLost | shipstation/multichannel_fulfillment/models/stock_picking.py:205-224 | Failure: two items of one product, 3.00 and 2.00, leave 2.00 |
| ShipmentAllocation.ServiceTransfer.ProcessItem | shipstation/multichannel_fulfillment/models/stock_service_picking.py:197-219 | One item of a service shipment: done quantities and plans written move by move |
| ShipmentAllocation.ServiceFillDone | shipstation/multichannel_fulfillment/models/stock_service_picking.py:206-219 | The service loop writes the same done quantities as the loop for physical moves |
| ShipmentAllocation.PlanMatches | shipstation/multichannel_fulfillment/models/stock_service_picking.py:209-219 | The plan of the last move is raised by exactly the excess and no other plan changes |
| ShipmentAllocation.ServiceItemMatches | shipstation/multichannel_fulfillment/models/stock_service_picking.py:197-219 | The first item of a service shipment is done exactly, and the moves together plan the larger of plan and shipment |
| ShipmentAllocation.ServiceTransfer.ProcessShipment | shipstation/multichannel_fulfillment/models/stock_service_picking.py:197-219 | All items of a service shipment one after the other, each over the plans the earlier ones raised |
| ServiceShipment.RaisedKeepsOrder | shipstation/multichannel_fulfillment/models/stock_service_picking.py:200-202 | Raising the plan of the move that is sorted last leaves the order of the moves as it is |
| ServiceShipment.ServiceShipmentConservesIff | shipstation/multichannel_fulfillment/models/stock_service_picking.py:197-219 | For every service shipment into untouched moves: what is done of a product is what is shipped of it if and only if at most one item ships something of it, and never more; and its moves plan what they planned or the largest of its items, whichever is more |
| Deposits.Document.AssignOutstandingLine | shipstation/account_partner_deposit/models/account_move.py:117-125 | One deposit: the smaller of what is open on both sides moves through a new entry and clears both |
| Deposits.Document.ReconcileDeposit | shipstation/account_partner_deposit/models/account_move.py:231-243 | All posted deposits of the paying side are offered in order |
| Deposits.OfferedOne | shipstation/account_partner_deposit/models/account_move.py:152-223 | The same amount leaves the deposit and the document, no line changes sign, no entry is made for nothing |
| Deposits.InvoicePaid | shipstation/account_partner_deposit/models/account_move.py:231-243 | What stays open is max(0, R - sum of the eligible deposits), for invoices and bills |
| Deposits.ConsumedInOrder | shipstation/account_partner_deposit/models/account_move.py:231-243 | Deposits are consumed as a prefix, each giving the smaller of its amount and what the earlier ones left; one not posted, not open or of the other side gives nothing |
| Deposits.NoDepositHeldBack | shipstation/account_partner_deposit/models/account_move.py:231-243 | A deposit keeps something only if the document is paid, and then the later ones are untouched |
| Deposits.PaidFromResiduals | shipstation/account_partner_deposit/models/account_move.py:157-243 | The whole run in terms of the residuals alone: what stays open is what the posted residuals of the paying side do not cover; a deposit without one, as one not posted, is as it was |
| Deposits.ReconciledIs | shipstation/account_partner_deposit/models/account_move.py:123-125 | Reconciling a line with any others takes from those of the other side, together, the smaller of what it has and what they have |
| Deposits.ReconciledSides | shipstation/account_partner_deposit/models/account_move.py:123-125 | Lines of its own side stay as they are, and one of the other side shrinks and does not change sides |
| Deposits.TakenIsApplied | shipstation/account_partner_deposit/models/account_move.py:157-223 | What leaves the deposits is what leaves the document and what the entries move |
| Deposits.EntriesBalance | shipstation/account_partner_deposit/models/account_move.py:182-229 | Every generated entry has equal debit and credit for a positive amount, between a deposit account and the document's account, the right way round |
| VariantImport.ProductImport.CreateProductProduct | shipstation/multichannel_product/models/product_template.py:815-838 | The variant of the template with these attributes if its SKU is the same, a new one, none, or a mismatch; a SKU or attributes already taken raise |
| VariantImport.ProductImport.ProcessExistedMappingVariant | shipstation/multichannel_product/models/product_template.py:853-884 | A mapped store variant keeps its mapping, gets a created master, or is thrown out with a log entry |
| VariantImport.ProductImport.ProcessNotExistedMappingVariant | shipstation/multichannel_product/models/product_template.py:886-939 | An unmapped store variant is mapped to its master, to a created one, or logged |
| VariantImport.ProductImport.SyncInQueueJob | shipstation/multichannel_product/models/product_template.py:989-1021 | The whole import over the master table: SKU lookup, chosen or new template, purge, loop; whatever raises leaves everything as it was |
| VariantImportStart.ChosenIs | shipstation/multichannel_product/models/product_template.py:981-987 | The template is that of the product of the SKU that comes first: the smallest the store sends that a product carries, or without one that of the first alternate entry it asks for; its product is that of the last alternate entry, or the last that carries it |
| VariantImportStart.StartRaisesIff | shipstation/multichannel_product/models/product_template.py:989-1003 | An import raises before its loop exactly if the store sends no variant, or knows no SKU and masters are not automatic or a new template without attributes would repeat a SKU |
| VariantImportStart.StartedIs | shipstation/multichannel_product/models/product_template.py:989-1008 | What the loop starts from: the masters there are, or a new template and its first variant if no SKU is known; the mapping is left with the variants the store still sends, as they were, and is gone if it loses all |
| VariantImportOutcomes.MasterIs | shipstation/multichannel_product/models/product_template.py:675-703 | The master of a SKU is the last own product with it, else the product of the last alternate one, else the last product with it, if that is of the template |
| VariantImportOutcomes.WithMaster | shipstation/multichannel_product/models/product_template.py:853-939 | A store variant with a master is mapped to it, or stays as it is mapped; nothing else changes |
| VariantImportOutcomes.ThrownOut | shipstation/multichannel_product/models/product_template.py:857-860 | Without a master a mapped one is logged and loses its mapping unless masters are automatic |
| VariantImportOutcomes.MismatchRefused | shipstation/multichannel_product/models/product_template.py:825-832 | Without a master, attributes the template has under another SKU are refused whatever the setting: logged, not mapped, nothing raised |
| VariantImportOutcomes.NewProductIff | shipstation/multichannel_product/models/product_template.py:833-838 | One not refused gets a new product of its SKU and attributes where masters are automatic or it has no attributes; the import raises exactly if that would repeat attributes or a SKU |
| VariantImportOutcomes.ExistingProductIff | shipstation/multichannel_product/models/product_template.py:829-838 | Without automatic masters one with attributes gets the variant of the template with these attributes and its SKU, and is logged if there is none |
| VariantImportOutcomes.MismatchIsLogged | shipstation/multichannel_product/models/product_template.py:933-938 | In every import a variant refused when its turn comes never makes the import raise, and an accepted import has logged and not mapped it |
| VariantImportLaws.RunKeepsOne | shipstation/multichannel_product/models/product_template.py:953-971 | Over every run of imports with any data no store id gets a second mapping, no SKU a second product, no template two variants with the same attributes, and every mapped variant has a product of the table |
| VariantImportLaws.MappedOrLogged | shipstation/multichannel_product/models/product_template.py:989-1021 | After an import that does not raise every mapped variant is one the store sent, and every store variant is either mapped or logged as failed, never both; which, its verdict says |
| VariantImportLaws.MappedToItsMaster | shipstation/multichannel_product/models/product_template.py:1010-1013 | A variant an import maps is mapped to a variant of the chosen template with its SKU, or of which its SKU is an alternate one |
| VariantImportLaws.ImportRaisesIff | shipstation/multichannel_product/models/product_template.py:706-713 | An import raises exactly when the store sends no variant, no SKU is known without automatic masters, a product to be made has a SKU or attributes that are taken, or the mapping loses all its variants before the last store variant |
| VariantImportRepeat.UnchangedIff | shipstation/multichannel_product/models/product_template.py:989-1021 | For every state and data, an import changes nothing but its log exactly when the mapping is of the chosen template, holds only what the store sends, each mapped variant has a master, and each other one has none and is refused one |
| VariantImportRepeat.RepeatChangesNothingIff | shipstation/multichannel_product/models/product_template.py:989-1021 | Importing the same data again is accepted and changes nothing but the log exactly when the template stays, the mapping survives, and masters are automatic or no mapped variant lacks both attributes and a master |
| VariantImportRepeat.StaysIff | shipstation/multichannel_product/models/product_template.py:980-987 | The same template is chosen again exactly unless the smallest SKU carried after the import is that of a product just made and an alternate SKU as well |
| VariantImportInputs.EmptiedMappingRaises | shipstation/multichannel_product/models/product_channel_variant.py:494-499 | Failure: a variant with a master is not imported because the one before it emptied the mapping |
| VariantImportInputs.ThrownOutThenMade | shipstation/multichannel_product/models/product_template.py:835-836 | Failure: without automatic masters a mapped variant without attributes is thrown out for want of a master by one import and given that master by the next |
| VariantImportInputs.AlternateMovesTemplate | shipstation/multichannel_product/models/product_template.py:687-688 | Failure: an import makes a product whose SKU is an alternate one of another template's product; the next import of the same data follows the alternate and raises |
| VariantImportInputs.BlankSkuSharesMaster | shipstation/multichannel_product/models/product_template.py:675-677 | Failure: a new store variant without SKU is linked to the master of another one |
| VariantImportMasters.MastersApartIff | shipstation/multichannel_product/models/product_template.py:989-1021 | For every accepted import: the mapped variants have products of their own afterwards if and only if no two store variants have the same target before it, the target being the product a mapped variant keeps, the master of the SKU of a new one, or without automatic masters the variant of the template with its attributes and SKU |
| VariantImportMasters.SameMasterIsShared | shipstation/multichannel_product/models/product_template.py:675-688 | So two new store variants whose SKUs have one master share it |
| VariantImportMasters.MasterInUseIsShared | shipstation/multichannel_product/models/product_template.py:675-688 | And a new store variant shares the product a mapped one keeps if the master of its SKU is that product, as in `BlankSkuSharesMaster` |
| VariantImportMasters.BlankSkusShare | shipstation/multichannel_product/models/product_template.py:675-677 | Failure: two new store variants without SKU share the last product of the template without SKU |
| VariantImportMasters.AlternateShares | shipstation/multichannel_product/models/product_template.py:687-688 | Failure: two new store variants, one with a product's SKU and one with an alternate SKU of it, share that product |
| VariantImportMasters.FirstImportApart | shipstation/multichannel_product/models/product_template.py:989-1021 | A first import of variants with SKUs of their own, none an alternate one, shares no product |
| ListingMirror.ProductListing.SetBaseVariant | shipstation/multichannel_product/models/product_channel.py:318-325 | Writing the listing's fields to its sole variant one by one is writing them at once; with the other side's flag set nothing is written back |
| ListingMirror.ProductListing.WriteTemplate | shipstation/multichannel_product/models/product_channel.py:923-987 | A write to the listing: dropped weight, values rounded as their fields are stored, lock, state, and one reflection at most |
| ListingMirror.ProductListing.UpdateTemplate | shipstation/multichannel_product/models/product_channel_variant.py:479-490 | The variant's new values are written back field by field, each by a write of the listing that does not reflect; it raises when the listing is in progress |
| ListingMirror.ProductListing.WriteVariant | shipstation/multichannel_product/models/product_channel_variant.py:436-492 | A write to the variant; when writing back raises, the variant keeps its values |
| ListingWrites.StoredIs | shipstation/multichannel_product/models/product_channel.py:134-135 | A weight or price is stored as the nearest multiple of its last digit, halves away from zero, anything else as it is |
| ListingWrites.TemplateRaisesIff | shipstation/multichannel_product/models/product_channel.py:955-958 | A write to a listing in progress raises unless it synchronises or sets a status or a thumbnail |
| ListingWrites.TemplateStatus | shipstation/multichannel_product/models/product_channel.py:960-977 | The state after a write: the one written; else a published listing is updated, a failed one updated or draft, by an ordinary write that sets something, and no other write changes it |
| ListingWrites.TemplateValues | shipstation/multichannel_product/models/product_channel.py:923-987 | The values after a write, field by field on both sides, told from the flags of its context |
| ListingWrites.VariantRaisesIff | shipstation/multichannel_product/models/product_channel_variant.py:479-490 | A write to the variant raises exactly if it goes on to a listing in progress and does not synchronise |
| ListingWrites.VariantValues | shipstation/multichannel_product/models/product_channel_variant.py:436-492 | The values and the state it leaves on both sides, and which of them it writes back |
| ListingMirror.TemplateKeepsAgreementIff | shipstation/multichannel_product/models/product_channel.py:923-987 | A write to the listing keeps both sides in agreement exactly unless it synchronises a weight that is kept but, once rounded, differs so little that the variant drops it |
| ListingMirror.VariantKeepsAgreementIff | shipstation/multichannel_product/models/product_channel_variant.py:436-492 | A write to the variant keeps agreement exactly unless it changes a mirrored field under `update_status` or `update_thumbnail`, or synchronises a weight the listing then drops |
| ListingMirror.CoarseNeverDrifts | shipstation/multichannel_product/models/product_channel.py:134-135 | With weights stored to four digits or fewer no such weight exists |
| ListingMirror.FineDrifts | shipstation/multichannel_product/models/product_channel.py:134-135 | With five digits or more one exists, for a write to one record and for a write to several |
| ListingMirror.RunKeepsAgreement | shipstation/multichannel_product/models/product_channel_variant.py:436-492 | Once in agreement the two sides agree after every sequence of writes to either side, of one record or several, dropped weights included; with more than four digits, of writes that synchronise no weight |
| ListingMirror.WriteReachesBoth | shipstation/multichannel_product/models/product_channel.py:318-325 | A written value that is not dropped is, as it is stored, the value of both sides afterwards |
| ListingMirror.StatusWriteIsNotMirrored | shipstation/multichannel_product/models/product_channel_variant.py:437-441 | Failure: a barcode written under `update_status` stays on the variant |
| ListingMirror.FineWeightIsNotMirrored | shipstation/multichannel_product/models/product_channel_variant.py:463-465 | Failure at five digits or more: a synchronised change of 0.00001 ounces of several variants, or of a little more of one, leaves the listing behind |
| SalesGraph.GetGraphDatas | shipstation/multichannel_order/models/ecommerce_channel.py:163-203 | The loop with its two clock reads ends and yields the weeks from 30 days ago to the last covered day |
| SalesGraph.WeeksPartition | shipstation/multichannel_order/models/ecommerce_channel.py:195-203 | The buckets cover their days without gap or overlap, in order |
| SalesGraph.InOneBucket | shipstation/multichannel_order/models/ecommerce_channel.py:195-203 | Each day is in one bucket and no other |
| SalesGraph.BucketsAreWeeks | shipstation/multichannel_order/models/ecommerce_channel.py:196-200 | No bucket spans the start of a week; all but the first start with a week and all but the last end with one |
| SalesGraph.BucketAmount | shipstation/multichannel_order/models/ecommerce_channel.py:201-202 | The amount of a bucket is the sum over the rows of its days |
| SalesGraph.AmountsAddUp | shipstation/multichannel_order/models/ecommerce_channel.py:201-202 | The bucket amounts sum to the rows of the covered days |
| SalesGraph.GraphHasSixBuckets | shipstation/multichannel_order/models/ecommerce_channel.py:163-203 | For every week start at most six buckets, also when midnight passes between the clock reads, holding all sales of the window |
| SalesGraph.GraphReachesTodayIff | shipstation/multichannel_order/models/ecommerce_channel.py:193-203 | Today is in the graph exactly when today does not start a week or the first clock read has the smaller microseconds |
| SalesGraph.MondaySalesLost | shipstation/multichannel_order/models/ecommerce_channel.py:193-203 | Failure: on a Monday with equal microseconds today's sales are missing |

## Left out

Weaker than the code, or under an assumption:

- OrderMergeTwice.MergeTwice: every product dictionary has a store id or a flag, and a line a coupon finds keeps the
  coupon's name; `UnkeyedIsCreatedAgain` shows what happens to the others, and data from the importer meets both.
- OrderLifecycle.UpdatedTotal: default products that differ and are not sold in the store, and product lines with store
  ids of their own; coupons come as a dictionary by code.
- OrderHistory.HistoryTotal: default products that differ and are not sold in the store, and product lines with store
  ids of their own; coupons come as a dictionary by code. Edits by hand between two updates are not steps.
- OrderMergeLaws.MergeMatchesReplaceIff: lines found by one dictionary with a quantity or by deductions without one,
  which is what the importer writes; `MergeTotalVersusReplace` has no such condition. A dictionary without the key
  `price_unit`, which no builder makes, is not modelled; an explicit None is.
- AmazonImport.ImportOrder: whole-cent amounts and whole quantities; a listing stands for a whole number of units.
- PickingBins.RunKeepsExclusive: `update_picking_bins` writes the list unchecked and is not a step; which order the
  refusal message names, and the line data in the answer, are not modelled.
- PackingQueue.ReachableQueue: one row for each picking rests on the first product of a picking never changing; the
  constraint is on product and picking, so a picking whose first move changes could be queued for each product.
- PackingQueue.SinglePackingQueue.UnholdPicking: the hold flag itself; which pick transfers are done and single is an input.
- InventorySync.ScheduledSyncSends: with the audit table in use; the older mode that reads stock moves by date when
  the parameter is `False` is not modelled, nor is `nightly_update`.
- JobQueue.RunCounts: attempts that end in a retryable error; `LifeCounts` has every ending.
- JobQueue.LifeCounts: the runner queues only pending jobs and nothing happens to a record while its job runs.
  Serialisation errors of the database and `NothingToDoJob`, which `runjob` catches too, are not modelled.
- JobJson.JobArgumentRoundTripIff: JSON values, not their texts; keys are strings; no float arguments; XML comments and
  processing instructions are not elements here.
- ServiceTransfers.RunKeepsDelivered: one unit of measure, whose zero test is given by the largest hundredth it takes for
  zero; deleting a transfer is outside the runs because it breaks the law, as `DeletedKeepsDeliveredIff` says.
- ServiceShipment.ServiceShipmentConservesIff: the moves have nothing done before the shipment, as those of a transfer
  that is still open; one unit of measure.
- Deposits.Document.AssignOutstandingLine: company currency, no partial amount, one open line for each deposit, and
  deposit accounts that are not receivable or payable, as the account field's domain demands.
- VariantImportLaws.MappedOrLogged: the store sends each variant id once. Overriding the fields of a master, images and
  archived products are not modelled; an alternate SKU names a product.
- VariantImportRepeat.RepeatChangesNothingIff: the store's variants have SKUs of their own, none empty;
  `BlankSkuSharesMaster` shows what happens to empty ones, and `UnchangedIff` has no such condition. Products that
  share an empty SKU are taken in the order of their creation, where the code orders them by name first.
- ListingMirror.RunKeepsAgreement: the eight fields with the inverse `_set_base_variant`; the SKU is computed from the
  variant by the framework. The state a write to several listings shares among them is not modelled.
- SalesGraph.GetGraphDatas: the rows of the query are an input, so its filter on the first day's sub-second is not
  modelled.

Assumed as small specifications: `write`, `search` and `reconcile` of the framework, `WITH RECURSIVE` as iteration of
a join, `FOR UPDATE SKIP LOCKED` as a set of locked rows, `ILIKE` as pattern matching with ASCII letters folded,
`list(set(...))` as any order, `dateutil` on ISO texts, `lxml` as giving back the text of an element, `randint` as any
number in the range, the framework's unique index on the template and attributes of a product variant, and its
rounding of stored numbers to the nearest last digit, halves away from zero.

Not modelled:

- HTTP and FTP traffic, request signing, label purchase, attachments, mail and log texts: foreign calls.
- Wizards, window actions, menus, printing, JavaScript clients.
- How the job runner schedules jobs on channels, and the serialisation retries of the database.
- `get_transfer_for_shipping` beyond the queue it pops, and `prepare_wave_picking_data`: reading only.
- Customer and address matching, category URLs, slugs, identifier checks: lookups.
- Binary floating point: prices are rounded as decimals, weights compared as reals.
- Multi-currency deposits and unit conversion.
- `_post_shipment_to_channel`, order process rules and status updates that follow the modelled steps.
