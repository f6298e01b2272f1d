# ralpth-erp core in Dafny

A model of the business rules of a small Flask/SQLite ERP: a double-entry ledger and its
three reports, product stock and the stock-movement log, the sales-order and invoice
lifecycle, the purchase-order lifecycle with receiving, employees and their leave requests,
and the sequential `PREFIX-NNNN` document numbers. The route handlers are modelled as the
methods of one class, `Store.Erp`. The class has one `seq` field per table, and `State()`
snapshots every table as one `Db` value. Each handler method returns `Ok(id)` or
`Err(kind)`. The methods state three things:

- On every error path, nothing changed. This covers the validation failures and the
  foreign-key or missing-form-field crashes that roll the request back before the commit.
- On success, the whole new state is given as a function of the old state.
- The store invariant `Valid()`, made of the per-module predicates below, holds again.

Modules:

| module | models |
|---|---|
| `Money` | amounts as exact reals, `Round2`: Python's `round(x, 2)` (ties to even), blank amount is 0 |
| `Numbering` | `_next_order_number`, `_next_invoice_number`, `_next_po_number`, `_generate_employee_number` |
| `Schema` | the table rows, the closed enum domains, the chart-of-accounts seed |
| `Ledger` | journal line collection, posting, the ledger invariant `LedgerValid` |
| `Reports` | trial balance, profit and loss (with its unposted-entry behaviour), balance sheet |
| `Inventory` | the `adjust_stock` rule, the movement log, receiving, the invariant `InventoryValid` |
| `Orders` | sales and purchase lifecycles, line saving, totals and tax, invoices, `SalesValid` / `PurchasingValid` |
| `Hr` | employee numbers, leave statuses, deactivation, `HrValid` |
| `Store` | the handlers as methods of `Erp` |

Amounts are Dafny `real`, so sums are exact. Rounding happens only where the source calls
`round`. Dates are integers, and a blank date is `None`. Today's date is a parameter of the
handlers that read it. Row ids are 1-based positions in their table.

In three places the code does something other than what its comments or its schema
suggest. The model follows the code in each:

- The profit and loss query is commented as summing posted lines, but it sums the lines of
  unposted entries too. The `posted = 1` test sits in the join condition, and the date filter
  lets a missing entry date through, so an unposted entry is counted whatever its date.
  `Reports.PnlDateBounds`, `Reports.PnlIncludesUnposted` and `Reports.UnpostedEntryReported`
  state this.
- Nothing ever sets a sales order to `shipped` or a purchase order to `invoiced`, although
  both are in the schema's domains.
- `leave_approve` and `leave_reject` overwrite any status, so an approved leave can be
  rejected.

## Model

| member | source | states |
|---|---|---|
| Money.Round2 | erp/modules/accounting.py:146 | the rounded value is a whole number of cents within half a cent of its argument |
| Money.Round2Nearest | erp/modules/accounting.py:146 | no whole-cent value is closer to the argument than the rounded one |
| Money.Round2TieIsEven | erp/modules/sales.py:73-75 | a value exactly halfway between two cents rounds to the even one, as Python's `round` does |
| Money.Round2Cents | erp/modules/purchasing.py:61-63 | rounding leaves a whole-cent amount unchanged |
| Money.SameRoundingIsClose | erp/modules/accounting.py:146 | two amounts with the same rounding differ by at most one cent |
| Numbering.Digits | erp/modules/sales.py:18 | the decimal digits of n are nonempty, all digits, and read back as n |
| Numbering.ZeroPadValue | erp/modules/sales.py:18 | left zero padding keeps the string all digits and keeps its value |
| Numbering.SuffixOfFormat | erp/modules/sales.py:15 | parsing the part after the first dash of `Format(prefix, n)` gives back n (round trip) |
| Numbering.NextOfFormat | erp/modules/sales.py:14-18 | after a row numbered n, the next number is `Format(prefix, n + 1)` |
| Numbering.FormatInjective | erp/db.py:89 | different counters give different numbers |
| Numbering.SequentialNext | erp/modules/sales.py:10-29 | on a table numbered 1..n in row order, the next number is n + 1, and appending it keeps the table numbered in order |
| Numbering.SequentialDistinct | erp/db.py:89 | a table numbered in row order never repeats a number, so the unique-number columns are never violated |
| Numbering.FirstNumber | erp/modules/sales.py:16-18 | an empty table gives `SO-0001` |
| Numbering.SecondNumber | erp/modules/sales.py:14-18 | `SO-0001` is followed by `SO-0002` |
| Numbering.WidthGrows | erp/modules/purchasing.py:9-16 | `PO-9999` is followed by `PO-10000`: padding is to at least four digits |
| Schema.ParseAccountType | erp/modules/accounting.py:38 | only the five type names are accepted, each as itself |
| Schema.ParseAccountTypeName | erp/db.py:170 | every account type is accepted under its own name |
| Schema.ParseMovementType | erp/db.py:79 | it yields `in`, `out` or `adjustment` exactly when the text is that type name |
| Schema.ParseLeaveType | erp/modules/hr.py:271 | it rejects exactly the texts other than annual, sick, personal and unpaid |
| Schema.SeedCodesUnique | erp/db.py:236-262 | the seed has 22 accounts with pairwise distinct codes |
| Schema.SeedAccountsFresh | erp/db.py:171-173 | every seeded account has no parent, a zero balance and is active |
| Ledger.KeptLines | erp/modules/accounting.py:116-132 | the kept lines are at most the form rows, and each has a nonzero debit or credit |
| Ledger.KeptLinesEmpty | erp/modules/accounting.py:121-129 | no line is kept exactly when every row has a blank account or a zero debit and zero credit |
| Ledger.KeptLinesComplete | erp/modules/accounting.py:116-132 | every row with an account and an amount is kept, with its amounts, and negative amounts survive |
| Ledger.KeptLinesSound | erp/modules/accounting.py:116-129 | every kept line is the line of a row that names an account and has a nonzero debit or credit |
| Ledger.CollectLines | erp/modules/accounting.py:112-132 | the loop yields exactly the kept lines and their exact debit and credit sums |
| Ledger.RoundedBalancedIsClose | erp/modules/accounting.py:146 | an entry accepted as balanced has debits and credits that differ by at most one cent |
| Ledger.RoundedBalanceIsNotExact | erp/modules/accounting.py:146 | the balance check accepts an entry whose debits and credits differ (10.004 against 10.00) |
| Ledger.ApplyLinesEffect | erp/modules/accounting.py:242-257 | posting adds to each account the summed debit−credit (asset, expense) or credit−debit (others) of its own lines, and changes no other field |
| Ledger.LinesEffectUnnamed | erp/modules/accounting.py:242-257 | an account named by no line is untouched by posting |
| Ledger.ApplyLinesSignedTotal | erp/modules/accounting.py:242-257 | posting moves the signed total of all balances by exactly Σdebit − Σcredit of the entry |
| Ledger.PostFlipEffect | erp/modules/accounting.py:259-260 | setting the posted flag moves the entry's effect on every account from the unposted to the posted side |
| Ledger.PostFlipTotals | erp/modules/accounting.py:259-260 | setting the posted flag adds the entry's debit-minus-credit to the posted imbalance and one to the posted count |
| Ledger.AppendUnposted | erp/db.py:182 | a new entry, unposted by default, changes no posted balance |
| Ledger.ExactImbalanceZero | erp/modules/accounting.py:146 | if every posted entry is exactly balanced, the posted imbalance is zero |
| Ledger.ImbalanceBound | erp/modules/accounting.py:146 | with the cent-level check only, the posted imbalance is at most one cent per posted entry |
| Ledger.LedgerSeed | erp/db.py:232-262 | seeding an empty chart keeps the ledger invariant |
| Ledger.LedgerAddAccount | erp/modules/accounting.py:54-57 | a new account with a fresh code, balance 0 and active keeps the ledger invariant |
| Ledger.LedgerAddEntry | erp/modules/accounting.py:160-171 | a well-formed unposted entry keeps the ledger invariant |
| Ledger.LedgerPost | erp/modules/accounting.py:242-262 | posting an unposted entry keeps the ledger invariant: every balance is again the effect of the posted entries |
| Reports.TrialCells | erp/modules/accounting.py:288-301 | a row's cells are non-negative, one of them is zero, they sum to the balance's absolute value, and the side is the normal side exactly for positive balances |
| Reports.TrialRows | erp/modules/accounting.py:282-313 | every row has one zero and one nonzero, non-negative cell |
| Reports.TrialRowsComplete | erp/modules/accounting.py:282-313 | every active account with a nonzero balance has its row |
| Reports.TrialRowsSound | erp/modules/accounting.py:303-304 | every row comes from an active account with a nonzero balance |
| Reports.TrialDifference | erp/modules/accounting.py:282-313 | total debit − total credit is the signed sum of the balances |
| Reports.TrialBalanceNearlyBalanced | erp/modules/accounting.py:282-313 | on a valid ledger, the column difference is the posted imbalance, at most one cent per posted entry |
| Reports.TrialBalanceBalanced | erp/modules/accounting.py:282-313 | when every posted entry is exactly balanced, total debit equals total credit |
| Reports.PnlRows | erp/modules/accounting.py:362-382 | zero amounts are left out |
| Reports.PnlRowsComplete | erp/modules/accounting.py:341-382 | for any date bounds, every active account of the type with a nonzero amount has its row, with its code, name and amount |
| Reports.PnlRowsSound | erp/modules/accounting.py:341-382 | for any date bounds, every row is that of an active account of the type, carrying its nonzero amount |
| Reports.PnlRowsTotal | erp/modules/accounting.py:359-382 | the listed rows add up to the sum of the amounts of every active account of the type, so leaving out the zero rows does not change the total |
| Reports.ProfitLossOf | erp/modules/accounting.py:357-384 | for any date bounds, total revenue and total expense are the sums of the amounts of every active revenue and every active expense account, and net income is the first minus the second |
| Reports.PnlDateBounds | erp/modules/accounting.py:333-349 | for any date bounds, a revenue or expense account's amount is the effect of its posted entries dated within the bounds plus the effect of every unposted entry, whatever that entry's date |
| Reports.WithinUnbounded | erp/modules/accounting.py:344-349 | with neither bound given, no posted entry is filtered out |
| Reports.PnlIncludesUnposted | erp/modules/accounting.py:333-348 | without date bounds, an account's reported amount is its balance plus the effect of the unposted entries |
| Reports.AllPostedNoUnposted | erp/modules/accounting.py:339 | with every entry posted, nothing unposted is counted |
| Reports.UnpostedEntryReported | seed_data.py:245-248 | the seeded unposted rent entry, never posted, shows as an expense of 3500 and a net loss of 3500, whatever the date bounds, even bounds that exclude its date |
| Reports.SignedTotalByKind | erp/modules/accounting.py:416-438 | the signed sum of balances is assets − liabilities − equity − revenue + expense, by type |
| Reports.BalanceSheetEquation | erp/modules/accounting.py:402-438 | after exactly balanced postings, assets − liabilities − equity equals revenue balances − expense balances |
| Reports.PnlAllPosted | erp/modules/accounting.py:333-384 | with every entry posted, a revenue or expense account's reported amount is its balance |
| Reports.NetIncomeMatchesBalanceSheet | erp/modules/accounting.py:384 | with exactly balanced entries, all posted, the reported net income equals assets − liabilities − equity |
| Inventory.StockRule | erp/modules/products.py:155-162 | `in` adds q, `out` subtracts q with no floor, `adjustment` sets the level to q and records the difference |
| Inventory.AdjustmentNeverZero | erp/modules/products.py:149-152 | since the quantity must be positive, an adjustment never sets stock to zero |
| Inventory.MovementSumAppend | erp/modules/products.py:168-172 | one logged movement changes only its product's logged sum, by its signed quantity |
| Inventory.ReceiptMovements | erp/modules/purchasing.py:289-294 | one `in` movement per line, with the line's product and quantity and the order number as reference |
| Inventory.BookReceipt | erp/modules/purchasing.py:284-295 | the receive loop yields the raised stock and the old log followed by the receipt movements |
| Inventory.ReceiveStockEffect | erp/modules/purchasing.py:284-288 | receiving raises each product by the summed quantities of its lines and changes no other product or field |
| Inventory.ReceiptMovementsSum | erp/modules/purchasing.py:284-295 | the receipt log adds exactly the stock that receiving adds |
| Inventory.ReceivePreservesUnlogged | erp/modules/purchasing.py:284-295 | receiving keeps stock minus logged movements unchanged for every product |
| Inventory.AdjustPreservesUnlogged | erp/modules/products.py:168-177 | an adjustment keeps stock minus logged movements unchanged for every product |
| Inventory.NewProduct | erp/modules/products.py:38-46 | the row keeps the form's text fields; a blank unit price, cost price, stock or reorder level is 0 and a given one is kept; a blank unit becomes `unit` and a given one is kept |
| Inventory.InventoryAddProduct | erp/db.py:62 | a product with an unused SKU keeps SKUs unique |
| Inventory.InventoryEditProduct | erp/modules/products.py:104-124 | overwriting a product with a SKU no other product has keeps SKUs unique |
| Inventory.InventoryAdjust | erp/modules/products.py:168-177 | an adjustment keeps the inventory invariant |
| Inventory.InventoryReceive | erp/modules/purchasing.py:284-295 | receiving lines on existing products keeps the inventory invariant |
| Orders.SalesStep | erp/modules/sales.py:279-312 | no request moves a sales order to `shipped`, and an invoiced order stays invoiced |
| Orders.ShippedUnreachable | erp/modules/sales.py:285 | from draft, no run of requests reaches `shipped` |
| Orders.InvoicedIsFinal | erp/modules/sales.py:305-312 | an invoiced order refuses every request and stays invoiced |
| Orders.PurchaseStep | erp/modules/purchasing.py:251-321 | no request moves a purchase order to `invoiced` |
| Orders.PoInvoicedUnreachable | erp/db.py:146 | from draft, no run of requests reaches `invoiced` |
| Orders.ReceivedIsFinal | erp/modules/purchasing.py:275-278 | a received order stays received whatever follows |
| Orders.ReceiveAtMostOnce | erp/modules/purchasing.py:275-278 | along any run of requests, at most one receive succeeds |
| Orders.SalesTotals | erp/modules/sales.py:73-75 | subtotal, tax and total are whole cents, each within rounding of the exact subtotal, 10% of it, and 110% of it |
| Orders.SalesTotalsFixture | seed_data.py:118-120 | 10 × 1299.99 gives 12999.90, 1299.99 and 14299.89 |
| Orders.SalesTotalsCanDisagree | erp/modules/sales.py:73-75 | one line of 0.5 × 0.25 stores 0.12 + 0.01 but a total of 0.14 |
| Orders.SalesTotalsOfCents | erp/modules/sales.py:73-75 | for a whole-cent subtotal the stored total is the stored subtotal plus the stored tax |
| Orders.PurchaseTotals | erp/modules/purchasing.py:61-63 | the total is exactly subtotal plus tax, and a whole-cent subtotal is kept as is |
| Orders.KeptSalesLines | erp/modules/sales.py:51-72 | the kept lines are at most the rows, each with no description, tax rate 0 and total quantity × price |
| Orders.KeptSalesLinesComplete | erp/modules/sales.py:56-57 | every row with product, quantity and price filled in is kept |
| Orders.KeptSalesLinesSound | erp/modules/sales.py:56-57 | every kept line comes from a row with all three filled in |
| Orders.SalesLinesOf | erp/modules/sales.py:51-72 | when the save succeeds, the lists were long enough and every line is on an existing product |
| Orders.SaveSalesLines | erp/modules/sales.py:45-71 | the loop yields exactly the saved lines and their unrounded subtotal |
| Orders.ZipLength | erp/modules/purchasing.py:48 | pairing stops at the shortest list |
| Orders.PurchaseLine | erp/modules/purchasing.py:51-53 | a blank quantity or price counts as 0 and the line total is quantity × price rounded to the cent |
| Orders.KeptPurchaseLines | erp/modules/purchasing.py:48-59 | every kept line's total is its rounded quantity × price |
| Orders.KeptPurchaseLinesComplete | erp/modules/purchasing.py:48-50 | every row with a product is kept, whatever its quantity and price |
| Orders.KeptPurchaseLinesSound | erp/modules/purchasing.py:48-53 | every kept line is the line of a row that names a product, built from that row's quantity and price |
| Orders.PurchaseLinesOf | erp/modules/purchasing.py:48-59 | when the save succeeds, every line is on an existing product |
| Orders.SavePurchaseLines | erp/modules/purchasing.py:45-59 | the loop yields exactly the saved lines and the sum of their rounded totals |
| Orders.PurchaseSubtotalExact | erp/modules/purchasing.py:61 | the stored subtotal is exactly the sum of the line totals |
| Orders.InvoiceLinesOf | erp/modules/sales.py:378-392 | one invoice line per order line, copied field for field |
| Orders.InvoiceLinesTotal | erp/modules/sales.py:378-392 | the copied lines add up to the order's line totals |
| Orders.CopyInvoiceLines | erp/modules/sales.py:378-392 | the copy loop yields exactly the copied lines |
| Orders.InvoiceFor | erp/modules/sales.py:356-371 | the invoice is a draft for this order, nothing paid, with the order's customer, notes, totals and line sum |
| Orders.PurchaseOrderConsistent | erp/modules/purchasing.py:61-63 | a stored purchase order's total is subtotal plus tax, and its subtotal is its line sum |
| Orders.InvoiceMatchesOrder | erp/modules/sales.py:356-392 | every stored invoice's lines and total match its order's |
| Orders.SalesAddOrder | erp/modules/sales.py:127-137 | a new draft order with the next number keeps the sales invariant |
| Orders.SalesReplaceOrder | erp/modules/sales.py:237-238 | replacing an order that is not invoiced keeps the sales invariant |
| Orders.SalesAddInvoice | erp/modules/sales.py:349-396 | invoicing any order not yet invoiced (so every order `create_invoice` accepts) keeps the sales invariant, with at most one invoice per order |
| Orders.SalesMarkPaid | erp/modules/sales.py:451-453 | marking an invoice paid in full keeps the sales invariant |
| Orders.PurchasingAdd | erp/modules/purchasing.py:108-119 | a new purchase order with the next number keeps the purchasing invariant |
| Orders.PurchasingReplace | erp/modules/purchasing.py:214 | replacing a purchase order, keeping its number, keeps the purchasing invariant |
| Hr.HrAddEmployee | erp/modules/hr.py:55-73 | a named employee with the next number keeps the HR invariant |
| Hr.HrReplaceEmployee | erp/modules/hr.py:150-166 | overwriting an employee, keeping the number and both names, keeps the HR invariant |
| Hr.HrAddLeave | erp/modules/hr.py:280-285 | a pending leave request on an existing employee keeps the HR invariant |
| Hr.HrSetLeave | erp/modules/hr.py:306-312 | setting a reachable status keeps the HR invariant |
| Hr.Deactivated | erp/modules/hr.py:191 | only the row with that id loses its active flag, and an unknown id changes nothing |
| Hr.DeactivateIdempotent | erp/modules/hr.py:191 | deactivating twice is deactivating once |
| Store.SeedIdempotent | erp/db.py:233-235 | seeding twice is seeding once, and afterwards the chart is not empty |
| Store.PostKeepsValid | erp/modules/accounting.py:242-262 | applying an unposted entry's lines to the balances and marking it posted keeps every table's invariant |
| Store.ReceiveKeepsValid | erp/modules/purchasing.py:280-297 | raising stock, logging one `in` movement per line and marking the order received keeps every table's invariant |
| Store.InvoiceKeepsValid | erp/modules/sales.py:354-396 | on a valid store the next invoice number is `INV-` followed by the table size plus one, and appending the invoice and marking a not yet invoiced order invoiced keeps every table's invariant |
| Store.ReplaceOrderKeepsValid | erp/modules/sales.py:237-238 | overwriting a non-invoiced sales order with a valid non-invoiced one under the same number keeps every table's invariant |
| Store.AddPurchaseKeepsValid | erp/modules/purchasing.py:108-119 | appending a valid purchase order under the next `PO` number keeps every table's invariant |
| Store.ReplacePurchaseKeepsValid | erp/modules/purchasing.py:214 | overwriting a purchase order with a valid one under the same number keeps every table's invariant |
| Store.Erp.constructor | erp/db.py:23-229 | a new store has every table empty and satisfies the invariant |
| Store.Erp.SeedChartOfAccounts | erp/db.py:232-262 | the 22 seed accounts are inserted only into an empty chart |
| Store.Erp.AccountNew | erp/modules/accounting.py:32-57 | a blank code or name, an unknown type or a taken code fails with no change; otherwise one active account with balance 0 is appended |
| Store.Erp.JournalNew | erp/modules/accounting.py:88-173 | a missing date, no kept line, a rounded imbalance or a line on no account fails with no change; otherwise one unposted entry with the kept lines is appended |
| Store.Erp.JournalPost | erp/modules/accounting.py:224-262 | an unknown or already posted entry fails with no change, so posting twice changes nothing; otherwise each account changes by its lines' signed effect and the entry becomes posted |
| Store.Erp.PostEntry | erp/modules/accounting.py:242-260 | the per-line balance updates followed by the posted flag leave exactly the posted store |
| Store.Erp.ProductNew | erp/modules/products.py:29-51 | a taken SKU fails with no change; otherwise one product is appended |
| Store.Erp.ProductEdit | erp/modules/products.py:93-124 | an unknown id or a SKU another product has fails with no change; otherwise the row is overwritten, stock included, with no movement logged |
| Store.Erp.AdjustStock | erp/modules/products.py:138-177 | an unknown id, a quantity ≤ 0 or an unknown type fails with no change; otherwise exactly one movement is appended and only this product's stock is set |
| Store.Erp.SalesNew | erp/modules/sales.py:109-140 | a missing customer or a crashing line save fails with no change; otherwise one draft order with the next `SO` number and recomputed totals is appended |
| Store.Erp.SalesEdit | erp/modules/sales.py:194-241 | only a draft order can be edited; its lines are replaced and its totals recomputed, keeping its number |
| Store.Erp.SalesTransition | erp/modules/sales.py:279-312 | confirm works only from draft; cancel is refused from invoiced or cancelled; a refusal changes nothing |
| Store.Erp.CreateInvoice | erp/modules/sales.py:340-397 | only a confirmed or shipped order is invoiced: one draft invoice with the next `INV` number and the copied lines is appended and the order becomes invoiced |
| Store.Erp.AddInvoice | erp/modules/sales.py:354-396 | the insert, the line-copy loop and the status update append the invoice under the next number, return its id and mark the order invoiced |
| Store.Erp.MarkPaid | erp/modules/sales.py:437-453 | an unknown or already paid invoice fails with no change; otherwise it becomes paid with amount paid equal to its total |
| Store.Erp.PurchaseNew | erp/modules/purchasing.py:89-121 | a missing supplier or order date, or a line on no product, fails with no change; otherwise one draft order with the next `PO` number is appended |
| Store.Erp.PurchaseEdit | erp/modules/purchasing.py:172-214 | only a draft order can be edited, and it needs a supplier and an order date; its lines are replaced and its totals recomputed |
| Store.Erp.PurchaseTransition | erp/modules/purchasing.py:251-321 | confirm works only from draft; cancel is refused only from received or invoiced |
| Store.Erp.Receive | erp/modules/purchasing.py:266-297 | only a confirmed order is received: each product rises by its lines' quantities, one `in` movement per line is logged, no other product changes, and the order becomes received |
| Store.Erp.BookOrder | erp/modules/purchasing.py:280-297 | the receive loop and the status update leave exactly the received store |
| Store.Erp.EmployeeNew | erp/modules/hr.py:35-73 | a blank first or last name fails with no change; otherwise one active employee with the next `EMP` number is appended |
| Store.Erp.EmployeeEdit | erp/modules/hr.py:128-166 | an unknown id or a blank name fails with no change; otherwise the fields are overwritten, keeping the number and the active flag |
| Store.Erp.Deactivate | erp/modules/hr.py:189-195 | always succeeds; only the row with that id, if any, becomes inactive |
| Store.Erp.LeaveNew | erp/modules/hr.py:245-286 | an unknown employee, a missing type or date, or an unknown type fails with no change; otherwise one pending request is appended |
| Store.Erp.LeaveDecide | erp/modules/hr.py:306-336 | an unknown request fails with no change; otherwise the status is set to approved or rejected whatever it was |

## Left out

- Flask routing, templates, flash messages, redirects and login sessions are presentation. A
  handler's result is its `Outcome` and its new state.
- The SQLite connection plumbing is not modelled, and neither is the read-latest-then-increment
  race between concurrent requests. Each handler is one atomic method.
- Binary floating point: amounts are exact reals, so float artefacts at `.005` ties are not
  reproduced.
- Orders.SaveSalesLines: a quantity or price list shorter than the product list makes the source raise
  `IndexError` when the loop reaches the missing index. The model decides this failure before
  the loop. The outcome is the same, because the raise rolls the whole request back.
- Form parsing: `int()` and `float()` errors and whitespace stripping. Form values arrive already
  parsed and trimmed, and a blank value is `None`. Dates are integers, not ISO strings.
- Customers, suppliers, departments and product categories live in tables (contacts,
  departments, categories) that are not part of this model. Their foreign keys are not checked.
- erp/modules/contacts.py and erp/modules/dashboard.py are not part of this model. They hold SQL
  CRUD, search and display aggregates.
- Report ordering (`ORDER BY code`) and display names: a report lists rows in table order.
- Reports.TrialRows, Reports.PnlRows, Reports.SheetRows: the `active = 1` filter is modelled, but
  no handler deactivates an account, so every account stays active.
- Store.Erp.SalesTransition: `confirm` and `cancel` share this one method, selected by the event.
  Store.Erp.PurchaseTransition and Store.Erp.LeaveDecide are shared the same way.
- Store.Erp.Deactivate: the id is a natural number, as the route's `<int:id>` converter admits.
- Invoice statuses `sent`, `overdue` and `cancelled`, and the `cancelled` leave status: they are
  in the schema, but no handler sets them.
- The demo data loader seed_data.py is not modelled. Its values serve only as the fixtures
  above.
