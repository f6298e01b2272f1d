/**
 * The tables of the ERP store: one datatype per row kind, the closed enums that
 * the CHECK constraints of erp/db.py fix, the outcome of a request handler, and
 * the chart of accounts that a fresh database is seeded with.
 */
module Schema {
  import opened Wrappers

  // ---------------------------------------------------------------- enums

  datatype AccountType = Asset | Liability | Equity | Revenue | Expense

  /** Asset and expense accounts grow with debits; the rest grow with credits. */
  predicate DebitNormal(t: AccountType) {
    t == Asset || t == Expense
  }

  function AccountTypeName(t: AccountType): string {
    match t
    case Asset => "asset"
    case Liability => "liability"
    case Equity => "equity"
    case Revenue => "revenue"
    case Expense => "expense"
  }

  /** The form's `account_type` value, accepted only inside the closed enum. */
  function ParseAccountType(s: string): (r: Option<AccountType>)
    ensures r.Some? ==> AccountTypeName(r.value) == s
  {
    if s == "asset" then Some(Asset)
    else if s == "liability" then Some(Liability)
    else if s == "equity" then Some(Equity)
    else if s == "revenue" then Some(Revenue)
    else if s == "expense" then Some(Expense)
    else None
  }

  lemma ParseAccountTypeName(t: AccountType)
    ensures ParseAccountType(AccountTypeName(t)) == Some(t)
  {
  }

  datatype MovementType = In | Out | Adjustment

  function ParseMovementType(s: string): (r: Option<MovementType>)
    ensures r == Some(In) <==> s == "in"
    ensures r == Some(Out) <==> s == "out"
    ensures r == Some(Adjustment) <==> s == "adjustment"
  {
    if s == "in" then Some(In)
    else if s == "out" then Some(Out)
    else if s == "adjustment" then Some(Adjustment)
    else None
  }

  datatype SalesStatus = Draft | Confirmed | Shipped | Invoiced | Cancelled
  datatype PurchaseStatus = PoDraft | PoConfirmed | Received | PoInvoiced | PoCancelled
  datatype InvoiceStatus = InvDraft | Sent | Paid | Overdue | InvCancelled
  datatype LeaveStatus = Pending | Approved | Rejected | LeaveCancelled
  datatype LeaveType = Annual | Sick | Personal | Unpaid

  function ParseLeaveType(s: string): (r: Option<LeaveType>)
    ensures r.None? <==> s !in {"annual", "sick", "personal", "unpaid"}
  {
    if s == "annual" then Some(Annual)
    else if s == "sick" then Some(Sick)
    else if s == "personal" then Some(Personal)
    else if s == "unpaid" then Some(Unpaid)
    else None
  }

  // ---------------------------------------------------------------- rows

  /** A ledger account; `balance` is written only by posting. */
  datatype Account = Account(
    code: string, name: string, kind: AccountType,
    parent: Option<nat>, balance: real, active: bool)

  /** One debit/credit line of a journal entry; `account` is an account id. */
  datatype JournalLine = JournalLine(account: int, debit: real, credit: real)

  datatype JournalEntry = JournalEntry(
    date: int, reference: string, description: string,
    posted: bool, lines: seq<JournalLine>)

  datatype Product = Product(
    sku: string, name: string, description: string,
    unitPrice: real, costPrice: real, stockQty: real, reorderLevel: real,
    unit: string, active: bool)

  /** An append-only record of a stock change; `product` is a product id. */
  datatype StockMovement = StockMovement(
    product: int, kind: MovementType, quantity: real,
    reference: Option<string>, notes: Option<string>)

  /** A line of a sales or purchase order; `product` is a product id. */
  datatype OrderLine = OrderLine(
    product: int, description: Option<string>,
    quantity: real, unitPrice: real, taxRate: real, lineTotal: real)

  /** A line of an invoice, copied from an order line when the invoice is made. */
  datatype InvoiceLine = InvoiceLine(
    product: int, description: Option<string>,
    quantity: real, unitPrice: real, taxRate: real, lineTotal: real)

  datatype SalesOrder = SalesOrder(
    number: string, customer: int, date: int, status: SalesStatus,
    subtotal: real, tax: real, total: real, notes: string,
    lines: seq<OrderLine>)

  datatype Invoice = Invoice(
    number: string, salesOrder: Option<nat>, customer: int,
    date: int, dueDate: Option<int>, status: InvoiceStatus,
    subtotal: real, tax: real, total: real, amountPaid: real,
    notes: string, lines: seq<InvoiceLine>)

  datatype PurchaseOrder = PurchaseOrder(
    number: string, supplier: int, date: int, expectedDate: Option<int>,
    status: PurchaseStatus, subtotal: real, tax: real, total: real,
    notes: string, lines: seq<OrderLine>)

  datatype Employee = Employee(
    number: string, firstName: string, lastName: string,
    email: string, phone: string, department: Option<int>,
    jobTitle: string, hireDate: Option<int>, salary: real, active: bool)

  datatype LeaveRequest = LeaveRequest(
    employee: nat, kind: LeaveType, start: int, end: int,
    status: LeaveStatus, reason: Option<string>)

  /** An optional text column: a blank form value is stored as NULL. */
  function OrNone(s: string): Option<string> {
    if s == "" then None else Some(s)
  }

  /** Every table of the store, as one value. */
  datatype Db = Db(
    accounts: seq<Account>, entries: seq<JournalEntry>,
    products: seq<Product>, movements: seq<StockMovement>,
    salesOrders: seq<SalesOrder>, invoices: seq<Invoice>,
    purchaseOrders: seq<PurchaseOrder>,
    employees: seq<Employee>, leaves: seq<LeaveRequest>)

  // ---------------------------------------------------------------- outcomes

  datatype Error =
    | MissingField        // a required form value is blank
    | InvalidType         // a value outside a closed enum
    | InvalidQuantity     // a quantity that is not positive
    | Duplicate           // a unique column already holds the value
    | NoLines             // a journal entry with no usable line
    | Unbalanced          // rounded debits differ from rounded credits
    | NotFound            // no row with that id
    | AlreadyPosted
    | AlreadyPaid
    | InvalidTransition   // the current status does not allow the operation
    | Aborted             // the store raised (foreign key, short form list): rolled back

  /** What a request handler reports: success with the row id it acted on, or an error. */
  datatype Outcome = Ok(id: nat) | Err(error: Error)

  /** Row ids are 1-based positions in their table. */
  predicate ValidId(id: int, n: nat) {
    1 <= id <= n
  }

  // ---------------------------------------------------------------- seed

  function SeedRow(code: string, name: string, kind: AccountType): Account {
    Account(code, name, kind, None, 0.0, true)
  }

  /** The 22-account chart inserted into an empty accounts table. */
  function SeedAccounts(): seq<Account> {
    [ SeedRow("1000", "Cash", Asset),
      SeedRow("1100", "Accounts Receivable", Asset),
      SeedRow("1200", "Inventory", Asset),
      SeedRow("1300", "Prepaid Expenses", Asset),
      SeedRow("1500", "Fixed Assets", Asset),
      SeedRow("2000", "Accounts Payable", Liability),
      SeedRow("2100", "Accrued Liabilities", Liability),
      SeedRow("2200", "Tax Payable", Liability),
      SeedRow("2500", "Long-term Debt", Liability),
      SeedRow("3000", "Owner's Equity", Equity),
      SeedRow("3100", "Retained Earnings", Equity),
      SeedRow("4000", "Sales Revenue", Revenue),
      SeedRow("4100", "Service Revenue", Revenue),
      SeedRow("4200", "Other Income", Revenue),
      SeedRow("5000", "Cost of Goods Sold", Expense),
      SeedRow("5100", "Salaries & Wages", Expense),
      SeedRow("5200", "Rent Expense", Expense),
      SeedRow("5300", "Utilities Expense", Expense),
      SeedRow("5400", "Office Supplies", Expense),
      SeedRow("5500", "Depreciation", Expense),
      SeedRow("5600", "Marketing Expense", Expense),
      SeedRow("5900", "Other Expenses", Expense) ]
  }

  /** Account codes are unique within a table. */
  predicate CodesUnique(accounts: seq<Account>) {
    forall i, j :: 0 <= i < j < |accounts| ==> accounts[i].code != accounts[j].code
  }

  /** Orders a code by its first two characters. */
  function CodeKey(a: Account): int {
    if |a.code| < 2 then 0 else a.code[0] as int * 65536 + a.code[1] as int
  }

  lemma {:induction false} KeysIncreasing(s: seq<Account>)
    requires forall i :: 0 <= i < |s| - 1 ==> CodeKey(s[i]) < CodeKey(s[i + 1])
    ensures forall i, j :: 0 <= i < j < |s| ==> CodeKey(s[i]) < CodeKey(s[j])
  {
    if |s| > 1 {
      var t := s[1..];
      forall i | 0 <= i < |t| - 1 ensures CodeKey(t[i]) < CodeKey(t[i + 1]) {
        assert t[i] == s[i + 1] && t[i + 1] == s[i + 2];
      }
      KeysIncreasing(t);
      forall i, j | 0 <= i < j < |s| ensures CodeKey(s[i]) < CodeKey(s[j]) {
        if i > 0 {
          assert t[i - 1] == s[i] && t[j - 1] == s[j];
        } else if j > 1 {
          assert t[0] == s[1] && t[j - 1] == s[j];
        }
      }
    }
  }

  /** The seed holds 22 accounts with pairwise distinct codes. */
  lemma SeedCodesUnique()
    ensures |SeedAccounts()| == 22
    ensures CodesUnique(SeedAccounts())
  {
    var s := SeedAccounts();
    assert forall i :: 0 <= i < |s| - 1 ==> CodeKey(s[i]) < CodeKey(s[i + 1]);
    KeysIncreasing(s);
  }

  /** Every seeded account starts active, without parent, at balance 0. */
  lemma SeedAccountsFresh()
    ensures forall k :: 0 <= k < |SeedAccounts()| ==>
      SeedAccounts()[k].balance == 0.0 && SeedAccounts()[k].active && SeedAccounts()[k].parent == None
  {
  }
}
