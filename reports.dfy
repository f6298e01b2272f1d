/**
 * The three read-only projections of the ledger in erp/modules/accounting.py —
 * trial balance, profit and loss, balance sheet — as folds over the accounts and
 * journal lines, and what they say about a ledger that satisfies the invariant.
 */
module Reports {
  import opened Wrappers
  import opened Schema
  import opened Ledger
  import Money

  // ------------------------------------------------------------ trial balance

  datatype TrialRow = TrialRow(code: string, name: string, debit: real, credit: real)
  datatype TrialBalance = TrialBalance(rows: seq<TrialRow>, totalDebit: real, totalCredit: real)

  /** Debit column: a positive balance on a debit-normal account, or a negative one elsewhere. */
  function DebitCell(a: Account): real {
    if DebitNormal(a.kind) then (if a.balance >= 0.0 then a.balance else 0.0)
    else (if a.balance >= 0.0 then 0.0 else -a.balance)
  }

  function CreditCell(a: Account): real {
    if DebitNormal(a.kind) then (if a.balance >= 0.0 then 0.0 else -a.balance)
    else (if a.balance >= 0.0 then a.balance else 0.0)
  }

  /** One column holds |balance| and the other zero; a positive balance sits on the normal
   *  side and a negative one on the opposite side. */
  lemma TrialCells(a: Account)
    ensures DebitCell(a) + CreditCell(a) == Money.Abs(a.balance)
    ensures DebitCell(a) == 0.0 || CreditCell(a) == 0.0
    ensures DebitCell(a) - CreditCell(a) == Signed(a)
    ensures a.balance > 0.0 ==> (DebitNormal(a.kind) <==> DebitCell(a) > 0.0)
    ensures a.balance < 0.0 ==> (DebitNormal(a.kind) <==> CreditCell(a) > 0.0)
  {
  }

  function RowOf(a: Account): TrialRow {
    TrialRow(a.code, a.name, DebitCell(a), CreditCell(a))
  }

  /** Active accounts whose two cells are not both zero, in table order. */
  function TrialRows(accounts: seq<Account>): (rows: seq<TrialRow>)
    ensures |rows| <= |accounts|
    ensures forall r :: r in rows ==> r.debit >= 0.0 && r.credit >= 0.0 && (r.debit == 0.0 || r.credit == 0.0)
    ensures forall r :: r in rows ==> r.debit != 0.0 || r.credit != 0.0
  {
    if accounts == [] then []
    else
      var a := accounts[|accounts| - 1];
      TrialRows(accounts[..|accounts| - 1])
        + (if a.active && !(DebitCell(a) == 0.0 && CreditCell(a) == 0.0) then [RowOf(a)] else [])
  }

  function RowsDebit(rows: seq<TrialRow>): real {
    if rows == [] then 0.0 else RowsDebit(rows[..|rows| - 1]) + rows[|rows| - 1].debit
  }

  function RowsCredit(rows: seq<TrialRow>): real {
    if rows == [] then 0.0 else RowsCredit(rows[..|rows| - 1]) + rows[|rows| - 1].credit
  }

  function TrialBalanceOf(accounts: seq<Account>): TrialBalance {
    var rows := TrialRows(accounts);
    TrialBalance(rows, RowsDebit(rows), RowsCredit(rows))
  }

  lemma TrialRowsLast(accounts: seq<Account>)
    requires accounts != []
    ensures var a := accounts[|accounts| - 1];
            TrialRows(accounts) == TrialRows(accounts[..|accounts| - 1]) + (if a.active && a.balance != 0.0 then [RowOf(a)] else [])
  {
    TrialCells(accounts[|accounts| - 1]);
  }

  /** Every active account with a nonzero balance has its row. */
  lemma {:induction false} TrialRowsComplete(accounts: seq<Account>, k: nat)
    requires k < |accounts| && accounts[k].active && accounts[k].balance != 0.0
    ensures RowOf(accounts[k]) in TrialRows(accounts)
  {
    TrialRowsLast(accounts);
    if k < |accounts| - 1 {
      TrialRowsComplete(accounts[..|accounts| - 1], k);
    }
  }

  /** Every row comes from an active account with a nonzero balance. */
  lemma {:induction false} TrialRowsSound(accounts: seq<Account>, r: TrialRow)
    requires r in TrialRows(accounts)
    ensures exists k :: 0 <= k < |accounts| && accounts[k].active && accounts[k].balance != 0.0 && r == RowOf(accounts[k])
  {
    var init := accounts[..|accounts| - 1];
    TrialRowsLast(accounts);
    if r in TrialRows(init) {
      TrialRowsSound(init, r);
      var k :| 0 <= k < |init| && init[k].active && init[k].balance != 0.0 && r == RowOf(init[k]);
      assert accounts[k] == init[k];
    } else {
      assert accounts[|accounts| - 1].active && accounts[|accounts| - 1].balance != 0.0;
    }
  }

  lemma TrialRowsAppend(rows: seq<TrialRow>, row: TrialRow)
    ensures RowsDebit(rows + [row]) == RowsDebit(rows) + row.debit
    ensures RowsCredit(rows + [row]) == RowsCredit(rows) + row.credit
  {
    assert (rows + [row])[..|rows|] == rows;
  }

  /** The column difference of the trial balance is the signed total of the active balances. */
  lemma {:induction false} TrialDifference(accounts: seq<Account>)
    requires forall k :: 0 <= k < |accounts| ==> accounts[k].active
    ensures TrialBalanceOf(accounts).totalDebit - TrialBalanceOf(accounts).totalCredit == SignedTotal(accounts)
  {
    if accounts != [] {
      var init := accounts[..|accounts| - 1];
      var a := accounts[|accounts| - 1];
      TrialDifference(init);
      TrialCells(a);
      TrialRowsLast(accounts);
      var rows := TrialRows(init);
      if a.balance != 0.0 {
        TrialRowsAppend(rows, RowOf(a));
      } else {
        assert rows + [] == rows;
      }
    }
  }

  /** On a valid ledger the trial balance is off by exactly the posted entries' imbalance,
   *  which is at most a cent per posted entry. */
  lemma TrialBalanceNearlyBalanced(accounts: seq<Account>, entries: seq<JournalEntry>)
    requires LedgerValid(accounts, entries)
    ensures TrialBalanceOf(accounts).totalDebit - TrialBalanceOf(accounts).totalCredit == PostedImbalance(entries)
    ensures -0.01 * PostedCount(entries) as real
         <= TrialBalanceOf(accounts).totalDebit - TrialBalanceOf(accounts).totalCredit
         <= 0.01 * PostedCount(entries) as real
  {
    TrialDifference(accounts);
    ImbalanceBound(entries, |accounts|);
  }

  /** When every posted entry is exactly balanced the two columns agree. */
  lemma TrialBalanceBalanced(accounts: seq<Account>, entries: seq<JournalEntry>)
    requires LedgerValid(accounts, entries)
    requires PostedExactlyBalanced(entries)
    ensures TrialBalanceOf(accounts).totalDebit == TrialBalanceOf(accounts).totalCredit
  {
    TrialDifference(accounts);
    ExactImbalanceZero(entries);
  }

  // ------------------------------------------------------------ profit and loss

  datatype PnlRow = PnlRow(code: string, name: string, amount: real)
  datatype ProfitLoss = ProfitLoss(
    revenue: seq<PnlRow>, expenses: seq<PnlRow>,
    totalRevenue: real, totalExpense: real, netIncome: real)

  /** Whether an entry's lines reach the sums. The posted test sits in the join condition,
   *  so a line of an unposted entry still joins its account, finds no entry row, and passes
   *  both date tests by the `entry_date IS NULL` escape. */
  predicate Counts(e: JournalEntry, from: Option<int>, to: Option<int>) {
    !e.posted || InRange(e.date, from, to)
  }

  /** A date within the report's optional `date_from` / `date_to` bounds. */
  predicate InRange(date: int, from: Option<int>, to: Option<int>) {
    (from.None? || date >= from.value) && (to.None? || date <= to.value)
  }

  function DebitOn(lines: seq<JournalLine>, id: int): real {
    if lines == [] then 0.0
    else DebitOn(lines[..|lines| - 1], id) + (if lines[|lines| - 1].account == id then lines[|lines| - 1].debit else 0.0)
  }

  function CreditOn(lines: seq<JournalLine>, id: int): real {
    if lines == [] then 0.0
    else CreditOn(lines[..|lines| - 1], id) + (if lines[|lines| - 1].account == id then lines[|lines| - 1].credit else 0.0)
  }

  /** `SUM(jl.debit)` over the lines of account `id` that survive the filter. */
  function CountedDebit(entries: seq<JournalEntry>, id: int, from: Option<int>, to: Option<int>): real {
    if entries == [] then 0.0
    else
      var e := entries[|entries| - 1];
      CountedDebit(entries[..|entries| - 1], id, from, to) + (if Counts(e, from, to) then DebitOn(e.lines, id) else 0.0)
  }

  function CountedCredit(entries: seq<JournalEntry>, id: int, from: Option<int>, to: Option<int>): real {
    if entries == [] then 0.0
    else
      var e := entries[|entries| - 1];
      CountedCredit(entries[..|entries| - 1], id, from, to) + (if Counts(e, from, to) then CreditOn(e.lines, id) else 0.0)
  }

  /** Revenue: credits − debits; any other (that is, expense) account: debits − credits. */
  function PnlAmount(kind: AccountType, id: int, entries: seq<JournalEntry>, from: Option<int>, to: Option<int>): real {
    if kind == Revenue then CountedCredit(entries, id, from, to) - CountedDebit(entries, id, from, to)
    else CountedDebit(entries, id, from, to) - CountedCredit(entries, id, from, to)
  }

  /** Rows for the active accounts of `kind` among the first `n`, with zero amounts left out. */
  function PnlRows(accounts: seq<Account>, entries: seq<JournalEntry>, from: Option<int>, to: Option<int>, kind: AccountType, n: nat): (rows: seq<PnlRow>)
    requires n <= |accounts|
    ensures forall r :: r in rows ==> r.amount != 0.0
  {
    if n == 0 then []
    else
      var a := accounts[n - 1];
      var amount := PnlAmount(a.kind, n, entries, from, to);
      PnlRows(accounts, entries, from, to, kind, n - 1)
        + (if a.active && a.kind == kind && amount != 0.0 then [PnlRow(a.code, a.name, amount)] else [])
  }

  function RowsAmount(rows: seq<PnlRow>): real {
    if rows == [] then 0.0 else RowsAmount(rows[..|rows| - 1]) + rows[|rows| - 1].amount
  }

  /** Σ of the amounts of the active accounts of `kind` among the first `n`, zero amounts
   *  included. */
  function KindAmount(accounts: seq<Account>, entries: seq<JournalEntry>, from: Option<int>, to: Option<int>, kind: AccountType, n: nat): real
    requires n <= |accounts|
  {
    if n == 0 then 0.0
    else
      KindAmount(accounts, entries, from, to, kind, n - 1)
        + (if accounts[n - 1].active && accounts[n - 1].kind == kind then PnlAmount(kind, n, entries, from, to) else 0.0)
  }

  /** One more account adds its amount to the report total when it is active and of `kind`;
   *  a zero amount adds nothing whether it is listed or not. */
  lemma PnlRowsStep(accounts: seq<Account>, entries: seq<JournalEntry>, from: Option<int>, to: Option<int>, kind: AccountType, n: nat)
    requires 0 < n <= |accounts|
    ensures RowsAmount(PnlRows(accounts, entries, from, to, kind, n))
         == RowsAmount(PnlRows(accounts, entries, from, to, kind, n - 1))
          + (if accounts[n - 1].active && accounts[n - 1].kind == kind then PnlAmount(kind, n, entries, from, to) else 0.0)
  {
    var a := accounts[n - 1];
    var rows := PnlRows(accounts, entries, from, to, kind, n - 1);
    var amount := PnlAmount(a.kind, n, entries, from, to);
    if a.active && a.kind == kind && amount != 0.0 {
      assert (rows + [PnlRow(a.code, a.name, amount)])[..|rows|] == rows;
    } else {
      assert rows + [] == rows;
    }
  }

  /** Leaving out the zero rows does not change the total. */
  lemma {:induction false} PnlRowsTotal(accounts: seq<Account>, entries: seq<JournalEntry>, from: Option<int>, to: Option<int>, kind: AccountType, n: nat)
    requires n <= |accounts|
    ensures RowsAmount(PnlRows(accounts, entries, from, to, kind, n)) == KindAmount(accounts, entries, from, to, kind, n)
  {
    if n > 0 {
      PnlRowsTotal(accounts, entries, from, to, kind, n - 1);
      PnlRowsStep(accounts, entries, from, to, kind, n);
    }
  }

  /** Every active account of `kind` with a nonzero amount has its row. */
  lemma {:induction false} PnlRowsComplete(accounts: seq<Account>, entries: seq<JournalEntry>, from: Option<int>, to: Option<int>, kind: AccountType, n: nat, k: nat)
    requires k < n <= |accounts|
    requires accounts[k].active && accounts[k].kind == kind && PnlAmount(kind, k + 1, entries, from, to) != 0.0
    ensures PnlRow(accounts[k].code, accounts[k].name, PnlAmount(kind, k + 1, entries, from, to))
            in PnlRows(accounts, entries, from, to, kind, n)
  {
    if k < n - 1 {
      PnlRowsComplete(accounts, entries, from, to, kind, n - 1, k);
    }
  }

  /** Every row is that of an active account of `kind`, with its nonzero amount. */
  lemma {:induction false} PnlRowsSound(accounts: seq<Account>, entries: seq<JournalEntry>, from: Option<int>, to: Option<int>, kind: AccountType, n: nat, r: PnlRow)
    requires n <= |accounts| && r in PnlRows(accounts, entries, from, to, kind, n)
    ensures exists k :: 0 <= k < n && accounts[k].active && accounts[k].kind == kind
              && PnlAmount(kind, k + 1, entries, from, to) != 0.0
              && r == PnlRow(accounts[k].code, accounts[k].name, PnlAmount(kind, k + 1, entries, from, to))
  {
    assert n > 0;
    if r in PnlRows(accounts, entries, from, to, kind, n - 1) {
      PnlRowsSound(accounts, entries, from, to, kind, n - 1, r);
    } else {
      assert accounts[n - 1].kind == kind;
    }
  }

  /** The report: its totals are the sums of the revenue and the expense amounts over
   *  every active account, and net income is their difference. */
  function ProfitLossOf(accounts: seq<Account>, entries: seq<JournalEntry>, from: Option<int>, to: Option<int>): (r: ProfitLoss)
    ensures r.totalRevenue == KindAmount(accounts, entries, from, to, Revenue, |accounts|)
    ensures r.totalExpense == KindAmount(accounts, entries, from, to, Expense, |accounts|)
    ensures r.netIncome == KindAmount(accounts, entries, from, to, Revenue, |accounts|)
                         - KindAmount(accounts, entries, from, to, Expense, |accounts|)
  {
    var rev := PnlRows(accounts, entries, from, to, Revenue, |accounts|);
    var exp := PnlRows(accounts, entries, from, to, Expense, |accounts|);
    PnlRowsTotal(accounts, entries, from, to, Revenue, |accounts|);
    PnlRowsTotal(accounts, entries, from, to, Expense, |accounts|);
    ProfitLoss(rev, exp, RowsAmount(rev), RowsAmount(exp), RowsAmount(rev) - RowsAmount(exp))
  }

  /** The per-account change of a run of lines, split into its debit and credit sums. */
  lemma {:induction false} LinesEffectSplit(lines: seq<JournalLine>, id: int, kind: AccountType)
    ensures LinesEffect(lines, id, kind)
         == if DebitNormal(kind) then DebitOn(lines, id) - CreditOn(lines, id) else CreditOn(lines, id) - DebitOn(lines, id)
  {
    if lines != [] {
      LinesEffectSplit(lines[..|lines| - 1], id, kind);
    }
  }

  /** What the posted entries dated within the bounds did to the account with id `id`. */
  function PostedEffectWithin(entries: seq<JournalEntry>, id: int, kind: AccountType, from: Option<int>, to: Option<int>): real {
    if entries == [] then 0.0
    else
      var e := entries[|entries| - 1];
      PostedEffectWithin(entries[..|entries| - 1], id, kind, from, to)
        + (if e.posted && InRange(e.date, from, to) then LinesEffect(e.lines, id, kind) else 0.0)
  }

  /** Without bounds, every posted entry is within them. */
  lemma {:induction false} WithinUnbounded(entries: seq<JournalEntry>, id: int, kind: AccountType)
    ensures PostedEffectWithin(entries, id, kind, None, None) == PostedEffect(entries, id, kind)
  {
    if entries != [] {
      WithinUnbounded(entries[..|entries| - 1], id, kind);
    }
  }

  /** The filtered sums split into the dated posted entries and every unposted one. */
  lemma {:induction false} BoundedSums(entries: seq<JournalEntry>, id: int, kind: AccountType, from: Option<int>, to: Option<int>)
    ensures (if DebitNormal(kind) then CountedDebit(entries, id, from, to) - CountedCredit(entries, id, from, to)
             else CountedCredit(entries, id, from, to) - CountedDebit(entries, id, from, to))
         == PostedEffectWithin(entries, id, kind, from, to) + UnpostedEffect(entries, id, kind)
  {
    if entries != [] {
      BoundedSums(entries[..|entries| - 1], id, kind, from, to);
      LinesEffectSplit(entries[|entries| - 1].lines, id, kind);
    }
  }

  /** Whatever the bounds, a revenue or expense account's amount is the effect of its posted
   *  entries dated within them plus the effect of every unposted entry, whatever its date. */
  lemma PnlDateBounds(entries: seq<JournalEntry>, id: int, kind: AccountType, from: Option<int>, to: Option<int>)
    requires kind == Revenue || kind == Expense
    ensures PnlAmount(kind, id, entries, from, to)
         == PostedEffectWithin(entries, id, kind, from, to) + UnpostedEffect(entries, id, kind)
  {
    BoundedSums(entries, id, kind, from, to);
  }

  /** On a valid ledger, an unfiltered report shows for a revenue or expense account its
   *  balance plus what the still-unposted entries would add to it. */
  lemma PnlIncludesUnposted(accounts: seq<Account>, entries: seq<JournalEntry>, k: nat)
    requires LedgerValid(accounts, entries)
    requires k < |accounts| && (accounts[k].kind == Revenue || accounts[k].kind == Expense)
    ensures PnlAmount(accounts[k].kind, k + 1, entries, None, None)
         == accounts[k].balance + UnpostedEffect(entries, k + 1, accounts[k].kind)
  {
    PnlDateBounds(entries, k + 1, accounts[k].kind, None, None);
    WithinUnbounded(entries, k + 1, accounts[k].kind);
  }

  lemma {:induction false} AllPostedNoUnposted(entries: seq<JournalEntry>, id: int, kind: AccountType)
    requires forall e :: e in entries ==> e.posted
    ensures UnpostedEffect(entries, id, kind) == 0.0
  {
    if entries != [] {
      assert entries[|entries| - 1] in entries;
      assert forall e :: e in entries[..|entries| - 1] ==> e in entries;
      AllPostedNoUnposted(entries[..|entries| - 1], id, kind);
    }
  }

  /** The two accounts the seeded draft JE-008 touches: Rent Expense and Accrued Liabilities. */
  function RentAccounts(): seq<Account> {
    [SeedRow("5200", "Rent Expense", Expense), SeedRow("2100", "Accrued Liabilities", Liability)]
  }

  /** The lines of the seeded draft JE-008 (rent accrual): debit Rent Expense, credit
   *  Accrued Liabilities, 3500 each. */
  function RentLines(): seq<JournalLine> {
    [JournalLine(1, 3500.0, 0.0), JournalLine(2, 0.0, 3500.0)]
  }

  /** JE-008 on its own, unposted. */
  function RentAccrual(): seq<JournalEntry> {
    [JournalEntry(20260210, "JE-008", "February rent accrual", false, RentLines())]
  }

  lemma RentLinesSums()
    ensures SumDebit(RentLines()) == 3500.0 && SumCredit(RentLines()) == 3500.0
  {
    var lines := RentLines();
    assert lines[..1] == [lines[0]] && lines[..1][..0] == [];
    assert SumDebit(lines[..1]) == 3500.0;
    assert SumCredit(lines[..1]) == 0.0;
  }

  lemma RentEntryWellFormed()
    ensures WellFormedEntry(RentAccrual()[0], 2)
  {
    RentLinesSums();
    Money.Round2Cents(3500.0);
  }

  lemma RentAccountsUnique()
    ensures CodesUnique(RentAccounts())
  {
    var accounts := RentAccounts();
    assert accounts[0].code[0] != accounts[1].code[0];
  }

  /** JE-008 alone is a valid ledger in which every balance is zero. */
  lemma RentAccrualValid()
    ensures LedgerValid(RentAccounts(), RentAccrual())
    ensures forall k :: 0 <= k < |RentAccounts()| ==> RentAccounts()[k].balance == 0.0
  {
    var accounts, entries := RentAccounts(), RentAccrual();
    RentAccountsUnique();
    RentEntryWellFormed();
    assert entries[..0] == [];
    assert PostedEffect(entries, 1, Expense) == 0.0 && PostedEffect(entries, 2, Liability) == 0.0;
    assert accounts[..1][..0] == [];
    assert SignedTotal(accounts[..1]) == 0.0;
  }

  /** Yet the report counts the unposted 3500 as rent expense, whatever the date bounds. */
  lemma RentAccrualAmount(from: Option<int>, to: Option<int>)
    ensures PnlAmount(Expense, 1, RentAccrual(), from, to) == 3500.0
  {
    var entries := RentAccrual();
    var lines := RentLines();
    assert lines[..1] == [lines[0]] && lines[..1][..0] == [];
    assert entries[..0] == [];
    assert DebitOn(lines[..1], 1) == 3500.0 && CreditOn(lines[..1], 1) == 0.0;
    assert DebitOn(lines, 1) == 3500.0 && CreditOn(lines, 1) == 0.0;
    assert CountedDebit(entries, 1, from, to) == 3500.0;
    assert CountedCredit(entries, 1, from, to) == 0.0;
  }

  /**
   * JE-008 on its own: nothing is posted and every balance is zero, yet the report lists a
   * 3500 rent expense and a net loss of 3500, for any date bounds, even ones that exclude
   * the entry's date.
   */
  lemma UnpostedEntryReported(from: Option<int>, to: Option<int>)
    ensures LedgerValid(RentAccounts(), RentAccrual())
    ensures ProfitLossOf(RentAccounts(), RentAccrual(), from, to).expenses == [PnlRow("5200", "Rent Expense", 3500.0)]
    ensures ProfitLossOf(RentAccounts(), RentAccrual(), from, to).netIncome == -3500.0
  {
    RentAccrualValid();
    RentAccrualAmount(from, to);
    var accounts, entries := RentAccounts(), RentAccrual();
    var row := PnlRow("5200", "Rent Expense", 3500.0);
    assert PnlRows(accounts, entries, from, to, Expense, 1) == [row];
    assert PnlRows(accounts, entries, from, to, Expense, 2) == [row];
    assert PnlRows(accounts, entries, from, to, Revenue, 1) == [];
    assert PnlRows(accounts, entries, from, to, Revenue, 2) == [];
    assert [row][..0] == [];
  }

  // ------------------------------------------------------------ balance sheet

  datatype SheetRow = SheetRow(code: string, name: string, balance: real)
  datatype BalanceSheet = BalanceSheet(
    assets: seq<SheetRow>, liabilities: seq<SheetRow>, equity: seq<SheetRow>,
    totalAssets: real, totalLiabilities: real, totalEquity: real)

  /** The raw balances of the active accounts of `kind`, zero balances included. */
  function SheetRows(accounts: seq<Account>, kind: AccountType): (rows: seq<SheetRow>)
    ensures |rows| <= |accounts|
  {
    if accounts == [] then []
    else
      var a := accounts[|accounts| - 1];
      SheetRows(accounts[..|accounts| - 1], kind) + (if a.active && a.kind == kind then [SheetRow(a.code, a.name, a.balance)] else [])
  }

  function RowsBalance(rows: seq<SheetRow>): real {
    if rows == [] then 0.0 else RowsBalance(rows[..|rows| - 1]) + rows[|rows| - 1].balance
  }

  /** Σ of the raw balances of the active accounts of `kind`. */
  function KindTotal(accounts: seq<Account>, kind: AccountType): real {
    RowsBalance(SheetRows(accounts, kind))
  }

  function BalanceSheetOf(accounts: seq<Account>): BalanceSheet {
    var assets := SheetRows(accounts, Asset);
    var liabilities := SheetRows(accounts, Liability);
    var equity := SheetRows(accounts, Equity);
    BalanceSheet(assets, liabilities, equity, RowsBalance(assets), RowsBalance(liabilities), RowsBalance(equity))
  }

  lemma SheetRowsAppend(rows: seq<SheetRow>, row: SheetRow)
    ensures RowsBalance(rows + [row]) == RowsBalance(rows) + row.balance
  {
    assert (rows + [row])[..|rows|] == rows;
  }

  function Share(a: Account, kind: AccountType): real {
    if a.active && a.kind == kind then a.balance else 0.0
  }

  lemma KindTotalLast(accounts: seq<Account>, kind: AccountType)
    requires accounts != []
    ensures KindTotal(accounts, kind) == KindTotal(accounts[..|accounts| - 1], kind) + Share(accounts[|accounts| - 1], kind)
  {
    var a := accounts[|accounts| - 1];
    var rows := SheetRows(accounts[..|accounts| - 1], kind);
    if a.active && a.kind == kind {
      SheetRowsAppend(rows, SheetRow(a.code, a.name, a.balance));
    } else {
      assert rows + [] == rows;
    }
  }

  /** The signed total, regrouped by account type. */
  lemma {:induction false} SignedTotalByKind(accounts: seq<Account>)
    requires forall k :: 0 <= k < |accounts| ==> accounts[k].active
    ensures SignedTotal(accounts)
         == KindTotal(accounts, Asset) + KindTotal(accounts, Expense)
          - KindTotal(accounts, Liability) - KindTotal(accounts, Equity) - KindTotal(accounts, Revenue)
  {
    if accounts != [] {
      var init := accounts[..|accounts| - 1];
      var a := accounts[|accounts| - 1];
      SignedTotalByKind(init);
      KindTotalLast(accounts, Asset);
      KindTotalLast(accounts, Expense);
      KindTotalLast(accounts, Liability);
      KindTotalLast(accounts, Equity);
      KindTotalLast(accounts, Revenue);
      assert a.active;
    }
  }

  /** After exactly balanced postings, assets − liabilities − equity equals the revenue
   *  balances less the expense balances: the earnings not yet closed into equity. */
  lemma BalanceSheetEquation(accounts: seq<Account>, entries: seq<JournalEntry>)
    requires LedgerValid(accounts, entries)
    requires PostedExactlyBalanced(entries)
    ensures BalanceSheetOf(accounts).totalAssets - BalanceSheetOf(accounts).totalLiabilities - BalanceSheetOf(accounts).totalEquity
         == KindTotal(accounts, Revenue) - KindTotal(accounts, Expense)
  {
    SignedTotalByKind(accounts);
    ExactImbalanceZero(entries);
  }

  /** The unfiltered report shows every account of `kind` at its balance. */
  ghost predicate AmountsAreBalances(accounts: seq<Account>, entries: seq<JournalEntry>, kind: AccountType) {
    forall k :: 0 <= k < |accounts| && accounts[k].kind == kind ==>
      PnlAmount(kind, k + 1, entries, None, None) == accounts[k].balance
  }

  /** Where each amount equals its account's balance, the report's totals are the balance totals. */
  lemma {:induction false} PnlRowsOfBalances(accounts: seq<Account>, entries: seq<JournalEntry>, kind: AccountType, n: nat)
    requires n <= |accounts| && AmountsAreBalances(accounts, entries, kind)
    ensures RowsAmount(PnlRows(accounts, entries, None, None, kind, n)) == KindTotal(accounts[..n], kind)
  {
    if n == 0 {
      assert accounts[..0] == [];
    } else {
      var a := accounts[n - 1];
      var prefix := accounts[..n];
      PnlRowsOfBalances(accounts, entries, kind, n - 1);
      PnlRowsStep(accounts, entries, None, None, kind, n);
      assert prefix[..n - 1] == accounts[..n - 1] && prefix[n - 1] == a;
      KindTotalLast(prefix, kind);
      assert a.kind == kind ==> PnlAmount(kind, n, entries, None, None) == a.balance;
    }
  }

  /** With every entry posted, the unfiltered report shows each revenue and expense balance. */
  lemma PnlAllPosted(accounts: seq<Account>, entries: seq<JournalEntry>, kind: AccountType)
    requires LedgerValid(accounts, entries)
    requires forall e :: e in entries ==> e.posted
    requires kind == Revenue || kind == Expense
    ensures AmountsAreBalances(accounts, entries, kind)
  {
    forall k | 0 <= k < |accounts| && accounts[k].kind == kind
      ensures PnlAmount(kind, k + 1, entries, None, None) == accounts[k].balance
    {
      PnlIncludesUnposted(accounts, entries, k);
      AllPostedNoUnposted(entries, k + 1, kind);
    }
  }

  /** Once everything is posted and exactly balanced, the net income of the unfiltered report
   *  equals assets − liabilities − equity on the balance sheet. */
  lemma NetIncomeMatchesBalanceSheet(accounts: seq<Account>, entries: seq<JournalEntry>)
    requires LedgerValid(accounts, entries)
    requires PostedExactlyBalanced(entries)
    requires forall e :: e in entries ==> e.posted
    ensures ProfitLossOf(accounts, entries, None, None).netIncome
         == BalanceSheetOf(accounts).totalAssets - BalanceSheetOf(accounts).totalLiabilities - BalanceSheetOf(accounts).totalEquity
  {
    PnlAllPosted(accounts, entries, Revenue);
    PnlAllPosted(accounts, entries, Expense);
    PnlRowsOfBalances(accounts, entries, Revenue, |accounts|);
    PnlRowsOfBalances(accounts, entries, Expense, |accounts|);
    assert accounts[..|accounts|] == accounts;
    BalanceSheetEquation(accounts, entries);
  }
}
