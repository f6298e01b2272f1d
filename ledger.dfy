/**
 * The double-entry ledger of erp/modules/accounting.py: which form lines a
 * journal entry keeps, the rounded balance check, the type-dependent sign rule
 * of posting, and the invariant that ties every running balance to the posted
 * entries.
 */
module Ledger {
  import opened Wrappers
  import opened Schema
  import Money

  // ------------------------------------------------------------ entry lines

  /** `lst[i]` when the form list is long enough, blank otherwise. */
  function At<T>(lst: seq<Option<T>>, i: nat): Option<T> {
    if i < |lst| then lst[i] else None
  }

  /** Line `i` is kept: it names an account and debit and credit are not both zero. */
  predicate Kept(ids: seq<Option<int>>, debits: seq<Option<real>>, credits: seq<Option<real>>, i: nat)
    requires i < |ids|
  {
    ids[i].Some? && !(Money.Amount(At(debits, i)) == 0.0 && Money.Amount(At(credits, i)) == 0.0)
  }

  function LineAt(ids: seq<Option<int>>, debits: seq<Option<real>>, credits: seq<Option<real>>, i: nat): JournalLine
    requires i < |ids| && ids[i].Some?
  {
    JournalLine(ids[i].value, Money.Amount(At(debits, i)), Money.Amount(At(credits, i)))
  }

  /** The lines kept from the first `n` form rows, in form order. */
  function KeptLines(ids: seq<Option<int>>, debits: seq<Option<real>>, credits: seq<Option<real>>, n: nat): (lines: seq<JournalLine>)
    requires n <= |ids|
    ensures |lines| <= n
    ensures forall l :: l in lines ==> l.debit != 0.0 || l.credit != 0.0
  {
    if n == 0 then []
    else
      KeptLines(ids, debits, credits, n - 1)
        + (if Kept(ids, debits, credits, n - 1) then [LineAt(ids, debits, credits, n - 1)] else [])
  }

  /** The lines a submitted journal form yields. */
  function EntryLines(ids: seq<Option<int>>, debits: seq<Option<real>>, credits: seq<Option<real>>): seq<JournalLine> {
    KeptLines(ids, debits, credits, |ids|)
  }

  /** No line survives exactly when every row is blank or zero on both sides. */
  lemma {:induction false} KeptLinesEmpty(ids: seq<Option<int>>, debits: seq<Option<real>>, credits: seq<Option<real>>, n: nat)
    requires n <= |ids|
    ensures KeptLines(ids, debits, credits, n) == [] <==> forall i :: 0 <= i < n ==> !Kept(ids, debits, credits, i)
  {
    if n > 0 {
      KeptLinesEmpty(ids, debits, credits, n - 1);
    }
  }

  /** Every row that names an account and carries an amount becomes a line, sign unchecked. */
  lemma {:induction false} KeptLinesComplete(ids: seq<Option<int>>, debits: seq<Option<real>>, credits: seq<Option<real>>, n: nat, i: nat)
    requires i < n <= |ids|
    requires Kept(ids, debits, credits, i)
    ensures LineAt(ids, debits, credits, i) in KeptLines(ids, debits, credits, n)
  {
    if i < n - 1 {
      KeptLinesComplete(ids, debits, credits, n - 1, i);
    }
  }

  /** Every kept line is the line of a row that names an account and carries an amount. */
  lemma {:induction false} KeptLinesSound(ids: seq<Option<int>>, debits: seq<Option<real>>, credits: seq<Option<real>>, n: nat, l: JournalLine)
    requires n <= |ids| && l in KeptLines(ids, debits, credits, n)
    ensures exists i :: 0 <= i < n && Kept(ids, debits, credits, i) && l == LineAt(ids, debits, credits, i)
  {
    if l in KeptLines(ids, debits, credits, n - 1) {
      KeptLinesSound(ids, debits, credits, n - 1, l);
    }
  }

  /** The loop of the journal form: keep the usable rows and total both sides. */
  method CollectLines(ids: seq<Option<int>>, debits: seq<Option<real>>, credits: seq<Option<real>>)
    returns (lines: seq<JournalLine>, totalDebit: real, totalCredit: real)
    ensures lines == EntryLines(ids, debits, credits)
    ensures totalDebit == SumDebit(lines) && totalCredit == SumCredit(lines)
  {
    lines, totalDebit, totalCredit := [], 0.0, 0.0;
    for i := 0 to |ids|
      invariant lines == KeptLines(ids, debits, credits, i)
      invariant totalDebit == SumDebit(lines) && totalCredit == SumCredit(lines)
    {
      if ids[i].None? {
        continue;
      }
      var d := Money.Amount(At(debits, i));
      var c := Money.Amount(At(credits, i));
      if d == 0.0 && c == 0.0 {
        continue;
      }
      var line := JournalLine(ids[i].value, d, c);
      assert line == LineAt(ids, debits, credits, i);
      SumsAppend(lines, line);
      lines := lines + [line];
      totalDebit := totalDebit + d;
      totalCredit := totalCredit + c;
    }
  }

  // ------------------------------------------------------------ balance check

  function SumDebit(lines: seq<JournalLine>): real {
    if lines == [] then 0.0 else SumDebit(lines[..|lines| - 1]) + lines[|lines| - 1].debit
  }

  function SumCredit(lines: seq<JournalLine>): real {
    if lines == [] then 0.0 else SumCredit(lines[..|lines| - 1]) + lines[|lines| - 1].credit
  }

  lemma SumsAppend(lines: seq<JournalLine>, l: JournalLine)
    ensures SumDebit(lines + [l]) == SumDebit(lines) + l.debit
    ensures SumCredit(lines + [l]) == SumCredit(lines) + l.credit
  {
    assert (lines + [l])[..|lines|] == lines;
  }

  /** `round(total_debit, 2) == round(total_credit, 2)`. */
  predicate RoundedBalanced(lines: seq<JournalLine>) {
    Money.Round2(SumDebit(lines)) == Money.Round2(SumCredit(lines))
  }

  /** A rounded-balanced entry is off by at most one cent. */
  lemma RoundedBalancedIsClose(lines: seq<JournalLine>)
    requires RoundedBalanced(lines)
    ensures -0.01 <= SumDebit(lines) - SumCredit(lines) <= 0.01
  {
    Money.SameRoundingIsClose(SumDebit(lines), SumCredit(lines));
  }

  /** The rounded check admits entries that are not exactly balanced. */
  lemma RoundedBalanceIsNotExact()
    ensures RoundedBalanced([JournalLine(1, 10.004, 0.0), JournalLine(2, 0.0, 10.0)])
    ensures SumDebit([JournalLine(1, 10.004, 0.0), JournalLine(2, 0.0, 10.0)])
         != SumCredit([JournalLine(1, 10.004, 0.0), JournalLine(2, 0.0, 10.0)])
  {
    var lines := [JournalLine(1, 10.004, 0.0), JournalLine(2, 0.0, 10.0)];
    assert lines[..1][..0] == [] && lines[..1] == [lines[0]];
    assert SumDebit(lines) == 10.004;
    assert SumCredit(lines) == 10.0;
    assert (1000.4).Floor == 1000;
    Money.Round2Cents(10.0);
  }

  // ------------------------------------------------------------ posting

  /** The balance change a line causes on an account of type `kind`. */
  function Delta(kind: AccountType, l: JournalLine): real {
    if DebitNormal(kind) then l.debit - l.credit else l.credit - l.debit
  }

  /** `UPDATE accounts SET balance = balance + change WHERE id = account`:
   *  a line whose account does not exist drops out of the inner join. */
  function ApplyLine(accounts: seq<Account>, l: JournalLine): (r: seq<Account>)
    ensures |r| == |accounts|
  {
    if ValidId(l.account, |accounts|) then
      var k := l.account - 1;
      accounts[k := accounts[k].(balance := accounts[k].balance + Delta(accounts[k].kind, l))]
    else accounts
  }

  function ApplyLines(accounts: seq<Account>, lines: seq<JournalLine>): (r: seq<Account>)
    ensures |r| == |accounts|
  {
    if lines == [] then accounts else ApplyLine(ApplyLines(accounts, lines[..|lines| - 1]), lines[|lines| - 1])
  }

  /** The total change a run of lines makes to the account with id `id`. */
  function LinesEffect(lines: seq<JournalLine>, id: int, kind: AccountType): real {
    if lines == [] then 0.0
    else LinesEffect(lines[..|lines| - 1], id, kind)
           + (if lines[|lines| - 1].account == id then Delta(kind, lines[|lines| - 1]) else 0.0)
  }

  /** Posting adds to each account the summed deltas of its own lines; no other field
   *  and no other account changes. */
  lemma {:induction false} ApplyLinesEffect(accounts: seq<Account>, lines: seq<JournalLine>)
    ensures forall k :: 0 <= k < |accounts| ==>
      ApplyLines(accounts, lines)[k]
        == accounts[k].(balance := accounts[k].balance + LinesEffect(lines, k + 1, accounts[k].kind))
  {
    if lines != [] {
      ApplyLinesEffect(accounts, lines[..|lines| - 1]);
    }
  }

  /** An account that no line names is untouched by them. */
  lemma {:induction false} LinesEffectUnnamed(lines: seq<JournalLine>, id: int, kind: AccountType)
    requires forall l :: l in lines ==> l.account != id
    ensures LinesEffect(lines, id, kind) == 0.0
  {
    if lines != [] {
      assert lines[|lines| - 1] in lines;
      assert forall l :: l in lines[..|lines| - 1] ==> l in lines;
      LinesEffectUnnamed(lines[..|lines| - 1], id, kind);
    }
  }

  // ------------------------------------------------------------ the signed total

  /** A balance with its normal side given a sign: debit side positive. */
  function Signed(a: Account): real {
    if DebitNormal(a.kind) then a.balance else -a.balance
  }

  /** Σ debit-normal balances − Σ credit-normal balances. */
  function SignedTotal(accounts: seq<Account>): real {
    if accounts == [] then 0.0 else SignedTotal(accounts[..|accounts| - 1]) + Signed(accounts[|accounts| - 1])
  }

  lemma {:induction false} SignedTotalUpdate(accounts: seq<Account>, k: nat, a: Account)
    requires k < |accounts|
    ensures SignedTotal(accounts[k := a]) == SignedTotal(accounts) - Signed(accounts[k]) + Signed(a)
  {
    var n := |accounts|;
    if k < n - 1 {
      assert accounts[k := a][..n - 1] == accounts[..n - 1][k := a];
      SignedTotalUpdate(accounts[..n - 1], k, a);
    } else {
      assert accounts[k := a][..n - 1] == accounts[..n - 1];
    }
  }

  lemma SignedTotalAppend(accounts: seq<Account>, a: Account)
    ensures SignedTotal(accounts + [a]) == SignedTotal(accounts) + Signed(a)
  {
    assert (accounts + [a])[..|accounts|] == accounts;
  }

  /** Posting lines on existing accounts moves the signed total by Σdebit − Σcredit,
   *  whatever the account types. */
  lemma {:induction false} ApplyLinesSignedTotal(accounts: seq<Account>, lines: seq<JournalLine>)
    requires forall l :: l in lines ==> ValidId(l.account, |accounts|)
    ensures SignedTotal(ApplyLines(accounts, lines)) == SignedTotal(accounts) + SumDebit(lines) - SumCredit(lines)
  {
    if lines != [] {
      var init := lines[..|lines| - 1];
      var l := lines[|lines| - 1];
      assert forall m :: m in init ==> m in lines;
      ApplyLinesSignedTotal(accounts, init);
      var before := ApplyLines(accounts, init);
      assert l in lines;
      var k := l.account - 1;
      SignedTotalUpdate(before, k, before[k].(balance := before[k].balance + Delta(before[k].kind, l)));
    }
  }

  // ------------------------------------------------------------ over all entries

  /** What the posted entries have done to the account with id `id`. */
  function PostedEffect(entries: seq<JournalEntry>, id: int, kind: AccountType): real {
    if entries == [] then 0.0
    else PostedEffect(entries[..|entries| - 1], id, kind)
           + (if entries[|entries| - 1].posted then LinesEffect(entries[|entries| - 1].lines, id, kind) else 0.0)
  }

  /** What the entries not yet posted would do to the account with id `id`. */
  function UnpostedEffect(entries: seq<JournalEntry>, id: int, kind: AccountType): real {
    if entries == [] then 0.0
    else UnpostedEffect(entries[..|entries| - 1], id, kind)
           + (if entries[|entries| - 1].posted then 0.0 else LinesEffect(entries[|entries| - 1].lines, id, kind))
  }

  /** Σ over posted entries of (Σdebit − Σcredit). */
  function PostedImbalance(entries: seq<JournalEntry>): real {
    if entries == [] then 0.0
    else PostedImbalance(entries[..|entries| - 1])
           + (var e := entries[|entries| - 1]; if e.posted then SumDebit(e.lines) - SumCredit(e.lines) else 0.0)
  }

  function PostedCount(entries: seq<JournalEntry>): nat {
    if entries == [] then 0
    else PostedCount(entries[..|entries| - 1]) + (if entries[|entries| - 1].posted then 1 else 0)
  }

  /** Setting the posted flag of one unposted entry moves its lines' effect on account `id`
   *  from the unposted to the posted side. */
  lemma {:induction false} PostFlipEffect(entries: seq<JournalEntry>, x: nat, id: int, kind: AccountType)
    requires x < |entries| && !entries[x].posted
    ensures PostedEffect(entries[x := entries[x].(posted := true)], id, kind)
         == PostedEffect(entries, id, kind) + LinesEffect(entries[x].lines, id, kind)
    ensures UnpostedEffect(entries[x := entries[x].(posted := true)], id, kind)
         == UnpostedEffect(entries, id, kind) - LinesEffect(entries[x].lines, id, kind)
  {
    var n := |entries|;
    var flipped := entries[x := entries[x].(posted := true)];
    if x < n - 1 {
      assert flipped[..n - 1] == entries[..n - 1][x := entries[x].(posted := true)];
      PostFlipEffect(entries[..n - 1], x, id, kind);
    } else {
      assert flipped[..n - 1] == entries[..n - 1];
    }
  }

  /** Setting the posted flag of one unposted entry adds its imbalance to the posted total
   *  and one to the posted count. */
  lemma {:induction false} PostFlipTotals(entries: seq<JournalEntry>, x: nat)
    requires x < |entries| && !entries[x].posted
    ensures PostedImbalance(entries[x := entries[x].(posted := true)])
         == PostedImbalance(entries) + SumDebit(entries[x].lines) - SumCredit(entries[x].lines)
    ensures PostedCount(entries[x := entries[x].(posted := true)]) == PostedCount(entries) + 1
  {
    var n := |entries|;
    var flipped := entries[x := entries[x].(posted := true)];
    if x < n - 1 {
      assert flipped[..n - 1] == entries[..n - 1][x := entries[x].(posted := true)];
      PostFlipTotals(entries[..n - 1], x);
    } else {
      assert flipped[..n - 1] == entries[..n - 1];
    }
  }

  lemma AppendUnposted(entries: seq<JournalEntry>, e: JournalEntry, id: int, kind: AccountType)
    requires !e.posted
    ensures PostedEffect(entries + [e], id, kind) == PostedEffect(entries, id, kind)
    ensures PostedImbalance(entries + [e]) == PostedImbalance(entries)
    ensures PostedCount(entries + [e]) == PostedCount(entries)
    ensures UnpostedEffect(entries + [e], id, kind) == UnpostedEffect(entries, id, kind) + LinesEffect(e.lines, id, kind)
  {
    assert (entries + [e])[..|entries|] == entries;
  }

  /** An account id that no line of any entry names has no effect recorded. */
  lemma {:induction false} EffectOfUnnamed(entries: seq<JournalEntry>, id: int, kind: AccountType)
    requires forall e, l :: e in entries && l in e.lines ==> l.account != id
    ensures PostedEffect(entries, id, kind) == 0.0 && UnpostedEffect(entries, id, kind) == 0.0
  {
    if entries != [] {
      var e := entries[|entries| - 1];
      assert e in entries;
      LinesEffectUnnamed(e.lines, id, kind);
      assert forall f :: f in entries[..|entries| - 1] ==> f in entries;
      EffectOfUnnamed(entries[..|entries| - 1], id, kind);
    }
  }

  // ------------------------------------------------------------ the invariant

  /** An entry as the journal form admits it: some line, all on existing accounts with an
   *  amount, and debits equal to credits after rounding. */
  ghost predicate WellFormedEntry(e: JournalEntry, accountCount: nat) {
    && e.lines != []
    && RoundedBalanced(e.lines)
    && forall l :: l in e.lines ==> ValidId(l.account, accountCount) && (l.debit != 0.0 || l.credit != 0.0)
  }

  /**
   * The ledger invariant: codes unique, every account active, every entry well formed,
   * every balance exactly the effect of the posted entries, and the signed total of the
   * balances equal to the summed imbalance of the posted entries.
   */
  ghost predicate LedgerValid(accounts: seq<Account>, entries: seq<JournalEntry>) {
    && CodesUnique(accounts)
    && (forall k :: 0 <= k < |accounts| ==> accounts[k].active)
    && (forall e :: e in entries ==> WellFormedEntry(e, |accounts|))
    && (forall k :: 0 <= k < |accounts| ==> accounts[k].balance == PostedEffect(entries, k + 1, accounts[k].kind))
    && SignedTotal(accounts) == PostedImbalance(entries)
  }

  /** Every posted entry is exactly balanced (not merely to the cent). */
  ghost predicate PostedExactlyBalanced(entries: seq<JournalEntry>) {
    forall e :: e in entries && e.posted ==> SumDebit(e.lines) == SumCredit(e.lines)
  }

  lemma {:induction false} ExactImbalanceZero(entries: seq<JournalEntry>)
    requires PostedExactlyBalanced(entries)
    ensures PostedImbalance(entries) == 0.0
  {
    if entries != [] {
      assert entries[|entries| - 1] in entries;
      assert forall e :: e in entries[..|entries| - 1] ==> e in entries;
      ExactImbalanceZero(entries[..|entries| - 1]);
    }
  }

  /** With each posted entry balanced only to the cent, the imbalance is at most one cent per posted entry. */
  lemma {:induction false} ImbalanceBound(entries: seq<JournalEntry>, accountCount: nat)
    requires forall e :: e in entries ==> WellFormedEntry(e, accountCount)
    ensures -0.01 * PostedCount(entries) as real <= PostedImbalance(entries) <= 0.01 * PostedCount(entries) as real
  {
    if entries != [] {
      var e := entries[|entries| - 1];
      assert e in entries;
      RoundedBalancedIsClose(e.lines);
      assert forall f :: f in entries[..|entries| - 1] ==> f in entries;
      ImbalanceBound(entries[..|entries| - 1], accountCount);
    }
  }

  // ------------------------------------------------------------ what the handlers preserve

  /** Every line names an existing account; otherwise inserting the lines fails the
   *  foreign key and the request is rolled back. */
  predicate OnAccounts(lines: seq<JournalLine>, accountCount: nat) {
    forall l :: l in lines ==> ValidId(l.account, accountCount)
  }

  /** Some account already has this code. */
  predicate CodeTaken(accounts: seq<Account>, code: string) {
    exists k :: 0 <= k < |accounts| && accounts[k].code == code
  }

  lemma {:induction false} SignedTotalZero(accounts: seq<Account>)
    requires forall k :: 0 <= k < |accounts| ==> accounts[k].balance == 0.0
    ensures SignedTotal(accounts) == 0.0
  {
    if accounts != [] {
      SignedTotalZero(accounts[..|accounts| - 1]);
    }
  }

  /** A journal entry needs at least one account to post to. */
  lemma EntriesNeedAccounts(entries: seq<JournalEntry>, accountCount: nat)
    requires forall e :: e in entries ==> WellFormedEntry(e, accountCount)
    ensures entries != [] ==> accountCount >= 1
  {
    if entries != [] {
      assert entries[0] in entries;
      assert entries[0].lines[0] in entries[0].lines;
    }
  }

  /** Seeding an empty chart: with no account there can be no entry, so every seeded
   *  balance of 0 is what the (absent) postings say. */
  lemma LedgerSeed(entries: seq<JournalEntry>)
    requires LedgerValid([], entries)
    ensures entries == []
    ensures LedgerValid(SeedAccounts(), entries)
  {
    EntriesNeedAccounts(entries, 0);
    SeedCodesUnique();
    SeedAccountsFresh();
    SignedTotalZero(SeedAccounts());
  }

  /** A new account with a fresh code, balance 0 and active keeps the ledger valid. */
  lemma LedgerAddAccount(accounts: seq<Account>, entries: seq<JournalEntry>, a: Account)
    requires LedgerValid(accounts, entries)
    requires !CodeTaken(accounts, a.code) && a.balance == 0.0 && a.active
    ensures LedgerValid(accounts + [a], entries)
  {
    var n := |accounts|;
    var grown := accounts + [a];
    forall e, l | e in entries && l in e.lines ensures l.account != n + 1 {
      assert WellFormedEntry(e, n);
    }
    EffectOfUnnamed(entries, n + 1, a.kind);
    SignedTotalAppend(accounts, a);
    forall i, j | 0 <= i < j < |grown| ensures grown[i].code != grown[j].code {
      if j == n {
        assert grown[i] == accounts[i];
      }
    }
    forall e | e in entries ensures WellFormedEntry(e, n + 1) {
      assert WellFormedEntry(e, n);
    }
  }

  /** Adding an unposted well-formed entry changes no balance and keeps the ledger valid. */
  lemma LedgerAddEntry(accounts: seq<Account>, entries: seq<JournalEntry>, e: JournalEntry)
    requires LedgerValid(accounts, entries)
    requires WellFormedEntry(e, |accounts|) && !e.posted
    ensures LedgerValid(accounts, entries + [e])
  {
    forall k | 0 <= k < |accounts|
      ensures accounts[k].balance == PostedEffect(entries + [e], k + 1, accounts[k].kind)
    {
      AppendUnposted(entries, e, k + 1, accounts[k].kind);
    }
    AppendUnposted(entries, e, 0, Asset);
  }

  /** Posting entry `x` (applying its lines, then setting the flag) keeps the ledger valid. */
  lemma LedgerPost(accounts: seq<Account>, entries: seq<JournalEntry>, x: nat)
    requires LedgerValid(accounts, entries)
    requires x < |entries| && !entries[x].posted
    ensures LedgerValid(ApplyLines(accounts, entries[x].lines), entries[x := entries[x].(posted := true)])
  {
    var e := entries[x];
    var posted := entries[x := e.(posted := true)];
    var after := ApplyLines(accounts, e.lines);
    assert e in entries;
    ApplyLinesEffect(accounts, e.lines);
    forall k | 0 <= k < |accounts|
      ensures after[k].balance == PostedEffect(posted, k + 1, after[k].kind)
    {
      PostFlipEffect(entries, x, k + 1, accounts[k].kind);
    }
    ApplyLinesSignedTotal(accounts, e.lines);
    PostFlipTotals(entries, x);
    forall f | f in posted ensures WellFormedEntry(f, |accounts|) {
      var i :| 0 <= i < |posted| && posted[i] == f;
      if i != x {
        assert f == entries[i];
      }
    }
  }
}
