/**
 * Sequential human-readable numbers `PREFIX-NNNN` (sales orders, invoices,
 * purchase orders, employees): the suffix of the most recent number is parsed,
 * incremented and printed again zero-padded to at least four digits.
 */
module Numbering {
  import opened Wrappers

  predicate IsDigit(c: char) {
    '0' <= c <= '9'
  }

  predicate AllDigits(s: string) {
    forall i :: 0 <= i < |s| ==> IsDigit(s[i])
  }

  function DigitChar(d: nat): (c: char)
    requires d < 10
    ensures IsDigit(c) && c as int - '0' as int == d
  {
    ('0' as int + d) as char
  }

  /** Decimal value of a digit string (leading zeros allowed). */
  function Value(s: string): nat
    requires AllDigits(s)
  {
    if s == [] then 0 else Value(s[..|s| - 1]) * 10 + (s[|s| - 1] as int - '0' as int)
  }

  /** Decimal digits of `n` without leading zeros, as Python's `str(n)`. */
  function Digits(n: nat): (s: string)
    ensures |s| >= 1 && AllDigits(s)
    ensures Value(s) == n
  {
    if n < 10 then
      [DigitChar(n)]
    else
      var s := Digits(n / 10) + [DigitChar(n % 10)];
      assert s[..|s| - 1] == Digits(n / 10);
      s
  }

  /** Left-pads with '0' up to `width` characters, as the `0N` format spec. */
  function ZeroPad(s: string, width: nat): (r: string)
    ensures |r| == if |s| >= width then |s| else width
    decreases width - |s|
  {
    if |s| >= width then s else ZeroPad(['0'] + s, width)
  }

  /** `f"{prefix}-{n:04d}"`. */
  function Format(prefix: string, n: nat): string {
    prefix + "-" + ZeroPad(Digits(n), 4)
  }

  /** The text up to the first '-' (or to the end). */
  function UpToDash(s: string): string {
    if s == [] || s[0] == '-' then [] else [s[0]] + UpToDash(s[1..])
  }

  /** `s.split("-")[1]`: the field after the first '-', or None when there is no '-'. */
  function SecondField(s: string): Option<string> {
    if s == [] then None
    else if s[0] == '-' then Some(UpToDash(s[1..]))
    else SecondField(s[1..])
  }

  /** `int(t)` for a plain decimal digit string; anything else raises, here None. */
  function ParseNat(t: string): Option<nat> {
    if t != [] && AllDigits(t) then Some(Value(t)) else None
  }

  /** The numeric suffix of a number such as `SO-0042`. */
  function Suffix(s: string): Option<nat> {
    match SecondField(s)
    case None => None
    case Some(t) => ParseNat(t)
  }

  /**
   * The number that follows the most recent one (`last`), or the first number
   * `PREFIX-0001` when the table is empty. None stands for the exception the
   * source raises when the last number has no numeric second field.
   */
  function Next(prefix: string, last: Option<string>): Option<string> {
    match last
    case None => Some(Format(prefix, 1))
    case Some(s) =>
      match Suffix(s)
      case None => None
      case Some(n) => Some(Format(prefix, n + 1))
  }

  lemma {:induction false} ValueLeadingZero(s: string)
    requires AllDigits(s)
    ensures AllDigits(['0'] + s) && Value(['0'] + s) == Value(s)
  {
    if s != [] {
      var t := ['0'] + s;
      assert t[..|t| - 1] == ['0'] + s[..|s| - 1];
      ValueLeadingZero(s[..|s| - 1]);
    }
  }

  lemma {:induction false} ZeroPadValue(s: string, width: nat)
    requires AllDigits(s)
    ensures AllDigits(ZeroPad(s, width)) && Value(ZeroPad(s, width)) == Value(s)
    decreases width - |s|
  {
    if |s| < width {
      ValueLeadingZero(s);
      ZeroPadValue(['0'] + s, width);
    }
  }

  lemma {:induction false} UpToDashNoDash(s: string)
    requires AllDigits(s)
    ensures UpToDash(s) == s
  {
    if s != [] {
      UpToDashNoDash(s[1..]);
    }
  }

  lemma {:induction false} SecondFieldAfterPrefix(prefix: string, rest: string)
    requires forall i :: 0 <= i < |prefix| ==> prefix[i] != '-'
    ensures SecondField(prefix + "-" + rest) == Some(UpToDash(rest))
  {
    if prefix == [] {
      assert prefix + "-" + rest == ['-'] + rest;
    } else {
      assert (prefix + "-" + rest)[1..] == prefix[1..] + "-" + rest;
      SecondFieldAfterPrefix(prefix[1..], rest);
    }
  }

  /** Round trip: the suffix of a formatted number is the number itself. */
  lemma SuffixOfFormat(prefix: string, n: nat)
    requires forall i :: 0 <= i < |prefix| ==> prefix[i] != '-'
    ensures Suffix(Format(prefix, n)) == Some(n)
  {
    var padded := ZeroPad(Digits(n), 4);
    ZeroPadValue(Digits(n), 4);
    UpToDashNoDash(padded);
    SecondFieldAfterPrefix(prefix, padded);
  }

  /** The number after `PREFIX-n` is `PREFIX-(n+1)`, whatever prefix the last one had. */
  lemma NextOfFormat(prefix: string, lastPrefix: string, n: nat)
    requires forall i :: 0 <= i < |lastPrefix| ==> lastPrefix[i] != '-'
    ensures Next(prefix, Some(Format(lastPrefix, n))) == Some(Format(prefix, n + 1))
  {
    SuffixOfFormat(lastPrefix, n);
  }

  /** Distinct sequence values give distinct numbers, so the unique column never clashes. */
  lemma FormatInjective(prefix: string, m: nat, n: nat)
    requires forall i :: 0 <= i < |prefix| ==> prefix[i] != '-'
    requires Format(prefix, m) == Format(prefix, n)
    ensures m == n
  {
    SuffixOfFormat(prefix, m);
    SuffixOfFormat(prefix, n);
  }

  /** The number the next row of a table gets: from its highest-id row, or the first one. */
  function NextNumber(prefix: string, numbers: seq<string>): Option<string> {
    Next(prefix, if numbers == [] then None else Some(numbers[|numbers| - 1]))
  }

  /** A table's number column: the number of each row, in row order. */
  function NumberColumn<T>(rows: seq<T>, number: T -> string): (r: seq<string>)
    ensures |r| == |rows| && forall i :: 0 <= i < |rows| ==> r[i] == number(rows[i])
  {
    if rows == [] then [] else NumberColumn(rows[..|rows| - 1], number) + [number(rows[|rows| - 1])]
  }

  /** Row `i` of the table carries number `i + 1`. */
  predicate Sequential(prefix: string, numbers: seq<string>) {
    forall i :: 0 <= i < |numbers| ==> numbers[i] == Format(prefix, i + 1)
  }

  predicate NoDash(prefix: string) {
    forall i :: 0 <= i < |prefix| ==> prefix[i] != '-'
  }

  /** Appending the number that belongs to the next row keeps a table sequential. */
  lemma SequentialAppend(prefix: string, numbers: seq<string>, n: nat, x: string)
    requires Sequential(prefix, numbers) && n == |numbers| && x == Format(prefix, n + 1)
    ensures Sequential(prefix, numbers + [x])
  {
    var grown := numbers + [x];
    forall i | 0 <= i < |grown| ensures grown[i] == Format(prefix, i + 1) {
      if i < |numbers| {
        assert grown[i] == numbers[i];
      }
    }
  }

  /** None of the four prefixes the ERP numbers its rows with contains a '-'. */
  lemma PrefixesNoDash()
    ensures NoDash("SO") && NoDash("INV") && NoDash("PO") && NoDash("EMP")
  {
  }

  /** On a sequentially numbered table the next number is the row count plus one, and
   *  appending it keeps the table sequential. */
  lemma SequentialNext(prefix: string, numbers: seq<string>, n: nat)
    requires NoDash(prefix) && Sequential(prefix, numbers) && n == |numbers|
    ensures NextNumber(prefix, numbers) == Some(Format(prefix, n + 1))
    ensures Sequential(prefix, numbers + [Format(prefix, n + 1)])
  {
    SequentialAppend(prefix, numbers, n, Format(prefix, n + 1));
    if numbers != [] {
      NextOfFormat(prefix, prefix, |numbers|);
    }
  }

  /** A sequentially numbered table never repeats a number. */
  lemma SequentialDistinct(prefix: string, numbers: seq<string>, i: nat, j: nat)
    requires NoDash(prefix) && Sequential(prefix, numbers)
    requires i < |numbers| && j < |numbers| && i != j
    ensures numbers[i] != numbers[j]
  {
    if numbers[i] == numbers[j] {
      FormatInjective(prefix, i + 1, j + 1);
    }
  }

  /** `n` printed with `{n:04d}` for one-digit `n`. */
  lemma PadOneDigit(n: nat)
    requires n < 10
    ensures ZeroPad(Digits(n), 4) == ['0', '0', '0', DigitChar(n)]
  {
    var c := DigitChar(n);
    assert Digits(n) == [c];
    assert ['0'] + [c] == ['0', c];
    assert ['0'] + ['0', c] == ['0', '0', c];
    assert ['0'] + ['0', '0', c] == ['0', '0', '0', c];
    assert ZeroPad(['0', '0', '0', c], 4) == ['0', '0', '0', c];
    assert ZeroPad(['0', '0', c], 4) == ZeroPad(['0', '0', '0', c], 4);
    assert ZeroPad(['0', c], 4) == ZeroPad(['0', '0', c], 4);
    assert ZeroPad([c], 4) == ZeroPad(['0', c], 4);
  }

  /** A one-digit number is printed as `PREFIX-000d`. */
  lemma FormatOneDigit(prefix: string, n: nat)
    requires n < 10
    ensures Format(prefix, n) == prefix + "-" + ['0', '0', '0', DigitChar(n)]
  {
    PadOneDigit(n);
  }

  /** An empty table starts at `SO-0001`. */
  lemma FirstNumber()
    ensures Next("SO", None) == Some("SO-0001")
  {
    FormatOneDigit("SO", 1);
    assert "SO" + "-" + ['0', '0', '0', DigitChar(1)] == "SO-0001";
  }

  /** After `SO-0001` comes `SO-0002`. */
  lemma SecondNumber()
    ensures Next("SO", Some("SO-0001")) == Some("SO-0002")
  {
    FormatOneDigit("SO", 1);
    assert "SO" + "-" + ['0', '0', '0', DigitChar(1)] == "SO-0001";
    NextOfFormat("SO", "SO", 1);
    FormatOneDigit("SO", 2);
    assert "SO" + "-" + ['0', '0', '0', DigitChar(2)] == "SO-0002";
  }

  lemma Digits9999()
    ensures Digits(9999) == "9999"
  {
    assert Digits(9) == "9";
    assert Digits(99) == Digits(9) + "9" == "99";
    assert Digits(999) == Digits(99) + "9" == "999";
    assert Digits(9999) == Digits(999) + "9" == "9999";
  }

  lemma Digits10000()
    ensures Digits(10000) == "10000"
  {
    assert Digits(1) == "1";
    assert Digits(10) == Digits(1) + "0" == "10";
    assert Digits(100) == Digits(10) + "0" == "100";
    assert Digits(1000) == Digits(100) + "0" == "1000";
    assert Digits(10000) == Digits(1000) + "0" == "10000";
  }

  /** The width grows past four digits: after `PO-9999` comes `PO-10000`. */
  lemma WidthGrows()
    ensures Next("PO", Some("PO-9999")) == Some("PO-10000")
  {
    Digits9999();
    Digits10000();
    assert Format("PO", 9999) == "PO" + "-" + "9999" == "PO-9999";
    assert Format("PO", 10000) == "PO" + "-" + "10000" == "PO-10000";
    NextOfFormat("PO", "PO", 9999);
  }
}
