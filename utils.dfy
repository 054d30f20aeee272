// Shared numeric and text helpers of the trading CLI: JavaScript's
// Math.round, rounding to tenths and to cents, Celsius/Fahrenheit
// conversion, signed number formatting, aligned text tables, inclusive date
// ranges and the date argument of the command line.

module Utils {
  import opened Prelude
  import opened Text

  // ---------------------------------------------------------------- rounding

  /** `Math.round`: the nearest integer, halves rounded up. */
  function Round(x: real): (r: int)
    ensures x - 0.5 < r as real <= x + 0.5
  {
    (x + 0.5).Floor
  }

  /** The integer `Round` picks is the only one in (x - 1/2, x + 1/2]. */
  lemma RoundUnique(x: real, k: int)
    requires x - 0.5 < k as real <= x + 0.5
    ensures Round(x) == k
  {
  }

  lemma RoundMonotone(x: real, y: real)
    requires x <= y
    ensures Round(x) <= Round(y)
  {
  }

  /** A real that is a whole number of hundredths. */
  predicate WholeCents(x: real)
  {
    (x * 100.0).Floor as real == x * 100.0
  }

  /** A real that is a whole number of tenths. */
  predicate WholeTenths(x: real)
  {
    (x * 10.0).Floor as real == x * 10.0
  }

  /** `round2`: Math.round(n * 100) / 100, the nearest cent. */
  function Round2(x: real): (r: real)
    ensures WholeCents(r)
    ensures -0.005 < r - x <= 0.005
  {
    var k := Round(x * 100.0);
    assert (k as real / 100.0) * 100.0 == k as real;
    k as real / 100.0
  }

  /** `round1`: Math.round(n * 10) / 10, the nearest tenth. */
  function Round1(x: real): (r: real)
    ensures WholeTenths(r)
    ensures -0.05 < r - x <= 0.05
  {
    var k := Round(x * 10.0);
    assert (k as real / 10.0) * 10.0 == k as real;
    k as real / 10.0
  }

  /** Rounding an amount that is already whole cents leaves it unchanged. */
  lemma Round2Exact(x: real)
    requires WholeCents(x)
    ensures Round2(x) == x
  {
    var k := (x * 100.0).Floor;
    RoundUnique(x * 100.0, k);
  }

  lemma Round2Idempotent(x: real)
    ensures Round2(Round2(x)) == Round2(x)
  {
    Round2Exact(Round2(x));
  }

  lemma Round1Exact(x: real)
    requires WholeTenths(x)
    ensures Round1(x) == x
  {
    var k := (x * 10.0).Floor;
    RoundUnique(x * 10.0, k);
  }

  lemma Round2Monotone(x: real, y: real)
    requires x <= y
    ensures Round2(x) <= Round2(y)
  {
    RoundMonotone(x * 100.0, y * 100.0);
  }

  lemma Round1Monotone(x: real, y: real)
    requires x <= y
    ensures Round1(x) <= Round1(y)
  {
    RoundMonotone(x * 10.0, y * 10.0);
  }

  /** Rounding to the cent or to the tenth keeps a non-negative value non-negative. */
  lemma RoundedNonNegative(x: real)
    requires 0.0 <= x
    ensures 0.0 <= Round2(x) && 0.0 <= Round1(x)
  {
    Round2Monotone(0.0, x);
    Round2Exact(0.0);
    Round1Monotone(0.0, x);
    Round1Exact(0.0);
  }

  /** Sums and differences of whole-cent amounts are whole cents. */
  lemma WholeCentsAdd(x: real, y: real)
    requires WholeCents(x) && WholeCents(y)
    ensures WholeCents(x + y) && WholeCents(x - y)
  {
    var a := (x * 100.0).Floor;
    var b := (y * 100.0).Floor;
    assert x * 100.0 == a as real && y * 100.0 == b as real;
    assert (x + y) * 100.0 == (a + b) as real;
    assert (x - y) * 100.0 == (a - b) as real;
    assert ((a + b) as real).Floor == a + b;
    assert ((a - b) as real).Floor == a - b;
  }

  lemma WholeCentsInt(n: int)
    ensures WholeCents(n as real)
  {
    assert (n as real) * 100.0 == (n * 100) as real;
  }

  // ------------------------------------------------------------- conversion

  function CToF(c: real): real
  {
    c * 9.0 / 5.0 + 32.0
  }

  /** `fToC` is the inverse of `cToF`. */
  function FToC(f: real): (c: real)
    ensures CToF(c) == f
  {
    (f - 32.0) * 5.0 / 9.0
  }

  lemma CToFInverse(c: real)
    ensures FToC(CToF(c)) == c
  {
  }

  // ------------------------------------------------------------- formatting

  /**
   * `signed(n)`: `fixed` is n.toFixed(decimals), which never starts with '+';
   * the result carries a leading '+' exactly when n is not negative, and
   * always ends with the fixed-point text.
   */
  function Signed(n: real, fixed: string): (r: string)
    requires fixed != [] && fixed[0] != '+'
    ensures |r| >= |fixed| && r[|r| - |fixed|..] == fixed
    ensures r[0] == '+' <==> n >= 0.0
  {
    if n >= 0.0 then "+" + fixed else fixed
  }

  function Spaces(n: nat): (r: string)
    ensures |r| == n && forall i :: 0 <= i < n ==> r[i] == ' '
  {
    if n == 0 then [] else Spaces(n - 1) + " "
  }

  /** '─'.repeat(n) */
  function Rule(n: nat): (r: string)
    ensures |r| == n
  {
    if n == 0 then [] else Rule(n - 1) + "─"
  }

  /** `padEnd`: the text followed by spaces up to the width. */
  function PadEnd(s: string, width: nat): (r: string)
    ensures |r| == MaxI(|s|, width)
    ensures r[..|s|] == s && forall i :: |s| <= i < |r| ==> r[i] == ' '
  {
    if |s| >= width then s else s + Spaces(width - |s|)
  }

  /** `padStart`: spaces up to the width, then the text. */
  function PadStart(s: string, width: nat): (r: string)
    ensures |r| == MaxI(|s|, width)
    ensures r[|r| - |s|..] == s && forall i :: 0 <= i < |r| - |s| ==> r[i] == ' '
  {
    if |s| >= width then s else Spaces(width - |s|) + s
  }

  datatype Column = Column(title: string, width: nat, alignRight: bool)

  /** One line of a table: each value padded to its column, joined by single spaces. */
  function Cells(cols: seq<Column>, vals: seq<string>, header: bool): string
    requires |vals| == |cols|
  {
    if |cols| == 0 then []
    else
      var c := cols[0];
      var cell := if !header && c.alignRight then PadStart(vals[0], c.width) else PadEnd(vals[0], c.width);
      if |cols| == 1 then cell else cell + " " + Cells(cols[1..], vals[1..], header)
  }

  function Labels(cols: seq<Column>): (r: seq<string>)
    ensures |r| == |cols| && forall i :: 0 <= i < |cols| ==> r[i] == cols[i].title
  {
    if cols == [] then [] else [cols[0].title] + Labels(cols[1..])
  }

  function RuleLine(cols: seq<Column>): string
  {
    if |cols| == 0 then []
    else if |cols| == 1 then Rule(cols[0].width)
    else Rule(cols[0].width) + " " + RuleLine(cols[1..])
  }

  /** The lines of a non-empty table before indentation: header, rule, one per row. */
  function TableLines(cols: seq<Column>, rows: seq<seq<string>>): (r: seq<string>)
    requires forall i :: 0 <= i < |rows| ==> |rows[i]| == |cols|
    ensures |r| == |rows| + 2
  {
    if rows == [] then [Cells(cols, Labels(cols), true), RuleLine(cols)]
    else TableLines(cols, rows[..|rows| - 1]) + [Cells(cols, rows[|rows| - 1], false)]
  }

  /** Each line indented by two spaces and the lines joined with newlines. */
  function IndentJoin(lines: seq<string>): string
  {
    if lines == [] then []
    else if |lines| == 1 then "  " + lines[0]
    else IndentJoin(lines[..|lines| - 1]) + "\n" + "  " + lines[|lines| - 1]
  }

  /** The width every line has when all values fit their columns. */
  function TableWidth(cols: seq<Column>): nat
  {
    if |cols| == 0 then 0
    else if |cols| == 1 then cols[0].width
    else cols[0].width + 1 + TableWidth(cols[1..])
  }

  predicate Fits(cols: seq<Column>, vals: seq<string>)
    requires |vals| == |cols|
  {
    forall j :: 0 <= j < |cols| ==> |vals[j]| <= cols[j].width
  }

  lemma {:induction false} CellsWidth(cols: seq<Column>, vals: seq<string>, header: bool)
    requires |vals| == |cols| && Fits(cols, vals)
    ensures |Cells(cols, vals, header)| == TableWidth(cols)
  {
    if |cols| > 1 {
      assert Fits(cols[1..], vals[1..]) by {
        forall j | 0 <= j < |cols| - 1 ensures |vals[1..][j]| <= cols[1..][j].width {
          assert vals[1..][j] == vals[j + 1] && cols[1..][j] == cols[j + 1];
        }
      }
      CellsWidth(cols[1..], vals[1..], header);
    }
  }

  lemma {:induction false} RuleLineWidth(cols: seq<Column>)
    ensures |RuleLine(cols)| == TableWidth(cols)
  {
    if |cols| > 1 {
      RuleLineWidth(cols[1..]);
    }
  }

  /**
   * The table is aligned: when every label and every value fits its column,
   * all lines (header, rule and rows) have the same width.
   */
  lemma {:induction false} TableAligned(cols: seq<Column>, rows: seq<seq<string>>)
    requires forall i :: 0 <= i < |rows| ==> |rows[i]| == |cols|
    requires Fits(cols, Labels(cols))
    requires forall i :: 0 <= i < |rows| ==> Fits(cols, rows[i])
    ensures forall k :: 0 <= k < |rows| + 2 ==> |TableLines(cols, rows)[k]| == TableWidth(cols)
  {
    if rows == [] {
      CellsWidth(cols, Labels(cols), true);
      RuleLineWidth(cols);
    } else {
      TableAligned(cols, rows[..|rows| - 1]);
      CellsWidth(cols, rows[|rows| - 1], false);
    }
  }

  /**
   * `table(rows, columns)`: "  (no data)" without rows, otherwise the header,
   * the rule and one line per row, each indented and joined by newlines.
   * `rows[i][j]` is the text of column j in row i.
   */
  method Table(rows: seq<seq<string>>, cols: seq<Column>) returns (out: string)
    requires forall i :: 0 <= i < |rows| ==> |rows[i]| == |cols|
    ensures rows == [] ==> out == "  (no data)"
    ensures rows != [] ==> out == IndentJoin(TableLines(cols, rows))
  {
    if |rows| == 0 {
      return "  (no data)";
    }
    var lines := [Cells(cols, Labels(cols), true), RuleLine(cols)];
    var i := 0;
    while i < |rows|
      invariant 0 <= i <= |rows|
      invariant lines == TableLines(cols, rows[..i])
    {
      assert rows[..i + 1][..i] == rows[..i];
      lines := lines + [Cells(cols, rows[i], false)];
      i := i + 1;
    }
    assert rows[..|rows|] == rows;
    out := IndentJoin(lines);
  }

  // ------------------------------------------------------------------ dates

  datatype CivilDate = CivilDate(year: int, month: int, day: int)

  predicate LeapYear(y: int)
  {
    (y % 4 == 0 && y % 100 != 0) || y % 400 == 0
  }

  function DaysInMonth(y: int, m: int): (r: int)
    ensures 28 <= r <= 31
  {
    if m == 2 then (if LeapYear(y) then 29 else 28)
    else if m == 4 || m == 6 || m == 9 || m == 11 then 30
    else 31
  }

  predicate ValidDate(d: CivilDate)
  {
    1 <= d.month <= 12 && 1 <= d.day <= DaysInMonth(d.year, d.month)
  }

  /** A position on the calendar line; it orders valid dates chronologically. */
  function Ord(d: CivilDate): int
  {
    d.year * 512 + d.month * 32 + d.day
  }

  /** `d.setDate(d.getDate() + 1)` */
  function NextDay(d: CivilDate): (r: CivilDate)
    requires ValidDate(d)
    ensures ValidDate(r) && Ord(r) > Ord(d)
  {
    if d.day < DaysInMonth(d.year, d.month) then CivilDate(d.year, d.month, d.day + 1)
    else if d.month < 12 then CivilDate(d.year, d.month + 1, 1)
    else CivilDate(d.year + 1, 1, 1)
  }

  lemma OrdInjective(a: CivilDate, b: CivilDate)
    requires ValidDate(a) && ValidDate(b) && Ord(a) == Ord(b)
    ensures a == b
  {
  }

  /** `Ord` compares valid dates by year, then month, then day. */
  lemma OrdLexicographic(a: CivilDate, b: CivilDate)
    requires ValidDate(a) && ValidDate(b)
    ensures Ord(a) < Ord(b) <==>
      a.year < b.year || (a.year == b.year && (a.month < b.month || (a.month == b.month && a.day < b.day)))
  {
    assert 33 <= a.month * 32 + a.day <= 415 && 33 <= b.month * 32 + b.day <= 415;
  }

  /** No valid date lies strictly between a date and the next one. */
  lemma NextDayIsSuccessor(a: CivilDate, b: CivilDate)
    requires ValidDate(a) && ValidDate(b) && Ord(a) < Ord(b)
    ensures Ord(NextDay(a)) <= Ord(b)
  {
    OrdLexicographic(a, b);
    var n := NextDay(a);
    OrdLexicographic(n, b);
    if a.year == b.year && a.month == b.month {
      assert a.day < DaysInMonth(a.year, a.month);
    }
  }

  /** `days` holds every valid date from `start` up to, not including, `d`. */
  ghost predicate Covers(start: CivilDate, d: CivilDate, days: seq<CivilDate>)
  {
    forall x {:trigger x in days} :: ValidDate(x) && Ord(start) <= Ord(x) < Ord(d) ==> x in days
  }

  /** Adding `d` to a list holding every date from `start` up to before `d`. */
  lemma CoverStep(start: CivilDate, d: CivilDate, days: seq<CivilDate>)
    requires ValidDate(d) && Covers(start, d, days)
    ensures Covers(start, NextDay(d), days + [d])
  {
    forall x | ValidDate(x) && Ord(start) <= Ord(x) < Ord(NextDay(d))
      ensures x in days + [d]
    {
      if Ord(x) == Ord(d) {
        OrdInjective(x, d);
      } else if Ord(x) > Ord(d) {
        NextDayIsSuccessor(d, x);
      }
    }
  }

  /**
   * `dateRange(start, end)`: every date from start to end, both included, in
   * calendar order, each the day after the previous one; nothing when start
   * is after end.
   */
  method DateRange(start: CivilDate, end: CivilDate) returns (days: seq<CivilDate>)
    requires ValidDate(start) && ValidDate(end)
    ensures forall i :: 0 <= i < |days| ==> ValidDate(days[i]) && Ord(start) <= Ord(days[i]) <= Ord(end)
    ensures days == [] <==> Ord(start) > Ord(end)
    ensures days != [] ==> days[0] == start && days[|days| - 1] == end
    ensures forall i :: 0 <= i < |days| - 1 ==> days[i + 1] == NextDay(days[i])
    ensures forall x :: ValidDate(x) && Ord(start) <= Ord(x) <= Ord(end) ==> x in days
  {
    days := [];
    var d := start;
    while Ord(d) <= Ord(end)
      invariant ValidDate(d) && Ord(start) <= Ord(d)
      invariant forall i :: 0 <= i < |days| ==> ValidDate(days[i]) && Ord(start) <= Ord(days[i]) <= Ord(end)
      invariant days == [] <==> d == start
      invariant days != [] ==> days[0] == start && d == NextDay(days[|days| - 1])
      invariant forall i :: 0 <= i < |days| - 1 ==> days[i + 1] == NextDay(days[i])
      invariant Covers(start, d, days)
      invariant days != [] ==> Ord(days[|days| - 1]) <= Ord(end)
      decreases Ord(end) - Ord(d)
    {
      CoverStep(start, d, days);
      days := days + [d];
      d := NextDay(d);
    }
    if days != [] {
      var last := days[|days| - 1];
      if Ord(last) < Ord(end) {
        NextDayIsSuccessor(last, end);
      }
      OrdInjective(last, end);
    }
  }

  /** Two decimal digits, zero-padded: `String(n).padStart(2, '0')`. */
  function Digits2(n: nat): (r: string)
    requires n < 100
    ensures |r| == 2 && AllDigits(r) && DigitsValue(r) == n
  {
    var r := [DigitChar(n / 10), DigitChar(n % 10)];
    assert r[..1] == [r[0]] && r[..1][..0] == [];
    assert DigitsValue(r[..1]) == n / 10;
    assert DigitsValue(r) == DigitsValue(r[..1]) * 10 + n % 10;
    r
  }

  /** Writing two digits after two more multiplies the first pair's value by 100. */
  lemma DigitsValueFour(a: string, b: string)
    requires |a| == 2 && |b| == 2 && AllDigits(a) && AllDigits(b)
    ensures AllDigits(a + b) && DigitsValue(a + b) == DigitsValue(a) * 100 + DigitsValue(b)
  {
    var s := a + b;
    assert s[..3] == a + [b[0]] && s[..3][..2] == a && s[3] == b[1] && s[2] == b[0];
    assert b[..1] == [b[0]] && b[..1][..0] == [];
    assert DigitsValue(b[..1]) == DigitVal(b[0]);
    assert DigitsValue(b) == DigitVal(b[0]) * 10 + DigitVal(b[1]);
    assert DigitsValue(s[..3]) == DigitsValue(a) * 10 + DigitVal(b[0]);
    assert DigitsValue(s) == DigitsValue(s[..3]) * 10 + DigitVal(b[1]);
  }

  /**
   * `toISOString().slice(0, 10)` of a date with a four-digit year: the
   * YYYY-MM-DD shape, whose three digit groups read back as the year, the
   * month and the day.
   */
  function FormatDate(d: CivilDate): (r: string)
    requires ValidDate(d) && 0 <= d.year <= 9999
    ensures IsDateLike(r)
    ensures DigitsValue(r[..4]) == d.year && DigitsValue(r[5..7]) == d.month && DigitsValue(r[8..]) == d.day
  {
    var yy := Digits2(d.year / 100) + Digits2(d.year % 100);
    var s := yy + "-" + Digits2(d.month) + "-" + Digits2(d.day);
    DigitsValueFour(Digits2(d.year / 100), Digits2(d.year % 100));
    assert s[..4] == yy && s[5..7] == Digits2(d.month) && s[8..] == Digits2(d.day);
    s
  }

  /** `/^\d{4}-\d{2}-\d{2}$/` */
  predicate IsDateLike(s: string)
  {
    |s| == 10 && s[4] == '-' && s[7] == '-'
    && IsDigit(s[0]) && IsDigit(s[1]) && IsDigit(s[2]) && IsDigit(s[3])
    && IsDigit(s[5]) && IsDigit(s[6]) && IsDigit(s[8]) && IsDigit(s[9])
  }

  /**
   * `parseDateArg(args)`: the first argument shaped like YYYY-MM-DD, or
   * today's date (passed in, the clock is outside the model) when none is.
   */
  function ParseDateArg(args: seq<string>, today: string): (r: string)
    ensures (exists i :: 0 <= i < |args| && IsDateLike(args[i])) ==>
      exists i :: 0 <= i < |args| && r == args[i] && IsDateLike(r)
        && forall j :: 0 <= j < i ==> !IsDateLike(args[j])
    ensures (forall i :: 0 <= i < |args| ==> !IsDateLike(args[i])) ==> r == today
  {
    if args == [] then today
    else if IsDateLike(args[0]) then args[0]
    else
      var r := ParseDateArg(args[1..], today);
      assert forall i :: 1 <= i < |args| ==> args[i] == args[1..][i - 1];
      assert (exists i :: 0 <= i < |args| && IsDateLike(args[i])) ==>
        exists i :: 0 <= i < |args| && r == args[i] && IsDateLike(r)
          && forall j :: 0 <= j < i ==> !IsDateLike(args[j])
      by {
        if exists i :: 0 <= i < |args| && IsDateLike(args[i]) {
          var i :| 0 <= i < |args| && IsDateLike(args[i]);
          assert IsDateLike(args[1..][i - 1]);
          var k :| 0 <= k < |args[1..]| && r == args[1..][k] && IsDateLike(r)
            && forall j :: 0 <= j < k ==> !IsDateLike(args[1..][j]);
          assert r == args[k + 1];
        }
      }
      r
  }

  // ------------------------------------------------------------ real arithmetic helpers

  lemma ProductNonNegative(a: real, b: real)
    requires 0.0 <= a && 0.0 <= b
    ensures 0.0 <= a * b
  {
  }

  lemma SquareAtMostOne(e: real)
    requires -1.0 <= e <= 1.0
    ensures e * e <= 1.0
  {
    ProductNonNegative(1.0 - e, 1.0 + e);
    assert 1.0 - e * e == (1.0 - e) * (1.0 + e);
  }

  lemma QuotientMonotone(a: real, b: real, n: real)
    requires a <= b && n > 0.0
    ensures a / n <= b / n
  {
    ProductNonNegative(b - a, 1.0 / n);
    assert b / n - a / n == (b - a) * (1.0 / n);
  }
}
