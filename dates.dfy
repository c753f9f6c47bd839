/**
 * Calendar dates as the invoice code reads and writes them:
 * datetime.strptime(text, "%Y-%m-%d") and strftime with "%Y-%m-%d" or "%Y%m%d".
 */
module Dates {
  import opened Wrappers
  import opened Digits

  datatype Date = Date(year: int, month: int, day: int)

  predicate IsLeapYear(y: int)
  {
    y % 4 == 0 && (y % 100 != 0 || y % 400 == 0)
  }

  function DaysInMonth(y: int, m: int): (n: int)
    requires 1 <= m <= 12
    ensures m == 2 ==> (n == 29 <==> IsLeapYear(y)) && (n == 28 <==> !IsLeapYear(y))
    ensures m != 2 ==> (n == 30 <==> m in {4, 6, 9, 11}) && (n == 31 <==> m !in {4, 6, 9, 11})
  {
    if m == 2 then (if IsLeapYear(y) then 29 else 28)
    else if m == 4 || m == 6 || m == 9 || m == 11 then 30
    else 31
  }

  /** What the datetime constructor accepts: years 1 to 9999 and a day that exists in its month. */
  predicate ValidDate(d: Date)
  {
    1 <= d.year <= 9999 && 1 <= d.month <= 12 && 1 <= d.day <= DaysInMonth(d.year, d.month)
  }

  /** 29 February exists exactly in leap years: every fourth year, except centuries not divisible by 400. */
  lemma LeapDay(y: int)
    requires 1 <= y <= 9999
    ensures ValidDate(Date(y, 2, 29)) <==> IsLeapYear(y)
    ensures ValidDate(Date(y, 2, 28))
    ensures !ValidDate(Date(y, 2, 30))
  {
  }

  /** The Gregorian century rule on sample years. */
  lemma CenturyRule()
    ensures IsLeapYear(2000) && IsLeapYear(2024)
    ensures !IsLeapYear(1900) && !IsLeapYear(2023)
  {
  }

  /** The last `width` decimal digits of n, zero-padded: strftime's %Y, %m and %d. */
  function Fixed(n: nat, width: nat): (s: string)
    ensures |s| == width && AllDigits(s)
  {
    if width == 0 then [] else Fixed(n / 10, width - 1) + [DigitChar(n % 10)]
  }

  lemma {:induction false} FixedValue(n: nat, width: nat)
    requires n < Pow10(width)
    ensures DigitsToNat(Fixed(n, width)) == n
  {
    if width > 0 {
      var s := Fixed(n, width);
      assert s[..|s| - 1] == Fixed(n / 10, width - 1);
      FixedValue(n / 10, width - 1);
    }
  }

  lemma {:induction false} FixedOfDigits(t: string)
    requires AllDigits(t)
    ensures Fixed(DigitsToNat(t), |t|) == t
  {
    if t != [] {
      var init := t[..|t| - 1];
      FixedOfDigits(init);
      var n := DigitsToNat(t);
      assert n / 10 == DigitsToNat(init) && n % 10 == DigitValue(t[|t| - 1]);
      assert t == init + [t[|t| - 1]];
    }
  }

  /** The digit runs the %m directive accepts, in the order its alternatives 1[0-2] | 0[1-9] | [1-9] are tried. */
  function MonthWidths(s: string): seq<nat>
  {
    (if |s| >= 2 && s[0] == '1' && '0' <= s[1] <= '2' then [2] else []) +
    (if |s| >= 2 && s[0] == '0' && '1' <= s[1] <= '9' then [2] else []) +
    (if |s| >= 1 && '1' <= s[0] <= '9' then [1] else [])
  }

  /** The first month alternative after which the literal '-' follows (the regex backtracks to find it). */
  function FirstBeforeDash(s: string, widths: seq<nat>): (w: Option<nat>)
    ensures w.Some? ==> w.value in widths && w.value < |s| && s[w.value] == '-'
  {
    if widths == [] then None
    else if widths[0] < |s| && s[widths[0]] == '-' then Some(widths[0])
    else FirstBeforeDash(s, widths[1..])
  }

  /** The width of the first %d alternative (3[01] | [12]\d | 0[1-9] | [1-9] | " "[1-9]) that matches. */
  function DayWidth(s: string): (w: Option<nat>)
    ensures w.Some? ==> 1 <= w.value <= 2 && w.value <= |s|
  {
    if |s| >= 2 && s[0] == '3' && (s[1] == '0' || s[1] == '1') then Some(2)
    else if |s| >= 2 && (s[0] == '1' || s[0] == '2') && IsDigit(s[1]) then Some(2)
    else if |s| >= 2 && s[0] == '0' && '1' <= s[1] <= '9' then Some(2)
    else if |s| >= 1 && '1' <= s[0] <= '9' then Some(1)
    else if |s| >= 2 && s[0] == ' ' && '1' <= s[1] <= '9' then Some(2)
    else None
  }

  /** int() of the matched day text, which may be a space followed by a digit. */
  function DayValue(t: string): nat
    requires 1 <= |t| <= 2
    requires AllDigits(t) || (t[0] == ' ' && |t| == 2 && IsDigit(t[1]))
  {
    if t[0] == ' ' then DigitValue(t[1]) else DigitsToNat(t)
  }

  /**
   * datetime.strptime(s, "%Y-%m-%d").date(): four digits, '-', a month, '-',
   * a day, and nothing left over; None where strptime raises ValueError.
   */
  function ParseIsoDate(s: string): (r: Option<Date>)
    ensures r.Some? ==> ValidDate(r.value)
  {
    if |s| < 5 || !AllDigits(s[..4]) || s[4] != '-' then None
    else
      var rest := s[5..];
      match FirstBeforeDash(rest, MonthWidths(rest))
      case None => None
      case Some(mw) =>
        var dayText := rest[mw + 1..];
        match DayWidth(dayText)
        case None => None
        case Some(dw) =>
          if dw != |dayText| then None
          else
            var d := Date(DigitsToNat(s[..4]), DigitsToNat(rest[..mw]), DayValue(dayText));
            if ValidDate(d) then Some(d) else None
  }

  /** strftime("%Y-%m-%d"). */
  function IsoText(d: Date): string
    requires ValidDate(d)
  {
    Fixed(d.year, 4) + "-" + Fixed(d.month, 2) + "-" + Fixed(d.day, 2)
  }

  /** strftime("%Y%m%d"): the "102" date format of the trade document. */
  function Stamp(d: Date): string
    requires ValidDate(d)
  {
    Fixed(d.year, 4) + Fixed(d.month, 2) + Fixed(d.day, 2)
  }

  /** The "102" stamp is eight digits that read back as year, month and day. */
  lemma StampDigits(d: Date)
    requires ValidDate(d)
    ensures var st := Stamp(d);
            |st| == 8 && AllDigits(st) &&
            DigitsToNat(st[..4]) == d.year && DigitsToNat(st[4..6]) == d.month && DigitsToNat(st[6..]) == d.day
  {
    var st := Stamp(d);
    assert st[..4] == Fixed(d.year, 4) && st[4..6] == Fixed(d.month, 2) && st[6..] == Fixed(d.day, 2);
    assert Pow10(2) == 100 && Pow10(4) == 10000;
    FixedValue(d.year, 4);
    FixedValue(d.month, 2);
    FixedValue(d.day, 2);
  }

  /** A two-digit month written by strftime is taken whole by %m, up to the following '-'. */
  lemma MonthOfFixed(m: int, tail: string)
    requires 1 <= m <= 12
    ensures var rest := Fixed(m, 2) + "-" + tail;
            FirstBeforeDash(rest, MonthWidths(rest)) == Some(2) && rest[..2] == Fixed(m, 2)
  {
    var f := Fixed(m, 2);
    var rest := f + "-" + tail;
    assert f[0] == DigitChar(m / 10) && f[1] == DigitChar(m % 10);
    assert rest[0] == f[0] && rest[1] == f[1] && rest[2] == '-';
    if m >= 10 {
      assert MonthWidths(rest) == [2, 1];
    } else {
      assert MonthWidths(rest) == [2];
    }
  }

  /** A two-digit day written by strftime is taken whole by %d and reads back as itself. */
  lemma DayOfFixed(day: int)
    requires 1 <= day <= 31
    ensures DayWidth(Fixed(day, 2)) == Some(2)
    ensures DayValue(Fixed(day, 2)) == day
  {
    var f := Fixed(day, 2);
    assert f[0] == DigitChar(day / 10) && f[1] == DigitChar(day % 10);
    assert Pow10(2) == 100;
    FixedValue(day, 2);
  }

  /** Today's date written by strftime and read back by strptime is today's date. */
  lemma IsoRoundTrip(d: Date)
    requires ValidDate(d)
    ensures ParseIsoDate(IsoText(d)) == Some(d)
  {
    var s := IsoText(d);
    assert Pow10(2) == 100 && Pow10(4) == 10000;
    FixedValue(d.year, 4);
    FixedValue(d.month, 2);
    var rest := s[5..];
    assert s[..4] == Fixed(d.year, 4) && s[4] == '-';
    assert rest == Fixed(d.month, 2) + "-" + Fixed(d.day, 2);
    MonthOfFixed(d.month, Fixed(d.day, 2));
    assert rest[3..] == Fixed(d.day, 2);
    DayOfFixed(d.day);
  }

  /**
   * A ten-character date that parses is re-emitted by the stamp with its
   * dashes removed (a day written with a leading space gets a leading zero).
   */
  lemma StampOfCanonical(s: string)
    requires |s| == 10 && ParseIsoDate(s).Some?
    ensures Stamp(ParseIsoDate(s).value) == s[..4] + s[5..7] + (if s[8] == ' ' then "0" + s[9..] else s[8..])
  {
    var d := ParseIsoDate(s).value;
    CanonicalFields(s);
    FixedOf(s[..4], d.year, 4);
    FixedOf(s[5..7], d.month, 2);
    if s[8] == ' ' {
      FixedOneDigit(s[9]);
      assert [s[9]] == s[9..];
    } else {
      FixedOf(s[8..], d.day, 2);
    }
  }

  /** The fields of a parsed ten-character date: the digits at their fixed places. */
  lemma CanonicalFields(s: string)
    requires |s| == 10 && ParseIsoDate(s).Some?
    ensures var d := ParseIsoDate(s).value;
            AllDigits(s[..4]) && d.year == DigitsToNat(s[..4]) &&
            AllDigits(s[5..7]) && d.month == DigitsToNat(s[5..7]) &&
            (s[8] == ' ' ==> IsDigit(s[9]) && d.day == DigitValue(s[9])) &&
            (s[8] != ' ' ==> AllDigits(s[8..]) && d.day == DigitsToNat(s[8..]))
  {
    var rest := s[5..];
    var mw := FirstBeforeDash(rest, MonthWidths(rest)).value;
    var dayText := rest[mw + 1..];
    var dw := DayWidth(dayText).value;
    assert mw == 2 && dw == 2;
    assert rest[..2] == s[5..7] && dayText == s[8..];
  }

  /** A one-digit day printed to width two gets a leading zero. */
  lemma FixedOneDigit(c: char)
    requires IsDigit(c)
    ensures Fixed(DigitValue(c), 2) == "0" + [c]
  {
    var v := DigitValue(c);
    assert Fixed(v, 1) == Fixed(0, 0) + [DigitChar(v)];
    assert Fixed(0, 1) == "0";
  }

  /** Fixed-width printing gives back the digits it reads. */
  lemma FixedOf(t: string, n: nat, w: nat)
    requires AllDigits(t) && w == |t| && n == DigitsToNat(t)
    ensures Fixed(n, w) == t
  {
    FixedOfDigits(t);
  }
}
