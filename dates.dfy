/**
 * Calendar dates as the news agent renders and reads them: Python's `date`
 * (years 1 to 9999), `date.isoformat()`, `date.strftime('%Y%m%d')`,
 * `date.toordinal()`, and `datetime.strptime` with the formats '%Y-%m-%d'
 * and '%Y%m%d'.
 */
module Dates {
  import opened Wrappers
  import opened Text

  datatype Date = Date(year: int, month: int, day: int)

  predicate Leap(y: int)
  {
    y % 4 == 0 && (y % 100 != 0 || y % 400 == 0)
  }

  function DaysIn(y: int, m: int): (n: int)
    requires 1 <= m <= 12
    ensures 28 <= n <= 31
    ensures n == 29 <==> m == 2 && Leap(y)
  {
    if m == 2 then (if Leap(y) then 29 else 28)
    else if m == 4 || m == 6 || m == 9 || m == 11 then 30
    else 31
  }

  /** The dates `date(year, month, day)` accepts. */
  predicate Valid(d: Date)
  {
    1 <= d.year <= 9999 && 1 <= d.month <= 12 && 1 <= d.day <= DaysIn(d.year, d.month)
  }

  /** Calendar order. */
  predicate Before(a: Date, b: Date)
  {
    a.year < b.year || (a.year == b.year && (a.month < b.month || (a.month == b.month && a.day < b.day)))
  }

  // ---------------------------------------------------------------------------
  // Rendering
  // ---------------------------------------------------------------------------

  function Pow10(w: nat): (p: nat)
    ensures p >= 1
  {
    if w == 0 then 1 else 10 * Pow10(w - 1)
  }

  /** `n` in decimal, zero-padded to `width` digits (`'%0*d' % (width, n)` for `n < 10^width`). */
  function Pad(n: nat, width: nat): (r: string)
    ensures |r| == width
    ensures AllDigits(r)
  {
    if width == 0 then [] else Pad(n / 10, width - 1) + [Digit(n % 10)]
  }

  /** `date.isoformat()`, also what `str(date)` and an f-string field give: YYYY-MM-DD. */
  function Iso(d: Date): (r: string)
    requires Valid(d)
  {
    Pad(d.year, 4) + "-" + Pad(d.month, 2) + "-" + Pad(d.day, 2)
  }

  /**
   * `date.strftime('%Y%m%d')`. The C library's `%Y` gives the year without
   * padding, so years below 1000 have fewer than four digits.
   */
  function Packed(d: Date): (r: string)
    requires Valid(d)
  {
    NatToString(d.year) + Pad(d.month, 2) + Pad(d.day, 2)
  }

  /** `date.toordinal()`: 1 January of year 1 is day 1. */
  function DaysBeforeYear(y: int): (n: int)
    requires y >= 1
    ensures n >= 0
  {
    var p := y - 1;
    p * 365 + p / 4 - p / 100 + p / 400
  }

  function DaysBeforeMonth(y: int, m: int): (n: int)
    requires 1 <= m <= 12
    ensures 0 <= n <= 31 * (m - 1)
  {
    if m == 1 then 0 else DaysBeforeMonth(y, m - 1) + DaysIn(y, m - 1)
  }

  function Ordinal(d: Date): (n: int)
    requires Valid(d)
    ensures n >= 1
  {
    DaysBeforeYear(d.year) + DaysBeforeMonth(d.year, d.month) + d.day
  }

  // ---------------------------------------------------------------------------
  // datetime.strptime(s, '%Y' + sep + '%m' + sep + '%d')
  // ---------------------------------------------------------------------------

  predicate IsDigit(c: char)
  {
    '0' <= c <= '9'
  }

  /**
   * The lengths of the alternatives of the `%m` pattern `1[0-2]|0[1-9]|[1-9]`
   * that match at the start of `t`, in the order the regular expression tries
   * them.
   */
  function MonthLengths(t: string): (r: seq<nat>)
    ensures forall i :: 0 <= i < |r| ==> 1 <= r[i] <= 2 && r[i] <= |t|
  {
    (if |t| >= 2 && t[0] == '1' && '0' <= t[1] <= '2' then [2] else [])
    + (if |t| >= 2 && t[0] == '0' && '1' <= t[1] <= '9' then [2] else [])
    + (if |t| >= 1 && '1' <= t[0] <= '9' then [1] else [])
  }

  /** The length of the first alternative of the `%d` pattern `3[01]|[12]\d|0[1-9]|[1-9]| [1-9]` matching at the start of `u`. */
  function DayLength(u: string): (r: Option<nat>)
    ensures r.Some? ==> 1 <= r.value <= 2 && r.value <= |u|
  {
    if |u| >= 2 && u[0] == '3' && (u[1] == '0' || u[1] == '1') then Some(2)
    else if |u| >= 2 && (u[0] == '1' || u[0] == '2') && IsDigit(u[1]) then Some(2)
    else if |u| >= 2 && u[0] == '0' && '1' <= u[1] <= '9' then Some(2)
    else if |u| >= 1 && '1' <= u[0] <= '9' then Some(1)
    else if |u| >= 2 && u[0] == ' ' && '1' <= u[1] <= '9' then Some(2)
    else None
  }

  /**
   * The regular expression's backtracking over the month alternatives: the
   * first month length after which the separator and some day alternative
   * match, with that day's length.
   */
  function MatchMonthDay(t: string, sep: string, lens: seq<nat>): (r: Option<(nat, nat)>)
    requires forall i :: 0 <= i < |lens| ==> lens[i] <= |t|
    ensures r.Some? ==> r.value.0 in lens && r.value.0 + |sep| + r.value.1 <= |t|
    ensures r.Some? ==> sep <= t[r.value.0..] && DayLength(t[r.value.0 + |sep|..]) == Some(r.value.1)
  {
    if lens == [] then None
    else
      var k := lens[0];
      if sep <= t[k..] && DayLength(t[k + |sep|..]).Some? then Some((k, DayLength(t[k + |sep|..]).value))
      else MatchMonthDay(t, sep, lens[1..])
  }

  /** The value of a matched day field: two digits, one digit, or a space and a digit. */
  function DayValue(u: string): (n: nat)
    requires 1 <= |u| <= 2
  {
    if |u| == 2 && u[0] == ' ' then (if IsDigit(u[1]) then u[1] as int - '0' as int else 0)
    else if AllDigits(u) then DigitsValue(u)
    else 0
  }

  /**
   * `datetime.strptime(s, '%Y' + sep + '%m' + sep + '%d').date()`; None where
   * it raises `ValueError`: no match, unconverted text after the day, or a
   * day the month does not have.
   */
  function Strptime(s: string, sep: string): (r: Option<Date>)
    ensures r.Some? ==> Valid(r.value)
  {
    if |s| < 4 + |sep| || !AllDigits(s[..4]) || !(sep <= s[4..]) then None
    else
      var t := s[4 + |sep|..];
      match MatchMonthDay(t, sep, MonthLengths(t)) {
        case None => None
        case Some((k, j)) =>
          if k + |sep| + j != |t| || !AllDigits(t[..k]) then None
          else
            var d := Date(DigitsValue(s[..4]), DigitsValue(t[..k]), DayValue(t[k + |sep|..]));
            if Valid(d) then Some(d) else None
      }
  }

  const IsoFormat: string := "-"
  const PackedFormat: string := ""

  // ---------------------------------------------------------------------------
  // Properties
  // ---------------------------------------------------------------------------

  lemma {:induction false} PadValue(n: nat, width: nat)
    requires n < Pow10(width)
    ensures DigitsValue(Pad(n, width)) == n
  {
    if width > 0 {
      assert n / 10 < Pow10(width - 1);
      PadValue(n / 10, width - 1);
      var r := Pad(n, width);
      assert r[..|r| - 1] == Pad(n / 10, width - 1);
    }
  }

  /** Comparing equal-length prefixes first: Python's string order is lexicographic. */
  lemma {:induction false} StrLessConcat(a1: string, a2: string, b1: string, b2: string)
    requires |a1| == |b1|
    ensures StrLess(a1 + a2, b1 + b2) <==> StrLess(a1, b1) || (a1 == b1 && StrLess(a2, b2))
  {
    if a1 != [] {
      assert (a1 + a2)[1..] == a1[1..] + a2 && (b1 + b2)[1..] == b1[1..] + b2;
      StrLessConcat(a1[1..], a2, b1[1..], b2);
      if a1[0] == b1[0] && a1[1..] == b1[1..] {
        assert a1 == [a1[0]] + a1[1..] && b1 == [b1[0]] + b1[1..];
      }
    } else {
      assert a1 + a2 == a2 && b1 + b2 == b2;
    }
  }

  /** Zero-padded numbers of one width compare as strings as they do as numbers. */
  lemma {:induction false} PadOrder(x: nat, y: nat, width: nat)
    requires x < Pow10(width) && y < Pow10(width)
    ensures StrLess(Pad(x, width), Pad(y, width)) <==> x < y
    ensures Pad(x, width) == Pad(y, width) <==> x == y
  {
    if width == 0 {
      StrLessIrreflexive([]);
    } else {
      assert x / 10 < Pow10(width - 1) && y / 10 < Pow10(width - 1);
      PadOrder(x / 10, y / 10, width - 1);
      StrLessConcat(Pad(x / 10, width - 1), [Digit(x % 10)], Pad(y / 10, width - 1), [Digit(y % 10)]);
      assert x == 10 * (x / 10) + x % 10 && y == 10 * (y / 10) + y % 10;
      if Pad(x, width) == Pad(y, width) {
        assert Pad(x, width)[width - 1] == Digit(x % 10);
        assert Pad(x, width)[..width - 1] == Pad(x / 10, width - 1);
        assert Pad(y, width)[..width - 1] == Pad(y / 10, width - 1);
      }
    }
  }

  /** `str(n)` is `n` padded to its own length. */
  lemma {:induction false} NatToStringIsPad(n: nat)
    ensures NatToString(n) == Pad(n, |NatToString(n)|)
    decreases n
  {
    if n >= 10 {
      NatToStringIsPad(n / 10);
    }
  }

  lemma {:induction false} NatToStringLength(n: nat, k: nat)
    requires 1 <= k && Pow10(k - 1) <= n < Pow10(k)
    ensures |NatToString(n)| == k
    decreases k
  {
    if k > 1 {
      assert Pow10(k - 2) <= n / 10 < Pow10(k - 1);
      NatToStringLength(n / 10, k - 1);
    }
  }

  /** For years from 1000 on, `%Y` gives four digits, the same as padding. */
  lemma FourDigitYear(y: nat)
    requires 1000 <= y <= 9999
    ensures NatToString(y) == Pad(y, 4)
  {
    assert Pow10(3) == 1000 && Pow10(4) == 10000;
    NatToStringLength(y, 4);
    NatToStringIsPad(y);
  }

  /** Strings made of three fields of equal widths, with the same separators, compare field by field. */
  lemma Lexicographic3(a1: string, a2: string, a3: string, b1: string, b2: string, b3: string, sep: string)
    requires |a1| == |b1| && |a2| == |b2|
    ensures StrLess(a1 + sep + a2 + sep + a3, b1 + sep + b2 + sep + b3) <==>
      StrLess(a1, b1) || (a1 == b1 && (StrLess(a2, b2) || (a2 == b2 && StrLess(a3, b3))))
    ensures a1 + sep + a2 + sep + a3 == b1 + sep + b2 + sep + b3 <==> a1 == b1 && a2 == b2 && a3 == b3
  {
    var ta, tb := a2 + sep + a3, b2 + sep + b3;
    assert a1 + sep + a2 + sep + a3 == a1 + (sep + ta) && b1 + sep + b2 + sep + b3 == b1 + (sep + tb);
    StrLessConcat(a1, sep + ta, b1, sep + tb);
    StrLessConcat(sep, ta, sep, tb);
    StrLessIrreflexive(sep);
    assert ta == a2 + (sep + a3) && tb == b2 + (sep + b3);
    StrLessConcat(a2, sep + a3, b2, sep + b3);
    StrLessConcat(sep, a3, sep, b3);
    var sa, sb := a1 + (sep + ta), b1 + (sep + tb);
    if sa == sb {
      assert sa[..|a1|] == a1 && sb[..|b1|] == b1;
      assert sa[|a1| + |sep|..] == ta && sb[|b1| + |sep|..] == tb;
      assert ta[..|a2|] == a2 && tb[..|b2|] == b2;
      assert ta[|a2| + |sep|..] == a3 && tb[|b2| + |sep|..] == b3;
    }
  }

  /** ISO dates sort as strings in calendar order; so two dates with the same text are the same date. */
  lemma IsoOrder(a: Date, b: Date)
    requires Valid(a) && Valid(b)
    ensures StrLess(Iso(a), Iso(b)) <==> Before(a, b)
    ensures Iso(a) == Iso(b) <==> a == b
  {
    assert Pow10(4) == 10000 && Pow10(2) == 100;
    PadOrder(a.year, b.year, 4);
    PadOrder(a.month, b.month, 2);
    PadOrder(a.day, b.day, 2);
    Lexicographic3(Pad(a.year, 4), Pad(a.month, 2), Pad(a.day, 2), Pad(b.year, 4), Pad(b.month, 2), Pad(b.day, 2), "-");
  }

  /** For years from 1000 on, the packed form is three padded fields. */
  lemma PackedFields(d: Date)
    requires Valid(d) && d.year >= 1000
    ensures Packed(d) == Pad(d.year, 4) + PackedFormat + Pad(d.month, 2) + PackedFormat + Pad(d.day, 2)
  {
    FourDigitYear(d.year);
  }

  /** Report dates from year 1000 on sort as packed strings in calendar order. */
  lemma PackedOrder(a: Date, b: Date)
    requires Valid(a) && Valid(b) && a.year >= 1000 && b.year >= 1000
    ensures StrLess(Packed(a), Packed(b)) <==> Before(a, b)
    ensures Packed(a) == Packed(b) <==> a == b
  {
    assert Pow10(4) == 10000 && Pow10(2) == 100;
    PackedFields(a);
    PackedFields(b);
    PadOrder(a.year, b.year, 4);
    PadOrder(a.month, b.month, 2);
    PadOrder(a.day, b.day, 2);
    Lexicographic3(Pad(a.year, 4), Pad(a.month, 2), Pad(a.day, 2), Pad(b.year, 4), Pad(b.month, 2), Pad(b.day, 2), PackedFormat);
  }

  lemma Pad2(n: nat)
    requires n < 100
    ensures Pad(n, 2) == [Digit(n / 10), Digit(n % 10)]
  {
    var q := n / 10;
    assert q < 10;
    assert Pad(n, 2) == Pad(q, 1) + [Digit(n % 10)];
    assert Pad(q, 1) == Pad(q / 10, 0) + [Digit(q % 10)];
    assert q % 10 == q;
  }

  /** A zero-padded month is matched first by a two-character alternative. */
  lemma MonthField(m: nat)
    requires 1 <= m <= 12
    ensures |MonthLengths(Pad(m, 2))| >= 1 && MonthLengths(Pad(m, 2))[0] == 2
  {
    Pad2(m);
    if m < 10 {
      assert Pad(m, 2)[0] == '0' && '1' <= Pad(m, 2)[1] <= '9';
    } else {
      assert Pad(m, 2)[0] == '1' && '0' <= Pad(m, 2)[1] <= '2';
    }
  }

  /** A zero-padded day is matched by a two-character alternative and has its own value. */
  lemma DayField(d: nat)
    requires 1 <= d <= 31
    ensures DayLength(Pad(d, 2)) == Some(2)
    ensures DayValue(Pad(d, 2)) == d
  {
    Pad2(d);
    assert Pow10(2) == 100;
    PadValue(d, 2);
    var u := Pad(d, 2);
    if d < 10 {
      assert u[0] == '0' && '1' <= u[1] <= '9';
    } else if d < 30 {
      assert (u[0] == '1' || u[0] == '2') && IsDigit(u[1]);
    } else {
      assert u[0] == '3' && (u[1] == '0' || u[1] == '1');
    }
  }

  /**
   * A year of four digits, a two-character month and a two-character day
   * that the regular expression takes whole, with separators between them,
   * parse as exactly those fields.
   */
  lemma StrptimeFields(s: string, sep: string, yy: string, mm: string, dd: string)
    requires |yy| == 4 && AllDigits(yy) && |mm| == 2 && AllDigits(mm)
    requires |MonthLengths(mm)| >= 1 && MonthLengths(mm)[0] == 2 && |dd| == 2 && DayLength(dd) == Some(2)
    requires s == yy + sep + mm + sep + dd
    ensures Strptime(s, sep) ==
      var d := Date(DigitsValue(yy), DigitsValue(mm), DayValue(dd));
      if Valid(d) then Some(d) else None
  {
    var t := mm + sep + dd;
    assert s[..4] == yy;
    assert s[4..] == sep + t;
    assert s[4 + |sep|..] == t;
    assert t[..2] == mm;
    assert t[2..] == sep + dd;
    assert t[2 + |sep|..] == dd;
    assert MonthLengths(t) == MonthLengths(mm) by {
      assert t[0] == mm[0] && t[1] == mm[1];
    }
    var lens := MonthLengths(t);
    assert lens[0] == 2 && sep <= t[2..] && DayLength(t[2 + |sep|..]) == Some(2);
    assert MatchMonthDay(t, sep, lens) == Some((2, 2));
    assert 2 + |sep| + 2 == |t| && t[..2] == mm && t[2 + |sep|..] == dd;
  }

  /** The shared part of the two round trips: year, month and day read back. */
  lemma ReadBack(s: string, sep: string, d: Date)
    requires Valid(d)
    requires s == Pad(d.year, 4) + sep + Pad(d.month, 2) + sep + Pad(d.day, 2)
    ensures Strptime(s, sep) == Some(d)
  {
    assert Pow10(4) == 10000 && Pow10(2) == 100;
    PadValue(d.year, 4);
    PadValue(d.month, 2);
    MonthField(d.month);
    DayField(d.day);
    StrptimeFields(s, sep, Pad(d.year, 4), Pad(d.month, 2), Pad(d.day, 2));
  }

  /** `strptime(d.isoformat(), '%Y-%m-%d')` gives `d` back. */
  lemma IsoRoundTrip(d: Date)
    requires Valid(d)
    ensures Strptime(Iso(d), IsoFormat) == Some(d)
  {
    ReadBack(Iso(d), IsoFormat, d);
  }

  /** `strptime(d.strftime('%Y%m%d'), '%Y%m%d')` gives `d` back for years with four digits. */
  lemma PackedRoundTrip(d: Date)
    requires Valid(d) && d.year >= 1000
    ensures Strptime(Packed(d), PackedFormat) == Some(d)
  {
    PackedFields(d);
    ReadBack(Packed(d), PackedFormat, d);
  }

  lemma DigitsValue2(s: string)
    requires |s| == 2 && AllDigits(s)
    ensures DigitsValue(s) == 10 * (s[0] as int - '0' as int) + (s[1] as int - '0' as int)
  {
    assert s[..1][..0] == [] && s[..1][0] == s[0];
    assert DigitsValue(s[..1]) == s[0] as int - '0' as int;
  }

  lemma DigitsValue4(s: string)
    requires |s| == 4 && AllDigits(s)
    ensures DigitsValue(s) == 1000 * (s[0] as int - '0' as int) + 100 * (s[1] as int - '0' as int)
      + 10 * (s[2] as int - '0' as int) + (s[3] as int - '0' as int)
  {
    assert s[..3][..2] == s[..2];
    DigitsValue2(s[..2]);
  }

  /** `Strptime` once the year, the separator and the month-day match are known. */
  lemma StrptimeMatch(s: string, sep: string, k: nat, j: nat)
    requires |s| >= 4 + |sep| && AllDigits(s[..4]) && sep <= s[4..]
    requires var t := s[4 + |sep|..];
      MatchMonthDay(t, sep, MonthLengths(t)) == Some((k, j)) && k + |sep| + j == |t| && AllDigits(t[..k])
    ensures var t := s[4 + |sep|..];
      var d := Date(DigitsValue(s[..4]), DigitsValue(t[..k]), DayValue(t[k + |sep|..]));
      Strptime(s, sep) == if Valid(d) then Some(d) else None
  {
  }

  lemma SingleDigitsPieces()
    ensures var s, t := "2024-1-5", "1-5";
      && s[..4] == "2024" && s[4..] == "-" + t && s[5..] == t && AllDigits(s[..4]) && AllDigits(t[..1])
      && DigitsValue(s[..4]) == 2024 && DigitsValue(t[..1]) == 1 && DayValue(t[2..]) == 5
  {
    var s, t := "2024-1-5", "1-5";
    assert s[..4] == "2024" && t[..1] == "1" && t[2..] == "5";
    DigitsValue4("2024");
    assert DigitsValue("1") == 1 && DigitsValue("5") == 5;
  }

  lemma SingleDigitsMatch()
    ensures MatchMonthDay("1-5", "-", MonthLengths("1-5")) == Some((1, 1))
  {
    var t := "1-5";
    assert MonthLengths(t) == [1];
    assert t[1..] == "-5" && t[2..] == "5";
  }

  /** `strptime` accepts a single-digit month and day where the format shows two. */
  lemma LenientSingleDigits()
    ensures Strptime("2024-1-5", IsoFormat) == Some(Date(2024, 1, 5))
  {
    SingleDigitsPieces();
    SingleDigitsMatch();
    StrptimeMatch("2024-1-5", "-", 1, 1);
  }

  lemma SpacedDayPieces()
    ensures var s, t := "2024-01- 5", "01- 5";
      && s[..4] == "2024" && s[4..] == "-" + t && s[5..] == t && AllDigits(s[..4]) && AllDigits(t[..2])
      && DigitsValue(s[..4]) == 2024 && DigitsValue(t[..2]) == 1 && DayValue(t[3..]) == 5
  {
    var s, t := "2024-01- 5", "01- 5";
    assert s[..4] == "2024" && t[..2] == "01" && t[3..] == " 5";
    DigitsValue4("2024");
    DigitsValue2("01");
  }

  lemma SpacedDayMatch()
    ensures MatchMonthDay("01- 5", "-", MonthLengths("01- 5")) == Some((2, 2))
  {
    var t := "01- 5";
    assert MonthLengths(t) == [2];
    assert t[2..] == "- 5" && t[3..] == " 5";
  }

  /** A space may stand for the leading zero of a day. */
  lemma LenientSpacedDay()
    ensures Strptime("2024-01- 5", IsoFormat) == Some(Date(2024, 1, 5))
  {
    SpacedDayPieces();
    SpacedDayMatch();
    StrptimeMatch("2024-01- 5", "-", 2, 2);
  }

  lemma AmbiguityPieces()
    ensures var s, t := "2024115", "115";
      && s[..4] == "2024" && s[4..] == t && AllDigits(s[..4]) && AllDigits(t[..2])
      && DigitsValue(s[..4]) == 2024 && DigitsValue(t[..2]) == 11 && DayValue(t[2..]) == 5
  {
    var s, t := "2024115", "115";
    assert s[..4] == "2024" && t[..2] == "11" && t[2..] == "5";
    DigitsValue4("2024");
    DigitsValue2("11");
    assert DigitsValue("5") == 5;
  }

  lemma AmbiguityMatch()
    ensures MatchMonthDay("115", "", MonthLengths("115")) == Some((2, 1))
  {
    var t := "115";
    assert MonthLengths(t) == [2, 1];
    assert t[2..] == "5";
  }

  /** Without separators the month alternatives are tried in order: "115" reads as 11 and 5. */
  lemma PackedAmbiguity()
    ensures Strptime("2024115", PackedFormat) == Some(Date(2024, 11, 5))
  {
    AmbiguityPieces();
    AmbiguityMatch();
    StrptimeMatch("2024115", "", 2, 1);
  }

  lemma February30Pieces()
    ensures var s, t := "2024-02-30", "02-30";
      && s[..4] == "2024" && s[4..] == "-" + t && s[5..] == t && AllDigits(s[..4]) && AllDigits(t[..2])
      && DigitsValue(s[..4]) == 2024 && DigitsValue(t[..2]) == 2 && DayValue(t[3..]) == 30
  {
    var s, t := "2024-02-30", "02-30";
    assert s[..4] == "2024" && t[..2] == "02" && t[3..] == "30";
    DigitsValue4("2024");
    DigitsValue2("02");
    DigitsValue2("30");
  }

  lemma February30Match()
    ensures MatchMonthDay("02-30", "-", MonthLengths("02-30")) == Some((2, 2))
  {
    var t := "02-30";
    assert MonthLengths(t) == [2];
    assert t[2..] == "-30" && t[3..] == "30";
  }

  /** A day the month does not have raises. */
  lemma RefusesFebruary30()
    ensures Strptime("2024-02-30", IsoFormat) == None
  {
    February30Pieces();
    February30Match();
    StrptimeMatch("2024-02-30", "-", 2, 2);
    assert !Valid(Date(2024, 2, 30));
  }

  /** Text left over after the day raises ("unconverted data remains"). */
  lemma RefusesTrailingText()
    ensures Strptime("2024-01-05x", IsoFormat) == None
  {
    var t := "01-05x";
    assert "2024-01-05x"[..4] == "2024" && "2024-01-05x"[4..] == "-" + t && "2024-01-05x"[5..] == t;
    assert MonthLengths(t) == [2];
    assert t[2..] == "-05x" && t[3..] == "05x";
    assert MatchMonthDay(t, "-", [2]) == Some((2, 2));
  }

  /** "1305" matches month 1 and day 30, leaving "5" unconverted. */
  lemma RefusesMonth13()
    ensures Strptime("20241305", PackedFormat) == None
  {
    var t := "1305";
    assert "20241305"[..4] == "2024" && "20241305"[4..] == t;
    assert MonthLengths(t) == [1];
    assert t[1..] == "305";
    assert MatchMonthDay(t, "", [1]) == Some((1, 2));
  }
}
