/**
  Civil dates as text, `YYYY-MM-DD`: the calendar of the weekly plan. The program compares these texts with `<`
  and shifts them through the UTC calendar, so their order and their arithmetic are tied to day numbers here.
*/
module CivilText {
  import opened Prelude
  import opened Calendar

  // ----- Decimal text -----

  predicate IsDigit(c: char) {
    '0' <= c <= '9'
  }

  predicate AllDigits(s: string) {
    forall i :: 0 <= i < |s| ==> IsDigit(s[i])
  }

  function DigitChar(n: nat): (c: char)
    requires n <= 9
    ensures IsDigit(c) && c as int - '0' as int == n
  {
    ('0' as int + n) as char
  }

  function Pow10(w: nat): nat {
    if w == 0 then 1 else 10 * Pow10(w - 1)
  }

  /** `Number(s)` for a run of digits. */
  function Value(s: string): nat
    requires AllDigits(s)
  {
    if s == [] then 0 else 10 * Value(s[..|s| - 1]) + (s[|s| - 1] as int - '0' as int)
  }

  /** `String(n)`. */
  function Decimal(n: nat): string {
    if n < 10 then [DigitChar(n)] else Decimal(n / 10) + [DigitChar(n % 10)]
  }

  /** The text of a number spells the number. */
  lemma {:induction false} DecimalValue(n: nat)
    ensures AllDigits(Decimal(n)) && Value(Decimal(n)) == n
  {
    if n < 10 {
      assert Decimal(n)[..0] == [];
    } else {
      DecimalValue(n / 10);
      assert Decimal(n)[..|Decimal(n)| - 1] == Decimal(n / 10);
    }
  }

  lemma {:induction false} DecimalLength(n: nat, w: nat)
    requires w >= 1
    ensures |Decimal(n)| <= w <==> n < Pow10(w)
  {
    if n < 10 {
      PowPositive(w - 1);
    } else if w == 1 {
      DecimalNotEmpty(n / 10);
    } else {
      DecimalLength(n / 10, w - 1);
    }
  }

  lemma DecimalNotEmpty(n: nat)
    ensures |Decimal(n)| >= 1
  {
  }

  lemma PowPositive(w: nat)
    ensures Pow10(w) >= 1
  {
  }

  function Zeros(n: nat): (z: string)
    ensures |z| == n
  {
    if n == 0 then [] else ['0'] + Zeros(n - 1)
  }

  /** `padStart(width, "0")`. */
  function PadStart(s: string, width: nat): (t: string)
    ensures |t| == if |s| >= width then |s| else width
  {
    if |s| >= width then s else Zeros(width - |s|) + s
  }

  lemma {:induction false} LeadingZeros(n: nat, s: string)
    requires AllDigits(s)
    ensures AllDigits(Zeros(n) + s) && Value(Zeros(n) + s) == Value(s)
  {
    if n == 0 {
      assert Zeros(0) + s == s;
    } else {
      LeadingZeros(n - 1, s);
      LeadingZero(Zeros(n - 1) + s);
      assert Zeros(n) + s == ['0'] + (Zeros(n - 1) + s);
    }
  }

  lemma {:induction false} LeadingZero(s: string)
    requires AllDigits(s)
    ensures AllDigits(['0'] + s) && Value(['0'] + s) == Value(s)
  {
    if s == [] {
      assert (['0'] + s)[..0] == [];
    } else {
      LeadingZero(s[..|s| - 1]);
      assert (['0'] + s)[..|s|] == ['0'] + s[..|s| - 1];
    }
  }

  /** JavaScript's `<` on strings. */
  predicate TextLess(a: string, b: string) {
    if a == [] then b != []
    else if b == [] then false
    else if a[0] != b[0] then a[0] < b[0]
    else TextLess(a[1..], b[1..])
  }

  /** A strict total order. */
  lemma {:induction false} TextLessTotal(a: string, b: string)
    ensures TextLess(a, b) ==> !TextLess(b, a)
    ensures TextLess(a, b) || TextLess(b, a) <==> a != b
  {
    if a != [] && b != [] {
      TextLessTotal(a[1..], b[1..]);
      assert a == [a[0]] + a[1..] && b == [b[0]] + b[1..];
    }
  }

  lemma {:induction false} TextLessTransitive(a: string, b: string, c: string)
    requires TextLess(a, b) && TextLess(b, c)
    ensures TextLess(a, c)
  {
    if a != [] && a[0] == b[0] == c[0] {
      TextLessTransitive(a[1..], b[1..], c[1..]);
    }
  }

  lemma {:induction false} TextLessSplit(a: string, b: string, x: string, y: string)
    requires |a| == |b|
    ensures TextLess(a + x, b + y) <==> if a == b then TextLess(x, y) else TextLess(a, b)
  {
    if a == [] {
      assert a + x == x && b + y == y;
    } else {
      assert (a + x)[1..] == a[1..] + x && (b + y)[1..] == b[1..] + y;
      assert a == [a[0]] + a[1..] && b == [b[0]] + b[1..];
      TextLessSplit(a[1..], b[1..], x, y);
    }
  }

  /** Digit runs of one length compare as the numbers they spell, so equal numbers are equal texts. */
  lemma {:induction false} DigitOrder(s: string, t: string)
    requires AllDigits(s) && AllDigits(t) && |s| == |t|
    ensures TextLess(s, t) <==> Value(s) < Value(t)
    ensures s == t <==> Value(s) == Value(t)
  {
    if s != [] {
      var n := |s| - 1;
      var p, q := s[..n], t[..n];
      assert s == p + [s[n]] && t == q + [t[n]];
      DigitOrder(p, q);
      TextLessSplit(p, q, [s[n]], [t[n]]);
      assert TextLess([s[n]], [t[n]]) <==> s[n] < t[n];
    }
  }

  // ----- Dates -----

  /** The text of a date, without any range check. */
  function Text(c: Civil): string
    requires c.year >= 0 && c.month >= 0 && c.day >= 0
  {
    PadStart(Decimal(c.year), 4) + "-" + PadStart(Decimal(c.month), 2) + "-" + PadStart(Decimal(c.day), 2)
  }

  /** /^(\d{4})-(\d{2})-(\d{2})$/ */
  predicate DatePattern(s: string) {
    |s| == 10 && s[4] == '-' && s[7] == '-' && AllDigits(s[0..4]) && AllDigits(s[5..7]) && AllDigits(s[8..10])
  }

  /** A real calendar date of the years 1 to 9999. */
  predicate Real(c: Civil) {
    ValidCivil(c) && 1 <= c.year <= 9999
  }

  function ParseCivil(s: string): Option<Civil> {
    if !DatePattern(s) then None
    else
      var date := Civil(Value(s[0..4]), Value(s[5..7]), Value(s[8..10]));
      if date.month < 1 || date.month > 12 || date.year < 1 || date.year > 9999 then None
      else if date.day < 1 || date.day > LastDay(date.year, date.month - 1) then None
      else Some(date)
  }

  /** Month and day fit two digits: the callers take both from the calendar. */
  function CivilToString(c: Civil): Option<string>
    requires 0 <= c.month <= 99 && 0 <= c.day <= 99
  {
    if c.year < 1 || c.year > 9999 then None
    else if ParseCivil(Text(c)).Some? then Some(Text(c)) else None
  }

  /** `Date.UTC` moves the years 1 to 99 by 1900, which keeps the length of every month. */
  lemma QuirkKeepsLength(y: int, m: int)
    requires 1 <= y && 0 <= m < 12
    ensures Length(12 * FullYear(y) + m) == Length(12 * y + m)
  {
    assert (12 * FullYear(y) + m) / 12 == FullYear(y) && (12 * y + m) / 12 == y;
    if y <= 99 {
      assert (1900 + y) % 4 == y % 4;
      assert y % 100 == y && (1900 + y) % 100 == y;
    }
  }

  lemma FieldText(n: nat, w: nat)
    requires n < Pow10(w) && w >= 1
    ensures var f := PadStart(Decimal(n), w); |f| == w && AllDigits(f) && Value(f) == n
  {
    DecimalLength(n, w);
    DecimalValue(n);
    LeadingZeros(w - |Decimal(n)|, Decimal(n));
  }

  lemma TextFields(c: Civil)
    requires 0 <= c.year <= 9999 && 0 <= c.month <= 99 && 0 <= c.day <= 99
    ensures DatePattern(Text(c))
    ensures var s := Text(c); Value(s[0..4]) == c.year && Value(s[5..7]) == c.month && Value(s[8..10]) == c.day
  {
    assert Pow10(4) == 10000 by {
      assert Pow10(2) == 100;
    }
    FieldText(c.year, 4);
    FieldText(c.month, 2);
    FieldText(c.day, 2);
    var y, m, d := PadStart(Decimal(c.year), 4), PadStart(Decimal(c.month), 2), PadStart(Decimal(c.day), 2);
    var s := Text(c);
    assert s[0..4] == y && s[5..7] == m && s[8..10] == d;
  }

  lemma PatternText(s: string)
    requires DatePattern(s)
    ensures s == Text(Civil(Value(s[0..4]), Value(s[5..7]), Value(s[8..10])))
  {
    FieldBound(s[0..4]);
    FieldBound(s[5..7]);
    FieldBound(s[8..10]);
    assert Pow10(4) == 10000 by {
      assert Pow10(2) == 100;
    }
    var c := Civil(Value(s[0..4]), Value(s[5..7]), Value(s[8..10]));
    FieldText(c.year, 4);
    FieldText(c.month, 2);
    FieldText(c.day, 2);
    DigitOrder(s[0..4], PadStart(Decimal(c.year), 4));
    DigitOrder(s[5..7], PadStart(Decimal(c.month), 2));
    DigitOrder(s[8..10], PadStart(Decimal(c.day), 2));
    assert s == s[0..4] + "-" + s[5..7] + "-" + s[8..10];
  }

  lemma {:induction false} FieldBound(s: string)
    requires AllDigits(s)
    ensures Value(s) < Pow10(|s|)
  {
    if s != [] {
      FieldBound(s[..|s| - 1]);
    }
  }

  lemma {:induction false} RealDays(y: int, m: int)
    requires 1 <= y && 1 <= m <= 12
    ensures LastDay(y, m - 1) == Length(12 * y + m - 1)
  {
    hide *;
    LastDayIsLength(y, m - 1);
    QuirkKeepsLength(y, m - 1);
  }

  lemma {:induction false} ParsedIsText(s: string)
    requires ParseCivil(s).Some?
    ensures Real(ParseCivil(s).value) && s == Text(ParseCivil(s).value)
  {
    hide LastDay, Length, Text, Value, AllDigits;
    var c := ParseCivil(s).value;
    RealDays(c.year, c.month);
    PatternText(s);
  }

  lemma {:induction false} TextParses(c: Civil)
    requires Real(c)
    ensures ParseCivil(Text(c)) == Some(c)
  {
    hide LastDay, Length, Text, Value, AllDigits, DatePattern;
    RealDays(c.year, c.month);
    TextFields(c);
  }

  /** The parser accepts exactly the texts of real dates, and returns the date. */
  lemma {:induction false} ParseIffText(s: string, c: Civil)
    ensures ParseCivil(s) == Some(c) <==> Real(c) && s == Text(c)
  {
    hide ParseCivil, Real, Text;
    if ParseCivil(s) == Some(c) {
      ParsedIsText(s);
    }
    if Real(c) {
      TextParses(c);
    }
  }

  lemma {:induction false} CivilToStringIsText(c: Civil)
    requires 0 <= c.month <= 99 && 0 <= c.day <= 99
    ensures CivilToString(c) == if Real(c) then Some(Text(c)) else None
  {
    hide ParseCivil;
    if 1 <= c.year <= 9999 {
      ParseIffText(Text(c), c);
      if ParseCivil(Text(c)).Some? {
        var other := ParseCivil(Text(c)).value;
        ParseIffText(Text(c), other);
        TextFields(c);
        TextFields(other);
      }
    }
  }
}
