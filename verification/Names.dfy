/** The names of spool files: "20060102T150405.000Z-<uuid>.json". */
module SpoolNames {
  import opened Options
  import opened FileSystem
  import opened SpoolState

  // ---- Calendar ----

  /** A UTC time to the millisecond, as its fields. */
  datatype Stamp = Stamp(year: nat, month: nat, day: nat, hour: nat, minute: nat, second: nat, milli: nat)

  predicate Leap(y: nat) {
    y % 4 == 0 && (y % 100 != 0 || y % 400 == 0)
  }

  function DaysIn(y: nat, m: nat): nat {
    if m == 2 then (if Leap(y) then 29 else 28)
    else if m == 4 || m == 6 || m == 9 || m == 11 then 30
    else 31
  }

  /** A time there is. */
  predicate Real(t: Stamp) {
    && t.year <= 9999 && 1 <= t.month <= 12 && 1 <= t.day <= DaysIn(t.year, t.month)
    && t.hour < 24 && t.minute < 60 && t.second < 60 && t.milli < 1000
  }

  function DaysBeforeYear(y: nat): nat {
    if y == 0 then 0 else DaysBeforeYear(y - 1) + (if Leap(y - 1) then 366 else 365)
  }

  function DaysBeforeMonth(y: nat, m: nat): nat {
    if m <= 1 then 0 else DaysBeforeMonth(y, m - 1) + DaysIn(y, m - 1)
  }

  /** Milliseconds since the start of year 0. */
  function Millis(t: Stamp): int {
    (((DaysBeforeYear(t.year) + DaysBeforeMonth(t.year, t.month) + t.day) * 24 + t.hour) * 60 + t.minute) * 60000 + t.second * 1000 + t.milli
  }

  /** A year has 365 days, and one more every fourth year but for three centuries of four. */
  lemma {:induction false} DaysOfYears(y: nat)
    ensures DaysBeforeYear(y) == 365 * y + (y + 3) / 4 - (y + 99) / 100 + (y + 399) / 400
  {
    if y > 0 {
      DaysOfYears(y - 1);
      EveryFourth(y - 1);
      EveryHundredth(y - 1);
      EveryFourHundredth(y - 1);
    }
  }

  lemma EveryFourth(y: nat)
    ensures (y + 4) / 4 == (y + 3) / 4 + if y % 4 == 0 then 1 else 0
  {}

  lemma EveryHundredth(y: nat)
    ensures (y + 100) / 100 == (y + 99) / 100 + if y % 100 == 0 then 1 else 0
    ensures y % 100 == 0 ==> y % 4 == 0
  {
    var q, r := y / 100, y % 100;
    assert y == 100 * q + r && 0 <= r < 100;
    assert y + 99 == 100 * q + (r + 99);
    if r == 0 {
      assert y == 4 * (25 * q);
    }
  }

  lemma EveryFourHundredth(y: nat)
    ensures (y + 400) / 400 == (y + 399) / 400 + if y % 400 == 0 then 1 else 0
    ensures y % 400 == 0 ==> y % 100 == 0
  {
    var q, r := y / 400, y % 400;
    assert y == 400 * q + r && 0 <= r < 400;
    assert y + 399 == 400 * q + (r + 399);
    if r == 0 {
      assert y == 100 * (4 * q);
    }
  }

  lemma {:induction false} MonthsGrow(y: nat, m: nat, n: nat)
    requires 1 <= m < n <= 13
    ensures DaysBeforeMonth(y, m) + DaysIn(y, m) <= DaysBeforeMonth(y, n)
  {
    if m < n - 1 {
      MonthsGrow(y, m, n - 1);
    }
  }

  lemma YearHasMonths(y: nat)
    ensures DaysBeforeMonth(y, 13) == if Leap(y) then 366 else 365
  {
    assert DaysBeforeMonth(y, 2) == 31;
    assert DaysBeforeMonth(y, 3) == 31 + DaysIn(y, 2);
    assert DaysBeforeMonth(y, 5) == DaysBeforeMonth(y, 3) + 61;
    assert DaysBeforeMonth(y, 7) == DaysBeforeMonth(y, 5) + 61;
    assert DaysBeforeMonth(y, 9) == DaysBeforeMonth(y, 7) + 62;
    assert DaysBeforeMonth(y, 11) == DaysBeforeMonth(y, 9) + 61;
  }

  lemma {:induction false} YearsGrow(y: nat, z: nat)
    requires y < z
    ensures DaysBeforeYear(y) + (if Leap(y) then 366 else 365) <= DaysBeforeYear(z)
  {
    if y < z - 1 {
      YearsGrow(y, z - 1);
    }
  }

  /** Days in order are dates in order. */
  lemma DatesGrow(a: Stamp, b: Stamp)
    requires Real(a) && Real(b)
    requires a.year < b.year || (a.year == b.year && (a.month < b.month || (a.month == b.month && a.day < b.day)))
    ensures DaysBeforeYear(a.year) + DaysBeforeMonth(a.year, a.month) + a.day < DaysBeforeYear(b.year) + DaysBeforeMonth(b.year, b.month) + b.day
  {
    if a.year < b.year {
      YearsGrow(a.year, b.year);
      YearHasMonths(a.year);
      MonthsGrow(a.year, a.month, 13);
    } else if a.month < b.month {
      MonthsGrow(a.year, a.month, b.month);
    }
  }

  // ---- Byte order ----

  /** The order of texts by their bytes. */
  predicate Less(a: string, b: string) {
    b != "" && (a == "" || a[0] < b[0] || (a[0] == b[0] && Less(a[1..], b[1..])))
  }

  lemma {:induction false} LessIsStrict(a: string)
    ensures !Less(a, a)
  {
    if a != "" {
      LessIsStrict(a[1..]);
    }
  }

  /** Texts of one length are compared by their first parts first. */
  lemma {:induction false} LessByParts(a: string, b: string, c: string, d: string)
    requires |a| == |b|
    ensures Less(a + c, b + d) <==> Less(a, b) || (a == b && Less(c, d))
  {
    if a == "" {
      assert a + c == c && b + d == d;
    } else {
      assert (a + c)[1..] == a[1..] + c && (b + d)[1..] == b[1..] + d;
      LessByParts(a[1..], b[1..], c, d);
      assert a == b <==> a[0] == b[0] && a[1..] == b[1..];
    }
  }

  // ---- Numbers of a fixed width ----

  function Pow10(w: nat): (r: nat)
    ensures r >= 1
  {
    if w == 0 then 1 else 10 * Pow10(w - 1)
  }

  function Digit(n: nat): char
    requires n < 10
  {
    '0' + n as char
  }

  function Digits(n: nat, w: nat): (s: string)
    ensures |s| == w
  {
    if w == 0 then "" else Digits(n / 10, w - 1) + [Digit(n % 10)]
  }

  predicate IsDigit(c: char) {
    '0' <= c <= '9'
  }

  predicate AllDigits(s: string) {
    forall i :: 0 <= i < |s| ==> IsDigit(s[i])
  }

  function Number(s: string): nat
    requires AllDigits(s)
  {
    if s == "" then 0 else Number(s[..|s| - 1]) * 10 + (s[|s| - 1] as int - '0' as int)
  }

  lemma {:induction false} DigitsParse(n: nat, w: nat)
    requires n < Pow10(w)
    ensures AllDigits(Digits(n, w)) && Number(Digits(n, w)) == n
  {
    if w > 0 {
      DigitsParse(n / 10, w - 1);
      var s := Digits(n, w);
      assert s[..|s| - 1] == Digits(n / 10, w - 1);
    }
  }

  lemma {:induction false} NumberPrints(s: string)
    requires AllDigits(s)
    ensures Number(s) < Pow10(|s|) && Digits(Number(s), |s|) == s
  {
    if s != "" {
      NumberPrints(s[..|s| - 1]);
      assert s == s[..|s| - 1] + [s[|s| - 1]];
    }
  }

  /** Of one width, numbers are in the order of their texts. */
  lemma {:induction false} DigitsOrder(m: nat, n: nat, w: nat)
    requires m < Pow10(w) && n < Pow10(w)
    ensures Less(Digits(m, w), Digits(n, w)) <==> m < n
  {
    if w > 0 {
      DigitsOrder(m / 10, n / 10, w - 1);
      DigitsParse(m / 10, w - 1);
      DigitsParse(n / 10, w - 1);
      LessByParts(Digits(m / 10, w - 1), Digits(n / 10, w - 1), [Digit(m % 10)], [Digit(n % 10)]);
      LastDigit(m % 10, n % 10);
    }
  }

  lemma LastDigit(m: nat, n: nat)
    requires m < 10 && n < 10
    ensures Less([Digit(m)], [Digit(n)]) <==> m < n
  {
    assert [Digit(m)][1..] == "" && [Digit(n)][1..] == "";
  }

  // ---- Ids ----

  predicate IsHex(c: char) {
    '0' <= c <= '9' || 'a' <= c <= 'f'
  }

  /** The canonical text of a UUID: 36 characters, lower-case hexadecimal with four dashes. */
  predicate IsCanonical(id: string) {
    |id| == 36 && forall i :: 0 <= i < 36 ==> if i == 8 || i == 13 || i == 18 || i == 23 then id[i] == '-' else IsHex(id[i])
  }

  /** No upper-case letter and no other character is in one. */
  lemma CanonicalText(id: string)
    ensures IsCanonical(id) <==> |id| == 36 && forall i :: 0 <= i < 36 ==> id[i] in if i in {8, 13, 18, 23} then "-" else "0123456789abcdef"
  {
    forall c: char ensures IsHex(c) <==> c in "0123456789abcdef" {
      HexDigits(c);
    }
  }

  lemma HexDigits(c: char)
    ensures IsHex(c) <==> c in "0123456789abcdef"
  {
    var hex := "0123456789abcdef";
    if '0' <= c <= '9' {
      assert hex[c as int - '0' as int] == c;
    } else if 'a' <= c <= 'f' {
      assert hex[c as int - 'a' as int + 10] == c;
    }
  }

  // ---- Names ----

  function TimeText(t: Stamp): (s: string)
    ensures |s| == 11
  {
    Digits(t.hour, 2) + Digits(t.minute, 2) + Digits(t.second, 2) + "." + Digits(t.milli, 3) + "Z"
  }

  function StampText(t: Stamp): (s: string)
    ensures |s| == 20
  {
    Digits(t.year, 4) + Digits(t.month, 2) + Digits(t.day, 2) + "T" + TimeText(t)
  }

  function FileName(t: Stamp, id: string): string {
    StampText(t) + "-" + id + ".json"
  }

  /** Reads a time of the layout. A comma is taken for the point before the milliseconds. */
  function ParseStamp(s: string): Option<Stamp>
    requires |s| == 20
  {
    if AllDigits(s[0..4]) && AllDigits(s[4..6]) && AllDigits(s[6..8]) && s[8] == 'T' && AllDigits(s[9..11]) && AllDigits(s[11..13])
       && AllDigits(s[13..15]) && (s[15] == '.' || s[15] == ',') && AllDigits(s[16..19]) && s[19] == 'Z' then
      var t := Stamp(Number(s[0..4]), Number(s[4..6]), Number(s[6..8]), Number(s[9..11]), Number(s[11..13]), Number(s[13..15]), Number(s[16..19]));
      if Real(t) then Some(t) else None
    else None
  }

  function ParseName(name: string): Option<(Stamp, string)> {
    if |name| != 62 || name[57..] != ".json" || name[20] != '-' || !IsCanonical(name[21..57]) then None
    else
      match ParseStamp(name[..20])
      case None => None
      case Some(t) => Some((t, name[21..57]))
  }

  lemma Widths()
    ensures Pow10(2) == 100 && Pow10(3) == 1000 && Pow10(4) == 10000
  {
    assert Pow10(2) == 100;
  }

  lemma StampTextParts(t: Stamp)
    ensures var s := StampText(t);
      && s[0..4] == Digits(t.year, 4) && s[4..6] == Digits(t.month, 2) && s[6..8] == Digits(t.day, 2) && s[8] == 'T'
      && s[9..11] == Digits(t.hour, 2) && s[11..13] == Digits(t.minute, 2) && s[13..15] == Digits(t.second, 2) && s[15] == '.'
      && s[16..19] == Digits(t.milli, 3) && s[19] == 'Z'
  {
    hide Digits;
  }

  lemma StampParses(t: Stamp)
    requires Real(t)
    ensures ParseStamp(StampText(t)) == Some(t)
  {
    hide Digits, Number, Pow10, AllDigits, StampText;
    Widths();
    StampTextParts(t);
    DigitsParse(t.year, 4);
    DigitsParse(t.month, 2);
    DigitsParse(t.day, 2);
    DigitsParse(t.hour, 2);
    DigitsParse(t.minute, 2);
    DigitsParse(t.second, 2);
    DigitsParse(t.milli, 3);
  }

  /** parseName gives back what fileName was given. */
  lemma ParseInvertsName(t: Stamp, id: string)
    requires Real(t) && IsCanonical(id)
    ensures ParseName(FileName(t, id)) == Some((t, id))
  {
    hide StampText, ParseStamp, IsCanonical;
    CanonicalLength(id);
    var name := FileName(t, id);
    assert name[..20] == StampText(t) && name[20] == '-' && name[21..57] == id && name[57..] == ".json";
    StampParses(t);
  }

  lemma CanonicalLength(id: string)
    requires IsCanonical(id)
    ensures |id| == 36
  {}

  lemma Pieces(s: string)
    requires |s| == 20
    ensures s[..15] == s[0..4] + s[4..6] + s[6..8] + [s[8]] + s[9..11] + s[11..13] + s[13..15] && s[16..] == s[16..19] + [s[19]]
  {}

  lemma StampPrints(s: string)
    requires |s| == 20 && ParseStamp(s).Some?
    ensures Real(ParseStamp(s).value)
    ensures s[..15] == StampText(ParseStamp(s).value)[..15] && s[16..] == StampText(ParseStamp(s).value)[16..]
    ensures s[15] == '.' || s[15] == ','
  {
    hide Digits, Number, Pow10, AllDigits, StampText;
    var t := ParseStamp(s).value;
    StampTextParts(t);
    NumberPrints(s[0..4]);
    NumberPrints(s[4..6]);
    NumberPrints(s[6..8]);
    NumberPrints(s[9..11]);
    NumberPrints(s[11..13]);
    NumberPrints(s[13..15]);
    NumberPrints(s[16..19]);
    Pieces(s);
    Pieces(StampText(t));
  }

  /** The other way round: a name that parses is the one its time and id would be given, but for a
      comma in place of the point before the milliseconds, which the parser accepts and no Put writes. */
  lemma NameInvertsParse(name: string)
    requires ParseName(name).Some?
    ensures var (t, id) := ParseName(name).value;
      && Real(t) && IsCanonical(id)
      && (name == FileName(t, id) <==> name[15] == '.')
      && (name[15] == ',' || name[15] == '.')
      && name[..15] + "." + name[16..] == FileName(t, id)
  {
    hide StampText, ParseStamp, IsCanonical;
    var (t, id) := ParseName(name).value;
    CanonicalLength(id);
    StampPrints(name[..20]);
    PointAt15(t);
    var text := StampText(t);
    var s := name[..20];
    assert name == s + "-" + id + ".json";
    assert text == text[..15] + "." + text[16..];
    assert name[..15] + "." + name[16..] == (s[..15] + "." + s[16..]) + "-" + id + ".json";
    assert name == name[..15] + [name[15]] + name[16..];
    assert FileName(t, id)[15] == '.';
  }

  lemma PointAt15(t: Stamp)
    ensures StampText(t)[15] == '.'
  {
    StampTextParts(t);
  }

  // ---- Order ----

  /** The order of times, field by field. */
  predicate Earlier(a: Stamp, b: Stamp) {
    || a.year < b.year
    || (a.year == b.year && (a.month < b.month
    || (a.month == b.month && (a.day < b.day
    || (a.day == b.day && (a.hour < b.hour
    || (a.hour == b.hour && (a.minute < b.minute
    || (a.minute == b.minute && (a.second < b.second
    || (a.second == b.second && a.milli < b.milli)))))))))))
  }

  /** It is the order of the instants. */
  lemma EarlierIsBefore(a: Stamp, b: Stamp)
    requires Real(a) && Real(b)
    ensures Earlier(a, b) <==> Millis(a) < Millis(b)
  {
    if Earlier(a, b) {
      EarlierGrows(a, b);
    } else if a != b {
      EarlierGrows(b, a);
    }
  }

  lemma EarlierGrows(a: Stamp, b: Stamp)
    requires Real(a) && Real(b) && Earlier(a, b)
    ensures Millis(a) < Millis(b)
  {
    hide DaysBeforeYear, DaysBeforeMonth, DaysIn;
    if a.year < b.year || (a.year == b.year && (a.month < b.month || (a.month == b.month && a.day < b.day))) {
      DatesGrow(a, b);
    }
  }

  predicate EarlierInDay(a: Stamp, b: Stamp) {
    || a.hour < b.hour
    || (a.hour == b.hour && (a.minute < b.minute
    || (a.minute == b.minute && (a.second < b.second
    || (a.second == b.second && a.milli < b.milli)))))
  }

  lemma TimeOrder(a: Stamp, b: Stamp)
    requires Real(a) && Real(b)
    ensures Less(TimeText(a), TimeText(b)) <==> EarlierInDay(a, b)
  {
    hide Digits, Less, Pow10;
    Widths();
    var a3, b3 := Digits(a.milli, 3) + "Z", Digits(b.milli, 3) + "Z";
    var a2, b2 := Digits(a.second, 2) + ("." + a3), Digits(b.second, 2) + ("." + b3);
    var a1, b1 := Digits(a.minute, 2) + a2, Digits(b.minute, 2) + b2;
    assert TimeText(a) == Digits(a.hour, 2) + a1 && TimeText(b) == Digits(b.hour, 2) + b1;
    LessIsStrict("Z");
    LessIsStrict(".");
    ByNumber(a.milli, b.milli, 3, "Z", "Z");
    LessByParts(".", ".", a3, b3);
    ByNumber(a.second, b.second, 2, "." + a3, "." + b3);
    ByNumber(a.minute, b.minute, 2, a2, b2);
    ByNumber(a.hour, b.hour, 2, a1, b1);
  }

  lemma StampOrder(a: Stamp, b: Stamp)
    requires Real(a) && Real(b)
    ensures Less(StampText(a), StampText(b)) <==> Earlier(a, b)
    ensures StampText(a) == StampText(b) <==> a == b
  {
    hide Digits, Less, Pow10, TimeText;
    Widths();
    StampParses(a);
    StampParses(b);
    TimeOrder(a, b);
    var a2, b2 := Digits(a.day, 2) + ("T" + TimeText(a)), Digits(b.day, 2) + ("T" + TimeText(b));
    var a1, b1 := Digits(a.month, 2) + a2, Digits(b.month, 2) + b2;
    assert StampText(a) == Digits(a.year, 4) + a1 && StampText(b) == Digits(b.year, 4) + b1;
    LessIsStrict("T");
    LessByParts("T", "T", TimeText(a), TimeText(b));
    ByNumber(a.day, b.day, 2, "T" + TimeText(a), "T" + TimeText(b));
    ByNumber(a.month, b.month, 2, a2, b2);
    ByNumber(a.year, b.year, 4, a1, b1);
  }

  lemma ByNumber(m: nat, n: nat, w: nat, c: string, d: string)
    requires m < Pow10(w) && n < Pow10(w)
    ensures Less(Digits(m, w) + c, Digits(n, w) + d) <==> m < n || (m == n && Less(c, d))
  {
    DigitsOrder(m, n, w);
    DigitsParse(m, w);
    DigitsParse(n, w);
    LessByParts(Digits(m, w), Digits(n, w), c, d);
  }

  /** The byte order of names is the order by observed_at and then by id. */
  lemma NamesAreInOrder(a: Stamp, i: string, b: Stamp, j: string)
    requires Real(a) && Real(b) && IsCanonical(i) && IsCanonical(j)
    ensures Less(FileName(a, i), FileName(b, j)) <==> Millis(a) < Millis(b) || (Millis(a) == Millis(b) && Less(i, j))
  {
    hide StampText, Less, Millis, IsCanonical;
    CanonicalLength(i);
    CanonicalLength(j);
    StampOrder(a, b);
    StampOrder(b, a);
    EarlierIsBefore(a, b);
    EarlierIsBefore(b, a);
    OneOrOther(a, b);
    assert FileName(a, i) == StampText(a) + ("-" + (i + ".json")) && FileName(b, j) == StampText(b) + ("-" + (j + ".json"));
    LessByParts(StampText(a), StampText(b), "-" + (i + ".json"), "-" + (j + ".json"));
    LessByParts("-", "-", i + ".json", j + ".json");
    LessByParts(i, j, ".json", ".json");
    LessIsStrict("-");
    LessIsStrict(".json");
  }

  lemma OneOrOther(a: Stamp, b: Stamp)
    ensures a == b || Earlier(a, b) || Earlier(b, a)
    ensures a == b ==> !Earlier(a, b)
  {}

  // ---- The times a spool takes ----

  lemma InItsDay(t: Stamp)
    requires Real(t)
    ensures t.year <= 9999
    ensures var day := DaysBeforeYear(t.year) + DaysBeforeMonth(t.year, t.month) + t.day; day * 86400000 <= Millis(t) < (day + 1) * 86400000
  {
    hide DaysBeforeYear, DaysBeforeMonth, DaysIn;
  }

  /** The day of a real date in its year. */
  lemma DayOfYear(t: Stamp)
    requires Real(t)
    ensures 1 <= DaysBeforeMonth(t.year, t.month) + t.day <= if Leap(t.year) then 366 else 365
  {
    YearHasMonths(t.year);
    MonthsGrow(t.year, t.month, 13);
  }

  /** Of the times there are, Put takes exactly those of the years 1 to 9999; it counts them from the start
      of year 1. */
  lemma YearsPutTakes(s: Snap, t: Stamp)
    requires Real(t) && s.at == Millis(t) - 367 * 86400000 && !s.id.Malformed? && s.scope != []
    ensures Acceptable(s) <==> 1 <= t.year <= 9999
  {
    hide DaysBeforeMonth, DaysBeforeYear, DaysIn, Leap, Real, Millis;
    DayOfYear(t);
    InItsDay(t);
    DaysOfYears(0);
    DaysOfYears(1);
    DaysOfYears(10000);
    YearsGrow(t.year, 10000);
    if t.year > 1 {
      YearsGrow(1, t.year);
    }
  }
}
