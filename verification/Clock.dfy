/** Stored timestamps: the RFC 3339 text the job store writes, and how that text
    orders as a TEXT column. */
module Clock {

  datatype Option<+T> = None | Some(value: T)

  /** A UTC time as the formatter sees it. */
  datatype RawTime = Time(year: nat, month: nat, day: nat, hour: nat, minute: nat, second: nat, nanos: nat)

  predicate LeapYear(year: nat) {
    year % 4 == 0 && (year % 100 != 0 || year % 400 == 0)
  }

  function DaysIn(month: nat, year: nat): nat {
    if month == 2 then (if LeapYear(year) then 29 else 28)
    else if month in {4, 6, 9, 11} then 30
    else 31
  }

  predicate ValidTime(t: RawTime) {
    && t.year < 10000
    && 1 <= t.month <= 12
    && 1 <= t.day <= DaysIn(t.month, t.year)
    && t.hour < 24 && t.minute < 60 && t.second < 60
    && t.nanos < 1000000000
  }

  type Time = t: RawTime | ValidTime(t) witness Time(1970, 1, 1, 0, 0, 0, 0)

  // ---- formatting ------------------------------------------------------------

  function Pow10(w: nat): nat {
    if w == 0 then 1 else 10 * Pow10(w - 1)
  }

  function Digit(d: nat): char
    requires d < 10
  {
    '0' + d as char
  }

  /** The decimal digits of n, zero-padded to width w. */
  function Dec(n: nat, w: nat): (s: string)
    requires n < Pow10(w)
    ensures |s| == w && AllDigits(s)
  {
    if w == 0 then "" else Dec(n / 10, w - 1) + [Digit(n % 10)]
  }

  function TrimZeros(s: string): string {
    if |s| > 0 && s[|s| - 1] == '0' then TrimZeros(s[..|s| - 1]) else s
  }

  /** The significant fraction digits of a nanosecond count. */
  function FracDigits(nanos: nat): string
    requires nanos < 1000000000
  {
    TrimZeros(Dec(nanos, 9))
  }

  /** Everything after the whole second. */
  function Tail(nanos: nat): string
    requires nanos < 1000000000
  {
    (if nanos == 0 then "" else "." + FracDigits(nanos)) + "Z"
  }

  /** The date and time to the whole second: always nineteen characters. */
  function SecondText(t: Time): (s: string)
    ensures |s| == 19
  {
    Dec(t.year, 4) + ("-" + (Dec(t.month, 2) + ("-" + (Dec(t.day, 2) + ("T" + (Dec(t.hour, 2) +
    (":" + (Dec(t.minute, 2) + (":" + Dec(t.second, 2))))))))))
  }

  function FmtTime(t: Time): string {
    SecondText(t) + Tail(t.nanos)
  }

  // ---- order of TEXT columns -------------------------------------------------

  predicate TextLess(a: string, b: string) {
    |b| > 0 && (|a| == 0 || a[0] < b[0] || (a[0] == b[0] && TextLess(a[1..], b[1..])))
  }

  predicate TextLeq(a: string, b: string) {
    a == b || TextLess(a, b)
  }

  /** Whole seconds since the start of year 0 in the proleptic Gregorian calendar. */
  function WholeSecond(t: Time): int {
    86400 * (DaysBeforeYear(t.year) + DaysBeforeMonth(t.month, t.year) + t.day - 1)
    + 3600 * t.hour + 60 * t.minute + t.second
  }

  /** Days in the years 0 .. year-1; year 0 is a leap year. */
  function DaysBeforeYear(year: nat): nat {
    if year == 0 then 0 else DaysBeforeYear(year - 1) + (if LeapYear(year - 1) then 366 else 365)
  }

  function DaysBeforeMonth(month: nat, year: nat): nat
    requires 1 <= month <= 12
  {
    if month == 1 then 0 else DaysBeforeMonth(month - 1, year) + DaysIn(month - 1, year)
  }

  // ---- parsing ---------------------------------------------------------------

  predicate AllDigits(s: string) {
    forall k :: 0 <= k < |s| ==> '0' <= s[k] <= '9'
  }

  function Val(s: string): nat
    requires AllDigits(s)
  {
    if |s| == 0 then 0 else 10 * Val(s[..|s| - 1]) + (s[|s| - 1] - '0') as nat
  }

  predicate Shaped(s: string) {
    && |s| >= 20
    && s[4] == '-' && s[7] == '-' && s[10] == 'T' && s[13] == ':' && s[16] == ':' && s[|s| - 1] == 'Z'
    && AllDigits(s[0..4]) && AllDigits(s[5..7]) && AllDigits(s[8..10])
    && AllDigits(s[11..13]) && AllDigits(s[14..16]) && AllDigits(s[17..19])
    && (|s| == 20 || (22 <= |s| <= 30 && s[19] == '.' && AllDigits(s[20..|s| - 1])))
  }

  /** Reads back the UTC form the formatter writes; any other text is no time at all. */
  function ParseTime(s: string): Option<Time> {
    if !Shaped(s) then None
    else
      var t := Time(Val(s[0..4]), Val(s[5..7]), Val(s[8..10]), Val(s[11..13]), Val(s[14..16]), Val(s[17..19]),
                    if |s| == 20 then 0 else Val(s[20..|s| - 1]) * Pow10(29 - (|s| - 1)));
      if ValidTime(t) then Some(t) else None
  }

  // ---- proofs: digits --------------------------------------------------------

  lemma {:induction false} TextLessConcat(x: string, y: string, u: string, v: string)
    requires |x| == |y|
    ensures TextLess(x + u, y + v) <==> TextLess(x, y) || (x == y && TextLess(u, v))
  {
    if |x| == 0 {
      assert x + u == u && y + v == v;
    } else {
      assert (x + u)[1..] == x[1..] + u && (y + v)[1..] == y[1..] + v;
      TextLessConcat(x[1..], y[1..], u, v);
      assert x == [x[0]] + x[1..] && y == [y[0]] + y[1..];
    }
  }

  lemma {:induction false} DecOrder(a: nat, b: nat, w: nat)
    requires a < Pow10(w) && b < Pow10(w)
    ensures TextLess(Dec(a, w), Dec(b, w)) <==> a < b
    ensures Dec(a, w) == Dec(b, w) <==> a == b
  {
    if w > 0 {
      DecOrder(a / 10, b / 10, w - 1);
      var p, q := Dec(a / 10, w - 1), Dec(b / 10, w - 1);
      TextLessConcat(p, q, [Digit(a % 10)], [Digit(b % 10)]);
      assert (p + [Digit(a % 10)])[..w - 1] == p && (q + [Digit(b % 10)])[..w - 1] == q;
      assert (p + [Digit(a % 10)])[w - 1] == Digit(a % 10) && (q + [Digit(b % 10)])[w - 1] == Digit(b % 10);
    }
  }

  lemma {:induction false} ValOfDec(n: nat, w: nat)
    requires n < Pow10(w)
    ensures Val(Dec(n, w)) == n
  {
    if w > 0 {
      ValOfDec(n / 10, w - 1);
      assert Dec(n, w)[..w - 1] == Dec(n / 10, w - 1);
    }
  }

  /** A field of fixed width followed by more text orders first by the field. */
  lemma FieldOrder(a: nat, b: nat, w: nat, sep: string, u: string, v: string)
    requires a < Pow10(w) && b < Pow10(w)
    ensures TextLess(Dec(a, w) + (sep + u), Dec(b, w) + (sep + v)) <==> a < b || (a == b && TextLess(u, v))
    ensures Dec(a, w) + (sep + u) == Dec(b, w) + (sep + v) <==> a == b && u == v
  {
    DecOrder(a, b, w);
    TextLessConcat(Dec(a, w), Dec(b, w), sep + u, sep + v);
    TextLessConcat(sep, sep, u, v);
    TextIrreflexive(sep);
    var x, y := Dec(a, w) + (sep + u), Dec(b, w) + (sep + v);
    if x == y {
      assert x[..w] == Dec(a, w) && y[..w] == Dec(b, w);
      assert x[w + |sep|..] == u && y[w + |sep|..] == v;
    }
  }

  lemma {:induction false} TextIrreflexive(a: string)
    ensures !TextLess(a, a)
  {
    if |a| > 0 { TextIrreflexive(a[1..]); }
  }

  lemma {:induction false} TextTotal(a: string, b: string)
    ensures TextLess(a, b) || a == b || TextLess(b, a)
    ensures !(TextLess(a, b) && TextLess(b, a))
  {
    if |a| > 0 && |b| > 0 {
      TextTotal(a[1..], b[1..]);
      assert a == [a[0]] + a[1..] && b == [b[0]] + b[1..];
    }
  }

  lemma {:induction false} TextTransitive(a: string, b: string, c: string)
    requires TextLeq(a, b) && TextLeq(b, c)
    ensures TextLeq(a, c)
  {
    if a != b && b != c && |a| > 0 && a[0] == b[0] == c[0] {
      TextTransitive(a[1..], b[1..], c[1..]);
      assert a == [a[0]] + a[1..] && c == [c[0]] + c[1..];
    }
  }

  // ---- proofs: whole seconds -------------------------------------------------

  predicate CivilLess(a: Time, b: Time) {
    a.year < b.year || (a.year == b.year && (
    a.month < b.month || (a.month == b.month && (
    a.day < b.day || (a.day == b.day && (
    a.hour < b.hour || (a.hour == b.hour && (
    a.minute < b.minute || (a.minute == b.minute && a.second < b.second)))))))))
  }

  predicate SameSecond(a: Time, b: Time) {
    a.(nanos := 0) == b.(nanos := 0)
  }

  lemma SecondTextOrder(a: Time, b: Time)
    ensures TextLess(SecondText(a), SecondText(b)) <==> CivilLess(a, b)
    ensures SecondText(a) == SecondText(b) <==> SameSecond(a, b)
  {
    DecOrder(a.second, b.second, 2);
    var a1, b1 := Dec(a.second, 2), Dec(b.second, 2);
    FieldOrder(a.minute, b.minute, 2, ":", a1, b1);
    var a2, b2 := Dec(a.minute, 2) + (":" + a1), Dec(b.minute, 2) + (":" + b1);
    FieldOrder(a.hour, b.hour, 2, ":", a2, b2);
    var a3, b3 := Dec(a.hour, 2) + (":" + a2), Dec(b.hour, 2) + (":" + b2);
    FieldOrder(a.day, b.day, 2, "T", a3, b3);
    var a4, b4 := Dec(a.day, 2) + ("T" + a3), Dec(b.day, 2) + ("T" + b3);
    FieldOrder(a.month, b.month, 2, "-", a4, b4);
    var a5, b5 := Dec(a.month, 2) + ("-" + a4), Dec(b.month, 2) + ("-" + b4);
    FieldOrder(a.year, b.year, 4, "-", a5, b5);
  }

  lemma {:induction false} DaysBeforeMonthGrows(m: nat, n: nat, year: nat)
    requires 1 <= m < n <= 12
    ensures DaysBeforeMonth(m, year) + DaysIn(m, year) <= DaysBeforeMonth(n, year)
    decreases n
  {
    if m < n - 1 { DaysBeforeMonthGrows(m, n - 1, year); }
  }

  lemma DayOfYear(t: Time)
    ensures DaysBeforeMonth(t.month, t.year) + t.day <= if LeapYear(t.year) then 366 else 365
  {
    assert DaysBeforeMonth(12, t.year) + 31 == if LeapYear(t.year) then 366 else 365 by {
      assert DaysBeforeMonth(4, t.year) == 62 + DaysIn(2, t.year) by { assert DaysBeforeMonth(2, t.year) == 31; }
      assert DaysBeforeMonth(7, t.year) == DaysBeforeMonth(4, t.year) + 91 by {
        assert DaysBeforeMonth(5, t.year) == DaysBeforeMonth(4, t.year) + 30;
      }
      assert DaysBeforeMonth(10, t.year) == DaysBeforeMonth(7, t.year) + 92 by {
        assert DaysBeforeMonth(8, t.year) == DaysBeforeMonth(7, t.year) + 31;
      }
      assert DaysBeforeMonth(11, t.year) == DaysBeforeMonth(10, t.year) + 31;
    }
    if t.month < 12 { DaysBeforeMonthGrows(t.month, 12, t.year); }
  }

  lemma {:induction false} DaysBeforeYearGrows(y: nat, z: nat)
    requires y < z
    ensures DaysBeforeYear(y) + (if LeapYear(y) then 366 else 365) <= DaysBeforeYear(z)
    decreases z
  {
    if y < z - 1 { DaysBeforeYearGrows(y, z - 1); }
  }

  lemma CivilLessIsEarlier(a: Time, b: Time)
    requires CivilLess(a, b)
    ensures WholeSecond(a) < WholeSecond(b)
  {
    DayOfYear(a);
    DayOfYear(b);
    if a.year < b.year {
      DaysBeforeYearGrows(a.year, b.year);
    } else if a.month < b.month {
      DaysBeforeMonthGrows(a.month, b.month, a.year);
    }
  }

  /** The calendar order, the order of instants and the order of the first nineteen
      characters are one order. */
  lemma SecondOrder(a: Time, b: Time)
    ensures TextLess(SecondText(a), SecondText(b)) <==> WholeSecond(a) < WholeSecond(b)
    ensures SecondText(a) == SecondText(b) <==> WholeSecond(a) == WholeSecond(b)
  {
    SecondTextOrder(a, b);
    if CivilLess(a, b) { CivilLessIsEarlier(a, b); }
    if CivilLess(b, a) { CivilLessIsEarlier(b, a); }
  }

  // ---- proofs: fractions -----------------------------------------------------

  lemma {:induction false} TrimFacts(s: string)
    ensures TrimZeros(s) <= s
    ensures forall k :: |TrimZeros(s)| <= k < |s| ==> s[k] == '0'
    ensures |TrimZeros(s)| > 0 ==> s[|TrimZeros(s)| - 1] != '0'
  {
    if |s| > 0 && s[|s| - 1] == '0' { TrimFacts(s[..|s| - 1]); }
  }

  lemma {:induction false} FirstDifference(x: string, y: string) returns (k: nat)
    requires |x| == |y| && TextLess(x, y)
    ensures k < |x| && x[..k] == y[..k] && x[k] < y[k]
  {
    if x[0] < y[0] {
      k := 0;
    } else {
      var j := FirstDifference(x[1..], y[1..]);
      k := j + 1;
      assert x[..k] == [x[0]] + x[1..][..j] && y[..k] == [y[0]] + y[1..][..j];
    }
  }

  lemma {:induction false} DifferenceDecides(x: string, y: string, k: nat)
    requires k < |x| && k < |y| && x[..k] == y[..k] && x[k] < y[k]
    ensures TextLess(x, y) && !TextLess(y, x)
  {
    if k > 0 {
      assert x[..k][0] == x[0] && y[..k][0] == y[0];
      assert x[1..][..k - 1] == x[..k][1..] && y[1..][..k - 1] == y[..k][1..];
      DifferenceDecides(x[1..], y[1..], k - 1);
    }
  }

  /** Two digit strings, trimmed and closed by 'Z', order like the originals unless
      the smaller one trims to a prefix of the other; then they are reversed. */
  lemma TrimmedOrder(x: string, y: string)
    requires |x| == |y| && AllDigits(x) && AllDigits(y) && TextLess(x, y)
    ensures |TrimZeros(y)| > 0
    ensures var p, q := TrimZeros(x), TrimZeros(y);
            if p <= q then TextLess(q + "Z", p + "Z") && !TextLess(p + "Z", q + "Z")
            else TextLess(p + "Z", q + "Z") && !TextLess(q + "Z", p + "Z")
  {
    var k := FirstDifference(x, y);
    TrimFacts(x);
    TrimFacts(y);
    var p, q := TrimZeros(x), TrimZeros(y);
    assert k < |q|;
    if k < |p| {
      assert p[..k] == x[..k] && q[..k] == y[..k];
      assert (p + "Z")[..k] == p[..k] && (q + "Z")[..k] == q[..k];
      DifferenceDecides(p + "Z", q + "Z", k);
      assert p[k] != q[k];
    } else {
      assert p == x[..k][..|p|] && q[..|p|] == y[..k][..|p|];
      assert p <= q;
      assert (q + "Z")[..|p|] == p == (p + "Z")[..|p|];
      DifferenceDecides(q + "Z", p + "Z", |p|);
    }
  }

  /** Inside one second the text order is the time order unless the earlier fraction
      is written as a prefix of the later one; then it is reversed. */
  lemma TailOrder(m: nat, n: nat)
    requires m < n < 1000000000
    ensures TextLess(Tail(m), Tail(n)) <==> !(FracDigits(m) <= FracDigits(n))
    ensures TextLess(Tail(n), Tail(m)) <==> FracDigits(m) <= FracDigits(n)
  {
    DecOrder(m, n, 9);
    TrimmedOrder(Dec(m, 9), Dec(n, 9));
    var p, q := FracDigits(m), FracDigits(n);
    TextLessConcat(".", ".", p + "Z", q + "Z");
    TextLessConcat(".", ".", q + "Z", p + "Z");
    TextIrreflexive(".");
    assert "." + (p + "Z") == "." + p + "Z" && "." + (q + "Z") == "." + q + "Z";
    if m == 0 {
      FracDigitsOfZero();
      DifferenceDecides(Tail(n), Tail(m), 0);
    }
  }

  lemma FracDigitsOfZero()
    ensures FracDigits(0) == ""
    ensures forall k :: 0 <= k < 9 ==> Dec(0, 9)[k] == '0'
  {
    DecZero(9);
    TrimFacts(Dec(0, 9));
  }

  lemma {:induction false} DecZero(w: nat)
    requires 0 < Pow10(w)
    ensures forall k :: 0 <= k < w ==> Dec(0, w)[k] == '0'
  {
    if w > 0 { DecZero(w - 1); }
  }

  // ---- main results ----------------------------------------------------------

  predicate Earlier(a: Time, b: Time) {
    WholeSecond(a) < WholeSecond(b) || (WholeSecond(a) == WholeSecond(b) && a.nanos < b.nanos)
  }

  /** Exactly when the stored text of an earlier time sorts first. */
  lemma StoredOrder(a: Time, b: Time)
    requires Earlier(a, b)
    ensures TextLess(FmtTime(a), FmtTime(b)) <==>
            WholeSecond(a) < WholeSecond(b) || !(FracDigits(a.nanos) <= FracDigits(b.nanos))
  {
    SecondOrder(a, b);
    TextLessConcat(SecondText(a), SecondText(b), Tail(a.nanos), Tail(b.nanos));
    TextIrreflexive(SecondText(a));
    if WholeSecond(a) == WholeSecond(b) { TailOrder(a.nanos, b.nanos); }
  }

  /** Sorting by stored text never puts a later whole second first. */
  lemma TextSortsSeconds(a: Time, b: Time)
    requires TextLeq(FmtTime(a), FmtTime(b))
    ensures WholeSecond(a) <= WholeSecond(b)
  {
    if WholeSecond(b) < WholeSecond(a) {
      StoredOrder(b, a);
      TextTotal(FmtTime(a), FmtTime(b));
      TextIrreflexive(FmtTime(a));
    }
  }

  /** A half second past sorts before the second it follows. */
  lemma ReversedWithinSecond()
    ensures var a, b := Time(2025, 1, 1, 0, 0, 5, 0), Time(2025, 1, 1, 0, 0, 5, 500000000);
            ValidTime(a) && ValidTime(b) && Earlier(a, b) && TextLess(FmtTime(b), FmtTime(a))
  {
    var a, b := Time(2025, 1, 1, 0, 0, 5, 0), Time(2025, 1, 1, 0, 0, 5, 500000000);
    SecondOrder(a, b);
    TailOrder(0, 500000000);
    FracDigitsOfZero();
    TextLessConcat(SecondText(b), SecondText(a), Tail(b.nanos), Tail(a.nanos));
  }

  lemma {:induction false} ValOfTrimmed(s: string)
    requires AllDigits(s)
    ensures TrimZeros(s) <= s && AllDigits(TrimZeros(s))
    ensures Val(TrimZeros(s)) * Pow10(|s| - |TrimZeros(s)|) == Val(s)
  {
    TrimFacts(s);
    if |s| > 0 && s[|s| - 1] == '0' {
      var r := s[..|s| - 1];
      ValOfTrimmed(r);
      var k := |r| - |TrimZeros(r)|;
      assert Pow10(k + 1) == 10 * Pow10(k);
      TimesTen(Val(TrimZeros(r)), Pow10(k));
    }
  }

  lemma TimesTen(v: nat, p: nat)
    ensures v * (10 * p) == 10 * (v * p)
  {
  }

  /** Every stored time reads back as itself, to the nanosecond. */
  lemma ParseFormat(t: Time)
    ensures ParseTime(FmtTime(t)) == Some(t)
  {
    FormatIsShaped(t);
    FracReadsBack(t.nanos);
    FieldValues(t);
    ParseByFields(FmtTime(t), t, FracDigits(t.nanos));
  }

  lemma FieldValues(t: Time)
    ensures Val(Dec(t.year, 4)) == t.year && Val(Dec(t.month, 2)) == t.month && Val(Dec(t.day, 2)) == t.day
    ensures Val(Dec(t.hour, 2)) == t.hour && Val(Dec(t.minute, 2)) == t.minute && Val(Dec(t.second, 2)) == t.second
  {
    ValOfDec(t.year, 4);
    ValOfDec(t.month, 2);
    ValOfDec(t.day, 2);
    ValOfDec(t.hour, 2);
    ValOfDec(t.minute, 2);
    ValOfDec(t.second, 2);
  }

  lemma ParseByFields(s: string, t: Time, p: string)
    requires Shaped(s)
    requires Val(s[0..4]) == t.year && Val(s[5..7]) == t.month && Val(s[8..10]) == t.day
    requires Val(s[11..13]) == t.hour && Val(s[14..16]) == t.minute && Val(s[17..19]) == t.second
    requires if t.nanos == 0 then |s| == 20
             else 0 < |p| <= 9 && AllDigits(p) && |s| == 21 + |p| && s[20..|s| - 1] == p && Val(p) * Pow10(9 - |p|) == t.nanos
    ensures ParseTime(s) == Some(t)
  {
  }

  lemma FormatIsShaped(t: Time)
    ensures var s := FmtTime(t);
            && Shaped(s)
            && s[0..4] == Dec(t.year, 4) && s[5..7] == Dec(t.month, 2) && s[8..10] == Dec(t.day, 2)
            && s[11..13] == Dec(t.hour, 2) && s[14..16] == Dec(t.minute, 2) && s[17..19] == Dec(t.second, 2)
            && (t.nanos == 0 ==> |s| == 20)
            && (t.nanos > 0 ==> |s| == 21 + |FracDigits(t.nanos)| && s[20..|s| - 1] == FracDigits(t.nanos))
  {
    FracReadsBack(t.nanos);
    var tail, p := Tail(t.nanos), FracDigits(t.nanos);
    Layout(Dec(t.year, 4), Dec(t.month, 2), Dec(t.day, 2), Dec(t.hour, 2), Dec(t.minute, 2), Dec(t.second, 2), tail);
    var s := FmtTime(t);
    assert s[19..] == tail;
    assert forall k :: 19 <= k < |s| ==> s[k] == tail[k - 19];
    if t.nanos > 0 {
      assert tail[1..|tail| - 1] == p;
      assert s[20..|s| - 1] == p;
    }
  }

  lemma FracReadsBack(nanos: nat)
    requires nanos < 1000000000
    ensures nanos == 0 ==> Tail(nanos) == "Z"
    ensures nanos > 0 ==>
      var p := FracDigits(nanos);
      && 0 < |p| <= 9 && AllDigits(p)
      && Tail(nanos) == "." + p + "Z"
      && Val(p) * Pow10(9 - |p|) == nanos
  {
    ValOfDec(nanos, 9);
    ValOfTrimmed(Dec(nanos, 9));
    var p := FracDigits(nanos);
    if |p| == 0 { assert Val(p) == 0; }
  }

  lemma Piece(x: string, sep: char, u: string)
    ensures var s := x + ([sep] + u); s[0..|x|] == x && s[|x|] == sep && s[|x| + 1..] == u
  {
  }

  lemma Slices(s: string, k: nat)
    requires k <= |s|
    ensures forall i, j :: 0 <= i <= j <= |s| - k ==> s[k..][i..j] == s[i + k..j + k]
    ensures forall i :: 0 <= i < |s| - k ==> s[k..][i] == s[i + k]
    ensures forall i :: 0 <= i <= |s| - k ==> s[k..][i..] == s[i + k..]
  {
  }

  /** Where each field of the stored text stands. */
  lemma Layout(y: string, mo: string, d: string, h: string, mi: string, se: string, tail: string)
    requires |y| == 4 && |mo| == |d| == |h| == |mi| == |se| == 2
    ensures var s := (y + ("-" + (mo + ("-" + (d + ("T" + (h + (":" + (mi + (":" + se)))))))))) + tail;
            && |s| == 19 + |tail| && s[19..] == tail
            && s[4] == '-' && s[7] == '-' && s[10] == 'T' && s[13] == ':' && s[16] == ':'
            && s[0..4] == y && s[5..7] == mo && s[8..10] == d
            && s[11..13] == h && s[14..16] == mi && s[17..19] == se
  {
    var s := (y + ("-" + (mo + ("-" + (d + ("T" + (h + (":" + (mi + (":" + se)))))))))) + tail;
    var f6 := se + tail;
    var f5 := mi + ([':'] + f6);
    var f4 := h + ([':'] + f5);
    var f3 := d + (['T'] + f4);
    var f2 := mo + (['-'] + f3);
    assert s == y + (['-'] + f2);
    Piece(y, '-', f2);
    Piece(mo, '-', f3);
    Slices(s, 5);
    Piece(d, 'T', f4);
    Slices(s, 8);
    Piece(h, ':', f5);
    Slices(s, 11);
    Piece(mi, ':', f6);
    Slices(s, 14);
    Slices(s, 17);
    assert f6[0..2] == se && f6[2..] == tail;
  }

  /** Distinct times are stored as distinct texts. */
  lemma FormatInjective(a: Time, b: Time)
    requires FmtTime(a) == FmtTime(b)
    ensures a == b
  {
    ParseFormat(a);
    ParseFormat(b);
  }
}
