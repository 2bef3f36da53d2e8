// Timestamps as text, in the `date-time` form of section 5.6 of RFC 3339
// (grain-agent-harness/src/session.rs `now_iso` and `parse_iso_to_ms`): padded fields at
// fixed positions, printed from a count of milliseconds and read back from the text.
module Timestamps {
  import opened Messages
  import opened CivilDate

  function Digit(n: nat): char
    requires n < 10
  {
    "0123456789"[n]
  }

  // Decimal, padded with zeros to at least this width.
  function Pad(n: nat, width: nat): string
    decreases n + width
  {
    if n < 10 && width <= 1 then [Digit(n)]
    else Pad(n / 10, if width > 0 then width - 1 else 0) + [Digit(n % 10)]
  }

  // A sign counts toward the width.
  function PadInt(n: int, width: nat): string {
    if n < 0 then "-" + Pad(-n, if width > 0 then width - 1 else 0) else Pad(n, width)
  }

  function Pow10(w: nat): nat { if w == 0 then 1 else 10 * Pow10(w - 1) }

  predicate IsDigit(c: char) { '0' <= c <= '9' }

  function DigitValue(c: char): nat
    requires IsDigit(c)
  {
    c as int - '0' as int
  }

  function Value(s: string, n: nat): nat
    requires n <= |s| && forall i :: 0 <= i < n ==> IsDigit(s[i])
  {
    if n == 0 then 0 else 10 * Value(s, n - 1) + DigitValue(s[n - 1])
  }

  predicate AllDigits(s: string) { s != [] && forall i :: 0 <= i < |s| ==> IsDigit(s[i]) }

  function Negated(n: int): int { -n }

  // A number with an optional sign.
  function ParseInt(s: string): Option<int> {
    if AllDigits(s) then Some(Value(s, |s|))
    else if s != [] && s[0] == '+' && AllDigits(s[1..]) then Some(Value(s[1..], |s| - 1))
    else if s != [] && s[0] == '-' && AllDigits(s[1..]) then Some(Negated(Value(s[1..], |s| - 1)))
    else None
  }

  function ValueOr0(s: string): int {
    match ParseInt(s)
    case Some(n) => n
    case None => 0
  }

  function AsU32(n: int): nat { n % 0x1_0000_0000 }

  // Seconds since the epoch and milliseconds, as `now_iso` prints them.
  function PrintIso(secs: int, millis: nat): string {
    PrintFields(FromDays(secs / 86400), secs % 86400, millis)
  }

  function PrintFields(date: Date, time: nat, millis: nat): string {
    PadInt(date.year, 4) + "-" + Pad(date.month, 2) + "-" + Pad(date.day, 2) + "T"
    + Pad(time / 3600, 2) + ":" + Pad(time % 3600 / 60, 2) + ":" + Pad(time % 60, 2) + "." + Pad(millis, 3) + "Z"
  }

  // What is not a number counts as zero, and a text too short as the epoch.
  function ParseIso(iso: string): int {
    if |iso| < 20 then 0
    else
      var date := Date(ValueOr0(iso[0..4]), AsU32(ValueOr0(iso[5..7])), AsU32(ValueOr0(iso[8..10])));
      var ms := if |iso| >= 23 then ValueOr0(iso[20..23]) else 0;
      Instant(date, ValueOr0(iso[11..13]), ValueOr0(iso[14..16]), ValueOr0(iso[17..19]), ms)
  }

  function Instant(date: Date, hour: int, min: int, sec: int, ms: int): int {
    (DaysFromCivil(date) * 86400 + hour * 3600 + min * 60 + sec) * 1000 + ms
  }

  lemma {:induction false} ValueSame(s: string, c: char, n: nat)
    requires n <= |s| && forall i :: 0 <= i < n ==> IsDigit(s[i])
    ensures (forall i :: 0 <= i < n ==> IsDigit((s + [c])[i])) && Value(s + [c], n) == Value(s, n)
  {
    if n > 0 {
      ValueSame(s, c, n - 1);
    }
  }

  lemma DigitIsValue(n: nat)
    requires n < 10
    ensures IsDigit(Digit(n)) && DigitValue(Digit(n)) == n
  {
  }

  lemma {:induction false} PadParses(n: nat, width: nat)
    ensures AllDigits(Pad(n, width)) && Value(Pad(n, width), |Pad(n, width)|) == n
    decreases n + width
  {
    DigitIsValue(n % 10);
    if n < 10 && width <= 1 {
      assert Value([Digit(n)], 1) == 10 * Value([Digit(n)], 0) + n;
    } else {
      var w := if width > 0 then width - 1 else 0;
      var front, last := Pad(n / 10, w), Digit(n % 10);
      PadParses(n / 10, w);
      ValueSame(front, last, |front|);
      assert Value(front + [last], |front| + 1) == 10 * (n / 10) + n % 10;
    }
  }

  lemma {:induction false} PadLength(n: nat, width: nat)
    requires width > 0 && n < Pow10(width)
    ensures |Pad(n, width)| == width
  {
    if width > 1 {
      PadLength(n / 10, width - 1);
    } else {
      assert Pow10(1) == 10 * Pow10(0);
    }
  }

  lemma DigitsParse(s: string)
    requires AllDigits(s) && s != []
    ensures ValueOr0(s) == Value(s, |s|) && (Value(s, |s|) > 0 ==> ValueOr0(['-'] + s) == Negated(Value(s, |s|)))
  {
    var negative := ['-'] + s;
    assert negative[1..] == s && negative[0] == '-' && !IsDigit(negative[0]);
  }

  lemma PadIsField(n: nat, width: nat, s: string)
    requires width > 0 && n < Pow10(width) && s == Pad(n, width)
    ensures |s| == width && AllDigits(s) && Value(s, |s|) == n
  {
    PadParses(n, width);
    PadLength(n, width);
  }

  lemma PadIntParses(n: int, width: nat)
    requires width > 1 && n < Pow10(width) && Negated(n) < Pow10(width - 1)
    ensures |PadInt(n, width)| == width && ValueOr0(PadInt(n, width)) == n
  {
    var size, w := if n < 0 then -n else n, if n < 0 then width - 1 else width;
    var digits := Pad(size, w);
    PadIsField(size, w, digits);
    DigitsParse(digits);
  }

  // Where the fields of a printed timestamp are.
  lemma Layout(year: string, month: string, day: string, hour: string, min: string, sec: string, ms: string)
    requires |year| == 4 && |month| == |day| == |hour| == |min| == |sec| == 2 && |ms| == 3
    ensures
      var iso := year + "-" + month + "-" + day + "T" + hour + ":" + min + ":" + sec + "." + ms + "Z";
      && |iso| == 24
      && iso[0..4] == year && iso[5..7] == month && iso[8..10] == day
      && iso[11..13] == hour && iso[14..16] == min && iso[17..19] == sec && iso[20..23] == ms
      && iso[4] == iso[7] == '-' && iso[10] == 'T' && iso[13] == iso[16] == ':' && iso[19] == '.' && iso[23] == 'Z'
  {
  }

  // A printed timestamp has the RFC's form: digits but for the separators at their places.
  lemma PrintedInForm(secs: int, millis: nat)
    requires millis < 1000 && 0 <= FromDays(secs / 86400).year < 10000
    ensures var iso := PrintIso(secs, millis);
      && |iso| == 24 && iso[4] == iso[7] == '-' && iso[10] == 'T' && iso[13] == iso[16] == ':' && iso[19] == '.' && iso[23] == 'Z'
      && AllDigits(iso[0..4]) && AllDigits(iso[5..7]) && AllDigits(iso[8..10])
      && AllDigits(iso[11..13]) && AllDigits(iso[14..16]) && AllDigits(iso[17..19]) && AllDigits(iso[20..23])
  {
    var date, time := FromDays(secs / 86400), secs % 86400;
    FieldsInRange(secs);
    Powers();
    PadIsField(date.year, 4, Pad(date.year, 4));
    PadIsField(date.month, 2, Pad(date.month, 2));
    PadIsField(date.day, 2, Pad(date.day, 2));
    PadIsField(time / 3600, 2, Pad(time / 3600, 2));
    PadIsField(time % 3600 / 60, 2, Pad(time % 3600 / 60, 2));
    PadIsField(time % 60, 2, Pad(time % 60, 2));
    PadIsField(millis, 3, Pad(millis, 3));
    Layout(Pad(date.year, 4), Pad(date.month, 2), Pad(date.day, 2), Pad(time / 3600, 2), Pad(time % 3600 / 60, 2), Pad(time % 60, 2), Pad(millis, 3));
  }

  // The printed fields are in range.
  lemma FieldsInRange(secs: int)
    ensures IsDate(FromDays(secs / 86400))
    ensures var time := secs % 86400;
      0 <= time / 3600 < 24 && 0 <= time % 3600 / 60 < 60 && 0 <= time % 60 < 60
      && time / 3600 * 3600 + time % 3600 / 60 * 60 + time % 60 == time
  {
    DaysToDateAndBack(secs / 86400);
    TimeOfDay(secs % 86400);
  }

  lemma TimeOfDay(time: int)
    requires 0 <= time < 86400
    ensures 0 <= time / 3600 < 24 && 0 <= time % 3600 / 60 < 60 && 0 <= time % 60 < 60
    ensures time / 3600 * 3600 + time % 3600 / 60 * 60 + time % 60 == time
  {
    var h, r := time / 3600, time % 3600;
    Divided(time, 60, 60 * h + r / 60, r % 60);
  }

  // Parsing a printed timestamp gives back the instant, to the millisecond, for every
  // instant whose year prints in four characters.
  lemma PrintedParsesBack(secs: int, millis: nat)
    requires millis < 1000
    requires -1000 < FromDays(secs / 86400).year < 10000
    ensures ParseIso(PrintIso(secs, millis)) == secs * 1000 + millis
  {
    FieldsInRange(secs);
    DaysToDateAndBack(secs / 86400);
    FieldsParseBack(FromDays(secs / 86400), secs / 86400, secs % 86400, millis);
  }

  lemma FieldsParseBack(date: Date, days: int, time: int, millis: nat)
    requires IsDate(date) && DaysFromCivil(date) == days && -1000 < date.year < 10000
    requires 0 <= time < 86400 && millis < 1000
    ensures ParseIso(PrintFields(date, time, millis)) == (days * 86400 + time) * 1000 + millis
  {
    var hour, min, sec := time / 3600, time % 3600 / 60, time % 60;
    TimeOfDay(time);
    Powers();
    PadIntParses(date.year, 4);
    PadIntParses(date.month, 2);
    PadIntParses(date.day, 2);
    PadIntParses(hour, 2);
    PadIntParses(min, 2);
    PadIntParses(sec, 2);
    PadIntParses(millis, 3);
    ParseFields(PadInt(date.year, 4), Pad(date.month, 2), Pad(date.day, 2), Pad(hour, 2), Pad(min, 2), Pad(sec, 2), Pad(millis, 3), date);
  }

  lemma ParseFields(year: string, month: string, day: string, hour: string, min: string, sec: string, ms: string, date: Date)
    requires |year| == 4 && |month| == |day| == |hour| == |min| == |sec| == 2 && |ms| == 3
    requires ValueOr0(year) == date.year && ValueOr0(month) == date.month <= 12 && ValueOr0(day) == date.day <= 31
    ensures ParseIso(year + "-" + month + "-" + day + "T" + hour + ":" + min + ":" + sec + "." + ms + "Z")
      == Instant(date, ValueOr0(hour), ValueOr0(min), ValueOr0(sec), ValueOr0(ms))
  {
    Layout(year, month, day, hour, min, sec, ms);
    assert Date(date.year, AsU32(date.month), AsU32(date.day)) == date;
  }

  lemma Powers()
    ensures Pow10(1) == 10 && Pow10(2) == 100 && Pow10(3) == 1000 && Pow10(4) == 10000
  {
    assert Pow10(0) == 1;
  }
}
