/** Reading a civil date and time with `datetime.strptime(text, '%d/%m/%Y %H:%M')`
    on ASCII digits (CPython's `\d` also takes other Unicode decimal
    digits, which this reader rejects): each directive is a small regular
    expression (`%d` is `3[01]|[12]\d|0[1-9]|[1-9]| [1-9]`, `%m` is `1[0-2]|0[1-9]|[1-9]`,
    `%Y` is four digits, `%H` is `2[0-3]|[0-1]\d|\d`, `%M` is `[0-5]\d|\d`),
    the space in the format matches one or more whitespace characters, the
    whole text must be consumed, and the date must exist in the proleptic
    Gregorian calendar (year 1 to 9999, day within its month, leap years). */
module CivilTime {
  import opened Wrappers
  import opened Chars

  /** A wall-clock reading, before it is localised to an instant. */
  datatype Civil = Civil(year: int, month: int, day: int, hour: int, minute: int)

  predicate IsLeapYear(y: int)
  {
    y % 4 == 0 && (y % 100 != 0 || y % 400 == 0)
  }

  function DaysInMonth(y: int, m: int): (n: int)
    requires 1 <= m <= 12
    ensures 28 <= n <= 31
    ensures m == 2 ==> (n == 29 <==> IsLeapYear(y))
  {
    if m == 2 then (if IsLeapYear(y) then 29 else 28)
    else if m == 4 || m == 6 || m == 9 || m == 11 then 30
    else 31
  }

  /** A date and time that `datetime` can hold, at minute precision. */
  predicate Valid(c: Civil)
  {
    && 1 <= c.year <= 9999
    && 1 <= c.month <= 12
    && 1 <= c.day <= DaysInMonth(c.year, c.month)
    && 0 <= c.hour <= 23
    && 0 <= c.minute <= 59
  }

  /** A directive matching either one digit at least `lo`, or two digits
      whose value lies in `lo..hi`. */
  function NumberField(s: string, lo: nat, hi: nat): (r: Option<int>)
    ensures r.Some? ==> lo <= r.value <= hi || (|s| == 1 && lo <= r.value <= 9)
  {
    if |s| == 1 && IsDigit(s[0]) && lo <= DigitValue(s[0]) then Some(DigitValue(s[0]))
    else if |s| == 2 && IsDigit(s[0]) && IsDigit(s[1]) then
      var n := DigitValue(s[0]) * 10 + DigitValue(s[1]);
      if lo <= n <= hi then Some(n) else None
    else None
  }

  /** `%d`, which also accepts a space before a single non-zero digit. */
  function DayField(s: string): (r: Option<int>)
    ensures r.Some? ==> 1 <= r.value <= 31
  {
    if |s| == 2 && s[0] == ' ' && IsDigit(s[1]) && 1 <= DigitValue(s[1]) then Some(DigitValue(s[1]))
    else NumberField(s, 1, 31)
  }

  /** Builds the reading once every field has matched, rejecting dates
      that do not exist. */
  function Assemble(day: Option<int>, month: Option<int>, year: int, hour: Option<int>, minute: Option<int>): (r: Option<Civil>)
    ensures r.Some? ==> Valid(r.value)
  {
    if day.None? || month.None? || hour.None? || minute.None? then None
    else
      var c := Civil(year, month.value, day.value, hour.value, minute.value);
      if Valid(c) then Some(c) else None
  }

  /** The part after the second `/`: four year digits, whitespace, `%H:%M`. */
  function ParseYearAndClock(dayText: string, monthText: string, rest: string): (r: Option<Civil>)
    ensures r.Some? ==> Valid(r.value)
  {
    if |rest| < 4 || !AllDigits(rest[..4]) then None
    else
      var tail := rest[4..];
      var k := SpanSpaces(tail);
      if k == 0 then None
      else
        var clock := tail[k..];
        match FirstIndex(clock, ':')
        case None => None
        case Some(l) =>
          Assemble(DayField(dayText), NumberField(monthText, 1, 12), DigitsValue(rest[..4]),
                   NumberField(clock[..l], 0, 23), NumberField(clock[l + 1..], 0, 59))
  }

  /** `strptime(text, '%d/%m/%Y %H:%M')`; `None` where it raises `ValueError`.
      Whatever it accepts is a date and time that exists. */
  function ParseCivil(s: string): (r: Option<Civil>)
    ensures r.Some? ==> Valid(r.value)
  {
    match FirstIndex(s, '/')
    case None => None
    case Some(i) =>
      var afterDay := s[i + 1..];
      match FirstIndex(afterDay, '/')
      case None => None
      case Some(j) => ParseYearAndClock(s[..i], afterDay[..j], afterDay[j + 1..])
  }

  /** Two zero-padded digits. */
  function Pad2(n: nat): (s: string)
    requires n <= 99
    ensures |s| == 2 && AllDigits(s) && DigitsValue(s) == n
  {
    var s := [DigitChar(n / 10), DigitChar(n % 10)];
    assert s[..1] == [s[0]] && s[..1][..0] == [];
    assert DigitsValue(s[..1]) == n / 10;
    s
  }

  /** Four zero-padded digits. */
  function Pad4(n: nat): (s: string)
    requires n <= 9999
    ensures |s| == 4 && AllDigits(s) && DigitsValue(s) == n
  {
    var hi := Pad2(n / 100);
    var s := hi + Pad2(n % 100);
    assert s[..3][..2] == hi;
    assert s[..3] == hi + [s[2]];
    assert s[..2] == hi;
    s
  }

  /** Fields that the canonical spelling can write: a four-digit year and
      two-digit month, day, hour and minute (not necessarily a real date). */
  predicate Writable(c: Civil)
  {
    0 <= c.year <= 9999 && 0 <= c.month <= 99 && 0 <= c.day <= 99 && 0 <= c.hour <= 99 && 0 <= c.minute <= 99
  }

  /** `strftime('%d/%m/%Y %H:%M')`, the canonical spelling of a reading. */
  function Format(c: Civil): string
    requires Writable(c)
  {
    Pad2(c.day) + ['/'] + (Pad2(c.month) + ['/'] + (Pad4(c.year) + [' '] + (Pad2(c.hour) + [':'] + Pad2(c.minute))))
  }

  lemma NumberFieldPad2(n: nat, lo: nat, hi: nat)
    requires n <= 99 && lo <= hi <= 99
    ensures NumberField(Pad2(n), lo, hi) == if lo <= n <= hi then Some(n) else None
  {
  }

  /** The grammar of the accepted text: day, `/`, month, `/`, four year
      digits, a run of whitespace, hour, `:`, minute; each field is then
      checked by its own directive and the date by the calendar. */
  lemma ParseCivilFields(d: string, m: string, y: string, ws: string, h: string, mi: string)
    requires '/' !in d && '/' !in m
    requires |y| == 4 && AllDigits(y)
    requires 0 < |ws| && forall i :: 0 <= i < |ws| ==> IsSpace(ws[i])
    requires 0 < |h| && !IsSpace(h[0]) && ':' !in h
    ensures ParseCivil(d + ['/'] + (m + ['/'] + (y + ws + (h + [':'] + mi))))
         == Assemble(DayField(d), NumberField(m, 1, 12), DigitsValue(y), NumberField(h, 0, 23), NumberField(mi, 0, 59))
  {
    var rest := y + ws + (h + [':'] + mi);
    ParseCivilDate(d, m, rest);
    ParseClockFields(d, m, y, ws, h, mi);
  }

  lemma ParseCivilDate(d: string, m: string, rest: string)
    requires '/' !in d && '/' !in m
    ensures ParseCivil(d + ['/'] + (m + ['/'] + rest)) == ParseYearAndClock(d, m, rest)
  {
    var afterDay := m + ['/'] + rest;
    var s := d + ['/'] + afterDay;
    FirstIndexAfter(d, '/', afterDay);
    assert s[|d| + 1..] == afterDay && s[..|d|] == d;
    FirstIndexAfter(m, '/', rest);
    assert afterDay[|m| + 1..] == rest && afterDay[..|m|] == m;
  }

  lemma ParseClockFields(d: string, m: string, y: string, ws: string, h: string, mi: string)
    requires |y| == 4 && AllDigits(y)
    requires 0 < |ws| && forall i :: 0 <= i < |ws| ==> IsSpace(ws[i])
    requires 0 < |h| && !IsSpace(h[0]) && ':' !in h
    ensures ParseYearAndClock(d, m, y + ws + (h + [':'] + mi))
         == Assemble(DayField(d), NumberField(m, 1, 12), DigitsValue(y), NumberField(h, 0, 23), NumberField(mi, 0, 59))
  {
    var clock := h + [':'] + mi;
    var rest := y + ws + clock;
    assert rest[..4] == y;
    var tail := rest[4..];
    assert tail == ws + clock;
    SpanSpacesPrefix(ws, clock);
    assert tail[|ws|..] == clock;
    FirstIndexAfter(h, ':', mi);
    assert clock[..|h|] == h && clock[|h| + 1..] == mi;
  }

  lemma SpanSpacesPrefix(ws: string, t: string)
    requires forall i :: 0 <= i < |ws| ==> IsSpace(ws[i])
    requires 0 < |t| && !IsSpace(t[0])
    ensures SpanSpaces(ws + t) == |ws|
  {
    if ws != [] {
      assert (ws + t)[1..] == ws[1..] + t;
      SpanSpacesPrefix(ws[1..], t);
    }
  }

  /** A reading written in the canonical form is read back unchanged exactly
      when it is a real date and time, and is rejected otherwise (a 13th
      month, a 31st of April, a 29th of February outside leap years, hour
      24, minute 60, year 0). */
  lemma ParseFormat(c: Civil)
    requires Writable(c)
    ensures ParseCivil(Format(c)) == if Valid(c) then Some(c) else None
  {
    ParseCivilFields(Pad2(c.day), Pad2(c.month), Pad4(c.year), [' '], Pad2(c.hour), Pad2(c.minute));
    NumberFieldPad2(c.day, 1, 31);
    NumberFieldPad2(c.month, 1, 12);
    NumberFieldPad2(c.hour, 0, 23);
    NumberFieldPad2(c.minute, 0, 59);
  }

  /** 29 February is read only in leap years. */
  lemma LeapDay(year: int, hour: int, minute: int)
    requires 1 <= year <= 9999 && 0 <= hour <= 23 && 0 <= minute <= 59
    ensures ParseCivil(Format(Civil(year, 2, 29, hour, minute))).Some? <==> IsLeapYear(year)
  {
    ParseFormat(Civil(year, 2, 29, hour, minute));
  }

  /** The example of an impossible reading: month 13, hour 25, minute 61. */
  lemma RejectsImpossibleReading()
    ensures ParseCivil("31/13/2025 25:61") == None
  {
    assert "31/13/2025 25:61" == "31" + ['/'] + ("13" + ['/'] + ("2025" + " " + ("25" + [':'] + "61")));
    ParseCivilFields("31", "13", "2025", " ", "25", "61");
    assert NumberField("13", 1, 12) == None;
  }

  lemma UnpaddedFields()
    ensures "1/2/2030  9:05" == "1" + ['/'] + ("2" + ['/'] + ("2030" + "  " + ("9" + [':'] + "05")))
    ensures AllDigits("2030") && DigitsValue("2030") == 2030
    ensures forall i :: 0 <= i < |"  "| ==> IsSpace("  "[i])
    ensures DayField("1") == Some(1) && NumberField("2", 1, 12) == Some(2)
    ensures NumberField("9", 0, 23) == Some(9) && NumberField("05", 0, 59) == Some(5)
  {
    assert "2030"[..3] == "203" && "203"[..2] == "20" && "20"[..1] == "2" && "2"[..0] == [];
  }

  /** Unpadded fields and a longer run of whitespace are accepted too. */
  lemma AcceptsUnpaddedReading()
    ensures ParseCivil("1/2/2030  9:05") == Some(Civil(2030, 2, 1, 9, 5))
  {
    UnpaddedFields();
    ParseCivilFields("1", "2", "2030", "  ", "9", "05");
  }
}
