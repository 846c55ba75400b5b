/** The repeat interval of a recurring schedule. It is stored as the text
    the operator typed (lower-cased) and read only when a timer is armed:
    the last character is the unit (`m` minutes, `h` hours, any other
    character days) and everything before it must be an integer as
    Python's `int()` reads it. The text is never checked when it is
    entered, so reading it is partial. */
module Intervals {
  import opened Wrappers
  import opened Chars
  import opened Numerals

  datatype Unit = Minutes | Hours | Days

  datatype Interval = Interval(unit: Unit, value: int)

  /** The unit named by the last character of the text. */
  function UnitOf(c: char): Unit
  {
    if c == 'm' then Minutes else if c == 'h' then Hours else Days
  }

  /** `unit = s[-1]; value = int(s[:-1])`; `None` where Python raises
      (`IndexError` on the empty text, `ValueError` on a prefix that is not
      an integer). */
  function ParseInterval(s: string): (r: Option<Interval>)
    ensures r.Some? ==> 2 <= |s|
  {
    if s == [] then None
    else match ParseInt(s[..|s| - 1])
      case None => None
      case Some(n) => Some(Interval(UnitOf(s[|s| - 1]), n))
  }

  function UnitLetter(u: Unit): char
  {
    match u
    case Minutes => 'm'
    case Hours => 'h'
    case Days => 'd'
  }

  /** The spelling the dialogue suggests (`30m`, `12h`, `1d`). */
  function IntervalText(iv: Interval): string
  {
    IntText(iv.value) + [UnitLetter(iv.unit)]
  }

  /** Every interval, spelled the suggested way, is read back unchanged. */
  lemma ParseIntervalText(iv: Interval)
    ensures ParseInterval(IntervalText(iv)) == Some(iv)
  {
    var s := IntervalText(iv);
    assert s[..|s| - 1] == IntText(iv.value);
    ParseIntText(iv.value);
  }

  /** Any unit letter other than `m` and `h` (a typo included) means days. */
  lemma OtherLetterMeansDays(n: int, c: char)
    requires c != 'm' && c != 'h'
    ensures ParseInterval(IntText(n) + [c]) == Some(Interval(Days, n))
  {
    var s := IntText(n) + [c];
    assert s[..|s| - 1] == IntText(n);
    ParseIntText(n);
  }

  /** A prefix that is not an integer makes the whole text unreadable,
      whatever the unit letter. */
  lemma NonIntegerPrefixFails(prefix: string, c: char)
    requires ParseInt(prefix).None?
    ensures ParseInterval(prefix + [c]).None?
  {
    assert (prefix + [c])[..|prefix|] == prefix;
  }

  /** A bare unit letter has no value to read. */
  lemma BareUnitFails(c: char)
    ensures ParseInterval([c]).None?
  {
    assert [c][..0] == [];
  }

  /** A separator control in front of the value makes the interval
      unreadable: `"\U{1C}5m"` gives no job. */
  lemma SeparatorControlInterval()
    ensures ParseInterval("\U{1C}5m").None?
  {
    var s := "\U{1C}5m";
    assert s[..|s| - 1] == ['\U{1C}'] + "5";
    SeparatorControlRejected('\U{1C}', "5");
  }

  const SecondsPerDay := 86400

  /** The largest day count a Python `timedelta` holds. */
  const MaxDays := 999999999

  function UnitSeconds(u: Unit): int
  {
    match u
    case Minutes => 60
    case Hours => 3600
    case Days => SecondsPerDay
  }

  /** `timedelta(**{unit: value})` succeeds: its day count, rounded towards
      minus infinity, is within `MaxDays` in magnitude (otherwise Python
      raises `OverflowError`). */
  predicate Representable(iv: Interval)
  {
    -MaxDays <= (iv.value * UnitSeconds(iv.unit)) / SecondsPerDay <= MaxDays
  }

  /** Every value up to `MaxDays` is representable in every unit, and no
      day count beyond it is. */
  lemma RepresentableBounds(iv: Interval)
    ensures 0 <= iv.value <= MaxDays ==> Representable(iv)
    ensures iv.unit == Days ==> (Representable(iv) <==> -MaxDays <= iv.value <= MaxDays)
  {
    var secs := iv.value * UnitSeconds(iv.unit);
    if 0 <= iv.value <= MaxDays {
      assert 0 <= secs <= iv.value * SecondsPerDay;
      assert secs / SecondsPerDay <= iv.value;
    }
    if iv.unit == Days {
      assert secs / SecondsPerDay == iv.value;
    }
  }
}
