/** Timestamps of transactions and the best-effort date handling of the
    create and update handlers.

    A timestamp is a naive `datetime` (no time zone): a field tuple whose
    ranges are the ones Python's `datetime` constructor enforces.  The
    library parser `datetime.fromisoformat` is not modelled; it is a
    parameter of type `Parser` (`Some(d)` when it returns `d`, `None` when
    it raises). */
module Dates {
  import opened Wrappers

  datatype Stamp = Stamp(year: int, month: int, day: int, hour: int, minute: int, second: int, micro: int)

  predicate IsLeap(y: int) {
    y % 4 == 0 && (y % 100 != 0 || y % 400 == 0)
  }

  function DaysInMonth(y: int, m: int): int
    requires 1 <= m <= 12
  {
    if m == 2 then (if IsLeap(y) then 29 else 28)
    else if m == 4 || m == 6 || m == 9 || m == 11 then 30
    else 31
  }

  predicate ValidStamp(d: Stamp) {
    && 1 <= d.year <= 9999
    && 1 <= d.month <= 12
    && 1 <= d.day <= DaysInMonth(d.year, d.month)
    && 0 <= d.hour < 24
    && 0 <= d.minute < 60
    && 0 <= d.second < 60
    && 0 <= d.micro < 1000000
  }

  type DateTime = d: Stamp | ValidStamp(d) witness Stamp(1970, 1, 1, 0, 0, 0, 0)

  type Parser = string -> Option<DateTime>

  /** Chronological order: the field tuples compared lexicographically. */
  predicate Earlier(a: DateTime, b: DateTime) {
    || a.year < b.year
    || (a.year == b.year && a.month < b.month)
    || (a.year == b.year && a.month == b.month && a.day < b.day)
    || (a.year == b.year && a.month == b.month && a.day == b.day && a.hour < b.hour)
    || (a.year == b.year && a.month == b.month && a.day == b.day && a.hour == b.hour && a.minute < b.minute)
    || (a.year == b.year && a.month == b.month && a.day == b.day && a.hour == b.hour && a.minute == b.minute
        && a.second < b.second)
    || (a.year == b.year && a.month == b.month && a.day == b.day && a.hour == b.hour && a.minute == b.minute
        && a.second == b.second && a.micro < b.micro)
  }

  /** Positions on the time line, counted in months, days, ... from year 0;
      `Ordinal` counts microseconds.  Sorting by `Ordinal` is sorting by
      `isoformat()` text, which the dashboard does (see OrdinalOrder). */
  function Months(d: DateTime): int { d.year * 12 + (d.month - 1) }
  function Days(d: DateTime): int { Months(d) * 31 + (d.day - 1) }
  function Hours(d: DateTime): int { Days(d) * 24 + d.hour }
  function Minutes(d: DateTime): int { Hours(d) * 60 + d.minute }
  function Seconds(d: DateTime): int { Minutes(d) * 60 + d.second }
  function Ordinal(d: DateTime): int { Seconds(d) * 1000000 + d.micro }

  lemma MulAtLeast(k: int, base: int)
    requires k >= 1 && base > 0
    ensures k * base >= base
    decreases k
  {
    if k > 1 {
      MulAtLeast(k - 1, base);
      assert k * base == (k - 1) * base + base;
    }
  }

  lemma MixedRadix(x: int, r: int, y: int, s: int, base: int)
    requires base > 0 && 0 <= r < base && 0 <= s < base
    ensures x * base + r < y * base + s <==> x < y || (x == y && r < s)
    ensures x * base + r == y * base + s <==> x == y && r == s
  {
    if x < y {
      MulAtLeast(y - x, base);
      assert y * base == x * base + (y - x) * base;
    } else if y < x {
      MulAtLeast(x - y, base);
      assert x * base == y * base + (x - y) * base;
    }
  }

  /** Two timestamps agree up to the minute (resp. day, month). */
  predicate SameMinute(a: DateTime, b: DateTime) {
    a.year == b.year && a.month == b.month && a.day == b.day && a.hour == b.hour && a.minute == b.minute
  }

  /** Comparing minutes is comparing the leading five fields. */
  lemma MinutesOrder(a: DateTime, b: DateTime)
    ensures Minutes(a) == Minutes(b) <==> SameMinute(a, b)
    ensures Minutes(a) < Minutes(b) <==>
      || a.year < b.year
      || (a.year == b.year && a.month < b.month)
      || (a.year == b.year && a.month == b.month && a.day < b.day)
      || (a.year == b.year && a.month == b.month && a.day == b.day && a.hour < b.hour)
      || (a.year == b.year && a.month == b.month && a.day == b.day && a.hour == b.hour && a.minute < b.minute)
  {
    MixedRadix(a.year, a.month - 1, b.year, b.month - 1, 12);
    MixedRadix(Months(a), a.day - 1, Months(b), b.day - 1, 31);
    MixedRadix(Days(a), a.hour, Days(b), b.hour, 24);
    MixedRadix(Hours(a), a.minute, Hours(b), b.minute, 60);
  }

  /** Ordinals compare exactly as the timestamps do. */
  lemma OrdinalOrder(a: DateTime, b: DateTime)
    ensures Ordinal(a) < Ordinal(b) <==> Earlier(a, b)
    ensures Ordinal(a) == Ordinal(b) <==> a == b
  {
    MinutesOrder(a, b);
    MixedRadix(Minutes(a), a.second, Minutes(b), b.second, 60);
    MixedRadix(Seconds(a), a.micro, Seconds(b), b.micro, 1000000);
  }

  /** A two-digit group appended to `q` reads back as `q` and the group. */
  lemma Split100(q: int, r: int)
    requires 0 <= r < 100
    ensures (q * 100 + r) / 100 == q && (q * 100 + r) % 100 == r
  {
  }

  /** The month bucket `strftime('%Y-%m')`, read as the number YYYYMM: its
      digits are the key's digits, so keys of four-digit years sort alike. */
  function MonthKey(d: DateTime): (k: int)
    ensures k / 100 == d.year && k % 100 == d.month
  {
    Split100(d.year, d.month);
    d.year * 100 + d.month
  }

  /** The day bucket `strftime('%Y-%m-%d')`, read as the number YYYYMMDD. */
  function DayKey(d: DateTime): (k: int)
    ensures (k / 100) / 100 == d.year && (k / 100) % 100 == d.month && k % 100 == d.day
  {
    Split100(d.year, d.month);
    Split100(d.year * 100 + d.month, d.day);
    (d.year * 100 + d.month) * 100 + d.day
  }

  /** Bucket keys never run against time: a smaller key means an earlier
      timestamp, and equal keys mean the same calendar month (day). */
  lemma BucketKeysChronological(a: DateTime, b: DateTime)
    ensures MonthKey(a) < MonthKey(b) ==> Earlier(a, b)
    ensures MonthKey(a) == MonthKey(b) <==> a.year == b.year && a.month == b.month
    ensures DayKey(a) < DayKey(b) ==> Earlier(a, b)
    ensures DayKey(a) == DayKey(b) <==> a.year == b.year && a.month == b.month && a.day == b.day
  {
    MixedRadix(a.year, a.month, b.year, b.month, 100);
    MixedRadix(a.year * 100 + a.month, a.day, b.year * 100 + b.month, b.day, 100);
  }

  // ----- the date field of a create or update request -----

  /** A `date` value in a request body: text, or a value that is already a
      datetime (the handlers' non-string branch, which assigns the value
      as is). A decoded JSON body never holds a datetime: over HTTP that
      branch sees only numbers, booleans, lists or objects, which are not
      modelled, so `Given` stands for a caller that passes a datetime
      directly. */
  datatype DateField = Text(text: string) | Given(value: DateTime)

  /** Python truthiness of the field: only the empty string is false. */
  predicate Truthy(f: DateField) {
    f.Given? || f.text != ""
  }

  /** `text.replace(c, with)`: every occurrence of `c` replaced. */
  function ReplaceChar(text: string, c: char, with: string): (r: string)
    ensures c !in with ==> c !in r
    ensures c !in text ==> r == text
  {
    if text == [] then []
    else (if text[0] == c then with else [text[0]]) + ReplaceChar(text[1..], c, with)
  }

  /** The parse the handlers attempt: text containing 'Z' is parsed with
      every 'Z' replaced by "+00:00".  The rewrite is harmless when there is
      no 'Z', so the parser always sees the rewritten text, never a 'Z'. */
  function ParseIso(text: string, fromIso: Parser): (r: Option<DateTime>)
    ensures r == fromIso(ReplaceChar(text, 'Z', "+00:00"))
    ensures 'Z' !in text ==> r == fromIso(text)
  {
    if 'Z' in text then fromIso(ReplaceChar(text, 'Z', "+00:00")) else fromIso(text)
  }

  /** The try/except around a date assignment: a given datetime is taken as
      it is, parsed text replaces the date, and text that does not parse
      leaves `fallback` (the default on create, the old date on update). */
  function ResolveDate(field: DateField, fromIso: Parser, fallback: DateTime): (d: DateTime)
    ensures field.Given? ==> d == field.value
    ensures field.Text? && ParseIso(field.text, fromIso).Some? ==> d == ParseIso(field.text, fromIso).value
    ensures field.Text? && ParseIso(field.text, fromIso).None? ==> d == fallback
  {
    match field
    case Given(v) => v
    case Text(t) => ParseIso(t, fromIso).GetOr(fallback)
  }
}
