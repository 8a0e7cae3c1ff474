/**
 * Date arithmetic of the blog. A date is its time value in milliseconds
 * since the epoch, and the current time `now` is passed in explicitly.
 */
module Dates {
  import opened Wrappers
  import opened Strings
  import opened Sequences
  import opened I18n

  /** Milliseconds in a day: 1000 * 60 * 60 * 24. */
  const MsPerDay: int := 86400000

  /** `Math.ceil(a / b)` for a positive divisor: the least `r` with `a <= r * b`. */
  function CeilDiv(a: int, b: int): (r: int)
    requires b > 0
    ensures (r - 1) * b < a <= r * b
  {
    var q := (-a) / b;
    var m := (-a) % b;
    assert -a == b * q + m && 0 <= m < b;
    assert -q * b == a + m;
    assert (-q - 1) * b == a + m - b;
    -q
  }

  /** `Math.abs(x)`. */
  function Abs(x: int): (r: nat)
    ensures r == x || r == -x
  {
    if x < 0 then -x else x
  }

  /**
   * `calculateDaysSince`: the whole days, rounded up, between the date and
   * now, whichever of the two comes first.
   */
  function CalculateDaysSince(start: int, now: int): (days: nat)
    ensures (days - 1) * MsPerDay < Abs(now - start) <= days * MsPerDay
  {
    CeilDiv(Abs(now - start), MsPerDay)
  }

  /** A date `d` milliseconds ago and one `d` milliseconds ahead are equally far. */
  lemma DaysSinceSymmetric(now: int, d: int)
    ensures CalculateDaysSince(now - d, now) == CalculateDaysSince(now + d, now)
  {
  }

  /**
   * `isWithinDays`: at most `days` days away, counting a started day as
   * whole; that is, at most `days` days of milliseconds away, in the past
   * or in the future.
   */
  function IsWithinDays(date: int, days: int, now: int): (r: bool)
    ensures r <==> Abs(now - date) <= days * MsPerDay
  {
    DaysSinceAtMost(date, days, now);
    CalculateDaysSince(date, now) <= days
  }

  /** At most `n` days, rounded up, means at most `n` days of milliseconds. */
  lemma DaysSinceAtMost(date: int, n: int, now: int)
    ensures CalculateDaysSince(date, now) <= n <==> Abs(now - date) <= n * MsPerDay
  {
    var d := CalculateDaysSince(date, now);
    if d <= n {
      assert d * MsPerDay <= n * MsPerDay;
    } else {
      assert (d - 1) * MsPerDay >= n * MsPerDay;
    }
  }

  // ---------------------------------------------------------------------
  // Sorting, most recent and earliest
  // ---------------------------------------------------------------------

  /**
   * `sortByDate`: a new array holding the items, newest first. The input
   * sequence is a value and stays as it was.
   */
  function SortByDate<T>(items: seq<T>, date: T -> int): (sorted: seq<T>)
    ensures multiset(sorted) == multiset(items)
    ensures forall i, j :: 0 <= i < j < |sorted| ==> date(sorted[i]) >= date(sorted[j])
    ensures forall k :: WithKey(sorted, date, k) == WithKey(items, date, k)
  {
    var r := SortDescending(items, date);
    assert forall k :: WithKey(r, date, k) == WithKey(items, date, k) by {
      forall k ensures WithKey(r, date, k) == WithKey(items, date, k) {
        SortIsStable(items, date, k);
      }
    }
    r
  }

  /** In a sequence ordered newest first, the head is the newest and the last the oldest. */
  lemma DescendingEnds<T>(s: seq<T>, key: T -> int)
    requires Descending(s, key) && |s| > 0
    ensures forall x :: x in s ==> key(s[|s| - 1]) <= key(x) <= key(s[0])
  {
    forall x | x in s ensures key(s[|s| - 1]) <= key(x) <= key(s[0]) {
      var j :| 0 <= j < |s| && s[j] == x;
    }
  }

  /** `getMostRecentDate`: `null` for no items, else the latest date among them. */
  function GetMostRecentDate<T>(items: seq<T>, date: T -> int): (r: Option<int>)
    ensures r.None? <==> |items| == 0
    ensures r.Some? ==> exists i :: 0 <= i < |items| && date(items[i]) == r.value
    ensures r.Some? ==> forall i :: 0 <= i < |items| ==> date(items[i]) <= r.value
  {
    if |items| == 0 then None
    else
      var sorted := SortByDate(items, date);
      DescendingEnds(sorted, date);
      assert sorted[0] in multiset(items);
      assert forall i :: 0 <= i < |items| ==> items[i] in multiset(sorted);
      Some(date(sorted[0]))
  }

  /** `getEarliestDate`: `null` for no items, else the earliest date among them. */
  function GetEarliestDate<T>(items: seq<T>, date: T -> int): (r: Option<int>)
    ensures r.None? <==> |items| == 0
    ensures r.Some? ==> exists i :: 0 <= i < |items| && date(items[i]) == r.value
    ensures r.Some? ==> forall i :: 0 <= i < |items| ==> r.value <= date(items[i])
  {
    if |items| == 0 then None
    else
      var sorted := SortByDate(items, date);
      DescendingEnds(sorted, date);
      assert sorted[|sorted| - 1] in multiset(items);
      assert forall i :: 0 <= i < |items| ==> items[i] in multiset(sorted);
      Some(date(sorted[|sorted| - 1]))
  }

  // ---------------------------------------------------------------------
  // Relative time
  // ---------------------------------------------------------------------

  datatype TimeUnit = Year | Month | Day | Hour | Minute

  /** How long ago a date was, in the largest unit that is not zero. */
  datatype Elapsed = Ago(count: nat, unit: TimeUnit) | JustNow

  const MsPerMinute: int := 60000
  const MsPerHour: int := 3600000

  /**
   * The bucket `getRelativeTime` chooses for `diffMs = now - date`, from the
   * chain of floor divisions seconds, minutes, hours, days, 30-day months
   * and 365-day years. Each unit is chosen exactly on its range of
   * milliseconds, and its count is the number of whole units elapsed.
   */
  function Bucket(diffMs: int): (b: Elapsed)
    ensures b.Ago? ==> b.count >= 1
    ensures b.Ago? && b.unit == Year <==> diffMs >= 365 * MsPerDay
    ensures b.Ago? && b.unit == Month <==> 30 * MsPerDay <= diffMs < 365 * MsPerDay
    ensures b.Ago? && b.unit == Day <==> MsPerDay <= diffMs < 30 * MsPerDay
    ensures b.Ago? && b.unit == Hour <==> MsPerHour <= diffMs < MsPerDay
    ensures b.Ago? && b.unit == Minute <==> MsPerMinute <= diffMs < MsPerHour
    ensures b == JustNow <==> diffMs < MsPerMinute
    ensures b.Ago? ==> b.count == diffMs / UnitMs(b.unit)
  {
    var diffSec := diffMs / 1000;
    var diffMin := diffSec / 60;
    var diffHours := diffMin / 60;
    var diffDays := diffHours / 24;
    var diffMonths := diffDays / 30;
    var diffYears := diffDays / 365;
    assert diffMin == diffMs / MsPerMinute;
    assert diffHours == diffMs / MsPerHour;
    assert diffDays == diffMs / MsPerDay;
    assert diffMonths == diffMs / (30 * MsPerDay);
    assert diffYears == diffMs / (365 * MsPerDay);
    if diffYears > 0 then Ago(diffYears, Year)
    else if diffMonths > 0 then Ago(diffMonths, Month)
    else if diffDays > 0 then Ago(diffDays, Day)
    else if diffHours > 0 then Ago(diffHours, Hour)
    else if diffMin > 0 then Ago(diffMin, Minute)
    else JustNow
  }

  /** The length of a unit in milliseconds (months of 30 days, years of 365). */
  function UnitMs(u: TimeUnit): int {
    match u
    case Year => 365 * MsPerDay
    case Month => 30 * MsPerDay
    case Day => MsPerDay
    case Hour => MsPerHour
    case Minute => MsPerMinute
  }

  /** The English noun and Portuguese noun of a unit, singular or plural. */
  function UnitWord(u: TimeUnit, portuguese: bool, plural: bool): string {
    var s := if plural then "s" else "";
    match u
    case Year => if portuguese then "ano" + s else "year" + s
    case Month => if portuguese then (if plural then "meses" else "mês") else "month" + s
    case Day => if portuguese then "dia" + s else "day" + s
    case Hour => if portuguese then "hora" + s else "hour" + s
    case Minute => if portuguese then "minuto" + s else "minute" + s
  }

  /** The phrase for an elapsed time: "há N <unit>" or "N <unit> ago". */
  function Phrase(e: Elapsed, portuguese: bool): string {
    match e
    case JustNow => if portuguese then "agora mesmo" else "just now"
    case Ago(n, u) =>
      var word := UnitWord(u, portuguese, n > 1);
      if portuguese then "há " + NatToString(n) + " " + word
      else NatToString(n) + " " + word + " ago"
  }

  /**
   * `getRelativeTime`: Portuguese wording exactly for pt-BR, English
   * otherwise; a date in the future, or less than a minute ago, reads as
   * "just now", any other as "há ..." or "... ago".
   */
  function GetRelativeTime(date: int, now: int, locale: Locale): (r: string)
    ensures now - date < MsPerMinute ==> r == if locale == PtBR then "agora mesmo" else "just now"
    ensures now - date >= MsPerMinute && locale == PtBR ==> StartsWith(r, "há ")
    ensures now - date >= MsPerMinute && locale == EnUS ==> EndsWith(r, " ago")
  {
    Phrase(Bucket(now - date), locale == PtBR)
  }

  /** With 30-day months, 360 to 364 days ago read as twelve months. */
  lemma TwelveMonthsBeforeAYear(diffMs: int)
    requires 360 * MsPerDay <= diffMs < 365 * MsPerDay
    ensures Bucket(diffMs) == Ago(12, Month)
  {
  }

  predicate EndsWith(s: string, suffix: string) {
    |suffix| <= |s| && s[|s| - |suffix|..] == suffix
  }

  /** English text uses the plural ("...s ago") exactly when the count is above one. */
  lemma EnglishPluralIffMany(n: nat, u: TimeUnit)
    requires n >= 1
    ensures EndsWith(Phrase(Ago(n, u), false), "s ago") <==> n > 1
  {
    var text := Phrase(Ago(n, u), false);
    var base := match u
      case Year => "year" case Month => "month" case Day => "day"
      case Hour => "hour" case Minute => "minute";
    if n > 1 {
      assert text == NatToString(n) + " " + base + "s ago";
    } else {
      assert text == NatToString(n) + " " + base + " ago";
      assert text[|text| - 5] == base[|base| - 1];
    }
  }

  /**
   * Portuguese text uses the plural exactly when the count is above one:
   * "meses" against "mês", and a final "s" for the other units.
   */
  lemma PortuguesePluralIffMany(n: nat, u: TimeUnit)
    requires n >= 1
    ensures u == Month ==> (EndsWith(Phrase(Ago(n, u), true), "meses") <==> n > 1)
    ensures u != Month ==> (EndsWith(Phrase(Ago(n, u), true), "s") <==> n > 1)
  {
    var text := Phrase(Ago(n, u), true);
    var prefix := "há " + NatToString(n) + " ";
    var word := UnitWord(u, true, n > 1);
    assert text == prefix + word;
    assert text[|text| - 1] == word[|word| - 1];
    if u == Month && n == 1 {
      assert word == "mês";
      assert text[|text| - 4] == ' ';
    } else if u == Month {
      assert word == "meses";
      assert text[|text| - 5..] == word;
    }
  }
}
