/**
 * Date helpers of src/functions/date/dateFormat.ts: millisecond offsets,
 * the `getDate`/`getTime` defaulting rule, reshaping an ISO 8601 timestamp
 * into the `MM/DD/YY HH:mm UTC` form, and the two small mapping tables.
 * A `Date` is its millisecond timestamp; `toUTC` takes the ISO string that
 * `Date.prototype.toISOString` produces.
 */
module DateFormat {
  import opened Wrappers

  const MS_PER_SECOND: int := 1000
  const MS_PER_MINUTE: int := 60 * 1000
  const MS_PER_HOUR: int := 60 * 60 * 1000
  const MS_PER_DAY: int := 24 * 60 * 60 * 1000

  // ---------------------------------------------------------------- getDate / getTime

  /**
   * A `DateParam`: absent, a millisecond number, a `Date` object (always
   * truthy), or a string together with the time `new Date(text)` parses it to.
   */
  datatype DateParam = Absent | Number(ms: int) | DateObject(ms: int) | Text(text: string, ms: int)

  /** `undefined`, the number 0 and the empty string are falsy. */
  predicate IsFalsy(value: DateParam) {
    value.Absent? || value == Number(0) || (value.Text? && value.text == "")
  }

  /** `getTime`: the current time for a falsy value, the value's own time otherwise. */
  function GetTime(value: DateParam, now: int): (t: int)
    ensures IsFalsy(value) ==> t == now
    ensures !IsFalsy(value) ==> t == value.ms
  {
    if IsFalsy(value) then now else value.ms
  }

  // ---------------------------------------------------------------- offsetDateTime

  datatype Offset = Offset(days: Option<int>, hours: Option<int>, minutes: Option<int>,
                           seconds: Option<int>, milliseconds: Option<int>)

  const NoOffset: Offset := Offset(None, None, None, None, None)

  /** One component's share: `x ? x * unit : 0`. */
  function Part(x: Option<int>, unit: int): int {
    if x.Some? && x.value != 0 then x.value * unit else 0
  }

  function OffsetMillis(offset: Offset): int {
    Part(offset.days, MS_PER_DAY) + Part(offset.hours, MS_PER_HOUR) + Part(offset.minutes, MS_PER_MINUTE)
    + Part(offset.seconds, MS_PER_SECOND) + Part(offset.milliseconds, 1)
  }

  /**
   * `offsetDateTime(base, offset).getTime()`. The sum is passed back through
   * `getDate`, so a sum of exactly 0 becomes the current time.
   */
  function OffsetDateTime(base: DateParam, offset: Offset, now: int): (t: int)
    ensures var sum := GetTime(base, now) + offset.days.GetOr(0) * MS_PER_DAY + offset.hours.GetOr(0) * MS_PER_HOUR
                       + offset.minutes.GetOr(0) * MS_PER_MINUTE + offset.seconds.GetOr(0) * MS_PER_SECOND
                       + offset.milliseconds.GetOr(0);
            t == if sum == 0 then now else sum
  {
    var sum := GetTime(base, now) + OffsetMillis(offset);
    GetTime(Number(sum), now)
  }

  /** An empty offset gives back `getTime(base)` (unless that is the epoch itself). */
  lemma EmptyOffsetIsGetTime(base: DateParam, now: int)
    requires GetTime(base, now) != 0
    ensures OffsetDateTime(base, NoOffset, now) == GetTime(base, now)
  {
  }

  function Millis(x: int): Offset {
    Offset(None, None, None, None, Some(x))
  }

  /** Offsetting by `+x` ms and then by `-x` ms returns the original time, away from the epoch. */
  lemma OffsetRoundTrip(t: int, x: int, now: int)
    requires t != 0 && t + x != 0
    ensures OffsetDateTime(Number(OffsetDateTime(Number(t), Millis(x), now)), Millis(-x), now) == t
  {
  }

  /** A whole-day offset moves the time by exactly that many days of milliseconds. */
  lemma DaysOffset(t: int, days: int, now: int)
    requires t != 0 && t + days * MS_PER_DAY != 0
    ensures OffsetDateTime(Number(t), Offset(Some(days), None, None, None, None), now) == t + days * 86400000
  {
  }

  /** Landing exactly on the epoch yields the current time instead. */
  lemma OffsetToEpochGivesNow(now: int)
    ensures OffsetDateTime(Number(1000), Millis(-1000), now) == now
  {
  }

  // ---------------------------------------------------------------- mapToAmPmHour / mapToEnglishDay

  datatype AmPm = AM | PM

  /** `mapToAmPmHour`: hours after noon move back by twelve and are PM; everything else, 12 included, is AM. */
  function MapToAmPmHour(hour: int): (r: (int, AmPm))
    ensures hour > 12 ==> r == (hour - 12, PM)
    ensures hour <= 12 ==> r == (hour, AM)
  {
    if hour > 12 then (hour - 12, PM) else (hour, AM)
  }

  lemma AmPmHourRange(hour: int)
    requires 0 <= hour <= 23
    ensures 0 <= MapToAmPmHour(hour).0 <= 12
    ensures MapToAmPmHour(12) == (12, AM) && MapToAmPmHour(13) == (1, PM)
  {
  }

  const EnglishDays: seq<string> := ["Sun", "Mon", "Tue", "Wed", "Thu", "Fri", "Sat"]

  /** `mapToEnglishDay`: the weekday name for 0..6, the empty string for any other number. */
  function MapToEnglishDay(day: int): (name: string)
    ensures 0 <= day < 7 ==> name == EnglishDays[day] && |name| == 3
    ensures !(0 <= day < 7) ==> name == ""
  {
    if 0 <= day < |EnglishDays| then EnglishDays[day] else ""
  }

  // ---------------------------------------------------------------- toUTC

  predicate IsDigit(c: char) {
    '0' <= c <= '9'
  }

  predicate IsDigitOrDash(c: char) {
    IsDigit(c) || c == '-'
  }

  /** The length of the longest prefix of `s` made of digits (the greedy run `\d+` tries). */
  function DigitRun(s: string): (n: nat)
    ensures n <= |s|
    ensures forall i :: 0 <= i < n ==> IsDigit(s[i])
    ensures n < |s| ==> !IsDigit(s[n])
  {
    if s == [] || !IsDigit(s[0]) then 0 else 1 + DigitRun(s[1..])
  }

  /** The length of the longest prefix of `s` made of digits and dashes (the run `[\d-]+` tries). */
  function DateRun(s: string): (n: nat)
    ensures n <= |s|
    ensures forall i :: 0 <= i < n ==> IsDigitOrDash(s[i])
    ensures n < |s| ==> !IsDigitOrDash(s[n])
  {
    if s == [] || !IsDigitOrDash(s[0]) then 0 else 1 + DateRun(s[1..])
  }

  /** A digit run followed by a non-digit spans exactly the run. */
  lemma {:induction false} DigitRunStopsAt(run: string, c: char, rest: string)
    requires forall i :: 0 <= i < |run| ==> IsDigit(run[i])
    requires !IsDigit(c)
    ensures DigitRun(run + [c] + rest) == |run|
  {
    if run != [] {
      assert (run + [c] + rest)[1..] == run[1..] + [c] + rest;
      DigitRunStopsAt(run[1..], c, rest);
    }
  }

  /** A digit-or-dash run followed by another character spans exactly the run. */
  lemma {:induction false} DateRunStopsAt(run: string, c: char, rest: string)
    requires forall i :: 0 <= i < |run| ==> IsDigitOrDash(run[i])
    requires !IsDigitOrDash(c)
    ensures DateRun(run + [c] + rest) == |run|
  {
    if run != [] {
      assert (run + [c] + rest)[1..] == run[1..] + [c] + rest;
      DateRunStopsAt(run[1..], c, rest);
    }
  }

  /** The four groups `^([\d-]+)T(\d+):(\d+):(\d+)` captures. */
  datatype IsoParts = IsoParts(date: string, hour: string, minutes: string, seconds: string)

  /** Matches `(\d+)` followed by `sep`: the digits and what follows the separator. */
  function DigitsThen(s: string, sep: char): Option<(string, string)> {
    var n := DigitRun(s);
    if n == 0 || n == |s| || s[n] != sep then None else Some((s[..n], s[n + 1..]))
  }

  function MatchIso(s: string): (m: Option<IsoParts>)
    ensures m.Some? ==> |m.value.date| > 0 && |m.value.hour| > 0 && |m.value.minutes| > 0 && |m.value.seconds| > 0
  {
    var a := DateRun(s);
    if a == 0 || a == |s| || s[a] != 'T' then None
    else
      match DigitsThen(s[a + 1..], ':')
      case None => None
      case Some((hour, rest1)) =>
        match DigitsThen(rest1, ':')
        case None => None
        case Some((minutes, rest2)) =>
          var k := DigitRun(rest2);
          if k == 0 then None else Some(IsoParts(s[..a], hour, minutes, rest2[..k]))
  }

  /** `^(\d{4})-(\d{2})-(\d{2})$`: the year, month and day of the date group. */
  function MatchDate(date: string): (m: Option<(string, string, string)>)
    ensures m.Some? ==> |m.value.0| == 4 && |m.value.1| == 2 && |m.value.2| == 2
  {
    if |date| == 10 && date[4] == '-' && date[7] == '-'
       && (forall i :: 0 <= i < 10 && i != 4 && i != 7 ==> IsDigit(date[i]))
    then Some((date[..4], date[5..7], date[8..]))
    else None
  }

  datatype UtcOptions = UtcOptions(hideUTCBadge: bool, showSeconds: bool, hideHourMinuteSecond: bool)

  /**
   * `toUTC` over an ISO string: `MM/DD/YY`, then ` HH:mm` (or ` HH:mm:ss`
   * with `showSeconds`) unless `hideHourMinuteSecond`, then ` UTC` unless
   * `hideUTCBadge`. A string the two patterns do not match makes the source
   * throw; the model returns nothing.
   */
  function ToUTC(iso: string, options: UtcOptions): (r: Option<string>)
    ensures r.Some? <==> MatchIso(iso).Some? && MatchDate(MatchIso(iso).value.date).Some?
  {
    match MatchIso(iso)
    case None => None
    case Some(parts) =>
      match MatchDate(parts.date)
      case None => None
      case Some((year, month, day)) =>
        var formattedDate := month + "/" + day + "/" + year[2..];
        var badge := if options.hideUTCBadge then "" else " UTC";
        Some(
          if options.hideHourMinuteSecond then formattedDate
          else if options.showSeconds then formattedDate + " " + parts.hour + ":" + parts.minutes + ":" + parts.seconds + badge
          else formattedDate + " " + parts.hour + ":" + parts.minutes + badge)
  }

  /** `n` written with exactly `width` decimal digits (the lowest ones, zero-padded). */
  function Digits(n: nat, width: nat): (s: string)
    ensures |s| == width && forall i :: 0 <= i < width ==> IsDigit(s[i])
  {
    if width == 0 then "" else Digits(n / 10, width - 1) + [(('0' as int) + n % 10) as char]
  }

  /** Two decimal places of `n` are those of `n % 100`. */
  lemma LowDigitsOfRemainder(n: nat)
    ensures n % 100 / 10 == n / 10 % 10 && n % 100 % 10 == n % 10
  {
    var q, r := n / 100, n % 100;
    assert n == 100 * q + r;
    assert n == 10 * (10 * q + r / 10) + r % 10;
    assert n / 10 == 10 * q + r / 10 && n % 10 == r % 10;
    assert (10 * q + r / 10) % 10 == r / 10;
  }

  /** The last two of four digits are the two digits of the value modulo 100. */
  lemma LastTwoDigits(n: nat)
    ensures Digits(n, 4)[2..] == Digits(n % 100, 2)
  {
    LowDigitsOfRemainder(n);
    var c1, c0 := (('0' as int) + n / 10 % 10) as char, (('0' as int) + n % 10) as char;
    assert Digits(n % 100, 2) == Digits(n % 100 / 10, 1) + [c0];
    assert Digits(n % 100 / 10, 1) == [c1];
    assert Digits(n, 4) == Digits(n / 10, 3) + [c0];
    assert Digits(n / 10, 3) == Digits(n / 10 / 10, 2) + [c1];
    assert Digits(n, 4) == Digits(n / 10 / 10, 2) + [c1, c0];
  }

  /** `^(\d{4})-(\d{2})-(\d{2})$` captures the three digit groups of a date built from them. */
  lemma MatchDateOfParts(year: string, month: string, day: string)
    requires |year| == 4 && |month| == 2 && |day| == 2
    requires AllDigits(year) && AllDigits(month) && AllDigits(day)
    ensures MatchDate(year + "-" + month + "-" + day) == Some((year, month, day))
  {
    var date := year + "-" + month + "-" + day;
    assert date[..4] == year && date[5..7] == month && date[8..] == day;
    assert forall i :: 0 <= i < 10 && i != 4 && i != 7 ==> IsDigit(date[i]) by {
      forall i | 0 <= i < 10 && i != 4 && i != 7 ensures IsDigit(date[i]) {
        if i < 4 { assert date[i] == year[i]; }
        else if i < 7 { assert date[i] == month[i - 5]; }
        else { assert date[i] == day[i - 8]; }
      }
    }
  }

  /** The timestamp `Date.prototype.toISOString` writes for a year between 0 and 9999. */
  datatype UtcTime = UtcTime(year: nat, month: nat, day: nat, hour: nat, minute: nat, second: nat, millis: nat)

  predicate ValidTime(t: UtcTime) {
    t.year <= 9999 && 1 <= t.month <= 12 && 1 <= t.day <= 31 && t.hour <= 23 && t.minute <= 59
    && t.second <= 59 && t.millis <= 999
  }

  function IsoString(t: UtcTime): string {
    Digits(t.year, 4) + "-" + Digits(t.month, 2) + "-" + Digits(t.day, 2) + "T" + Digits(t.hour, 2) + ":"
    + Digits(t.minute, 2) + ":" + Digits(t.second, 2) + "." + Digits(t.millis, 3) + "Z"
  }

  /** `(\d+)` then a separator matches a non-empty digit run and returns what follows the separator. */
  lemma DigitsThenRun(run: string, sep: char, rest: string)
    requires |run| > 0 && AllDigits(run)
    requires !IsDigit(sep)
    ensures DigitsThen(run + [sep] + rest, sep) == Some((run, rest))
  {
    var s := run + [sep] + rest;
    DigitRunStopsAt(run, sep, rest);
    assert s[..|run|] == run && s[|run| + 1..] == rest;
  }

  predicate AllDigits(s: string) {
    forall i :: 0 <= i < |s| ==> IsDigit(s[i])
  }

  /** `^([\d-]+)T(\d+):(\d+):(\d+)` captures the four runs of a string built from them. */
  lemma MatchIsoOfParts(date: string, h: string, mi: string, sec: string, stop: char, tail: string)
    requires |date| > 0 && forall i :: 0 <= i < |date| ==> IsDigitOrDash(date[i])
    requires |h| > 0 && |mi| > 0 && |sec| > 0 && AllDigits(h) && AllDigits(mi) && AllDigits(sec)
    requires !IsDigit(stop)
    ensures MatchIso(date + ['T'] + (h + [':'] + (mi + [':'] + (sec + [stop] + tail)))) == Some(IsoParts(date, h, mi, sec))
  {
    var rest2 := sec + [stop] + tail;
    var rest1 := mi + [':'] + rest2;
    var rest0 := h + [':'] + rest1;
    var s := date + ['T'] + rest0;
    DateRunStopsAt(date, 'T', rest0);
    SplitAround(date, 'T', rest0);
    DigitsThenRun(h, ':', rest1);
    DigitsThenRun(mi, ':', rest2);
    DigitRunStopsAt(sec, stop, tail);
    SplitAround(sec, stop, tail);
    MatchIsoSteps(s, |date|, h, rest1, mi, rest2, |sec|);
  }

  /** The three pieces of `x + [c] + y` read back by position. */
  lemma SplitAround(x: string, c: char, y: string)
    ensures (x + [c] + y)[..|x|] == x && (x + [c] + y)[|x|] == c && (x + [c] + y)[|x| + 1..] == y
  {
  }

  /** The match read step by step: the date run, then two `(\d+):` groups, then a digit run. */
  lemma MatchIsoSteps(s: string, a: nat, hour: string, rest1: string, minutes: string, rest2: string, k: nat)
    requires 0 < a < |s| && DateRun(s) == a && s[a] == 'T'
    requires DigitsThen(s[a + 1..], ':') == Some((hour, rest1))
    requires DigitsThen(rest1, ':') == Some((minutes, rest2))
    requires 0 < k <= |rest2| && DigitRun(rest2) == k
    ensures MatchIso(s) == Some(IsoParts(s[..a], hour, minutes, rest2[..k]))
  {
  }

  /** The parts `toUTC` reads back out of an ISO timestamp are the fields written into it. */
  lemma MatchIsoString(t: UtcTime)
    ensures MatchIso(IsoString(t)) ==
              Some(IsoParts(Digits(t.year, 4) + "-" + Digits(t.month, 2) + "-" + Digits(t.day, 2),
                            Digits(t.hour, 2), Digits(t.minute, 2), Digits(t.second, 2)))
  {
    var date := Digits(t.year, 4) + "-" + Digits(t.month, 2) + "-" + Digits(t.day, 2);
    var h, mi, sec := Digits(t.hour, 2), Digits(t.minute, 2), Digits(t.second, 2);
    var tail := Digits(t.millis, 3) + "Z";
    assert IsoString(t) == date + ['T'] + (h + [':'] + (mi + [':'] + (sec + ['.'] + tail)));
    assert forall i :: 0 <= i < |date| ==> IsDigitOrDash(date[i]) by {
      forall i | 0 <= i < |date| ensures IsDigitOrDash(date[i]) {
        if i < 4 { assert date[i] == Digits(t.year, 4)[i]; }
        else if 5 <= i < 7 { assert date[i] == Digits(t.month, 2)[i - 5]; }
        else if 8 <= i { assert date[i] == Digits(t.day, 2)[i - 8]; }
      }
    }
    MatchIsoOfParts(date, h, mi, sec, '.', tail);
  }

  /** What `toUTC` prints for a valid time, written from its fields. */
  function UtcText(t: UtcTime, options: UtcOptions): string {
    var formattedDate := Digits(t.month, 2) + "/" + Digits(t.day, 2) + "/" + Digits(t.year % 100, 2);
    var badge := if options.hideUTCBadge then "" else " UTC";
    if options.hideHourMinuteSecond then formattedDate
    else if options.showSeconds
    then formattedDate + " " + Digits(t.hour, 2) + ":" + Digits(t.minute, 2) + ":" + Digits(t.second, 2) + badge
    else formattedDate + " " + Digits(t.hour, 2) + ":" + Digits(t.minute, 2) + badge
  }

  /**
   * `toUTC` of a timestamp's ISO form is `MM/DD/YY HH:mm UTC` by default, with
   * YY the year's last two digits; `hideHourMinuteSecond` wins over `showSeconds`.
   */
  lemma {:induction false} ToUTCOfIsoString(t: UtcTime, options: UtcOptions)
    requires ValidTime(t)
    ensures ToUTC(IsoString(t), options) == Some(UtcText(t, options))
  {
    MatchIsoString(t);
    MatchDateOfParts(Digits(t.year, 4), Digits(t.month, 2), Digits(t.day, 2));
    LastTwoDigits(t.year);
  }

  /** An empty string is no ISO timestamp, so `toUTC` fails on it. */
  lemma ToUTCRejectsEmpty(options: UtcOptions)
    ensures ToUTC("", options) == None
  {
  }

  /**
   * A timestamp whose date part passes `[\d-]+` but not `\d{4}-\d{2}-\d{2}`
   * (an unpadded month such as `2021-9-09`) makes `toUTC` fail.
   */
  lemma ToUTCRejectsMalformedDate(date: string, h: string, mi: string, sec: string, stop: char, tail: string,
                                  options: UtcOptions)
    requires |date| > 0 && forall i :: 0 <= i < |date| ==> IsDigitOrDash(date[i])
    requires |h| > 0 && |mi| > 0 && |sec| > 0 && AllDigits(h) && AllDigits(mi) && AllDigits(sec)
    requires !IsDigit(stop)
    requires |date| != 10
    ensures ToUTC(date + ['T'] + (h + [':'] + (mi + [':'] + (sec + [stop] + tail))), options) == None
  {
    MatchIsoOfParts(date, h, mi, sec, stop, tail);
  }
}
