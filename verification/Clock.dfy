/** Instants, HH:MM clock times and the daily windows and deadlines resolved from them.

    An instant is a number of nanoseconds in UTC. `zone` is the fixed offset of the
    server's location, also in nanoseconds: days are always 24 hours long. */
module Clock {
  import opened Wrappers

  type Instant = int

  const SECOND: int := 1_000_000_000
  const MINUTE: int := 60_000_000_000
  const HALF_HOUR: int := 1_800_000_000_000
  const DAY: int := 86_400_000_000_000

  datatype Window = Window(start: Instant, end: Instant)

  /** Time since the last local midnight. */
  function TimeOfDay(t: Instant, zone: int): (r: int)
    ensures 0 <= r < DAY
  {
    (t + zone) % DAY
  }

  function MinuteOfDay(t: Instant, zone: int): (r: int)
    ensures 0 <= r < 1440
    ensures r * MINUTE <= TimeOfDay(t, zone) < (r + 1) * MINUTE
  {
    TimeOfDay(t, zone) / MINUTE
  }

  function Midnight(t: Instant, zone: int): Instant {
    t - TimeOfDay(t, zone)
  }

  function Minutes(duration: int): real {
    duration as real / 60_000_000_000.0
  }

  /** Moving by less than a day from midnight moves the time of day by as much. */
  lemma TimeOfDayFrom(t: Instant, zone: int, x: int)
    requires TimeOfDay(t, zone) == 0
    requires 0 <= x < DAY
    ensures TimeOfDay(t + x, zone) == x
    ensures TimeOfDay(t + x + DAY, zone) == x
    ensures TimeOfDay(t + x - DAY, zone) == x
  {
    var q := (t + zone) / DAY;
    assert t + zone == q * DAY;
    DivModUnique(t + x + zone, q, x);
    DivModUnique(t + x + DAY + zone, q + 1, x);
    DivModUnique(t + x - DAY + zone, q - 1, x);
  }

  lemma DivModUnique(n: int, q: int, r: int)
    requires 0 <= r < DAY
    requires n == q * DAY + r
    ensures n / DAY == q && n % DAY == r
  {
  }

  lemma MidnightIsMidnight(t: Instant, zone: int)
    ensures TimeOfDay(Midnight(t, zone), zone) == 0
  {
    DivModUnique(Midnight(t, zone) + zone, (t + zone) / DAY, 0);
  }

  /** Two instants with the same time of day and less than a day apart are the same. */
  lemma SameTimeOfDay(a: Instant, b: Instant, zone: int)
    requires TimeOfDay(a, zone) == TimeOfDay(b, zone)
    requires -DAY < a - b < DAY
    ensures a == b
  {
    var qa, qb := (a + zone) / DAY, (b + zone) / DAY;
    assert a + zone == qa * DAY + TimeOfDay(a, zone);
    assert b + zone == qb * DAY + TimeOfDay(b, zone);
  }

  /** The index of the first entry of a series at or after `t`. */
  function FirstAt<T>(series: seq<T>, at: T -> Instant, t: Instant): (k: nat)
    requires |series| > 0 && at(series[|series| - 1]) >= t
    ensures k < |series| && at(series[k]) >= t
    ensures forall i :: 0 <= i < k ==> at(series[i]) < t
  {
    if at(series[0]) >= t then 0 else 1 + FirstAt(series[1..], at, t)
  }

  // ---------------------------------------------------------------- HH:MM strings

  predicate IsDigit(c: char) {
    '0' <= c <= '9'
  }

  function DigitChar(d: int): (c: char)
    requires 0 <= d < 10
    ensures IsDigit(c) && c as int - '0' as int == d
  {
    ('0' as int + d) as char
  }

  /** Value of a non-empty run of decimal digits. */
  function Digits(s: string): Option<int> {
    if s == "" then None
    else
      var last := s[|s| - 1];
      if !IsDigit(last) then None
      else
        var d := last as int - '0' as int;
        if |s| == 1 then Some(d)
        else match Digits(s[..|s| - 1])
          case None => None
          case Some(n) => Some(10 * n + d)
  }

  /** `strconv.Atoi`: an optional sign, then digits. */
  function Atoi(s: string): Option<int> {
    if s != "" && (s[0] == '+' || s[0] == '-') then
      match Digits(s[1..])
      case None => None
      case Some(n) => Some(if s[0] == '-' then -n else n)
    else
      Digits(s)
  }

  function ColonIndex(s: string): (i: nat)
    ensures i <= |s|
    ensures ':' !in s[..i]
    ensures i < |s| ==> s[i] == ':'
  {
    if s == "" || s[0] == ':' then 0
    else
      var rest := ColonIndex(s[1..]);
      assert s[..1 + rest] == [s[0]] + s[1..][..rest];
      1 + rest
  }

  /** `parseHHMM`: the minute of the day, or None where the source returns an error. */
  function ParseHHMM(s: string): (r: Option<nat>)
    ensures r.Some? ==> r.value < 1440
  {
    var i := ColonIndex(s);
    if i == |s| || ':' in s[i + 1..] then None
    else
      match (Atoi(s[..i]), Atoi(s[i + 1..]))
      case (Some(h), Some(m)) => if 0 <= h <= 23 && 0 <= m <= 59 then Some(60 * h + m) else None
      case _ => None
  }

  /** A single colon separates two integers in range, at index `i`. */
  ghost predicate IsClockTime(s: string, i: nat, minute: nat) {
    && i < |s| && s[i] == ':' && ':' !in s[..i] && ':' !in s[i + 1..]
    && exists h, m :: Atoi(s[..i]) == Some(h) && Atoi(s[i + 1..]) == Some(m)
                      && 0 <= h <= 23 && 0 <= m <= 59 && minute == 60 * h + m
  }

  /** A text parses exactly when a single colon separates an hour and a minute in range, and
      then to that minute of the day; in particular every other text is refused. */
  lemma ParsesExactly(s: string, minute: nat)
    ensures ParseHHMM(s) == Some(minute) <==> exists i :: IsClockTime(s, i, minute)
  {
    if ParseHHMM(s) == Some(minute) {
      assert IsClockTime(s, ColonIndex(s), minute);
    }
    forall i: nat | IsClockTime(s, i, minute) ensures ParseHHMM(s) == Some(minute) {
      FirstColon(s, i);
    }
  }

  /** Two decimal digits of a number below 100. */
  function TwoDigits(n: int): (s: string)
    requires 0 <= n < 100
  {
    [DigitChar(n / 10), DigitChar(n % 10)]
  }

  /** HH:MM for a minute of the day. */
  function ClockText(minute: nat): string
    requires minute < 1440
  {
    TwoDigits(minute / 60) + ":" + TwoDigits(minute % 60)
  }

  /** `formatTime`: the local clock time, down to the minute. */
  function FormatTime(t: Instant, zone: int): string {
    ClockText(MinuteOfDay(t, zone))
  }

  lemma AtoiTwoDigits(n: int)
    requires 0 <= n < 100
    ensures Atoi(TwoDigits(n)) == Some(n)
    ensures ':' !in TwoDigits(n)
  {
    var s := TwoDigits(n);
    assert s[..1] == [DigitChar(n / 10)];
    assert Digits(s[..1]) == Some(n / 10);
  }

  lemma FirstColon(s: string, k: nat)
    requires k < |s| && s[k] == ':' && ':' !in s[..k]
    ensures ColonIndex(s) == k
  {
    if k > 0 {
      assert s[..k][0] == s[0];
      assert s[..k] == [s[0]] + s[1..][..k - 1];
      FirstColon(s[1..], k - 1);
    }
  }

  /** Formatting an instant and parsing the text gives back its minute of the day. */
  lemma ParseFormat(t: Instant, zone: int)
    ensures ParseHHMM(FormatTime(t, zone)) == Some(MinuteOfDay(t, zone))
  {
    var m := MinuteOfDay(t, zone);
    var hh, mm := TwoDigits(m / 60), TwoDigits(m % 60);
    var s := hh + ":" + mm;
    AtoiTwoDigits(m / 60);
    AtoiTwoDigits(m % 60);
    assert s[..2] == hh && s[3..] == mm;
    FirstColon(s, 2);
  }

  // ---------------------------------------------------------------- daily windows

  /** `withinWindow`: minute of day in [start, end), wrapping midnight. */
  predicate WithinWindow(minute: int, startHHMM: string, endHHMM: string) {
    match (ParseHHMM(startHHMM), ParseHHMM(endHHMM))
    case (Some(s), Some(e)) =>
      if s == e then false
      else if s < e then s <= minute < e
      else s <= minute || minute < e
    case _ => false
  }

  /** A daily repeat of the window between two minutes of the day: the clock times are
      right and the window is at most a day long. */
  ghost predicate IsRepeat(w: Window, zone: int, startMin: nat, endMin: nat) {
    && TimeOfDay(w.start, zone) == startMin * MINUTE
    && TimeOfDay(w.end, zone) == endMin * MINUTE
    && w.start < w.end <= w.start + DAY
  }

  /** `resolveWindow`: the repeat that has not ended yet and whose predecessor has. */
  function ResolveWindow(now: Instant, zone: int, startHHMM: string, endHHMM: string): (r: Option<Window>)
    ensures r.Some? <==> ParseHHMM(startHHMM).Some? && ParseHHMM(endHHMM).Some?
    ensures r.Some? ==>
              && IsRepeat(r.value, zone, ParseHHMM(startHHMM).value, ParseHHMM(endHHMM).value)
              && r.value.end - DAY <= now < r.value.end
  {
    match (ParseHHMM(startHHMM), ParseHHMM(endHHMM))
    case (Some(s), Some(e)) =>
      var today := Midnight(now, zone);
      var start := today + s * MINUTE;
      var sameDayEnd := today + e * MINUTE;
      MidnightIsMidnight(now, zone);
      TimeOfDayFrom(today, zone, s * MINUTE);
      TimeOfDayFrom(today, zone, e * MINUTE);
      TimeOfDayAgain(sameDayEnd, zone);
      var end := if sameDayEnd <= start then sameDayEnd + DAY else sameDayEnd;
      if now < start && now < end - DAY then Some(Window(start - DAY, end - DAY))
      else if end <= now then Some(Window(start + DAY, end + DAY))
      else Some(Window(start, end))
    case _ => None
  }

  lemma TimeOfDayAgain(t: Instant, zone: int)
    ensures TimeOfDay(t + DAY, zone) == TimeOfDay(t + 2 * DAY, zone) == TimeOfDay(t, zone)
  {
    DivModUnique(t + DAY + zone, (t + zone) / DAY + 1, TimeOfDay(t, zone));
    DivModUnique(t + 2 * DAY + zone, (t + zone) / DAY + 2, TimeOfDay(t, zone));
  }

  /** No other repeat has its end after `now` and its predecessor's end at or before `now`. */
  lemma ResolvedWindowIsUnique(now: Instant, zone: int, startMin: nat, endMin: nat, v: Window, w: Window)
    requires IsRepeat(v, zone, startMin, endMin) && IsRepeat(w, zone, startMin, endMin)
    requires v.end - DAY <= now < v.end && w.end - DAY <= now < w.end
    ensures v == w
  {
    SameTimeOfDay(v.end, w.end, zone);
    SameTimeOfDay(v.start, w.start, zone);
  }

  /** The activation gate on the resolved window opens exactly when the billing code's test
      holds for the minute of the day, except that equal ends mean "always" to the first
      and "never" to the second. */
  lemma GateIsWithinWindow(now: Instant, zone: int, startHHMM: string, endHHMM: string)
    requires ParseHHMM(startHHMM).Some? && ParseHHMM(endHHMM).Some?
    ensures var w := ResolveWindow(now, zone, startHHMM, endHHMM).value;
            w.start <= now <==>
            ParseHHMM(startHHMM) == ParseHHMM(endHHMM) || WithinWindow(MinuteOfDay(now, zone), startHHMM, endHHMM)
  {
    var s, e := ParseHHMM(startHHMM).value, ParseHHMM(endHHMM).value;
    assert Midnight(now, zone) + MinuteOfDay(now, zone) * MINUTE <= now;
    assert now < Midnight(now, zone) + (MinuteOfDay(now, zone) + 1) * MINUTE;
  }

  /** `isValidTimeFormat`: the text parses, and both parts have two characters. */
  predicate IsValidTimeFormat(s: string) {
    ParseHHMM(s).Some? && |s| == 5 && ColonIndex(s) == 2
  }

  /** The check of a schedule's window before it is stored. */
  predicate IsAcceptedWindow(startHHMM: string, endHHMM: string) {
    IsValidTimeFormat(startHHMM) && IsValidTimeFormat(endHHMM) && startHHMM != endHHMM
  }

  /** A part of two characters without a sign is the two digits of its value. */
  lemma TwoDigitPart(s: string)
    requires |s| == 2 && s[0] != '+' && s[0] != '-' && Atoi(s).Some?
    ensures 0 <= Atoi(s).value < 100 && s == TwoDigits(Atoi(s).value)
  {
    assert s[..1] == [s[0]];
    assert Digits(s[..1]).Some?;
  }

  predicate HasSign(s: string) {
    '+' in s || '-' in s
  }

  /** An accepted text without a sign is the clock text of its minute. */
  lemma UnsignedIsClockText(s: string)
    requires IsValidTimeFormat(s) && !HasSign(s)
    ensures s == ClockText(ParseHHMM(s).value)
  {
    hide Atoi, TwoDigits;
    TwoDigitPart(s[..2]);
    TwoDigitPart(s[3..]);
    assert s == s[..2] + ":" + s[3..];
  }

  /** So two such texts name the same minute only if they are the same text: an accepted window
      has equal ends only when a sign is written in one of them. */
  lemma UnsignedEndsDiffer(startHHMM: string, endHHMM: string)
    requires IsAcceptedWindow(startHHMM, endHHMM) && !HasSign(startHHMM) && !HasSign(endHHMM)
    ensures ParseHHMM(startHHMM) != ParseHHMM(endHHMM)
  {
    hide ParseHHMM, HasSign, ColonIndex, ClockText;
    UnsignedIsClockText(startHHMM);
    UnsignedIsClockText(endHHMM);
  }

  /** With a sign they can be equal, and then the scheduler's gate is always open while the
      billing test never holds. */
  lemma SignedEndsAreAlwaysAndNever(now: Instant, zone: int)
    ensures IsAcceptedWindow("+7:00", "07:00")
    ensures var w := ResolveWindow(now, zone, "+7:00", "07:00");
            w.Some? && w.value.start <= now < w.value.end
    ensures !WithinWindow(MinuteOfDay(now, zone), "+7:00", "07:00")
  {
    SevenOClock();
    GateIsWithinWindow(now, zone, "+7:00", "07:00");
  }

  lemma SevenOClock()
    ensures ParseHHMM("+7:00") == ParseHHMM("07:00") == Some(420)
    ensures ColonIndex("+7:00") == ColonIndex("07:00") == 2
  {
    var signed, plain := "+7:00", "07:00";
    assert signed[..2] == "+7" && signed[3..] == "00" && plain[..2] == "07" && plain[3..] == "00";
    FirstColon(signed, 2);
    FirstColon(plain, 2);
    assert "+7"[1..] == "7" && Digits("7") == Some(7) && Atoi("+7") == Some(7);
    assert "07"[..1] == "0" && Digits("0") == Some(0) && Atoi("07") == Some(7);
    assert "00"[..1] == "0" && Atoi("00") == Some(0);
  }

  // ---------------------------------------------------------------- deadlines

  /** `resolveDeadline`: the first instant at or after `now` with the given clock time. */
  function ResolveDeadline(now: Instant, zone: int, hhmm: string): (r: Option<Instant>)
    ensures r.Some? <==> ParseHHMM(hhmm).Some?
    ensures r.Some? ==>
              && now <= r.value < now + DAY
              && TimeOfDay(r.value, zone) == ParseHHMM(hhmm).value * MINUTE
  {
    match ParseHHMM(hhmm)
    case None => None
    case Some(m) =>
      MidnightIsMidnight(now, zone);
      TimeOfDayFrom(Midnight(now, zone), zone, m * MINUTE);
      var deadline := Midnight(now, zone) + m * MINUTE;
      Some(if deadline < now then deadline + DAY else deadline)
  }

  /** Re-resolving the clock time at a later instant keeps the deadline exactly until it
      has passed; from then on it moves a whole day, never less. */
  lemma ReResolved(earlier: Instant, later: Instant, zone: int, hhmm: string)
    requires ParseHHMM(hhmm).Some?
    requires earlier <= later
    ensures var d := ResolveDeadline(earlier, zone, hhmm).value;
            && (later <= d <==> ResolveDeadline(later, zone, hhmm) == Some(d))
            && (d < later ==> ResolveDeadline(later, zone, hhmm).value >= d + DAY)
  {
    var d := ResolveDeadline(earlier, zone, hhmm).value;
    var d' := ResolveDeadline(later, zone, hhmm).value;
    if later <= d {
      SameTimeOfDay(d, d', zone);
    } else if d' < d + DAY {
      SameTimeOfDay(d, d', zone);
      assert false;
    }
  }

  /** The ready-by text written when a carbon-aware session starts names the window's end:
      any tick in the day up to that end resolves the text back to it. */
  lemma ReadyByNamesWindowEnd(now: Instant, zone: int, startHHMM: string, endHHMM: string, tick: Instant)
    requires ParseHHMM(startHHMM).Some? && ParseHHMM(endHHMM).Some?
    requires var end := ResolveWindow(now, zone, startHHMM, endHHMM).value.end;
             end - DAY < tick <= end
    ensures var end := ResolveWindow(now, zone, startHHMM, endHHMM).value.end;
            ResolveDeadline(tick, zone, FormatTime(end, zone)) == Some(end)
  {
    hide ParseHHMM, FormatTime;
    var end := ResolveWindow(now, zone, startHHMM, endHHMM).value.end;
    ParseFormat(end, zone);
    var r := ResolveDeadline(tick, zone, FormatTime(end, zone)).value;
    SameTimeOfDay(r, end, zone);
  }
}
