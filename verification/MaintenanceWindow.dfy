/**
 The daily maintenance window: isInMaintenanceWindow and parseTimeOfDay.
 The clock counts minutes; the time zone is a fixed offset in minutes east of UTC.
 */
module MaintenanceWindow {
  import opened Basics

  const DAY := 1440

  datatype Window = Window(start: string, end: string, offset: int)

  /** getnum of Go's time package: one or two digits, exactly two when `fixed`. */
  function TakeNumber(s: string, fixed: bool): Option<(nat, string)> {
    if |s| == 0 || !IsDigit(s[0]) then None
    else if |s| == 1 || !IsDigit(s[1]) then if fixed then None else Some((DigitValue(s[0]), s[1..]))
    else Some((10 * DigitValue(s[0]) + DigitValue(s[1]), s[2..]))
  }

  /** time.Parse("15:04", s) followed by Hour()*60 + Minute(); None is the parse error. */
  function ParseTimeOfDay(s: string): (r: Option<int>)
    ensures r.Some? ==> 0 <= r.value < DAY
  {
    var hour := TakeNumber(s, false);
    if hour.None? || hour.value.0 >= 24 then None
    else
      var rest := hour.value.1;
      if |rest| == 0 || rest[0] != ':' then None
      else
        var minute := TakeNumber(rest[1..], true);
        if minute.None? || minute.value.0 >= 60 || minute.value.1 != "" then None
        else Some(60 * hour.value.0 + minute.value.0)
  }

  function DigitChar(v: nat): (c: char)
    requires v < 10
    ensures IsDigit(c) && DigitValue(c) == v
  {
    '0' + v as char
  }

  function FormatHour(h: nat, padded: bool): string
    requires h < 24
    requires !padded ==> h < 10
  {
    if padded then [DigitChar(h / 10), DigitChar(h % 10)] else [DigitChar(h)]
  }

  function FormatMinute(m: nat): string
    requires m < 60
  {
    [DigitChar(m / 10), DigitChar(m % 10)]
  }

  /** "HH:MM", or "H:MM" when not padded. */
  function FormatTimeOfDay(t: nat, padded: bool): string
    requires t < DAY
    requires !padded ==> t < 600
  {
    FormatHour(t / 60, padded) + [':'] + FormatMinute(t % 60)
  }

  /** Parsing undoes both formats. */
  lemma ParseUndoesFormat(t: nat, padded: bool)
    requires t < DAY
    requires !padded ==> t < 600
    ensures ParseTimeOfDay(FormatTimeOfDay(t, padded)) == Some(t)
  {
    hide TakeNumber, DigitChar;
    var hour, minute := FormatHour(t / 60, padded), FormatMinute(t % 60);
    assert FormatTimeOfDay(t, padded) == hour + ([':'] + minute);
    TakeHour(t / 60, padded, [':'] + minute);
    assert ([':'] + minute)[1..] == minute;
    TakeMinute(t % 60);
  }

  lemma TakeHour(h: nat, padded: bool, rest: string)
    requires h < 24 && (!padded ==> h < 10) && |rest| > 0 && rest[0] == ':'
    ensures TakeNumber(FormatHour(h, padded) + rest, false) == Some((h, rest))
  {
    var s := FormatHour(h, padded) + rest;
    assert 10 * (h / 10) + h % 10 == h;
    assert s[|FormatHour(h, padded)|..] == rest;
  }

  lemma TakeMinute(m: nat)
    requires m < 60
    ensures TakeNumber(FormatMinute(m), true) == Some((m, ""))
  {
    assert 10 * (m / 10) + m % 10 == m;
    assert FormatMinute(m)[2..] == "";
  }

  /** Nothing else parses: the accepted texts are exactly the formatted times, the leading zero of the hour optional. */
  lemma ParseAcceptsOnlyTimes(s: string, t: nat)
    ensures ParseTimeOfDay(s) == Some(t) <==>
            t < DAY && (s == FormatTimeOfDay(t, true) || (t < 600 && s == FormatTimeOfDay(t, false)))
  {
    if t < DAY { ParseUndoesFormat(t, true); }
    if t < 600 { ParseUndoesFormat(t, false); }
    if ParseTimeOfDay(s) == Some(t) {
      hide TakeNumber, DigitChar, FormatHour, FormatMinute;
      var (h, rest) := TakeNumber(s, false).value;
      var (m, _) := TakeNumber(rest[1..], true).value;
      HourTaken(s);
      MinuteTaken(rest[1..]);
      assert rest == [':'] + rest[1..];
      assert t / 60 == h && t % 60 == m;
      var padded := |rest| + 2 == |s|;
      assert s == FormatHour(h, padded) + [':'] + FormatMinute(m);
    }
  }

  /** What is taken as an hour is a formatted hour. */
  lemma HourTaken(s: string)
    requires TakeNumber(s, false).Some? && TakeNumber(s, false).value.0 < 24
    ensures var (h, rest) := TakeNumber(s, false).value;
            var padded := |rest| + 2 == |s|;
            (!padded ==> h < 10) && s == FormatHour(h, padded) + rest
  {
    var (h, rest) := TakeNumber(s, false).value;
    CharOfDigit(s[0]);
    if |rest| + 2 == |s| { CharOfDigit(s[1]); }
  }

  /** What is taken as a minute, with nothing left, is a formatted minute. */
  lemma MinuteTaken(s: string)
    requires TakeNumber(s, true).Some? && TakeNumber(s, true).value.0 < 60 && TakeNumber(s, true).value.1 == ""
    ensures s == FormatMinute(TakeNumber(s, true).value.0)
  {
    CharOfDigit(s[0]);
    CharOfDigit(s[1]);
    assert s == [s[0], s[1]];
  }

  lemma CharOfDigit(c: char)
    requires IsDigit(c)
    ensures DigitChar(DigitValue(c)) == c
  {
  }

  function MinuteOfDay(now: int, offset: int): (m: int)
    ensures 0 <= m < DAY
  {
    (now + offset) % DAY
  }

  /** The last three lines of isInMaintenanceWindow, on parsed times. */
  predicate Inside(start: int, end: int, minute: int) {
    if start <= end then start <= minute < end else minute >= start || minute < end
  }

  /** isInMaintenanceWindow: a window that does not parse never holds an upgrade back. */
  predicate InWindow(w: Window, now: int) {
    var start, end := ParseTimeOfDay(w.start), ParseTimeOfDay(w.end);
    start.None? || end.None? || Inside(start.value, end.value, MinuteOfDay(now, w.offset))
  }

  function Length(start: int, end: int): (n: int)
    ensures 0 <= n < DAY
  {
    (end - start) % DAY
  }

  /** On the circle of a day the window is the arc that starts at `start` and has length (end - start) mod 1440. */
  lemma WindowIsAnArc(start: int, end: int, minute: int)
    requires 0 <= start < DAY && 0 <= end < DAY && 0 <= minute < DAY
    ensures Inside(start, end, minute) <==> (minute - start) % DAY < Length(start, end)
  {
    ModOnce(minute - start);
    ModOnce(end - start);
  }

  lemma ModOnce(x: int)
    requires -DAY < x < DAY
    ensures x % DAY == if x < 0 then x + DAY else x
  {
    if x < 0 { assert x == -1 * DAY + (x + DAY); }
  }

  /** The window and the window with its ends exchanged partition the day, unless the ends coincide (never open). */
  lemma WindowsPartitionTheDay(start: int, end: int, minute: int)
    requires 0 <= start < DAY && 0 <= end < DAY && 0 <= minute < DAY
    ensures start != end ==> (Inside(start, end, minute) <==> !Inside(end, start, minute))
    ensures start == end ==> !Inside(start, end, minute) && !Inside(end, start, minute)
  {
  }

  /** The same arc on the unbounded clock. */
  lemma InWindowIsAnArc(w: Window, now: int, start: int, end: int)
    requires ParseTimeOfDay(w.start) == Some(start) && ParseTimeOfDay(w.end) == Some(end)
    ensures InWindow(w, now) <==> (now + w.offset - start) % DAY < Length(start, end)
  {
    var m := MinuteOfDay(now, w.offset);
    WindowIsAnArc(start, end, m);
    var q := (now + w.offset) / DAY;
    assert now + w.offset == q * DAY + m;
    ModShift(m - start, q);
    assert now + w.offset - start == (m - start) + q * DAY;
  }

  lemma ModShift(x: int, q: int)
    ensures (x + q * DAY) % DAY == x % DAY
  {
    var d, r := x / DAY, x % DAY;
    assert x + q * DAY == (d + q) * DAY + r;
    DivUnique(x + q * DAY, d + q, r);
  }

  lemma DivUnique(x: int, d: int, r: int)
    requires x == d * DAY + r && 0 <= r < DAY
    ensures x % DAY == r
  {
  }

  /**
   A poller whose gaps never exceed the length of the window cannot miss it: among its first polls up to a day
   plus one window length after the first, one falls inside.
   */
  lemma {:induction false} PollingLandsInside(w: Window, start: int, end: int, polls: seq<int>, i: nat) returns (k: nat)
    requires ParseTimeOfDay(w.start) == Some(start) && ParseTimeOfDay(w.end) == Some(end) && start != end
    requires i < |polls|
    requires forall j :: 0 <= j < |polls| - 1 ==> polls[j] <= polls[j + 1] <= polls[j] + Length(start, end)
    requires polls[|polls| - 1] >= polls[i] + DAY
    ensures i <= k < |polls| && InWindow(w, polls[k])
    ensures polls[k] < polls[i] + DAY + Length(start, end)
  {
    var n := Length(start, end);
    var phase := (polls[i] + w.offset - start) % DAY;
    InWindowIsAnArc(w, polls[i], start, end);
    if phase < n {
      k := i;
    } else {
      k := FirstPollInside(w, start, end, polls, i, i, polls[i] - phase + DAY);
    }
  }

  /** From a poll before the next opening of the window, the first poll not before the opening is inside. */
  lemma {:induction false} FirstPollInside(w: Window, start: int, end: int, polls: seq<int>, first: nat, i: nat, opens: int)
    returns (k: nat)
    requires ParseTimeOfDay(w.start) == Some(start) && ParseTimeOfDay(w.end) == Some(end) && start != end
    requires first <= i < |polls| && polls[i] < opens <= polls[first] + DAY
    requires (opens + w.offset - start) % DAY == 0
    requires forall j :: 0 <= j < |polls| - 1 ==> polls[j] <= polls[j + 1] <= polls[j] + Length(start, end)
    requires polls[|polls| - 1] >= polls[first] + DAY
    ensures i < k < |polls| && InWindow(w, polls[k])
    ensures polls[k] < opens + Length(start, end)
    decreases |polls| - i
  {
    assert i < |polls| - 1;
    if polls[i + 1] < opens {
      k := FirstPollInside(w, start, end, polls, first, i + 1, opens);
    } else {
      k := i + 1;
      var q, late := (opens + w.offset - start) / DAY, polls[k] - opens;
      assert polls[k] + w.offset - start == q * DAY + late;
      DivUnique(polls[k] + w.offset - start, q, late);
      InWindowIsAnArc(w, polls[k], start, end);
    }
  }

  /** A window that does not parse never holds an upgrade back. */
  lemma UnparsableIsOpen(w: Window, now: int)
    requires ParseTimeOfDay(w.start).None? || ParseTimeOfDay(w.end).None?
    ensures InWindow(w, now)
  {
  }

  /**
   A controller that looks at the clock at least once a minute, as one does that waits for the window, finds every
   window that is not empty: within a day and the length of the window. Times are in seconds.
   */
  lemma MinutePollingLandsInside(w: Window, start: int, end: int, looks: seq<int>) returns (k: nat)
    requires ParseTimeOfDay(w.start) == Some(start) && ParseTimeOfDay(w.end) == Some(end) && start != end
    requires |looks| > 0 && forall j :: 0 <= j < |looks| - 1 ==> looks[j] <= looks[j + 1] <= looks[j] + 60
    requires looks[|looks| - 1] >= looks[0] + 60 * (DAY + 1)
    ensures k < |looks| && InWindow(w, looks[k] / 60)
    ensures looks[k] / 60 < looks[0] / 60 + DAY + Length(start, end)
  {
    var polls := seq(|looks|, i requires 0 <= i < |looks| => looks[i] / 60);
    ModOnce(end - start);
    k := PollingLandsInside(w, start, end, polls, 0);
  }
}
