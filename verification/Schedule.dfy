/** The poll schedule: windows of the day, the next poll's time, and the polls a connector makes over
    restarts of the process and of its watch. */
module PollSchedule {
  import opened Numbers
  import opened Options

  const DAY: int := 86400 * SECOND

  /** A window of every day, in seconds of the day: its start is inside, its end is not. */
  datatype Window = Window(start: nat, end: nat)

  /** What the configuration check asks of the windows. */
  ghost predicate Proper(ws: seq<Window>) {
    |ws| > 0 && forall i :: 0 <= i < |ws| ==> ws[i].start < ws[i].end <= 86400
  }

  /** What the schedule needs of them: that they are sorted and disjoint as well. */
  ghost predicate Ordered(ws: seq<Window>) {
    Proper(ws) && forall i, j :: 0 <= i < j < |ws| ==> ws[i].end <= ws[j].start
  }

  /** The instant at a second of a day. Days are counted from a Monday, in the schedule's own zone. */
  function At(day: int, second: int): int {
    day * DAY + second * SECOND
  }

  function DayOf(t: int): int {
    t / DAY
  }

  predicate IsWeekend(day: int) {
    day % 7 >= 5
  }

  predicate Eligible(day: int, weekdaysOnly: bool) {
    !(weekdaysOnly && IsWeekend(day))
  }

  /** `t` is inside the window `w` of the day `d`. */
  predicate InsideOf(t: int, d: int, w: Window) {
    At(d, w.start) <= t < At(d, w.end)
  }

  predicate Inside(t: int, w: Window) {
    InsideOf(t, DayOf(t), w)
  }

  lemma OneDay(t: int, d: int, w: Window)
    requires w.start < w.end <= 86400 && InsideOf(t, d, w)
    ensures d == DayOf(t)
  {}

  // ---- The end of the window that contains an instant ----

  function WindowEnd(ws: seq<Window>, t: int): int {
    if ws == [] then t
    else if Inside(t, ws[0]) then At(DayOf(t), ws[0].end)
    else WindowEnd(ws[1..], t)
  }

  /** It is the end of the first listed window that contains the instant. */
  lemma {:induction false} WindowEndIs(ws: seq<Window>, t: int, i: nat)
    requires i < |ws| && Inside(t, ws[i]) && forall j :: 0 <= j < i ==> !Inside(t, ws[j])
    ensures WindowEnd(ws, t) == At(DayOf(t), ws[i].end)
  {
    hide Inside, At, DayOf;
    if i > 0 {
      assert forall j :: 0 <= j < i - 1 ==> ws[1..][j] == ws[j + 1];
      WindowEndIs(ws[1..], t, i - 1);
    }
  }

  /** It never lies before the instant, and it is the instant itself when no window contains that. */
  lemma {:induction false} WindowEndOutside(ws: seq<Window>, t: int)
    ensures WindowEnd(ws, t) >= t
    ensures if forall i :: 0 <= i < |ws| ==> !Inside(t, ws[i]) then WindowEnd(ws, t) == t
            else exists i :: FirstWith(ws, t, i) && WindowEnd(ws, t) == At(DayOf(t), ws[i].end)
  {
    if i: nat :| i < |ws| && Inside(t, ws[i]) {
      var f := FirstInside(ws, t, i);
      WindowEndIs(ws, t, f);
    } else {
      InNone(ws, t);
    }
  }

  /** The first listed window that contains the instant. */
  ghost predicate FirstWith(ws: seq<Window>, t: int, i: int) {
    0 <= i < |ws| && Inside(t, ws[i]) && forall j :: 0 <= j < i ==> !Inside(t, ws[j])
  }

  lemma {:induction false} FirstInside(ws: seq<Window>, t: int, i: nat) returns (f: nat)
    requires i < |ws| && Inside(t, ws[i])
    ensures f <= i && FirstWith(ws, t, f)
  {
    f := i;
    if j: nat :| j < i && Inside(t, ws[j]) {
      f := FirstInside(ws, t, j);
    }
  }

  lemma {:induction false} InNone(ws: seq<Window>, t: int)
    requires forall i :: 0 <= i < |ws| ==> !Inside(t, ws[i])
    ensures WindowEnd(ws, t) == t
  {
    if ws != [] {
      assert forall i :: 0 <= i < |ws[1..]| ==> ws[1..][i] == ws[i + 1];
      InNone(ws[1..], t);
    }
  }

  lemma WholeSeconds(t: int, k: int)
    ensures k * SECOND <= t <==> k * SECOND <= t / SECOND * SECOND
    ensures t / SECOND * SECOND <= t
  {}

  lemma SameDay(t: int)
    ensures DayOf(t / SECOND * SECOND) == DayOf(t)
  {}

  lemma InsideToTheSecond(t: int, w: Window)
    ensures Inside(t / SECOND * SECOND, w) == Inside(t, w)
  {
    SameDay(t);
    WholeSeconds(t, DayOf(t) * 86400 + w.start);
    WholeSeconds(t, DayOf(t) * 86400 + w.end);
  }

  /** Dropping the fraction of a second leaves the window of an instant as it is. */
  lemma {:induction false} SecondsAreEnough(ws: seq<Window>, t: int)
    ensures var s := t / SECOND * SECOND;
      s <= t && (WindowEnd(ws, s) == WindowEnd(ws, t) || (WindowEnd(ws, t) == t && WindowEnd(ws, s) == s))
  {
    hide Inside, At;
    SameDay(t);
    WholeSeconds(t, 0);
    if ws != [] {
      InsideToTheSecond(t, ws[0]);
      SecondsAreEnough(ws[1..], t);
    }
  }

  // ---- The next poll ----

  /** A random time in a window of a day. */
  method SplayedTimeIn(w: Window, day: int) returns (t: int)
    requires w.start < w.end
    ensures InsideOf(t, day, w) && t % SECOND == 0
  {
    var splay: int := *;
    t := At(day, w.start + splay % (w.end - w.start));
  }

  /** The first weekday from a day on, when only weekdays count. */
  method SkipWeekend(from: int, weekdaysOnly: bool) returns (day: int)
    ensures day >= from && Eligible(day, weekdaysOnly)
    ensures forall d :: from <= d < day ==> !Eligible(d, weekdaysOnly)
  {
    day := from;
    while weekdaysOnly && IsWeekend(day)
      invariant day >= from && forall d :: from <= d < day ==> !Eligible(d, weekdaysOnly)
      decreases if IsWeekend(day) then 7 - day % 7 else 0
    {
      day := day + 1;
    }
  }

  /** `t` is in an eligible window that starts at or after `now`, and no eligible window that does
      starts earlier. */
  ghost predicate FirstWindowFrom(ws: seq<Window>, weekdaysOnly: bool, now: int, t: int, d: int, i: int) {
    && 0 <= i < |ws| && InsideOf(t, d, ws[i]) && Eligible(d, weekdaysOnly) && At(d, ws[i].start) >= now
    && forall e, j :: 0 <= j < |ws| && Eligible(e, weekdaysOnly) && At(e, ws[j].start) >= now ==> At(d, ws[i].start) <= At(e, ws[j].start)
  }

  /** An instant that is in no window but for its start. */
  ghost predicate NotStrictlyInside(ws: seq<Window>, now: int) {
    forall i :: 0 <= i < |ws| ==> !Inside(now, ws[i]) || now == At(DayOf(now), ws[i].start)
  }

  /** The times the next poll may get: today's first window, as they are listed, whose random time is not
      before `now`; when there is none, the first listed window of the next eligible day. */
  ghost predicate MayBeNext(ws: seq<Window>, weekdaysOnly: bool, now: int, t: int)
    requires |ws| > 0
  {
    && t % SECOND == 0
    && ((Eligible(DayOf(now), weekdaysOnly) && exists j :: MayBeToday(ws, now, t, j))
        || ((Eligible(DayOf(now), weekdaysOnly) ==> forall m :: 0 <= m < |ws| ==> At(DayOf(now), ws[m].start) < now)
            && exists d :: d > DayOf(now) && Eligible(d, weekdaysOnly) && InsideOf(t, d, ws[0])
                           && forall e :: DayOf(now) < e < d ==> !Eligible(e, weekdaysOnly)))
  }

  ghost predicate MayBeToday(ws: seq<Window>, now: int, t: int, j: int) {
    && 0 <= j < |ws| && InsideOf(t, DayOf(now), ws[j]) && t >= now
    && forall m :: 0 <= m < j ==> At(DayOf(now), ws[m].start) < now
  }

  /** The next poll: never before `now`, always in an eligible window, one of the times it may get; and
      from an instant that is not strictly inside a window, in the first eligible window that starts at
      or after it. */
  method ComputeNextPollTime(ws: seq<Window>, weekdaysOnly: bool, now: int) returns (t: int, ghost d: int, ghost i: int)
    requires Proper(ws)
    ensures t >= now && 0 <= i < |ws| && InsideOf(t, d, ws[i]) && Eligible(d, weekdaysOnly)
    ensures MayBeNext(ws, weekdaysOnly, now, t)
    ensures Ordered(ws) && NotStrictlyInside(ws, now) ==> FirstWindowFrom(ws, weekdaysOnly, now, t, d, i)
  {
    var today := DayOf(now);
    if weekdaysOnly && IsWeekend(today) {
      var day := SkipWeekend(today, weekdaysOnly);
      t := SplayedTimeIn(ws[0], day);
      d, i := day, 0;
      LaterDay(now, t, day, ws[0]);
      if Ordered(ws) {
        FirstOfDay(ws, weekdaysOnly, now, t, day);
      }
      return;
    }
    var n := 0;
    while n < |ws|
      invariant 0 <= n <= |ws|
      invariant forall j :: 0 <= j < n ==> At(today, ws[j].start) < now
    {
      t := SplayedTimeIn(ws[n], today);
      if t >= now {
        d, i := today, n;
        assert MayBeToday(ws, now, t, n);
        if Ordered(ws) && NotStrictlyInside(ws, now) {
          FirstToday(ws, weekdaysOnly, now, t, n);
        }
        return;
      }
      n := n + 1;
    }
    var day := SkipWeekend(today + 1, weekdaysOnly);
    t := SplayedTimeIn(ws[0], day);
    d, i := day, 0;
    LaterDay(now, t, day, ws[0]);
    if Ordered(ws) {
      FirstOfDay(ws, weekdaysOnly, now, t, day);
    }
  }

  lemma LaterDay(now: int, t: int, day: int, w: Window)
    requires day > DayOf(now) && InsideOf(t, day, w)
    ensures t >= now
  {}

  lemma PastDay(e: int, second: nat, now: int)
    requires second < 86400
    ensures e < DayOf(now) ==> At(e, second) < now
  {}

  lemma FirstOfDay(ws: seq<Window>, weekdaysOnly: bool, now: int, t: int, day: int)
    requires Ordered(ws) && day > DayOf(now) && Eligible(day, weekdaysOnly) && InsideOf(t, day, ws[0])
    requires forall e :: DayOf(now) < e < day ==> !Eligible(e, weekdaysOnly)
    requires !Eligible(DayOf(now), weekdaysOnly) || forall j :: 0 <= j < |ws| ==> At(DayOf(now), ws[j].start) < now
    ensures FirstWindowFrom(ws, weekdaysOnly, now, t, day, 0) && t >= now
  {
    forall e, j | 0 <= j < |ws| && Eligible(e, weekdaysOnly) && At(e, ws[j].start) >= now ensures At(day, ws[0].start) <= At(e, ws[j].start) {
      PastDay(e, ws[j].start, now);
      assert e >= day;
      assert j > 0 ==> ws[0].end <= ws[j].start;
      assert At(day, ws[0].start) <= At(e, ws[0].start) <= At(e, ws[j].start);
    }
  }

  lemma FirstToday(ws: seq<Window>, weekdaysOnly: bool, now: int, t: int, n: nat)
    requires Ordered(ws) && n < |ws| && Eligible(DayOf(now), weekdaysOnly) && InsideOf(t, DayOf(now), ws[n]) && t >= now
    requires NotStrictlyInside(ws, now) && forall j :: 0 <= j < n ==> At(DayOf(now), ws[j].start) < now
    ensures FirstWindowFrom(ws, weekdaysOnly, now, t, DayOf(now), n)
  {
    var today := DayOf(now);
    forall e, j | 0 <= j < |ws| && Eligible(e, weekdaysOnly) && At(e, ws[j].start) >= now ensures At(today, ws[n].start) <= At(e, ws[j].start) {
      PastDay(e, ws[j].start, now);
      if e == today {
        assert j >= n;
        assert j > n ==> ws[n].end <= ws[j].start;
      } else {
        assert At(today, ws[n].start) < At(today + 1, 0) <= At(e, 0);
      }
    }
  }

  // ---- The last window that has opened ----

  /** An eligible window started at `s`. */
  ghost predicate Started(ws: seq<Window>, weekdaysOnly: bool, s: int) {
    exists d, i :: 0 <= i < |ws| && Eligible(d, weekdaysOnly) && s == At(d, ws[i].start)
  }

  /** The start of the most recent eligible window that had opened by `now`: none opened since. Looking
      back eight days always finds one. */
  method LastWindowStart(ws: seq<Window>, weekdaysOnly: bool, now: int) returns (latest: Option<int>)
    requires Proper(ws)
    ensures latest.Some? && latest.value <= now && Started(ws, weekdaysOnly, latest.value)
    ensures forall d, i :: 0 <= i < |ws| && Eligible(d, weekdaysOnly) && At(d, ws[i].start) <= now ==> At(d, ws[i].start) <= latest.value
  {
    latest := None;
    var back := 0;
    while back <= 8
      invariant latest.None? && 0 <= back <= 9
      invariant forall d, i :: 0 <= i < |ws| && Eligible(d, weekdaysOnly) && DayOf(now) - back < d ==> At(d, ws[i].start) > now
    {
      var day := DayOf(now) - back;
      if Eligible(day, weekdaysOnly) {
        var n := 0;
        while n < |ws|
          invariant 0 <= n <= |ws|
          invariant latest.Some? ==> latest.value <= now && exists i :: 0 <= i < n && latest.value == At(day, ws[i].start)
          invariant forall i :: 0 <= i < n && At(day, ws[i].start) <= now ==> latest.Some? && At(day, ws[i].start) <= latest.value
        {
          var start := At(day, ws[n].start);
          if start <= now && (latest.None? || start > latest.value) {
            latest := Some(start);
          }
          n := n + 1;
        }
        if latest.Some? {
          EarlierDays(ws, weekdaysOnly, now, day, latest.value);
          return;
        }
      }
      back := back + 1;
    }
    EightDaysHaveAWeekday(ws, weekdaysOnly, now);
    assert false;
  }

  lemma EightDaysHaveAWeekday(ws: seq<Window>, weekdaysOnly: bool, now: int)
    requires Proper(ws)
    ensures exists d :: DayOf(now) - 9 < d && Eligible(d, weekdaysOnly) && At(d, ws[0].start) <= now
  {
    var d := if Eligible(DayOf(now) - 1, weekdaysOnly) then DayOf(now) - 1 else DayOf(now) - 3;
    PastDay(d, ws[0].start, now);
  }

  lemma EarlierDays(ws: seq<Window>, weekdaysOnly: bool, now: int, day: int, latest: int)
    requires Proper(ws) && exists i :: 0 <= i < |ws| && latest == At(day, ws[i].start)
    requires forall d, i :: 0 <= i < |ws| && Eligible(d, weekdaysOnly) && day < d ==> At(d, ws[i].start) > now
    requires forall i :: 0 <= i < |ws| && At(day, ws[i].start) <= now ==> At(day, ws[i].start) <= latest
    ensures forall d, i :: 0 <= i < |ws| && Eligible(d, weekdaysOnly) && At(d, ws[i].start) <= now ==> At(d, ws[i].start) <= latest
  {}
}
