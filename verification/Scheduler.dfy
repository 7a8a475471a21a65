/** The polls a connector starts: the catch-up poll of a new process, the scheduled polls of its
    watch, and what survives a restart. */
module PollScheduler {
  import opened Numbers
  import opened Options
  import opened PollSchedule
  import opened Checkpoints

  /** The checkpoint key of the last poll's time, which is stored in whole seconds. */
  const LAST: nat := 0

  /** Two instants are inside one window of one day. */
  ghost predicate SameWindow(ws: seq<Window>, s: int, t: int) {
    exists i :: 0 <= i < |ws| && Inside(s, ws[i]) && InsideOf(t, DayOf(s), ws[i])
  }

  ghost predicate OnePerWindow(ws: seq<Window>, polls: seq<int>) {
    forall i, j :: 0 <= i < j < |polls| ==> !SameWindow(ws, polls[i], polls[j])
  }

  ghost predicate InOrder(polls: seq<int>, clock: int) {
    && (forall i, j :: 0 <= i < j < |polls| ==> polls[i] <= polls[j])
    && (forall i :: 0 <= i < |polls| ==> polls[i] <= clock)
  }

  /** The later of the two, when there are two. */
  function Later(a: Option<int>, b: int): int {
    if a.Some? && a.value > b then a.value else b
  }

  /** What is between two instants of one window is in that window as well. */
  lemma Between(ws: seq<Window>, s: int, t: int, u: int)
    requires Proper(ws) && s <= t <= u && SameWindow(ws, s, u)
    ensures SameWindow(ws, s, t) && SameWindow(ws, t, u)
  {
    var i :| 0 <= i < |ws| && Inside(s, ws[i]) && InsideOf(u, DayOf(s), ws[i]);
    OneDay(t, DayOf(s), ws[i]);
  }

  /** A poll that shares no window with the last one is the first in its own. */
  lemma PollIsFirst(ws: seq<Window>, polls: seq<int>, t: int)
    requires Proper(ws) && OnePerWindow(ws, polls) && InOrder(polls, t)
    requires polls != [] ==> !SameWindow(ws, polls[|polls| - 1], t)
    ensures OnePerWindow(ws, polls + [t]) && InOrder(polls + [t], t)
  {
    hide SameWindow, Proper;
    var more := polls + [t];
    forall i, j | 0 <= i < j < |more| ensures !SameWindow(ws, more[i], more[j]) {
      if j == |polls| && SameWindow(ws, more[i], t) {
        Between(ws, more[i], polls[|polls| - 1], t);
      }
    }
  }

  // ---- What windows may share ----

  /** One window opens inside another. */
  predicate OpensInside(outer: Window, inner: Window) {
    outer.start < inner.start < outer.end
  }

  ghost predicate NoneOpensInside(ws: seq<Window>) {
    forall i, k :: 0 <= i < |ws| && 0 <= k < |ws| ==> !OpensInside(ws[i], ws[k])
  }

  /** Window `g` is the first listed with its start. */
  ghost predicate FirstWithStart(ws: seq<Window>, g: int) {
    0 <= g < |ws| && forall h :: 0 <= h < g ==> ws[h].start != ws[g].start
  }

  /** Window `j` ends after the first listed with its start, and no window listed before it opens when it
      is over. */
  ghost predicate Outlasts(ws: seq<Window>, j: int) {
    && 0 <= j < |ws|
    && (exists g :: FirstWithStart(ws, g) && ws[g].start == ws[j].start && ws[g].end < ws[j].end)
    && forall m :: 0 <= m < j ==> ws[m].start < ws[j].end
  }

  /** Windows that are polled once each as long as what is stored is exact. */
  ghost predicate Clean(ws: seq<Window>) {
    NoneOpensInside(ws) && forall j :: !Outlasts(ws, j)
  }

  /** Disjoint windows are clean. */
  lemma OrderedIsClean(ws: seq<Window>)
    requires Ordered(ws)
    ensures Clean(ws)
  {}

  /** Two overlapping windows of a clean list start together. */
  lemma StartTogether(ws: seq<Window>, i: nat, k: nat, t: int)
    requires NoneOpensInside(ws) && i < |ws| && k < |ws| && Inside(t, ws[i]) && Inside(t, ws[k])
    ensures ws[i].start == ws[k].start
  {
    assert !OpensInside(ws[i], ws[k]) && !OpensInside(ws[k], ws[i]);
  }

  lemma {:induction false} FirstOfStart(ws: seq<Window>, j: nat) returns (g: nat)
    requires j < |ws|
    ensures g <= j && FirstWithStart(ws, g) && ws[g].start == ws[j].start
  {
    g := j;
    if h: nat :| h < j && ws[h].start == ws[j].start {
      g := FirstOfStart(ws, h);
    }
  }

  // ---- The next scheduled poll ----

  /** The window of the last poll is over by `t`, as the connector sees it, or its day is none the watch
      polls on. */
  ghost predicate Done(ws: seq<Window>, weekdaysOnly: bool, last: int, t: int) {
    WindowEnd(ws, last) <= t || !Eligible(DayOf(last), weekdaysOnly)
  }

  lemma ProperAt(ws: seq<Window>, k: nat)
    requires Proper(ws) && k < |ws|
    ensures ws[k].start < ws[k].end <= 86400
  {}

  /** A scheduled poll shares no window with the last one, however late its timer fires. */
  lemma ScheduledIsFresh(ws: seq<Window>, weekdaysOnly: bool, last: int, from: int, next: int, t: int)
    requires Proper(ws) && Clean(ws) && last <= from && Done(ws, weekdaysOnly, last, from)
    requires MayBeNext(ws, weekdaysOnly, from, next) && next <= t
    ensures !SameWindow(ws, last, t)
  {
    hide NoneOpensInside, Outlasts, MayBeNext, At, DayOf, WindowEnd, Eligible, Proper;
    if SameWindow(ws, last, t) {
      NextIsLater(ws, weekdaysOnly, from, next);
      Between(ws, last, next, t);
      var k :| 0 <= k < |ws| && Inside(last, ws[k]) && InsideOf(next, DayOf(last), ws[k]);
      assert ws[k].start < ws[k].end <= 86400 by { ProperAt(ws, k); }
      OneDay(next, DayOf(last), ws[k]);
      ChosenAgain(ws, weekdaysOnly, last, from, next, k);
    }
  }

  /** The time that is chosen next is not before `now`, and on an eligible day. */
  lemma NextIsLater(ws: seq<Window>, weekdaysOnly: bool, now: int, t: int)
    requires Proper(ws) && MayBeNext(ws, weekdaysOnly, now, t)
    ensures t >= now && Eligible(DayOf(t), weekdaysOnly)
  {
    if Eligible(DayOf(now), weekdaysOnly) && exists j :: MayBeToday(ws, now, t, j) {
      var j :| MayBeToday(ws, now, t, j);
      OneDay(t, DayOf(now), ws[j]);
    } else {
      var d :| d > DayOf(now) && Eligible(d, weekdaysOnly) && InsideOf(t, d, ws[0]);
      LaterDay(now, t, d, ws[0]);
      OneDay(t, d, ws[0]);
    }
  }

  /** Of the seven days from a Monday a schedule may choose a poll on every one, or on exactly the first
      five when only weekdays count. */
  lemma DaysPolled(ws: seq<Window>, weekdaysOnly: bool, week: int, k: nat)
    requires Proper(ws) && k < 7
    ensures (exists now, t :: MayBeNext(ws, weekdaysOnly, now, t) && DayOf(t) == 7 * week + k) <==> !weekdaysOnly || k < 5
  {
    var day := 7 * week + k;
    assert Eligible(day, weekdaysOnly) <==> !weekdaysOnly || k < 5;
    if Eligible(day, weekdaysOnly) {
      var t := At(day, ws[0].start);
      assert ws[0].start < ws[0].end <= 86400;
      assert InsideOf(t, day, ws[0]);
      OneDay(t, day, ws[0]);
      assert MayBeToday(ws, t, t, 0);
      assert MayBeNext(ws, weekdaysOnly, t, t);
    }
    forall now, t | MayBeNext(ws, weekdaysOnly, now, t) && DayOf(t) == day ensures Eligible(day, weekdaysOnly) {
      NextIsLater(ws, weekdaysOnly, now, t);
    }
  }

  lemma AtInOrder(day: int, a: int, b: int)
    ensures At(day, a) < At(day, b) <==> a < b
  {}

  /** Of the windows with one start that is before `t`, the first listed ends no later than the first
      that contains `t`. */
  lemma FirstEndsFirst(ws: seq<Window>, t: int, i: int, g: int)
    requires FirstWith(ws, t, i) && FirstWithStart(ws, g) && ws[g].start == ws[i].start
    ensures ws[g].end <= ws[i].end
  {}

  /** A window that is chosen again outlasts the first with its start. */
  lemma ChosenAgain(ws: seq<Window>, weekdaysOnly: bool, last: int, from: int, next: int, k: nat)
    requires Proper(ws) && NoneOpensInside(ws) && last <= from <= next && DayOf(next) == DayOf(last) && WindowEnd(ws, last) <= from
    requires MayBeNext(ws, weekdaysOnly, from, next) && k < |ws| && Inside(last, ws[k]) && Inside(next, ws[k])
    ensures exists j :: Outlasts(ws, j)
  {
    hide NoneOpensInside, At, Inside, WindowEnd, MayBeNext;
    var day := DayOf(last);
    assert DayOf(from) == day;
    var j := ChosenToday(ws, weekdaysOnly, from, next);
    var i := EndOfFirst(ws, last, k);
    StartTogether(ws, i, k, last);
    StartTogether(ws, j, k, next);
    var g := FirstOfStart(ws, j);
    FirstEndsFirst(ws, last, i, g);
    AtInOrder(day, ws[i].end, ws[j].end);
    forall m | 0 <= m < j ensures ws[m].start < ws[j].end {
      AtInOrder(day, ws[m].start, ws[j].end);
    }
    assert Outlasts(ws, j);
  }

  lemma EndOfFirst(ws: seq<Window>, t: int, k: nat) returns (i: nat)
    requires k < |ws| && Inside(t, ws[k])
    ensures FirstWith(ws, t, i) && WindowEnd(ws, t) == At(DayOf(t), ws[i].end)
  {
    i := FirstInside(ws, t, k);
    WindowEndIs(ws, t, i);
  }

  /** A time that is chosen on the day from which it is chosen is one of that day's. */
  lemma ChosenToday(ws: seq<Window>, weekdaysOnly: bool, now: int, t: int) returns (j: nat)
    requires Proper(ws) && MayBeNext(ws, weekdaysOnly, now, t) && DayOf(t) == DayOf(now)
    ensures MayBeToday(ws, now, t, j) && Inside(t, ws[j]) && At(DayOf(now), ws[j].end) > t
  {
    if d: int :| d > DayOf(now) && InsideOf(t, d, ws[0]) {
      OneDay(t, d, ws[0]);
    }
    var k :| MayBeToday(ws, now, t, k);
    j := k;
  }

  // ---- The catch-up poll of a restart ----

  /** An eligible window opened after the last poll. */
  ghost predicate Owed(ws: seq<Window>, weekdaysOnly: bool, last: int, now: int) {
    exists s :: Started(ws, weekdaysOnly, s) && last < s <= now
  }

  /** A process that starts with this stamp of the last poll polls at once. */
  ghost predicate CatchesUp(ws: seq<Window>, weekdaysOnly: bool, stamp: Option<int>, now: int) {
    stamp.None? || Owed(ws, weekdaysOnly, stamp.value * SECOND, now)
  }

  /** The stamp a process starts with is enough to keep it from polling again in a window of the last
      poll: no eligible window opens between the stamp and the end of one. */
  ghost predicate Safe(ws: seq<Window>, weekdaysOnly: bool, stamp: Option<int>, last: int) {
    forall i :: 0 <= i < |ws| && Inside(last, ws[i]) ==> !CatchesUp(ws, weekdaysOnly, stamp, At(DayOf(last), ws[i].end) - 1)
  }

  /** Exactly when the stamp is not, there is a time in such a window at which the process polls again. */
  lemma RestartMayRepeat(ws: seq<Window>, weekdaysOnly: bool, stamp: Option<int>, last: int)
    ensures (exists c :: c >= last && SameWindow(ws, last, c) && CatchesUp(ws, weekdaysOnly, stamp, c)) <==> !Safe(ws, weekdaysOnly, stamp, last)
  {
    if !Safe(ws, weekdaysOnly, stamp, last) {
      var i :| 0 <= i < |ws| && Inside(last, ws[i]) && CatchesUp(ws, weekdaysOnly, stamp, At(DayOf(last), ws[i].end) - 1);
      var c := At(DayOf(last), ws[i].end) - 1;
      assert InsideOf(c, DayOf(last), ws[i]);
      assert c >= last && SameWindow(ws, last, c) && CatchesUp(ws, weekdaysOnly, stamp, c);
    } else {
      forall c | c >= last && SameWindow(ws, last, c) ensures !CatchesUp(ws, weekdaysOnly, stamp, c) {
        var i :| 0 <= i < |ws| && Inside(last, ws[i]) && InsideOf(c, DayOf(last), ws[i]);
        assert !CatchesUp(ws, weekdaysOnly, stamp, At(DayOf(last), ws[i].end) - 1);
      }
    }
  }

  /** The exact stamp of any poll is enough if and only if no window opens inside another. */
  lemma SavedIsSafe(ws: seq<Window>, weekdaysOnly: bool)
    requires Proper(ws)
    ensures (forall last :: Safe(ws, weekdaysOnly, Some(last / SECOND), last)) <==> NoneOpensInside(ws)
  {
    if NoneOpensInside(ws) {
      forall last ensures Safe(ws, weekdaysOnly, Some(last / SECOND), last) {
        forall i | 0 <= i < |ws| && Inside(last, ws[i])
          ensures !CatchesUp(ws, weekdaysOnly, Some(last / SECOND), At(DayOf(last), ws[i].end) - 1)
        {
          NothingOpens(ws, weekdaysOnly, last, i);
        }
      }
    } else {
      var i, k :| 0 <= i < |ws| && 0 <= k < |ws| && OpensInside(ws[i], ws[k]);
      var last := RestartRepeats(ws, weekdaysOnly, i, k);
      RestartMayRepeat(ws, weekdaysOnly, Some(last / SECOND), last);
    }
  }

  /** After a poll's own second no window opens as long as a window of the poll lasts. */
  lemma NothingOpens(ws: seq<Window>, weekdaysOnly: bool, last: int, i: nat)
    requires Proper(ws) && NoneOpensInside(ws) && i < |ws| && Inside(last, ws[i])
    ensures !Owed(ws, weekdaysOnly, last / SECOND * SECOND, At(DayOf(last), ws[i].end) - 1)
  {
    var day := DayOf(last);
    InsideToTheSecond(last, ws[i]);
    SameDay(last);
    forall s | Started(ws, weekdaysOnly, s) && last / SECOND * SECOND < s ensures s >= At(day, ws[i].end) {
      var d, k :| 0 <= k < |ws| && Eligible(d, weekdaysOnly) && s == At(d, ws[k].start);
      assert !OpensInside(ws[i], ws[k]);
      StartOfDay(day, d, ws[i], ws[k]);
    }
  }

  lemma StartOfDay(day: int, d: int, outer: Window, inner: Window)
    requires outer.start < outer.end <= 86400 && inner.start < inner.end <= 86400 && !OpensInside(outer, inner)
    ensures At(d, inner.start) <= At(day, outer.start) || At(d, inner.start) >= At(day, outer.end)
  {}

  lemma OnMonday(second: nat)
    requires second < 86400
    ensures DayOf(At(0, second)) == 0 && At(0, second) / SECOND == second && second * SECOND == At(0, second)
  {}

  /** A window that opens inside another: a poll when the outer one opens is repeated by a restart when
      the inner one does. */
  lemma RestartRepeats(ws: seq<Window>, weekdaysOnly: bool, i: nat, k: nat) returns (poll: int)
    requires Proper(ws) && i < |ws| && k < |ws| && OpensInside(ws[i], ws[k])
    ensures poll == At(0, ws[i].start) <= At(0, ws[k].start) && SameWindow(ws, poll, At(0, ws[k].start))
    ensures CatchesUp(ws, weekdaysOnly, Some(poll / SECOND), At(0, ws[k].start))
  {
    poll := At(0, ws[i].start);
    OnMonday(ws[i].start);
    assert Inside(poll, ws[i]) && InsideOf(At(0, ws[k].start), DayOf(poll), ws[i]);
    assert Eligible(0, weekdaysOnly) && Started(ws, weekdaysOnly, At(0, ws[k].start));
  }

  // ---- Overlapping windows ----

  /** Whether two polls can start in one window although every time was stored exactly: the second is
      the catch-up poll of a restart, or a scheduled one. */
  ghost predicate Repeats(ws: seq<Window>, weekdaysOnly: bool, poll: int, again: int)
    requires |ws| > 0
  {
    && poll <= again && SameWindow(ws, poll, again)
    && (CatchesUp(ws, weekdaysOnly, Some(poll / SECOND), again)
        || exists from :: from >= WindowEnd(ws, poll) && MayBeNext(ws, weekdaysOnly, from, again))
  }

  /** The configuration check lets windows overlap, and then two polls can start in one window. For a list
      of any length that is so if and only if one opens inside another, or one outlasts the first listed
      with its start and no window listed before it opens after it. */
  lemma OverlapPollsTwice(ws: seq<Window>, weekdaysOnly: bool)
    requires Proper(ws)
    ensures (exists poll, again :: Repeats(ws, weekdaysOnly, poll, again)) <==> !Clean(ws)
  {
    hide Repeats, SameWindow, CatchesUp, MayBeNext, NoneOpensInside, Outlasts;
    if Clean(ws) {
      forall poll, again ensures !Repeats(ws, weekdaysOnly, poll, again) {
        CleanNeverRepeats(ws, weekdaysOnly, poll, again);
      }
    } else if !NoneOpensInside(ws) {
      var i, k := SomeOpensInside(ws);
      var poll := RestartRepeats(ws, weekdaysOnly, i, k);
      RepeatsByRestart(ws, weekdaysOnly, poll, At(0, ws[k].start));
    } else {
      var j :| Outlasts(ws, j);
      var poll, again := ScheduleRepeats(ws, weekdaysOnly, j);
      RepeatsBySchedule(ws, weekdaysOnly, poll, again, again);
    }
  }

  lemma SomeOpensInside(ws: seq<Window>) returns (i: nat, k: nat)
    requires !NoneOpensInside(ws)
    ensures i < |ws| && k < |ws| && OpensInside(ws[i], ws[k])
  {
    i, k :| 0 <= i < |ws| && 0 <= k < |ws| && OpensInside(ws[i], ws[k]);
  }

  lemma RepeatsByRestart(ws: seq<Window>, weekdaysOnly: bool, poll: int, again: int)
    requires |ws| > 0 && poll <= again && SameWindow(ws, poll, again) && CatchesUp(ws, weekdaysOnly, Some(poll / SECOND), again)
    ensures Repeats(ws, weekdaysOnly, poll, again)
  {}

  lemma RepeatsBySchedule(ws: seq<Window>, weekdaysOnly: bool, poll: int, from: int, again: int)
    requires |ws| > 0 && poll <= again && SameWindow(ws, poll, again) && from >= WindowEnd(ws, poll) && MayBeNext(ws, weekdaysOnly, from, again)
    ensures Repeats(ws, weekdaysOnly, poll, again)
  {}

  lemma CleanNeverRepeats(ws: seq<Window>, weekdaysOnly: bool, poll: int, again: int)
    requires Proper(ws) && Clean(ws)
    ensures !Repeats(ws, weekdaysOnly, poll, again)
  {
    hide MayBeNext, SameWindow, CatchesUp, NoneOpensInside, Outlasts;
    if Repeats(ws, weekdaysOnly, poll, again) {
      if CatchesUp(ws, weekdaysOnly, Some(poll / SECOND), again) {
        SavedIsSafe(ws, weekdaysOnly);
        RestartMayRepeat(ws, weekdaysOnly, Some(poll / SECOND), poll);
      } else {
        var from :| from >= WindowEnd(ws, poll) && MayBeNext(ws, weekdaysOnly, from, again);
        WindowEndOutside(ws, poll);
        NextIsLater(ws, weekdaysOnly, from, again);
        ScheduledIsFresh(ws, weekdaysOnly, poll, from, again, again);
      }
    }
  }

  /** A window that outlasts the first with its start: a poll when both open is over for the connector when
      the first ends, and at the last second of the other the schedule may choose that. */
  lemma ScheduleRepeats(ws: seq<Window>, weekdaysOnly: bool, j: int) returns (poll: int, again: int)
    requires Proper(ws) && NoneOpensInside(ws) && Outlasts(ws, j)
    ensures poll == At(0, ws[j].start) <= again == At(0, ws[j].end - 1) && SameWindow(ws, poll, again)
    ensures again >= WindowEnd(ws, poll) && MayBeNext(ws, weekdaysOnly, again, again)
  {
    var g :| FirstWithStart(ws, g) && ws[g].start == ws[j].start && ws[g].end < ws[j].end;
    poll, again := At(0, ws[j].start), At(0, ws[j].end - 1);
    OnMonday(ws[j].start);
    OnMonday(ws[j].end - 1);
    assert Inside(poll, ws[g]) && Inside(poll, ws[j]) && InsideOf(again, DayOf(poll), ws[j]);
    forall h | 0 <= h < g ensures !Inside(poll, ws[h]) {
      assert !OpensInside(ws[h], ws[g]);
    }
    WindowEndIs(ws, poll, g);
    forall m | 0 <= m < j ensures At(0, ws[m].start) < again {
      assert !OpensInside(ws[j], ws[m]);
    }
    assert MayBeToday(ws, again, again, j);
  }

  /** Of two windows: they overlap, and when they start together the one listed first ends first. */
  lemma TwoWindows(a: Window, b: Window)
    requires Proper([a, b])
    ensures !Clean([a, b]) <==> a.start < b.end && b.start < a.end && (a.start == b.start ==> a.end < b.end)
  {
    var ws := [a, b];
    assert ws[0] == a && ws[1] == b;
    assert OpensInside(a, b) ==> OpensInside(ws[0], ws[1]);
    assert OpensInside(b, a) ==> OpensInside(ws[1], ws[0]);
    assert FirstWithStart(ws, 0);
    if a.start == b.start && a.end < b.end {
      assert Outlasts(ws, 1);
    }
  }

  class Connector {
    const ws: seq<Window>
    const weekdaysOnly: bool
    const cp: Checkpoint<nat, int>
    var clock: int
    var notBefore: Option<int>
    var caughtUp: bool
    /** The starts of all polls, of this process and earlier ones. */
    var polls: seq<int>

    /** A process has started with a stamp that was not enough. */
    ghost var lost: bool

    ghost predicate Valid()
      reads this, cp
    {
      && Proper(ws) && InOrder(polls, clock) && Known(cp.memory, polls) && Known(cp.stored, polls)
      && (Clean(ws) && !lost ==> OnePerWindow(ws, polls))
      && (Clean(ws) && !lost && polls != [] ==>
            var last := polls[|polls| - 1];
            if caughtUp then Done(ws, weekdaysOnly, last, Later(notBefore, clock)) else Safe(ws, weekdaysOnly, Stamp(cp.memory), last))
    }

    constructor (ws: seq<Window>, weekdaysOnly: bool, cp: Checkpoint<nat, int>, clock: int)
      requires Proper(ws) && LAST !in cp.memory && LAST !in cp.stored
      ensures Valid() && polls == [] && !caughtUp && !lost && this.clock == clock && notBefore.None?
      ensures this.ws == ws && this.weekdaysOnly == weekdaysOnly && this.cp == cp
    {
      this.ws, this.weekdaysOnly, this.cp, this.clock := ws, weekdaysOnly, cp, clock;
      notBefore, caughtUp, polls, lost := None, false, [], false;
    }

    /** Time goes on. */
    method Tick(to: int)
      requires Valid()
      modifies this`clock
      ensures Valid() && clock == if to > old(clock) then to else old(clock)
    {
      hide Clean, OnePerWindow, Safe, SameWindow;
      if to > clock {
        clock := to;
      }
    }

    /** Moves the earliest next poll forward, never back. */
    method DeferUntil(t: int)
      modifies this`notBefore
      ensures notBefore == Some(Later(old(notBefore), t))
      ensures notBefore.value >= t && (old(notBefore).Some? ==> notBefore.value >= old(notBefore).value)
      ensures notBefore == Some(t) || notBefore == old(notBefore)
    {
      if notBefore.None? || t > notBefore.value {
        notBefore := Some(t);
      }
    }

    /** One poll. Its time is recorded before the first request; when it cannot be, the poll goes on all
        the same. */
    method PollNow() returns (saved: bool)
      requires Valid() && caughtUp
      requires Clean(ws) && !lost && polls != [] ==> !SameWindow(ws, polls[|polls| - 1], clock)
      modifies this`polls, this`notBefore, cp
      ensures Valid() && polls == old(polls) + [clock]
      ensures if saved then Stamp(cp.stored) == Some(clock / SECOND) else cp.stored == old(cp.stored)
      ensures Stamp(cp.memory) == Some(clock / SECOND)
      ensures notBefore == Some(Later(old(notBefore), WindowEnd(ws, clock)))
    {
      hide Clean, OnePerWindow, Safe, SameWindow, Proper, WindowEnd;
      if Clean(ws) && !lost {
        PollIsFirst(ws, polls, clock);
      }
      ghost var was := polls;
      saved := cp.Save(LAST, clock / SECOND);
      polls := polls + [clock];
      KnownLater(cp.memory, was, clock);
      KnownLater(cp.stored, was, clock);
      DeferUntil(WindowEnd(ws, clock));
    }

    /** Whether a window has opened since the last poll this connector remembers; the next poll waits for
        the end of that poll's own. */
    method CatchUp() returns (owed: bool)
      requires Valid() && !caughtUp && LAST in cp.memory
      modifies this`notBefore, this`caughtUp
      ensures Valid() && caughtUp && owed == Owed(ws, weekdaysOnly, cp.memory[LAST] * SECOND, clock)
      ensures Clean(ws) && !lost && owed ==> !SameWindow(ws, polls[|polls| - 1], clock)
    {
      hide Clean, OnePerWindow, Done, Started, Proper, SameWindow, Safe, Known;
      var stamp := cp.memory[LAST] * SECOND;
      KnownOne(cp.memory, polls);
      DeferUntil(WindowEnd(ws, stamp));
      if Clean(ws) && !lost {
        SafeIsDone(ws, weekdaysOnly, cp.memory, polls, Later(notBefore, clock));
        RestartMayRepeat(ws, weekdaysOnly, Some(cp.memory[LAST]), polls[|polls| - 1]);
      }
      caughtUp := true;
      var start := LastWindowStart(ws, weekdaysOnly, clock);
      owed := start.Some? && stamp < start.value;
      OwedMeans(ws, weekdaysOnly, stamp, start.value, clock);
    }

    /** The first call in a process polls when a window has opened since the last poll it remembers, or
        when it remembers none; every other call does nothing. */
    method Poll() returns (saved: bool)
      requires Valid()
      modifies this`polls, this`notBefore, this`caughtUp, cp
      ensures Valid() && caughtUp
      ensures polls == if !old(caughtUp) && CatchesUp(ws, weekdaysOnly, Stamp(old(cp.memory)), clock) then old(polls) + [clock] else old(polls)
      ensures polls == old(polls) || !saved ==> cp.stored == old(cp.stored)
      ensures polls != old(polls) && saved ==> Stamp(cp.stored) == Some(clock / SECOND)
      ensures polls != old(polls) && old(Stamp(cp.memory).None?) ==> notBefore == Some(Later(old(notBefore), WindowEnd(ws, clock)))
    {
      hide Clean, OnePerWindow, SameWindow, Proper, WindowEnd, Owed;
      saved := true;
      if caughtUp {
        return;
      }
      if LAST in cp.memory {
        var owed := CatchUp();
        if !owed {
          return;
        }
      } else if Clean(ws) && !lost {
        UnknownIsFirst(ws, weekdaysOnly, polls, clock);
      }
      caughtUp := true;
      saved := PollNow();
    }

    /** One turn of the watch: waits for the next scheduled time and polls. `late` is how much after it
        the timer fires. */
    method WatchOnce(late: nat) returns (saved: bool, ghost next: int, ghost d: int, ghost i: int)
      requires Valid() && caughtUp
      modifies this`clock, this`polls, this`notBefore, cp
      ensures Valid() && caughtUp
      ensures if saved then Stamp(cp.stored) == Some((next + late) / SECOND) else cp.stored == old(cp.stored)
      ensures polls == old(polls) + [next + late] && next >= Later(old(notBefore), old(clock))
      ensures MayBeNext(ws, weekdaysOnly, Later(old(notBefore), old(clock)), next)
      ensures 0 <= i < |ws| && InsideOf(next, d, ws[i]) && Eligible(d, weekdaysOnly)
      ensures Ordered(ws) && NotStrictlyInside(ws, Later(old(notBefore), old(clock))) ==>
                FirstWindowFrom(ws, weekdaysOnly, Later(old(notBefore), old(clock)), next, d, i)
      ensures notBefore.Some? && notBefore.value >= WindowEnd(ws, next) && notBefore.value >= WindowEnd(ws, next + late)
    {
      hide NotStrictlyInside, FirstWindowFrom, MayBeNext, OnePerWindow, Done, Safe, Proper, InsideOf, Eligible, WindowEnd, Clean, SameWindow, Ordered;
      var from := Later(notBefore, clock);
      var t;
      t, d, i := ComputeNextPollTime(ws, weekdaysOnly, from);
      next := t;
      if Clean(ws) && !lost && polls != [] {
        ScheduledIsFresh(ws, weekdaysOnly, polls[|polls| - 1], from, t, t + late);
      }
      Tick(t + late);
      if Clean(ws) && !lost && polls != [] {
        DoneLater(ws, weekdaysOnly, polls[|polls| - 1], from);
      }
      DeferUntil(WindowEnd(ws, t));
      saved := PollNow();
    }

    /** The process ends and a new one starts, knowing what was stored. */
    method Restart()
      requires Valid()
      modifies this`notBefore, this`caughtUp, this`lost, cp`memory
      ensures Valid() && !caughtUp && polls == old(polls) && cp.memory == cp.stored && notBefore.None?
      ensures lost == (old(lost) || (polls != [] && !Safe(ws, weekdaysOnly, Stamp(cp.stored), polls[|polls| - 1])))
    {
      hide Safe, Done, OnePerWindow, Clean;
      cp.Restart();
      notBefore, caughtUp := None, false;
      lost := lost || (polls != [] && !Safe(ws, weekdaysOnly, Stamp(cp.stored), polls[|polls| - 1]));
    }
  }

  function Stamp(m: map<nat, int>): Option<int> {
    if LAST in m then Some(m[LAST]) else None
  }

  /** A stamp is that of some poll. */
  ghost predicate Known(m: map<nat, int>, polls: seq<int>) {
    LAST in m ==> exists k :: 0 <= k < |polls| && m[LAST] == polls[k] / SECOND
  }

  lemma KnownOne(m: map<nat, int>, polls: seq<int>)
    requires Known(m, polls) && LAST in m
    ensures polls != []
  {}

  lemma KnownLater(m: map<nat, int>, polls: seq<int>, t: int)
    ensures Known(m, polls) || Stamp(m) == Some(t / SECOND) ==> Known(m, polls + [t])
  {
    var more := polls + [t];
    assert more[|polls|] == t;
    if k :| 0 <= k < |polls| && LAST in m && m[LAST] == polls[k] / SECOND {
      assert more[k] == polls[k];
    }
  }

  /** A process that remembers no poll, though there were some, polls outside their windows. */
  lemma UnknownIsFirst(ws: seq<Window>, weekdaysOnly: bool, polls: seq<int>, now: int)
    requires InOrder(polls, now) && (polls != [] ==> Safe(ws, weekdaysOnly, None, polls[|polls| - 1]))
    ensures polls != [] ==> !SameWindow(ws, polls[|polls| - 1], now) && Done(ws, weekdaysOnly, polls[|polls| - 1], now)
  {
    if polls != [] {
      WindowEndOutside(ws, polls[|polls| - 1]);
    }
  }

  /** Restoring the end of the stamp's window is restoring that of the last poll's: were the stamp an
      earlier poll's, that one would share a window with the last. */
  lemma SafeIsDone(ws: seq<Window>, weekdaysOnly: bool, m: map<nat, int>, polls: seq<int>, t: int)
    requires Proper(ws) && LAST in m && Known(m, polls) && polls != [] && InOrder(polls, t) && OnePerWindow(ws, polls)
    requires Safe(ws, weekdaysOnly, Some(m[LAST]), polls[|polls| - 1]) && WindowEnd(ws, m[LAST] * SECOND) <= t
    ensures Done(ws, weekdaysOnly, polls[|polls| - 1], t)
  {
    hide InOrder, Proper;
    var last := polls[|polls| - 1];
    var k :| 0 <= k < |polls| && m[LAST] == polls[k] / SECOND;
    LastIsLatest(polls, t, k);
    if k == |polls| - 1 {
      SecondsAreEnough(ws, last);
    } else if Eligible(DayOf(last), weekdaysOnly) && exists i :: 0 <= i < |ws| && Inside(last, ws[i]) {
      var i :| 0 <= i < |ws| && Inside(last, ws[i]);
      StampInside(ws, weekdaysOnly, m[LAST], polls[k], last, i);
      assert false;
    } else {
      WindowEndOutside(ws, last);
    }
  }

  lemma LastIsLatest(polls: seq<int>, t: int, k: nat)
    requires InOrder(polls, t) && k < |polls|
    ensures polls[k] <= polls[|polls| - 1] <= t
  {}

  /** When no window opened since a stamp, the stamp's poll was in the window of a later one. */
  lemma StampInside(ws: seq<Window>, weekdaysOnly: bool, stamp: int, poll: int, last: int, i: nat)
    requires Proper(ws) && i < |ws| && Inside(last, ws[i]) && Eligible(DayOf(last), weekdaysOnly) && poll <= last && stamp == poll / SECOND
    requires !CatchesUp(ws, weekdaysOnly, Some(stamp), At(DayOf(last), ws[i].end) - 1)
    ensures SameWindow(ws, poll, last)
  {
    var start := At(DayOf(last), ws[i].start);
    assert Started(ws, weekdaysOnly, start);
    ProperAt(ws, i);
    OneDay(poll, DayOf(last), ws[i]);
  }

  lemma OwedMeans(ws: seq<Window>, weekdaysOnly: bool, stamp: int, latest: int, now: int)
    requires latest <= now && Started(ws, weekdaysOnly, latest)
    requires forall d, i :: 0 <= i < |ws| && Eligible(d, weekdaysOnly) && At(d, ws[i].start) <= now ==> At(d, ws[i].start) <= latest
    ensures stamp < latest <==> Owed(ws, weekdaysOnly, stamp, now)
  {}

  lemma DoneLater(ws: seq<Window>, weekdaysOnly: bool, last: int, t: int)
    requires Done(ws, weekdaysOnly, last, t)
    ensures forall later :: t <= later ==> Done(ws, weekdaysOnly, last, later)
  {}

  /** What happens to a connector: time passes, the process restarts, or its watch takes a turn (a watch
      that starts anew in the same process just takes the next turn). */
  datatype Event = Pass(d: nat) | RestartProcess | WatchTurn(late: nat)

  /** Whatever happens in whatever order, and whatever of it could be stored: when the windows are clean,
      as long as every process starts with a stamp that is enough no two polls ever start inside one
      window of one day. `starts` are the stamps of the restarts, each with the last poll before it. */
  method Life(c: Connector, events: seq<Event>) returns (starts: seq<(Option<int>, int)>)
    requires c.Valid() && c.polls == [] && !c.caughtUp && !c.lost
    modifies c, c.cp
    ensures Clean(c.ws) && (forall i :: 0 <= i < |starts| ==> Safe(c.ws, c.weekdaysOnly, starts[i].0, starts[i].1)) ==> OnePerWindow(c.ws, c.polls)
    ensures Clean(c.ws) && (forall i :: 0 <= i < |starts| ==> starts[i].0 == Some(starts[i].1 / SECOND)) ==> OnePerWindow(c.ws, c.polls)
  {
    hide Safe, OnePerWindow, Done, Clean;
    starts := [];
    var saved := c.Poll();
    for i := 0 to |events|
      invariant c.Valid() && c.caughtUp && c.polls != []
      invariant c.lost ==> exists k :: 0 <= k < |starts| && !Safe(c.ws, c.weekdaysOnly, starts[k].0, starts[k].1)
    {
      match events[i] {
        case Pass(d) => c.Tick(c.clock + d);
        case WatchTurn(late) =>
          ghost var next, d, j;
          saved, next, d, j := c.WatchOnce(late);
        case RestartProcess =>
          ghost var was, lost := starts, c.lost;
          c.Restart();
          starts := starts + [(Stamp(c.cp.stored), c.polls[|c.polls| - 1])];
          if lost {
            var k :| 0 <= k < |was| && !Safe(c.ws, c.weekdaysOnly, was[k].0, was[k].1);
            assert starts[k] == was[k];
          } else if c.lost {
            assert !Safe(c.ws, c.weekdaysOnly, starts[|was|].0, starts[|was|].1);
          }
          saved := c.Poll();
      }
    }
    Kept(c);
    ghost var ws, weekdaysOnly := c.ws, c.weekdaysOnly;
    if Clean(ws) && forall i :: 0 <= i < |starts| ==> starts[i].0 == Some(starts[i].1 / SECOND) {
      CleanIsSafe(ws, weekdaysOnly);
      assert forall i :: 0 <= i < |starts| ==> Safe(ws, weekdaysOnly, Some(starts[i].1 / SECOND), starts[i].1);
    }
  }

  lemma Kept(c: Connector)
    requires c.Valid()
    ensures Clean(c.ws) && !c.lost ==> OnePerWindow(c.ws, c.polls)
  {}

  lemma CleanIsSafe(ws: seq<Window>, weekdaysOnly: bool)
    requires Proper(ws) && Clean(ws)
    ensures forall last :: Safe(ws, weekdaysOnly, Some(last / SECOND), last)
  {
    SavedIsSafe(ws, weekdaysOnly);
  }

  /** A run in which that fails: the first poll of a new connector is in a window and its time cannot be
      stored; the process restarts in that window and polls again. */
  method UnsavedPollIsRepeated(ws: seq<Window>, weekdaysOnly: bool, cp: Checkpoint<nat, int>, clock: int, i: nat)
    returns (c: Connector, saved: bool)
    requires Proper(ws) && LAST !in cp.memory && LAST !in cp.stored && i < |ws| && Inside(clock, ws[i])
    modifies cp
    ensures !saved ==> |c.polls| == 2 && SameWindow(ws, c.polls[0], c.polls[1]) && !OnePerWindow(ws, c.polls)
  {
    c := new Connector(ws, weekdaysOnly, cp, clock);
    saved := c.Poll();
    if !saved {
      c.Restart();
      var again := c.Poll();
      assert c.polls == [clock, clock] && SameWindow(ws, clock, clock);
    }
  }

  /** A run in which a window opens inside another: the first poll is when the outer one opens; the process
      restarts and, when the inner one has opened, polls again. That its time was stored changes
      nothing. */
  method InnerWindowIsRepeated(ws: seq<Window>, weekdaysOnly: bool, cp: Checkpoint<nat, int>, i: nat, k: nat) returns (c: Connector)
    requires Proper(ws) && LAST !in cp.memory && LAST !in cp.stored && i < |ws| && k < |ws| && OpensInside(ws[i], ws[k])
    modifies cp
    ensures |c.polls| == 2 && SameWindow(ws, c.polls[0], c.polls[1]) && !OnePerWindow(ws, c.polls)
  {
    hide SameWindow, Clean, Owed, Safe, Done;
    var first, second := At(0, ws[i].start), At(0, ws[k].start);
    ghost var poll := RestartRepeats(ws, weekdaysOnly, i, k);
    c := new Connector(ws, weekdaysOnly, cp, first);
    var saved := c.Poll();
    c.Restart();
    c.Tick(second);
    saved := c.Poll();
    assert c.polls == [first, second];
  }

  /** A run in which a window outlasts the first with its start: the first poll is when both open; at the
      last second of the longer one the watch may choose it. */
  method LongerWindowIsRepeated(ws: seq<Window>, weekdaysOnly: bool, cp: Checkpoint<nat, int>, j: nat) returns (c: Connector, ghost next: int)
    requires Proper(ws) && NoneOpensInside(ws) && LAST !in cp.memory && LAST !in cp.stored && Outlasts(ws, j)
    modifies cp
    ensures var again := At(0, ws[j].end - 1);
      && MayBeNext(ws, weekdaysOnly, again, again) && MayBeNext(ws, weekdaysOnly, again, next)
      && (next == again ==> |c.polls| == 2 && SameWindow(ws, c.polls[0], c.polls[1]) && !OnePerWindow(ws, c.polls))
  {
    hide SameWindow, Clean, Owed, Safe, Done, MayBeNext, NoneOpensInside, WindowEnd;
    ghost var poll, last := ScheduleRepeats(ws, weekdaysOnly, j);
    var first, again := At(0, ws[j].start), At(0, ws[j].end - 1);
    c := new Connector(ws, weekdaysOnly, cp, first);
    var saved := c.Poll();
    c.Tick(again);
    ghost var d, i;
    saved, next, d, i := c.WatchOnce(0);
    assert c.polls == [first, next + 0];
  }
}
