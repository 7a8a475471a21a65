/** The attendance days of a page that are settled, and those that are carried from poll to poll until
    they are. */
module AttendanceCarry {
  import opened Numbers
  import opened Options
  import opened DayTallies

  const SETTLE_SCHOOL_DAYS: nat := 3
  const CARRY_MAX_DAYS: nat := 120

  /** A coded day that could not be settled: its date (None when it does not parse), its tally and how
      many school days after it were counted, through which date. */
  datatype Pending = Pending(date: Option<int>, tally: Tally, followed: nat, through: int)

  datatype Record = Record(date: int, tally: Tally)

  /** The days of one school year: with `range`, all coded days of that range; without, single days to
      add or update. */
  datatype Snapshot = Snapshot(year: int, range: Option<(int, int)>, days: seq<Record>)

  type Tallies = map<int, Tally>

  // ---- Settling ----

  /** The page's school days: dates up to today with a period met. */
  ghost function SchoolDays(ts: Tallies, today: int): set<int> {
    set d | d in ts && d <= today && ts[d].met > 0
  }

  ghost function DaysAfter(days: set<int>, d: int): set<int> {
    set x | x in days && x > d
  }

  predicate IsSettled(date: int, unmarked: nat, followed: nat, today: int, settle: nat) {
    date < today && (unmarked == 0 || followed >= settle)
  }

  ghost predicate Settled(ts: Tallies, today: int, settle: nat, d: int)
    requires d in ts
  {
    IsSettled(d, ts[d].unmarked, |DaysAfter(SchoolDays(ts, today), d)|, today, settle)
  }

  ghost predicate SortedDates(s: seq<int>) {
    forall i, j :: 0 <= i < j < |s| ==> s[i] < s[j]
  }

  lemma HasOne(dates: set<int>)
    requires dates != {}
    ensures exists d :: d in dates
  {
    if forall d :: d !in dates {
      assert false;
    }
  }

  method Least(dates: set<int>) returns (least: int)
    requires dates != {}
    ensures least in dates && forall d :: d in dates ==> least <= d
  {
    HasOne(dates);
    least :| least in dates;
    var rest := dates - {least};
    while rest != {}
      invariant rest <= dates && least in dates
      invariant forall d :: d in dates && d !in rest ==> least <= d
      decreases |rest|
    {
      HasOne(rest);
      var d :| d in rest;
      least := if d < least then d else least;
      rest := rest - {d};
    }
  }

  lemma NothingToSort()
    ensures SortedDates([])
  {}

  lemma SortedSnoc(s: seq<int>, left: set<int>, least: int)
    requires SortedDates(s) && least in left && (forall d :: d in left ==> least <= d)
    requires forall d, e :: d in s && e in left ==> d < e
    ensures SortedDates(s + [least]) && (set d | d in s + [least]) == (set d | d in s) + {least}
    ensures forall d, e :: d in s + [least] && e in left - {least} ==> d < e
  {
    assert forall i :: 0 <= i < |s| ==> s[i] in s;
  }

  lemma Members(s: seq<int>, dates: set<int>)
    requires (set d | d in s) == dates
    ensures forall i :: 0 <= i < |s| ==> s[i] in dates
  {}

  /** A set of dates in order. */
  method Sort(dates: set<int>) returns (s: seq<int>)
    ensures SortedDates(s) && (set d | d in s) == dates
    ensures forall i :: 0 <= i < |s| ==> s[i] in dates
  {
    hide SortedDates;
    NothingToSort();
    var left := dates;
    s := [];
    while left != {}
      invariant left <= dates && SortedDates(s) && (set d | d in s) == dates - left
      invariant forall d, e :: d in s && e in left ==> d < e
      decreases |left|
    {
      var least := Least(left);
      SortedSnoc(s, left, least);
      s := s + [least];
      left := left - {least};
    }
    Members(s, dates);
  }

  lemma {:induction false} SortedIsAsLargeAsItsSet(s: seq<int>)
    requires SortedDates(s)
    ensures |set d | d in s| == |s|
  {
    if s != [] {
      var init, last := s[..|s| - 1], s[|s| - 1];
      SortedIsAsLargeAsItsSet(init);
      assert (set d | d in s) == (set d | d in init) + {last};
      assert last !in (set d | d in init);
    } else {
      assert (set d | d in s) == {};
    }
  }

  /** How many of the sorted days come after a date. */
  method CountAfter(days: seq<int>, d: int) returns (n: nat)
    requires SortedDates(days)
    ensures n == |DaysAfter((set x | x in days), d)|
  {
    var lo, hi := 0, |days|;
    while lo < hi
      invariant 0 <= lo <= hi <= |days|
      invariant forall i :: 0 <= i < lo ==> days[i] <= d
      invariant forall i :: hi <= i < |days| ==> days[i] > d
    {
      var mid := (lo + hi) / 2;
      if days[mid] > d {
        hi := mid;
      } else {
        lo := mid + 1;
      }
    }
    SortedIsAsLargeAsItsSet(days[lo..]);
    assert DaysAfter((set x | x in days), d) == (set x | x in days[lo..]);
    n := |days| - lo;
  }

  // ---- Today's page ----

  /** How many dates of a year are settled in an unbroken run from its first. */
  ghost predicate RunOf(ts: Tallies, today: int, settle: nat, dates: seq<int>, n: nat) {
    && n <= |dates| && (forall i :: 0 <= i < |dates| ==> dates[i] in ts)
    && (forall i :: 0 <= i < n ==> Settled(ts, today, settle, dates[i]))
    && (n < |dates| ==> !Settled(ts, today, settle, dates[n]))
  }

  /** How many dates from the first on are settled. */
  method SettledRun(ts: Tallies, today: int, settle: nat, dates: seq<int>, schoolDays: seq<int>) returns (n: nat)
    requires forall i :: 0 <= i < |dates| ==> dates[i] in ts
    requires SortedDates(schoolDays) && (set d | d in schoolDays) == SchoolDays(ts, today)
    ensures RunOf(ts, today, settle, dates, n)
  {
    n := 0;
    while n < |dates|
      invariant 0 <= n <= |dates| && forall i :: 0 <= i < n ==> Settled(ts, today, settle, dates[i])
    {
      var followed := CountAfter(schoolDays, dates[n]);
      if !IsSettled(dates[n], ts[dates[n]].unmarked, followed, today, settle) {
        return;
      }
      n := n + 1;
    }
  }

  /** One school year of the page: the coded days of its settled run, and its other coded days up to
      today, which are carried. */
  method BuildYear(ts: Tallies, today: int, settle: nat, year: int, dates: seq<int>, schoolDays: seq<int>)
    returns (snapshot: Option<Snapshot>, pending: seq<Pending>, ghost n: nat)
    requires SortedDates(dates) && forall i :: 0 <= i < |dates| ==> dates[i] in ts
    requires SortedDates(schoolDays) && (set d | d in schoolDays) == SchoolDays(ts, today)
    ensures RunOf(ts, today, settle, dates, n)
    ensures snapshot.Some? <==> n > 0
    ensures snapshot.Some? ==> snapshot.value == Snapshot(year, Some((dates[0], dates[n - 1])), CodedDays(ts, dates[..n]))
    ensures pending == CarriedDays(ts, today, dates[n..])
  {
    hide Settled, SchoolDays, SortedDates;
    var run := SettledRun(ts, today, settle, dates, schoolDays);
    n := run;
    var recs: seq<Record> := [];
    pending := [];
    for i := 0 to run
      invariant recs == CodedDays(ts, dates[..i])
    {
      var d := dates[i];
      assert dates[..i + 1][..i] == dates[..i];
      if ts[d].coded {
        recs := recs + [Record(d, ts[d])];
      }
    }
    for i := run to |dates|
      invariant pending == CarriedDays(ts, today, dates[run..i])
    {
      var d := dates[i];
      assert dates[run..i + 1][..i - run] == dates[run..i];
      if ts[d].coded && d <= today {
        var followed := CountAfter(schoolDays, d);
        pending := pending + [Pending(Some(d), ts[d], followed, today)];
      }
    }
    assert dates[run..|dates|] == dates[run..];
    snapshot := if run == 0 then None else Some(Snapshot(year, Some((dates[0], dates[run - 1])), recs));
  }

  /** The coded days among some dates. */
  function CodedDays(ts: Tallies, dates: seq<int>): seq<Record>
    requires forall i :: 0 <= i < |dates| ==> dates[i] in ts
  {
    if dates == [] then []
    else
      var init, d := CodedDays(ts, dates[..|dates| - 1]), dates[|dates| - 1];
      if ts[d].coded then init + [Record(d, ts[d])] else init
  }

  ghost function CarriedDays(ts: Tallies, today: int, dates: seq<int>): seq<Pending>
    requires forall i :: 0 <= i < |dates| ==> dates[i] in ts
  {
    if dates == [] then []
    else
      var init, d := CarriedDays(ts, today, dates[..|dates| - 1]), dates[|dates| - 1];
      if ts[d].coded && d <= today then init + [Pending(Some(d), ts[d], |DaysAfter(SchoolDays(ts, today), d)|, today)] else init
  }

  lemma {:induction false} CodedDaysHas(ts: Tallies, dates: seq<int>, r: Record)
    requires forall i :: 0 <= i < |dates| ==> dates[i] in ts
    ensures r in CodedDays(ts, dates) <==> r.date in dates && r == Record(r.date, ts[r.date]) && ts[r.date].coded
  {
    if dates != [] {
      CodedDaysHas(ts, dates[..|dates| - 1], r);
      assert r.date in dates <==> r.date in dates[..|dates| - 1] || r.date == dates[|dates| - 1];
    }
  }

  lemma {:induction false} CarriedDaysHas(ts: Tallies, today: int, dates: seq<int>, p: Pending)
    requires forall i :: 0 <= i < |dates| ==> dates[i] in ts
    ensures p in CarriedDays(ts, today, dates) <==>
      p.date.Some? && p.date.value in dates && p.date.value <= today && ts[p.date.value].coded
      && p == Pending(p.date, ts[p.date.value], |DaysAfter(SchoolDays(ts, today), p.date.value)|, today)
  {
    if dates != [] {
      CarriedDaysHas(ts, today, dates[..|dates| - 1], p);
      if p.date.Some? {
        assert p.date.value in dates <==> p.date.value in dates[..|dates| - 1] || p.date.value == dates[|dates| - 1];
      }
    }
  }

  /** A school year of the page: its dates in order and how many of them are settled from the first. */
  datatype Part = Part(year: int, dates: seq<int>, run: nat)

  /** The page's years: every date in the part of its year. */
  ghost predicate Parts(ts: Tallies, today: int, settle: nat, schoolYear: int -> int, parts: seq<Part>) {
    && (forall i :: 0 <= i < |parts| ==> PartOk(ts, today, settle, schoolYear, parts[i]))
    && (forall i, j :: 0 <= i < j < |parts| ==> parts[i].year < parts[j].year)
  }

  ghost predicate PartOk(ts: Tallies, today: int, settle: nat, schoolYear: int -> int, p: Part) {
    && SortedDates(p.dates) && (forall d :: d in p.dates <==> d in ts && schoolYear(d) == p.year)
    && RunOf(ts, today, settle, p.dates, p.run)
  }

  ghost predicate AllYears(ts: Tallies, schoolYear: int -> int, parts: seq<Part>) {
    forall d :: d in ts ==> exists i :: 0 <= i < |parts| && parts[i].year == schoolYear(d)
  }

  ghost predicate Bounded(ts: Tallies, parts: seq<Part>) {
    forall i :: 0 <= i < |parts| ==> parts[i].run <= |parts[i].dates| && forall j :: 0 <= j < |parts[i].dates| ==> parts[i].dates[j] in ts
  }

  /** The snapshots of the years, complete over the settled run of each. */
  ghost function CompleteOf(ts: Tallies, parts: seq<Part>): seq<Snapshot>
    requires Bounded(ts, parts)
  {
    if parts == [] then []
    else
      var p := parts[|parts| - 1];
      CompleteOf(ts, parts[..|parts| - 1])
      + (if p.run == 0 then [] else [Snapshot(p.year, Some((p.dates[0], p.dates[p.run - 1])), CodedDays(ts, p.dates[..p.run]))])
  }

  ghost function PendingOf(ts: Tallies, today: int, parts: seq<Part>): seq<Pending>
    requires Bounded(ts, parts)
  {
    if parts == [] then []
    else
      var p := parts[|parts| - 1];
      PendingOf(ts, today, parts[..|parts| - 1]) + CarriedDays(ts, today, p.dates[p.run..])
  }

  lemma YearsGrow(years: seq<int>)
    requires SortedDates(years)
    ensures forall i, j :: 0 <= i < j < |years| ==> years[i] < years[j]
  {}

  lemma NoParts(ts: Tallies, today: int, settle: nat, schoolYear: int -> int)
    ensures Parts(ts, today, settle, schoolYear, []) && Bounded(ts, [])
  {}

  lemma PartsGrow(ts: Tallies, today: int, settle: nat, schoolYear: int -> int, parts: seq<Part>, p: Part)
    requires Parts(ts, today, settle, schoolYear, parts) && SortedDates(p.dates) && RunOf(ts, today, settle, p.dates, p.run)
    requires (set d | d in p.dates) == set d | d in ts && schoolYear(d) == p.year
    requires forall i :: 0 <= i < |parts| ==> parts[i].year < p.year
    ensures Parts(ts, today, settle, schoolYear, parts + [p])
  {
    hide RunOf;
    var a, b := set d | d in p.dates, set d | d in ts && schoolYear(d) == p.year;
    assert a == b;
    forall d ensures d in p.dates <==> d in ts && schoolYear(d) == p.year {
      assert d in a <==> d in b;
    }
  }

  /** The page: complete snapshots year by year, and the days to carry. */
  method BuildGrid(ts: Tallies, today: int, settle: nat, schoolYear: int -> int, schoolDays: seq<int>)
    returns (snapshots: seq<Snapshot>, pending: seq<Pending>, ghost parts: seq<Part>)
    requires SortedDates(schoolDays) && (set d | d in schoolDays) == SchoolDays(ts, today)
    ensures Parts(ts, today, settle, schoolYear, parts) && AllYears(ts, schoolYear, parts)
    ensures snapshots == CompleteOf(ts, parts) && pending == PendingOf(ts, today, parts)
  {
    hide SchoolDays, Settled, CodedDays, CarriedDays, RunOf, Parts, Bounded, SortedDates, AllYears;
    NoParts(ts, today, settle, schoolYear);
    var years := Sort(set d | d in ts :: schoolYear(d));
    YearsGrow(years);
    snapshots, pending, parts := [], [], [];
    for i := 0 to |years|
      invariant Parts(ts, today, settle, schoolYear, parts) && Bounded(ts, parts)
      invariant |parts| == i && forall k :: 0 <= k < i ==> parts[k].year == years[k]
      invariant snapshots == CompleteOf(ts, parts) && pending == PendingOf(ts, today, parts)
    {
      var dates := Sort(set d | d in ts && schoolYear(d) == years[i]);
      var s, more;
      ghost var n;
      assert forall d :: d in dates <==> d in (set d | d in dates);
      s, more, n := BuildYear(ts, today, settle, years[i], dates, schoolDays);
      ghost var was := parts;
      PartsGrow(ts, today, settle, schoolYear, parts, Part(years[i], dates, n));
      PartsBounds(ts, today, settle, schoolYear, parts + [Part(years[i], dates, n)]);
      parts := parts + [Part(years[i], dates, n)];
      assert parts[..|parts| - 1] == was;
      if s.Some? {
        snapshots := snapshots + [s.value];
      }
      pending := pending + more;
    }
    EveryYear(ts, schoolYear, years, parts);
  }

  lemma EveryYear(ts: Tallies, schoolYear: int -> int, years: seq<int>, parts: seq<Part>)
    requires |parts| == |years| && forall k :: 0 <= k < |years| ==> parts[k].year == years[k]
    requires (set y | y in years) == set d | d in ts :: schoolYear(d)
    ensures AllYears(ts, schoolYear, parts)
  {
    var ys := set d | d in ts :: schoolYear(d);
    var zs := set y | y in years;
    assert ys == zs;
    forall d | d in ts ensures exists i :: 0 <= i < |parts| && parts[i].year == schoolYear(d) {
      assert schoolYear(d) in ys;
      assert schoolYear(d) in zs;
      var i :| 0 <= i < |years| && years[i] == schoolYear(d);
      assert parts[i].year == schoolYear(d);
    }
  }

  lemma {:induction false} CompleteHas(ts: Tallies, today: int, settle: nat, schoolYear: int -> int, parts: seq<Part>, i: nat, r: Record)
    requires Parts(ts, today, settle, schoolYear, parts) && i < |parts|
    ensures r in CodedDays(ts, parts[i].dates[..parts[i].run]) ==> exists s :: s in CompleteOf(ts, parts) && r in s.days
  {
    hide CodedDays, Settled, SortedDates, CompleteOf;
    var init := parts[..|parts| - 1];
    if r in CodedDays(ts, parts[i].dates[..parts[i].run]) {
      CompleteLast(ts, parts);
      if i < |init| {
        CompleteHas(ts, today, settle, schoolYear, init, i, r);
        var s :| s in CompleteOf(ts, init) && r in s.days;
        assert s in CompleteOf(ts, parts);
      } else {
        NothingCoded(ts, parts[i].dates[..parts[i].run]);
      }
    }
  }

  lemma CompleteLast(ts: Tallies, parts: seq<Part>)
    requires parts != [] && Bounded(ts, parts)
    ensures forall s :: s in CompleteOf(ts, parts[..|parts| - 1]) ==> s in CompleteOf(ts, parts)
    ensures var p := parts[|parts| - 1];
      p.run > 0 ==> Snapshot(p.year, Some((p.dates[0], p.dates[p.run - 1])), CodedDays(ts, p.dates[..p.run])) in CompleteOf(ts, parts)
  {
    hide CodedDays;
  }

  lemma NothingCoded(ts: Tallies, dates: seq<int>)
    requires forall i :: 0 <= i < |dates| ==> dates[i] in ts
    ensures dates == [] ==> CodedDays(ts, dates) == []
  {}

  lemma {:induction false} CompleteFrom(ts: Tallies, today: int, settle: nat, schoolYear: int -> int, parts: seq<Part>, s: Snapshot) returns (i: nat)
    requires Parts(ts, today, settle, schoolYear, parts) && s in CompleteOf(ts, parts)
    ensures i < |parts| && parts[i].run > 0 && s.year == parts[i].year && s.days == CodedDays(ts, parts[i].dates[..parts[i].run])
    ensures s.range == Some((parts[i].dates[0], parts[i].dates[parts[i].run - 1]))
  {
    hide CodedDays;
    var init := parts[..|parts| - 1];
    if s in CompleteOf(ts, init) {
      i := CompleteFrom(ts, today, settle, schoolYear, init, s);
    } else {
      i := |parts| - 1;
    }
  }

  lemma {:induction false} PendingHas(ts: Tallies, today: int, settle: nat, schoolYear: int -> int, parts: seq<Part>, i: nat, p: Pending)
    requires Parts(ts, today, settle, schoolYear, parts) && i < |parts|
    requires p in CarriedDays(ts, today, parts[i].dates[parts[i].run..])
    ensures p in PendingOf(ts, today, parts)
  {
    hide CarriedDays;
    if i < |parts| - 1 {
      PendingHas(ts, today, settle, schoolYear, parts[..|parts| - 1], i, p);
    }
  }

  lemma {:induction false} PendingFrom(ts: Tallies, today: int, settle: nat, schoolYear: int -> int, parts: seq<Part>, p: Pending) returns (i: nat)
    requires Parts(ts, today, settle, schoolYear, parts) && p in PendingOf(ts, today, parts)
    ensures i < |parts| && p in CarriedDays(ts, today, parts[i].dates[parts[i].run..])
  {
    hide CarriedDays;
    var init := parts[..|parts| - 1];
    if p in PendingOf(ts, today, init) {
      i := PendingFrom(ts, today, settle, schoolYear, init, p);
    } else {
      i := |parts| - 1;
    }
  }

  ghost predicate InSnapshots(snapshots: seq<Snapshot>, date: int) {
    exists s, r :: s in snapshots && r in s.days && r.date == date
  }

  ghost predicate InPending(pending: seq<Pending>, date: int) {
    exists p :: p in pending && p.date == Some(date)
  }

  lemma SamePart(ts: Tallies, today: int, settle: nat, schoolYear: int -> int, parts: seq<Part>, i: nat, j: nat, d: int)
    requires Parts(ts, today, settle, schoolYear, parts) && i < |parts| && j < |parts| && d in parts[i].dates && d in parts[j].dates
    ensures i == j
  {}

  lemma NotInBoth(dates: seq<int>, n: nat, d: int)
    requires SortedDates(dates) && n <= |dates|
    ensures d in dates <==> d in dates[..n] || d in dates[n..]
    ensures !(d in dates[..n] && d in dates[n..])
  {}

  lemma SettledGoesOut(ts: Tallies, today: int, settle: nat, schoolYear: int -> int, parts: seq<Part>, i: nat, d: int)
    requires Parts(ts, today, settle, schoolYear, parts) && i < |parts|
    requires parts[i].run <= |parts[i].dates| && d in parts[i].dates[..parts[i].run] && d in ts && ts[d].coded
    ensures InSnapshots(CompleteOf(ts, parts), d) && !InPending(PendingOf(ts, today, parts), d)
  {
    hide RunOf, CodedDays, CarriedDays, CompleteOf, PendingOf;
    PartsBounds(ts, today, settle, schoolYear, parts);
    PartBounds(ts, today, settle, schoolYear, parts[i]);
    CodedDaysHas(ts, parts[i].dates[..parts[i].run], Record(d, ts[d]));
    CompleteHas(ts, today, settle, schoolYear, parts, i, Record(d, ts[d]));
    if InPending(PendingOf(ts, today, parts), d) {
      var p :| p in PendingOf(ts, today, parts) && p.date == Some(d);
      var j := PendingFrom(ts, today, settle, schoolYear, parts, p);
      PartBounds(ts, today, settle, schoolYear, parts[j]);
      CarriedDaysHas(ts, today, parts[j].dates[parts[j].run..], p);
      NotInBoth(parts[j].dates, parts[j].run, d);
      SamePart(ts, today, settle, schoolYear, parts, i, j, d);
      assert false;
    }
  }

  lemma UnsettledIsCarried(ts: Tallies, today: int, settle: nat, schoolYear: int -> int, parts: seq<Part>, i: nat, d: int)
    requires Parts(ts, today, settle, schoolYear, parts) && i < |parts|
    requires parts[i].run <= |parts[i].dates| && d in parts[i].dates[parts[i].run..] && d in ts && ts[d].coded && d <= today
    ensures !InSnapshots(CompleteOf(ts, parts), d) && InPending(PendingOf(ts, today, parts), d)
  {
    hide RunOf, CodedDays, CarriedDays, CompleteOf, PendingOf;
    PartsBounds(ts, today, settle, schoolYear, parts);
    PartBounds(ts, today, settle, schoolYear, parts[i]);
    var p := Pending(Some(d), ts[d], |DaysAfter(SchoolDays(ts, today), d)|, today);
    CarriedDaysHas(ts, today, parts[i].dates[parts[i].run..], p);
    PendingHas(ts, today, settle, schoolYear, parts, i, p);
    if InSnapshots(CompleteOf(ts, parts), d) {
      var s, r :| s in CompleteOf(ts, parts) && r in s.days && r.date == d;
      var j := CompleteFrom(ts, today, settle, schoolYear, parts, s);
      PartBounds(ts, today, settle, schoolYear, parts[j]);
      CodedDaysHas(ts, parts[j].dates[..parts[j].run], r);
      NotInBoth(parts[j].dates, parts[j].run, d);
      SamePart(ts, today, settle, schoolYear, parts, i, j, d);
      assert false;
    }
  }

  /** Every coded day of the page up to today is either in the complete snapshot of its year or carried,
      never both. */
  lemma GridDayGoesOneWay(ts: Tallies, today: int, settle: nat, schoolYear: int -> int, parts: seq<Part>, d: int)
    requires Parts(ts, today, settle, schoolYear, parts) && AllYears(ts, schoolYear, parts)
    requires d in ts && ts[d].coded && d <= today
    ensures InSnapshots(CompleteOf(ts, parts), d) <==> !InPending(PendingOf(ts, today, parts), d)
  {
    hide RunOf, CodedDays, CarriedDays, CompleteOf, PendingOf, InSnapshots, InPending;
    PartsBounds(ts, today, settle, schoolYear, parts);
    var i :| 0 <= i < |parts| && parts[i].year == schoolYear(d);
    PartBounds(ts, today, settle, schoolYear, parts[i]);
    NotInBoth(parts[i].dates, parts[i].run, d);
    if d in parts[i].dates[..parts[i].run] {
      SettledGoesOut(ts, today, settle, schoolYear, parts, i, d);
    } else {
      UnsettledIsCarried(ts, today, settle, schoolYear, parts, i, d);
    }
  }

  lemma PartsBounds(ts: Tallies, today: int, settle: nat, schoolYear: int -> int, parts: seq<Part>)
    requires Parts(ts, today, settle, schoolYear, parts)
    ensures Bounded(ts, parts)
  {}

  lemma PartBounds(ts: Tallies, today: int, settle: nat, schoolYear: int -> int, p: Part)
    requires PartOk(ts, today, settle, schoolYear, p)
    ensures SortedDates(p.dates) && p.run <= |p.dates| && forall i :: 0 <= i < |p.dates| ==> p.dates[i] in ts
  {}

  /** A day is sent as complete only when it is over and settled. */
  lemma SentIsSettled(ts: Tallies, today: int, settle: nat, schoolYear: int -> int, parts: seq<Part>, s: Snapshot, r: Record)
    requires Parts(ts, today, settle, schoolYear, parts) && s in CompleteOf(ts, parts) && r in s.days
    ensures r.date in ts && r.tally == ts[r.date] && ts[r.date].coded && Settled(ts, today, settle, r.date)
  {
    hide Settled;
    var i := CompleteFrom(ts, today, settle, schoolYear, parts, s);
    assert PartOk(ts, today, settle, schoolYear, parts[i]);
    CodedDaysHas(ts, parts[i].dates[..parts[i].run], r);
  }
}
