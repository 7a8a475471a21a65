/** The carried days from poll to poll, whatever pages the polls are shown. */
module CarryPolls {
  import opened Numbers
  import opened Options
  import opened DayTallies
  import opened AttendanceCarry

  // ---- The days carried from earlier polls ----

  /** What becomes of a carried day: the page shows it, it does not parse, it has been carried too long,
      it is settled now, or it is carried on. */
  datatype Fate = OnPage | Unparsable | Expired | Sent | Kept

  /** The school days counted after a carried day, today's included. */
  ghost function FollowedNow(ts: Tallies, today: int, p: Pending): nat
    requires p.date.Some?
  {
    p.followed + |DaysAfter(SchoolDays(ts, today), Max(p.date.value, p.through))|
  }

  ghost function FateOf(ts: Tallies, today: int, settle: nat, maxDays: nat, p: Pending): Fate {
    if p.date.None? then Unparsable
    else if p.date.value in ts then OnPage
    else if p.date.value + maxDays < today then Expired
    else if IsSettled(p.date.value, p.tally.unmarked, FollowedNow(ts, today, p), today, settle) then Sent
    else Kept
  }

  ghost function Updated(ts: Tallies, today: int, p: Pending): Pending {
    if p.date.None? then p else p.(followed := FollowedNow(ts, today, p), through := Max(p.through, today))
  }

  ghost function SentOf(ts: Tallies, today: int, settle: nat, maxDays: nat, carried: seq<Pending>): seq<Record> {
    if carried == [] then []
    else
      var init, p := SentOf(ts, today, settle, maxDays, carried[..|carried| - 1]), carried[|carried| - 1];
      if FateOf(ts, today, settle, maxDays, p).Sent? then init + [Record(p.date.value, p.tally)] else init
  }

  ghost function KeptOf(ts: Tallies, today: int, settle: nat, maxDays: nat, carried: seq<Pending>): seq<Pending> {
    if carried == [] then []
    else
      var init, p := KeptOf(ts, today, settle, maxDays, carried[..|carried| - 1]), carried[|carried| - 1];
      if FateOf(ts, today, settle, maxDays, p).Kept? then init + [Updated(ts, today, p)] else init
  }

  ghost function ExpiredOf(ts: Tallies, today: int, settle: nat, maxDays: nat, carried: seq<Pending>): nat {
    if carried == [] then 0
    else
      ExpiredOf(ts, today, settle, maxDays, carried[..|carried| - 1])
      + (if FateOf(ts, today, settle, maxDays, carried[|carried| - 1]).Expired? then 1 else 0)
  }

  method CarryOn(ts: Tallies, today: int, settle: nat, maxDays: nat, schoolDays: seq<int>, carried: seq<Pending>)
    returns (sent: seq<Record>, kept: seq<Pending>, expired: nat)
    requires SortedDates(schoolDays) && (set d | d in schoolDays) == SchoolDays(ts, today)
    ensures sent == SentOf(ts, today, settle, maxDays, carried) && kept == KeptOf(ts, today, settle, maxDays, carried)
    ensures expired == ExpiredOf(ts, today, settle, maxDays, carried)
  {
    hide SchoolDays, SortedDates, DaysAfter;
    sent, kept, expired := [], [], 0;
    for i := 0 to |carried|
      invariant sent == SentOf(ts, today, settle, maxDays, carried[..i]) && kept == KeptOf(ts, today, settle, maxDays, carried[..i])
      invariant expired == ExpiredOf(ts, today, settle, maxDays, carried[..i])
    {
      var c := carried[i];
      assert carried[..i + 1][..i] == carried[..i];
      if c.date.None? || c.date.value in ts {
        continue;
      }
      if c.date.value + maxDays < today {
        expired := expired + 1;
        continue;
      }
      var more := CountAfter(schoolDays, Max(c.date.value, c.through));
      var followed := c.followed + more;
      if IsSettled(c.date.value, c.tally.unmarked, followed, today, settle) {
        sent := sent + [Record(c.date.value, c.tally)];
        continue;
      }
      kept := kept + [c.(followed := followed, through := Max(c.through, today))];
    }
    assert carried[..|carried|] == carried;
  }

  lemma {:induction false} SentHas(ts: Tallies, today: int, settle: nat, maxDays: nat, carried: seq<Pending>, r: Record)
    ensures r in SentOf(ts, today, settle, maxDays, carried) <==>
      exists p :: p in carried && FateOf(ts, today, settle, maxDays, p).Sent? && r == Record(p.date.value, p.tally)
  {
    hide FateOf;
    if carried != [] {
      var init, last := carried[..|carried| - 1], carried[|carried| - 1];
      SentHas(ts, today, settle, maxDays, init, r);
      assert forall p :: p in carried <==> p in init || p == last;
    }
  }

  lemma {:induction false} KeptHas(ts: Tallies, today: int, settle: nat, maxDays: nat, carried: seq<Pending>, q: Pending)
    ensures q in KeptOf(ts, today, settle, maxDays, carried) <==>
      exists p :: p in carried && FateOf(ts, today, settle, maxDays, p).Kept? && q == Updated(ts, today, p)
  {
    hide FateOf, Updated;
    if carried != [] {
      var init, last := carried[..|carried| - 1], carried[|carried| - 1];
      KeptHas(ts, today, settle, maxDays, init, q);
      assert forall p :: p in carried <==> p in init || p == last;
    }
  }

  // ---- In order of date ----

  ghost predicate ByDate(s: seq<Pending>) {
    forall i, j :: 0 <= i < j < |s| ==> s[i].date.Some? && s[j].date.Some? && s[i].date.value <= s[j].date.value
  }

  predicate Later(p: Pending, q: Pending) {
    p.date.Some? && q.date.Some? && q.date.value < p.date.value
  }

  function InsertByDate(s: seq<Pending>, p: Pending): seq<Pending> {
    if s == [] || !Later(s[|s| - 1], p) then s + [p]
    else InsertByDate(s[..|s| - 1], p) + [s[|s| - 1]]
  }

  function SortByDate(s: seq<Pending>): seq<Pending> {
    if s == [] then [] else InsertByDate(SortByDate(s[..|s| - 1]), s[|s| - 1])
  }

  lemma {:induction false} InsertByDateHas(s: seq<Pending>, p: Pending, q: Pending)
    ensures q in InsertByDate(s, p) <==> q in s || q == p
  {
    if s != [] && Later(s[|s| - 1], p) {
      InsertByDateHas(s[..|s| - 1], p, q);
      assert q in s <==> q in s[..|s| - 1] || q == s[|s| - 1];
    }
  }

  lemma {:induction false} SortByDateHas(s: seq<Pending>, q: Pending)
    ensures q in SortByDate(s) <==> q in s
  {
    if s != [] {
      SortByDateHas(s[..|s| - 1], q);
      InsertByDateHas(SortByDate(s[..|s| - 1]), s[|s| - 1], q);
      assert q in s <==> q in s[..|s| - 1] || q == s[|s| - 1];
    }
  }

  lemma {:induction false} InsertByDateSorted(s: seq<Pending>, p: Pending)
    requires ByDate(s) && p.date.Some? && forall q :: q in s ==> q.date.Some?
    ensures ByDate(InsertByDate(s, p))
  {
    if s != [] && Later(s[|s| - 1], p) {
      var init, last := s[..|s| - 1], s[|s| - 1];
      assert forall q :: q in init ==> q in s;
      InsertByDateSorted(init, p);
      var r := InsertByDate(init, p);
      forall i | 0 <= i < |r| ensures r[i].date.Some? && r[i].date.value <= last.date.value {
        InsertByDateHas(init, p, r[i]);
        if r[i] in init {
          var j :| 0 <= j < |init| && init[j] == r[i];
          assert s[j].date.value <= s[|s| - 1].date.value;
        }
      }
    } else if s != [] {
      var last := s[|s| - 1];
      assert last in s;
      forall i | 0 <= i < |s| ensures s[i].date.Some? && s[i].date.value <= p.date.value {
        assert s[i] in s;
      }
    }
  }

  lemma {:induction false} SortByDateSorted(s: seq<Pending>)
    requires forall q :: q in s ==> q.date.Some?
    ensures ByDate(SortByDate(s)) && forall q :: q in SortByDate(s) ==> q.date.Some?
  {
    if s != [] {
      var init := s[..|s| - 1];
      assert forall q :: q in init ==> q in s;
      assert s[|s| - 1] in s;
      SortByDateSorted(init);
      InsertByDateSorted(SortByDate(init), s[|s| - 1]);
      forall q | q in SortByDate(s) ensures q.date.Some? {
        SortByDateHas(s, q);
      }
    }
  }

  // ---- The snapshots of single days ----

  ghost predicate SortedRecords(s: seq<Record>) {
    forall i, j :: 0 <= i < j < |s| ==> s[i].date <= s[j].date
  }

  function InsertRecord(s: seq<Record>, r: Record): seq<Record> {
    if s == [] || s[|s| - 1].date <= r.date then s + [r]
    else InsertRecord(s[..|s| - 1], r) + [s[|s| - 1]]
  }

  lemma {:induction false} InsertRecordHas(s: seq<Record>, r: Record, q: Record)
    ensures q in InsertRecord(s, r) <==> q in s || q == r
  {
    if s != [] && s[|s| - 1].date > r.date {
      InsertRecordHas(s[..|s| - 1], r, q);
      assert q in s <==> q in s[..|s| - 1] || q == s[|s| - 1];
    }
  }

  lemma {:induction false} InsertRecordSorted(s: seq<Record>, r: Record)
    requires SortedRecords(s)
    ensures SortedRecords(InsertRecord(s, r))
  {
    if s != [] && s[|s| - 1].date > r.date {
      var init, last := s[..|s| - 1], s[|s| - 1];
      InsertRecordSorted(init, r);
      var t := InsertRecord(init, r);
      forall i | 0 <= i < |t| ensures t[i].date <= last.date {
        InsertRecordHas(init, r, t[i]);
      }
    }
  }

  /** The records of one year, in order of date. */
  method OfYear(sent: seq<Record>, schoolYear: int -> int, year: int) returns (days: seq<Record>)
    ensures SortedRecords(days)
    ensures forall r :: r in days <==> r in sent && schoolYear(r.date) == year
  {
    days := [];
    for i := 0 to |sent|
      invariant SortedRecords(days)
      invariant forall r :: r in days <==> r in sent[..i] && schoolYear(r.date) == year
    {
      assert sent[..i + 1] == sent[..i] + [sent[i]];
      if schoolYear(sent[i].date) == year {
        ghost var was := days;
        InsertRecordSorted(days, sent[i]);
        forall r ensures r in InsertRecord(days, sent[i]) <==> r in days || r == sent[i] {
          InsertRecordHas(days, sent[i], r);
        }
        days := InsertRecord(days, sent[i]);
      }
    }
    assert sent[..|sent|] == sent;
  }

  /** Snapshots that add or update single days and say nothing about any other. */
  ghost predicate SingleDays(snapshots: seq<Snapshot>, sent: seq<Record>, schoolYear: int -> int) {
    && (forall s :: s in snapshots ==> s.range == None && SortedRecords(s.days))
    && (forall s, r :: s in snapshots && r in s.days ==> r in sent && schoolYear(r.date) == s.year)
    && (forall r :: r in sent ==> exists s :: s in snapshots && r in s.days)
    && (forall i, j :: 0 <= i < j < |snapshots| ==> snapshots[i].year < snapshots[j].year)
  }

  method BuildSingleDays(sent: seq<Record>, schoolYear: int -> int) returns (snapshots: seq<Snapshot>)
    ensures SingleDays(snapshots, sent, schoolYear)
  {
    hide SortedRecords, SortedDates;
    var years := Sort(set r | r in sent :: schoolYear(r.date));
    YearsGrow(years);
    snapshots := [];
    for i := 0 to |years|
      invariant |snapshots| == i && YearByYear(snapshots, years[..i], sent, schoolYear)
    {
      var days := OfYear(sent, schoolYear, years[i]);
      snapshots := snapshots + [Snapshot(years[i], None, days)];
    }
    assert years[..|years|] == years;
    YearsCover(snapshots, years, sent, schoolYear);
  }

  ghost predicate YearByYear(snapshots: seq<Snapshot>, years: seq<int>, sent: seq<Record>, schoolYear: int -> int) {
    && |snapshots| == |years|
    && (forall k :: 0 <= k < |years| ==> snapshots[k].year == years[k] && snapshots[k].range == None && SortedRecords(snapshots[k].days))
    && (forall k, r :: 0 <= k < |years| ==> (r in snapshots[k].days <==> r in sent && schoolYear(r.date) == years[k]))
  }

  lemma YearsCover(snapshots: seq<Snapshot>, years: seq<int>, sent: seq<Record>, schoolYear: int -> int)
    requires YearByYear(snapshots, years, sent, schoolYear)
    requires (set y | y in years) == set r | r in sent :: schoolYear(r.date)
    requires forall i, j :: 0 <= i < j < |years| ==> years[i] < years[j]
    ensures SingleDays(snapshots, sent, schoolYear)
  {
    hide SortedRecords;
    var all := set r | r in sent :: schoolYear(r.date);
    forall r | r in sent ensures exists s :: s in snapshots && r in s.days {
      assert schoolYear(r.date) in all;
      YearHas(years, all, schoolYear(r.date));
      var k :| 0 <= k < |years| && years[k] == schoolYear(r.date);
      assert snapshots[k] in snapshots && r in snapshots[k].days;
    }
  }

  lemma YearHas(years: seq<int>, all: set<int>, y: int)
    requires (set z | z in years) == all && y in all
    ensures y in years
  {}

  // ---- One poll ----

  /** What a poll built: the page's tallies, its years, the snapshots of each kind, the days it carries
      on and how many expired. */
  datatype Built = Built(ts: Tallies, settle: nat, maxDays: nat, parts: seq<Part>, complete: seq<Snapshot>, single: seq<Snapshot>,
                         pending: seq<Pending>, expired: nat)

  ghost predicate BuiltFrom(b: Built, courses: seq<seq<Cell>>, today: int, schoolYear: int -> int, carried: seq<Pending>) {
    && b.ts.Keys == Dates(Flat(courses)) && (forall d :: d in b.ts ==> b.ts[d] == TallyOf(Flat(courses), d))
    && Parts(b.ts, today, b.settle, schoolYear, b.parts) && AllYears(b.ts, schoolYear, b.parts) && Bounded(b.ts, b.parts)
    && b.complete == CompleteOf(b.ts, b.parts)
    && SingleDays(b.single, SentOf(b.ts, today, b.settle, b.maxDays, carried), schoolYear)
    && b.pending == SortByDate(PendingOf(b.ts, today, b.parts) + KeptOf(b.ts, today, b.settle, b.maxDays, carried))
    && b.expired == ExpiredOf(b.ts, today, b.settle, b.maxDays, carried)
  }

  /** The snapshots within the journal's size limits, in their order. */
  function Fitting(ss: seq<Snapshot>, fits: Snapshot -> bool): seq<Snapshot> {
    if ss == [] then []
    else
      var init, last := Fitting(ss[..|ss| - 1], fits), ss[|ss| - 1];
      if fits(last) then init + [last] else init
  }

  lemma {:induction false} FittingHas(ss: seq<Snapshot>, fits: Snapshot -> bool, s: Snapshot)
    ensures s in Fitting(ss, fits) <==> s in ss && fits(s)
  {
    if ss != [] {
      FittingHas(ss[..|ss| - 1], fits, s);
      assert s in ss <==> s in ss[..|ss| - 1] || s == ss[|ss| - 1];
    }
  }

  /** A poll. Settings below 1 mean the defaults. `fits` are the journal's size limits. */
  method BuildAttendanceDaysCarry(courses: seq<seq<Cell>>, settleDays: int, maxDays: int, today: int, schoolYear: int -> int, carried: seq<Pending>,
                                  fits: Snapshot -> bool)
    returns (sent: seq<Snapshot>, pending: seq<Pending>, expired: nat, ghost b: Built)
    ensures BuiltFrom(b, courses, today, schoolYear, carried) && pending == b.pending && expired == b.expired
    ensures b.settle == (if settleDays < 1 then SETTLE_SCHOOL_DAYS else settleDays)
    ensures b.maxDays == (if maxDays < 1 then CARRY_MAX_DAYS else maxDays)
    ensures sent == Fitting(b.complete + b.single, fits)
  {
    hide SingleDays, Parts, AllYears, Bounded, CompleteOf, PendingOf, SentOf, KeptOf, ExpiredOf, SchoolDays, SortedDates, SortByDate,
      TallyOf, Flat, Dates;
    var settle: nat := if settleDays < 1 then SETTLE_SCHOOL_DAYS else settleDays;
    var limit: nat := if maxDays < 1 then CARRY_MAX_DAYS else maxDays;
    var ts := TallyDays(courses);
    SchoolDaysIs(ts, today);
    var schoolDays := Sort(set d | d in ts && d <= today && ts[d].met > 0);
    var complete, onPage, settled, kept, single;
    ghost var parts;
    complete, onPage, parts := BuildGrid(ts, today, settle, schoolYear, schoolDays);
    PartsBounds(ts, today, settle, schoolYear, parts);
    settled, kept, expired := CarryOn(ts, today, settle, limit, schoolDays, carried);
    single := BuildSingleDays(settled, schoolYear);
    sent := [];
    var all := complete + single;
    for i := 0 to |all|
      invariant sent == Fitting(all[..i], fits)
    {
      assert all[..i + 1][..i] == all[..i];
      if fits(all[i]) {
        sent := sent + [all[i]];
      }
    }
    assert all[..|all|] == all;
    pending := SortByDate(onPage + kept);
    b := Built(ts, settle, limit, parts, complete, single, pending, expired);
  }

  lemma SchoolDaysIs(ts: Tallies, today: int)
    ensures (set d | d in ts && d <= today && ts[d].met > 0) == SchoolDays(ts, today)
  {}

  // ---- Every carried day goes one way ----

  ghost predicate DistinctDates(s: seq<Pending>) {
    forall p, q :: p in s && q in s && p.date.Some? && p.date == q.date ==> p == q
  }

  lemma InBuiltPending(b: Built, courses: seq<seq<Cell>>, today: int, schoolYear: int -> int, carried: seq<Pending>, q: Pending)
    requires BuiltFrom(b, courses, today, schoolYear, carried)
    ensures Bounded(b.ts, b.parts)
    ensures q in b.pending <==> q in PendingOf(b.ts, today, b.parts) || q in KeptOf(b.ts, today, b.settle, b.maxDays, carried)
  {
    hide Parts, AllYears, CompleteOf, PendingOf, KeptOf, SingleDays, ExpiredOf, SortByDate;
    SortByDateHas(PendingOf(b.ts, today, b.parts) + KeptOf(b.ts, today, b.settle, b.maxDays, carried), q);
  }

  /** A carried day of the page's own is never one that was carried from before. */
  lemma PageDaysAreOnPage(b: Built, courses: seq<seq<Cell>>, today: int, schoolYear: int -> int, carried: seq<Pending>, q: Pending)
    requires BuiltFrom(b, courses, today, schoolYear, carried) && Bounded(b.ts, b.parts) && q in PendingOf(b.ts, today, b.parts)
    ensures q.date.Some? && q.date.value in b.ts && q.date.value <= today && b.ts[q.date.value].coded
    ensures q == AttendanceCarry.Pending(q.date, b.ts[q.date.value], |DaysAfter(SchoolDays(b.ts, today), q.date.value)|, today)
  {
    hide SingleDays, ExpiredOf, SortByDate, SchoolDays, CarriedDays, PendingOf, CompleteOf, KeptOf;
    var i := PendingFrom(b.ts, today, b.settle, schoolYear, b.parts, q);
    PartBounds(b.ts, today, b.settle, schoolYear, b.parts[i]);
    CarriedDaysHas(b.ts, today, b.parts[i].dates[b.parts[i].run..], q);
  }

  lemma SentFrom(ts: Tallies, today: int, settle: nat, maxDays: nat, carried: seq<Pending>, r: Record) returns (p: Pending)
    requires r in SentOf(ts, today, settle, maxDays, carried)
    ensures p in carried && FateOf(ts, today, settle, maxDays, p).Sent? && p.date == Some(r.date) && r.tally == p.tally
  {
    SentHas(ts, today, settle, maxDays, carried, r);
    p :| p in carried && FateOf(ts, today, settle, maxDays, p).Sent? && r == Record(p.date.value, p.tally);
  }

  lemma KeptFrom(ts: Tallies, today: int, settle: nat, maxDays: nat, carried: seq<Pending>, q: Pending) returns (p: Pending)
    requires q in KeptOf(ts, today, settle, maxDays, carried)
    ensures p in carried && FateOf(ts, today, settle, maxDays, p).Kept? && p.date.Some? && q == Updated(ts, today, p) && q.date == p.date
  {
    KeptHas(ts, today, settle, maxDays, carried, q);
    p :| p in carried && FateOf(ts, today, settle, maxDays, p).Kept? && q == Updated(ts, today, p);
  }

  lemma SentIsSingle(b: Built, courses: seq<seq<Cell>>, today: int, schoolYear: int -> int, carried: seq<Pending>, p: Pending)
    requires BuiltFrom(b, courses, today, schoolYear, carried) && DistinctDates(carried)
    requires p in carried && p.date.Some?
    ensures FateOf(b.ts, today, b.settle, b.maxDays, p).Sent? <==> InSnapshots(b.single, p.date.value)
    ensures FateOf(b.ts, today, b.settle, b.maxDays, p).Sent? ==> exists s :: s in b.single && Record(p.date.value, p.tally) in s.days
  {
    hide FateOf, SentOf, BuiltFrom, SortedRecords;
    SingleDaysOf(b, courses, today, schoolYear, carried);
    if FateOf(b.ts, today, b.settle, b.maxDays, p).Sent? {
      var r := Record(p.date.value, p.tally);
      SentHas(b.ts, today, b.settle, b.maxDays, carried, r);
      var s :| s in b.single && r in s.days;
      assert r.date == p.date.value;
    } else if InSnapshots(b.single, p.date.value) {
      var s, r :| s in b.single && r in s.days && r.date == p.date.value;
      var q := SentFrom(b.ts, today, b.settle, b.maxDays, carried, r);
      assert false;
    }
  }

  lemma KeptIsPending(b: Built, courses: seq<seq<Cell>>, today: int, schoolYear: int -> int, carried: seq<Pending>, p: Pending)
    requires BuiltFrom(b, courses, today, schoolYear, carried) && DistinctDates(carried) && Bounded(b.ts, b.parts)
    requires p in carried && p.date.Some? && p.date.value !in b.ts
    ensures FateOf(b.ts, today, b.settle, b.maxDays, p).Kept? <==> InPending(b.pending, p.date.value)
    ensures FateOf(b.ts, today, b.settle, b.maxDays, p).Kept? ==> Updated(b.ts, today, p) in b.pending
  {
    hide FateOf, KeptOf, PendingOf, BuiltFrom, Bounded, FollowedNow;
    var q := Updated(b.ts, today, p);
    if FateOf(b.ts, today, b.settle, b.maxDays, p).Kept? {
      KeptHas(b.ts, today, b.settle, b.maxDays, carried, q);
      InBuiltPending(b, courses, today, schoolYear, carried, q);
      assert q.date == Some(p.date.value);
    } else if InPending(b.pending, p.date.value) {
      q :| q in b.pending && q.date == Some(p.date.value);
      InBuiltPending(b, courses, today, schoolYear, carried, q);
      if q in PendingOf(b.ts, today, b.parts) {
        PageDaysAreOnPage(b, courses, today, schoolYear, carried, q);
      }
      var r := KeptFrom(b.ts, today, b.settle, b.maxDays, carried, q);
      assert false;
    }
  }

  /** A carried day that parses and that the page no longer shows goes exactly one way: it is sent as a
      single day, or it is carried on, or it is counted as expired. */
  lemma CarriedDayGoesOneWay(b: Built, courses: seq<seq<Cell>>, today: int, schoolYear: int -> int, carried: seq<Pending>, p: Pending)
    requires BuiltFrom(b, courses, today, schoolYear, carried) && DistinctDates(carried)
    requires p in carried && p.date.Some? && p.date.value !in b.ts
    ensures var fate := FateOf(b.ts, today, b.settle, b.maxDays, p);
      && (fate.Expired? || fate.Sent? || fate.Kept?)
      && (fate.Sent? <==> InSnapshots(b.single, p.date.value))
      && (fate.Kept? <==> InPending(b.pending, p.date.value))
      && (fate.Kept? ==> Updated(b.ts, today, p) in b.pending)
      && (fate.Sent? ==> exists s :: s in b.single && Record(p.date.value, p.tally) in s.days)
  {
    hide BuiltFrom, InSnapshots, InPending, DistinctDates, IsSettled, FollowedNow, Updated;
    BuiltBounded(b, courses, today, schoolYear, carried);
    SentIsSingle(b, courses, today, schoolYear, carried, p);
    KeptIsPending(b, courses, today, schoolYear, carried, p);
  }

  lemma BuiltBounded(b: Built, courses: seq<seq<Cell>>, today: int, schoolYear: int -> int, carried: seq<Pending>)
    requires BuiltFrom(b, courses, today, schoolYear, carried)
    ensures Bounded(b.ts, b.parts)
  {}

  /** A coded day of the page up to today goes exactly one way: it is in the complete snapshot of its
      year, or it is carried on. */
  lemma PageDayGoesOneWay(b: Built, courses: seq<seq<Cell>>, today: int, schoolYear: int -> int, carried: seq<Pending>, d: int)
    requires BuiltFrom(b, courses, today, schoolYear, carried) && d in b.ts && b.ts[d].coded && d <= today
    ensures InSnapshots(b.complete, d) <==> !InPending(b.pending, d)
  {
    hide FateOf, KeptOf, PendingOf, CompleteOf, Parts, AllYears, SingleDays, SentOf, ExpiredOf, SortByDate;
    GridDayGoesOneWay(b.ts, today, b.settle, schoolYear, b.parts, d);
    if InPending(b.pending, d) {
      var q :| q in b.pending && q.date == Some(d);
      InBuiltPending(b, courses, today, schoolYear, carried, q);
      if q in KeptOf(b.ts, today, b.settle, b.maxDays, carried) {
        var p := KeptFrom(b.ts, today, b.settle, b.maxDays, carried, q);
        OnPageIsNotKept(b.ts, today, b.settle, b.maxDays, p);
      }
    }
    if InPending(PendingOf(b.ts, today, b.parts), d) {
      var q :| q in PendingOf(b.ts, today, b.parts) && q.date == Some(d);
      InBuiltPending(b, courses, today, schoolYear, carried, q);
    }
  }

  lemma OnPageIsNotKept(ts: Tallies, today: int, settle: nat, maxDays: nat, p: Pending)
    ensures p.date.Some? && p.date.value in ts ==> FateOf(ts, today, settle, maxDays, p).OnPage?
  {}

  lemma SingleDaysOf(b: Built, courses: seq<seq<Cell>>, today: int, schoolYear: int -> int, carried: seq<Pending>)
    requires BuiltFrom(b, courses, today, schoolYear, carried)
    ensures SingleDays(b.single, SentOf(b.ts, today, b.settle, b.maxDays, carried), schoolYear)
  {}

  /** No date is carried twice, and the carried days are in order. */
  lemma CarriedOnce(b: Built, courses: seq<seq<Cell>>, today: int, schoolYear: int -> int, carried: seq<Pending>)
    requires BuiltFrom(b, courses, today, schoolYear, carried) && DistinctDates(carried)
    ensures DistinctDates(b.pending) && ByDate(b.pending)
  {
    hide Parts, AllYears, CompleteOf, PendingOf, KeptOf, SentOf, ExpiredOf, SortByDate, SchoolDays, FollowedNow, IsSettled, SingleDays;
    forall q | q in b.pending
      ensures q.date.Some?
      ensures q.date.value in b.ts ==> q in PendingOf(b.ts, today, b.parts)
      ensures q.date.value !in b.ts ==> exists p :: p in carried && p.date == q.date && q == Updated(b.ts, today, p)
    {
      InBuiltPending(b, courses, today, schoolYear, carried, q);
      KeptHas(b.ts, today, b.settle, b.maxDays, carried, q);
      if q in PendingOf(b.ts, today, b.parts) {
        PageDaysAreOnPage(b, courses, today, schoolYear, carried, q);
      }
    }
    forall p, q | p in b.pending && q in b.pending && p.date == q.date ensures p == q {
      if p.date.value in b.ts {
        PageDaysAreOnPage(b, courses, today, schoolYear, carried, p);
        PageDaysAreOnPage(b, courses, today, schoolYear, carried, q);
      }
    }
    var all := PendingOf(b.ts, today, b.parts) + KeptOf(b.ts, today, b.settle, b.maxDays, carried);
    forall q | q in all ensures q.date.Some? {
      SortByDateHas(all, q);
    }
    SortByDateSorted(all);
  }

  /** What becomes of such a day, told of the page alone. Its count grows by the page's school days, up to
      today, that come after the day and after the last date counted. A day carried too long is dropped;
      one that is over is sent as soon as it has no unmarked cell or its count reaches the settling
      number; every other is carried on with that count. */
  lemma CarriedDayIsSent(b: Built, courses: seq<seq<Cell>>, today: int, schoolYear: int -> int, carried: seq<Pending>, p: Pending)
    requires BuiltFrom(b, courses, today, schoolYear, carried) && DistinctDates(carried)
    requires p in carried && p.date.Some? && p.date.value !in b.ts
    ensures
      var d := p.date.value;
      var count := p.followed + |set x | x in b.ts && x <= today && b.ts[x].met > 0 && x > d && x > p.through|;
      if today - d > b.maxDays then !InSnapshots(b.single, d) && !InPending(b.pending, d)
      else if d < today && (p.tally.unmarked == 0 || count >= b.settle) then
        !InPending(b.pending, d) && exists s :: s in b.single && Record(d, p.tally) in s.days
      else
        !InSnapshots(b.single, d) && p.(followed := count, through := if p.through < today then today else p.through) in b.pending
  {
    hide BuiltFrom, InSnapshots, InPending, DistinctDates;
    CarriedDayGoesOneWay(b, courses, today, schoolYear, carried, p);
    assert DaysAfter(SchoolDays(b.ts, today), Max(p.date.value, p.through))
           == set x | x in b.ts && x <= today && b.ts[x].met > 0 && x > p.date.value && x > p.through;
  }

  /** A carried day the page no longer shows has been carried too long. */
  predicate TooOld(ts: Tallies, today: int, maxDays: nat, p: Pending) {
    p.date.Some? && p.date.value !in ts && today - p.date.value > maxDays
  }

  /** The places of those days. */
  ghost function TooOldAt(ts: Tallies, today: int, maxDays: nat, carried: seq<Pending>): set<int> {
    set i | 0 <= i < |carried| && TooOld(ts, today, maxDays, carried[i])
  }

  lemma TooOldNext(ts: Tallies, today: int, maxDays: nat, init: seq<Pending>, p: Pending)
    ensures TooOldAt(ts, today, maxDays, []) == {}
    ensures |TooOldAt(ts, today, maxDays, init + [p])| == |TooOldAt(ts, today, maxDays, init)| + (if TooOld(ts, today, maxDays, p) then 1 else 0)
  {
    hide TooOld;
    var all := init + [p];
    assert all[|init|] == p && forall i :: 0 <= i < |init| ==> all[i] == init[i];
    assert TooOldAt(ts, today, maxDays, all) == TooOldAt(ts, today, maxDays, init) + (if TooOld(ts, today, maxDays, p) then {|init|} else {});
  }

  lemma {:induction false} ExpiredAre(ts: Tallies, today: int, settle: nat, maxDays: nat, carried: seq<Pending>)
    ensures ExpiredOf(ts, today, settle, maxDays, carried) == |TooOldAt(ts, today, maxDays, carried)|
  {
    hide FateOf, TooOld, TooOldAt;
    if carried == [] {
      TooOldNext(ts, today, maxDays, [], AttendanceCarry.Pending(None, NOTHING, 0, 0));
    } else {
      var init, last := carried[..|carried| - 1], carried[|carried| - 1];
      ExpiredAre(ts, today, settle, maxDays, init);
      FateExpired(ts, today, settle, maxDays, last);
      TooOldNext(ts, today, maxDays, init, last);
      assert carried == init + [last];
    }
  }

  lemma FateExpired(ts: Tallies, today: int, settle: nat, maxDays: nat, p: Pending)
    ensures FateOf(ts, today, settle, maxDays, p).Expired? <==> TooOld(ts, today, maxDays, p)
  {}

  /** As many days are counted as expired. */
  lemma ExpiredIsCounted(b: Built, courses: seq<seq<Cell>>, today: int, schoolYear: int -> int, carried: seq<Pending>)
    requires BuiltFrom(b, courses, today, schoolYear, carried)
    ensures b.expired == |TooOldAt(b.ts, today, b.maxDays, carried)|
  {
    hide Parts, AllYears, CompleteOf, PendingOf, KeptOf, SentOf, SortByDate, SingleDays;
    ExpiredAre(b.ts, today, b.settle, b.maxDays, carried);
  }

  // ---- Counting over polls ----

  /** What a poll saw: the dates of its page, the school days among them and its own day. */
  datatype Page = Page(dates: set<int>, schoolDays: set<int>, today: int)

  /** The polls from the last one on whose page shows the day. */
  ghost function Since(polls: seq<Page>, d: int): seq<Page> {
    if polls == [] then []
    else
      var last := polls[|polls| - 1];
      if d in last.dates then [last] else Since(polls[..|polls| - 1], d) + [last]
  }

  ghost function AllSchoolDays(polls: seq<Page>): set<int> {
    if polls == [] then {} else AllSchoolDays(polls[..|polls| - 1]) + polls[|polls| - 1].schoolDays
  }

  /** A poll shows the school day, and no earlier one was made on that date or a later one. */
  ghost predicate NewlyShown(polls: seq<Page>, x: int) {
    exists k :: 0 <= k < |polls| && x in polls[k].schoolDays && forall j :: 0 <= j < k ==> polls[j].today < x
  }

  /** The school days after a day that have been shown to some polls. */
  ghost function Behind(polls: seq<Page>, d: int): set<int> {
    set x | x in AllSchoolDays(polls) && x > d && NewlyShown(polls, x)
  }

  ghost predicate LatestIs(polls: seq<Page>, through: int) {
    (exists j :: 0 <= j < |polls| && polls[j].today == through) && forall j :: 0 <= j < |polls| ==> polls[j].today <= through
  }

  /** A carried day's count is exactly the school days shown after it since the page last showed the day
      itself. */
  ghost predicate Exact(p: Pending, polls: seq<Page>) {
    p.date.Some?
    && LatestIs(Since(polls, p.date.value), p.through)
    && p.followed == |Behind(Since(polls, p.date.value), p.date.value)|
  }

  ghost predicate Honest(q: Page) {
    forall x :: x in q.schoolDays ==> x <= q.today
  }

  ghost predicate AllHonest(polls: seq<Page>) {
    forall k :: 0 <= k < |polls| ==> Honest(polls[k])
  }

  lemma {:induction false} SchoolDayOf(polls: seq<Page>, x: int)
    ensures x in AllSchoolDays(polls) <==> exists k :: 0 <= k < |polls| && x in polls[k].schoolDays
  {
    if polls != [] {
      var init := polls[..|polls| - 1];
      SchoolDayOf(init, x);
      if k :| 0 <= k < |init| && x in init[k].schoolDays {
        assert x in polls[k].schoolDays;
      }
    }
  }

  lemma NewlyShownNext(polls: seq<Page>, q: Page, through: int, x: int)
    requires LatestIs(polls, through)
    ensures NewlyShown(polls + [q], x) <==> NewlyShown(polls, x) || (x in q.schoolDays && x > through)
  {
    var all := polls + [q];
    assert all[|polls|] == q && forall j :: 0 <= j < |polls| ==> all[j] == polls[j];
    if NewlyShown(polls, x) {
      var k :| 0 <= k < |polls| && x in polls[k].schoolDays && forall j :: 0 <= j < k ==> polls[j].today < x;
      assert x in all[k].schoolDays && forall j :: 0 <= j < k ==> all[j].today < x;
    }
    if x in q.schoolDays && x > through {
      assert x in all[|polls|].schoolDays && forall j :: 0 <= j < |polls| ==> all[j].today < x;
    }
    if NewlyShown(all, x) {
      var k :| 0 <= k < |all| && x in all[k].schoolDays && forall j :: 0 <= j < k ==> all[j].today < x;
      if k < |polls| {
        assert x in polls[k].schoolDays && forall j :: 0 <= j < k ==> polls[j].today < x;
      } else {
        var j :| 0 <= j < |polls| && polls[j].today == through;
        assert all[j].today < x;
      }
    }
  }

  /** One more poll adds exactly the school days after the day and after the polls before. */
  lemma BehindGrows(polls: seq<Page>, q: Page, through: int, d: int)
    requires LatestIs(polls, through) && AllHonest(polls) && Honest(q)
    ensures |Behind(polls + [q], d)| == |Behind(polls, d)| + |DaysAfter(q.schoolDays, Max(d, through))|
    ensures LatestIs(polls + [q], Max(through, q.today))
  {
    hide NewlyShown, AllSchoolDays;
    var all, before, now := polls + [q], Behind(polls, d), DaysAfter(q.schoolDays, Max(d, through));
    assert all[|polls|] == q && forall j :: 0 <= j < |polls| ==> all[j] == polls[j];
    forall x
      ensures x in Behind(all, d) <==> x in before || x in now
      ensures x in before ==> x <= through
    {
      NewlyShownNext(polls, q, through, x);
      ShownIsADay(polls, x);
      ShownIsADay(all, x);
    }
    assert Behind(all, d) == before + now && before !! now;
    var j :| 0 <= j < |polls| && polls[j].today == through;
    assert all[if through >= q.today then j else |polls|].today == Max(through, q.today);
  }

  lemma ShownIsADay(polls: seq<Page>, x: int)
    requires AllHonest(polls)
    ensures NewlyShown(polls, x) ==> x in AllSchoolDays(polls) && exists k :: 0 <= k < |polls| && x <= polls[k].today
  {
    SchoolDayOf(polls, x);
    if NewlyShown(polls, x) {
      var k :| 0 <= k < |polls| && x in polls[k].schoolDays && forall j :: 0 <= j < k ==> polls[j].today < x;
      assert Honest(polls[k]);
    }
  }

  /** At the poll whose page shows the day the count starts afresh. */
  lemma BehindStarts(q: Page, d: int)
    requires Honest(q)
    ensures |Behind([q], d)| == |DaysAfter(q.schoolDays, d)| && LatestIs([q], q.today)
  {
    hide AllSchoolDays;
    assert [q][0] == q;
    forall x ensures x in Behind([q], d) <==> x in DaysAfter(q.schoolDays, d) {
      SchoolDayOf([q], x);
      if x in q.schoolDays {
        assert x in [q][0].schoolDays;
      }
    }
    assert Behind([q], d) == DaysAfter(q.schoolDays, d);
  }

  lemma {:induction false} SinceIsHonest(polls: seq<Page>, d: int)
    requires AllHonest(polls)
    ensures AllHonest(Since(polls, d))
  {
    if polls != [] {
      SinceIsHonest(polls[..|polls| - 1], d);
    }
  }

  lemma SinceNext(polls: seq<Page>, q: Page, d: int)
    ensures Since(polls + [q], d) == if d in q.dates then [q] else Since(polls, d) + [q]
  {
    assert (polls + [q])[..|polls|] == polls;
  }

  ghost function PageOf(ts: Tallies, today: int): Page {
    Page(ts.Keys, SchoolDays(ts, today), today)
  }

  /** A poll keeps every count exact. */
  lemma PollIsExact(b: Built, courses: seq<seq<Cell>>, today: int, schoolYear: int -> int, carried: seq<Pending>, polls: seq<Page>)
    requires BuiltFrom(b, courses, today, schoolYear, carried) && AllHonest(polls) && forall p :: p in carried ==> Exact(p, polls)
    ensures AllHonest(polls + [PageOf(b.ts, today)])
    ensures forall q :: q in b.pending ==> Exact(q, polls + [PageOf(b.ts, today)])
  {
    hide Parts, AllYears, CompleteOf, PendingOf, KeptOf, SentOf, ExpiredOf, SortByDate, IsSettled, SingleDays, BuiltFrom, Behind, DaysAfter, LatestIs,
      Since, AllHonest;
    var page := PageOf(b.ts, today);
    HonestNext(polls, page);
    forall q | q in b.pending ensures Exact(q, polls + [page]) {
      InBuiltPending(b, courses, today, schoolYear, carried, q);
      if q in PendingOf(b.ts, today, b.parts) {
        PageDaysAreOnPage(b, courses, today, schoolYear, carried, q);
        SinceNext(polls, page, q.date.value);
        BehindStarts(page, q.date.value);
      } else {
        KeptHas(b.ts, today, b.settle, b.maxDays, carried, q);
        var p :| p in carried && FateOf(b.ts, today, b.settle, b.maxDays, p).Kept? && q == Updated(b.ts, today, p);
        CountNext(polls, page, p.date.value, p.through);
      }
    }
  }

  lemma HonestNext(polls: seq<Page>, page: Page)
    requires AllHonest(polls) && Honest(page)
    ensures AllHonest(polls + [page])
  {}

  lemma CountNext(polls: seq<Page>, page: Page, d: int, through: int)
    requires AllHonest(polls) && Honest(page) && d !in page.dates && LatestIs(Since(polls, d), through)
    ensures LatestIs(Since(polls + [page], d), Max(through, page.today))
    ensures |Behind(Since(polls + [page], d), d)| == |Behind(Since(polls, d), d)| + |DaysAfter(page.schoolDays, Max(d, through))|
  {
    hide Behind, DaysAfter, LatestIs, Since, AllHonest;
    SinceNext(polls, page, d);
    SinceIsHonest(polls, d);
    BehindGrows(Since(polls, d), page, through, d);
  }

  /** When a carried day that is off the page and not expired is sent: at the first poll, once it is over,
      by which as many school days as it takes to settle have been shown after it since the page last
      showed it; at once when it has no unmarked cell. */
  lemma SentInTime(b: Built, courses: seq<seq<Cell>>, today: int, schoolYear: int -> int, carried: seq<Pending>, polls: seq<Page>, p: Pending)
    requires BuiltFrom(b, courses, today, schoolYear, carried) && DistinctDates(carried) && AllHonest(polls)
    requires p in carried && Exact(p, polls) && p.date.value !in b.ts && today - p.date.value <= b.maxDays
    ensures
      var d := p.date.value;
      var settled := d < today && (p.tally.unmarked == 0 || |Behind(Since(polls + [PageOf(b.ts, today)], d), d)| >= b.settle);
      && (settled ==> exists s :: s in b.single && Record(d, p.tally) in s.days)
      && (settled <==> InSnapshots(b.single, d)) && (settled <==> !InPending(b.pending, d))
  {
    hide BuiltFrom, InSnapshots, InPending, DistinctDates, Behind, DaysAfter, LatestIs, Since, AllHonest, Updated;
    CarriedDayGoesOneWay(b, courses, today, schoolYear, carried, p);
    CountNext(polls, PageOf(b.ts, today), p.date.value, p.through);
  }

  ghost function Between(days: set<int>, from: int, to: int): set<int> {
    set x | x in days && from < x <= to
  }

  /** The count of a carried day is no more than the distinct school days after it that some poll has
      shown. */
  ghost predicate Justified(p: Pending, shown: set<int>) {
    p.date.Some? ==> p.followed <= |Between(shown, p.date.value, p.through)|
  }

  lemma FewerIn(a: set<int>, b: set<int>)
    requires a <= b
    ensures |a| <= |b|
  {
    if a != b {
      assert b == a + (b - a);
    }
  }

  /** The days counted now come after those counted before: none is counted twice. */
  lemma CountedOnce(shown: set<int>, today: int, now: set<int>, date: int, through: int)
    requires forall x :: x in now ==> x <= today
    ensures |Between(shown, date, through)| + |DaysAfter(now, Max(date, through))| <= |Between(shown + now, date, Max(through, today))|
  {
    var before, after := Between(shown, date, through), DaysAfter(now, Max(date, through));
    assert before !! after;
    assert |before + after| == |before| + |after|;
    FewerIn(before + after, Between(shown + now, date, Max(through, today)));
  }

  lemma CountedToday(shown: set<int>, today: int, now: set<int>, date: int)
    requires forall x :: x in now ==> x <= today
    ensures |DaysAfter(now, date)| <= |Between(shown + now, date, today)|
  {
    FewerIn(DaysAfter(now, date), Between(shown + now, date, today));
  }

  lemma BetweenAfter(shown: set<int>, date: int, through: int)
    ensures |Between(shown, date, through)| <= |DaysAfter(shown, date)|
  {
    FewerIn(Between(shown, date, through), DaysAfter(shown, date));
  }

  /** What a poll carries on is counted as it should be, when what it was given was. */
  lemma PollKeepsCounts(b: Built, courses: seq<seq<Cell>>, today: int, schoolYear: int -> int, carried: seq<Pending>, shown: set<int>)
    requires BuiltFrom(b, courses, today, schoolYear, carried) && forall p :: p in carried ==> Justified(p, shown)
    ensures forall q :: q in b.pending ==> Justified(q, shown + SchoolDays(b.ts, today))
  {
    hide Parts, AllYears, CompleteOf, PendingOf, KeptOf, SentOf, ExpiredOf, SortByDate, IsSettled, SingleDays, BuiltFrom, Between, DaysAfter;
    var now := SchoolDays(b.ts, today);
    forall q | q in b.pending ensures Justified(q, shown + now) {
      InBuiltPending(b, courses, today, schoolYear, carried, q);
      if q in PendingOf(b.ts, today, b.parts) {
        PageDaysAreOnPage(b, courses, today, schoolYear, carried, q);
        CountedToday(shown, today, now, q.date.value);
      } else {
        KeptHas(b.ts, today, b.settle, b.maxDays, carried, q);
        var p :| p in carried && FateOf(b.ts, today, b.settle, b.maxDays, p).Kept? && q == Updated(b.ts, today, p);
        CountedOnce(shown, today, now, p.date.value, p.through);
      }
    }
  }

  /** Whatever a poll sends is over, and when the day has unmarked cells at least the settling number of
      distinct later school days have been shown. */
  lemma SentAfterSettling(b: Built, courses: seq<seq<Cell>>, today: int, schoolYear: int -> int, carried: seq<Pending>, shown: set<int>,
                          s: Snapshot, r: Record)
    requires BuiltFrom(b, courses, today, schoolYear, carried) && forall p :: p in carried ==> Justified(p, shown)
    requires (s in b.complete || s in b.single) && r in s.days
    ensures r.date < today
    ensures r.tally.unmarked > 0 ==> |DaysAfter(shown + SchoolDays(b.ts, today), r.date)| >= b.settle
  {
    hide AllYears, CompleteOf, PendingOf, KeptOf, SentOf, ExpiredOf, SortByDate, Parts, Between, DaysAfter;
    var now := SchoolDays(b.ts, today);
    if s in b.complete {
      SentIsSettled(b.ts, today, b.settle, schoolYear, b.parts, s, r);
      MoreAfter(shown, now, r.date);
    } else {
      SentHas(b.ts, today, b.settle, b.maxDays, carried, r);
      var p :| p in carried && FateOf(b.ts, today, b.settle, b.maxDays, p).Sent? && r == Record(p.date.value, p.tally);
      CountedOnce(shown, today, now, r.date, p.through);
      BetweenAfter(shown + now, r.date, Max(p.through, today));
    }
  }

  lemma MoreAfter(shown: set<int>, now: set<int>, d: int)
    ensures |DaysAfter(now, d)| <= |DaysAfter(shown + now, d)|
  {
    FewerIn(DaysAfter(now, d), DaysAfter(shown + now, d));
  }

  /** One child's carried days over any sequence of polls. */
  class Carrier {
    var pending: seq<Pending>
    /** Every school day some poll's page has shown. */
    ghost var shown: set<int>
    /** What every poll so far saw. */
    ghost var polls: seq<Page>

    ghost predicate Valid()
      reads this
    {
      && DistinctDates(pending) && (forall p :: p in pending ==> Justified(p, shown))
      && AllHonest(polls) && (forall p :: p in pending ==> Exact(p, polls))
    }

    constructor ()
      ensures Valid() && pending == [] && shown == {} && polls == []
    {
      pending, shown, polls := [], {}, [];
    }

    /** A poll with any page. Whatever day with unmarked cells it sends has at least the settling number
        of distinct later school days behind it; and a carried day that is over, off the page and not
        expired is sent by it exactly when it has no unmarked cell or that many have been shown since the
        page last showed it. */
    method Poll(courses: seq<seq<Cell>>, settleDays: int, maxDays: int, today: int, schoolYear: int -> int, fits: Snapshot -> bool)
      returns (sent: seq<Snapshot>, expired: nat, ghost b: Built)
      requires Valid()
      modifies this
      ensures Valid() && BuiltFrom(b, courses, today, schoolYear, old(pending)) && pending == b.pending && expired == b.expired
      ensures shown == old(shown) + SchoolDays(b.ts, today)
      ensures forall s :: s in sent <==> (s in b.complete || s in b.single) && fits(s)
      ensures forall s, r :: s in sent && r in s.days ==> r.date < today && (r.tally.unmarked > 0 ==> |DaysAfter(shown, r.date)| >= b.settle)
      ensures polls == old(polls) + [PageOf(b.ts, today)]
      ensures forall p :: p in old(pending) && p.date.Some? && p.date.value !in b.ts && today - p.date.value <= b.maxDays ==>
        (InSnapshots(b.single, p.date.value) <==>
         p.date.value < today && (p.tally.unmarked == 0 || |Behind(Since(polls, p.date.value), p.date.value)| >= b.settle))
    {
      hide BuiltFrom, SchoolDays, DaysAfter, Justified, DistinctDates, Exact, AllHonest, Since, Behind, InSnapshots, InPending;
      ghost var carried := pending;
      sent, pending, expired, b := BuildAttendanceDaysCarry(courses, settleDays, maxDays, today, schoolYear, pending, fits);
      forall s ensures s in sent <==> (s in b.complete || s in b.single) && fits(s) {
        FittingHas(b.complete + b.single, fits, s);
      }
      CarriedOnce(b, courses, today, schoolYear, carried);
      PollKeepsCounts(b, courses, today, schoolYear, carried, shown);
      forall s, r | s in sent && r in s.days
        ensures r.date < today && (r.tally.unmarked > 0 ==> |DaysAfter(shown + SchoolDays(b.ts, today), r.date)| >= b.settle)
      {
        SentAfterSettling(b, courses, today, schoolYear, carried, shown, s, r);
      }
      PollIsExact(b, courses, today, schoolYear, carried, polls);
      forall p | p in carried && p.date.Some? && p.date.value !in b.ts && today - p.date.value <= b.maxDays
        ensures InSnapshots(b.single, p.date.value) <==>
          p.date.value < today
          && (p.tally.unmarked == 0 || |Behind(Since(polls + [PageOf(b.ts, today)], p.date.value), p.date.value)| >= b.settle)
      {
        SentInTime(b, courses, today, schoolYear, carried, polls, p);
      }
      shown, polls := shown + SchoolDays(b.ts, today), polls + [PageOf(b.ts, today)];
    }
  }
}
