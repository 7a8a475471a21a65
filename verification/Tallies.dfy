/** The attendance page's cells counted by date. */
module DayTallies {

  datatype CodeKind = AbsenceUnexcused | AbsenceExcused | LateUnexcused | LateExcused | LeftEarlyUnexcused | LeftEarlyExcused
    | Authorized | UnknownCode

  /** `Unmarked` is a period nobody has marked yet; `Present` any other cell without a code, an empty
      code included. */
  datatype Mark = NoMeeting | Unmarked | Present | Coded(kind: CodeKind)

  /** Dates are counted in days. */
  datatype Cell = Cell(date: int, mark: Mark)

  datatype Tally = Tally(met: nat, unmarked: nat, absUnex: nat, absEx: nat, late: nat, leftEarly: nat, auth: nat, unknown: nat,
                         anyUnex: bool, coded: bool)
  {
    /** The cells with a code. */
    function Codes(): nat {
      absUnex + absEx + late + leftEarly + auth + unknown
    }

    function Absences(): nat {
      absUnex + absEx
    }
  }

  const NOTHING: Tally := Tally(0, 0, 0, 0, 0, 0, 0, 0, false, false)

  function WithCode(t: Tally, k: CodeKind): Tally {
    match k
    case AbsenceUnexcused => t.(absUnex := t.absUnex + 1, anyUnex := true)
    case AbsenceExcused => t.(absEx := t.absEx + 1)
    case LateUnexcused => t.(late := t.late + 1, anyUnex := true)
    case LateExcused => t.(late := t.late + 1)
    case LeftEarlyUnexcused => t.(leftEarly := t.leftEarly + 1, anyUnex := true)
    case LeftEarlyExcused => t.(leftEarly := t.leftEarly + 1)
    case Authorized => t.(auth := t.auth + 1)
    case UnknownCode => t.(unknown := t.unknown + 1)
  }

  /** A tally with one cell more. */
  function Plus(t: Tally, m: Mark): Tally {
    match m
    case NoMeeting => t
    case Unmarked => t.(met := t.met + 1, unmarked := t.unmarked + 1)
    case Present => t.(met := t.met + 1)
    case Coded(k) => WithCode(t.(met := t.met + 1, coded := true), k)
  }

  /** The tally of a date over cells in any order. */
  function TallyOf(cells: seq<Cell>, date: int): Tally {
    if cells == [] then NOTHING
    else
      var init, last := cells[..|cells| - 1], cells[|cells| - 1];
      if last.date == date then Plus(TallyOf(init, date), last.mark) else TallyOf(init, date)
  }

  function Flat(courses: seq<seq<Cell>>): seq<Cell> {
    if courses == [] then [] else Flat(courses[..|courses| - 1]) + courses[|courses| - 1]
  }

  ghost function Dates(cells: seq<Cell>): set<int> {
    set c | c in cells :: c.date
  }

  /** Every date of the page with its tally. */
  method TallyDays(courses: seq<seq<Cell>>) returns (out: map<int, Tally>)
    ensures out.Keys == Dates(Flat(courses))
    ensures forall d :: d in out ==> out[d] == TallyOf(Flat(courses), d)
  {
    out := map[];
    for i := 0 to |courses|
      invariant Counted(out, Flat(courses[..i]))
    {
      var course := courses[i];
      ghost var before := Flat(courses[..i]);
      assert courses[..i + 1][..i] == courses[..i];
      assert before + course[..0] == before;
      for j := 0 to |course|
        invariant Counted(out, before + course[..j])
      {
        var cell := course[j];
        CountOne(out, before + course[..j], cell);
        assert before + course[..j + 1] == before + course[..j] + [cell];
        var t := if cell.date in out then out[cell.date] else NOTHING;
        out := out[cell.date := Plus(t, cell.mark)];
      }
      assert course[..|course|] == course;
    }
    assert courses[..|courses|] == courses;
  }

  ghost predicate Counted(out: map<int, Tally>, cells: seq<Cell>) {
    out.Keys == Dates(cells) && forall d :: d in out ==> out[d] == TallyOf(cells, d)
  }

  lemma CountOne(out: map<int, Tally>, cells: seq<Cell>, cell: Cell)
    requires Counted(out, cells)
    ensures Counted(out[cell.date := Plus(if cell.date in out then out[cell.date] else NOTHING, cell.mark)], cells + [cell])
  {
    var more := cells + [cell];
    assert more[..|more| - 1] == cells;
    forall d ensures d in Dates(more) <==> d in Dates(cells) || d == cell.date {
      if d in Dates(cells) {
        var c :| c in cells && c.date == d;
        assert c in more;
      }
      assert more[|cells|] == cell;
    }
    if cell.date !in out {
      NotOnDate(cells, cell.date);
    }
  }

  lemma {:induction false} NotOnDate(cells: seq<Cell>, date: int)
    requires date !in Dates(cells)
    ensures TallyOf(cells, date) == NOTHING
  {
    if cells != [] {
      var init := cells[..|cells| - 1];
      assert forall c :: c in init ==> c in cells;
      assert cells[|cells| - 1] in cells;
      NotOnDate(init, date);
    }
  }

  // ---- Counts ----

  /** On every date, unmarked cells and codes of all kinds together never exceed the periods met; a day
      has a code exactly when it is coded, and unexcused ones only with codes. */
  lemma {:induction false} CountsFit(cells: seq<Cell>, date: int)
    ensures var t := TallyOf(cells, date);
      && t.unmarked + t.Codes() <= t.met
      && (t.coded <==> t.Codes() > 0)
      && (t.anyUnex ==> t.absUnex + t.late + t.leftEarly > 0)
  {
    if cells != [] {
      CountsFit(cells[..|cells| - 1], date);
    }
  }

  /** The cells of a date with one of some marks. */
  ghost function Places(cells: seq<Cell>, date: int, marks: set<Mark>): set<int> {
    set i | 0 <= i < |cells| && cells[i].date == date && cells[i].mark in marks
  }

  lemma PlacesNext(cells: seq<Cell>, date: int, marks: set<Mark>)
    ensures if cells == [] then Places(cells, date, marks) == {}
            else
              var last := cells[|cells| - 1];
              |Places(cells, date, marks)| == |Places(cells[..|cells| - 1], date, marks)| + if last.date == date && last.mark in marks then 1 else 0
  {
    if cells != [] {
      var init, n := cells[..|cells| - 1], |cells| - 1;
      var last := cells[n];
      assert forall i :: 0 <= i < n ==> init[i] == cells[i];
      assert Places(cells, date, marks) == Places(init, date, marks) + (if last.date == date && last.mark in marks then {n} else {});
    }
  }

  const UNEXCUSED: set<Mark> := {Coded(AbsenceUnexcused), Coded(LateUnexcused), Coded(LeftEarlyUnexcused)}

  const CODES: set<Mark> := UNEXCUSED + {Coded(AbsenceExcused), Coded(LateExcused), Coded(LeftEarlyExcused), Coded(Authorized), Coded(UnknownCode)}

  /** Each count is the number of the date's cells of its kinds. */
  lemma {:induction false} CountsMean(cells: seq<Cell>, date: int)
    ensures var t := TallyOf(cells, date);
      && t.met == |Places(cells, date, CODES + {Unmarked, Present})|
      && t.unmarked == |Places(cells, date, {Unmarked})|
      && t.absUnex == |Places(cells, date, {Coded(AbsenceUnexcused)})|
      && t.absEx == |Places(cells, date, {Coded(AbsenceExcused)})|
      && t.late == |Places(cells, date, {Coded(LateUnexcused), Coded(LateExcused)})|
      && t.leftEarly == |Places(cells, date, {Coded(LeftEarlyUnexcused), Coded(LeftEarlyExcused)})|
      && t.auth == |Places(cells, date, {Coded(Authorized)})|
      && t.unknown == |Places(cells, date, {Coded(UnknownCode)})|
      && (t.anyUnex <==> |Places(cells, date, UNEXCUSED)| > 0)
      && (t.coded <==> |Places(cells, date, CODES)| > 0)
  {
    hide Places;
    PlacesNext(cells, date, CODES + {Unmarked, Present});
    PlacesNext(cells, date, {Unmarked});
    PlacesNext(cells, date, {Coded(AbsenceUnexcused)});
    PlacesNext(cells, date, {Coded(AbsenceExcused)});
    PlacesNext(cells, date, {Coded(LateUnexcused), Coded(LateExcused)});
    PlacesNext(cells, date, {Coded(LeftEarlyUnexcused), Coded(LeftEarlyExcused)});
    PlacesNext(cells, date, {Coded(Authorized)});
    PlacesNext(cells, date, {Coded(UnknownCode)});
    PlacesNext(cells, date, UNEXCUSED);
    PlacesNext(cells, date, CODES);
    if cells != [] {
      CountsMean(cells[..|cells| - 1], date);
    }
  }

  function Sum(a: Tally, b: Tally): Tally {
    Tally(a.met + b.met, a.unmarked + b.unmarked, a.absUnex + b.absUnex, a.absEx + b.absEx, a.late + b.late, a.leftEarly + b.leftEarly,
          a.auth + b.auth, a.unknown + b.unknown, a.anyUnex || b.anyUnex, a.coded || b.coded)
  }

  lemma PlusIsSum(t: Tally, m: Mark)
    ensures Plus(t, m) == Sum(t, Plus(NOTHING, m))
  {}

  lemma PlusCommutes(t: Tally, a: Mark, b: Mark)
    ensures Plus(Plus(t, a), b) == Plus(Plus(t, b), a)
  {
    hide Plus;
    PlusIsSum(t, a);
    PlusIsSum(t, b);
    PlusIsSum(Plus(t, a), b);
    PlusIsSum(Plus(t, b), a);
  }

  /** A cell may be counted at any place. */
  lemma {:induction false} CountAnywhere(cells: seq<Cell>, i: nat, date: int)
    requires i < |cells|
    ensures TallyOf(cells, date) ==
            if cells[i].date == date then Plus(TallyOf(cells[..i] + cells[i + 1..], date), cells[i].mark)
            else TallyOf(cells[..i] + cells[i + 1..], date)
  {
    var rest := cells[..i] + cells[i + 1..];
    var last := cells[|cells| - 1];
    if i == |cells| - 1 {
      assert rest == cells[..|cells| - 1];
    } else {
      var init := cells[..|cells| - 1];
      CountAnywhere(init, i, date);
      assert rest[..|rest| - 1] == init[..i] + init[i + 1..] && rest[|rest| - 1] == last;
      PlusCommutes(TallyOf(init[..i] + init[i + 1..], date), cells[i].mark, last.mark);
    }
  }

  /** The tallies do not depend on the order of the courses or of their cells. */
  lemma {:induction false} OrderDoesNotMatter(a: seq<Cell>, b: seq<Cell>, date: int)
    requires multiset(a) == multiset(b)
    ensures TallyOf(a, date) == TallyOf(b, date)
    decreases |a|
  {
    if a == [] {
      assert |multiset(b)| == 0;
      assert b == [];
    } else {
      hide TallyOf;
      var n := |a| - 1;
      var last := a[n];
      WithoutOne(a, n);
      assert last in multiset(a) && last in multiset(b);
      var i :| 0 <= i < |b| && b[i] == last;
      WithoutOne(b, i);
      OrderDoesNotMatter(a[..n] + a[n + 1..], b[..i] + b[i + 1..], date);
      CountAnywhere(a, n, date);
      CountAnywhere(b, i, date);
    }
  }

  lemma WithoutOne(b: seq<Cell>, i: nat)
    requires i < |b|
    ensures multiset(b[..i] + b[i + 1..]) == multiset(b) - multiset{b[i]}
  {
    assert b == b[..i] + [b[i]] + b[i + 1..];
  }

  // ---- Classification ----

  datatype Class = FullDay | PartialDay | LateOrLeftEarly | OtherDay

  function Classification(t: Tally): Class {
    var marked, absences := t.met - t.unmarked, t.Absences();
    if absences >= 1 && absences == marked then FullDay
    else if absences >= 1 then PartialDay
    else if t.late + t.leftEarly >= 1 then LateOrLeftEarly
    else OtherDay
  }

  /** A cell of the date that is a marked period. */
  predicate MarkedOn(c: Cell, date: int) {
    c.date == date && (c.mark.Present? || c.mark.Coded?)
  }

  predicate AbsenceOn(c: Cell, date: int) {
    c.date == date && c.mark.Coded? && (c.mark.kind.AbsenceUnexcused? || c.mark.kind.AbsenceExcused?)
  }

  ghost predicate SomeAbsence(cells: seq<Cell>, date: int) {
    exists i :: 0 <= i < |cells| && AbsenceOn(cells[i], date)
  }

  ghost predicate AllAbsences(cells: seq<Cell>, date: int) {
    forall i :: 0 <= i < |cells| && MarkedOn(cells[i], date) ==> AbsenceOn(cells[i], date)
  }

  lemma LastCell(cells: seq<Cell>, date: int)
    requires cells != []
    ensures var init, last := cells[..|cells| - 1], cells[|cells| - 1];
      && (SomeAbsence(cells, date) <==> SomeAbsence(init, date) || AbsenceOn(last, date))
      && (AllAbsences(cells, date) <==> AllAbsences(init, date) && (MarkedOn(last, date) ==> AbsenceOn(last, date)))
  {
    hide AbsenceOn, MarkedOn;
    var init, n := cells[..|cells| - 1], |cells| - 1;
    assert forall i :: 0 <= i < n ==> init[i] == cells[i];
    if i: nat :| i < |init| && AbsenceOn(init[i], date) {
      assert AbsenceOn(cells[i], date);
    }
    if i: nat :| i < |init| && MarkedOn(init[i], date) && !AbsenceOn(init[i], date) {
      assert MarkedOn(cells[i], date) && !AbsenceOn(cells[i], date);
    }
  }

  lemma {:induction false} AbsencesAmongMarked(cells: seq<Cell>, date: int)
    ensures var t := TallyOf(cells, date);
      && t.unmarked <= t.met && t.Absences() <= t.met - t.unmarked
      && (t.Absences() == t.met - t.unmarked <==> AllAbsences(cells, date))
      && (t.Absences() >= 1 <==> SomeAbsence(cells, date))
  {
    hide SomeAbsence, AllAbsences;
    if cells == [] {
      NoCells(date);
    } else {
      AbsencesAmongMarked(cells[..|cells| - 1], date);
      LastCell(cells, date);
    }
  }

  lemma NoCells(date: int)
    ensures !SomeAbsence([], date) && AllAbsences([], date)
  {}

  /** A full day is one on which every marked period is an absence, and there is one; an absence on a
      day with another marked period makes a partial day. */
  lemma FullDayMeans(cells: seq<Cell>, date: int)
    ensures Classification(TallyOf(cells, date)).FullDay? <==>
      && (exists i :: 0 <= i < |cells| && AbsenceOn(cells[i], date))
      && (forall i :: 0 <= i < |cells| && MarkedOn(cells[i], date) ==> AbsenceOn(cells[i], date))
    ensures Classification(TallyOf(cells, date)).PartialDay? <==>
      && (exists i :: 0 <= i < |cells| && AbsenceOn(cells[i], date))
      && (exists i :: 0 <= i < |cells| && MarkedOn(cells[i], date) && !AbsenceOn(cells[i], date))
    ensures Classification(TallyOf(cells, date)).LateOrLeftEarly? <==>
      && (forall i :: 0 <= i < |cells| ==> !AbsenceOn(cells[i], date))
      && Places(cells, date, {Coded(LateUnexcused), Coded(LateExcused), Coded(LeftEarlyUnexcused), Coded(LeftEarlyExcused)}) != {}
  {
    AbsencesAmongMarked(cells, date);
    CountsMean(cells, date);
    LateOrEarly(cells, date);
  }

  lemma LateOrEarly(cells: seq<Cell>, date: int)
    ensures
      var late, early := Places(cells, date, {Coded(LateUnexcused), Coded(LateExcused)}),
                         Places(cells, date, {Coded(LeftEarlyUnexcused), Coded(LeftEarlyExcused)});
      var both := Places(cells, date, {Coded(LateUnexcused), Coded(LateExcused), Coded(LeftEarlyUnexcused), Coded(LeftEarlyExcused)});
      both == late + early && (both != {} <==> |late| + |early| >= 1)
  {
    var late, early := Places(cells, date, {Coded(LateUnexcused), Coded(LateExcused)}),
                       Places(cells, date, {Coded(LeftEarlyUnexcused), Coded(LeftEarlyExcused)});
    var both := Places(cells, date, {Coded(LateUnexcused), Coded(LateExcused), Coded(LeftEarlyUnexcused), Coded(LeftEarlyExcused)});
    assert both == late + early;
    assert |late| == 0 ==> late == {};
    assert |early| == 0 ==> early == {};
  }
}
