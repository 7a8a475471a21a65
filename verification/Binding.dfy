/** Each child's turn in a poll, and the binding of a child to the one student id its scores pages
    carry, against a portal that may serve any page at any time. */
module ChildBinding {
  import opened Checkpoints

  /** A student id; NONE is no id. */
  type Id = nat
  const NONE: Id := 0

  /** `configured` is the id in the configuration, NONE when there is none. */
  datatype Kid = Kid(name: nat, configured: Id)

  /** A scores page something was staged from: the child's turn it was staged in and the id it
      carried. */
  datatype Staged = Staged(kid: Kid, id: Id)

  /** What the configuration is checked for: names and configured ids are distinct. */
  ghost predicate Configured(kids: seq<Kid>) {
    forall i, j :: 0 <= i < j < |kids| ==>
      kids[i].name != kids[j].name && (kids[i].configured != NONE ==> kids[i].configured != kids[j].configured)
  }

  /** The child's bound id: configuration first, then what was learned. */
  function BoundId(m: map<nat, Id>, kid: Kid): Id {
    if kid.configured != NONE then kid.configured else if kid.name in m then m[kid.name] else NONE
  }

  /** No two children are bound to one id. */
  ghost predicate Distinct(kids: seq<Kid>, m: map<nat, Id>) {
    forall k, l :: k in kids && l in kids && k != l && BoundId(m, k) != NONE ==> BoundId(m, k) != BoundId(m, l)
  }

  /** The ids bound to the other children. */
  ghost function Others(kids: seq<Kid>, m: map<nat, Id>, kid: Kid): set<Id> {
    set k | k in kids && k.name != kid.name && BoundId(m, k) != NONE :: BoundId(m, k)
  }

  /** What a binding accepts of a turn's pages: each names a student, none another child's, and all
      the same one, the bound one if there is one. */
  ghost predicate Accepts(want: Id, others: set<Id>, pages: seq<Id>) {
    forall i :: 0 <= i < |pages| ==>
      && pages[i] != NONE && pages[i] !in others
      && (want != NONE ==> pages[i] == want)
      && pages[i] == pages[0]
  }

  /** One child's binding in one turn. */
  class Binding {
    var want: Id
    var others: set<Id>
    var seen: Id
    /** The ids put to it so far, all of which it accepted. */
    ghost var pages: seq<Id>

    ghost predicate Valid()
      reads this
    {
      && Accepts(want, others, pages) && NONE !in others
      && (want == NONE ==> seen == if pages == [] then NONE else pages[0])
    }

    constructor (kids: seq<Kid>, m: map<nat, Id>, kid: Kid)
      ensures Valid() && pages == [] && want == BoundId(m, kid) && others == Others(kids, m, kid)
    {
      want, seen, pages := BoundId(m, kid), NONE, [];
      others := {};
      new;
      for i := 0 to |kids|
        invariant want == BoundId(m, kid) && seen == NONE && pages == []
        invariant others == Others(kids[..i], m, kid)
      {
        assert kids[..i + 1] == kids[..i] + [kids[i]];
        if kids[i].name != kid.name {
          var id := BoundId(m, kids[i]);
          if id != NONE {
            others := others + {id};
          }
        }
      }
      assert kids[..|kids|] == kids;
    }

    /** Puts one page's id to the binding: accepted exactly when the turn's pages with this one are. */
    method Check(id: Id) returns (ok: bool)
      requires Valid()
      modifies this`seen, this`pages
      ensures Valid() && ok == Accepts(want, others, old(pages) + [id])
      ensures pages == if ok then old(pages) + [id] else old(pages)
    {
      ghost var more := pages + [id];
      assert id == NONE || id in others ==> !Accepts(want, others, more) by { assert more[|pages|] == id; }
      if id == NONE || id in others {
        return false;
      }
      if want != NONE {
        ok := id == want;
        assert !ok ==> !Accepts(want, others, more) by { assert more[|pages|] == id; }
      } else if seen == NONE {
        seen := id;
        ok := true;
      } else {
        ok := id == seen;
        assert !ok ==> !Accepts(want, others, more) by { assert more[|pages|] == id && more[0] == pages[0]; }
      }
      if ok {
        pages := more;
      }
    }

    /** Saves the id this turn's pages agreed on when the child has none yet. */
    method Learn(cp: Checkpoint<nat, Id>, kid: Kid) returns (ok: bool)
      requires Valid()
      modifies this`want, cp
      ensures want == old(want) || (old(want) == NONE && pages != [] && want == pages[0])
      ensures others == old(others) && pages == old(pages)
      ensures if old(want) == NONE && pages != [] then cp.memory == old(cp.memory)[kid.name := pages[0]] else cp.memory == old(cp.memory)
      ensures if ok then Valid() && (pages != [] ==> want == pages[0]) else want == old(want)
      ensures if old(want) == NONE && pages != [] then cp.stored == (if ok then cp.memory else old(cp.stored)) else ok && cp.stored == old(cp.stored)
    {
      if want != NONE || seen == NONE {
        return true;
      }
      if seen in others {
        assert false;
      }
      ok := cp.Save(kid.name, seen);
      if ok {
        want := seen;
      }
    }
  }

  // ---- What the portal answers in a turn ----

  /** The home page, selected for a child: as it should be, wrong for this child alone, wrong as a page,
      or with the session expired. */
  datatype Selection = Selected | NotThisKid | PageFailed | SelectionExpired

  datatype Outcome = Fine | Failed | SessionExpired

  /** A course's scores page and the lookup made from it; `interrupted` is a wait before the course that
      was broken off. */
  datatype Reply = Page(id: Id) | NoPage | PageExpired
  datatype Course = Course(interrupted: bool, scores: Reply, lookup: Reply)

  datatype Answers = Answers(select: Selection, extras: Outcome, courses: seq<Course>, confirm: Outcome)

  /** How a child's turn ended: read to the end, given up for this child, given up for the page or
      the connection, or with the session reported expired. */
  datatype Turn = Done | SkippedKid | Aborted | Expired

  /** What reading the courses comes to: the ids of the courses read, those of all pages accepted on the
      way, and whether a page was not accepted. */
  datatype Reading = Reading(turn: Turn, found: seq<Id>, pages: seq<Id>, rejected: bool)

  predicate Takes(want: Id, others: set<Id>, pages: seq<Id>, id: Id) {
    id != NONE && id !in others && (want != NONE ==> id == want) && (pages != [] ==> id == pages[0])
  }

  /** Each page is put to the binding, before its lookup and after it. */
  function ReadFrom(want: Id, others: set<Id>, first: bool, courses: seq<Course>, pages: seq<Id>, found: seq<Id>): Reading {
    if courses == [] then Reading(Done, found, pages, false)
    else if !first && courses[0].interrupted then Reading(SkippedKid, [], pages, false)
    else
      match courses[0].scores
      case PageExpired => Reading(Expired, [], pages, false)
      case NoPage => ReadFrom(want, others, false, courses[1..], pages, found)
      case Page(id) =>
        if !Takes(want, others, pages, id) then Reading(SkippedKid, [], pages, true)
        else
          match courses[0].lookup
          case PageExpired => Reading(Expired, [], pages + [id], false)
          case NoPage => ReadFrom(want, others, false, courses[1..], pages + [id], found)
          case Page(after) =>
            if !Takes(want, others, pages + [id], after) then Reading(SkippedKid, [], pages + [id], true)
            else ReadFrom(want, others, false, courses[1..], pages + [id, after], found + [after])
  }

  lemma TakesIsAccepts(want: Id, others: set<Id>, pages: seq<Id>, id: Id)
    requires Accepts(want, others, pages)
    ensures Takes(want, others, pages, id) <==> Accepts(want, others, pages + [id])
  {
    var more := pages + [id];
    assert more[|pages|] == id && (pages != [] ==> more[0] == pages[0]);
  }

  /** Whatever the portal answers, the pages accepted in a turn are one student's, and so is all that is
      found. */
  lemma {:induction false} ReadIsOneStudent(want: Id, others: set<Id>, first: bool, courses: seq<Course>, pages: seq<Id>, found: seq<Id>)
    requires Accepts(want, others, pages) && (found != [] ==> pages != []) && forall i :: 0 <= i < |found| ==> found[i] == pages[0]
    ensures var r := ReadFrom(want, others, first, courses, pages, found);
      && Accepts(want, others, r.pages) && pages <= r.pages && (r.turn.Done? ==> !r.rejected)
      && (r.found != [] ==> r.pages != []) && (forall i :: 0 <= i < |r.found| ==> r.found[i] == r.pages[0])
    decreases |courses|
  {
    if courses != [] && courses[0].scores.Page? {
      TakesIsAccepts(want, others, pages, courses[0].scores.id);
      if courses[0].lookup.Page? && Takes(want, others, pages, courses[0].scores.id) {
        var id, after := courses[0].scores.id, courses[0].lookup.id;
        TakesIsAccepts(want, others, pages + [id], after);
        assert pages + [id] + [after] == pages + [id, after];
        if Takes(want, others, pages + [id], after) {
          ReadIsOneStudent(want, others, false, courses[1..], pages + [id, after], found + [after]);
        }
      } else if courses[0].lookup.NoPage? && Takes(want, others, pages, courses[0].scores.id) {
        ReadIsOneStudent(want, others, false, courses[1..], pages + [courses[0].scores.id], found);
      }
    } else if courses != [] {
      ReadIsOneStudent(want, others, false, courses[1..], pages, found);
    }
  }

  /** Nothing is found unless every course was read: then each page that came names the one student. */
  lemma {:induction false} DoneReadsAll(want: Id, others: set<Id>, first: bool, courses: seq<Course>, pages: seq<Id>, found: seq<Id>)
    requires Accepts(want, others, pages)
    ensures var r := ReadFrom(want, others, first, courses, pages, found);
      r.turn.Done? ==> forall i :: 0 <= i < |courses| ==>
        && !courses[i].scores.PageExpired? && ((first && i == 0) || !courses[i].interrupted)
        && (courses[i].scores.Page? ==> r.pages != [] && courses[i].scores.id == r.pages[0] && !courses[i].lookup.PageExpired?)
        && (courses[i].scores.Page? && courses[i].lookup.Page? ==> courses[i].lookup.id == r.pages[0])
    ensures var r := ReadFrom(want, others, first, courses, pages, found); !r.turn.Done? ==> r.found == []
    ensures var r := ReadFrom(want, others, first, courses, pages, found); pages != [] ==> r.pages != [] && r.pages[0] == pages[0]
    decreases |courses|
  {
    if courses != [] {
      var c := courses[0];
      assert forall i :: 1 <= i < |courses| ==> courses[i] == courses[1..][i - 1];
      if c.scores.Page? && Takes(want, others, pages, c.scores.id) {
        TakesIsAccepts(want, others, pages, c.scores.id);
        if c.lookup.NoPage? {
          DoneReadsAll(want, others, false, courses[1..], pages + [c.scores.id], found);
        } else if c.lookup.Page? && Takes(want, others, pages + [c.scores.id], c.lookup.id) {
          TakesIsAccepts(want, others, pages + [c.scores.id], c.lookup.id);
          assert pages + [c.scores.id] + [c.lookup.id] == pages + [c.scores.id, c.lookup.id];
          DoneReadsAll(want, others, false, courses[1..], pages + [c.scores.id, c.lookup.id], found + [c.lookup.id]);
        }
      } else if c.scores.NoPage? {
        DoneReadsAll(want, others, false, courses[1..], pages, found);
      }
    }
  }

  /** How the turn goes up to the binding: Done when all was read and the selection confirmed. */
  function TurnOf(a: Answers, r: Reading): Turn {
    if a.select.SelectionExpired? then Expired
    else if a.select.NotThisKid? then SkippedKid
    else if a.select.PageFailed? then Aborted
    else if a.extras.SessionExpired? then Expired
    else if a.extras.Failed? then SkippedKid
    else if !r.turn.Done? then r.turn
    else if a.confirm.SessionExpired? then Expired
    else if a.confirm.Failed? then SkippedKid
    else Done
  }

  /** When every page of a turn names one student, that is read to the end: one id for each course. */
  lemma {:induction false} GoodPagesAreRead(want: Id, others: set<Id>, first: bool, courses: seq<Course>, pages: seq<Id>, found: seq<Id>, id: Id)
    requires id != NONE && id !in others && (want == NONE || want == id)
    requires (forall i :: 0 <= i < |pages| ==> pages[i] == id) && forall i :: 0 <= i < |found| ==> found[i] == id
    requires forall i :: 0 <= i < |courses| ==> courses[i] == Course(courses[i].interrupted, Page(id), Page(id))
    requires forall i :: 0 <= i < |courses| ==> courses[i].interrupted ==> first && i == 0
    ensures var r := ReadFrom(want, others, first, courses, pages, found);
      r.turn.Done? && |r.found| == |found| + |courses| && forall i :: 0 <= i < |r.found| ==> r.found[i] == id
    decreases |courses|
  {
    if courses != [] {
      assert forall i :: 1 <= i < |courses| ==> courses[i] == courses[1..][i - 1];
      assert Takes(want, others, pages, id) && Takes(want, others, pages + [id], id);
      GoodPagesAreRead(want, others, false, courses[1..], pages + [id, id], found + [id], id);
    }
  }

  /** A turn in which nothing fails and every page names one student, who is nobody else's and no other
      than the one that was configured or else learned for the child, stages every course with that id. */
  lemma GoodTurnStagesAll(kids: seq<Kid>, m: map<nat, Id>, kid: Kid, a: Answers, id: Id)
    requires a.select.Selected? && a.extras.Fine? && a.confirm.Fine? && id != NONE
    requires forall i :: 0 <= i < |a.courses| ==> a.courses[i] == Course(a.courses[i].interrupted, Page(id), Page(id))
    requires forall i :: 0 < i < |a.courses| ==> !a.courses[i].interrupted
    requires if kid.configured != NONE then kid.configured == id else kid.name in m ==> m[kid.name] == id || m[kid.name] == NONE
    requires forall k :: k in kids && k.name != kid.name ==> (if k.configured != NONE then k.configured != id else k.name in m ==> m[k.name] != id)
    ensures var r := ReadFrom(BoundId(m, kid), Others(kids, m, kid), true, a.courses, [], []);
      && TurnOf(a, r).Done? && |StagedOf(kid, r.found)| == |a.courses|
      && forall i :: 0 <= i < |a.courses| ==> StagedOf(kid, r.found)[i] == Staged(kid, id)
  {
    assert forall k :: k in kids && k.name != kid.name ==> BoundId(m, k) != id;
    GoodPagesAreRead(BoundId(m, kid), Others(kids, m, kid), true, a.courses, [], [], id);
  }

  function StagedOf(kid: Kid, found: seq<Id>): seq<Staged> {
    seq(|found|, i requires 0 <= i < |found| => Staged(kid, found[i]))
  }

  // ---- Polls ----

  /** Everything staged from a scores page is for the child that is bound to the id it carried. */
  ghost predicate Bound(staged: seq<Staged>, kids: seq<Kid>, m: map<nat, Id>) {
    forall s :: s in staged ==> s.kid in kids && s.id != NONE && BoundId(m, s.kid) == s.id
  }

  /** Every child has the same binding in the two. */
  ghost predicate SameBindings(kids: seq<Kid>, m: map<nat, Id>, m': map<nat, Id>) {
    forall k :: k in kids ==> BoundId(m, k) == BoundId(m', k)
  }

  class Poller {
    const kids: seq<Kid>
    const cp: Checkpoint<nat, Id>
    /** What has been staged from scores pages, over all polls and processes. */
    var staged: seq<Staged>
    /** A process has started without a binding its predecessor had. */
    ghost var lost: bool

    ghost predicate Valid()
      reads this, cp
    {
      && Configured(kids) && Distinct(kids, cp.memory) && Distinct(kids, cp.stored)
      && (!lost ==> Bound(staged, kids, cp.memory))
    }

    constructor (kids: seq<Kid>, cp: Checkpoint<nat, Id>)
      requires Configured(kids) && Distinct(kids, cp.memory) && Distinct(kids, cp.stored)
      ensures Valid() && staged == [] && this.kids == kids && this.cp == cp && !lost
    {
      this.kids, this.cp, staged, lost := kids, cp, [], false;
    }

    /** A new process, which knows what was stored. */
    method Restart()
      requires Valid()
      modifies this`lost, cp`memory
      ensures Valid() && cp.memory == cp.stored
      ensures lost == (old(lost) || !SameBindings(kids, old(cp.memory), cp.stored))
    {
      lost := lost || !SameBindings(kids, cp.memory, cp.stored);
      cp.Restart();
    }

    /** The read half of the assignments. */
    method ReadAssignments(b: Binding, courses: seq<Course>) returns (turn: Turn, found: seq<Id>, ghost rejected: bool)
      requires b.Valid() && b.pages == []
      modifies b`seen, b`pages
      ensures b.Valid() && b.want == old(b.want) && b.others == old(b.others)
      ensures Reading(turn, found, b.pages, rejected) == ReadFrom(b.want, b.others, true, courses, [], [])
    {
      turn, found, rejected := Done, [], false;
      var i := 0;
      while i < |courses|
        invariant 0 <= i <= |courses| && b.Valid() && turn.Done? && !rejected
        invariant ReadFrom(b.want, b.others, i == 0, courses[i..], b.pages, found) == ReadFrom(b.want, b.others, true, courses, [], [])
      {
        var c := courses[i];
        assert courses[i..][0] == c && courses[i..][1..] == courses[i + 1..];
        if i > 0 && c.interrupted {
          return SkippedKid, [], rejected;
        }
        i := i + 1;
        if c.scores.PageExpired? {
          return Expired, [], rejected;
        }
        if c.scores.NoPage? {
          continue;
        }
        ghost var pages := b.pages;
        TakesIsAccepts(b.want, b.others, pages, c.scores.id);
        var ok := b.Check(c.scores.id);
        if !ok {
          return SkippedKid, [], true;
        }
        if c.lookup.PageExpired? {
          return Expired, [], rejected;
        }
        if c.lookup.NoPage? {
          continue;
        }
        TakesIsAccepts(b.want, b.others, b.pages, c.lookup.id);
        ok := b.Check(c.lookup.id);
        if !ok {
          return SkippedKid, [], true;
        }
        assert pages + [c.scores.id] + [c.lookup.id] == pages + [c.scores.id, c.lookup.id];
        found := found + [c.lookup.id];
      }
    }

    /** What reading this child's courses comes to now. */
    ghost function Read(kid: Kid, a: Answers): Reading
      reads cp
    {
      ReadFrom(BoundId(cp.memory, kid), Others(kids, cp.memory, kid), true, a.courses, [], [])
    }

    /** One child's turn: select, read, confirm the selection, learn the id, and only then stage. */
    method PollKid(kid: Kid, a: Answers) returns (turn: Turn, saved: bool)
      requires Valid() && kid in kids
      modifies this`staged, cp
      ensures Valid()
      ensures var r := old(Read(kid, a));
        if !TurnOf(a, r).Done? then turn == TurnOf(a, r) && staged == old(staged) && cp.memory == old(cp.memory) && cp.stored == old(cp.stored)
        else
          && (if BoundId(old(cp.memory), kid) == NONE && r.pages != [] then cp.memory == old(cp.memory)[kid.name := r.pages[0]]
              else saved && cp.memory == old(cp.memory))
          && turn == (if saved then Done else SkippedKid)
          && staged == (if saved then old(staged) + StagedOf(kid, r.found) else old(staged))
          && cp.stored == (if saved && cp.memory != old(cp.memory) then cp.memory else old(cp.stored))
      ensures old(Read(kid, a)).rejected ==> staged == old(staged) && cp.memory == old(cp.memory) && cp.stored == old(cp.stored)
    {
      hide Distinct, Configured, Others;
      ghost var r := Read(kid, a);
      ReadIsOneStudent(BoundId(cp.memory, kid), Others(kids, cp.memory, kid), true, a.courses, [], []);
      saved := true;
      match a.select {
        case Selected =>
        case SelectionExpired => return Expired, saved;
        case NotThisKid => return SkippedKid, saved;
        case PageFailed => return Aborted, saved;
      }
      if !a.extras.Fine? {
        return if a.extras.Failed? then SkippedKid else Expired, saved;
      }
      var b := new Binding(kids, cp.memory, kid);
      var found;
      ghost var rejected;
      turn, found, rejected := ReadAssignments(b, a.courses);
      if !turn.Done? {
        return;
      }
      if !a.confirm.Fine? {
        return if a.confirm.Failed? then SkippedKid else Expired, saved;
      }
      ghost var m := cp.memory;
      saved := b.Learn(cp, kid);
      if BoundId(m, kid) == NONE && r.pages != [] {
        LearnKeeps(kids, m, kid, r.pages, if lost then [] else staged);
      }
      if !saved {
        turn := SkippedKid;
        return;
      }
      StagedIsBound(kids, m, cp.memory, kid, r.pages, found);
      staged := staged + StagedOf(kid, found);
    }

    /** Every child in turn; a failure that is not about the child ends the poll. */
    method PollKids(answers: seq<Answers>)
      requires Valid() && |answers| == |kids|
      modifies this`staged, cp
      ensures Valid() && old(staged) <= staged
    {
      for i := 0 to |kids|
        invariant Valid() && old(staged) <= staged
      {
        var turn, saved := PollKid(kids[i], answers[i]);
        if turn.Expired? || turn.Aborted? {
          return;
        }
      }
    }
  }

  lemma StagedIsBound(kids: seq<Kid>, m: map<nat, Id>, m': map<nat, Id>, kid: Kid, pages: seq<Id>, found: seq<Id>)
    requires kid in kids && Accepts(BoundId(m, kid), Others(kids, m, kid), pages)
    requires (found != [] ==> pages != []) && forall i :: 0 <= i < |found| ==> found[i] == pages[0]
    requires m' == if BoundId(m, kid) == NONE && pages != [] then m[kid.name := pages[0]] else m
    ensures Bound(StagedOf(kid, found), kids, m')
  {
    hide Others;
    if pages != [] {
      assert pages[0] != NONE;
    }
  }

  /** What happens to a poller: a poll, with the portal's answers to each child's turn, or a restart. */
  datatype Event = PollAll(answers: seq<Answers>) | RestartProcess

  /** Whatever the portal answers and whatever could be stored, as long as every process starts with its
      predecessor's bindings everything ever staged is for the child bound to the id it carried.
      `starts` are the memory and the store at each restart. */
  method Life(p: Poller, events: seq<Event>) returns (starts: seq<(map<nat, Id>, map<nat, Id>)>)
    requires p.Valid() && p.staged == [] && !p.lost
    requires forall e :: e in events && e.PollAll? ==> |e.answers| == |p.kids|
    modifies p, p.cp
    ensures p.Valid()
    ensures (forall i :: 0 <= i < |starts| ==> SameBindings(p.kids, starts[i].0, starts[i].1)) ==> !p.lost && Bound(p.staged, p.kids, p.cp.memory)
  {
    hide SameBindings, Distinct, Configured, Bound;
    starts := [];
    for i := 0 to |events|
      invariant p.Valid()
      invariant p.lost ==> exists k :: 0 <= k < |starts| && !SameBindings(p.kids, starts[k].0, starts[k].1)
    {
      match events[i] {
        case PollAll(answers) =>
          assert events[i] in events;
          p.PollKids(answers);
        case RestartProcess =>
          ghost var was, lost := starts, p.lost;
          starts := starts + [(p.cp.memory, p.cp.stored)];
          p.Restart();
          if lost {
            var k :| 0 <= k < |was| && !SameBindings(p.kids, was[k].0, was[k].1);
            assert starts[k] == was[k];
          } else if p.lost {
            assert !SameBindings(p.kids, starts[|was|].0, starts[|was|].1);
          }
      }
    }
  }

  /** A learned id is nobody else's. */
  lemma LearnKeeps(kids: seq<Kid>, m: map<nat, Id>, kid: Kid, pages: seq<Id>, staged: seq<Staged>)
    requires Configured(kids) && Distinct(kids, m) && kid in kids && BoundId(m, kid) == NONE
    requires pages != [] && Accepts(NONE, Others(kids, m, kid), pages) && Bound(staged, kids, m)
    ensures Distinct(kids, m[kid.name := pages[0]]) && Bound(staged, kids, m[kid.name := pages[0]])
    ensures BoundId(m[kid.name := pages[0]], kid) == pages[0]
  {}

  /** Over everything ever staged from scores pages: one id for each child, and different ids for
      different children. */
  lemma OneIdPerChild(p: Poller, i: nat, j: nat)
    requires p.Valid() && !p.lost && i < |p.staged| && j < |p.staged|
    ensures p.staged[i].kid == p.staged[j].kid <==> p.staged[i].id == p.staged[j].id
  {
    assert p.staged[i] in p.staged && p.staged[j] in p.staged;
  }

  /** A process that starts with other bindings than its predecessor had takes another student's page for
      a bound child, and only such a process does. */
  lemma RestartMayRebind(kids: seq<Kid>, m: map<nat, Id>, stored: map<nat, Id>, kid: Kid)
    requires Distinct(kids, stored) && kid in kids && BoundId(m, kid) != NONE
    requires forall i, j :: 0 <= i < j < |kids| ==> kids[i].name != kids[j].name
    ensures (exists id :: id != BoundId(m, kid) && Takes(BoundId(stored, kid), Others(kids, stored, kid), [], id))
            <==> BoundId(stored, kid) != BoundId(m, kid)
  {
    var others := Others(kids, stored, kid);
    if BoundId(stored, kid) == NONE {
      var id := AnotherId(others + {BoundId(m, kid), NONE});
      assert Takes(NONE, others, [], id);
    } else if BoundId(stored, kid) != BoundId(m, kid) {
      assert Takes(BoundId(stored, kid), others, [], BoundId(stored, kid));
    }
  }

  lemma {:induction false} AnotherId(ids: set<Id>) returns (id: Id)
    ensures id !in ids && forall x :: x in ids ==> x < id
  {
    id := 0;
    var rest := ids;
    while rest != {}
      invariant rest <= ids && forall x :: x in ids && x !in rest ==> x < id
    {
      var x :| x in rest;
      id := if x < id then id else x + 1;
      rest := rest - {x};
    }
  }

  function Course1(id: Id): Answers {
    Answers(Selected, Fine, [Course(false, Page(id), Page(id))], Fine)
  }

  lemma ReadsOne(want: Id, others: set<Id>, id: Id)
    requires id != NONE && id !in others && (want == NONE || want == id)
    ensures ReadFrom(want, others, true, Course1(id).courses, [], []) == Reading(Done, [id], [id, id], false)
    ensures TurnOf(Course1(id), Reading(Done, [id], [id, id], false)) == Done
  {
    var courses := Course1(id).courses;
    assert courses[1..] == [] && [] + [id] == [id] && [] + [id, id] == [id, id];
  }

  /** A run in which that happens: a turn learns the id 10 and cannot save it; it stages nothing, but the
      next poll of the same process stages with it. After a restart the child has no binding and the
      portal's pages carry 20: learned, saved and staged. */
  method UnstoredBindingIsLost(cp: Checkpoint<nat, Id>) returns (p: Poller, first: bool, last: bool)
    requires cp.memory == cp.stored == map[]
    modifies cp
    ensures !first && last ==> p.staged == [Staged(Kid(1, NONE), 10), Staged(Kid(1, NONE), 20)]
  {
    var kid := Kid(1, NONE);
    p := new Poller([kid], cp);
    ghost var m := cp.memory;
    assert Others([kid], m, kid) == {} && Others([kid], m[1 := 10], kid) == {};
    ReadsOne(NONE, {}, 10);
    ReadsOne(10, {}, 10);
    ReadsOne(NONE, {}, 20);
    var turn, saved;
    turn, first := p.PollKid(kid, Course1(10));
    if first {
      last := false;
      return;
    }
    turn, saved := p.PollKid(kid, Course1(10));
    assert p.staged == StagedOf(kid, [10]) == [Staged(kid, 10)];
    p.Restart();
    turn, last := p.PollKid(kid, Course1(20));
    assert StagedOf(kid, [20]) == [Staged(kid, 20)];
  }
}
