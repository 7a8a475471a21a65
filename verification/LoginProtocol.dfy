/** What holds in every interleaving of login runs that share a record. */
module LoginProtocol {
  import opened Numbers
  import opened Options
  import opened LoginRecord

  // ---- What the timing and the clock are relied on for ----

  /** No run is about to count the marker of one that is still at work on it. */
  ghost predicate NoneTooLate(w: World) {
    forall i :: 0 <= i < |w.runs| && w.runs[i].Writing? && w.runs[i].kind.Consuming? && w.runs[i].ver == w.version ==> !AnyHolds(w)
  }

  /** No run that is about to read back whether its marker is in the record would find another's there. */
  ghost predicate NoMixUp(w: World) {
    forall i :: 0 <= i < |w.runs| && w.runs[i].ReadingBack? && w.runs[i].kind.Marking? && w.record == w.runs[i].goal ==> w.author == i
  }

  /** No run outlives the freshness of its own marker. */
  ghost predicate Timely(w: World) {
    forall i :: 0 <= i < |w.runs| && Holds(w.runs[i]) && w.runs[i].base.marker.Some? ==>
      w.clock < w.runs[i].base.marker.value * SECOND + FRESH
  }

  /** No two runs have tried to write the same marker record. */
  ghost predicate NoTwins(w: World) {
    forall i, j, r :: (i, r) in w.attempts && (j, r) in w.attempts ==> i == j
  }

  /** At most one run is between its marker and its outcome. */
  ghost predicate AtMostOne(w: World) {
    forall i, j :: 0 <= i < |w.runs| && 0 <= j < |w.runs| && Holds(w.runs[i]) && Holds(w.runs[j]) ==> i == j
  }

  /** Where runs begin: the record may hold anything a run or an operator left, but for a count that
      ought to have set the latch and a marker from the future. */
  ghost predicate Init(w: World) {
    && (forall i :: 0 <= i < |w.runs| ==> w.runs[i] == Idle)
    && w.author == -1 && w.bad == 0 && !w.lost && w.attempts == {}
    && (w.record.latch.Open? ==> w.record.unconfirmed < MAX_UNCONFIRMED)
    && (w.record.marker.Some? ==> w.record.marker.value * SECOND <= w.clock)
  }

  // ---- The invariant ----

  /** What a run's goal is to what it read. */
  ghost predicate GoalOk(kind: Kind, base: Record, goal: Record, mine: nat) {
    match kind
    case Consuming =>
      && base.marker.Some? && goal.marker.None? && goal.unconfirmed == base.unconfirmed + 1
      && (if base.latch.Blocked? then goal.latch == base.latch && goal.fingerprint == base.fingerprint
          else if goal.unconfirmed >= MAX_UNCONFIRMED then Latched(goal, mine)
          else goal.latch.Open? && goal.fingerprint == base.fingerprint)
    case Serving =>
      base.marker.None? && !Latched(base, mine) && goal == Unlatched(base).(served := goal.served)
    case Marking =>
      && base.marker.None? && !Latched(base, mine) && goal.marker.Some? && goal.fingerprint == mine
      && goal.latch.Open? && goal.unconfirmed == Unlatched(base).unconfirmed
    case Recording(o) =>
      && MarkedOk(base, mine) && goal.marker.None? && goal.fingerprint == mine
      && (match o
          case Rejected => Latched(goal, mine)
          case Unconfirmed => goal.unconfirmed == base.unconfirmed + 1
                              && (if goal.unconfirmed >= MAX_UNCONFIRMED then Latched(goal, mine) else goal.latch.Open?)
          case Confirmed => goal.unconfirmed == 0 && goal.latch.Open?
          case _ => goal.unconfirmed == base.unconfirmed && goal.latch.Open?)
  }

  /** A record with a marker of these credentials. */
  ghost predicate MarkedOk(r: Record, mine: nat) {
    r.marker.Some? && r.fingerprint == mine && r.latch.Open?
  }

  ghost predicate Knows(pc: Pc) {
    !pc.Idle? && !pc.Gone?
  }

  ghost predicate Writes(pc: Pc) {
    pc.Writing? || pc.ReadingBack?
  }

  /** One run, on its own. */
  ghost predicate PcOk(pc: Pc, i: int, clock: int, attempts: set<(int, Record)>, mine: nat) {
    && (Knows(pc) && pc.base.marker.Some? ==> pc.base.marker.value * SECOND <= clock)
    && (pc.Latching? || pc.Deciding? ==> pc.base.marker.None?)
    && (pc.Deciding? ==> !Latched(pc.base, mine))
    && (pc.LoggingIn? ==> MarkedOk(pc.base, mine) && (i, pc.base) in attempts)
    && (Writes(pc) ==>
          && GoalOk(pc.kind, pc.base, pc.goal, mine)
          && (pc.goal.marker.Some? ==> pc.goal.marker.value * SECOND <= clock)
          && (pc.kind.Consuming? ==> pc.base.marker.value * SECOND + FRESH <= clock)
          && (pc.kind.Marking? ==> (i, pc.goal) in attempts))
  }

  /** One run and the record. */
  ghost predicate RunOk(w: World, i: int, mine: nat)
    requires 0 <= i < |w.runs|
  {
    var pc := w.runs[i];
    && PcOk(pc, i, w.clock, w.attempts, mine)
    && (Knows(pc) ==>
          && pc.ver <= w.version
          && (pc.ver == w.version ==> pc.base == w.record)
          && (w.author == -1 ==> pc.ver == w.version))
    && (Writes(pc) && pc.applied ==> pc.ver < w.version)
    && (Holds(pc) ==> pc.ver == w.version && w.author == i && !w.lost)
  }

  ghost predicate RunsOk(w: World, mine: nat) {
    forall i :: 0 <= i < |w.runs| ==> RunOk(w, i, mine)
  }

  /** The record and the account of the login phases. */
  ghost predicate RecordOk(w: World, mine: nat) {
    && (w.record.latch.Open? ==> w.record.unconfirmed < MAX_UNCONFIRMED)
    && (w.record.marker.Some? ==> w.record.marker.value * SECOND <= w.clock)
    && (w.record.marker.Some? && w.author != -1 ==> (w.author, w.record) in w.attempts)
    && -1 <= w.author < |w.runs|
    && (w.lost ==> MarkedOk(w.record, mine) && w.author != -1 && w.runs[w.author].Gone?)
    && (w.bad > 0 ==> w.record.fingerprint == mine)
    && (Latched(w.record, mine) || w.bad <= w.record.unconfirmed + (if w.lost then 1 else 0))
    && w.bad <= 2
  }

  /** No login can follow this record: the latch is set, or the marker is that of a login that the
      next run will count as the second without a session. */
  ghost predicate Sealed(r: Record, mine: nat) {
    Latched(r, mine) || (MarkedOk(r, mine) && r.unconfirmed + 1 >= MAX_UNCONFIRMED)
  }

  /** A run that knows only what was written since two bad phases in a row is on its way out. */
  ghost predicate OnItsWayOut(pc: Pc, sealed: nat, mine: nat) {
    Knows(pc) && pc.ver >= sealed ==>
      && Sealed(pc.base, mine)
      && (pc.Read? || pc.Latching? || (Writes(pc) && pc.kind.Consuming?))
  }

  ghost predicate SealOk(w: World, mine: nat) {
    w.bad == 2 ==>
      && w.version >= w.sealed && Sealed(w.record, mine) && !AnyHolds(w)
      && forall i :: 0 <= i < |w.runs| ==> OnItsWayOut(w.runs[i], w.sealed, mine)
  }

  ghost predicate AnyHolds(w: World) {
    exists i :: 0 <= i < |w.runs| && Holds(w.runs[i])
  }

  ghost predicate Inv(w: World, mine: nat) {
    RunsOk(w, mine) && RecordOk(w, mine) && SealOk(w, mine)
  }

  lemma InitInv(w: World, mine: nat)
    requires Init(w)
    ensures Inv(w, mine)
  {}

  lemma InvExcludes(w: World, mine: nat)
    requires Inv(w, mine)
    ensures AtMostOne(w) && w.bad <= 2
  {
    forall i, j | 0 <= i < |w.runs| && 0 <= j < |w.runs| && Holds(w.runs[i]) && Holds(w.runs[j]) ensures i == j {
      assert RunOk(w, i, mine) && RunOk(w, j, mine);
    }
  }

  /** Runs that do not outlive their markers are not too late, and those whose markers differ are not
      mixed up. */
  lemma TimelyIsEnough(w: World, mine: nat)
    requires Inv(w, mine)
    ensures Timely(w) ==> NoneTooLate(w)
    ensures NoTwins(w) ==> NoMixUp(w)
  {
    if Timely(w) {
      forall i | 0 <= i < |w.runs| && w.runs[i].Writing? && w.runs[i].kind.Consuming? && w.runs[i].ver == w.version ensures !AnyHolds(w) {
        forall j | 0 <= j < |w.runs| ensures !Holds(w.runs[j]) {
          assert RunOk(w, i, mine) && RunOk(w, j, mine);
        }
      }
    }
    if NoTwins(w) {
      DifferentIsEnough(w, mine);
    }
  }

  lemma DifferentIsEnough(w: World, mine: nat)
    requires Inv(w, mine) && NoTwins(w)
    ensures NoMixUp(w)
  {
    forall i | 0 <= i < |w.runs| && w.runs[i].ReadingBack? && w.runs[i].kind.Marking? && w.record == w.runs[i].goal ensures w.author == i {
      assert RunOk(w, i, mine);
    }
  }

  lemma HolderIsAuthor(w: World, j: int, mine: nat)
    requires Inv(w, mine) && 0 <= j < |w.runs| && Holds(w.runs[j])
    ensures w.author == j
  {
    assert RunOk(w, j, mine);
  }

  // ---- Each step keeps it ----

  lemma TickKeeps(w: World, d: nat, mine: nat)
    requires Inv(w, mine)
    ensures Inv(w.(clock := w.clock + d), mine)
  {
    var v := w.(clock := w.clock + d);
    forall i | 0 <= i < |v.runs| ensures RunOk(v, i, mine) {
      assert RunOk(w, i, mine);
    }
    assert AnyHolds(v) ==> AnyHolds(w);
  }

  /** A run moves on without writing. */
  lemma MoveKeeps(w: World, i: int, pc: Pc, attempts: set<(int, Record)>, mine: nat)
    requires Inv(w, mine) && 0 <= i < |w.runs| && w.attempts <= attempts
    requires PcOk(pc, i, w.clock, attempts, mine)
    requires !w.runs[i].Gone? && (Holds(w.runs[i]) <==> Holds(pc))
    requires Knows(pc) ==> pc.ver <= w.version && (pc.ver == w.version ==> pc.base == w.record) && (w.author == -1 ==> pc.ver == w.version)
    requires Writes(pc) && pc.applied ==> pc.ver < w.version
    requires Holds(pc) ==> pc.ver == w.version && w.author == i && !w.lost
    requires w.bad == 2 ==> OnItsWayOut(pc, w.sealed, mine)
    ensures Inv(With(w, i, pc).(attempts := attempts), mine)
  {
    hide GoalOk, MarkedOk, Latched, Sealed;
    var v := With(w, i, pc).(attempts := attempts);
    forall j | 0 <= j < |v.runs| ensures RunOk(v, j, mine) {
      assert RunOk(w, j, mine);
    }
    assert AnyHolds(v) ==> AnyHolds(w);
  }

  lemma ReadKeeps(w: World, i: int, mine: nat)
    requires Inv(w, mine) && Enabled(w, i, ReadRecord, mine)
    ensures Inv(Next(w, i, ReadRecord, mine), mine)
  {
    MoveKeeps(w, i, Read(w.record, w.version), w.attempts, mine);
  }

  lemma CheckKeeps(w: World, i: int, mine: nat)
    requires Inv(w, mine) && Enabled(w, i, Check, mine)
    ensures Inv(Next(w, i, Check, mine), mine)
  {
    assert RunOk(w, i, mine);
    MoveKeeps(w, i, Next(w, i, Check, mine).runs[i], w.attempts, mine);
  }

  lemma DecideKeeps(w: World, i: int, a: Action, mine: nat)
    requires Inv(w, mine) && Enabled(w, i, a, mine) && (a.Pass? || a.Serve? || a.Mark? || a.EndLogin?)
    ensures Inv(Next(w, i, a, mine), mine)
  {
    assert RunOk(w, i, mine);
    var v := Next(w, i, a, mine);
    MoveKeeps(w, i, v.runs[i], v.attempts, mine);
  }

  /** A run that ends. Holding the marker, it leaves a login whose outcome nobody recorded. */
  lemma QuitKeeps(w: World, i: int, mine: nat)
    requires Inv(w, mine) && 0 <= i < |w.runs| && Knows(w.runs[i])
    ensures Inv(Quit(w, i), mine)
  {
    assert RunOk(w, i, mine);
    if Holds(w.runs[i]) {
      QuitHolding(w, i, mine);
    } else {
      MoveKeeps(w, i, Gone, w.attempts, mine);
    }
  }

  lemma QuitHolding(w: World, i: int, mine: nat)
    requires Inv(w, mine) && 0 <= i < |w.runs| && Holds(w.runs[i])
    ensures Inv(Quit(w, i), mine)
  {
    var v := Quit(w, i);
    assert RunOk(w, i, mine);
    InvExcludes(w, mine);
    forall j | 0 <= j < |v.runs| ensures RunOk(v, j, mine) && !Holds(v.runs[j]) {
      assert RunOk(w, j, mine);
    }
    if v.bad == 2 {
      forall j | 0 <= j < |v.runs| ensures OnItsWayOut(v.runs[j], v.sealed, mine) {
        assert RunOk(w, j, mine);
      }
    }
  }

  /** When a run's write is applied nobody else holds the marker. */
  lemma NobodyElseHolds(w: World, i: int, j: int, mine: nat)
    requires Inv(w, mine) && 0 <= i < |w.runs| && w.runs[i].Writing? && w.runs[i].ver == w.version
    requires w.runs[i].kind.Consuming? ==> !AnyHolds(w)
    requires 0 <= j < |w.runs| && j != i
    ensures !Holds(w.runs[j])
  {
    assert RunOk(w, i, mine) && RunOk(w, j, mine);
  }

  ghost predicate Applied(w: World, v: World, i: int, pc: Pc)
    requires 0 <= i < |w.runs| && w.runs[i].Writing?
  {
    var was := w.runs[i];
    && v == With(Apply(w, i, was.kind, was.goal), i, pc)
    && (pc == After(was.kind, was.goal, w.version + 1) || pc == was.(uncertain := true, applied := true))
  }

  lemma ApplyKeepsRuns(w: World, i: int, v: World, pc: Pc, mine: nat)
    requires Inv(w, mine) && 0 <= i < |w.runs| && w.runs[i].Writing? && w.runs[i].ver == w.version
    requires w.runs[i].kind.Consuming? ==> !AnyHolds(w)
    requires Applied(w, v, i, pc)
    ensures RunsOk(v, mine) && (forall j :: 0 <= j < |v.runs| && Holds(v.runs[j]) ==> j == i && w.runs[i].kind.Marking?)
  {
    assert RunOk(w, i, mine);
    forall j | 0 <= j < |v.runs| ensures RunOk(v, j, mine) && (Holds(v.runs[j]) ==> j == i && w.runs[i].kind.Marking?) {
      assert RunOk(w, j, mine);
      if j != i {
        NobodyElseHolds(w, i, j, mine);
      }
    }
  }

  lemma ApplyKeepsRecord(w: World, i: int, v: World, pc: Pc, mine: nat)
    requires Inv(w, mine) && 0 <= i < |w.runs| && w.runs[i].Writing? && w.runs[i].ver == w.version
    requires Applied(w, v, i, pc)
    ensures RecordOk(v, mine)
    ensures v.bad == 2 ==> Sealed(v.record, mine)
  {
    assert RunOk(w, i, mine);
    if w.bad == 2 {
      assert OnItsWayOut(w.runs[i], w.sealed, mine);
    }
  }

  lemma ApplyKeeps(w: World, i: int, v: World, pc: Pc, mine: nat)
    requires Inv(w, mine) && 0 <= i < |w.runs| && w.runs[i].Writing? && w.runs[i].ver == w.version
    requires w.runs[i].kind.Consuming? ==> !AnyHolds(w)
    requires Applied(w, v, i, pc)
    ensures Inv(v, mine)
  {
    assert RunOk(w, i, mine);
    ApplyKeepsRuns(w, i, v, pc, mine);
    ApplyKeepsRecord(w, i, v, pc, mine);
    if v.bad == 2 {
      forall j | 0 <= j < |v.runs| ensures OnItsWayOut(v.runs[j], v.sealed, mine) {
        assert RunOk(w, j, mine);
        if w.bad == 2 {
          assert OnItsWayOut(w.runs[j], w.sealed, mine);
          assert OnItsWayOut(w.runs[i], w.sealed, mine);
        }
      }
    }
  }

  lemma AttemptKeeps(w: World, i: int, result: Result, mine: nat)
    requires Inv(w, mine) && Enabled(w, i, Attempt(result), mine)
    requires w.runs[i].kind.Consuming? && w.runs[i].ver == w.version ==> !AnyHolds(w)
    ensures Inv(Next(w, i, Attempt(result), mine), mine)
  {
    assert RunOk(w, i, mine);
    var v := Next(w, i, Attempt(result), mine);
    if v == Quit(w, i) {
      QuitKeeps(w, i, mine);
    } else if w.runs[i].ver == w.version && (result.Acknowledged? || result.AppliedUnheard?) {
      ApplyKeeps(w, i, v, v.runs[i], mine);
    } else {
      MoveKeeps(w, i, v.runs[i], w.attempts, mine);
    }
  }

  /** A run that finds exactly what it was writing has written it: no other run could have. */
  lemma ReadBackKeeps(w: World, i: int, mine: nat)
    requires Inv(w, mine) && NoMixUp(w) && Enabled(w, i, ReadBack, mine)
    ensures Inv(Next(w, i, ReadBack, mine), mine)
  {
    assert RunOk(w, i, mine);
    var pc := w.runs[i];
    if w.record == pc.goal && pc.kind.Marking? {
      ReadBackMarker(w, i, mine);
    } else {
      ReadBackElse(w, i, mine);
    }
  }

  lemma ReadBackElse(w: World, i: int, mine: nat)
    requires Inv(w, mine) && Enabled(w, i, ReadBack, mine)
    requires w.record != w.runs[i].goal || !w.runs[i].kind.Marking?
    ensures Inv(Next(w, i, ReadBack, mine), mine)
  {
    assert RunOk(w, i, mine);
    var pc := w.runs[i];
    if w.record != pc.goal {
      QuitKeeps(w, i, mine);
    } else {
      MoveKeeps(w, i, After(pc.kind, pc.goal, w.version), w.attempts, mine);
    }
  }

  lemma ReadBackMarker(w: World, i: int, mine: nat)
    requires Inv(w, mine) && NoMixUp(w) && 0 <= i < |w.runs| && w.runs[i].ReadingBack? && w.runs[i].kind.Marking?
    requires w.record == w.runs[i].goal
    ensures Inv(With(w, i, LoggingIn(w.record, w.version)), mine)
  {
    var v := With(w, i, LoggingIn(w.record, w.version));
    assert RunOk(w, i, mine);
    assert w.author == i;
    forall j | 0 <= j < |v.runs| ensures RunOk(v, j, mine) {
      assert RunOk(w, j, mine);
    }
  }

  lemma StepKeeps(w: World, i: int, a: Action, mine: nat)
    requires Inv(w, mine) && NoneTooLate(w) && NoMixUp(w) && Enabled(w, i, a, mine)
    ensures Inv(Next(w, i, a, mine), mine)
  {
    hide Inv;
    if a.ReadBack? {
      ReadBackKeeps(w, i, mine);
    } else {
      ElseKeeps(w, i, a, mine);
    }
  }

  lemma ElseKeeps(w: World, i: int, a: Action, mine: nat)
    requires Inv(w, mine) && Enabled(w, i, a, mine) && !a.ReadBack?
    requires a.Attempt? && w.runs[i].kind.Consuming? && w.runs[i].ver == w.version ==> !AnyHolds(w)
    ensures Inv(Next(w, i, a, mine), mine)
  {
    hide Inv;
    match a
    case Tick(d) => TickKeeps(w, d, mine);
    case ReadRecord => ReadKeeps(w, i, mine);
    case Check => CheckKeeps(w, i, mine);
    case Attempt(result) => AttemptKeeps(w, i, result, mine);
    case Leave => QuitKeeps(w, i, mine);
    case _ => DecideKeeps(w, i, a, mine);
  }

  /** Exactly one kind of step lets two runs log in at a time, when none is too late: a run that was making
      its marker reads the record back, finds exactly what it wrote, and somebody is at work on it.
      That is a mix-up: the marker is that other run's. */
  lemma OnlyTwinsBreak(w: World, i: int, a: Action, mine: nat)
    requires Inv(w, mine) && NoneTooLate(w) && Enabled(w, i, a, mine)
    ensures !AtMostOne(Next(w, i, a, mine)) <==>
              a.ReadBack? && w.runs[i].kind.Marking? && w.record == w.runs[i].goal && AnyHolds(w)
    ensures !AtMostOne(Next(w, i, a, mine)) ==> !NoMixUp(w)
  {
    hide Inv;
    var v := Next(w, i, a, mine);
    InvExcludes(w, mine);
    if !a.ReadBack? {
      ElseKeeps(w, i, a, mine);
      InvExcludes(v, mine);
    } else if w.record != w.runs[i].goal || !w.runs[i].kind.Marking? {
      ReadBackElse(w, i, mine);
      InvExcludes(v, mine);
    } else if AnyHolds(w) {
      var j :| 0 <= j < |w.runs| && Holds(w.runs[j]);
      HolderIsAuthor(w, j, mine);
      assert Holds(v.runs[i]) && Holds(v.runs[j]);
    }
  }

  /** A run is at work on the marker of a phase that ended unrecorded, and that phase is never counted. */
  ghost predicate TakenOver(w: World) {
    w.lost && AnyHolds(w)
  }

  /** Exactly one kind of step takes a lost phase's marker over, when none is too late: a run that was
      making its marker reads the record back and finds exactly what it wrote, by a run that ended. That
      is a mix-up. */
  lemma OnlyTwinsTakeOver(w: World, i: int, a: Action, mine: nat)
    requires Inv(w, mine) && NoneTooLate(w) && Enabled(w, i, a, mine)
    ensures TakenOver(Next(w, i, a, mine)) <==> a.ReadBack? && w.runs[i].kind.Marking? && w.record == w.runs[i].goal && w.lost
    ensures TakenOver(Next(w, i, a, mine)) ==> !NoMixUp(w)
  {
    hide Inv, TakenOver;
    if !a.ReadBack? {
      ElseKeeps(w, i, a, mine);
      NoneTakenOver(Next(w, i, a, mine), mine);
    } else if w.record != w.runs[i].goal || !w.runs[i].kind.Marking? {
      ReadBackElse(w, i, mine);
      NoneTakenOver(Next(w, i, a, mine), mine);
    } else {
      TakesOver(w, i, mine);
    }
  }

  lemma NoneTakenOver(w: World, mine: nat)
    requires Inv(w, mine)
    ensures !TakenOver(w)
  {
    forall j | 0 <= j < |w.runs| && Holds(w.runs[j]) ensures !w.lost {
      assert RunOk(w, j, mine);
    }
  }

  lemma TakesOver(w: World, i: int, mine: nat)
    requires Inv(w, mine) && Enabled(w, i, ReadBack, mine) && w.runs[i].kind.Marking? && w.record == w.runs[i].goal
    ensures TakenOver(Next(w, i, ReadBack, mine)) <==> w.lost
    ensures w.lost ==> !NoMixUp(w)
  {
    assert RunOk(w, i, mine);
    assert Holds(Next(w, i, ReadBack, mine).runs[i]);
  }

  /** The record was written over while a run was at work on it. */
  ghost predicate Overwritten(w: World) {
    exists j :: 0 <= j < |w.runs| && Holds(w.runs[j]) && w.runs[j].ver != w.version
  }

  /** Exactly one kind of step writes over the marker of a run at work, when none is mixed up: another run
      counts that marker, and then it is no longer fresh. */
  lemma OnlyLateRunsAreOverwritten(w: World, i: int, a: Action, mine: nat)
    requires Inv(w, mine) && NoMixUp(w) && Enabled(w, i, a, mine)
    ensures Overwritten(Next(w, i, a, mine)) <==>
              && a.Attempt? && (a.result.Acknowledged? || a.result.AppliedUnheard?)
              && w.runs[i].kind.Consuming? && w.runs[i].ver == w.version && AnyHolds(w)
    ensures Overwritten(Next(w, i, a, mine)) ==> !Timely(w)
  {
    hide Inv, Overwritten;
    var v := Next(w, i, a, mine);
    if a.Attempt? && w.runs[i].kind.Consuming? && w.runs[i].ver == w.version && AnyHolds(w) {
      TimelyIsEnough(w, mine);
      CountedAtWork(w, i, a.result, mine);
    } else {
      if a.Attempt? {
        AttemptKeeps(w, i, a.result, mine);
      } else if a.ReadBack? {
        ReadBackKeeps(w, i, mine);
      } else {
        ElseKeeps(w, i, a, mine);
      }
      InvIsNotOverwritten(v, mine);
    }
  }

  lemma InvIsNotOverwritten(w: World, mine: nat)
    requires Inv(w, mine)
    ensures !Overwritten(w)
  {
    forall j | 0 <= j < |w.runs| && Holds(w.runs[j]) ensures w.runs[j].ver == w.version {
      assert RunOk(w, j, mine);
    }
  }

  lemma CountedAtWork(w: World, i: int, result: Result, mine: nat)
    requires Inv(w, mine) && Enabled(w, i, Attempt(result), mine)
    requires w.runs[i].kind.Consuming? && w.runs[i].ver == w.version && AnyHolds(w)
    ensures Overwritten(Next(w, i, Attempt(result), mine)) <==> result.Acknowledged? || result.AppliedUnheard?
  {
    var v := Next(w, i, Attempt(result), mine);
    var j :| 0 <= j < |w.runs| && Holds(w.runs[j]);
    assert RunOk(w, j, mine) && v.runs[j] == w.runs[j];
    if !result.Acknowledged? && !result.AppliedUnheard? {
      forall k | 0 <= k < |v.runs| && Holds(v.runs[k]) ensures v.runs[k].ver == v.version {
        assert RunOk(w, k, mine);
      }
    }
  }

  // ---- Whole interleavings ----

  /** A history of the shared record: run and action at each step. */
  ghost predicate History(ws: seq<World>, acts: seq<(int, Action)>, mine: nat) {
    && |ws| == |acts| + 1 && Init(ws[0])
    && forall k :: 0 <= k < |acts| ==> Enabled(ws[k], acts[k].0, acts[k].1, mine) && ws[k + 1] == Next(ws[k], acts[k].0, acts[k].1, mine)
  }

  /** The two things that must not come about, in the first `k` worlds. */
  ghost predicate Sound(ws: seq<World>, k: nat) {
    forall l :: 0 <= l < k && l < |ws| ==> NoneTooLate(ws[l]) && NoMixUp(ws[l])
  }

  lemma {:induction false} HistoryInv(ws: seq<World>, acts: seq<(int, Action)>, mine: nat, k: nat)
    requires History(ws, acts, mine) && k < |ws| && Sound(ws, k)
    ensures Inv(ws[k], mine)
  {
    hide Inv, NoneTooLate, NoMixUp;
    if k == 0 {
      InitInv(ws[0], mine);
    } else {
      HistoryInv(ws, acts, mine, k - 1);
      StepKeeps(ws[k - 1], acts[k - 1].0, acts[k - 1].1, mine);
    }
  }

  /** It is enough that no run outlives its marker and no two make the same one. */
  lemma {:induction false} TimelyHistoryIsSound(ws: seq<World>, acts: seq<(int, Action)>, mine: nat, k: nat)
    requires History(ws, acts, mine) && k <= |ws|
    requires forall l :: 0 <= l < k ==> Timely(ws[l]) && NoTwins(ws[l])
    ensures Sound(ws, k)
  {
    hide Inv, Timely, NoTwins, NoneTooLate, NoMixUp, Init, Next, Enabled;
    if k > 0 {
      TimelyHistoryIsSound(ws, acts, mine, k - 1);
      HistoryInv(ws, acts, mine, k - 1);
      TimelyIsEnough(ws[k - 1], mine);
    }
  }

  /** In every interleaving of any number of runs, with deaths, lost answers and retries anywhere, at
      most one run is between its marker and its outcome, and at most two login phases in a row end
      without a session. */
  lemma MutualExclusion(ws: seq<World>, acts: seq<(int, Action)>, mine: nat, k: nat)
    requires History(ws, acts, mine) && k < |ws| && Sound(ws, k)
    ensures AtMostOne(ws[k]) && ws[k].bad <= 2
  {
    HistoryInv(ws, acts, mine, k);
    InvExcludes(ws[k], mine);
  }

  /** A run that began after two bad phases in a row, or knows nothing older. */
  ghost predicate Late(w: World, j: int) {
    0 <= j < |w.runs| && (Knows(w.runs[j]) ==> w.runs[j].ver >= w.sealed)
  }

  /** Two bad phases in a row stay the last word. */
  lemma SealStays(w: World, i: int, a: Action, mine: nat, j: int)
    requires Inv(w, mine) && NoneTooLate(w) && NoMixUp(w) && Enabled(w, i, a, mine) && w.bad == 2 && Late(w, j)
    ensures var v := Next(w, i, a, mine); v.bad == 2 && v.sealed == w.sealed && Late(v, j)
  {
    if !a.Tick? {
      assert RunOk(w, i, mine);
      assert !Holds(w.runs[i]);
    }
  }

  /** Once two login phases in a row have ended rejected, unconfirmed or unrecorded, no run that
      begins later comes as far as asking the portal anything, however the runs interleave. */
  lemma {:induction false} NoPortalAfterTwo(ws: seq<World>, acts: seq<(int, Action)>, mine: nat, k: nat, l: nat, j: int)
    requires History(ws, acts, mine) && k <= l < |ws| && Sound(ws, l)
    requires ws[k].bad == 2 && 0 <= j < |ws[k].runs| && ws[k].runs[j].Idle?
    ensures ws[l].bad == 2 && ws[l].sealed == ws[k].sealed && Late(ws[l], j)
    ensures !AnyHolds(ws[l]) && !ws[l].runs[j].Deciding? && !ws[l].runs[j].LoggingIn?
  {
    hide Inv, NoneTooLate, NoMixUp;
    if k < l {
      NoPortalAfterTwo(ws, acts, mine, k, l - 1, j);
      HistoryInv(ws, acts, mine, l - 1);
      SealStays(ws[l - 1], acts[l - 1].0, acts[l - 1].1, mine, j);
    }
    HistoryInv(ws, acts, mine, l);
    LateIsOut(ws[l], mine, j);
  }

  lemma LateIsOut(w: World, mine: nat, j: int)
    requires Inv(w, mine) && w.bad == 2 && Late(w, j)
    ensures !AnyHolds(w) && !w.runs[j].Deciding? && !w.runs[j].LoggingIn?
  {
    assert OnItsWayOut(w.runs[j], w.sealed, mine);
  }

  /** The latch is set, and has been since version `since`: who knows nothing older is on its way
      out. */
  ghost predicate Shut(w: World, since: nat, mine: nat) {
    && w.version >= since && Latched(w.record, mine)
    && forall i :: 0 <= i < |w.runs| ==> ShutOut(w.runs[i], since, mine)
  }

  ghost predicate ShutOut(pc: Pc, since: nat, mine: nat) {
    Knows(pc) && pc.ver >= since ==>
      Latched(pc.base, mine) && (pc.Read? || pc.Latching? || (Writes(pc) && pc.kind.Consuming?))
  }

  lemma LatchShuts(w: World, mine: nat)
    requires Inv(w, mine) && Latched(w.record, mine)
    ensures Shut(w, w.version, mine)
  {
    forall i | 0 <= i < |w.runs| ensures ShutOut(w.runs[i], w.version, mine) {
      assert RunOk(w, i, mine);
    }
  }

  /** The run knows nothing older than version `since`. */
  ghost predicate KnowsSince(w: World, j: int, since: nat) {
    0 <= j < |w.runs| && (Knows(w.runs[j]) ==> w.runs[j].ver >= since)
  }

  /** The latch stays: a write that is applied is that of a run that read it and counts a marker. */
  lemma ShutStays(w: World, i: int, a: Action, since: nat, mine: nat, j: int)
    requires Inv(w, mine) && Enabled(w, i, a, mine) && Shut(w, since, mine) && KnowsSince(w, j, since)
    ensures Shut(Next(w, i, a, mine), since, mine) && KnowsSince(Next(w, i, a, mine), j, since)
  {
    if !a.Tick? {
      assert RunOk(w, i, mine) && ShutOut(w.runs[i], since, mine);
      var v := Next(w, i, a, mine);
      forall k | 0 <= k < |v.runs| ensures ShutOut(v.runs[k], since, mine) {
        assert RunOk(w, k, mine) && ShutOut(w.runs[k], since, mine);
      }
    }
  }

  lemma ShutMeans(w: World, since: nat, mine: nat, j: int)
    requires Inv(w, mine) && Shut(w, since, mine) && KnowsSince(w, j, since)
    ensures Latched(w.record, mine) && !AnyHolds(w) && !w.runs[j].Deciding? && !w.runs[j].LoggingIn?
  {
    assert ShutOut(w.runs[j], since, mine);
    forall i | 0 <= i < |w.runs| ensures !Holds(w.runs[i]) {
      assert RunOk(w, i, mine);
    }
  }

  /** Once the latch is set for these credentials, by one rejected login as by two without a session,
      it stays set and nobody is between a marker and an outcome; no run that begins later comes as
      far as asking the portal anything, however the runs interleave. */
  lemma {:induction false} NoPortalOnceLatched(ws: seq<World>, acts: seq<(int, Action)>, mine: nat, k: nat, l: nat, j: int)
    requires History(ws, acts, mine) && k <= l < |ws| && Sound(ws, l)
    requires Latched(ws[k].record, mine) && 0 <= j < |ws[k].runs| && ws[k].runs[j].Idle?
    ensures Shut(ws[l], ws[k].version, mine) && KnowsSince(ws[l], j, ws[k].version)
    ensures Latched(ws[l].record, mine) && !AnyHolds(ws[l])
    ensures !ws[l].runs[j].Deciding? && !ws[l].runs[j].LoggingIn?
  {
    hide Inv, NoneTooLate, NoMixUp, AnyHolds, Shut, Next, Init;
    HistoryInv(ws, acts, mine, l);
    if k == l {
      LatchShuts(ws[l], mine);
    } else {
      NoPortalOnceLatched(ws, acts, mine, k, l - 1, j);
      HistoryInv(ws, acts, mine, l - 1);
      ShutStays(ws[l - 1], acts[l - 1].0, acts[l - 1].1, ws[k].version, mine, j);
    }
    ShutMeans(ws[l], ws[k].version, mine, j);
  }

  /** A login phase that ended unrecorded is counted, and once: the only write that can follow its
      marker takes the marker away and adds one to the count. */
  lemma LostIsCountedOnce(w: World, i: int, result: Result, mine: nat)
    requires Inv(w, mine) && w.lost && Enabled(w, i, Attempt(result), mine)
    ensures var v := Next(w, i, Attempt(result), mine);
      v.version != w.version ==>
        && w.runs[i].kind.Consuming? && !v.lost && v.bad == w.bad
        && v.record.marker.None? && v.record.unconfirmed == w.record.unconfirmed + 1
        && (v.record.unconfirmed >= MAX_UNCONFIRMED ==> Latched(v.record, mine))
  {
    assert RunOk(w, i, mine);
  }

  /** A write is applied at most once, however often it is retried. */
  lemma AppliedAtMostOnce(w: World, i: int, result: Result, mine: nat)
    requires Inv(w, mine) && Enabled(w, i, Attempt(result), mine) && w.runs[i].applied
    ensures Next(w, i, Attempt(result), mine).record == w.record && Next(w, i, Attempt(result), mine).version == w.version
  {
    assert RunOk(w, i, mine);
  }

  /** A run whose marker is refused because somebody wrote first makes no login. */
  lemma LoserDoesNotLogIn(w: World, i: int, result: Result, mine: nat)
    requires Inv(w, mine) && Enabled(w, i, Attempt(result), mine) && w.runs[i].kind.Marking? && w.runs[i].ver != w.version
    ensures !Next(w, i, Attempt(result), mine).runs[i].LoggingIn?
    ensures NoTwins(w) && w.author != i && w.runs[i].uncertain ==>
              w.record.marker.None? || w.record != w.runs[i].goal
  {
    assert RunOk(w, i, mine);
  }

  // ---- Where the code falls short ----

  /** What goes right in a history that goes wrong: nobody is late, or nobody is mixed up, or nobody is late
      and no two log in at a time. */
  datatype Plot = Twins | Delay | Takeover

  ghost predicate Follows(w: World, plot: Plot) {
    match plot
    case Twins => Timely(w)
    case Delay => NoMixUp(w)
    case Takeover => Timely(w) && AtMostOne(w)
  }

  ghost predicate Story(ws: seq<World>, acts: seq<(int, Action)>, mine: nat, plot: Plot) {
    |ws| > 0 && History(ws, acts, mine) && forall k :: 0 <= k < |ws| ==> Follows(ws[k], plot)
  }

  lemma Grow(ws: seq<World>, acts: seq<(int, Action)>, plot: Plot, i: int, a: Action, w: World)
    returns (ws': seq<World>, acts': seq<(int, Action)>)
    requires Story(ws, acts, 7, plot) && Enabled(ws[|ws| - 1], i, a, 7)
    requires w == Next(ws[|ws| - 1], i, a, 7) && Follows(w, plot)
    ensures Story(ws', acts', 7, plot) && ws'[|ws'| - 1] == w
  {
    ws', acts' := ws + [w], acts + [(i, a)];
  }

  const START: Record := Record(Open, 7, 0, 0, None, None, 0, 0, 0)
  const TWIN: Record := Record(Open, 7, 0, 0, None, Some(0), 0, 0, 0)

  /** The world while two runs are about to write the same marker, and after it was written once. */
  function TwinWorld(written: bool, a: Pc, b: Pc, attempts: set<(int, Record)>): World {
    World(if written then TWIN else START, if written then 2 else 1, if written then 0 else -1, 0, [a, b], 0, false, 0, attempts)
  }

  lemma TwinsBegin() returns (ws: seq<World>, acts: seq<(int, Action)>)
    ensures Story(ws, acts, 7, Twins) && ws[|ws| - 1] == TwinWorld(false, Idle, Idle, {})
  {
    ws, acts := [TwinWorld(false, Idle, Idle, {})], [];
  }

  lemma TwinsRead() returns (ws: seq<World>, acts: seq<(int, Action)>)
    ensures Story(ws, acts, 7, Twins)
    ensures ws[|ws| - 1] == TwinWorld(false, Deciding(START, 1), Deciding(START, 1), {})
  {
    hide InProgress, Marked, Consumed, Story;
    ws, acts := TwinsBegin();
    ws, acts := Grow(ws, acts, Twins, 0, ReadRecord, TwinWorld(false, Read(START, 1), Idle, {}));
    ws, acts := Grow(ws, acts, Twins, 1, ReadRecord, TwinWorld(false, Read(START, 1), Read(START, 1), {}));
    NoMarker();
    ws, acts := Grow(ws, acts, Twins, 0, Check, TwinWorld(false, Latching(START, 1), Read(START, 1), {}));
    ws, acts := Grow(ws, acts, Twins, 1, Check, TwinWorld(false, Latching(START, 1), Latching(START, 1), {}));
    ws, acts := Grow(ws, acts, Twins, 0, Pass, TwinWorld(false, Deciding(START, 1), Latching(START, 1), {}));
    ws, acts := Grow(ws, acts, Twins, 1, Pass, TwinWorld(false, Deciding(START, 1), Deciding(START, 1), {}));
  }

  lemma NoMarker()
    ensures !InProgress(START, 0) && Marked(START, 7, 0, 0) == TWIN
  {}

  const MARK: Pc := Writing(Marking, START, TWIN, 1, false, false)
  const BOTH: set<(int, Record)> := {(0, TWIN), (1, TWIN)}

  lemma TwinsMark() returns (ws: seq<World>, acts: seq<(int, Action)>)
    ensures Story(ws, acts, 7, Twins) && ws[|ws| - 1] == TwinWorld(false, MARK, MARK.(uncertain := true), BOTH)
  {
    hide InProgress, Marked, Consumed, Story;
    NoMarker();
    ws, acts := TwinsRead();
    assert {} + {(0, TWIN)} == {(0, TWIN)} && {(0, TWIN)} + {(1, TWIN)} == BOTH;
    ws, acts := Grow(ws, acts, Twins, 0, Mark(0), TwinWorld(false, MARK, Deciding(START, 1), {(0, TWIN)}));
    ws, acts := Grow(ws, acts, Twins, 1, Mark(0), TwinWorld(false, MARK, MARK, BOTH));
    ws, acts := Grow(ws, acts, Twins, 1, Attempt(FailedUnapplied), TwinWorld(false, MARK, MARK.(uncertain := true), BOTH));
  }

  lemma TwinsWrite() returns (ws: seq<World>, acts: seq<(int, Action)>)
    ensures Story(ws, acts, 7, Twins) && ws[|ws| - 1] == TwinWorld(true, LoggingIn(TWIN, 2), LoggingIn(TWIN, 2), BOTH)
  {
    hide InProgress, Marked, Consumed, Story;
    ws, acts := TwinsMark();
    ws, acts := Grow(ws, acts, Twins, 0, Attempt(Acknowledged), TwinWorld(true, LoggingIn(TWIN, 2), MARK.(uncertain := true), BOTH));
    ws, acts := Grow(ws, acts, Twins, 1, Attempt(Acknowledged), TwinWorld(true, LoggingIn(TWIN, 2), ReadingBack(Marking, START, TWIN, 1, false), BOTH));
    ws, acts := Grow(ws, acts, Twins, 1, ReadBack, TwinWorld(true, LoggingIn(TWIN, 2), LoggingIn(TWIN, 2), BOTH));
  }

  /** Two runs read the same record and make the same marker record, in the same second. The second's
      first attempt fails without being applied, the first's is applied; the second's retry is
      refused, it reads back what the first wrote, takes it for its own, and both log in. Nothing
      is late. */
  lemma TwinsBothLogIn() returns (ws: seq<World>, acts: seq<(int, Action)>)
    ensures History(ws, acts, 7) && (forall k :: 0 <= k < |ws| ==> Timely(ws[k]))
    ensures !AtMostOne(ws[|ws| - 1])
  {
    ws, acts := TwinsWrite();
    var last := ws[|ws| - 1];
    assert Holds(last.runs[0]) && Holds(last.runs[1]);
  }
  const COUNTED: Record := Record(Open, 7, 1, 0, Some(0), None, 0, 1, 0)
  const SECOND_MARK: Record := COUNTED.(marker := Some(600))

  function LateWorld(record: Record, version: nat, author: int, clock: int, a: Pc, b: Pc, attempts: set<(int, Record)>): World {
    World(record, version, author, clock, [a, b], 0, false, 0, attempts)
  }

  const AT_WORK: Pc := LoggingIn(TWIN, 2)
  const ONE: set<(int, Record)> := {(0, TWIN)}

  lemma StaleMarker()
    ensures !InProgress(START, 0) && Marked(START, 7, 0, 0) == TWIN
    ensures !InProgress(TWIN, FRESH) && Consumed(TWIN, 7, FRESH) == COUNTED && Marked(COUNTED, 7, 0, FRESH) == SECOND_MARK
  {}

  lemma LateBegins() returns (ws: seq<World>, acts: seq<(int, Action)>)
    ensures Story(ws, acts, 7, Delay) && ws[|ws| - 1] == LateWorld(START, 1, -1, 0, Idle, Idle, {})
  {
    ws, acts := [LateWorld(START, 1, -1, 0, Idle, Idle, {})], [];
  }

  lemma FirstDecides() returns (ws: seq<World>, acts: seq<(int, Action)>)
    ensures Story(ws, acts, 7, Delay) && ws[|ws| - 1] == LateWorld(START, 1, -1, 0, Deciding(START, 1), Idle, {})
  {
    hide InProgress, Marked, Consumed, Story;
    StaleMarker();
    ws, acts := LateBegins();
    ws, acts := Grow(ws, acts, Delay, 0, ReadRecord, LateWorld(START, 1, -1, 0, Read(START, 1), Idle, {}));
    ws, acts := Grow(ws, acts, Delay, 0, Check, LateWorld(START, 1, -1, 0, Latching(START, 1), Idle, {}));
    ws, acts := Grow(ws, acts, Delay, 0, Pass, LateWorld(START, 1, -1, 0, Deciding(START, 1), Idle, {}));
  }

  lemma FirstLogsIn() returns (ws: seq<World>, acts: seq<(int, Action)>)
    ensures Story(ws, acts, 7, Delay) && ws[|ws| - 1] == LateWorld(TWIN, 2, 0, FRESH, AT_WORK, Idle, ONE)
  {
    hide InProgress, Marked, Consumed, Story;
    StaleMarker();
    assert {} + ONE == ONE;
    ws, acts := FirstDecides();
    ws, acts := Grow(ws, acts, Delay, 0, Mark(0), LateWorld(START, 1, -1, 0, MARK, Idle, ONE));
    ws, acts := Grow(ws, acts, Delay, 0, Attempt(Acknowledged), LateWorld(TWIN, 2, 0, 0, AT_WORK, Idle, ONE));
    ws, acts := Grow(ws, acts, Delay, 0, Tick(FRESH), LateWorld(TWIN, 2, 0, FRESH, AT_WORK, Idle, ONE));
  }

  lemma SecondCounts() returns (ws: seq<World>, acts: seq<(int, Action)>)
    ensures Story(ws, acts, 7, Delay) && ws[|ws| - 1] == LateWorld(COUNTED, 3, 1, FRESH, AT_WORK, Deciding(COUNTED, 3), ONE)
  {
    hide InProgress, Marked, Consumed, Story;
    StaleMarker();
    ws, acts := FirstLogsIn();
    ws, acts := Grow(ws, acts, Delay, 1, ReadRecord, LateWorld(TWIN, 2, 0, FRESH, AT_WORK, Read(TWIN, 2), ONE));
    ws, acts := Grow(ws, acts, Delay, 1, Check, LateWorld(TWIN, 2, 0, FRESH, AT_WORK, Writing(Consuming, TWIN, COUNTED, 2, false, false), ONE));
    ws, acts := Grow(ws, acts, Delay, 1, Attempt(Acknowledged), LateWorld(COUNTED, 3, 1, FRESH, AT_WORK, Latching(COUNTED, 3), ONE));
    ws, acts := Grow(ws, acts, Delay, 1, Pass, LateWorld(COUNTED, 3, 1, FRESH, AT_WORK, Deciding(COUNTED, 3), ONE));
  }

  /** A run is still logging in ten minutes after it made its marker. Another takes the marker for that
      of a run that died, counts it, makes its own, and both log in. Nobody is mixed up. */
  lemma LateRunIsJoined() returns (ws: seq<World>, acts: seq<(int, Action)>)
    ensures History(ws, acts, 7) && (forall k :: 0 <= k < |ws| ==> NoMixUp(ws[k]))
    ensures !AtMostOne(ws[|ws| - 1])
  {
    hide InProgress, Marked, Consumed;
    StaleMarker();
    var both := ONE + {(1, SECOND_MARK)};
    ws, acts := SecondCounts();
    ws, acts := Grow(ws, acts, Delay, 1, Mark(0),
                     LateWorld(COUNTED, 3, 1, FRESH, AT_WORK, Writing(Marking, COUNTED, SECOND_MARK, 3, false, false), both));
    ws, acts := Grow(ws, acts, Delay, 1, Attempt(Acknowledged), LateWorld(SECOND_MARK, 4, 1, FRESH, AT_WORK, LoggingIn(SECOND_MARK, 4), both));
    var last := ws[|ws| - 1];
    assert Holds(last.runs[0]) && Holds(last.runs[1]);
  }
  const UNCONFIRMED_ONCE: Record := Record(Open, 7, 1, 0, None, None, 0, 1, 0)
  const THIRD_MARK: Record := UNCONFIRMED_ONCE.(marker := Some(0))
  const RECORDING: Pc := Writing(Recording(Unconfirmed), TWIN, UNCONFIRMED_ONCE, 2, false, false)

  function ThreeRuns(record: Record, version: nat, author: int, a: Pc, b: Pc, c: Pc, bad: nat, lost: bool, sealed: nat,
                     attempts: set<(int, Record)>): World {
    World(record, version, author, 0, [a, b, c], bad, lost, sealed, attempts)
  }

  lemma Fresh()
    ensures !InProgress(START, 0) && Marked(START, 7, 0, 0) == TWIN && Recorded(TWIN, Unconfirmed, 0) == UNCONFIRMED_ONCE
    ensures !InProgress(UNCONFIRMED_ONCE, 0) && Marked(UNCONFIRMED_ONCE, 7, 0, 0) == THIRD_MARK
  {}

  /** Nothing is late at the time 0. */
  ghost predicate Prompt(pc: Pc) {
    Holds(pc) ==> pc.base.marker == Some(0)
  }

  lemma GrowOn(ws: seq<World>, acts: seq<(int, Action)>, i: int, a: Action, w: World) returns (ws': seq<World>, acts': seq<(int, Action)>)
    requires Story(ws, acts, 7, Takeover) && Enabled(ws[|ws| - 1], i, a, 7) && w == Next(ws[|ws| - 1], i, a, 7)
    requires w.clock == 0 && |w.runs| == 3 && Prompt(w.runs[0]) && Prompt(w.runs[1]) && Prompt(w.runs[2])
    requires (Holds(w.runs[0]) ==> !Holds(w.runs[1]) && !Holds(w.runs[2])) && (Holds(w.runs[1]) ==> !Holds(w.runs[2]))
    ensures Story(ws', acts', 7, Takeover) && ws'[|ws'| - 1] == w
  {
    hide Story, Next, Enabled;
    assert Follows(w, Takeover);
    ws', acts' := Grow(ws, acts, Takeover, i, a, w);
  }

  lemma AllFollow(ws: seq<World>, acts: seq<(int, Action)>)
    requires Story(ws, acts, 7, Takeover)
    ensures History(ws, acts, 7) && forall k :: 0 <= k < |ws| ==> Timely(ws[k]) && AtMostOne(ws[k])
  {
    hide History, Timely, AtMostOne;
    forall k | 0 <= k < |ws| ensures Timely(ws[k]) && AtMostOne(ws[k]) {
      assert Follows(ws[k], Takeover);
    }
  }

  lemma ThreeBegin() returns (ws: seq<World>, acts: seq<(int, Action)>)
    ensures Story(ws, acts, 7, Takeover) && ws[|ws| - 1] == ThreeRuns(START, 1, -1, Idle, Idle, Idle, 0, false, 0, {})
  {
    ws, acts := [ThreeRuns(START, 1, -1, Idle, Idle, Idle, 0, false, 0, {})], [];
  }

  lemma TwoDecide() returns (ws: seq<World>, acts: seq<(int, Action)>)
    ensures Story(ws, acts, 7, Takeover)
    ensures ws[|ws| - 1] == ThreeRuns(START, 1, -1, Deciding(START, 1), Deciding(START, 1), Idle, 0, false, 0, {})
  {
    hide InProgress, Marked, Consumed, Story, Follows;
    Fresh();
    ws, acts := ThreeBegin();
    ws, acts := GrowOn(ws, acts, 0, ReadRecord, ThreeRuns(START, 1, -1, Read(START, 1), Idle, Idle, 0, false, 0, {}));
    ws, acts := GrowOn(ws, acts, 1, ReadRecord, ThreeRuns(START, 1, -1, Read(START, 1), Read(START, 1), Idle, 0, false, 0, {}));
    ws, acts := GrowOn(ws, acts, 0, Check, ThreeRuns(START, 1, -1, Latching(START, 1), Read(START, 1), Idle, 0, false, 0, {}));
    ws, acts := GrowOn(ws, acts, 1, Check, ThreeRuns(START, 1, -1, Latching(START, 1), Latching(START, 1), Idle, 0, false, 0, {}));
    ws, acts := GrowOn(ws, acts, 0, Pass, ThreeRuns(START, 1, -1, Deciding(START, 1), Latching(START, 1), Idle, 0, false, 0, {}));
    ws, acts := GrowOn(ws, acts, 1, Pass, ThreeRuns(START, 1, -1, Deciding(START, 1), Deciding(START, 1), Idle, 0, false, 0, {}));
  }

  /** The first makes the marker they both were about to make, and dies. */
  lemma OneDies() returns (ws: seq<World>, acts: seq<(int, Action)>)
    ensures Story(ws, acts, 7, Takeover)
    ensures ws[|ws| - 1] == ThreeRuns(TWIN, 2, 0, Gone, MARK.(uncertain := true), Idle, 1, true, 0, BOTH)
  {
    hide InProgress, Marked, Consumed, Story, Follows;
    Fresh();
    assert {} + {(0, TWIN)} == {(0, TWIN)} && {(0, TWIN)} + {(1, TWIN)} == BOTH;
    ws, acts := TwoDecide();
    ws, acts := GrowOn(ws, acts, 0, Mark(0), ThreeRuns(START, 1, -1, MARK, Deciding(START, 1), Idle, 0, false, 0, {(0, TWIN)}));
    ws, acts := GrowOn(ws, acts, 1, Mark(0), ThreeRuns(START, 1, -1, MARK, MARK, Idle, 0, false, 0, BOTH));
    ws, acts := GrowOn(ws, acts, 1, Attempt(FailedUnapplied), ThreeRuns(START, 1, -1, MARK, MARK.(uncertain := true), Idle, 0, false, 0, BOTH));
    ws, acts := GrowOn(ws, acts, 0, Attempt(Acknowledged), ThreeRuns(TWIN, 2, 0, AT_WORK, MARK.(uncertain := true), Idle, 0, false, 0, BOTH));
    ws, acts := GrowOn(ws, acts, 0, Leave, ThreeRuns(TWIN, 2, 0, Gone, MARK.(uncertain := true), Idle, 1, true, 0, BOTH));
  }

  /** The second takes that marker for its own and ends without a session, which is counted; the first's
      end is not. */
  lemma TwoAreCountedOnce() returns (ws: seq<World>, acts: seq<(int, Action)>)
    ensures Story(ws, acts, 7, Takeover)
    ensures ws[|ws| - 1] == ThreeRuns(UNCONFIRMED_ONCE, 3, 1, Gone, Gone, Idle, 2, false, 3, BOTH)
  {
    hide InProgress, Marked, Consumed, Story, Recorded, Follows;
    Fresh();
    ws, acts := OneDies();
    ws, acts := GrowOn(ws, acts, 1, Attempt(Acknowledged), ThreeRuns(TWIN, 2, 0, Gone, ReadingBack(Marking, START, TWIN, 1, false), Idle, 1, true, 0, BOTH));
    ws, acts := GrowOn(ws, acts, 1, ReadBack, ThreeRuns(TWIN, 2, 0, Gone, AT_WORK, Idle, 1, true, 0, BOTH));
    ws, acts := GrowOn(ws, acts, 1, EndLogin(Unconfirmed), ThreeRuns(TWIN, 2, 0, Gone, RECORDING, Idle, 1, true, 0, BOTH));
    ws, acts := GrowOn(ws, acts, 1, Attempt(Acknowledged), ThreeRuns(UNCONFIRMED_ONCE, 3, 1, Gone, Gone, Idle, 2, false, 3, BOTH));
  }

  lemma ThirdDecides() returns (ws: seq<World>, acts: seq<(int, Action)>)
    ensures Story(ws, acts, 7, Takeover)
    ensures ws[|ws| - 1] == ThreeRuns(UNCONFIRMED_ONCE, 3, 1, Gone, Gone, Deciding(UNCONFIRMED_ONCE, 3), 2, false, 3, BOTH)
  {
    hide InProgress, Marked, Consumed, Story, Follows;
    Fresh();
    var r := UNCONFIRMED_ONCE;
    ws, acts := TwoAreCountedOnce();
    ws, acts := GrowOn(ws, acts, 2, ReadRecord, ThreeRuns(r, 3, 1, Gone, Gone, Read(r, 3), 2, false, 3, BOTH));
    ws, acts := GrowOn(ws, acts, 2, Check, ThreeRuns(r, 3, 1, Gone, Gone, Latching(r, 3), 2, false, 3, BOTH));
    ws, acts := GrowOn(ws, acts, 2, Pass, ThreeRuns(r, 3, 1, Gone, Gone, Deciding(r, 3), 2, false, 3, BOTH));
  }

  /** A third run finds one login without a session counted where there were two, logs in, and ends without
      one as well. Nobody is late and no two log in at a time. */
  lemma LostPhaseIsForgotten() returns (ws: seq<World>, acts: seq<(int, Action)>)
    ensures History(ws, acts, 7) && (forall k :: 0 <= k < |ws| ==> Timely(ws[k]) && AtMostOne(ws[k]))
    ensures ws[|ws| - 1].bad == 3
  {
    hide InProgress, Marked, Consumed, Story, Follows;
    Fresh();
    var r, third := UNCONFIRMED_ONCE, BOTH + {(2, THIRD_MARK)};
    ws, acts := ThirdDecides();
    ws, acts := GrowOn(ws, acts, 2, Mark(0), ThreeRuns(r, 3, 1, Gone, Gone, Writing(Marking, r, THIRD_MARK, 3, false, false), 2, false, 3, third));
    ws, acts := GrowOn(ws, acts, 2, Attempt(Acknowledged), ThreeRuns(THIRD_MARK, 4, 2, Gone, Gone, LoggingIn(THIRD_MARK, 4), 2, false, 3, third));
    ws, acts := GrowOn(ws, acts, 2, Leave, ThreeRuns(THIRD_MARK, 4, 2, Gone, Gone, Gone, 3, true, 3, third));
    AllFollow(ws, acts);
  }
}
