/** The check-and-set record that login workloads of one account share, and how a run changes it. */
module LoginRecord {
  import opened Numbers
  import opened Options

  /** How long an attempt marker means that a login is in flight. */
  const FRESH: int := 600 * SECOND
  /** How many logins in a row may end without a session before the latch stops the next. */
  const MAX_UNCONFIRMED: nat := 2

  datatype Reason = CredentialsRejected | LoginUnconfirmed

  datatype Latch = Open | Blocked(reason: Reason, at: int)

  /** The record as it is stored: times are in whole seconds. `served` is the last request acted on
      (0: none); `marker` is set from before a login until its outcome is recorded; `rest` is what a
      run of the job writes back as it read it. */
  datatype Record = Record(latch: Latch, fingerprint: nat, unconfirmed: nat, served: nat, requestAt: Option<int>,
                           marker: Option<int>, day: int, dayCount: nat, rest: int)

  /** A clock time, in nanoseconds, as it is stored. */
  function Stamp(clock: int): int {
    clock / SECOND
  }

  /** The day a time falls on. */
  function DayOf(second: int): int {
    second / 86400
  }

  /** The marker says that a login is in flight. */
  predicate InProgress(r: Record, clock: int) {
    r.marker.Some? && -FRESH < clock - r.marker.value * SECOND < FRESH
  }

  /** The latch is set for these credentials. */
  predicate Latched(r: Record, mine: nat) {
    r.latch.Blocked? && r.fingerprint == mine
  }

  function CountLogin(r: Record, day: int): Record {
    if r.day == day then r.(dayCount := r.dayCount + 1) else r.(day := day, dayCount := 1)
  }

  /** A stale marker is a login whose outcome nobody knows: counted as one without a session. */
  function Consumed(r: Record, mine: nat, clock: int): Record
    requires r.marker.Some?
  {
    var at := r.marker.value;
    var c := CountLogin(r.(marker := None, requestAt := Some(at)), DayOf(at));
    var d := c.(unconfirmed := c.unconfirmed + 1);
    if d.unconfirmed >= MAX_UNCONFIRMED && d.latch.Open?
    then d.(latch := Blocked(LoginUnconfirmed, Stamp(clock)), fingerprint := mine)
    else d
  }

  /** What a run goes on with: a latch set for other credentials no longer applies. */
  function Unlatched(r: Record): Record {
    if r.latch.Blocked? then r.(latch := Open, unconfirmed := 0) else r
  }

  /** The record with this run's attempt marker; `request` is the request it answers (0: none). */
  function Marked(r: Record, mine: nat, request: nat, clock: int): Record {
    var u := Unlatched(r);
    var f := if request != 0 then u.(served := request, requestAt := Some(Stamp(clock))) else u;
    f.(fingerprint := mine, marker := Some(Stamp(clock)))
  }

  /** How a login phase ends. `NotSubmitted` is known to have failed before the credentials were
      submitted; `Unknown` may have submitted them. */
  datatype Outcome = Rejected | Unconfirmed | Unknown | NotSubmitted | Confirmed

  /** The record with the outcome of the login whose marker it holds. */
  function Recorded(r: Record, o: Outcome, clock: int): Record
    requires r.marker.Some?
  {
    var cleared := r.(marker := None);
    var counted := if o.NotSubmitted? then cleared else CountLogin(cleared, DayOf(r.marker.value));
    match o
    case Rejected => counted.(latch := Blocked(CredentialsRejected, Stamp(clock)))
    case Unconfirmed =>
      var more := counted.(unconfirmed := counted.unconfirmed + 1);
      if more.unconfirmed >= MAX_UNCONFIRMED then more.(latch := Blocked(LoginUnconfirmed, Stamp(clock))) else more
    case Confirmed => counted.(unconfirmed := 0)
    case _ => counted
  }

  // ---- What these do to each part of the record ----

  /** A marker made for a request notes the request and when it was acted on; a latch set for other
      credentials is gone, and so is its count. */
  lemma MarkedIs(r: Record, mine: nat, request: nat, clock: int)
    ensures var m := Marked(r, mine, request, clock);
      && m.marker == Some(clock / SECOND) && m.fingerprint == mine && m.latch.Open?
      && m.unconfirmed == (if r.latch.Blocked? then 0 else r.unconfirmed)
      && (request != 0 ==> m.served == request && m.requestAt == Some(clock / SECOND))
      && (request == 0 ==> m.served == r.served && m.requestAt == r.requestAt)
      && m.day == r.day && m.dayCount == r.dayCount && m.rest == r.rest
  {}

  /** A login of that day is counted for it, one of another day begins a new count. */
  predicate CountsOne(r: Record, c: Record, day: int) {
    c.day == day && c.dayCount == 1 + (if r.day == day then r.dayCount else 0)
  }

  /** An outcome takes the marker away, and is counted for the day of the marker when the credentials may
      have been submitted; two in a row without a session set the latch, a rejected login at once. */
  lemma RecordedIs(r: Record, o: Outcome, clock: int)
    requires r.marker.Some?
    ensures var c := Recorded(r, o, clock);
      && c.marker.None? && c.served == r.served && c.requestAt == r.requestAt && c.rest == r.rest && c.fingerprint == r.fingerprint
      && (if o == NotSubmitted then c.day == r.day && c.dayCount == r.dayCount else CountsOne(r, c, r.marker.value / 86400))
      && (o == Rejected ==> c.latch == Blocked(CredentialsRejected, clock / SECOND) && c.unconfirmed == r.unconfirmed)
      && (o == Unconfirmed ==>
            && c.unconfirmed == r.unconfirmed + 1
            && c.latch == if r.unconfirmed >= 1 then Blocked(LoginUnconfirmed, clock / SECOND) else r.latch)
      && (o == Confirmed ==> c.unconfirmed == 0 && c.latch == r.latch)
      && (o == Unknown || o == NotSubmitted ==> c.unconfirmed == r.unconfirmed && c.latch == r.latch)
  {}

  /** A stale marker is counted as a login without a session, made for a request when it was made. */
  lemma ConsumedIs(r: Record, mine: nat, clock: int)
    requires r.marker.Some?
    ensures var c := Consumed(r, mine, clock);
      && c.marker.None? && c.served == r.served && c.requestAt == r.marker && c.rest == r.rest
      && CountsOne(r, c, r.marker.value / 86400) && c.unconfirmed == r.unconfirmed + 1
      && (if r.latch.Open? && r.unconfirmed >= 1 then c.latch == Blocked(LoginUnconfirmed, clock / SECOND) && c.fingerprint == mine
          else c.latch == r.latch && c.fingerprint == r.fingerprint)
  {}

  /** A marker means a login in flight for ten minutes, either way of the clock. */
  lemma InProgressIs(r: Record, clock: int)
    ensures InProgress(r, clock) <==> r.marker.Some? && r.marker.value * SECOND - 600 * SECOND < clock < r.marker.value * SECOND + 600 * SECOND
  {}

  // ---- The protocol ----

  /** What a run is writing. */
  datatype Kind = Consuming | Serving | Marking | Recording(outcome: Outcome)

  /** Where a run is. `ver` is the version it knows and `base` the record it knows at that version;
      `uncertain` says that an attempt failed in a way that may have applied it, and `applied` that
      one was. */
  datatype Pc =
    | Idle
    | Read(base: Record, ver: nat)
    | Latching(base: Record, ver: nat)
    | Deciding(base: Record, ver: nat)
    | Writing(kind: Kind, base: Record, goal: Record, ver: nat, uncertain: bool, applied: bool)
    | ReadingBack(kind: Kind, base: Record, goal: Record, ver: nat, applied: bool)
    | LoggingIn(base: Record, ver: nat)
    | Gone

  /** Everything the runs share. `author` wrote the record's current version. `bad` is how many login
      phases in a row ended rejected, unconfirmed or unrecorded, `lost` that the record's marker is
      that of a phase that ended unrecorded, `sealed` the version at which `bad` reached two, and
      `attempts` the markers that runs have tried to write. */
  datatype World = World(record: Record, version: nat, author: int, clock: int, runs: seq<Pc>, bad: nat, lost: bool, sealed: nat,
                         attempts: set<(int, Record)>)

  /** How one attempt to write ends when nobody has written since. */
  datatype Result = Acknowledged | AppliedUnheard | FailedUnapplied | Refused

  datatype Action =
    | Tick(d: nat)
    | ReadRecord
    | Check
    | Pass
    | Serve(request: nat)
    | Mark(request: nat)
    | Attempt(result: Result)
    | ReadBack
    | EndLogin(outcome: Outcome)
    | Leave

  predicate Enabled(w: World, i: int, a: Action, mine: nat) {
    if a.Tick? then true
    else
      0 <= i < |w.runs| &&
      match (a, w.runs[i])
      case (ReadRecord, Idle) => true
      case (Check, Read(_, _)) => true
      case (Pass, Latching(base, _)) => !Latched(base, mine)
      case (Serve(_), Deciding(_, _)) => true
      case (Mark(_), Deciding(_, _)) => true
      case (Attempt(_), Writing(_, _, _, _, _, _)) => true
      case (ReadBack, ReadingBack(_, _, _, _, _)) => true
      case (EndLogin(_), LoggingIn(base, _)) => base.marker.Some?
      case (Leave, pc) => pc != Idle && pc != Gone
      case _ => false
  }

  /** The run is between its marker and its outcome: nobody else may log in. */
  predicate Holds(pc: Pc) {
    || pc.LoggingIn?
    || (pc.Writing? && pc.kind.Recording? && !pc.applied)
    || (pc.ReadingBack? && pc.kind.Recording? && !pc.applied)
  }

  function With(w: World, i: int, pc: Pc): World
    requires 0 <= i < |w.runs|
  {
    w.(runs := w.runs[i := pc])
  }

  /** Where a run goes once its record is written at version `ver`. */
  function After(kind: Kind, goal: Record, ver: nat): Pc {
    match kind
    case Consuming => Latching(goal, ver)
    case Marking => LoggingIn(goal, ver)
    case _ => Gone
  }

  /** A login phase ended rejected, unconfirmed or unrecorded. */
  function OneMoreBad(w: World, version: nat): World {
    w.(bad := w.bad + 1, sealed := if w.bad + 1 == 2 then version else w.sealed)
  }

  /** The write of run `i` is applied. */
  function Apply(w: World, i: int, kind: Kind, goal: Record): World {
    var v := w.(record := goal, version := w.version + 1, author := i, lost := false);
    if !kind.Recording? then v
    else
      match kind.outcome
      case Confirmed => v.(bad := 0)
      case Rejected => OneMoreBad(v, v.version)
      case Unconfirmed => OneMoreBad(v, v.version)
      case _ => v
  }

  /** A run ends here; when it holds the marker, its phase ends unrecorded. */
  function Quit(w: World, i: int): World
    requires 0 <= i < |w.runs|
  {
    var v := With(w, i, Gone);
    if Holds(w.runs[i]) then OneMoreBad(v.(lost := true), v.version) else v
  }

  function Next(w: World, i: int, a: Action, mine: nat): World
    requires Enabled(w, i, a, mine)
  {
    match a
    case Tick(d) => w.(clock := w.clock + d)
    case ReadRecord => With(w, i, Read(w.record, w.version))
    case Check =>
      var pc := w.runs[i];
      if InProgress(pc.base, w.clock) then With(w, i, Gone)
      else if pc.base.marker.Some? then With(w, i, Writing(Consuming, pc.base, Consumed(pc.base, mine, w.clock), pc.ver, false, false))
      else With(w, i, Latching(pc.base, pc.ver))
    case Pass => With(w, i, Deciding(w.runs[i].base, w.runs[i].ver))
    case Serve(request) =>
      var pc := w.runs[i];
      With(w, i, Writing(Serving, pc.base, Unlatched(pc.base).(served := request), pc.ver, false, false))
    case Mark(request) =>
      var pc := w.runs[i];
      var goal := Marked(pc.base, mine, request, w.clock);
      With(w, i, Writing(Marking, pc.base, goal, pc.ver, false, false)).(attempts := w.attempts + {(i, goal)})
    case Attempt(result) =>
      var pc := w.runs[i];
      if result.Refused? then Quit(w, i)
      else if pc.ver != w.version then
        (if pc.uncertain && !result.FailedUnapplied? then With(w, i, ReadingBack(pc.kind, pc.base, pc.goal, pc.ver, pc.applied))
         else if result.FailedUnapplied? then With(w, i, pc.(uncertain := true))
         else Quit(w, i))
      else
        (if result.Acknowledged? then With(Apply(w, i, pc.kind, pc.goal), i, After(pc.kind, pc.goal, w.version + 1))
         else if result.AppliedUnheard? then With(Apply(w, i, pc.kind, pc.goal), i, pc.(uncertain := true, applied := true))
         else With(w, i, pc.(uncertain := true)))
    case ReadBack =>
      var pc := w.runs[i];
      if w.record == pc.goal then With(w, i, After(pc.kind, pc.goal, w.version)) else Quit(w, i)
    case EndLogin(outcome) =>
      var pc := w.runs[i];
      With(w, i, Writing(Recording(outcome), pc.base, Recorded(pc.base, outcome, w.clock), pc.ver, false, false))
    case Leave => Quit(w, i)
  }
}
