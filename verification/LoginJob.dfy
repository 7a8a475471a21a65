/** One run of the login job, against the shared record and the portal, while other runs go on. */
module LoginJob {
  import opened Numbers
  import opened Options
  import opened LoginRecord
  import opened LoginProtocol

  // ---- The shared record, with every other run at work on it ----

  class Shared {
    var world: World
    const mine: nat
    ghost var worlds: seq<World>
    ghost var acts: seq<(int, Action)>

    ghost predicate Valid()
      reads this
    {
      |worlds| > 0 && History(worlds, acts, mine) && world == worlds[|worlds| - 1]
    }

    constructor (world: World, mine: nat)
      requires Init(world)
      ensures Valid() && this.world == world && this.mine == mine
    {
      this.world, this.mine := world, mine;
      worlds, acts := [world], [];
    }

    /** One step of the protocol. */
    method Do(i: int, a: Action)
      requires Valid() && Enabled(world, i, a, mine)
      modifies this
      ensures Valid() && world == Next(old(world), i, a, mine) && old(worlds) <= worlds
    {
      hide Next, Enabled, Init;
      ghost var w := world;
      world := Next(world, i, a, mine);
      HistoryGrows(worlds, acts, i, a, mine, world);
      worlds, acts := worlds + [world], acts + [(i, a)];
    }

    /** What others do, and the time that passes, between two steps of run `i`. */
    method Others(i: int)
      requires Valid() && 0 <= i < |world.runs|
      modifies this
      ensures Valid() && |world.runs| == |old(world).runs| && world.runs[i] == old(world).runs[i]
      ensures world.clock >= old(world).clock && world.version >= old(world).version && old(worlds) <= worlds
    {
      hide Next, Init, History;
      var steps: nat := *;
      var n := 0;
      while n < steps
        invariant Valid() && |world.runs| == |old(world).runs| && world.runs[i] == old(world).runs[i]
        invariant world.clock >= old(world).clock && world.version >= old(world).version && old(worlds) <= worlds
      {
        var j: int := *;
        var a: Action := *;
        if Enabled(world, j, a, mine) && (a.Tick? || j != i) {
          StepOfAnother(world, j, a, mine, i);
          Do(j, a);
        }
        n := n + 1;
      }
    }
  }

  lemma HistoryGrows(ws: seq<World>, acts: seq<(int, Action)>, i: int, a: Action, mine: nat, w: World)
    requires History(ws, acts, mine) && Enabled(ws[|ws| - 1], i, a, mine) && w == Next(ws[|ws| - 1], i, a, mine)
    ensures History(ws + [w], acts + [(i, a)], mine)
  {}

  lemma StepOfAnother(w: World, j: int, a: Action, mine: nat, i: int)
    requires Enabled(w, j, a, mine) && (a.Tick? || j != i) && 0 <= i < |w.runs|
    ensures var v := Next(w, j, a, mine);
      |v.runs| == |w.runs| && v.runs[i] == w.runs[i] && v.clock >= w.clock && v.version >= w.version
  {
    hide Consumed, Marked, Recorded, Unlatched, InProgress, After, Holds, Quit, Apply;
    if !a.Tick? {
      QuitEffect(w, j);
      if a.Attempt? {
        ApplyEffect(w, j, w.runs[j].kind, w.runs[j].goal);
      }
    }
  }

  lemma QuitEffect(w: World, j: int)
    requires 0 <= j < |w.runs|
    ensures var v := Quit(w, j); v.runs == w.runs[j := Gone] && v.clock == w.clock && v.version == w.version
  {
    hide Holds;
  }

  lemma ApplyEffect(w: World, j: int, kind: Kind, goal: Record)
    ensures var v := Apply(w, j, kind, goal); v.runs == w.runs && v.clock == w.clock && v.version == w.version + 1
  {}

  /** What an attempt to write does to its run. */
  lemma AttemptEffect(w: World, i: int, result: Result, mine: nat)
    requires Enabled(w, i, Attempt(result), mine)
    ensures
      var v, pc := Next(w, i, Attempt(result), mine), w.runs[i];
      var next := v.runs[i];
      && |v.runs| == |w.runs| && v.clock == w.clock
      && (if result.Acknowledged? && pc.ver == w.version then v.record == pc.goal && next == After(pc.kind, pc.goal, v.version)
          else next.Gone? || (Writes(next) && next.kind == pc.kind && next.goal == pc.goal))
  {
    hide Consumed, Marked, Recorded, Unlatched, InProgress, After, Holds;
  }

  lemma ReadBackEffect(w: World, i: int, a: Action, mine: nat)
    requires Enabled(w, i, a, mine) && (a.ReadBack? || a.Leave?)
    ensures
      var v, pc := Next(w, i, a, mine), w.runs[i];
      && |v.runs| == |w.runs| && v.clock == w.clock && v.record == w.record && v.version == w.version
      && v.runs[i] == (if a.ReadBack? && w.record == pc.goal then After(pc.kind, pc.goal, w.version) else Gone)
  {
    hide After, Holds;
  }

  // ---- The portal ----

  datatype LoginResult = Session | NoSession | RejectedByPortal | FailedBeforeSubmit | FailedOtherwise

  datatype Touch = Probe(answer: ProbeResult) | SignInPage(answer: ProbeResult) | Login(result: LoginResult, at: int)

  datatype ProbeResult = Accepted | Expired | Unanswered

  /** The portal; `blackout` says when a login must not be started. */
  class Portal {
    const blackout: int -> bool
    var log: seq<Touch>

    /** A read of the home page. */
    method ProbeHome() returns (r: ProbeResult)
      modifies this
      ensures log == old(log) + [Probe(r)]
    {
      r := *;
      log := log + [Probe(r)];
    }

    method SignIn() returns (r: ProbeResult)
      modifies this
      ensures log == old(log) + [SignInPage(r)]
    {
      r := *;
      log := log + [SignInPage(r)];
    }

    /** The only operation that submits the credentials. */
    method Submit(clock: int) returns (r: LoginResult)
      requires !blackout(clock)
      modifies this
      ensures log == old(log) + [Login(r, clock)]
    {
      r := *;
      log := log + [Login(r, clock)];
    }
  }

  /** The logins among what the portal was asked. */
  function Logins(log: seq<Touch>): seq<LoginResult> {
    if log == [] then []
    else
      var init, last := Logins(log[..|log| - 1]), log[|log| - 1];
      if last.Login? then init + [last.result] else init
  }

  lemma LoginsAfter(log: seq<Touch>, t: Touch)
    ensures Logins(log + [t]) == if t.Login? then Logins(log) + [t.result] else Logins(log)
  {
    assert (log + [t])[..|log|] == log;
  }

  const MAX_LOGINS: nat := 2
  const WRITE_ATTEMPTS: nat := 3
  const VERIFY_ATTEMPTS: nat := 3

  // ---- The parts of a run ----

  /** Stores what the run is writing, so that it is applied once whatever the answers: the run goes
      on when it is stored, and is over when it is not. */
  method WriteStateOnce(s: Shared, i: int) returns (ok: bool)
    requires s.Valid() && 0 <= i < |s.world.runs| && s.world.runs[i].Writing?
    modifies s
    ensures s.Valid() && |s.world.runs| == |old(s.world).runs| && s.world.clock >= old(s.world).clock && old(s.worlds) <= s.worlds
    ensures ok ==> s.world.record == old(s.world).runs[i].goal
                   && s.world.runs[i] == After(old(s.world).runs[i].kind, s.world.record, s.world.version)
    ensures !ok ==> s.world.runs[i].Gone?
  {
    hide History, Next, After;
    var goal := s.world.runs[i].goal;
    ghost var kind := s.world.runs[i].kind;
    var attempt := 1;
    while attempt <= WRITE_ATTEMPTS
      invariant s.Valid() && |s.world.runs| == |old(s.world).runs| && s.world.clock >= old(s.world).clock && old(s.worlds) <= s.worlds
      invariant s.world.runs[i].Writing? && s.world.runs[i].kind == kind && s.world.runs[i].goal == goal
    {
      s.Others(i);
      var result: Result := *;
      ok := result.Acknowledged? && s.world.runs[i].ver == s.world.version;
      AttemptEffect(s.world, i, result, s.mine);
      s.Do(i, Attempt(result));
      if ok || s.world.runs[i].Gone? {
        return;
      }
      if s.world.runs[i].ReadingBack? {
        s.Others(i);
        var read: bool := *;
        ok := read && s.world.record == goal;
        ReadBackEffect(s.world, i, if read then ReadBack else Leave, s.mine);
        s.Do(i, if read then ReadBack else Leave);
        return;
      }
      var interrupted: bool := *;
      if interrupted {
        break;
      }
      attempt := attempt + 1;
    }
    End(s, i);
    ok := false;
  }

  /** The run gives up. */
  method End(s: Shared, i: int)
    requires s.Valid() && 0 <= i < |s.world.runs| && s.world.runs[i] != Idle && s.world.runs[i] != Gone
    modifies s
    ensures s.Valid() && |s.world.runs| == |old(s.world).runs| && s.world.clock == old(s.world).clock && old(s.worlds) <= s.worlds
    ensures s.world.runs[i].Gone? && s.world.record == old(s.world).record
  {
    hide History, Next, Holds;
    ReadBackEffect(s.world, i, Leave, s.mine);
    s.Do(i, Leave);
  }

  /** How the browser's part of a run ended. */
  datatype LoginPhase = LoggedIn | Ended(outcome: Outcome)

  /** The outcome the record is given for what the portal did. */
  function OutcomeOf(results: seq<LoginResult>): LoginPhase {
    if results == [] then Ended(NotSubmitted)
    else
      match results[|results| - 1]
      case Session => LoggedIn
      case NoSession => Ended(Unconfirmed)
      case RejectedByPortal => Ended(Rejected)
      case FailedBeforeSubmit => Ended(NotSubmitted)
      case FailedOtherwise => Ended(Unknown)
  }

  /** The browser login: at most two, the second only after one that is known to have failed before
      the credentials were submitted, and none inside the blackout. */
  method RunLogin(s: Shared, i: int, portal: Portal) returns (phase: LoginPhase, logins: nat, ghost results: seq<LoginResult>)
    requires s.Valid() && 0 <= i < |s.world.runs| && s.world.runs[i].LoggingIn?
    modifies s, portal
    ensures s.Valid() && |s.world.runs| == |old(s.world).runs| && s.world.runs[i] == old(s.world).runs[i]
    ensures Logins(portal.log) == Logins(old(portal.log)) + results
    ensures logins == |results| <= MAX_LOGINS && (|results| == 2 ==> results[0].FailedBeforeSubmit?)
    ensures phase == OutcomeOf(results)
    ensures forall n :: |old(portal.log)| <= n < |portal.log| && portal.log[n].Login? ==> !portal.blackout(portal.log[n].at)
    ensures |portal.log| >= |old(portal.log)| && portal.log[..|old(portal.log)|] == old(portal.log)
    ensures s.world.clock >= old(s.world).clock && old(s.worlds) <= s.worlds
  {
    hide History, Next;
    phase, logins, results := Ended(NotSubmitted), 0, [];
    var attempt := 1;
    while attempt <= MAX_LOGINS
      invariant 1 <= attempt <= MAX_LOGINS + 1 && logins == |results| == attempt - 1 && (|results| > 0 ==> attempt <= MAX_LOGINS)
      invariant s.Valid() && |s.world.runs| == |old(s.world).runs| && s.world.runs[i] == old(s.world).runs[i]
      invariant s.world.clock >= old(s.world).clock && old(s.worlds) <= s.worlds
      invariant Logins(portal.log) == Logins(old(portal.log)) + results
      invariant forall n :: 0 <= n < |results| ==> results[n].FailedBeforeSubmit?
      invariant phase == Ended(NotSubmitted)
      invariant forall n :: |old(portal.log)| <= n < |portal.log| && portal.log[n].Login? ==> !portal.blackout(portal.log[n].at)
      invariant |portal.log| >= |old(portal.log)| && portal.log[..|old(portal.log)|] == old(portal.log)
    {
      s.Others(i);
      if portal.blackout(s.world.clock) {
        return;
      }
      ghost var log := portal.log;
      var r := portal.Submit(s.world.clock);
      LoginsAfter(log, Login(r, s.world.clock));
      logins, results := logins + 1, results + [r];
      if !r.FailedBeforeSubmit? {
        phase := if r.Session? then LoggedIn else Ended(if r.NoSession? then Unconfirmed else if r.RejectedByPortal? then Rejected else Unknown);
        return;
      }
      if attempt == MAX_LOGINS {
        return;
      }
      var interrupted: bool := *;
      if interrupted {
        return;
      }
      attempt := attempt + 1;
    }
  }

  /** Reads the home page with the new session until it is answered, three times at most. */
  method ConfirmSession(portal: Portal) returns (ok: bool)
    modifies portal
    ensures Logins(portal.log) == Logins(old(portal.log)) && old(portal.log) <= portal.log
    ensures 1 <= |portal.log| - |old(portal.log)| <= VERIFY_ATTEMPTS
    ensures forall n :: |old(portal.log)| <= n < |portal.log| - 1 ==> portal.log[n] == Probe(Unanswered)
    ensures portal.log[|portal.log| - 1].Probe? && (ok <==> portal.log[|portal.log| - 1] == Probe(Accepted))
  {
    ok := false;
    var attempt := 1;
    while attempt <= VERIFY_ATTEMPTS
      invariant 1 <= attempt <= VERIFY_ATTEMPTS + 1 && |portal.log| == |old(portal.log)| + attempt - 1
      invariant Logins(portal.log) == Logins(old(portal.log)) && old(portal.log) <= portal.log && !ok
      invariant forall n :: |old(portal.log)| <= n < |portal.log| ==> portal.log[n] == Probe(Unanswered)
    {
      ghost var log := portal.log;
      var r := portal.ProbeHome();
      LoginsAfter(log, Probe(r));
      if r.Accepted? {
        return true;
      }
      var interrupted: bool := *;
      if r.Expired? || interrupted {
        return;
      }
      attempt := attempt + 1;
    }
  }

  // ---- A run ----

  /** `at` is the request's own time; `id` is the field as read, which is never empty. */
  datatype Request = Request(id: nat, at: int, fingerprint: nat)

  datatype Field = Unreadable | NoRequest | Garbled | Asked(request: Request)

  /** The session in Vault: when it was made (None: unknown) and the fingerprint of its content. */
  datatype Stored = NoStored | Stored(loggedInAt: Option<int>, fingerprint: nat, usable: bool)

  /** What Vault makes of a call. */
  datatype Access = Granted | Down | Refusing

  datatype Config = Config(requestMode: bool, requestMaxAge: nat, requestMinInterval: nat, minSessionAge: nat)

  const REQUEST_SKEW: int := 120 * SECOND

  datatype Exit = Success | Transient | BadCredentials | VaultRejected | LoginUnconfirmedExit | LoginBlocked | SignInUnrecognised
    | StateConflict

  datatype Keep = KeepYes | KeepNo | KeepUndetermined

  /** The request to act on, when there is one: well formed, not from the future, and not so old that
      nobody waits for it. */
  function PendingRequest(field: Field, clock: int, cfg: Config): Option<Request> {
    if !field.Asked? || field.request.id == 0 then None
    else
      var age := clock - field.request.at;
      if age < -REQUEST_SKEW || age > cfg.requestMaxAge then None else Some(field.request)
  }

  /** How long ago the stored session was made. */
  function AgeOf(loggedInAt: int, clock: int): int {
    if clock < loggedInAt then 0 else clock - loggedInAt
  }

  /** The stored session is young, and not the one the connector has just found dead. */
  predicate WorthAsking(stored: Stored, request: Option<Request>, cfg: Config, clock: int) {
    && stored.Stored? && stored.usable && stored.loggedInAt.Some? && Max(0, clock - stored.loggedInAt.value) < cfg.minSessionAge
    && !(request.Some? && request.value.fingerprint == stored.fingerprint != 0)
  }

  function KeepOn(answer: ProbeResult): Keep {
    match answer
    case Accepted => KeepYes
    case Expired => KeepNo
    case Unanswered => KeepUndetermined
  }

  /** Whether the stored session makes a login unnecessary. The portal is asked only about a session
      that is young and is not the one the connector has just found dead. */
  method KeepStoredFor(portal: Portal, stored: Stored, request: Option<Request>, cfg: Config, clock: int)
    returns (keep: Keep, ghost asked: Option<ProbeResult>)
    modifies portal
    ensures Logins(portal.log) == Logins(old(portal.log)) && portal.log == old(portal.log) + Touched(asked, None)
    ensures asked.Some? <==> WorthAsking(stored, request, cfg, clock)
    ensures keep == match asked case None => KeepNo case Some(Accepted) => KeepYes case Some(Expired) => KeepNo case Some(Unanswered) => KeepUndetermined
  {
    hide Logins;
    asked := None;
    if stored.NoStored? || !stored.usable {
      return KeepNo, asked;
    }
    if request.Some? && request.value.fingerprint != 0 && request.value.fingerprint == stored.fingerprint {
      return KeepNo, asked;
    }
    if stored.loggedInAt.None? {
      return KeepNo, asked;
    }
    if AgeOf(stored.loggedInAt.value, clock) >= cfg.minSessionAge {
      return KeepNo, asked;
    }
    ghost var log := portal.log;
    var r := portal.ProbeHome();
    LoginsAfter(log, Probe(r));
    keep, asked := KeepOn(r), Some(r);
  }

  /** What a run did: the request it acted on, the record it read and when it checked it, the record it
      decided on and when, what the portal said about the stored session and as its sign-in page, when its marker was made (None: it made none), how
      its logins went, and whether their outcome was recorded. */
  datatype Account = Account(request: Option<Request>, read: Option<Record>, checkedAt: int, base: Option<Record>, decidedAt: int,
                             asked: Option<ProbeResult>, page: Option<ProbeResult>,
                             markedAt: Option<int>, results: seq<LoginResult>, recorded: bool)

  /** The request a run acts on: one that is well formed, at most two minutes ahead of the clock and at most
      as old as is allowed. */
  predicate ToActOn(field: Field, clock: int, cfg: Config) {
    && field.Asked? && field.request.id != 0
    && field.request.at - 120 * SECOND <= clock <= field.request.at + cfg.requestMaxAge
  }

  /** What a run goes on with: a stale marker is counted first. */
  function AfterMarker(r: Record, mine: nat, at: int): Record {
    if r.marker.Some? then Consumed(r, mine, at) else r
  }

  /** Reads the record and looks at its marker. */
  method ReadRecordOf(s: Shared, i: int) returns (ghost read: Record, ghost at: int)
    requires s.Valid() && 0 <= i < |s.world.runs| && s.world.runs[i].Idle?
    modifies s
    ensures s.Valid() && |s.world.runs| == |old(s.world).runs| && s.world.clock >= old(s.world).clock && old(s.worlds) <= s.worlds
    ensures
      var pc := s.world.runs[i];
      if InProgress(read, at) then pc.Gone?
      else if read.marker.Some? then pc.Writing? && pc.kind.Consuming? && pc.goal == Consumed(read, s.mine, at)
      else pc.Latching? && pc.base == read
  {
    hide History, Consumed;
    s.Others(i);
    s.Do(i, ReadRecord);
    read := s.world.record;
    s.Others(i);
    at := s.world.clock;
    s.Do(i, Check);
  }

  /** No login may follow: two phases in a row ended rejected, unconfirmed or unrecorded, or the latch
      is set. */
  ghost predicate NoLoginLeft(w: World, mine: nat) {
    w.bad == 2 || Latched(w.record, mine)
  }

  /** In a sound history a run that was idle then never comes as far as deciding. */
  lemma NoneDecidesLater(ws: seq<World>, acts: seq<(int, Action)>, mine: nat, k: nat, i: int)
    requires History(ws, acts, mine) && k < |ws| && 0 <= i < |ws[k].runs| && ws[k].runs[i].Idle?
    requires |ws[|ws| - 1].runs| == |ws[k].runs| && ws[|ws| - 1].runs[i].Deciding?
    ensures NoLoginLeft(ws[k], mine) ==> !Sound(ws, |ws|)
  {
    hide Shut, KnowsSince, AnyHolds, NoneTooLate, NoMixUp;
    var l := |ws| - 1;
    if NoLoginLeft(ws[k], mine) && Sound(ws, |ws|) {
      if ws[k].bad == 2 {
        NoPortalAfterTwo(ws, acts, mine, k, l, i);
      } else {
        NoPortalOnceLatched(ws, acts, mine, k, l, i);
      }
      assert false;
    }
  }

  /** The steps up to the decision: it ends with the run deciding, or over. A login in flight ends it, and
      so does the latch; a marker left behind is counted, and the count is written, before anything
      else. */
  method ReadAndCheck(s: Shared, i: int) returns (exit: Option<Exit>, ghost read: Record, ghost at: int)
    requires s.Valid() && 0 <= i < |s.world.runs| && s.world.runs[i].Idle?
    modifies s
    ensures s.Valid() && |s.world.runs| == |old(s.world).runs| && s.world.clock >= old(s.world).clock && old(s.worlds) <= s.worlds
    ensures exit.None? && NoLoginLeft(old(s.world), s.mine) ==> !Sound(s.worlds, |s.worlds|)
    ensures exit.None? ==> s.world.runs[i].Deciding? && s.world.runs[i].base == AfterMarker(read, s.mine, at)
    ensures exit.Some? ==> s.world.runs[i].Gone?
    ensures exit == Some(Success) <==> InProgress(read, at)
    ensures read.marker.None? ==> (exit == Some(LoginBlocked) <==> Latched(read, s.mine)) && (exit.None? <==> !Latched(read, s.mine))
    ensures exit == Some(LoginBlocked) || exit.None? ==> (exit.Some? <==> Latched(AfterMarker(read, s.mine, at), s.mine))
    ensures exit.Some? ==> exit.value.Success? || exit.value.LoginBlocked? || exit.value.Transient? || exit.value.VaultRejected?
  {
    hide History, NoLoginLeft, Sound, Consumed;
    ghost var k := |s.worlds| - 1;
    read, at := ReadRecordOf(s, i);
    if s.world.runs[i].Gone? {
      return Some(Success), read, at;
    }
    if s.world.runs[i].Writing? {
      var ok := WriteStateOnce(s, i);
      if !ok {
        var refused: bool := *;
        return Some(VaultFailure(refused)), read, at;
      }
    }
    if Latched(s.world.runs[i].base, s.mine) {
      End(s, i);
      return Some(LoginBlocked), read, at;
    }
    s.Do(i, Pass);
    exit := None;
    NoneDecidesLater(s.worlds, s.acts, s.mine, k, i);
  }

  /** The last login made for a request is too recent. */
  predicate TooSoon(base: Record, clock: int, cfg: Config) {
    base.requestAt.Some? && clock - base.requestAt.value * SECOND < cfg.requestMinInterval
  }

  /** How a run ends on a failure of Vault, which may have refused. */
  function VaultFailure(refused: bool): Exit {
    if refused then VaultRejected else Transient
  }

  function FailureOf(reading: Access): Option<Exit> {
    if reading.Granted? then None else Some(VaultFailure(reading.Refusing?))
  }

  /** How the run ends without asking the portal anything, when it does: the request is served, or too
      recent, or answered by the stored session, or the stored session cannot be read. */
  function Answered(base: Record, clock: int, request: Option<Request>, stored: Stored, cfg: Config, failure: Option<Exit>): (exit: Option<Exit>)
    ensures exit.Some? ==> exit == Some(Success) || exit == failure
    ensures request.Some? && (base.served == request.value.id || TooSoon(base, clock, cfg)) ==> exit == Some(Success)
  {
    match request
    case None => failure
    case Some(r) =>
      if base.served == r.id || TooSoon(base, clock, cfg) then Some(Success)
      else if failure.Some? then failure
      else if stored.Stored? && stored.loggedInAt.Some? && stored.loggedInAt.value >= r.at then Some(Success)
      else None
  }

  /** What the portal was asked while deciding: about the stored session, and for its sign-in page. */
  function Touched(asked: Option<ProbeResult>, page: Option<ProbeResult>): seq<Touch> {
    (if asked.Some? then [Probe(asked.value)] else []) + (if page.Some? then [SignInPage(page.value)] else [])
  }

  /** A request to be acted on is left alone when the record says that it was served, or that a login was
      made for one too short a time ago. */
  predicate LeftAlone(base: Record, clock: int, request: Option<Request>, cfg: Config) {
    && request.Some?
    && (base.served == request.value.id
        || (base.requestAt.Some? && clock < base.requestAt.value * SECOND + cfg.requestMinInterval))
  }

  /** How a run decides, in terms of what the portal said. `exit` is None when it logs in. */
  ghost predicate Decided(base: Record, clock: int, request: Option<Request>, stored: Stored, cfg: Config, canWrite: bool,
                          reading: Access, asked: Option<ProbeResult>, page: Option<ProbeResult>, exit: Option<Exit>)
  {
    if LeftAlone(base, clock, request, cfg) then exit == Some(Success) && asked.None? && page.None?
    else if !reading.Granted? then exit == Some(if reading.Down? then Transient else VaultRejected) && asked.None? && page.None?
    else if request.Some? && stored.Stored? && stored.loggedInAt.Some? && stored.loggedInAt.value >= request.value.at then
      exit == Some(Success) && asked.None? && page.None?
    else DecidedByPortal(clock, request, stored, cfg, canWrite, asked, page, exit)
  }

  /** A stored session that the portal still accepts is kept and one it did not tell about is not touched;
      only otherwise is the sign-in page read, and only the known one is logged in to. */
  ghost predicate DecidedByPortal(clock: int, request: Option<Request>, stored: Stored, cfg: Config, canWrite: bool,
                                  asked: Option<ProbeResult>, page: Option<ProbeResult>, exit: Option<Exit>)
  {
    && (asked.Some? <==> WorthAsking(stored, request, cfg, clock))
    && (page.Some? <==> (asked.None? || asked == Some(Expired)) && canWrite)
    && (asked == Some(Accepted) ==> exit == Some(Success))
    && (asked == Some(Unanswered) ==> exit == Some(Transient))
    && ((asked.None? || asked == Some(Expired)) && !canWrite ==> exit == Some(VaultRejected))
    && (page == Some(Accepted) ==> exit == None)
    && (page == Some(Expired) ==> exit == Some(SignInUnrecognised))
    && (page == Some(Unanswered) ==> exit == Some(Transient))
  }

  /** What the portal said decides over a login. */
  lemma DecidedMeans(base: Record, clock: int, request: Option<Request>, stored: Stored, cfg: Config, canWrite: bool,
                     reading: Access, asked: Option<ProbeResult>, page: Option<ProbeResult>, exit: Option<Exit>)
    requires Decided(base, clock, request, stored, cfg, canWrite, reading, asked, page, exit)
    ensures exit.None? <==> page == Some(Accepted)
    ensures exit.None? ==> canWrite && reading.Granted? && (asked.None? || asked == Some(Expired)) && !LeftAlone(base, clock, request, cfg)
    ensures exit.Some? ==> exit.value in {Success, Transient, VaultRejected, SignInUnrecognised}
    ensures asked == Some(Accepted) ==> exit == Some(Success)
    ensures asked == Some(Unanswered) ==> exit == Some(Transient)
  {
    assert asked.Some? ==> asked.value.Accepted? || asked.value.Expired? || asked.value.Unanswered?;
    assert page.Some? ==> page.value.Accepted? || page.value.Expired? || page.value.Unanswered?;
  }

  /** The record notes a request as served and is otherwise the one the run decided on, without a latch
      that was set for other credentials. */
  predicate NotesServed(base: Record, record: Record, request: nat) {
    && record.served == request && record.marker == base.marker && record.requestAt == base.requestAt && record.latch.Open?
    && record.fingerprint == base.fingerprint && record.day == base.day && record.dayCount == base.dayCount && record.rest == base.rest
  }

  /** Whether to log in, for a run that the latch lets pass. `reading` is how reading the stored session
      went; `exit` says how the run ends when it does not log in, `version` is that of the stored session
      as it was read, and `noted` says that a request answered by the stored session was recorded as served. */
  method Decide(s: Shared, i: int, portal: Portal, store: SessionStore, cfg: Config, request: Option<Request>, reading: Access,
                stored: Stored, canWrite: bool)
    returns (exit: Option<Exit>, version: nat, ghost asked: Option<ProbeResult>, ghost page: Option<ProbeResult>, ghost noted: bool)
    requires s.Valid() && 0 <= i < |s.world.runs| && s.world.runs[i].Deciding?
    modifies s, portal, store`version
    ensures old(store.version) <= version <= store.version
    ensures s.Valid() && |s.world.runs| == |old(s.world).runs| && s.world.clock >= old(s.world).clock && old(s.worlds) <= s.worlds
    ensures portal.log == old(portal.log) + Touched(asked, page) && Logins(portal.log) == Logins(old(portal.log))
    ensures Decided(old(s.world).runs[i].base, old(s.world).clock, request, stored, cfg, canWrite, reading, asked, page, exit)
    ensures if exit.Some? then s.world.runs[i].Gone? else s.world.runs[i] == old(s.world).runs[i]
    ensures asked != Some(Accepted) && page.None? ==> s.world.record == old(s.world).record
    ensures noted ==> asked == Some(Accepted) && request.Some? && NotesServed(old(s.world).runs[i].base, s.world.record, request.value.id)
  {
    hide History, Logins, DecidedByPortal, NotesServed;
    store.Others();
    version := store.version;
    asked, page, noted := None, None, false;
    exit := Answered(s.world.runs[i].base, s.world.clock, request, stored, cfg, FailureOf(reading));
    if exit.Some? {
      End(s, i);
    } else {
      exit, asked, page, noted := AskPortal(s, i, portal, cfg, request, stored, canWrite);
    }
  }

  /** The part of the decision that may ask the portal: whether the stored session is to be kept, and
      whether its sign-in page is the one the job knows. */
  method AskPortal(s: Shared, i: int, portal: Portal, cfg: Config, request: Option<Request>, stored: Stored, canWrite: bool)
    returns (exit: Option<Exit>, ghost asked: Option<ProbeResult>, ghost page: Option<ProbeResult>, ghost noted: bool)
    requires s.Valid() && 0 <= i < |s.world.runs| && s.world.runs[i].Deciding?
    modifies s, portal
    ensures s.Valid() && |s.world.runs| == |old(s.world).runs| && s.world.clock >= old(s.world).clock && old(s.worlds) <= s.worlds
    ensures portal.log == old(portal.log) + Touched(asked, page) && Logins(portal.log) == Logins(old(portal.log))
    ensures DecidedByPortal(old(s.world).clock, request, stored, cfg, canWrite, asked, page, exit)
    ensures if exit.Some? then s.world.runs[i].Gone? else s.world.runs[i] == old(s.world).runs[i]
    ensures asked != Some(Accepted) && page.None? ==> s.world.record == old(s.world).record
    ensures noted ==> asked == Some(Accepted) && request.Some? && NotesServed(old(s.world).runs[i].base, s.world.record, request.value.id)
  {
    hide History, Logins, Next, NotesServed, WorthAsking;
    var keep;
    keep, asked := KeepStoredFor(portal, stored, request, cfg, s.world.clock);
    page, noted := None, false;
    if keep.KeepYes? && request.Some? {
      noted := MarkServed(s, i, request.value.id);
      return Some(Success), asked, page, noted;
    }
    if !keep.KeepNo? || !canWrite {
      End(s, i);
      return Some(if keep.KeepYes? then Success else if keep.KeepUndetermined? then Transient else VaultRejected), asked, page, noted;
    }
    ghost var log := portal.log;
    var answer := portal.SignIn();
    page := Some(answer);
    LoginsAfter(log, SignInPage(answer));
    s.Others(i);
    if answer.Accepted? {
      return None, asked, page, noted;
    }
    End(s, i);
    exit := Some(if answer.Expired? then SignInUnrecognised else Transient);
  }

  /** Notes in the record that a request is served by the stored session; a failed write ends the run
      all the same. */
  method MarkServed(s: Shared, i: int, request: nat) returns (ok: bool)
    requires s.Valid() && 0 <= i < |s.world.runs| && s.world.runs[i].Deciding?
    modifies s
    ensures s.Valid() && |s.world.runs| == |old(s.world).runs| && s.world.clock >= old(s.world).clock && old(s.worlds) <= s.worlds
    ensures s.world.runs[i].Gone?
    ensures ok ==> NotesServed(old(s.world).runs[i].base, s.world.record, request)
  {
    hide History;
    s.Do(i, Serve(request));
    ok := WriteStateOnce(s, i);
  }

  /** What the browser's part comes to: the outcome to record, and how the run ends when there is no
      session to store. */
  method Conclude(portal: Portal, phase: LoginPhase, logins: nat) returns (outcome: Outcome, exit: Exit)
    modifies portal
    ensures Logins(portal.log) == Logins(old(portal.log)) && old(portal.log) <= portal.log
    ensures forall n :: |old(portal.log)| <= n < |portal.log| ==> portal.log[n].Probe?
    ensures phase.Ended? ==> outcome == phase.outcome && portal.log == old(portal.log)
    ensures phase.LoggedIn? ==> outcome == if portal.log != old(portal.log) && portal.log[|portal.log| - 1] == Probe(Accepted) then Confirmed else Unconfirmed
    ensures exit.BadCredentials? <==> phase == Ended(Rejected)
    ensures exit.Success? <==> (phase.LoggedIn? && outcome.Confirmed?) || (phase == Ended(NotSubmitted) && logins == 0)
    ensures !exit.LoginBlocked? && !exit.StateConflict?
  {
    if phase.Ended? {
      outcome := phase.outcome;
      exit := match outcome
              case Rejected => BadCredentials
              case Unconfirmed => LoginUnconfirmedExit
              case NotSubmitted => if logins == 0 then Success else Transient
              case Unknown => Transient
              case Confirmed => Transient;
      return;
    }
    var cookies: bool := *;
    var confirmed := false;
    if cookies {
      confirmed := ConfirmSession(portal);
    }
    outcome := if confirmed then Confirmed else Unconfirmed;
    exit := if confirmed then Success else LoginUnconfirmedExit;
  }

  // ---- The session's own path in Vault ----

  datatype WriteResult = Written | Mismatch | Refused | Failed

  /** The session secret, which other workloads write too. `replaced` lists the versions that this
      run's writes replaced. */
  class SessionStore {
    var version: nat
    ghost var replaced: seq<nat>

    method Others()
      modifies this`version
      ensures version >= old(version)
    {
      var now: nat := *;
      if now > version {
        version := now;
      }
    }

    /** A write that is answered with a failure may have been applied. */
    method Write(cas: nat) returns (r: WriteResult)
      modifies this
      ensures replaced == old(replaced) || (replaced == old(replaced) + [cas] && old(version) == cas && version == cas + 1)
      ensures replaced == old(replaced) ==> version == old(version) && !r.Written?
      ensures replaced != old(replaced) ==> r.Written? || r.Failed?
      ensures r.Mismatch? ==> version != cas
    {
      var applied, refused: bool := *, *;
      r := *;
      if version == cas && applied {
        version, replaced := version + 1, replaced + [cas];
        r := if r.Written? then Written else Failed;
      } else if refused {
        r := WriteResult.Refused;
      } else {
        r := if version == cas || !r.Mismatch? then Failed else Mismatch;
      }
    }
  }

  /** Stores the confirmed session, check-and-set against the version read before the login. When
      somebody wrote since, the portal is asked once more whether this run's session is the live one;
      `known` is the version that was read before it said so. */
  method WriteSession(store: SessionStore, portal: Portal, read: nat) returns (exit: Exit, ghost known: Option<nat>)
    modifies store, portal
    ensures exit.Success? || exit.Transient? || exit.VaultRejected?
    ensures old(store.replaced) <= store.replaced
    ensures exit.Success? ==> |store.replaced| > |old(store.replaced)| && store.version == store.replaced[|store.replaced| - 1] + 1
    ensures forall n :: |old(store.replaced)| <= n < |store.replaced| ==> store.replaced[n] == read || known == Some(store.replaced[n])
    ensures known.Some? ==> portal.log == old(portal.log) + [Probe(Accepted)]
    ensures known.None? ==>
              || portal.log == old(portal.log)
              || (exit.Transient? && exists r :: r != Accepted && portal.log == old(portal.log) + [Probe(r)])
    ensures Logins(portal.log) == Logins(old(portal.log))
  {
    hide Logins;
    known := None;
    var cas, attempt, rechecked := read, 1, false;
    while attempt <= WRITE_ATTEMPTS
      invariant old(store.replaced) <= store.replaced && cas == (if known.Some? then known.value else read) && (rechecked <==> known.Some?)
      invariant forall n :: |old(store.replaced)| <= n < |store.replaced| ==> store.replaced[n] == read || known == Some(store.replaced[n])
      invariant portal.log == if known.Some? then old(portal.log) + [Probe(Accepted)] else old(portal.log)
      invariant Logins(portal.log) == Logins(old(portal.log))
      decreases !rechecked, WRITE_ATTEMPTS - attempt
    {
      store.Others();
      var r := store.Write(cas);
      if r.Written? {
        return Success, known;
      }
      if r.Mismatch? && !rechecked {
        store.Others();
        var readable, refused: bool := *, *;
        if !readable {
          return VaultFailure(refused), known;
        }
        var current := store.version;
        ghost var log := portal.log;
        var alive := portal.ProbeHome();
        LoginsAfter(log, Probe(alive));
        if !alive.Accepted? {
          return Transient, known;
        }
        cas, rechecked, known := current, true, Some(current);
      } else {
        var interrupted: bool := *;
        if r.Refused? || r.Mismatch? {
          return VaultRejected, known;
        }
        if interrupted {
          return Transient, known;
        }
        attempt := attempt + 1;
      }
    }
    exit := Transient;
  }

  /** The run makes its attempt marker. */
  method WriteMarker(s: Shared, i: int, request: nat) returns (ok: bool)
    requires s.Valid() && 0 <= i < |s.world.runs| && s.world.runs[i].Deciding?
    modifies s
    ensures s.Valid() && |s.world.runs| == |old(s.world).runs| && s.world.clock >= old(s.world).clock && old(s.worlds) <= s.worlds
    ensures if ok then s.world.runs[i].LoggingIn? && s.world.runs[i].base == Marked(old(s.world).runs[i].base, s.mine, request, old(s.world).clock)
            else s.world.runs[i].Gone?
    ensures ok ==> var m := s.world.runs[i].base; m.marker == Some(old(s.world).clock / SECOND) && m.fingerprint == s.mine
    ensures ok && request != 0 ==> var m := s.world.runs[i].base; m.served == request && m.requestAt == m.marker
  {
    hide History, Marked;
    ghost var base, clock := s.world.runs[i].base, s.world.clock;
    s.Do(i, Mark(request));
    ok := WriteStateOnce(s, i);
    MarkedIs(base, s.mine, request, clock);
  }

  /** The run records how its login went, which takes its marker away. */
  method RecordOutcome(s: Shared, i: int, outcome: Outcome) returns (ok: bool, ghost at: int)
    requires s.Valid() && 0 <= i < |s.world.runs| && s.world.runs[i].LoggingIn? && s.world.runs[i].base.marker.Some?
    modifies s
    ensures s.Valid() && |s.world.runs| == |old(s.world).runs| && s.world.runs[i].Gone? && old(s.worlds) <= s.worlds
    ensures ok ==> s.world.record == Recorded(old(s.world).runs[i].base, outcome, at)
    ensures ok ==> s.world.record.marker.None? && s.world.record.served == old(s.world).runs[i].base.served
                   && s.world.record.requestAt == old(s.world).runs[i].base.requestAt
  {
    hide History, Recorded;
    ghost var base := s.world.runs[i].base;
    s.Others(i);
    at := s.world.clock;
    s.Do(i, EndLogin(outcome));
    ok := WriteStateOnce(s, i);
    RecordedIs(base, outcome, at);
  }

  /** The outcome that is recorded: a session that could not be confirmed is none. */
  function OutcomeToRecord(results: seq<LoginResult>, confirmed: bool): Outcome {
    match OutcomeOf(results)
    case LoggedIn => if confirmed then Confirmed else Unconfirmed
    case Ended(o) => o
  }

  /** What the last login comes to in the record; with none there was no submission. */
  lemma OutcomeMeans(results: seq<LoginResult>, confirmed: bool)
    ensures var o := OutcomeToRecord(results, confirmed);
      if results == [] then o == NotSubmitted
      else
        var last := results[|results| - 1];
        && (o == Confirmed <==> last.Session? && confirmed)
        && (o == Unconfirmed <==> last.NoSession? || (last.Session? && !confirmed))
        && (o == Rejected <==> last.RejectedByPortal?)
        && (o == NotSubmitted <==> last.FailedBeforeSubmit?)
        && (o == Unknown <==> last.FailedOtherwise?)
  {
    if results != [] {
      match results[|results| - 1] {
        case Session =>
        case NoSession =>
        case RejectedByPortal =>
        case FailedBeforeSubmit =>
        case FailedOtherwise =>
      }
    }
  }

  /** The login, from the marker to the recorded outcome and the stored session. */
  method LogInOnce(s: Shared, i: int, portal: Portal, store: SessionStore, version: nat, request: Option<Request>)
    returns (exit: Exit, ghost markedAt: int, ghost results: seq<LoginResult>, ghost outcome: Outcome, ghost recorded: bool, ghost at: int)
    requires s.Valid() && 0 <= i < |s.world.runs| && s.world.runs[i].Deciding?
    modifies s, portal, store
    ensures s.Valid() && |s.world.runs| == |old(s.world).runs| && s.world.runs[i].Gone? && old(s.worlds) <= s.worlds
    ensures markedAt == old(s.world).clock
    ensures Logins(portal.log) == Logins(old(portal.log)) + results
    ensures |results| <= MAX_LOGINS && (|results| == 2 ==> results[0].FailedBeforeSubmit?)
    ensures exit.StateConflict? ==> results == []
    ensures exit.BadCredentials? <==> results != [] && results[|results| - 1].RejectedByPortal?
    ensures outcome == OutcomeToRecord(results, outcome.Confirmed?)
    ensures recorded ==> s.world.record == Recorded(Marked(old(s.world).runs[i].base, s.mine, if request.Some? then request.value.id else 0, markedAt),
                                                    outcome, at)
    ensures recorded && request.Some? && request.value.id != 0 ==>
              s.world.record.served == request.value.id && s.world.record.requestAt == Some(markedAt / SECOND)
    ensures old(store.replaced) <= store.replaced
    ensures if outcome.Confirmed? then exit.Success? ==> store.replaced != old(store.replaced)
            else store.replaced == old(store.replaced) && (exit.Success? ==> results == [])
    ensures !exit.LoginBlocked?
    ensures forall n :: |old(portal.log)| <= n < |portal.log| && portal.log[n].Login? ==> !portal.blackout(portal.log[n].at)
    ensures old(portal.log) <= portal.log
  {
    hide History, Logins, Init, Next;
    results, outcome, recorded, at := [], NotSubmitted, false, 0;
    markedAt := s.world.clock;
    assert Logins(portal.log) + [] == Logins(portal.log);
    var ok := WriteMarker(s, i, if request.Some? then request.value.id else 0);
    if !ok {
      var conflict, refused: bool := *, *;
      exit := if conflict then StateConflict else VaultFailure(refused);
      return;
    }
    var phase, logins, end;
    phase, logins, results := RunLogin(s, i, portal);
    end, exit := Conclude(portal, phase, logins);
    outcome := end;
    recorded, at := RecordOutcome(s, i, end);
    if end.Confirmed? {
      var encoded: bool := *;
      if !encoded {
        exit := Transient;
        return;
      }
      ghost var known;
      exit, known := WriteSession(store, portal, version);
    }
  }

  lemma SoundBefore(ws: seq<World>, longer: seq<World>)
    requires ws <= longer
    ensures Sound(longer, |longer|) ==> Sound(ws, |ws|)
  {
    hide NoneTooLate, NoMixUp;
  }

  /** A run of the job. `vault` is how logging in to Vault went, `reading` how reading the stored session. */
  method Execute(s: Shared, i: int, portal: Portal, store: SessionStore, cfg: Config, field: Field, vault: Access, reading: Access,
                 stored: Stored, canWrite: bool)
    returns (exit: Exit, ghost a: Account)
    requires s.Valid() && 0 <= i < |s.world.runs| && s.world.runs[i].Idle?
    modifies s, portal, store
    ensures old(store.replaced) <= store.replaced
    ensures store.replaced != old(store.replaced) ==> a.results != [] && a.results[|a.results| - 1].Session?
    ensures exit.Success? && a.results != [] ==> store.replaced != old(store.replaced)
    ensures s.Valid() && |s.world.runs| == |old(s.world).runs| && (s.world.runs[i].Idle? || s.world.runs[i].Gone?) && old(s.worlds) <= s.worlds
    ensures NoLoginLeft(old(s.world), s.mine) && Sound(s.worlds, |s.worlds|) ==> portal.log == old(portal.log)
    ensures Logins(portal.log) == Logins(old(portal.log)) + a.results
    ensures |a.results| <= MAX_LOGINS && (|a.results| == 2 ==> a.results[0].FailedBeforeSubmit?)
    ensures exit.LoginBlocked? ==> portal.log == old(portal.log) && a.read.Some? && Latched(AfterMarker(a.read.value, s.mine, a.checkedAt), s.mine)
    ensures a.read.Some? && a.read.value.marker.None? && Latched(a.read.value, s.mine) ==> exit.LoginBlocked?
    ensures a.read.Some? && InProgress(a.read.value, a.checkedAt) ==> exit.Success? && portal.log == old(portal.log)
    ensures exit.StateConflict? ==> a.results == []
    ensures exit.BadCredentials? <==> a.results != [] && a.results[|a.results| - 1].RejectedByPortal?
    ensures a.request.Some? ==> cfg.requestMode && ToActOn(field, old(s.world).clock, cfg) && a.request.value == field.request
    ensures cfg.requestMode && ToActOn(field, old(s.world).clock, cfg) && !portal.blackout(old(s.world).clock) ==> a.request == Some(field.request)
    ensures cfg.requestMode && !ToActOn(field, old(s.world).clock, cfg) ==>
              && portal.log == old(portal.log) && s.world == old(s.world)
              && (!portal.blackout(old(s.world).clock) ==> exit == if field.Unreadable? then Transient else Success)
    ensures !portal.blackout(old(s.world).clock) && (cfg.requestMode ==> ToActOn(field, old(s.world).clock, cfg)) ==>
              if vault.Granted? then a.read.Some?
              else portal.log == old(portal.log) && s.world == old(s.world) && exit == if vault.Down? then Transient else VaultRejected
    ensures a.base.Some? ==>
      && (cfg.requestMode <==> a.request.Some?)
      && Decided(a.base.value, a.decidedAt, a.request, stored, cfg, canWrite, reading, a.asked, a.page,
                 if a.markedAt.Some? then None else Some(exit))
    ensures if a.markedAt.Some? then old(portal.log) + Touched(a.asked, a.page) <= portal.log
            else portal.log == old(portal.log) + Touched(a.asked, a.page)
    ensures a.asked == Some(Accepted) ==> exit.Success? && a.results == []
    ensures a.asked == Some(Unanswered) ==> exit.Transient? && a.results == []
    ensures a.recorded && a.request.Some? ==>
      && a.markedAt.Some? && s.world.record.served == a.request.value.id
      && s.world.record.requestAt == Some(a.markedAt.value / SECOND)
    ensures portal.blackout(old(s.world).clock) ==> portal.log == old(portal.log) && exit.Success? && s.world == old(s.world)
    ensures a.results != [] ==>
      && a.read.Some? && a.base == Some(AfterMarker(a.read.value, s.mine, a.checkedAt)) && a.markedAt.Some?
      && canWrite && reading.Granted? && a.page == Some(Accepted) && (a.asked.None? || a.asked == Some(Expired))
      && !Latched(a.base.value, s.mine)
      && (cfg.requestMode ==>
            && a.base.value.served != field.request.id
            && (a.base.value.requestAt.Some? ==> a.markedAt.value - a.base.value.requestAt.value * SECOND >= cfg.requestMinInterval))
  {
    hide History, Logins, Consumed, InProgress, Latched, Sound, NoLoginLeft, Decided, AfterMarker, Marked, Recorded, WorthAsking, Next;
    a := Account(None, None, 0, None, 0, None, None, None, [], false);
    if portal.blackout(s.world.clock) {
      return Success, a;
    }
    var request: Option<Request> := None;
    if cfg.requestMode {
      request := PendingRequest(field, s.world.clock, cfg);
      if request.None? {
        return if field.Unreadable? then Transient else Success, a;
      }
    }
    a := a.(request := request);
    if !vault.Granted? {
      return VaultFailure(vault.Refusing?), a;
    }
    var end;
    ghost var read, at;
    end, read, at := ReadAndCheck(s, i);
    ghost var checked := s.worlds;
    a := a.(read := Some(read), checkedAt := at);
    if end.Some? {
      return end.value, a;
    }
    a := a.(base := Some(s.world.runs[i].base), decidedAt := s.world.clock);
    var version;
    ghost var asked, page, noted;
    end, version, asked, page, noted := Decide(s, i, portal, store, cfg, request, reading, stored, canWrite);
    DecidedMeans(a.base.value, a.decidedAt, request, stored, cfg, canWrite, reading, asked, page, end);
    a := a.(asked := asked, page := page);
    SoundBefore(checked, s.worlds);
    if end.Some? {
      return end.value, a;
    }
    ghost var markedAt, results, outcome, recorded;
    exit, markedAt, results, outcome, recorded, at := LogInOnce(s, i, portal, store, version, request);
    SoundBefore(checked, s.worlds);
    a := a.(markedAt := Some(markedAt), results := results, recorded := recorded);
  }
}
