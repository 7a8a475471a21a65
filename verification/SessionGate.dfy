/** The session gate: checks the session at the start of a poll and, when it is dead, asks for a
    login, by the mailbox or by the login broker. */
module SessionGate {
  import opened Numbers
  import opened Options
  import opened GateTrace
  import opened Checkpoints

  const MAX_UNANSWERED: nat := 2
  const UNKNOWN_STREAK_FAILS: nat := 3
  const MAX_BROKER_HOLD: int := 86400 * SECOND

  // ---- What is kept across restarts ----

  datatype Key = LastRequestKey | UnansweredKey | ResetKey | HoldKey

  /** Times are stored in whole seconds. A fingerprint of None is "no session". */
  datatype Value =
    | AtSecond(second: int)
    | Count(n: nat, at: Option<nat>)
    | Token(token: nat)
    | Hold(fp: Option<nat>, until: Option<int>)

  function Unanswered(m: map<Key, Value>): nat {
    if UnansweredKey in m && m[UnansweredKey].Count? then m[UnansweredKey].n else 0
  }

  function UnansweredAt(m: map<Key, Value>): Option<nat> {
    if UnansweredKey in m && m[UnansweredKey].Count? then m[UnansweredKey].at else None
  }

  function LastStamp(m: map<Key, Value>): Option<int> {
    if LastRequestKey in m && m[LastRequestKey].AtSecond? then Some(m[LastRequestKey].second) else None
  }

  /** The record holds this session (or the lack of one) dead. */
  predicate HeldDead(m: map<Key, Value>, fp: Option<nat>) {
    HoldKey in m && m[HoldKey].Hold? && m[HoldKey].fp == fp
  }

  function HoldOf(m: map<Key, Value>): Option<Value> {
    if HoldKey in m then Some(m[HoldKey]) else None
  }

  function Stamp(clock: int): int {
    clock / SECOND
  }

  // ---- The rest of the world ----

  /** What reading the session file gives; `builds` says that a client can be made of its session. */
  datatype FileRead = NoDocument | Document(fp: nat, expired: bool, builds: bool)

  /** The clock may go either way; the portal, the session file, the broker and the mailbox may answer
      anything. `clock` is what it has shown and `trace` what was asked of whom. */
  class World {
    var clock: seq<int>
    var trace: seq<Event>

    method Now() returns (now: int)
      modifies this`clock
      ensures clock == old(clock) + [now]
    {
      now := *;
      clock := clock + [now];
    }

    method Note(e: Event)
      modifies this`trace
      ensures trace == old(trace) + [e]
    {
      trace := trace + [e];
    }

    method LoadFile() returns (f: FileRead) {
      f := *;
    }

    method Ok() returns (ok: bool) {
      ok := *;
    }

    /** One GET with the session. */
    method ProbePortal(fp: nat) returns (v: Verdict)
      modifies this`trace
      ensures trace == old(trace) + [Probe(fp, v)]
    {
      v := *;
      Note(Probe(fp, v));
    }

    /** One call of the broker. */
    method AskBroker() returns (r: Refresh)
      modifies this`trace
      ensures trace == old(trace) + if r.Session? then [Ask(r), Delivered(r.fp, r.expired)] else [Ask(r)]
    {
      r := *;
      Note(Ask(r));
      if r.Session? {
        Note(Delivered(r.fp, r.expired));
      }
    }

    /** The age of the session file, and the time of day. */
    method Weigh() returns (recent: bool, blackout: bool)
      modifies this`trace
      ensures trace == old(trace) + [Weighed(recent, blackout)]
    {
      recent, blackout := *, *;
      Note(Weighed(recent, blackout));
    }

    /** One write of the mailbox field. */
    method RequestLogin(at: int) returns (ok: bool)
      modifies this`trace
      ensures trace == old(trace) + [Request(at)]
    {
      ok := *;
      Note(Request(at));
    }
  }

  datatype Mode = Off | Mailbox | Broker

  datatype Outcome = Skip(failed: bool) | GateLive | GateDead | Blocked

  class Gate {
    const world: World
    const cp: Checkpoint<Key, Value>
    const mode: Mode
    const interval: nat
    const wait: nat
    const resetToken: Option<nat>
    var fingerprint: Option<nat>
    var expired: bool
    var held: bool
    var replaced: Option<nat>
    var unknownStreak: nat
    var askedThisPoll: bool

    /** A poll has begun in this process. */
    ghost var polled: bool
    /** Every process so far has known of all strikes. */
    ghost const counted: bool

    ghost predicate Valid()
      reads this, world, cp
    {
      && interval >= 1200 * SECOND && (held ==> fingerprint.Some?)
      && Restrained(world.trace, interval, counted)
      && (counted ==> Remembers(world.trace, cp.memory)) && RequestKept(world.trace, cp.memory) && RequestKept(world.trace, cp.stored)
      && (polled && AskedSince(world.trace) ==> askedThisPoll)
    }

    /** A process starts: what it knows is what was stored. */
    constructor (world: World, cp: Checkpoint<Key, Value>, mode: Mode, interval: nat, wait: nat, resetToken: Option<nat>, ghost counted: bool)
      requires interval >= 1200 * SECOND && Restrained(world.trace, interval, counted) && cp.memory == cp.stored
      requires (counted ==> Remembers(world.trace, cp.stored)) && RequestKept(world.trace, cp.stored)
      ensures Valid() && this.world == world && this.cp == cp && this.interval == interval && this.counted == counted && !polled
    {
      this.world, this.cp, this.mode, this.interval, this.wait, this.resetToken := world, cp, mode, interval, wait, resetToken;
      fingerprint, expired, held, replaced, unknownStreak, askedThisPoll := None, false, false, None, 0, false;
      polled, this.counted := false, counted;
    }

    // ---- The session in use ----

    /** Reads the session file. A file that still holds the session the broker has replaced does not
        displace the newer one in use. */
    method Reload() returns (have: bool, ghost file: FileRead)
      requires held ==> fingerprint.Some?
      modifies this`fingerprint, this`expired, this`held, this`replaced
      ensures held ==> fingerprint.Some?
      ensures InPlace(file, old(fingerprint), old(expired), old(held), old(replaced), fingerprint, expired)
      ensures if file.Document? && fingerprint == Some(file.fp) then !held && replaced == None else held == old(held) && replaced == old(replaced)
      ensures have <==> fingerprint.Some?
    {
      var f := world.LoadFile();
      file := f;
      if f.NoDocument? {
        return fingerprint.Some?, file;
      }
      if fingerprint == Some(f.fp) {
        expired, held, replaced := f.expired, false, None;
        return true, file;
      }
      if held && replaced == Some(f.fp) {
        return true, file;
      }
      if !f.builds {
        return fingerprint.Some?, file;
      }
      fingerprint, expired, held, replaced := Some(f.fp), f.expired, false, None;
      have := true;
    }

    /** Puts a delivered session into use ahead of the file. */
    method Adopt(fp: nat, isExpired: bool, builds: bool) returns (ok: bool)
      modifies this`fingerprint, this`expired, this`held, this`replaced
      ensures ok == builds
      ensures ok ==> fingerprint == Some(fp) && held && expired == isExpired
                     && replaced == if old(held) then old(replaced) else old(fingerprint)
      ensures !ok ==> fingerprint == old(fingerprint) && held == old(held) && replaced == old(replaced) && expired == old(expired)
    {
      ok := builds;
      if ok {
        if !held {
          replaced := fingerprint;
        }
        fingerprint, expired, held := Some(fp), isExpired, true;
      }
    }

    /** The portal's word on the session in use; it is not asked when there is none or its document
        says that it has expired. */
    method Check(have: bool) returns (v: Verdict)
      requires Valid() && !Gagged(world.trace)
      modifies world`trace
      ensures Valid() && Same(old(world.trace), world.trace)
      ensures world.trace == old(world.trace) + ProbeOf(have, fingerprint, expired, v)
      ensures ProbeOf(have, fingerprint, expired, v) == [] ==> v.Dead?
    {
      if !have || fingerprint.None? || expired {
        return Dead;
      }
      ghost var t := world.trace;
      v := world.ProbePortal(fingerprint.value);
      After(t, Probe(fingerprint.value, v), interval, counted);
    }

    // ---- Records ----

    /** A session the portal accepts, or the operator, or a changed session file: asking is allowed
        again. */
    method ClearUnanswered()
      requires Valid()
      modifies world`trace, cp
      ensures Valid() && world.trace == old(world.trace) + [Pardon] && cp.memory == old(cp.memory) - {UnansweredKey}
    {
      After(world.trace, Pardon, interval, counted);
      world.Note(Pardon);
      if UnansweredKey in cp.memory {
        var ok := cp.Delete(UnansweredKey);
      }
    }

    /** One more delivery that was refused, or request that led to no session. */
    method BumpUnanswered() returns (n: nat)
      requires Valid()
      modifies world`trace, cp
      ensures Valid() && world.trace == old(world.trace) + [Strike] && n == Unanswered(old(cp.memory)) + 1
      ensures cp.memory == old(cp.memory)[UnansweredKey := Count(n, fingerprint)]
    {
      After(world.trace, Strike, interval, counted);
      world.Note(Strike);
      n := Unanswered(cp.memory) + 1;
      var ok := cp.Save(UnansweredKey, Count(n, fingerprint));
    }

    /** The session in place is dead: recorded, so that the portal is not asked about it again. */
    method SaveHold(until: Option<int>)
      requires Valid()
      modifies world`trace, cp
      ensures Valid() && world.trace == old(world.trace) + [Placed(true)]
      ensures cp.memory == old(cp.memory)[HoldKey := Hold(fingerprint, until)]
    {
      After(world.trace, Placed(true), interval, counted);
      world.Note(Placed(true));
      var ok := cp.Save(HoldKey, Hold(fingerprint, until));
    }

    method ClearHold()
      requires Valid()
      modifies cp
      ensures Valid() && cp.memory == old(cp.memory) - {HoldKey}
    {
      if HoldKey in cp.memory {
        var ok := cp.Delete(HoldKey);
      }
    }

    /** A reset token that was not honoured yet clears the count and the dead session. */
    method HonourReset()
      requires Valid()
      modifies world`trace, cp
      ensures Valid() && world.trace == old(world.trace) + (if NewToken(old(cp.memory), resetToken) then [Pardon] else [])
      ensures cp.memory == AfterReset(old(cp.memory), resetToken)
    {
      if resetToken.None? || (ResetKey in cp.memory && cp.memory[ResetKey] == Token(resetToken.value)) {
        return;
      }
      var ok := cp.Save(ResetKey, Token(resetToken.value));
      ClearUnanswered();
      ClearHold();
      assert cp.memory == old(cp.memory)[ResetKey := Token(resetToken.value)] - {UnansweredKey, HoldKey};
    }

    // ---- Asking ----

    /** The broker answers with the very session held dead: the portal is asked once more. */
    method SecondOpinion() returns (o: Outcome, ghost did: seq<Event>)
      requires Valid() && !Gagged(world.trace) && fingerprint.Some?
      modifies this`unknownStreak, world`trace, cp
      ensures Valid() && world.trace == old(world.trace) + did && CheckDid(did, fingerprint, expired, o, Unanswered(old(cp.memory)))
      ensures Unanswered(cp.memory) == Counted(Unanswered(old(cp.memory)), did) && TrialKept(did, cp.memory, fingerprint, fingerprint)
      ensures AskedSince(world.trace) == AskedSince(old(world.trace))
    {
      hide Strikes, Gagged, LastRequest, Restrained, MayFollow, Counted, CheckDid, TrialKept, Remembers, RequestKept;
      ClearHold();
      var v := Check(true);
      did := ProbeOf(true, fingerprint, expired, v);
      match v {
        case Live =>
          After(world.trace, Pardon, interval, counted);
          unknownStreak := 0;
          ClearUnanswered();
          did := did + [Pardon];
          o := GateLive;
        case Dead =>
          o := Refused();
          did := did + [Placed(true), Strike];
        case Unknown =>
          o := Skip(true);
      }
      CheckEnds(fingerprint, expired, v, Unanswered(old(cp.memory)), fingerprint, cp.memory);
    }

    /** A session the portal refused: recorded as dead, and a strike. */
    method Refused() returns (o: Outcome)
      requires Valid()
      modifies world`trace, cp
      ensures Valid() && world.trace == old(world.trace) + [Placed(true), Strike]
      ensures HoldOf(cp.memory) == Some(Hold(fingerprint, None)) && Unanswered(cp.memory) == Unanswered(old(cp.memory)) + 1
      ensures AskedSince(world.trace) == AskedSince(old(world.trace))
      ensures o == AfterStrike(Unanswered(old(cp.memory)))
    {
      ghost var t := world.trace;
      After(t, Placed(true), interval, counted);
      After(t + [Placed(true)], Strike, interval, counted);
      SaveHold(None);
      var n := BumpUnanswered();
      o := if n >= MAX_UNANSWERED then Blocked else Skip(true);
    }

    /** A delivered session is put into use and checked once. */
    method TakeSession(fp: nat, isExpired: bool, builds: bool) returns (o: Outcome, ghost did: seq<Event>)
      requires Valid() && !Gagged(world.trace) && fingerprint != Some(fp) && HeldDead(cp.memory, fingerprint)
      modifies this`fingerprint, this`expired, this`held, this`replaced, world`trace, cp
      ensures Valid() && world.trace == old(world.trace) + did
      ensures if !builds then did == [] && o == Skip(true) && fingerprint == old(fingerprint)
              else fingerprint == Some(fp) && CheckDid(did, Some(fp), isExpired, o, Unanswered(old(cp.memory)))
      ensures Unanswered(cp.memory) == Counted(Unanswered(old(cp.memory)), did) && TrialKept(did, cp.memory, Some(fp), old(fingerprint))
      ensures AskedSince(world.trace) == AskedSince(old(world.trace))
    {
      hide Strikes, Gagged, LastRequest, Restrained, MayFollow, Counted, CheckDid, TrialKept, Remembers, RequestKept, ProbeOf;
      did := [];
      ghost var dead := fingerprint;
      CheckNothing(Unanswered(cp.memory), cp.memory, Some(fp), dead);
      var ok := Adopt(fp, isExpired, builds);
      if !ok {
        return Skip(true), did;
      }
      var v := Check(true);
      did := ProbeOf(true, fingerprint, expired, v);
      match v {
        case Live =>
          After(world.trace, Pardon, interval, counted);
          ClearHold();
          ClearUnanswered();
          did := did + [Pardon];
          o := GateLive;
        case Dead =>
          o := Refused();
          did := did + [Placed(true), Strike];
        case Unknown =>
          o := Skip(true);
      }
      CheckEnds(fingerprint, expired, v, Unanswered(old(cp.memory)), dead, cp.memory);
    }

    /** A session the broker delivered: another one is put into use, the one held dead gets a second
        opinion. */
    method TryDelivered(fp: nat, isExpired: bool, builds: bool) returns (o: Outcome, ghost more: seq<Event>)
      requires Valid() && !Gagged(world.trace) && HeldDead(cp.memory, fingerprint)
      modifies this`fingerprint, this`expired, this`held, this`replaced, this`unknownStreak, world`trace, cp
      ensures Valid() && world.trace == old(world.trace) + more && AskedSince(world.trace) == AskedSince(old(world.trace))
      ensures if !builds && old(fingerprint) != Some(fp) then more == [] && o == Skip(true) && fingerprint == old(fingerprint)
              else fingerprint == Some(fp)
                   && CheckDid(more, Some(fp), if old(fingerprint) == Some(fp) then old(expired) else isExpired, o, Unanswered(old(cp.memory)))
      ensures Unanswered(cp.memory) == Counted(Unanswered(old(cp.memory)), more) && TrialKept(more, cp.memory, Some(fp), old(fingerprint))
    {
      hide Strikes, Gagged, LastRequest, Restrained, Counted, TrialKept, Remembers, RequestKept;
      if fingerprint == Some(fp) {
        o, more := SecondOpinion();
      } else {
        o, more := TakeSession(fp, isExpired, builds);
      }
    }

    /** The broker will not log in before a time: the session is recorded as dead until then, or for a day
        at most. */
    method NoteDeferral(until: Option<int>)
      requires Valid()
      modifies world`trace, world`clock, cp
      ensures Valid() && world.trace == old(world.trace) + [Placed(true)] && old(world.clock) <= world.clock != []
      ensures AskedSince(world.trace) == AskedSince(old(world.trace)) && Unanswered(cp.memory) == Unanswered(old(cp.memory))
      ensures HoldOf(cp.memory) == Some(Hold(fingerprint, Believed(until, world.clock[|world.clock| - 1])))
    {
      hide Strikes, Gagged, LastRequest, Restrained, MayFollow;
      var now := world.Now();
      var limit := Stamp(now + MAX_BROKER_HOLD);
      After(world.trace, Placed(true), interval, counted);
      SaveHold(if until.Some? && until.value > limit then Some(limit) else until);
    }

    /** The one call of a poll. */
    method CallBroker() returns (r: Refresh)
      requires Valid() && !AskedSince(world.trace) && Unanswered(cp.memory) < MAX_UNANSWERED
      modifies this`askedThisPoll, world`trace
      ensures Valid() && askedThisPoll && world.trace == old(world.trace) + (if r.Session? then [Ask(r), Delivered(r.fp, r.expired)] else [Ask(r)])
      ensures r.Session? ==> !Gagged(world.trace)
    {
      hide Strikes, Gagged, LastRequest, Restrained;
      askedThisPoll := true;
      ghost var t := world.trace;
      r := world.AskBroker();
      After(t, Ask(r), interval, counted);
      if r.Session? {
        After(t + [Ask(r)], Delivered(r.fp, r.expired), interval, counted);
        assert t + [Ask(r), Delivered(r.fp, r.expired)] == t + [Ask(r)] + [Delivered(r.fp, r.expired)];
      }
    }

    /** The login broker: one call, and its answer says how it went. A time it names is believed for a
        day at most. */
    method AskBroker() returns (o: Outcome, ghost did: seq<Event>)
      requires Valid() && !AskedSince(world.trace) && Unanswered(cp.memory) < MAX_UNANSWERED && HeldDead(cp.memory, fingerprint)
      modifies this`fingerprint, this`expired, this`held, this`replaced, this`unknownStreak, this`askedThisPoll, world`trace, world`clock, cp
      ensures Valid() && askedThisPoll && world.trace == old(world.trace) + did && old(world.clock) <= world.clock
      ensures BrokerDid(did, old(fingerprint), old(expired), o, Unanswered(old(cp.memory)))
      ensures Unanswered(cp.memory) == Counted(Unanswered(old(cp.memory)), did) && AnswerKept(did, cp.memory, old(fingerprint), world.clock)
      ensures fingerprint == if |did| > 2 then Some(did[1].fp) else old(fingerprint)
    {
      hide Strikes, Gagged, LastRequest, Restrained, MayFollow, CheckDid, BrokerDid, Counted, TrialKept, AnswerKept, Remembers, RequestKept;
      ghost var t, dead, stale, n := world.trace, fingerprint, expired, Unanswered(cp.memory);
      var r := CallBroker();
      did := [Ask(r)];
      BrokerEnds(r, dead, stale, n, cp.memory, world.clock);
      match r
      case NoAnswer => o := Skip(true);
      case Latched => o := Blocked;
      case NoSession => o := Skip(true);
      case Deferred(until) =>
        NoteDeferral(until);
        did := [Ask(r), Placed(true)];
        BrokerEnds(r, dead, stale, n, cp.memory, world.clock);
        o := Skip(false);
      case Session(fp, isExpired, builds) =>
        ghost var more;
        o, more := TryDelivered(fp, isExpired, builds);
        did := [Ask(r), Delivered(fp, isExpired)] + more;
        Regroup(t, [Ask(r), Delivered(fp, isExpired)], more);
        BrokerTries(fp, isExpired, builds, more, dead, stale, o, n, cp.memory, fingerprint, world.clock);
    }

    /** One more request that led to no session. */
    method GiveUp() returns (o: Outcome)
      requires Valid()
      modifies world`trace, cp
      ensures Valid() && world.trace == old(world.trace) + [Strike] && AskedSince(world.trace) == AskedSince(old(world.trace))
      ensures Unanswered(cp.memory) == Unanswered(old(cp.memory)) + 1 && LastStamp(cp.memory) == LastStamp(old(cp.memory))
      ensures o == AfterStrike(Unanswered(old(cp.memory)))
    {
      hide Strikes, Gagged, LastRequest, Restrained, MayFollow;
      After(world.trace, Strike, interval, counted);
      var n := BumpUnanswered();
      o := if n >= MAX_UNANSWERED then Blocked else Skip(true);
    }

    /** A new session in the file is checked once. */
    method CheckArrived() returns (o: Outcome, ghost did: seq<Event>)
      requires Valid() && !Gagged(world.trace) && fingerprint.Some?
      modifies world`trace, cp
      ensures Valid() && AskedSince(world.trace) == AskedSince(old(world.trace)) && world.trace == old(world.trace) + did
      ensures WaitDid(did, None, fingerprint, o, Unanswered(old(cp.memory))) && did != []
      ensures Unanswered(cp.memory) == Counted(Unanswered(old(cp.memory)), did) && LastStamp(cp.memory) == LastStamp(old(cp.memory))
    {
      hide Strikes, Gagged, LastRequest, Restrained, MayFollow, Remembers, RequestKept, WaitDid, Counted, ProbeOf;
      var v := Check(true);
      did := ProbeOf(true, fingerprint, expired, v);
      ArrivedEnds(fingerprint, expired, v, Unanswered(cp.memory));
      if v.Live? {
        After(world.trace, Pardon, interval, counted);
        ClearUnanswered();
        did := did + [Pardon];
        return GateLive, did;
      }
      o := GiveUp();
      did := did + [Strike];
    }

    /** Re-reads the session file until it holds another session than the dead one, then checks that
        one once. `late` says that the deadline passed first: that is at the first reading of the clock
        that is not before it. The clock may do anything, so that `rounds` bounds the waiting. */
    method WaitForNewSession(dead: Option<nat>, limit: int, rounds: nat) returns (o: Outcome, ghost did: seq<Event>, ghost late: bool)
      requires Valid() && !Gagged(world.trace) && fingerprint == dead
      modifies this`fingerprint, this`expired, this`held, this`replaced, world`trace, world`clock, cp
      ensures Valid() && AskedSince(world.trace) == AskedSince(old(world.trace))
      ensures world.trace == old(world.trace) + did && WaitDid(did, dead, fingerprint, o, Unanswered(old(cp.memory)))
      ensures old(world.clock) <= world.clock && |old(world.clock)| < |world.clock|
      ensures forall n :: |old(world.clock)| < n < |world.clock| - (if late then 1 else 0) ==> world.clock[n] < world.clock[|old(world.clock)|] + limit
      ensures if late then did == [Strike] && |world.clock| > |old(world.clock)| + 1
                           && world.clock[|world.clock| - 1] >= world.clock[|old(world.clock)|] + limit
              else did == [] || fingerprint != dead
      ensures late ==> fingerprint.None? || fingerprint == dead
      ensures Unanswered(cp.memory) == Counted(Unanswered(old(cp.memory)), did) && LastStamp(cp.memory) == LastStamp(old(cp.memory))
    {
      hide Strikes, Gagged, Restrained, MayFollow, LastRequest, Remembers, RequestKept;
      did, late := [], false;
      var deadline := world.Now();
      deadline := deadline + limit;
      var round := 0;
      while round < rounds
        invariant Valid() && world.trace == old(world.trace) && cp.memory == old(cp.memory)
        invariant old(world.clock) <= world.clock && |old(world.clock)| < |world.clock| && deadline == world.clock[|old(world.clock)|] + limit
        invariant forall n :: |old(world.clock)| < n < |world.clock| ==> world.clock[n] < deadline
        invariant fingerprint.None? || fingerprint == dead
      {
        var have;
        ghost var file;
        have, file := Reload();
        if have && fingerprint != dead {
          o, did := CheckArrived();
          return;
        }
        var now := world.Now();
        if now >= deadline {
          o := GiveUp();
          return o, [Strike], true;
        }
        var interrupted := world.Ok();
        if interrupted {
          return Skip(false), did, late;
        }
        round := round + 1;
      }
      o := Skip(false);
    }

    /** Writes a request, after its time has been recorded: if it cannot be, none is made. */
    method MakeRequest(now: int) returns (ok: bool, ghost did: seq<Event>)
      requires Valid() && MayFollow(world.trace, Request(now), interval, counted) && !Gagged(world.trace)
      requires LastStamp(cp.memory).Some? ==> LastStamp(cp.memory).value <= Stamp(now)
      requires LastRequest(world.trace).Some? ==> Stamp(LastRequest(world.trace).value) <= Stamp(now)
      modifies world`trace, cp
      ensures Valid() && world.trace == old(world.trace) + did && (did == [Request(now)] || (did == [] && !ok && cp.stored == old(cp.stored)))
      ensures cp.memory == old(cp.memory)[LastRequestKey := AtSecond(Stamp(now))] && (did != [] ==> cp.stored == cp.memory)
      ensures !Gagged(world.trace) && AskedSince(world.trace) == AskedSince(old(world.trace))
    {
      hide Strikes, Gagged, Restrained, MayFollow, LastRequest;
      did := [];
      After(world.trace, Request(now), interval, counted);
      ok := cp.Save(LastRequestKey, AtSecond(Stamp(now)));
      if ok {
        ok := world.RequestLogin(now);
        did := [Request(now)];
      }
    }

    /** Makes a request when one may be made. Without an outcome its session is to be waited for, or that
        of a request made before. */
    method RequestIfDue(now: int) returns (o: Option<Outcome>, left: int, ghost one: seq<Event>)
      requires Valid() && !Gagged(world.trace) && Unanswered(cp.memory) < MAX_UNANSWERED
      modifies world`trace, cp
      ensures Valid() && !Gagged(world.trace) && AskedSince(world.trace) == AskedSince(old(world.trace))
      ensures world.trace == old(world.trace) + one && RequestDid(one, o, fingerprint, old(cp.memory), now, interval, wait)
      ensures Unanswered(cp.memory) == Unanswered(old(cp.memory))
      ensures |one| == 2 ==> LastStamp(cp.memory) == Some(Stamp(now))
      ensures |one| == 1 ==> cp.stored == old(cp.stored)
      ensures o.None? ==> left == if |one| == 2 then wait else wait - (now - LastStamp(old(cp.memory)).value * SECOND)
    {
      hide Strikes, Gagged, Restrained, LastRequest, AskedSince;
      var recent, blackout := world.Weigh();
      one, left := [Weighed(recent, blackout)], wait;
      After(old(world.trace), one[0], interval, counted);
      if (recent && fingerprint.Some?) || blackout {
        return Some(Skip(false)), left, one;
      }
      var last := LastStamp(cp.memory);
      if last.Some? && last.value * SECOND > now {
        return Some(Skip(false)), left, one;
      }
      if last.Some? && now - last.value * SECOND < interval {
        if now - last.value * SECOND >= wait {
          return Some(Skip(false)), left, one;
        }
        return None, wait - (now - last.value * SECOND), one;
      }
      LongEnough(world.trace, cp.memory, now, interval);
      var ok;
      ghost var made;
      ok, made := MakeRequest(now);
      one := one + made;
      o := if ok then None else Some(Skip(true));
    }

    /** The mailbox, when it does not block: a request is made when one may be, and its session waited
        for. */
    method RequestAndWaitFile(now: int, rounds: nat) returns (o: Outcome, ghost rest: seq<Event>)
      requires Valid() && !Gagged(world.trace) && Unanswered(cp.memory) < MAX_UNANSWERED
      modifies this`fingerprint, this`expired, this`held, this`replaced, world`trace, world`clock, cp
      ensures Valid() && AskedSince(world.trace) == AskedSince(old(world.trace)) && old(world.clock) <= world.clock
      ensures world.trace == old(world.trace) + rest
      ensures RestDid(rest, old(fingerprint), fingerprint, o, old(cp.memory), now, interval, wait)
      ensures Unanswered(cp.memory) == Counted(Unanswered(old(cp.memory)), rest)
      ensures Requested(rest) ==> LastStamp(cp.memory) == Some(Stamp(now))
    {
      hide Strikes, Gagged, Restrained, LastRequest, AskedSince, MayFollow, RequestDid, WaitDid, RestDid, Requested, Remembers, RequestKept, Counted,
        Unanswered, LastStamp;
      var dead := fingerprint;
      ghost var m := cp.memory;
      var stop, left;
      ghost var one, more := [], [];
      stop, left, one := RequestIfDue(now);
      if stop.Some? {
        RestEnds(one, stop, dead, m, now, interval, wait);
        return stop.value, one;
      }
      ghost var late;
      o, more, late := WaitForNewSession(dead, left, rounds);
      RestWaits(one, more, dead, fingerprint, o, m, now, interval, wait);
      rest := one + more;
    }

    /** The mailbox: when a request may be made, it is, and its session is waited for. */
    method AskMailbox(rounds: nat) returns (o: Outcome, ghost did: seq<Event>)
      requires Valid() && !Gagged(world.trace)
      modifies this`fingerprint, this`expired, this`held, this`replaced, world`trace, world`clock, cp
      ensures Valid() && AskedSince(world.trace) == AskedSince(old(world.trace))
      ensures old(world.clock) <= world.clock && |old(world.clock)| < |world.clock|
      ensures world.trace == old(world.trace) + did
      ensures MailboxDid(did, old(fingerprint), fingerprint, o, old(cp.memory), world.clock[|old(world.clock)|], interval, wait)
      ensures Unanswered(cp.memory) == Counted(Unanswered(old(cp.memory)), did)
      ensures Requested(did) ==> LastStamp(cp.memory) == Some(Stamp(world.clock[|old(world.clock)|]))
    {
      hide Strikes, Gagged, Restrained, LastRequest, AskedSince, MayFollow, RestDid, Requested, Remembers, RequestKept;
      var now := world.Now();
      ghost var m := cp.memory;
      did := [];
      if Unanswered(cp.memory) >= MAX_UNANSWERED {
        if UnansweredAt(cp.memory) == fingerprint {
          NothingRequested();
          return Blocked, did;
        }
        After(world.trace, Pardon, interval, counted);
        ClearUnanswered();
      }
      ghost var rest;
      o, rest := RequestAndWaitFile(now, rounds);
      did := Lead(m) + rest;
      MailboxRest(rest, m);
    }

    /** Asks for a login, if one may be asked for. */
    method RequestAndWait(rounds: nat) returns (o: Outcome, ghost did: seq<Event>)
      requires Valid() && (mode.Broker? ==> !AskedSince(world.trace)) && (mode.Mailbox? ==> !Gagged(world.trace)) && !mode.Off?
      requires mode.Broker? ==> HeldDead(cp.memory, fingerprint)
      modifies this`fingerprint, this`expired, this`held, this`replaced, this`unknownStreak, this`askedThisPoll, world`trace, world`clock, cp
      ensures Valid() && (askedThisPoll == old(askedThisPoll) || askedThisPoll) && old(world.clock) <= world.clock
      ensures world.trace == old(world.trace) + did
      ensures AskDid(did, mode, old(fingerprint), old(expired), fingerprint, o, old(cp.memory), world.clock[|old(world.clock)|..], interval, wait)
      ensures Unanswered(cp.memory) == Counted(Unanswered(old(cp.memory)), did)
      ensures mode.Broker? ==> AllKept(did, cp.memory, old(fingerprint), world.clock)
    {
      hide Strikes, Gagged, Restrained, LastRequest, AskedSince, MailboxDid, BrokerDid, AnswerKept, CheckDid;
      did := [];
      if mode.Mailbox? {
        o, did := AskMailbox(rounds);
        return;
      }
      if Unanswered(cp.memory) >= MAX_UNANSWERED {
        return Blocked, did;
      }
      var now := world.Now();
      if TooEarly(cp.memory, fingerprint, now) {
        return Skip(false), did;
      }
      o, did := AskBroker();
      AskedOnce(did, old(fingerprint), old(expired), o, Unanswered(old(cp.memory)), cp.memory, world.clock);
    }

    // ---- A poll ----

    /** Notes that a poll begins, or what it finds in place. */
    method Note(e: Event)
      requires Valid() && (e.PollStart? || e.Placed?)
      modifies world`trace, this`polled
      ensures Valid() && world.trace == old(world.trace) + [e] && polled == (old(polled) || e.PollStart?)
      ensures AskedSince(world.trace) == (!e.PollStart? && AskedSince(old(world.trace)))
      ensures Gagged(world.trace) == (e.Placed? && e.recorded)
      requires e.PollStart? || polled
    {
      After(world.trace, e, interval, counted);
      world.Note(e);
      polled := polled || e.PollStart?;
    }

    /** The portal accepts the session in use: nothing is held against it or counted any more. */
    method GoLive()
      requires Valid()
      modifies this`unknownStreak, world`trace, cp
      ensures Valid() && world.trace == old(world.trace) + [Pardon] && unknownStreak == 0
      ensures Unanswered(cp.memory) == 0 && HoldKey !in cp.memory
    {
      hide Strikes, Gagged, Restrained, LastRequest, MayFollow;
      After(world.trace, Pardon, interval, counted);
      unknownStreak := 0;
      ClearUnanswered();
      ClearHold();
    }

    /** The session in use was found dead: with the broker it is recorded as that, and then a login is
        asked for. */
    method AskForDead(rounds: nat, have: bool, ghost streak: nat) returns (o: Outcome, ghost did: seq<Event>)
      requires Valid() && polled && !Gagged(world.trace) && !AskedSince(world.trace) && !mode.Off?
      modifies this`fingerprint, this`expired, this`held, this`replaced, this`unknownStreak, this`askedThisPoll, world`trace, world`clock, cp
      ensures Valid() && polled && old(world.clock) <= world.clock && world.trace == old(world.trace) + did
      ensures PollDid(ProbeOf(have, old(fingerprint), old(expired), Dead) + did, have, mode, old(fingerprint), old(expired), streak, fingerprint, o,
                      old(cp.memory), world.clock[|old(world.clock)|..], interval, wait)
      ensures o.GateLive? ==> LiveNow(did, fingerprint) && Unanswered(cp.memory) == 0
      ensures !mode.Mailbox? ==> Unanswered(cp.memory) == Counted(Unanswered(old(cp.memory)), ProbeOf(have, old(fingerprint), old(expired), Dead) + did)
      ensures mode.Broker? ==> AllKept(did, cp.memory, old(fingerprint), world.clock)
    {
      hide Strikes, Gagged, Restrained, LastRequest, MayFollow, AskDid, PollDid, Remembers, RequestKept, Counted, LiveNow, ProbeOf, Unanswered, AllKept;
      did := [];
      ghost var t, dead, stale, m := world.trace, fingerprint, expired, cp.memory;
      if mode.Broker? {
        After(world.trace, Placed(true), interval, counted);
        SaveHold(None);
        did := [Placed(true)];
      }
      ghost var more, lead, m' := [], did, cp.memory;
      o, more := RequestAndWait(rounds);
      ghost var clock := world.clock[|old(world.clock)|..];
      AskDidEnds(more, mode, dead, stale, fingerprint, o, m', clock, interval, wait);
      PollAsks(more, have, mode, dead, stale, streak, fingerprint, o, m, clock, interval, wait);
      did := lead + more;
      Regroup(t, lead, more);
      Regroup(ProbeOf(have, dead, stale, Dead), lead, more);
      LiveLater(lead, more, fingerprint);
      if mode.Broker? {
        KeptLater(lead, more, cp.memory, dead, world.clock);
      }
      if !mode.Mailbox? {
        CountedLater(Unanswered(m), have, dead, stale, more);
        SameCount(m, dead);
      }
    }

    /** The session in use was checked, and nobody is to be asked: it is accepted, or that could not be
        told, or there is nobody to ask. */
    method EndCheck(v: Verdict, have: bool) returns (o: Outcome, ghost more: seq<Event>)
      requires Valid() && polled && (!v.Dead? || mode.Off?)
      requires ProbeOf(have, fingerprint, expired, v) == [] ==> v.Dead?
      modifies this`unknownStreak, world`trace, cp
      ensures Valid() && polled && world.trace == old(world.trace) + more
      ensures PollDid(ProbeOf(have, fingerprint, expired, v) + more, have, mode, fingerprint, expired, old(unknownStreak), fingerprint, o,
                      old(cp.memory), [], interval, wait)
      ensures o.GateLive? ==> LiveNow(ProbeOf(have, fingerprint, expired, v) + more, fingerprint) && Unanswered(cp.memory) == 0
      ensures Unanswered(cp.memory) == Counted(Unanswered(old(cp.memory)), ProbeOf(have, fingerprint, expired, v) + more)
      ensures more == if v.Live? then [Pardon] else []
    {
      hide Strikes, Gagged, Restrained, LastRequest, MayFollow, AskDid, PollDid, Remembers, RequestKept, Unanswered;
      PollEnds(v, have, mode, fingerprint, expired, unknownStreak, cp.memory, [], interval, wait);
      if v.Live? {
        GoLive();
        return GateLive, [Pardon];
      }
      more := [];
      unknownStreak := if v.Dead? then 0 else unknownStreak + 1;
      o := if v.Dead? then GateDead else Skip(mode.Broker? && unknownStreak >= UNKNOWN_STREAK_FAILS);
    }

    /** A session that is not recorded as dead is checked with one GET; a dead one is asked for. */
    method CheckAndAsk(have: bool, rounds: nat) returns (o: Outcome, ghost did: seq<Event>)
      requires Valid() && polled && !Gagged(world.trace) && !AskedSince(world.trace)
      modifies this, world`trace, world`clock, cp
      ensures Valid() && polled && old(world.clock) <= world.clock && world.trace == old(world.trace) + did
      ensures PollDid(did, have, mode, old(fingerprint), old(expired), old(unknownStreak), fingerprint, o, old(cp.memory),
                      world.clock[|old(world.clock)|..], interval, wait)
      ensures o.GateLive? ==> LiveNow(world.trace, fingerprint) && Unanswered(cp.memory) == 0
      ensures !mode.Mailbox? ==> Unanswered(cp.memory) == Counted(Unanswered(old(cp.memory)), did)
      ensures mode.Broker? ==> AllKept(did, cp.memory, old(fingerprint), world.clock)
    {
      hide Strikes, Gagged, Restrained, LastRequest, MayFollow, AskDid, PollDid, Remembers, RequestKept, LiveNow, Unanswered, Counted, ProbeOf, AllKept;
      ghost var t, place, stale := world.trace, fingerprint, expired;
      var v := Check(have);
      did := ProbeOf(have, fingerprint, expired, v);
      ghost var more;
      if v.Dead? && !mode.Off? {
        unknownStreak := 0;
        o, more := AskForDead(rounds, have, old(unknownStreak));
        LiveLater(did, more, fingerprint);
      } else {
        assert world.clock[|old(world.clock)|..] == [];
        o, more := EndCheck(v, have);
        NobodyAsked(more, cp.memory, place, world.clock);
      }
      KeptAfterCheck(have, place, stale, v, more, cp.memory, world.clock);
      Regroup(t, did, more);
      did := did + more;
      LiveLater(t, did, fingerprint);
    }

    /** What a poll does before it asks anything of anybody. */
    method Open() returns (have: bool, recorded: bool, ghost file: FileRead)
      requires Valid()
      modifies this, world`trace, cp
      ensures Valid() && polled && !askedThisPoll && !AskedSince(world.trace) && Gagged(world.trace) == recorded
      ensures world.trace == old(world.trace) + Opening(old(cp.memory), resetToken, mode, fingerprint)
      ensures cp.memory == AfterReset(old(cp.memory), resetToken) && unknownStreak == old(unknownStreak)
      ensures have == fingerprint.Some? && recorded == (mode.Broker? && HeldDead(cp.memory, fingerprint))
      ensures InPlace(file, old(fingerprint), old(expired), old(held), old(replaced), fingerprint, expired)
    {
      hide Strikes, Gagged, Restrained, LastRequest, MayFollow, Remembers, RequestKept;
      ghost var t := world.trace;
      Note(PollStart);
      After(world.trace, Pardon, interval, counted);
      HonourReset();
      askedThisPoll := false;
      have, file := Reload();
      recorded := mode.Broker? && HeldDead(cp.memory, fingerprint);
      Note(Placed(recorded));
      assert world.trace == t + Opening(old(cp.memory), resetToken, mode, fingerprint);
    }

    /** The start of a poll: an operator's reset is honoured, the session file is read, and then either
        the session in place is recorded as dead and a login is asked for, or it is checked. `place` is
        the session in place, `stale` what its document says; `file` is the session file. */
    method Ensure(rounds: nat) returns (o: Outcome, ghost did: seq<Event>, ghost place: Option<nat>, ghost stale: bool, ghost file: FileRead)
      requires Valid()
      modifies this, world`trace, world`clock, cp
      ensures Valid() && polled && old(world.clock) <= world.clock
      ensures InPlace(file, old(fingerprint), old(expired), old(held), old(replaced), place, stale)
      ensures world.trace == old(world.trace) + Opening(old(cp.memory), resetToken, mode, place) + did
      ensures EnsureDid(did, old(cp.memory), resetToken, mode, place, stale, old(unknownStreak), fingerprint, o,
                        world.clock[|old(world.clock)|..], interval, wait)
      ensures !mode.Mailbox? ==> Unanswered(cp.memory) == Counted(Unanswered(AfterReset(old(cp.memory), resetToken)), did)
      ensures o.GateLive? ==> LiveNow(world.trace, fingerprint) && Unanswered(cp.memory) == 0
      ensures mode.Broker? ==> AllKept(did, cp.memory, place, world.clock)
    {
      hide Strikes, Gagged, Restrained, LastRequest, MayFollow, AskDid, PollDid, LiveNow, Unanswered, Remembers, RequestKept, Opening, AfterReset, Counted,
        AllKept;
      ghost var t, clock := world.trace, world.clock;
      var have, recorded;
      have, recorded, file := Open();
      place, stale := fingerprint, expired;
      ghost var m, opening := cp.memory, Opening(old(cp.memory), resetToken, mode, place);
      if recorded {
        o, did := RequestAndWait(rounds);
        AskDidEnds(did, mode, place, stale, fingerprint, o, m, world.clock[|clock|..], interval, wait);
        LiveLater(t + opening, did, fingerprint);
      } else {
        o, did := CheckAndAsk(have, rounds);
      }
    }

    /** A session that stopped being accepted in the middle of a poll: recorded as dead and, when the
        broker was not asked yet in this poll, asked for. */
    method Renew() returns (o: Outcome, ghost did: seq<Event>)
      requires Valid() && polled
      modifies this, world`trace, world`clock, cp
      ensures Valid() && polled && old(world.clock) <= world.clock && world.trace == old(world.trace) + did
      ensures if !mode.Broker? then did == [] && o == Skip(false)
              else if old(askedThisPoll) then did == [Placed(true)] && o == Skip(false) && HeldDead(cp.memory, fingerprint)
              else did != [] && did[0] == Placed(true)
                   && AskDid(did[1..], mode, old(fingerprint), old(expired), fingerprint, o, old(cp.memory)[HoldKey := Hold(old(fingerprint), None)],
                             world.clock[|old(world.clock)|..], interval, wait)
      ensures o.GateLive? ==> LiveNow(world.trace, fingerprint) && Unanswered(cp.memory) == 0
      ensures mode.Broker? ==> AllKept(did, cp.memory, old(fingerprint), world.clock)
    {
      hide Strikes, Gagged, Restrained, LastRequest, MayFollow, AskDid, AllKept;
      did := [];
      if !mode.Broker? {
        return Skip(false), did;
      }
      After(world.trace, Placed(true), interval, counted);
      SaveHold(None);
      if askedThisPoll {
        did := [Placed(true)];
        NobodyAsked(did, cp.memory, fingerprint, world.clock);
        return Skip(false), did;
      }
      ghost var more, m := [], cp.memory;
      o, more := RequestAndWait(0);
      did := [Placed(true)] + more;
      KeptLater([Placed(true)], more, cp.memory, old(fingerprint), world.clock);
      assert did[1..] == more;
      AskDidEnds(more, mode, old(fingerprint), old(expired), fingerprint, o, m, world.clock[|old(world.clock)|..], interval, wait);
    }
  }

  // ---- What was done, and how it came out ----

  /** What is in place once the session file was read: the session in the file, when it is the one in use
      already, or a client could be made of it and it is not the one the broker has replaced; otherwise
      what was in use before. */
  ghost predicate InPlace(file: FileRead, use: Option<nat>, expired: bool, held: bool, replaced: Option<nat>, place: Option<nat>,
                          stale: bool)
  {
    if file.Document? && (use == Some(file.fp) || (file.builds && !(held && replaced == Some(file.fp)))) then
      place == Some(file.fp) && stale == file.expired
    else place == use && stale == expired
  }

  /** The one GET of a check; none without a session or with an expired document. */
  function ProbeOf(have: bool, fp: Option<nat>, stale: bool, v: Verdict): seq<Event> {
    if !have || fp.None? || stale then [] else [Probe(fp.value, v)]
  }

  function AfterStrike(n: nat): Outcome {
    if n + 1 >= MAX_UNANSWERED then Blocked else Skip(true)
  }

  /** The count after what was done: only the last event can change it. */
  function Counted(n: nat, did: seq<Event>): nat {
    if did == [] then n
    else if did[|did| - 1].Strike? then (if did[0].Pardon? then 0 else n) + 1
    else if did[|did| - 1].Pardon? || did[0].Pardon? then 0
    else n
  }

  predicate NewToken(m: map<Key, Value>, token: Option<nat>) {
    token.Some? && !(ResetKey in m && m[ResetKey] == Token(token.value))
  }

  function AfterReset(m: map<Key, Value>, token: Option<nat>): map<Key, Value> {
    if NewToken(m, token) then m[ResetKey := Token(token.value)] - {UnansweredKey, HoldKey} else m
  }

  /** The broker has named a time, for this dead session, that has not come. */
  predicate TooEarly(m: map<Key, Value>, fp: Option<nat>, now: int) {
    HeldDead(m, fp) && m[HoldKey].until.Some? && now < m[HoldKey].until.value * SECOND
  }

  /** A time the broker has named is believed for a day at most. */
  function Believed(until: Option<int>, now: int): Option<int> {
    if until.Some? && until.value > Stamp(now + MAX_BROKER_HOLD) then Some(Stamp(now + MAX_BROKER_HOLD)) else until
  }

  /** What is recorded as dead once the delivered session `fp` was tried: that session when the portal
      refused it, nothing when the portal accepted it or could not say whether the one recorded is dead
      after all, and otherwise the one found dead before. */
  ghost predicate TrialKept(did: seq<Event>, m: map<Key, Value>, fp: Option<nat>, dead: Option<nat>) {
    if did == [] then HeldDead(m, dead)
    else if did[|did| - 1].Strike? then HoldOf(m) == Some(Hold(fp, None))
    else if did[|did| - 1].Pardon? || fp == dead then HoldKey !in m
    else HeldDead(m, dead)
  }

  /** What is recorded as dead after each answer of the broker. Without a session that is the one found
      dead before; an answer that defers adds the time it names. */
  ghost predicate AnswerKept(did: seq<Event>, m: map<Key, Value>, dead: Option<nat>, clock: seq<int>) {
    did != [] && did[0].Ask? &&
    match did[0].answer
    case Deferred(until) => clock != [] && HoldOf(m) == Some(Hold(dead, Believed(until, clock[|clock| - 1])))
    case Session(fp, _, _) => |did| >= 2 && TrialKept(did[2..], m, Some(fp), dead)
    case _ => HeldDead(m, dead)
  }

  /** The same for a call of the broker anywhere in what was done. */
  ghost predicate AllKept(did: seq<Event>, m: map<Key, Value>, dead: Option<nat>, clock: seq<int>) {
    forall k :: 0 <= k < |did| && did[k].Ask? ==> AnswerKept(did[k..], m, dead, clock)
  }

  lemma NobodyAsked(did: seq<Event>, m: map<Key, Value>, dead: Option<nat>, clock: seq<int>)
    requires forall k :: 0 <= k < |did| ==> !did[k].Ask?
    ensures AllKept(did, m, dead, clock)
  {}

  lemma KeptLater(lead: seq<Event>, did: seq<Event>, m: map<Key, Value>, dead: Option<nat>, clock: seq<int>)
    requires AllKept(did, m, dead, clock) && forall k :: 0 <= k < |lead| ==> !lead[k].Ask?
    ensures AllKept(lead + did, m, dead, clock)
  {
    hide AnswerKept;
    forall k | 0 <= k < |lead + did| && (lead + did)[k].Ask? ensures AnswerKept((lead + did)[k..], m, dead, clock) {
      assert (lead + did)[k..] == did[k - |lead|..];
    }
  }

  lemma KeptAfterCheck(have: bool, place: Option<nat>, stale: bool, v: Verdict, did: seq<Event>, m: map<Key, Value>, clock: seq<int>)
    ensures AllKept(did, m, place, clock) ==> AllKept(ProbeOf(have, place, stale, v) + did, m, place, clock)
  {
    hide AllKept;
    if AllKept(did, m, place, clock) {
      KeptLater(ProbeOf(have, place, stale, v), did, m, place, clock);
    }
  }

  /** What was done begins with the one call. */
  lemma AskedOnce(did: seq<Event>, dead: Option<nat>, stale: bool, o: Outcome, n: nat, m: map<Key, Value>, clock: seq<int>)
    requires BrokerDid(did, dead, stale, o, n) && AnswerKept(did, m, dead, clock)
    ensures AllKept(did, m, dead, clock)
  {
    hide AnswerKept;
    BrokerAsksFirst(did, dead, stale, o, n);
    assert did[0..] == did;
  }

  /** A delivered session was checked once: one GET, none when its document says that it has expired. */
  ghost predicate CheckDid(did: seq<Event>, fp: Option<nat>, stale: bool, o: Outcome, n: nat) {
    fp.Some? &&
    if stale then did == [Placed(true), Strike] && o == AfterStrike(n)
    else
      || (did == [Probe(fp.value, Live), Pardon] && o.GateLive?)
      || (did == [Probe(fp.value, Dead), Placed(true), Strike] && o == AfterStrike(n))
      || (did == [Probe(fp.value, Unknown)] && o == Skip(true))
  }

  lemma CheckNothing(n: nat, m: map<Key, Value>, fp: Option<nat>, dead: Option<nat>)
    requires HeldDead(m, dead)
    ensures Counted(n, []) == n && TrialKept([], m, fp, dead)
  {}

  lemma CheckEnds(fp: Option<nat>, stale: bool, v: Verdict, n: nat, dead: Option<nat>, m: map<Key, Value>)
    requires fp.Some? && (ProbeOf(true, fp, stale, v) == [] ==> v.Dead?)
    requires match v case Live => HoldKey !in m case Dead => HoldOf(m) == Some(Hold(fp, None))
                     case Unknown => if fp == dead then HoldKey !in m else HeldDead(m, dead)
    ensures
      var did := ProbeOf(true, fp, stale, v) + (if v.Live? then [Pardon] else if v.Dead? then [Placed(true), Strike] else []);
      && did != [] && TrialKept(did, m, fp, dead)
      && CheckDid(did, fp, stale, if v.Live? then GateLive else if v.Dead? then AfterStrike(n) else Skip(true), n)
      && Counted(n, did) == if v.Live? then 0 else if v.Dead? then n + 1 else n
    ensures ProbeOf(true, fp, stale, v) + [] == ProbeOf(true, fp, stale, v)
  {}

  lemma BrokerEnds(r: Refresh, dead: Option<nat>, stale: bool, n: nat, m: map<Key, Value>, clock: seq<int>)
    ensures r.NoAnswer? || r.NoSession? ==> BrokerDid([Ask(r)], dead, stale, Skip(true), n)
    ensures r.Latched? ==> BrokerDid([Ask(r)], dead, stale, Blocked, n)
    ensures r.NoAnswer? || r.NoSession? || r.Latched? ==> HeldDead(m, dead) ==> AnswerKept([Ask(r)], m, dead, clock)
    ensures r.Deferred? ==> BrokerDid([Ask(r), Placed(true)], dead, stale, Skip(false), n)
    ensures r.Deferred? && clock != [] && HoldOf(m) == Some(Hold(dead, Believed(r.until, clock[|clock| - 1]))) ==>
              AnswerKept([Ask(r), Placed(true)], m, dead, clock)
    ensures Counted(n, [Ask(r)]) == Counted(n, [Ask(r), Placed(true)]) == n
  {}

  lemma BrokerTries(fp: nat, isExpired: bool, builds: bool, more: seq<Event>, dead: Option<nat>, stale: bool, o: Outcome, n: nat,
                    m: map<Key, Value>, use: Option<nat>, clock: seq<int>)
    requires if !builds && dead != Some(fp) then more == [] && o == Skip(true) && use == dead
             else use == Some(fp) && CheckDid(more, Some(fp), if dead == Some(fp) then stale else isExpired, o, n)
    requires TrialKept(more, m, Some(fp), dead)
    ensures var did := [Ask(Session(fp, isExpired, builds)), Delivered(fp, isExpired)] + more;
      && BrokerDid(did, dead, stale, o, n) && Counted(n, did) == Counted(n, more) && AnswerKept(did, m, dead, clock)
      && use == if |did| > 2 then Some(did[1].fp) else dead
  {
    assert ([Ask(Session(fp, isExpired, builds)), Delivered(fp, isExpired)] + more)[2..] == more;
  }

  /** One call of the broker, and what each answer leads to. No answer, or none with a session, is a
      failed poll; a latch blocks; an answer that defers is nobody's failure, and is recorded. A session
      is put into use and checked, unless no client can be made of it; when it is the one held dead that
      is its second opinion. */
  ghost predicate BrokerDid(did: seq<Event>, dead: Option<nat>, stale: bool, o: Outcome, n: nat) {
    did != [] && did[0].Ask? &&
    match did[0].answer
    case NoAnswer => |did| == 1 && o == Skip(true)
    case NoSession => |did| == 1 && o == Skip(true)
    case Latched => |did| == 1 && o == Blocked
    case Deferred(_) => |did| == 2 && did[1] == Placed(true) && o == Skip(false)
    case Session(fp, isExpired, builds) =>
      |did| >= 2 && did[1] == Delivered(fp, isExpired) &&
      if !builds && dead != Some(fp) then |did| == 2 && o == Skip(true)
      else CheckDid(did[2..], Some(fp), if dead == Some(fp) then stale else isExpired, o, n)
  }

  /** What the broker answers decides how a poll's start comes out, in whatever state it is asked. */
  lemma AnswerDecides(did: seq<Event>, memory: map<Key, Value>, token: Option<nat>, mode: Mode, place: Option<nat>, stale: bool, streak: nat,
                      fp: Option<nat>, o: Outcome, clock: seq<int>, interval: nat, wait: nat, k: nat)
    requires EnsureDid(did, memory, token, mode, place, stale, streak, fp, o, clock, interval, wait) && k < |did| && did[k].Ask?
    ensures mode.Broker?
    ensures match did[k].answer
      case NoAnswer => o == Skip(true) && fp == place
      case NoSession => o == Skip(true) && fp == place
      case Latched => o == Blocked && fp == place
      case Deferred(_) => o == Skip(false) && fp == place
      case Session(found, _, _) => (o.GateLive? <==> Probe(found, Live) in did[k..]) && (o.Blocked? ==> Strike in did[k..]) && o != Skip(false)
  {
    hide CheckDid, MailboxDid, BrokerDid, TooEarly, PollDid;
    var m, rest, n := AfterReset(memory, token), did, 0;
    if mode.Broker? && HeldDead(m, place) {
      assert did[0..] == did;
    } else {
      n, m := AskedPart(did, place.Some?, mode, place, stale, streak, fp, o, m, clock, interval, wait, k);
      rest := did[n..];
    }
    assert rest[k - n] == did[k] && rest[k - n..] == did[k..];
    if mode.Mailbox? {
      MailboxAsksNobody(rest, place, fp, o, m, clock[0], interval, wait);
    } else {
      BrokerDecides(rest, place, stale, o, Unanswered(m), k - n);
    }
  }

  lemma AskedPart(did: seq<Event>, have: bool, mode: Mode, dead: Option<nat>, stale: bool, streak: nat, fp: Option<nat>, o: Outcome,
                  m: map<Key, Value>, clock: seq<int>, interval: nat, wait: nat, k: nat) returns (n: nat, m': map<Key, Value>)
    requires PollDid(did, have, mode, dead, stale, streak, fp, o, m, clock, interval, wait) && k < |did| && did[k].Ask?
    ensures !mode.Off? && n <= k && AskDid(did[n..], mode, dead, stale, fp, o, m', clock, interval, wait)
  {
    hide AskDid;
    var lead := ProbeOf(have, dead, stale, Dead) + (if mode.Broker? then [Placed(true)] else []);
    assert did[..|lead|] == lead;
    assert forall i :: 0 <= i < |lead| ==> did[i] == lead[i];
    n, m' := |lead|, if mode.Broker? then m[HoldKey := Hold(dead, None)] else m;
  }

  lemma BrokerDecides(did: seq<Event>, dead: Option<nat>, stale: bool, o: Outcome, n: nat, k: nat)
    requires BrokerDid(did, dead, stale, o, n) && k < |did| && did[k].Ask?
    ensures k == 0 && did[k..] == did
    ensures match did[0].answer
      case NoAnswer => o == Skip(true) && |did| == 1
      case NoSession => o == Skip(true) && |did| == 1
      case Latched => o == Blocked && |did| == 1
      case Deferred(_) => o == Skip(false) && |did| == 2
      case Session(found, _, _) => (o.GateLive? <==> Probe(found, Live) in did) && (o.Blocked? ==> Strike in did) && o != Skip(false)
  {
    if |did| > 2 && did[0].answer.Session? {
      assert did == did[..2] + did[2..];
      assert did[..2] == [did[0], did[1]];
    }
  }

  /** The session file was waited for: interrupted, in vain, or until it held another session than the
      dead one, which was checked once. */
  ghost predicate WaitDid(did: seq<Event>, dead: Option<nat>, fp: Option<nat>, o: Outcome, n: nat) {
    || (did == [] && o == Skip(false) && (fp.None? || fp == dead))
    || (did == [Strike] && o == AfterStrike(n))
    || (|did| == 2 && fp.Some? && fp != dead && did[0].Probe? && did[0].fp == fp.value
        && if did[0].verdict.Live? then did[1].Pardon? && o.GateLive? else did[1].Strike? && o == AfterStrike(n))
  }

  lemma ArrivedEnds(fp: Option<nat>, stale: bool, v: Verdict, n: nat)
    requires fp.Some? && (ProbeOf(true, fp, stale, v) == [] ==> v.Dead?)
    ensures var did := ProbeOf(true, fp, stale, v) + [if v.Live? then Pardon else Strike];
      && did != [] && WaitDid(did, None, fp, if v.Live? then GateLive else AfterStrike(n), n) && Counted(n, did) == if v.Live? then 0 else n + 1
  {}

  /** No request is remembered that is younger than the interval, or in the future. */
  predicate MayRequest(m: map<Key, Value>, now: int, interval: nat) {
    LastStamp(m).Some? ==> LastStamp(m).value * SECOND <= now && now - LastStamp(m).value * SECOND >= interval
  }

  /** A request was made so recently that its session may still come. */
  predicate StillWaiting(m: map<Key, Value>, now: int, interval: nat, wait: nat) {
    LastStamp(m).Some? && LastStamp(m).value * SECOND <= now && now - LastStamp(m).value * SECOND < Min(interval, wait)
  }

  ghost predicate Requested(did: seq<Event>) {
    exists i :: 0 <= i < |did| && did[i].Request?
  }

  /** Nobody may be asked by the mailbox: a session file written moments ago holds the dead session, or it
      is the blackout, or the last request is too young to be followed by one and too old to be waited
      for, or in the future. */
  ghost predicate MustSkip(e: Event, dead: Option<nat>, m: map<Key, Value>, now: int, interval: nat, wait: nat)
    requires e.Weighed?
  {
    (e.recent && dead.Some?) || e.blackout || (!MayRequest(m, now, interval) && !StillWaiting(m, now, interval, wait))
  }

  /** The first half of a mailbox poll: without an outcome a request, or an earlier one, is to be waited
      for. A request that may be made is made, unless its time cannot be stored. */
  ghost predicate RequestDid(one: seq<Event>, o: Option<Outcome>, dead: Option<nat>, m: map<Key, Value>, now: int, interval: nat, wait: nat) {
    one != [] && one[0].Weighed? &&
    if MustSkip(one[0], dead, m, now, interval, wait) then |one| == 1 && o == Some(Skip(false))
    else if StillWaiting(m, now, interval, wait) then |one| == 1 && o == None
    else
      || (|one| == 1 && o == Some(Skip(true)))
      || (|one| == 2 && one[1] == Request(now) && MayRequest(m, now, interval) && (o == None || o == Some(Skip(true))))
  }

  function Cleared(m: map<Key, Value>): map<Key, Value> {
    if Unanswered(m) >= MAX_UNANSWERED then m - {UnansweredKey} else m
  }

  /** A count that is full is cleared first. */
  function Lead(m: map<Key, Value>): seq<Event> {
    if Unanswered(m) >= MAX_UNANSWERED then [Pardon] else []
  }

  lemma NothingRequested()
    ensures !Requested([])
  {}

  /** What is done when a count is not full. */
  ghost predicate RestDid(rest: seq<Event>, dead: Option<nat>, fp: Option<nat>, o: Outcome, m: map<Key, Value>, now: int, interval: nat, wait: nat) {
    rest != [] && rest[0].Weighed? &&
    if MustSkip(rest[0], dead, m, now, interval, wait) then |rest| == 1 && o == Skip(false) && fp == dead
    else if StillWaiting(m, now, interval, wait) then WaitDid(rest[1..], dead, fp, o, Unanswered(m))
    else if |rest| == 1 then o == Skip(true) && fp == dead
    else
      && rest[1] == Request(now) && MayRequest(m, now, interval)
      && ((|rest| == 2 && o == Skip(true) && fp == dead) || WaitDid(rest[2..], dead, fp, o, Unanswered(m)))
  }

  lemma RestEnds(one: seq<Event>, o: Option<Outcome>, dead: Option<nat>, m: map<Key, Value>, now: int, interval: nat, wait: nat)
    requires RequestDid(one, o, dead, m, now, interval, wait) && o.Some?
    ensures RestDid(one, dead, dead, o.value, m, now, interval, wait) && Counted(Unanswered(m), one) == Unanswered(m)
    ensures Requested(one) ==> |one| == 2
  {}

  lemma RestWaits(one: seq<Event>, more: seq<Event>, dead: Option<nat>, fp: Option<nat>, o: Outcome, m: map<Key, Value>, now: int, interval: nat,
                  wait: nat)
    requires RequestDid(one, None, dead, m, now, interval, wait) && WaitDid(more, dead, fp, o, Unanswered(m))
    ensures RestDid(one + more, dead, fp, o, m, now, interval, wait) && Counted(Unanswered(m), one + more) == Counted(Unanswered(m), more)
    ensures Requested(one + more) ==> |one| == 2
  {
    assert (one + more)[|one|..] == more;
  }

  lemma MailboxRest(rest: seq<Event>, m: map<Key, Value>)
    ensures (Lead(m) + rest)[..|Lead(m)|] == Lead(m) && (Lead(m) + rest)[|Lead(m)|..] == rest
    ensures Counted(Unanswered(m), Lead(m) + rest) == Counted(Unanswered(Cleared(m)), rest)
    ensures Requested(Lead(m) + rest) ==> Requested(rest)
  {}

  /** The mailbox: blocked while the session is the one the count was made against; otherwise a count
      that is full is cleared, and then nothing is asked, or a request is made when one may be and
      waited for, or one made before is waited for. */
  ghost predicate MailboxDid(did: seq<Event>, dead: Option<nat>, fp: Option<nat>, o: Outcome, m: map<Key, Value>, now: int, interval: nat, wait: nat) {
    var full := Unanswered(m) >= MAX_UNANSWERED;
    if full && UnansweredAt(m) == dead then did == [] && o == Blocked
    else
      |did| >= |Lead(m)| && did[..|Lead(m)|] == Lead(m)
      && RestDid(did[|Lead(m)|..], dead, fp, o, Cleared(m), now, interval, wait)
  }

  lemma MailboxAsksNobody(did: seq<Event>, dead: Option<nat>, fp: Option<nat>, o: Outcome, m: map<Key, Value>, now: int, interval: nat, wait: nat)
    requires MailboxDid(did, dead, fp, o, m, now, interval, wait)
    ensures forall k :: 0 <= k < |did| ==> !did[k].Ask?
  {
    hide MayRequest, StillWaiting, RestDid;
    if did != [] {
      var rest := did[|Lead(m)|..];
      assert did == did[..|Lead(m)|] + rest;
      RestAsksNobody(rest, dead, fp, o, Cleared(m), now, interval, wait);
    }
  }

  lemma RestAsksNobody(rest: seq<Event>, dead: Option<nat>, fp: Option<nat>, o: Outcome, m: map<Key, Value>, now: int, interval: nat, wait: nat)
    requires RestDid(rest, dead, fp, o, m, now, interval, wait)
    ensures forall k :: 0 <= k < |rest| ==> !rest[k].Ask?
  {
    hide MayRequest, MustSkip, StillWaiting;
    assert rest == rest[..1] + rest[1..];
    if |rest| > 1 {
      assert rest == rest[..2] + rest[2..];
    }
  }

  /** A login is asked for: `clock` is what the clock shows from here on. */
  ghost predicate AskDid(did: seq<Event>, mode: Mode, dead: Option<nat>, stale: bool, fp: Option<nat>, o: Outcome, m: map<Key, Value>,
                         clock: seq<int>, interval: nat, wait: nat)
  {
    if mode.Mailbox? then clock != [] && MailboxDid(did, dead, fp, o, m, clock[0], interval, wait)
    else if Unanswered(m) >= MAX_UNANSWERED then did == [] && o == Blocked
    else
      clock != [] &&
      if TooEarly(m, dead, clock[0]) then did == [] && o == Skip(false)
      else BrokerDid(did, dead, stale, o, Unanswered(m)) && fp == if |did| > 2 then Some(did[1].fp) else dead
  }

  /** A time the broker has named holds. While the same session is in place the next poll asks nobody,
      broker or portal, exactly when it comes before that time, and before a day after the answer; any
      later poll asks the broker again. */
  lemma DeferralHolds(until: Option<int>, more: seq<Event>, m: map<Key, Value>, dead: Option<nat>, clock: seq<int>,
                      did: seq<Event>, stale: bool, streak: nat, fp: Option<nat>, o: Outcome, later: seq<int>, interval: nat, wait: nat)
    requires AnswerKept([Ask(Deferred(until))] + more, m, dead, clock) && Unanswered(m) < 2
    requires EnsureDid(did, m, None, Broker, dead, stale, streak, fp, o, later, interval, wait)
    ensures clock != [] && later != []
    ensures did == [] <==> until.Some? && later[0] < Min(until.value, (clock[|clock| - 1] + 86400 * SECOND) / SECOND) * SECOND
    ensures if did == [] then o == Skip(false) else did[0].Ask?
  {
    hide BrokerDid;
    if did != [] {
      BrokerAsksFirst(did, dead, stale, o, Unanswered(m));
    } else if !TooEarly(m, dead, later[0]) {
      BrokerAsksFirst(did, dead, stale, o, Unanswered(m));
    }
  }

  /** A count that is full stops the mailbox for as long as the session it was made against is in place:
      a poll then blocks and asks nobody. Any other dead session lifts it. */
  lemma BlockedUntilChanged(m: map<Key, Value>, n: nat, at: Option<nat>, did: seq<Event>, place: Option<nat>, stale: bool, streak: nat,
                            fp: Option<nat>, o: Outcome, clock: seq<int>, interval: nat, wait: nat)
    requires n >= 2 && EnsureDid(did, m[UnansweredKey := Count(n, at)], None, Mailbox, place, stale, streak, fp, o, clock, interval, wait)
    requires did != [] && did[0].Probe? ==> did[0].verdict.Dead?
    ensures if place == at then did == ProbeOf(place.Some?, place, stale, Dead) && o == Blocked else Pardon in did
  {
    hide RestDid;
    var lead := ProbeOf(place.Some?, place, stale, Dead);
    assert did[..|lead|] == lead && did == lead + did[|lead|..];
    if place != at {
      assert did[|lead|..][..1] == [Pardon];
      assert did[|lead|] == Pardon;
    }
  }

  /** A session that may be alive was checked; found dead, it is recorded and a login is asked for. */
  ghost predicate PollDid(did: seq<Event>, have: bool, mode: Mode, dead: Option<nat>, stale: bool, streak: nat, fp: Option<nat>, o: Outcome,
                          m: map<Key, Value>, clock: seq<int>, interval: nat, wait: nat)
  {
    if have && dead.Some? && !stale && did != [] && did[0] == Probe(dead.value, Live) then
      did == [Probe(dead.value, Live), Pardon] && o.GateLive? && fp == dead
    else if have && dead.Some? && !stale && did != [] && did[0] == Probe(dead.value, Unknown) then
      did == [Probe(dead.value, Unknown)] && o == Skip(mode.Broker? && streak + 1 >= UNKNOWN_STREAK_FAILS) && fp == dead
    else
      var lead := ProbeOf(have, dead, stale, Dead) + (if mode.Broker? then [Placed(true)] else []);
      |did| >= |lead| && did[..|lead|] == lead &&
      var rest := did[|lead|..];
      if mode.Off? then rest == [] && o == GateDead && fp == dead
      else AskDid(rest, mode, dead, stale, fp, o, if mode.Broker? then m[HoldKey := Hold(dead, None)] else m, clock, interval, wait)
  }

  lemma PollEnds(v: Verdict, have: bool, mode: Mode, dead: Option<nat>, stale: bool, streak: nat, m: map<Key, Value>, clock: seq<int>,
                 interval: nat, wait: nat)
    requires if v.Dead? then mode.Off? else ProbeOf(have, dead, stale, v) != []
    ensures PollDid(ProbeOf(have, dead, stale, v) + (if v.Live? then [Pardon] else []), have, mode, dead, stale, streak, dead,
                    if v.Live? then GateLive else if v.Dead? then GateDead else Skip(mode.Broker? && streak + 1 >= UNKNOWN_STREAK_FAILS),
                    m, clock, interval, wait)
  {}

  lemma PollAsks(more: seq<Event>, have: bool, mode: Mode, dead: Option<nat>, stale: bool, streak: nat, fp: Option<nat>, o: Outcome,
                 m: map<Key, Value>, clock: seq<int>, interval: nat, wait: nat)
    requires !mode.Off? && AskDid(more, mode, dead, stale, fp, o, if mode.Broker? then m[HoldKey := Hold(dead, None)] else m, clock, interval, wait)
    ensures PollDid(ProbeOf(have, dead, stale, Dead) + (if mode.Broker? then [Placed(true)] else []) + more, have, mode, dead, stale, streak, fp, o, m,
                    clock, interval, wait)
  {}

  /** The start of a poll, after its opening: the record holds the session in place dead, or it is
      checked. */
  ghost predicate EnsureDid(did: seq<Event>, memory: map<Key, Value>, token: Option<nat>, mode: Mode, place: Option<nat>, stale: bool, streak: nat,
                            fp: Option<nat>, o: Outcome, clock: seq<int>, interval: nat, wait: nat)
  {
    var m := AfterReset(memory, token);
    if mode.Broker? && HeldDead(m, place) then AskDid(did, mode, place, stale, fp, o, m, clock, interval, wait)
    else PollDid(did, place.Some?, mode, place, stale, streak, fp, o, m, clock, interval, wait)
  }

  /** What a poll does first. */
  ghost function Opening(m: map<Key, Value>, token: Option<nat>, mode: Mode, place: Option<nat>): seq<Event> {
    [PollStart] + (if NewToken(m, token) then [Pardon] else []) + [Placed(mode.Broker? && HeldDead(AfterReset(m, token), place))]
  }

  /** What comes before the broker is asked counts nothing. */
  lemma CountedLater(n: nat, have: bool, dead: Option<nat>, stale: bool, more: seq<Event>)
    requires more == [] || more[0].Ask?
    ensures Counted(n, ProbeOf(have, dead, stale, Dead) + [Placed(true)] + more) == Counted(n, more)
  {}

  lemma SameCount(m: map<Key, Value>, dead: Option<nat>)
    ensures Unanswered(m[HoldKey := Hold(dead, None)]) == Unanswered(m)
  {}

  /** However a login was asked for, a poll goes on only with a session the portal has just accepted,
      and it is in use. */
  lemma AskDidEnds(did: seq<Event>, mode: Mode, dead: Option<nat>, stale: bool, fp: Option<nat>, o: Outcome, m: map<Key, Value>,
                   clock: seq<int>, interval: nat, wait: nat)
    requires AskDid(did, mode, dead, stale, fp, o, m, clock, interval, wait)
    ensures o.GateLive? ==> LiveNow(did, fp) && Counted(Unanswered(m), did) == 0
    ensures !o.GateDead? && (!mode.Mailbox? && did != [] ==> did[0].Ask?)
  {
    hide MayRequest, StillWaiting, TooEarly;
    if o.GateLive? && did != [] && !mode.Mailbox? {
      assert did == did[..2] + did[2..];
    }
    if o.GateLive? && mode.Mailbox? {
      var rest := did[|Lead(m)|..];
      assert did == did[..|Lead(m)|] + rest;
      RestEndsLive(rest, dead, fp, o, Cleared(m), clock[0], interval, wait);
    }
  }

  lemma RestEndsLive(rest: seq<Event>, dead: Option<nat>, fp: Option<nat>, o: Outcome, m: map<Key, Value>, now: int, interval: nat, wait: nat)
    requires RestDid(rest, dead, fp, o, m, now, interval, wait) && o.GateLive?
    ensures LiveNow(rest, fp) && Counted(Unanswered(m), rest) == 0
  {
    hide MayRequest, StillWaiting, MustSkip;
    assert rest == rest[..1] + rest[1..];
    if |rest| > 1 {
      assert rest == rest[..2] + rest[2..];
    }
  }

  /** The stored stamp of a request drops its fraction of a second, so that the interval kept from the
      request itself may be short by less than one. */
  lemma LongEnough(t: seq<Event>, m: map<Key, Value>, now: int, interval: nat)
    requires RequestKept(t, m)
    requires LastStamp(m).Some? ==> now - LastStamp(m).value * SECOND >= interval
    ensures LastRequest(t).Some? ==> now - LastRequest(t).value > interval - SECOND
    ensures LastStamp(m).Some? ==> LastStamp(m).value <= Stamp(now)
    ensures LastRequest(t).Some? ==> Stamp(LastRequest(t).value) <= Stamp(now)
  {}

  /** The last thing the portal said is that it accepts the session in use. */
  ghost predicate LiveNow(t: seq<Event>, fp: Option<nat>) {
    fp.Some? && |t| >= 2 && t[|t| - 1].Pardon? && t[|t| - 2] == Probe(fp.value, Live)
  }

  lemma Regroup(a: seq<Event>, b: seq<Event>, c: seq<Event>)
    ensures a + (b + c) == a + b + c
  {}

  lemma LiveLater(t: seq<Event>, did: seq<Event>, fp: Option<nat>)
    ensures LiveNow(did, fp) ==> LiveNow(t + did, fp)
  {}

  /** Between two states of the trace only things happened that change nothing about what may follow. */
  ghost predicate Same(t: seq<Event>, t': seq<Event>) {
    Strikes(t') == Strikes(t) && AskedSince(t') == AskedSince(t) && Gagged(t') == Gagged(t) && LastRequest(t') == LastRequest(t)
  }

  /** The count knows of every strike. */
  ghost predicate Remembers(t: seq<Event>, m: map<Key, Value>) {
    Strikes(t) <= Unanswered(m)
  }

  /** The time of the last request is remembered, or a later one. */
  ghost predicate RequestKept(t: seq<Event>, m: map<Key, Value>) {
    LastRequest(t).Some? ==> LastStamp(m).Some? && Stamp(LastRequest(t).value) <= LastStamp(m).value
  }

  // ---- Over polls and restarts ----

  /** What happens to a gate: a poll starts, a session dies in the middle of one, or a new process takes
      over, with its configuration. */
  datatype Turn = PollTurn(rounds: nat) | RenewTurn | RestartTurn(mode: Mode, wait: nat, token: Option<nat>)

  /** Whatever the portal, the broker, the mailbox, the clock and the store do: one question to the broker
      for each poll, no probe of the recorded dead session and the spacing of requests are kept always;
      that nobody is asked after two strikes, as long as no process starts with fewer of them counted
      than the one before it knew of. `starts` are the two counts at each restart. */
  method Life(world: World, cp: Checkpoint<Key, Value>, mode: Mode, interval: nat, wait: nat, token: Option<nat>, turns: seq<Turn>)
    returns (starts: seq<(nat, nat)>)
    requires interval >= 1200 * SECOND && world.trace == [] && cp.memory == cp.stored
    modifies world, cp
    ensures Restrained(world.trace, interval, false)
    ensures (forall i :: 0 <= i < |starts| ==> starts[i].0 <= starts[i].1) ==> Restrained(world.trace, interval, true)
  {
    hide Strikes, Gagged, LastRequest, AskedSince, MayFollow, EnsureDid, AskDid, Opening, Counted, LiveNow;
    NothingAsked(interval, cp.stored);
    var gate := new Gate(world, cp, mode, interval, wait, token, true);
    starts := [];
    var begun := false;
    for n := 0 to |turns|
      invariant gate.Valid() && gate.world == world && gate.cp == cp && gate.interval == interval && fresh(gate)
      invariant begun ==> gate.polled
      invariant gate.counted <==> forall i :: 0 <= i < |starts| ==> starts[i].0 <= starts[i].1
    {
      match turns[n] {
        case PollTurn(rounds) =>
          var o;
          ghost var did, place, stale, file;
          o, did, place, stale, file := gate.Ensure(rounds);
          begun := true;
        case RenewTurn =>
          if begun {
            var o;
            ghost var did;
            o, did := gate.Renew();
          }
        case RestartTurn(mode', wait', token') =>
          ghost var was, counted := starts, gate.counted;
          var counts := (Unanswered(cp.memory), Unanswered(cp.stored));
          starts := starts + [counts];
          AllCounted(was, counts);
          if counted {
            CountedIsMore(world.trace, interval);
          }
          cp.Restart();
          gate := new Gate(world, cp, mode', interval, wait', token', counted && counts.0 <= counts.1);
          begun := false;
      }
    }
    if gate.counted {
      CountedIsMore(world.trace, interval);
    }
  }

  lemma AllCounted(starts: seq<(nat, nat)>, next: (nat, nat))
    ensures (forall i :: 0 <= i < |starts + [next]| ==> (starts + [next])[i].0 <= (starts + [next])[i].1)
            <==> (forall i :: 0 <= i < |starts| ==> starts[i].0 <= starts[i].1) && next.0 <= next.1
  {
    var more := starts + [next];
    assert more[|starts|] == next;
    assert forall i :: 0 <= i < |starts| ==> starts[i] == more[i];
  }

  lemma NothingAsked(interval: nat, m: map<Key, Value>)
    ensures Restrained([], interval, true) && Remembers([], m) && RequestKept([], m)
  {}

  /** The opening of a poll without a reset, and what a gate may do after it. */
  ghost predicate MayAsk(did: seq<Event>, stored: map<Key, Value>, place: Option<nat>, stale: bool, streak: nat, fp: Option<nat>, o: Outcome,
                         clock: seq<int>, interval: nat, wait: nat)
  {
    EnsureDid(did, stored, None, Broker, place, stale, streak, fp, o, clock, interval, wait) && exists k :: 0 <= k < |did| && did[k].Ask?
  }

  /** The first poll of a new process can call the broker exactly when what was stored counts less than
      two; and when there were two strikes that is one call too many. */
  lemma NextProcessAsks(t: seq<Event>, stored: map<Key, Value>, interval: nat, wait: nat)
    ensures (exists did, place, stale, streak, fp, o, clock :: MayAsk(did, stored, place, stale, streak, fp, o, clock, interval, wait))
            <==> Unanswered(stored) < MAX_UNANSWERED
    ensures Strikes(t) >= 2 ==>
      forall did, place, stale, streak, fp, o, clock :: MayAsk(did, stored, place, stale, streak, fp, o, clock, interval, wait) ==>
        !Restrained(t + Opening(stored, None, Broker, place) + did, interval, true)
  {
    hide MayAsk, Restrained, Opening, Strikes;
    if Unanswered(stored) < MAX_UNANSWERED {
      AsksAgain(stored, interval, wait);
    }
    forall did, place, stale, streak, fp, o, clock | MayAsk(did, stored, place, stale, streak, fp, o, clock, interval, wait)
      ensures Unanswered(stored) < MAX_UNANSWERED
      ensures Strikes(t) >= 2 ==> !Restrained(t + Opening(stored, None, Broker, place) + did, interval, true)
    {
      var k := AskedAt(did, stored, place, stale, streak, fp, o, clock, interval, wait);
      if Strikes(t) >= 2 {
        OneTooMany(t, stored, place, did, interval);
      }
    }
  }

  /** A process without a session asks, as soon as the time the broker has named is over. */
  lemma AsksAgain(stored: map<Key, Value>, interval: nat, wait: nat)
    requires Unanswered(stored) < MAX_UNANSWERED
    ensures exists did, place, stale, streak, fp, o, clock :: MayAsk(did, stored, place, stale, streak, fp, o, clock, interval, wait)
  {
    var clock := [if HeldDead(stored, None) && stored[HoldKey].until.Some? then stored[HoldKey].until.value * SECOND else 0];
    if HeldDead(stored, None) {
      assert [Ask(NoAnswer)][0].Ask?;
      assert MayAsk([Ask(NoAnswer)], stored, None, false, 0, None, Skip(true), clock, interval, wait);
    } else {
      var did := [Placed(true), Ask(NoAnswer)];
      assert did[1..] == [Ask(NoAnswer)] && did[..1] == [Placed(true)] && did[1].Ask?;
      assert MayAsk(did, stored, None, false, 0, None, Skip(true), clock, interval, wait);
    }
  }

  /** The call comes first, after at most one probe and the record of the dead session. */
  lemma AskedAt(did: seq<Event>, stored: map<Key, Value>, place: Option<nat>, stale: bool, streak: nat, fp: Option<nat>, o: Outcome,
                clock: seq<int>, interval: nat, wait: nat) returns (k: nat)
    requires MayAsk(did, stored, place, stale, streak, fp, o, clock, interval, wait)
    ensures Unanswered(stored) < MAX_UNANSWERED && k < |did| && did[k].Ask? && forall i :: 0 <= i < k ==> !did[i].Pardon?
  {
    hide BrokerDid, TooEarly;
    k :| 0 <= k < |did| && did[k].Ask?;
    if HeldDead(stored, place) {
      BrokerAsksFirst(did, place, stale, o, Unanswered(stored));
      k := 0;
    } else {
      var lead := ProbeOf(place.Some?, place, stale, Dead) + [Placed(true)];
      var m := stored[HoldKey := Hold(place, None)];
      assert did[..|lead|] == lead;
      assert forall i :: 0 <= i < |lead| ==> did[i] == lead[i];
      var rest := did[|lead|..];
      assert AskDid(rest, Broker, place, stale, fp, o, m, clock, interval, wait);
      RestAt(did, |lead|, k);
      BrokerAsksFirst(rest, place, stale, o, Unanswered(m));
      RestAt(did, |lead|, |lead|);
      k := |lead|;
    }
  }

  lemma RestAt(did: seq<Event>, n: nat, k: nat)
    requires n <= k < |did|
    ensures did[n..][k - n] == did[k]
  {}

  lemma BrokerAsksFirst(did: seq<Event>, dead: Option<nat>, stale: bool, o: Outcome, n: nat)
    requires BrokerDid(did, dead, stale, o, n)
    ensures did != [] && did[0].Ask?
  {}

  /** Without a pardon the strikes stay. */
  lemma {:induction false} StrikesStay(t: seq<Event>, did: seq<Event>)
    requires forall i :: 0 <= i < |did| ==> !did[i].Pardon?
    ensures Strikes(t + did) >= Strikes(t)
  {
    if did == [] {
      assert t + did == t;
    } else {
      var init := did[..|did| - 1];
      StrikesStay(t, init);
      assert t + did == t + init + [did[|did| - 1]];
      After(t + init, did[|did| - 1], 0, true);
    }
  }

  lemma OneTooMany(t: seq<Event>, stored: map<Key, Value>, place: Option<nat>, did: seq<Event>, interval: nat)
    requires Strikes(t) >= 2 && exists k :: 0 <= k < |did| && did[k].Ask? && forall i :: 0 <= i < k ==> !did[i].Pardon?
    ensures !Restrained(t + Opening(stored, None, Broker, place) + did, interval, true)
  {
    hide Strikes, Restrained;
    var k :| 0 <= k < |did| && did[k].Ask? && forall i :: 0 <= i < k ==> !did[i].Pardon?;
    var opening := Opening(stored, None, Broker, place);
    var all, before := t + opening + did, opening + did[..k];
    assert forall i :: 0 <= i < |before| ==> !before[i].Pardon?;
    StrikesStay(t, before);
    assert all[..|t| + |before|] == t + before && all[|t| + |before|] == did[k];
    if Restrained(all, interval, true) {
      RestrainedAt(all, interval, true, |t| + |before|);
    }
  }

  const FIRST_POLL: seq<Event> := [Probe(7, Dead), Placed(true), Ask(Session(8, false, true)), Delivered(8, false), Probe(8, Dead), Placed(true), Strike]
  const SECOND_POLL: seq<Event> := [Ask(Session(9, false, true)), Delivered(9, false), Probe(9, Dead), Placed(true), Strike]

  /** A strike that could not be stored. The portal refuses the session 7 and the one the broker delivers
      for it, 8: one strike. The next poll finds 8 recorded, asks and is delivered 9, which is refused
      too; that 9 is dead is stored, the second strike is not. The next process finds one strike and may
      call the broker again. */
  lemma LostStrike(interval: nat, wait: nat) returns (t: seq<Event>, memory: map<Key, Value>, stored: map<Key, Value>)
    ensures
      var before: map<Key, Value> := map[];
      var between := map[HoldKey := Hold(Some(8), None), UnansweredKey := Count(1, Some(8))];
      && EnsureDid(FIRST_POLL, before, None, Broker, Some(7), false, 0, Some(8), Skip(true), [0], interval, wait)
      && EnsureDid(SECOND_POLL, between, None, Broker, Some(8), false, 0, Some(9), Blocked, [0], interval, wait)
      && Unanswered(between) == Counted(Unanswered(before), FIRST_POLL) && Unanswered(memory) == Counted(Unanswered(between), SECOND_POLL)
      && stored == between[HoldKey := Hold(Some(9), None)] && memory == stored[UnansweredKey := Count(2, Some(9))]
      && t == Opening(before, None, Broker, Some(7)) + FIRST_POLL + Opening(between, None, Broker, Some(8)) + SECOND_POLL
      && Restrained(t, interval, true)
      && MayAsk([Ask(NoAnswer)], stored, Some(9), false, 0, Some(9), Skip(true), [0], interval, wait)
      && !Restrained(t + Opening(stored, None, Broker, Some(9)) + [Ask(NoAnswer)], interval, true)
  {
    hide Restrained, EnsureDid, MayAsk;
    var between := map[HoldKey := Hold(Some(8), None), UnansweredKey := Count(1, Some(8))];
    stored := between[HoldKey := Hold(Some(9), None)];
    memory := stored[UnansweredKey := Count(2, Some(9))];
    t := Opening(map[], None, Broker, Some(7)) + FIRST_POLL + Opening(between, None, Broker, Some(8)) + SECOND_POLL;
    FirstPoll(interval, wait);
    SecondPoll(interval, wait);
    ThirdPoll(stored, interval, wait);
    TwoStrikes(interval);
    assert [Ask(NoAnswer)][0].Ask?;
    OneTooMany(t, stored, Some(9), [Ask(NoAnswer)], interval);
  }

  lemma FirstPoll(interval: nat, wait: nat)
    ensures EnsureDid(FIRST_POLL, map[], None, Broker, Some(7), false, 0, Some(8), Skip(true), [0], interval, wait)
  {
    var did := FIRST_POLL;
    assert did[..2] == [Probe(7, Dead), Placed(true)];
    assert did[2..] == [Ask(Session(8, false, true)), Delivered(8, false), Probe(8, Dead), Placed(true), Strike];
    assert did[2..][2..] == [Probe(8, Dead), Placed(true), Strike];
  }

  lemma SecondPoll(interval: nat, wait: nat)
    ensures EnsureDid(SECOND_POLL, map[HoldKey := Hold(Some(8), None), UnansweredKey := Count(1, Some(8))], None, Broker, Some(8), false, 0, Some(9),
                      Blocked, [0], interval, wait)
  {
    assert SECOND_POLL[2..] == [Probe(9, Dead), Placed(true), Strike];
  }

  lemma ThirdPoll(stored: map<Key, Value>, interval: nat, wait: nat)
    requires HeldDead(stored, Some(9)) && stored[HoldKey].until == None && Unanswered(stored) < MAX_UNANSWERED
    ensures MayAsk([Ask(NoAnswer)], stored, Some(9), false, 0, Some(9), Skip(true), [0], interval, wait)
  {
    assert [Ask(NoAnswer)][0].Ask?;
  }

  /** What the trace so far comes to. */
  ghost predicate Stands(t: seq<Event>, interval: nat, strikes: nat, asked: bool, gagged: bool) {
    Restrained(t, interval, true) && Strikes(t) == strikes && AskedSince(t) == asked && Gagged(t) == gagged
  }

  lemma Stand(t: seq<Event>, e: Event, interval: nat, strikes: nat, asked: bool, gagged: bool) returns (t': seq<Event>)
    requires Stands(t, interval, strikes, asked, gagged) && !e.Request?
    requires e.Ask? ==> !asked && strikes < 2
    requires e.Probe? ==> !gagged
    ensures t' == t + [e]
    ensures Stands(t', interval, match e case Strike => strikes + 1 case Pardon => 0 case _ => strikes, !e.PollStart? && (e.Ask? || asked),
                   match e case PollStart => false case Delivered(_, _) => false case Placed(r) => r case _ => gagged)
  {
    hide Restrained, Strikes, AskedSince, Gagged;
    After(t, e, interval, true);
    t' := t + [e];
  }

  lemma OneStrikeStands(interval: nat)
    ensures Stands([PollStart, Placed(false)] + FIRST_POLL, interval, 1, true, true)
  {
    hide Stands;
    NothingStands(interval);
    var t := Stand([], PollStart, interval, 0, false, false);
    t := Stand(t, Placed(false), interval, 0, false, false);
    assert t == [PollStart, Placed(false)];
    var d := Stand(t, Probe(7, Dead), interval, 0, false, false);
    d := Stand(d, Placed(true), interval, 0, false, false);
    d := Stand(d, Ask(Session(8, false, true)), interval, 0, false, true);
    d := Stand(d, Delivered(8, false), interval, 0, true, true);
    d := Stand(d, Probe(8, Dead), interval, 0, true, false);
    d := Stand(d, Placed(true), interval, 0, true, false);
    d := Stand(d, Strike, interval, 0, true, true);
    assert d == t + FIRST_POLL;
  }

  lemma TwoStrikes(interval: nat)
    ensures
      var between := map[HoldKey := Hold(Some(8), None), UnansweredKey := Count(1, Some(8))];
      var t := Opening(map[], None, Broker, Some(7)) + FIRST_POLL + Opening(between, None, Broker, Some(8)) + SECOND_POLL;
      Restrained(t, interval, true) && Strikes(t) == 2
  {
    hide Restrained, Strikes, AskedSince, Gagged;
    var between := map[HoldKey := Hold(Some(8), None), UnansweredKey := Count(1, Some(8))];
    assert Opening(map[], None, Broker, Some(7)) == [PollStart, Placed(false)] && Opening(between, None, Broker, Some(8)) == [PollStart, Placed(true)];
    OneStrikeStands(interval);
    var t := [PollStart, Placed(false)] + FIRST_POLL;
    SecondStrike(t, interval);
  }

  lemma SecondStrike(t: seq<Event>, interval: nat)
    requires Stands(t, interval, 1, true, true)
    ensures Stands(t + [PollStart, Placed(true)] + SECOND_POLL, interval, 2, true, true)
  {
    hide Stands;
    var d := Stand(t, PollStart, interval, 1, true, true);
    d := Stand(d, Placed(true), interval, 1, false, false);
    assert d == t + [PollStart, Placed(true)];
    var u := Stand(d, Ask(Session(9, false, true)), interval, 1, false, true);
    u := Stand(u, Delivered(9, false), interval, 1, true, true);
    u := Stand(u, Probe(9, Dead), interval, 1, true, false);
    u := Stand(u, Placed(true), interval, 1, true, false);
    u := Stand(u, Strike, interval, 1, true, true);
    assert u == d + SECOND_POLL;
  }

  lemma NothingStands(interval: nat)
    ensures Stands([], interval, 0, false, false)
  {}
}
