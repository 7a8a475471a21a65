/** What the session gate may do towards the portal, the login broker and the request mailbox, told
    of the whole sequence of what it did. */
module GateTrace {
  import opened Numbers
  import opened Options

  datatype Verdict = Live | Dead | Unknown

  /** What the login broker may answer: not at all, not before a time, not until a person clears its
      latch, that it has no session, or a session: `expired` when its document says so, `builds` when a
      client can be made of it. */
  datatype Refresh = NoAnswer | Deferred(until: Option<int>) | Latched | NoSession | Session(fp: nat, expired: bool, builds: bool)

  /** `Placed` is the session in place once a poll has read the session file, and whether the record
      holds it dead; `Ask` a call of the broker, with its answer, and `Delivered` the session in it;
      `Weighed` what keeps the mailbox from being asked: a session file written moments ago, and the
      blackout;
      `Strike` a delivered session that was refused, or a request that led to none; `Pardon` whatever
      allows asking again: a live verdict, the operator's reset or, for the mailbox, a changed session
      file. */
  datatype Event =
    | PollStart
    | Placed(recorded: bool)
    | Probe(fp: nat, verdict: Verdict)
    | Ask(answer: Refresh)
    | Delivered(fp: nat, stale: bool)
    | Weighed(recent: bool, blackout: bool)
    | Request(at: int)
    | Strike
    | Pardon

  /** Strikes since the last pardon. */
  function Strikes(t: seq<Event>): nat {
    if t == [] then 0
    else
      match t[|t| - 1]
      case Strike => Strikes(t[..|t| - 1]) + 1
      case Pardon => 0
      case _ => Strikes(t[..|t| - 1])
  }

  /** The broker was asked since the poll began. */
  predicate AskedSince(t: seq<Event>) {
    t != [] && !t[|t| - 1].PollStart? && (t[|t| - 1].Ask? || AskedSince(t[..|t| - 1]))
  }

  /** The poll found the recorded dead session in place and the broker has delivered none since. */
  predicate Gagged(t: seq<Event>) {
    t != [] &&
    match t[|t| - 1]
    case PollStart => false
    case Delivered(_, _) => false
    case Placed(recorded) => recorded
    case _ => Gagged(t[..|t| - 1])
  }

  function LastRequest(t: seq<Event>): Option<int> {
    if t == [] then None
    else if t[|t| - 1].Request? then Some(t[|t| - 1].at)
    else LastRequest(t[..|t| - 1])
  }

  /** What each event may follow. The strikes stop the asking only while every process has known of them
      all: `counted`. */
  predicate MayFollow(t: seq<Event>, e: Event, interval: nat, counted: bool) {
    match e
    case Ask(_) => !AskedSince(t) && (counted ==> Strikes(t) < 2)
    case Request(at) => (counted ==> Strikes(t) < 2) && (LastRequest(t).Some? ==> at - LastRequest(t).value > interval - SECOND)
    case Probe(_, _) => !Gagged(t)
    case _ => true
  }

  predicate Restrained(t: seq<Event>, interval: nat, counted: bool) {
    t == [] || (Restrained(t[..|t| - 1], interval, counted) && MayFollow(t[..|t| - 1], t[|t| - 1], interval, counted))
  }

  lemma After(t: seq<Event>, e: Event, interval: nat, counted: bool)
    ensures Strikes(t + [e]) == match e case Strike => Strikes(t) + 1 case Pardon => 0 case _ => Strikes(t)
    ensures AskedSince(t + [e]) == (!e.PollStart? && (e.Ask? || AskedSince(t)))
    ensures Gagged(t + [e]) == match e case PollStart => false case Delivered(_, _) => false case Placed(r) => r case _ => Gagged(t)
    ensures LastRequest(t + [e]) == if e.Request? then Some(e.at) else LastRequest(t)
    ensures Restrained(t + [e], interval, counted) == (Restrained(t, interval, counted) && MayFollow(t, e, interval, counted))
  {
    assert (t + [e])[..|t|] == t && (t + [e])[|t|] == e;
  }

  lemma {:induction false} RestrainedPrefix(t: seq<Event>, interval: nat, counted: bool, n: nat)
    requires Restrained(t, interval, counted) && n <= |t|
    ensures Restrained(t[..n], interval, counted)
  {
    if n == |t| {
      assert t[..n] == t;
    } else {
      RestrainedPrefix(t[..|t| - 1], interval, counted, n);
      assert t[..|t| - 1][..n] == t[..n];
    }
  }

  lemma RestrainedAt(t: seq<Event>, interval: nat, counted: bool, n: nat)
    requires Restrained(t, interval, counted) && n < |t|
    ensures MayFollow(t[..n], t[n], interval, counted)
  {
    RestrainedPrefix(t, interval, counted, n + 1);
    assert t[..n + 1][..n] == t[..n];
  }

  /** All but the counting is kept whatever could be stored. */
  lemma {:induction false} CountedIsMore(t: seq<Event>, interval: nat)
    requires Restrained(t, interval, true)
    ensures Restrained(t, interval, false)
  {
    if t != [] {
      CountedIsMore(t[..|t| - 1], interval);
    }
  }

  // ---- What this comes to ----

  lemma {:induction false} AskedBetween(t: seq<Event>, i: nat)
    requires i < |t| && t[i].Ask? && !AskedSince(t)
    ensures exists k :: i < k < |t| && t[k].PollStart?
  {
    var init := t[..|t| - 1];
    if !t[|t| - 1].PollStart? {
      AskedBetween(init, i);
      var k :| i < k < |init| && init[k].PollStart?;
      assert t[k].PollStart?;
    }
  }

  /** Between two questions to the broker a poll begins. */
  lemma BrokerOncePerPoll(t: seq<Event>, interval: nat, counted: bool, i: nat, j: nat)
    requires Restrained(t, interval, counted) && i < j < |t| && t[i].Ask? && t[j].Ask?
    ensures exists k :: i < k < j && t[k].PollStart?
  {
    RestrainedAt(t, interval, counted, j);
    AskedBetween(t[..j], i);
    var k :| i < k < j && t[..j][k].PollStart?;
    assert t[k].PollStart?;
  }

  lemma {:induction false} StrikesCount(t: seq<Event>, i: nat, j: nat)
    requires i < j < |t| && t[i].Strike? && t[j].Strike?
    requires forall k :: i < k < |t| ==> !t[k].Pardon?
    ensures Strikes(t) >= 2
  {
    var init := t[..|t| - 1];
    if j < |t| - 1 {
      StrikesCount(init, i, j);
    } else {
      OneStrike(init, i);
    }
  }

  lemma {:induction false} OneStrike(t: seq<Event>, i: nat)
    requires i < |t| && t[i].Strike? && forall k :: i < k < |t| ==> !t[k].Pardon?
    ensures Strikes(t) >= 1
  {
    if i < |t| - 1 {
      OneStrike(t[..|t| - 1], i);
    }
  }

  /** After two strikes nobody is asked, broker or mailbox, until a pardon. */
  lemma NobodyAskedAfterTwo(t: seq<Event>, interval: nat, i: nat, j: nat, n: nat)
    requires Restrained(t, interval, true) && i < j < n < |t| && t[i].Strike? && t[j].Strike? && (t[n].Ask? || t[n].Request?)
    ensures exists k :: i < k < n && t[k].Pardon?
  {
    RestrainedAt(t, interval, true, n);
    if forall k :: i < k < n ==> !t[k].Pardon? {
      StrikesCount(t[..n], i, j);
    }
  }

  lemma {:induction false} StillGagged(t: seq<Event>, i: nat)
    requires i < |t| && t[i] == Placed(true) && forall k :: i < k < |t| ==> !t[k].PollStart? && !t[k].Delivered? && !t[k].Placed?
    ensures Gagged(t)
  {
    if i < |t| - 1 {
      StillGagged(t[..|t| - 1], i);
    }
  }

  /** While the session in place is the recorded dead one and the broker delivers none, the portal is
      not probed. */
  lemma DeadIsNotProbed(t: seq<Event>, interval: nat, counted: bool, i: nat, j: nat)
    requires Restrained(t, interval, counted) && i < j < |t| && t[i] == Placed(true) && t[j].Probe?
    ensures exists k :: i < k < j && (t[k].PollStart? || t[k].Delivered? || t[k].Placed?)
  {
    RestrainedAt(t, interval, counted, j);
    if forall k :: i < k < j ==> !t[k].PollStart? && !t[k].Delivered? && !t[k].Placed? {
      StillGagged(t[..j], i);
    }
  }

  lemma {:induction false} SpacedFromLast(t: seq<Event>, interval: nat, counted: bool, i: nat)
    requires Restrained(t, interval, counted) && interval >= SECOND && i < |t| && t[i].Request?
    ensures LastRequest(t).Some? && t[i].at <= LastRequest(t).value
  {
    if i < |t| - 1 {
      SpacedFromLast(t[..|t| - 1], interval, counted, i);
    }
  }

  /** Any two requests to the mailbox are more than the minimum interval, less one second, apart. */
  lemma RequestsAreSpaced(t: seq<Event>, interval: nat, counted: bool, i: nat, j: nat)
    requires Restrained(t, interval, counted) && interval >= SECOND && i < j < |t| && t[i].Request? && t[j].Request?
    ensures t[j].at - t[i].at > interval - SECOND
  {
    RestrainedAt(t, interval, counted, j);
    RestrainedPrefix(t, interval, counted, j);
    assert t[..j][i].Request?;
    SpacedFromLast(t[..j], interval, counted, i);
  }
}
