/** The sender: drains the spool to the journal, one snapshot at a time, oldest first within a
    scope, and acts on every answer. */
module RecordSender {
  import opened Numbers
  import opened Options
  import opened FileSystem
  import opened SpoolEntries
  import opened Durability
  import opened SpoolState
  import opened RecordSpool
  import opened AnswerTable
  import opened SendBackoff

  // ---- The journal and the clock ----

  /** `Broken` is a transport error; without a token nothing is sent; `Cancelled` is the sender
      shutting down during the request. Times are in nanoseconds. */
  datatype Answer = Answered(code: int, status: string, reason: string, retryAfter: int) | Broken | NoToken | Cancelled

  class Journal {
    var log: seq<(Content, Answer)>

    method Send(body: Content) returns (a: Answer)
      modifies this
      ensures log == old(log) + [(body, a)]
    {
      a := *;
      log := log + [(body, a)];
    }
  }

  /** A clock that does not go back. */
  class Clock {
    var time: int

    method Now() returns (now: int)
      modifies this
      ensures time == now >= old(time)
    {
      var passed: int := *;
      if passed > 0 {
        time := time + passed;
      }
      now := time;
    }
  }

  // ---- What an answer means ----

  function ActionOf(a: Answer): Action {
    match a
    case Answered(code, status, reason, _) => Classify(code, status, reason)
    case Broken => Classify(0, "", "")
    case NoToken => RetryAlert
    case Cancelled => RetryAlert
  }

  function RetryAfterOf(a: Answer): int {
    if a.Answered? then a.retryAfter else 0
  }

  /** Accepted or refused for good: the scope's next file may follow. */
  predicate Settles(a: Answer) {
    !a.Cancelled? && (ActionOf(a).Delete? || ActionOf(a).Reject?)
  }

  predicate Erases(a: Answer) {
    !a.Cancelled? && ActionOf(a).Erased?
  }

  predicate Blocks(a: Answer) {
    !a.Cancelled? && ActionOf(a).RetryScope?
  }

  predicate StopsAll(a: Answer) {
    !a.Cancelled? && (ActionOf(a).Retry? || ActionOf(a).RetryAlert?)
  }

  predicate AcceptedBy(a: Answer) {
    a.Answered? && Accepting(a.code, a.status)
  }

  predicate RefusedBy(a: Answer) {
    a.Answered? && Refusing(a.code, a.reason)
  }

  predicate ErasedBy(a: Answer) {
    a.Answered? && Erasing(a.code, a.reason)
  }

  /** What the sender makes of an answer, told from the answer itself. */
  lemma AnswerMeans(a: Answer)
    ensures !a.Cancelled? && ActionOf(a).Delete? <==> AcceptedBy(a)
    ensures !a.Cancelled? && ActionOf(a).Reject? <==> RefusedBy(a)
    ensures Settles(a) <==> AcceptedBy(a) || RefusedBy(a)
    ensures Erases(a) <==> ErasedBy(a)
    ensures Blocks(a) <==> a.Answered? && Blocking(a.code, a.reason)
    ensures StopsAll(a) <==> !a.Cancelled? && !AcceptedBy(a) && !RefusedBy(a) && !ErasedBy(a) && !Blocks(a)
    ensures TurnOf(a) == if a.Cancelled? then Cancel else if AcceptedBy(a) || RefusedBy(a) then Next
                         else if ErasedBy(a) || (a.Answered? && Blocking(a.code, a.reason)) then LeaveScope else Stop
    ensures RetryAfterOf(a) == match a case Answered(_, _, _, seconds) => seconds case _ => 0
    ensures !(AcceptedBy(a) && RefusedBy(a)) && !(AcceptedBy(a) && ErasedBy(a)) && !(RefusedBy(a) && ErasedBy(a))
  {
    hide Classify;
    ClassifyMeans(0, "", "");
    if a.Answered? {
      ClassifyMeans(a.code, a.status, a.reason);
    }
  }

  // ---- The history of sends ----

  /** One send: the file, the answer, the start of its pass and, when the answer asks to wait, until
      when. */
  datatype Sent = Sent(name: Name, key: ScopeKey, subject: string, body: Content, answer: Answer, start: int, until: int)

  ghost predicate Logged(history: seq<Sent>, log: seq<(Content, Answer)>) {
    |history| == |log| && forall i :: 0 <= i < |log| ==> log[i] == (history[i].body, history[i].answer)
  }

  datatype ScopeBackoff = ScopeBackoff(until: int, step: nat)

  /** After an answer that stops everything nothing is sent before its backoff ends, unless that wait
      was cut, and after one that blocks a scope nothing of that scope; what is still to be waited for
      is remembered. */
  ghost predicate Patient(history: seq<Sent>, lastStart: int, globalUntil: int, scopes: map<ScopeKey, ScopeBackoff>, cut: bool) {
    && ScopesWaited(history) && (!cut ==> Waited(history))
    && (!cut ==> forall i :: 0 <= i < |history| && StopsAll(history[i].answer) ==> history[i].until <= globalUntil)
    && (forall i :: 0 <= i < |history| && Blocks(history[i].answer) ==>
          || history[i].until <= lastStart
          || (history[i].key in scopes && history[i].until <= scopes[history[i].key].until))
  }

  ghost predicate Waited(history: seq<Sent>) {
    forall i, j :: 0 <= i < j < |history| && StopsAll(history[i].answer) ==> history[i].until <= history[j].start
  }

  ghost predicate ScopesWaited(history: seq<Sent>) {
    forall i, j :: 0 <= i < j < |history| && Blocks(history[i].answer) && history[j].key == history[i].key ==> history[i].until <= history[j].start
  }

  lemma PatientSend(history: seq<Sent>, x: Sent, globalUntil: int, scopes: map<ScopeKey, ScopeBackoff>, globalUntil': int, scopes': map<ScopeKey, ScopeBackoff>,
                    cut: bool)
    requires Patient(history, x.start, globalUntil, scopes, cut)
    requires globalUntil <= x.start && (x.key in scopes ==> scopes[x.key].until <= x.start)
    requires if StopsAll(x.answer) then globalUntil' == x.until >= x.start else globalUntil' == globalUntil
    requires Blocks(x.answer) ==> x.key in scopes' && scopes'[x.key].until == x.until
    requires forall k :: k in scopes && k != x.key ==> k in scopes' && scopes'[k] == scopes[k]
    ensures Patient(history + [x], x.start, globalUntil', scopes', cut)
  {
    var h := history + [x];
    forall i | 0 <= i < |h| && Blocks(h[i].answer)
      ensures h[i].until <= x.start || (h[i].key in scopes' && h[i].until <= scopes'[h[i].key].until)
    {
      if i < |history| && h[i].key == x.key {
        assert h[i].until <= x.start;
      }
    }
  }

  /** FailPass does not look at the wait that is under way. The journal asks for an hour; a pass that
      fails after that sets the end of the wait to a minute from then, and the next pass sends while the
      hour is far from over. Settings are the defaults. */
  lemma FailPassCutsAWait()
    ensures
      var key := ScopeKey("t", [Part("source", "x")]);
      var body := Whole(Snap(Uuid(1), 5, "t", [Part("source", "x")], 0, 1));
      var hour, failed, end := 3600 * SECOND, SECOND, 61 * SECOND;
      var asked := Sent(Canonical(5, 1), key, "", body, Answered(503, "", "unavailable", hour), 0, hour);
      var next := Sent(Canonical(5, 1), key, "", body, Answered(200, "applied", "", 0), end, 0);
      && Patient([asked], 0, hour, map[], false) && IsDelay(30, 900, 1, hour, hour)
      && failed < hour && IsDelay(30, 900, 2, 0, end - failed) && end < hour
      && !Waited([asked] + [next])
  {
    hide IsDelay;
    var key, body := ScopeKey("t", [Part("source", "x")]), Whole(Snap(Uuid(1), 5, "t", [Part("source", "x")], 0, 1));
    var asked := Sent(Canonical(5, 1), key, "", body, Answered(503, "", "unavailable", 3600 * SECOND), 0, 3600 * SECOND);
    var next := Sent(Canonical(5, 1), key, "", body, Answered(200, "applied", "", 0), 61 * SECOND, 0);
    assert ([asked] + [next])[0] == asked && ([asked] + [next])[1] == next && StopsAll(asked.answer);
    assert Pow2(0) == 1 && Pow2(1) == 2;
    assert Computed(30, 900, 1) == 30 * SECOND && Computed(30, 900, 2) == 60 * SECOND;
    assert IsDelay(30, 900, 1, 3600 * SECOND, 3600 * SECOND) by {
      assert 3600 * SECOND == Max(3600 * SECOND, Jittered(30 * SECOND, 0.0));
      DelayBy(30, 900, 1, 3600 * SECOND, 3600 * SECOND, 0.0);
    }
    assert IsDelay(30, 900, 2, 0, 60 * SECOND) by {
      assert 60 * SECOND == Max(0, Jittered(60 * SECOND, 0.0));
      DelayBy(30, 900, 2, 0, 60 * SECOND, 0.0);
    }
  }

  lemma OneKind(a: Answer)
    ensures Settles(a) ==> !Blocks(a) && !StopsAll(a)
    ensures Blocks(a) ==> !StopsAll(a)
  {}

  lemma PatientStart(history: seq<Sent>, lastStart: int, start: int, globalUntil: int, scopes: map<ScopeKey, ScopeBackoff>, cut: bool)
    requires Patient(history, lastStart, globalUntil, scopes, cut) && lastStart <= start
    ensures Patient(history, start, globalUntil, scopes, cut)
  {}

  lemma PatientLater(history: seq<Sent>, lastStart: int, globalUntil: int, scopes: map<ScopeKey, ScopeBackoff>, later: int, cut: bool)
    requires Patient(history, lastStart, globalUntil, scopes, cut)
    ensures Patient(history, lastStart, later, scopes, cut || later < globalUntil)
  {}

  lemma LoggedSend(history: seq<Sent>, log: seq<(Content, Answer)>, x: Sent)
    requires Logged(history, log)
    ensures Logged(history + [x], log + [(x.body, x.answer)])
  {}

  // ---- Why files leave ----

  datatype Cause = AcceptedAt(i: nat) | RefusedForGood(i: nat) | SubjectErased(i: nat) | NoSnapshot

  /** Only files of `why` have left spool/, and no other was changed. */
  ghost predicate Leaves(a: Fs, b: Fs, why: map<Name, Cause>)
    requires a.WellFormed() && b.WellFormed()
  {
    && b.files == a.files
    && (forall n :: n in b.pending.live ==> n in a.pending.live && b.pending.live[n] == a.pending.live[n])
    && (forall n :: n in a.pending.live && n !in b.pending.live ==> n in why)
  }

  /** Each cause is there: the answer that was given to the file's exact content, or that named
      its subject as erased, or content that is not a snapshot's. */
  ghost predicate Justified(a: Fs, why: map<Name, Cause>, history: seq<Sent>)
    requires a.WellFormed()
  {
    forall n :: n in why ==> n in a.pending.live && CauseHolds(n, a.Data(Pending, n), why[n], history)
  }

  ghost predicate CauseHolds(n: Name, c: Content, cause: Cause, history: seq<Sent>) {
    match cause
    case AcceptedAt(i) =>
      i < |history| && history[i].name == n && history[i].body == c && AcceptedBy(history[i].answer)
    case RefusedForGood(i) =>
      i < |history| && history[i].name == n && history[i].body == c && RefusedBy(history[i].answer)
    case SubjectErased(i) =>
      i < |history| && ErasedBy(history[i].answer)
      && (history[i].name == n || (IsSnapshotFile(n, c) && NamesSubject(c.snap.scope, history[i].subject) && history[i].subject != ""))
    case NoSnapshot => !IsSnapshotFile(n, c)
  }

  /** Every listed file that was not dealt with is still there, unless its subject was erased. */
  ghost predicate StillHere(a: Fs, b: Fs, all: seq<Entry>, done: set<Name>, erased: set<string>)
    requires a.WellFormed() && b.WellFormed()
  {
    forall e :: e in all && e.name !in done ==> e.name in b.pending.live || (e.subject != "" && e.subject in erased)
  }

  /** How far a pass has come since it listed spool/ as `a`. */
  ghost predicate Progress(a: Fs, b: Fs, all: seq<Entry>, done: set<Name>, erased: set<string>, why: map<Name, Cause>, history: seq<Sent>)
    requires a.WellFormed() && b.WellFormed()
  {
    Leaves(a, b, why) && Justified(a, why, history) && StillHere(a, b, all, done, erased)
  }

  lemma PassBegins(a: Fs, all: seq<Entry>, history: seq<Sent>)
    requires a.WellFormed() && PendingEntries(a, all)
    ensures Progress(a, a, all, {}, {}, map[], history)
  {}

  lemma ProgressSend(a: Fs, b: Fs, all: seq<Entry>, done: set<Name>, erased: set<string>, why: map<Name, Cause>, history: seq<Sent>, x: Sent)
    requires a.WellFormed() && b.WellFormed() && Progress(a, b, all, done, erased, why, history)
    ensures Progress(a, b, all, done, erased, why, history + [x])
  {}

  /** A file that was answered leaves spool/, or stays when its removal fails. */
  lemma LeavesOne(a: Fs, b: Fs, c: Fs, all: seq<Entry>, done: set<Name>, erased: set<string>, why: map<Name, Cause>,
                  history: seq<Sent>, n: Name, cause: Cause)
    requires a.WellFormed() && b.WellFormed() && c.WellFormed()
    requires Progress(a, b, all, done, erased, why, history)
    requires c.files == b.files && (c.pending.live == b.pending.live || c.pending.live == b.pending.live - {n})
    requires n in a.pending.live && CauseHolds(n, a.Data(Pending, n), cause, history)
    ensures Progress(a, c, all, done + {n}, erased, why[n := cause], history)
  {
    hide CauseHolds;
  }

  lemma RemoveEffect(b: Fs, c: Fs, n: Name)
    requires RemoveState(b, c, Pending, n)
    ensures c.files == b.files && (c.pending.live == b.pending.live || c.pending.live == b.pending.live - {n})
  {}

  /** The causes of what a purge takes. */
  ghost function PurgeCauses(b: Fs, c: Fs, i: nat): map<Name, Cause>
    requires b.WellFormed()
  {
    map n | n in b.pending.live && n !in c.pending.live :: if IsSnapshotFile(n, b.Data(Pending, n)) then SubjectErased(i) else NoSnapshot
  }

  /** What a purge takes besides quarantining is about its subject. */
  lemma PurgeTakes(b: Fs, c: Fs, subject: string, p: Purge, n: Name)
    requires b.WellFormed() && c.WellFormed() && Purges(b, c, subject, p)
    requires n in b.pending.live && n !in c.pending.live && IsSnapshotFile(n, b.Data(Pending, n))
    ensures SubjectOf(b.Data(Pending, n).snap.scope) == subject
  {}

  ghost predicate TakesAbout(b: Fs, c: Fs, subject: string)
    requires b.WellFormed()
  {
    && c.files == b.files
    && (forall n :: n in c.pending.live ==> n in b.pending.live && c.pending.live[n] == b.pending.live[n])
    && (forall n :: n in b.pending.live && n !in c.pending.live && IsSnapshotFile(n, b.Data(Pending, n)) ==>
          SubjectOf(b.Data(Pending, n).snap.scope) == subject)
  }

  lemma PurgeTakesAbout(b: Fs, c: Fs, subject: string, p: Purge)
    requires b.WellFormed() && c.WellFormed() && Purges(b, c, subject, p)
    ensures TakesAbout(b, c, subject)
  {
    forall n | n in b.pending.live && n !in c.pending.live && IsSnapshotFile(n, b.Data(Pending, n))
      ensures SubjectOf(b.Data(Pending, n).snap.scope) == subject
    {
      PurgeTakes(b, c, subject, p, n);
    }
  }

  lemma LeavesPurge(a: Fs, b: Fs, c: Fs, all: seq<Entry>, done: set<Name>, erased: set<string>, why: map<Name, Cause>,
                    history: seq<Sent>, subject: string, i: nat)
    requires a.WellFormed() && b.WellFormed() && c.WellFormed() && PendingEntries(a, all)
    requires Progress(a, b, all, done, erased, why, history)
    requires TakesAbout(b, c, subject) && subject != ""
    requires i < |history| && ErasedBy(history[i].answer) && history[i].subject == subject
    ensures Progress(a, c, all, done, erased + {subject}, why + PurgeCauses(b, c, i), history)
  {
    PurgeIsJustified(a, b, c, why, history, subject, i);
    PurgeLeavesRest(a, b, c, all, done, erased, why, subject);
  }

  lemma SnapshotNames(n: Name, c: Content, subject: string)
    requires IsSnapshotFile(n, c) && subject != ""
    ensures SubjectOf(c.snap.scope) == subject <==> NamesSubject(c.snap.scope, subject)
  {
    SubjectMeans(c.snap.scope, subject);
  }

  lemma PurgeIsJustified(a: Fs, b: Fs, c: Fs, why: map<Name, Cause>, history: seq<Sent>, subject: string, i: nat)
    requires a.WellFormed() && b.WellFormed() && c.WellFormed() && Leaves(a, b, why) && Justified(a, why, history)
    requires TakesAbout(b, c, subject) && subject != ""
    requires i < |history| && ErasedBy(history[i].answer) && history[i].subject == subject
    ensures Leaves(a, c, why + PurgeCauses(b, c, i)) && Justified(a, why + PurgeCauses(b, c, i), history)
  {
    hide IsSnapshotFile, ErasedBy, NamesSubject;
    var more := PurgeCauses(b, c, i);
    forall n | n in more ensures n in a.pending.live && CauseHolds(n, a.Data(Pending, n), more[n], history) {
      if more[n].SubjectErased? {
        SnapshotNames(n, a.Data(Pending, n), subject);
      }
    }
  }

  lemma PurgeLeavesRest(a: Fs, b: Fs, c: Fs, all: seq<Entry>, done: set<Name>, erased: set<string>, why: map<Name, Cause>, subject: string)
    requires a.WellFormed() && b.WellFormed() && c.WellFormed() && PendingEntries(a, all)
    requires Leaves(a, b, why) && StillHere(a, b, all, done, erased) && TakesAbout(b, c, subject) && subject != ""
    ensures StillHere(a, c, all, done, erased + {subject})
  {}

  lemma ListedSubject(a: Fs, all: seq<Entry>, e: Entry)
    requires a.WellFormed() && PendingEntries(a, all) && e in all
    ensures e.name in a.pending.live && IsSnapshotFile(e.name, a.Data(Pending, e.name))
    ensures e.name.Canonical? && !e.rejected && e.subject == SubjectOf(a.Data(Pending, e.name).snap.scope)
    ensures e.key == ScopeKey(a.Data(Pending, e.name).snap.recordType, a.Data(Pending, e.name).snap.scope)
  {}

  lemma LeavesListing(a: Fs, b: Fs, c: Fs, why: map<Name, Cause>, history: seq<Sent>)
    requires a.WellFormed() && b.WellFormed() && c.WellFormed()
    requires Leaves(a, b, why) && Justified(a, why, history) && Quarantines(b, c)
    ensures Leaves(a, c, why + PurgeCauses(b, c, 0)) && Justified(a, why + PurgeCauses(b, c, 0), history)
  {}

  // ---- Where answered files are ----

  /** The subject of send `i` was erased by a later answer. */
  ghost predicate ErasedSince(h: seq<Sent>, i: nat)
    requires i < |h|
  {
    h[i].subject != "" && exists j :: i < j < |h| && ErasedBy(h[j].answer) && h[j].subject == h[i].subject
  }

  /** Where the file of send `i` is. An accepted one is not in rejected/; a refused one is there, the very
      file that was listed, if it left spool/ and its subject was not erased since; and both have left
      spool/ when no operation failed. */
  ghost predicate WhereOne(a: Fs, b: Fs, h: seq<Sent>, i: nat, faults: bool)
    requires a.WellFormed() && i < |h|
  {
    var n := h[i].name;
    && n in a.pending.live && IsSnapshotFile(n, a.Data(Pending, n)) && h[i].subject == SubjectOf(a.Data(Pending, n).snap.scope)
    && (AcceptedBy(h[i].answer) || RefusedBy(h[i].answer) ==> faults || n !in b.pending.live)
    && (AcceptedBy(h[i].answer) ==> n !in b.rejected.live)
    && (RefusedBy(h[i].answer) ==>
          n in b.pending.live || (n in b.rejected.live && b.rejected.live[n] == a.pending.live[n]) || ErasedSince(h, i))
  }

  /** Where the files are that were sent from `from` on, all of them of `done`. */
  ghost predicate Where(a: Fs, b: Fs, h: seq<Sent>, from: nat, done: set<Name>, faults: bool)
    requires a.WellFormed()
  {
    && from <= |h| && b.files == a.files && (forall n :: n in b.pending.live ==> n in a.pending.live && b.pending.live[n] == a.pending.live[n])
    && forall i :: from <= i < |h| ==> h[i].name in done && WhereOne(a, b, h, i, faults)
  }

  lemma WhereBegins(a: Fs, h: seq<Sent>, faults: bool)
    requires a.WellFormed()
    ensures Where(a, a, h, |h|, {}, faults)
  {}

  ghost function SentNames(sends: seq<Sent>): set<Name> {
    set x | x in sends :: x.name
  }

  lemma NothingWhere(a: Fs, faults: bool)
    requires a.WellFormed()
    ensures Where(a, a, [], 0, SentNames([]), faults)
  {}

  /** The same, told of the sends of a pass alone. */
  lemma WhereInPass(a: Fs, b: Fs, earlier: seq<Sent>, pass: seq<Sent>, done: set<Name>, faults: bool)
    requires a.WellFormed() && Where(a, b, earlier + pass, |earlier|, done, faults)
    ensures Where(a, b, pass, 0, SentNames(pass), faults)
  {
    hide AcceptedBy, RefusedBy, ErasedBy, SubjectOf, IsSnapshotFile;
    var h, k := earlier + pass, |earlier|;
    forall i | 0 <= i < |pass| ensures pass[i].name in SentNames(pass) && WhereOne(a, b, pass, i, faults) {
      assert h[k + i] == pass[i] && WhereOne(a, b, h, k + i, faults);
      if ErasedSince(h, k + i) {
        var j :| k + i < j < |h| && ErasedBy(h[j].answer) && h[j].subject == h[k + i].subject;
        assert h[j] == pass[j - k];
      }
    }
  }

  /** After a pass without a fault: a file the journal has accepted is in neither directory, and one it has
      refused for good is in rejected/, byte for byte what was sent, or its subject was erased later in
      the pass. */
  lemma AnsweredAre(p: Pass, fs: Fs, history: seq<Sent>, i: nat)
    requires PassDone(p, fs, history) && Where(p.listed, fs, p.sends, 0, SentNames(p.sends), false) && i < |p.sends|
    ensures AcceptedBy(p.sends[i].answer) ==> p.sends[i].name !in fs.pending.live && p.sends[i].name !in fs.rejected.live
    ensures RefusedBy(p.sends[i].answer) ==>
              && p.sends[i].name !in fs.pending.live
              && ((p.sends[i].name in fs.rejected.live && fs.Data(Rejected, p.sends[i].name) == p.sends[i].body) || ErasedSince(p.sends, i))
  {
    hide AcceptedBy, RefusedBy, ErasedSince, IsSnapshotFile, InOrder, ForScope, OfScope, StopsAll, Sorted, DistinctNames, Justified;
    assert WhereOne(p.listed, fs, p.sends, i, false);
  }

  lemma WhereMore(a: Fs, b: Fs, h: seq<Sent>, from: nat, done: set<Name>, done': set<Name>, faults: bool, faults': bool)
    requires a.WellFormed() && Where(a, b, h, from, done, faults) && done <= done' && (faults ==> faults')
    ensures Where(a, b, h, from, done', faults')
  {}

  lemma ErasedStill(h: seq<Sent>, x: Sent, i: nat)
    requires i < |h| && ErasedSince(h, i)
    ensures ErasedSince(h + [x], i)
  {
    var j :| i < j < |h| && ErasedBy(h[j].answer) && h[j].subject == h[i].subject;
    assert (h + [x])[j] == h[j];
  }

  /** A send of a file that is still in spool/, with what came of it: deleted when accepted, moved when
      refused, left alone otherwise. */
  lemma WhereSettled(a: Fs, b: Fs, c: Fs, h: seq<Sent>, x: Sent, from: nat, done: set<Name>, faults: bool, faults': bool)
    requires a.WellFormed() && Where(a, b, h, from, done, faults) && Apart(b)
    requires x.name !in done && x.name in b.pending.live && IsSnapshotFile(x.name, a.Data(Pending, x.name))
    requires x.subject == SubjectOf(a.Data(Pending, x.name).snap.scope) && !(AcceptedBy(x.answer) && RefusedBy(x.answer))
    requires if AcceptedBy(x.answer) then RemoveState(b, c, Pending, x.name) else if RefusedBy(x.answer) then MoveState(b, c, x.name) else c == b
    requires (faults ==> faults') && (AcceptedBy(x.answer) || RefusedBy(x.answer) ==> faults' || x.name !in c.pending.live)
    ensures Where(a, c, h + [x], from, done + {x.name}, faults')
  {
    hide AcceptedBy, RefusedBy, ErasedBy, SubjectOf, ErasedSince;
    var g := h + [x];
    forall i | from <= i < |g| ensures WhereOne(a, c, g, i, faults') {
      if i < |h| {
        assert WhereOne(a, b, h, i, faults) && g[i] == h[i] && h[i].name != x.name;
        if ErasedSince(h, i) {
          ErasedStill(h, x, i);
        }
      }
    }
  }

  /** A file whose erase names no subject is deleted on its own. */
  lemma WhereDeleted(a: Fs, b: Fs, c: Fs, h: seq<Sent>, x: Sent, from: nat, done: set<Name>, faults: bool, faults': bool)
    requires a.WellFormed() && Where(a, b, h, from, done, faults) && !AcceptedBy(x.answer) && !RefusedBy(x.answer)
    requires x.name !in done && x.name in b.pending.live && IsSnapshotFile(x.name, a.Data(Pending, x.name))
    requires x.subject == SubjectOf(a.Data(Pending, x.name).snap.scope) && RemoveState(b, c, Pending, x.name) && (faults ==> faults')
    ensures Where(a, c, h + [x], from, done + {x.name}, faults')
  {
    hide AcceptedBy, RefusedBy, ErasedBy, SubjectOf, ErasedSince;
    var g := h + [x];
    forall i | from <= i < |g| ensures WhereOne(a, c, g, i, faults') {
      if i < |h| {
        assert WhereOne(a, b, h, i, faults) && g[i] == h[i] && h[i].name != x.name;
        if ErasedSince(h, i) {
          ErasedStill(h, x, i);
        }
      }
    }
  }

  /** Files about a subject the journal has erased are gone from both directories. */
  lemma WherePurged(a: Fs, b: Fs, c: Fs, h: seq<Sent>, x: Sent, from: nat, done: set<Name>, faults: bool, faults': bool)
    requires a.WellFormed() && b.WellFormed() && Where(a, b, h, from, done, faults)
    requires TakesOnly(b, c, x.subject) && ErasedBy(x.answer) && x.subject != "" && !AcceptedBy(x.answer) && !RefusedBy(x.answer)
    requires x.name in a.pending.live && IsSnapshotFile(x.name, a.Data(Pending, x.name)) && x.subject == SubjectOf(a.Data(Pending, x.name).snap.scope)
    requires faults ==> faults'
    ensures Where(a, c, h + [x], from, done + {x.name}, faults')
  {
    hide AcceptedBy, RefusedBy, ErasedBy, SubjectOf, ErasedSince, IsSnapshotFile;
    var g := h + [x];
    forall i | from <= i < |g| ensures WhereOne(a, c, g, i, faults') {
      if i < |h| {
        assert WhereOne(a, b, h, i, faults) && g[i] == h[i];
        if ErasedSince(h, i) {
          ErasedStill(h, x, i);
        } else if h[i].subject == x.subject {
          ErasedNow(h, x, i);
        }
      }
    }
  }

  lemma ErasedNow(h: seq<Sent>, x: Sent, i: nat)
    requires i < |h| && h[i].subject == x.subject != "" && ErasedBy(x.answer)
    ensures ErasedSince(h + [x], i)
  {
    assert (h + [x])[|h|] == x;
  }

  /** Only snapshots about the subject are taken from either directory, and only files that are no
      snapshots are moved. */
  ghost predicate TakesOnly(b: Fs, c: Fs, subject: string)
    requires b.WellFormed()
  {
    && TakesAbout(b, c, subject)
    && (forall n :: n in b.rejected.live && IsSnapshotFile(n, b.Data(Rejected, n)) && SubjectOf(b.Data(Rejected, n).snap.scope) != subject ==>
          n in c.rejected.live && c.rejected.live[n] == b.rejected.live[n])
    && (forall n :: n in c.rejected.live && n !in b.rejected.live ==>
          n in b.pending.live && n !in c.pending.live && !IsSnapshotFile(n, b.Data(Pending, n)))
    && (forall n :: n in b.pending.live && IsSnapshotFile(n, b.Data(Pending, n)) && SubjectOf(b.Data(Pending, n).snap.scope) != subject ==>
          n in c.pending.live)
  }

  lemma PurgeTakesOnly(b: Fs, c: Fs, subject: string, p: Purge)
    requires b.WellFormed() && c.WellFormed() && Purges(b, c, subject, p) && subject != ""
    ensures TakesOnly(b, c, subject)
  {
    hide SubjectOf;
    PurgeTakesAbout(b, c, subject, p);
  }

  lemma WhereQuarantined(a: Fs, b: Fs, c: Fs, h: seq<Sent>, from: nat, done: set<Name>, faults: bool, faults': bool)
    requires a.WellFormed() && b.WellFormed() && Where(a, b, h, from, done, faults) && Quarantines(b, c) && (faults ==> faults')
    ensures Where(a, c, h, from, done, faults')
  {
    hide AcceptedBy, RefusedBy, ErasedBy, SubjectOf, ErasedSince, IsSnapshotFile;
    forall i | from <= i < |h| ensures WhereOne(a, c, h, i, faults') {
      assert WhereOne(a, b, h, i, faults);
    }
  }

  // ---- Scopes ----

  /** The entries of one scope, in order. */
  function OfScope(es: seq<Entry>, key: ScopeKey): seq<Entry> {
    if es == [] then []
    else
      var init := OfScope(es[..|es| - 1], key);
      if es[|es| - 1].key == key then init + [es[|es| - 1]] else init
  }

  lemma {:induction false} OfScopeHas(es: seq<Entry>, key: ScopeKey, e: Entry)
    ensures e in OfScope(es, key) <==> e in es && e.key == key
  {
    if es != [] {
      OfScopeHas(es[..|es| - 1], key, e);
      assert e in es <==> e == es[|es| - 1] || e in es[..|es| - 1];
    }
  }

  /** A scope's files keep the order of the listing. */
  lemma {:induction false} OfScopeKeepsOrder(es: seq<Entry>, key: ScopeKey)
    requires Sorted(es) && DistinctNames(es)
    ensures Sorted(OfScope(es, key)) && DistinctNames(OfScope(es, key))
  {
    if es != [] {
      var init, last := es[..|es| - 1], es[|es| - 1];
      OfScopeKeepsOrder(init, key);
      forall e | e in OfScope(init, key) ensures Before(e, last) && e.name != last.name {
        OfScopeHas(init, key, e);
      }
    }
  }

  /** The scopes, each where its first entry is. */
  function ScopeOrder(es: seq<Entry>): seq<ScopeKey> {
    if es == [] then []
    else
      var init, key := ScopeOrder(es[..|es| - 1]), es[|es| - 1].key;
      if key in init then init else init + [key]
  }

  lemma {:induction false} ScopeOrderHas(es: seq<Entry>, key: ScopeKey)
    ensures key in ScopeOrder(es) <==> OfScope(es, key) != []
    ensures key in ScopeOrder(es) <==> exists x :: 0 <= x < |es| && es[x].key == key
  {
    if es != [] {
      var init := es[..|es| - 1];
      ScopeOrderHas(init, key);
      assert forall x :: 0 <= x < |init| ==> init[x] == es[x];
    }
  }

  /** No scope comes twice, and a scope comes before another when its oldest file does: before
      every file of a later scope there is one of the earlier scope. */
  lemma {:induction false} ScopesByOldest(es: seq<Entry>, i: nat, j: nat, y: nat)
    requires i < j < |ScopeOrder(es)| && y < |es| && es[y].key == ScopeOrder(es)[j]
    ensures ScopeOrder(es)[i] != ScopeOrder(es)[j]
    ensures exists x :: 0 <= x < y && es[x].key == ScopeOrder(es)[i]
  {
    var init, key := es[..|es| - 1], es[|es| - 1].key;
    assert forall x :: 0 <= x < |init| ==> init[x] == es[x];
    var before := ScopeOrder(init);
    ScopeOrderHas(init, before[i]);
    if j < |before| {
      ScopeOrderHas(init, before[j]);
      var y' :| 0 <= y' < |init| && init[y'].key == before[j];
      ScopesByOldest(init, i, j, if y < |init| then y else y');
    } else if y < |init| {
      ScopeOrderHas(init, key);
      assert false;
    }
  }

  /** Groups entries by scope; the scopes come in the order of their oldest files. */
  method GroupByScope(es: seq<Entry>) returns (order: seq<ScopeKey>, groups: map<ScopeKey, seq<Entry>>)
    ensures order == ScopeOrder(es)
    ensures groups.Keys == set key | key in order
    ensures forall key :: key in groups ==> groups[key] == OfScope(es, key)
  {
    order, groups := [], map[];
    for n := 0 to |es|
      invariant order == ScopeOrder(es[..n])
      invariant forall key :: key in groups <==> key in order
      invariant forall key :: key in groups ==> groups[key] == OfScope(es[..n], key)
    {
      var e := es[n];
      assert es[..n + 1][..n] == es[..n] && es[..n + 1][n] == e;
      ScopeOrderHas(es[..n], e.key);
      if e.key !in groups {
        order := order + [e.key];
        groups := groups[e.key := [e]];
      } else {
        groups := groups[e.key := groups[e.key] + [e]];
      }
    }
    assert es[..|es|] == es;
  }

  // ---- One pass ----

  /** How one file's turn ended. */
  datatype Turn = Next | LeaveScope | Stop | Cancel

  function TurnOf(a: Answer): Turn {
    if a.Cancelled? then Cancel
    else if Settles(a) then Next
    else if StopsAll(a) then Stop
    else LeaveScope
  }

  /** The sends of one scope in one pass: the first files of the scope in order, all but the last
      accepted or refused for good. */
  ghost predicate InOrder(sends: seq<Sent>, es: seq<Entry>) {
    && |sends| <= |es|
    && (forall i :: 0 <= i < |sends| ==> sends[i].name == es[i].name)
    && (forall i :: 0 <= i < |sends| - 1 ==> Settles(sends[i].answer))
  }

  /** The sends of one scope. */
  ghost function ForScope(sends: seq<Sent>, key: ScopeKey): seq<Sent> {
    if sends == [] then []
    else if sends[0].key == key then [sends[0]] + ForScope(sends[1..], key)
    else ForScope(sends[1..], key)
  }

  /** Every send carries the exact content the file had when the pass listed it. */
  ghost predicate Verbatim(a: Fs, sends: seq<Sent>)
    requires a.WellFormed()
  {
    forall i :: 0 <= i < |sends| ==> sends[i].name in a.pending.live && sends[i].body == a.Data(Pending, sends[i].name)
  }

  class Sender {
    const spool: Spool
    const journal: Journal
    const clock: Clock
    const minBackoff: nat
    const maxBackoff: nat
    var globalUntil: int
    var globalStep: nat
    var scopes: map<ScopeKey, ScopeBackoff>

    ghost var history: seq<Sent>
    /** The start of the last pass that could send. */
    ghost var lastStart: int
    /** A panicked pass has set an earlier end to the wait than an answer had. */
    ghost var cut: bool

    ghost predicate Valid()
      reads this, spool, spool.disk, journal, clock
    {
      && spool.Valid() && Allowed(minBackoff, maxBackoff) && Logged(history, journal.log)
      && lastStart <= clock.time && Patient(history, lastStart, globalUntil, scopes, cut)
    }

    constructor (spool: Spool, journal: Journal, clock: Clock, minBackoff: nat, maxBackoff: nat)
      requires spool.Valid() && Allowed(minBackoff, maxBackoff) && journal.log == []
      ensures Valid() && history == [] && this.spool == spool && this.journal == journal && this.clock == clock
    {
      this.spool, this.journal, this.clock := spool, journal, clock;
      this.minBackoff, this.maxBackoff := minBackoff, maxBackoff;
      globalUntil, globalStep, scopes := 0, 0, map[];
      history, lastStart, cut := [], clock.time, false;
    }

    /** The end of a wait that begins now. */
    method WaitUntil(step: nat, retryAfter: int) returns (until: int)
      requires Allowed(minBackoff, maxBackoff)
      modifies clock
      ensures old(clock.time) <= clock.time < until && until - clock.time >= retryAfter
      ensures IsDelay(minBackoff, maxBackoff, step, retryAfter, until - clock.time)
    {
      var now := clock.Now();
      var jitter: real := *;
      if !(-0.2 <= jitter <= 0.2) {
        jitter := 0.0;
      }
      var d := Backoff(minBackoff, maxBackoff, step, retryAfter, jitter);
      until := now + d;
    }

    /** Backs off as after a transport failure. That sets the end of the wait anew: it cuts one short
        that an answer asked for only when the shortest delay of the step ends before it. */
    method FailPass()
      requires Valid()
      modifies this`globalUntil, this`globalStep, this`cut, clock
      ensures Valid() && globalStep == old(globalStep) + 1 && globalUntil > clock.time
      ensures IsDelay(minBackoff, maxBackoff, globalStep, 0, globalUntil - clock.time)
      ensures cut == (old(cut) || globalUntil < old(globalUntil))
      ensures cut && !old(cut) ==> clock.time + Shortest(minBackoff, maxBackoff, globalStep) < old(globalUntil)
      ensures old(globalUntil) <= old(clock.time) ==> cut == old(cut)
    {
      hide IsDelay, Shortest;
      ghost var end := globalUntil;
      globalStep := globalStep + 1;
      var until := WaitUntil(globalStep, 0);
      EndsBefore(minBackoff, maxBackoff, globalStep, clock.time, end);
      PatientLater(history, lastStart, globalUntil, scopes, until, cut);
      cut := cut || until < globalUntil;
      globalUntil := until;
    }

    /** The journal has decided: the file is deleted or moved to rejected/. */
    method SettleSent(e: Entry, accepted: bool, ghost listed: Fs, ghost all: seq<Entry>, ghost done: set<Name>, ghost erased: set<string>,
                      ghost why: map<Name, Cause>, ghost h: seq<Sent>, ghost x: Sent, ghost from: nat, ghost base: nat)
      returns (ghost why': map<Name, Cause>)
      requires spool.Valid() && listed.WellFormed() && PendingEntries(listed, all) && e in all
      requires Progress(listed, spool.disk.fs, all, done, erased, why, history)
      requires history == h + [x] && x.name == e.name && x.subject == e.subject && x.body == listed.Data(Pending, e.name)
      requires e.name !in done && e.name in spool.disk.fs.pending.live && Where(listed, spool.disk.fs, h, from, done, spool.disk.faults > base)
      requires base <= spool.disk.faults
      requires Settles(history[|history| - 1].answer) && accepted == ActionOf(history[|history| - 1].answer).Delete?
      modifies this`globalStep, this`scopes, spool, spool.disk
      ensures spool.Valid() && globalStep == 0 && scopes == old(scopes) - {e.key} && spool.unknown == old(spool.unknown) - {e.key}
      ensures Progress(listed, spool.disk.fs, all, done + {e.name}, erased, why', history)
      ensures if accepted then RemoveState(old(spool.disk.fs), spool.disk.fs, Pending, e.name) else MoveState(old(spool.disk.fs), spool.disk.fs, e.name)
      ensures Where(listed, spool.disk.fs, history, from, done + {e.name}, spool.disk.faults > base)
      ensures spool.disk.faults >= old(spool.disk.faults)
      ensures e.name !in spool.disk.fs.pending.live || spool.disk.faults > old(spool.disk.faults)
    {
      hide InRange, Finished, CrashSafe, LiveSafe, CacheMatches, NothingAbout, Apart, NoTemp, MoveState, RemoveState, PendingEntries,
        Progress, Classify, IsSnapshotFile, Where, AcceptedBy, RefusedBy, ErasedBy;
      ListedSubject(listed, all, e);
      AnswerMeans(x.answer);
      ghost var faulty := spool.disk.faults > base;
      ghost var b := spool.disk.fs;
      var ok;
      if accepted {
        ok := spool.Delete(e);
      } else {
        ok := spool.Reject(e);
      }
      globalStep := 0;
      scopes := scopes - {e.key};
      spool.MarkUnknown(e.key, false);
      ghost var cause := if accepted then AcceptedAt(|history| - 1) else RefusedForGood(|history| - 1);
      SettleEffect(b, spool.disk.fs, e.name, accepted);
      LeavesOne(listed, b, spool.disk.fs, all, done, erased, why, history, e.name, cause);
      WhereSettled(listed, b, spool.disk.fs, h, x, from, done, faulty, spool.disk.faults > base);
      why' := why[e.name := cause];
    }

    /** The journal has erased the file's subject: its other files go too. */
    method Forget(e: Entry, ghost listed: Fs, ghost all: seq<Entry>, ghost done: set<Name>, ghost erased: set<string>, ghost why: map<Name, Cause>,
                  ghost h: seq<Sent>, ghost x: Sent, ghost from: nat, ghost base: nat)
      returns (ghost why': map<Name, Cause>)
      requires spool.Valid() && listed.WellFormed() && PendingEntries(listed, all) && e in all
      requires Progress(listed, spool.disk.fs, all, done, erased, why, history)
      requires history == h + [x] && x.name == e.name && x.subject == e.subject && Erases(x.answer)
      requires e.name !in done && e.name in spool.disk.fs.pending.live && Where(listed, spool.disk.fs, h, from, done, spool.disk.faults > base)
      requires base <= spool.disk.faults
      modifies spool, spool.disk
      ensures spool.Valid()
      ensures Progress(listed, spool.disk.fs, all, done + {e.name}, erased + {e.subject}, why', history)
      ensures Where(listed, spool.disk.fs, history, from, done + {e.name}, spool.disk.faults > base)
      ensures spool.disk.faults >= old(spool.disk.faults)
      ensures (if e.subject == "" then e.name !in spool.disk.fs.pending.live else NoneNames(spool.disk.fs, e.subject) && e.subject in spool.erased)
              || spool.disk.faults > old(spool.disk.faults)
    {
      hide InRange, Finished, CrashSafe, LiveSafe, CacheMatches, NothingAbout, Apart, NoTemp, PendingEntries, Progress,
        RemoveState, Purges, Classify, Erases, Quarantines, Drops, IsSnapshotFile, TakesAbout, NoneNames,
        TakesOnly, Where, AcceptedBy, RefusedBy, ErasedBy;
      ghost var b, faulty := spool.disk.fs, spool.disk.faults > base;
      ListedSubject(listed, all, e);
      AnswerMeans(x.answer);
      var count, err;
      ghost var readable, p;
      count, err, readable, p := spool.PurgeSubject(e.subject);
      PurgeTakesAbout(b, spool.disk.fs, e.subject, p);
      if e.subject == "" {
        var ok := spool.Delete(e);
        RemoveEffect(b, spool.disk.fs, e.name);
        WhereDeleted(listed, b, spool.disk.fs, h, x, from, done, faulty, spool.disk.faults > base);
        LeavesOne(listed, b, spool.disk.fs, all, done, erased, why, history, e.name, SubjectErased(|history| - 1));
        why' := why[e.name := SubjectErased(|history| - 1)];
      } else {
        PurgeTakesOnly(b, spool.disk.fs, e.subject, p);
        WherePurged(listed, b, spool.disk.fs, h, x, from, done, faulty, spool.disk.faults > base);
        LeavesPurge(listed, b, spool.disk.fs, all, done, erased, why, history, e.subject, |history| - 1);
        why' := why + PurgeCauses(b, spool.disk.fs, |history| - 1);
      }
      HereFewer(listed, spool.disk.fs, all, done, erased, e, why', history);
      HereFewer(listed, spool.disk.fs, all, done, erased + {e.subject}, e, why', history);
    }

    /** The answer asks to wait, for the scope or for everything. */
    method Wait(e: Entry, a: Answer) returns (until: int)
      requires spool.Valid() && Allowed(minBackoff, maxBackoff) && (Blocks(a) || StopsAll(a))
      modifies this`globalUntil, this`globalStep, this`scopes, spool`unknown, clock
      ensures spool.Valid() && old(clock.time) <= clock.time < until && until - clock.time >= RetryAfterOf(a)
      ensures globalUntil == if StopsAll(a) then until else old(globalUntil)
      ensures globalStep == if StopsAll(a) then old(globalStep) + 1 else old(globalStep)
      ensures if StopsAll(a) then scopes == old(scopes)
              else scopes == old(scopes)[e.key := ScopeBackoff(until, if e.key in old(scopes) then old(scopes)[e.key].step + 1 else 1)]
      ensures IsDelay(minBackoff, maxBackoff, if StopsAll(a) then globalStep else scopes[e.key].step, RetryAfterOf(a), until - clock.time)
      ensures spool.unknown == if Blocks(a) then old(spool.unknown) + {e.key} else old(spool.unknown)
    {
      hide InRange, Finished, CrashSafe, LiveSafe, CacheMatches, NothingAbout, Apart, NoTemp, Classify, IsDelay;
      OneKind(a);
      if Blocks(a) {
        var step := if e.key in scopes then scopes[e.key].step + 1 else 1;
        until := WaitUntil(step, RetryAfterOf(a));
        scopes := scopes[e.key := ScopeBackoff(until, step)];
        spool.MarkUnknown(e.key, true);
      } else {
        globalStep := globalStep + 1;
        until := WaitUntil(globalStep, RetryAfterOf(a));
        globalUntil := until;
      }
    }

    /** Sends a file's bytes; when the answer asks to wait, the wait is noted. */
    method SendBody(e: Entry, body: Content) returns (a: Answer, ghost until: int)
      requires Valid() && globalUntil <= lastStart && (e.key in scopes ==> scopes[e.key].until <= lastStart)
      modifies this`globalUntil, this`globalStep, this`scopes, this`history, spool`unknown, journal, clock
      ensures spool.Valid() && Logged(history, journal.log) && lastStart <= clock.time
      ensures Patient(history, lastStart, globalUntil, if Settles(a) then scopes - {e.key} else scopes, cut)
      ensures history == old(history) + [Sent(e.name, e.key, e.subject, body, a, lastStart, until)]
      ensures !StopsAll(a) ==> globalUntil == old(globalUntil)
      ensures StopsAll(a) ==> globalStep == old(globalStep) + 1 && globalUntil > clock.time && globalUntil - clock.time >= RetryAfterOf(a)
      ensures if Blocks(a) then e.key in scopes && scopes[e.key].until == until > clock.time else scopes == old(scopes)
      ensures OthersWait(old(scopes), scopes, e.key)
    {
      hide InRange, Finished, CrashSafe, LiveSafe, CacheMatches, NothingAbout, Apart, NoTemp, Patient, Logged, Classify, ActionOf,
        RetryAfterOf;
      a := journal.Send(body);
      ghost var h, global, waits := history, globalUntil, scopes;
      OneKind(a);
      until := 0;
      if Blocks(a) || StopsAll(a) {
        var end := Wait(e, a);
        until := end;
      }
      ghost var x := Sent(e.name, e.key, e.subject, body, a, lastStart, until);
      history := h + [x];
      LoggedSend(h, old(journal.log), x);
      PatientSend(h, x, global, waits, globalUntil, if Settles(a) then scopes - {e.key} else scopes, cut);
    }

    /** What an answer does to the file. */
    method DealWith(e: Entry, ghost listed: Fs, ghost all: seq<Entry>, ghost done: set<Name>, ghost erased: set<string>,
                    ghost why: map<Name, Cause>, ghost h: seq<Sent>, ghost x: Sent, ghost from: nat, ghost base: nat, a: Answer)
      returns (ghost why': map<Name, Cause>)
      requires spool.Valid() && listed.WellFormed() && PendingEntries(listed, all) && e in all
      requires Progress(listed, spool.disk.fs, all, done, erased, why, history)
      requires Progress(listed, spool.disk.fs, all, done + {e.name}, erased, why, history)
      requires history == h + [x] && x.name == e.name && x.subject == e.subject && x.body == listed.Data(Pending, e.name) && x.answer == a
      requires e.name !in done && e.name in spool.disk.fs.pending.live && Where(listed, spool.disk.fs, h, from, done, spool.disk.faults > base)
      requires base <= spool.disk.faults
      modifies this`globalStep, this`scopes, spool, spool.disk
      ensures spool.Valid() && scopes == if Settles(a) then old(scopes) - {e.key} else old(scopes)
      ensures Progress(listed, spool.disk.fs, all, done + {e.name}, if Erases(a) then erased + {e.subject} else erased, why', history)
      ensures Where(listed, spool.disk.fs, history, from, done + {e.name}, spool.disk.faults > base)
      ensures spool.disk.faults >= old(spool.disk.faults)
      ensures if Settles(a) then globalStep == 0 && (e.name !in spool.disk.fs.pending.live || spool.disk.faults > old(spool.disk.faults))
              else globalStep == old(globalStep)
      ensures !Settles(a) && !Erases(a) ==> spool.disk.fs == old(spool.disk.fs)
    {
      hide InRange, Finished, CrashSafe, LiveSafe, CacheMatches, NothingAbout, Apart, NoTemp, PendingEntries, Progress,
        MoveState, RemoveState, Classify, IsSnapshotFile, Where, AcceptedBy, RefusedBy, ErasedBy;
      why' := why;
      if Settles(a) {
        why' := SettleSent(e, ActionOf(a).Delete?, listed, all, done, erased, why, h, x, from, base);
      } else if Erases(a) {
        why' := Forget(e, listed, all, done, erased, why, h, x, from, base);
      } else {
        AnswerMeans(a);
        ListedSubject(listed, all, e);
        WhereSettled(listed, spool.disk.fs, spool.disk.fs, h, x, from, done, spool.disk.faults > base, spool.disk.faults > base);
      }
    }

    /** A file that was read is sent byte for byte and dealt with as the answer says. */
    method SendRead(e: Entry, body: Content, ghost listed: Fs, ghost all: seq<Entry>, ghost done: set<Name>, ghost erased: set<string>,
                    ghost why: map<Name, Cause>, ghost from: nat, ghost base: nat)
      returns (turn: Turn, a: Answer, ghost x: Sent, ghost why': map<Name, Cause>)
      requires Valid() && globalUntil <= lastStart && (e.key in scopes ==> scopes[e.key].until <= lastStart)
      requires listed.WellFormed() && PendingEntries(listed, all) && e in all
      requires e.name in listed.pending.live && body == listed.Data(Pending, e.name)
      requires Progress(listed, spool.disk.fs, all, done, erased, why, history)
      requires Progress(listed, spool.disk.fs, all, done + {e.name}, erased, why, history)
      requires e.name !in done && e.name in spool.disk.fs.pending.live && Where(listed, spool.disk.fs, history, from, done, spool.disk.faults > base)
      requires base <= spool.disk.faults
      modifies this, spool, spool.disk, journal, clock
      ensures Valid() && lastStart == old(lastStart) && cut == old(cut)
      ensures turn == TurnOf(a) && history == old(history) + [x] && IsSend(x, e, a, lastStart, listed)
      ensures !turn.Stop? ==> globalUntil == old(globalUntil)
      ensures turn.Stop? ==> globalStep == old(globalStep) + 1 && globalUntil > clock.time && globalUntil - clock.time >= RetryAfterOf(a)
      ensures WaitsFor(a, e.key, scopes, lastStart)
      ensures OthersWait(old(scopes), scopes, e.key)
      ensures Progress(listed, spool.disk.fs, all, done + {e.name}, if turn.LeaveScope? && Erases(a) then erased + {e.subject} else erased, why', history)
      ensures Where(listed, spool.disk.fs, history, from, done + {e.name}, spool.disk.faults > base)
      ensures spool.disk.faults >= old(spool.disk.faults)
      ensures Settles(a) ==> globalStep == 0 && (e.name !in spool.disk.fs.pending.live || spool.disk.faults > old(spool.disk.faults))
      ensures !Settles(a) && !Erases(a) ==> spool.disk.fs == old(spool.disk.fs)
    {
      hide InRange, Finished, CrashSafe, LiveSafe, CacheMatches, NothingAbout, Apart, NoTemp, PendingEntries, Progress,
        Patient, Logged, MoveState, RemoveState, Classify, IsSnapshotFile, Where, AcceptedBy, RefusedBy, ErasedBy,
        ActionOf;
      why' := why;
      ghost var until;
      a, until := SendBody(e, body);
      turn := TurnOf(a);
      ghost var b, h := spool.disk.fs, old(history);
      x := history[|history| - 1];
      ProgressSend(listed, b, all, done, erased, why, h, x);
      ProgressSend(listed, b, all, done + {e.name}, erased, why, h, x);
      why' := DealWith(e, listed, all, done, erased, why, h, x, from, base, a);
    }

    /** One file's turn. Without an I/O error it is sent. */
    method SendOne(e: Entry, ghost listed: Fs, ghost all: seq<Entry>, ghost done: set<Name>, ghost erased: set<string>,
                   ghost why: map<Name, Cause>, ghost from: nat, ghost base: nat)
      returns (turn: Turn, a: Answer, ghost read: bool, ghost x: Sent, ghost why': map<Name, Cause>)
      requires Valid() && globalUntil <= lastStart && (e.key in scopes ==> scopes[e.key].until <= lastStart)
      requires listed.WellFormed() && PendingEntries(listed, all) && e in all && e.name !in done
      requires !(e.subject != "" && e.subject in erased)
      requires Progress(listed, spool.disk.fs, all, done, erased, why, history)
      requires Where(listed, spool.disk.fs, history, from, done, spool.disk.faults > base)
      requires base <= spool.disk.faults
      modifies this, spool, spool.disk, journal, clock
      ensures Valid() && lastStart == old(lastStart) && cut == old(cut)
      ensures !read ==> turn.Next? && a.Cancelled? && history == old(history) && globalUntil == old(globalUntil) && scopes == old(scopes)
      ensures read ==> turn == TurnOf(a) && history == old(history) + [x] && IsSend(x, e, a, lastStart, listed)
      ensures !turn.Stop? ==> globalUntil == old(globalUntil)
      ensures turn.Stop? ==> read && globalStep == old(globalStep) + 1 && globalUntil > clock.time && globalUntil - clock.time >= RetryAfterOf(a)
      ensures WaitsFor(a, e.key, scopes, lastStart)
      ensures OthersWait(old(scopes), scopes, e.key)
      ensures Progress(listed, spool.disk.fs, all, done + {e.name}, if turn.LeaveScope? && Erases(a) then erased + {e.subject} else erased, why', history)
      ensures Where(listed, spool.disk.fs, history, from, done + {e.name}, spool.disk.faults > base)
      ensures spool.disk.faults >= old(spool.disk.faults) && (read || spool.disk.faults > old(spool.disk.faults))
    {
      hide InRange, Finished, CrashSafe, LiveSafe, CacheMatches, NothingAbout, Apart, NoTemp, PendingEntries, Progress,
        Patient, Logged, Classify, IsSnapshotFile, IsSend, Where;
      why', a, read, x := why, Cancelled, false, Sent(e.name, e.key, e.subject, Empty, Cancelled, 0, 0);
      HereFewer(listed, spool.disk.fs, all, done, erased, e, why, history);
      BodyIsListed(listed, spool.disk.fs, why, all, done, erased, e, history);
      ghost var faulty := spool.disk.faults > base;
      var body := spool.disk.ReadFile(Pending, e.name);
      WhereMore(listed, spool.disk.fs, history, from, done, done, faulty, spool.disk.faults > base);
      WhereMore(listed, spool.disk.fs, history, from, done, done + {e.name}, faulty, spool.disk.faults > base);
      if !body.Got? {
        return Next, a, read, x, why';
      }
      read := true;
      turn, a, x, why' := SendRead(e, body.content, listed, all, done, erased, why, from, base);
    }

    /** The next file of a scope: sent, skipped when it cannot be read, or the end of the scope. */
    method SendNext(key: ScopeKey, es: seq<Entry>, i: nat, erased: set<string>, ghost listed: Fs, ghost all: seq<Entry>,
                    ghost before: set<Name>, ghost why: map<Name, Cause>, ghost seg: seq<Sent>, ghost clean: bool,
                    ghost from: nat, ghost base: nat)
      returns (turn: Turn, erased': set<string>, sent: nat, due: Option<int>, ghost read: bool, ghost x: Sent, ghost done': set<Name>,
               ghost why': map<Name, Cause>)
      requires Valid() && globalUntil <= lastStart && (key in scopes ==> scopes[key].until <= lastStart)
      requires listed.WellFormed() && PendingEntries(listed, all) && i < |es| && DistinctNames(es)
      requires forall e :: e in es ==> e in all && e.key == key && e.name !in before
      requires SoFar(listed, es, i, seg, key, clean)
      requires Progress(listed, spool.disk.fs, all, before + Names(es[..i]), erased, why, history)
      requires Where(listed, spool.disk.fs, history, from, before + Names(es[..i]), spool.disk.faults > base)
      requires base <= spool.disk.faults
      modifies this, spool, spool.disk, journal, clock
      ensures Valid() && lastStart == old(lastStart) && cut == old(cut)
      ensures history == old(history) + One(read, x) && Accepts(seg + One(read, x)) == Accepts(seg) + sent
      ensures turn.Next? ==> SoFar(listed, es, i + 1, seg + One(read, x), key, clean && read) && erased' == erased && due == None
      ensures turn.Next? ==> (key in scopes ==> scopes[key].until <= lastStart) && done' == before + Names(es[..i + 1])
      ensures !turn.Next? ==> ScopeDone(listed, es, seg + One(read, x), key, clean, turn)
      ensures turn.Stop? ==> read && globalUntil > clock.time && globalUntil - clock.time >= RetryAfterOf(x.answer)
      ensures !turn.Stop? ==> globalUntil == old(globalUntil)
      ensures OthersWait(old(scopes), scopes, key)
      ensures due == WaitOf(scopes, key, lastStart)
      ensures done' <= before + Names(es) && Progress(listed, spool.disk.fs, all, done', erased', why', history)
      ensures Where(listed, spool.disk.fs, history, from, done', spool.disk.faults > base)
      ensures spool.disk.faults >= old(spool.disk.faults) && (read || !turn.Next? || spool.disk.faults > old(spool.disk.faults))
    {
      hide InRange, Finished, CrashSafe, LiveSafe, CacheMatches, NothingAbout, Apart, NoTemp, PendingEntries, Progress,
        Patient, Logged, Classify, IsSnapshotFile, Names, IsSend, Verbatim, OthersWait, SoFar, AllOfScope, StopsLast, InOrder,
        DistinctNames, TurnOf, Settles, StopsAll, Erases, Blocks, ActionOf, RetryAfterOf, Accepts, ScopeDone, Where;
      var e := es[i];
      NotDone(es, i, before);
      SoFarEnds(listed, es, i, seg, key, clean);
      turn, erased', sent, due, done', why' := Next, erased, 0, None, before + Names(es[..i]), why;
      read, x := false, Sent(e.name, e.key, e.subject, Empty, Cancelled, 0, 0);
      assert history + [] == history && seg + [] == seg;
      WaitsSame(scopes, key);
      var cancelled: bool := *;
      if cancelled || (e.subject != "" && e.subject in erased) {
        turn := if cancelled then Cancel else LeaveScope;
        return;
      }
      var a;
      turn, a, read, x, why' := SendOne(e, listed, all, done', erased, why', from, base);
      done' := done' + {e.name};
      if read {
        SoFarStep(listed, es, i, seg, key, clean, x, e, a, lastStart);
      } else {
        SoFarSkip(listed, es, i, seg, key, clean);
      }
      if ActionOf(a).Delete? && !a.Cancelled? {
        sent := 1;
      }
      if Blocks(a) {
        due := Some(scopes[key].until);
      }
      if turn.LeaveScope? && Erases(a) {
        erased' := erased + {e.subject};
      }
    }

    /** One scope, oldest first, until a file must wait. */
    method DrainScope(key: ScopeKey, es: seq<Entry>, erased: set<string>,
                      ghost listed: Fs, ghost all: seq<Entry>, ghost done: set<Name>, ghost why: map<Name, Cause>,
                      ghost from: nat, ghost base: nat)
      returns (turn: Turn, erased': set<string>, sent: nat, due: Option<int>, ghost clean: bool, ghost seg: seq<Sent>, ghost done': set<Name>,
               ghost why': map<Name, Cause>)
      requires Valid() && globalUntil <= lastStart && (key in scopes ==> scopes[key].until <= lastStart)
      requires listed.WellFormed() && PendingEntries(listed, all) && DistinctNames(es)
      requires forall e :: e in es ==> e in all && e.key == key && e.name !in done
      requires Progress(listed, spool.disk.fs, all, done, erased, why, history)
      requires Where(listed, spool.disk.fs, history, from, done, spool.disk.faults > base)
      requires base <= spool.disk.faults
      modifies this, spool, spool.disk, journal, clock
      ensures Valid() && lastStart == old(lastStart) && cut == old(cut)
      ensures history == old(history) + seg && ScopeDone(listed, es, seg, key, clean, turn) && sent == Accepts(seg)
      ensures turn.Stop? ==> seg != [] && globalUntil > clock.time && globalUntil - clock.time >= RetryAfterOf(seg[|seg| - 1].answer)
      ensures !turn.Stop? ==> globalUntil == old(globalUntil)
      ensures OthersWait(old(scopes), scopes, key)
      ensures due == WaitOf(scopes, key, lastStart)
      ensures done' <= done + Names(es)
      ensures Progress(listed, spool.disk.fs, all, done', erased', why', history)
      ensures Where(listed, spool.disk.fs, history, from, done', spool.disk.faults > base)
      ensures spool.disk.faults >= old(spool.disk.faults) && (clean || spool.disk.faults > old(spool.disk.faults))
    {
      hide InRange, Finished, CrashSafe, LiveSafe, CacheMatches, NothingAbout, Apart, NoTemp, PendingEntries, Progress,
        Patient, Logged, Names, OthersWait, SoFar, DistinctNames, RetryAfterOf, Accepts, ScopeDone, Where;
      turn, erased', sent, due, clean, seg, done', why' := Next, erased, 0, None, true, [], done, why;
      ScopeBegins(listed, es, scopes, key, history);
      var i := 0;
      while i < |es|
        invariant 0 <= i <= |es|
        invariant Valid() && lastStart == old(lastStart) && cut == old(cut) && globalUntil == old(globalUntil)
        invariant (key in scopes ==> scopes[key].until <= lastStart) && due == None
        invariant SoFar(listed, es, i, seg, key, clean) && history == old(history) + seg && sent == Accepts(seg)
        invariant OthersWait(old(scopes), scopes, key) && turn.Next? && erased' == erased
        invariant done' == done + Names(es[..i])
        invariant Progress(listed, spool.disk.fs, all, done', erased, why', history)
        invariant Where(listed, spool.disk.fs, history, from, done', spool.disk.faults > base)
        invariant spool.disk.faults >= old(spool.disk.faults) && (clean || spool.disk.faults > old(spool.disk.faults))
      {
        var n;
        ghost var read, x, waits, was := false, Sent(es[i].name, key, "", Empty, Cancelled, 0, 0), scopes, seg;
        turn, erased', n, due, read, x, done', why' := SendNext(key, es, i, erased, listed, all, done, why', seg, clean, from, base);
        OthersWaitTrans(old(scopes), waits, scopes, key);
        seg := was + One(read, x);
        assert old(history) + seg == old(history) + was + One(read, x);
        sent := sent + n;
        if !turn.Next? {
          return;
        }
        clean := clean && read;
        i := i + 1;
      }
      SoFarEnds(listed, es, i, seg, key, clean);
      assert es[..i] == es;
    }

    /** The next scope of a pass: passed over when it waits, otherwise drained. */
    method NextScopes(order: seq<ScopeKey>, groups: map<ScopeKey, seq<Entry>>, i: nat, now: int, erased: set<string>, ghost listed: Fs,
                      ghost all: seq<Entry>, ghost pass: seq<Sent>, ghost clean: bool, ghost done: set<Name>, ghost why: map<Name, Cause>,
                      ghost from: nat, ghost base: nat)
      returns (turn: Turn, erased': set<string>, sent: nat, until: Option<int>, ghost seg: seq<Sent>, ghost clean': bool, ghost done': set<Name>,
               ghost why': map<Name, Cause>)
      requires Valid() && globalUntil <= lastStart == now && listed.WellFormed() && PendingEntries(listed, all)
      requires PassSoFar(listed, all, order, i, pass, clean, done) && i < |order|
      requires order[i] in groups && groups[order[i]] == OfScope(all, order[i])
      requires Progress(listed, spool.disk.fs, all, done, erased, why, history)
      requires Where(listed, spool.disk.fs, history, from, done, spool.disk.faults > base)
      requires base <= spool.disk.faults
      modifies this, spool, spool.disk, journal, clock
      ensures Valid() && lastStart == old(lastStart) && cut == old(cut) && !turn.LeaveScope?
      ensures history == old(history) + seg && Accepts(pass + seg) == Accepts(pass) + sent
      ensures Verbatim(listed, pass + seg) && StopsAtEnd(pass + seg, turn)
      ensures clean' ==> forall key :: InOrder(ForScope(pass + seg, key), OfScope(all, key))
      ensures turn.Next? ==> PassSoFar(listed, all, order, i + 1, pass + seg, clean', done')
      ensures turn.Stop? ==> seg != [] && globalUntil > clock.time && globalUntil - clock.time >= RetryAfterOf(seg[|seg| - 1].answer)
      ensures !turn.Stop? ==> globalUntil == old(globalUntil)
      ensures OthersWait(old(scopes), scopes, order[i])
      ensures until == WaitOf(scopes, order[i], lastStart)
      ensures Progress(listed, spool.disk.fs, all, done', erased', why', history)
      ensures Where(listed, spool.disk.fs, history, from, done', spool.disk.faults > base)
      ensures spool.disk.faults >= old(spool.disk.faults) && (clean' || !clean || spool.disk.faults > old(spool.disk.faults))
    {
      hide InRange, Finished, CrashSafe, LiveSafe, CacheMatches, NothingAbout, Apart, NoTemp, PendingEntries, Progress,
        Patient, Logged, Classify, IsSnapshotFile, Names, Verbatim, OthersWait, AllOfScope, StopsLast, InOrder, ForScope, OfScope,
        ScopeOrder, DistinctNames, Sorted, PassSoFar, StopsAtEnd, Accepts, ScopeDone, RetryAfterOf, Where;
      var key := order[i];
      turn, erased', sent, until, seg, clean', done', why' := Next, erased, 0, None, [], clean, done, why;
      PassSoFarEnds(listed, all, order, i, pass, clean, done);
      WaitsSame(scopes, key);
      assert pass + [] == pass && history + [] == history;
      if key in scopes && now < scopes[key].until {
        until := Some(scopes[key].until);
        PassSkip(listed, all, order, i, pass, clean, done);
        return;
      }
      NextScope(listed, all, order, i, pass, clean, done);
      ghost var ordered;
      turn, erased', sent, until, ordered, seg, done', why' := DrainScope(key, groups[key], erased, listed, all, done, why, from, base);
      ScopeDoneIs(listed, groups[key], seg, key, ordered, turn);
      PassStep(listed, all, order, i, pass, clean, done, seg, done', ordered, turn);
      StopsLeaving(pass + seg, turn);
      clean' := clean && ordered;
      turn := if turn.LeaveScope? then Next else turn;
    }

    /** Every scope in turn, but those that wait. */
    method DrainScopes(pending: seq<Entry>, now: int, ghost listed: Fs)
      returns (turn: Turn, sent: nat, due: Option<int>, ghost clean: bool, ghost pass: seq<Sent>, ghost why: map<Name, Cause>, ghost seen: nat)
      requires Valid() && globalUntil <= lastStart == now
      requires listed == spool.disk.fs && PendingEntries(listed, pending) && Sorted(pending) && DistinctNames(pending)
      modifies this, spool, spool.disk, journal, clock
      ensures Valid() && lastStart == old(lastStart) && cut == old(cut)
      ensures history == old(history) + pass && Verbatim(listed, pass) && sent == Accepts(pass)
      ensures clean ==> forall key :: InOrder(ForScope(pass, key), OfScope(pending, key))
      ensures StopsAtEnd(pass, turn)
      ensures turn.Stop? ==> pass != [] && globalUntil > clock.time && globalUntil - clock.time >= RetryAfterOf(pass[|pass| - 1].answer)
      ensures !turn.Stop? ==> globalUntil == old(globalUntil)
      ensures seen <= |ScopeOrder(pending)| && (turn.Next? ==> seen == |ScopeOrder(pending)|) && !turn.LeaveScope?
      ensures DueByWaits(due, ScopeOrder(pending)[..seen], scopes, lastStart)
      ensures Leaves(listed, spool.disk.fs, why) && Justified(listed, why, history)
      ensures Where(listed, spool.disk.fs, pass, 0, SentNames(pass), spool.disk.faults > old(spool.disk.faults))
      ensures spool.disk.faults >= old(spool.disk.faults) && (clean || spool.disk.faults > old(spool.disk.faults))
    {
      hide InRange, Finished, CrashSafe, LiveSafe, CacheMatches, NothingAbout, Apart, NoTemp, PendingEntries, Leaves, Justified, StillHere,
        Patient, Logged, Classify, IsSnapshotFile, Names, Verbatim, OthersWait, AllOfScope, StopsLast, InOrder, ForScope, OfScope,
        ScopeOrder, DistinctNames, Sorted, PassSoFar, StopsAtEnd, DueByWaits, Accepts, RetryAfterOf, WaitOf, Where;
      turn, sent, due, clean, pass, why, seen := Next, 0, None, true, [], map[], 0;
      var order, groups := GroupByScope(pending);
      var erased: set<string> := {};
      ghost var done: set<Name> := {};
      ghost var base, old_ := spool.disk.faults, history;
      PassBegins(listed, pending, history);
      WhereBegins(listed, history, false);
      PassStarts(listed, pending, scopes, lastStart, history);
      var i := 0;
      while i < |order|
        invariant 0 <= i == seen <= |order| && turn.Next?
        invariant Valid() && lastStart == old(lastStart) && cut == old(cut) && globalUntil == old(globalUntil)
        invariant history == old(history) + pass && sent == Accepts(pass)
        invariant PassSoFar(listed, pending, order, i, pass, clean, done) && DueByWaits(due, order[..i], scopes, lastStart)
        invariant Progress(listed, spool.disk.fs, pending, done, erased, why, history)
        invariant Where(listed, spool.disk.fs, history, |old(history)|, done, spool.disk.faults > base)
        invariant spool.disk.faults >= old(spool.disk.faults) && (clean || spool.disk.faults > old(spool.disk.faults))
      {
        var n, until;
        ghost var waits, was, seg := scopes, due, [];
        turn, erased, n, until, seg, clean, done, why := NextScopes(order, groups, i, now, erased, listed, pending, pass, clean, done, why, |old_|, base);
        NotAmongEarlier(pending, i);
        DueStep(was, until, order, i, waits, scopes, lastStart);
        due, sent := Earliest(due, until), sent + n;
        assert old(history) + (pass + seg) == old(history) + pass + seg;
        pass, seen := pass + seg, seen + 1;
        if !turn.Next? {
          WhereInPass(listed, spool.disk.fs, old_, pass, done, spool.disk.faults > base);
          return;
        }
        i := i + 1;
      }
      PassSoFarEnds(listed, pending, order, i, pass, clean, done);
      WhereInPass(listed, spool.disk.fs, old_, pass, done, spool.disk.faults > base);
    }

    /** How many pending files are left. */
    method Remaining() returns (n: nat, ghost es: seq<Entry>)
      requires spool.Valid()
      modifies spool, spool.disk
      ensures spool.Valid() && Quarantines(old(spool.disk.fs), spool.disk.fs)
      ensures n == |es| && DistinctNames(es) && PendingEntries(spool.disk.fs, es)
      ensures AllPending(spool.disk.fs, es) || spool.disk.faults > old(spool.disk.faults)
      ensures spool.disk.faults >= old(spool.disk.faults)
    {
      hide InRange, Finished, CrashSafe, LiveSafe, CacheMatches, NothingAbout, Apart, NoTemp, Quarantines, NewRisks, Sorted, DistinctNames,
        PendingEntries, AllPending, ReadApart, Files;
      var ok, list;
      ghost var allRead;
      ok, list, allRead := spool.ListPendingLocked();
      NoneRejected(spool.disk.fs);
      NothingSorted();
      n, es := |list|, list;
    }

    /** The part of a pass that sends. */
    method DrainListed(now: int, ghost p0: Pass) returns (sent: nat, due: Option<int>, remaining: nat, ghost p: Pass)
      requires Valid() && globalUntil <= lastStart == now
      requires p0.bounded == spool.disk.fs && p0.pending == [] && p0.sends == [] && p0.why == map[]
      modifies this, spool, spool.disk, journal, clock
      ensures Valid() && history == old(history) + p.sends && sent == Accepts(p.sends) && cut == old(cut) && lastStart == old(lastStart)
      ensures SameBounds(p, p0) && PassDone(p, spool.disk.fs, history)
      ensures !p.end.Waiting? && DueAfter(p, due, globalUntil, scopes, lastStart, minBackoff)
      ensures LeftAfter(p, remaining, spool.disk.fs, spool.disk.faults > old(spool.disk.faults))
      ensures !p.end.Stopped? ==> globalUntil == old(globalUntil)
      ensures spool.disk.faults >= old(spool.disk.faults) && (p.clean || spool.disk.faults > old(spool.disk.faults))
      ensures Where(p.listed, spool.disk.fs, p.sends, 0, SentNames(p.sends), spool.disk.faults > old(spool.disk.faults))
      ensures p.end.Unlisted? ==> spool.disk.faults > old(spool.disk.faults)
    {
      hide InRange, Finished, CrashSafe, LiveSafe, CacheMatches, NothingAbout, Apart, NoTemp, PendingEntries, Leaves, Justified,
        Patient, Logged, Classify, IsSnapshotFile, Names, Verbatim, InOrder, ForScope, OfScope, ScopeOrder, DistinctNames, Sorted,
        DueByWaits, Accepts, Quarantines, NewRisks, AllPending, ReadApart, Files, PassDone, Where;
      sent, due, remaining := 0, None, 0;
      NothingSent(spool.disk.fs, history, Accepts([]));
      var ok, pending;
      ghost var allRead;
      ok, pending, allRead := spool.ListPendingLocked();
      ghost var listed := spool.disk.fs;
      if !ok {
        due := Some(now + minBackoff * SECOND);
        p := PassLists(p0, listed, history, Unlisted, []);
        NothingWhere(listed, true);
        return;
      }
      var turn;
      ghost var clean, sends, why, seen;
      ghost var before := spool.disk.faults;
      turn, sent, due, clean, sends, why, seen := DrainScopes(pending, now, listed);
      ghost var fs, left, faulty := spool.disk.fs, [], spool.disk.faults > old(spool.disk.faults);
      WhereMore(listed, fs, sends, 0, SentNames(sends), SentNames(sends), spool.disk.faults > before, faulty);
      remaining, left := Remaining();
      WhereQuarantined(listed, fs, spool.disk.fs, sends, 0, SentNames(sends), faulty, spool.disk.faults > old(spool.disk.faults));
      p := PassSends(p0, listed, fs, spool.disk.fs, history, pending, sends, why, clean, turn, seen, left);
      if turn.Stop? {
        due := Some(globalUntil);
      }
    }

    /** One pass over the spool. The bounds are applied first, even while everything waits. */
    method Drain() returns (sent: nat, due: Option<int>, remaining: nat, ghost p: Pass)
      requires Valid()
      modifies this, spool, spool.disk, journal, clock
      ensures Valid() && history == old(history) + p.sends && sent == Accepts(p.sends) && cut == old(cut)
      ensures BoundsFirst(old(spool.disk.fs), p) && (p.enforced ==> Enforced(p.bounds, p.at, spool.maxAge, spool.maxBytes))
      ensures PassDone(p, spool.disk.fs, history)
      ensures if p.end.Waiting? then clock.time < globalUntil && lastStart == old(lastStart) else lastStart >= old(globalUntil)
      ensures DueAfter(p, due, globalUntil, scopes, lastStart, minBackoff)
      ensures LeftAfter(p, remaining, spool.disk.fs, spool.disk.faults > old(spool.disk.faults))
      ensures !p.end.Stopped? ==> globalUntil == old(globalUntil)
      ensures Where(p.listed, spool.disk.fs, p.sends, 0, SentNames(p.sends), spool.disk.faults > old(spool.disk.faults))
      ensures p.end.Unlisted? ==> spool.disk.faults > old(spool.disk.faults)
      ensures spool.disk.faults >= old(spool.disk.faults) && ((p.clean && p.enforced) || spool.disk.faults > old(spool.disk.faults))
    {
      hide InRange, Finished, CrashSafe, LiveSafe, CacheMatches, NothingAbout, Apart, NoTemp, PendingEntries,
        Patient, Logged, Names, Accepts, Quarantines, Drops, Enforced, RejectedEntries, NewRisks, KeptWithout, Files, PassDone, StopsAll, Where;
      var now := clock.Now();
      var ok;
      ghost var r;
      var ms := (now + 999_999) / 1_000_000;
      ok, r := spool.EnforceLocked(ms);
      p := Pass(ok, ms, r, spool.disk.fs, spool.disk.fs, [], [], map[], true, Waiting, 0, []);
      sent, due, remaining := 0, None, 0;
      NothingSent(spool.disk.fs, history, Accepts([]));
      now := clock.Now();
      if now < globalUntil {
        due := Some(globalUntil);
        ghost var left;
        remaining, left := Remaining();
        p := PassLists(p, spool.disk.fs, history, Waiting, left);
        NothingWhere(p.listed, spool.disk.faults > old(spool.disk.faults));
        return;
      }
      PatientStart(history, lastStart, now, globalUntil, scopes, cut);
      lastStart := now;
      ghost var faults := spool.disk.faults;
      sent, due, remaining, p := DrainListed(now, p);
      WhereAfter(p, spool.disk.fs, history, spool.disk.faults > faults, spool.disk.faults > old(spool.disk.faults));
    }
  }

  ghost predicate SameBounds(p: Pass, q: Pass) {
    p.enforced == q.enforced && p.at == q.at && p.bounds == q.bounds && p.bounded == q.bounded
  }

  /** What a pass did: whether the bounds could be applied, at what time, what they dropped and the
      state then; the state as listed and the listing; the sends; why files left spool/ after the
      listing; whether every file that was to be sent could be read; how it ended, after how many scopes;
      and what was left. */
  datatype Pass = Pass(enforced: bool, at: int, bounds: Enforcement, bounded: Fs, listed: Fs, pending: seq<Entry>, sends: seq<Sent>,
                       why: map<Name, Cause>, clean: bool, end: PassEnd, seen: nat, left: seq<Entry>)

  /** A pass does not begin while everything waits, ends when spool/ cannot be listed, is stopped by an
      answer, is interrupted, or is complete. */
  datatype PassEnd = Waiting | Unlisted | Stopped | Interrupted | Complete

  /** When the next pass is due. */
  ghost predicate DueAfter(p: Pass, due: Option<int>, globalUntil: int, waits: map<ScopeKey, ScopeBackoff>, start: int, minBackoff: nat) {
    match p.end
    case Waiting => p.sends == [] && due == Some(globalUntil)
    case Unlisted => p.sends == [] && p.left == [] && due == Some(start + minBackoff * SECOND)
    case Stopped => p.sends != [] && StopsAll(p.sends[|p.sends| - 1].answer) && due == Some(globalUntil) && globalUntil > start
    case _ =>
      && (p.sends != [] ==> !StopsAll(p.sends[|p.sends| - 1].answer))
      && p.seen <= |ScopeOrder(p.pending)| && (p.end.Complete? ==> p.seen == |ScopeOrder(p.pending)|)
      && DueByWaits(due, ScopeOrder(p.pending)[..p.seen], waits, start)
  }

  /** What the pass says is left: the pending files, none when it could not list them. */
  ghost predicate LeftAfter(p: Pass, remaining: nat, fs: Fs, faults: bool)
    requires fs.WellFormed()
  {
    && remaining == |p.left| && DistinctNames(p.left) && PendingEntries(fs, p.left)
    && (AllPending(fs, p.left) || faults)
  }

  lemma WhereAfter(p: Pass, fs: Fs, history: seq<Sent>, faults: bool, faults': bool)
    requires PassDone(p, fs, history) && Where(p.listed, fs, p.sends, 0, SentNames(p.sends), faults) && (faults ==> faults')
    ensures Where(p.listed, fs, p.sends, 0, SentNames(p.sends), faults')
  {
    WhereMore(p.listed, fs, p.sends, 0, SentNames(p.sends), SentNames(p.sends), faults, faults');
  }

  ghost predicate BoundsFirst(a: Fs, p: Pass) {
    && a.WellFormed() && p.bounds.listed.WellFormed() && p.bounded.WellFormed()
    && Quarantines(a, p.bounds.listed) && Drops(p.bounds.listed, p.bounded, p.bounds.gonePending, p.bounds.goneRejected)
  }

  /** What a pass keeps to: each scope's sends are its first files in order, all but the last
      settled; each carries the file's bytes; only the last send can stop everything; and a file
      leaves spool/ only for a cause. */
  ghost predicate PassDone(p: Pass, fs: Fs, history: seq<Sent>) {
    && p.bounded.WellFormed() && p.listed.WellFormed() && fs.WellFormed()
    && Quarantines(p.bounded, p.listed) && PendingEntries(p.listed, p.pending) && Sorted(p.pending) && DistinctNames(p.pending)
    && Verbatim(p.listed, p.sends)
    && (p.clean ==> forall key :: InOrder(ForScope(p.sends, key), OfScope(p.pending, key)))
    && (forall i :: 0 <= i < |p.sends| - 1 ==> !StopsAll(p.sends[i].answer))
    && Leaves(p.listed, fs, p.why) && Justified(p.listed, p.why, history)
  }

  lemma NothingSent(fs: Fs, history: seq<Sent>, n: nat)
    requires fs.WellFormed() && n == Accepts([])
    ensures n == 0 && history + [] == history && PendingEntries(fs, [])
  {}

  lemma PassLists(p: Pass, fs: Fs, history: seq<Sent>, end: PassEnd, left: seq<Entry>) returns (p': Pass)
    requires p.bounded.WellFormed() && fs.WellFormed() && Quarantines(p.bounded, fs) && p.pending == [] && p.sends == [] && p.why == map[]
    ensures p' == p.(listed := fs, end := end, left := left) && PassDone(p', fs, history)
  {
    p' := p.(listed := fs, end := end, left := left);
  }

  lemma PassSends(p: Pass, listed: Fs, b: Fs, fs: Fs, history: seq<Sent>, pending: seq<Entry>, sends: seq<Sent>, why: map<Name, Cause>,
                  clean: bool, turn: Turn, seen: nat, left: seq<Entry>)
    returns (p': Pass)
    requires p.bounded.WellFormed() && listed.WellFormed() && b.WellFormed() && fs.WellFormed()
    requires Quarantines(p.bounded, listed) && PendingEntries(listed, pending) && Sorted(pending) && DistinctNames(pending)
    requires Verbatim(listed, sends) && StopsAtEnd(sends, turn) && (clean ==> forall key :: InOrder(ForScope(sends, key), OfScope(pending, key)))
    requires Leaves(listed, b, why) && Justified(listed, why, history) && Quarantines(b, fs)
    ensures p' == p.(listed := listed, pending := pending, sends := sends, why := p'.why, clean := clean, end := EndOf(turn), seen := seen, left := left)
    ensures PassDone(p', fs, history)
  {
    hide Quarantines, PendingEntries, Sorted, DistinctNames, Verbatim, InOrder, ForScope, OfScope, StopsAll;
    LeavesListing(listed, b, fs, why, history);
    p' := p.(listed := listed, pending := pending, sends := sends, why := why + PurgeCauses(b, fs, 0), clean := clean, end := EndOf(turn), seen := seen,
            left := left);
  }

  function EndOf(turn: Turn): PassEnd {
    match turn
    case Stop => Stopped
    case Cancel => Interrupted
    case _ => Complete
  }

  /** No snapshot leaves spool/ in a pass but by the bounds, or because the journal accepted its
      exact bytes, refused them for good, or has erased its subject. */
  lemma EveryLossHasItsCause(a: Fs, p: Pass, fs: Fs, history: seq<Sent>, n: Name)
    requires BoundsFirst(a, p) && PassDone(p, fs, history)
    requires n in a.pending.live && IsSnapshotFile(n, a.Data(Pending, n)) && n !in fs.pending.live
    ensures n in p.bounds.gonePending
            || (n in p.why && !p.why[n].NoSnapshot? && CauseHolds(n, a.Data(Pending, n), p.why[n], history))
  {
    hide Verbatim, InOrder, ForScope, OfScope, StopsAll, Sorted, DistinctNames, PendingEntries, AcceptedBy, RefusedBy, ErasedBy, NamesSubject, Where;
  }

  /** A send of exactly what was listed. */
  ghost predicate IsSend(x: Sent, e: Entry, a: Answer, start: int, listed: Fs)
    requires listed.WellFormed()
  {
    && x.name == e.name && x.key == e.key && x.answer == a && x.start == start
    && e.name in listed.pending.live && x.body == listed.Data(Pending, e.name)
  }

  /** A scope waits after a pass only when its last answer blocked it. */
  ghost predicate WaitsFor(a: Answer, key: ScopeKey, waits: map<ScopeKey, ScopeBackoff>, start: int) {
    if Blocks(a) then key in waits && waits[key].until > start else key in waits ==> waits[key].until <= start
  }

  /** The waits of the other scopes are as they were. */
  ghost predicate OthersWait(before: map<ScopeKey, ScopeBackoff>, after: map<ScopeKey, ScopeBackoff>, key: ScopeKey) {
    forall k :: k != key ==> (k in after <==> k in before) && (k in after ==> after[k] == before[k])
  }

  lemma HereFewer(a: Fs, b: Fs, all: seq<Entry>, done: set<Name>, erased: set<string>, e: Entry, why: map<Name, Cause>, history: seq<Sent>)
    requires a.WellFormed() && b.WellFormed()
    ensures Progress(a, b, all, done, erased, why, history) ==> Progress(a, b, all, done + {e.name}, erased, why, history)
    ensures Progress(a, b, all, done + {e.name}, erased, why, history) ==> Progress(a, b, all, done + {e.name}, erased + {e.subject}, why, history)
  {}

  lemma BodyIsListed(a: Fs, b: Fs, why: map<Name, Cause>, all: seq<Entry>, done: set<Name>, erased: set<string>, e: Entry, history: seq<Sent>)
    requires a.WellFormed() && b.WellFormed() && Progress(a, b, all, done, erased, why, history)
    requires e in all && e.name !in done && !(e.subject != "" && e.subject in erased)
    ensures e.name in b.pending.live && e.name in a.pending.live && b.Data(Pending, e.name) == a.Data(Pending, e.name)
  {}

  lemma SettleEffect(b: Fs, c: Fs, n: Name, accepted: bool)
    requires if accepted then RemoveState(b, c, Pending, n) else MoveState(b, c, n)
    ensures c.files == b.files && (c.pending.live == b.pending.live || c.pending.live == b.pending.live - {n})
  {}

  predicate AllOfScope(seg: seq<Sent>, key: ScopeKey) {
    forall i :: 0 <= i < |seg| ==> seg[i].key == key
  }

  /** How many sends the journal accepted. */
  function Accepts(sends: seq<Sent>): nat {
    if sends == [] then 0
    else
      var x := sends[|sends| - 1].answer;
      Accepts(sends[..|sends| - 1]) + (if AcceptedBy(x) then 1 else 0)
  }

  /** As many answers accept a file. */
  lemma {:induction false} AcceptsAre(sends: seq<Sent>)
    ensures Accepts(sends) == |set i | 0 <= i < |sends| && AcceptedBy(sends[i].answer)|
  {
    hide AcceptedBy;
    var all := set i | 0 <= i < |sends| && AcceptedBy(sends[i].answer);
    if sends == [] {
      assert all == {};
    } else {
      var init, n := sends[..|sends| - 1], |sends| - 1;
      AcceptsAre(init);
      assert forall i :: 0 <= i < n ==> init[i] == sends[i];
      assert all == (set i | 0 <= i < |init| && AcceptedBy(init[i].answer)) + (if AcceptedBy(sends[n].answer) then {n} else {});
    }
  }

  /** Only a last send can ask everything to stop, and then the turn says so. */
  ghost predicate StopsLast(seg: seq<Sent>, turn: Turn) {
    && (forall i :: 0 <= i < |seg| - 1 ==> Settles(seg[i].answer))
    && (turn.Stop? <==> seg != [] && StopsAll(seg[|seg| - 1].answer))
  }

  ghost predicate SoFar(listed: Fs, es: seq<Entry>, i: nat, seg: seq<Sent>, key: ScopeKey, clean: bool)
    requires listed.WellFormed()
  {
    && i <= |es| && Verbatim(listed, seg) && AllOfScope(seg, key)
    && (forall j :: 0 <= j < |seg| ==> Settles(seg[j].answer))
    && (clean ==> |seg| == i && forall j :: 0 <= j < |seg| ==> seg[j].name == es[j].name)
  }

  lemma ScopeBegins(listed: Fs, es: seq<Entry>, waits: map<ScopeKey, ScopeBackoff>, key: ScopeKey, h: seq<Sent>)
    requires listed.WellFormed()
    ensures SoFar(listed, es, 0, [], key, true) && OthersWait(waits, waits, key) && Verbatim(listed, [])
    ensures es[..0] == [] && Names([]) == {} && h + [] == h && Accepts([]) == 0 && !Blocks(Cancelled)
  {}

  lemma OthersWaitTrans(a: map<ScopeKey, ScopeBackoff>, b: map<ScopeKey, ScopeBackoff>, c: map<ScopeKey, ScopeBackoff>, key: ScopeKey)
    requires OthersWait(a, b, key) && OthersWait(b, c, key)
    ensures OthersWait(a, c, key)
  {}

  lemma NotDone(es: seq<Entry>, i: nat, done: set<Name>)
    requires i < |es| && DistinctNames(es) && es[i].name !in done
    ensures es[i].name !in done + Names(es[..i]) && Names(es[..i]) <= Names(es)
    ensures Names(es[..i + 1]) == Names(es[..i]) + {es[i].name} && Names(es[..i + 1]) <= Names(es)
  {}

  function One(read: bool, x: Sent): seq<Sent> {
    if read then [x] else []
  }

  /** What a scope's turn has done when it ends. Without an I/O error the sends are the scope's
      first files in order, and all of them when nothing made it stop. */
  ghost predicate ScopeDone(listed: Fs, es: seq<Entry>, seg: seq<Sent>, key: ScopeKey, clean: bool, turn: Turn)
    requires listed.WellFormed()
  {
    && Verbatim(listed, seg) && AllOfScope(seg, key) && StopsLast(seg, turn)
    && (clean ==> InOrder(seg, es) && (turn.Next? ==> |seg| == |es|))
  }

  lemma WaitsSame(waits: map<ScopeKey, ScopeBackoff>, key: ScopeKey)
    ensures OthersWait(waits, waits, key)
  {}

  lemma SoFarStep(listed: Fs, es: seq<Entry>, i: nat, seg: seq<Sent>, key: ScopeKey, clean: bool, x: Sent,
                  e: Entry, a: Answer, start: int)
    requires listed.WellFormed() && SoFar(listed, es, i, seg, key, clean) && i < |es| && e == es[i] && e.key == key
    requires IsSend(x, e, a, start, listed)
    ensures TurnOf(a).Next? ==> SoFar(listed, es, i + 1, seg + [x], key, clean) && !Blocks(a)
    ensures !TurnOf(a).Next? ==> ScopeDone(listed, es, seg + [x], key, clean, TurnOf(a))
    ensures x.answer == a && Accepts(seg + [x]) == Accepts(seg) + (if ActionOf(a).Delete? && !a.Cancelled? then 1 else 0)
  {
    AnswerMeans(a);
  }

  lemma SoFarEnds(listed: Fs, es: seq<Entry>, i: nat, seg: seq<Sent>, key: ScopeKey, clean: bool)
    requires listed.WellFormed() && SoFar(listed, es, i, seg, key, clean)
    ensures forall turn: Turn :: !turn.Stop? && (turn.Next? ==> i == |es|) ==> ScopeDone(listed, es, seg, key, clean, turn)
  {}

  lemma SoFarSkip(listed: Fs, es: seq<Entry>, i: nat, seg: seq<Sent>, key: ScopeKey, clean: bool)
    requires listed.WellFormed() && i < |es| && SoFar(listed, es, i, seg, key, clean)
    ensures SoFar(listed, es, i + 1, seg, key, false) && TurnOf(Cancelled).Cancel? && !Blocks(Cancelled) && !Erases(Cancelled)
  {}

  // ---- A whole pass ----

  /** The earlier of two times; None is never. */
  function Earliest(a: Option<int>, b: Option<int>): Option<int> {
    match (a, b)
    case (None, _) => b
    case (_, None) => a
    case (Some(x), Some(y)) => if y < x then b else a
  }

  /** When a scope's wait ends, if it waits beyond a time. */
  function WaitOf(waits: map<ScopeKey, ScopeBackoff>, key: ScopeKey, start: int): Option<int> {
    if key in waits && waits[key].until > start then Some(waits[key].until) else None
  }

  /** The next pass is due when the first of these scopes' waits ends, and not at all when none waits. */
  ghost predicate DueByWaits(due: Option<int>, keys: seq<ScopeKey>, waits: map<ScopeKey, ScopeBackoff>, start: int) {
    && (forall k :: k in keys && k in waits && waits[k].until > start ==> due.Some? && due.value <= waits[k].until)
    && (due.Some? ==> exists k :: k in keys && k in waits && waits[k].until == due.value > start)
  }

  lemma DueStep(was: Option<int>, until: Option<int>, order: seq<ScopeKey>, i: nat, before: map<ScopeKey, ScopeBackoff>,
                after: map<ScopeKey, ScopeBackoff>, start: int)
    requires i < |order| && order[i] !in order[..i] && DueByWaits(was, order[..i], before, start) && OthersWait(before, after, order[i])
    requires until == WaitOf(after, order[i], start)
    ensures DueByWaits(Earliest(was, until), order[..i + 1], after, start)
  {
    var due, keys := Earliest(was, until), order[..i + 1];
    assert keys == order[..i] + [order[i]];
    forall k | k in order[..i] ensures WaitOf(after, k, start) == WaitOf(before, k, start) {}
    if due.Some? {
      if due == until {
        assert order[i] in keys && WaitOf(after, order[i], start) == due;
      } else {
        var k :| k in order[..i] && WaitOf(before, k, start) == was;
        assert k in keys && WaitOf(after, k, start) == due;
      }
    }
  }

  lemma ScopeDoneIs(listed: Fs, es: seq<Entry>, seg: seq<Sent>, key: ScopeKey, ordered: bool, turn: Turn)
    requires listed.WellFormed() && ScopeDone(listed, es, seg, key, ordered, turn)
    ensures Verbatim(listed, seg) && AllOfScope(seg, key) && StopsLast(seg, turn) && (ordered ==> InOrder(seg, es))
  {}

  lemma StopsLeaving(pass: seq<Sent>, turn: Turn)
    requires StopsAtEnd(pass, turn)
    ensures StopsAtEnd(pass, if turn.LeaveScope? then Next else turn)
  {}

  /** An answer that stops everything is the last of its pass. */
  ghost predicate StopsAtEnd(pass: seq<Sent>, turn: Turn) {
    && (forall i :: 0 <= i < |pass| - 1 ==> !StopsAll(pass[i].answer))
    && (turn.Stop? <==> pass != [] && StopsAll(pass[|pass| - 1].answer))
  }

  /** A pass that has dealt with the first `i` scopes. */
  ghost predicate PassSoFar(listed: Fs, all: seq<Entry>, order: seq<ScopeKey>, i: nat, pass: seq<Sent>, clean: bool, done: set<Name>)
    requires listed.WellFormed()
  {
    && i <= |order| && order == ScopeOrder(all) && Verbatim(listed, pass) && PendingEntries(listed, all)
    && Sorted(all) && DistinctNames(all)
    && (forall j :: 0 <= j < |pass| ==> !StopsAll(pass[j].answer))
    && (forall j :: 0 <= j < |pass| ==> pass[j].key in order[..i])
    && (clean ==> forall key :: InOrder(ForScope(pass, key), OfScope(all, key)))
    && (forall e :: e in all && e.name in done ==> e.key in order[..i])
  }

  lemma PassStarts(listed: Fs, all: seq<Entry>, waits: map<ScopeKey, ScopeBackoff>, start: int, h: seq<Sent>)
    requires listed.WellFormed() && PendingEntries(listed, all) && Sorted(all) && DistinctNames(all)
    ensures PassSoFar(listed, all, ScopeOrder(all), 0, [], true, {}) && DueByWaits(None, ScopeOrder(all)[..0], waits, start)
    ensures h + [] == h && Accepts([]) == 0 && Verbatim(listed, [])
  {}

  lemma PassSoFarEnds(listed: Fs, all: seq<Entry>, order: seq<ScopeKey>, i: nat, pass: seq<Sent>, clean: bool, done: set<Name>)
    requires listed.WellFormed() && PassSoFar(listed, all, order, i, pass, clean, done)
    ensures Verbatim(listed, pass) && StopsAtEnd(pass, Next) && order == ScopeOrder(all)
    ensures clean ==> forall key :: InOrder(ForScope(pass, key), OfScope(all, key))
  {}

  lemma PassSkip(listed: Fs, all: seq<Entry>, order: seq<ScopeKey>, i: nat, pass: seq<Sent>, clean: bool, done: set<Name>)
    requires listed.WellFormed() && PassSoFar(listed, all, order, i, pass, clean, done) && i < |order|
    ensures PassSoFar(listed, all, order, i + 1, pass, clean, done)
  {}

  lemma NotAmongEarlier(all: seq<Entry>, i: nat)
    requires i < |ScopeOrder(all)|
    ensures ScopeOrder(all)[i] !in ScopeOrder(all)[..i]
  {}

  lemma NextScope(listed: Fs, all: seq<Entry>, order: seq<ScopeKey>, i: nat, pass: seq<Sent>, clean: bool, done: set<Name>)
    requires listed.WellFormed() && PassSoFar(listed, all, order, i, pass, clean, done) && i < |order|
    ensures DistinctNames(OfScope(all, order[i]))
    ensures forall e :: e in OfScope(all, order[i]) ==> e in all && e.key == order[i] && e.name !in done
  {
    OfScopeKeepsOrder(all, order[i]);
    NotAmongEarlier(all, i);
    forall e | e in OfScope(all, order[i]) ensures e in all && e.key == order[i] && e.name !in done {
      OfScopeHas(all, order[i], e);
    }
  }

  lemma {:induction false} ForScopeConcat(a: seq<Sent>, b: seq<Sent>, key: ScopeKey)
    ensures ForScope(a + b, key) == ForScope(a, key) + ForScope(b, key)
  {
    if a == [] {
      assert a + b == b;
    } else {
      assert (a + b)[0] == a[0] && (a + b)[1..] == a[1..] + b;
      ForScopeConcat(a[1..], b, key);
    }
  }

  lemma {:induction false} ForScopeAll(seg: seq<Sent>, key: ScopeKey)
    requires AllOfScope(seg, key)
    ensures ForScope(seg, key) == seg
  {
    if seg != [] {
      ForScopeAll(seg[1..], key);
    }
  }

  lemma {:induction false} ForScopeNone(seg: seq<Sent>, key: ScopeKey)
    requires forall i :: 0 <= i < |seg| ==> seg[i].key != key
    ensures ForScope(seg, key) == []
  {
    if seg != [] {
      ForScopeNone(seg[1..], key);
    }
  }

  lemma {:induction false} AcceptsConcat(a: seq<Sent>, b: seq<Sent>)
    ensures Accepts(a + b) == Accepts(a) + Accepts(b)
  {
    if b == [] {
      assert a + b == a;
    } else {
      var init := b[..|b| - 1];
      AcceptsConcat(a, init);
      assert (a + b)[..|a + b| - 1] == a + init;
    }
  }

  lemma PassStep(listed: Fs, all: seq<Entry>, order: seq<ScopeKey>, i: nat, pass: seq<Sent>, clean: bool, done: set<Name>,
                 seg: seq<Sent>, done': set<Name>, ordered: bool, turn: Turn)
    requires listed.WellFormed() && PassSoFar(listed, all, order, i, pass, clean, done) && i < |order|
    requires Verbatim(listed, seg) && AllOfScope(seg, order[i]) && (ordered ==> InOrder(seg, OfScope(all, order[i])))
    requires StopsLast(seg, turn) && done' <= done + Names(OfScope(all, order[i]))
    ensures !turn.Stop? ==> PassSoFar(listed, all, order, i + 1, pass + seg, clean && ordered, done')
    ensures Verbatim(listed, pass + seg) && Accepts(pass + seg) == Accepts(pass) + Accepts(seg) && StopsAtEnd(pass + seg, turn)
    ensures clean && ordered ==> forall key :: InOrder(ForScope(pass + seg, key), OfScope(all, key))
  {
    hide Sorted, DistinctNames, PendingEntries, ScopeOrder, ForScope, OfScope, Accepts, StopsAll, Settles, Names;
    AcceptsConcat(pass, seg);
    assert order[..i + 1] == order[..i] + [order[i]];
    PassStepOrder(listed, all, order, i, pass, clean, done, seg, ordered);
    PassStepStops(pass, seg, turn);
    forall e | e in all && e.name in done' ensures e.key in order[..i + 1] {
      StepDone(listed, all, order, i, pass, clean, done, done', e);
    }
  }

  lemma StepDone(listed: Fs, all: seq<Entry>, order: seq<ScopeKey>, i: nat, pass: seq<Sent>, clean: bool, done: set<Name>, done': set<Name>, e: Entry)
    requires listed.WellFormed() && PassSoFar(listed, all, order, i, pass, clean, done) && i < |order|
    requires done' <= done + Names(OfScope(all, order[i])) && e in all && e.name in done'
    ensures e.key in order[..i + 1]
  {
    assert order[..i + 1] == order[..i] + [order[i]];
    if e.name !in done {
      var x :| x in OfScope(all, order[i]) && x.name == e.name;
      OfScopeHas(all, order[i], x);
    }
  }

  lemma PassStepStops(pass: seq<Sent>, seg: seq<Sent>, turn: Turn)
    requires forall j :: 0 <= j < |pass| ==> !StopsAll(pass[j].answer)
    requires StopsLast(seg, turn)
    ensures StopsAtEnd(pass + seg, turn)
    ensures !turn.Stop? ==> forall j :: 0 <= j < |pass + seg| ==> !StopsAll((pass + seg)[j].answer)
  {}

  lemma PassStepOrder(listed: Fs, all: seq<Entry>, order: seq<ScopeKey>, i: nat, pass: seq<Sent>, clean: bool, done: set<Name>,
                      seg: seq<Sent>, ordered: bool)
    requires listed.WellFormed() && PassSoFar(listed, all, order, i, pass, clean, done) && i < |order|
    requires AllOfScope(seg, order[i]) && (ordered ==> InOrder(seg, OfScope(all, order[i])))
    ensures clean && ordered ==> forall key :: InOrder(ForScope(pass + seg, key), OfScope(all, key))
  {
    hide Sorted, DistinctNames, PendingEntries, ScopeOrder, ForScope, OfScope, InOrder, Verbatim;
    NotAmongEarlier(all, i);
    forall key ensures clean && ordered ==> InOrder(ForScope(pass + seg, key), OfScope(all, key)) {
      ForScopeConcat(pass, seg, key);
      if key == order[i] {
        ForScopeAll(seg, key);
        ForScopeNone(pass, key);
        assert [] + seg == seg;
      } else {
        ForScopeNone(seg, key);
        assert ForScope(pass, key) + [] == ForScope(pass, key);
      }
    }
  }
}
