/** Whole lives of a spool: any sequence of operations, cut short by a power loss at any file
    operation, and the recoveries that follow. */
module SpoolLife {
  import opened Options
  import opened FileSystem
  import opened SpoolEntries
  import opened Durability
  import opened SpoolState
  import opened RecordSpool

  /** What happens next: a caller's operation, files to delete or to reject being chosen from a
      listing, or the power coming back after it was lost, wherever that was, and a new process. */
  datatype Op =
    | Put(s: Snap, now: int, stamp: nat)
    | Enforce(now: int)
    | Purge(subject: string)
    | Delete(index: nat)
    | DeleteRejected(index: nat)
    | Reject(index: nat)
    | Refresh
    | Restart

  /** The account of a life so far: the snapshots whose Put succeeded, not counting those refused
      as erased; the names whose removal has begun; and those whose own move could not be made
      durable in rejected/. */
  datatype Account = Account(acked: Kept, begun: set<Name>, risky: set<Name>)

  /** How an operation ended: a Put stored its snapshot, or refused it as erased, or failed; or the
      removal of a chosen file was tried. */
  datatype Outcome = Stored | Dropped | NotStored | Removing(n: Name) | NoPut

  /** Every snapshot of the account is among the kept ones unless its removal has begun. */
  ghost predicate Accounted(acc: Account, kept: Kept, atRisk: set<Name>) {
    && atRisk <= acc.risky && kept.Keys <= acc.acked.Keys && acc.begun <= acc.acked.Keys
    && forall n :: n in acc.acked && n !in acc.begun && n !in acc.risky ==> n in kept && kept[n] == acc.acked[n]
  }

  ghost predicate Grown(acc: Account, acc': Account) {
    acc.begun <= acc'.begun && acc.risky <= acc'.risky && acc.acked.Keys <= acc'.acked.Keys
  }

  /** Why a removal began: the file was chosen for it, or its subject was purged, or it was over
      max_age, or what was listed was over max_bytes. */
  ghost predicate Begins(op: Op, out: Outcome, n: Name, c: Content, r: Enforcement, maxAge: nat, maxBytes: int) {
    match op
    case Put(_, now, _) => Listing(r) && (n.Canonical? ==> now - n.at > maxAge || Crowded(r, maxBytes))
    case Enforce(now) => Listing(r) && (n.Canonical? ==> now - n.at > maxAge || Crowded(r, maxBytes))
    case Purge(subject) => IsAbout(c, subject)
    case Delete(_) => out == Removing(n)
    case DeleteRejected(_) => out == Removing(n)
    case Reject(_) => false
    case Refresh => false
    case Restart => false
  }

  ghost predicate Listing(r: Enforcement) {
    r.listed.WellFormed() && PendingEntries(r.listed, r.pending) && RejectedEntries(r.listed, r.rejected)
  }

  /** An operation begins no removal without a reason. */
  ghost predicate NewBegun(acc: Account, acc': Account, op: Op, out: Outcome, r: Enforcement, maxAge: nat, maxBytes: int) {
    forall n :: n in acc'.begun && n !in acc.begun && n !in acc'.risky ==>
      n in acc'.acked && Begins(op, out, n, acc'.acked[n], r, maxAge, maxBytes)
  }

  /** What left the kept ones has begun to be removed. */
  ghost function Begun(acc: Account, acked: Kept, before: Kept, after: Kept, atRisk: set<Name>): Account {
    Account(acked, acc.begun + (before.Keys - after.Keys), acc.risky + atRisk)
  }

  ghost predicate NoNewRisk(spool: Spool, acc: Account, acc': Account)
    reads spool
  {
    spool.disk.reliable ==> acc'.risky == acc.risky
  }

  lemma BeginsDue(acc: Account, acked: Kept, before: Kept, after: Kept, atRisk: set<Name>, op: Op, out: Outcome, now: int,
                  r: Enforcement, maxAge: nat, maxBytes: int)
    requires Accounted(acc.(acked := acked), before, {}) && KeptWithout(before, after, r.tried)
    requires Listing(r) && DueTo(r, now, maxAge, maxBytes) && ((op.Put? || op.Enforce?) && op.now == now)
    ensures NewBegun(acc, Begun(acc, acked, before, after, atRisk), op, out, r, maxAge, maxBytes)
  {
    hide PendingEntries, RejectedEntries, DueTo, Crowded;
    forall n | n in before && n !in after ensures Begins(op, out, n, acked[n], r, maxAge, maxBytes) {
      if n.Canonical? {
        DueByName(r, now, maxAge, maxBytes, n);
      }
    }
  }

  lemma BeginsPurge(acc: Account, before: Kept, after: Kept, risks: set<Name>, atRisk: set<Name>, op: Op, out: Outcome, r: Enforcement,
                    maxAge: nat, maxBytes: int)
    requires Accounted(acc, before, risks) && op.Purge?
    requires forall n :: n in before && n !in after && n !in atRisk ==> IsAbout(before[n], op.subject)
    ensures NewBegun(acc, Begun(acc, acc.acked, before, after, atRisk), op, out, r, maxAge, maxBytes)
  {}

  /** The names of the snapshots still to be put are new, and no two are the same. */
  ghost predicate FreshPuts(ops: seq<Op>, taken: set<Name>) {
    && (forall i :: 0 <= i < |ops| && ops[i].Put? ==> NameOf(ops[i].s) !in taken)
    && (forall i, j :: 0 <= i < j < |ops| && ops[i].Put? && ops[j].Put? ==> NameOf(ops[i].s) != NameOf(ops[j].s))
  }

  ghost function NewName(op: Op): set<Name> {
    if op.Put? then {NameOf(op.s)} else {}
  }

  /** The names a spool knows. */
  ghost function Taken(fs: Fs, kept: Kept, atRisk: set<Name>): set<Name> {
    Files(fs) + kept.Keys + atRisk
  }

  /** The snapshots of the account are each whole, byte for byte, in exactly one directory. */
  ghost predicate AllThere(acc: Account, fs: Fs)
    requires fs.WellFormed()
  {
    forall n :: n in acc.acked && n !in acc.begun && n !in acc.risky ==>
      && (n in fs.pending.live <==> n !in fs.rejected.live)
      && (n in fs.pending.live ==> fs.Data(Pending, n) == acc.acked[n])
      && (n in fs.rejected.live ==> fs.Data(Rejected, n) == acc.acked[n])
  }

  // ---- One process ----

  method ApplyPut(spool: Spool, op: Op, ghost acc: Account) returns (out: Outcome, ghost acc': Account, ghost r: Enforcement)
    requires spool.Valid() && Accounted(acc, spool.kept, spool.atRisk) && op.Put?
    requires NameOf(op.s) !in Taken(spool.disk.fs, spool.kept, spool.atRisk) && NameOf(op.s) !in acc.acked
    modifies spool, spool.disk
    ensures spool.Valid() && Accounted(acc', spool.kept, spool.atRisk) && Grown(acc, acc')
    ensures Taken(spool.disk.fs, spool.kept, spool.atRisk) <= old(Taken(spool.disk.fs, spool.kept, spool.atRisk)) + {NameOf(op.s)}
    ensures !out.Removing? && acc'.acked == if out.Stored? then acc.acked[NameOf(op.s) := Whole(op.s)] else acc.acked
    ensures NewBegun(acc, acc', op, out, r, spool.maxAge, spool.maxBytes) && NoNewRisk(spool, acc, acc')
  {
    hide InRange, Finished, CrashSafe, LiveSafe, CacheMatches, NothingAbout, NoTemp, Apart, Adds, Quarantines, Drops, Enforced,
      PendingEntries, RejectedEntries, Files, Names, DueTo, Begins;
    var s := op.s;
    FreshIsNowhere(spool.disk.fs, spool.kept, spool.atRisk, NameOf(s));
    var err;
    ghost var written, bounded, before := spool.disk.fs, false, spool.kept;
    err, written, r, bounded := spool.Put(s, op.now, op.stamp);
    out := if err then NotStored else if Refused(s, spool.erased) then Dropped else Stored;
    acc' := acc.(risky := acc.risky + spool.atRisk);
    if out.Stored? {
      ghost var acked := acc.acked[NameOf(s) := Whole(s)];
      before := before[NameOf(s) := Whole(s)];
      acc' := Begun(acc, acked, before, spool.kept, spool.atRisk);
      BeginsDue(acc, acked, before, spool.kept, spool.atRisk, op, out, op.now, r, spool.maxAge, spool.maxBytes);
    }
  }

  /** Lists spool/ and picks a file of it. */
  method Pick(spool: Spool, index: nat, ghost acc: Account) returns (picked: Option<Entry>, ghost acc': Account)
    requires spool.Valid() && Accounted(acc, spool.kept, spool.atRisk)
    modifies spool`cache, spool`unreadable, spool`atRisk, spool.disk
    ensures spool.Valid() && Accounted(acc', spool.kept, spool.atRisk) && acc' == acc.(risky := acc.risky + spool.atRisk)
    ensures picked.Some? ==> picked.value.name in Files(spool.disk.fs) && picked.value.name.Canonical? && !picked.value.rejected
    ensures Taken(spool.disk.fs, spool.kept, spool.atRisk) <= old(Taken(spool.disk.fs, spool.kept, spool.atRisk))
  {
    hide InRange, Finished, CrashSafe, LiveSafe, CacheMatches, NothingAbout, NoTemp, Apart, Quarantines, PendingEntries,
      Sorted, DistinctNames, AllPending, Files, NewRisks, ReadApart;
    ghost var a, risks := spool.disk.fs, spool.atRisk;
    var ok, es;
    ghost var all;
    ok, es, all := spool.ListPendingLocked();
    RisksAreFiles(a, risks, spool.atRisk);
    acc' := acc.(risky := acc.risky + spool.atRisk);
    picked := None;
    if index < |es| {
      ListedIsFile(spool.disk.fs, es, index);
      picked := Some(es[index]);
    }
  }

  lemma NoReason(acc: Account, acc': Account, op: Op, out: Outcome, r: Enforcement, maxAge: nat, maxBytes: int)
    requires acc'.begun == acc.begun
    ensures NewBegun(acc, acc', op, out, r, maxAge, maxBytes)
  {}

  /** Deletes one of the listed pending files. */
  method ApplyDelete(spool: Spool, op: Op, ghost acc: Account) returns (out: Outcome, ghost acc': Account, ghost r: Enforcement)
    requires spool.Valid() && Accounted(acc, spool.kept, spool.atRisk) && op.Delete?
    modifies spool, spool.disk
    ensures spool.Valid() && Accounted(acc', spool.kept, spool.atRisk) && Grown(acc, acc') && acc'.acked == acc.acked
    ensures !out.Stored? && NewBegun(acc, acc', op, out, r, spool.maxAge, spool.maxBytes) && NoNewRisk(spool, acc, acc')
    ensures Taken(spool.disk.fs, spool.kept, spool.atRisk) <= old(Taken(spool.disk.fs, spool.kept, spool.atRisk))
  {
    hide InRange, Finished, CrashSafe, LiveSafe, CacheMatches, NothingAbout, NoTemp, Apart, RemoveState, Files;
    out, r := NoPut, Enforcement(spool.disk.fs, [], [], map[], {}, {}, {});
    var picked;
    picked, acc' := Pick(spool, op.index, acc);
    if picked.Some? {
      var e := picked.value;
      ghost var b, before := spool.disk.fs, spool.kept;
      var ok := spool.Delete(e);
      RemoveAddsNoFile(b, spool.disk.fs, Pending, e.name);
      out, acc' := Removing(e.name), Begun(acc', acc.acked, before, spool.kept, spool.atRisk);
    }
  }

  /** Rejects one of the listed pending files. */
  method ApplyReject(spool: Spool, op: Op, ghost acc: Account) returns (ghost acc': Account, ghost r: Enforcement)
    requires spool.Valid() && Accounted(acc, spool.kept, spool.atRisk) && op.Reject?
    modifies spool, spool.disk
    ensures spool.Valid() && Accounted(acc', spool.kept, spool.atRisk) && Grown(acc, acc') && acc'.acked == acc.acked
    ensures NewBegun(acc, acc', op, NoPut, r, spool.maxAge, spool.maxBytes) && NoNewRisk(spool, acc, acc')
    ensures Taken(spool.disk.fs, spool.kept, spool.atRisk) <= old(Taken(spool.disk.fs, spool.kept, spool.atRisk))
  {
    hide InRange, Finished, CrashSafe, LiveSafe, CacheMatches, NothingAbout, NoTemp, Apart, MoveState, Files;
    r := Enforcement(spool.disk.fs, [], [], map[], {}, {}, {});
    var picked;
    picked, acc' := Pick(spool, op.index, acc);
    if picked.Some? {
      var e := picked.value;
      ghost var b := spool.disk.fs;
      var ok := spool.Reject(e);
      MoveAddsNoFile(b, spool.disk.fs, e.name);
      acc' := acc'.(risky := acc'.risky + spool.atRisk);
    }
    NoReason(acc, acc', op, NoPut, r, spool.maxAge, spool.maxBytes);
  }

  /** Recounts the spool, as every operation does when it is over. */
  method ApplyRefresh(spool: Spool, op: Op, ghost acc: Account) returns (ghost acc': Account, ghost r: Enforcement)
    requires spool.Valid() && Accounted(acc, spool.kept, spool.atRisk) && op.Refresh?
    modifies spool, spool.disk
    ensures spool.Valid() && Accounted(acc', spool.kept, spool.atRisk) && Grown(acc, acc') && acc'.acked == acc.acked
    ensures NewBegun(acc, acc', op, NoPut, r, spool.maxAge, spool.maxBytes) && NoNewRisk(spool, acc, acc')
    ensures Taken(spool.disk.fs, spool.kept, spool.atRisk) <= old(Taken(spool.disk.fs, spool.kept, spool.atRisk))
  {
    hide InRange, Finished, CrashSafe, LiveSafe, CacheMatches, NothingAbout, NoTemp, Apart, Quarantines, PendingEntries, RejectedEntries,
      Sorted, Files, NewRisks, Total;
    ghost var a, risks := spool.disk.fs, spool.atRisk;
    r := Enforcement(a, [], [], map[], {}, {}, {});
    var ok, files, refused, bytes, oldest;
    ghost var pending, rejected;
    ok, files, refused, bytes, oldest, pending, rejected := spool.RefreshGauges();
    RisksAreFiles(a, risks, spool.atRisk);
    acc' := acc.(risky := acc.risky + spool.atRisk);
    NoReason(acc, acc', op, NoPut, r, spool.maxAge, spool.maxBytes);
  }

  method ApplyRejected(spool: Spool, op: Op, ghost acc: Account) returns (out: Outcome, ghost acc': Account, ghost r: Enforcement)
    requires spool.Valid() && Accounted(acc, spool.kept, spool.atRisk) && op.DeleteRejected?
    modifies spool, spool.disk
    ensures spool.Valid() && Accounted(acc', spool.kept, spool.atRisk) && Grown(acc, acc') && acc'.acked == acc.acked
    ensures !out.Stored? && NewBegun(acc, acc', op, out, r, spool.maxAge, spool.maxBytes) && NoNewRisk(spool, acc, acc')
    ensures Taken(spool.disk.fs, spool.kept, spool.atRisk) <= old(Taken(spool.disk.fs, spool.kept, spool.atRisk))
  {
    hide InRange, Finished, CrashSafe, LiveSafe, CacheMatches, NothingAbout, NoTemp, Apart, PendingEntries, RejectedEntries,
      Sorted, DistinctNames, AllRejected, RemoveState, Files, Names;
    ghost var a, before := spool.disk.fs, spool.kept;
    out, acc', r := NoPut, acc, Enforcement(a, [], [], map[], {}, {}, {});
    var ok, es;
    ghost var all;
    ok, es, all := spool.ListRejectedLocked();
    if op.index < |es| {
      var e := es[op.index];
      NoneRejected(a);
      NotTemp(a, [], es);
      ok := spool.Delete(e);
      RemoveAddsNoFile(a, spool.disk.fs, if e.rejected then Rejected else Pending, e.name);
      out, acc' := Removing(e.name), Begun(acc, acc.acked, before, spool.kept, spool.atRisk);
    }
  }

  /** Enforces the bounds, or purges a subject. */
  method ApplyBounds(spool: Spool, op: Op, ghost acc: Account) returns (ghost acc': Account, ghost r: Enforcement)
    requires spool.Valid() && Accounted(acc, spool.kept, spool.atRisk) && (op.Enforce? || op.Purge?)
    modifies spool, spool.disk
    ensures spool.Valid() && Accounted(acc', spool.kept, spool.atRisk) && Grown(acc, acc') && acc'.acked == acc.acked
    ensures NewBegun(acc, acc', op, NoPut, r, spool.maxAge, spool.maxBytes) && NoNewRisk(spool, acc, acc')
    ensures Taken(spool.disk.fs, spool.kept, spool.atRisk) <= old(Taken(spool.disk.fs, spool.kept, spool.atRisk))
  {
    hide InRange, Finished, CrashSafe, LiveSafe, CacheMatches, NothingAbout, NoTemp, Apart, Quarantines, Drops, Enforced,
      PendingEntries, RejectedEntries, Files, Names, NewRisks, Purges, AboutNames, DueTo, Begins, NewBegun, IsAbout;
    ghost var a, risks, before := spool.disk.fs, spool.atRisk, spool.kept;
    r := Enforcement(a, [], [], map[], {}, {}, {});
    if op.Enforce? {
      var ok;
      ok, r := spool.EnforceLocked(op.now);
      BeginsDue(acc, acc.acked, before, spool.kept, spool.atRisk, op, NoPut, op.now, r, spool.maxAge, spool.maxBytes);
    } else {
      var count, err;
      ghost var readable, p;
      count, err, readable, p := spool.PurgeSubject(op.subject);
      BeginsPurge(acc, before, spool.kept, risks, spool.atRisk, op, NoPut, r, spool.maxAge, spool.maxBytes);
    }
    RisksAreFiles(a, risks, spool.atRisk);
    acc' := Begun(acc, acc.acked, before, spool.kept, spool.atRisk);
  }

  /** One operation of a caller. */
  method Apply(spool: Spool, op: Op, ghost acc: Account) returns (out: Outcome, ghost acc': Account, ghost r: Enforcement)
    requires spool.Valid() && Accounted(acc, spool.kept, spool.atRisk) && !op.Restart?
    requires NewName(op) !! Taken(spool.disk.fs, spool.kept, spool.atRisk) && NewName(op) !! acc.acked.Keys
    modifies spool, spool.disk
    ensures spool.Valid() && Accounted(acc', spool.kept, spool.atRisk) && Grown(acc, acc')
    ensures Taken(spool.disk.fs, spool.kept, spool.atRisk) <= old(Taken(spool.disk.fs, spool.kept, spool.atRisk)) + NewName(op)
    ensures out.Stored? ==> op.Put?
    ensures acc'.acked == if out.Stored? then acc.acked[NameOf(op.s) := Whole(op.s)] else acc.acked
    ensures NewBegun(acc, acc', op, out, r, spool.maxAge, spool.maxBytes) && NoNewRisk(spool, acc, acc')
  {
    hide InRange, Finished, CrashSafe, LiveSafe, CacheMatches, NothingAbout, NoTemp, Apart, Files, Accounted, Taken, NewBegun;
    out := NoPut;
    match op
    case Put(s, now, stamp) =>
      assert NameOf(s) in NewName(op);
      out, acc', r := ApplyPut(spool, op, acc);
    case Enforce(_) => acc', r := ApplyBounds(spool, op, acc);
    case Purge(_) => acc', r := ApplyBounds(spool, op, acc);
    case Delete(_) => out, acc', r := ApplyDelete(spool, op, acc);
    case Refresh => acc', r := ApplyRefresh(spool, op, acc);
    case DeleteRejected(_) => out, acc', r := ApplyRejected(spool, op, acc);
    case Reject(_) => acc', r := ApplyReject(spool, op, acc);
  }

  lemma FreshIsNowhere(fs: Fs, kept: Kept, atRisk: set<Name>, n: Name)
    requires n !in Taken(fs, kept, atRisk) && !n.Temp?
    ensures Nowhere(fs, n) && n !in kept && n !in atRisk
  {}

  lemma ListedIsFile(fs: Fs, es: seq<Entry>, i: nat)
    requires fs.WellFormed() && PendingEntries(fs, es) && i < |es|
    ensures es[i].name in Files(fs) && es[i].name.Canonical? && !es[i].rejected
  {
    assert es[i] in es;
  }

  lemma FreshRest(ops: seq<Op>, i: nat, taken: set<Name>, taken': set<Name>)
    requires i < |ops| && FreshPuts(ops[i..], taken) && taken' <= taken + NewName(ops[i])
    ensures FreshPuts(ops[i + 1..], taken')
  {}

  // ---- Power loss and recovery ----

  /** What recovery aims at depends only on what is durable. */
  lemma TargetIsDurable(a: Fs, b: Fs)
    requires a.WellFormed() && b.WellFormed()
    requires a.pending.durable.Keys == b.pending.durable.Keys && a.rejected.durable.Keys == b.rejected.durable.Keys
    requires forall n :: n in a.pending.durable ==> b.Durable(Pending, n) == a.Durable(Pending, n)
    requires forall n :: n in a.rejected.durable ==> b.Durable(Rejected, n) == a.Durable(Rejected, n)
    ensures TargetPending(b) == TargetPending(a) && TargetRejected(b) == TargetRejected(a)
  {
    hide IsSnapshotFile, InRange;
  }

  lemma CrashKeepsTarget(fs: Fs)
    requires Settled(fs)
    ensures fs.Crash().WellFormed() && Settled(fs.Crash()) && Files(fs.Crash()) <= Files(fs)
    ensures TargetPending(fs.Crash()) == TargetPending(fs) && TargetRejected(fs.Crash()) == TargetRejected(fs)
  {
    hide TargetPending, TargetRejected;
    TargetIsDurable(fs, fs.Crash());
  }

  /** The kept snapshots a power loss cannot touch. */
  ghost function Sure(kept: Kept, atRisk: set<Name>): Kept {
    map n | n in kept && n !in atRisk :: kept[n]
  }

  lemma CrashStart(fs: Fs, kept: Kept, atRisk: set<Name>)
    requires Settled(fs) && NoTemp(kept) && CrashSafe(fs, kept, atRisk)
    ensures var sure := Sure(kept, atRisk);
      Settled(fs.Crash()) && NoTemp(sure) && CrashSafe(fs.Crash(), sure, {}) && LiveSafe(fs.Crash(), sure, {})
  {
    CrashKeeps(fs, kept, atRisk);
  }

  /** The power comes back after it was lost anywhere, in recovery too, and a new process opens
      the spool. What recovery aims at is the same whether or not earlier recoveries were cut
      short, and when it completes it is there. */
  method Reopen(was: Spool) returns (spool: Spool, ok: bool, ghost clean: bool)
    requires was.Core()
    modifies was.disk
    ensures fresh(spool) && spool.Core() && spool.disk == was.disk && spool.maxAge == was.maxAge && spool.maxBytes == was.maxBytes
    ensures spool.kept == Sure(was.kept, was.atRisk)
    ensures Files(spool.disk.fs) <= old(Files(was.disk.fs)) && spool.atRisk <= old(Files(was.disk.fs))
    ensures TargetPending(spool.disk.fs) == TargetPending(old(was.disk.fs))
    ensures TargetRejected(spool.disk.fs) == TargetRejected(old(was.disk.fs))
    ensures ok ==> spool.Valid() && spool.disk.power && NoTempFile(spool.disk.fs)
    ensures ok && clean ==> Contents(spool.disk.fs, Pending) == TargetPending(old(was.disk.fs))
                            && Contents(spool.disk.fs, Rejected) == TargetRejected(old(was.disk.fs))
    ensures spool.disk.faults >= old(was.disk.faults) && ((ok && clean) || spool.disk.faults > old(was.disk.faults))
  {
    hide InRange, Finished, CrashSafe, LiveSafe, CacheMatches, NothingAbout, NoTemp, Apart, NoTempFile, TargetPending, TargetRejected,
      Contents, Files, Sure;
    CrashStart(was.disk.fs, was.kept, was.atRisk);
    CrashKeepsTarget(was.disk.fs);
    was.disk.PowerOn();
    spool := new Spool(was.disk, was.maxAge, was.maxBytes, Sure(was.kept, was.atRisk));
    clean := true;
    ok := was.disk.SyncDir(Pending);
    if ok {
      ok, clean := spool.Recover();
    }
  }

  /** Recovery cut short any number of times, by a power loss at any point of it: when a later one
      completes, the two directories hold what one uninterrupted recovery would have left. */
  method ReopenUntilDone(was: Spool, attempts: nat) returns (spool: Spool, ok: bool, ghost clean: bool)
    requires was.Core()
    modifies was.disk
    ensures ok ==> spool.Valid() && spool.disk == was.disk && NoTempFile(spool.disk.fs)
    ensures ok && clean ==> Contents(spool.disk.fs, Pending) == TargetPending(old(was.disk.fs))
                            && Contents(spool.disk.fs, Rejected) == TargetRejected(old(was.disk.fs))
  {
    hide InRange, Finished, CrashSafe, LiveSafe, CacheMatches, NothingAbout, NoTemp, Apart, NoTempFile, TargetPending, TargetRejected,
      Contents, Files, Sure;
    ghost var a := was.disk.fs;
    spool, ok, clean := Reopen(was);
    var i := 0;
    while !ok && i < attempts
      invariant spool.Core() && spool.disk == was.disk
      invariant TargetPending(spool.disk.fs) == TargetPending(a) && TargetRejected(spool.disk.fs) == TargetRejected(a)
      invariant ok ==> spool.Valid() && NoTempFile(spool.disk.fs)
      invariant ok && clean ==> Contents(spool.disk.fs, Pending) == TargetPending(a) && Contents(spool.disk.fs, Rejected) == TargetRejected(a)
    {
      spool, ok, clean := Reopen(spool);
      i := i + 1;
    }
  }

  lemma SureIsAccounted(acc: Account, kept: Kept, atRisk: set<Name>, later: set<Name>)
    requires Accounted(acc, kept, atRisk)
    ensures Accounted(acc.(risky := acc.risky + later), Sure(kept, atRisk), later)
  {}

  lemma SureIsTaken(fs: Fs, kept: Kept, atRisk: set<Name>, fs': Fs, later: set<Name>)
    requires Files(fs') <= Files(fs) && later <= Files(fs)
    ensures Taken(fs', Sure(kept, atRisk), later) <= Taken(fs, kept, atRisk)
  {}

  /** Whenever the power is on, every snapshot of the account is there. */
  lemma AccountedIsThere(acc: Account, fs: Fs, kept: Kept, atRisk: set<Name>)
    requires Settled(fs) && NoTemp(kept) && LiveSafe(fs, kept, atRisk) && Apart(fs) && Accounted(acc, kept, atRisk)
    ensures AllThere(acc, fs)
  {}

  /** A whole life: any operations and restarts in any order, the power being lost at any file
      operation, and a last restart. If its recovery completes, every snapshot whose Put succeeded
      and whose removal has not begun is whole in exactly one directory and no temp file is left.
      A removal begins only for a reason, and when the fsync of a directory fails only without
      power no file is ever at risk. */
  method Life(first: Spool, ops: seq<Op>)
    returns (spool: Spool, ok: bool, outs: seq<Outcome>, ghost acc: Account, ghost rs: seq<Enforcement>)
    requires first.Valid() && first.kept == map[] && first.atRisk == {}
    requires FreshPuts(ops, Files(first.disk.fs))
    modifies first, first.disk
    ensures spool.disk == first.disk && spool.Core()
    ensures |outs| == |ops| == |rs| && StoredAreAcked(ops, outs, acc.acked)
    ensures BegunForReason(ops, outs, rs, acc, first.maxAge, first.maxBytes)
    ensures first.disk.reliable ==> acc.risky == {}
    ensures ok ==> AllThere(acc, spool.disk.fs) && NoTempFile(spool.disk.fs) && spool.disk.power
  {
    hide InRange, Finished, CrashSafe, LiveSafe, CacheMatches, NothingAbout, NoTemp, Apart, Files, Accounted, AllThere, NoTempFile,
      StoredAreAcked, BegunForReason, FreshPuts, Taken, Sure, TargetPending, TargetRejected, Contents, NewName, NewBegun, Begun, Grown;
    spool, ok, outs, acc, rs := first, true, [], Account(map[], {}, {}), [];
    ghost var clean := true;
    LifeStarts(ops, first.disk.fs);
    assert ops[0..] == ops;
    NothingStored(first.maxAge, first.maxBytes);
    var i := 0;
    while i < |ops|
      invariant 0 <= i <= |ops|
      invariant spool.disk == first.disk && (spool == first || fresh(spool))
      invariant spool.maxAge == first.maxAge && spool.maxBytes == first.maxBytes
      invariant spool.Core() && (ok ==> spool.Valid()) && Accounted(acc, spool.kept, spool.atRisk)
      invariant FreshPuts(ops[i..], Taken(spool.disk.fs, spool.kept, spool.atRisk))
      invariant |outs| == i == |rs| && StoredAreAcked(ops[..i], outs, acc.acked)
      invariant BegunForReason(ops[..i], outs, rs, acc, first.maxAge, first.maxBytes)
      invariant first.disk.reliable ==> acc.risky == {}
    {
      ghost var fs, kept, risks, was := spool.disk.fs, spool.kept, spool.atRisk, acc;
      var out := NoPut;
      ghost var r := Enforcement(fs, [], [], map[], {}, {}, {});
      FreshNext(ops, i, Taken(fs, kept, risks), outs, acc.acked);
      if ops[i].Restart? {
        spool, ok, clean := Reopen(spool);
        SureIsAccounted(acc, kept, risks, spool.atRisk);
        SureIsTaken(fs, kept, risks, spool.disk.fs, spool.atRisk);
        acc := acc.(risky := acc.risky + spool.atRisk);
        NothingBegun(was, acc, ops[i], out, r, first.maxAge, first.maxBytes);
      } else if ok {
        out, acc, r := Apply(spool, ops[i], acc);
      } else {
        NothingBegun(was, acc, ops[i], out, r, first.maxAge, first.maxBytes);
      }
      StoredStep(ops, i, outs, was.acked, out, acc.acked);
      BegunStep(ops, i, outs, rs, was, out, r, acc, first.maxAge, first.maxBytes);
      outs, rs := outs + [out], rs + [r];
      FreshRest(ops, i, Taken(fs, kept, risks), Taken(spool.disk.fs, spool.kept, spool.atRisk));
      i := i + 1;
    }
    assert ops[..|ops|] == ops;
    ghost var kept, risks, was := spool.kept, spool.atRisk, acc;
    spool, ok, clean := Reopen(spool);
    SureIsAccounted(acc, kept, risks, spool.atRisk);
    acc := acc.(risky := acc.risky + spool.atRisk);
    RiskierIsFewer(ops, outs, rs, was, acc, first.maxAge, first.maxBytes);
    if ok {
      AccountedIsThere(acc, spool.disk.fs, spool.kept, spool.atRisk);
    }
  }

  /** The account holds exactly the snapshots whose Put stored them. */
  ghost predicate StoredAreAcked(ops: seq<Op>, outs: seq<Outcome>, acked: Kept)
    requires |outs| == |ops|
  {
    && (forall i :: 0 <= i < |ops| && outs[i].Stored? ==> ops[i].Put? && NameOf(ops[i].s) in acked && acked[NameOf(ops[i].s)] == Whole(ops[i].s))
    && (forall n :: n in acked ==> exists i :: 0 <= i < |ops| && outs[i].Stored? && ops[i].Put? && NameOf(ops[i].s) == n)
  }

  ghost predicate BegunForReason(ops: seq<Op>, outs: seq<Outcome>, rs: seq<Enforcement>, acc: Account, maxAge: nat, maxBytes: int)
    requires |ops| == |outs| == |rs|
  {
    forall n :: n in acc.begun && n !in acc.risky ==>
      n in acc.acked && exists i :: 0 <= i < |ops| && Begins(ops[i], outs[i], n, acc.acked[n], rs[i], maxAge, maxBytes)
  }

  lemma NothingStored(maxAge: nat, maxBytes: int)
    ensures StoredAreAcked([], [], map[]) && BegunForReason([], [], [], Account(map[], {}, {}), maxAge, maxBytes)
  {}

  lemma NothingBegun(acc: Account, acc': Account, op: Op, out: Outcome, r: Enforcement, maxAge: nat, maxBytes: int)
    requires acc'.begun == acc.begun && acc'.acked == acc.acked && acc.risky <= acc'.risky
    ensures NewBegun(acc, acc', op, out, r, maxAge, maxBytes) && Grown(acc, acc')
  {}

  lemma RiskierIsFewer(ops: seq<Op>, outs: seq<Outcome>, rs: seq<Enforcement>, acc: Account, acc': Account, maxAge: nat, maxBytes: int)
    requires |ops| == |outs| == |rs| && BegunForReason(ops, outs, rs, acc, maxAge, maxBytes)
    requires acc'.begun == acc.begun && acc'.acked == acc.acked && acc.risky <= acc'.risky
    ensures BegunForReason(ops, outs, rs, acc', maxAge, maxBytes)
  {}

  lemma BegunStep(ops: seq<Op>, i: nat, outs: seq<Outcome>, rs: seq<Enforcement>, was: Account, out: Outcome, r: Enforcement,
                  acc: Account, maxAge: nat, maxBytes: int)
    requires i < |ops| && |outs| == |rs| == i && BegunForReason(ops[..i], outs, rs, was, maxAge, maxBytes)
    requires NewBegun(was, acc, ops[i], out, r, maxAge, maxBytes) && Grown(was, acc)
    requires forall n :: n in was.acked ==> n in acc.acked && acc.acked[n] == was.acked[n]
    ensures BegunForReason(ops[..i + 1], outs + [out], rs + [r], acc, maxAge, maxBytes)
  {}

  lemma StoredStep(ops: seq<Op>, i: nat, outs: seq<Outcome>, was: Kept, out: Outcome, acked: Kept)
    requires i < |ops| && |outs| == i && StoredAreAcked(ops[..i], outs, was) && FreshPuts(ops, {})
    requires out.Stored? ==> ops[i].Put?
    requires acked == if out.Stored? then was[NameOf(ops[i].s) := Whole(ops[i].s)] else was
    ensures StoredAreAcked(ops[..i + 1], outs + [out], acked)
    ensures forall n :: n in was ==> n in acked && acked[n] == was[n]
  {
    var more, outs' := ops[..i + 1], outs + [out];
    assert more == ops[..i] + [ops[i]];
    forall j | 0 <= j < i && outs[j].Stored?
      ensures NameOf(ops[j].s) in acked && acked[NameOf(ops[j].s)] == Whole(ops[j].s) && ops[j].Put?
    {
      assert ops[..i][j] == ops[j];
    }
    forall n | n in acked
      ensures exists j :: 0 <= j < |more| && outs'[j].Stored? && more[j].Put? && NameOf(more[j].s) == n
      ensures n in was ==> acked[n] == was[n]
    {
      if n in was {
        var j :| 0 <= j < i && outs[j].Stored? && ops[..i][j].Put? && NameOf(ops[..i][j].s) == n;
        assert outs'[j] == outs[j] && more[j] == ops[..i][j] == ops[j];
      } else {
        assert outs'[i] == out && more[i] == ops[i];
      }
    }
  }

  lemma LifeStarts(ops: seq<Op>, fs: Fs)
    requires FreshPuts(ops, Files(fs))
    ensures FreshPuts(ops, Taken(fs, map[], {})) && FreshPuts(ops, {}) && Accounted(Account(map[], {}, {}), map[], {})
  {}

  lemma FreshNext(ops: seq<Op>, i: nat, taken: set<Name>, outs: seq<Outcome>, acked: Kept)
    requires i < |ops| && FreshPuts(ops[i..], taken) && FreshPuts(ops, {})
    requires |outs| == i && StoredAreAcked(ops[..i], outs, acked)
    ensures NewName(ops[i]) !! taken && NewName(ops[i]) !! acked.Keys
  {
    assert ops[i..][0] == ops[i];
  }
}
