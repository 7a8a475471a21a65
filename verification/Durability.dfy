/** What a power loss may and may not do to the spool, stated over the two directories. */
module Durability {
  import opened FileSystem
  import opened SpoolEntries

  type Kept = map<Name, Content>

  /** No file but a temp file holds part of a snapshot or content that is not yet durable. */
  ghost predicate Settled(fs: Fs) {
    && fs.WellFormed()
    && Finished(fs.files, fs.pending.live) && Finished(fs.files, fs.pending.durable)
    && Finished(fs.files, fs.rejected.live) && Finished(fs.files, fs.rejected.durable)
  }

  ghost predicate Finished(files: seq<File>, m: map<Name, nat>)
    requires InRange(m, |files|)
  {
    forall n :: n in m && !n.Temp? ==> files[m[n]].data == files[m[n]].synced && !files[m[n]].data.Torn?
  }

  /** A power loss now loses none of the kept files and leaves each whole. */
  ghost predicate CrashSafe(fs: Fs, kept: Kept, atRisk: set<Name>)
    requires fs.WellFormed()
  {
    forall n :: n in kept && n !in atRisk ==>
      && (n in fs.pending.durable || n in fs.rejected.durable)
      && (n in fs.pending.durable ==> fs.Durable(Pending, n) == kept[n])
      && (n in fs.rejected.durable ==> fs.Durable(Rejected, n) == kept[n])
  }

  /** Between two operations every kept file is there to be read, whole, and durable where it is. */
  ghost predicate LiveSafe(fs: Fs, kept: Kept, atRisk: set<Name>)
    requires fs.WellFormed()
  {
    forall n :: n in kept && n !in atRisk ==>
      && (n in fs.pending.live || n in fs.rejected.live)
      && (n in fs.pending.live ==> n in fs.pending.durable && fs.Data(Pending, n) == kept[n])
      && (n in fs.rejected.live ==> n in fs.rejected.durable && fs.Data(Rejected, n) == kept[n])
  }

  /** No file is in both directories. */
  ghost predicate Apart(fs: Fs) {
    forall n :: n in fs.pending.live && n in fs.rejected.live ==> n.Temp?
  }

  ghost predicate NoTemp(kept: Kept) {
    forall n :: n in kept ==> !n.Temp?
  }

  /** A kept file that is not at risk is in exactly one of the two directories, whole. */
  lemma KeptIsInExactlyOne(fs: Fs, kept: Kept, atRisk: set<Name>, n: Name)
    requires Settled(fs) && NoTemp(kept) && LiveSafe(fs, kept, atRisk) && Apart(fs)
    requires n in kept && n !in atRisk
    ensures n in fs.pending.live <==> n !in fs.rejected.live
    ensures n in fs.pending.live ==> fs.Data(Pending, n) == kept[n]
    ensures n in fs.rejected.live ==> fs.Data(Rejected, n) == kept[n]
  {}

  // ---- The file operations ----

  lemma CrashKeeps(fs: Fs, kept: Kept, atRisk: set<Name>)
    requires Settled(fs) && NoTemp(kept) && CrashSafe(fs, kept, atRisk)
    ensures Settled(fs.Crash())
    ensures CrashSafe(fs.Crash(), kept, atRisk) && LiveSafe(fs.Crash(), kept, atRisk)
  {}

  /** Creating, writing and syncing a temp file touches nothing else. */
  lemma TempFileKeeps(fs: Fs, g: Fs, kept: Kept, atRisk: set<Name>, tmp: Name)
    requires Settled(fs) && CrashSafe(fs, kept, atRisk) && NoTemp(kept) && tmp.Temp?
    requires |g.files| == |fs.files| + 1 && g.files[..|fs.files|] == fs.files
    requires g.pending == fs.pending.(live := fs.pending.live[tmp := |fs.files|]) && g.rejected == fs.rejected
    ensures Settled(g) && CrashSafe(g, kept, atRisk)
    ensures LiveSafe(fs, kept, atRisk) ==> LiveSafe(g, kept, atRisk)
  {
    assert forall i :: 0 <= i < |fs.files| ==> g.files[i] == g.files[..|fs.files|][i];
  }

  /** Renaming a finished temp file to a name that is nowhere, up to the directory sync. */
  lemma RenameKeeps(g: Fs, kept: Kept, atRisk: set<Name>, tmp: Name, n: Name)
    requires Settled(g) && CrashSafe(g, kept, atRisk) && NoTemp(kept)
    requires tmp.Temp? && tmp in g.pending.live && !n.Temp? && n !in kept
    requires g.Data(Pending, tmp) == g.files[g.pending.live[tmp]].synced && !g.Data(Pending, tmp).Torn?
    ensures Settled(g.Rename(tmp, n)) && CrashSafe(g.Rename(tmp, n), kept, atRisk)
    ensures LiveSafe(g, kept, atRisk) ==> LiveSafe(g.Rename(tmp, n), kept, atRisk)
  {}

  /** Making a directory durable keeps every kept file that is not at risk. For spool/ this
      needs that a file seen in rejected/ is durable there: the order of a move's two syncs. */
  lemma SyncKeeps(fs: Fs, kept: Kept, atRisk: set<Name>, w: Which)
    requires Settled(fs) && NoTemp(kept) && CrashSafe(fs, kept, atRisk) && LiveSafe(fs, kept, atRisk)
    ensures Settled(fs.SyncDir(w)) && CrashSafe(fs.SyncDir(w), kept, atRisk) && LiveSafe(fs.SyncDir(w), kept, atRisk)
  {}

  lemma RemoveKeeps(fs: Fs, kept: Kept, atRisk: set<Name>, w: Which, n: Name)
    requires Settled(fs) && CrashSafe(fs, kept, atRisk)
    ensures Settled(fs.Remove(w, n))
    ensures CrashSafe(fs.Remove(w, n), kept, atRisk)
    ensures LiveSafe(fs, kept, atRisk) && n !in kept ==> LiveSafe(fs.Remove(w, n), kept, atRisk)
    ensures LiveSafe(fs, kept, atRisk) && w == Pending && n in fs.rejected.live ==> LiveSafe(fs.Remove(w, n), kept, atRisk)
  {}

  /** A move, operation by operation: renamed, rejected/ durable, spool/ durable. After the rename
      alone nothing durable has changed; after rejected/ is durable the file is in both. */
  lemma MoveKeeps(fs: Fs, kept: Kept, atRisk: set<Name>, n: Name)
    requires Settled(fs) && NoTemp(kept) && CrashSafe(fs, kept, atRisk) && LiveSafe(fs, kept, atRisk)
    requires n in fs.pending.live && !n.Temp? && n !in fs.rejected.live
    ensures var renamed := fs.Move(n);
      && Settled(renamed) && CrashSafe(renamed, kept, atRisk) && LiveSafe(renamed, kept, atRisk + {n})
      && var first := renamed.SyncDir(Rejected);
      && Settled(first) && CrashSafe(first, kept, atRisk) && LiveSafe(first, kept, atRisk)
      && var both := first.SyncDir(Pending);
      && Settled(both) && CrashSafe(both, kept, atRisk) && LiveSafe(both, kept, atRisk)
  {
    RenamedKeeps(fs, kept, atRisk, n);
    SyncKeeps(fs.Move(n).SyncDir(Rejected), kept, atRisk, Pending);
  }

  lemma RenamedKeeps(fs: Fs, kept: Kept, atRisk: set<Name>, n: Name)
    requires Settled(fs) && NoTemp(kept) && CrashSafe(fs, kept, atRisk) && LiveSafe(fs, kept, atRisk)
    requires n in fs.pending.live && !n.Temp? && n !in fs.rejected.live
    ensures var renamed := fs.Move(n);
      && Settled(renamed) && CrashSafe(renamed, kept, atRisk) && LiveSafe(renamed, kept, atRisk + {n})
      && var first := renamed.SyncDir(Rejected);
      && Settled(first) && CrashSafe(first, kept, atRisk) && LiveSafe(first, kept, atRisk)
  {
    var first := fs.Move(n).SyncDir(Rejected);
    forall m | m in kept && m !in atRisk
      ensures m in first.rejected.durable ==> first.Durable(Rejected, m) == kept[m]
      ensures m in first.pending.durable || m in first.rejected.durable
    {}
  }

  /** Without a durable rejected/ the guarantee fails: a file is moved, the sync of rejected/
      fails, and the next operation that syncs spool/ makes only the removal durable. After a
      power loss the file is in neither directory. */
  lemma FailedSyncLosesTheFile()
    ensures
      var n := Canonical(5, 1);
      var c := Whole(Snap(Uuid(1), 5, "t", [Part("source", "x")], 0, 1));
      var fs := Fs([File(c, c, 0)], Dir(map[n := 0], map[n := 0]), Dir(map[], map[]));
      && Settled(fs) && CrashSafe(fs, map[n := c], {}) && LiveSafe(fs, map[n := c], {}) && Apart(fs)
      && var after := fs.Move(n).SyncDir(Pending).Crash();
         n !in after.pending.live && n !in after.rejected.live
  {}

  /** The directory syncs that succeed, in this order. */
  function Synced(fs: Fs, syncs: seq<Which>): Fs
    decreases syncs
  {
    if syncs == [] then fs else Synced(fs.SyncDir(syncs[0]), syncs[1..])
  }

  /** Whatever directories are synced after a move, and however often: a power loss then takes the
      file from both if and only if spool/ was among them and rejected/ never was. */
  lemma LostByTheOrderOfSyncs(fs: Fs, n: Name, syncs: seq<Which>)
    requires n in fs.pending.live && n in fs.pending.durable && n !in fs.rejected.durable
    ensures var after := Synced(fs.Move(n), syncs).Crash();
      n !in after.pending.live && n !in after.rejected.live <==> Pending in syncs && Rejected !in syncs
  {
    DurableAfter(fs.Move(n), n, syncs);
  }

  lemma {:induction false} DurableAfter(fs: Fs, n: Name, syncs: seq<Which>)
    requires n !in fs.pending.live && n in fs.rejected.live
    ensures var g := Synced(fs, syncs);
      && (n in g.pending.durable <==> n in fs.pending.durable && Pending !in syncs)
      && (n in g.rejected.durable <==> n in fs.rejected.durable || Rejected in syncs)
    decreases syncs
  {
    if syncs != [] {
      DurableAfter(fs.SyncDir(syncs[0]), n, syncs[1..]);
      assert syncs == [syncs[0]] + syncs[1..];
    }
  }

  // ---- What recovery makes of a directory pair ----

  /** rejected/ after an uninterrupted recovery from a power loss now: what is there, and the files
      of spool/ that are not snapshots. */
  ghost function TargetRejected(fs: Fs): map<Name, Content>
    requires fs.WellFormed()
  {
    map n | n in fs.rejected.durable.Keys + fs.pending.durable.Keys && !n.Temp?
            && (n in fs.rejected.durable || !IsSnapshotFile(n, fs.Durable(Pending, n)))
      :: if n in fs.rejected.durable then fs.Durable(Rejected, n) else fs.Durable(Pending, n)
  }

  /** spool/ after an uninterrupted recovery: its snapshots that are not in rejected/ as well. */
  ghost function TargetPending(fs: Fs): map<Name, Content>
    requires fs.WellFormed()
  {
    map n | n in fs.pending.durable && !n.Temp? && n !in fs.rejected.durable && IsSnapshotFile(n, fs.Durable(Pending, n))
      :: fs.Durable(Pending, n)
  }

  /** `fs` is a state of a recovery that started from `a`. */
  ghost predicate Recovering(a: Fs, fs: Fs)
    requires a.WellFormed()
  {
    && fs.files == a.files && fs.WellFormed()
    && RejectedOnItsWay(a, fs.rejected.durable) && RejectedOnItsWay(a, fs.rejected.live)
    && PendingOnItsWay(a, fs.pending.durable, fs.rejected.durable)
    && PendingOnItsWay(a, fs.pending.live, fs.rejected.live)
    && (forall n :: n in fs.rejected.durable && !n.Temp? ==> n in fs.rejected.live)
  }

  ghost predicate RejectedOnItsWay(a: Fs, r: map<Name, nat>)
    requires a.WellFormed()
  {
    && (forall n :: n in a.rejected.live && !n.Temp? ==> n in r)
    && (forall n :: n in r && !n.Temp? ==>
        || (n in a.rejected.live && r[n] == a.rejected.live[n])
        || (n in a.pending.live && n !in a.rejected.live && r[n] == a.pending.live[n] && !IsSnapshotFile(n, a.Data(Pending, n))))
  }

  ghost predicate PendingOnItsWay(a: Fs, p: map<Name, nat>, r: map<Name, nat>) {
    && (forall n :: n in p && !n.Temp? ==> n in a.pending.live && p[n] == a.pending.live[n])
    && (forall n :: n in a.pending.live && !n.Temp? && n !in p ==> n in r)
  }

  /** From any state on the way, a power loss and an uninterrupted recovery end where an
      uninterrupted recovery from the start ends. */
  lemma RecoveringKeepsTarget(a: Fs, fs: Fs)
    requires Settled(a) && a.pending.live == a.pending.durable && a.rejected.live == a.rejected.durable
    requires Recovering(a, fs)
    ensures TargetPending(fs) == TargetPending(a) && TargetRejected(fs) == TargetRejected(a)
  {
    forall n
      ensures n in TargetPending(fs) <==> n in TargetPending(a)
      ensures n in TargetPending(a) ==> TargetPending(fs)[n] == TargetPending(a)[n]
      ensures n in TargetRejected(fs) <==> n in TargetRejected(a)
      ensures n in TargetRejected(a) ==> TargetRejected(fs)[n] == TargetRejected(a)[n]
    {}
  }

  lemma RecoveringRemove(a: Fs, fs: Fs, w: Which, n: Name)
    requires a.WellFormed() && Recovering(a, fs)
    requires n.Temp? || (w == Pending && n in a.rejected.live)
    ensures Recovering(a, fs.Remove(w, n))
  {}

  lemma RecoveringMove(a: Fs, fs: Fs, n: Name)
    requires a.WellFormed() && Recovering(a, fs)
    requires !n.Temp? && n in fs.pending.live && n !in a.rejected.live && !IsSnapshotFile(n, fs.Data(Pending, n))
    ensures Recovering(a, fs.Move(n))
    ensures Recovering(a, fs.Move(n).SyncDir(Rejected))
    ensures Recovering(a, fs.Move(n).SyncDir(Rejected).SyncDir(Pending))
  {}

  lemma RecoveringSync(a: Fs, fs: Fs)
    requires a.WellFormed() && Recovering(a, fs)
    ensures Recovering(a, fs.SyncDir(Rejected))
    ensures Recovering(a, fs.SyncDir(Rejected).SyncDir(Pending))
  {}
}
