/** The conditions the spool keeps over the two directories, and how each file operation and each
    step of a listing, an enforcement, a purge or a recovery keeps them. */
module SpoolState {
  import opened Options
  import opened FileSystem
  import opened SpoolEntries
  import opened Durability

  datatype Parsed = Found(entry: Entry) | Mismatch | Absent | Unread

  /** `b` is `a` after some files of spool/ that are not snapshots were moved to rejected/. */
  ghost predicate Quarantines(a: Fs, b: Fs)
    requires a.WellFormed()
  {
    && b.files == a.files
    && (forall n :: n in b.pending.live ==> n in a.pending.live && b.pending.live[n] == a.pending.live[n])
    && (forall n :: n in a.pending.live && n !in b.pending.live ==>
        !n.Temp? && !IsSnapshotFile(n, a.Data(Pending, n)) && n in b.rejected.live && b.rejected.live[n] == a.pending.live[n])
    && (forall n :: n in a.rejected.live ==> n in b.rejected.live && b.rejected.live[n] == a.rejected.live[n])
    && (forall n :: n in b.rejected.live ==> n in a.rejected.live || (n in a.pending.live && n !in b.pending.live))
  }

  /** Every entry is that of a file of spool/. */
  ghost predicate PendingEntries(fs: Fs, es: seq<Entry>)
    requires fs.WellFormed()
  {
    forall e :: e in es ==>
      && e.name in fs.pending.live
      && IsSnapshotFile(e.name, fs.Data(Pending, e.name))
      && e == EntryOf(e.name, fs.Data(Pending, e.name), false)
  }

  /** What an entry tells of its file: the time, the scope and the size of the snapshot in it. */
  ghost predicate Tells(e: Entry, c: Content) {
    && e.size == c.Size()
    && (!e.unreadable ==> c.Whole? && e.at == c.snap.at && e.key.recordType == c.snap.recordType && e.key.parts == c.snap.scope
                          && (e.subject != "" ==> NamesSubject(c.snap.scope, e.subject))
                          && forall subject :: subject != "" && NamesSubject(c.snap.scope, subject) ==> e.subject == subject)
  }

  lemma PendingTell(fs: Fs, es: seq<Entry>)
    requires fs.WellFormed() && PendingEntries(fs, es)
    ensures forall e :: e in es ==> e.name in fs.pending.live && Tells(e, fs.Data(Pending, e.name)) && !e.rejected && !e.unreadable
  {
    forall e | e in es ensures Tells(e, fs.Data(Pending, e.name)) {
      EntryTells(e.name, fs.Data(Pending, e.name), false);
    }
  }

  lemma EntryTells(n: Name, c: Content, rejected: bool)
    requires IsSnapshotFile(n, c)
    ensures Tells(EntryOf(n, c, rejected), c)
  {
    SubjectIs(c.snap.scope);
  }

  lemma RejectedTell(fs: Fs, es: seq<Entry>)
    requires fs.WellFormed() && RejectedEntries(fs, es)
    ensures forall e :: e in es ==> e.name in fs.rejected.live && Tells(e, fs.Data(Rejected, e.name)) && e.rejected
  {
    forall e | e in es ensures Tells(e, fs.Data(Rejected, e.name)) {
      if !e.unreadable {
        EntryTells(e.name, fs.Data(Rejected, e.name), true);
      }
    }
  }

  /** Every snapshot of spool/ is listed. */
  ghost predicate AllPending(fs: Fs, es: seq<Entry>)
    requires fs.WellFormed()
  {
    forall n :: n in fs.pending.live && IsSnapshotFile(n, fs.Data(Pending, n)) ==>
      EntryOf(n, fs.Data(Pending, n), false) in es
  }

  /** Every entry is that of a file of rejected/. */
  ghost predicate RejectedEntries(fs: Fs, es: seq<Entry>)
    requires fs.WellFormed()
  {
    forall e :: e in es ==>
      && e.name in fs.rejected.live && !e.name.Temp?
      && (if e.unreadable then e == UnreadableEntry(e.name, fs.Data(Rejected, e.name).Size(), fs.files[fs.rejected.live[e.name]].mtime)
          else IsSnapshotFile(e.name, fs.Data(Rejected, e.name)) && e == EntryOf(e.name, fs.Data(Rejected, e.name), true))
  }

  ghost predicate AllRejected(fs: Fs, es: seq<Entry>)
    requires fs.WellFormed()
  {
    forall n :: n in fs.rejected.live && IsSnapshotFile(n, fs.Data(Rejected, n)) ==>
      EntryOf(n, fs.Data(Rejected, n), true) in es
  }

  /** `b` is `a` without the files `gone` of one directory. */
  ghost predicate Loses(a: Fs, b: Fs, w: Which, gone: set<Name>) {
    && b.files == a.files
    && b.pending.live == (if w == Pending then a.pending.live - gone else a.pending.live)
    && b.rejected.live == (if w == Rejected then a.rejected.live - gone else a.rejected.live)
  }

  ghost predicate KeptWithout(before: Kept, after: Kept, gone: set<Name>) {
    && (forall n :: n in after ==> n in before && after[n] == before[n])
    && (forall n :: n in before && n !in gone ==> n in after)
  }

  /** Every file a directory has or would have after a power loss, temp files aside. */
  ghost function Files(fs: Fs): set<Name> {
    set n | n in fs.pending.live.Keys + fs.pending.durable.Keys + fs.rejected.live.Keys + fs.rejected.durable.Keys && !n.Temp?
  }

  ghost function Names(es: seq<Entry>): set<Name> {
    set e | e in es :: e.name
  }

  /** Each cached entry is the parse of the file at its path. */
  ghost predicate CacheMatches(fs: Fs, cache: map<(Which, Name), Entry>)
    requires fs.WellFormed()
  {
    && CacheMatchesIn(fs.files, fs.pending.live, cache, Pending)
    && CacheMatchesIn(fs.files, fs.rejected.live, cache, Rejected)
  }

  ghost predicate CacheMatchesIn(files: seq<File>, live: map<Name, nat>, cache: map<(Which, Name), Entry>, w: Which)
    requires InRange(live, |files|)
  {
    forall n :: (w, n) in cache ==>
      && n in live
      && IsSnapshotFile(n, files[live[n]].data)
      && cache[(w, n)] == EntryOf(n, files[live[n]].data, w == Rejected)
  }

  /** No readable file of either directory is about one of the subjects. */
  ghost predicate NothingAbout(fs: Fs, subjects: set<string>)
    requires fs.WellFormed()
  {
    NothingAboutIn(fs.files, fs.pending.live, subjects) && NothingAboutIn(fs.files, fs.rejected.live, subjects)
  }

  ghost predicate NothingAboutIn(files: seq<File>, live: map<Name, nat>, subjects: set<string>)
    requires InRange(live, |files|)
  {
    forall n :: n in live && IsSnapshotFile(n, files[live[n]].data) ==>
      SubjectOf(files[live[n]].data.snap.scope) !in subjects
  }

  /** The memory's side of a move or a removal. */
  lemma MemoryKeepsMove(fs: Fs, cache: map<(Which, Name), Entry>, subjects: set<string>, n: Name)
    requires fs.WellFormed() && CacheMatches(fs, cache) && NothingAbout(fs, subjects)
    requires n in fs.pending.live && n !in fs.rejected.live
    ensures fs.Move(n).WellFormed() && CacheMatches(fs.Move(n), cache - {(Pending, n)}) && NothingAbout(fs.Move(n), subjects)
  {}

  lemma MemoryKeepsRemove(fs: Fs, cache: map<(Which, Name), Entry>, subjects: set<string>, w: Which, n: Name)
    requires fs.WellFormed() && CacheMatches(fs, cache) && NothingAbout(fs, subjects)
    ensures CacheMatches(fs, cache - {(w, n)})
    ensures fs.Remove(w, n).WellFormed()
    ensures CacheMatches(fs.Remove(w, n), cache - {(w, n)}) && NothingAbout(fs.Remove(w, n), subjects)
  {}

  /** Every state a move passes through is one the spool may be left in. */
  lemma MoveKeepsAll(fs: Fs, cache: map<(Which, Name), Entry>, subjects: set<string>, kept: Kept, atRisk: set<Name>, n: Name)
    requires Settled(fs) && NoTemp(kept) && CrashSafe(fs, kept, atRisk) && CacheMatches(fs, cache) && NothingAbout(fs, subjects)
    requires !n.Temp? && (n in fs.pending.live ==> n !in fs.rejected.live)
    ensures CacheMatches(fs, cache - {(Pending, n)}) && MoveState(fs, fs, n)
    ensures n in fs.pending.live ==>
      var renamed, first := fs.Move(n), fs.Move(n).SyncDir(Rejected);
      var both := first.SyncDir(Pending);
      && renamed.WellFormed() && first.WellFormed() && both.WellFormed()
      && MoveState(fs, renamed, n) && MoveState(fs, first, n) && MoveState(fs, both, n)
      && CacheMatches(renamed, cache - {(Pending, n)}) && NothingAbout(renamed, subjects)
      && CacheMatches(first, cache - {(Pending, n)}) && NothingAbout(first, subjects)
      && CacheMatches(both, cache - {(Pending, n)}) && NothingAbout(both, subjects)
    ensures n in fs.pending.live && LiveSafe(fs, kept, atRisk) ==>
      var renamed, first := fs.Move(n), fs.Move(n).SyncDir(Rejected);
      var both := first.SyncDir(Pending);
      && Settled(renamed) && CrashSafe(renamed, kept, atRisk) && LiveSafe(renamed, kept, atRisk + {n})
      && CrashSafe(renamed, kept, atRisk + {n})
      && Settled(first) && CrashSafe(first, kept, atRisk) && LiveSafe(first, kept, atRisk)
      && Settled(both) && CrashSafe(both, kept, atRisk) && LiveSafe(both, kept, atRisk)
  {
    hide InRange, Finished, CrashSafe, LiveSafe, CacheMatchesIn, NothingAboutIn;
    MemoryKeepsRemove(fs, cache, subjects, Pending, n);
    if n in fs.pending.live {
      MemoryKeepsMove(fs, cache, subjects, n);
      if LiveSafe(fs, kept, atRisk) {
        MoveKeeps(fs, kept, atRisk, n);
        MoreRisk(fs.Move(n), kept, atRisk, n);
      }
    }
  }

  lemma RemoveKeepsAll(fs: Fs, cache: map<(Which, Name), Entry>, subjects: set<string>, kept: Kept, atRisk: set<Name>, w: Which, n: Name)
    requires Good(fs, cache, subjects, kept, atRisk)
    ensures
      var gone, cache', kept' := fs.Remove(w, n), cache - {(w, n)}, kept - {n};
      && Good(fs, cache', subjects, kept', atRisk) && Good(gone, cache', subjects, kept', atRisk)
      && RemoveState(fs, fs, w, n) && RemoveState(fs, gone, w, n)
      && RemoveState(fs, fs.SyncDir(w), w, n) && RemoveState(fs, gone.SyncDir(w), w, n)
      && (LiveSafe(fs, kept, atRisk) ==>
            && LiveSafe(fs, kept', atRisk) && LiveSafe(gone, kept', atRisk)
            && Good(fs.SyncDir(w), cache', subjects, kept', atRisk) && LiveSafe(fs.SyncDir(w), kept', atRisk)
            && Good(gone.SyncDir(w), cache', subjects, kept', atRisk) && LiveSafe(gone.SyncDir(w), kept', atRisk))
  {
    hide InRange, Finished, CrashSafe, LiveSafe, CacheMatchesIn, NothingAboutIn, NoTemp;
    var gone, kept' := fs.Remove(w, n), kept - {n};
    MemoryKeepsRemove(fs, cache, subjects, w, n);
    ForgetKeeps(fs, kept, atRisk, n);
    assert n !in kept';
    RemoveKeeps(fs, kept', atRisk, w, n);
    if LiveSafe(fs, kept, atRisk) {
      SyncKeeps(fs, kept', atRisk, w);
      SyncKeeps(gone, kept', atRisk, w);
    }
  }

  lemma MoreRisk(fs: Fs, kept: Kept, atRisk: set<Name>, n: Name)
    requires fs.WellFormed() && CrashSafe(fs, kept, atRisk)
    ensures CrashSafe(fs, kept, atRisk + {n})
  {}

  lemma ForgetKeeps(fs: Fs, kept: Kept, atRisk: set<Name>, n: Name)
    requires fs.WellFormed() && NoTemp(kept) && CrashSafe(fs, kept, atRisk)
    ensures NoTemp(kept - {n}) && CrashSafe(fs, kept - {n}, atRisk)
    ensures LiveSafe(fs, kept, atRisk) ==> LiveSafe(fs, kept - {n}, atRisk)
  {}

  ghost predicate Nowhere(fs: Fs, n: Name) {
    n !in fs.pending.live && n !in fs.pending.durable && n !in fs.rejected.live && n !in fs.rejected.durable
  }

  /** `b` is `a` with at most the file `n`, which then holds the whole of `s`, and temp files more
      in spool/. */
  ghost predicate Adds(a: Fs, b: Fs, n: Name, s: Snap)
    requires a.WellFormed() && b.WellFormed()
  {
    && |a.files| <= |b.files| && b.files[..|a.files|] == a.files
    && (forall m: Name :: !m.Temp? && m != n ==>
          && (m in b.pending.live <==> m in a.pending.live)
          && (m in a.pending.live ==> b.pending.live[m] == a.pending.live[m]))
    && (n in b.pending.live ==> b.Data(Pending, n) == Whole(s))
    && b.rejected == a.rejected
  }

  lemma AddsNothing(a: Fs, n: Name, s: Snap)
    requires a.WellFormed() && Nowhere(a, n)
    ensures Adds(a, a, n, s)
  {}

  /** `g` is `a` with a temp file more, being written. */
  ghost predicate Stage(a: Fs, g: Fs, tmp: Name) {
    && tmp.Temp?
    && |g.files| == |a.files| + 1 && g.files[..|a.files|] == a.files
    && g.pending == a.pending.(live := a.pending.live[tmp := |a.files|]) && g.rejected == a.rejected
  }

  lemma StageStart(a: Fs, tmp: Name, mtime: int)
    requires tmp.Temp?
    ensures Stage(a, a.Create(tmp, mtime), tmp)
  {}

  lemma StageWrite(a: Fs, b: Fs, c: Fs, tmp: Name, s: Snap)
    requires Stage(a, b, tmp)
    requires c == b || c == b.Write(|a.files|, Whole(s)) || c == b.Write(|a.files|, Torn(s))
    ensures Stage(a, c, tmp)
  {}

  lemma StageSync(a: Fs, b: Fs, tmp: Name)
    requires Stage(a, b, tmp)
    ensures Stage(a, b.Fsync(|a.files|), tmp)
  {}

  /** Everything the spool relies on, in one place. */
  ghost predicate Good(fs: Fs, cache: map<(Which, Name), Entry>, subjects: set<string>, kept: Kept, atRisk: set<Name>) {
    && Settled(fs) && NoTemp(kept) && CrashSafe(fs, kept, atRisk)
    && CacheMatches(fs, cache) && NothingAbout(fs, subjects) && Apart(fs)
  }

  lemma StageKeeps(a: Fs, g: Fs, cache: map<(Which, Name), Entry>, subjects: set<string>, kept: Kept, atRisk: set<Name>,
                   tmp: Name, n: Name, s: Snap)
    requires Good(a, cache, subjects, kept, atRisk) && Nowhere(a, n) && !n.Temp? && Stage(a, g, tmp)
    ensures Good(g, cache, subjects, kept, atRisk) && Adds(a, g, n, s)
    ensures LiveSafe(a, kept, atRisk) ==> LiveSafe(g, kept, atRisk)
  {
    TempFileKeeps(a, g, kept, atRisk, tmp);
    assert forall i :: 0 <= i < |a.files| ==> g.files[i] == g.files[..|a.files|][i];
  }

  lemma StageRename(a: Fs, g: Fs, cache: map<(Which, Name), Entry>, subjects: set<string>, kept: Kept, atRisk: set<Name>,
                    tmp: Name, n: Name, s: Snap)
    requires Good(a, cache, subjects, kept, atRisk) && Nowhere(a, n) && !n.Temp? && n !in kept && Stage(a, g, tmp)
    requires g.files[|a.files|].data == g.files[|a.files|].synced == Whole(s) && SubjectOf(s.scope) !in subjects
    ensures var h := g.Rename(tmp, n);
      && Good(h, cache, subjects, kept, atRisk) && Adds(a, h, n, s)
      && (LiveSafe(a, kept, atRisk) ==> LiveSafe(h, kept, atRisk))
      && n in h.pending.live && h.Data(Pending, n) == Whole(s) && h.files[h.pending.live[n]].synced == Whole(s)
  {
    hide CrashSafe, LiveSafe, NoTemp, Adds, CacheMatches, NothingAbout, Apart;
    TempFileKeeps(a, g, kept, atRisk, tmp);
    RenameKeeps(g, kept, atRisk, tmp, n);
    StageRenameMemory(a, g, cache, subjects, tmp, n, s);
  }

  lemma StageRenameMemory(a: Fs, g: Fs, cache: map<(Which, Name), Entry>, subjects: set<string>, tmp: Name, n: Name, s: Snap)
    requires a.WellFormed() && CacheMatches(a, cache) && NothingAbout(a, subjects) && Apart(a)
    requires Nowhere(a, n) && !n.Temp? && Stage(a, g, tmp)
    requires g.files[|a.files|].data == Whole(s) && SubjectOf(s.scope) !in subjects
    ensures var h := g.Rename(tmp, n);
      h.WellFormed() && CacheMatches(h, cache) && NothingAbout(h, subjects) && Apart(h) && Adds(a, h, n, s)
  {
    assert forall i :: 0 <= i < |a.files| ==> g.files[i] == g.files[..|a.files|][i];
  }

  lemma StageDone(a: Fs, h: Fs, cache: map<(Which, Name), Entry>, subjects: set<string>, kept: Kept, atRisk: set<Name>, n: Name, s: Snap)
    requires a.WellFormed() && Good(h, cache, subjects, kept, atRisk) && LiveSafe(h, kept, atRisk) && Adds(a, h, n, s)
    requires n in h.pending.live && h.files[h.pending.live[n]].synced == Whole(s)
    ensures var d := h.SyncDir(Pending);
      && Good(d, cache, subjects, kept, atRisk) && LiveSafe(d, kept, atRisk) && Adds(a, d, n, s)
      && n in d.pending.durable && d.Durable(Pending, n) == Whole(s) && d.Data(Pending, n) == h.Data(Pending, n)
  {
    SyncKeeps(h, kept, atRisk, Pending);
  }

  lemma StageRemove(a: Fs, g: Fs, cache: map<(Which, Name), Entry>, subjects: set<string>, kept: Kept, atRisk: set<Name>,
                    tmp: Name, n: Name, s: Snap)
    requires Good(a, cache, subjects, kept, atRisk) && Nowhere(a, n) && !n.Temp? && Stage(a, g, tmp)
    ensures var h := g.Remove(Pending, tmp);
      && Good(h, cache, subjects, kept, atRisk) && Adds(a, h, n, s)
      && (LiveSafe(a, kept, atRisk) ==> LiveSafe(h, kept, atRisk))
  {
    StageKeeps(a, g, cache, subjects, kept, atRisk, tmp, n, s);
    RemoveKeeps(g, kept, atRisk, Pending, tmp);
  }

  /** Put's own checks: a UUID, a scope and a time in the years 1 to 9999. */
  predicate Acceptable(s: Snap) {
    !s.id.Malformed? && s.scope != [] && 0 <= s.at < 3652059 * 86400000
  }

  /** The snapshot is about a subject that was erased. */
  ghost predicate Banned(s: Snap, erased: set<string>) {
    exists subject :: subject in erased && subject != "" && NamesSubject(s.scope, subject)
  }

  predicate Refused(s: Snap, erased: set<string>)
    ensures Refused(s, erased) <==> Banned(s, erased)
  {
    SubjectIs(s.scope);
    SubjectOf(s.scope) != "" && SubjectOf(s.scope) in erased
  }

  /** No snapshot file of either directory is about the subject. */
  ghost predicate NoneNames(fs: Fs, subject: string)
    requires fs.WellFormed()
  {
    forall w, n :: n in fs.At(w).live && IsSnapshotFile(n, fs.Data(w, n)) ==> !NamesSubject(fs.Data(w, n).snap.scope, subject)
  }

  lemma NothingIsNone(fs: Fs, subject: string)
    requires fs.WellFormed() && subject != ""
    ensures NothingAbout(fs, {subject}) <==> NoneNames(fs, subject)
  {
    forall w, n | n in fs.At(w).live && IsSnapshotFile(n, fs.Data(w, n))
      ensures SubjectOf(fs.Data(w, n).snap.scope) !in {subject} <==> !NamesSubject(fs.Data(w, n).snap.scope, subject)
    {
      SubjectMeans(fs.Data(w, n).snap.scope, subject);
    }
    if NoneNames(fs, subject) {
      forall n | n in fs.pending.live && IsSnapshotFile(n, fs.files[fs.pending.live[n]].data)
        ensures SubjectOf(fs.files[fs.pending.live[n]].data.snap.scope) !in {subject}
      {
        assert !NamesSubject(fs.Data(Pending, n).snap.scope, subject);
      }
      forall n | n in fs.rejected.live && IsSnapshotFile(n, fs.files[fs.rejected.live[n]].data)
        ensures SubjectOf(fs.files[fs.rejected.live[n]].data.snap.scope) !in {subject}
      {
        assert !NamesSubject(fs.Data(Rejected, n).snap.scope, subject);
      }
    }
  }

  ghost function AboutNames(es: seq<Entry>, subject: string): set<Name> {
    set e | e in es && e.subject == subject :: e.name
  }

  ghost function CountAbout(es: seq<Entry>, subject: string): nat {
    if es == [] then 0 else CountAbout(es[..|es| - 1], subject) + (if es[|es| - 1].subject == subject then 1 else 0)
  }

  lemma AboutSnoc(es: seq<Entry>, i: nat, subject: string)
    requires i < |es|
    ensures CountAbout(es[..i + 1], subject) == CountAbout(es[..i], subject) + (if es[i].subject == subject then 1 else 0)
    ensures AboutNames(es[..i + 1], subject) == AboutNames(es[..i], subject) + (if es[i].subject == subject then {es[i].name} else {})
  {
    assert es[..i + 1] == es[..i] + [es[i]];
    var more := if es[i].subject == subject then {es[i].name} else {};
    forall n | n in AboutNames(es[..i], subject) + more ensures n in AboutNames(es[..i + 1], subject) {
      if n in AboutNames(es[..i], subject) {
        var e :| e in es[..i] && e.subject == subject && e.name == n;
        assert e in es[..i + 1];
      } else {
        assert es[..i + 1][i] == es[i];
      }
    }
  }

  /** What a purge did: the directories as listed, the listings and the files that are gone. */
  datatype Purge = Purge(listed: Fs, pending: seq<Entry>, rejected: seq<Entry>, gonePending: set<Name>, goneRejected: set<Name>)

  /** A purge quarantines while it lists, and takes only listed files about the subject. */
  ghost predicate Purges(a: Fs, b: Fs, subject: string, p: Purge) {
    && a.WellFormed() && p.listed.WellFormed() && Quarantines(a, p.listed) && Drops(p.listed, b, p.gonePending, p.goneRejected)
    && PendingEntries(p.listed, p.pending) && RejectedEntries(p.listed, p.rejected)
    && p.gonePending <= AboutNames(p.pending, subject) && p.goneRejected <= AboutNames(p.rejected, subject)
  }

  ghost predicate IsAbout(c: Content, subject: string) {
    c.Whole? && NamesSubject(c.snap.scope, subject)
  }

  /** A kept file that is listed as being about the subject is. */
  lemma KeptAbout(fs: Fs, kept: Kept, atRisk: set<Name>, pending: seq<Entry>, rejected: seq<Entry>, subject: string)
    requires fs.WellFormed() && LiveSafe(fs, kept, atRisk) && subject != ""
    requires PendingEntries(fs, pending) && RejectedEntries(fs, rejected)
    ensures forall n :: n in AboutNames(pending, subject) + AboutNames(rejected, subject) && n in kept && n !in atRisk ==> IsAbout(kept[n], subject)
  {
    hide NamesSubject;
    forall n | n in AboutNames(pending, subject) + AboutNames(rejected, subject) && n in kept && n !in atRisk ensures IsAbout(kept[n], subject) {
      SubjectMeans(kept[n].snap.scope, subject);
    }
  }

  lemma KeptLost(k0: Kept, k: Kept, gone: set<Name>, atRisk: set<Name>, subject: string, live: bool)
    requires KeptWithout(k0, k, gone) && (!live ==> k == k0)
    requires live ==> forall n :: n in gone && n in k0 && n !in atRisk ==> IsAbout(k0[n], subject)
    ensures forall n :: n in k0 && n !in k && n !in atRisk ==> IsAbout(k0[n], subject)
  {}

  lemma NoRiskYet(a: Fs, risks: set<Name>, kept: Kept)
    requires a.WellFormed()
    ensures Quarantines(a, a) && NewRisks(a, risks, risks) && Drops(a, a, {}, {})
    ensures forall t :: KeptWithout(kept, kept, t)
  {
    DropsNothing(a, kept);
  }

  lemma KeptMore(kept: Kept, t: set<Name>)
    ensures KeptWithout(kept, kept, t)
  {}

  lemma LosesDrops(a: Fs, b: Fs, c: Fs, p: set<Name>, q: set<Name>, w: Which, gone: set<Name>)
    requires Drops(a, b, p, q) && Loses(b, c, w, gone)
    ensures Drops(a, c, if w == Pending then p + gone else p, if w == Rejected then q + gone else q)
  {}

  lemma PurgedAll(listed: Fs, b: Fs, p: seq<Entry>, q: seq<Entry>, subject: string, purged: set<string>, goneP: set<Name>, goneR: set<Name>)
    requires listed.WellFormed() && b.WellFormed() && Drops(listed, b, goneP, goneR) && NothingAbout(b, purged)
    requires AllPending(listed, p) && AllRejected(listed, q)
    requires goneP == AboutNames(p, subject) && goneR == AboutNames(q, subject)
    ensures NothingAbout(b, purged + {subject}) && NothingAbout(b, {subject})
  {}

  // ---- Recovery's loop ----

  ghost predicate NoTempFile(fs: Fs) {
    forall n :: n in fs.pending.live || n in fs.rejected.live ==> !n.Temp?
  }

  ghost function Contents(fs: Fs, w: Which): map<Name, Content>
    requires fs.WellFormed()
  {
    map n | n in fs.At(w).live :: fs.Data(w, n)
  }

  /** The rest of spool/ still to be looked at: what was looked at is a snapshot that is in spool/
      alone, unless a read or a quarantine failed. */
  ghost predicate RecoverLeft(a: Fs, fs: Fs, inRejected: set<Name>, todo: set<Name>, clean: bool)
    requires a.WellFormed() && fs.WellFormed() && fs.files == a.files
  {
    && (forall n :: n in inRejected <==> n in a.rejected.live && !n.Temp?)
    && (forall n :: n in fs.rejected.live ==> !n.Temp?)
    && (forall n :: n in inRejected ==> n in fs.rejected.live)
    && (forall n :: n in todo ==> n in fs.pending.live)
    && (forall n :: n in fs.pending.live && n !in todo ==> !n.Temp? && n !in inRejected)
    && (forall n :: n in fs.pending.live && n in fs.rejected.live ==> n in inRejected)
    && (clean ==> forall n :: n in fs.pending.live && n !in todo ==> IsSnapshotFile(n, fs.Data(Pending, n)))
  }

  lemma RecoverStart(a: Fs)
    requires Settled(a) && a.pending.live == a.pending.durable && a.rejected.live == a.rejected.durable
    ensures Recovering(a, a)
  {}

  lemma RecoveringAddsNoFile(a: Fs, fs: Fs)
    requires a.WellFormed() && Recovering(a, fs)
    ensures Files(fs) <= Files(a)
  {}

  lemma RecoverLoop(a: Fs, fs: Fs, inRejected: set<Name>)
    requires a.WellFormed() && fs.WellFormed() && fs.files == a.files && fs.pending == a.pending
    requires fs.rejected.live.Keys == inRejected && Recovering(a, fs)
    requires inRejected == set n | n in a.rejected.live && !n.Temp?
    ensures RecoverLeft(a, fs, inRejected, fs.pending.live.Keys, true)
  {}

  lemma RecoverNext(a: Fs, fs: Fs, inRejected: set<Name>, todo: set<Name>, clean: bool, n: Name)
    requires a.WellFormed() && fs.WellFormed() && fs.files == a.files && RecoverLeft(a, fs, inRejected, todo, clean) && n in todo
    ensures n in fs.pending.live && (n in inRejected ==> n in fs.rejected.live && n in a.rejected.live)
    ensures n !in inRejected ==> n !in fs.rejected.live
  {}

  lemma RecoverRemoved(a: Fs, b: Fs, inRejected: set<Name>, todo: set<Name>, clean: bool, n: Name)
    requires a.WellFormed() && b.WellFormed() && b.files == a.files && RecoverLeft(a, b, inRejected, todo, clean)
    ensures RecoverLeft(a, b.Remove(Pending, n), inRejected, todo - {n}, clean)
  {}

  lemma RecoverParsed(a: Fs, b: Fs, c: Fs, inRejected: set<Name>, todo: set<Name>, clean: bool, n: Name, e: Option<Entry>, done: bool)
    requires a.WellFormed() && b.WellFormed() && Recovering(a, b) && RecoverLeft(a, b, inRejected, todo, clean)
    requires n in todo && !n.Temp? && n !in inRejected && MoveState(b, c, n)
    requires IsSnapshotFile(n, b.Data(Pending, n)) ==> c == b
    requires e.Some? ==> c == b && IsSnapshotFile(n, b.Data(Pending, n))
    requires done && e.None? ==> c == b.Move(n).SyncDir(Rejected).SyncDir(Pending)
    ensures Recovering(a, c) && RecoverLeft(a, c, inRejected, todo - {n}, clean && (e.Some? || done))
  {
    if c != b {
      RecoveringMove(a, b, n);
    }
  }

  lemma SyncKeepsCore(fs: Fs, kept: Kept, atRisk: set<Name>, power: bool)
    requires Settled(fs) && NoTemp(kept) && CrashSafe(fs, kept, atRisk) && (power ==> LiveSafe(fs, kept, atRisk))
    ensures var f := fs.SyncDir(Rejected);
      && f.WellFormed() && f.SyncDir(Pending).WellFormed()
      && (power ==>
            && Settled(f) && CrashSafe(f, kept, atRisk) && LiveSafe(f, kept, atRisk)
            && Settled(f.SyncDir(Pending)) && CrashSafe(f.SyncDir(Pending), kept, atRisk) && LiveSafe(f.SyncDir(Pending), kept, atRisk))
  {}

  lemma RecoverDone(a: Fs, last: Fs, inRejected: set<Name>, clean: bool)
    requires Settled(a) && a.pending.live == a.pending.durable && a.rejected.live == a.rejected.durable
    requires last.WellFormed() && Recovering(a, last) && RecoverLeft(a, last, inRejected, {}, clean)
    ensures var fs := last.SyncDir(Rejected).SyncDir(Pending);
      && Apart(fs) && NoTempFile(fs) && fs.WellFormed()
      && (clean ==> Contents(fs, Pending) == TargetPending(a) && Contents(fs, Rejected) == TargetRejected(a))
  {
    hide IsSnapshotFile, TargetPending, TargetRejected, RejectedOnItsWay, PendingOnItsWay, Finished, InRange;
    var fs := last.SyncDir(Rejected).SyncDir(Pending);
    if clean {
      RecoveredPending(a, last, inRejected);
      RecoveredRejected(a, last, inRejected);
      assert Contents(fs, Pending) == Contents(last, Pending) && Contents(fs, Rejected) == Contents(last, Rejected);
    }
  }

  lemma RecoveredPending(a: Fs, last: Fs, inRejected: set<Name>)
    requires Settled(a) && a.pending.live == a.pending.durable && a.rejected.live == a.rejected.durable
    requires last.WellFormed() && Recovering(a, last) && RecoverLeft(a, last, inRejected, {}, true)
    ensures Contents(last, Pending) == TargetPending(a)
  {}

  lemma RecoveredRejected(a: Fs, last: Fs, inRejected: set<Name>)
    requires Settled(a) && a.pending.live == a.pending.durable && a.rejected.live == a.rejected.durable
    requires last.WellFormed() && Recovering(a, last) && RecoverLeft(a, last, inRejected, {}, true)
    ensures Contents(last, Rejected) == TargetRejected(a)
  {
    hide InRange;
    forall n
      ensures n in Contents(last, Rejected) <==> n in TargetRejected(a)
      ensures n in TargetRejected(a) ==> Contents(last, Rejected)[n] == TargetRejected(a)[n]
    {}
  }

  lemma NowKept(fs: Fs, kept: Kept, atRisk: set<Name>, n: Name, s: Snap)
    requires Settled(fs) && NoTemp(kept) && CrashSafe(fs, kept, atRisk) && LiveSafe(fs, kept, atRisk) && Apart(fs)
    requires !n.Temp? && n !in fs.rejected.durable && n in fs.pending.live && n in fs.pending.durable
    requires fs.Data(Pending, n) == fs.Durable(Pending, n) == Whole(s)
    ensures NoTemp(kept[n := Whole(s)]) && CrashSafe(fs, kept[n := Whole(s)], atRisk) && LiveSafe(fs, kept[n := Whole(s)], atRisk)
  {}

  lemma PutIsNoRisk(fs: Fs, n: Name, s: Snap)
    requires fs.WellFormed() && n in fs.pending.live && fs.Data(Pending, n) == Whole(s) && Acceptable(s) && n == NameOf(s)
    ensures s.id.Uuid? ==> IsSnapshotFile(n, fs.Data(Pending, n))
  {}

  /** What a Put or an enforcement may put at risk is a file it found. */
  lemma RisksAreFiles(a: Fs, before: set<Name>, after: set<Name>)
    requires a.WellFormed() && NewRisks(a, before, after)
    ensures after <= before + Files(a)
  {}

  lemma NoRiskFor(a: Fs, before: set<Name>, after: set<Name>, n: Name)
    requires a.WellFormed() && NewRisks(a, before, after) && n !in before
    ensures n in a.pending.live && IsSnapshotFile(n, a.Data(Pending, n)) ==> n !in after
  {}

  lemma MoveAddsNoFile(a: Fs, b: Fs, n: Name)
    requires MoveState(a, b, n)
    ensures Files(b) <= Files(a)
  {}

  lemma RemoveAddsNoFile(a: Fs, b: Fs, w: Which, n: Name)
    requires RemoveState(a, b, w, n)
    ensures Files(b) <= Files(a)
  {}

  /** A listing of rejected/ with only the files `todo` still to be read. */
  ghost predicate RejectedBut(fs: Fs, todo: set<Name>, es: seq<Entry>, allRead: bool)
    requires fs.WellFormed()
  {
    && (forall n :: n in todo ==> n in fs.rejected.live && !n.Temp?)
    && Sorted(es) && DistinctNames(es) && RejectedEntries(fs, es)
    && Names(es) == (set n | n in fs.rejected.live && !n.Temp?) - todo
    && (allRead ==> forall n :: n in Names(es) && IsSnapshotFile(n, fs.Data(Rejected, n)) ==>
          EntryOf(n, fs.Data(Rejected, n), true) in es)
  }

  lemma RejectedBegin(fs: Fs, todo: set<Name>)
    requires fs.WellFormed() && todo == set n | n in fs.rejected.live && !n.Temp?
    ensures RejectedBut(fs, todo, [], true)
  {}

  lemma RejectedTodo(fs: Fs, todo: set<Name>, es: seq<Entry>, allRead: bool, n: Name)
    requires fs.WellFormed() && RejectedBut(fs, todo, es, allRead) && n in todo
    ensures n in fs.rejected.live && !n.Temp? && fs.rejected.live[n] < |fs.files|
  {}

  lemma RejectedStep(fs: Fs, todo: set<Name>, es: seq<Entry>, allRead: bool, n: Name, e: Entry, read: bool)
    requires fs.WellFormed() && RejectedBut(fs, todo, es, allRead) && n in todo && e.name == n
    requires if e.unreadable then n in fs.rejected.live && e == UnreadableEntry(n, fs.Data(Rejected, n).Size(), fs.files[fs.rejected.live[n]].mtime)
             else IsSnapshotFile(n, fs.Data(Rejected, n)) && e == EntryOf(n, fs.Data(Rejected, n), true)
    requires read && IsSnapshotFile(n, fs.Data(Rejected, n)) ==> !e.unreadable
    ensures RejectedBut(fs, todo - {n}, Insert(es, e), allRead && read)
  {
    hide Sorted, DistinctNames, Insert, Before, NameLess;
    NamesAfterInsert(es, e);
    SortedHasDistinctNames(es, e);
  }

  lemma RejectedEnd(fs: Fs, es: seq<Entry>, allRead: bool)
    requires fs.WellFormed() && RejectedBut(fs, {}, es, allRead)
    ensures Sorted(es) && DistinctNames(es) && RejectedEntries(fs, es)
    ensures Names(es) == (set n | n in fs.rejected.live && !n.Temp?) && (allRead ==> AllRejected(fs, es))
  {}

  /** The states a move can leave: not begun, renamed, durable in rejected/, done. */
  ghost predicate MoveState(a: Fs, b: Fs, n: Name) {
    || b == a
    || (n in a.pending.live
        && (|| b == a.Move(n)
            || b == a.Move(n).SyncDir(Rejected)
            || b == a.Move(n).SyncDir(Rejected).SyncDir(Pending)))
  }

  ghost predicate RemoveState(a: Fs, b: Fs, w: Which, n: Name) {
    b == a || b == a.SyncDir(w) || b == a.Remove(w, n) || b == a.Remove(w, n).SyncDir(w)
  }

  /** A listing of spool/ that began at `a` with only the files `todo` still to be read. */
  ghost predicate ListedBut(a: Fs, fs: Fs, todo: set<Name>, es: seq<Entry>, allRead: bool)
    requires a.WellFormed() && fs.WellFormed()
  {
    && Quarantines(a, fs)
    && (forall n :: n in todo ==> n in fs.pending.live && !n.Temp?)
    && Sorted(es) && DistinctNames(es) && PendingEntries(fs, es)
    && (forall e :: e in es ==> e.name !in todo)
    && (allRead ==> forall n ::
          n in fs.pending.live && n !in todo && IsSnapshotFile(n, fs.Data(Pending, n)) ==> EntryOf(n, fs.Data(Pending, n), false) in es)
  }

  lemma ListingEmpty(a: Fs, risks: set<Name>)
    requires a.WellFormed()
    ensures Quarantines(a, a) && NewRisks(a, risks, risks)
    ensures ListedBut(a, a, set n | n in a.pending.live && !n.Temp?, [], true)
  {}

  lemma ListedTodo(a: Fs, fs: Fs, todo: set<Name>, es: seq<Entry>, allRead: bool, n: Name)
    requires a.WellFormed() && fs.WellFormed() && ListedBut(a, fs, todo, es, allRead) && n in todo
    ensures !n.Temp? && n in fs.pending.live
  {}

  lemma ListingDone(a: Fs, fs: Fs, es: seq<Entry>, allRead: bool)
    requires a.WellFormed() && fs.WellFormed() && ListedBut(a, fs, {}, es, allRead)
    ensures Quarantines(a, fs) && Sorted(es) && DistinctNames(es) && PendingEntries(fs, es)
    ensures allRead ==> AllPending(fs, es)
  {}

  lemma ListingStep(a: Fs, b: Fs, c: Fs, todo: set<Name>, es: seq<Entry>, allRead: bool, n: Name, r: Option<Entry>, clean: bool)
    requires a.WellFormed() && b.WellFormed() && c.WellFormed() && ListedBut(a, b, todo, es, allRead)
    requires n in todo && Apart(b)
    requires MoveState(b, c, n) && (IsSnapshotFile(n, b.Data(Pending, n)) ==> c == b)
    requires r.Some? ==> c == b && IsSnapshotFile(n, b.Data(Pending, n)) && r.value == EntryOf(n, b.Data(Pending, n), false)
    requires clean && r.None? ==> !IsSnapshotFile(n, b.Data(Pending, n))
    ensures Apart(c)
    ensures r.Some? ==> ListedBut(a, c, todo - {n}, Insert(es, r.value), allRead)
    ensures r.None? ==> ListedBut(a, c, todo - {n}, es, allRead && clean)
  {
    hide Quarantines, Sorted, DistinctNames, Insert, Before, NameLess, MoveState;
    MoveEffect(b, c, n);
    QuarantinesMove(a, b, c, n);
    if r.Some? {
      SortedHasDistinctNames(es, r.value);
    }
  }

  /** A listing puts only files at risk that are not snapshots. */
  ghost predicate NewRisks(a: Fs, before: set<Name>, after: set<Name>)
    requires a.WellFormed()
  {
    && before <= after
    && forall n :: n in after && n !in before ==> !n.Temp? && n in a.pending.live && !IsSnapshotFile(n, a.Data(Pending, n))
  }

  lemma NewRisksStep(a: Fs, b: Fs, todo: set<Name>, es: seq<Entry>, allRead: bool, n: Name, r0: set<Name>, r1: set<Name>, r2: set<Name>)
    requires a.WellFormed() && b.WellFormed() && ListedBut(a, b, todo, es, allRead) && n in todo
    requires NewRisks(a, r0, r1)
    requires r2 == r1 || (r2 == r1 + {n} && !IsSnapshotFile(n, b.Data(Pending, n)))
    ensures NewRisks(a, r0, r2)
  {}

  lemma QuarantinesMove(a: Fs, b: Fs, c: Fs, n: Name)
    requires a.WellFormed() && Quarantines(a, b) && b.WellFormed() && MoveState(b, c, n)
    requires !n.Temp? && n in b.pending.live && (c != b ==> !IsSnapshotFile(n, b.Data(Pending, n)))
    requires n !in b.rejected.live
    ensures Quarantines(a, c)
  {
    hide MoveState, InRange;
    MoveEffect(b, c, n);
  }

  /** What a reader sees of a move, wherever it stopped. */
  lemma MoveEffect(b: Fs, c: Fs, n: Name)
    requires MoveState(b, c, n)
    ensures c.files == b.files
    ensures c != b ==> n in b.pending.live && c.pending.live == b.pending.live - {n}
                       && c.rejected.live == b.rejected.live[n := b.pending.live[n]]
  {}

  ghost function AgedUnread(unread: map<Name, int>, now: int, maxAge: nat): set<Name> {
    set n | n in unread && now - unread[n] > maxAge
  }

  /** What an enforcement did: the directories as listed, the listings, the unread pending files,
      the files that are gone from each directory and those whose removal began. */
  datatype Enforcement = Enforcement(listed: Fs, pending: seq<Entry>, rejected: seq<Entry>, unread: map<Name, int>,
                                     gonePending: set<Name>, goneRejected: set<Name>, tried: set<Name>)

  /** No listed file is among those that could not be read. */
  ghost predicate ReadApart(es: seq<Entry>, unread: set<Name>) {
    forall e :: e in es ==> e.name !in unread
  }

  lemma ReadApartStep(a: Fs, fs: Fs, todo: set<Name>, es: seq<Entry>, allRead: bool, n: Name, r: Option<Entry>, before: set<Name>, after: set<Name>)
    requires a.WellFormed() && fs.WellFormed() && ListedBut(a, fs, todo, es, allRead) && n in todo && ReadApart(es, before)
    requires after <= before + {n} && (r.Some? ==> r.value.name == n && n !in after)
    ensures ReadApart(es, after) && (r.Some? ==> ReadApart(Insert(es, r.value), after))
  {
    hide Quarantines, Sorted, DistinctNames, PendingEntries, Insert;
    if r.Some? {
      forall e | e in Insert(es, r.value) ensures e.name !in after {
        InsertHas(es, r.value, e);
      }
    }
  }

  lemma NoneRead(unread: set<Name>)
    ensures ReadApart([], unread)
  {}

  lemma ReadApartFewer(es: seq<Entry>, before: set<Name>, after: set<Name>)
    requires ReadApart(es, before) && after <= before
    ensures ReadApart(es, after)
  {}

  /** `b` is `a` without the files `p` of spool/ and `r` of rejected/. */
  ghost predicate Drops(a: Fs, b: Fs, p: set<Name>, r: set<Name>) {
    b.files == a.files && b.pending.live == a.pending.live - p && b.rejected.live == a.rejected.live - r
  }

  /** What max_age and max_bytes ask for, carried out: every listed file over max_age is gone, and
      of what is left exactly the oldest rejected files, then the oldest files of spool/ that are
      not the newest of their scope, as far as the limit needs. */
  ghost predicate Enforced(r: Enforcement, now: int, maxAge: nat, maxBytes: int) {
    var p, q := Young(r.pending, now, maxAge), Young(r.rejected, now, maxAge);
    var inner := Intermediate(p, NewestNames(p));
    var total := Total(p) + Total(q);
    var kq := DropCount(q, total, maxBytes);
    var kp := DropCount(inner, total - Total(q[..kq]), maxBytes);
    && Sorted(r.pending) && DistinctNames(r.pending) && Sorted(r.rejected) && DistinctNames(r.rejected)
    && ReadApart(r.pending, r.unread.Keys) && r.tried == r.gonePending + r.goneRejected
    && r.goneRejected == Names(ExpiredOnly(r.rejected, now, maxAge)) + Names(q[..kq])
    && r.gonePending == Names(ExpiredOnly(r.pending, now, maxAge)) + AgedUnread(r.unread, now, maxAge) + Names(inner[..kp])
  }

  /** A file's read failed: its name still tells its time. */
  ghost predicate NamesTimes(unread: map<Name, int>) {
    forall n :: n in unread ==> n.Canonical? && unread[n] == n.at
  }

  /** The listed files over max_age, and those that could not be read whose names' time is. */
  ghost function Overdue(r: Enforcement, now: int, maxAge: nat): set<Name> {
    Names(ExpiredOnly(r.pending, now, maxAge)) + Names(ExpiredOnly(r.rejected, now, maxAge)) + AgedUnread(r.unread, now, maxAge)
  }

  ghost predicate Crowded(r: Enforcement, maxBytes: int) {
    Total(r.pending) + Total(r.rejected) > maxBytes
  }

  /** Whether or not every removal succeeds, one begins only for a file over max_age or because
      what was listed is over max_bytes. */
  ghost predicate DueTo(r: Enforcement, now: int, maxAge: nat, maxBytes: int) {
    NamesTimes(r.unread) && (r.tried <= Overdue(r, now, maxAge) || Crowded(r, maxBytes))
  }

  lemma NothingDue(r: Enforcement, now: int, maxAge: nat, maxBytes: int)
    requires r.tried == {} && NamesTimes(r.unread)
    ensures DueTo(r, now, maxAge, maxBytes)
  {}

  lemma DueToBoth(r: Enforcement, now: int, maxAge: nat, maxBytes: int, goneP: set<Name>, goneR: set<Name>, tried: set<Name>, total: nat)
    requires NamesTimes(r.unread) && r.tried == Overdue(r, now, maxAge)
    requires total <= Total(r.pending) + Total(r.rejected) && (total <= maxBytes ==> tried == {})
    ensures DueTo(r.(gonePending := r.gonePending + goneP, goneRejected := r.goneRejected + goneR, tried := r.tried + tried), now, maxAge, maxBytes)
  {}

  /** A snapshot is aged by its own time. */
  lemma DueByName(r: Enforcement, now: int, maxAge: nat, maxBytes: int, n: Name)
    requires r.listed.WellFormed() && PendingEntries(r.listed, r.pending) && RejectedEntries(r.listed, r.rejected)
    requires DueTo(r, now, maxAge, maxBytes) && n in r.tried && n.Canonical?
    ensures now - n.at > maxAge || Crowded(r, maxBytes)
  {
    if n in Names(ExpiredOnly(r.pending, now, maxAge)) {
      var e :| e in ExpiredOnly(r.pending, now, maxAge) && e.name == n;
      AgesSplit(r.pending, now, maxAge, e);
    } else if n in Names(ExpiredOnly(r.rejected, now, maxAge)) {
      var e :| e in ExpiredOnly(r.rejected, now, maxAge) && e.name == n;
      AgesSplit(r.rejected, now, maxAge, e);
    }
  }

  lemma EnforcedIntro(r: Enforcement, now: int, maxAge: nat, maxBytes: int, goneP: set<Name>, goneR: set<Name>, tried: set<Name>)
    requires Sorted(r.pending) && DistinctNames(r.pending) && Sorted(r.rejected) && DistinctNames(r.rejected)
    requires ReadApart(r.pending, r.unread.Keys)
    requires r.goneRejected == Names(ExpiredOnly(r.rejected, now, maxAge))
    requires r.gonePending == Names(ExpiredOnly(r.pending, now, maxAge)) + AgedUnread(r.unread, now, maxAge)
    requires r.tried == r.gonePending + r.goneRejected && tried == goneP + goneR
    requires
      var p, q := Young(r.pending, now, maxAge), Young(r.rejected, now, maxAge);
      var inner := Intermediate(p, NewestNames(p));
      var total := Total(p) + Total(q);
      var kq := DropCount(q, total, maxBytes);
      var kp := DropCount(inner, total - Total(q[..kq]), maxBytes);
      goneR == Names(q[..kq]) && goneP == Names(inner[..kp])
    ensures Enforced(r.(gonePending := r.gonePending + goneP, goneRejected := r.goneRejected + goneR, tried := r.tried + tried), now, maxAge, maxBytes)
  {
    hide Sorted, DistinctNames, ReadApart, Young, Total, DropCount, Intermediate, NewestNames, ExpiredOnly, AgedUnread, Names;
  }

  lemma DropsTrans(a: Fs, b: Fs, c: Fs, p: set<Name>, q: set<Name>, p': set<Name>, q': set<Name>)
    requires Drops(a, b, p, q) && Drops(b, c, p', q')
    ensures Drops(a, c, p + p', q + q')
  {}

  lemma KeptTrans(k0: Kept, k1: Kept, k2: Kept, t: set<Name>, t': set<Name>)
    requires KeptWithout(k0, k1, t) && KeptWithout(k1, k2, t')
    ensures KeptWithout(k0, k2, t + t')
  {}

  lemma NoNames()
    ensures Names([]) == {}
  {}

  lemma NoneRejected(fs: Fs)
    requires fs.WellFormed()
    ensures PendingEntries(fs, []) && RejectedEntries(fs, [])
  {}

  lemma NothingSorted()
    ensures Sorted([]) && DistinctNames([])
  {}

  lemma NotTemp(fs: Fs, p: seq<Entry>, q: seq<Entry>)
    requires fs.WellFormed() && PendingEntries(fs, p) && RejectedEntries(fs, q)
    ensures (forall e :: e in p ==> !e.name.Temp?) && (forall e :: e in q ==> !e.name.Temp?)
  {}

  lemma NamesWithin(es: seq<Entry>, keep: seq<Entry>, now: int, maxAge: nat)
    requires forall e :: e in keep ==> e in es
    ensures Names(ExpiredOnly(es, now, maxAge)) <= Names(es) && Names(keep) <= Names(es)
  {
    forall n | n in Names(ExpiredOnly(es, now, maxAge)) ensures n in Names(es) {
      var e :| e in ExpiredOnly(es, now, maxAge) && e.name == n;
      AgesSplit(es, now, maxAge, e);
    }
  }

  lemma CandidatesWithin(es: seq<Entry>, newest: map<ScopeKey, Name>)
    ensures Names(Intermediate(es, newest)) <= Names(es)
  {
    forall n | n in Names(Intermediate(es, newest)) ensures n in Names(es) {
      var e :| e in Intermediate(es, newest) && e.name == n;
      IntermediateHas(es, newest, e);
    }
  }

  lemma {:induction false} IntermediateOfNothing(es: seq<Entry>)
    ensures Intermediate(es, map[]) == es
  {
    if es != [] {
      IntermediateOfNothing(es[1..]);
    }
  }

  lemma DropsNothing(a: Fs, kept: Kept)
    ensures Drops(a, a, {}, {}) && KeptWithout(kept, kept, {})
  {
    assert a.pending.live - {} == a.pending.live && a.rejected.live - {} == a.rejected.live;
  }

  lemma Dropping(r: Enforcement, a: Fs, b: Fs, c: Fs, k0: Kept, k1: Kept, k2: Kept, w: Which, gone: set<Name>, tried: set<Name>)
    returns (r': Enforcement)
    requires Drops(a, b, r.gonePending, r.goneRejected) && Loses(b, c, w, gone)
    requires KeptWithout(k0, k1, r.tried) && KeptWithout(k1, k2, tried)
    ensures r' == r.(gonePending := if w == Pending then r.gonePending + gone else r.gonePending,
                     goneRejected := if w == Rejected then r.goneRejected + gone else r.goneRejected,
                     tried := r.tried + tried)
    ensures Drops(a, c, r'.gonePending, r'.goneRejected) && KeptWithout(k0, k2, r'.tried)
  {
    r' := r.(gonePending := if w == Pending then r.gonePending + gone else r.gonePending,
             goneRejected := if w == Rejected then r.goneRejected + gone else r.goneRejected,
             tried := r.tried + tried);
    if w == Pending {
      assert a.pending.live - r.gonePending - gone == a.pending.live - (r.gonePending + gone);
    } else {
      assert a.rejected.live - r.goneRejected - gone == a.rejected.live - (r.goneRejected + gone);
    }
  }

  lemma LosesNothing(a: Fs, w: Which, kept: Kept)
    ensures Loses(a, a, w, {}) && KeptWithout(kept, kept, {})
  {
    assert a.pending.live - {} == a.pending.live && a.rejected.live - {} == a.rejected.live;
  }

  lemma LosesStep(a: Fs, b: Fs, c: Fs, w: Which, gone: set<Name>, n: Name)
    requires Loses(a, b, w, gone) && RemoveState(b, c, w, n)
    ensures Loses(a, c, w, if n in c.At(w).live then gone else gone + {n})
  {}

  lemma KeptStep(k0: Kept, k1: Kept, k2: Kept, tried: set<Name>, n: Name)
    requires KeptWithout(k0, k1, tried) && (k2 == k1 - {n} || k2 == k1)
    ensures KeptWithout(k0, k2, tried + {n})
  {}

  lemma NamesOfCons(e: Entry, es: seq<Entry>)
    ensures Names([e] + es) == {e.name} + Names(es)
  {}

  lemma NamesOfSnoc(es: seq<Entry>, e: Entry)
    ensures Names(es + [e]) == Names(es) + {e.name}
  {}

  lemma NamesOfPrefix(a: seq<Entry>, b: seq<Entry>)
    requires a <= b
    ensures Names(a) <= Names(b)
  {}

  /** A run of removals for max_age: `rest` is still to be looked at. */
  ghost predicate AgeRun(es: seq<Entry>, rest: seq<Entry>, now: int, maxAge: nat, keep: seq<Entry>, failed: bool,
                         gone: set<Name>, tried: set<Name>)
  {
    && gone <= tried && tried + Names(ExpiredOnly(rest, now, maxAge)) == Names(ExpiredOnly(es, now, maxAge))
    && (forall e :: e in keep || e in rest ==> e in es) && Total(keep) + Total(rest) <= Total(es)
    && (!failed ==> gone == tried && keep + Young(rest, now, maxAge) == Young(es, now, maxAge))
  }

  lemma AgeRunStart(es: seq<Entry>, now: int, maxAge: nat)
    ensures AgeRun(es, es, now, maxAge, [], false, {}, {})
  {}

  lemma AgeRunStep(es: seq<Entry>, e: Entry, rest: seq<Entry>, now: int, maxAge: nat, keep: seq<Entry>, failed: bool,
                   gone: set<Name>, tried: set<Name>, ok: bool, isGone: bool)
    requires AgeRun(es, [e] + rest, now, maxAge, keep, failed, gone, tried) && (ok && Expired(e, now, maxAge) ==> isGone)
    requires !Expired(e, now, maxAge) ==> ok && !isGone
    ensures AgeRun(es, rest, now, maxAge, if !Expired(e, now, maxAge) || !ok then keep + [e] else keep, failed || !ok,
                   if isGone then gone + {e.name} else gone, if Expired(e, now, maxAge) then tried + {e.name} else tried)
  {
    hide Young, ExpiredOnly, Names, Expired;
    AgeUnfold(e, rest, now, maxAge);
    NamesOfCons(e, ExpiredOnly(rest, now, maxAge));
    assert forall x :: x in rest ==> x in [e] + rest;
    assert ([e] + rest)[0] == e;
    assert keep + ([e] + Young(rest, now, maxAge)) == (keep + [e]) + Young(rest, now, maxAge);
    TotalConcat(keep, [e]);
    TotalConcat([e], rest);
  }

  lemma AgeUnfold(e: Entry, rest: seq<Entry>, now: int, maxAge: nat)
    ensures Young([e] + rest, now, maxAge) == if Expired(e, now, maxAge) then Young(rest, now, maxAge) else [e] + Young(rest, now, maxAge)
    ensures ExpiredOnly([e] + rest, now, maxAge) ==
            if Expired(e, now, maxAge) then [e] + ExpiredOnly(rest, now, maxAge) else ExpiredOnly(rest, now, maxAge)
  {
    assert ([e] + rest)[0] == e && ([e] + rest)[1..] == rest;
  }

  lemma AgeRunEnd(es: seq<Entry>, now: int, maxAge: nat, keep: seq<Entry>, failed: bool, gone: set<Name>, tried: set<Name>)
    requires AgeRun(es, [], now, maxAge, keep, failed, gone, tried)
    ensures gone <= tried == Names(ExpiredOnly(es, now, maxAge)) && (forall e :: e in keep ==> e in es) && Total(keep) <= Total(es)
    ensures !failed ==> gone == tried && keep == Young(es, now, maxAge)
  {}

  /** A run of removals for max_bytes: `done` were tried, `rest` are still candidates. */
  ghost predicate DropRun(cs: seq<Entry>, done: seq<Entry>, rest: seq<Entry>, total: int, left: int, limit: int,
                          failed: bool, gone: set<Name>, tried: set<Name>)
  {
    && done + rest == cs
    && gone <= tried == Names(done)
    && (!failed ==>
          && gone == tried && left == total - Total(done)
          && DropCount(cs, total, limit) == |done| + DropCount(rest, left, limit))
  }

  lemma IntermediateFrom(es: seq<Entry>, i: nat, spare: map<ScopeKey, Name>)
    requires i < |es|
    ensures Intermediate(es[i..], spare) ==
            if es[i].key in spare && spare[es[i].key] == es[i].name then Intermediate(es[i + 1..], spare)
            else [es[i]] + Intermediate(es[i + 1..], spare)
  {
    assert es[i..][0] == es[i] && es[i..][1..] == es[i + 1..];
  }

  lemma NothingLeft(es: seq<Entry>, spare: map<ScopeKey, Name>)
    ensures es == [] ==> Intermediate(es, spare) == []
  {}

  lemma DropRunStart(cs: seq<Entry>, total: int, limit: int)
    ensures DropRun(cs, [], cs, total, total, limit, false, {}, {})
  {}

  lemma DropRunStep(cs: seq<Entry>, done: seq<Entry>, e: Entry, rest: seq<Entry>, total: int, left: int, limit: int,
                    failed: bool, gone: set<Name>, tried: set<Name>, ok: bool, isGone: bool)
    requires DropRun(cs, done, [e] + rest, total, left, limit, failed, gone, tried) && left > limit && (ok ==> isGone)
    ensures DropRun(cs, done + [e], rest, total, if ok then left - e.size else left, limit, failed || !ok,
                    if isGone then gone + {e.name} else gone, tried + {e.name})
  {
    assert done + [e] + rest == done + ([e] + rest);
    NamesOfSnoc(done, e);
    TotalConcat(done, [e]);
    assert ([e] + rest)[1..] == rest;
  }

  lemma DropRunEnd(cs: seq<Entry>, done: seq<Entry>, rest: seq<Entry>, total: int, left: int, limit: int,
                   failed: bool, gone: set<Name>, tried: set<Name>)
    requires DropRun(cs, done, rest, total, left, limit, failed, gone, tried) && (rest == [] || left <= limit)
    ensures gone <= tried <= Names(cs)
    ensures !failed ==> var k := DropCount(cs, total, limit); gone == tried == Names(cs[..k]) && left == total - Total(cs[..k])
  {}

  lemma NamesAfterInsert(es: seq<Entry>, e: Entry)
    requires e.name !in Names(es)
    ensures Names(Insert(es, e)) == Names(es) + {e.name}
    ensures forall x :: x in es ==> x.name != e.name
  {
    forall x | x in es ensures x.name in Names(es) {}
    forall n ensures n in Names(Insert(es, e)) <==> n in Names(es) + {e.name} {
      if n in Names(Insert(es, e)) {
        var x :| x in Insert(es, e) && x.name == n;
        InsertHas(es, e, x);
      }
      if n in Names(es) {
        var x :| x in es && x.name == n;
        InsertHas(es, e, x);
      }
      InsertHas(es, e, e);
    }
  }

  lemma SortedHasDistinctNames(es: seq<Entry>, e: Entry)
    requires Sorted(es) && DistinctNames(es) && forall x :: x in es ==> x.name != e.name
    ensures Sorted(Insert(es, e)) && DistinctNames(Insert(es, e))
    ensures forall x :: x in Insert(es, e) <==> x in es || x == e
  {
    var r := Insert(es, e);
    InsertKeepsOrder(es, e);
    forall x ensures x in r <==> x in es || x == e {
      InsertHas(es, e, x);
    }
    forall i, j | 0 <= i < j < |r| ensures r[i].name != r[j].name {
      assert Before(r[i], r[j]) && r[i] in r && r[j] in r;
      if r[i] != e && r[j] != e {
        var k :| 0 <= k < |es| && es[k] == r[i];
        var l :| 0 <= l < |es| && es[l] == r[j];
        assert k != l;
      }
    }
  }
}
