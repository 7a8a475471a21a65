/** The durable spool: snapshots waiting to be sent in spool/, refused ones in rejected/. */
module RecordSpool {
  import opened Options
  import opened FileSystem
  import opened SpoolEntries
  import opened Durability
  import opened SpoolState

  class Spool {
    const disk: Disk
    const maxAge: nat
    const maxBytes: int
    var cache: map<(Which, Name), Entry>
    var unreadable: map<Name, int>
    var unknown: set<ScopeKey>
    var erased: set<string>
    var overMax: bool

    /** The snapshots whose Put has succeeded and whose removal has not begun. */
    ghost var kept: Kept
    /** The files whose own move failed to make rejected/ durable. */
    ghost var atRisk: set<Name>
    /** The subjects whose purge has succeeded. */
    ghost var purged: set<string>

    ghost predicate Core()
      reads this, disk
    {
      && Settled(disk.fs) && NoTemp(kept) && CrashSafe(disk.fs, kept, atRisk)
      && (disk.power ==> LiveSafe(disk.fs, kept, atRisk)) && (disk.reliable ==> atRisk == {})
      && CacheMatches(disk.fs, cache)
      && (forall n :: n in unreadable ==> n.Canonical? && unreadable[n] == n.at)
      && purged <= erased && "" !in purged && NothingAbout(disk.fs, purged)
    }

    /** What every operation keeps, wherever in it the power is lost. */
    ghost predicate Valid()
      reads this, disk
    {
      Core() && Apart(disk.fs)
    }

    constructor (disk: Disk, maxAge: nat, maxBytes: int, ghost kept: Kept)
      requires Settled(disk.fs) && NoTemp(kept) && CrashSafe(disk.fs, kept, {}) && LiveSafe(disk.fs, kept, {})
      ensures Core() && this.disk == disk && this.kept == kept && atRisk == {} && purged == {} && erased == {}
      ensures this.maxAge == maxAge && this.maxBytes == maxBytes && cache == map[]
    {
      this.disk, this.maxAge, this.maxBytes := disk, maxAge, maxBytes;
      cache, unreadable, unknown, erased, overMax := map[], map[], {}, {}, false;
      this.kept, atRisk, purged := kept, {}, {};
    }

    // ---- One file ----

    /** Reads one file, from the cache when it was read before. */
    method ParseEntry(w: Which, n: Name) returns (r: Parsed)
      requires Core()
      modifies this`cache, disk`faults
      ensures Core()
      ensures r.Found? ==> n in disk.fs.At(w).live && IsSnapshotFile(n, disk.fs.Data(w, n))
                           && r.entry == EntryOf(n, disk.fs.Data(w, n), w == Rejected)
      ensures r.Mismatch? ==> !n.Canonical? || (n in disk.fs.At(w).live && !IsSnapshotFile(n, disk.fs.Data(w, n)))
      ensures r.Unread? ==> n.Canonical?
      ensures r.Absent? ==> n !in disk.fs.At(w).live
      ensures cache.Keys <= old(cache.Keys) + {(w, n)}
      ensures disk.faults >= old(disk.faults) && (!r.Unread? || disk.faults > old(disk.faults))
    {
      hide InRange, Finished, CrashSafe, LiveSafe, NothingAbout, NoTemp;
      if (w, n) in cache {
        return Found(cache[(w, n)]);
      }
      if !n.Canonical? {
        return Mismatch;
      }
      var read := disk.ReadFile(w, n);
      match read
      case Failed => r := Unread;
      case Missing => r := Absent;
      case Got(c) =>
        if !IsSnapshotFile(n, c) {
          return Mismatch;
        }
        var e := EntryOf(n, c, w == Rejected);
        cache := cache[(w, n) := e];
        r := Found(e);
    }

    /** Renames spool/n into rejected/, then makes rejected/ durable before spool/. */
    method MoveToRejectedLocked(n: Name) returns (ok: bool)
      requires Core() && !n.Temp? && (n in disk.fs.pending.live ==> n !in disk.fs.rejected.live)
      modifies this`cache, this`unreadable, this`atRisk, disk
      ensures Core()
      ensures MoveState(old(disk.fs), disk.fs, n)
      ensures ok ==> disk.power && n in old(disk.fs).pending.live
                     && disk.fs == old(disk.fs).Move(n).SyncDir(Rejected).SyncDir(Pending)
      ensures atRisk == old(atRisk)
              || (atRisk == old(atRisk) + {n} && n in old(disk.fs).pending.live && disk.fs == old(disk.fs).Move(n))
      ensures unreadable == old(unreadable) - {n} && cache == old(cache) - {(Pending, n)}
      ensures !old(disk.power) ==> !disk.power
      ensures disk.faults >= old(disk.faults) && (ok || n !in old(disk.fs).pending.live || disk.faults > old(disk.faults))
    {
      hide InRange, Finished, CrashSafe, LiveSafe, CacheMatches, NothingAbout, NoTemp, MoveState;
      MoveKeepsAll(disk.fs, cache, purged, kept, atRisk, n);
      cache := cache - {(Pending, n)};
      unreadable := unreadable - {n};
      ok := disk.Move(n);
      if !ok {
        return;
      }
      ok := disk.SyncDir(Rejected);
      if !ok {
        if disk.power {
          atRisk := atRisk + {n};
        }
        return;
      }
      ok := disk.SyncDir(Pending);
    }

    /** Removes a file; the removal is durable when this succeeds. */
    method RemoveLocked(w: Which, n: Name) returns (ok: bool)
      requires Valid() && !n.Temp?
      modifies this`cache, this`unreadable, this`kept, disk
      ensures Valid() && kept == if old(disk.power) then old(kept) - {n} else old(kept)
      ensures RemoveState(old(disk.fs), disk.fs, w, n)
      ensures ok ==> disk.power && n !in disk.fs.At(w).live && n !in disk.fs.At(w).durable
      ensures unreadable == old(unreadable) - {n}
      ensures !old(disk.power) ==> !disk.power
      ensures disk.faults >= old(disk.faults) && (ok || disk.faults > old(disk.faults))
    {
      hide InRange, Finished, CrashSafe, LiveSafe, CacheMatches, NothingAbout, NoTemp, Apart, RemoveState;
      RemoveKeepsAll(disk.fs, cache, purged, kept, atRisk, w, n);
      cache := cache - {(w, n)};
      unreadable := unreadable - {n};
      if disk.power {
        kept := kept - {n};
      }
      var missing;
      ok, missing := disk.Remove(w, n);
      if !ok && !missing {
        return;
      }
      ok := disk.SyncDir(w);
    }

    /** Temp file, write, fsync, close, rename, fsync of the directory. On a failure before the
        rename the temp file is removed. */
    method WriteAtomic(n: Name, s: Snap, stamp: nat, mtime: int) returns (ok: bool)
      requires Valid() && Nowhere(disk.fs, n) && n !in kept && !n.Temp?
      requires SubjectOf(s.scope) !in purged
      modifies disk
      ensures Valid() && Adds(old(disk.fs), disk.fs, n, s) && Files(disk.fs) <= Files(old(disk.fs)) + {n}
      ensures disk.fs.rejected == old(disk.fs).rejected
      ensures ok ==> disk.power && n in disk.fs.pending.live && n in disk.fs.pending.durable
                     && disk.fs.Data(Pending, n) == disk.fs.Durable(Pending, n) == Whole(s)
      ensures !old(disk.power) ==> !disk.power
      ensures disk.faults >= old(disk.faults) && (ok || Temp(stamp) in old(disk.fs).pending.live || disk.faults > old(disk.faults))
    {
      hide Finished, CrashSafe, LiveSafe, CacheMatches, NothingAbout, Apart, NoTemp, Adds, Nowhere, InRange, Stage;
      var tmp := Temp(stamp);
      ghost var a := disk.fs;
      AddsNothing(a, n, s);
      var handle;
      ok, handle := disk.CreateExcl(tmp, mtime);
      if !ok {
        return;
      }
      StageStart(a, tmp, mtime);
      StageKeeps(a, disk.fs, cache, purged, kept, atRisk, tmp, n, s);
      ok := disk.Write(handle, s);
      StageWrite(a, a.Create(tmp, mtime), disk.fs, tmp, s);
      if ok {
        ghost var b := disk.fs;
        ok := disk.Fsync(handle);
        StageSync(a, b, tmp);
      }
      StageKeeps(a, disk.fs, cache, purged, kept, atRisk, tmp, n, s);
      var closed := disk.Close();
      ok := ok && closed;
      ghost var g := disk.fs;
      if ok {
        StageRename(a, g, cache, purged, kept, atRisk, tmp, n, s);
        ok := disk.Rename(tmp, n);
      }
      if !ok {
        StageRemove(a, g, cache, purged, kept, atRisk, tmp, n, s);
        var gone, missing := disk.Remove(Pending, tmp);
        return;
      }
      StageDone(a, disk.fs, cache, purged, kept, atRisk, n, s);
      ok := disk.SyncDir(Pending);
    }

    // ---- Listings ----

    /** One file of spool/: its entry; a file that is not a snapshot is quarantined; a read error
        says nothing about the file, which stays. `clean` says that neither the read nor the
        quarantine failed. */
    method PendingEntryLocked(n: Name) returns (r: Option<Entry>, ghost clean: bool)
      requires Core() && !n.Temp? && n in disk.fs.pending.live && n !in disk.fs.rejected.live
      modifies this`cache, this`unreadable, this`atRisk, disk
      ensures Core()
      ensures MoveState(old(disk.fs), disk.fs, n)
      ensures IsSnapshotFile(n, old(disk.fs).Data(Pending, n)) ==> disk.fs == old(disk.fs)
      ensures r.Some? ==> disk.fs == old(disk.fs) && IsSnapshotFile(n, disk.fs.Data(Pending, n))
                          && r.value == EntryOf(n, disk.fs.Data(Pending, n), false)
      ensures clean && r.None? ==> disk.power && !IsSnapshotFile(n, old(disk.fs).Data(Pending, n))
                                   && disk.fs == old(disk.fs).Move(n).SyncDir(Rejected).SyncDir(Pending)
      ensures atRisk == old(atRisk) || (atRisk == old(atRisk) + {n} && !IsSnapshotFile(n, old(disk.fs).Data(Pending, n)))
      ensures unreadable.Keys <= old(unreadable.Keys) + {n} && (r.Some? ==> n !in unreadable)
      ensures cache.Keys <= old(cache.Keys) + {(Pending, n)}
      ensures !old(disk.power) ==> !disk.power
      ensures disk.faults >= old(disk.faults) && (clean || disk.faults > old(disk.faults))
    {
      var p := ParseEntry(Pending, n);
      clean := true;
      match p
      case Found(e) =>
        unreadable := unreadable - {n};
        r := Some(e);
      case Mismatch =>
        var ok := MoveToRejectedLocked(n);
        clean := ok;
        r := None;
      case Absent =>
        r := None;
      case Unread =>
        unreadable := unreadable[n := n.at];
        clean := false;
        r := None;
    }

    /** spool/, oldest first. Files that are not snapshots are quarantined on the way and files
        that cannot be read are left out; `allRead` says there were none of these. */
    method ListPendingLocked() returns (ok: bool, es: seq<Entry>, ghost allRead: bool)
      requires Valid()
      modifies this`cache, this`unreadable, this`atRisk, disk
      ensures Valid() && Quarantines(old(disk.fs), disk.fs)
      ensures ok ==> Sorted(es) && DistinctNames(es) && PendingEntries(disk.fs, es)
      ensures forall e :: e in es ==> e.name in disk.fs.pending.live && Tells(e, disk.fs.Data(Pending, e.name)) && !e.rejected && !e.unreadable
      ensures ok && allRead ==> AllPending(disk.fs, es)
      ensures ok ==> ReadApart(es, unreadable.Keys)
      ensures !ok ==> es == []
      ensures NewRisks(old(disk.fs), old(atRisk), atRisk)
      ensures Files(disk.fs) <= Files(old(disk.fs))
      ensures !old(disk.power) ==> !disk.power
      ensures disk.faults >= old(disk.faults) && ((ok && allRead) || disk.faults > old(disk.faults))
    {
      hide Files, ReadApart, InRange, Finished, CrashSafe, LiveSafe, CacheMatches, NothingAbout, ListedBut, NewRisks, Quarantines, PendingEntries, AllPending,
        Sorted, DistinctNames, MoveState, Insert, Tells;
      ListingEmpty(disk.fs, atRisk);
      NoneRead(unreadable.Keys);
      es, allRead := [], true;
      var names;
      ok, names := disk.ReadDir(Pending);
      if !ok {
        return;
      }
      ghost var a := disk.fs;
      var todo := set n | n in names && !n.Temp?;
      var seen := todo;
      while todo != {}
        invariant Valid() && ListedBut(a, disk.fs, todo, es, allRead)
        invariant NewRisks(a, old(atRisk), atRisk) && ReadApart(es, unreadable.Keys)
        invariant Files(disk.fs) <= Files(old(disk.fs))
        invariant disk.faults >= old(disk.faults) && (allRead || disk.faults > old(disk.faults))
      {
        var n :| n in todo;
        ListedTodo(a, disk.fs, todo, es, allRead, n);
        ghost var before, risks, unread := disk.fs, atRisk, unreadable.Keys;
        var r;
        ghost var clean;
        r, clean := PendingEntryLocked(n);
        MoveAddsNoFile(before, disk.fs, n);
        ReadApartStep(a, before, todo, es, allRead, n, r, unread, unreadable.Keys);
        ListingStep(a, before, disk.fs, todo, es, allRead, n, r, clean);
        NewRisksStep(a, before, todo, es, allRead, n, old(atRisk), risks, atRisk);
        todo := todo - {n};
        if r.Some? {
          es := Insert(es, r.value);
        } else {
          allRead := allRead && clean;
        }
      }
      ghost var unread := unreadable.Keys;
      ListingDone(a, disk.fs, es, allRead);
      PendingTell(disk.fs, es);
      unreadable := map n | n in unreadable && n in seen :: unreadable[n];
      ReadApartFewer(es, unread, unreadable.Keys);
    }

    /** rejected/, oldest first; a file that cannot be read as a snapshot gets an entry of its own. */
    method ListRejectedLocked() returns (ok: bool, es: seq<Entry>, ghost allRead: bool)
      requires Valid()
      modifies this`cache, disk`faults
      ensures Valid()
      ensures Sorted(es) && DistinctNames(es) && RejectedEntries(disk.fs, es)
      ensures forall e :: e in es ==> e.name in disk.fs.rejected.live && Tells(e, disk.fs.Data(Rejected, e.name)) && e.rejected
      ensures ok && allRead ==> AllRejected(disk.fs, es)
      ensures ok ==> Names(es) == set n | n in disk.fs.rejected.live && !n.Temp?
      ensures !ok ==> es == []
      ensures disk.faults >= old(disk.faults) && ((ok && allRead) || disk.faults > old(disk.faults))
    {
      hide InRange, Finished, CrashSafe, LiveSafe, CacheMatches, NothingAbout, RejectedBut, RejectedEntries, AllRejected,
        Sorted, DistinctNames, Insert, Names, Apart, NoTemp, Tells;
      es, allRead := [], true;
      NoneRejected(disk.fs);
      NothingSorted();
      var names;
      ok, names := disk.ReadDir(Rejected);
      if !ok {
        return;
      }
      var todo := set n | n in names && !n.Temp?;
      RejectedBegin(disk.fs, todo);
      while todo != {}
        invariant Valid() && RejectedBut(disk.fs, todo, es, allRead)
        invariant disk.faults >= old(disk.faults) && (allRead || disk.faults > old(disk.faults))
      {
        var n :| n in todo;
        RejectedTodo(disk.fs, todo, es, allRead, n);
        var p := ParseEntry(Rejected, n);
        var f := disk.fs.files[disk.fs.rejected.live[n]];
        var e := if p.Found? then p.entry else UnreadableEntry(n, f.data.Size(), f.mtime);
        RejectedStep(disk.fs, todo, es, allRead, n, e, !p.Unread?);
        todo := todo - {n};
        allRead := allRead && !p.Unread?;
        es := Insert(es, e);
      }
      RejectedEnd(disk.fs, es, allRead);
      RejectedTell(disk.fs, es);
    }

    /** Recounts both directories for the gauges. It lists them as every listing does, so that a file that
        is not a snapshot is quarantined here too. */
    method RefreshGauges() returns (ok: bool, files: nat, refused: nat, bytes: nat, oldest: Option<int>,
                                    ghost pending: seq<Entry>, ghost rejected: seq<Entry>)
      requires Valid()
      modifies this`cache, this`unreadable, this`atRisk, disk
      ensures Valid() && Quarantines(old(disk.fs), disk.fs)
      ensures ok ==> PendingEntries(disk.fs, pending) && Sorted(pending) && RejectedEntries(disk.fs, rejected) && Sorted(rejected)
      ensures ok ==> files == |pending| && refused == |rejected| && bytes == Total(pending) + Total(rejected)
      ensures ok ==> oldest == if pending == [] then None else Some(pending[0].at)
      ensures NewRisks(old(disk.fs), old(atRisk), atRisk)
      ensures Files(disk.fs) <= Files(old(disk.fs))
      ensures !old(disk.power) ==> !disk.power
      ensures disk.faults >= old(disk.faults) && (ok || disk.faults > old(disk.faults))
    {
      hide Files, ReadApart, InRange, Finished, CrashSafe, LiveSafe, CacheMatches, NothingAbout, Quarantines, NewRisks, PendingEntries, RejectedEntries,
        AllPending, AllRejected, Sorted, DistinctNames, Names, Apart, NoTemp, Total;
      files, refused, bytes, oldest := 0, 0, 0, None;
      var es, rs, ok2;
      ghost var all1, all2;
      ok, es, all1 := ListPendingLocked();
      ok2, rs, all2 := ListRejectedLocked();
      pending, rejected, ok := es, rs, ok && ok2;
      if ok {
        files, refused, bytes := |es|, |rs|, Total(es) + Total(rs);
        oldest := if es == [] then None else Some(es[0].at);
      }
    }

    // ---- Bounds ----

    /** Drops the entries over max_age. `tried` are the files whose removal began and `gone` those
        that are no longer there. */
    method DropExpired(w: Which, es: seq<Entry>, now: int)
      returns (keep: seq<Entry>, failed: bool, ghost gone: set<Name>, ghost tried: set<Name>)
      requires Valid() && forall e :: e in es ==> !e.name.Temp?
      modifies this`cache, this`unreadable, this`kept, disk
      ensures Valid() && Loses(old(disk.fs), disk.fs, w, gone) && KeptWithout(old(kept), kept, tried)
      ensures gone <= tried == Names(ExpiredOnly(es, now, maxAge))
      ensures (forall e :: e in keep ==> e in es) && Total(keep) <= Total(es)
      ensures !failed ==> gone == tried && keep == Young(es, now, maxAge)
      ensures unreadable.Keys <= old(unreadable.Keys)
      ensures Files(disk.fs) <= Files(old(disk.fs))
      ensures !old(disk.power) ==> !disk.power
      ensures disk.faults >= old(disk.faults) && (!failed || disk.faults > old(disk.faults))
    {
      hide Files, Settled, CrashSafe, LiveSafe, CacheMatches, NothingAbout, RemoveState, Loses, KeptWithout, Apart, NoTemp, AgeRun, Names,
        Young, ExpiredOnly, Total;
      ghost var a := disk.fs;
      keep, failed, gone, tried := [], false, {}, {};
      LosesNothing(a, w, kept);
      AgeRunStart(es, now, maxAge);
      assert es[0..] == es;
      var i := 0;
      while i < |es|
        invariant 0 <= i <= |es|
        invariant Valid() && Loses(a, disk.fs, w, gone) && KeptWithout(old(kept), kept, tried)
        invariant AgeRun(es, es[i..], now, maxAge, keep, failed, gone, tried)
        invariant unreadable.Keys <= old(unreadable.Keys)
        invariant Files(disk.fs) <= Files(old(disk.fs))
        invariant !old(disk.power) ==> !disk.power
        invariant disk.faults >= old(disk.faults) && (!failed || disk.faults > old(disk.faults))
      {
        var e := es[i];
        var ok := true;
        ghost var b, k := disk.fs, kept;
        ghost var isGone := false;
        assert es[i..] == [e] + es[i + 1..];
        if Expired(e, now, maxAge) {
          ok := RemoveLocked(w, e.name);
          LosesStep(a, b, disk.fs, w, gone, e.name);
          RemoveAddsNoFile(b, disk.fs, w, e.name);
          KeptStep(old(kept), k, kept, tried, e.name);
          isGone := e.name !in disk.fs.At(w).live;
        }
        AgeRunStep(es, e, es[i + 1..], now, maxAge, keep, failed, gone, tried, ok, isGone);
        if Expired(e, now, maxAge) {
          tried := tried + {e.name};
          gone := if isGone then gone + {e.name} else gone;
        }
        if !Expired(e, now, maxAge) || !ok {
          keep := keep + [e];
        }
        failed := failed || !ok;
        i := i + 1;
      }
      assert es[i..] == [];
      AgeRunEnd(es, now, maxAge, keep, failed, gone, tried);
    }

    /** Drops entries, oldest first, until `total` is within max_bytes; those `spare` names as the
        newest of their scope are passed over. */
    method DropOverLimit(w: Which, es: seq<Entry>, spare: map<ScopeKey, Name>, total: int)
      returns (left: int, failed: bool, ghost gone: set<Name>, ghost tried: set<Name>)
      requires Valid() && forall e :: e in es ==> !e.name.Temp?
      modifies this`cache, this`unreadable, this`kept, disk
      ensures Valid() && Loses(old(disk.fs), disk.fs, w, gone) && KeptWithout(old(kept), kept, tried)
      ensures gone <= tried <= Names(Intermediate(es, spare)) && (total <= maxBytes ==> tried == {})
      ensures !failed ==>
        var cs := Intermediate(es, spare);
        var k := DropCount(cs, total, maxBytes);
        gone == tried == Names(cs[..k]) && left == total - Total(cs[..k])
      ensures unreadable.Keys <= old(unreadable.Keys)
      ensures Files(disk.fs) <= Files(old(disk.fs))
      ensures !old(disk.power) ==> !disk.power
      ensures disk.faults >= old(disk.faults) && (!failed || disk.faults > old(disk.faults))
    {
      hide Files, Settled, CrashSafe, LiveSafe, CacheMatches, NothingAbout, RemoveState, Loses, KeptWithout, Apart, NoTemp,
        DropRun, Names, Total, DropCount, Intermediate;
      ghost var a := disk.fs;
      ghost var cs := Intermediate(es, spare);
      ghost var done: seq<Entry> := [];
      left, failed, gone, tried := total, false, {}, {};
      LosesNothing(a, w, kept);
      DropRunStart(cs, total, maxBytes);
      assert es[0..] == es;
      var i := 0;
      while i < |es|
        invariant 0 <= i <= |es|
        invariant Valid() && Loses(a, disk.fs, w, gone) && KeptWithout(old(kept), kept, tried)
        invariant DropRun(cs, done, Intermediate(es[i..], spare), total, left, maxBytes, failed, gone, tried)
        invariant left <= total && (total <= maxBytes ==> tried == {})
        invariant unreadable.Keys <= old(unreadable.Keys)
        invariant Files(disk.fs) <= Files(old(disk.fs))
        invariant !old(disk.power) ==> !disk.power
        invariant disk.faults >= old(disk.faults) && (!failed || disk.faults > old(disk.faults))
      {
        if left <= maxBytes {
          break;
        }
        var e := es[i];
        IntermediateFrom(es, i, spare);
        if !(e.key in spare && spare[e.key] == e.name) {
          ghost var b, k, was := disk.fs, kept, left;
          var ok := RemoveLocked(w, e.name);
          LosesStep(a, b, disk.fs, w, gone, e.name);
          RemoveAddsNoFile(b, disk.fs, w, e.name);
          KeptStep(old(kept), k, kept, tried, e.name);
          if ok {
            left := left - e.size;
          }
          DropRunStep(cs, done, e, Intermediate(es[i + 1..], spare), total, was, maxBytes, failed, gone, tried, ok, e.name !in disk.fs.At(w).live);
          done, failed, tried := done + [e], failed || !ok, tried + {e.name};
          if e.name !in disk.fs.At(w).live {
            gone := gone + {e.name};
          }
        }
        i := i + 1;
      }
      NothingLeft(es[i..], spare);
      DropRunEnd(cs, done, Intermediate(es[i..], spare), total, left, maxBytes, failed, gone, tried);
    }

    /** Ages the pending files whose last read failed by the time in their names. */
    method DropUnreadable(now: int) returns (failed: bool, ghost gone: set<Name>, ghost tried: set<Name>)
      requires Valid()
      modifies this`cache, this`unreadable, this`kept, disk
      ensures Valid() && Loses(old(disk.fs), disk.fs, Pending, gone) && KeptWithout(old(kept), kept, tried)
      ensures gone <= tried == AgedUnread(old(unreadable), now, maxAge)
      ensures !failed ==> gone == tried
      ensures Files(disk.fs) <= Files(old(disk.fs))
      ensures !old(disk.power) ==> !disk.power
      ensures disk.faults >= old(disk.faults) && (!failed || disk.faults > old(disk.faults))
    {
      hide Files, Settled, CrashSafe, LiveSafe, CacheMatches, NothingAbout, RemoveState, Loses, KeptWithout, Apart, NoTemp;
      ghost var a := disk.fs;
      failed, gone, tried := false, {}, {};
      LosesNothing(a, Pending, kept);
      var todo := set n | n in unreadable && now - unreadable[n] > maxAge;
      while todo != {}
        invariant Valid() && Loses(a, disk.fs, Pending, gone) && KeptWithout(old(kept), kept, tried)
        invariant gone <= tried && tried + todo == AgedUnread(old(unreadable), now, maxAge)
        invariant forall n :: n in todo ==> !n.Temp?
        invariant !failed ==> gone == tried
        invariant Files(disk.fs) <= Files(old(disk.fs))
        invariant !old(disk.power) ==> !disk.power
        invariant disk.faults >= old(disk.faults) && (!failed || disk.faults > old(disk.faults))
      {
        var n :| n in todo;
        ghost var b, k := disk.fs, kept;
        var ok := RemoveLocked(Pending, n);
        LosesStep(a, b, disk.fs, Pending, gone, n);
        RemoveAddsNoFile(b, disk.fs, Pending, n);
        KeptStep(old(kept), k, kept, tried, n);
        todo, tried := todo - {n}, tried + {n};
        if n !in disk.fs.pending.live {
          gone := gone + {n};
        }
        failed := failed || !ok;
      }
    }

    /** max_age, over both listings and the pending files that could not be read. */
    method AgeLocked(now: int, pending: seq<Entry>, rejected: seq<Entry>)
      returns (keptP: seq<Entry>, keptR: seq<Entry>, failed: bool, ghost r: Enforcement)
      requires Valid() && PendingEntries(disk.fs, pending) && RejectedEntries(disk.fs, rejected)
      modifies this`cache, this`unreadable, this`kept, disk
      ensures Valid() && KeptWithout(old(kept), kept, r.tried) && Drops(old(disk.fs), disk.fs, r.gonePending, r.goneRejected)
      ensures r.unread.Keys <= old(unreadable.Keys) && NamesTimes(r.unread)
      ensures r.listed == old(disk.fs) && r.pending == pending && r.rejected == rejected
      ensures r.tried <= Names(pending) + Names(rejected) + r.unread.Keys && r.tried == Overdue(r, now, maxAge)
      ensures (forall e :: e in keptP ==> e in pending) && (forall e :: e in keptR ==> e in rejected)
      ensures Total(keptP) + Total(keptR) <= Total(pending) + Total(rejected)
      ensures !failed ==>
        && r.tried == r.gonePending + r.goneRejected
        && keptP == Young(pending, now, maxAge) && keptR == Young(rejected, now, maxAge)
        && r.goneRejected == Names(ExpiredOnly(rejected, now, maxAge))
        && r.gonePending == Names(ExpiredOnly(pending, now, maxAge)) + AgedUnread(r.unread, now, maxAge)
      ensures Files(disk.fs) <= Files(old(disk.fs))
      ensures !old(disk.power) ==> !disk.power
      ensures disk.faults >= old(disk.faults) && (!failed || disk.faults > old(disk.faults))
    {
      hide Files, InRange, Finished, CrashSafe, LiveSafe, CacheMatches, NothingAbout, Loses, KeptWithout, Apart, NoTemp, Drops, Names,
        Young, ExpiredOnly, Total, PendingEntries, RejectedEntries;
      NotTemp(disk.fs, pending, rejected);
      ghost var a := disk.fs;
      DropsNothing(a, kept);
      r := Enforcement(a, pending, rejected, map[], {}, {}, {});
      ghost var gone, tried, f, k := {}, {}, disk.fs, kept;
      var fail1, fail2, fail3;
      keptP, fail1, gone, tried := DropExpired(Pending, pending, now);
      r := Dropping(r, a, f, disk.fs, old(kept), k, kept, Pending, gone, tried);
      NamesWithin(pending, keptP, now, maxAge);
      r, f, k := r.(unread := unreadable), disk.fs, kept;
      fail2, gone, tried := DropUnreadable(now);
      r := Dropping(r, a, f, disk.fs, old(kept), k, kept, Pending, gone, tried);
      f, k := disk.fs, kept;
      keptR, fail3, gone, tried := DropExpired(Rejected, rejected, now);
      r := Dropping(r, a, f, disk.fs, old(kept), k, kept, Rejected, gone, tried);
      NamesWithin(rejected, keptR, now, maxAge);
      failed := fail1 || fail2 || fail3;
    }

    /** max_bytes, over what max_age left. */
    method ShrinkLocked(keptP: seq<Entry>, keptR: seq<Entry>) returns (failed: bool, ghost goneP: set<Name>, ghost goneR: set<Name>, ghost tried: set<Name>)
      requires Valid() && (forall e :: e in keptP ==> !e.name.Temp?) && (forall e :: e in keptR ==> !e.name.Temp?)
      modifies this`cache, this`unreadable, this`kept, this`overMax, disk
      ensures Valid() && KeptWithout(old(kept), kept, tried) && Drops(old(disk.fs), disk.fs, goneP, goneR)
      ensures tried <= Names(keptP) + Names(keptR)
      ensures Total(keptP) + Total(keptR) <= maxBytes ==> tried == {}
      ensures !failed ==> tried == goneP + goneR
      ensures !failed ==>
        var inner := Intermediate(keptP, NewestNames(keptP));
        var total := Total(keptP) + Total(keptR);
        var kr := DropCount(keptR, total, maxBytes);
        var kp := DropCount(inner, total - Total(keptR[..kr]), maxBytes);
        goneR == Names(keptR[..kr]) && goneP == Names(inner[..kp]) && overMax == (total - Total(keptR[..kr]) - Total(inner[..kp]) > maxBytes)
      ensures Files(disk.fs) <= Files(old(disk.fs))
      ensures !old(disk.power) ==> !disk.power
      ensures disk.faults >= old(disk.faults) && (!failed || disk.faults > old(disk.faults))
    {
      hide Files, Settled, CrashSafe, LiveSafe, CacheMatches, NothingAbout, Loses, KeptWithout, Apart, NoTemp, Drops, Names,
        Total, Intermediate, NewestNames;
      ghost var a := disk.fs;
      DropsNothing(a, kept);
      ghost var r := Enforcement(a, keptP, keptR, map[], {}, {}, {});
      NoNames();
      failed, goneP, goneR, tried := false, {}, {}, {};
      var total := Total(keptP) + Total(keptR);
      if total <= maxBytes {
        overMax := false;
        return;
      }
      ghost var gone, f, k := {}, disk.fs, kept;
      var left, fail1, fail2;
      left, fail1, gone, tried := DropOverLimit(Rejected, keptR, map[], total);
      r := Dropping(r, a, f, disk.fs, old(kept), k, kept, Rejected, gone, tried);
      f, k := disk.fs, kept;
      IntermediateOfNothing(keptR);
      CandidatesWithin(keptP, NewestNames(keptP));
      left, fail2, gone, tried := DropOverLimit(Pending, keptP, NewestNames(keptP), left);
      r := Dropping(r, a, f, disk.fs, old(kept), k, kept, Pending, gone, tried);
      overMax := left > maxBytes;
      failed, goneP, goneR, tried := fail1 || fail2, r.gonePending, r.goneRejected, r.tried;
    }

    /** Applies max_age and max_bytes to what was listed. */
    method EnforceListed(now: int, pending: seq<Entry>, rejected: seq<Entry>) returns (ok: bool, ghost r: Enforcement)
      requires Valid() && PendingEntries(disk.fs, pending) && RejectedEntries(disk.fs, rejected)
      requires Sorted(pending) && DistinctNames(pending) && Sorted(rejected) && DistinctNames(rejected)
      requires ReadApart(pending, unreadable.Keys)
      modifies this`cache, this`unreadable, this`kept, this`unknown, this`overMax, disk
      ensures Valid() && KeptWithout(old(kept), kept, r.tried)
      ensures r.listed == old(disk.fs) && r.pending == pending && r.rejected == rejected
      ensures Drops(r.listed, disk.fs, r.gonePending, r.goneRejected)
      ensures r.tried <= Names(r.pending) + Names(r.rejected) + r.unread.Keys && DueTo(r, now, maxAge, maxBytes)
      ensures ok ==> Enforced(r, now, maxAge, maxBytes)
      ensures Files(disk.fs) <= Files(old(disk.fs))
      ensures !old(disk.power) ==> !disk.power
      ensures disk.faults >= old(disk.faults) && (ok || disk.faults > old(disk.faults))
    {
      hide Files, ReadApart, InRange, Finished, CrashSafe, LiveSafe, CacheMatches, NothingAbout, Loses, KeptWithout, Apart, NoTemp,
        Drops, Enforced, DueTo, Overdue, Sorted, DistinctNames, Names, Total, DropCount, Intermediate, Young, ExpiredOnly, NewestNames,
        PendingEntries, RejectedEntries;
      ghost var a, unread := disk.fs, unreadable.Keys;
      NotTemp(a, pending, rejected);
      var keptP, keptR, fail1;
      keptP, keptR, fail1, r := AgeLocked(now, pending, rejected);
      unknown := set key | key in unknown && exists e :: e in keptP && e.key == key;
      NamesWithin(pending, keptP, now, maxAge);
      NamesWithin(rejected, keptR, now, maxAge);
      ghost var f, k := disk.fs, kept;
      var fail2;
      ghost var goneP, goneR, tried;
      fail2, goneP, goneR, tried := ShrinkLocked(keptP, keptR);
      DropsTrans(a, f, disk.fs, r.gonePending, r.goneRejected, goneP, goneR);
      KeptTrans(old(kept), k, kept, r.tried, tried);
      DueToBoth(r, now, maxAge, maxBytes, goneP, goneR, tried, Total(keptP) + Total(keptR));
      ok := !fail1 && !fail2;
      if ok {
        ReadApartFewer(pending, unread, r.unread.Keys);
        EnforcedIntro(r, now, maxAge, maxBytes, goneP, goneR, tried);
      }
      r := r.(gonePending := r.gonePending + goneP, goneRejected := r.goneRejected + goneR, tried := r.tried + tried);
    }

    /** Applies max_age and max_bytes. `now` is in milliseconds, rounded up: a file is over max_age
        at a finer clock exactly when it is at that one. */
    method EnforceLocked(now: int) returns (ok: bool, ghost r: Enforcement)
      requires Valid()
      modifies this`cache, this`unreadable, this`atRisk, this`kept, this`unknown, this`overMax, disk
      ensures Valid() && KeptWithout(old(kept), kept, r.tried)
      ensures NewRisks(old(disk.fs), old(atRisk), atRisk)
      ensures Quarantines(old(disk.fs), r.listed) && Drops(r.listed, disk.fs, r.gonePending, r.goneRejected)
      ensures r.listed.WellFormed() && PendingEntries(r.listed, r.pending) && RejectedEntries(r.listed, r.rejected)
      ensures r.tried <= Names(r.pending) + Names(r.rejected) + r.unread.Keys && DueTo(r, now, maxAge, maxBytes)
      ensures ok ==> Enforced(r, now, maxAge, maxBytes)
      ensures Files(disk.fs) <= Files(old(disk.fs))
      ensures !old(disk.power) ==> !disk.power
      ensures disk.faults >= old(disk.faults) && (ok || disk.faults > old(disk.faults))
    {
      hide Files, ReadApart, InRange, Finished, CrashSafe, LiveSafe, CacheMatches, NothingAbout, KeptWithout, Apart, NoTemp, NewRisks,
        Quarantines, Drops, Enforced, DueTo, Sorted, DistinctNames, Names, PendingEntries, RejectedEntries, AllRejected, AllPending;
      var pending, rejected;
      ghost var allRead;
      ok, pending, allRead := ListPendingLocked();
      r := Enforcement(disk.fs, pending, [], unreadable, {}, {}, {});
      DropsNothing(disk.fs, kept);
      NoneRejected(disk.fs);
      NothingDue(r, now, maxAge, maxBytes);
      if !ok {
        return;
      }
      ok, rejected, allRead := ListRejectedLocked();
      if !ok {
        return;
      }
      ok, r := EnforceListed(now, pending, rejected);
    }

    // ---- What callers do ----

    /** Writes a snapshot that is nowhere in the spool yet. It succeeds when the snapshot is durable,
        and also, writing nothing, when it is about a subject that was erased. `written` is the
        state before the bounds are applied; `bounded` says that they could be. */
    method Put(s: Snap, now: int, stamp: nat)
      returns (err: bool, ghost written: Fs, ghost r: Enforcement, ghost bounded: bool)
      requires Valid() && Nowhere(disk.fs, NameOf(s)) && NameOf(s) !in kept && NameOf(s) !in atRisk
      modifies this, disk
      ensures Valid() && erased == old(erased) && purged == old(purged)
      ensures !Acceptable(s) ==> err && disk.fs == old(disk.fs) && kept == old(kept)
      ensures Acceptable(s) && Banned(s, erased) ==> !err && disk.fs == old(disk.fs) && kept == old(kept)
      ensures err ==> kept == old(kept) && Adds(old(disk.fs), disk.fs, NameOf(s), s)
      ensures !err && !Banned(s, erased) ==>
        && written.WellFormed() && Adds(old(disk.fs), written, NameOf(s), s)
        && NameOf(s) in written.pending.durable && written.Durable(Pending, NameOf(s)) == Whole(s)
        && r.listed.WellFormed() && Quarantines(written, r.listed) && Drops(r.listed, disk.fs, r.gonePending, r.goneRejected)
        && PendingEntries(r.listed, r.pending) && RejectedEntries(r.listed, r.rejected)
        && KeptWithout(old(kept)[NameOf(s) := Whole(s)], kept, r.tried)
        && r.tried <= Names(r.pending) + Names(r.rejected) + r.unread.Keys && DueTo(r, now, maxAge, maxBytes)
        && (bounded ==> Enforced(r, now, maxAge, maxBytes))
      ensures s.id.Uuid? ==> NameOf(s) !in atRisk
      ensures Files(disk.fs) <= Files(old(disk.fs)) + {NameOf(s)}
      ensures atRisk <= old(atRisk) + Files(old(disk.fs)) + {NameOf(s)}
      ensures !old(disk.power) ==> !disk.power
      ensures disk.faults >= old(disk.faults)
      ensures (!err && (Banned(s, erased) || bounded)) || !Acceptable(s) || Temp(stamp) in old(disk.fs).pending.live || disk.faults > old(disk.faults)
    {
      hide Files, InRange, Finished, CrashSafe, LiveSafe, CacheMatches, NothingAbout, NewRisks, Quarantines, Drops, Enforced, DueTo, Names,
        PendingEntries, RejectedEntries, Adds, Apart, NoTemp, KeptWithout, Banned;
      r, bounded, written := Enforcement(disk.fs, [], [], map[], {}, {}, {}), false, disk.fs;
      var n := NameOf(s);
      AddsNothing(disk.fs, n, s);
      if !Acceptable(s) {
        return true, written, r, bounded;
      }
      if Refused(s, erased) {
        return false, written, r, bounded;
      }
      var ok := WriteAtomic(n, s, stamp, now);
      if !ok {
        return true, written, r, bounded;
      }
      written := disk.fs;
      NowKept(disk.fs, kept, atRisk, n, s);
      kept := kept[n := Whole(s)];
      PutIsNoRisk(disk.fs, n, s);
      ghost var risks := atRisk;
      ok, r := EnforceLocked(now);
      bounded := ok;
      NoRiskFor(written, risks, atRisk, n);
      RisksAreFiles(written, risks, atRisk);
      err := false;
    }

    /** Removes a file that the journal has accepted or that must not be kept. */
    method Delete(e: Entry) returns (ok: bool)
      requires Valid() && !e.name.Temp?
      modifies this`cache, this`unreadable, this`kept, disk
      ensures Valid() && kept == if old(disk.power) then old(kept) - {e.name} else old(kept)
      ensures RemoveState(old(disk.fs), disk.fs, if e.rejected then Rejected else Pending, e.name)
      ensures ok ==> var d := disk.fs.At(if e.rejected then Rejected else Pending); disk.power && e.name !in d.durable && e.name !in d.live
      ensures !old(disk.power) ==> !disk.power
      ensures disk.faults >= old(disk.faults) && (ok || disk.faults > old(disk.faults))
    {
      ok := RemoveLocked(if e.rejected then Rejected else Pending, e.name);
    }

    /** Moves a pending file to rejected/. */
    method Reject(e: Entry) returns (ok: bool)
      requires Valid() && !e.name.Temp?
      modifies this`cache, this`unreadable, this`atRisk, disk
      ensures Valid() && MoveState(old(disk.fs), disk.fs, e.name)
      ensures ok ==> disk.power && e.name in old(disk.fs).pending.live && e.name in disk.fs.rejected.durable && e.name !in disk.fs.pending.durable
                     && e.name !in disk.fs.pending.live
      ensures atRisk <= old(atRisk) + {e.name}
      ensures !old(disk.power) ==> !disk.power
      ensures disk.faults >= old(disk.faults) && (ok || e.name !in old(disk.fs).pending.live || disk.faults > old(disk.faults))
    {
      ok := MoveToRejectedLocked(e.name);
    }

    /** Removes the listed files that are about `subject`. */
    method DropAbout(w: Which, es: seq<Entry>, subject: string)
      returns (count: nat, failed: bool, ghost gone: set<Name>)
      requires Valid() && forall e :: e in es ==> !e.name.Temp?
      modifies this`cache, this`unreadable, this`kept, disk
      ensures Valid() && Loses(old(disk.fs), disk.fs, w, gone) && KeptWithout(old(kept), kept, AboutNames(es, subject))
      ensures gone <= AboutNames(es, subject) && (!failed ==> gone == AboutNames(es, subject))
      ensures count <= CountAbout(es, subject) && (!failed ==> count == CountAbout(es, subject))
      ensures !old(disk.power) ==> kept == old(kept)
      ensures Files(disk.fs) <= Files(old(disk.fs))
      ensures !old(disk.power) ==> !disk.power
      ensures disk.faults >= old(disk.faults) && (!failed || disk.faults > old(disk.faults))
    {
      hide Files, Settled, CrashSafe, LiveSafe, CacheMatches, NothingAbout, RemoveState, Loses, KeptWithout, Apart, NoTemp;
      ghost var a := disk.fs;
      ghost var tried := {};
      count, failed, gone := 0, false, {};
      LosesNothing(a, w, kept);
      for i := 0 to |es|
        invariant Valid() && Loses(a, disk.fs, w, gone) && KeptWithout(old(kept), kept, tried)
        invariant gone <= tried == AboutNames(es[..i], subject) && (!failed ==> gone == tried)
        invariant count <= CountAbout(es[..i], subject) && (!failed ==> count == CountAbout(es[..i], subject))
        invariant !old(disk.power) ==> kept == old(kept)
        invariant Files(disk.fs) <= Files(old(disk.fs))
        invariant !old(disk.power) ==> !disk.power
        invariant disk.faults >= old(disk.faults) && (!failed || disk.faults > old(disk.faults))
      {
        var e := es[i];
        AboutSnoc(es, i, subject);
        if e.subject == subject {
          ghost var b, k := disk.fs, kept;
          var ok := RemoveLocked(w, e.name);
          LosesStep(a, b, disk.fs, w, gone, e.name);
          RemoveAddsNoFile(b, disk.fs, w, e.name);
          KeptStep(old(kept), k, kept, tried, e.name);
          tried := tried + {e.name};
          if e.name !in disk.fs.At(w).live {
            gone := gone + {e.name};
          }
          if ok {
            count := count + 1;
          } else {
            failed := true;
          }
        }
      }
      assert es[..|es|] == es;
    }

    /** Deletes the listed files about `subject`. */
    method PurgeListed(subject: string, pending: seq<Entry>, rejected: seq<Entry>) returns (count: nat, failed: bool, ghost p: Purge)
      requires Valid() && subject != "" && PendingEntries(disk.fs, pending) && RejectedEntries(disk.fs, rejected)
      modifies this`cache, this`unreadable, this`kept, disk
      ensures Valid() && p.listed == old(disk.fs) && p.pending == pending && p.rejected == rejected
      ensures Drops(old(disk.fs), disk.fs, p.gonePending, p.goneRejected)
      ensures p.gonePending <= AboutNames(pending, subject) && p.goneRejected <= AboutNames(rejected, subject)
      ensures !failed ==> p.gonePending == AboutNames(pending, subject) && p.goneRejected == AboutNames(rejected, subject)
                          && count == CountAbout(pending, subject) + CountAbout(rejected, subject)
      ensures KeptWithout(old(kept), kept, AboutNames(pending, subject) + AboutNames(rejected, subject))
      ensures forall n :: n in old(kept) && n !in kept && n !in atRisk ==> IsAbout(old(kept)[n], subject)
      ensures Files(disk.fs) <= Files(old(disk.fs))
      ensures !old(disk.power) ==> !disk.power
      ensures disk.faults >= old(disk.faults) && (!failed || disk.faults > old(disk.faults))
    {
      hide Files, InRange, Finished, CrashSafe, LiveSafe, CacheMatches, NothingAbout, Loses, KeptWithout, Apart, NoTemp,
        Drops, PendingEntries, RejectedEntries, AboutNames, IsAbout, Names;
      NotTemp(disk.fs, pending, rejected);
      DropsNothing(disk.fs, kept);
      ghost var a, f, k, live := disk.fs, disk.fs, kept, disk.power;
      if live {
        KeptAbout(f, kept, atRisk, pending, rejected, subject);
      }
      var n1, fail1, n2, fail2;
      ghost var goneP, goneR;
      n1, fail1, goneP := DropAbout(Pending, pending, subject);
      LosesDrops(a, f, disk.fs, {}, {}, Pending, goneP);
      ghost var k1 := kept;
      f := disk.fs;
      n2, fail2, goneR := DropAbout(Rejected, rejected, subject);
      LosesDrops(a, f, disk.fs, {} + goneP, {}, Rejected, goneR);
      assert {} + goneP == goneP && {} + goneR == goneR;
      KeptTrans(k, k1, kept, AboutNames(pending, subject), AboutNames(rejected, subject));
      KeptLost(k, kept, AboutNames(pending, subject) + AboutNames(rejected, subject), atRisk, subject, live);
      count, failed, p := n1 + n2, fail1 || fail2, Purge(a, pending, rejected, goneP, goneR);
    }

    /** Deletes every file about `subject` and refuses later Puts about it. `readable` says that
        every file could be read. */
    method PurgeSubject(subject: string) returns (count: nat, err: bool, ghost readable: bool, ghost p: Purge)
      requires Valid()
      modifies this, disk
      ensures Valid() && erased == (if subject == "" then old(erased) else old(erased) + {subject})
      ensures old(purged) <= purged <= old(purged) + {subject}
      ensures !err && readable && subject != "" ==> subject in purged && NothingAbout(disk.fs, {subject}) && NoneNames(disk.fs, subject)
      ensures subject == "" ==> count == 0 && !err && disk.fs == old(disk.fs) && kept == old(kept)
      ensures Purges(old(disk.fs), disk.fs, subject, p)
      ensures !err && subject != "" ==> count == CountAbout(p.pending, subject) + CountAbout(p.rejected, subject)
      ensures KeptWithout(old(kept), kept, AboutNames(p.pending, subject) + AboutNames(p.rejected, subject))
      ensures forall n :: n in old(kept) && n !in kept && n !in atRisk ==> IsAbout(old(kept)[n], subject)
      ensures NewRisks(old(disk.fs), old(atRisk), atRisk)
      ensures Files(disk.fs) <= Files(old(disk.fs))
      ensures !old(disk.power) ==> !disk.power
      ensures disk.faults >= old(disk.faults) && ((!err && readable) || disk.faults > old(disk.faults))
    {
      hide Files, InRange, Finished, CrashSafe, LiveSafe, CacheMatches, NothingAbout, Loses, KeptWithout, Apart, NoTemp, NewRisks, Quarantines,
        Drops, PendingEntries, RejectedEntries, AllRejected, AllPending, AboutNames, IsAbout, Sorted, DistinctNames, Names,
        NoneNames, Tells;
      count, err, readable := 0, false, true;
      p := Purge(disk.fs, [], [], {}, {});
      NoRiskYet(disk.fs, atRisk, kept);
      NoneRejected(disk.fs);
      if subject == "" {
        return;
      }
      erased := erased + {subject};
      var ok, pending;
      ghost var all1, all2;
      ok, pending, all1 := ListPendingLocked();
      p := p.(listed := disk.fs);
      DropsNothing(disk.fs, kept);
      NoneRejected(disk.fs);
      KeptMore(kept, AboutNames([], subject) + AboutNames([], subject));
      if !ok {
        err := true;
        return;
      }
      var rejected;
      ok, rejected, all2 := ListRejectedLocked();
      if !ok {
        err := true;
        return;
      }
      count, err, p := PurgeListed(subject, pending, rejected);
      readable := all1 && all2;
      if !err && readable {
        PurgedAll(p.listed, disk.fs, pending, rejected, subject, purged, p.gonePending, p.goneRejected);
        purged := purged + {subject};
        NothingIsNone(disk.fs, subject);
      }
    }

    /** Notes whether the head of a scope was last answered unknown_subject. */
    method MarkUnknown(key: ScopeKey, isUnknown: bool)
      requires Valid()
      modifies this`unknown
      ensures Valid() && unknown == if isUnknown then old(unknown) + {key} else old(unknown) - {key}
    {
      unknown := if isUnknown then unknown + {key} else unknown - {key};
    }

    // ---- Recovery ----

    /** Removes one leftover of a crash. */
    method RecoverRemove(w: Which, n: Name) returns (ok: bool)
      requires Core() && (w, n) !in cache && (n.Temp? || (w == Pending && n in disk.fs.rejected.live))
      modifies disk
      ensures Core()
      ensures ok ==> disk.power && disk.fs == old(disk.fs).Remove(w, n)
      ensures !ok ==> disk.fs == old(disk.fs)
      ensures !old(disk.power) ==> !disk.power
      ensures disk.faults >= old(disk.faults) && (ok || n !in old(disk.fs).At(w).live || disk.faults > old(disk.faults))
    {
      RemoveKeeps(disk.fs, kept, atRisk, w, n);
      MemoryKeepsRemove(disk.fs, cache, purged, w, n);
      assert cache - {(w, n)} == cache;
      var missing;
      ok, missing := disk.Remove(w, n);
    }

    method RemoveTemps(ghost a: Fs, files: set<Name>, others: set<Name>) returns (ok: bool)
      requires Core() && cache == map[] && a.WellFormed() && Recovering(a, disk.fs) && disk.fs == a
      requires files == disk.fs.rejected.live.Keys && others == set n | n in files && !n.Temp?
      modifies disk
      ensures Core() && Recovering(a, disk.fs)
      ensures disk.fs == a.(rejected := disk.fs.rejected) && disk.fs.rejected.durable == a.rejected.durable
      ensures ok ==> disk.fs.rejected.live.Keys == others
      ensures !old(disk.power) ==> !disk.power
      ensures disk.faults >= old(disk.faults) && (ok || disk.faults > old(disk.faults))
    {
      hide InRange, Finished, CrashSafe, LiveSafe, CacheMatches, NothingAbout, NoTemp, Recovering;
      ok := true;
      var temps := set n | n in files && n.Temp?;
      while temps != {}
        invariant Core() && Recovering(a, disk.fs) && ok
        invariant disk.fs == a.(rejected := disk.fs.rejected) && disk.fs.rejected.durable == a.rejected.durable
        invariant disk.fs.rejected.live.Keys == others + temps && forall n :: n in temps ==> n.Temp?
        invariant !old(disk.power) ==> !disk.power
        invariant disk.faults >= old(disk.faults)
      {
        var n :| n in temps;
        RecoveringRemove(a, disk.fs, Rejected, n);
        ok := RecoverRemove(Rejected, n);
        if !ok {
          return;
        }
        temps := temps - {n};
      }
    }

    /** Removes the temp files of rejected/ and says which files it holds. */
    method RecoverRejected() returns (ok: bool, inRejected: set<Name>)
      requires Core() && cache == map[]
      requires disk.fs.pending.live == disk.fs.pending.durable && disk.fs.rejected.live == disk.fs.rejected.durable
      modifies disk
      ensures Core() && Recovering(old(disk.fs), disk.fs)
      ensures ok ==> inRejected == (set n | n in old(disk.fs).rejected.live && !n.Temp?)
                     && RecoverLeft(old(disk.fs), disk.fs, inRejected, disk.fs.pending.live.Keys, true)
      ensures !old(disk.power) ==> !disk.power
      ensures disk.faults >= old(disk.faults) && (ok || disk.faults > old(disk.faults))
    {
      hide InRange, Finished, CrashSafe, LiveSafe, CacheMatches, NothingAbout, NoTemp, Recovering, RecoverLeft;
      ghost var a := disk.fs;
      RecoverStart(a);
      inRejected := {};
      var rnames;
      ok, rnames := disk.ReadDir(Rejected);
      if !ok {
        return;
      }
      inRejected := set n | n in rnames && !n.Temp?;
      ok := RemoveTemps(a, rnames, inRejected);
      if ok {
        RecoverLoop(a, disk.fs, inRejected);
      }
    }

    /** Removes the temp files of spool/ and those that are in rejected/ as well, and quarantines
        the files that are not snapshots. `clean` says that every file could be read and every
        quarantine done. */
    method RecoverPending(ghost a: Fs, inRejected: set<Name>) returns (ok: bool, ghost clean: bool)
      requires Core() && cache == map[] && a.WellFormed() && Recovering(a, disk.fs)
      requires RecoverLeft(a, disk.fs, inRejected, disk.fs.pending.live.Keys, true)
      modifies this`cache, this`unreadable, this`atRisk, disk
      ensures Core() && Recovering(a, disk.fs) && atRisk <= old(atRisk) + Files(a)
      ensures ok ==> RecoverLeft(a, disk.fs, inRejected, {}, clean)
      ensures !old(disk.power) ==> !disk.power
      ensures disk.faults >= old(disk.faults) && ((ok && clean) || disk.faults > old(disk.faults))
    {
      hide InRange, Finished, CrashSafe, LiveSafe, CacheMatches, NothingAbout, NoTemp, RejectedOnItsWay, PendingOnItsWay,
        RecoverLeft, MoveState;
      clean := true;
      var pnames;
      ok, pnames := disk.ReadDir(Pending);
      if !ok {
        return;
      }
      var todo := pnames;
      while todo != {}
        invariant Core() && Recovering(a, disk.fs) && RecoverLeft(a, disk.fs, inRejected, todo, clean)
        invariant forall n :: (Pending, n) in cache ==> n !in todo
        invariant atRisk <= old(atRisk) + Files(a)
        invariant disk.faults >= old(disk.faults) && (clean || disk.faults > old(disk.faults))
      {
        var n :| n in todo;
        RecoverNext(a, disk.fs, inRejected, todo, clean, n);
        ghost var b := disk.fs;
        if n.Temp? || n in inRejected {
          RecoveringRemove(a, disk.fs, Pending, n);
          ok := RecoverRemove(Pending, n);
          if !ok {
            return;
          }
          RecoverRemoved(a, b, inRejected, todo, clean, n);
        } else {
          var e;
          ghost var c;
          RecoveringAddsNoFile(a, b);
          e, c := PendingEntryLocked(n);
          RecoverParsed(a, b, disk.fs, inRejected, todo, clean, n, e, c);
          clean := clean && (e.Some? || c);
        }
        todo := todo - {n};
      }
      ok := true;
    }

    /** Puts the directories in order after a crash: temp files go; a file in both directories is
        kept in rejected/; files of spool/ that are not snapshots move there. Wherever it stops,
        another recovery ends in the same contents. */
    method Recover() returns (ok: bool, ghost clean: bool)
      requires Core() && cache == map[]
      requires disk.fs.pending.live == disk.fs.pending.durable && disk.fs.rejected.live == disk.fs.rejected.durable
      modifies this`cache, this`unreadable, this`atRisk, disk
      ensures Core() && Files(disk.fs) <= Files(old(disk.fs)) && atRisk <= old(atRisk) + Files(old(disk.fs))
      ensures TargetPending(disk.fs) == TargetPending(old(disk.fs)) && TargetRejected(disk.fs) == TargetRejected(old(disk.fs))
      ensures ok ==> Valid() && disk.power && NoTempFile(disk.fs)
                     && disk.fs.pending.live == disk.fs.pending.durable && disk.fs.rejected.live == disk.fs.rejected.durable
      ensures ok && clean ==> Contents(disk.fs, Pending) == TargetPending(old(disk.fs))
                              && Contents(disk.fs, Rejected) == TargetRejected(old(disk.fs))
      ensures !old(disk.power) ==> !disk.power
      ensures disk.faults >= old(disk.faults) && ((ok && clean) || disk.faults > old(disk.faults))
    {
      hide InRange, Finished, CrashSafe, LiveSafe, CacheMatchesIn, NothingAboutIn, NoTemp, Recovering, RecoverLeft, Apart, NoTempFile,
        TargetPending, TargetRejected, Contents, Files;
      clean := true;
      ghost var a := disk.fs;
      var inRejected;
      ok, inRejected := RecoverRejected();
      RecoveringKeepsTarget(a, disk.fs);
      RecoveringAddsNoFile(a, disk.fs);
      if !ok {
        return;
      }
      ok, clean := RecoverPending(a, inRejected);
      RecoveringKeepsTarget(a, disk.fs);
      RecoveringAddsNoFile(a, disk.fs);
      if !ok {
        return;
      }
      RecoveringSync(a, disk.fs);
      SyncKeepsCore(disk.fs, kept, atRisk, disk.power);
      ghost var last := disk.fs;
      ok := disk.SyncDir(Rejected);
      RecoveringKeepsTarget(a, disk.fs);
      RecoveringAddsNoFile(a, disk.fs);
      if !ok {
        return;
      }
      ok := disk.SyncDir(Pending);
      RecoveringKeepsTarget(a, disk.fs);
      RecoveringAddsNoFile(a, disk.fs);
      if ok {
        RecoverDone(a, last, inRejected, clean);
      }
    }
  }
}
