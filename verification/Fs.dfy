/** The file operations the record spool makes, with a meaning for power loss.

    A directory has visible (`live`) and durable entries and a file has visible and durable
    content. `SyncDir` makes a directory's entries durable and `Fsync` a file's content; a
    crash keeps only what was made durable. Files are shared between the entries that name
    them, so that a rename moves a file and never copies it. */
module FileSystem {

  // ---- Snapshots and the files that hold them ----

  /** `Uuid` is the canonical text of a UUID; `Loose` is another spelling that is accepted as
      one (upper case, braces); `Malformed` is anything else. */
  datatype Id = Uuid(n: nat) | Loose(n: nat) | Malformed

  datatype Part = Part(name: string, value: string)

  /** `at` is observed_at in milliseconds since the start of year 1. */
  datatype Snap = Snap(id: Id, at: int, recordType: string, scope: seq<Part>, payload: int, size: nat)

  /** File content: nothing, part of a snapshot, a whole snapshot, or bytes of other origin. */
  datatype Content = Empty | Torn(of: Snap) | Whole(snap: Snap) | Foreign(tag: int, length: nat) {
    function Size(): nat {
      match this
      case Empty => 0
      case Torn(s) => s.size / 2
      case Whole(s) => s.size
      case Foreign(_, n) => n
    }
  }

  /** A file name: a snapshot's own (its text and byte order are the subject of module
      SpoolNames), a temp file's, or any other. */
  datatype Name = Canonical(at: int, id: nat) | Temp(stamp: nat) | Other(tag: nat)

  function NameOf(s: Snap): Name {
    match s.id
    case Uuid(n) => Canonical(s.at, n)
    case Loose(n) => Other(n)
    case Malformed => Other(0)
  }

  // ---- The state of the two directories ----

  datatype File = File(data: Content, synced: Content, mtime: int)

  datatype Dir = Dir(live: map<Name, nat>, durable: map<Name, nat>)

  datatype Which = Pending | Rejected

  ghost predicate InRange(m: map<Name, nat>, count: nat) {
    forall n :: n in m ==> m[n] < count
  }

  datatype Fs = Fs(files: seq<File>, pending: Dir, rejected: Dir) {
    function At(w: Which): Dir {
      if w == Pending then pending else rejected
    }

    function With(w: Which, d: Dir): Fs {
      if w == Pending then this.(pending := d) else this.(rejected := d)
    }

    ghost predicate WellFormed() {
      && InRange(pending.live, |files|) && InRange(pending.durable, |files|)
      && InRange(rejected.live, |files|) && InRange(rejected.durable, |files|)
    }

    /** What a reader of `n` sees now. */
    function Data(w: Which, n: Name): Content
      requires n in At(w).live && At(w).live[n] < |files|
    {
      files[At(w).live[n]].data
    }

    /** What a reader of `n` would see after a power loss now. */
    function Durable(w: Which, n: Name): Content
      requires n in At(w).durable && At(w).durable[n] < |files|
    {
      files[At(w).durable[n]].synced
    }

    function Create(n: Name, mtime: int): Fs {
      this.(files := files + [File(Empty, Empty, mtime)], pending := pending.(live := pending.live[n := |files|]))
    }

    function Write(i: nat, c: Content): Fs
      requires i < |files|
    {
      this.(files := files[i := files[i].(data := c)])
    }

    function Fsync(i: nat): Fs
      requires i < |files|
    {
      this.(files := files[i := files[i].(synced := files[i].data)])
    }

    /** Rename within `Pending`. */
    function Rename(from: Name, to: Name): Fs
      requires from in pending.live
    {
      this.(pending := pending.(live := (pending.live - {from})[to := pending.live[from]]))
    }

    /** Rename from `Pending` into `Rejected`, keeping the name. */
    function Move(n: Name): Fs
      requires n in pending.live
    {
      this.(pending := pending.(live := pending.live - {n}),
            rejected := rejected.(live := rejected.live[n := pending.live[n]]))
    }

    function Remove(w: Which, n: Name): Fs {
      With(w, At(w).(live := At(w).live - {n}))
    }

    function SyncDir(w: Which): Fs {
      With(w, At(w).(durable := At(w).live))
    }

    /** What a new process finds after a power loss. */
    function Crash(): Fs {
      Fs(seq(|files|, i requires 0 <= i < |files| => File(files[i].synced, files[i].synced, files[i].mtime)),
         Dir(pending.durable, pending.durable), Dir(rejected.durable, rejected.durable))
    }
  }

  // ---- The disk ----

  /** The disk a process works on. Any operation may fail and change nothing, and the power may
      be lost at any operation: that operation and every later one then fail and change nothing.
      `faults` counts the operations that failed for such a reason. On a `reliable` disk the fsync
      of a directory fails only when the power is lost. */
  class Disk {
    var fs: Fs
    var power: bool
    var faults: nat
    const reliable: bool

    constructor (fs: Fs, reliable: bool)
      ensures this.fs == fs && power && this.reliable == reliable
    {
      this.fs, this.reliable := fs, reliable;
      power := true;
      faults := 0;
    }

    /** Decides how the next operation goes; a `sure` one fails only without power. */
    method Step(sure: bool) returns (ok: bool)
      modifies this`power, this`faults
      ensures (ok ==> power && old(power)) && (sure && !ok ==> !power)
      ensures !old(power) ==> !power
      ensures faults == if ok then old(faults) else old(faults) + 1
    {
      if power {
        power := *;
      }
      ok := *;
      ok := (ok || sure) && power;
      faults := if ok then faults else faults + 1;
    }

    method CreateExcl(n: Name, mtime: int) returns (ok: bool, handle: nat)
      modifies this
      ensures ok ==> power && n !in old(fs.pending.live) && handle == |old(fs).files| && fs == old(fs).Create(n, mtime)
      ensures !ok ==> fs == old(fs)
      ensures !old(power) ==> !power
      ensures faults >= old(faults) && (ok || faults > old(faults) || n in old(fs).pending.live)
    {
      ok := Step(false);
      handle := |fs.files|;
      ok := ok && n !in fs.pending.live;
      if ok {
        fs := fs.Create(n, mtime);
      }
    }

    /** A failed write may leave part of the data. */
    method Write(handle: nat, s: Snap) returns (ok: bool)
      requires handle < |fs.files|
      modifies this
      ensures ok ==> power && fs == old(fs).Write(handle, Whole(s))
      ensures !ok ==> fs == old(fs) || fs == old(fs).Write(handle, Torn(s))
      ensures !old(power) ==> !power && fs == old(fs)
      ensures faults >= old(faults) && (ok || faults > old(faults))
    {
      var was := power;
      ok := Step(false);
      var partly: bool := *;
      if ok {
        fs := fs.Write(handle, Whole(s));
      } else if was && partly {
        fs := fs.Write(handle, Torn(s));
      }
    }

    method Fsync(handle: nat) returns (ok: bool)
      requires handle < |fs.files|
      modifies this
      ensures ok ==> power && fs == old(fs).Fsync(handle)
      ensures !ok ==> fs == old(fs)
      ensures !old(power) ==> !power
      ensures faults >= old(faults) && (ok || faults > old(faults))
    {
      ok := Step(false);
      if ok {
        fs := fs.Fsync(handle);
      }
    }

    method Close() returns (ok: bool)
      modifies this`power, this`faults
      ensures ok ==> power
      ensures !old(power) ==> !power
      ensures faults >= old(faults) && (ok || faults > old(faults))
    {
      ok := Step(false);
    }

    method Rename(from: Name, to: Name) returns (ok: bool)
      modifies this
      ensures ok ==> power && from in old(fs).pending.live && fs == old(fs).Rename(from, to)
      ensures !ok ==> fs == old(fs)
      ensures !old(power) ==> !power
      ensures faults >= old(faults) && (ok || faults > old(faults) || from !in old(fs).pending.live)
    {
      ok := Step(false);
      ok := ok && from in fs.pending.live;
      if ok {
        fs := fs.Rename(from, to);
      }
    }

    method Move(n: Name) returns (ok: bool)
      modifies this
      ensures ok ==> power && n in old(fs).pending.live && fs == old(fs).Move(n)
      ensures !ok ==> fs == old(fs)
      ensures !old(power) ==> !power
      ensures faults >= old(faults) && (ok || faults > old(faults) || n !in old(fs).pending.live)
    {
      ok := Step(false);
      ok := ok && n in fs.pending.live;
      if ok {
        fs := fs.Move(n);
      }
    }

    /** `missing` says that the failure is that there is no such file. */
    method Remove(w: Which, n: Name) returns (ok: bool, missing: bool)
      modifies this
      ensures ok ==> power && n in old(fs).At(w).live && fs == old(fs).Remove(w, n)
      ensures !ok ==> fs == old(fs)
      ensures missing ==> !ok && power && n !in fs.At(w).live
      ensures !old(power) ==> !power
      ensures faults >= old(faults) && (ok || missing || faults > old(faults))
    {
      ok := Step(false);
      missing := ok && n !in fs.At(w).live;
      ok := ok && !missing;
      if ok {
        fs := fs.Remove(w, n);
      }
    }

    method SyncDir(w: Which) returns (ok: bool)
      modifies this
      ensures ok ==> power && fs == old(fs).SyncDir(w)
      ensures !ok ==> fs == old(fs) && (reliable ==> !power)
      ensures !old(power) ==> !power
      ensures faults >= old(faults) && (ok || faults > old(faults))
    {
      ok := Step(reliable);
      if ok {
        fs := fs.SyncDir(w);
      }
    }

    /** The names in a directory; an I/O error gives none. */
    method ReadDir(w: Which) returns (ok: bool, names: set<Name>)
      modifies this`faults
      ensures ok ==> power && names == fs.At(w).live.Keys
      ensures faults == if ok then old(faults) else old(faults) + 1
    {
      ok := *;
      ok := ok && power;
      faults := if ok then faults else faults + 1;
      names := fs.At(w).live.Keys;
    }

    /** The content of a file; it may be missing, or an I/O error may say nothing about it. */
    method ReadFile(w: Which, n: Name) returns (r: Read)
      requires fs.WellFormed()
      modifies this`faults
      ensures faults == if r.Failed? then old(faults) + 1 else old(faults)
      ensures r.Got? ==> power && n in fs.At(w).live && r.content == fs.Data(w, n)
      ensures r.Missing? ==> power && n !in fs.At(w).live
    {
      var ok: bool := *;
      if !power || !ok {
        faults := faults + 1;
        r := Failed;
      } else if n in fs.At(w).live {
        r := Got(fs.Data(w, n));
      } else {
        r := Missing;
      }
    }

    /** Power comes back: a new process finds what was durable. */
    method PowerOn()
      modifies this
      ensures power && fs == old(fs).Crash() && faults == old(faults)
    {
      fs := fs.Crash();
      power := true;
    }
  }

  datatype Read = Got(content: Content) | Missing | Failed
}
