/** What the spool knows about one file, the order of its listings, and the rules by which
    files are dropped for their age and for the spool's size. */
module SpoolEntries {
  import opened FileSystem

  datatype ScopeKey = ScopeKey(recordType: string, parts: seq<Part>)

  datatype Entry = Entry(name: Name, at: int, key: ScopeKey, subject: string, size: nat, rejected: bool, unreadable: bool)

  /** The value of the first data_subject part, "" when there is none. */
  function SubjectOf(scope: seq<Part>): string {
    if scope == [] then ""
    else if scope[0].name == "data_subject" then scope[0].value
    else SubjectOf(scope[1..])
  }

  /** Part `i` of a scope is its first that names a data subject. */
  ghost predicate FirstSubject(scope: seq<Part>, i: int) {
    0 <= i < |scope| && scope[i].name == "data_subject" && forall j :: 0 <= j < i ==> scope[j].name != "data_subject"
  }

  /** The scope is about the subject: its first data_subject part has that value. */
  ghost predicate NamesSubject(scope: seq<Part>, subject: string) {
    exists i :: FirstSubject(scope, i) && scope[i].value == subject
  }

  lemma {:induction false} SubjectIs(scope: seq<Part>)
    ensures forall i :: FirstSubject(scope, i) ==> SubjectOf(scope) == scope[i].value
    ensures (forall i :: 0 <= i < |scope| ==> scope[i].name != "data_subject") ==> SubjectOf(scope) == ""
    ensures SubjectOf(scope) != "" ==> NamesSubject(scope, SubjectOf(scope))
  {
    if scope != [] && scope[0].name != "data_subject" {
      SubjectIs(scope[1..]);
      forall i | FirstSubject(scope, i) ensures SubjectOf(scope) == scope[i].value {
        assert FirstSubject(scope[1..], i - 1);
      }
      if SubjectOf(scope) != "" {
        var i :| FirstSubject(scope[1..], i) && scope[1..][i].value == SubjectOf(scope);
        assert FirstSubject(scope, i + 1);
      }
    } else if scope != [] {
      assert FirstSubject(scope, 0);
    }
  }

  /** A scope has one subject at most, and it is the one that is read from it. */
  lemma SubjectMeans(scope: seq<Part>, subject: string)
    requires subject != ""
    ensures SubjectOf(scope) == subject <==> NamesSubject(scope, subject)
  {
    SubjectIs(scope);
  }

  /** A file is a spool snapshot's when its name parses and its content is a whole snapshot
      with the name's id and time and a scope. */
  predicate IsSnapshotFile(n: Name, c: Content) {
    n.Canonical? && c.Whole? && c.snap.id == Uuid(n.id) && c.snap.at == n.at && c.snap.scope != []
  }

  function EntryOf(n: Name, c: Content, rejected: bool): Entry
    requires IsSnapshotFile(n, c)
  {
    Entry(n, n.at, ScopeKey(c.snap.recordType, c.snap.scope), SubjectOf(c.snap.scope), c.snap.size, rejected, false)
  }

  /** A file of rejected/ that could not be read as a snapshot: aged by its name's time when the
      name parses, else by its modification time. */
  function UnreadableEntry(n: Name, size: nat, mtime: int): Entry {
    Entry(n, if n.Canonical? then n.at else mtime, ScopeKey("", []), "", size, true, true)
  }

  // ---- Listing order ----

  /** Names in byte order; module SpoolNames shows it for the names of snapshots. */
  predicate NameLess(a: Name, b: Name) {
    match (a, b)
    case (Canonical(t, i), Canonical(u, j)) => t < u || (t == u && i < j)
    case (Temp(i), Temp(j)) => i < j
    case (Other(i), Other(j)) => i < j
    case (Canonical(_, _), _) => true
    case (Temp(_), Other(_)) => true
    case _ => false
  }

  /** Oldest first, then by name. */
  predicate Before(a: Entry, b: Entry) {
    a.at < b.at || (a.at == b.at && NameLess(a.name, b.name))
  }

  ghost predicate Sorted(es: seq<Entry>) {
    forall i, j :: 0 <= i < j < |es| ==> Before(es[i], es[j])
  }

  /** A listing goes from the oldest to the newest, and by id among snapshots of one time. */
  lemma OldestFirst(es: seq<Entry>, i: nat, j: nat)
    requires Sorted(es) && i < j < |es|
    ensures es[i].at <= es[j].at
    ensures es[i].name.Canonical? && es[j].name.Canonical? && es[i].at == es[i].name.at == es[j].name.at == es[j].at ==>
              es[i].name.id < es[j].name.id
  {
    assert Before(es[i], es[j]);
  }

  function Insert(es: seq<Entry>, e: Entry): seq<Entry> {
    if es == [] then [e]
    else if Before(e, es[0]) then [e] + es
    else [es[0]] + Insert(es[1..], e)
  }

  lemma {:induction false} InsertHas(es: seq<Entry>, e: Entry, x: Entry)
    ensures x in Insert(es, e) <==> x in es || x == e
  {
    if es != [] && !Before(e, es[0]) {
      InsertHas(es[1..], e, x);
      assert x in es <==> x == es[0] || x in es[1..];
    }
  }

  lemma BeforeIsTotal(a: Entry, b: Entry, c: Entry)
    ensures a.name != b.name && !Before(a, b) ==> Before(b, a)
    ensures Before(a, b) && Before(b, c) ==> Before(a, c)
  {}

  lemma {:induction false} InsertKeepsOrder(es: seq<Entry>, e: Entry)
    requires Sorted(es) && forall x :: x in es ==> x.name != e.name
    ensures Sorted(Insert(es, e))
  {
    if es == [] {
    } else if Before(e, es[0]) {
      forall j | 0 <= j < |es| ensures Before(e, es[j]) {
        BeforeIsTotal(e, es[0], es[j]);
      }
    } else {
      var rest := Insert(es[1..], e);
      InsertKeepsOrder(es[1..], e);
      forall j | 0 <= j < |rest| ensures Before(es[0], rest[j]) {
        InsertHas(es[1..], e, rest[j]);
        assert es[0] in es;
        BeforeIsTotal(e, es[0], es[0]);
        if rest[j] != e {
          var k :| 0 <= k < |es[1..]| && es[1..][k] == rest[j];
          assert Before(es[0], es[k + 1]);
        }
      }
    }
  }

  // ---- Bounds ----

  predicate Expired(e: Entry, now: int, maxAge: nat) {
    now - e.at > maxAge
  }

  /** The entries young enough to keep. */
  function Young(es: seq<Entry>, now: int, maxAge: nat): seq<Entry> {
    if es == [] then []
    else if Expired(es[0], now, maxAge) then Young(es[1..], now, maxAge)
    else [es[0]] + Young(es[1..], now, maxAge)
  }

  /** The entries too old to keep. */
  function ExpiredOnly(es: seq<Entry>, now: int, maxAge: nat): seq<Entry> {
    if es == [] then []
    else if Expired(es[0], now, maxAge) then [es[0]] + ExpiredOnly(es[1..], now, maxAge)
    else ExpiredOnly(es[1..], now, maxAge)
  }

  lemma {:induction false} AgesSplit(es: seq<Entry>, now: int, maxAge: nat, e: Entry)
    ensures e in Young(es, now, maxAge) <==> e in es && now - e.at <= maxAge
    ensures e in ExpiredOnly(es, now, maxAge) <==> e in es && now - e.at > maxAge
  {
    if es != [] {
      AgesSplit(es[1..], now, maxAge, e);
      assert e in es <==> e == es[0] || e in es[1..];
    }
  }

  function Total(es: seq<Entry>): nat {
    if es == [] then 0 else es[0].size + Total(es[1..])
  }

  /** How many of the oldest entries go before the total is within the limit (all of them if it
      never is). */
  function DropCount(es: seq<Entry>, total: int, limit: int): (k: nat)
    ensures k <= |es|
  {
    if es == [] || total <= limit then 0
    else 1 + DropCount(es[1..], total - es[0].size, limit)
  }

  /** `e` is the last of its scope in `es`. */
  ghost predicate NewestOfScope(es: seq<Entry>, i: int)
    requires 0 <= i < |es|
  {
    forall j :: i < j < |es| ==> es[j].key != es[i].key
  }

  /** The name of the last entry of each scope. */
  function NewestNames(es: seq<Entry>): (m: map<ScopeKey, Name>)
    ensures forall e :: e in es ==> e.key in m
  {
    if es == [] then map[]
    else
      var last := |es| - 1;
      assert forall e :: e in es <==> e in es[..last] || e == es[last];
      NewestNames(es[..last])[es[last].key := es[last].name]
  }

  ghost predicate DistinctNames(es: seq<Entry>) {
    forall i, j :: 0 <= i < j < |es| ==> es[i].name != es[j].name
  }

  /** The entries that are not the newest of their scope. */
  function Intermediate(es: seq<Entry>, newest: map<ScopeKey, Name>): seq<Entry> {
    if es == [] then []
    else
      var rest := Intermediate(es[1..], newest);
      if es[0].key in newest && newest[es[0].key] == es[0].name then rest else [es[0]] + rest
  }

  lemma {:induction false} IntermediateHas(es: seq<Entry>, newest: map<ScopeKey, Name>, e: Entry)
    ensures e in Intermediate(es, newest) <==> e in es && !(e.key in newest && newest[e.key] == e.name)
  {
    if es != [] {
      IntermediateHas(es[1..], newest, e);
      assert e in es <==> e == es[0] || e in es[1..];
    }
  }

  /** What max_bytes drops, in order: rejected files oldest first, then pending files that are
      not the newest of their scope, oldest first. */
  function Candidates(pending: seq<Entry>, rejected: seq<Entry>): seq<Entry> {
    rejected + Intermediate(pending, NewestNames(pending))
  }

  lemma {:induction false} TotalConcat(a: seq<Entry>, b: seq<Entry>)
    ensures Total(a + b) == Total(a) + Total(b)
  {
    if a == [] {
      assert a + b == b;
    } else {
      assert (a + b)[0] == a[0] && (a + b)[1..] == a[1..] + b;
      TotalConcat(a[1..], b);
    }
  }

  /** The dropped prefix is the shortest that brings the total within the limit: afterwards the
      total is within it or nothing that may be dropped is left, and any shorter prefix leaves
      the total over it. */
  lemma {:induction false} DropCountIsShortest(es: seq<Entry>, total: int, limit: int)
    ensures var k := DropCount(es, total, limit);
      && (total - Total(es[..k]) <= limit || k == |es|)
      && forall j :: 0 <= j < k ==> total - Total(es[..j]) > limit
  {
    if es != [] && total > limit {
      var k := DropCount(es, total, limit);
      DropCountIsShortest(es[1..], total - es[0].size, limit);
      assert es[..k] == [es[0]] + es[1..][..k - 1];
      forall j | 0 <= j < k ensures total - Total(es[..j]) > limit {
        if j > 0 {
          assert es[..j] == [es[0]] + es[1..][..j - 1];
        }
      }
    }
  }

  /** Dropping from a list and then from a second one with what is left of the excess is
      dropping from the two lists in a row. */
  lemma {:induction false} DropCountConcat(a: seq<Entry>, b: seq<Entry>, total: int, limit: int)
    ensures var k := DropCount(a, total, limit);
      DropCount(a + b, total, limit) == k + DropCount(b, total - Total(a[..k]), limit)
  {
    if a == [] {
      assert a + b == b;
    } else if total > limit {
      assert (a + b)[0] == a[0] && (a + b)[1..] == a[1..] + b;
      DropCountConcat(a[1..], b, total - a[0].size, limit);
      var k := DropCount(a, total, limit);
      assert a[..k] == [a[0]] + a[1..][..k - 1];
    } else if b != [] {
      assert DropCount(a + b, total, limit) == 0;
    }
  }

  lemma {:induction false} NewestNameIsLast(es: seq<Entry>, i: int)
    requires 0 <= i < |es| && DistinctNames(es)
    ensures es[i].key in NewestNames(es)
    ensures NewestNames(es)[es[i].key] == es[i].name <==> NewestOfScope(es, i)
  {
    var last := |es| - 1;
    assert es[i] in es;
    if i < last {
      var init := es[..last];
      assert init[i] == es[i];
      NewestNameIsLast(init, i);
      if es[last].key == es[i].key {
        assert !NewestOfScope(es, i);
      } else {
        assert forall j :: i < j < last ==> init[j] == es[j];
        assert NewestOfScope(es, i) <==> NewestOfScope(init, i);
      }
    }
  }

  /** Whatever max_bytes drops, the newest pending file of every scope is kept. */
  lemma NewestIsKept(pending: seq<Entry>, i: int)
    requires 0 <= i < |pending| && NewestOfScope(pending, i) && DistinctNames(pending)
    ensures pending[i] !in Intermediate(pending, NewestNames(pending))
  {
    NewestNameIsLast(pending, i);
    IntermediateHas(pending, NewestNames(pending), pending[i]);
  }

  /** After the drop the spool is within the limit, or every rejected file is gone and only one
      pending file of each scope is left. */
  lemma UnderLimitOrOnePerScope(pending: seq<Entry>, rejected: seq<Entry>, limit: int)
    requires DistinctNames(pending)
    ensures
      var total := Total(pending) + Total(rejected);
      var cs := Candidates(pending, rejected);
      var k := DropCount(cs, total, limit);
      total - Total(cs[..k]) <= limit
      || (&& (forall e :: e in rejected ==> e in cs[..k])
          && (forall i, j :: 0 <= i < j < |pending| && pending[i].key == pending[j].key ==> pending[i] in cs[..k]))
  {
    var total := Total(pending) + Total(rejected);
    var inner := Intermediate(pending, NewestNames(pending));
    var cs := Candidates(pending, rejected);
    var k := DropCount(cs, total, limit);
    DropCountIsShortest(cs, total, limit);
    if total - Total(cs[..k]) > limit {
      assert cs[..k] == cs == rejected + inner;
      forall i, j | 0 <= i < j < |pending| && pending[i].key == pending[j].key ensures pending[i] in cs[..k] {
        NewestNameIsLast(pending, i);
        assert !NewestOfScope(pending, i);
        IntermediateHas(pending, NewestNames(pending), pending[i]);
        assert pending[i] in inner;
      }
    }
  }
}
