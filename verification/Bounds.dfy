/** What an enforcement of max_age and max_bytes leaves, told from its listings. */
module SpoolBounds {
  import opened FileSystem
  import opened SpoolEntries
  import opened SpoolState

  /** The listed entries that are still there. */
  ghost function Left(es: seq<Entry>, gone: set<Name>): seq<Entry> {
    if es == [] then []
    else if es[0].name in gone then Left(es[1..], gone)
    else [es[0]] + Left(es[1..], gone)
  }

  lemma {:induction false} LeftHas(es: seq<Entry>, gone: set<Name>, e: Entry)
    ensures e in Left(es, gone) <==> e in es && e.name !in gone
  {
    if es != [] {
      LeftHas(es[1..], gone, e);
      assert e in es <==> e == es[0] || e in es[1..];
    }
  }

  /** Only the names that occur matter. */
  lemma {:induction false} LeftSame(es: seq<Entry>, a: set<Name>, b: set<Name>)
    requires forall e :: e in es ==> (e.name in a <==> e.name in b)
    ensures Left(es, a) == Left(es, b)
  {
    if es != [] {
      assert forall e :: e in es[1..] ==> e in es;
      LeftSame(es[1..], a, b);
    }
  }

  lemma {:induction false} LeftOfNothing(es: seq<Entry>)
    ensures Left(es, {}) == es
  {
    if es != [] {
      LeftOfNothing(es[1..]);
    }
  }

  lemma {:induction false} LeftTwice(es: seq<Entry>, a: set<Name>, b: set<Name>)
    ensures Left(Left(es, a), b) == Left(es, a + b)
  {
    if es != [] {
      LeftTwice(es[1..], a, b);
      if es[0].name !in a {
        assert ([es[0]] + Left(es[1..], a))[1..] == Left(es[1..], a);
      }
    }
  }

  lemma NameInNames(es: seq<Entry>, e: Entry)
    requires e in es
    ensures e.name in Names(es)
  {}

  lemma DistinctTail(es: seq<Entry>)
    requires es != [] && DistinctNames(es)
    ensures DistinctNames(es[1..]) && es[0].name !in Names(es[1..])
  {
    assert forall i :: 0 <= i < |es[1..]| ==> es[1..][i] == es[i + 1];
  }

  lemma SameNameSameEntry(es: seq<Entry>, x: Entry, y: Entry)
    requires DistinctNames(es) && x in es && y in es && x.name == y.name
    ensures x == y
  {}

  /** The expired files gone, the young ones are left. */
  lemma {:induction false} YoungIsLeft(es: seq<Entry>, now: int, maxAge: nat)
    requires DistinctNames(es)
    ensures Left(es, Names(ExpiredOnly(es, now, maxAge))) == Young(es, now, maxAge)
  {
    if es != [] {
      var gone, rest := Names(ExpiredOnly(es, now, maxAge)), es[1..];
      DistinctTail(es);
      YoungIsLeft(rest, now, maxAge);
      forall e | e in es ensures e.name in gone <==> Expired(e, now, maxAge) {
        AgesSplit(es, now, maxAge, e);
        if e.name in gone {
          var x :| x in ExpiredOnly(es, now, maxAge) && x.name == e.name;
          AgesSplit(es, now, maxAge, x);
          SameNameSameEntry(es, x, e);
        }
      }
      forall e | e in rest ensures e.name in gone <==> e.name in Names(ExpiredOnly(rest, now, maxAge)) {
        assert e in es;
        AgesSplit(rest, now, maxAge, e);
        if e.name in Names(ExpiredOnly(rest, now, maxAge)) {
          var x :| x in ExpiredOnly(rest, now, maxAge) && x.name == e.name;
          AgesSplit(rest, now, maxAge, x);
          SameNameSameEntry(rest, x, e);
        }
      }
      LeftSame(rest, gone, Names(ExpiredOnly(rest, now, maxAge)));
      assert es[0] in es;
    }
  }

  lemma {:induction false} YoungKeepsDistinct(es: seq<Entry>, now: int, maxAge: nat)
    requires DistinctNames(es)
    ensures DistinctNames(Young(es, now, maxAge))
  {
    if es != [] {
      DistinctTail(es);
      YoungKeepsDistinct(es[1..], now, maxAge);
      if !Expired(es[0], now, maxAge) {
        forall e | e in Young(es[1..], now, maxAge) ensures e.name != es[0].name {
          AgesSplit(es[1..], now, maxAge, e);
          NameInNames(es[1..], e);
        }
      }
    }
  }

  /** Dropping the first `k` candidates of a listing takes their sizes off its total. */
  lemma {:induction false} LeftTotal(es: seq<Entry>, newest: map<ScopeKey, Name>, k: nat)
    requires DistinctNames(es) && k <= |Intermediate(es, newest)|
    ensures Total(Left(es, Names(Intermediate(es, newest)[..k]))) == Total(es) - Total(Intermediate(es, newest)[..k])
  {
    var cs := Intermediate(es, newest);
    if k == 0 {
      NoNames();
      assert cs[..0] == [];
      LeftOfNothing(es);
    } else {
      var rest := es[1..];
      DistinctTail(es);
      var inner := Intermediate(rest, newest);
      CandidatesWithin(rest, newest);
      if es[0].key in newest && newest[es[0].key] == es[0].name {
        LeftTotal(rest, newest, k);
        NamesOfPrefix(inner[..k], inner);
      } else {
        LeftTotal(rest, newest, k - 1);
        assert cs[..k] == [es[0]] + inner[..k - 1];
        NamesOfCons(es[0], inner[..k - 1]);
        forall e | e in rest ensures e.name in Names(cs[..k]) <==> e.name in Names(inner[..k - 1]) {
          NameInNames(rest, e);
        }
        LeftSame(rest, Names(cs[..k]), Names(inner[..k - 1]));
      }
    }
  }

  /** The entries in an enforcement's listings that are still there after it. */
  ghost function StillPending(r: Enforcement): seq<Entry> {
    Left(r.pending, r.gonePending)
  }

  ghost function StillRejected(r: Enforcement): seq<Entry> {
    Left(r.rejected, r.goneRejected)
  }

  /** What is left is what max_age left without the dropped candidates. */
  lemma StillThere(r: Enforcement, now: int, maxAge: nat, maxBytes: int)
    requires Enforced(r, now, maxAge, maxBytes)
    ensures
      var p, q := Young(r.pending, now, maxAge), Young(r.rejected, now, maxAge);
      var inner := Intermediate(p, NewestNames(p));
      var total := Total(p) + Total(q);
      var kq := DropCount(q, total, maxBytes);
      var kp := DropCount(inner, total - Total(q[..kq]), maxBytes);
      && StillPending(r) == Left(p, Names(inner[..kp])) && StillRejected(r) == Left(q, Names(q[..kq]))
  {
    hide Young, Intermediate, NewestNames, Total, DropCount, ExpiredOnly, Names;
    var p, q := Young(r.pending, now, maxAge), Young(r.rejected, now, maxAge);
    var inner := Intermediate(p, NewestNames(p));
    var total := Total(p) + Total(q);
    var kq := DropCount(q, total, maxBytes);
    var kp := DropCount(inner, total - Total(q[..kq]), maxBytes);
    var old_ := Names(ExpiredOnly(r.pending, now, maxAge));
    var unread := AgedUnread(r.unread, now, maxAge);
    LeftSame(r.pending, old_ + unread + Names(inner[..kp]), old_ + Names(inner[..kp]));
    LeftTwice(r.pending, old_, Names(inner[..kp]));
    YoungIsLeft(r.pending, now, maxAge);
    LeftTwice(r.rejected, Names(ExpiredOnly(r.rejected, now, maxAge)), Names(q[..kq]));
    YoungIsLeft(r.rejected, now, maxAge);
  }

  /** After an enforcement in which no removal failed, no listed file is over max_age. */
  lemma NothingOverAge(r: Enforcement, now: int, maxAge: nat, maxBytes: int, e: Entry)
    requires Enforced(r, now, maxAge, maxBytes)
    requires e in StillPending(r) || e in StillRejected(r)
    ensures now - e.at <= maxAge
  {
    hide Young, Total, DropCount, NewestNames, Intermediate, ExpiredOnly, Left, Sorted, DistinctNames, Names, AgedUnread;
    var p, q := Young(r.pending, now, maxAge), Young(r.rejected, now, maxAge);
    var inner := Intermediate(p, NewestNames(p));
    var total := Total(p) + Total(q);
    var kq := DropCount(q, total, maxBytes);
    var kp := DropCount(inner, total - Total(q[..kq]), maxBytes);
    StillThere(r, now, maxAge, maxBytes);
    LeftHas(p, Names(inner[..kp]), e);
    LeftHas(q, Names(q[..kq]), e);
    AgesSplit(r.pending, now, maxAge, e);
    AgesSplit(r.rejected, now, maxAge, e);
  }

  lemma NewestIsNoCandidate(p: seq<Entry>, i: nat, k: nat)
    requires DistinctNames(p) && i < |p| && NewestOfScope(p, i) && k <= |Intermediate(p, NewestNames(p))|
    ensures p[i].name !in Names(Intermediate(p, NewestNames(p))[..k])
  {
    hide NewestNames, Intermediate;
    var inner := Intermediate(p, NewestNames(p));
    NewestIsKept(p, i);
    forall x | x in inner[..k] ensures x.name != p[i].name {
      IntermediateHas(p, NewestNames(p), x);
    }
  }

  /** The newest of the young pending files of every scope is still there. */
  lemma NewestSurvives(r: Enforcement, now: int, maxAge: nat, maxBytes: int, i: int)
    requires Enforced(r, now, maxAge, maxBytes)
    requires 0 <= i < |Young(r.pending, now, maxAge)| && NewestOfScope(Young(r.pending, now, maxAge), i)
    ensures Young(r.pending, now, maxAge)[i] in StillPending(r)
  {
    hide Young, Total, DropCount, NewestNames, Intermediate, ExpiredOnly, Left, Sorted, DistinctNames, Names, AgedUnread;
    var p, q := Young(r.pending, now, maxAge), Young(r.rejected, now, maxAge);
    var inner := Intermediate(p, NewestNames(p));
    var total := Total(p) + Total(q);
    var kq := DropCount(q, total, maxBytes);
    var kp := DropCount(inner, total - Total(q[..kq]), maxBytes);
    StillThere(r, now, maxAge, maxBytes);
    YoungKeepsDistinct(r.pending, now, maxAge);
    NewestIsNoCandidate(p, i, kp);
    LeftHas(p, Names(inner[..kp]), p[i]);
  }

  /** The rejected files and then the pending ones that are dropped make one prefix of the
      candidates. */
  lemma OnePrefix(p: seq<Entry>, q: seq<Entry>, limit: int)
    ensures
      var inner, cs := Intermediate(p, NewestNames(p)), Candidates(p, q);
      var total := Total(p) + Total(q);
      var kq := DropCount(q, total, limit);
      var kp := DropCount(inner, total - Total(q[..kq]), limit);
      DropCount(cs, total, limit) == kq + kp && cs[..kq + kp] == q[..kq] + inner[..kp]
  {
    hide Intermediate, NewestNames, Total;
    var inner := Intermediate(p, NewestNames(p));
    var total := Total(p) + Total(q);
    var kq := DropCount(q, total, limit);
    DropCountConcat(q, inner, total, limit);
    DropCountIsShortest(q, total, limit);
    assert kq < |q| ==> DropCount(inner, total - Total(q[..kq]), limit) == 0;
  }

  /** When every candidate went, only one pending file of each scope is left. */
  lemma OnePerScope(p: seq<Entry>, x: Entry, y: Entry)
    requires DistinctNames(p)
    requires
      var rest := Left(p, Names(Intermediate(p, NewestNames(p))));
      x in rest && y in rest && x.key == y.key
    ensures x == y
  {
    hide Intermediate, NewestNames;
    var newest := NewestNames(p);
    var inner := Intermediate(p, newest);
    forall e | e == x || e == y ensures e in p && e !in inner {
      LeftHas(p, Names(inner), e);
    }
    IntermediateHas(p, newest, x);
    IntermediateHas(p, newest, y);
    SameNameSameEntry(p, x, y);
  }

  lemma {:induction false} AllLeft(es: seq<Entry>, gone: set<Name>)
    requires Names(es) <= gone
    ensures Left(es, gone) == []
  {
    if es != [] {
      assert es[0] in es;
      NamesOfCons(es[0], es[1..]);
      assert es == [es[0]] + es[1..];
      AllLeft(es[1..], gone);
    }
  }

  lemma NamesOfConcat(a: seq<Entry>, b: seq<Entry>)
    ensures Names(a + b) == Names(a) + Names(b)
  {}

  lemma DroppedPrefix(p: seq<Entry>, q: seq<Entry>, limit: int)
    requires DistinctNames(p) && DistinctNames(q)
    ensures
      var inner, cs, total := Intermediate(p, NewestNames(p)), Candidates(p, q), Total(p) + Total(q);
      var kq := DropCount(q, total, limit);
      var kp := DropCount(inner, total - Total(q[..kq]), limit);
      var k := DropCount(cs, total, limit);
      var p', q' := Left(p, Names(inner[..kp])), Left(q, Names(q[..kq]));
      && Names(cs[..k]) == Names(q[..kq]) + Names(inner[..kp])
      && Total(p') + Total(q') == total - Total(cs[..k])
      && (Total(p') + Total(q') > limit ==> q' == [] && kp == |inner|)
  {
    hide Total, DropCount, NewestNames, Intermediate, Left, DistinctNames, Names;
    var inner, cs, total := Intermediate(p, NewestNames(p)), Candidates(p, q), Total(p) + Total(q);
    var kq := DropCount(q, total, limit);
    var kp := DropCount(inner, total - Total(q[..kq]), limit);
    OnePrefix(p, q, limit);
    LeftTotal(p, NewestNames(p), kp);
    IntermediateOfNothing(q);
    LeftTotal(q, map[], kq);
    TotalConcat(q[..kq], inner[..kp]);
    NamesOfConcat(q[..kq], inner[..kp]);
    DropCountIsShortest(cs, total, limit);
    if total - Total(cs[..kq + kp]) > limit {
      assert q[..kq] == q;
      AllLeft(q, Names(q));
    }
  }

  /** What max_bytes dropped are the first of the candidates (rejected files oldest first, then
      pending files that are not the newest of their scope), as few as bring the spool within its
      limit: afterwards it is within it, or only one pending file of each scope is left. */
  lemma ShortestPrefixDropped(r: Enforcement, now: int, maxAge: nat, maxBytes: int)
    requires Enforced(r, now, maxAge, maxBytes)
    ensures
      var p, q := Young(r.pending, now, maxAge), Young(r.rejected, now, maxAge);
      var cs, total := Candidates(p, q), Total(p) + Total(q);
      var k := DropCount(cs, total, maxBytes);
      var left := Total(StillPending(r)) + Total(StillRejected(r));
      && (r.goneRejected + r.gonePending ==
          Names(ExpiredOnly(r.rejected, now, maxAge)) + Names(ExpiredOnly(r.pending, now, maxAge)) + AgedUnread(r.unread, now, maxAge) + Names(cs[..k]))
      && left == total - Total(cs[..k])
      && (forall j :: 0 <= j < k ==> total - Total(cs[..j]) > maxBytes)
      && (left <= maxBytes
          || (StillRejected(r) == []
              && forall x, y :: x in StillPending(r) && y in StillPending(r) && x.key == y.key ==> x == y))
  {
    hide Young, Total, DropCount, NewestNames, Intermediate, Candidates, ExpiredOnly, Left, Sorted, DistinctNames, Names, AgedUnread;
    var p, q := Young(r.pending, now, maxAge), Young(r.rejected, now, maxAge);
    var inner, total := Intermediate(p, NewestNames(p)), Total(p) + Total(q);
    StillThere(r, now, maxAge, maxBytes);
    YoungKeepsDistinct(r.pending, now, maxAge);
    YoungKeepsDistinct(r.rejected, now, maxAge);
    DroppedPrefix(p, q, maxBytes);
    DropCountIsShortest(Candidates(p, q), total, maxBytes);
    if Total(StillPending(r)) + Total(StillRejected(r)) > maxBytes {
      assert inner[..|inner|] == inner;
      forall x, y | x in StillPending(r) && y in StillPending(r) && x.key == y.key ensures x == y {
        OnePerScope(p, x, y);
      }
    }
  }
}
