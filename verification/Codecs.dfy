/** The fingerprints the connector keeps of what it has delivered, printed and read back. */
module Fingerprints {
  import opened Numbers
  import opened Options
  import opened SpoolNames
  import opened Splitting

  // ---- Entries ----

  /** The text before the first separator and the text after it. */
  function Cut(s: string, sep: char): Option<(string, string)> {
    if s == "" then None
    else if s[0] == sep then Some(("", s[1..]))
    else
      match Cut(s[1..], sep)
      case None => None
      case Some((k, v)) => Some(([s[0]] + k, v))
  }

  lemma {:induction false} CutAtFirst(k: string, sep: char, v: string)
    requires sep !in k
    ensures Cut(k + [sep] + v, sep) == Some((k, v))
  {
    var s := k + [sep] + v;
    if k == "" {
      assert s[1..] == v;
    } else {
      assert s[1..] == k[1..] + [sep] + v && s[0] == k[0];
      CutAtFirst(k[1..], sep, v);
      assert [k[0]] + k[1..] == k;
    }
  }

  // ---- Grades ----

  const TERMS: seq<string> := ["Q1", "Q2", "S1", "Q3", "Q4", "S2"]

  /** "|" becomes "/". */
  function Slashed(s: string): string {
    if s == "" then "" else (if s[0] == '|' then "/" else [s[0]]) + Slashed(s[1..])
  }

  lemma {:induction false} SlashedHasNoBar(s: string)
    ensures '|' !in Slashed(s) && |Slashed(s)| == |s|
    ensures forall i :: 0 <= i < |s| ==> Slashed(s)[i] == if s[i] == '|' then '/' else s[i]
  {
    if s != "" {
      SlashedHasNoBar(s[1..]);
    }
  }

  function Entry(term: string, grade: string): string {
    term + "=" + Slashed(grade)
  }

  function Entries(terms: map<string, string>, order: seq<string>): seq<string> {
    if order == [] then []
    else Entries(terms, order[..|order| - 1]) + [Entry(order[|order| - 1], if order[|order| - 1] in terms then terms[order[|order| - 1]] else "")]
  }

  method GradeFingerprint(terms: map<string, string>) returns (fp: string)
    ensures fp == Join(Entries(terms, TERMS), '|')
  {
    hide Entry, Join;
    var parts: seq<string> := [];
    for i := 0 to |TERMS|
      invariant parts == Entries(terms, TERMS[..i])
    {
      assert TERMS[..i + 1][..i] == TERMS[..i];
      var t := TERMS[i];
      parts := parts + [Entry(t, if t in terms then terms[t] else "")];
    }
    assert TERMS[..|TERMS|] == TERMS;
    fp := Join(parts, '|');
  }

  /** The last entry of a key wins; parts without "=" are passed over. */
  function ParseParts(parts: seq<string>): map<string, string> {
    if parts == [] then map[]
    else
      var init := ParseParts(parts[..|parts| - 1]);
      match Cut(parts[|parts| - 1], '=')
      case None => init
      case Some((k, v)) => init[k := v]
  }

  method ParseGradeFingerprint(fp: string) returns (out: map<string, string>)
    ensures out == ParseParts(Split(fp, '|'))
  {
    hide Cut;
    var parts := Split(fp, '|');
    out := map[];
    for i := 0 to |parts|
      invariant out == ParseParts(parts[..i])
    {
      assert parts[..i + 1][..i] == parts[..i];
      match Cut(parts[i], '=')
      case None =>
      case Some((k, v)) => out := out[k := v];
    }
    assert parts[..|parts|] == parts;
  }

  ghost predicate PlainTerms(order: seq<string>) {
    && (forall i :: 0 <= i < |order| ==> '=' !in order[i] && '|' !in order[i])
    && (forall i, j :: 0 <= i < j < |order| ==> order[i] != order[j])
  }

  lemma {:induction false} EntriesHaveNoBar(terms: map<string, string>, order: seq<string>)
    requires PlainTerms(order)
    ensures |Entries(terms, order)| == |order| && forall i :: 0 <= i < |order| ==> '|' !in Entries(terms, order)[i]
  {
    if order != [] {
      var t := order[|order| - 1];
      EntriesHaveNoBar(terms, order[..|order| - 1]);
      SlashedHasNoBar(if t in terms then terms[t] else "");
    }
  }

  lemma {:induction false} EntriesParse(terms: map<string, string>, order: seq<string>)
    requires PlainTerms(order)
    ensures ParseParts(Entries(terms, order)) == map t | t in order :: Slashed(if t in terms then terms[t] else "")
  {
    hide Slashed, Cut;
    if order != [] {
      var init, t := order[..|order| - 1], order[|order| - 1];
      var v := Slashed(if t in terms then terms[t] else "");
      EntriesParse(terms, init);
      CutAtFirst(t, '=', v);
      assert Entries(terms, order)[..|Entries(terms, order)| - 1] == Entries(terms, init);
      assert Entry(t, if t in terms then terms[t] else "") == t + ['='] + v;
      assert forall u :: u in order <==> u in init || u == t;
    }
  }

  lemma TermsArePlain()
    ensures PlainTerms(TERMS)
  {}

  /** Reading a printed grade fingerprint gives every term's grade back, with "|" turned into "/", and
      nothing else. */
  lemma GradesReadBack(terms: map<string, string>)
    ensures ParseParts(Split(Join(Entries(terms, TERMS), '|'), '|')) == map t | t in TERMS :: Slashed(if t in terms then terms[t] else "")
  {
    hide Entries, Slashed, Split, Join, ParseParts, PlainTerms;
    TermsArePlain();
    EntriesHaveNoBar(terms, TERMS);
    SplitOfJoin(Entries(terms, TERMS), '|');
    EntriesParse(terms, TERMS);
  }

  // ---- Attendance counts ----


  function Decimal(n: nat): (s: string)
    ensures s != ""
  {
    if n < 10 then [Digit(n)] else Decimal(n / 10) + [Digit(n % 10)]
  }

  function Itoa(n: int): string {
    if n < 0 then "-" + Decimal(-n) else Decimal(n)
  }

  /** A decimal number with an optional sign, within 64 bits. */
  function Atoi(s: string): Option<int> {
    var negative := s != "" && s[0] == '-';
    var digits := if s != "" && (s[0] == '-' || s[0] == '+') then s[1..] else s;
    if digits == "" || !AllDigits(digits) then None
    else
      var n: int := if negative then -(Number(digits) as int) else Number(digits);
      if -TWO_63 <= n < TWO_63 then Some(n) else None
  }

  lemma {:induction false} DecimalParses(n: nat)
    ensures AllDigits(Decimal(n)) && Number(Decimal(n)) == n
  {
    if n >= 10 {
      DecimalParses(n / 10);
      var s := Decimal(n);
      assert s[..|s| - 1] == Decimal(n / 10);
    } else {
      assert [Digit(n)][..0] == "";
    }
  }

  lemma AtoiOfItoa(n: int)
    requires -TWO_63 <= n < TWO_63
    ensures Atoi(Itoa(n)) == Some(n)
    ensures forall i :: 0 <= i < |Itoa(n)| ==> Itoa(n)[i] == '-' || IsDigit(Itoa(n)[i])
  {
    hide Number;
    DecimalParses(if n < 0 then -n else n);
    assert n < 0 ==> Itoa(n)[1..] == Decimal(-n);
  }

  function AttendanceFingerprint(absences: int, tardies: int): string {
    "absences=" + Itoa(absences) + "|" + "tardies=" + Itoa(tardies)
  }

  /** The counts the parts name; a missing or malformed one reads as zero. */
  function Counts(parts: seq<string>): (int, int) {
    if parts == [] then (0, 0)
    else
      var (absences, tardies) := Counts(parts[..|parts| - 1]);
      match Cut(parts[|parts| - 1], '=')
      case None => (absences, tardies)
      case Some((k, v)) =>
        match Atoi(v)
        case None => (absences, tardies)
        case Some(n) => if k == "absences" then (n, tardies) else if k == "tardies" then (absences, n) else (absences, tardies)
  }

  method ParseAttendanceFingerprint(fp: string) returns (absences: int, tardies: int)
    ensures (absences, tardies) == Counts(Split(fp, '|'))
  {
    hide Cut, Atoi;
    var parts := Split(fp, '|');
    absences, tardies := 0, 0;
    for i := 0 to |parts|
      invariant (absences, tardies) == Counts(parts[..i])
    {
      assert parts[..i + 1][..i] == parts[..i];
      match Cut(parts[i], '=')
      case None =>
      case Some((k, v)) =>
        match Atoi(v)
        case None =>
        case Some(n) =>
          if k == "absences" {
            absences := n;
          } else if k == "tardies" {
            tardies := n;
          }
    }
    assert parts[..|parts|] == parts;
  }

  /** Reading a printed attendance fingerprint gives both counts back. */
  lemma CountsReadBack(absences: int, tardies: int)
    requires -TWO_63 <= absences < TWO_63 && -TWO_63 <= tardies < TWO_63
    ensures Counts(Split(AttendanceFingerprint(absences, tardies), '|')) == (absences, tardies)
  {
    hide Atoi, Itoa, Cut, Split;
    AtoiOfItoa(absences);
    AtoiOfItoa(tardies);
    var a, t := "absences" + ['='] + Itoa(absences), "tardies" + ['='] + Itoa(tardies);
    assert '|' !in a && '|' !in t;
    CutAtFirst("absences", '=', Itoa(absences));
    CutAtFirst("tardies", '=', Itoa(tardies));
    SplitOfJoin([a, t], '|');
    assert AttendanceFingerprint(absences, tardies) == a + ['|'] + t == Join([a, t], '|');
    assert [a, t][..1] == [a] && [a][..0] == [];
    assert Counts([a]) == (absences, 0);
  }

  // ---- Assignments ----

  const PARTS: seq<string> := ["details", "due_date", "status", "flags", "score", "teacher_comment", "description"]
  const PREFIX: string := "a3"

  /** The per-part form: the prefix and one hash for each part. */
  predicate PerPart(fp: string) {
    var fields := Split(fp, ':');
    |fields| == |PARTS| + 1 && fields[0] == PREFIX
  }

  function Differing(was: seq<string>, now: seq<string>, n: nat): seq<string>
    requires n <= |PARTS| && |was| == |now| == |PARTS| + 1
  {
    if n == 0 then []
    else Differing(was, now, n - 1) + (if was[n] != now[n] then [PARTS[n - 1]] else [])
  }

  /** What the two can be compared by: the stored one must carry the prefix, and both every part. */
  predicate ByParts(was: seq<string>, now: seq<string>) {
    |was| == |now| == |PARTS| + 1 && was[0] == PREFIX
  }

  /** The parts that differ between a stored fingerprint and the current one; when they cannot be
      compared part by part, the record when the old form of it has changed, and a comment. `legacy` is
      the old single-hash form of the current record. */
  method ChangedParts(prev: string, cur: string, legacy: string, hasComment: bool) returns (changed: seq<string>)
    ensures ByParts(Split(prev, ':'), Split(cur, ':')) ==> changed == Differing(Split(prev, ':'), Split(cur, ':'), |PARTS|)
    ensures PerPart(prev) && PerPart(cur) ==> Named(changed, Split(prev, ':'), Split(cur, ':')) && (changed == [] <==> prev == cur)
    ensures |Split(prev, ':')| != 8 || |Split(cur, ':')| != 8 || Split(prev, ':')[0] != "a3" ==>
              ("record" in changed <==> prev != legacy) && ("teacher_comment" in changed <==> hasComment)
              && multiset(changed) <= multiset{"record", "teacher_comment"}
  {
    var was, now := Split(prev, ':'), Split(cur, ':');
    changed := [];
    if ByParts(was, now) {
      for i := 0 to |PARTS|
        invariant changed == Differing(was, now, i)
      {
        if was[i + 1] != now[i + 1] {
          changed := changed + [PARTS[i]];
        }
      }
      if PerPart(prev) && PerPart(cur) {
        ChangesAreNamed(prev, cur);
      }
      return;
    }
    if prev != legacy {
      changed := changed + ["record"];
    }
    if hasComment {
      changed := changed + ["teacher_comment"];
    }
  }

  lemma PartsAreDistinct()
    ensures forall i, j :: 0 <= i < j < |PARTS| ==> PARTS[i] != PARTS[j]
  {}

  lemma {:induction false} DifferingHas(was: seq<string>, now: seq<string>, n: nat, i: nat)
    requires n <= |PARTS| && |was| == |now| == |PARTS| + 1 && i < |PARTS|
    ensures PARTS[i] in Differing(was, now, n) <==> i < n && was[i + 1] != now[i + 1]
  {
    PartsAreDistinct();
    if n > 0 {
      DifferingHas(was, now, n - 1, i);
    }
  }

  /** A change is named after each part whose hashes differ, and no other. */
  ghost predicate Named(changed: seq<string>, was: seq<string>, now: seq<string>)
    requires |was| == |now| == 8
  {
    && ("details" in changed <==> was[1] != now[1])
    && ("due_date" in changed <==> was[2] != now[2])
    && ("status" in changed <==> was[3] != now[3])
    && ("flags" in changed <==> was[4] != now[4])
    && ("score" in changed <==> was[5] != now[5])
    && ("teacher_comment" in changed <==> was[6] != now[6])
    && ("description" in changed <==> was[7] != now[7])
    && (forall c :: c in changed ==> c in {"details", "due_date", "status", "flags", "score", "teacher_comment", "description"})
  }

  lemma NamedIs(changed: seq<string>, was: seq<string>, now: seq<string>)
    requires |was| == |now| == 8 && forall i :: 0 <= i < |PARTS| ==> (PARTS[i] in changed <==> was[i + 1] != now[i + 1])
    requires forall c :: c in changed ==> c in PARTS
    ensures Named(changed, was, now)
  {
    assert forall i :: 0 <= i < 7 ==> (PARTS[i] in changed <==> was[i + 1] != now[i + 1]);
    assert PARTS[0] == "details" && PARTS[1] == "due_date" && PARTS[2] == "status" && PARTS[3] == "flags";
    assert PARTS[4] == "score" && PARTS[5] == "teacher_comment" && PARTS[6] == "description";
  }

  lemma {:induction false} DifferingAreParts(was: seq<string>, now: seq<string>, n: nat)
    requires n <= |PARTS| && |was| == |now| == |PARTS| + 1
    ensures forall c :: c in Differing(was, now, n) ==> c in PARTS
  {
    if n > 0 {
      DifferingAreParts(was, now, n - 1);
    }
  }

  /** For two different fingerprints of the per-part form exactly the parts that differ are named, and
      never none. */
  lemma ChangesAreNamed(prev: string, cur: string)
    requires PerPart(prev) && PerPart(cur)
    ensures var was, now := Split(prev, ':'), Split(cur, ':');
      var changed := Differing(was, now, |PARTS|);
      Named(changed, was, now) && (changed == [] <==> prev == cur)
  {
    hide Split, Join;
    var was, now := Split(prev, ':'), Split(cur, ':');
    var changed := Differing(was, now, |PARTS|);
    forall i | 0 <= i < |PARTS| ensures PARTS[i] in changed <==> was[i + 1] != now[i + 1] {
      DifferingHas(was, now, |PARTS|, i);
    }
    DifferingAreParts(was, now, |PARTS|);
    NamedIs(changed, was, now);
    JoinOfSplit(prev, ':');
    JoinOfSplit(cur, ':');
    if changed == [] {
      forall k | 0 <= k < |was| ensures was[k] == now[k] {
        if k > 0 {
          assert PARTS[k - 1] !in changed;
        }
      }
      assert was == now;
    }
    if prev == cur {
      NoneDiffer(was, |PARTS|);
    }
  }

  lemma {:induction false} NoneDiffer(was: seq<string>, n: nat)
    requires n <= |PARTS| && |was| == |PARTS| + 1
    ensures Differing(was, was, n) == []
  {
    if n > 0 {
      NoneDiffer(was, n - 1);
    }
  }
}
