/** Blocks of untrusted text: cleaned, bounded, and laid out so that no line of them starts in column
    one. */
module TextBlocks {
  import opened Utf8
  import opened PortalText
  import opened Splitting

  // ---- Lines ----

  function Lines(s: string): (ls: seq<string>)
    ensures ls != []
  {
    Split(s, '\n')
  }

  function JoinLines(ls: seq<string>): string {
    Join(ls, '\n')
  }

  ghost predicate NoBreaks(ls: seq<string>) {
    forall i :: 0 <= i < |ls| ==> '\n' !in ls[i]
  }

  // ---- Cleaning ----

  /** Lines kept so far, and whether a blank one would be dropped. */
  function Kept(ls: seq<string>): (seq<string>, bool) {
    if ls == [] then ([], true)
    else
      var (out, blank) := Kept(ls[..|ls| - 1]);
      var line := Squeeze(ls[|ls| - 1]);
      if line == "" then (if blank then out else out + [""], true) else (out + [line], false)
  }

  function TrimBreaks(s: string): string {
    if s != "" && s[|s| - 1] == '\n' then TrimBreaks(s[..|s| - 1]) else s
  }

  function CleanOf(s: string): string {
    TrimBreaks(JoinLines(Kept(Lines(Scrub(s))).0))
  }

  /** Cleans a block of free text. */
  method CleanText(s: string) returns (t: string)
    ensures t == CleanOf(s)
  {
    var all := Lines(Scrub(s));
    var out: seq<string> := [];
    var blank := true;
    for i := 0 to |all|
      invariant (out, blank) == Kept(all[..i])
    {
      assert all[..i + 1][..i] == all[..i];
      var line := Squeeze(all[i]);
      if line == "" {
        if !blank {
          out := out + [""];
        }
        blank := true;
        continue;
      }
      blank := false;
      out := out + [line];
    }
    assert all[..|all|] == all;
    t := TrimBreaks(JoinLines(out));
  }

  ghost predicate LineOk(s: string) {
    AllPlain(s) && '\n' !in s && Squeezed(s)
  }

  /** Clean lines: plain and squeezed, no blank one at either end, no two in a row. */
  ghost predicate LinesOk(ls: seq<string>) {
    && (forall i :: 0 <= i < |ls| ==> LineOk(ls[i]))
    && (ls != [] ==> ls[0] != "" && ls[|ls| - 1] != "")
    && (forall i :: 0 <= i < |ls| - 1 ==> ls[i] != "" || ls[i + 1] != "")
  }

  /** The lines kept are clean but for one blank line that may be last. */
  ghost predicate KeptOk(out: seq<string>, blank: bool) {
    && (forall i :: 0 <= i < |out| ==> LineOk(out[i]))
    && (out != [] ==> out[0] != "")
    && (forall i :: 0 <= i < |out| - 1 ==> out[i] != "" || out[i + 1] != "")
    && (blank <==> out == [] || out[|out| - 1] == "")
  }

  lemma {:induction false} KeptIsOk(ls: seq<string>)
    requires forall i :: 0 <= i < |ls| ==> AllPlain(ls[i])
    ensures KeptOk(Kept(ls).0, Kept(ls).1)
  {
    hide AllPlain, Squeezed, Squeeze;
    if ls != [] {
      var init, last := ls[..|ls| - 1], ls[|ls| - 1];
      KeptIsOk(init);
      SqueezePlain(last);
      SqueezeIsSqueezed(last);
    }
  }

  lemma {:induction false} PlainLines(s: string)
    requires AllPlain(s)
    ensures forall i :: 0 <= i < |Lines(s)| ==> AllPlain(Lines(s)[i])
  {
    if s != "" {
      assert Plain(s[0]);
      PlainLines(s[1..]);
      var rest := Lines(s[1..]);
      forall i | 0 <= i < |Lines(s)| ensures AllPlain(Lines(s)[i]) {
        if i > 0 {
          assert Lines(s)[i] == if s[0] == '\n' then rest[i - 1] else rest[i];
        }
      }
    }
  }

  lemma {:induction false} JoinEndsWithLast(ls: seq<string>)
    requires ls != [] && NoBreaks(ls)
    ensures ls[|ls| - 1] != "" ==> JoinLines(ls) != "" && JoinLines(ls)[|JoinLines(ls)| - 1] != '\n'
    ensures ls[|ls| - 1] == "" && |ls| > 1 ==> JoinLines(ls) == JoinLines(ls[..|ls| - 1]) + "\n"
  {
    if |ls| > 1 {
      JoinEndsWithLast(ls[1..]);
      assert ls[1..][|ls| - 2] == ls[|ls| - 1];
      if |ls| > 2 {
        assert ls[1..][..|ls| - 2] == ls[..|ls| - 1][1..];
      } else {
        assert Join(ls, '\n') == ls[0] + ['\n'] + Join(ls[1..], '\n') && Join(ls[..1], '\n') == ls[0];
      }
    } else if ls[0] != "" {
      assert ls[0][|ls[0]| - 1] in ls[0];
    }
  }

  /** Cleaned text is made of clean lines. */
  lemma CleanIsClean(s: string) returns (ls: seq<string>)
    ensures LinesOk(ls) && CleanOf(s) == JoinLines(ls)
  {
    hide Kept, Scrub, Lines;
    var all := Lines(Scrub(s));
    ScrubIsPlain(s);
    PlainLines(Scrub(s));
    KeptIsOk(all);
    var (out, blank) := Kept(all);
    ls := out;
    if out != [] {
      JoinEndsWithLast(out);
      if blank {
        ls := out[..|out| - 1];
        JoinEndsWithLast(ls);
        var x := JoinLines(ls);
        assert JoinLines(out) == x + "\n" && (x + "\n")[..|x|] == x;
        assert TrimBreaks(x) == x && TrimBreaks(x + "\n") == TrimBreaks(x);
      }
    }
  }

  lemma {:induction false} KeptStays(ls: seq<string>, n: nat)
    requires LinesOk(ls) && n <= |ls|
    ensures Kept(ls[..n]) == (ls[..n], n == 0 || ls[n - 1] == "")
  {
    if n > 0 {
      KeptStays(ls, n - 1);
      assert ls[..n][..n - 1] == ls[..n - 1] && ls[..n] == ls[..n - 1] + [ls[n - 1]];
      SqueezedStays(ls[n - 1]);
      assert ls[n - 1] == "" ==> n > 1 && ls[n - 2] != "";
    }
  }

  lemma {:induction false} JoinIsPlain(ls: seq<string>)
    requires forall i :: 0 <= i < |ls| ==> AllPlain(ls[i])
    ensures AllPlain(JoinLines(ls))
  {
    if |ls| > 1 {
      JoinIsPlain(ls[1..]);
    }
  }

  /** Clean lines are left as they are. */
  lemma CleanStays(ls: seq<string>)
    requires LinesOk(ls)
    ensures CleanOf(JoinLines(ls)) == JoinLines(ls)
  {
    hide Scrub;
    var s := JoinLines(ls);
    JoinIsPlain(ls);
    ScrubIsPlain(s);
    if ls == [] {
      assert Lines("") == [""] && Squeeze("") == "";
      assert [""][..0] == [] && Kept([""]).0 == [];
    } else {
      SplitOfJoin(ls, '\n');
      KeptStays(ls, |ls|);
      assert ls[..|ls|] == ls;
      JoinEndsWithLast(ls);
    }
  }

  /** Cleaning again changes nothing. */
  lemma CleanIsIdempotent(s: string)
    ensures CleanOf(CleanOf(s)) == CleanOf(s)
  {
    var ls := CleanIsClean(s);
    CleanStays(ls);
  }

  // ---- Bounding ----

  function BoundOf(s: string): (string, bool) {
    var c := CleanOf(s);
    if |EncodeAll(c)| <= MAX_TEXT_BLOCK_BYTES then (c, false) else (TrimRight(Cut(c, MAX_TEXT_BLOCK_BYTES)), true)
  }

  /** The start of joined lines is some of the lines and the start of the next. */
  lemma {:induction false} LinesOfPrefix(ls: seq<string>, n: nat) returns (m: nat, k: nat)
    requires ls != [] && NoBreaks(ls) && n <= |JoinLines(ls)|
    ensures m < |ls| && k <= |ls[m]| && Lines(JoinLines(ls)[..n]) == ls[..m] + [ls[m][..k]]
  {
    var s := JoinLines(ls);
    if n <= |ls[0]| {
      m, k := 0, n;
      assert s[..n] == ls[0][..n];
      PartThenRest(ls[0][..n], '\n', "");
    } else {
      var rest := n - |ls[0]| - 1;
      var m', k' := LinesOfPrefix(ls[1..], rest);
      m, k := m' + 1, k';
      assert s[..n] == ls[0] + "\n" + JoinLines(ls[1..])[..rest];
      PartThenRest(ls[0], '\n', JoinLines(ls[1..])[..rest]);
      assert ls[..m] == [ls[0]] + ls[1..][..m'];
    }
  }

  lemma {:induction false} LastCharacter(s: string)
    requires s != ""
    ensures var ls := Lines(s); var line := ls[|ls| - 1];
      (line == "" <==> s[|s| - 1] == '\n') && (line != "" ==> line[|line| - 1] == s[|s| - 1])
  {
    if |s| == 1 {
      assert Lines("") == [""];
    } else {
      LastCharacter(s[1..]);
      var rest := Lines(s[1..]);
      assert s[1..][|s| - 2] == s[|s| - 1];
      assert |rest| > 1 ==> Lines(s)[|Lines(s)| - 1] == rest[|rest| - 1];
    }
  }

  /** The start of clean lines, without spaces or line breaks at its end, is made of clean lines. */
  lemma CleanPrefix(ls: seq<string>, t: string)
    requires LinesOk(ls) && t <= JoinLines(ls) && t != "" && !IsSpace(t[|t| - 1])
    ensures LinesOk(Lines(t))
  {
    hide IsSpace, AllPlain, Squeezed;
    assert '\n' != t[|t| - 1] by { BreakIsSpace(); }
    LastCharacter(t);
    if ls != [] {
      var m, k := LinesOfPrefix(ls, |t|);
      var line := ls[m][..k];
      assert JoinLines(ls)[..|t|] == t;
      SqueezedPrefix(ls[m], line);
      PlainPrefix(ls[m], line);
      assert LineOk(line);
    }
  }

  lemma BreakIsSpace()
    ensures IsSpace('\n')
  {}

  lemma PlainPrefix(s: string, t: string)
    requires t <= s && AllPlain(s) && '\n' !in s
    ensures AllPlain(t) && '\n' !in t
  {}

  /** A bounded block is made of clean lines and has at most 4096 bytes. */
  lemma BoundIsClean(s: string) returns (ls: seq<string>)
    ensures LinesOk(ls) && BoundOf(s).0 == JoinLines(ls) && |EncodeAll(BoundOf(s).0)| <= MAX_TEXT_BLOCK_BYTES
  {
    hide CleanOf, LinesOk, Split;
    ls := CleanIsClean(s);
    var c := CleanOf(s);
    if |EncodeAll(c)| > MAX_TEXT_BLOCK_BYTES {
      var cut := Cut(c, MAX_TEXT_BLOCK_BYTES);
      CutFits(c, MAX_TEXT_BLOCK_BYTES);
      var t := TrimRight(cut);
      PrefixBytes(cut, t);
      if t == "" {
        ls := [];
        NoLinesOk();
      } else {
        CleanPrefix(ls, t);
        ls := Lines(t);
        JoinOfSplit(t, '\n');
      }
    }
  }

  lemma NoLinesOk()
    ensures LinesOk([])
  {}

  /** Bounding a bounded block changes nothing and cuts nothing. */
  lemma BoundIsIdempotent(s: string)
    ensures BoundOf(BoundOf(s).0) == (BoundOf(s).0, false)
  {
    var ls := BoundIsClean(s);
    CleanStays(ls);
  }
}
