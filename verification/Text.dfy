/** Untrusted text made safe to lay out: one line, or a block of lines. */
module PortalText {
  import opened Utf8

  const MAX_LINE_BYTES: nat := 256
  const MAX_TEXT_BLOCK_BYTES: nat := 4096

  // ---- Characters ----

  /** Ends a line in some renderer. */
  predicate IsLineBreak(c: char) {
    var r := c as int;
    10 <= r <= 13 || r == 0x85 || r == 0x2028 || r == 0x2029
  }

  predicate IsSpace(c: char) {
    var r := c as int;
    9 <= r <= 13 || r == 0x20 || r == 0x85 || r == 0xA0 || r == 0x1680 || 0x2000 <= r <= 0x200A || r == 0x2028 || r == 0x2029
    || r == 0x202F || r == 0x205F || r == 0x3000
  }

  predicate IsControl(c: char) {
    var r := c as int;
    r < 0x20 || 0x7F <= r < 0xA0
  }

  /** Format characters (category Cf). */
  predicate IsFormat(c: char) {
    var r := c as int;
    r == 0xAD || 0x600 <= r <= 0x605 || r == 0x61C || r == 0x6DD || r == 0x70F || 0x890 <= r <= 0x891 || r == 0x8E2 || r == 0x180E
    || 0x200B <= r <= 0x200F || 0x202A <= r <= 0x202E || 0x2060 <= r <= 0x2064 || 0x2066 <= r <= 0x206F || r == 0xFEFF
    || 0xFFF9 <= r <= 0xFFFB || r == 0x110BD || r == 0x110CD || 0x13430 <= r <= 0x1343F || 0x1BCA0 <= r <= 0x1BCA3
    || 0x1D173 <= r <= 0x1D17A || r == 0xE0001 || 0xE0020 <= r <= 0xE007F
  }

  /** May be laid out as it is. */
  predicate Plain(c: char) {
    c == '\n' || !(IsLineBreak(c) || IsControl(c) || IsFormat(c))
  }

  // ---- Scrubbing ----

  function OneBreak(s: string): string {
    if s == "" then ""
    else if |s| >= 2 && s[0] == '\r' && s[1] == '\n' then ['\n'] + OneBreak(s[2..])
    else [s[0]] + OneBreak(s[1..])
  }

  function MapRunes(s: string): string {
    if s == "" then ""
    else
      var c, rest := s[0], MapRunes(s[1..]);
      if IsLineBreak(c) then ['\n'] + rest
      else if c == '\t' then [' '] + rest
      else if IsControl(c) || IsFormat(c) then rest
      else [c] + rest
  }

  function Scrub(s: string): string {
    MapRunes(OneBreak(s))
  }

  ghost predicate AllPlain(s: string) {
    forall i :: 0 <= i < |s| ==> Plain(s[i])
  }

  lemma {:induction false} MapRunesPlain(s: string)
    ensures AllPlain(MapRunes(s))
  {
    if s != "" {
      MapRunesPlain(s[1..]);
    }
  }

  lemma {:induction false} PlainStays(s: string)
    requires AllPlain(s)
    ensures OneBreak(s) == s && MapRunes(s) == s
  {
    if s != "" {
      assert Plain(s[0]);
      PlainStays(s[1..]);
    }
  }

  /** Scrubbed text is plain, and plain text is left as it is. */
  lemma ScrubIsPlain(s: string)
    ensures AllPlain(Scrub(s)) && (AllPlain(s) ==> Scrub(s) == s)
  {
    MapRunesPlain(OneBreak(s));
    if AllPlain(s) {
      PlainStays(s);
    }
  }

  /** What scrubbing does to each character of text without format characters, other control characters
      or a carriage return: a line break of any kind becomes "\n", a tab a space. */
  lemma {:induction false} ScrubIsCharByChar(s: string)
    requires forall i :: 0 <= i < |s| ==> s[i] != '\r' && (Plain(s[i]) || IsLineBreak(s[i]) || s[i] == '\t')
    ensures |Scrub(s)| == |s| && OneBreak(s) == s
    ensures forall i :: 0 <= i < |s| ==> Scrub(s)[i] == if IsLineBreak(s[i]) then '\n' else if s[i] == '\t' then ' ' else s[i]
  {
    if s != "" {
      ScrubIsCharByChar(s[1..]);
      assert Plain(s[0]) || IsLineBreak(s[0]) || s[0] == '\t';
      assert MapRunes(s)[1..] == MapRunes(s[1..]);
      assert forall i :: 1 <= i < |s| ==> MapRunes(s)[i] == MapRunes(s[1..])[i - 1] && s[i] == s[1..][i - 1];
    }
  }

  // ---- Words ----

  /** How many characters from the first on are spaces. */
  function Spaces(s: string): (n: nat)
    ensures n <= |s| && (n < |s| ==> !IsSpace(s[n]))
  {
    if s == "" || !IsSpace(s[0]) then 0 else 1 + Spaces(s[1..])
  }

  /** How many characters from the first on are not. */
  function WordLength(s: string): (n: nat)
    ensures n <= |s| && (n < |s| ==> IsSpace(s[n])) && forall i :: 0 <= i < n ==> !IsSpace(s[i])
  {
    if s == "" || IsSpace(s[0]) then 0 else 1 + WordLength(s[1..])
  }

  /** The words of a text. */
  function Fields(s: string): seq<string>
    decreases |s|
  {
    var t := s[Spaces(s)..];
    if t == "" then []
    else
      var n := WordLength(t);
      assert n > 0;
      [t[..n]] + Fields(t[n..])
  }

  function JoinWords(ws: seq<string>): string {
    if ws == [] then ""
    else if |ws| == 1 then ws[0]
    else ws[0] + " " + JoinWords(ws[1..])
  }

  function Squeeze(s: string): string {
    JoinWords(Fields(s))
  }

  ghost predicate IsWord(w: string) {
    w != "" && forall i :: 0 <= i < |w| ==> !IsSpace(w[i])
  }

  ghost predicate AllWords(ws: seq<string>) {
    forall i :: 0 <= i < |ws| ==> IsWord(ws[i])
  }

  lemma {:induction false} FieldsAreWords(s: string)
    ensures AllWords(Fields(s))
    decreases |s|
  {
    var t := s[Spaces(s)..];
    if t != "" {
      var n := WordLength(t);
      FieldsAreWords(t[n..]);
    }
  }

  lemma {:induction false} JoinStartsWithWord(ws: seq<string>)
    requires ws != [] && AllWords(ws)
    ensures JoinWords(ws) != "" && !IsSpace(JoinWords(ws)[0])
  {
    assert IsWord(ws[0]);
  }

  lemma {:induction false} WordThenSpace(w: string, rest: string)
    requires IsWord(w) && (rest == "" || IsSpace(rest[0]))
    ensures WordLength(w + rest) == |w|
  {
    if |w| == 1 {
      assert (w + rest)[1..] == rest;
      assert WordLength(rest) == 0;
    } else {
      assert (w + rest)[1..] == w[1..] + rest;
      assert IsWord(w[1..]);
      WordThenSpace(w[1..], rest);
    }
    assert !IsSpace(w[0]);
  }

  lemma FirstWord(w: string, rest: string)
    requires IsWord(w) && (rest == "" || IsSpace(rest[0]))
    ensures Fields(w + rest) == [w] + Fields(rest)
  {
    hide IsSpace;
    var s := w + rest;
    assert s[0] == w[0] && !IsSpace(w[0]);
    assert Spaces(s) == 0 && s[0..] == s;
    WordThenSpace(w, rest);
    assert s[..|w|] == w && s[|w|..] == rest;
  }

  /** Joined words split into the same words. */
  lemma {:induction false} FieldsOfJoin(ws: seq<string>)
    requires AllWords(ws)
    ensures Fields(JoinWords(ws)) == ws
  {
    hide Fields, IsWord;
    if ws == [] {
      NoFields();
    } else if |ws| == 1 {
      FirstWord(ws[0], "");
      NoFields();
      assert ws[0] + "" == ws[0];
    } else {
      var rest := JoinWords(ws[1..]);
      assert ws[0] + " " + rest == ws[0] + (" " + rest);
      FirstWord(ws[0], " " + rest);
      FieldsOfJoin(ws[1..]);
      JoinStartsWithWord(ws[1..]);
      SpacesBefore(rest);
      assert ws == [ws[0]] + ws[1..];
    }
  }

  lemma NoFields()
    ensures Fields("") == []
  {}

  lemma SpacesBefore(s: string)
    requires s != "" && !IsSpace(s[0])
    ensures Fields(" " + s) == Fields(s)
  {}

  // ---- Single lines ----

  /** Words with one space between them, character by character. */
  ghost predicate Squeezed(s: string) {
    forall i :: 0 <= i < |s| && IsSpace(s[i]) ==> s[i] == ' ' && 0 < i < |s| - 1 && !IsSpace(s[i + 1]) && !IsSpace(s[i - 1])
  }

  lemma {:induction false} JoinIsSqueezed(ws: seq<string>)
    requires AllWords(ws)
    ensures Squeezed(JoinWords(ws))
  {
    if |ws| == 1 {
      assert IsWord(ws[0]);
    } else if |ws| > 1 {
      var rest := JoinWords(ws[1..]);
      JoinIsSqueezed(ws[1..]);
      JoinStartsWithWord(ws[1..]);
      var s := JoinWords(ws);
      var n := |ws[0]|;
      assert IsWord(ws[0]);
      assert s == ws[0] + " " + rest;
      assert s[n] == ' ' && s[n + 1..] == rest;
      forall i | 0 <= i < |s| && IsSpace(s[i]) ensures s[i] == ' ' && 0 < i < |s| - 1 && !IsSpace(s[i + 1]) && !IsSpace(s[i - 1]) {
        if i > n {
          assert s[i] == rest[i - n - 1];
        }
      }
    }
  }

  lemma SqueezeIsSqueezed(s: string)
    ensures Squeezed(Squeeze(s))
  {
    FieldsAreWords(s);
    JoinIsSqueezed(Fields(s));
  }

  /** Squeezed text is left as it is. */
  lemma {:induction false} SqueezedStays(s: string)
    requires Squeezed(s)
    ensures Squeeze(s) == s
    decreases |s|
  {
    hide Fields, IsSpace;
    if s == "" {
      NoFields();
    } else {
      assert !IsSpace(s[0]);
      var n := WordLength(s);
      var w := s[..n];
      NoFields();
      if n == |s| {
        assert s == w + "";
        FirstWord(w, "");
      } else {
        var rest := s[n + 1..];
        SqueezedRest(s, n);
        assert s[n..] == " " + rest && s == w + (" " + rest) == w + " " + rest;
        FirstWord(w, " " + rest);
        SpacesBefore(rest);
        SqueezedStays(rest);
        assert Fields(rest) != [];
      }
    }
  }

  lemma SqueezedRest(s: string, n: nat)
    requires Squeezed(s) && n < |s| && IsSpace(s[n])
    ensures s[n] == ' ' && n + 1 < |s| && !IsSpace(s[n + 1]) && Squeezed(s[n + 1..])
  {}

  /** The text without spaces at its end. */
  function TrimRight(s: string): (t: string)
    ensures t <= s && (t == "" || !IsSpace(t[|t| - 1]))
  {
    if s == "" || !IsSpace(s[|s| - 1]) then s else TrimRight(s[..|s| - 1])
  }

  /** As many whole characters as fit in a number of bytes; CutUTF8 does it on the bytes. */
  function Cut(s: string, max: nat): string {
    s[..Fitting(s, max)]
  }

  /** A single bounded line. */
  function OneLine(s: string): string {
    TrimRight(Cut(Squeeze(Scrub(s)), MAX_LINE_BYTES))
  }

  /** Text that oneLine leaves as it is: plain, without a line break, squeezed, and of at most the
      line's bytes. */
  ghost predicate IsOneLine(s: string) {
    AllPlain(s) && '\n' !in s && Squeezed(s) && |EncodeAll(s)| <= MAX_LINE_BYTES
  }

  lemma {:induction false} JoinOnly(ws: seq<string>, s: string)
    requires forall i, k :: 0 <= i < |ws| && 0 <= k < |ws[i]| ==> ws[i][k] in s
    ensures forall k :: 0 <= k < |JoinWords(ws)| ==> JoinWords(ws)[k] in s || JoinWords(ws)[k] == ' '
  {
    if |ws| > 1 {
      var rest, n := JoinWords(ws[1..]), |ws[0]|;
      JoinOnly(ws[1..], s);
      var t := JoinWords(ws);
      assert t == ws[0] + " " + rest;
      forall k | 0 <= k < |t| ensures t[k] in s || t[k] == ' ' {
        if k > n {
          assert t[k] == rest[k - n - 1];
        } else if k < n {
          assert t[k] == ws[0][k];
        }
      }
    }
  }

  lemma {:induction false} FieldsOnly(s: string)
    ensures forall i, k :: 0 <= i < |Fields(s)| && 0 <= k < |Fields(s)[i]| ==> Fields(s)[i][k] in s
    decreases |s|
  {
    var t := s[Spaces(s)..];
    if t != "" {
      var n := WordLength(t);
      FieldsOnly(t[n..]);
      var fs := Fields(s);
      forall i, k | 0 <= i < |fs| && 0 <= k < |fs[i]| ensures fs[i][k] in s {
        if i > 0 {
          assert fs[i] == Fields(t[n..])[i - 1];
        }
      }
    }
  }

  lemma SqueezePlain(s: string)
    requires AllPlain(s)
    ensures AllPlain(Squeeze(s)) && '\n' !in Squeeze(s)
  {
    var t := Squeeze(s);
    FieldsOnly(s);
    JoinOnly(Fields(s), s);
    SqueezeIsSqueezed(s);
    forall i | 0 <= i < |t| ensures Plain(t[i]) {
      if t[i] in s {
        var j :| 0 <= j < |s| && s[j] == t[i];
      }
    }
    forall i | 0 <= i < |t| ensures t[i] != '\n' {
      assert IsSpace(t[i]) ==> t[i] == ' ';
      assert IsSpace('\n');
    }
  }

  /** The start of squeezed text, without a space at its end, is squeezed. */
  lemma SqueezedPrefix(s: string, t: string)
    requires Squeezed(s) && t <= s && (t == "" || !IsSpace(t[|t| - 1]))
    ensures Squeezed(t)
  {}

  lemma PrefixBytes(s: string, t: string)
    requires t <= s
    ensures |EncodeAll(t)| <= |EncodeAll(s)|
  {}

  lemma CutFits(s: string, max: nat)
    ensures Cut(s, max) <= s && |EncodeAll(Cut(s, max))| <= max && (|EncodeAll(s)| <= max ==> Cut(s, max) == s)
  {
    assert s[..|s|] == s;
  }

  /** Whatever the input, the result is one plain line of at most 256 bytes. */
  lemma OneLineIsOneLine(s: string)
    ensures IsOneLine(OneLine(s))
  {
    var q := Squeeze(Scrub(s));
    var c := Cut(q, MAX_LINE_BYTES);
    var t := TrimRight(c);
    ScrubIsPlain(s);
    SqueezePlain(Scrub(s));
    SqueezeIsSqueezed(Scrub(s));
    CutFits(q, MAX_LINE_BYTES);
    assert t <= q;
    SqueezedPrefix(q, t);
    PrefixBytes(c, t);
    forall i | 0 <= i < |t| ensures Plain(t[i]) && t[i] != '\n' {
      assert t[i] == q[i];
    }
  }

  lemma OneLineStays(s: string)
    requires IsOneLine(s)
    ensures OneLine(s) == s
  {
    ScrubIsPlain(s);
    SqueezedStays(s);
    CutFits(s, MAX_LINE_BYTES);
    if s != "" && IsSpace(s[|s| - 1]) {
      assert false;
    }
  }

  /** Applying it again changes nothing. */
  lemma OneLineIsIdempotent(s: string)
    ensures OneLine(OneLine(s)) == OneLine(s)
  {
    OneLineIsOneLine(s);
    OneLineStays(OneLine(s));
  }
}
