/** The body of an assignment's item: facts one to a line, then blocks of a teacher's own text. */
module AssignmentBody {
  import opened PortalText
  import opened TextBlocks
  import opened Splitting

  /** A bounded block of text and whether it was cut. */
  datatype Block = Block(text: string, cut: bool)

  /** What is known of an assignment, all of it untrusted text: "" is nothing. Numbers come formatted. */
  datatype Assignment = Assignment(title: string, course: string, category: string, due: string, status: string, flags: seq<string>,
                                   score: string, maxScore: string, percent: string, grade: string,
                                   comment: Block, description: Block, categoryDescription: Block)

  const TRUNCATED: string := "[truncated]"
  const INDENT: string := "  "

  /** The connector's own labels and headings. */
  const LABELS: seq<string> := ["Assignment", "Course", "Category", "Due", "Status", "Flags", "Score", "Points possible", "Percent", "Grade"]
  const HEADINGS: seq<string> := ["Teacher comment", "Assignment description", "Category description"]

  /** Each line with its line break. */
  function Unlines(ls: seq<string>): string {
    if ls == [] then "" else Unlines(ls[..|ls| - 1]) + ls[|ls| - 1] + "\n"
  }

  function JoinFlags(flags: seq<string>): string {
    if flags == [] then "" else if |flags| == 1 then flags[0] else flags[0] + ", " + JoinFlags(flags[1..])
  }

  /** The title, or a placeholder when it comes to nothing. */
  function AssignmentTitle(a: Assignment): string {
    var title := OneLine(a.title);
    if title != "" then title else "(untitled assignment)"
  }

  /** The facts of an assignment with their labels, empty ones included. */
  function Facts(a: Assignment): seq<(string, string)> {
    [("Assignment", AssignmentTitle(a)), ("Course", a.course), ("Category", a.category), ("Due", a.due), ("Status", a.status), ("Flags", JoinFlags(a.flags))]
    + (if a.score != "" && a.maxScore != "" then [("Score", a.score + "/" + a.maxScore)]
       else if a.score != "" then [("Score", a.score)]
       else if a.maxScore != "" then [("Points possible", a.maxScore)]
       else [])
    + [("Percent", a.percent), ("Grade", a.grade)]
  }

  function Blocks(a: Assignment): seq<(string, Block)> {
    [("Teacher comment", a.comment), ("Assignment description", a.description), ("Category description", a.categoryDescription)]
  }

  // ---- Writing ----

  /** One "Label: value" line, or nothing. */
  method Fact(b: string, ghost ls: seq<string>, label': string, value: string) returns (b': string)
    requires b == Unlines(ls)
    ensures b' == Unlines(ls + FactLine(label', value))
  {
    hide OneLine, Unlines;
    b' := b;
    var v := OneLine(value);
    assert ls + [] == ls;
    if v != "" {
      UnlinesOne(ls, label' + ": " + v);
      b' := b + (label' + ": " + v + "\n");
    }
  }

  function FactLine(label': string, value: string): seq<string> {
    var v := OneLine(value);
    if v == "" then [] else [label' + ": " + v]
  }

  function Indented(line: string): string {
    if line == "" then "" else INDENT + line
  }

  function BlockLines(heading: string, block: Block): seq<string> {
    if block.text == "" then []
    else
      var ls := Lines(block.text);
      ["", heading + ":"] + AllIndented(ls) + (if block.cut then [TRUNCATED] else [])
  }

  lemma UnlinesOne(ls: seq<string>, line: string)
    ensures Unlines(ls + [line]) == Unlines(ls) + line + "\n"
  {
    assert (ls + [line])[..|ls|] == ls;
  }

  function AllIndented(ls: seq<string>): seq<string> {
    seq(|ls|, i requires 0 <= i < |ls| => Indented(ls[i]))
  }

  /** Every line with anything on it, indented. */
  method WriteLines(b: string, ghost ls: seq<string>, lines: seq<string>) returns (b': string)
    requires b == Unlines(ls)
    ensures b' == Unlines(ls + AllIndented(lines))
  {
    hide Unlines;
    b' := b;
    ghost var indented := AllIndented(lines);
    assert ls + indented[..0] == ls;
    for i := 0 to |lines|
      invariant b' == Unlines(ls + indented[..i])
    {
      var line := lines[i];
      assert ls + indented[..i + 1] == ls + indented[..i] + [indented[i]];
      UnlinesOne(ls + indented[..i], indented[i]);
      ghost var was := b';
      if line != "" {
        b' := b' + INDENT;
        b' := b' + line;
        assert b' == was + indented[i];
      }
      b' := b' + "\n";
    }
    assert indented[..|lines|] == indented;
  }

  /** One labelled block, or nothing when there is no text. */
  method WriteTextBlock(b: string, ghost ls: seq<string>, heading: string, block: Block) returns (b': string)
    requires b == Unlines(ls)
    ensures b' == Unlines(ls + BlockLines(heading, block))
  {
    hide Unlines, AllIndented, Lines;
    b' := b;
    if block.text == "" {
      assert ls + [] == ls;
      return;
    }
    b' := b' + "\n" + heading + ":\n";
    ghost var written := ls + ["", heading + ":"];
    UnlinesOne(ls, "");
    UnlinesOne(ls + [""], heading + ":");
    assert written == ls + [""] + [heading + ":"];
    assert b' == b + "" + "\n" + (heading + ":") + "\n";
    var lines := Lines(block.text);
    b' := WriteLines(b', written, lines);
    ghost var all := written + AllIndented(lines);
    if block.cut {
      UnlinesOne(all, TRUNCATED);
      b' := b' + TRUNCATED;
      b' := b' + "\n";
      assert ls + BlockLines(heading, block) == all + [TRUNCATED];
    } else {
      assert ls + BlockLines(heading, block) == all;
    }
  }

  function FactLines(facts: seq<(string, string)>): seq<string> {
    if facts == [] then [] else FactLines(facts[..|facts| - 1]) + FactLine(facts[|facts| - 1].0, facts[|facts| - 1].1)
  }

  function AllBlockLines(blocks: seq<(string, Block)>): seq<string> {
    if blocks == [] then [] else AllBlockLines(blocks[..|blocks| - 1]) + BlockLines(blocks[|blocks| - 1].0, blocks[|blocks| - 1].1)
  }

  /** The lines of the body. */
  function BodyLines(a: Assignment): seq<string> {
    FactLines(Facts(a)) + AllBlockLines(Blocks(a))
  }

  lemma NoLines()
    ensures Unlines([]) == ""
  {}

  method WriteFacts(facts: seq<(string, string)>) returns (b: string)
    ensures b == Unlines(FactLines(facts))
  {
    hide FactLine, OneLine, Unlines;
    NoLines();
    b := "";
    for i := 0 to |facts|
      invariant b == Unlines(FactLines(facts[..i]))
    {
      assert facts[..i + 1][..i] == facts[..i];
      b := Fact(b, FactLines(facts[..i]), facts[i].0, facts[i].1);
    }
    assert facts[..|facts|] == facts;
  }

  method WriteBlocks(top: string, ghost above: seq<string>, blocks: seq<(string, Block)>) returns (b: string)
    requires top == Unlines(above)
    ensures b == Unlines(above + AllBlockLines(blocks))
  {
    hide BlockLines, Unlines;
    b := top;
    assert above + AllBlockLines(blocks[..0]) == above;
    for i := 0 to |blocks|
      invariant b == Unlines(above + AllBlockLines(blocks[..i]))
    {
      assert blocks[..i + 1][..i] == blocks[..i];
      ghost var so := above + AllBlockLines(blocks[..i]);
      b := WriteTextBlock(b, so, blocks[i].0, blocks[i].1);
      assert so + BlockLines(blocks[i].0, blocks[i].1) == above + AllBlockLines(blocks[..i + 1]);
    }
    assert blocks[..|blocks|] == blocks;
  }

  method BuildAssignmentBody(a: Assignment) returns (b: string)
    ensures b == Unlines(BodyLines(a))
  {
    hide Facts, Blocks, FactLines, AllBlockLines, Unlines;
    b := WriteFacts(Facts(a));
    b := WriteBlocks(b, FactLines(Facts(a)), Blocks(a));
  }

  // ---- What starts in column one ----

  /** The lines that start in column one: with something on them that is not a space. */
  function ColumnOne(ls: seq<string>): seq<string> {
    if ls == [] then []
    else
      var line := ls[|ls| - 1];
      ColumnOne(ls[..|ls| - 1]) + (if line == "" || line[0] == ' ' then [] else [line])
  }

  function OwnOfBlock(heading: string, block: Block): seq<string> {
    if block.text == "" then [] else [heading + ":"] + (if block.cut then [TRUNCATED] else [])
  }

  function OwnOfBlocks(blocks: seq<(string, Block)>): seq<string> {
    if blocks == [] then [] else OwnOfBlocks(blocks[..|blocks| - 1]) + OwnOfBlock(blocks[|blocks| - 1].0, blocks[|blocks| - 1].1)
  }

  /** The connector's own lines: its facts, the headings of the blocks there are, and the marker after
      each that was cut. */
  function OwnLines(a: Assignment): seq<string> {
    FactLines(Facts(a)) + OwnOfBlocks(Blocks(a))
  }

  lemma {:induction false} ColumnOneConcat(a: seq<string>, b: seq<string>)
    ensures ColumnOne(a + b) == ColumnOne(a) + ColumnOne(b)
  {
    if b == [] {
      assert a + b == a;
    } else {
      ColumnOneConcat(a, b[..|b| - 1]);
      assert (a + b)[..|a + b| - 1] == a + b[..|b| - 1];
    }
  }

  lemma {:induction false} IndentedIsNotColumnOne(ls: seq<string>)
    requires forall i :: 0 <= i < |ls| ==> ls[i] == "" || ls[i][0] == ' '
    ensures ColumnOne(ls) == []
  {
    if ls != [] {
      IndentedIsNotColumnOne(ls[..|ls| - 1]);
    }
  }

  lemma {:induction false} OwnAreColumnOne(ls: seq<string>)
    requires forall i :: 0 <= i < |ls| ==> ls[i] != "" && ls[i][0] != ' '
    ensures ColumnOne(ls) == ls
  {
    if ls != [] {
      OwnAreColumnOne(ls[..|ls| - 1]);
    }
  }

  /** Starts with one of the connector's own words. */
  predicate IsName(s: string) {
    s != "" && s[0] != ' ' && '\n' !in s
  }

  lemma {:induction false} FactsStartLines(facts: seq<(string, string)>)
    requires forall i :: 0 <= i < |facts| ==> IsName(facts[i].0)
    ensures forall i :: 0 <= i < |FactLines(facts)| ==> FactLines(facts)[i] != "" && FactLines(facts)[i][0] != ' ' && '\n' !in FactLines(facts)[i]
  {
    if facts != [] {
      FactsStartLines(facts[..|facts| - 1]);
      OneLineIsOneLine(facts[|facts| - 1].1);
    }
  }

  lemma LinesIndented(ls: seq<string>)
    ensures ColumnOne(AllIndented(ls)) == []
  {
    IndentedIsNotColumnOne(AllIndented(ls));
  }

  lemma HeadingLines(heading: string)
    requires IsName(heading)
    ensures ColumnOne(["", heading + ":"]) == [heading + ":"]
  {
    assert ["", heading + ":"] == [""] + [heading + ":"];
    ColumnOneConcat([""], [heading + ":"]);
    IndentedIsNotColumnOne([""]);
    OwnAreColumnOne([heading + ":"]);
  }

  lemma BlockColumnOne(heading: string, block: Block)
    requires IsName(heading)
    ensures ColumnOne(BlockLines(heading, block)) == OwnOfBlock(heading, block)
  {
    hide Lines, AllIndented, ColumnOne, IsName;
    OwnAreColumnOne([]);
    OwnAreColumnOne([TRUNCATED]);
    if block.text != "" {
      var indented := AllIndented(Lines(block.text));
      var marker := if block.cut then [TRUNCATED] else [];
      ColumnOneConcat(["", heading + ":"] + indented, marker);
      ColumnOneConcat(["", heading + ":"], indented);
      HeadingLines(heading);
      LinesIndented(Lines(block.text));
    }
  }

  lemma {:induction false} BlocksColumnOne(blocks: seq<(string, Block)>)
    requires forall i :: 0 <= i < |blocks| ==> IsName(blocks[i].0)
    ensures ColumnOne(AllBlockLines(blocks)) == OwnOfBlocks(blocks)
  {
    hide BlockLines, OwnOfBlock, ColumnOne, IsName;
    if blocks != [] {
      var init, last := blocks[..|blocks| - 1], blocks[|blocks| - 1];
      BlocksColumnOne(init);
      ColumnOneConcat(AllBlockLines(init), BlockLines(last.0, last.1));
      BlockColumnOne(last.0, last.1);
    } else {
      OwnAreColumnOne([]);
    }
  }

  lemma BlockHasNoBreaks(heading: string, block: Block)
    requires IsName(heading)
    ensures NoBreaks(BlockLines(heading, block))
  {
    hide Split;
    PartsHaveNoSeparator(block.text, '\n');
  }

  lemma {:induction false} BlocksHaveNoBreaks(blocks: seq<(string, Block)>)
    requires forall i :: 0 <= i < |blocks| ==> IsName(blocks[i].0)
    ensures NoBreaks(AllBlockLines(blocks))
  {
    hide BlockLines, IsName;
    if blocks != [] {
      BlocksHaveNoBreaks(blocks[..|blocks| - 1]);
      BlockHasNoBreaks(blocks[|blocks| - 1].0, blocks[|blocks| - 1].1);
    }
  }

  lemma {:induction false} LinesOfUnlines(ls: seq<string>)
    requires NoBreaks(ls)
    ensures Unlines(ls) == JoinLines(ls + [""]) && Lines(Unlines(ls)) == ls + [""]
  {
    UnlinesIsJoin(ls);
    SplitOfJoin(ls + [""], '\n');
  }

  lemma {:induction false} UnlinesIsJoin(ls: seq<string>)
    requires NoBreaks(ls)
    ensures Unlines(ls) == JoinLines(ls + [""])
  {
    if ls != [] {
      var init, last := ls[..|ls| - 1], ls[|ls| - 1];
      UnlinesIsJoin(init);
      JoinSnoc(init, last);
      assert ls == init + [last];
    }
  }

  lemma {:induction false} JoinSnoc(ls: seq<string>, last: string)
    ensures JoinLines(ls + [last] + [""]) == JoinLines(ls + [""]) + last + "\n"
  {
    var all := ls + [last] + [""];
    if ls == [] {
      assert all[1..] == [""] && Join(all, '\n') == last + ['\n'] + Join(all[1..], '\n');
    } else {
      assert Join(all, '\n') == ls[0] + ['\n'] + Join(all[1..], '\n');
      JoinSnoc(ls[1..], last);
      assert all[1..] == ls[1..] + [last] + [""];
      assert (ls + [""])[1..] == ls[1..] + [""];
      assert all[0] == ls[0] && (ls + [""])[0] == ls[0];
    }
  }

  lemma LabelsAreNames(a: Assignment)
    ensures forall i :: 0 <= i < |Facts(a)| ==> IsName(Facts(a)[i].0)
    ensures forall i :: 0 <= i < |Blocks(a)| ==> IsName(Blocks(a)[i].0)
  {
    hide JoinFlags, OneLine;
  }

  /** Whatever the portal's text, the lines of the body that start in column one are exactly the
      connector's own, in order: nothing a teacher types can pass for one of them. */
  lemma UntrustedTextStartsNoLine(a: Assignment)
    ensures ColumnOne(Lines(Unlines(BodyLines(a)))) == OwnLines(a)
  {
    hide Facts, Blocks, IsName, FactLines, AllBlockLines, Unlines, Lines, ColumnOne, OwnOfBlocks;
    var facts, blocks := FactLines(Facts(a)), AllBlockLines(Blocks(a));
    LabelsAreNames(a);
    FactsStartLines(Facts(a));
    BlocksHaveNoBreaks(Blocks(a));
    LinesOfUnlines(facts + blocks);
    ColumnOneConcat(facts + blocks, [""]);
    IndentedIsNotColumnOne([""]);
    ColumnOneConcat(facts, blocks);
    OwnAreColumnOne(facts);
    BlocksColumnOne(Blocks(a));
  }

  /** Which field stands under each label. A score is given with the points possible, when there are
      any; the points possible alone only without a score. */
  lemma FactsMean(a: Assignment, v: string)
    ensures ("Assignment", v) in Facts(a) <==> v == AssignmentTitle(a)
    ensures ("Course", v) in Facts(a) <==> v == a.course
    ensures ("Category", v) in Facts(a) <==> v == a.category
    ensures ("Due", v) in Facts(a) <==> v == a.due
    ensures ("Status", v) in Facts(a) <==> v == a.status
    ensures ("Flags", v) in Facts(a) <==> v == JoinFlags(a.flags)
    ensures ("Score", v) in Facts(a) <==> a.score != "" && v == if a.maxScore == "" then a.score else a.score + "/" + a.maxScore
    ensures ("Points possible", v) in Facts(a) <==> a.score == "" != a.maxScore && v == a.maxScore
    ensures ("Percent", v) in Facts(a) <==> v == a.percent
    ensures ("Grade", v) in Facts(a) <==> v == a.grade
  {
    hide Facts, AssignmentTitle, JoinFlags;
    FirstFactsMean(a, v);
    MiddleFactsMean(a, v);
    ScoreFactsMean(a, v);
    LastFactsMean(a, v);
  }

  lemma FirstFactsMean(a: Assignment, v: string)
    ensures ("Assignment", v) in Facts(a) <==> v == AssignmentTitle(a)
    ensures ("Course", v) in Facts(a) <==> v == a.course
    ensures ("Category", v) in Facts(a) <==> v == a.category
  {
    hide AssignmentTitle, JoinFlags;
  }

  lemma MiddleFactsMean(a: Assignment, v: string)
    ensures ("Due", v) in Facts(a) <==> v == a.due
    ensures ("Status", v) in Facts(a) <==> v == a.status
    ensures ("Flags", v) in Facts(a) <==> v == JoinFlags(a.flags)
  {
    hide AssignmentTitle, JoinFlags;
  }

  lemma ScoreFactsMean(a: Assignment, v: string)
    ensures ("Score", v) in Facts(a) <==> a.score != "" && v == if a.maxScore == "" then a.score else a.score + "/" + a.maxScore
    ensures ("Points possible", v) in Facts(a) <==> a.score == "" != a.maxScore && v == a.maxScore
  {
    hide AssignmentTitle, JoinFlags;
  }

  lemma LastFactsMean(a: Assignment, v: string)
    ensures ("Percent", v) in Facts(a) <==> v == a.percent
    ensures ("Grade", v) in Facts(a) <==> v == a.grade
  {
    hide AssignmentTitle, JoinFlags;
  }

  /** Every flag is given, in order, with a comma and a space between two. */
  lemma {:induction false} FlagsInOrder(flags: seq<string>, last: string)
    ensures JoinFlags(flags + [last]) == if flags == [] then last else JoinFlags(flags) + ", " + last
  {
    if flags != [] {
      assert (flags + [last])[1..] == flags[1..] + [last];
      FlagsInOrder(flags[1..], last);
    }
  }

  /** Each block of text stands under its own heading, after the facts and in this order. */
  lemma BlocksInOrder(a: Assignment)
    ensures BodyLines(a) == FactLines(Facts(a)) + BlockLines("Teacher comment", a.comment)
                            + BlockLines("Assignment description", a.description) + BlockLines("Category description", a.categoryDescription)
  {
    hide Facts, FactLines, BlockLines;
    var blocks := Blocks(a);
    assert blocks[..2][..1] == blocks[..1] && blocks[..1][..0] == [];
    assert AllBlockLines(blocks[..1]) == BlockLines(blocks[0].0, blocks[0].1);
    assert AllBlockLines(blocks[..2]) == AllBlockLines(blocks[..1]) + BlockLines(blocks[1].0, blocks[1].1);
  }

  /** A known fact is a line of the body: its label and its value made one line. */
  lemma {:induction false} FactIsLine(facts: seq<(string, string)>, l: string, v: string)
    requires (l, v) in facts && OneLine(v) != ""
    ensures l + ": " + OneLine(v) in FactLines(facts)
  {
    hide OneLine;
    var init, last := facts[..|facts| - 1], facts[|facts| - 1];
    if (l, v) in init {
      FactIsLine(init, l, v);
    } else {
      assert last == (l, v);
      assert FactLine(l, v)[0] == l + ": " + OneLine(v);
    }
  }

  /** The body gives each of them under its own label, and under that label nothing else. */
  lemma FactsStandUnderTheirLabels(a: Assignment, l: string, v: string)
    requires OneLine(v) != "" && l in LABELS
    ensures l + ": " + OneLine(v) in OwnLines(a) <==> exists w :: (l, w) in Facts(a) && OneLine(w) == OneLine(v)
  {
    hide OneLine, Facts, FactLines, Blocks, OwnOfBlocks;
    var line := l + ": " + OneLine(v);
    if w :| (l, w) in Facts(a) && OneLine(w) == OneLine(v) {
      FactIsLine(Facts(a), l, w);
    }
    if line in FactLines(Facts(a)) {
      var k, w := FactFrom(Facts(a), line);
      FactLabels(a, k, w);
      LabelEnds(k, OneLine(w), l, OneLine(v));
    } else if line in OwnOfBlocks(Blocks(a)) {
      var i := OwnFrom(Blocks(a), line);
      BlockHeadings(a, i);
      LabelIsNoHeading(l, OneLine(v), Blocks(a)[i].0);
    }
  }

  /** A label ends at the first colon of its line. */
  lemma LabelEnds(k: string, w: string, l: string, v: string)
    requires k in LABELS && l in LABELS && k + ": " + w == l + ": " + v
    ensures k == l && w == v
  {
    assert ':' !in k && ':' !in l;
    var line := k + ": " + w;
    assert line[|k|] == ':' && line[|l|] == ':';
    assert line[..|k|] == k && line[..|l|] == l && line[|k| + 2..] == w && line[|l| + 2..] == v;
  }

  lemma LabelIsNoHeading(l: string, v: string, h: string)
    requires l in LABELS && v != "" && h in HEADINGS
    ensures l + ": " + v != h + ":" && l + ": " + v != TRUNCATED
  {
    assert ':' !in l && ':' !in h;
    var line := l + ": " + v;
    assert line[|l|] == ':' && |line| > |l| + 2;
    assert |h + ":"| == |line| ==> (h + ":")[|l|] == h[|l|] != ':';
    assert TRUNCATED[0] == '[' && line[0] == l[0];
  }

  lemma FactLabels(a: Assignment, l: string, v: string)
    requires (l, v) in Facts(a)
    ensures l in LABELS
  {
    hide JoinFlags, OneLine;
  }

  lemma BlockHeadings(a: Assignment, i: nat)
    requires i < |Blocks(a)|
    ensures Blocks(a)[i].0 in HEADINGS
  {}

  /** Each of those is a label of the connector's with a value of one line after it, one of its headings,
      or the truncation marker. */
  lemma OwnLinesAreNamed(a: Assignment, line: string)
    requires line in OwnLines(a)
    ensures line == TRUNCATED
            || (exists h :: h in HEADINGS && line == h + ":")
            || (exists l, v :: l in LABELS && IsOneLine(v) && v != "" && line == l + ": " + v)
  {
    hide Facts, Blocks, FactLines, OwnOfBlocks, IsOneLine, OneLine;
    if line in FactLines(Facts(a)) {
      var l, v := FactFrom(Facts(a), line);
      OneLineIsOneLine(v);
      FactLabels(a, l, v);
      var w := OneLine(v);
      assert l in LABELS && IsOneLine(w) && w != "" && line == l + ": " + w;
    } else {
      var i := OwnFrom(Blocks(a), line);
      BlockHeadings(a, i);
    }
  }

  lemma {:induction false} FactFrom(facts: seq<(string, string)>, line: string) returns (l: string, v: string)
    requires line in FactLines(facts)
    ensures (l, v) in facts && OneLine(v) != "" && line == l + ": " + OneLine(v)
  {
    hide OneLine;
    if line in FactLines(facts[..|facts| - 1]) {
      l, v := FactFrom(facts[..|facts| - 1], line);
    } else {
      l, v := facts[|facts| - 1].0, facts[|facts| - 1].1;
    }
  }

  lemma {:induction false} OwnFrom(blocks: seq<(string, Block)>, line: string) returns (i: nat)
    requires line in OwnOfBlocks(blocks)
    ensures i < |blocks| && (line == TRUNCATED || line == blocks[i].0 + ":")
  {
    if line in OwnOfBlocks(blocks[..|blocks| - 1]) {
      i := OwnFrom(blocks[..|blocks| - 1], line);
    } else {
      i := |blocks| - 1;
    }
  }

  // ---- Nor any other line ----

  ghost predicate PlainTexts(a: Assignment) {
    AllPlain(a.comment.text) && AllPlain(a.description.text) && AllPlain(a.categoryDescription.text)
  }

  /** Bounded text is plain. */
  lemma BoundedTextIsPlain(s: string)
    ensures AllPlain(BoundOf(s).0)
  {
    var ls := BoundIsClean(s);
    JoinIsPlain(ls);
  }

  lemma {:induction false} FactsArePlain(facts: seq<(string, string)>)
    requires forall i :: 0 <= i < |facts| ==> AllPlain(facts[i].0)
    ensures forall i :: 0 <= i < |FactLines(facts)| ==> AllPlain(FactLines(facts)[i])
  {
    hide OneLine;
    if facts != [] {
      FactsArePlain(facts[..|facts| - 1]);
      OneLineIsOneLine(facts[|facts| - 1].1);
    }
  }

  lemma BlockIsPlain(heading: string, block: Block)
    requires AllPlain(heading) && AllPlain(block.text)
    ensures forall i :: 0 <= i < |BlockLines(heading, block)| ==> AllPlain(BlockLines(heading, block)[i])
  {
    hide Lines;
    PlainLines(block.text);
  }

  lemma {:induction false} BlocksArePlain(blocks: seq<(string, Block)>)
    requires forall i :: 0 <= i < |blocks| ==> AllPlain(blocks[i].0) && AllPlain(blocks[i].1.text)
    ensures forall i :: 0 <= i < |AllBlockLines(blocks)| ==> AllPlain(AllBlockLines(blocks)[i])
  {
    hide BlockLines, AllPlain;
    if blocks != [] {
      BlocksArePlain(blocks[..|blocks| - 1]);
      BlockIsPlain(blocks[|blocks| - 1].0, blocks[|blocks| - 1].1);
    }
  }

  lemma {:induction false} UnlinesIsPlain(ls: seq<string>)
    requires forall i :: 0 <= i < |ls| ==> AllPlain(ls[i])
    ensures AllPlain(Unlines(ls))
  {
    if ls != [] {
      UnlinesIsPlain(ls[..|ls| - 1]);
      assert AllPlain(ls[|ls| - 1]);
    }
  }

  ghost predicate Ascii(s: string) {
    forall i :: 0 <= i < |s| ==> ' ' <= s[i] <= '~'
  }

  lemma AsciiIsPlain(s: string)
    requires Ascii(s)
    ensures AllPlain(s)
  {}

  lemma LabelsArePlain(a: Assignment)
    ensures forall i :: 0 <= i < |Facts(a)| ==> AllPlain(Facts(a)[i].0)
    ensures forall i :: 0 <= i < |Blocks(a)| ==> AllPlain(Blocks(a)[i].0)
  {
    hide AllPlain, JoinFlags, OneLine;
    AsciiIsPlain("Assignment");
    AsciiIsPlain("Course");
    AsciiIsPlain("Category");
    AsciiIsPlain("Due");
    AsciiIsPlain("Status");
    AsciiIsPlain("Flags");
    AsciiIsPlain("Score");
    AsciiIsPlain("Points possible");
    AsciiIsPlain("Percent");
    AsciiIsPlain("Grade");
    AsciiIsPlain("Teacher comment");
    AsciiIsPlain("Assignment description");
    AsciiIsPlain("Category description");
  }

  lemma TextsArePlain(a: Assignment)
    requires PlainTexts(a)
    ensures forall i :: 0 <= i < |Blocks(a)| ==> AllPlain(Blocks(a)[i].1.text)
  {
    hide AllPlain;
  }

  /** The body has no other kind of line break and no control or format character, so that every reader
      sees these lines. */
  lemma BodyIsPlain(a: Assignment)
    requires PlainTexts(a)
    ensures AllPlain(Unlines(BodyLines(a)))
  {
    hide FactLines, AllBlockLines, Unlines, Facts, Blocks, AllPlain;
    LabelsArePlain(a);
    TextsArePlain(a);
    FactsArePlain(Facts(a));
    BlocksArePlain(Blocks(a));
    UnlinesIsPlain(BodyLines(a));
  }
}
