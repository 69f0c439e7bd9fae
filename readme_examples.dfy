/**
 * The README code-block grouper of the test harness: a line-driven state
 * machine that collects the fenced Python blocks of a markdown document and
 * merges them into one group per heading.
 *
 * The specification is a scanner over values (`Step`, `ScanAll`, `Sections`)
 * that keeps each block as its raw lines; `Render` then joins them with the
 * two-character literal separators. The method `GroupCodeBlocksByHeading`
 * works as the test helper does, joining eagerly, and is proved against it.
 */
module ReadmeExamples {
  import opened Strings

  /** The heading of everything before the first `#` line. */
  const TopLevelHeading: string := "Top Level (before first heading)"
  /** Lines of a block are joined by a backslash followed by `n`, not by a newline. */
  const LineSeparator: string := "\\n"
  /** Blocks under one heading are joined by two such literal pairs. */
  const BlockSeparator: string := "\\n\\n"
  const OpenFence: string := "```python"
  const CloseFence: string := "```"

  /** One emitted group: `{"heading": ..., "code": ...}`. */
  datatype Group = Group(heading: string, code: string)

  /** A heading with the blocks collected under it, each block as its lines. */
  datatype Section = Section(heading: string, blocks: seq<seq<string>>)

  /**
   * The scanner's state between two lines: the sections already finalized,
   * the current heading, the blocks collected under it, whether a block is
   * open, and the lines of the open block.
   */
  datatype Scanner = Scanner(done: seq<Section>, heading: string, blocks: seq<seq<string>>,
                             inBlock: bool, blockLines: seq<string>)

  const Initial: Scanner := Scanner([], TopLevelHeading, [], false, [])

  /** `finalize_current_heading_group`: emit the current heading only if it collected a block. */
  function Finalize(s: Scanner): (r: Scanner)
    ensures r.blocks == [] && r.heading == s.heading && r.inBlock == s.inBlock && r.blockLines == s.blockLines
    ensures |s.blocks| > 0 ==> r.done == s.done + [Section(s.heading, s.blocks)]
    ensures |s.blocks| == 0 ==> r.done == s.done
  {
    if |s.blocks| > 0 then s.(done := s.done + [Section(s.heading, s.blocks)], blocks := []) else s
  }

  /** Closes the open block, keeping the lines collected so far. */
  function CloseBlock(s: Scanner): Scanner {
    s.(blocks := s.blocks + [s.blockLines], blockLines := [], inBlock := false)
  }

  /** What one line does to the scanner, in the order the helper tests it. */
  function Step(s: Scanner, line: string): (r: Scanner)
    // finalized sections are never taken back
    ensures s.done <= r.done
    // a heading line: the new heading, nothing collected and no block open
    ensures StartsWith(line, "#") ==> r.heading == Strip(line) && r.blocks == [] && !r.inBlock
    // ... and the previous heading is finalized with its blocks, an open block included
    ensures StartsWith(line, "#") && s.inBlock ==> r.done == s.done + [Section(s.heading, s.blocks + [s.blockLines])]
    ensures StartsWith(line, "#") && !s.inBlock && |s.blocks| > 0 ==> r.done == s.done + [Section(s.heading, s.blocks)]
    ensures StartsWith(line, "#") && !s.inBlock && |s.blocks| == 0 ==> r.done == s.done
    // any other line keeps the finalized sections and the heading
    ensures !StartsWith(line, "#") ==> r.done == s.done && r.heading == s.heading
    // an opening fence: the open block, if any, is kept and a new empty one is opened
    ensures !StartsWith(line, "#") && Strip(line) == OpenFence ==>
      r.inBlock && r.blockLines == [] && r.blocks == s.blocks + (if s.inBlock then [s.blockLines] else [])
    // a closing fence closes the open block and is dropped outside one
    ensures !StartsWith(line, "#") && Strip(line) == CloseFence ==> r == (if s.inBlock then CloseBlock(s) else s)
    // a code line is collected inside a block and dropped outside one
    ensures IsCodeLine(line) ==> r == (if s.inBlock then s.(blockLines := s.blockLines + [line]) else s)
  {
    if StartsWith(line, "#") then
      // a heading; an open block is closed by it
      var closed := if s.inBlock then CloseBlock(s) else s;
      Finalize(closed).(heading := Strip(line))
    else if Strip(line) == OpenFence then
      // an opening fence; one inside a block ends the prior block
      var s1 := if s.inBlock then s.(blocks := s.blocks + [s.blockLines]) else s;
      s1.(inBlock := true, blockLines := [])
    else if Strip(line) == CloseFence && s.inBlock then
      CloseBlock(s)
    else if s.inBlock then
      s.(blockLines := s.blockLines + [line])
    else
      s
  }

  /** The scanner after every line of `lines`, in order. */
  function ScanAll(lines: seq<string>): (r: Scanner)
    // outside a block no lines are pending
    ensures r.inBlock || r.blockLines == []
    // every finalized section collected at least one block
    ensures forall k :: 0 <= k < |r.done| ==> |r.done[k].blocks| > 0
    decreases |lines|
  {
    if |lines| == 0 then Initial else Step(ScanAll(lines[..|lines| - 1]), lines[|lines| - 1])
  }

  /** After the loop: keep an unterminated block, then finalize the last heading. */
  function Finish(s: Scanner): (r: seq<Section>)
    ensures s.done <= r && |r| <= |s.done| + 1
    // the last heading is emitted exactly when it collected a block or one is still open
    ensures |r| == |s.done| + 1 <==> s.inBlock || |s.blocks| > 0
    ensures |r| == |s.done| + 1 ==>
      r[|s.done|] == Section(s.heading, s.blocks + (if s.inBlock then [s.blockLines] else []))
  {
    Finalize(if s.inBlock then s.(blocks := s.blocks + [s.blockLines]) else s).done
  }

  /** The sections of a document, in document order. */
  function Sections(lines: seq<string>): (r: seq<Section>)
    ensures forall k :: 0 <= k < |r| ==> |r[k].blocks| > 0
  {
    Finish(ScanAll(lines))
  }

  /** Each block joined by the line separator. */
  function JoinedBlocks(blocks: seq<seq<string>>): (r: seq<string>)
    ensures |r| == |blocks|
    ensures forall k :: 0 <= k < |blocks| ==> r[k] == Join(blocks[k], LineSeparator)
    decreases |blocks|
  {
    if |blocks| == 0 then [] else JoinedBlocks(blocks[..|blocks| - 1]) + [Join(blocks[|blocks| - 1], LineSeparator)]
  }

  lemma JoinedBlocksAppend(blocks: seq<seq<string>>, b: seq<string>)
    ensures JoinedBlocks(blocks + [b]) == JoinedBlocks(blocks) + [Join(b, LineSeparator)]
  {
    assert (blocks + [b])[..|blocks|] == blocks;
  }

  /** A section as the helper emits it. */
  function Render(sec: Section): Group {
    Group(sec.heading, Join(JoinedBlocks(sec.blocks), BlockSeparator))
  }

  function RenderAll(secs: seq<Section>): (r: seq<Group>)
    ensures |r| == |secs|
    ensures forall k :: 0 <= k < |secs| ==> r[k] == Render(secs[k])
    decreases |secs|
  {
    if |secs| == 0 then [] else RenderAll(secs[..|secs| - 1]) + [Render(secs[|secs| - 1])]
  }

  lemma RenderAllAppend(secs: seq<Section>, sec: Section)
    ensures RenderAll(secs + [sec]) == RenderAll(secs) + [Render(sec)]
  {
    assert (secs + [sec])[..|secs|] == secs;
  }

  /** What `group_code_blocks_by_heading` returns for a document split into lines. */
  function Groups(lines: seq<string>): (r: seq<Group>)
    ensures |r| == |Sections(lines)|
    ensures forall k :: 0 <= k < |r| ==> r[k].heading == Sections(lines)[k].heading
  {
    RenderAll(Sections(lines))
  }

  // ---------------------------------------------------------------------------
  // The helper as written: a loop over the lines and a nested finalizer
  // ---------------------------------------------------------------------------

  /** `finalize_current_heading_group`, with the `nonlocal` state passed in and out. */
  method FinalizeCurrentHeadingGroup(groups: seq<Group>, heading: string, blocks: seq<string>)
    returns (groups': seq<Group>, blocks': seq<string>)
    ensures blocks' == []
    ensures |blocks| > 0 ==> groups' == groups + [Group(heading, Join(blocks, BlockSeparator))]
    ensures |blocks| == 0 ==> groups' == groups
  {
    groups' := groups;
    if |blocks| > 0 {
      var mergedCode := Join(blocks, BlockSeparator);
      groups' := groups' + [Group(heading, mergedCode)];
    }
    blocks' := [];
  }

  /** `group_code_blocks_by_heading`, for the input already split into lines. */
  method GroupCodeBlocksByHeading(lines: seq<string>) returns (groups: seq<Group>)
    ensures groups == Groups(lines)
  {
    groups := [];
    var currentHeadingText := TopLevelHeading;
    var currentBlocksForHeading: seq<string> := [];
    var inPythonCodeBlock := false;
    var currentBlockLines: seq<string> := [];
    for i := 0 to |lines|
      invariant var s := ScanAll(lines[..i]);
        && groups == RenderAll(s.done)
        && currentHeadingText == s.heading
        && currentBlocksForHeading == JoinedBlocks(s.blocks)
        && inPythonCodeBlock == s.inBlock
        && currentBlockLines == s.blockLines
    {
      ghost var s := ScanAll(lines[..i]);
      assert lines[..i + 1][..i] == lines[..i];
      assert ScanAll(lines[..i + 1]) == Step(s, lines[i]);
      var line := lines[i];
      if StartsWith(line, "#") {
        ghost var closed := if s.inBlock then CloseBlock(s) else s;
        if inPythonCodeBlock {
          JoinedBlocksAppend(s.blocks, s.blockLines);
          currentBlocksForHeading := currentBlocksForHeading + [Join(currentBlockLines, LineSeparator)];
          currentBlockLines := [];
          inPythonCodeBlock := false;
        }
        if |closed.blocks| > 0 {
          RenderAllAppend(closed.done, Section(closed.heading, closed.blocks));
        }
        groups, currentBlocksForHeading := FinalizeCurrentHeadingGroup(groups, currentHeadingText, currentBlocksForHeading);
        currentHeadingText := Strip(line);
      } else if Strip(line) == OpenFence {
        if inPythonCodeBlock {
          JoinedBlocksAppend(s.blocks, s.blockLines);
          currentBlocksForHeading := currentBlocksForHeading + [Join(currentBlockLines, LineSeparator)];
        }
        inPythonCodeBlock := true;
        currentBlockLines := [];
      } else if Strip(line) == CloseFence && inPythonCodeBlock {
        JoinedBlocksAppend(s.blocks, s.blockLines);
        currentBlocksForHeading := currentBlocksForHeading + [Join(currentBlockLines, LineSeparator)];
        currentBlockLines := [];
        inPythonCodeBlock := false;
      } else if inPythonCodeBlock {
        currentBlockLines := currentBlockLines + [line];
      }
    }
    assert lines[..|lines|] == lines;
    ghost var s := ScanAll(lines);
    ghost var kept := if s.inBlock then s.(blocks := s.blocks + [s.blockLines]) else s;
    if inPythonCodeBlock {
      JoinedBlocksAppend(s.blocks, s.blockLines);
      currentBlocksForHeading := currentBlocksForHeading + [Join(currentBlockLines, LineSeparator)];
    }
    if |kept.blocks| > 0 {
      RenderAllAppend(kept.done, Section(kept.heading, kept.blocks));
    }
    groups, currentBlocksForHeading := FinalizeCurrentHeadingGroup(groups, currentHeadingText, currentBlocksForHeading);
  }

  // ---------------------------------------------------------------------------
  // Properties of the grouping
  // ---------------------------------------------------------------------------

  /** A line that can land in a block: not a heading and neither fence once stripped. */
  predicate IsCodeLine(line: string) {
    !StartsWith(line, "#") && Strip(line) != OpenFence && Strip(line) != CloseFence
  }

  /** A heading is the top-level one or a stripped `#` line of the document. */
  ghost predicate HeadingFrom(h: string, lines: seq<string>) {
    h == TopLevelHeading || exists l :: l in lines && StartsWith(l, "#") && h == Strip(l)
  }

  /** Every line of the block is a code line of the document. */
  ghost predicate LinesFrom(block: seq<string>, lines: seq<string>) {
    forall j :: 0 <= j < |block| ==> block[j] in lines && IsCodeLine(block[j])
  }

  ghost predicate BlocksFrom(blocks: seq<seq<string>>, lines: seq<string>) {
    forall k :: 0 <= k < |blocks| ==> LinesFrom(blocks[k], lines)
  }

  /** An emitted section: at least one block, a heading and block lines taken from the document. */
  ghost predicate SectionFrom(sec: Section, lines: seq<string>) {
    |sec.blocks| > 0 && HeadingFrom(sec.heading, lines) && BlocksFrom(sec.blocks, lines)
  }

  /** What the scanner keeps true while it reads `lines`. */
  ghost predicate Sound(s: Scanner, lines: seq<string>) {
    && (forall k :: 0 <= k < |s.done| ==> SectionFrom(s.done[k], lines))
    && HeadingFrom(s.heading, lines)
    && BlocksFrom(s.blocks, lines)
    && LinesFrom(s.blockLines, lines)
    && (!s.inBlock ==> s.blockLines == [])
  }

  /** One line of the document keeps the scanner sound. */
  lemma StepSound(s: Scanner, line: string, lines: seq<string>)
    requires Sound(s, lines) && line in lines
    ensures Sound(Step(s, line), lines)
  {
    if StartsWith(line, "#") {
      var closed := if s.inBlock then CloseBlock(s) else s;
      assert Sound(closed, lines);
      assert HeadingFrom(Strip(line), lines);
    }
  }

  lemma {:induction false} ScanSound(lines: seq<string>, i: nat)
    requires i <= |lines|
    ensures Sound(ScanAll(lines[..i]), lines)
  {
    if i > 0 {
      ScanSound(lines, i - 1);
      assert lines[..i][..i - 1] == lines[..i - 1];
      assert lines[..i][i - 1] in lines;
      StepSound(ScanAll(lines[..i - 1]), lines[i - 1], lines);
    }
  }

  /**
   * Every emitted section collected at least one block, its heading is the
   * top-level one or a stripped `#` line, and every line of its blocks is a
   * line of the document that is no heading and no fence.
   */
  lemma SectionsAreSound(lines: seq<string>)
    ensures forall k :: 0 <= k < |Sections(lines)| ==> SectionFrom(Sections(lines)[k], lines)
  {
    ScanSound(lines, |lines|);
    assert lines[..|lines|] == lines;
  }

  /** A line never takes back a finalized section. */
  lemma StepExtends(s: Scanner, line: string)
    ensures s.done <= Step(s, line).done
  {
  }

  /** Reading more lines only appends sections. */
  lemma {:induction false} ScanExtends(lines: seq<string>, i: nat, j: nat)
    requires i <= j <= |lines|
    ensures ScanAll(lines[..i]).done <= ScanAll(lines[..j]).done
    decreases j - i
  {
    if i < j {
      ScanExtends(lines, i, j - 1);
      ScanAllStep(lines, j);
      StepExtends(ScanAll(lines[..j - 1]), lines[j - 1]);
    }
  }

  /** Groups come out in document order: those finalized after `i` lines begin the result. */
  lemma GroupsInDocumentOrder(lines: seq<string>, i: nat)
    requires i <= |lines|
    ensures ScanAll(lines[..i]).done <= Sections(lines)
    ensures RenderAll(ScanAll(lines[..i]).done) <= Groups(lines)
  {
    ScanExtends(lines, i, |lines|);
    assert lines[..|lines|] == lines;
  }

  /** The separators are literal: when no line holds a newline, no merged code does. */
  lemma NoRealNewline(lines: seq<string>)
    requires forall j :: 0 <= j < |lines| ==> '\n' !in lines[j]
    ensures forall k :: 0 <= k < |Groups(lines)| ==> '\n' !in Groups(lines)[k].code
  {
    SectionsAreSound(lines);
    var secs := Sections(lines);
    assert '\n' !in LineSeparator && '\n' !in BlockSeparator;
    forall k | 0 <= k < |secs|
      ensures '\n' !in Render(secs[k]).code
    {
      var joined := JoinedBlocks(secs[k].blocks);
      forall b | 0 <= b < |joined|
        ensures '\n' !in joined[b]
      {
        var block := secs[k].blocks[b];
        forall j | 0 <= j < |block|
          ensures '\n' !in block[j]
        {
          assert block[j] in lines;
        }
        JoinAvoids(block, LineSeparator, '\n');
      }
      JoinAvoids(joined, BlockSeparator, '\n');
    }
  }

  // ---------------------------------------------------------------------------
  // The quirks, on small documents
  // ---------------------------------------------------------------------------

  /** How `Step` classifies a line with no surrounding whitespace. */
  lemma Classify(l: string)
    requires |l| > 0 && !IsSpace(l[0]) && !IsSpace(l[|l| - 1])
    ensures StartsWith(l, "#") <==> l[0] == '#'
    ensures Strip(l) == l
  {
    StripKeepsUnpadded(l);
    assert l[..1] == [l[0]];
  }

  lemma OpenFenceClassified()
    ensures !StartsWith(OpenFence, "#") && Strip(OpenFence) == OpenFence
  {
    Classify(OpenFence);
  }

  lemma CloseFenceClassified()
    ensures !StartsWith(CloseFence, "#") && Strip(CloseFence) == CloseFence
  {
    Classify(CloseFence);
  }

  lemma FencesDiffer()
    ensures OpenFence != CloseFence
  {
    assert |OpenFence| != |CloseFence|;
  }

  /** What an opening fence does. */
  lemma StepOpen(s: Scanner)
    ensures Step(s, OpenFence)
         == (if s.inBlock then s.(blocks := s.blocks + [s.blockLines]) else s).(inBlock := true, blockLines := [])
  {
    OpenFenceClassified();
  }

  /** What a closing fence does. */
  lemma StepClose(s: Scanner)
    ensures Step(s, CloseFence) == if s.inBlock then CloseBlock(s) else s
  {
    CloseFenceClassified();
    FencesDiffer();
  }

  /** What a code line does. */
  lemma StepCode(s: Scanner, l: string)
    requires IsCodeLine(l)
    ensures Step(s, l) == if s.inBlock then s.(blockLines := s.blockLines + [l]) else s
  {
  }

  /** The scanner after the first `n` lines, from the scanner after `n - 1`. */
  lemma ScanAllStep(lines: seq<string>, n: nat)
    requires 0 < n <= |lines|
    ensures ScanAll(lines[..n]) == Step(ScanAll(lines[..n - 1]), lines[n - 1])
  {
    assert lines[..n][..n - 1] == lines[..n - 1];
  }

  /** The scanner having read an opening fence first. */
  lemma OpenedFirst(lines: seq<string>)
    requires |lines| > 0 && lines[0] == OpenFence
    ensures ScanAll(lines[..1]) == Scanner([], TopLevelHeading, [], true, [])
  {
    ScanAllStep(lines, 1);
    StepOpen(Initial);
  }

  /** `sep.join([a, b])` */
  lemma JoinTwo(a: string, b: string, sep: string)
    ensures Join([a, b], sep) == a + sep + b
  {
    assert [a, b][1..] == [b];
  }

  /** An opening fence and a closing fence: one empty block, closed. */
  lemma OpenThenClose()
    ensures ScanAll([OpenFence, CloseFence]) == Scanner([], TopLevelHeading, [[]], false, [])
  {
    var l1 := [OpenFence];
    OpenedFirst(l1);
    assert l1[..1] == l1;
    var s1 := Scanner([], TopLevelHeading, [], true, []);
    assert ScanAll(l1) == s1;
    ScanAllSnoc(l1, CloseFence);
    StepClose(s1);
    var noBlocks: seq<seq<string>> := [];
    assert noBlocks + [[]] == [[]];
    assert l1 + [CloseFence] == [OpenFence, CloseFence];
  }

  /** An empty fenced block is an empty-string block, and its group is still emitted. */
  lemma EmptyBlockIsEmitted()
    ensures Groups([OpenFence, CloseFence]) == [Group(TopLevelHeading, "")]
  {
    OpenThenClose();
    var sec := Section(TopLevelHeading, [[]]);
    assert Sections([OpenFence, CloseFence]) == [sec];
    assert JoinedBlocks(sec.blocks) == [""];
  }

  /** An opening fence followed by a code line: one open block holding that line. */
  lemma OpenThenCode(a: string)
    requires IsCodeLine(a)
    ensures ScanAll([OpenFence, a]) == Scanner([], TopLevelHeading, [], true, [a])
  {
    var lines := [OpenFence, a];
    OpenedFirst(lines);
    ScanAllStep(lines, 2);
    StepCode(ScanAll(lines[..1]), a);
    assert lines[..2] == lines;
  }

  /** A block still open at the end of the document is kept. */
  lemma UnterminatedBlockIsKept(a: string)
    requires IsCodeLine(a)
    ensures Groups([OpenFence, a]) == [Group(TopLevelHeading, a)]
  {
    OpenThenCode(a);
    assert JoinedBlocks([[a]]) == [a];
  }

  /** What a heading line does. */
  lemma StepHeading(s: Scanner, l: string)
    requires StartsWith(l, "#")
    ensures Step(s, l) == Finalize(if s.inBlock then CloseBlock(s) else s).(heading := Strip(l))
  {
  }

  lemma ScanAllSnoc(lines: seq<string>, line: string)
    ensures ScanAll(lines + [line]) == Step(ScanAll(lines), line)
  {
    assert (lines + [line])[..|lines|] == lines;
  }

  /** An opening fence, two code lines and a closing fence: one block of two lines. */
  lemma OneBlockOfTwoLines(a: string, b: string)
    requires IsCodeLine(a) && IsCodeLine(b)
    ensures ScanAll([OpenFence, a, b, CloseFence]) == Scanner([], TopLevelHeading, [[a, b]], false, [])
  {
    var l2 := [OpenFence, a];
    OpenThenCode(a);
    var s2 := Scanner([], TopLevelHeading, [], true, [a]);
    var l3 := l2 + [b];
    ScanAllSnoc(l2, b);
    StepCode(s2, b);
    var s3 := s2.(blockLines := [a, b]);
    assert ScanAll(l3) == s3;
    ScanAllSnoc(l3, CloseFence);
    StepClose(s3);
    assert [] + [[a, b]] == [[a, b]];
    assert l3 + [CloseFence] == [OpenFence, a, b, CloseFence];
  }

  /** Lines of a block are joined by the literal two characters backslash and `n`. */
  lemma LinesJoinLiterally(a: string, b: string)
    requires IsCodeLine(a) && IsCodeLine(b)
    ensures Groups([OpenFence, a, b, CloseFence]) == [Group(TopLevelHeading, a + LineSeparator + b)]
  {
    OneBlockOfTwoLines(a, b);
    var sec := Section(TopLevelHeading, [[a, b]]);
    assert Sections([OpenFence, a, b, CloseFence]) == [sec];
    JoinTwo(a, b, LineSeparator);
    assert JoinedBlocks(sec.blocks) == [a + LineSeparator + b];
  }

  /**
   * A Python comment at the start of a line inside a block counts as a
   * heading: it closes the block, and the lines after it are dropped.
   */
  lemma CommentClosesBlock(a: string, note: string, b: string)
    requires IsCodeLine(a) && IsCodeLine(b) && StartsWith(note, "#")
    ensures Groups([OpenFence, a, note, b, CloseFence]) == [Group(TopLevelHeading, a)]
  {
    var l2 := [OpenFence, a];
    OpenThenCode(a);
    var l3 := l2 + [note];
    ScanAllSnoc(l2, note);
    StepHeading(ScanAll(l2), note);
    var closed := CloseBlock(ScanAll(l2));
    assert closed == Scanner([], TopLevelHeading, [[a]], false, []);
    assert Finalize(closed).done == [Section(TopLevelHeading, [[a]])];
    var afterNote := Scanner([Section(TopLevelHeading, [[a]])], Strip(note), [], false, []);
    assert ScanAll(l3) == afterNote;
    var l4 := l3 + [b];
    ScanAllSnoc(l3, b);
    StepCode(afterNote, b);
    assert ScanAll(l4) == afterNote;
    var l5 := l4 + [CloseFence];
    ScanAllSnoc(l4, CloseFence);
    StepClose(afterNote);
    assert ScanAll(l5) == afterNote;
    assert l5 == [OpenFence, a, note, b, CloseFence];
    assert JoinedBlocks([[a]]) == [a];
  }

  /** The scanner state after an opening fence nested inside a block and the closing fence. */
  lemma NestedOpenFenceScan(a: string, b: string)
    requires IsCodeLine(a) && IsCodeLine(b)
    ensures ScanAll([OpenFence, a, OpenFence, b, CloseFence]) == Scanner([], TopLevelHeading, [[a], [b]], false, [])
  {
    var l2 := [OpenFence, a];
    OpenThenCode(a);
    var l3 := l2 + [OpenFence];
    ScanAllSnoc(l2, OpenFence);
    StepOpen(ScanAll(l2));
    assert [] + [[a]] == [[a]];
    var s3 := Scanner([], TopLevelHeading, [[a]], true, []);
    assert l3 == [OpenFence, a, OpenFence];
    assert ScanAll(l3) == s3;
    var l4 := l3 + [b];
    ScanAllSnoc(l3, b);
    StepCode(s3, b);
    assert ScanAll(l4) == s3.(blockLines := [b]);
    assert l4 == [OpenFence, a, OpenFence, b];
    var l5 := l4 + [CloseFence];
    ScanAllSnoc(l4, CloseFence);
    StepClose(s3.(blockLines := [b]));
    assert l5 == [OpenFence, a, OpenFence, b, CloseFence];
  }

  /** A section of two one-line blocks renders as the two lines joined by the block separator. */
  lemma RenderTwoOneLineBlocks(h: string, a: string, b: string)
    ensures Render(Section(h, [[a], [b]])) == Group(h, a + BlockSeparator + b)
  {
    var sec := Section(h, [[a], [b]]);
    var joined := JoinedBlocks(sec.blocks);
    assert joined[0] == Join([a], LineSeparator) == a;
    assert joined[1] == Join([b], LineSeparator) == b;
    assert joined == [a, b];
    JoinTwo(a, b, BlockSeparator);
  }

  /** An opening fence inside a block ends the prior block; both are merged with the block separator. */
  lemma NestedOpenFenceSplitsBlock(a: string, b: string)
    requires IsCodeLine(a) && IsCodeLine(b)
    ensures Groups([OpenFence, a, OpenFence, b, CloseFence]) == [Group(TopLevelHeading, a + BlockSeparator + b)]
  {
    var l5 := [OpenFence, a, OpenFence, b, CloseFence];
    NestedOpenFenceScan(a, b);
    var sec := Section(TopLevelHeading, [[a], [b]]);
    assert Sections(l5) == [sec];
    RenderTwoOneLineBlocks(TopLevelHeading, a, b);
    assert Groups(l5) == [Render(sec)];
  }

  /** A closing fence outside a block, like every other line there, is dropped. */
  lemma StrayCloseFenceDropped(a: string)
    requires IsCodeLine(a)
    ensures Groups([CloseFence, a]) == []
  {
    var lines := [CloseFence, a];
    ScanAllStep(lines, 1);
    StepClose(Initial);
    assert ScanAll(lines[..1]) == Initial;
    ScanAllStep(lines, 2);
    StepCode(Initial, a);
    assert lines[..2] == lines;
    assert ScanAll(lines) == Initial;
  }

  /** A heading, then a fenced block holding one code line. */
  lemma HeadingThenBlock(h: string, a: string)
    requires StartsWith(h, "#") && IsCodeLine(a)
    ensures ScanAll([h, OpenFence, a, CloseFence]) == Scanner([], Strip(h), [[a]], false, [])
  {
    var l1 := [h];
    ScanAllSnoc([], h);
    assert [] + [h] == l1;
    StepHeading(Initial, h);
    var s1 := Scanner([], Strip(h), [], false, []);
    assert ScanAll(l1) == s1;
    var l2 := l1 + [OpenFence];
    ScanAllSnoc(l1, OpenFence);
    StepOpen(s1);
    var s2 := s1.(inBlock := true);
    assert ScanAll(l2) == s2;
    var l3 := l2 + [a];
    ScanAllSnoc(l2, a);
    StepCode(s2, a);
    assert ScanAll(l3) == s2.(blockLines := [a]);
    ScanAllSnoc(l3, CloseFence);
    StepClose(s2.(blockLines := [a]));
    assert [] + [[a]] == [[a]];
    assert l3 + [CloseFence] == [h, OpenFence, a, CloseFence];
  }

  /** A heading opens a new group; code under it is emitted under the stripped heading. */
  lemma HeadingNamesGroup(h: string, a: string)
    requires StartsWith(h, "#") && IsCodeLine(a)
    ensures Groups([h, OpenFence, a, CloseFence]) == [Group(Strip(h), a)]
  {
    HeadingThenBlock(h, a);
    var sec := Section(Strip(h), [[a]]);
    assert Sections([h, OpenFence, a, CloseFence]) == [sec];
    assert JoinedBlocks(sec.blocks) == [a];
  }
}
