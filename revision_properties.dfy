/**
 * What the revised-contract document promises: one paragraph per line, blank
 * and marker-free lines kept as text, styled runs for the markers, and, on
 * lines whose additions all come before their deletions, the line read back
 * with each marker replaced by its payload.
 */
module RevisionProperties {
  import opened Wrappers
  import opened JsStrings
  import opened Markers
  import opened DocumentGenerator

  lemma {:induction false} LineParagraphsShape(lines: seq<string>)
    ensures |LineParagraphs(lines)| == |lines|
    ensures forall i :: 0 <= i < |lines| ==> LineParagraphs(lines)[i] == LineParagraph(lines[i])
  {
    if lines != [] {
      LineParagraphsShape(lines[1..]);
      var ps := LineParagraphs(lines);
      assert ps == [LineParagraph(lines[0])] + LineParagraphs(lines[1..]);
      forall i | 0 < i < |lines| ensures ps[i] == LineParagraph(lines[i]) {
        assert lines[1..][i - 1] == lines[i];
      }
    }
  }

  /** A title, then one paragraph per `\n`-separated line: as many paragraphs as line feeds, plus two. */
  lemma RevisedParagraphCount(revised: string)
    ensures |RevisedContractParagraphs(revised)| == |Split(revised, "\n")| + 1 == CountChar(revised, '\n') + 2
    ensures RevisedContractParagraphs(revised)[0] == Title(RevisedTitle)
    ensures forall i :: 0 <= i < |Split(revised, "\n")| ==>
      RevisedContractParagraphs(revised)[i + 1] == LineParagraph(Split(revised, "\n")[i])
  {
    var lines := Split(revised, "\n");
    LineParagraphsShape(lines);
    assert "\n" == ['\n'];
    SplitCharCount(revised, '\n');
    var ps := RevisedContractParagraphs(revised);
    forall i | 0 <= i < |lines| ensures ps[i + 1] == LineParagraph(lines[i]) {
      assert ps[i + 1] == LineParagraphs(lines)[i];
    }
  }

  /** A line becomes the empty text paragraph exactly when it is blank. */
  lemma BlankLineParagraph(line: string)
    ensures LineParagraph(line) == TextParagraph("") <==> AllWhitespace(line)
  {
    TrimSpec(line);
  }

  /** A line with no `【` is kept whole as the text of its paragraph. */
  lemma MarkerFreeLine(line: string)
    requires NoOpen(line) && !AllWhitespace(line)
    ensures LineParagraph(line) == TextParagraph(line)
  {
    TrimSpec(line);
    NoOpenScan(line, Addition);
    NoOpenScan(line, Deletion);
  }

  /** `【新增：】` is no marker: the line stays plain text. */
  lemma EmptyMarkerLine(k: Kind, colon: char)
    requires IsMarkerColon(colon)
    ensures var line := [Open] + Word(k) + [colon, Close];
      LineParagraph(line) == TextParagraph(line)
  {
    var line := [Open] + Word(k) + [colon, Close];
    TrimSpec(line);
    assert !IsWhitespace(line[0]);
    EmptyMarkerIgnored(k, colon, Addition);
    EmptyMarkerIgnored(k, colon, Deletion);
  }

  // ---------------------------------------------------------------------------
  // The runs of a line

  /** A non-empty unstyled run, or a payload styled as an addition or a deletion. */
  predicate IsTokenRun(r: Run) {
    (r == Plain(r.text) && r.text != []) || r == StyledRun(Addition, r.text) || r == StyledRun(Deletion, r.text)
  }

  predicate AllTokenRuns(runs: seq<Run>) {
    forall i :: 0 <= i < |runs| ==> IsTokenRun(runs[i])
  }

  /** The bold or struck-through runs, in order. */
  function StyledRuns(runs: seq<Run>): seq<Run> {
    if runs == [] then []
    else (if runs[0].bold || runs[0].strike then [runs[0]] else []) + StyledRuns(runs[1..])
  }

  /** The styled run of each marker text from the `i`-th on, carrying its capture. */
  function MarkerRuns(ms: seq<string>, i: nat, k: Kind): seq<Run>
    requires AreMatches(ms, k) && i <= |ms|
    decreases |ms| - i
  {
    if i == |ms| then [] else [StyledRun(k, Payload(ms[i], k))] + MarkerRuns(ms, i + 1, k)
  }

  lemma {:induction false} MarkerRunsLength(ms: seq<string>, i: nat, k: Kind)
    requires AreMatches(ms, k) && i <= |ms|
    ensures |MarkerRuns(ms, i, k)| == |ms| - i
    decreases |ms| - i
  {
    if i < |ms| {
      MarkerRunsLength(ms, i + 1, k);
    }
  }

  lemma AllTokenRunsAppend(a: seq<Run>, b: seq<Run>)
    requires AllTokenRuns(a) && AllTokenRuns(b)
    ensures AllTokenRuns(a + b)
  {
    forall i | 0 <= i < |a + b| ensures IsTokenRun((a + b)[i]) {
      if i >= |a| {
        assert (a + b)[i] == b[i - |a|];
      }
    }
  }

  lemma {:induction false} StyledRunsAppend(a: seq<Run>, b: seq<Run>)
    ensures StyledRuns(a + b) == StyledRuns(a) + StyledRuns(b)
  {
    if a != [] {
      assert (a + b)[0] == a[0] && (a + b)[1..] == a[1..] + b;
      StyledRunsAppend(a[1..], b);
      var first := if a[0].bold || a[0].strike then [a[0]] else [];
      calc {
        StyledRuns(a + b);
        first + StyledRuns(a[1..] + b);
        first + (StyledRuns(a[1..]) + StyledRuns(b));
        first + StyledRuns(a[1..]) + StyledRuns(b);
      }
    } else {
      assert a + b == b;
    }
  }

  /** The runs of one step: at most one non-empty plain run, then the styled payload. */
  lemma StepShape(remaining: string, m: string, k: Kind)
    requires MarkerLength(m, k) == Some(|m|)
    ensures AllTokenRuns(Step(remaining, m, k).0)
    ensures StyledRuns(Step(remaining, m, k).0) == [StyledRun(k, Payload(m, k))]
  {
    var parts := Split(remaining, m);
    var styled := StyledRun(k, Payload(m, k));
    assert StyledRuns([styled]) == [styled];
    if parts[0] != [] {
      assert StyledRuns([Plain(parts[0])] + [styled]) == [styled] by {
        assert ([Plain(parts[0])] + [styled])[1..] == [styled];
      }
    }
  }

  lemma {:induction false} ConsumeShape(remaining: string, ms: seq<string>, i: nat, k: Kind)
    requires AreMatches(ms, k) && i <= |ms|
    ensures AllTokenRuns(Consume(remaining, ms, i, k).0)
    ensures StyledRuns(Consume(remaining, ms, i, k).0) == MarkerRuns(ms, i, k)
    decreases |ms| - i
  {
    if i < |ms| {
      var step := Step(remaining, ms[i], k);
      StepShape(remaining, ms[i], k);
      ConsumeShape(step.1, ms, i + 1, k);
      var more := Consume(step.1, ms, i + 1, k).0;
      AllTokenRunsAppend(step.0, more);
      StyledRunsAppend(step.0, more);
    }
  }

  lemma PlainRunShape(t: string)
    ensures AllTokenRuns(PlainRun(t)) && StyledRuns(PlainRun(t)) == []
  {
    if t != [] {
      assert StyledRuns([Plain(t)]) == [];
    }
  }

  /**
   * Every run of a line is a non-empty plain run or a styled payload, and the
   * styled runs are the additions' payloads in order, then the deletions':
   * one styled run per marker occurrence.
   */
  lemma LineRunsShape(line: string)
    ensures AllTokenRuns(LineRuns(line))
    ensures AreMatches(Scan(line, Addition), Addition) && AreMatches(Scan(line, Deletion), Deletion)
    ensures StyledRuns(LineRuns(line))
      == MarkerRuns(Scan(line, Addition), 0, Addition) + MarkerRuns(Scan(line, Deletion), 0, Deletion)
    ensures |StyledRuns(LineRuns(line))| == |Scan(line, Addition)| + |Scan(line, Deletion)|
  {
    ScanMatches(line, Addition);
    ScanMatches(line, Deletion);
    var adds, dels := Scan(line, Addition), Scan(line, Deletion);
    var added := Consume(line, adds, 0, Addition);
    var deleted := Consume(added.1, dels, 0, Deletion);
    ConsumeShape(line, adds, 0, Addition);
    ConsumeShape(added.1, dels, 0, Deletion);
    PlainRunShape(deleted.1);
    AllTokenRunsAppend(added.0, deleted.0);
    AllTokenRunsAppend(added.0 + deleted.0, PlainRun(deleted.1));
    StyledRunsAppend(added.0, deleted.0);
    StyledRunsAppend(added.0 + deleted.0, PlainRun(deleted.1));
    MarkerRunsLength(adds, 0, Addition);
    MarkerRunsLength(dels, 0, Deletion);
  }

  // ---------------------------------------------------------------------------
  // Lines written as blocks

  /** The runs a line written as blocks should give: each block's plain text, if any, then its payload styled. */
  function BlockRuns(bs: seq<Block>): seq<Run> {
    if bs == [] then []
    else PlainRun(bs[0].before) + [StyledRun(bs[0].mark.kind, bs[0].mark.payload)] + BlockRuns(bs[1..])
  }

  /** The blocks read with every marker replaced by its payload. */
  function Revealed(bs: seq<Block>): string {
    if bs == [] then "" else bs[0].before + bs[0].mark.payload + Revealed(bs[1..])
  }

  /** An occurrence starts with the separator's first character. */
  lemma OccursAtHead(s: string, m: string, j: nat)
    ensures OccursAt(s, m, j) && m != [] ==> s[j] == m[0]
  {
    if OccursAt(s, m, j) && m != [] {
      assert s[j..j + |m|][0] == s[j];
    }
  }

  /** With no occurrence inside the plain text before it, the first occurrence of `m` is the one written after it. */
  lemma FirstOccurrenceAfter(before: string, m: string, rest: string)
    requires m != [] && forall j :: 0 <= j < |before| ==> !OccursAt(before + m + rest, m, j)
    ensures IndexOf(before + m + rest, m, 0) == Some(|before|)
    ensures Split(before + m + rest, m)[0] == before && Join(Split(before + m + rest, m)[1..], m) == rest
  {
    var s := before + m + rest;
    assert s[|before|..|before| + |m|] == m;
    IndexOfAt(s, m, 0, |before|);
    SplitAtFirst(s, m);
    assert s[..|before|] == before && s[|before| + |m|..] == rest;
  }

  /** A text without `【` holds no occurrence of a marker text. */
  lemma NoOpenNoOccurrence(before: string, m: string, rest: string)
    requires NoOpen(before) && m != [] && m[0] == Open
    ensures forall j :: 0 <= j < |before| ==> !OccursAt(before + m + rest, m, j)
  {
    var s := before + m + rest;
    forall j | 0 <= j < |before| ensures !OccursAt(s, m, j) {
      OccursAtHead(s, m, j);
      assert s[j] == before[j];
    }
  }

  /** A block of kind `k`, on the text that starts with it: its plain text, its payload, and the rest. */
  lemma StepOnBlock(b: Block, rest: string, k: Kind)
    requires NoOpen(b.before) && IsMarkerColon(b.mark.colon) && IsCleanPayload(b.mark.payload) && b.mark.kind == k
    ensures MarkerLength(MarkText(b.mark), k) == Some(|MarkText(b.mark)|)
    ensures Step(b.before + MarkText(b.mark) + rest, MarkText(b.mark), k)
      == (PlainRun(b.before) + [StyledRun(k, b.mark.payload)], rest)
  {
    var m := MarkText(b.mark);
    PayloadOfMarkup(k, b.mark.colon, b.mark.payload);
    NoOpenNoOccurrence(b.before, m, rest);
    FirstOccurrenceAfter(b.before, m, rest);
  }

  /** The marker texts of blocks all of kind `k`: one per block, each matched whole. */
  lemma MarkTextsIndex(bs: seq<Block>, k: Kind)
    requires WellFormedBlocks(bs) && OfKind(bs, k)
    ensures |MarkTexts(bs, k)| == |bs| && AreMatches(MarkTexts(bs, k), k)
    ensures forall i :: 0 <= i < |bs| ==> MarkTexts(bs, k)[i] == MarkText(bs[i].mark)
    decreases |bs|
  {
    if bs != [] {
      MarkTextsIndex(bs[1..], k);
      MarkTextsOfKind(bs, k);
      var ms := MarkTexts(bs, k);
      assert ms == [MarkText(bs[0].mark)] + MarkTexts(bs[1..], k);
      PayloadOfMarkup(k, bs[0].mark.colon, bs[0].mark.payload);
      forall i | 0 < i < |bs| ensures ms[i] == MarkText(bs[i].mark) {
        assert bs[1..][i - 1] == bs[i];
      }
    }
  }

  /** Consuming the marker texts of a line of blocks of kind `k`, from block `j` on, gives the blocks' runs. */
  lemma {:induction false} ConsumeBlocks(bs: seq<Block>, ms: seq<string>, j: nat, rest: string, k: Kind)
    requires WellFormedBlocks(bs) && OfKind(bs, k) && j <= |bs|
    requires |ms| == |bs| && AreMatches(ms, k) && forall i :: 0 <= i < |bs| ==> ms[i] == MarkText(bs[i].mark)
    ensures Consume(RenderBlocks(bs[j..]) + rest, ms, j, k) == (BlockRuns(bs[j..]), rest)
    decreases |bs| - j
  {
    if j < |bs| {
      var b := bs[j];
      assert bs[j..][0] == b && bs[j..][1..] == bs[j + 1..];
      var tail := RenderBlocks(bs[j + 1..]) + rest;
      assert RenderBlocks(bs[j..]) + rest == b.before + MarkText(b.mark) + tail;
      StepOnBlock(b, tail, k);
      ConsumeBlocks(bs, ms, j + 1, rest, k);
      assert PlainRun(b.before) + [StyledRun(k, b.mark.payload)] + BlockRuns(bs[j + 1..]) == BlockRuns(bs[j..]);
    } else {
      assert bs[j..] == [];
      assert RenderBlocks(bs[j..]) + rest == rest;
    }
  }

  /** On additions followed by deletions and a plain tail, each scan finds exactly the markers of its kind. */
  lemma ScanOrdered(adds: seq<Block>, dels: seq<Block>, tail: string)
    requires WellFormedBlocks(adds) && WellFormedBlocks(dels) && NoOpen(tail)
    requires OfKind(adds, Addition) && OfKind(dels, Deletion)
    ensures var line := RenderBlocks(adds) + RenderBlocks(dels) + tail;
      Scan(line, Addition) == MarkTexts(adds, Addition) && Scan(line, Deletion) == MarkTexts(dels, Deletion)
  {
    var line := RenderBlocks(adds) + RenderBlocks(dels) + tail;
    assert line == RenderBlocks(adds) + (RenderBlocks(dels) + tail);
    forall k: Kind ensures Scan(line, k) == MarkTexts(adds, k) + MarkTexts(dels, k) {
      ScanBlocks(adds, RenderBlocks(dels) + tail, k);
      ScanBlocks(dels, tail, k);
      NoOpenScan(tail, k);
      assert MarkTexts(dels, k) + [] == MarkTexts(dels, k);
    }
    MarkTextsOtherKind(dels, Deletion, Addition);
    MarkTextsOtherKind(adds, Addition, Deletion);
    assert MarkTexts(adds, Addition) + [] == MarkTexts(adds, Addition);
  }

  /**
   * A line whose additions all come before its deletions: the runs are the
   * plain text and payload of each addition, then of each deletion, then the
   * plain tail.
   */
  lemma OrderedLine(adds: seq<Block>, dels: seq<Block>, tail: string)
    requires WellFormedBlocks(adds) && WellFormedBlocks(dels) && NoOpen(tail)
    requires OfKind(adds, Addition) && OfKind(dels, Deletion)
    ensures LineRuns(RenderBlocks(adds) + RenderBlocks(dels) + tail) == BlockRuns(adds) + BlockRuns(dels) + PlainRun(tail)
    ensures Scan(RenderBlocks(adds) + RenderBlocks(dels) + tail, Addition) == MarkTexts(adds, Addition)
    ensures Scan(RenderBlocks(adds) + RenderBlocks(dels) + tail, Deletion) == MarkTexts(dels, Deletion)
  {
    var line := RenderBlocks(adds) + RenderBlocks(dels) + tail;
    ScanOrdered(adds, dels, tail);
    Assoc(RenderBlocks(adds), RenderBlocks(dels), tail);
    ConsumeAll(adds, RenderBlocks(dels) + tail, Addition);
    ConsumeAll(dels, tail, Deletion);
    LineRunsOf(line, BlockRuns(adds), RenderBlocks(dels) + tail, BlockRuns(dels), tail);
  }

  lemma Assoc(a: string, b: string, c: string)
    ensures a + b + c == a + (b + c)
  {
  }

  /** The runs of a line, given what consuming its additions and then its deletions gives. */
  lemma LineRunsOf(line: string, added: seq<Run>, afterAdded: string, deleted: seq<Run>, tail: string)
    requires AreMatches(Scan(line, Addition), Addition) && AreMatches(Scan(line, Deletion), Deletion)
    requires Consume(line, Scan(line, Addition), 0, Addition) == (added, afterAdded)
    requires Consume(afterAdded, Scan(line, Deletion), 0, Deletion) == (deleted, tail)
    ensures LineRuns(line) == added + deleted + PlainRun(tail)
  {
  }

  /** Consuming the matches of all the blocks of one kind gives their runs and leaves what follows them. */
  lemma ConsumeAll(bs: seq<Block>, rest: string, k: Kind)
    requires WellFormedBlocks(bs) && OfKind(bs, k)
    ensures AreMatches(MarkTexts(bs, k), k)
    ensures Consume(RenderBlocks(bs) + rest, MarkTexts(bs, k), 0, k) == (BlockRuns(bs), rest)
  {
    MarkTextsIndex(bs, k);
    assert bs[0..] == bs;
    ConsumeBlocks(bs, MarkTexts(bs, k), 0, rest, k);
  }

  lemma {:induction false} RunsTextAppend(a: seq<Run>, b: seq<Run>)
    ensures RunsText(a + b) == RunsText(a) + RunsText(b)
  {
    if a != [] {
      assert (a + b)[0] == a[0] && (a + b)[1..] == a[1..] + b;
      RunsTextAppend(a[1..], b);
      calc {
        RunsText(a + b);
        a[0].text + RunsText(a[1..] + b);
        a[0].text + (RunsText(a[1..]) + RunsText(b));
        a[0].text + RunsText(a[1..]) + RunsText(b);
      }
    } else {
      assert a + b == b;
    }
  }

  lemma PlainRunText(t: string)
    ensures RunsText(PlainRun(t)) == t
  {
    if t != [] {
      assert RunsText([Plain(t)]) == t + RunsText([]);
    }
  }

  lemma {:induction false} BlockRunsText(bs: seq<Block>)
    ensures RunsText(BlockRuns(bs)) == Revealed(bs)
  {
    if bs != [] {
      var b := bs[0];
      var styled := StyledRun(b.mark.kind, b.mark.payload);
      BlockRunsText(bs[1..]);
      PlainRunText(b.before);
      RunsTextAppend(PlainRun(b.before) + [styled], BlockRuns(bs[1..]));
      RunsTextAppend(PlainRun(b.before), [styled]);
      assert RunsText([styled]) == b.mark.payload + RunsText([]);
    }
  }

  /**
   * On such a line the paragraph is its runs, the run texts read back the line
   * with every marker replaced by its payload, and there is one styled run per
   * marker.
   */
  lemma OrderedLineText(adds: seq<Block>, dels: seq<Block>, tail: string)
    requires WellFormedBlocks(adds) && WellFormedBlocks(dels) && NoOpen(tail)
    requires OfKind(adds, Addition) && OfKind(dels, Deletion)
    ensures var line := RenderBlocks(adds) + RenderBlocks(dels) + tail;
      && RunsText(LineRuns(line)) == Revealed(adds) + Revealed(dels) + tail
      && |StyledRuns(LineRuns(line))| == |adds| + |dels|
      && (adds != [] || dels != [] ==> LineParagraph(line) == Paragraph(Runs(LineRuns(line)), None, false, None, None))
  {
    var line := RenderBlocks(adds) + RenderBlocks(dels) + tail;
    OrderedLine(adds, dels, tail);
    LineRunsShape(line);
    MarkTextsIndex(adds, Addition);
    MarkTextsIndex(dels, Deletion);
    RunsTextAppend(BlockRuns(adds) + BlockRuns(dels), PlainRun(tail));
    RunsTextAppend(BlockRuns(adds), BlockRuns(dels));
    BlockRunsText(adds);
    BlockRunsText(dels);
    PlainRunText(tail);
    if adds != [] || dels != [] {
      MarkedLineNotBlank(line);
    }
  }

  /** A line in which a marker is found is not blank: a marker starts with `【`. */
  lemma MarkedLineNotBlank(line: string)
    requires HasMarkers(line)
    ensures Trim(line) != []
  {
    TrimSpec(line);
    var k := if Scan(line, Addition) != [] then Addition else Deletion;
    ScanFindsOpen(line, k);
  }

  /** A text in which the scan finds something is not blank. */
  lemma {:induction false} ScanFindsOpen(s: string, k: Kind)
    requires Scan(s, k) != []
    ensures !AllWhitespace(s)
    decreases |s|
  {
    match MarkerLength(s, k)
    case Some(n) =>
      assert !IsWhitespace(s[0]);
    case None =>
      ScanFindsOpen(s[1..], k);
      assert !AllWhitespace(s[1..]);
      var i :| 0 <= i < |s[1..]| && !IsWhitespace(s[1..][i]);
      assert s[i + 1] == s[1..][i];
  }

  // ---------------------------------------------------------------------------
  // A deletion before an addition

  /** An occurrence matches the separator's second character too. */
  lemma OccursAtSecond(s: string, m: string, j: nat)
    ensures OccursAt(s, m, j) && |m| > 1 ==> s[j + 1] == m[1]
  {
    if OccursAt(s, m, j) && |m| > 1 {
      assert s[j..j + |m|][1] == s[j + 1];
    }
  }

  /** No addition marker text occurs before the addition in `a【删除：x】b【新增：y】c`. */
  lemma AdditionNotEarlier(a: string, d: string, b: string, am: string, c: string)
    requires |d| > 1 && NoOpen(a) && NoOpen(d[1..]) && NoOpen(b) && d[1] == '删'
    requires |am| > 1 && am[0] == Open && am[1] == '新'
    ensures forall j :: 0 <= j < |a + d + b| ==> !OccursAt(a + d + b + am + c, am, j)
  {
    var s := a + d + b + am + c;
    forall j | 0 <= j < |a + d + b| ensures !OccursAt(s, am, j) {
      OccursAtHead(s, am, j);
      OccursAtSecond(s, am, j);
      if j < |a| {
        assert s[j] == a[j];
      } else if j == |a| {
        assert s[j + 1] == d[1];
      } else if j < |a| + |d| {
        assert s[j] == d[1..][j - |a| - 1];
      } else {
        assert s[j] == b[j - |a| - |d|];
      }
    }
  }

  /**
   * The quirk of processing all additions before all deletions: in
   * `a【删除：x】b【新增：y】c` the deletion marker stays inside the first plain
   * run, and its struck payload comes last, after the tail.
   */
  lemma DeletionBeforeAddition(a: string, dc: char, x: string, b: string, ac: char, y: string, c: string)
    requires NoOpen(a) && NoOpen(b) && NoOpen(c)
    requires IsMarkerColon(dc) && IsCleanPayload(x) && IsMarkerColon(ac) && IsCleanPayload(y)
    ensures var d := Markup(Deletion, dc, x);
      LineRuns(a + d + b + Markup(Addition, ac, y) + c)
        == [Plain(a + d + b), StyledRun(Addition, y)] + PlainRun(c) + [StyledRun(Deletion, x)]
  {
    var d := Markup(Deletion, dc, x);
    var am := Markup(Addition, ac, y);
    var line := a + d + b + am + c;
    QuirkScans(a, dc, x, b, ac, y, c);
    ScanMatches(line, Addition);
    ScanMatches(line, Deletion);
    QuirkAdditions(a, dc, x, b, ac, y, c);
    QuirkDeletions(dc, x, c);
  }

  /** Each scan finds the one marker of its kind. */
  lemma QuirkScans(a: string, dc: char, x: string, b: string, ac: char, y: string, c: string)
    requires NoOpen(a) && NoOpen(b) && NoOpen(c)
    requires IsMarkerColon(dc) && IsCleanPayload(x) && IsMarkerColon(ac) && IsCleanPayload(y)
    ensures var line := a + Markup(Deletion, dc, x) + b + Markup(Addition, ac, y) + c;
      Scan(line, Addition) == [Markup(Addition, ac, y)] && Scan(line, Deletion) == [Markup(Deletion, dc, x)]
  {
    var d := Markup(Deletion, dc, x);
    var am := Markup(Addition, ac, y);
    var b0, b1 := Block(a, Mark(Deletion, dc, x)), Block(b, Mark(Addition, ac, y));
    var bs := [b0, b1];
    TwoBlocks(b0, b1, c);
    assert WellFormedBlocks(bs);
    ScanBlocks(bs, c, Addition);
    ScanBlocks(bs, c, Deletion);
    NoOpenScan(c, Addition);
    NoOpenScan(c, Deletion);
  }

  lemma TwoBlocks(b0: Block, b1: Block, c: string)
    ensures RenderBlocks([b0, b1]) + c == b0.before + MarkText(b0.mark) + b1.before + MarkText(b1.mark) + c
    ensures forall k :: (MarkTexts([b0, b1], k)
      == (if b0.mark.kind == k then [MarkText(b0.mark)] else []) + (if b1.mark.kind == k then [MarkText(b1.mark)] else []))
  {
    var bs := [b0, b1];
    assert bs[1..] == [b1] && [b1][1..] == [];
    assert RenderBlocks([b1]) == b1.before + MarkText(b1.mark) + "";
    forall k ensures MarkTexts([b1], k) == (if b1.mark.kind == k then [MarkText(b1.mark)] else []) {
      assert MarkTexts([b1], k) == (if b1.mark.kind == k then [MarkText(b1.mark)] else []) + [];
    }
  }

  /** Consuming a single marker text is one step. */
  lemma ConsumeOne(remaining: string, m: string, k: Kind)
    requires MarkerLength(m, k) == Some(|m|)
    ensures AreMatches([m], k) && Consume(remaining, [m], 0, k) == Step(remaining, m, k)
  {
    var step := Step(remaining, m, k);
    assert Consume(step.1, [m], 1, k) == ([], step.1);
    assert step.0 + [] == step.0;
  }

  /** A step on a text whose first occurrence of `m` follows a non-empty plain piece `p`. */
  lemma StepAfter(p: string, m: string, rest: string, k: Kind)
    requires MarkerLength(m, k) == Some(|m|) && p != []
    requires forall j :: 0 <= j < |p| ==> !OccursAt(p + m + rest, m, j)
    ensures Step(p + m + rest, m, k) == ([Plain(p), StyledRun(k, Payload(m, k))], rest)
  {
    FirstOccurrenceAfter(p, m, rest);
    assert PlainRun(p) + [StyledRun(k, Payload(m, k))] == [Plain(p), StyledRun(k, Payload(m, k))];
  }

  /** The addition: the plain text before it, deletion marker included, then its payload; `c` remains. */
  lemma QuirkAdditions(a: string, dc: char, x: string, b: string, ac: char, y: string, c: string)
    requires NoOpen(a) && NoOpen(b)
    requires IsMarkerColon(dc) && IsCleanPayload(x) && IsMarkerColon(ac) && IsCleanPayload(y)
    ensures var d := Markup(Deletion, dc, x); var am := Markup(Addition, ac, y);
      AreMatches([am], Addition) && Consume(a + d + b + am + c, [am], 0, Addition) == ([Plain(a + d + b), StyledRun(Addition, y)], c)
  {
    var d := Markup(Deletion, dc, x);
    var am := Markup(Addition, ac, y);
    PayloadOfMarkup(Addition, ac, y);
    MarkupTailNoOpen(Deletion, dc, x);
    assert d[1..3] == "删除" && am[1..3] == "新增";
    AdditionNotEarlier(a, d, b, am, c);
    assert |a + d + b| > 0;
    StepAfter(a + d + b, am, c, Addition);
    ConsumeOne(a + d + b + am + c, am, Addition);
  }

  /** The deletion, on a tail without `【`: the tail as one plain piece, then the struck payload; nothing remains. */
  lemma QuirkDeletions(dc: char, x: string, c: string)
    requires NoOpen(c) && IsMarkerColon(dc) && IsCleanPayload(x)
    ensures var d := Markup(Deletion, dc, x);
      AreMatches([d], Deletion) && Consume(c, [d], 0, Deletion) == (PlainRun(c) + [StyledRun(Deletion, x)], "")
  {
    var d := Markup(Deletion, dc, x);
    PayloadOfMarkup(Deletion, dc, x);
    forall j ensures !OccursAt(c, d, j) {
      OccursAtHead(c, d, j);
    }
    SplitAbsent(c, d);
    assert Split(c, d)[1..] == [];
    ConsumeOne(c, d, Deletion);
  }

  // ---------------------------------------------------------------------------
  // Tokenizing the visible text again

  lemma NoOpenJoin(a: string, b: string)
    requires NoOpen(a) && NoOpen(b)
    ensures NoOpen(a + b)
  {
    forall i | 0 <= i < |a + b| ensures (a + b)[i] != Open {
      if i >= |a| {
        assert (a + b)[i] == b[i - |a|];
      }
    }
  }

  /** Well-formed blocks read with their markers replaced hold no `【`. */
  lemma {:induction false} RevealedNoOpen(bs: seq<Block>)
    requires WellFormedBlocks(bs)
    ensures NoOpen(Revealed(bs))
  {
    if bs != [] {
      assert WellFormedBlocks(bs[1..]) by {
        forall i | 0 <= i < |bs[1..]| ensures NoOpen(bs[1..][i].before) && IsMarkerColon(bs[1..][i].mark.colon) && IsCleanPayload(bs[1..][i].mark.payload) {
          assert bs[1..][i] == bs[i + 1];
        }
      }
      RevealedNoOpen(bs[1..]);
      assert NoOpen(bs[0].mark.payload) by {
        assert IsCleanPayload(bs[0].mark.payload);
      }
      NoOpenJoin(bs[0].before, bs[0].mark.payload);
      NoOpenJoin(bs[0].before + bs[0].mark.payload, Revealed(bs[1..]));
    }
  }

  /**
   * On a line of well-formed markers, additions before deletions, the visible
   * text of the paragraph is marker-free: tokenizing it again gives one plain
   * paragraph (an empty one when it is blank).
   */
  lemma VisibleTextIsPlain(adds: seq<Block>, dels: seq<Block>, tail: string)
    requires WellFormedBlocks(adds) && WellFormedBlocks(dels) && NoOpen(tail)
    requires OfKind(adds, Addition) && OfKind(dels, Deletion)
    ensures var v := RunsText(LineRuns(RenderBlocks(adds) + RenderBlocks(dels) + tail));
      && !HasMarkers(v)
      && LineParagraph(v) == TextParagraph(if AllWhitespace(v) then "" else v)
  {
    var v := RunsText(LineRuns(RenderBlocks(adds) + RenderBlocks(dels) + tail));
    OrderedLineText(adds, dels, tail);
    RevealedNoOpen(adds);
    RevealedNoOpen(dels);
    NoOpenJoin(Revealed(adds), Revealed(dels));
    NoOpenJoin(Revealed(adds) + Revealed(dels), tail);
    NoOpenScan(v, Addition);
    NoOpenScan(v, Deletion);
    TrimSpec(v);
  }

  /**
   * An addition marker wrapped in a stray `【` … `】`: the scan skips the first
   * `【` and matches the marker, and the brackets stay plain around it.
   */
  lemma WrappedAddition(colon: char, x: string)
    requires IsMarkerColon(colon) && IsCleanPayload(x)
    ensures LineRuns([Open] + Markup(Addition, colon, x) + [Close]) == [Plain([Open]), StyledRun(Addition, x), Plain([Close])]
  {
    var m := Markup(Addition, colon, x);
    var line := [Open] + m + [Close];
    assert line[1..] == m + [Close];
    assert line[1..3] == [Open, Word(Addition)[0]];
    ScanMarkup(Addition, colon, x, [Close], Addition);
    ScanMarkup(Addition, colon, x, [Close], Deletion);
    assert Scan(line, Addition) == [m];
    assert Scan(line, Deletion) == [];
    PayloadOfMarkup(Addition, colon, x);
    assert !OccursAt(line, m, 0) by {
      assert line[1] != m[1];
    }
    StepAfter([Open], m, [Close], Addition);
    ConsumeOne(line, m, Addition);
    assert LineRuns(line) == [Plain([Open]), StyledRun(Addition, x)] + [] + PlainRun([Close]);
  }

  /** The three runs read back: the payload between the two stray brackets. */
  lemma WrappedAdditionText(x: string)
    ensures RunsText([Plain([Open]), StyledRun(Addition, x), Plain([Close])]) == [Open] + x + [Close]
  {
    var runs := [Plain([Open]), StyledRun(Addition, x), Plain([Close])];
    assert RunsText(runs[2..]) == [Close] by {
      assert runs[2..] == [Plain([Close])] && runs[2..][1..] == [];
      assert RunsText(runs[2..]) == [Close] + RunsText([]);
    }
    assert RunsText(runs[1..]) == x + RunsText(runs[2..]) by {
      assert runs[1..][0] == StyledRun(Addition, x) && runs[1..][1..] == runs[2..];
    }
    assert RunsText(runs) == [Open] + RunsText(runs[1..]);
  }

  /**
   * Without well-formedness the visible text can hold a marker: in
   * `【【新增：新增：z】】` the scan skips the first `【` and matches the rest
   * up to the first `】`, and the text shown, `【新增：z】`, is itself an
   * addition marker that a second pass would style again.
   */
  lemma VisibleTextWithMarker(colon: char, y: string)
    requires IsMarkerColon(colon) && IsCleanPayload(y)
    ensures var line := [Open] + Markup(Addition, colon, Word(Addition) + [colon] + y) + [Close];
      && RunsText(LineRuns(line)) == Markup(Addition, colon, y)
      && HasMarkers(Markup(Addition, colon, y))
  {
    var x := Word(Addition) + [colon] + y;
    assert IsCleanPayload(x) by {
      forall i | 0 <= i < |x| ensures x[i] != Open && x[i] != Close && !IsLineTerminator(x[i]) {
        if i >= 3 {
          assert x[i] == y[i - 3];
        }
      }
    }
    WrappedAddition(colon, x);
    WrappedAdditionText(x);
    assert [Open] + x + [Close] == Markup(Addition, colon, y);
    ScanMarkup(Addition, colon, y, "", Addition);
    assert Markup(Addition, colon, y) + "" == Markup(Addition, colon, y);
  }
}
