/**
 * What the reply parser promises: where a heading match can start, a
 * section as the text between the first opening heading that a closing
 * heading follows and the first closing heading after it, the empty
 * defaults when a heading is missing, the sections of a reply laid out as
 * the prompt asks, and the items of a list section.
 */
module ParseProperties {
  import opened Wrappers
  import opened JsStrings
  import opened ReviewProcessor

  predicate NoHash(t: string) { forall i :: 0 <= i < |t| ==> t[i] != '#' }

  /** A heading pattern like the parser's five: `#`s, then a number that is neither `#` nor whitespace. */
  predicate Recognisable(h: HeadingPattern) {
    && h.hashes != []
    && (forall i :: 0 <= i < |h.hashes| ==> h.hashes[i] == '#')
    && h.number != '#' && !IsWhitespace(h.number)
  }

  lemma ParserHeadingsRecognisable()
    ensures Recognisable(RevisedContractHeading) && Recognisable(ReviewOpinionHeading)
    ensures Recognisable(RiskListHeading) && Recognisable(RecommendationsHeading) && Recognisable(ConclusionHeading)
  {
  }

  // ---------------------------------------------------------------------------
  // Whitespace runs

  /** `\s*` takes whitespace only, and all of it. */
  lemma {:induction false} SkipWhitespaceSpec(s: string, i: nat)
    requires i <= |s|
    ensures forall m :: i <= m < SkipWhitespace(s, i) ==> IsWhitespace(s[m])
    ensures SkipWhitespace(s, i) < |s| ==> !IsWhitespace(s[SkipWhitespace(s, i)])
    decreases |s| - i
  {
    if i < |s| && IsWhitespace(s[i]) {
      SkipWhitespaceSpec(s, i + 1);
    }
  }

  lemma {:induction false} SkipWhitespaceRun(s: string, i: nat, n: nat)
    requires i + n <= |s|
    requires forall m :: i <= m < i + n ==> IsWhitespace(s[m])
    requires i + n == |s| || !IsWhitespace(s[i + n])
    ensures SkipWhitespace(s, i) == i + n
    decreases n
  {
    if n > 0 {
      SkipWhitespaceRun(s, i + 1, n - 1);
    }
  }

  // ---------------------------------------------------------------------------
  // Text at a position

  lemma ReadChar(s: string, q: nat, x: string, m: nat)
    requires Reads(s, q, x) && m < |x|
    ensures s[q + m] == x[m]
  {
    assert s[q..q + |x|][m] == s[q + m];
  }

  lemma ReadSlice(s: string, q: nat, x: string, a: nat, b: nat)
    requires Reads(s, q, x) && a <= b <= |x|
    ensures s[q + a..q + b] == x[a..b]
  {
    forall i | 0 <= i < b - a ensures s[q + a..q + b][i] == x[a..b][i] {
      ReadChar(s, q, x, a + i);
    }
  }

  // ---------------------------------------------------------------------------
  // One heading

  /** A match starts with `#` and reaches the number across `#`s and whitespace only. */
  lemma HeadingNumber(s: string, p: nat, h: HeadingPattern) returns (j: nat)
    requires Recognisable(h)
    ensures HeadingAt(s, p, h).Some? ==>
      && p < j < |s| && s[p] == '#' && s[j] == h.number
      && forall m :: p <= m < j ==> s[m] == '#' || IsWhitespace(s[m])
  {
    j := p;
    var L := |h.hashes|;
    if p + L <= |s| && s[p..p + L] == h.hashes {
      var i := p + L;
      var i' := if i < |s| && s[i] == '#' then i + 1 else i;
      j := SkipWhitespace(s, i');
      SkipWhitespaceSpec(s, i');
      forall m | p <= m < p + L ensures s[m] == '#' {
        assert s[m] == s[p..p + L][m - p];
      }
    }
  }

  /** No heading starts inside text without `#`. */
  lemma TextNoHeadings(s: string, q: nat, x: string, h: HeadingPattern)
    requires Reads(s, q, x) && NoHash(x) && Recognisable(h)
    ensures forall i :: q <= i < q + |x| ==> HeadingAt(s, i, h).None?
  {
    forall i | q <= i < q + |x| ensures HeadingAt(s, i, h).None? {
      var _ := HeadingNumber(s, i, h);
      ReadChar(s, q, x, i - q);
    }
  }

  /** Text without `#` holds no heading at all. */
  lemma NoHashNoHeadings(s: string, h: HeadingPattern)
    requires NoHash(s) && Recognisable(h)
    ensures forall i: nat :: HeadingAt(s, i, h).None?
  {
    assert s[0..|s|] == s;
    TextNoHeadings(s, 0, s, h);
  }

  /** A heading line as the prompt writes it: `#`s and spaces, the number, then no more `#`. */
  predicate HeadingLineShape(line: string, k: nat) {
    && k < |line|
    && (forall m :: 0 <= m < k ==> line[m] == '#' || line[m] == ' ')
    && line[k] != '#' && !IsWhitespace(line[k])
    && (forall m :: k < m < |line| ==> line[m] != '#')
  }

  /** No heading with another number starts inside such a line. */
  lemma LineNoHeadings(s: string, q: nat, line: string, k: nat, h: HeadingPattern)
    requires Reads(s, q, line) && HeadingLineShape(line, k) && Recognisable(h) && line[k] != h.number
    ensures forall i :: q <= i < q + |line| ==> HeadingAt(s, i, h).None?
  {
    ReadChar(s, q, line, k);
    forall i | q <= i < q + |line| ensures HeadingAt(s, i, h).None? {
      var j := HeadingNumber(s, i, h);
      ReadChar(s, q, line, i - q);
      if q <= j < q + |line| {
        ReadChar(s, q, line, j - q);
      }
    }
  }

  lemma HeadingAtHashes(s: string, p: nat, h: HeadingPattern)
    requires p + |h.hashes| <= |s| && s[p..p + |h.hashes|] == h.hashes
    ensures HeadingAt(s, p, h) == AfterHashes(s, p + |h.hashes|, h)
  {
  }

  lemma AfterHashesAt(s: string, i: nat, h: HeadingPattern, i1: nat, j: nat)
    requires i < |s| && s[i] == '#' && i1 == i + 1 && SkipWhitespace(s, i1) == j && j < |s| && s[j] == h.number
    ensures AfterHashes(s, i, h) == AfterNumber(s, j + 1, h)
  {
  }

  lemma AfterNumberAt(s: string, i: nat, h: HeadingPattern, i1: nat, k: nat)
    requires i < |s| && IsHeadingSeparator(s[i]) && i1 == i + 1 && SkipWhitespace(s, i1) == k
    requires k + |h.title| <= |s| && s[k..k + |h.title|] == h.title
    ensures AfterNumber(s, i, h) == Some(k + |h.title|)
  {
  }

  /**
   * A heading line as the prompt writes one for pattern `h`: the pattern's
   * `#`s and one more, whitespace up to the number at `j`, a separator,
   * whitespace up to the title at `k`, and the title to the end.
   */
  predicate WrittenHeading(line: string, h: HeadingPattern, j: nat, k: nat) {
    var L := |h.hashes|;
    && L < j && j + 2 <= k < |line|
    && line[..L] == h.hashes && line[L] == '#'
    && (forall m :: L + 1 <= m < j ==> IsWhitespace(line[m]))
    && line[j] == h.number && !IsWhitespace(h.number) && IsHeadingSeparator(line[j + 1])
    && (forall m :: j + 2 <= m < k ==> IsWhitespace(line[m]))
    && line[k..] == h.title && !IsWhitespace(line[k])
  }

  /** What such a line written at `q` puts where the pattern looks: the `#`s and the number. */
  lemma WrittenFront(s: string, q: nat, line: string, h: HeadingPattern, j: nat, k: nat)
    requires Reads(s, q, line) && WrittenHeading(line, h, j, k)
    ensures q + |h.hashes| < |s| && s[q..q + |h.hashes|] == h.hashes && s[q + |h.hashes|] == '#'
    ensures SkipWhitespace(s, q + |h.hashes| + 1) == q + j && s[q + j] == h.number
  {
    var L := |h.hashes|;
    ReadSlice(s, q, line, 0, L);
    ReadChar(s, q, line, L);
    forall m | q + L + 1 <= m < q + j ensures IsWhitespace(s[m]) {
      ReadChar(s, q, line, m - q);
    }
    ReadChar(s, q, line, j);
    SkipWhitespaceRun(s, q + L + 1, j - L - 1);
  }

  /** The rest of it: the separator and the title. */
  lemma WrittenBack(s: string, q: nat, line: string, h: HeadingPattern, j: nat, k: nat)
    requires Reads(s, q, line) && WrittenHeading(line, h, j, k)
    ensures q + j + 1 < |s| && IsHeadingSeparator(s[q + j + 1]) && SkipWhitespace(s, q + j + 2) == q + k
    ensures q + k + |h.title| == q + |line| <= |s| && s[q + k..q + k + |h.title|] == h.title
  {
    ReadChar(s, q, line, j + 1);
    forall m | q + j + 2 <= m < q + k ensures IsWhitespace(s[m]) {
      ReadChar(s, q, line, m - q);
    }
    ReadChar(s, q, line, k);
    SkipWhitespaceRun(s, q + j + 2, k - j - 2);
    ReadSlice(s, q, line, k, |line|);
  }

  /** The pattern's parts found one after the other from `p`: the pattern matches up to the end of the title. */
  lemma PartsMatch(s: string, p: nat, h: HeadingPattern, a: nat, j: nat, k: nat)
    requires a == p + |h.hashes| < |s| && s[p..a] == h.hashes && s[a] == '#'
    requires SkipWhitespace(s, a + 1) == j && j + 1 < |s| && s[j] == h.number && IsHeadingSeparator(s[j + 1])
    requires SkipWhitespace(s, j + 2) == k && k + |h.title| <= |s| && s[k..k + |h.title|] == h.title
    ensures HeadingAt(s, p, h) == Some(k + |h.title|)
  {
    HeadingAtHashes(s, p, h);
    AfterHashesAt(s, a, h, a + 1, j);
    AfterNumberAt(s, j + 1, h, j + 2, k);
  }

  /** Such a line is matched whole, whatever follows it. */
  lemma WrittenAt(s: string, q: nat, line: string, h: HeadingPattern, j: nat, k: nat)
    requires Reads(s, q, line) && WrittenHeading(line, h, j, k)
    ensures HeadingAt(s, q, h) == Some(q + |line|)
  {
    WrittenFront(s, q, line, h, j, k);
    WrittenBack(s, q, line, h, j, k);
    PartsMatch(s, q, h, q + |h.hashes|, q + j, q + k);
  }

  lemma RevisedContractLineAt(s: string, q: nat)
    requires Reads(s, q, RevisedContractLine)
    ensures HeadingAt(s, q, RevisedContractHeading) == Some(q + |RevisedContractLine|)
  {
    assert WrittenHeading(RevisedContractLine, RevisedContractHeading, 4, 6);
    WrittenAt(s, q, RevisedContractLine, RevisedContractHeading, 4, 6);
  }

  lemma ReviewOpinionLineAt(s: string, q: nat)
    requires Reads(s, q, ReviewOpinionLine)
    ensures HeadingAt(s, q, ReviewOpinionHeading) == Some(q + |ReviewOpinionLine|)
  {
    assert WrittenHeading(ReviewOpinionLine, ReviewOpinionHeading, 4, 6);
    WrittenAt(s, q, ReviewOpinionLine, ReviewOpinionHeading, 4, 6);
  }

  lemma RiskListLineAt(s: string, q: nat)
    requires Reads(s, q, RiskListLine)
    ensures HeadingAt(s, q, RiskListHeading) == Some(q + |RiskListLine|)
  {
    assert WrittenHeading(RiskListLine, RiskListHeading, 5, 8);
    WrittenAt(s, q, RiskListLine, RiskListHeading, 5, 8);
  }

  lemma RecommendationsLineAt(s: string, q: nat)
    requires Reads(s, q, RecommendationsLine)
    ensures HeadingAt(s, q, RecommendationsHeading) == Some(q + |RecommendationsLine|)
  {
    assert WrittenHeading(RecommendationsLine, RecommendationsHeading, 5, 8);
    WrittenAt(s, q, RecommendationsLine, RecommendationsHeading, 5, 8);
  }

  lemma ConclusionLineAt(s: string, q: nat)
    requires Reads(s, q, ConclusionLine)
    ensures HeadingAt(s, q, ConclusionHeading) == Some(q + |ConclusionLine|)
  {
    assert WrittenHeading(ConclusionLine, ConclusionHeading, 5, 8);
    WrittenAt(s, q, ConclusionLine, ConclusionHeading, 5, 8);
  }

  /** The four heading lines that close a section carry no other `#` than their leading ones. */
  lemma RequestedLinesShape()
    ensures HeadingLineShape(RevisedContractLine, 4) && RevisedContractLine[4] == '一'
    ensures HeadingLineShape(ReviewOpinionLine, 4) && ReviewOpinionLine[4] == '二'
    ensures HeadingLineShape(RiskListLine, 5) && RiskListLine[5] == '1'
    ensures HeadingLineShape(RecommendationsLine, 5) && RecommendationsLine[5] == '2'
  {
    LineShape("### ", '一', "、修订版合同");
    LineShape("### ", '二', "、审查意见书");
    LineShape("#### ", '1', ". 风险点清单");
    LineShape("#### ", '2', ". 修订建议");
    assert RevisedContractLine == "### " + ['一'] + "、修订版合同";
    assert ReviewOpinionLine == "### " + ['二'] + "、审查意见书";
    assert RiskListLine == "#### " + ['1'] + ". 风险点清单";
    assert RecommendationsLine == "#### " + ['2'] + ". 修订建议";
  }

  lemma LineShape(marks: string, number: char, rest: string)
    requires forall m :: 0 <= m < |marks| ==> marks[m] == '#' || marks[m] == ' '
    requires number != '#' && !IsWhitespace(number) && NoHash(rest)
    ensures HeadingLineShape(marks + [number] + rest, |marks|)
  {
    var line := marks + [number] + rest;
    assert forall m :: 0 <= m < |marks| ==> line[m] == marks[m];
    assert forall m :: |marks| < m < |line| ==> line[m] == rest[m - |marks| - 1];
  }

  // ---------------------------------------------------------------------------
  // The search for the first heading

  lemma {:induction false} FirstHeadingSkip(s: string, from: nat, e: nat, h: HeadingPattern)
    requires from <= e && HeadingAt(s, e, h).Some?
    requires forall i :: from <= i < e ==> HeadingAt(s, i, h).None?
    ensures FirstHeading(s, from, h) == Some(e)
    decreases e - from
  {
    if from < e {
      FirstHeadingSkip(s, from + 1, e, h);
    }
  }

  lemma {:induction false} FirstHeadingFound(s: string, from: nat, h: HeadingPattern, e: nat)
    requires FirstHeading(s, from, h) == Some(e)
    ensures HeadingAt(s, e, h).Some?
    decreases |s| - from
  {
    if HeadingAt(s, from, h).None? {
      FirstHeadingFound(s, from + 1, h, e);
    }
  }

  lemma {:induction false} FirstHeadingBefore(s: string, from: nat, h: HeadingPattern, e: Option<nat>, i: nat)
    requires FirstHeading(s, from, h) == e && from <= i && (e.Some? ==> i < e.value)
    ensures HeadingAt(s, i, h).None?
    decreases |s| - from
  {
    if i > from && from <= |s| {
      FirstHeadingBefore(s, from + 1, h, e, i);
    }
  }

  /** The lazy body stops at the first closing heading, and there is none when it finds none. */
  lemma FirstHeadingSpec(s: string, from: nat, h: HeadingPattern)
    ensures match FirstHeading(s, from, h)
      case Some(e) => HeadingAt(s, e, h).Some? && forall i :: from <= i < e ==> HeadingAt(s, i, h).None?
      case None => forall i :: from <= i ==> HeadingAt(s, i, h).None?
  {
    var e := FirstHeading(s, from, h);
    if e.Some? {
      FirstHeadingFound(s, from, h, e.value);
    }
    forall i | from <= i && (e.Some? ==> i < e.value) ensures HeadingAt(s, i, h).None? {
      FirstHeadingBefore(s, from, h, e, i);
    }
  }

  lemma {:induction false} NoHeadingAfter(s: string, from: nat, h: HeadingPattern)
    requires forall i :: from <= i ==> HeadingAt(s, i, h).None?
    ensures FirstHeading(s, from, h).None?
    decreases |s| - from
  {
    if from <= |s| {
      NoHeadingAfter(s, from + 1, h);
    }
  }

  // ---------------------------------------------------------------------------
  // Sections

  /** At `i` the search passes on: no opening heading starts there, or no closing heading follows it. */
  predicate PassedOver(s: string, i: nat, open: HeadingPattern, close: Option<HeadingPattern>) {
    HeadingAt(s, i, open).None? || SectionEnd(s, HeadingAt(s, i, open).value, close).None?
  }

  /** One step of the search. */
  lemma SectionStep(s: string, p: nat, open: HeadingPattern, close: Option<HeadingPattern>)
    requires p <= |s| && PassedOver(s, p, open, close)
    ensures Section(s, p, open, close) == Section(s, p + 1, open, close)
  {
  }

  /** The search stops where an opening heading has a closing one after it. */
  lemma SectionHere(s: string, p: nat, open: HeadingPattern, close: Option<HeadingPattern>) returns (c: nat, e: nat)
    requires p <= |s| && !PassedOver(s, p, open, close)
    ensures HeadingAt(s, p, open) == Some(c) && SectionEnd(s, c, close) == Some(e)
    ensures Section(s, p, open, close) == Some(s[c..e])
  {
    c := HeadingAt(s, p, open).value;
    e := SectionEnd(s, c, close).value;
  }

  /** Positions where no opening heading with a closing one after it starts are passed over. */
  lemma {:induction false} SectionSkip(s: string, p: nat, q: nat, open: HeadingPattern, close: Option<HeadingPattern>)
    requires p <= q
    requires forall i :: p <= i < q ==> PassedOver(s, i, open, close)
    ensures Section(s, p, open, close) == Section(s, q, open, close)
    decreases q - p
  {
    if p < q {
      if p <= |s| {
        SectionStep(s, p, open, close);
      }
      SectionSkip(s, p + 1, q, open, close);
    }
  }

  lemma {:induction false} SectionFound(s: string, p0: nat, open: HeadingPattern, close: Option<HeadingPattern>)
    returns (p: nat, c: nat, e: nat)
    requires Section(s, p0, open, close).Some?
    ensures p0 <= p && HeadingAt(s, p, open) == Some(c) && SectionEnd(s, c, close) == Some(e)
    ensures Section(s, p0, open, close) == Some(s[c..e])
    ensures forall i :: p0 <= i < p ==> PassedOver(s, i, open, close)
    decreases |s| - p0
  {
    assert p0 <= |s|;
    if PassedOver(s, p0, open, close) {
      SectionStep(s, p0, open, close);
      p, c, e := SectionFound(s, p0 + 1, open, close);
    } else {
      p := p0;
      c, e := SectionHere(s, p0, open, close);
    }
  }

  /**
   * A section that is found runs from the end of an opening heading to the
   * first closing heading after it, and the search passed over every
   * position in front of that opening heading.
   */
  lemma SectionBetween(s: string, open: HeadingPattern, close: HeadingPattern) returns (p: nat, c: nat, e: nat)
    requires Section(s, 0, open, Some(close)).Some?
    ensures HeadingAt(s, p, open) == Some(c) && c <= e && HeadingAt(s, e, close).Some?
    ensures forall i :: c <= i < e ==> HeadingAt(s, i, close).None?
    ensures forall i :: 0 <= i < p ==> PassedOver(s, i, open, Some(close))
    ensures Section(s, 0, open, Some(close)) == Some(s[c..e])
  {
    p, c, e := SectionFound(s, 0, open, Some(close));
    FirstHeadingSpec(s, c, close);
  }

  /** And conversely: such positions give that section. */
  lemma SectionAt(s: string, p: nat, c: nat, e: nat, open: HeadingPattern, close: HeadingPattern)
    requires HeadingAt(s, p, open) == Some(c) && c <= e && HeadingAt(s, e, close).Some?
    requires forall i :: c <= i < e ==> HeadingAt(s, i, close).None?
    requires forall i :: 0 <= i < p ==> PassedOver(s, i, open, Some(close))
    ensures Section(s, 0, open, Some(close)) == Some(s[c..e])
  {
    SectionSkip(s, 0, p, open, Some(close));
    FirstHeadingSkip(s, c, e, close);
  }

  /** The conclusion runs from the end of the first conclusion heading to the end of the reply. */
  lemma TailFrom(s: string, open: HeadingPattern) returns (p: nat, c: nat)
    requires Section(s, 0, open, None).Some?
    ensures HeadingAt(s, p, open) == Some(c)
    ensures forall i :: 0 <= i < p ==> HeadingAt(s, i, open).None?
    ensures Section(s, 0, open, None) == Some(s[c..])
  {
    var e;
    p, c, e := SectionFound(s, 0, open, None);
    assert e == |s| && s[c..e] == s[c..];
    forall i | 0 <= i < p ensures HeadingAt(s, i, open).None? {
      PassedOverTail(s, i, open);
    }
  }

  /** With no closing heading every opening heading ends a section, so a position passed over holds none. */
  lemma PassedOverTail(s: string, i: nat, open: HeadingPattern)
    requires PassedOver(s, i, open, None)
    ensures HeadingAt(s, i, open).None?
  {
  }

  /** And conversely: the first opening heading gives the tail after it. */
  lemma TailAt(s: string, p: nat, c: nat, open: HeadingPattern)
    requires HeadingAt(s, p, open) == Some(c)
    requires forall i :: 0 <= i < p ==> HeadingAt(s, i, open).None?
    ensures Section(s, 0, open, None) == Some(s[c..])
  {
    SectionSkip(s, 0, p, open, None);
    assert s[c..|s|] == s[c..];
  }

  // ---------------------------------------------------------------------------
  // Missing headings

  lemma {:induction false} NoOpeningNoSection(s: string, p: nat, open: HeadingPattern, close: Option<HeadingPattern>)
    requires forall i :: p <= i ==> HeadingAt(s, i, open).None?
    ensures Section(s, p, open, close).None?
    decreases |s| - p
  {
    if p <= |s| {
      NoOpeningNoSection(s, p + 1, open, close);
    }
  }

  lemma {:induction false} NoClosingNoSection(s: string, p: nat, open: HeadingPattern, close: HeadingPattern)
    requires forall i :: HeadingAt(s, i, close).None?
    ensures Section(s, p, open, Some(close)).None?
    decreases |s| - p
  {
    if p <= |s| {
      if HeadingAt(s, p, open).Some? {
        NoHeadingAfter(s, HeadingAt(s, p, open).value, close);
      }
      NoClosingNoSection(s, p + 1, open, close);
    }
  }

  ghost predicate HasHeading(s: string, h: HeadingPattern) {
    exists i: nat :: HeadingAt(s, i, h).Some?
  }

  /** A field whose opening or closing heading is missing keeps its empty default. */
  lemma MissingHeadingsKeepDefaults(output: string)
    ensures !HasHeading(output, RevisedContractHeading) || !HasHeading(output, ReviewOpinionHeading)
      ==> ParsedSections(output).revisedContract == ""
    ensures !HasHeading(output, RiskListHeading) || !HasHeading(output, RecommendationsHeading)
      ==> ParsedSections(output).riskList == []
    ensures !HasHeading(output, RecommendationsHeading) || !HasHeading(output, ConclusionHeading)
      ==> ParsedSections(output).recommendations == []
    ensures !HasHeading(output, ConclusionHeading) ==> ParsedSections(output).complianceConclusion == ""
  {
    if !HasHeading(output, RevisedContractHeading) {
      NoOpeningNoSection(output, 0, RevisedContractHeading, Some(ReviewOpinionHeading));
    }
    if !HasHeading(output, ReviewOpinionHeading) {
      NoClosingNoSection(output, 0, RevisedContractHeading, ReviewOpinionHeading);
    }
    if !HasHeading(output, RiskListHeading) {
      NoOpeningNoSection(output, 0, RiskListHeading, Some(RecommendationsHeading));
    }
    if !HasHeading(output, RecommendationsHeading) {
      NoClosingNoSection(output, 0, RiskListHeading, RecommendationsHeading);
      NoOpeningNoSection(output, 0, RecommendationsHeading, Some(ConclusionHeading));
    }
    if !HasHeading(output, ConclusionHeading) {
      NoClosingNoSection(output, 0, RecommendationsHeading, ConclusionHeading);
      NoOpeningNoSection(output, 0, ConclusionHeading, None);
    }
  }

  /** A reply without any `#` leaves every field at its default. */
  lemma PlainReply(output: string)
    requires NoHash(output)
    ensures ParsedSections(output) == Sections("", [], [], "")
  {
    ParserHeadingsRecognisable();
    NoHashNoHeadings(output, RevisedContractHeading);
    NoHashNoHeadings(output, RiskListHeading);
    NoHashNoHeadings(output, RecommendationsHeading);
    NoHashNoHeadings(output, ConclusionHeading);
    MissingHeadingsKeepDefaults(output);
  }

  // ---------------------------------------------------------------------------
  // A reply in the requested layout

  /** The parts of a reply laid out as the prompt asks, headings included. */
  function ReplyParts(lead: string, contract: string, opinion: string, risks: string, recommendations: string, conclusion: string): seq<string> {
    [lead, RevisedContractLine, contract, ReviewOpinionLine, opinion, RiskListLine, risks,
     RecommendationsLine, recommendations, ConclusionLine, conclusion]
  }

  /**
   * A reply laid out as the prompt asks: free text, the revised contract
   * heading and the contract, the review opinion heading and free text,
   * then the three numbered headings, each with its text.
   */
  function Reply(lead: string, contract: string, opinion: string, risks: string, recommendations: string, conclusion: string): string {
    Concat(ReplyParts(lead, contract, opinion, risks, recommendations, conclusion))
  }

  /** No heading for `h` starts in `[a, b)`. */
  predicate Clear(s: string, h: HeadingPattern, a: nat, b: nat) {
    forall i :: a <= i < b ==> HeadingAt(s, i, h).None?
  }

  /** The text in front of the risk list heading holds none of the three numbered headings. */
  lemma FrontClear(s: string, lead: string, contract: string, opinion: string, c1: nat, c2: nat, c3: nat, c4: nat, c5: nat, h: HeadingPattern)
    requires Reads(s, 0, lead) && NoHash(lead) && c1 == |lead|
    requires Reads(s, c1, RevisedContractLine) && c2 == c1 + |RevisedContractLine|
    requires Reads(s, c2, contract) && NoHash(contract) && c3 == c2 + |contract|
    requires Reads(s, c3, ReviewOpinionLine) && c4 == c3 + |ReviewOpinionLine|
    requires Reads(s, c4, opinion) && NoHash(opinion) && c5 == c4 + |opinion|
    requires h == RiskListHeading || h == RecommendationsHeading || h == ConclusionHeading
    ensures Clear(s, h, 0, c5)
  {
    ParserHeadingsRecognisable();
    RequestedLinesShape();
    TextNoHeadings(s, 0, lead, h);
    LineNoHeadings(s, c1, RevisedContractLine, 4, h);
    TextNoHeadings(s, c2, contract, h);
    LineNoHeadings(s, c3, ReviewOpinionLine, 4, h);
    TextNoHeadings(s, c4, opinion, h);
  }

  /** The revised contract is what lies between its heading and the review opinion heading. */
  lemma ContractSection(s: string, lead: string, contract: string, c1: nat, c2: nat, c3: nat)
    requires Reads(s, 0, lead) && NoHash(lead) && c1 == |lead|
    requires Reads(s, c1, RevisedContractLine) && c2 == c1 + |RevisedContractLine|
    requires Reads(s, c2, contract) && NoHash(contract) && c3 == c2 + |contract|
    requires Reads(s, c3, ReviewOpinionLine)
    ensures Section(s, 0, RevisedContractHeading, Some(ReviewOpinionHeading)) == Some(contract)
  {
    ParserHeadingsRecognisable();
    TextNoHeadings(s, 0, lead, RevisedContractHeading);
    RevisedContractLineAt(s, c1);
    TextNoHeadings(s, c2, contract, ReviewOpinionHeading);
    ReviewOpinionLineAt(s, c3);
    SectionAt(s, c1, c2, c3, RevisedContractHeading, ReviewOpinionHeading);
  }

  /** The risk list is what lies between its heading and the recommendations heading. */
  lemma RiskSection(s: string, risks: string, c5: nat, c6: nat, c7: nat)
    requires Clear(s, RiskListHeading, 0, c5)
    requires Reads(s, c5, RiskListLine) && c6 == c5 + |RiskListLine|
    requires Reads(s, c6, risks) && NoHash(risks) && c7 == c6 + |risks|
    requires Reads(s, c7, RecommendationsLine)
    ensures Section(s, 0, RiskListHeading, Some(RecommendationsHeading)) == Some(risks)
  {
    ParserHeadingsRecognisable();
    RiskListLineAt(s, c5);
    TextNoHeadings(s, c6, risks, RecommendationsHeading);
    RecommendationsLineAt(s, c7);
    SectionAt(s, c5, c6, c7, RiskListHeading, RecommendationsHeading);
  }

  /** The recommendations are what lies between their heading and the conclusion heading. */
  lemma RecommendationsSection(s: string, risks: string, recommendations: string, c5: nat, c6: nat, c7: nat, c8: nat, c9: nat)
    requires Clear(s, RecommendationsHeading, 0, c5)
    requires Reads(s, c5, RiskListLine) && c6 == c5 + |RiskListLine|
    requires Reads(s, c6, risks) && NoHash(risks) && c7 == c6 + |risks|
    requires Reads(s, c7, RecommendationsLine) && c8 == c7 + |RecommendationsLine|
    requires Reads(s, c8, recommendations) && NoHash(recommendations) && c9 == c8 + |recommendations|
    requires Reads(s, c9, ConclusionLine)
    ensures Section(s, 0, RecommendationsHeading, Some(ConclusionHeading)) == Some(recommendations)
  {
    ParserHeadingsRecognisable();
    RequestedLinesShape();
    LineNoHeadings(s, c5, RiskListLine, 5, RecommendationsHeading);
    TextNoHeadings(s, c6, risks, RecommendationsHeading);
    RecommendationsLineAt(s, c7);
    TextNoHeadings(s, c8, recommendations, ConclusionHeading);
    ConclusionLineAt(s, c9);
    SectionAt(s, c7, c8, c9, RecommendationsHeading, ConclusionHeading);
  }

  /** Nor does the text from the risk list heading to the conclusion heading. */
  lemma ConclusionClear(s: string, risks: string, recommendations: string, c5: nat, c6: nat, c7: nat, c8: nat, c9: nat)
    requires Clear(s, ConclusionHeading, 0, c5)
    requires Reads(s, c5, RiskListLine) && c6 == c5 + |RiskListLine|
    requires Reads(s, c6, risks) && NoHash(risks) && c7 == c6 + |risks|
    requires Reads(s, c7, RecommendationsLine) && c8 == c7 + |RecommendationsLine|
    requires Reads(s, c8, recommendations) && NoHash(recommendations) && c9 == c8 + |recommendations|
    ensures Clear(s, ConclusionHeading, 0, c9)
  {
    ParserHeadingsRecognisable();
    RequestedLinesShape();
    LineNoHeadings(s, c5, RiskListLine, 5, ConclusionHeading);
    TextNoHeadings(s, c6, risks, ConclusionHeading);
    LineNoHeadings(s, c7, RecommendationsLine, 5, ConclusionHeading);
    TextNoHeadings(s, c8, recommendations, ConclusionHeading);
  }

  /** The conclusion is everything after its heading. */
  lemma ConclusionSection(s: string, conclusion: string, c9: nat, c10: nat)
    requires Clear(s, ConclusionHeading, 0, c9)
    requires Reads(s, c9, ConclusionLine) && c10 == c9 + |ConclusionLine|
    requires Reads(s, c10, conclusion) && c10 + |conclusion| == |s|
    ensures Section(s, 0, ConclusionHeading, None) == Some(conclusion)
  {
    ReadsTail(s, c10, conclusion);
    ConclusionLineAt(s, c9);
    TailAt(s, c9, c10, ConclusionHeading);
  }

  lemma ReadsTail(s: string, q: nat, x: string)
    requires Reads(s, q, x) && q + |x| == |s|
    ensures s[q..] == x
  {
    assert s[q..] == s[q..q + |x|];
  }

  /** Where the parts of a reply of eleven parts lie. */
  lemma ReplyLayout(parts: seq<string>) returns (c: seq<nat>)
    requires |parts| == 11
    ensures |c| == 12 && c[0] == 0 && c[11] == |Concat(parts)|
    ensures forall k :: 0 <= k < 11 ==> Reads(Concat(parts), c[k], parts[k]) && c[k + 1] == c[k] + |parts[k]|
  {
    c := seq(12, k requires 0 <= k <= 11 => Offset(parts, k));
    forall k | 0 <= k < 11 ensures Reads(Concat(parts), c[k], parts[k]) && c[k + 1] == c[k] + |parts[k]| {
      PartAt(parts, k);
    }
    ConcatLength(parts);
  }

  /**
   * A reply in the requested layout, with no `#` outside the headings
   * before the conclusion, parses into its parts: the contract and the
   * conclusion trimmed, the two lists cut into items.
   */
  lemma WellFormedReply(lead: string, contract: string, opinion: string, risks: string, recommendations: string, conclusion: string)
    requires NoHash(lead) && NoHash(contract) && NoHash(opinion) && NoHash(risks) && NoHash(recommendations)
    ensures ParsedSections(Reply(lead, contract, opinion, risks, recommendations, conclusion))
         == Sections(Trim(contract), Items(risks), Items(recommendations), Trim(conclusion))
  {
    var parts := ReplyParts(lead, contract, opinion, risks, recommendations, conclusion);
    var s := Concat(parts);
    var c := ReplyLayout(parts);
    assert Reads(s, c[0], lead) && Reads(s, c[1], RevisedContractLine) && Reads(s, c[2], contract);
    assert Reads(s, c[3], ReviewOpinionLine) && Reads(s, c[4], opinion) && Reads(s, c[5], RiskListLine);
    assert Reads(s, c[6], risks) && Reads(s, c[7], RecommendationsLine) && Reads(s, c[8], recommendations);
    assert Reads(s, c[9], ConclusionLine) && Reads(s, c[10], conclusion);
    ContractSection(s, lead, contract, c[1], c[2], c[3]);
    FrontClear(s, lead, contract, opinion, c[1], c[2], c[3], c[4], c[5], RiskListHeading);
    FrontClear(s, lead, contract, opinion, c[1], c[2], c[3], c[4], c[5], RecommendationsHeading);
    FrontClear(s, lead, contract, opinion, c[1], c[2], c[3], c[4], c[5], ConclusionHeading);
    RiskSection(s, risks, c[5], c[6], c[7]);
    RecommendationsSection(s, risks, recommendations, c[5], c[6], c[7], c[8], c[9]);
    ConclusionClear(s, risks, recommendations, c[5], c[6], c[7], c[8], c[9]);
    ConclusionSection(s, conclusion, c[9], c[10]);
  }

  // ---------------------------------------------------------------------------
  // Items

  lemma {:induction false} ParagraphsTrimmed(pieces: seq<string>)
    ensures forall i :: 0 <= i < |Paragraphs(pieces)| ==> Paragraphs(pieces)[i] != [] && IsTrimmed(Paragraphs(pieces)[i])
  {
    if pieces != [] {
      TrimSpec(pieces[0]);
      ParagraphsTrimmed(pieces[1..]);
    }
  }

  /** Every item of a list section is non-empty and trimmed. */
  lemma ItemsTrimmed(text: string)
    ensures forall i :: 0 <= i < |Items(text)| ==> Items(text)[i] != [] && IsTrimmed(Items(text)[i])
  {
    ParagraphsTrimmed(Split(Trim(text), "\n\n"));
  }

  lemma {:induction false} ParagraphsOfTrimmed(pieces: seq<string>)
    requires forall i :: 0 <= i < |pieces| ==> pieces[i] != [] && IsTrimmed(pieces[i])
    ensures Paragraphs(pieces) == pieces
  {
    if pieces != [] {
      TrimOfTrimmed(pieces[0]);
      ParagraphsOfTrimmed(pieces[1..]);
    }
  }

  /** No blank line, `\n\n`, inside. */
  ghost predicate NoBlankLine(p: string) {
    forall j :: !OccursAt(p, "\n\n", j)
  }

  /** A trimmed paragraph without a blank line cannot run into the separator written after it. */
  lemma TrimmedSeparatorFree(p: string)
    requires p != [] && IsTrimmed(p) && NoBlankLine(p)
    ensures SeparatorFree(p, "\n\n")
  {
    forall j | 0 <= j < |p| ensures !OccursAt(p + "\n\n", "\n\n", j) {
      if j + 2 <= |p| {
        assert (p + "\n\n")[j..j + 2] == p[j..j + 2];
        assert !OccursAt(p, "\n\n", j);
      } else {
        assert (p + "\n\n")[j] == p[|p| - 1];
      }
    }
  }

  lemma {:induction false} JoinEnds(parts: seq<string>, sep: string)
    requires parts != [] && forall i :: 0 <= i < |parts| ==> parts[i] != []
    ensures var j := Join(parts, sep); var last := parts[|parts| - 1];
      j != [] && j[0] == parts[0][0] && j[|j| - 1] == last[|last| - 1]
  {
    if |parts| > 1 {
      JoinEnds(parts[1..], sep);
      assert parts[1..][|parts| - 2] == parts[|parts| - 1];
    }
  }

  /** Trimmed items joined by blank lines make a trimmed text. */
  lemma JoinTrimmed(items: seq<string>)
    requires items != [] && forall i :: 0 <= i < |items| ==> items[i] != [] && IsTrimmed(items[i])
    ensures IsTrimmed(Join(items, "\n\n"))
  {
    JoinEnds(items, "\n\n");
  }

  lemma ItemsSeparatorFree(items: seq<string>)
    requires forall i :: 0 <= i < |items| ==> items[i] != [] && IsTrimmed(items[i]) && NoBlankLine(items[i])
    ensures forall i :: 0 <= i < |items| ==> SeparatorFree(items[i], "\n\n")
  {
    forall i | 0 <= i < |items| ensures SeparatorFree(items[i], "\n\n") {
      TrimmedSeparatorFree(items[i]);
    }
  }

  /** Items written as paragraphs separated by blank lines are read back as those items. */
  lemma ItemsOfParagraphs(items: seq<string>)
    requires forall i :: 0 <= i < |items| ==> items[i] != [] && IsTrimmed(items[i]) && NoBlankLine(items[i])
    ensures Items(Join(items, "\n\n")) == items
  {
    if items == [] {
      assert Split("", "\n\n") == [""];
    } else {
      JoinTrimmed(items);
      TrimOfTrimmed(Join(items, "\n\n"));
      ItemsSeparatorFree(items);
      SplitJoin(items, "\n\n");
      ParagraphsOfTrimmed(items);
    }
  }
}
