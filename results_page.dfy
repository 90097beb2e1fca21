/**
 * The results page of the web front end: the revised contract shown line by
 * line with its markers turned into styled spans, and the review panel with
 * its headings and fallback sentences.
 */
module ResultsPage {
  import opened JsStrings
  import opened Markers
  import opened ReviewResults
  import opened DocumentGenerator
  import opened ReportProperties

  function ClassName(k: Kind): string {
    match k
    case Addition => "addition"
    case Deletion => "deletion"
  }

  /** The replacement `<span class="addition">$1</span>`, or its deletion twin, with the capture filled in. */
  function Span(k: Kind, payload: string): string {
    "<span class=\"" + ClassName(k) + "\">" + payload + "</span>"
  }

  /**
   * `line.replace(/【新增[：:](.+?)】/g, …)`: the same left-to-right search as
   * the scan, each match replaced by a span around its capture and everything
   * between matches copied.
   */
  function Replace(s: string, k: Kind): string
    decreases |s|
  {
    if s == [] then ""
    else
      match MarkerLength(s, k)
      case Some(n) => Span(k, s[4..n - 1]) + Replace(s[n..], k)
      case None => [s[0]] + Replace(s[1..], k)
  }

  /** The two replacements in the order the page applies them: additions first, then deletions. */
  function FormatLine(line: string): string {
    Replace(Replace(line, Addition), Deletion)
  }

  /** `formatRevisedContract`: nothing for an empty text, otherwise one formatted `<div>` per line. */
  function FormatRevisedContract(text: string): seq<string> {
    if text == [] then []
    else
      var lines := Split(text, "\n");
      seq(|lines|, i requires 0 <= i < |lines| => FormatLine(lines[i]))
  }

  /** One `<div>` per line of a non-empty text: one more than it has line feeds, each its own line formatted. */
  lemma FormattedLineCount(text: string)
    ensures text == [] ==> FormatRevisedContract(text) == []
    ensures text != [] ==> |FormatRevisedContract(text)| == CountChar(text, '\n') + 1
    ensures text != [] ==> forall i :: 0 <= i < |Split(text, "\n")| ==> FormatRevisedContract(text)[i] == FormatLine(Split(text, "\n")[i])
  {
    assert "\n" == ['\n'];
    SplitCharCount(text, '\n');
  }

  /** Text without `【` is copied unchanged in front of whatever follows. */
  lemma {:induction false} ReplaceSkip(t: string, s: string, k: Kind)
    requires NoOpen(t)
    ensures Replace(t + s, k) == t + Replace(s, k)
    decreases |t|
  {
    if t != [] {
      assert (t + s)[0] == t[0];
      assert MarkerLength(t + s, k).None?;
      calc {
        Replace(t + s, k);
        [t[0]] + Replace((t + s)[1..], k);
        { assert (t + s)[1..] == t[1..] + s; }
        [t[0]] + Replace(t[1..] + s, k);
        { ReplaceSkip(t[1..], s, k); }
        [t[0]] + (t[1..] + Replace(s, k));
        { assert t == [t[0]] + t[1..]; }
        t + Replace(s, k);
      }
    } else {
      assert t + s == s;
    }
  }

  /** A line without `【` is shown exactly as written. */
  lemma MarkerFreeLineShown(line: string)
    requires NoOpen(line)
    ensures FormatLine(line) == line
  {
    ReplaceSkip(line, "", Addition);
    ReplaceSkip(line, "", Deletion);
    assert line + "" == line;
  }

  lemma NoOpenAppend(a: string, b: string)
    requires NoOpen(a) && NoOpen(b)
    ensures NoOpen(a + b)
  {
    forall i | 0 <= i < |a + b| ensures (a + b)[i] != Open {
      if i >= |a| { assert (a + b)[i] == b[i - |a|]; }
    }
  }

  /** A span around a payload free of `【` holds no `【`, so the second replacement passes over it. */
  lemma SpanNoOpen(k: Kind, payload: string)
    requires NoOpen(payload)
    ensures NoOpen(Span(k, payload))
  {
    var head := "<span class=\"";
    var mid := "\">";
    var tail := "</span>";
    assert NoOpen(head) && NoOpen(mid) && NoOpen(tail) && NoOpen(ClassName(k));
    NoOpenAppend(head, ClassName(k));
    NoOpenAppend(head + ClassName(k), mid);
    NoOpenAppend(head + ClassName(k) + mid, payload);
    NoOpenAppend(head + ClassName(k) + mid + payload, tail);
  }

  /** A well-formed marker is replaced by its span when it is of the kind replaced, and copied otherwise. */
  lemma ReplaceMarkup(k: Kind, colon: char, x: string, rest: string, replaced: Kind)
    requires IsMarkerColon(colon) && IsCleanPayload(x)
    ensures Replace(Markup(k, colon, x) + rest, replaced)
      == (if k == replaced then Span(k, x) else Markup(k, colon, x)) + Replace(rest, replaced)
  {
    if k == replaced {
      ReplaceMarkupOfKind(k, colon, x, rest);
    } else {
      ReplaceMarkupOtherKind(k, colon, x, rest, replaced);
    }
  }

  lemma ReplaceMarkupOfKind(k: Kind, colon: char, x: string, rest: string)
    requires IsMarkerColon(colon) && IsCleanPayload(x)
    ensures Replace(Markup(k, colon, x) + rest, k) == Span(k, x) + Replace(rest, k)
  {
    var s := Markup(k, colon, x) + rest;
    var n := |x| + 5;
    MarkupMatches(k, colon, x, rest);
    calc {
      Replace(s, k);
      Span(k, s[4..n - 1]) + Replace(s[n..], k);
      { assert s[4..n - 1] == x && s[n..] == rest; }
      Span(k, x) + Replace(rest, k);
    }
  }

  lemma ReplaceMarkupOtherKind(k: Kind, colon: char, x: string, rest: string, replaced: Kind)
    requires IsMarkerColon(colon) && IsCleanPayload(x) && k != replaced
    ensures Replace(Markup(k, colon, x) + rest, replaced) == Markup(k, colon, x) + Replace(rest, replaced)
  {
    var m := Markup(k, colon, x);
    var s := m + rest;
    MarkupOtherKind(k, colon, x, rest, replaced);
    MarkupTailNoOpen(k, colon, x);
    calc {
      Replace(s, replaced);
      [s[0]] + Replace(s[1..], replaced);
      { assert s[1..] == m[1..] + rest; }
      [s[0]] + Replace(m[1..] + rest, replaced);
      { ReplaceSkip(m[1..], rest, replaced); }
      [s[0]] + (m[1..] + Replace(rest, replaced));
      { assert m == [s[0]] + m[1..]; }
      m + Replace(rest, replaced);
    }
  }

  /** What one replacement makes of a marker: its span when it is of kind `k`, itself otherwise. */
  function Shown(m: Mark, k: Kind): string {
    if m.kind == k then Span(k, m.payload) else MarkText(m)
  }

  /** The blocks after one replacement: markers of kind `k` as spans, the others still written out. */
  function Partial(bs: seq<Block>, k: Kind): string {
    if bs == [] then ""
    else bs[0].before + Shown(bs[0].mark, k) + Partial(bs[1..], k)
  }

  /** The blocks as the page shows them: every marker a span of its kind around its payload. */
  function HtmlBlocks(bs: seq<Block>): string {
    if bs == [] then "" else bs[0].before + Span(bs[0].mark.kind, bs[0].mark.payload) + HtmlBlocks(bs[1..])
  }

  lemma ReplaceBlock(b: Block, tail: string, k: Kind)
    requires NoOpen(b.before) && IsMarkerColon(b.mark.colon) && IsCleanPayload(b.mark.payload)
    ensures Replace(b.before + MarkText(b.mark) + tail, k) == b.before + Shown(b.mark, k) + Replace(tail, k)
  {
    ReplaceMarkup(b.mark.kind, b.mark.colon, b.mark.payload, tail, k);
    ReplaceAfter(b.before, MarkText(b.mark), tail, k, Shown(b.mark, k));
  }

  /** What replacing makes of `m` in front of `tail` it still makes after a text without `【`. */
  lemma ReplaceAfter(t: string, m: string, tail: string, k: Kind, shown: string)
    requires NoOpen(t) && Replace(m + tail, k) == shown + Replace(tail, k)
    ensures Replace(t + m + tail, k) == t + shown + Replace(tail, k)
  {
    calc {
      Replace(t + m + tail, k);
      { assert t + m + tail == t + (m + tail); }
      Replace(t + (m + tail), k);
      { ReplaceSkip(t, m + tail, k); }
      t + Replace(m + tail, k);
      t + (shown + Replace(tail, k));
      t + shown + Replace(tail, k);
    }
  }

  lemma {:induction false} ReplaceBlocks(bs: seq<Block>, rest: string, k: Kind)
    requires WellFormedBlocks(bs)
    ensures Replace(RenderBlocks(bs) + rest, k) == Partial(bs, k) + Replace(rest, k)
  {
    if bs != [] {
      var b := bs[0];
      WellFormedTail(bs);
      Regroup(b.before, MarkText(b.mark), RenderBlocks(bs[1..]), rest);
      ReplaceBlock(b, RenderBlocks(bs[1..]) + rest, k);
      ReplaceBlocks(bs[1..], rest, k);
      Regroup(b.before, Shown(b.mark, k), Partial(bs[1..], k), Replace(rest, k));
    } else {
      assert RenderBlocks(bs) + rest == rest;
    }
  }

  lemma ReplaceShown(b: Block, tail: string)
    requires NoOpen(b.before) && IsMarkerColon(b.mark.colon) && IsCleanPayload(b.mark.payload)
    ensures Replace(b.before + Shown(b.mark, Addition) + tail, Deletion)
      == b.before + Span(b.mark.kind, b.mark.payload) + Replace(tail, Deletion)
  {
    var shown := Shown(b.mark, Addition);
    var span := Span(b.mark.kind, b.mark.payload);
    if b.mark.kind == Addition {
      IsCleanNoOpen(b.mark.payload);
      SpanNoOpen(Addition, b.mark.payload);
      ReplaceSkip(shown, tail, Deletion);
    } else {
      ReplaceMarkupOfKind(Deletion, b.mark.colon, b.mark.payload, tail);
    }
    ReplaceAfter(b.before, shown, tail, Deletion, span);
  }

  lemma IsCleanNoOpen(x: string)
    requires IsCleanPayload(x)
    ensures NoOpen(x)
  { }

  lemma {:induction false} ReplaceDeletions(bs: seq<Block>, rest: string)
    requires WellFormedBlocks(bs)
    ensures Replace(Partial(bs, Addition) + rest, Deletion) == HtmlBlocks(bs) + Replace(rest, Deletion)
  {
    if bs != [] {
      var b := bs[0];
      var span := Span(b.mark.kind, b.mark.payload);
      WellFormedTail(bs);
      Regroup(b.before, Shown(b.mark, Addition), Partial(bs[1..], Addition), rest);
      ReplaceShown(b, Partial(bs[1..], Addition) + rest);
      ReplaceDeletions(bs[1..], rest);
      Regroup(b.before, span, HtmlBlocks(bs[1..]), Replace(rest, Deletion));
    } else {
      assert Partial(bs, Addition) + rest == rest;
    }
  }

  /** Moving the brackets of a four-part text. */
  lemma Regroup(a: string, b: string, c: string, d: string)
    ensures a + b + c + d == a + b + (c + d)
  { }

  /**
   * A line of plain text and well-formed markers, in any order: every marker
   * becomes a span of its own kind around its payload, the rest is shown as
   * written.
   */
  lemma FormatBlocks(bs: seq<Block>, tail: string)
    requires WellFormedBlocks(bs) && NoOpen(tail)
    ensures FormatLine(RenderBlocks(bs) + tail) == HtmlBlocks(bs) + tail
  {
    ReplaceBlocks(bs, tail, Addition);
    ReplaceSkip(tail, "", Addition);
    ReplaceSkip(tail, "", Deletion);
    assert tail + "" == tail;
    ReplaceDeletions(bs, tail);
  }

  /** What the review panel shows. */
  datatype ReviewPanel = ReviewPanel(
    riskHeading: string, risks: seq<string>,
    recommendationHeading: string, recommendations: seq<string>,
    conclusionHeading: string, conclusion: string)

  /** `items && items.length > 0 ? items.map((item, index) => "{index + 1}. {item}") : fallback`. */
  function ListTexts(items: seq<string>, fallback: string): seq<string> {
    if |items| > 0 then seq(|items|, i requires 0 <= i < |items| => DecimalString(i + 1) + ". " + items[i])
    else [fallback]
  }

  function Panel(result: ReviewResult): ReviewPanel {
    ReviewPanel(
      "一、风险点清单", ListTexts(result.riskList, "未发现明显风险点"),
      "二、修订建议", ListTexts(result.recommendations, "无需修订"),
      "三、合规结论", Or(result.complianceConclusion, "待评估"))
  }

  /** A list in the panel reads exactly as the same list in the downloadable reports. */
  lemma ListMatchesReport(items: seq<string>, fallback: string)
    ensures ListTexts(items, fallback) == ItemTexts(items, fallback)
  {
    if items != [] {
      NumberedTextsIndex(items, 0);
    }
  }

  /**
   * The panel shows the reports' headings, their numbered lists or fallback
   * sentences, and the text the reports give as the conclusion.
   */
  lemma PanelMatchesReports(result: ReviewResult)
    ensures var p := Panel(result);
      && p.riskHeading == RiskHeading && p.recommendationHeading == RecommendationHeading && p.conclusionHeading == ConclusionHeading
      && p.risks == ItemTexts(result.riskList, NoRisks)
      && p.recommendations == ItemTexts(result.recommendations, NoRecommendations)
      && p.conclusion == Or(result.complianceConclusion, Pending)
  {
    ListMatchesReport(result.riskList, NoRisks);
    ListMatchesReport(result.recommendations, NoRecommendations);
  }

  /** `x` is written somewhere in `s`. */
  ghost predicate Contains(s: string, x: string) {
    exists q: nat :: Reads(s, q, x)
  }

  /** Every part of a text written part by part is contained in it. */
  lemma ContainsPart(s: string, parts: seq<string>, k: nat)
    requires s == Concat(parts) && k < |parts|
    ensures Contains(s, parts[k])
  {
    PartAt(parts, k);
  }

  /** A part of the HTML report is contained in the whole report. */
  lemma HtmlContains(result: ReviewResult, k: nat, x: string)
    requires k < |HtmlParts(result)| && HtmlParts(result)[k] == x
    ensures Contains(ReviewReportHtml(result), x)
  {
    var parts := HtmlParts(result);
    var s := ReviewReportHtml(result);
    assert s == Concat(parts);
    ContainsPart(s, parts, k);
  }

  /** The risk list's fallback sentence, in the Word report, the HTML report and the panel. */
  lemma NoRisksEverywhere(result: ReviewResult)
    requires result.riskList == []
    ensures TextParagraph(NoRisks) in ReportParagraphs(result)
    ensures Contains(ReviewReportHtml(result), "<p>" + NoRisks + "</p>")
    ensures Panel(result).risks == [NoRisks]
  {
    var front := [ Title(ReportTitle),
      MetaParagraph(TemplateLabel, Or(result.template, Unspecified), 200),
      MetaParagraph(ModelLabel, Or(result.model, Unspecified), 400),
      SectionHeading(RiskHeading) ];
    var ps := ReportParagraphs(result);
    assert ps[|front|] == TextParagraph(NoRisks);
    assert HtmlParts(result)[1] == "<p>" + NoRisks + "</p>";
    HtmlContains(result, 1, "<p>" + NoRisks + "</p>");
    PanelMatchesReports(result);
  }

  /** The recommendation list's fallback sentence, in the Word report, the HTML report and the panel. */
  lemma NoRecommendationsEverywhere(result: ReviewResult)
    requires result.recommendations == []
    ensures TextParagraph(NoRecommendations) in ReportParagraphs(result)
    ensures Contains(ReviewReportHtml(result), "<p>" + NoRecommendations + "</p>")
    ensures Panel(result).recommendations == [NoRecommendations]
  {
    var front := [ Title(ReportTitle),
      MetaParagraph(TemplateLabel, Or(result.template, Unspecified), 200),
      MetaParagraph(ModelLabel, Or(result.model, Unspecified), 400),
      SectionHeading(RiskHeading) ];
    var risks := ItemParagraphs(result.riskList, NoRisks);
    var ps := ReportParagraphs(result);
    assert ps[|front| + |risks| + 1] == TextParagraph(NoRecommendations);
    assert HtmlParts(result)[3] == "<p>" + NoRecommendations + "</p>";
    HtmlContains(result, 3, "<p>" + NoRecommendations + "</p>");
    PanelMatchesReports(result);
  }

  /** The conclusion's fallback sentence, in the Word report, the HTML report and the panel. */
  lemma PendingEverywhere(result: ReviewResult)
    requires result.complianceConclusion == []
    ensures Spaced(Pending, 100) in ReportParagraphs(result)
    ensures Contains(ReviewReportHtml(result), "<pre>" + Pending + "</pre>")
    ensures Panel(result).conclusion == Pending
  {
    forall j ensures !OccursAt(Pending, "\n", j) {
      OccursAtChar(Pending, '\n', j);
    }
    SplitAbsent(Pending, "\n");
    assert ConclusionParagraphs(Split(Pending, "\n")) == [Spaced(Pending, 100)];
    var ps := ReportParagraphs(result);
    assert ps[|ps| - 1] == Spaced(Pending, 100);
    assert HtmlParts(result)[5] == "<pre>" + Pending + "</pre>";
    HtmlContains(result, 5, "<pre>" + Pending + "</pre>");
    PanelMatchesReports(result);
  }
}
