/**
 * The Word and HTML renderings of a review: the revised contract, with its
 * revision markers turned into styled runs, and the review report. The
 * `docx` library is stood in for by paragraph and run values; packing the
 * document and writing the file are not modelled.
 */
module DocumentGenerator {
  import opened Wrappers
  import opened JsStrings
  import opened Markers
  import opened ReviewResults

  /** `new TextRun({ text, bold, strike, color })`; an option not given is false or absent. */
  datatype Run = Run(text: string, bold: bool, strike: bool, color: Option<string>)

  datatype Heading = Heading1 | Heading2

  /** A paragraph's content: the `text` option, or `children` runs. */
  datatype Body = Text(text: string) | Runs(runs: seq<Run>)

  /** `new Paragraph({ text | children, heading, alignment, spacing: { before, after } })`. */
  datatype Paragraph = Paragraph(body: Body, heading: Option<Heading>, centered: bool, before: Option<nat>, after: Option<nat>)

  function Plain(t: string): Run { Run(t, false, false, None) }

  function Bold(t: string): Run { Run(t, true, false, None) }

  const AdditionColor: string := "FF0000"
  const DeletionColor: string := "999999"

  /** Additions are red and bold, deletions grey and struck through. */
  function StyledRun(k: Kind, payload: string): Run {
    match k
    case Addition => Run(payload, true, false, Some(AdditionColor))
    case Deletion => Run(payload, false, true, Some(DeletionColor))
  }

  /** `if (text) runs.push(new TextRun({ text }))`: the empty string is falsy and gives no run. */
  function PlainRun(t: string): seq<Run> {
    if t == [] then [] else [Plain(t)]
  }

  function TextParagraph(t: string): Paragraph { Paragraph(Text(t), None, false, None, None) }

  function Spaced(t: string, after: nat): Paragraph { Paragraph(Text(t), None, false, None, Some(after)) }

  /** A document title: heading 1, centred, 400 after. */
  function Title(t: string): Paragraph { Paragraph(Text(t), Some(Heading1), true, None, Some(400)) }

  /** A report section heading: heading 2, 400 before, 200 after. */
  function SectionHeading(t: string): Paragraph { Paragraph(Text(t), Some(Heading2), false, Some(400), Some(200)) }

  function RunsText(runs: seq<Run>): string {
    if runs == [] then "" else runs[0].text + RunsText(runs[1..])
  }

  function ParagraphText(p: Paragraph): string {
    match p.body
    case Text(t) => t
    case Runs(rs) => RunsText(rs)
  }

  function ParagraphTexts(ps: seq<Paragraph>): seq<string> {
    if ps == [] then [] else [ParagraphText(ps[0])] + ParagraphTexts(ps[1..])
  }

  // ---------------------------------------------------------------------------
  // The revised contract

  /** Marker texts as the scan returns them: each is matched whole again on its own. */
  predicate AreMatches(ms: seq<string>, k: Kind) {
    forall j :: 0 <= j < |ms| ==> MarkerLength(ms[j], k) == Some(|ms[j]|)
  }

  lemma ScanMatches(s: string, k: Kind)
    ensures AreMatches(Scan(s, k), k)
  {
    ScanRematch(s, k);
    forall j | 0 <= j < |Scan(s, k)| ensures MarkerLength(Scan(s, k)[j], k) == Some(|Scan(s, k)[j]|) {
      assert Scan(s, k)[j] in Scan(s, k);
    }
  }

  /**
   * One `forEach` step on the remaining text: the piece before the first
   * occurrence of the marker text, if non-empty, then its payload styled;
   * the rest is `parts.slice(1).join(match)`.
   */
  function Step(remaining: string, m: string, k: Kind): (seq<Run>, string)
    requires MarkerLength(m, k) == Some(|m|)
  {
    var parts := Split(remaining, m);
    (PlainRun(parts[0]) + [StyledRun(k, Payload(m, k))], Join(parts[1..], m))
  }

  /** The `forEach` over the marker texts `ms` from the `i`-th on: the runs pushed and the text that remains. */
  function Consume(remaining: string, ms: seq<string>, i: nat, k: Kind): (seq<Run>, string)
    requires AreMatches(ms, k) && i <= |ms|
    decreases |ms| - i
  {
    if i == |ms| then ([], remaining)
    else
      var (runs, next) := Step(remaining, ms[i], k);
      var (more, last) := Consume(next, ms, i + 1, k);
      (runs + more, last)
  }

  /** The runs of a line with markers: every addition, then every deletion, then what remains. */
  function LineRuns(line: string): seq<Run> {
    ScanMatches(line, Addition);
    ScanMatches(line, Deletion);
    var added := Consume(line, Scan(line, Addition), 0, Addition);
    var deleted := Consume(added.1, Scan(line, Deletion), 0, Deletion);
    added.0 + deleted.0 + PlainRun(deleted.1)
  }

  /** `additionMatch || deletionMatch`: `match` with `/g` gives `null` when nothing matches. */
  predicate HasMarkers(line: string) {
    Scan(line, Addition) != [] || Scan(line, Deletion) != []
  }

  function LineParagraph(line: string): Paragraph {
    if Trim(line) == [] then TextParagraph("")
    else if HasMarkers(line) then Paragraph(Runs(LineRuns(line)), None, false, None, None)
    else TextParagraph(line)
  }

  function LineParagraphs(lines: seq<string>): seq<Paragraph> {
    if lines == [] then [] else [LineParagraph(lines[0])] + LineParagraphs(lines[1..])
  }

  const RevisedTitle: string := "修订版合同 (Revised Contract)"

  /** The paragraphs of `generateRevisedContractDocx`: the title, then one per line. */
  function RevisedContractParagraphs(revised: string): seq<Paragraph> {
    [Title(RevisedTitle)] + LineParagraphs(Split(revised, "\n"))
  }

  /** The two `forEach` loops of the tokenizer, one kind at a time. */
  method PushMarkers(text: string, ms: seq<string>, k: Kind) returns (runs: seq<Run>, remaining: string)
    requires AreMatches(ms, k)
    ensures runs == Consume(text, ms, 0, k).0 && remaining == Consume(text, ms, 0, k).1
  {
    runs, remaining := [], text;
    var i := 0;
    while i < |ms|
      invariant i <= |ms|
      invariant runs + Consume(remaining, ms, i, k).0 == Consume(text, ms, 0, k).0
      invariant Consume(remaining, ms, i, k).1 == Consume(text, ms, 0, k).1
    {
      var before, rest := runs, remaining;
      runs, remaining := PushMarker(runs, remaining, ms[i], k);
      ConsumeStep(before, rest, runs, remaining, ms, i, k);
      i := i + 1;
    }
    assert runs + [] == runs;
  }

  /** One turn of the loop keeps what remains to be pushed in step with what has been pushed. */
  lemma ConsumeStep(before: seq<Run>, rest: string, runs: seq<Run>, remaining: string, ms: seq<string>, i: nat, k: Kind)
    requires AreMatches(ms, k) && i < |ms|
    requires runs == before + Step(rest, ms[i], k).0 && remaining == Step(rest, ms[i], k).1
    ensures runs + Consume(remaining, ms, i + 1, k).0 == before + Consume(rest, ms, i, k).0
    ensures Consume(remaining, ms, i + 1, k).1 == Consume(rest, ms, i, k).1
  {
    var more := Consume(remaining, ms, i + 1, k).0;
    assert before + (Step(rest, ms[i], k).0 + more) == runs + more;
  }

  /** The `forEach` callback for one marker text `m`. */
  method PushMarker(runs0: seq<Run>, remaining0: string, m: string, k: Kind) returns (runs: seq<Run>, remaining: string)
    requires MarkerLength(m, k) == Some(|m|)
    ensures runs == runs0 + Step(remaining0, m, k).0 && remaining == Step(remaining0, m, k).1
  {
    var parts := Split(remaining0, m);
    runs := runs0;
    if parts[0] != [] {
      runs := runs + [Plain(parts[0])];
    }
    runs := runs + [StyledRun(k, Payload(m, k))];
    remaining := Join(parts[1..], m);
  }

  /** The styled runs of one line, as `generateRevisedContractDocx` builds them. */
  method TokenizeLine(line: string, additions: seq<string>, deletions: seq<string>) returns (runs: seq<Run>)
    requires additions == Scan(line, Addition) && deletions == Scan(line, Deletion)
    ensures runs == LineRuns(line)
  {
    ScanMatches(line, Addition);
    ScanMatches(line, Deletion);
    var added, remaining := PushMarkers(line, additions, Addition);
    var deleted, last := PushMarkers(remaining, deletions, Deletion);
    runs := added + deleted;
    if last != [] {
      runs := runs + [Plain(last)];
    }
  }

  /** `generateRevisedContractDocx` without packing and writing: the document's paragraphs. */
  method RevisedContractDocx(revised: string) returns (paragraphs: seq<Paragraph>)
    ensures paragraphs == RevisedContractParagraphs(revised)
  {
    paragraphs := [Title(RevisedTitle)];
    var lines := Split(revised, "\n");
    var i := 0;
    while i < |lines|
      invariant i <= |lines|
      invariant paragraphs + LineParagraphs(lines[i..]) == RevisedContractParagraphs(revised)
    {
      assert lines[i..][0] == lines[i] && lines[i..][1..] == lines[i + 1..];
      var p := LineDocx(lines[i]);
      paragraphs := paragraphs + [p];
      i := i + 1;
    }
    assert lines[i..] == [];
  }

  /** The body of the loop over the lines: the paragraph one line becomes. */
  method LineDocx(line: string) returns (p: Paragraph)
    ensures p == LineParagraph(line)
  {
    if Trim(line) == [] {
      p := TextParagraph("");
    } else {
      var additions := Scan(line, Addition);
      var deletions := Scan(line, Deletion);
      if additions != [] || deletions != [] {
        var runs := TokenizeLine(line, additions, deletions);
        p := Paragraph(Runs(runs), None, false, None, None);
      } else {
        p := TextParagraph(line);
      }
    }
  }

  // ---------------------------------------------------------------------------
  // The review report

  const ReportTitle: string := "合同审查意见书"
  const TemplateLabel: string := "审查模板："
  const ModelLabel: string := "使用模型："
  const RiskHeading: string := "一、风险点清单"
  const RecommendationHeading: string := "二、修订建议"
  const ConclusionHeading: string := "三、合规结论"
  const NoRisks: string := "未发现明显风险点"
  const NoRecommendations: string := "无需修订"
  const Pending: string := "待评估"
  const Unspecified: string := "未指定"

  /** `value || fallback`: the empty string is falsy. */
  function Or(value: string, fallback: string): string {
    if value == [] then fallback else value
  }

  function DigitChar(d: nat): char
    requires d < 10
  {
    ('0' as int + d) as char
  }

  /** `${n}` for a natural number. */
  function DecimalString(n: nat): (s: string)
    ensures s != []
  {
    if n < 10 then [DigitChar(n)] else DecimalString(n / 10) + [DigitChar(n % 10)]
  }

  /** The number a string of decimal digits denotes. */
  function DecimalValue(s: string): int {
    if s == [] then 0 else DecimalValue(s[..|s| - 1]) * 10 + (s[|s| - 1] as int - '0' as int)
  }

  /** `${index + 1}. ${item}`: items are numbered from 1. */
  function Numbered(index: nat, item: string): string {
    DecimalString(index + 1) + ". " + item
  }

  /** A bold label followed by its value. */
  function MetaParagraph(name: string, value: string, after: nat): Paragraph {
    Paragraph(Runs([Bold(name), Plain(value)]), None, false, None, Some(after))
  }

  function NumberedParagraphs(items: seq<string>, i: nat): seq<Paragraph>
    decreases |items| - i
  {
    if i >= |items| then [] else [Spaced(Numbered(i, items[i]), 150)] + NumberedParagraphs(items, i + 1)
  }

  /** A numbered list, or the fallback sentence when the list is empty. */
  function ItemParagraphs(items: seq<string>, fallback: string): seq<Paragraph> {
    if items == [] then [TextParagraph(fallback)] else NumberedParagraphs(items, 0)
  }

  function ConclusionParagraphs(lines: seq<string>): seq<Paragraph> {
    if lines == [] then [] else [Spaced(lines[0], 100)] + ConclusionParagraphs(lines[1..])
  }

  /** The paragraphs of `generateReviewReportDocx`. */
  function ReportParagraphs(result: ReviewResult): seq<Paragraph> {
    [ Title(ReportTitle),
      MetaParagraph(TemplateLabel, Or(result.template, Unspecified), 200),
      MetaParagraph(ModelLabel, Or(result.model, Unspecified), 400),
      SectionHeading(RiskHeading) ]
    + ItemParagraphs(result.riskList, NoRisks)
    + [SectionHeading(RecommendationHeading)]
    + ItemParagraphs(result.recommendations, NoRecommendations)
    + [SectionHeading(ConclusionHeading)]
    + ConclusionParagraphs(Split(Or(result.complianceConclusion, Pending), "\n"))
  }

  /** One list section of the report: the numbering loop, or the fallback. */
  method ItemsDocx(items: seq<string>, fallback: string) returns (ps: seq<Paragraph>)
    ensures ps == ItemParagraphs(items, fallback)
  {
    if |items| > 0 {
      ps := [];
      var i := 0;
      while i < |items|
        invariant i <= |items|
        invariant ps + NumberedParagraphs(items, i) == NumberedParagraphs(items, 0)
      {
        ps := ps + [Spaced(Numbered(i, items[i]), 150)];
        i := i + 1;
      }
      assert ps + [] == ps;
    } else {
      ps := [TextParagraph(fallback)];
    }
  }

  /** One paragraph per line of the conclusion. */
  method ConclusionDocx(lines: seq<string>) returns (ps: seq<Paragraph>)
    ensures ps == ConclusionParagraphs(lines)
  {
    ps := [];
    var i := 0;
    while i < |lines|
      invariant i <= |lines|
      invariant ps + ConclusionParagraphs(lines[i..]) == ConclusionParagraphs(lines)
    {
      assert lines[i..][0] == lines[i] && lines[i..][1..] == lines[i + 1..];
      ps := ps + [Spaced(lines[i], 100)];
      i := i + 1;
    }
    assert lines[i..] == [];
  }

  /** `generateReviewReportDocx` without packing and writing: the report's paragraphs. */
  method ReviewReportDocx(result: ReviewResult) returns (paragraphs: seq<Paragraph>)
    ensures paragraphs == ReportParagraphs(result)
  {
    paragraphs := [Title(ReportTitle)];
    paragraphs := paragraphs + [MetaParagraph(TemplateLabel, Or(result.template, Unspecified), 200)];
    paragraphs := paragraphs + [MetaParagraph(ModelLabel, Or(result.model, Unspecified), 400)];
    paragraphs := paragraphs + [SectionHeading(RiskHeading)];
    var risks := ItemsDocx(result.riskList, NoRisks);
    paragraphs := paragraphs + risks;
    paragraphs := paragraphs + [SectionHeading(RecommendationHeading)];
    var recommendations := ItemsDocx(result.recommendations, NoRecommendations);
    paragraphs := paragraphs + recommendations;
    paragraphs := paragraphs + [SectionHeading(ConclusionHeading)];
    var conclusion := ConclusionDocx(Split(Or(result.complianceConclusion, Pending), "\n"));
    paragraphs := paragraphs + conclusion;
  }

  // ---------------------------------------------------------------------------
  // The HTML report

  const HtmlHeadStart: string := "\n<!DOCTYPE html>\n<html lang=\"zh-CN\">\n<head>\n  <meta charset=\"UTF-8\">\n  <meta name=\"viewport\" content=\"width=device-width, initial-scale=1.0\">\n  <title>"
  const HtmlHeadEnd: string :=
    "</title>\n"
    + "  <style>\n"
    + "    body {\n"
    + "      font-family: \"Microsoft YaHei\", \"SimSun\", Arial, sans-serif;\n"
    + "      line-height: 1.8;\n"
    + "      max-width: 800px;\n"
    + "      margin: 0 auto;\n"
    + "      padding: 40px 20px;\n"
    + "      color: #333;\n"
    + "    }\n"
    + "    h1 {\n"
    + "      text-align: center;\n"
    + "      font-size: 24px;\n"
    + "      margin-bottom: 30px;\n"
    + "      border-bottom: 2px solid #2D3748;\n"
    + "      padding-bottom: 10px;\n"
    + "    }\n"
    + "    h2 {\n"
    + "      font-size: 18px;\n"
    + "      margin-top: 30px;\n"
    + "      margin-bottom: 15px;\n"
    + "      color: #2D3748;\n"
    + "    }\n"
    + "    .meta {\n"
    + "      margin-bottom: 20px;\n"
    + "      padding: 15px;\n"
    + "      background: #F5F5F5;\n"
    + "      border-radius: 5px;\n"
    + "    }\n"
    + "    .meta strong {\n"
    + "      display: inline-block;\n"
    + "      width: 100px;\n"
    + "    }\n"
    + "    .risk-item, .recommendation-item {\n"
    + "      margin-bottom: 15px;\n"
    + "      padding: 10px;\n"
    + "      background: #FAFAFA;\n"
    + "      border-left: 3px solid #2D3748;\n"
    + "    }\n"
    + "    .addition {\n"
    + "      color: #FF0000;\n"
    + "      font-weight: bold;\n"
    + "    }\n"
    + "    .deletion {\n"
    + "      text-decoration: line-through;\n"
    + "      color: #999;\n"
    + "    }\n"
    + "    pre {\n"
    + "      white-space: pre-wrap;\n"
    + "      word-wrap: break-word;\n"
    + "      background: #F9F9F9;\n"
    + "      padding: 15px;\n"
    + "      border-radius: 5px;\n"
    + "    }\n"
    + "  </style>\n"
    + "</head>\n"
    + "<body>\n"

  function HtmlDivs(items: seq<string>, className: string, i: nat): string
    decreases |items| - i
  {
    if i >= |items| then "" else "<div class=\"" + className + "\">" + Numbered(i, items[i]) + "</div>" + HtmlDivs(items, className, i + 1)
  }

  /** `items.map((x, i) => `<div class="…">${i + 1}. ${x}</div>`).join('')`, or the fallback paragraph. */
  function HtmlItems(items: seq<string>, className: string, fallback: string): string {
    if items == [] then "<p>" + fallback + "</p>" else HtmlDivs(items, className, 0)
  }

  /** `generateReviewReportHtml`: the report as one document string. */
  function ReviewReportHtml(result: ReviewResult): string {
    Concat(HtmlParts(result))
  }

  /** The pieces of the HTML report, in page order: the fixed text between the three interpolated sections. */
  function HtmlParts(result: ReviewResult): seq<string> {
    [ HtmlFront(result),
      HtmlItems(result.riskList, "risk-item", NoRisks),
      HtmlBetweenLists,
      HtmlItems(result.recommendations, "recommendation-item", NoRecommendations),
      HtmlConclusionHeading,
      "<pre>" + Or(result.complianceConclusion, Pending) + "</pre>",
      HtmlEnd ]
  }

  /** The page up to the risk list: the head, the title, the template and the model, and the risk heading. */
  function HtmlFront(result: ReviewResult): string {
    HtmlHeadStart + ReportTitle + HtmlHeadEnd
    + "  <h1>" + ReportTitle + "</h1>\n  \n  <div class=\"meta\">\n"
    + "    <p><strong>" + TemplateLabel + "</strong>" + Or(result.template, Unspecified) + "</p>\n"
    + "    <p><strong>" + ModelLabel + "</strong>" + Or(result.model, Unspecified) + "</p>\n"
    + "  </div>\n\n"
    + "  <h2>" + RiskHeading + "</h2>\n  "
  }

  const HtmlBetweenLists: string := "\n\n  <h2>" + RecommendationHeading + "</h2>\n  "
  const HtmlConclusionHeading: string := "\n\n  <h2>" + ConclusionHeading + "</h2>\n  "
  const HtmlEnd: string := "\n</body>\n</html>\n  "
}
