/**
 * What the review report promises: items numbered from 1 in order, the
 * fallback sentences, the three section headings, and the same texts in the
 * Word and the HTML renderings.
 */
module ReportProperties {
  import opened JsStrings
  import opened ReviewResults
  import opened DocumentGenerator

  predicate AllDigits(s: string) {
    forall i :: 0 <= i < |s| ==> IsDigit(s[i])
  }

  /** `${n}` is the decimal numeral of `n`: digits only, no leading zero, denoting `n`. */
  lemma {:induction false} DecimalRoundTrip(n: nat)
    ensures AllDigits(DecimalString(n)) && DecimalValue(DecimalString(n)) == n
    ensures n > 0 ==> DecimalString(n)[0] != '0'
    decreases n
  {
    var s := DecimalString(n);
    if n >= 10 {
      DecimalRoundTrip(n / 10);
      var prefix := DecimalString(n / 10);
      assert s == prefix + [DigitChar(n % 10)];
      assert s[..|s| - 1] == prefix && s[|s| - 1] == DigitChar(n % 10);
      assert s[0] == prefix[0];
      assert n == n / 10 * 10 + n % 10;
    }
  }

  /** The texts a reader sees for a list section: each item numbered, or the fallback sentence. */
  function ItemTexts(items: seq<string>, fallback: string): seq<string> {
    if items == [] then [fallback] else NumberedTexts(items, 0)
  }

  function NumberedTexts(items: seq<string>, i: nat): seq<string>
    decreases |items| - i
  {
    if i >= |items| then [] else [Numbered(i, items[i])] + NumberedTexts(items, i + 1)
  }

  /** Item `i` is shown as `i + 1`, a dot, a space and the item, in list order. */
  lemma {:induction false} NumberedTextsIndex(items: seq<string>, i: nat)
    requires i <= |items|
    ensures |NumberedTexts(items, i)| == |items| - i
    ensures forall j :: i <= j < |items| ==> NumberedTexts(items, i)[j - i] == DecimalString(j + 1) + ". " + items[j]
    decreases |items| - i
  {
    if i < |items| {
      NumberedTextsIndex(items, i + 1);
      var ts := NumberedTexts(items, i);
      assert ts == [Numbered(i, items[i])] + NumberedTexts(items, i + 1);
      forall j | i < j < |items| ensures ts[j - i] == DecimalString(j + 1) + ". " + items[j] {
        assert ts[j - i] == NumberedTexts(items, i + 1)[j - i - 1];
      }
    }
  }

  lemma {:induction false} NumberedParagraphsTexts(items: seq<string>, i: nat)
    ensures ParagraphTexts(NumberedParagraphs(items, i)) == NumberedTexts(items, i)
    ensures |NumberedParagraphs(items, i)| == if i < |items| then |items| - i else 0
    decreases |items| - i
  {
    if i < |items| {
      NumberedParagraphsTexts(items, i + 1);
      var ps := NumberedParagraphs(items, i);
      assert ps[0] == Spaced(Numbered(i, items[i]), 150) && ps[1..] == NumberedParagraphs(items, i + 1);
    }
  }

  /** The Word report shows each list section as those texts, one paragraph each. */
  lemma DocxItems(items: seq<string>, fallback: string)
    ensures ParagraphTexts(ItemParagraphs(items, fallback)) == ItemTexts(items, fallback)
    ensures |ItemParagraphs(items, fallback)| == if items == [] then 1 else |items|
  {
    if items == [] {
      assert ParagraphTexts([TextParagraph(fallback)]) == [fallback] + ParagraphTexts([]);
    } else {
      NumberedParagraphsTexts(items, 0);
    }
  }

  /** `<div class="…">text</div>` for each text, concatenated. */
  function Divs(texts: seq<string>, className: string): string {
    if texts == [] then "" else "<div class=\"" + className + "\">" + texts[0] + "</div>" + Divs(texts[1..], className)
  }

  lemma {:induction false} HtmlDivsTexts(items: seq<string>, className: string, i: nat)
    ensures HtmlDivs(items, className, i) == Divs(NumberedTexts(items, i), className)
    decreases |items| - i
  {
    if i < |items| {
      HtmlDivsTexts(items, className, i + 1);
      var ts := NumberedTexts(items, i);
      assert ts[0] == Numbered(i, items[i]) && ts[1..] == NumberedTexts(items, i + 1);
    }
  }

  /** The HTML report shows a list section as the same texts: in `<div>`s, or the fallback in a `<p>`. */
  lemma HtmlItemsAgree(items: seq<string>, className: string, fallback: string)
    ensures HtmlItems(items, className, fallback)
      == if items == [] then "<p>" + ItemTexts(items, fallback)[0] + "</p>" else Divs(ItemTexts(items, fallback), className)
  {
    if items != [] {
      HtmlDivsTexts(items, className, 0);
    }
  }

  /** The paragraphs with a heading, by text, in order. */
  function HeadingTexts(ps: seq<Paragraph>): seq<string> {
    if ps == [] then []
    else (if ps[0].heading.Some? then [ParagraphText(ps[0])] else []) + HeadingTexts(ps[1..])
  }

  lemma {:induction false} HeadingTextsAppend(a: seq<Paragraph>, b: seq<Paragraph>)
    ensures HeadingTexts(a + b) == HeadingTexts(a) + HeadingTexts(b)
  {
    if a != [] {
      assert (a + b)[0] == a[0] && (a + b)[1..] == a[1..] + b;
      HeadingTextsAppend(a[1..], b);
      var first := if a[0].heading.Some? then [ParagraphText(a[0])] else [];
      calc {
        HeadingTexts(a + b);
        first + HeadingTexts(a[1..] + b);
        first + (HeadingTexts(a[1..]) + HeadingTexts(b));
        first + HeadingTexts(a[1..]) + HeadingTexts(b);
      }
    } else {
      assert a + b == b;
    }
  }

  lemma {:induction false} NumberedNoHeadings(items: seq<string>, i: nat)
    ensures HeadingTexts(NumberedParagraphs(items, i)) == []
    decreases |items| - i
  {
    if i < |items| {
      NumberedNoHeadings(items, i + 1);
    }
  }

  lemma {:induction false} ConclusionNoHeadings(lines: seq<string>)
    ensures HeadingTexts(ConclusionParagraphs(lines)) == []
  {
    if lines != [] {
      ConclusionNoHeadings(lines[1..]);
    }
  }

  lemma ItemsNoHeadings(items: seq<string>, fallback: string)
    ensures HeadingTexts(ItemParagraphs(items, fallback)) == []
  {
    if items == [] {
      assert HeadingTexts([TextParagraph(fallback)]) == [] + HeadingTexts([]);
    } else {
      NumberedNoHeadings(items, 0);
    }
  }

  /** The Word report has the title and then exactly the three section headings, in order. */
  lemma ReportOutline(result: ReviewResult)
    ensures HeadingTexts(ReportParagraphs(result)) == [ReportTitle, RiskHeading, RecommendationHeading, ConclusionHeading]
  {
    ItemsNoHeadings(result.riskList, NoRisks);
    ItemsNoHeadings(result.recommendations, NoRecommendations);
    ConclusionNoHeadings(Split(Or(result.complianceConclusion, Pending), "\n"));
    Outline(Title(ReportTitle),
      MetaParagraph(TemplateLabel, Or(result.template, Unspecified), 200),
      MetaParagraph(ModelLabel, Or(result.model, Unspecified), 400),
      SectionHeading(RiskHeading), ItemParagraphs(result.riskList, NoRisks),
      SectionHeading(RecommendationHeading), ItemParagraphs(result.recommendations, NoRecommendations),
      SectionHeading(ConclusionHeading), ConclusionParagraphs(Split(Or(result.complianceConclusion, Pending), "\n")));
  }

  /** The report's shape: a headed paragraph, two plain ones, then three headed paragraphs each followed by unheaded ones. */
  lemma Outline(h0: Paragraph, m0: Paragraph, m1: Paragraph, h1: Paragraph, b1: seq<Paragraph>,
                h2: Paragraph, b2: seq<Paragraph>, h3: Paragraph, b3: seq<Paragraph>)
    requires h0.heading.Some? && m0.heading.None? && m1.heading.None?
    requires h1.heading.Some? && h2.heading.Some? && h3.heading.Some?
    requires HeadingTexts(b1) == [] && HeadingTexts(b2) == [] && HeadingTexts(b3) == []
    ensures HeadingTexts([h0, m0, m1, h1] + b1 + [h2] + b2 + [h3] + b3)
      == [ParagraphText(h0), ParagraphText(h1), ParagraphText(h2), ParagraphText(h3)]
  {
    var p1 := [h0, m0, m1, h1] + b1;
    var p2 := p1 + [h2];
    var p3 := p2 + b2;
    var p4 := p3 + [h3];
    var t2, t3 := ParagraphText(h2), ParagraphText(h3);
    calc {
      HeadingTexts(p4 + b3);
      { HeadingTextsAppend(p4, b3); }
      HeadingTexts(p4) + HeadingTexts(b3);
      { HeadingTextsAppend(p3, [h3]); HeadingTextsSingle(h3); }
      HeadingTexts(p3) + [t3];
      { HeadingTextsAppend(p2, b2); }
      HeadingTexts(p2) + [t3];
      { HeadingTextsAppend(p1, [h2]); HeadingTextsSingle(h2); }
      HeadingTexts(p1) + [t2] + [t3];
      { HeadingTextsAppend([h0, m0, m1, h1], b1); FrontHeadings(h0, m0, m1, h1); }
      [ParagraphText(h0), ParagraphText(h1)] + [t2] + [t3];
    }
  }

  lemma FrontHeadings(h0: Paragraph, m0: Paragraph, m1: Paragraph, h1: Paragraph)
    requires h0.heading.Some? && m0.heading.None? && m1.heading.None? && h1.heading.Some?
    ensures HeadingTexts([h0, m0, m1, h1]) == [ParagraphText(h0), ParagraphText(h1)]
  {
    calc {
      HeadingTexts([h0, m0, m1, h1]);
      { assert [h0, m0, m1, h1] == [h0] + [m0, m1, h1]; HeadingTextsCons(h0, [m0, m1, h1]); }
      [ParagraphText(h0)] + HeadingTexts([m0, m1, h1]);
      { assert [m0, m1, h1] == [m0] + [m1, h1]; HeadingTextsCons(m0, [m1, h1]); }
      [ParagraphText(h0)] + HeadingTexts([m1, h1]);
      { assert [m1, h1] == [m1] + [h1]; HeadingTextsCons(m1, [h1]); }
      [ParagraphText(h0)] + HeadingTexts([h1]);
      { HeadingTextsSingle(h1); }
      [ParagraphText(h0), ParagraphText(h1)];
    }
  }

  lemma HeadingTextsCons(p: Paragraph, rest: seq<Paragraph>)
    ensures HeadingTexts([p] + rest) == (if p.heading.Some? then [ParagraphText(p)] else []) + HeadingTexts(rest)
  {
    assert ([p] + rest)[0] == p && ([p] + rest)[1..] == rest;
  }

  lemma HeadingTextsSingle(p: Paragraph)
    ensures HeadingTexts([p]) == if p.heading.Some? then [ParagraphText(p)] else []
  {
    assert [p][1..] == [];
  }

  lemma {:induction false} ConclusionTexts(lines: seq<string>)
    ensures ParagraphTexts(ConclusionParagraphs(lines)) == lines
  {
    if lines != [] {
      ConclusionTexts(lines[1..]);
    }
  }

  /**
   * The Word report gives the conclusion (or `待评估`) one paragraph per line;
   * joined back with line feeds they are exactly the text the HTML report puts in `<pre>`.
   */
  lemma ConclusionAgrees(conclusion: string)
    ensures var shown := Or(conclusion, Pending); var ps := ConclusionParagraphs(Split(shown, "\n"));
      && Join(ParagraphTexts(ps), "\n") == shown
      && |ps| == CountChar(shown, '\n') + 1
      && (conclusion != [] ==> shown == conclusion)
  {
    var shown := Or(conclusion, Pending);
    var lines := Split(shown, "\n");
    ConclusionTexts(lines);
    JoinSplit(shown, "\n");
    assert "\n" == ['\n'];
    SplitCharCount(shown, '\n');
    assert |ParagraphTexts(ConclusionParagraphs(lines))| == |ConclusionParagraphs(lines)| by {
      ParagraphTextsLength(ConclusionParagraphs(lines));
    }
  }

  lemma {:induction false} ParagraphTextsLength(ps: seq<Paragraph>)
    ensures |ParagraphTexts(ps)| == |ps|
  {
    if ps != [] {
      ParagraphTextsLength(ps[1..]);
    }
  }
}
