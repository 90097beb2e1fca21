/**
 * What the review prompt promises: the contract sits right after the task
 * heading, the output format closes the prompt, every heading line the
 * format asks for is one the reply parser recognises, and the template's
 * lists are written one entry per line.
 */
module PromptProperties {
  import opened Wrappers
  import opened JsStrings
  import opened ReviewProcessor
  import opened ParseProperties

  /** The prompt opens with the task heading and the contract and closes with the output format. */
  lemma PromptFrame(contractText: string, t: Template)
    ensures var prompt := BuildReviewPrompt(contractText, t);
      && TaskHeading + contractText <= prompt
      && |OutputRequirements| <= |prompt|
      && prompt[|prompt| - |OutputRequirements|..] == OutputRequirements
  {
    ReadsLeft(TaskHeading + contractText, TemplateText(t), OutputRequirements);
    ReadsRight(TaskHeading + contractText + TemplateText(t), OutputRequirements);
  }

  /** `a + x + b` holds `a + x` at the start. */
  lemma ReadsLeft(a: string, x: string, b: string)
    ensures a <= a + x + b
  {
    assert (a + x + b)[..|a|] == a;
  }

  /** `a + b` ends with `b`. */
  lemma ReadsRight(a: string, b: string)
    ensures (a + b)[|a|..] == b && |a + b| - |b| == |a|
  {
  }

  /** A text read inside `b` is read further on in `a + b`. */
  lemma ReadsInSuffix(a: string, b: string, q: nat, x: string)
    requires Reads(b, q, x)
    ensures Reads(a + b, |a| + q, x)
  {
    assert (a + b)[|a| + q..|a| + q + |x|] == b[q..q + |x|];
  }

  /** Part `k` of texts written after `front` is read where it starts. */
  lemma ReadsPart(front: string, parts: seq<string>, k: nat, line: string)
    requires k < |parts| && parts[k] == line
    ensures Reads(front + Concat(parts), |front| + Offset(parts, k), line)
  {
    PartAt(parts, k);
    ReadsInSuffix(front, Concat(parts), Offset(parts, k), parts[k]);
  }

  lemma RevisedContractLineFound(s: string, q: nat)
    requires Reads(s, q, RevisedContractLine)
    ensures HasHeading(s, RevisedContractHeading)
  {
    RevisedContractLineAt(s, q);
  }

  lemma RevisedContractLineInParts(front: string, parts: seq<string>)
    requires 1 < |parts| && parts[1] == RevisedContractLine
    ensures HasHeading(front + Concat(parts), RevisedContractHeading)
  {
    ReadsPart(front, parts, 1, RevisedContractLine);
    RevisedContractLineFound(front + Concat(parts), |front| + Offset(parts, 1));
  }

  lemma ReviewOpinionLineFound(s: string, q: nat)
    requires Reads(s, q, ReviewOpinionLine)
    ensures HasHeading(s, ReviewOpinionHeading)
  {
    ReviewOpinionLineAt(s, q);
  }

  lemma ReviewOpinionLineInParts(front: string, parts: seq<string>)
    requires 3 < |parts| && parts[3] == ReviewOpinionLine
    ensures HasHeading(front + Concat(parts), ReviewOpinionHeading)
  {
    ReadsPart(front, parts, 3, ReviewOpinionLine);
    ReviewOpinionLineFound(front + Concat(parts), |front| + Offset(parts, 3));
  }

  lemma RiskListLineFound(s: string, q: nat)
    requires Reads(s, q, RiskListLine)
    ensures HasHeading(s, RiskListHeading)
  {
    RiskListLineAt(s, q);
  }

  lemma RiskListLineInParts(front: string, parts: seq<string>)
    requires 5 < |parts| && parts[5] == RiskListLine
    ensures HasHeading(front + Concat(parts), RiskListHeading)
  {
    ReadsPart(front, parts, 5, RiskListLine);
    RiskListLineFound(front + Concat(parts), |front| + Offset(parts, 5));
  }

  lemma RecommendationsLineFound(s: string, q: nat)
    requires Reads(s, q, RecommendationsLine)
    ensures HasHeading(s, RecommendationsHeading)
  {
    RecommendationsLineAt(s, q);
  }

  lemma RecommendationsLineInParts(front: string, parts: seq<string>)
    requires 7 < |parts| && parts[7] == RecommendationsLine
    ensures HasHeading(front + Concat(parts), RecommendationsHeading)
  {
    ReadsPart(front, parts, 7, RecommendationsLine);
    RecommendationsLineFound(front + Concat(parts), |front| + Offset(parts, 7));
  }

  lemma ConclusionLineFound(s: string, q: nat)
    requires Reads(s, q, ConclusionLine)
    ensures HasHeading(s, ConclusionHeading)
  {
    ConclusionLineAt(s, q);
  }

  lemma ConclusionLineInParts(front: string, parts: seq<string>)
    requires 9 < |parts| && parts[9] == ConclusionLine
    ensures HasHeading(front + Concat(parts), ConclusionHeading)
  {
    ReadsPart(front, parts, 9, ConclusionLine);
    ConclusionLineFound(front + Concat(parts), |front| + Offset(parts, 9));
  }

  /**
   * Eleven parts with the five heading lines at the odd places, written
   * after any text: each of the five headings the parser looks for is found.
   */
  lemma FormatHeadings(front: string, parts: seq<string>)
    requires |parts| == 11
    requires parts[1] == RevisedContractLine && parts[3] == ReviewOpinionLine && parts[5] == RiskListLine
    requires parts[7] == RecommendationsLine && parts[9] == ConclusionLine
    ensures var s := front + Concat(parts);
      && HasHeading(s, RevisedContractHeading) && HasHeading(s, ReviewOpinionHeading)
      && HasHeading(s, RiskListHeading) && HasHeading(s, RecommendationsHeading) && HasHeading(s, ConclusionHeading)
  {
    RevisedContractLineInParts(front, parts);
    ReviewOpinionLineInParts(front, parts);
    RiskListLineInParts(front, parts);
    RecommendationsLineInParts(front, parts);
    ConclusionLineInParts(front, parts);
  }

  /**
   * Every heading the output format asks for is one the reply parser
   * recognises, whatever the contract and the template put in front of it:
   * a reply that copies the format's headings has all five.
   */
  lemma PromptHeadingsRecognised(contractText: string, t: Template)
    ensures var prompt := BuildReviewPrompt(contractText, t);
      && HasHeading(prompt, RevisedContractHeading) && HasHeading(prompt, ReviewOpinionHeading)
      && HasHeading(prompt, RiskListHeading) && HasHeading(prompt, RecommendationsHeading) && HasHeading(prompt, ConclusionHeading)
  {
    FormatHeadings(TaskHeading + contractText + TemplateText(t), OutputParts);
  }

  // ---------------------------------------------------------------------------
  // The template's lists

  predicate NoNewline(s: string) { forall i :: 0 <= i < |s| ==> s[i] != '\n' }

  /** Bullets of entries on one line each, joined with `\n`, are read back line by line. */
  lemma BulletLines(marker: string, items: seq<string>)
    requires items != [] && NoNewline(marker) && forall i :: 0 <= i < |items| ==> NoNewline(items[i])
    ensures Split(Join(Bullets(marker, items), "\n"), "\n") == Bullets(marker, items)
  {
    var bullets := Bullets(marker, items);
    BulletsFree(marker, items);
    SplitJoin(bullets, "\n");
  }

  /**
   * A category of review points takes its `###` heading line, then one
   * line `  - item` per item; with no items the heading is followed by an
   * empty line.
   */
  lemma CategoryLines(c: ReviewCategory)
    requires NoNewline(c.category) && forall i :: 0 <= i < |c.items| ==> NoNewline(c.items[i])
    ensures Split(CategoryText(c), "\n") == ["### " + c.category] + (if c.items == [] then [""] else Bullets("  - ", c.items))
  {
    var head := "### " + c.category;
    var body := Join(Bullets("  - ", c.items), "\n");
    assert CategoryText(c) == head + "\n" + body;
    forall j | 0 <= j < |head| ensures head[j] != '\n' {
      if j >= 4 {
        assert head[j] == c.category[j - 4];
      }
    }
    CharSeparatorFree(head, '\n');
    if c.items == [] {
      SplitJoin([head, ""], "\n");
      assert Join([head, ""], "\n") == head + "\n" + body;
    } else {
      var lines := [head] + Bullets("  - ", c.items);
      BulletLines("  - ", c.items);
      assert Join(lines, "\n") == head + "\n" + body by {
        assert lines[1..] == Bullets("  - ", c.items);
      }
      BulletsFree("  - ", c.items);
      assert forall k :: 0 <= k < |lines| ==> SeparatorFree(lines[k], "\n");
      SplitJoin(lines, "\n");
    }
  }

  /** Bullets of one-line entries are free of the line separator. */
  lemma BulletsFree(marker: string, items: seq<string>)
    requires NoNewline(marker) && forall i :: 0 <= i < |items| ==> NoNewline(items[i])
    ensures forall k :: 0 <= k < |items| ==> SeparatorFree(Bullets(marker, items)[k], "\n")
  {
    forall k | 0 <= k < |items| ensures SeparatorFree(Bullets(marker, items)[k], "\n") {
      var b := Bullets(marker, items)[k];
      assert b == marker + items[k];
      forall j | 0 <= j < |b| ensures b[j] != '\n' {
        if j < |marker| {
          assert b[j] == marker[j];
        } else {
          assert b[j] == items[k][j - |marker|];
        }
      }
      CharSeparatorFree(b, '\n');
    }
  }

  /** Keywords without `、` are read back from the keyword line one by one. */
  lemma KeywordList(keywords: seq<string>)
    requires keywords != [] && forall i, j :: 0 <= i < |keywords| && 0 <= j < |keywords[i]| ==> keywords[i][j] != '、'
    ensures Split(Join(keywords, "、"), "、") == keywords
  {
    forall k | 0 <= k < |keywords| ensures SeparatorFree(keywords[k], "、") {
      CharSeparatorFree(keywords[k], '、');
    }
    SplitJoin(keywords, "、");
  }
}
