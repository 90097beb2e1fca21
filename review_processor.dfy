/**
 * The contract review processor around the language-model call: the prompt
 * it builds, the parser that cuts the model's reply into report sections,
 * the assembly of a review result, and the chunk-by-chunk review with its
 * merge. Template lookup and the model call are parameters.
 */
module ReviewProcessor {
  import opened Wrappers
  import opened JsStrings
  import opened ReviewResults

  // ---------------------------------------------------------------------------
  // Section headings in the model's reply

  /**
   * A heading the parser looks for: `hashes` then one optional `#`,
   * whitespace, the number, an optional `、`, `．` or `.`, whitespace, the
   * title. Upper and lower case play no part (the case-insensitive flag
   * changes nothing for these characters).
   */
  datatype HeadingPattern = HeadingPattern(hashes: string, number: char, title: string)

  /** `###?\s*一[、．.]?\s*修订版合同` */
  const RevisedContractHeading: HeadingPattern := HeadingPattern("##", '一', "修订版合同")
  /** `###?\s*二[、．.]?\s*审查意见书` */
  const ReviewOpinionHeading: HeadingPattern := HeadingPattern("##", '二', "审查意见书")
  /** `####?\s*1[、．.]?\s*风险点清单` */
  const RiskListHeading: HeadingPattern := HeadingPattern("###", '1', "风险点清单")
  /** `####?\s*2[、．.]?\s*修订建议` */
  const RecommendationsHeading: HeadingPattern := HeadingPattern("###", '2', "修订建议")
  /** `####?\s*3[、．.]?\s*合规结论` */
  const ConclusionHeading: HeadingPattern := HeadingPattern("###", '3', "合规结论")

  predicate IsHeadingSeparator(c: char) { c == '、' || c == '．' || c == '.' }

  /** Where a greedy `\s*` starting at `i` stops. */
  function SkipWhitespace(s: string, i: nat): (j: nat)
    requires i <= |s|
    ensures i <= j <= |s|
    decreases |s| - i
  {
    if i < |s| && IsWhitespace(s[i]) then SkipWhitespace(s, i + 1) else i
  }

  /**
   * The heading pattern tried at position `p`: where the match ends. Every
   * optional part is greedy and giving any of it back cannot help, because
   * the next part starts with a character the optional part cannot have
   * consumed (`#` is not whitespace; the number and the title's first
   * character are neither `#`, whitespace nor a separator), so the first
   * try is the only one.
   */
  function HeadingAt(s: string, p: nat, h: HeadingPattern): (e: Option<nat>)
    ensures e.Some? ==> p < e.value <= |s|
  {
    if p + |h.hashes| > |s| || s[p..p + |h.hashes|] != h.hashes then None
    else AfterHashes(s, p + |h.hashes|, h)
  }

  /** After the required `#`s: one optional `#`, whitespace, the number, then the rest. */
  function AfterHashes(s: string, i: nat, h: HeadingPattern): (e: Option<nat>)
    requires i <= |s|
    ensures e.Some? ==> i < e.value <= |s|
  {
    var j := SkipWhitespace(s, if i < |s| && s[i] == '#' then i + 1 else i);
    if j == |s| || s[j] != h.number then None else AfterNumber(s, j + 1, h)
  }

  /** After the number: one optional separator, whitespace, then the title. */
  function AfterNumber(s: string, i: nat, h: HeadingPattern): (e: Option<nat>)
    requires i <= |s|
    ensures e.Some? ==> i <= e.value <= |s|
  {
    var k := SkipWhitespace(s, if i < |s| && IsHeadingSeparator(s[i]) then i + 1 else i);
    if k + |h.title| <= |s| && s[k..k + |h.title|] == h.title then Some(k + |h.title|) else None
  }

  /** The lazy `([\s\S]*?)` followed by `h`: the first position at or after `from` where `h` matches. */
  function FirstHeading(s: string, from: nat, h: HeadingPattern): (e: Option<nat>)
    ensures e.Some? ==> from <= e.value <= |s|
    decreases |s| - from
  {
    if from > |s| then None
    else if HeadingAt(s, from, h).Some? then Some(from)
    else FirstHeading(s, from + 1, h)
  }

  /** Where the captured text may end: before the closing heading, or, for `$`, at the end of the input. */
  function SectionEnd(s: string, from: nat, close: Option<HeadingPattern>): (e: Option<nat>)
    ensures e.Some? ==> from <= e.value <= |s|
  {
    match close
    case None => if from <= |s| then Some(|s|) else None
    case Some(h) => FirstHeading(s, from, h)
  }

  /**
   * `s.match(open([\s\S]*?)close)[1]` with the search starting at `p`: the
   * leftmost position where the opening heading matches and a closing
   * heading follows, and the text between the two.
   */
  function Section(s: string, p: nat, open: HeadingPattern, close: Option<HeadingPattern>): Option<string>
    decreases |s| - p
  {
    if p > |s| then None
    else
      match HeadingAt(s, p, open)
      case None => Section(s, p + 1, open, close)
      case Some(c) =>
        match SectionEnd(s, c, close)
        case None => Section(s, p + 1, open, close)
        case Some(e) => Some(s[c..e])
  }

  /** `text.split('\n\n').filter(p => p.trim()).map(p => p.trim())`. */
  function Paragraphs(pieces: seq<string>): seq<string> {
    if pieces == [] then []
    else (if Trim(pieces[0]) == [] then [] else [Trim(pieces[0])]) + Paragraphs(pieces[1..])
  }

  /** The items of a list section: its trimmed text cut at blank lines. */
  function Items(text: string): seq<string> {
    Paragraphs(Split(Trim(text), "\n\n"))
  }

  /** The `sections` object `parseReviewOutput` fills in. */
  datatype Sections = Sections(revisedContract: string, riskList: seq<string>, recommendations: seq<string>, complianceConclusion: string)

  /** The sections found in a reply: a field whose headings are not found keeps its empty default. */
  function ParsedSections(output: string): Sections {
    Sections(
      match Section(output, 0, RevisedContractHeading, Some(ReviewOpinionHeading)) case Some(t) => Trim(t) case None => "",
      match Section(output, 0, RiskListHeading, Some(RecommendationsHeading)) case Some(t) => Items(t) case None => [],
      match Section(output, 0, RecommendationsHeading, Some(ConclusionHeading)) case Some(t) => Items(t) case None => [],
      match Section(output, 0, ConclusionHeading, None) case Some(t) => Trim(t) case None => "")
  }

  /** `parseReviewOutput`: start from the empty sections and fill in each one whose headings are found. */
  method ParseReviewOutput(output: string) returns (sections: Sections)
    ensures sections == ParsedSections(output)
  {
    sections := Sections("", [], [], "");
    var contractMatch := Section(output, 0, RevisedContractHeading, Some(ReviewOpinionHeading));
    if contractMatch.Some? {
      sections := sections.(revisedContract := Trim(contractMatch.value));
    }
    var riskMatch := Section(output, 0, RiskListHeading, Some(RecommendationsHeading));
    if riskMatch.Some? {
      var riskText := Trim(riskMatch.value);
      sections := sections.(riskList := Paragraphs(Split(riskText, "\n\n")));
    }
    var recommendMatch := Section(output, 0, RecommendationsHeading, Some(ConclusionHeading));
    if recommendMatch.Some? {
      var recommendText := Trim(recommendMatch.value);
      sections := sections.(recommendations := Paragraphs(Split(recommendText, "\n\n")));
    }
    var complianceMatch := Section(output, 0, ConclusionHeading, None);
    if complianceMatch.Some? {
      sections := sections.(complianceConclusion := Trim(complianceMatch.value));
    }
  }

  const ParseFailureNotice: string := "解析失败，请查看原始输出"

  /** The value of the `catch` branch: the whole reply as the revised contract, no items, and a notice. */
  function ParseFailure(output: string): Sections {
    Sections(output, [], [], ParseFailureNotice)
  }

  // ---------------------------------------------------------------------------
  // The prompt

  datatype ReviewCategory = ReviewCategory(category: string, items: seq<string>)

  datatype Template = Template(name: string, description: string, reviewPoints: seq<ReviewCategory>,
                               riskKeywords: seq<string>, complianceChecks: seq<string>)

  /** `items.map(item => marker + item)`. */
  function Bullets(marker: string, items: seq<string>): seq<string> {
    seq(|items|, i requires 0 <= i < |items| => marker + items[i])
  }

  /** A category of review points: its `###` heading and one indented bullet per item. */
  function CategoryText(c: ReviewCategory): string {
    "### " + c.category + "\n" + Join(Bullets("  - ", c.items), "\n")
  }

  function ReviewPointsText(categories: seq<ReviewCategory>): string {
    Join(seq(|categories|, i requires 0 <= i < |categories| => CategoryText(categories[i])), "\n\n")
  }

  const TaskHeading: string := "# 合同审查任务\n\n## 待审查合同\n"

  /** The heading lines the prompt asks the model to write. */
  const RevisedContractLine: string := "### 一、修订版合同"
  const ReviewOpinionLine: string := "### 二、审查意见书"
  const RiskListLine: string := "#### 1. 风险点清单"
  const RecommendationsLine: string := "#### 2. 修订建议"
  const ConclusionLine: string := "#### 3. 合规结论"

  /** The fixed end of the prompt: the output format, with the headings the parser looks for. */
  const OutputRequirements: string := Concat(OutputParts)

  /** The output format piece by piece: each heading line between the instructions around it. */
  const OutputParts: seq<string> :=
    [OutputIntro, RevisedContractLine, RevisionRules, ReviewOpinionLine, "\n\n",
     RiskListLine, RiskListRules, RecommendationsLine, RecommendationsRules, ConclusionLine, ConclusionRules]

  const OutputIntro: string := "---\n\n## 输出要求\n\n请按以下格式输出审查结果（严格遵循格式，使用中文）：\n\n"
  const RevisionRules: string :=
    "\n\n在原合同基础上进行修订，使用以下标记：\n- 新增或修改的内容用【新增：XXX】标记\n- 建议删除的内容用【删除：XXX】标记\n- 保留原有编号和层级结构\n\n"
  const RiskListRules: string := "\n列出发现的所有风险点，按条款序号排列，每项包括：\n- 条款序号\n- 风险描述\n- 风险等级（高/中/低）\n\n"
  const RecommendationsRules: string := "\n针对每个风险点，提供具体的修订建议，包括：\n- 建议修订的条款\n- 修订理由\n- 修订后的参考文本\n\n"
  const ConclusionRules: string :=
    "\n总体合规性评估，包括：\n- 主要合规问题汇总\n- 合规建议\n- 整体风险评级\n\n注意：\n1. 所有输出使用中文\n2. 保持专业的法律语言风格\n3. 修订建议要具体、可操作\n4. 标注要清晰，便于区分原文和修改内容"

  /** `buildReviewPrompt`: the task heading, the contract, the template's part, then the output format. */
  function BuildReviewPrompt(contractText: string, t: Template): string {
    TaskHeading + contractText + TemplateText(t) + OutputRequirements
  }

  /** The template's part of the prompt: its name and use, review points, risk keywords and compliance checks. */
  function TemplateText(t: Template): string {
    "\n\n## 审查模板\n**模板名称**: " + t.name
    + "\n**适用场景**: " + t.description
    + "\n\n## 审查要点\n" + ReviewPointsText(t.reviewPoints)
    + "\n\n## 风险关键词\n请特别关注以下关键词及相关条款：" + Join(t.riskKeywords, "、")
    + "\n\n## 合规性检查\n" + Join(Bullets("- ", t.complianceChecks), "\n")
    + "\n\n"
  }

  // ---------------------------------------------------------------------------
  // One review

  datatype GenerationOptions = GenerationOptions(temperature: real, maxTokens: nat)

  /** The options every review asks the model for. */
  const ReviewOptions: GenerationOptions := GenerationOptions(0.5, 8192)

  /** The result object: the review's identity, the parsed sections spread in, then the raw reply. */
  function AssembleResult(templateName: string, modelKey: string, contractText: string, parsed: Sections, output: string): ReviewResult {
    ReviewResult(true, templateName, modelKey, contractText,
      parsed.revisedContract, parsed.riskList, parsed.recommendations, parsed.complianceConclusion, output)
  }

  /**
   * `reviewContract`: look the template up, build the prompt, call the model
   * (`generate` stands for `generateContent` with the configuration), parse
   * and assemble. Errors propagate unchanged.
   */
  function ReviewContract(contractText: string, templateId: string, modelKey: string,
                          lookup: string -> Option<Template>,
                          generate: (string, string, GenerationOptions) -> Result<string>): Result<ReviewResult>
  {
    match lookup(templateId)
    case None => Err("未找到审查模板: " + templateId)
    case Some(t) =>
      match generate(modelKey, BuildReviewPrompt(contractText, t), ReviewOptions)
      case Err(e) => Err(e)
      case Ok(output) => Ok(AssembleResult(t.name, modelKey, contractText, ParsedSections(output), output))
  }

  // ---------------------------------------------------------------------------
  // Review in chunks

  function Flatten<T>(xss: seq<seq<T>>): seq<T> {
    if xss == [] then [] else xss[0] + Flatten(xss[1..])
  }

  /** `xs.map(f)`. */
  function Map<A, B>(xs: seq<A>, f: A -> B): seq<B> {
    seq(|xs|, i requires 0 <= i < |xs| => f(xs[i]))
  }

  function RevisedContractOf(r: ReviewResult): string { r.revisedContract }
  function RiskListOf(r: ReviewResult): seq<string> { r.riskList }
  function RecommendationsOf(r: ReviewResult): seq<string> { r.recommendations }
  function ConclusionOf(r: ReviewResult): string { r.complianceConclusion }
  function RawOutputOf(r: ReviewResult): string { r.rawOutput }

  /** The merged result: identity from the first chunk and the model key, every other field chunk by chunk. */
  function Merge(results: seq<ReviewResult>, chunks: seq<string>, modelKey: string): ReviewResult
    requires results != []
  {
    ReviewResult(true, results[0].template, modelKey, Join(chunks, "\n\n"),
      Join(Map(results, RevisedContractOf), "\n\n"),
      Flatten(Map(results, RiskListOf)),
      Flatten(Map(results, RecommendationsOf)),
      Join(Map(results, ConclusionOf), "\n\n"),
      Join(Map(results, RawOutputOf), "\n\n---\n\n"))
  }

  /** The chunks reviewed one after the other: every result in order, or the first error. */
  function ReviewAll(chunks: seq<string>, review: string -> Result<ReviewResult>): Result<seq<ReviewResult>> {
    if chunks == [] then Ok([])
    else
      match review(chunks[0])
      case Err(e) => Err(e)
      case Ok(r) =>
        match ReviewAll(chunks[1..], review)
        case Err(e) => Err(e)
        case Ok(rs) => Ok([r] + rs)
  }

  /** What reading `results[0].template` throws when there are no results. */
  const NoFirstResult: string := "Cannot read properties of undefined (reading 'template')"

  function ChunkedReview(chunks: seq<string>, modelKey: string, review: string -> Result<ReviewResult>): Result<ReviewResult> {
    match ReviewAll(chunks, review)
    case Err(e) => Err(e)
    case Ok(results) => if results == [] then Err(NoFirstResult) else Ok(Merge(results, chunks, modelKey))
  }

  /** `results` followed by what the remaining chunks give, as one outcome. */
  function Prepend(results: seq<ReviewResult>, rest: Result<seq<ReviewResult>>): Result<seq<ReviewResult>> {
    match rest
    case Err(e) => Err(e)
    case Ok(more) => Ok(results + more)
  }

  /**
   * `reviewContractInChunks`: review the chunks in index order, pushing each
   * result; the first failure ends it; then merge. `review` stands for
   * `reviewContract` with the template, the model and the configuration.
   */
  method ReviewContractInChunks(chunks: seq<string>, modelKey: string, review: string -> Result<ReviewResult>)
    returns (merged: Result<ReviewResult>)
    ensures merged == ChunkedReview(chunks, modelKey, review)
  {
    var results: seq<ReviewResult> := [];
    var i := 0;
    assert chunks[0..] == chunks;
    PrependNothing(ReviewAll(chunks, review));
    while i < |chunks|
      invariant i <= |chunks|
      invariant ReviewAll(chunks, review) == Prepend(results, ReviewAll(chunks[i..], review))
    {
      var result := review(chunks[i]);
      assert chunks[i..][0] == chunks[i] && chunks[i..][1..] == chunks[i + 1..];
      if result.Err? {
        assert ReviewAll(chunks[i..], review) == Err(result.error);
        return Err(result.error);
      }
      PrependOne(results, result.value, ReviewAll(chunks[i + 1..], review));
      results := results + [result.value];
      i := i + 1;
    }
    assert chunks[i..] == [];
    assert ReviewAll(chunks, review) == Ok(results) by {
      assert results + [] == results;
    }
    if results == [] {
      return Err(NoFirstResult);
    }
    merged := Ok(Merge(results, chunks, modelKey));
  }

  lemma PrependNothing(r: Result<seq<ReviewResult>>)
    ensures Prepend([], r) == r
  {
    if r.Ok? {
      assert [] + r.value == r.value;
    }
  }

  lemma PrependOne(results: seq<ReviewResult>, r: ReviewResult, rest: Result<seq<ReviewResult>>)
    ensures Prepend(results, Prepend([r], rest)) == Prepend(results + [r], rest)
  {
    if rest.Ok? {
      assert results + ([r] + rest.value) == results + [r] + rest.value;
    }
  }
}
