# Contract review site: document structuring core

This project models, in Dafny, the string-level core of a contract review
web application. A contract is sent to a large language model together with
a review prompt. The model's free-form reply is cut back into sections, and
the result is rendered as Word paragraphs, as an HTML report and as a results
panel in the browser. The model covers:

- **Clause detection** (`detectClauseHierarchy`, module `ClauseDetection`).
  The text is split on `\n`. Each trimmed, non-blank line is matched against
  four numbering conventions in priority order: dotted numbers `1.2.3、`,
  articles `第X条`, `(一)` and `(1)`/`（1）`. The first convention that
  matches yields a clause with a level, a number, a content and a 1-based line
  number. The regular expressions are written out as matchers that follow
  the JavaScript engine's backtracking order. In particular, the dotted number
  is tried longest first, and `\s*(.+)$` gives back one whitespace character
  when nothing else is left. `.` refuses the four line terminators.
- **Prompt and reply** (`buildReviewPrompt` and `parseReviewOutput`, module
  `ReviewProcessor`). The prompt is assembled from a template. Four sections
  are extracted from a reply between numbered Chinese headings at one of two
  weights: the lazy `([\s\S]*?)` stops at the first closing heading, and the
  last section runs to the end of the text. The two lists are cut into
  trimmed paragraphs on blank lines.
- **Review and merge** (`reviewContract` and `reviewContractInChunks`). The
  template lookup and the model call are function parameters. A failure of
  either ends the review with an error. Chunks are reviewed in order and the
  first failure aborts the merge. The merge joins the text fields with blank
  lines, joins the raw replies with a `---` rule and concatenates the lists.
- **Markup and renderers** (`documentGenerator.js`, modules `Markers` and
  `DocumentGenerator`).
  - The lazy marker pattern `【新增[：:](.+?)】` (and `【删除…】`) is a scanner.
  - The revised-contract tokenizer is modelled as written. It processes all
    additions first and all deletions second, each by `split`/`join` on the
    remaining text.
  - The review report appears twice: as a list of Word paragraphs and as the
    HTML string, with the same fallback sentences (`未发现明显风险点`,
    `无需修订`, `待评估`).
- **Adapter helpers** (`openai-compatible.js`, module `OpenAICompatible`):
  - the constructor's trailing-slash trim;
  - `isConfigured`;
  - `chunkText`, which slices the text every `chunkSize` UTF-16 code units.
    Its input is the text's code units (`Utf16`), so a chunk boundary can fall
    between the two halves of a surrogate pair.
- **Results page** (`ResultsPage.jsx`, module `ResultsPage`). It covers
  `formatRevisedContract`, which does the two global replacements line by
  line, and the texts the review panel shows, with their fallbacks.

Operations that change values step by step in the source are methods with
loops. Each is proved equal to a specification function:

- `DetectClauseHierarchy`, `VisitLines` and `VisitLine`;
- `ParseReviewOutput`;
- `ReviewContractInChunks`;
- `PushMarkers`, `TokenizeLine` and `RevisedContractDocx`;
- `ItemsDocx`, `ConclusionDocx` and `ReviewReportDocx`;
- `ChunkText`.

The adapter is a class whose constructor sets its fields. The properties
the code promises are proved as lemmas about those functions.

Strings are sequences of Unicode characters, while a JavaScript string is a
sequence of UTF-16 code units. The two readings agree on everything the model
does with strings: every separator and bracket it looks for lies below
U+10000, and `.` accepts both halves of a surrogate pair. The one exception is
`chunkText`, which counts code units, and it is modelled on code units.

Some consequences of the code as written are easy to miss; each is proved:

- **`1.1 标题` reads as number `1`, level 1, content `1 标题`.** The dotted
  pattern needs a separator after the number, so the engine backs off to
  `1` and uses the dot as the separator (`ClauseHeadings.BareDotRetreats`).
- **Additions and deletions can come out of order.** A line with a deletion
  in front of an addition keeps the deletion's markup inside its first
  plain run. The struck payload then comes last, after the tail
  (`RevisionProperties.DeletionBeforeAddition`). The browser preview,
  which replaces in place, keeps every marker where it was
  (`ResultsPage.FormatBlocks`). Both facts are proved for lines whose plain
  text and payloads hold no `【`.
- **A merge of one chunk is not the chunk's result unchanged.** It sets
  `success`, `model` and `originalContract` (`ReviewProperties.MergeSingle`).
  For a real review these already hold those values, so the two agree
  (`ReviewProperties.SingleChunk`), provided the model gives the same reply
  to the same prompt.
- **An empty chunk list throws instead of merging.** Merging reads
  `results[0].template`, which fails with a `TypeError`. This is modelled
  as an error result.
- **The text shown for a marked line can itself hold a marker.** In
  `【【新增：新增：z】】` the scan skips the stray `【` and styles `新增：z`.
  The text shown, `【新增：z】`, would be styled again by a second pass
  (`RevisionProperties.VisibleTextWithMarker`). On a line whose markers are
  well formed and whose additions come first, the shown text holds no `【`
  (`RevisionProperties.VisibleTextIsPlain`).
- **The `catch` fallback of `parseReviewOutput` cannot be reached from a
  string input.** Every operation in the `try` block is total on strings.
  The fallback is modelled on its own as `ParseFailure`.

## Model

| member | source | states |
|---|---|---|
| `ClauseDetection.DetectClauseHierarchy` | backend/parsers/fileParser.js:66-101 | the method returns exactly the clauses of `DetectClauses`: the `\n`-split lines visited in order |
| `ClauseDetection.VisitLines` | backend/parsers/fileParser.js:78-98 | the `forEach` loop collects, for lines 1..n in order, what each line yields |
| `ClauseDetection.VisitLine` | backend/parsers/fileParser.js:79-96 | one callback appends the clause of the first matching pattern of the trimmed line, or nothing for a blank or unmatched line |
| `ClauseDetection.RunFromSpec` | backend/parsers/fileParser.js:73-75 | a greedy character-class run takes only class characters and stops at the end or at the first character outside the class |
| `ClauseDetection.LongestSpec` | backend/parsers/fileParser.js:72 | the backtracking search for the number returns the longest candidate, and returns none only when no length works |
| `ClauseDetection.LevelCountsDots` | backend/parsers/fileParser.js:87 | the level is one more than the number of dots, in both branches of the conditional |
| `ClauseDetection.FirstInSpec` | backend/parsers/fileParser.js:82-96 | the pattern loop with `break` stops at the first pattern that matches, and finds none only when no pattern matches |
| `ClauseProperties.DottedShape` | backend/parsers/fileParser.js:72 | a dotted match captures a dotted-number prefix of the line and a content that is a non-empty, terminator-free suffix |
| `ClauseProperties.BracketedShape` | backend/parsers/fileParser.js:73-75 | the three bracketed patterns capture an opening character, a class run, a closing character and a content suffix |
| `ClauseProperties.MatchContent` | backend/parsers/fileParser.js:72-75 | every pattern captures a non-empty suffix of the line without line terminators as content |
| `ClauseProperties.NonDottedLevelOne` | backend/parsers/fileParser.js:73-75 | numbers captured by the three non-dotted patterns hold no dot, so their level is 1 |
| `ClauseProperties.ArticleShape` | backend/parsers/fileParser.js:73 | an article match opens with `第`, closes with `条` and captures the numerals between them |
| `ClauseProperties.ChineseParenShape` | backend/parsers/fileParser.js:74 | the Chinese-numeral pattern accepts only half-width parentheses on both sides |
| `ClauseProperties.ArabicParenShape` | backend/parsers/fileParser.js:75 | the Arabic pattern accepts either parenthesis width on each side independently and captures digits only |
| `ClauseProperties.FirstPatternWins` | backend/parsers/fileParser.js:82-96 | when pattern i is the first to match, the clause is built from pattern i's captures, whatever later patterns give |
| `ClauseProperties.ClauseIffSomePatternMatches` | backend/parsers/fileParser.js:79-96 | a line yields a clause if and only if its trimmed form is non-empty and some pattern matches it |
| `ClauseProperties.BlankLineNoClause` | backend/parsers/fileParser.js:79-80 | empty and whitespace-only lines yield no clause |
| `ClauseProperties.ClauseOfLineShape` | backend/parsers/fileParser.js:82-94 | a clause carries its line number, a level equal to dots plus one, a content suffix of the trimmed line, and the captures of some pattern |
| `ClauseProperties.NonDottedClauseLevelOne` | backend/parsers/fileParser.js:87 | a clause found when the dotted pattern does not match has level 1 |
| `ClauseProperties.DottedSegments` | backend/parsers/fileParser.js:72 | `split('.')` of a dotted number gives non-empty digit groups |
| `ClauseProperties.LevelIsSegmentCount` | backend/parsers/fileParser.js:87 | the level equals the number of pieces `split('.')` gives, also without a dot |
| `ClauseProperties.LongestCandidateIs` | backend/parsers/fileParser.js:72 | the dotted pattern settles on a candidate when no longer prefix is a candidate |
| `ClauseProperties.WellFormedDotted` | backend/parsers/fileParser.js:72 | a dotted number, optional whitespace, a separator, optional whitespace and visible content are captured as exactly that number and content |
| `ClauseProperties.WellFormedDottedClause` | backend/parsers/fileParser.js:72-94 | such a heading line yields the clause whose level is its count of dot-separated segments |
| `ClauseProperties.CollectSound` | backend/parsers/fileParser.js:78-98 | every collected clause comes from its own line number, and line numbers strictly increase along the list |
| `ClauseProperties.CollectComplete` | backend/parsers/fileParser.js:78-98 | every line that yields a clause contributes it |
| `ClauseProperties.CollectAtMostNonBlank` | backend/parsers/fileParser.js:79-80 | there are no more clauses than non-blank lines |
| `ClauseProperties.DetectClausesSpec` | backend/parsers/fileParser.js:66-101 | the clauses are exactly those the `\n`-separated lines yield, once each, in line order, counted from 1 in the untrimmed line list |
| `ClauseHeadings.WellFormedBracketed` | backend/parsers/fileParser.js:73-75 | an opening character, a class run, a closing character outside the class, whitespace and visible content are captured exactly |
| `ClauseHeadings.ArticleHeadingClause` | backend/parsers/fileParser.js:73 | `第X条 text` yields a level-1 clause with number X and content `text` |
| `ClauseHeadings.ChineseParenHeadingClause` | backend/parsers/fileParser.js:74 | `(一) text` with half-width parentheses yields a level-1 clause |
| `ClauseHeadings.ArabicParenHeadingClause` | backend/parsers/fileParser.js:75 | `(1) text` with either parenthesis width on either side yields a level-1 clause |
| `ClauseHeadings.FullWidthParenNeedsDigits` | backend/parsers/fileParser.js:72-75 | a line opening with a full-width `（` not followed by a digit is no heading, so `（一）` is not recognised |
| `ClauseHeadings.DottedNeedsDigit` | backend/parsers/fileParser.js:72 | the dotted pattern matches only a line that starts with a digit |
| `ClauseHeadings.DigitsAreDotted` | backend/parsers/fileParser.js:72 | a run of digits is a one-segment dotted number |
| `ClauseHeadings.DottedCons` | backend/parsers/fileParser.js:72 | digits, a dot and a dotted number form a dotted number with one more segment |
| `ClauseHeadings.BareDotRetreats` | backend/parsers/fileParser.js:72 | `N.d text` with no separator after `d` is read as number N, with the dot as separator and `d text` as content |
| `ClauseExamples.ArticleHeading` | backend/parsers/fileParser.js:73 | `第三条 付款方式` yields level 1, number `三`, content `付款方式` |
| `ClauseExamples.ChineseParenHeading` | backend/parsers/fileParser.js:74 | `(一)总则` yields level 1, number `一`, content `总则` |
| `ClauseExamples.ArabicParenHeadings` | backend/parsers/fileParser.js:75 | `（1）付款` and `(1）付款` both yield number `1`, content `付款` |
| `ClauseExamples.FullWidthChineseParenIgnored` | backend/parsers/fileParser.js:74 | `（一）总则` yields nothing |
| `ClauseExamples.DottedHeading` | backend/parsers/fileParser.js:72 | `1.2.3、内容` yields level 3, number `1.2.3`, content `内容` |
| `ClauseExamples.BareDotHeading` | backend/parsers/fileParser.js:72 | `1.1 标题` yields level 1, number `1`, content `1 标题` |
| `ClauseExamples.BlankHeading` | backend/parsers/fileParser.js:79-80 | a line of spaces and tabs yields nothing |
| `JsStrings.LeadingWhitespaceSpec` | backend/parsers/fileParser.js:79 | the leading run that `trim` removes is all whitespace |
| `JsStrings.TrailingWhitespaceSpec` | backend/parsers/fileParser.js:79 | the trailing run that `trim` removes is all whitespace |
| `JsStrings.TrimSpec` | backend/parsers/fileParser.js:79-80 | `trim` gives a string that neither starts nor ends with whitespace, empty if and only if the input is all whitespace |
| `JsStrings.TrimDecomposes` | backend/parsers/fileParser.js:79 | the input is leading whitespace, then the result, then trailing whitespace |
| `JsStrings.TrimOfTrimmed` | backend/review/processor.js:107-110 | trimming a trimmed string changes nothing |
| `JsStrings.IndexOfSpec` | backend/generators/documentGenerator.js:52 | the search finds the first occurrence at or after the start, and finds none only when there is none |
| `JsStrings.IndexOfAt` | backend/generators/documentGenerator.js:52 | with no earlier occurrence, the search stops at a given occurrence |
| `JsStrings.SplitAbsent` | backend/generators/documentGenerator.js:203 | splitting a text that holds no separator gives the whole text as its only piece |
| `JsStrings.JoinSplit` | backend/generators/documentGenerator.js:52-62 | joining the pieces of `split` with the same separator gives back the text |
| `JsStrings.SplitPiecesFree` | backend/review/processor.js:109 | no piece of a split contains the separator |
| `JsStrings.SplitAtFirst` | backend/generators/documentGenerator.js:52-62 | `parts[0]` is the text before the first occurrence and `parts.slice(1).join(m)` the text after it, or `""` when there is none |
| `JsStrings.SplitJoin` | backend/review/processor.js:109 | joining separator-free pieces and splitting again gives back the pieces |
| `JsStrings.SplitCharCount` | backend/parsers/fileParser.js:67 | splitting on one character gives one more piece than the character's occurrences |
| `JsStrings.CountCharAppend` | backend/parsers/fileParser.js:87 | the count of a character over a concatenation is the sum of the counts |
| `JsStrings.PartAt` | backend/generators/documentGenerator.js:229-315 | a text written part by part holds each part at the sum of the earlier lengths |
| `Markers.LazyCloseSpec` | backend/generators/documentGenerator.js:41 | the lazy group stops at the first `】`, crossing only characters `.` accepts |
| `Markers.LazyCloseAt` | backend/generators/documentGenerator.js:41 | the lazy group does stop at that first `】` |
| `Markers.ScanRematch` | backend/generators/documentGenerator.js:41-56 | every marker text the global match finds is matched whole when matched again on its own |
| `Markers.MarkupMatches` | backend/generators/documentGenerator.js:41 | a well-formed marker is matched whole, whatever follows it |
| `Markers.MarkupOtherKind` | backend/generators/documentGenerator.js:41-43 | a marker of one kind is not matched by the other kind's pattern |
| `Markers.ScanSkip` | backend/generators/documentGenerator.js:41-43 | the global match passes over text without `【` |
| `Markers.ScanMarkup` | backend/generators/documentGenerator.js:41-43 | the global match finds a well-formed marker of its kind and passes over one of the other kind |
| `Markers.ScanBlocks` | backend/generators/documentGenerator.js:41-43 | on a line of well-formed markers whose plain text holds no `【`, each global match finds exactly the markers of its kind, in order |
| `Markers.EmptyMarkerIgnored` | backend/generators/documentGenerator.js:41-43 | `【新增：】` with nothing inside is matched by neither pattern |
| `Markers.NoOpenScan` | backend/generators/documentGenerator.js:41-45 | a text without `【` holds no marker |
| `Markers.PayloadOfMarkup` | backend/generators/documentGenerator.js:56 | matched on its own, a marker's capture is the payload written in it |
| `Markers.MarkTextsOfKind` | backend/generators/documentGenerator.js:41 | markers all of one kind are all found, one text per marker |
| `DocumentGenerator.PushMarkers` | backend/generators/documentGenerator.js:50-81 | the `forEach` over the matches of one kind yields the runs and remaining text of `Consume` |
| `DocumentGenerator.ConsumeStep` | backend/generators/documentGenerator.js:51-63 | one turn of the loop keeps the pushed runs and the remaining text in step with `Consume` |
| `DocumentGenerator.PushMarker` | backend/generators/documentGenerator.js:52-62 | one callback pushes the plain text before the marker if non-empty, then the styled payload, and keeps the text after it |
| `DocumentGenerator.TokenizeLine` | backend/generators/documentGenerator.js:41-85 | the runs of a line are its additions' runs, then its deletions' runs, then the non-empty rest |
| `DocumentGenerator.RevisedContractDocx` | backend/generators/documentGenerator.js:19-91 | the paragraphs are the title, then one paragraph per `\n`-separated line |
| `DocumentGenerator.LineDocx` | backend/generators/documentGenerator.js:35-90 | a blank line gives an empty paragraph, a line with markers its runs, and any other line its text |
| `DocumentGenerator.ItemsDocx` | backend/generators/documentGenerator.js:159-170 | a list section is one numbered paragraph per item, or the fallback sentence |
| `DocumentGenerator.ConclusionDocx` | backend/generators/documentGenerator.js:203-206 | the conclusion is one paragraph per line |
| `DocumentGenerator.ReviewReportDocx` | backend/generators/documentGenerator.js:115-206 | the report is the title, the template and model lines, then the three sections |
| `RevisionProperties.LineParagraphsShape` | backend/generators/documentGenerator.js:34-91 | there is one paragraph per line, in line order |
| `RevisionProperties.RevisedParagraphCount` | backend/generators/documentGenerator.js:21-91 | the document has the title, then line i as paragraph i + 1, with two more paragraphs than line feeds |
| `RevisionProperties.BlankLineParagraph` | backend/generators/documentGenerator.js:35-37 | a line becomes the empty paragraph if and only if it is blank |
| `RevisionProperties.MarkerFreeLine` | backend/generators/documentGenerator.js:88-89 | a non-blank line without `【` is kept whole as its paragraph's text |
| `RevisionProperties.EmptyMarkerLine` | backend/generators/documentGenerator.js:41-45 | a line `【新增：】` stays plain text |
| `RevisionProperties.StepShape` | backend/generators/documentGenerator.js:51-63 | one marker gives at most one non-empty plain run, then its payload styled by kind |
| `RevisionProperties.ConsumeShape` | backend/generators/documentGenerator.js:50-81 | every run is non-empty plain text or a styled payload, and the styled runs are the payloads in match order |
| `RevisionProperties.LineRunsShape` | backend/generators/documentGenerator.js:45-85 | the styled runs are the addition payloads, then the deletion payloads, one per match |
| `RevisionProperties.FirstOccurrenceAfter` | backend/generators/documentGenerator.js:52-62 | with no occurrence in the plain text before it, the split cuts at the marker written after that text |
| `RevisionProperties.StepOnBlock` | backend/generators/documentGenerator.js:52-62 | on plain text followed by a marker, one step gives the plain run and the payload, and leaves the rest |
| `RevisionProperties.ConsumeAll` | backend/generators/documentGenerator.js:50-64 | consuming the matches of markers of one kind gives their runs and leaves what follows |
| `RevisionProperties.ScanOrdered` | backend/generators/documentGenerator.js:41-43 | on additions, then deletions, then plain text, each match finds exactly its own markers |
| `RevisionProperties.OrderedLine` | backend/generators/documentGenerator.js:45-87 | when additions precede deletions, all markers are well formed and neither the plain text nor a payload holds a `【`, the runs are each addition's text and payload, each deletion's, then the tail |
| `RevisionProperties.OrderedLineText` | backend/generators/documentGenerator.js:45-87 | on such a line (`【`-free plain text and payloads) the run texts read back the line with every marker replaced by its payload |
| `RevisionProperties.MarkedLineNotBlank` | backend/generators/documentGenerator.js:35-45 | a line in which a marker is found is not blank |
| `RevisionProperties.DeletionBeforeAddition` | backend/generators/documentGenerator.js:50-85 | in `a【删除：x】b【新增：y】c` the deletion markup stays inside the first plain run and its struck payload comes after `c` |
| `RevisionProperties.QuirkScans` | backend/generators/documentGenerator.js:41-43 | on such a line each match finds its one marker |
| `RevisionProperties.QuirkAdditions` | backend/generators/documentGenerator.js:50-64 | the addition pass pushes `a`, the deletion markup and `b` as one run, then `y`, and leaves `c` |
| `RevisionProperties.RevealedNoOpen` | backend/generators/documentGenerator.js:52-62 | well-formed blocks with each marker replaced by its payload hold no `【` |
| `RevisionProperties.VisibleTextIsPlain` | backend/generators/documentGenerator.js:35-89 | on a well-formed line, additions first, the shown text has no marker and tokenizes again to one plain paragraph |
| `RevisionProperties.WrappedAddition` | backend/generators/documentGenerator.js:41-85 | an addition marker between a stray `【` and `】` is styled, the brackets left plain around it |
| `RevisionProperties.WrappedAdditionText` | backend/generators/documentGenerator.js:45-85 | those three runs read back as the payload between the brackets |
| `RevisionProperties.VisibleTextWithMarker` | backend/generators/documentGenerator.js:35-89 | a line such as `【【新增：新增：z】】` shows `【新增：z】`, which holds an addition marker: for any colon and clean payload `y`, `【【新增：新增：y】】` shows `【新增：y】` |
| `RevisionProperties.QuirkDeletions` | backend/generators/documentGenerator.js:67-85 | the deletion pass pushes `c` as plain text, then the struck payload, and leaves nothing |
| `ReportProperties.DecimalRoundTrip` | backend/generators/documentGenerator.js:163 | `${n}` is digits only, without a leading zero, and denotes n |
| `ReportProperties.NumberedTextsIndex` | backend/generators/documentGenerator.js:160-167 | item j is shown as `j + 1`, `. ` and the item, in list order |
| `ReportProperties.NumberedParagraphsTexts` | backend/generators/documentGenerator.js:160-167 | the numbered paragraphs carry exactly those texts, one per item |
| `ReportProperties.DocxItems` | backend/generators/documentGenerator.js:159-192 | a Word list section shows the numbered texts, or the single fallback sentence |
| `ReportProperties.HtmlDivsTexts` | backend/generators/documentGenerator.js:302 | the HTML list is the numbered texts, each in a `<div>` of the section's class |
| `ReportProperties.HtmlItemsAgree` | backend/generators/documentGenerator.js:301-308 | the HTML report shows the same texts as the Word report: `<div>`s, or the fallback in a `<p>` |
| `ReportProperties.ReportOutline` | backend/generators/documentGenerator.js:119-206 | the Word report's headings are exactly the title and the three section headings, in order |
| `ReportProperties.ConclusionTexts` | backend/generators/documentGenerator.js:203-206 | the conclusion paragraphs carry exactly the conclusion's lines |
| `ReportProperties.ConclusionAgrees` | backend/generators/documentGenerator.js:203-206 | the Word conclusion lines, joined back with line feeds, are the text the HTML report puts in `<pre>` |
| `ResultsPage.FormattedLineCount` | frontend/src/pages/ResultsPage.jsx:23-41 | an empty text gives nothing; otherwise there is one formatted line per `\n`-separated line |
| `ResultsPage.ReplaceSkip` | frontend/src/pages/ResultsPage.jsx:28-31 | a global replacement copies text without `【` unchanged |
| `ResultsPage.MarkerFreeLineShown` | frontend/src/pages/ResultsPage.jsx:26-39 | a line without `【` is shown as written |
| `ResultsPage.SpanNoOpen` | frontend/src/pages/ResultsPage.jsx:30-36 | a span around a payload without `【` holds no `【`, so the second replacement passes over it |
| `ResultsPage.ReplaceMarkup` | frontend/src/pages/ResultsPage.jsx:28-37 | a well-formed marker is replaced by its span when it is of the kind replaced, and copied otherwise |
| `ResultsPage.ReplaceBlocks` | frontend/src/pages/ResultsPage.jsx:28-31 | the addition pass replaces each addition in place and copies everything else |
| `ResultsPage.ReplaceDeletions` | frontend/src/pages/ResultsPage.jsx:34-37 | the deletion pass then replaces each deletion in place |
| `ResultsPage.FormatBlocks` | frontend/src/pages/ResultsPage.jsx:26-40 | on any line of well-formed markers, in any order, whose plain text and payloads hold no `【`, every marker becomes a span of its kind around its payload, in place |
| `ResultsPage.ListMatchesReport` | frontend/src/pages/ResultsPage.jsx:117-143 | a panel list reads exactly as the same list in the reports |
| `ResultsPage.PanelMatchesReports` | frontend/src/pages/ResultsPage.jsx:114-152 | the panel shows the reports' headings, lists or fallback sentences, and conclusion |
| `ResultsPage.ContainsPart` | backend/generators/documentGenerator.js:229-315 | a text written part by part contains each part |
| `ResultsPage.HtmlContains` | backend/generators/documentGenerator.js:229-315 | the HTML report contains each of its parts |
| `ResultsPage.NoRisksEverywhere` | frontend/src/pages/ResultsPage.jsx:117-127 | with no risks, the Word report, the HTML report and the panel all show `未发现明显风险点` |
| `ResultsPage.NoRecommendationsEverywhere` | frontend/src/pages/ResultsPage.jsx:133-143 | with no recommendations, all three show `无需修订` |
| `ResultsPage.PendingEverywhere` | frontend/src/pages/ResultsPage.jsx:147-151 | with an empty conclusion, all three show `待评估` |
| `OpenAICompatible.WithoutTrailingSlash` | backend/llm/models/openai-compatible.js:18 | the base is the input, or the input less its last character exactly when that is `/` |
| `OpenAICompatible.OneSlashOnly` | backend/llm/models/openai-compatible.js:18 | only one trailing slash is removed |
| `OpenAICompatible.EmptyBase` | backend/llm/models/openai-compatible.js:18 | the normalised base is empty exactly for `''` and `'/'` |
| `OpenAICompatible.OpenAICompatibleAdapter.constructor` | backend/llm/models/openai-compatible.js:16-20 | the fields are the key, the trimmed base and the model; `isConfigured` holds if and only if the key and model are non-empty and the base is neither `''` nor `'/'` |
| `OpenAICompatible.ChunkText` | backend/llm/models/openai-compatible.js:87-93 | the loop over the code units returns exactly `Chunks(text, chunkSize)`; an empty text gives no chunk whatever the size |
| `OpenAICompatible.ChunksConcat` | backend/llm/models/openai-compatible.js:89-90 | the chunks from an offset concatenate to the code units from that offset |
| `OpenAICompatible.ChunkLengths` | backend/llm/models/openai-compatible.js:89-90 | every chunk is non-empty, and all but the last hold exactly the chunk size in code units |
| `OpenAICompatible.ChunkCount` | backend/llm/models/openai-compatible.js:89 | there are ⌈(length − offset) / size⌉ chunks, the length counted in code units |
| `OpenAICompatible.ChunksSpec` | backend/llm/models/openai-compatible.js:87-93 | the chunks reproduce the code units, have the promised lengths, number ⌈length / size⌉, and are none exactly for the empty text, whatever the size |
| `OpenAICompatible.Utf16Char` | backend/llm/models/openai-compatible.js:89-90 | a character takes one code unit below U+10000 and two above, as `length` counts it |
| `OpenAICompatible.BasicPlaneUtf16` | backend/llm/models/openai-compatible.js:89-90 | on text below U+10000 the code units are the characters, one each |
| `OpenAICompatible.AstralUtf16` | backend/llm/models/openai-compatible.js:89-90 | a character above U+10000 is a high then a low surrogate |
| `OpenAICompatible.LoneSurrogate` | backend/llm/models/openai-compatible.js:90 | a single surrogate code unit is the encoding of no string of characters |
| `OpenAICompatible.SplitSurrogatePair` | backend/llm/models/openai-compatible.js:87-93 | `chunkText('𠀀', 1)` gives the two surrogates as two chunks, neither the encoding of any string |
| `ReviewProcessor.ParseReviewOutput` | backend/review/processor.js:89-127 | the method gives exactly `ParsedSections`: defaults, replaced by each section whose headings are found |
| `ReviewProcessor.ReviewContractInChunks` | backend/review/processor.js:191-212 | the loop with early exit gives exactly `ChunkedReview` |
| `ParseProperties.ParserHeadingsRecognisable` | backend/review/processor.js:99-122 | each of the five heading patterns opens with one or more `#`s and has a number that is neither `#` nor whitespace |
| `ParseProperties.SkipWhitespaceSpec` | backend/review/processor.js:99 | `\s*` takes whitespace only, and all of it |
| `ParseProperties.HeadingNumber` | backend/review/processor.js:99 | a heading match starts with `#` and reaches its number across `#`s and whitespace only |
| `ParseProperties.NoHashNoHeadings` | backend/review/processor.js:99-122 | text without `#` holds no heading |
| `ParseProperties.WrittenAt` | backend/review/processor.js:99-122 | a heading line written in the prompt's layout is matched whole, whatever follows it |
| `ParseProperties.FirstHeadingSpec` | backend/review/processor.js:99 | the lazy body stops at the first closing heading, and finds none only when there is none |
| `ParseProperties.SectionBetween` | backend/review/processor.js:99-102 | a found section runs from the end of an opening heading to the first closing heading after it |
| `ParseProperties.SectionAt` | backend/review/processor.js:99-102 | conversely, such positions give that section |
| `ParseProperties.TailFrom` | backend/review/processor.js:122-125 | the conclusion runs from the end of the first conclusion heading to the end of the reply |
| `ParseProperties.TailAt` | backend/review/processor.js:122-125 | conversely, the first conclusion heading gives the tail after it |
| `ParseProperties.MissingHeadingsKeepDefaults` | backend/review/processor.js:90-125 | a field whose opening or closing heading is absent keeps its empty default |
| `ParseProperties.PlainReply` | backend/review/processor.js:90-127 | a reply without `#` leaves every field at its default |
| `ParseProperties.ContractSection` | backend/review/processor.js:99-102 | the revised contract is the text between its heading and the review opinion heading |
| `ParseProperties.RiskSection` | backend/review/processor.js:105-111 | the risk text is the text between its heading and the recommendations heading |
| `ParseProperties.RecommendationsSection` | backend/review/processor.js:114-119 | the recommendations text is the text between its heading and the conclusion heading |
| `ParseProperties.ConclusionSection` | backend/review/processor.js:122-125 | the conclusion is everything after its heading |
| `ParseProperties.WellFormedReply` | backend/review/processor.js:89-127 | a reply in the requested layout parses into its parts: the contract and conclusion trimmed, the lists cut into items |
| `ParseProperties.ItemsTrimmed` | backend/review/processor.js:107-110 | every list item is non-empty and trimmed |
| `ParseProperties.ItemsOfParagraphs` | backend/review/processor.js:107-110 | trimmed items without blank lines, joined by blank lines, are read back as those items |
| `PromptProperties.PromptFrame` | backend/review/processor.js:26-81 | the prompt opens with the task heading and the contract and ends with the output requirements |
| `PromptProperties.FormatHeadings` | backend/review/processor.js:50-71 | after any text, a layout carrying the output format's five heading lines holds all five headings the parser looks for |
| `PromptProperties.PromptHeadingsRecognised` | backend/review/processor.js:15-81 | whatever the contract and template, the prompt holds all five headings the parser looks for |
| `PromptProperties.BulletLines` | backend/review/processor.js:18 | bullets of one-line entries joined with `\n` are read back line by line |
| `PromptProperties.CategoryLines` | backend/review/processor.js:17-19 | a category is its `###` line, then one `  - item` line per item, or an empty line when there are none |
| `PromptProperties.BulletsFree` | backend/review/processor.js:18 | bullets of one-line entries hold no line feed |
| `PromptProperties.KeywordList` | backend/review/processor.js:23 | keywords without `、` are read back from the keyword line one by one |
| `ReviewProperties.ReviewSucceeds` | backend/review/processor.js:151-164 | a review succeeds if and only if the template is known and the model answers |
| `ReviewProperties.ReviewOfWellFormedReply` | backend/review/processor.js:148-176 | a well-formed reply gives a result whose fields are that reply's parts |
| `ReviewProperties.ReviewAllOk` | backend/review/processor.js:194-198 | all chunks are reviewed if and only if every review succeeds, and then there is one result per chunk, in order |
| `ReviewProperties.FirstFailure` | backend/review/processor.js:194-198 | a failure is the failure of the first failing chunk, after only successes |
| `ReviewProperties.FailureAt` | backend/review/processor.js:194-198 | conversely, the first failing chunk decides the outcome, whatever follows it |
| `ReviewProperties.ChunkedReviewSpec` | backend/review/processor.js:191-212 | no chunks is an error; otherwise the review succeeds if and only if every chunk does, and then merges the results in chunk order |
| `ReviewProperties.MergeSingle` | backend/review/processor.js:201-211 | merging one chunk keeps that chunk's fields, with the chunk as the original contract |
| `ReviewProperties.SingleChunk` | backend/review/processor.js:191-212 | given the same reply to the same prompt, a contract in one chunk is reviewed exactly as on its own |
| `ReviewProperties.MergeAppend` | backend/review/processor.js:201-211 | merging two runs of chunks joins each text field by a blank line (the replies by the `---` rule) and concatenates the lists |
| `ReviewProperties.MergeTexts` | backend/review/processor.js:206 | joining a mapped field over two runs is the two joins with the separator between |
| `ReviewProperties.MergeLists` | backend/review/processor.js:207-208 | flattening a mapped list field over two runs is the two flattenings in order |
| `ClauseDetection.MatchPattern` | backend/parsers/fileParser.js:72-75 | computes one numbering pattern's match of a trimmed line; its shape is stated by `ClauseProperties.MatchContent` and the `…Shape` lemmas |
| `ClauseDetection.ClauseOfLine` | backend/parsers/fileParser.js:79-96 | computes what one line yields; stated by `ClauseProperties.ClauseIffSomePatternMatches` and `ClauseProperties.ClauseOfLineShape` |
| `ClauseDetection.DetectClauses` | backend/parsers/fileParser.js:66-101 | computes the clauses of a text; stated by `ClauseProperties.DetectClausesSpec` |
| `ReviewProcessor.BuildReviewPrompt` | backend/review/processor.js:15-82 | computes the prompt; stated by `PromptProperties.PromptHeadingsRecognised`, which shows every heading the parser looks for is in it, and `PromptProperties.PromptFrame` |
| `ReviewProcessor.Items` | backend/review/processor.js:107-118 | computes the trimmed paragraphs of a list section; stated by `ParseProperties.ItemsTrimmed` and `ParseProperties.ItemsOfParagraphs` |
| `ReviewProcessor.ParsedSections` | backend/review/processor.js:89-127 | computes the four sections of a reply; stated by `ParseProperties.WellFormedReply` and the `…Section` lemmas |
| `ReviewProcessor.ReviewContract` | backend/review/processor.js:148-181 | computes one review; stated by `ReviewProperties.ReviewSucceeds` and `ReviewProperties.ReviewOfWellFormedReply` |
| `ReviewProcessor.ReviewAll` | backend/review/processor.js:194-198 | computes the chunk reviews up to the first failure; stated by `ReviewProperties.ReviewAllOk` and `ReviewProperties.FirstFailure` |
| `ReviewProcessor.Merge` | backend/review/processor.js:201-211 | computes the merged result; stated by `ReviewProperties.MergeAppend`, `ReviewProperties.MergeSingle`, `ReviewProperties.MergeTexts` and `ReviewProperties.MergeLists` |
| `ReviewProcessor.ChunkedReview` | backend/review/processor.js:191-212 | computes the chunked review; stated by `ReviewProperties.ChunkedReviewSpec` |
| `DocumentGenerator.LineRuns` | backend/generators/documentGenerator.js:41-87 | computes the runs of a marked line; stated by `RevisionProperties.LineRunsShape` and `RevisionProperties.OrderedLineText` |
| `DocumentGenerator.LineParagraph` | backend/generators/documentGenerator.js:35-90 | computes the paragraph of one line; stated by `RevisionProperties.BlankLineParagraph`, `RevisionProperties.MarkerFreeLine` and `RevisionProperties.OrderedLineText` |
| `DocumentGenerator.ReportParagraphs` | backend/generators/documentGenerator.js:115-206 | computes the report paragraphs; stated by `ReportProperties.ReportOutline` and `ReportProperties.DocxItems` |
| `DocumentGenerator.ReviewReportHtml` | backend/generators/documentGenerator.js:229-315 | computes the HTML report; stated by `ReportProperties.HtmlItemsAgree` and `ResultsPage.HtmlContains` |
| `ResultsPage.Replace` | frontend/src/pages/ResultsPage.jsx:28-37 | computes one global replacement of a marker kind; stated by `ResultsPage.ReplaceMarkup` and `ResultsPage.ReplaceSkip` |
| `ResultsPage.FormatLine` | frontend/src/pages/ResultsPage.jsx:28-39 | computes one formatted line; stated by `ResultsPage.MarkerFreeLineShown` and `ResultsPage.FormatBlocks` |
| `ResultsPage.FormatRevisedContract` | frontend/src/pages/ResultsPage.jsx:23-41 | computes the formatted lines; stated by `ResultsPage.FormattedLineCount` |
| `ResultsPage.Panel` | frontend/src/pages/ResultsPage.jsx:114-152 | computes the texts of the review panel; stated by `ResultsPage.PanelMatchesReports` and the `…Everywhere` lemmas |
| `OpenAICompatible.OpenAICompatibleAdapter.IsConfigured` | backend/llm/models/openai-compatible.js:76-78 | the adapter is configured when key, base and model are all non-empty; stated by the constructor's contract |

## Left out

- File and network I/O are not modelled: reading uploads (`parsePDF`, `parseWord`), `Packer.toBuffer`, `fs.writeFile`, PDF rendering and the HTTP server. The model stops at the paragraphs and strings handed to them.
- The model adapters (`callAPI` of each provider and `generateContent` in `adapter.js`) are not modelled. The model call is the parameter `generate` of `ReviewContract`. Its options (temperature 0.5, 8192 tokens) are the value `ReviewOptions`.
- The template catalogue in `backend/review/templates.js` is not modelled. `getTemplate` is the parameter `lookup`. A `Template` value holds the fields the prompt reads.
- `async`/`await` and promises are not modelled. The chunk reviews are a sequential loop in which an error ends the run, as an awaited rejection does.
- Console logging is not modelled. It has no effect on any result.
- The `i` flag of the reply patterns is not modelled, because the patterns contain no ASCII letters, so it changes nothing.
- `RevisionProperties.OrderedLineText` (with `Markers.ScanBlocks` and `RevisionProperties.OrderedLine`) covers only lines whose plain text and payloads hold no `【`. A line that also uses `【…】` as ordinary brackets, such as `【甲方】张三【新增：李四】`, is still tokenized by the model, but no lemma states how it reads back. Widening the domain would need a condition on where a failed match resumes, and that is not proved.
- `ResultsPage.FormatBlocks` has the same `【`-free domain: the in-place replacement on lines with other bracketed text is computed but not stated.
- `RevisionProperties.VisibleTextIsPlain` has the same `【`-free domain. Outside it the shown text can hold a marker (`RevisionProperties.VisibleTextWithMarker`).
- `ReviewProcessor.ParseReviewOutput` models the `try` block only. Its `catch` branch cannot be reached from a string input and is the separate function `ParseFailure`.
- An absent `riskList` or `recommendations` (`undefined`) is not modelled. The result type always holds lists, so only the empty-list branch of the `&&` test is modelled.
- The model call is deterministic in the model: `generate` is a function, so the same prompt gets the same reply. A real model may answer the same prompt differently, so `ReviewProperties.SingleChunk` holds only for a model that does not.
- `OpenAICompatible.ChunkText` takes a whole, non-negative chunk size. A fractional size and a negative size are not modelled. With a fractional size `slice` truncates both ends and the chunks come out uneven (1.5 on `abcd` gives `a`, `bc`, `d`). A size of zero on a non-empty text loops forever, and the precondition excludes only that case.
- The chunks that `chunkText` returns are code units, while `ReviewContractInChunks` takes strings of characters. A chunk that ends or starts inside a surrogate pair has no counterpart there, so the two are not connected in the model.
- JSX elements and React keys are not modelled: the page is reduced to the texts it shows. `dangerouslySetInnerHTML` is the formatted string of each line.
- Styling of the HTML report (its CSS) is kept as constant text, with nothing proved about it.
- Word paragraph properties are modelled only as far as the source sets them: heading level, alignment, spacing, bold, strike and colour. Fonts and document defaults of the `docx` library are not modelled.
- The HTML report interpolates the template name, model name, items and conclusion without escaping, as the source does. The model proves nothing about HTML well-formedness.
