/**
 * Clause hierarchy detection (`detectClauseHierarchy`): every line of a
 * contract is trimmed and tested against four numbering conventions in a
 * fixed order; the first that matches turns the line into a clause record.
 * The regular expressions of the source are written out as hand-made
 * matchers that return the same captures the JavaScript engine does.
 */
module ClauseDetection {
  import opened Wrappers
  import opened JsStrings

  /** `{level, number, content, lineNumber}` as the detector emits it. */
  datatype Clause = Clause(level: nat, number: string, content: string, lineNumber: nat)

  /** The two capture groups of a numbering pattern: the number and the clause text. */
  datatype NumberMatch = NumberMatch(number: string, content: string)

  /** The four numbering conventions: `1.2.`, `第X条`, `(一)` and `(1)`/`（1）`. */
  datatype NumberPattern = Dotted | Article | ChineseParen | ArabicParen

  /** The priority table: patterns are tried in exactly this order. */
  const NumberPatterns: seq<NumberPattern> := [Dotted, Article, ChineseParen, ArabicParen]

  /** `[、.．]`, the separator after a dotted number. */
  predicate IsSeparator(c: char) { c == '、' || c == '.' || c == '．' }

  /** The character classes of the patterns: the numerals of each capture group, and `\s`. */
  datatype CharClass = Digits | ArticleNumerals | ParenNumerals | Spaces

  predicate InClass(c: char, k: CharClass) {
    match k
    case Digits => IsDigit(c)
    case ArticleNumerals => c in "一二三四五六七八九十百"
    case ParenNumerals => c in "一二三四五六七八九十"
    case Spaces => IsWhitespace(c)
  }

  /** Length of the run of class-`k` characters of `s` starting at `i` (a greedy `[…]+` or `\s*`). */
  function RunFrom(s: string, i: nat, k: CharClass): (n: nat)
    requires i <= |s|
    ensures i + n <= |s|
    decreases |s| - i
  {
    if i < |s| && InClass(s[i], k) then 1 + RunFrom(s, i + 1, k) else 0
  }

  /** The run is made of class-`k` characters and stops at the end or at a character outside the class. */
  lemma {:induction false} RunFromSpec(s: string, i: nat, k: CharClass)
    requires i <= |s|
    ensures forall j :: i <= j < i + RunFrom(s, i, k) ==> InClass(s[j], k)
    ensures i + RunFrom(s, i, k) < |s| ==> !InClass(s[i + RunFrom(s, i, k)], k)
    decreases |s| - i
  {
    if i < |s| && InClass(s[i], k) {
      RunFromSpec(s, i + 1, k);
    }
  }

  /** No line terminator from position `i` to the end of `s`. */
  predicate NoLineTerminatorFrom(s: string, i: nat) {
    forall t :: i <= t < |s| ==> !IsLineTerminator(s[t])
  }

  /**
   * `\s*(.+)$` matched from position `i` of a line: where the captured
   * content starts. The greedy `\s*` takes all the whitespace and `(.+)$`
   * must then take everything that is left, which must be non-empty and free
   * of line terminators; when nothing is left, the engine backs off one
   * whitespace character and takes that as the content.
   */
  function ContentStart(line: string, i: nat): (c: Option<nat>)
    requires i <= |line|
    ensures c.Some? ==> i <= c.value < |line|
  {
    var m := i + RunFrom(line, i, Spaces);
    if m < |line| then
      if NoLineTerminatorFrom(line, m) then Some(m) else None
    else if m > i && !IsLineTerminator(line[m - 1]) then Some(m - 1)
    else None
  }

  /**
   * `OPEN([CLASS]+)CLOSE\s*(.+)$`, the shape shared by `第X条`, `(一)` and
   * `(1)`. The class never contains a closing character, so the greedy
   * run is the only candidate for the number.
   */
  function MatchBracketed(line: string, opens: string, k: CharClass, closes: string): Option<NumberMatch> {
    if |line| == 0 || line[0] !in opens then None
    else
      var n := RunFrom(line, 1, k);
      if n == 0 || 1 + n >= |line| || line[1 + n] !in closes then None
      else
        match ContentStart(line, 2 + n)
        case None => None
        case Some(c) => Some(NumberMatch(line[1..1 + n], line[c..]))
  }

  /** `\d+(?:\.\d+)*`: a run of digits, then optionally a dot and another such number. */
  predicate IsDottedNumber(x: string)
    decreases |x|
  {
    var n := RunFrom(x, 0, Digits);
    n > 0 && (n == |x| || (x[n] == '.' && IsDottedNumber(x[n + 1..])))
  }

  /**
   * `\s*[、.．]\s*(.+)$` from position `k`: where the content starts. The
   * separators are not whitespace, so only the greedy whitespace run can be
   * followed by one.
   */
  function AfterNumber(line: string, k: nat): (c: Option<nat>)
    requires k <= |line|
    ensures c.Some? ==> k < c.value < |line|
  {
    var m := k + RunFrom(line, k, Spaces);
    if m < |line| && IsSeparator(line[m]) then ContentStart(line, m + 1) else None
  }

  /** `line[..k]` is a dotted number after which the rest of the pattern matches. */
  predicate DottedCandidate(line: string, k: nat)
    requires k <= |line|
  {
    IsDottedNumber(line[..k]) && AfterNumber(line, k).Some?
  }

  /** The largest `k` in `1..bound` for which `P(k)` holds. */
  function Longest(P: nat -> bool, bound: nat): (k: Option<nat>)
    ensures k.Some? ==> 0 < k.value <= bound && P(k.value)
  {
    if bound == 0 then None
    else if P(bound) then Some(bound)
    else Longest(P, bound - 1)
  }

  /** `Longest` finds the largest index in `1..bound` satisfying `P`, and finds none only when there is none. */
  lemma {:induction false} LongestSpec(P: nat -> bool, bound: nat)
    ensures var k := Longest(P, bound);
      && (k.Some? ==> 0 < k.value <= bound && P(k.value))
      && (k.Some? ==> forall j :: k.value < j <= bound ==> !P(j))
      && (k.None? ==> forall j :: 0 < j <= bound ==> !P(j))
  {
    if bound > 0 && !P(bound) {
      LongestSpec(P, bound - 1);
    }
  }

  /**
   * The dotted pattern tries number candidates longest first, which is the
   * order in which the engine backtracks through `\d+(?:\.\d+)*`: the
   * number is the longest prefix that is a dotted number followed by a
   * separator and content.
   */
  function LongestCandidate(line: string): Option<nat> {
    Longest((k: nat) => k <= |line| && DottedCandidate(line, k), |line|)
  }

  /** `^(\d+(?:\.\d+)*)\s*[、.．]\s*(.+)$` */
  function MatchDotted(line: string): Option<NumberMatch> {
    match LongestCandidate(line)
    case None => None
    case Some(k) => Some(NumberMatch(line[..k], line[AfterNumber(line, k).value..]))
  }

  function NumberClass(p: NumberPattern): CharClass {
    match p
    case Article => ArticleNumerals
    case ChineseParen => ParenNumerals
    case _ => Digits
  }

  /** One entry of the table applied to a trimmed line. */
  function MatchPattern(p: NumberPattern, line: string): Option<NumberMatch> {
    match p
    case Dotted => MatchDotted(line)
    case Article => MatchBracketed(line, "第", ArticleNumerals, "条")
    case ChineseParen => MatchBracketed(line, "(", ParenNumerals, ")")
    case ArabicParen => MatchBracketed(line, "（(", Digits, "）)")
  }

  /** `number.includes('.') ? number.split('.').length : 1`. */
  function Level(number: string): nat {
    if '.' in number then |Split(number, ".")| else 1
  }

  /** The level is one more than the number of dots, in both branches. */
  lemma LevelCountsDots(number: string)
    ensures Level(number) == CountChar(number, '.') + 1
  {
    SplitCharCount(number, '.');
    if '.' !in number {
      CountCharNotIn(number, '.');
    }
  }

  lemma {:induction false} CountCharNotIn(s: string, c: char)
    requires c !in s
    ensures CountChar(s, c) == 0
  {
    if s != [] {
      CountCharNotIn(s[1..], c);
    }
  }

  /** The first entry of `xs`, from position `k` on, for which `f` gives a result, with that result. */
  function FirstIn<T, R>(xs: seq<T>, f: T -> Option<R>, k: nat): Option<(nat, R)>
    requires k <= |xs|
    decreases |xs| - k
  {
    if k == |xs| then None
    else
      match f(xs[k])
      case Some(m) => Some((k, m))
      case None => FirstIn(xs, f, k + 1)
  }

  /** `FirstIn` returns the first entry with a result together with that result, and nothing only when no entry has one. */
  lemma {:induction false} FirstInSpec<T, R>(xs: seq<T>, f: T -> Option<R>, k: nat)
    requires k <= |xs|
    ensures var r := FirstIn(xs, f, k);
      && (r.Some? ==> k <= r.value.0 < |xs| && f(xs[r.value.0]) == Some(r.value.1))
      && (r.Some? ==> forall j :: k <= j < r.value.0 ==> f(xs[j]).None?)
      && (r.None? ==> forall j :: k <= j < |xs| ==> f(xs[j]).None?)
    decreases |xs| - k
  {
    if k < |xs| && f(xs[k]).None? {
      FirstInSpec(xs, f, k + 1);
    }
  }

  /** The first pattern of the table, from position `k` on, that matches `line`. */
  function FirstMatch(line: string, k: nat): Option<(nat, NumberMatch)>
    requires k <= |NumberPatterns|
  {
    FirstIn(NumberPatterns, (p: NumberPattern) => MatchPattern(p, line), k)
  }

  /** The record pushed for a match on line `lineNumber`. */
  function ClauseFrom(m: NumberMatch, lineNumber: nat): Clause {
    Clause(Level(m.number), m.number, m.content, lineNumber)
  }

  /** The clause that line number `lineNumber` (1-based) yields, if any. */
  function ClauseOfLine(rawLine: string, lineNumber: nat): Option<Clause> {
    var line := Trim(rawLine);
    if line == [] then None
    else
      match FirstMatch(line, 0)
      case None => None
      case Some((_, m)) => Some(ClauseFrom(m, lineNumber))
  }

  /** What `lineClause` gives for each of the first `n` lines, in line order, lines numbered from 1. */
  function Collect(lines: seq<string>, n: nat, lineClause: (string, nat) -> Option<Clause>): seq<Clause>
    requires n <= |lines|
  {
    if n == 0 then [] else Collect(lines, n - 1, lineClause) + AsList(lineClause(lines[n - 1], n))
  }

  function AsList<T>(o: Option<T>): seq<T> {
    match o
    case Some(x) => [x]
    case None => []
  }

  /** The clauses of a whole text, split on `\n`. */
  function DetectClauses(text: string): seq<Clause> {
    var lines := Split(text, "\n");
    Collect(lines, |lines|, ClauseOfLine)
  }

  /** `detectClauseHierarchy`: split the text on `\n` and visit every line. */
  method DetectClauseHierarchy(text: string) returns (clauses: seq<Clause>)
    ensures clauses == DetectClauses(text)
  {
    var lines := Split(text, "\n");
    clauses := VisitLines(lines);
  }

  /** `lines.forEach(…)`: visit the lines in order, numbering them from 1. */
  method VisitLines(lines: seq<string>) returns (clauses: seq<Clause>)
    ensures clauses == Collect(lines, |lines|, ClauseOfLine)
  {
    clauses := [];
    var index := 0;
    while index < |lines|
      invariant 0 <= index <= |lines|
      invariant clauses == Collect(lines, index, ClauseOfLine)
    {
      clauses := VisitLine(clauses, lines[index], index + 1);
      index := index + 1;
    }
  }

  /**
   * The `forEach` callback: trim the line, skip it when blank, else try the
   * patterns in table order and push a clause for the first that matches
   * (the `break`).
   */
  method VisitLine(clauses: seq<Clause>, rawLine: string, lineNumber: nat) returns (pushed: seq<Clause>)
    ensures pushed == clauses + AsList(ClauseOfLine(rawLine, lineNumber))
  {
    pushed := clauses;
    var line := Trim(rawLine);
    if line == [] {
      return;
    }
    var k := 0;
    while k < |NumberPatterns|
      invariant 0 <= k <= |NumberPatterns|
      invariant FirstMatch(line, k) == FirstMatch(line, 0)
    {
      var m := MatchPattern(NumberPatterns[k], line);
      if m.Some? {
        pushed := clauses + [ClauseFrom(m.value, lineNumber)];
        return;
      }
      k := k + 1;
    }
  }
}
