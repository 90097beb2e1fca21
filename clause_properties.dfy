/**
 * What clause detection promises: the shape of each pattern's captures, the
 * priority order of the table, the level rule, and the order and provenance
 * of the clauses of a whole text.
 */
module ClauseProperties {
  import opened Wrappers
  import opened JsStrings
  import opened ClauseDetection

  /** `c` is a possible `(.+)$` capture at the end of `line`: a non-empty suffix without line terminators. */
  predicate IsContentOf(line: string, c: string) {
    c != [] && |c| <= |line| && c == line[|line| - |c|..] && NoLineTerminator(c)
  }

  lemma ContentStartShape(line: string, i: nat)
    requires i <= |line| && ContentStart(line, i).Some?
    ensures IsContentOf(line, line[ContentStart(line, i).value..])
  {
    var c := ContentStart(line, i).value;
    var t := line[c..];
    forall j | 0 <= j < |t| ensures !IsLineTerminator(t[j]) {
      assert t[j] == line[c + j];
    }
  }

  /**
   * The captures of a bracketed pattern: an opening character, the number
   * as a non-empty run of the class, a closing character, then the content.
   */
  predicate BracketedForm(line: string, opens: string, k: CharClass, closes: string, m: NumberMatch) {
    var n := |m.number|;
    && n >= 1 && 2 + n < |line| && line[0] in opens && m.number == line[1..1 + n] && line[1 + n] in closes
    && (forall j :: 0 <= j < n ==> InClass(m.number[j], k))
    && IsContentOf(line, m.content)
  }

  /** The three bracketed patterns capture exactly the shape `BracketedForm` describes. */
  lemma BracketedShape(line: string, opens: string, k: CharClass, closes: string)
    requires MatchBracketed(line, opens, k, closes).Some?
    ensures BracketedForm(line, opens, k, closes, MatchBracketed(line, opens, k, closes).value)
  {
    var n := RunFrom(line, 1, k);
    var c := ContentStart(line, 2 + n).value;
    BracketedParts(line, opens, k, closes, n, c);
    ContentStartShape(line, 2 + n);
    RunInClass(line, 1, k, line[1..1 + n]);
    BracketedFormOf(line, opens, k, closes, line[1..1 + n], c);
  }

  lemma BracketedParts(line: string, opens: string, k: CharClass, closes: string, n: nat, c: nat)
    requires MatchBracketed(line, opens, k, closes).Some?
    requires n == RunFrom(line, 1, k) && 1 + n < |line| && ContentStart(line, 2 + n) == Some(c)
    ensures n >= 1 && 2 + n <= c < |line| && line[0] in opens && line[1 + n] in closes
    ensures MatchBracketed(line, opens, k, closes).value == NumberMatch(line[1..1 + n], line[c..])
  { }

  lemma BracketedFormOf(line: string, opens: string, k: CharClass, closes: string, number: string, c: nat)
    requires 1 <= |number| && 2 + |number| <= c < |line| && number == line[1..1 + |number|]
    requires line[0] in opens && line[1 + |number|] in closes
    requires forall j :: 0 <= j < |number| ==> InClass(number[j], k)
    requires IsContentOf(line, line[c..])
    ensures BracketedForm(line, opens, k, closes, NumberMatch(number, line[c..]))
  { }

  /** The characters of a run, read off as a slice, are of the run's class. */
  lemma RunInClass(s: string, i: nat, k: CharClass, r: string)
    requires i + |r| <= |s| && |r| == RunFrom(s, i, k) && r == s[i..i + |r|]
    ensures forall j :: 0 <= j < |r| ==> InClass(r[j], k)
  {
    RunFromSpec(s, i, k);
    forall j | 0 <= j < |r| ensures InClass(r[j], k) {
      assert r[j] == s[i + j];
    }
  }

  /** The dotted pattern: the number is a prefix of the line that is a dotted number. */
  lemma DottedShape(line: string)
    requires MatchDotted(line).Some?
    ensures var m := MatchDotted(line).value;
      && 0 < |m.number| <= |line| && m.number == line[..|m.number|] && IsDottedNumber(m.number)
      && IsContentOf(line, m.content)
  {
    var k := LongestCandidate(line).value;
    var m := MatchDotted(line).value;
    assert DottedCandidate(line, k);
    var a := k + RunFrom(line, k, Spaces);
    ContentStartShape(line, a + 1);
  }

  /** Every pattern of the table captures a non-empty suffix of the line as content. */
  lemma MatchContent(p: NumberPattern, line: string)
    requires MatchPattern(p, line).Some?
    ensures IsContentOf(line, MatchPattern(p, line).value.content)
  {
    match p
    case Dotted => DottedShape(line);
    case Article => BracketedShape(line, "第", ArticleNumerals, "条");
    case ChineseParen => BracketedShape(line, "(", ParenNumerals, ")");
    case ArabicParen => BracketedShape(line, "（(", Digits, "）)");
  }

  /** Only the dotted pattern can capture a dot, so the three others give level 1. */
  lemma NonDottedLevelOne(p: NumberPattern, line: string)
    requires p != Dotted && MatchPattern(p, line).Some?
    ensures '.' !in MatchPattern(p, line).value.number
    ensures Level(MatchPattern(p, line).value.number) == 1
  {
    match p
    case Article => BracketedShape(line, "第", ArticleNumerals, "条");
    case ChineseParen => BracketedShape(line, "(", ParenNumerals, ")");
    case ArabicParen => BracketedShape(line, "（(", Digits, "）)");
  }

  /** `第X条` opens with `第` and closes with `条` around Chinese numerals up to 百. */
  lemma ArticleShape(line: string)
    requires MatchPattern(Article, line).Some?
    ensures var n := MatchPattern(Article, line).value.number;
      line[0] == '第' && line[1 + |n|] == '条' && line[1..1 + |n|] == n
  {
    BracketedShape(line, "第", ArticleNumerals, "条");
  }

  /** `(一)` accepts only the half-width parentheses on both sides. */
  lemma ChineseParenShape(line: string)
    requires MatchPattern(ChineseParen, line).Some?
    ensures var n := MatchPattern(ChineseParen, line).value.number;
      line[0] == '(' && line[1 + |n|] == ')' && line[1..1 + |n|] == n
  {
    BracketedShape(line, "(", ParenNumerals, ")");
  }

  /** `(1)` accepts a full-width or a half-width parenthesis on each side, independently. */
  lemma ArabicParenShape(line: string)
    requires MatchPattern(ArabicParen, line).Some?
    ensures var n := MatchPattern(ArabicParen, line).value.number;
      && (line[0] == '（' || line[0] == '(') && (line[1 + |n|] == '）' || line[1 + |n|] == ')')
      && forall j :: 0 <= j < |n| ==> IsDigit(n[j])
  {
    BracketedShape(line, "（(", Digits, "）)");
  }

  /** The search stops at the first entry with a result, whatever the later entries give. */
  lemma {:induction false} FirstInIsFirst<T, R>(xs: seq<T>, f: T -> Option<R>, k: nat, i: nat)
    requires k <= i < |xs| && f(xs[i]).Some?
    requires forall j :: k <= j < i ==> f(xs[j]).None?
    ensures FirstIn(xs, f, k) == Some((i, f(xs[i]).value))
    decreases i - k
  {
    if k < i {
      FirstInIsFirst(xs, f, k + 1, i);
    }
  }

  lemma {:induction false} FirstInNone<T, R>(xs: seq<T>, f: T -> Option<R>, k: nat)
    requires k <= |xs|
    requires forall j :: k <= j < |xs| ==> f(xs[j]).None?
    ensures FirstIn(xs, f, k).None?
    decreases |xs| - k
  {
    if k < |xs| {
      FirstInNone(xs, f, k + 1);
    }
  }

  /**
   * Priority: when pattern `i` is the first of the table to match the
   * trimmed line, the line yields the clause built from that pattern's
   * captures, however many later patterns would also match.
   */
  lemma FirstPatternWins(rawLine: string, lineNumber: nat, i: nat)
    requires i < |NumberPatterns| && Trim(rawLine) != []
    requires MatchPattern(NumberPatterns[i], Trim(rawLine)).Some?
    requires forall j :: 0 <= j < i ==> MatchPattern(NumberPatterns[j], Trim(rawLine)).None?
    ensures ClauseOfLine(rawLine, lineNumber) == Some(ClauseFrom(MatchPattern(NumberPatterns[i], Trim(rawLine)).value, lineNumber))
  {
    var line := Trim(rawLine);
    FirstInIsFirst(NumberPatterns, (p: NumberPattern) => MatchPattern(p, line), 0, i);
  }

  /** A line yields a clause exactly when it is not blank and some pattern of the table matches it. */
  lemma ClauseIffSomePatternMatches(rawLine: string, lineNumber: nat)
    ensures ClauseOfLine(rawLine, lineNumber).Some? <==>
      Trim(rawLine) != [] && exists i :: 0 <= i < |NumberPatterns| && MatchPattern(NumberPatterns[i], Trim(rawLine)).Some?
  {
    var line := Trim(rawLine);
    var f := (p: NumberPattern) => MatchPattern(p, line);
    if line != [] {
      if forall j :: 0 <= j < |NumberPatterns| ==> MatchPattern(NumberPatterns[j], line).None? {
        FirstInNone(NumberPatterns, f, 0);
      } else {
        var r := FirstMatch(line, 0);
        assert r.Some?;
      }
    }
  }

  /** Whitespace-only and empty lines never yield a clause. */
  lemma BlankLineNoClause(rawLine: string, lineNumber: nat)
    requires AllWhitespace(rawLine)
    ensures ClauseOfLine(rawLine, lineNumber).None?
  {
  }

  /**
   * What a detected clause holds: its line number, a number captured by the
   * pattern that won, its level (one more than its dots; 1 unless the dotted
   * pattern won), and a non-empty content that ends the trimmed line.
   */
  lemma ClauseOfLineShape(rawLine: string, lineNumber: nat)
    requires ClauseOfLine(rawLine, lineNumber).Some?
    ensures var c := ClauseOfLine(rawLine, lineNumber).value; var line := Trim(rawLine);
      && c.lineNumber == lineNumber
      && c.level == CountChar(c.number, '.') + 1 && c.level >= 1
      && IsContentOf(line, c.content)
      && exists i :: 0 <= i < |NumberPatterns| && MatchPattern(NumberPatterns[i], line) == Some(NumberMatch(c.number, c.content))
  {
    var line := Trim(rawLine);
    var r := FirstMatch(line, 0).value;
    var c := ClauseOfLine(rawLine, lineNumber).value;
    LevelCountsDots(c.number);
    MatchContent(NumberPatterns[r.0], line);
  }

  /** Clauses found by a pattern other than the dotted one have level 1. */
  lemma NonDottedClauseLevelOne(rawLine: string, lineNumber: nat)
    requires ClauseOfLine(rawLine, lineNumber).Some?
    requires MatchPattern(Dotted, Trim(rawLine)).None?
    ensures ClauseOfLine(rawLine, lineNumber).value.level == 1
  {
    var line := Trim(rawLine);
    var r := FirstMatch(line, 0).value;
    NonDottedLevelOne(NumberPatterns[r.0], line);
  }

  /** A run measured over a stretch of class-`k` characters that ends the string or is followed by another class. */
  lemma {:induction false} RunFromIs(s: string, i: nat, len: nat, k: CharClass)
    requires i + len <= |s|
    requires forall j :: i <= j < i + len ==> InClass(s[j], k)
    requires i + len < |s| ==> !InClass(s[i + len], k)
    ensures RunFrom(s, i, k) == len
    decreases len
  {
    if len > 0 {
      RunFromIs(s, i + 1, len - 1, k);
    }
  }

  /** After a dot of a dotted number comes a digit. */
  predicate DigitAfterDot(x: string, i: nat)
    requires i < |x|
  {
    x[i] == '.' ==> i + 1 < |x| && IsDigit(x[i + 1])
  }

  /** A dotted number starts with a digit and holds only digits and single dots, each followed by a digit. */
  lemma {:induction false} DottedChars(x: string)
    requires IsDottedNumber(x)
    ensures |x| > 0 && IsDigit(x[0])
    ensures forall i :: 0 <= i < |x| ==> (IsDigit(x[i]) || x[i] == '.') && DigitAfterDot(x, i)
    decreases |x|
  {
    var n := RunFrom(x, 0, Digits);
    RunFromSpec(x, 0, Digits);
    if n < |x| {
      var rest := x[n + 1..];
      DottedChars(rest);
      forall i | 0 <= i < |x| ensures (IsDigit(x[i]) || x[i] == '.') && DigitAfterDot(x, i) {
        if i > n {
          assert x[i] == rest[i - n - 1];
          if i + 1 < |x| { assert x[i + 1] == rest[i - n]; }
        } else if i == n {
          assert x[n + 1] == rest[0];
        }
      }
    }
  }

  /** Digits only, at least one: a segment of a dotted number. */
  predicate IsDigitString(s: string) {
    s != [] && forall j :: 0 <= j < |s| ==> IsDigit(s[j])
  }

  lemma DotIndex(x: string, n: nat)
    requires n <= |x| && forall j :: 0 <= j < n ==> IsDigit(x[j])
    requires n == |x| || x[n] == '.'
    ensures IndexOf(x, ".", 0) == if n == |x| then None else Some(n)
  {
    IndexOfSpec(x, ".", 0);
    forall j | 0 <= j < n ensures !OccursAt(x, ".", j) {
      OccursAtChar(x, '.', j);
    }
    if n < |x| {
      OccursAtChar(x, '.', n);
    }
  }

  /** `number.split('.')` of a dotted number gives its digit groups, none of them empty. */
  lemma {:induction false} DottedSegments(x: string)
    requires IsDottedNumber(x)
    ensures forall k :: 0 <= k < |Split(x, ".")| ==> IsDigitString(Split(x, ".")[k])
    decreases |x|
  {
    var n := RunFrom(x, 0, Digits);
    RunFromSpec(x, 0, Digits);
    DotIndex(x, n);
    if n < |x| {
      var rest := x[n + 1..];
      DottedSegments(rest);
      assert Split(x, ".") == [x[..n]] + Split(rest, ".");
      assert IsDigitString(x[..n]);
    }
  }

  /** The level is the number of pieces `split('.')` gives, also when there is no dot. */
  lemma LevelIsSegmentCount(number: string)
    ensures Level(number) == |Split(number, ".")|
  {
    LevelCountsDots(number);
    SplitCharCount(number, '.');
  }

  /** `Longest` returns `k` when `P(k)` holds and no larger index up to the bound satisfies `P`. */
  lemma {:induction false} LongestIs(P: nat -> bool, bound: nat, k: nat)
    requires 0 < k <= bound && P(k)
    requires forall j :: k < j <= bound ==> !P(j)
    ensures Longest(P, bound) == Some(k)
    decreases bound
  {
    if k < bound {
      LongestIs(P, bound - 1, k);
    }
  }

  /** The dotted pattern settles on candidate `a` when no longer prefix is a candidate. */
  lemma LongestCandidateIs(line: string, a: nat)
    requires 0 < a <= |line| && DottedCandidate(line, a)
    requires forall j :: a < j <= |line| ==> !DottedCandidate(line, j)
    ensures MatchDotted(line) == Some(NumberMatch(line[..a], line[AfterNumber(line, a).value..]))
  {
    var P := (k: nat) => k <= |line| && DottedCandidate(line, k);
    assert P(a);
    LongestIs(P, |line|, a);
  }

  /**
   * A well-formed dotted heading — a dotted number, optional whitespace, a
   * separator, optional whitespace, then a content that starts with neither
   * whitespace nor (right after a bare `.`) a digit — is read as exactly
   * that number and that content.
   */
  lemma WellFormedDotted(number: string, ws1: string, sep: char, ws2: string, content: string)
    requires IsDottedNumber(number) && AllWhitespace(ws1) && IsSeparator(sep) && AllWhitespace(ws2)
    requires content != [] && NoLineTerminator(content) && !IsWhitespace(content[0])
    requires ws1 == [] && sep == '.' && ws2 == [] ==> !IsDigit(content[0])
    ensures MatchPattern(Dotted, number + ws1 + [sep] + ws2 + content) == Some(NumberMatch(number, content))
  {
    var line := number + ws1 + [sep] + ws2 + content;
    var a := |number|;
    var m := |line| - |content|;
    SeparatorThenContent(number, ws1, sep, ws2, content);
    assert line[..a] == number;
    assert line[m..] == content;
    var P := (k: nat) => k <= |line| && DottedCandidate(line, k);
    assert P(a);
    forall j | a < j <= |line| ensures !P(j) {
      NotDottedPast(line, number, ws1, sep, ws2, content, j);
    }
    LongestIs(P, |line|, a);
  }

  /** After the number, the separator is found and the content starts where `content` does. */
  lemma SeparatorThenContent(number: string, ws1: string, sep: char, ws2: string, content: string)
    requires AllWhitespace(ws1) && IsSeparator(sep) && AllWhitespace(ws2)
    requires content != [] && NoLineTerminator(content) && !IsWhitespace(content[0])
    ensures var line := number + ws1 + [sep] + ws2 + content;
      AfterNumber(line, |number|) == Some(|line| - |content|)
  {
    var line := number + ws1 + [sep] + ws2 + content;
    var a := |number|;
    var b := a + |ws1|;
    var m := b + 1 + |ws2|;
    assert line[b] == sep;
    assert line[m] == content[0];
    RunFromIs(line, a, |ws1|, Spaces);
    RunFromIs(line, b + 1, |ws2|, Spaces);
    forall t | m <= t < |line| ensures !IsLineTerminator(line[t]) {
      assert line[t] == content[t - m];
    }
  }

  /** A character other than a digit or a dot rules out a dotted number. */
  lemma NotDottedAt(y: string, i: nat)
    requires i < |y| && !IsDigit(y[i]) && y[i] != '.'
    ensures !IsDottedNumber(y)
  {
    if IsDottedNumber(y) {
      DottedChars(y);
    }
  }

  /** So does a dot that ends the string or is not followed by a digit. */
  lemma NotDottedAfterDot(y: string, i: nat)
    requires i < |y| && y[i] == '.' && (i + 1 == |y| || !IsDigit(y[i + 1]))
    ensures !IsDottedNumber(y)
  {
    if IsDottedNumber(y) {
      DottedChars(y);
    }
  }

  /** No prefix reaching past the number is itself a dotted number. */
  lemma NotDottedPast(line: string, number: string, ws1: string, sep: char, ws2: string, content: string, j: nat)
    requires line == number + ws1 + [sep] + ws2 + content
    requires IsDottedNumber(number) && AllWhitespace(ws1) && IsSeparator(sep) && AllWhitespace(ws2)
    requires content != [] && !IsWhitespace(content[0])
    requires ws1 == [] && sep == '.' && ws2 == [] ==> !IsDigit(content[0])
    requires |number| < j <= |line|
    ensures !IsDottedNumber(line[..j])
  {
    var a := |number|;
    var y := line[..j];
    if ws1 != [] {
      assert y[a] == ws1[0];
      NotDottedAt(y, a);
    } else if sep != '.' {
      assert y[a] == sep;
      NotDottedAt(y, a);
    } else {
      assert y[a] == '.';
      if a + 1 < j {
        if ws2 != [] {
          assert y[a + 1] == ws2[0];
        } else {
          assert y[a + 1] == content[0];
        }
      }
      NotDottedAfterDot(y, a);
    }
  }

  /**
   * The clause such a heading yields when it is a whole line: the number,
   * the content, and the count of its dot-separated segments as level.
   */
  lemma WellFormedDottedClause(number: string, ws1: string, sep: char, ws2: string, content: string, lineNumber: nat)
    requires IsDottedNumber(number) && AllWhitespace(ws1) && IsSeparator(sep) && AllWhitespace(ws2)
    requires content != [] && NoLineTerminator(content) && !IsWhitespace(content[0]) && !IsWhitespace(content[|content| - 1])
    requires ws1 == [] && sep == '.' && ws2 == [] ==> !IsDigit(content[0])
    ensures ClauseOfLine(number + ws1 + [sep] + ws2 + content, lineNumber)
      == Some(Clause(|Split(number, ".")|, number, content, lineNumber))
  {
    var line := number + ws1 + [sep] + ws2 + content;
    DottedChars(number);
    assert line[0] == number[0] && line[|line| - 1] == content[|content| - 1];
    TrimOfTrimmed(line);
    WellFormedDotted(number, ws1, sep, ws2, content);
    FirstPatternWins(line, lineNumber, 0);
    LevelIsSegmentCount(number);
  }

  /**
   * Provenance and order: when `lineClause` stamps each clause with the number of
   * its line, every collected clause carries a line number in `1..n` and is
   * what that line yields, and line numbers strictly increase along the list.
   */
  lemma {:induction false} CollectSound(lines: seq<string>, n: nat, lineClause: (string, nat) -> Option<Clause>)
    requires n <= |lines|
    requires forall raw, k :: lineClause(raw, k).Some? ==> lineClause(raw, k).value.lineNumber == k
    ensures var d := Collect(lines, n, lineClause);
      && (forall c :: c in d ==> 1 <= c.lineNumber <= n && lineClause(lines[c.lineNumber - 1], c.lineNumber) == Some(c))
      && (forall a, b :: 0 <= a < b < |d| ==> d[a].lineNumber < d[b].lineNumber)
  {
    if n > 0 {
      CollectSound(lines, n - 1, lineClause);
    }
  }

  /** Completeness: every line that yields a clause contributes it. */
  lemma {:induction false} CollectComplete(lines: seq<string>, n: nat, lineClause: (string, nat) -> Option<Clause>, i: nat)
    requires i < n <= |lines| && lineClause(lines[i], i + 1).Some?
    ensures lineClause(lines[i], i + 1).value in Collect(lines, n, lineClause)
  {
    if i < n - 1 {
      CollectComplete(lines, n - 1, lineClause, i);
    }
  }

  /** The number of non-blank lines among the first `n`. */
  function NonBlankLines(lines: seq<string>, n: nat): nat
    requires n <= |lines|
  {
    if n == 0 then 0 else NonBlankLines(lines, n - 1) + (if Trim(lines[n - 1]) != [] then 1 else 0)
  }

  /** At most one clause per line, and none for a blank one. */
  lemma {:induction false} CollectAtMostNonBlank(lines: seq<string>, n: nat, lineClause: (string, nat) -> Option<Clause>)
    requires n <= |lines|
    requires forall raw, k :: Trim(raw) == [] ==> lineClause(raw, k).None?
    ensures |Collect(lines, n, lineClause)| <= NonBlankLines(lines, n)
  {
    if n > 0 {
      CollectAtMostNonBlank(lines, n - 1, lineClause);
    }
  }

  /**
   * `detectClauseHierarchy` as a whole: the clauses are exactly the ones the
   * `\n`-separated lines yield, each once, in line order, numbered from 1 in
   * the untrimmed line list, and no more of them than non-blank lines.
   */
  lemma DetectClausesSpec(text: string)
    ensures var lines := Split(text, "\n"); var d := DetectClauses(text);
      && (forall c :: c in d ==> 1 <= c.lineNumber <= |lines| && ClauseOfLine(lines[c.lineNumber - 1], c.lineNumber) == Some(c))
      && (forall a, b :: 0 <= a < b < |d| ==> d[a].lineNumber < d[b].lineNumber)
      && (forall i :: 0 <= i < |lines| && ClauseOfLine(lines[i], i + 1).Some? ==> ClauseOfLine(lines[i], i + 1).value in d)
      && |d| <= NonBlankLines(lines, |lines|)
  {
    var lines := Split(text, "\n");
    forall raw, k | ClauseOfLine(raw, k).Some? ensures ClauseOfLine(raw, k).value.lineNumber == k {
      ClauseOfLineShape(raw, k);
    }
    CollectSound(lines, |lines|, ClauseOfLine);
    CollectAtMostNonBlank(lines, |lines|, ClauseOfLine);
    forall i | 0 <= i < |lines| && ClauseOfLine(lines[i], i + 1).Some?
      ensures ClauseOfLine(lines[i], i + 1).value in DetectClauses(text)
    {
      CollectComplete(lines, |lines|, ClauseOfLine, i);
    }
  }
}
