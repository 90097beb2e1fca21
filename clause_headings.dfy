/**
 * Completeness of clause detection: headings written in each of the four
 * conventions are recognised, with the number and content one expects, and
 * the lines the conventions leave out are not.
 */
module ClauseHeadings {
  import opened Wrappers
  import opened JsStrings
  import opened ClauseDetection
  import opened ClauseProperties

  /** A non-empty run of characters of class `k`: what a bracketed pattern captures as the number. */
  predicate IsRunOf(number: string, k: CharClass) {
    number != [] && forall j :: 0 <= j < |number| ==> InClass(number[j], k)
  }

  /** Text that can end a trimmed line and be captured whole by `\s*(.+)$`. */
  predicate IsHeadingText(content: string) {
    content != [] && NoLineTerminator(content) && !IsWhitespace(content[0]) && !IsWhitespace(content[|content| - 1])
  }

  /** The dotted pattern needs a digit in front. */
  lemma DottedNeedsDigit(line: string)
    requires line != []
    ensures MatchDotted(line).Some? ==> IsDigit(line[0])
  {
    if MatchDotted(line).Some? {
      DottedShape(line);
      var m := MatchDotted(line).value;
      DottedChars(m.number);
      assert m.number[0] == line[0];
    }
  }

  /**
   * An opening character, a run of the class, a closing character outside
   * the class, optional whitespace and a content starting with a visible
   * character: a bracketed pattern captures exactly that number and content.
   */
  lemma WellFormedBracketed(opens: string, k: CharClass, closes: string, o: char, number: string, c: char, ws: string, content: string)
    requires o in opens && c in closes && !InClass(c, k) && IsRunOf(number, k)
    requires AllWhitespace(ws) && content != [] && NoLineTerminator(content) && !IsWhitespace(content[0])
    ensures MatchBracketed([o] + number + [c] + ws + content, opens, k, closes) == Some(NumberMatch(number, content))
  {
    var line := [o] + number + [c] + ws + content;
    var n := |number|;
    assert line == [o] + number + [c] + (ws + content);
    BracketedNumberRun(o, number, c, ws + content, k);
    BracketedContentStart([o] + number + [c], ws, content);
    assert line[0] == o && line[1 + n] == c;
    assert line[1..1 + n] == number;
    assert line[2 + n + |ws|..] == content;
  }

  /** The greedy run after the opening character is exactly the number. */
  lemma BracketedNumberRun(o: char, number: string, c: char, rest: string, k: CharClass)
    requires !InClass(c, k) && IsRunOf(number, k)
    ensures RunFrom([o] + number + [c] + rest, 1, k) == |number|
  {
    var line := [o] + number + [c] + rest;
    forall j | 1 <= j < 1 + |number| ensures InClass(line[j], k) {
      assert line[j] == number[j - 1];
    }
    assert line[1 + |number|] == c;
    RunFromIs(line, 1, |number|, k);
  }

  /** After any prefix, whitespace then a content starting with a visible character: the content is found. */
  lemma BracketedContentStart(prefix: string, ws: string, content: string)
    requires AllWhitespace(ws) && content != [] && NoLineTerminator(content) && !IsWhitespace(content[0])
    ensures ContentStart(prefix + ws + content, |prefix|) == Some(|prefix| + |ws|)
  {
    var line := prefix + ws + content;
    var i := |prefix|;
    var m := i + |ws|;
    forall j | i <= j < m ensures InClass(line[j], Spaces) {
      assert line[j] == ws[j - i];
    }
    assert line[m] == content[0];
    RunFromIs(line, i, |ws|, Spaces);
    forall t | m <= t < |line| ensures !IsLineTerminator(line[t]) {
      assert line[t] == content[t - m];
    }
  }

  /** `第X条 text` is an article heading of level 1. */
  lemma ArticleHeadingClause(number: string, ws: string, content: string, lineNumber: nat)
    requires IsRunOf(number, ArticleNumerals) && AllWhitespace(ws) && IsHeadingText(content)
    ensures ClauseOfLine("第" + number + "条" + ws + content, lineNumber) == Some(Clause(1, number, content, lineNumber))
  {
    var line := "第" + number + "条" + ws + content;
    assert line == ['第'] + number + ['条'] + ws + content;
    assert line[|line| - 1] == content[|content| - 1];
    TrimOfTrimmed(line);
    DottedNeedsDigit(line);
    WellFormedBracketed("第", ArticleNumerals, "条", '第', number, '条', ws, content);
    FirstPatternWins(line, lineNumber, 1);
    NonDottedLevelOne(Article, line);
  }

  /** `(一) text`, with half-width parentheses, is a heading of level 1. */
  lemma ChineseParenHeadingClause(number: string, ws: string, content: string, lineNumber: nat)
    requires IsRunOf(number, ParenNumerals) && AllWhitespace(ws) && IsHeadingText(content)
    ensures ClauseOfLine("(" + number + ")" + ws + content, lineNumber) == Some(Clause(1, number, content, lineNumber))
  {
    var line := "(" + number + ")" + ws + content;
    assert line == ['('] + number + [')'] + ws + content;
    assert line[|line| - 1] == content[|content| - 1];
    TrimOfTrimmed(line);
    DottedNeedsDigit(line);
    WellFormedBracketed("(", ParenNumerals, ")", '(', number, ')', ws, content);
    FirstPatternWins(line, lineNumber, 2);
    NonDottedLevelOne(ChineseParen, line);
  }

  /** `(1) text` and `（1） text`, with either parenthesis on either side, is a heading of level 1. */
  lemma ArabicParenHeadingClause(o: char, number: string, c: char, ws: string, content: string, lineNumber: nat)
    requires (o == '（' || o == '(') && (c == '）' || c == ')')
    requires IsRunOf(number, Digits) && AllWhitespace(ws) && IsHeadingText(content)
    ensures ClauseOfLine([o] + number + [c] + ws + content, lineNumber) == Some(Clause(1, number, content, lineNumber))
  {
    var line := [o] + number + [c] + ws + content;
    assert line[1] == number[0];
    assert line[|line| - 1] == content[|content| - 1];
    TrimOfTrimmed(line);
    DottedNeedsDigit(line);
    assert RunFrom(line, 1, ParenNumerals) == 0;
    WellFormedBracketed("（(", Digits, "）)", o, number, c, ws, content);
    FirstPatternWins(line, lineNumber, 3);
    NonDottedLevelOne(ArabicParen, line);
  }

  /**
   * A trimmed line that opens with a full-width `（` not followed by a digit
   * is no heading: `（一）` falls outside all four conventions.
   */
  lemma FullWidthParenNeedsDigits(tail: string, lineNumber: nat)
    requires tail != [] && !IsDigit(tail[0]) && !IsWhitespace(tail[|tail| - 1])
    ensures ClauseOfLine("（" + tail, lineNumber).None?
  {
    var line := "（" + tail;
    assert line[1] == tail[0] && line[|line| - 1] == tail[|tail| - 1];
    TrimOfTrimmed(line);
    DottedNeedsDigit(line);
    assert RunFrom(line, 1, Digits) == 0;
    FirstInNone(NumberPatterns, (p: NumberPattern) => MatchPattern(p, line), 0);
  }

  /** A run of digits is a dotted number of one segment. */
  lemma DigitsAreDotted(d: string)
    requires IsRunOf(d, Digits)
    ensures IsDottedNumber(d) && Split(d, ".") == [d]
  {
    RunFromIs(d, 0, |d|, Digits);
    DotIndex(d, |d|);
  }

  /** Digits, a dot and a dotted number make a dotted number with one more segment. */
  lemma DottedCons(d: string, rest: string)
    requires IsRunOf(d, Digits) && IsDottedNumber(rest)
    ensures IsDottedNumber(d + "." + rest) && Split(d + "." + rest, ".") == [d] + Split(rest, ".")
  {
    var x := d + "." + rest;
    var n := |d|;
    forall j | 0 <= j < n ensures IsDigit(x[j]) {
      assert x[j] == d[j];
    }
    assert x[n] == '.';
    RunFromIs(x, 0, n, Digits);
    DotIndex(x, n);
    assert x[..n] == d;
    assert x[n + 1..] == rest;
  }

  /**
   * The backtracking quirk: when a dotted number ends in a bare `.N`
   * followed by whitespace and text with no separator, the engine retreats
   * to the number before that dot, takes the dot as the separator and
   * `N …` as the content, so `1.1 标题` reads as number `1`.
   */
  lemma BareDotRetreats(number: string, digits: string, w: char, content: string)
    requires IsDottedNumber(number) && IsRunOf(digits, Digits) && IsWhitespace(w) && !IsLineTerminator(w)
    requires content != [] && NoLineTerminator(content) && !IsWhitespace(content[0]) && !IsSeparator(content[0])
    ensures MatchDotted(number + "." + digits + [w] + content) == Some(NumberMatch(number, digits + [w] + content))
  {
    var line := number + "." + digits + [w] + content;
    var a := |number|;
    BareDotSeparator(number, digits, w, content);
    assert line[..a] == number;
    assert line[a + 1..] == digits + [w] + content;
    forall j | a < j <= |line| ensures !DottedCandidate(line, j) {
      BareDotCandidates(line, number, digits, w, content, j);
    }
    LongestCandidateIs(line, a);
  }

  /** The dot right after the number serves as the separator, and the content starts after it. */
  lemma BareDotSeparator(number: string, digits: string, w: char, content: string)
    requires IsRunOf(digits, Digits) && !IsLineTerminator(w) && NoLineTerminator(content)
    ensures AfterNumber(number + "." + digits + [w] + content, |number|) == Some(|number| + 1)
  {
    var line := number + "." + digits + [w] + content;
    var a := |number|;
    var b := a + 1 + |digits|;
    assert line[a] == '.' && line[a + 1] == digits[0];
    RunFromIs(line, a, 0, Spaces);
    RunFromIs(line, a + 1, 0, Spaces);
    forall t | a + 1 <= t < |line| ensures !IsLineTerminator(line[t]) {
      if t < b { assert line[t] == digits[t - a - 1]; }
      else if t == b { assert line[t] == w; }
      else { assert line[t] == content[t - b - 1]; }
    }
  }

  /** No longer prefix is a candidate: it is not a dotted number, or no separator follows it. */
  lemma BareDotCandidates(line: string, number: string, digits: string, w: char, content: string, j: nat)
    requires line == number + "." + digits + [w] + content
    requires IsRunOf(digits, Digits) && IsWhitespace(w) && content != [] && !IsWhitespace(content[0]) && !IsSeparator(content[0])
    requires |number| < j <= |line|
    ensures !DottedCandidate(line, j)
  {
    var a := |number|;
    var b := a + 1 + |digits|;
    var y := line[..j];
    if j == a + 1 {
      assert y[a] == '.';
      NotDottedAfterDot(y, a);
    } else if j < b {
      assert line[j] == digits[j - a - 1];
      assert RunFrom(line, j, Spaces) == 0;
    } else if j == b {
      assert line[b] == w && line[b + 1] == content[0];
      RunFromIs(line, b, 1, Spaces);
    } else {
      assert y[b] == w;
      NotDottedAt(y, b);
    }
  }
}
