/**
 * The JavaScript string operations the application relies on: `trim`, `split` and
 * `join` with a string separator, `indexOf`, and the character classes `\s`
 * (whitespace) and the line terminators that `.` refuses in a regular expression.
 * A string is a sequence of Unicode scalar values.
 */
module JsStrings {
  import opened Wrappers

  /** ECMAScript WhiteSpace or LineTerminator: the set `\s` matches and `trim` removes. */
  predicate IsWhitespace(c: char) {
    c == '\t' || c == '\n' || c == '\U{B}' || c == '\U{C}' || c == '\r' || c == ' '
    || c == '\U{A0}' || c == '\U{1680}' || ('\U{2000}' <= c <= '\U{200A}')
    || c == '\U{2028}' || c == '\U{2029}' || c == '\U{202F}' || c == '\U{205F}'
    || c == '\U{3000}' || c == '\U{FEFF}'
  }

  /** ECMAScript LineTerminator: the characters a regular-expression `.` does not match. */
  predicate IsLineTerminator(c: char) {
    c == '\n' || c == '\r' || c == '\U{2028}' || c == '\U{2029}'
  }

  predicate IsDigit(c: char) { '0' <= c <= '9' }

  predicate AllWhitespace(s: string) { forall i :: 0 <= i < |s| ==> IsWhitespace(s[i]) }

  predicate NoLineTerminator(s: string) { forall i :: 0 <= i < |s| ==> !IsLineTerminator(s[i]) }

  /** A string with no whitespace at either end, as `trim` leaves it. */
  predicate IsTrimmed(s: string) {
    s == [] || (!IsWhitespace(s[0]) && !IsWhitespace(s[|s| - 1]))
  }

  /** Length of the longest all-whitespace prefix of `s`. */
  function LeadingWhitespace(s: string): (n: nat)
    ensures n <= |s|
    ensures n < |s| ==> !IsWhitespace(s[n])
  {
    if s == [] || !IsWhitespace(s[0]) then 0 else 1 + LeadingWhitespace(s[1..])
  }

  /** The leading run is all whitespace. */
  lemma {:induction false} LeadingWhitespaceSpec(s: string)
    ensures AllWhitespace(s[..LeadingWhitespace(s)])
  {
    if s != [] && IsWhitespace(s[0]) {
      var n := LeadingWhitespace(s);
      LeadingWhitespaceSpec(s[1..]);
      assert s[..n] == [s[0]] + s[1..][..n - 1];
      AllWhitespaceAppend([s[0]], s[1..][..n - 1]);
    }
  }

  /** Length of the longest all-whitespace suffix of `s`. */
  function TrailingWhitespace(s: string): (n: nat)
    ensures n <= |s|
    ensures n < |s| ==> !IsWhitespace(s[|s| - n - 1])
  {
    if s == [] || !IsWhitespace(s[|s| - 1]) then 0 else 1 + TrailingWhitespace(s[..|s| - 1])
  }

  /** The trailing run is all whitespace. */
  lemma {:induction false} TrailingWhitespaceSpec(s: string)
    ensures AllWhitespace(s[|s| - TrailingWhitespace(s)..])
  {
    if s != [] && IsWhitespace(s[|s| - 1]) {
      var t := s[..|s| - 1];
      var n := TrailingWhitespace(s);
      TrailingWhitespaceSpec(t);
      var w := t[|t| - (n - 1)..];
      assert s[|s| - n..] == w + [s[|s| - 1]];
      AllWhitespaceAppend(w, [s[|s| - 1]]);
    }
  }

  /**
   * `String.prototype.trim`: the input without its leading and trailing
   * whitespace.
   */
  function Trim(s: string): (r: string)
    ensures |r| <= |s|
  {
    var a := LeadingWhitespace(s);
    if a == |s| then []
    else
      TrailingStopsAfterLeading(s);
      s[a..|s| - TrailingWhitespace(s)]
  }

  /** When `s` is not all whitespace, its trailing run ends after its first non-whitespace character. */
  lemma TrailingStopsAfterLeading(s: string)
    requires LeadingWhitespace(s) < |s|
    ensures LeadingWhitespace(s) < |s| - TrailingWhitespace(s)
  {
    TrailingWhitespaceSpec(s);
    WhitespaceInSuffix(s, |s| - TrailingWhitespace(s), LeadingWhitespace(s));
  }

  /** A character inside an all-whitespace suffix is whitespace. */
  lemma WhitespaceInSuffix(s: string, b: nat, j: nat)
    ensures b <= j < |s| && AllWhitespace(s[b..]) ==> IsWhitespace(s[j])
  {
    if b <= j < |s| {
      assert s[b..][j - b] == s[j];
    }
  }

  /** The result of `trim` neither starts nor ends with whitespace, and it is empty exactly when the input is all whitespace. */
  lemma TrimSpec(s: string)
    ensures IsTrimmed(Trim(s))
    ensures Trim(s) == [] <==> AllWhitespace(s)
  {
    var a := LeadingWhitespace(s);
    if a == |s| {
      LeadingWhitespaceSpec(s);
      assert s[..a] == s;
    } else {
      TrailingStopsAfterLeading(s);
    }
  }

  /** What `trim` removes: whitespace at the front, whitespace at the back, and nothing else. */
  lemma TrimDecomposes(s: string)
    ensures var a := LeadingWhitespace(s); var r := Trim(s);
      && a + |r| <= |s| && r == s[a..a + |r|]
      && AllWhitespace(s[..a]) && AllWhitespace(s[a + |r|..])
  {
    var a := LeadingWhitespace(s);
    LeadingWhitespaceSpec(s);
    if a == |s| {
      assert Trim(s) == [] && s[a..] == [];
    } else {
      TrailingWhitespaceSpec(s);
      TrailingStopsAfterLeading(s);
      var b := |s| - TrailingWhitespace(s);
      assert Trim(s) == s[a..b];
    }
  }

  lemma AllWhitespaceAppend(a: string, b: string)
    requires AllWhitespace(a) && AllWhitespace(b)
    ensures AllWhitespace(a + b)
  {
  }

  /** Trimming is idempotent: a trimmed string is its own trim. */
  lemma TrimOfTrimmed(s: string)
    requires IsTrimmed(s)
    ensures Trim(s) == s
  {
    var a := LeadingWhitespace(s);
    if s != [] {
      assert a == 0;
      assert TrailingWhitespace(s) == 0;
    }
  }

  predicate OccursAt(s: string, sep: string, i: nat) {
    i + |sep| <= |s| && s[i..i + |sep|] == sep
  }

  /** `s.indexOf(sep, from)`: the first occurrence of `sep` at or after `from`. */
  function IndexOf(s: string, sep: string, from: nat): (r: Option<nat>)
    requires |sep| > 0
    ensures r.Some? ==> from <= r.value && OccursAt(s, sep, r.value)
    decreases |s| - from
  {
    if from + |sep| > |s| then None
    else if s[from..from + |sep|] == sep then Some(from)
    else IndexOf(s, sep, from + 1)
  }

  /** `IndexOf` finds the first occurrence at or after `from`, and finds none only when there is none. */
  lemma {:induction false} IndexOfSpec(s: string, sep: string, from: nat)
    requires |sep| > 0
    ensures var r := IndexOf(s, sep, from);
      && (r.Some? ==> forall j :: from <= j < r.value ==> !OccursAt(s, sep, j))
      && (r.None? ==> forall j :: from <= j ==> !OccursAt(s, sep, j))
    decreases |s| - from
  {
    if from + |sep| <= |s| && s[from..from + |sep|] != sep {
      IndexOfSpec(s, sep, from + 1);
    }
  }

  /** With no occurrence between `from` and `q`, the search from `from` stops at an occurrence at `q`. */
  lemma {:induction false} IndexOfAt(s: string, sep: string, from: nat, q: nat)
    requires |sep| > 0 && from <= q && OccursAt(s, sep, q)
    requires forall j :: from <= j < q ==> !OccursAt(s, sep, j)
    ensures IndexOf(s, sep, from) == Some(q)
    decreases q - from
  {
    if from < q {
      assert !OccursAt(s, sep, from);
      IndexOfAt(s, sep, from + 1, q);
    }
  }

  /** With no occurrence at all, `split` gives the whole string as its one piece. */
  lemma SplitAbsent(s: string, sep: string)
    requires |sep| > 0 && forall j :: !OccursAt(s, sep, j)
    ensures IndexOf(s, sep, 0) == None && Split(s, sep) == [s]
  {
  }

  /** `s.split(sep)` for a non-empty separator: the pieces between successive leftmost occurrences. */
  function Split(s: string, sep: string): (parts: seq<string>)
    requires |sep| > 0
    ensures |parts| >= 1
    decreases |s|
  {
    match IndexOf(s, sep, 0)
    case None => [s]
    case Some(i) => [s[..i]] + Split(s[i + |sep|..], sep)
  }

  /** `parts.join(sep)`. */
  function Join(parts: seq<string>, sep: string): string {
    if |parts| == 0 then ""
    else if |parts| == 1 then parts[0]
    else parts[0] + sep + Join(parts[1..], sep)
  }

  /** Splitting and joining with the same separator gives back the string. */
  lemma {:induction false} JoinSplit(s: string, sep: string)
    requires |sep| > 0
    ensures Join(Split(s, sep), sep) == s
    decreases |s|
  {
    match IndexOf(s, sep, 0)
    case None =>
    case Some(i) =>
      var rest := s[i + |sep|..];
      var tail := Split(rest, sep);
      JoinSplit(rest, sep);
      var parts := [s[..i]] + tail;
      assert Split(s, sep) == parts;
      assert |parts| >= 2 && parts[0] == s[..i] && parts[1..] == tail;
      assert Join(parts, sep) == s[..i] + sep + Join(tail, sep);
      assert s == s[..i] + s[i..i + |sep|] + rest;
  }

  /** An occurrence inside a prefix is an occurrence in the whole string. */
  lemma OccursInPrefix(s: string, sep: string, n: nat, j: nat)
    requires n <= |s| && OccursAt(s[..n], sep, j)
    ensures OccursAt(s, sep, j)
  {
    assert s[..n][j..j + |sep|] == s[j..j + |sep|];
  }

  /** No piece of a split contains the separator. */
  lemma {:induction false} SplitPiecesFree(s: string, sep: string)
    requires |sep| > 0
    ensures forall k, j :: 0 <= k < |Split(s, sep)| ==> !OccursAt(Split(s, sep)[k], sep, j)
    decreases |s|
  {
    IndexOfSpec(s, sep, 0);
    match IndexOf(s, sep, 0)
    case None =>
      forall j ensures !OccursAt(s, sep, j) { }
    case Some(i) =>
      var rest := s[i + |sep|..];
      SplitPiecesFree(rest, sep);
      forall j: nat | OccursAt(s[..i], sep, j) ensures false {
        OccursInPrefix(s, sep, i, j);
      }
  }

  /**
   * What the tokenizer uses: the first piece of `s.split(m)` is the text before
   * the first occurrence of `m`, and `parts.slice(1).join(m)` is the text after
   * it (or "" when `m` does not occur).
   */
  lemma SplitAtFirst(s: string, m: string)
    requires |m| > 0
    ensures var parts := Split(s, m);
      match IndexOf(s, m, 0)
      case Some(i) => parts[0] == s[..i] && Join(parts[1..], m) == s[i + |m|..]
      case None => parts[0] == s && Join(parts[1..], m) == ""
  {
    var parts := Split(s, m);
    match IndexOf(s, m, 0)
    case None =>
      assert parts == [s];
    case Some(i) =>
      var tail := Split(s[i + |m|..], m);
      assert parts == [s[..i]] + tail;
      assert parts[1..] == tail;
      JoinSplit(s[i + |m|..], m);
  }

  /** No occurrence of `sep` starts inside `p`, even one running on into a separator written after it. */
  predicate SeparatorFree(p: string, sep: string) {
    forall j :: 0 <= j < |p| ==> !OccursAt(p + sep, sep, j)
  }

  /** Joining pieces free of the separator and splitting again gives back the pieces. */
  lemma {:induction false} SplitJoin(parts: seq<string>, sep: string)
    requires |sep| > 0 && parts != []
    requires forall k :: 0 <= k < |parts| ==> SeparatorFree(parts[k], sep)
    ensures Split(Join(parts, sep), sep) == parts
  {
    var p := parts[0];
    if |parts| == 1 {
      forall j: nat ensures !OccursAt(p, sep, j) {
        if OccursAt(p, sep, j) {
          assert (p + sep)[j..j + |sep|] == p[j..j + |sep|];
          assert OccursAt(p + sep, sep, j);
        }
      }
      SplitAbsent(p, sep);
    } else {
      var rest := Join(parts[1..], sep);
      var s := p + sep + rest;
      assert Join(parts, sep) == s;
      forall j | 0 <= j < |p| ensures !OccursAt(s, sep, j) {
        if OccursAt(s, sep, j) {
          assert s[j..j + |sep|] == (p + sep)[j..j + |sep|];
          assert OccursAt(p + sep, sep, j);
        }
      }
      assert s[|p|..|p| + |sep|] == sep;
      IndexOfAt(s, sep, 0, |p|);
      assert s[..|p|] == p && s[|p| + |sep|..] == rest;
      SplitJoin(parts[1..], sep);
      assert Split(s, sep) == [p] + Split(rest, sep);
    }
  }

  /** A piece without the character `c` is free of the one-character separator `[c]`. */
  lemma CharSeparatorFree(p: string, c: char)
    requires forall j :: 0 <= j < |p| ==> p[j] != c
    ensures SeparatorFree(p, [c])
  {
    forall j | 0 <= j < |p| ensures !OccursAt(p + [c], [c], j) {
      assert (p + [c])[j] == p[j];
    }
  }

  /** Number of occurrences of the character `c` in `s`. */
  function CountChar(s: string, c: char): nat {
    if s == [] then 0 else (if s[0] == c then 1 else 0) + CountChar(s[1..], c)
  }

  /** Splitting on a single character gives one more piece than it has occurrences. */
  lemma {:induction false} SplitCharCount(s: string, c: char)
    ensures |Split(s, [c])| == CountChar(s, c) + 1
    decreases |s|
  {
    IndexOfSpec(s, [c], 0);
    match IndexOf(s, [c], 0)
    case None =>
      CountCharAbsent(s, c);
    case Some(i) =>
      SplitCharCount(s[i + 1..], c);
      forall j: nat ensures !OccursAt(s[..i], [c], j) {
        if OccursAt(s[..i], [c], j) { OccursInPrefix(s, [c], i, j); }
      }
      CountCharAbsent(s[..i], c);
      OccursAtChar(s, c, i);
      CountCharAround(s, i, c);
      assert Split(s, [c]) == [s[..i]] + Split(s[i + 1..], [c]);
  }

  /** A one-character separator occurs exactly where that character is. */
  lemma OccursAtChar(s: string, c: char, j: nat)
    ensures OccursAt(s, [c], j) <==> j < |s| && s[j] == c
  {
    if j < |s| {
      assert s[j..j + 1] == [s[j]];
    }
  }

  /** Counting around one occurrence of `c`: before it, the occurrence itself, and after it. */
  lemma CountCharAround(s: string, i: nat, c: char)
    requires i < |s| && s[i] == c
    ensures CountChar(s, c) == CountChar(s[..i], c) + 1 + CountChar(s[i + 1..], c)
  {
    var rest := [s[i]] + s[i + 1..];
    assert s == s[..i] + rest;
    CountCharAppend(s[..i], rest, c);
    assert rest[1..] == s[i + 1..];
  }

  lemma {:induction false} CountCharAbsent(s: string, c: char)
    requires forall j: nat :: !OccursAt(s, [c], j)
    ensures CountChar(s, c) == 0
  {
    if s != [] {
      assert !OccursAt(s, [c], 0);
      assert s[0..1] == [s[0]];
      forall j: nat ensures !OccursAt(s[1..], [c], j) {
        assert !OccursAt(s, [c], j + 1);
      }
      CountCharAbsent(s[1..], c);
    }
  }

  lemma {:induction false} CountCharAppend(a: string, b: string, c: char)
    ensures CountChar(a + b, c) == CountChar(a, c) + CountChar(b, c)
  {
    if a != [] {
      assert (a + b)[1..] == a[1..] + b;
      CountCharAppend(a[1..], b, c);
    } else {
      assert a + b == b;
    }
  }

  // ---------------------------------------------------------------------------
  // Texts written one after the other

  /** `s` holds `x` at position `q`. */
  predicate Reads(s: string, q: nat, x: string) {
    q + |x| <= |s| && s[q..q + |x|] == x
  }

  /** The parts written one after the other. */
  function Concat(parts: seq<string>): string {
    if parts == [] then "" else parts[0] + Concat(parts[1..])
  }

  /** Where part `k` starts. */
  function Offset(parts: seq<string>, k: nat): nat
    requires k <= |parts|
  {
    if k == 0 then 0 else |parts[0]| + Offset(parts[1..], k - 1)
  }

  lemma {:induction false} PartAt(parts: seq<string>, k: nat)
    requires k < |parts|
    ensures Reads(Concat(parts), Offset(parts, k), parts[k])
    ensures Offset(parts, k + 1) == Offset(parts, k) + |parts[k]|
  {
    var s, rest := Concat(parts), Concat(parts[1..]);
    assert s == parts[0] + rest;
    if k == 0 {
      assert s[..|parts[0]|] == parts[0];
    } else {
      PartAt(parts[1..], k - 1);
      var o, n := Offset(parts[1..], k - 1), |parts[0]|;
      assert s[n + o..n + o + |parts[k]|] == rest[o..o + |parts[k]|];
    }
  }

  lemma {:induction false} ConcatLength(parts: seq<string>)
    ensures |Concat(parts)| == Offset(parts, |parts|)
  {
    if parts != [] {
      ConcatLength(parts[1..]);
    }
  }
}
