/**
 * The revision markers `【新增：…】` and `【删除：…】` that the review asks
 * the model to write into the revised contract, and the regular expression
 * `/【新增[：:](.+?)】/g` (and its `删除` twin) that both the Word
 * generator and the results page use to find them, written out as a scanner.
 */
module Markers {
  import opened Wrappers
  import opened JsStrings

  /** An addition `【新增：…】` or a deletion `【删除：…】`. */
  datatype Kind = Addition | Deletion

  /** The two characters after `【`. */
  function Word(k: Kind): string {
    match k
    case Addition => "新增"
    case Deletion => "删除"
  }

  const Open: char := '【'
  const Close: char := '】'

  /** `[：:]`: a full-width or a half-width colon. */
  predicate IsMarkerColon(c: char) { c == '：' || c == ':' }

  /**
   * `(.+?)】` once the first payload character is taken: the lazy group grows
   * one character at a time up to the first `】`, and `.` refuses a line
   * terminator on the way.
   */
  function LazyClose(s: string, j: nat): (q: Option<nat>)
    ensures q.Some? ==> j <= q.value < |s|
    decreases |s| - j
  {
    if j >= |s| then None
    else if s[j] == Close then Some(j)
    else if IsLineTerminator(s[j]) then None
    else LazyClose(s, j + 1)
  }

  /** The lazy group stops at the first `】`, having crossed only characters `.` accepts. */
  lemma {:induction false} LazyCloseSpec(s: string, j: nat)
    requires LazyClose(s, j).Some?
    ensures var q := LazyClose(s, j).value;
      s[q] == Close && forall i :: j <= i < q ==> s[i] != Close && !IsLineTerminator(s[i])
    decreases |s| - j
  {
    if s[j] != Close {
      LazyCloseSpec(s, j + 1);
    }
  }

  /** And it does stop there. */
  lemma {:induction false} LazyCloseAt(s: string, j: nat, q: nat)
    requires j <= q < |s| && s[q] == Close
    requires forall i :: j <= i < q ==> s[i] != Close && !IsLineTerminator(s[i])
    ensures LazyClose(s, j) == Some(q)
    decreases q - j
  {
    if j < q {
      LazyCloseAt(s, j + 1, q);
    }
  }

  /**
   * The marker regular expression tried at the start of `s`: its length when
   * it matches. Position 4 is the first payload character, which may be any
   * character `.` accepts, `】` included; the group then stops at the first
   * `】` after it.
   */
  function MarkerLength(s: string, k: Kind): (n: Option<nat>)
    ensures n.Some? ==> 6 <= n.value <= |s|
  {
    if |s| < 6 || s[0] != Open || s[1..3] != Word(k) || !IsMarkerColon(s[3]) || IsLineTerminator(s[4]) then None
    else
      match LazyClose(s, 5)
      case None => None
      case Some(q) => Some(q + 1)
  }

  /**
   * `line.match(/【新增[：:](.+?)】/g)` (an empty list for `null`): the
   * matched texts from left to right. A failed attempt moves on by one
   * character, a match resumes after its end.
   */
  function Scan(s: string, k: Kind): seq<string>
    decreases |s|
  {
    if s == [] then []
    else
      match MarkerLength(s, k)
      case Some(n) => [s[..n]] + Scan(s[n..], k)
      case None => Scan(s[1..], k)
  }

  /** `match.match(/【新增[：:](.+?)】/)[1]`: the capture of a marker text matched on its own. */
  function Payload(m: string, k: Kind): (p: string)
    requires MarkerLength(m, k).Some?
    ensures p != []
  {
    m[4..MarkerLength(m, k).value - 1]
  }

  /** Matching a found marker text on its own matches all of it again, so its payload is the one the scan saw. */
  lemma ScanRematch(s: string, k: Kind)
    ensures forall m :: m in Scan(s, k) ==> MarkerLength(m, k) == Some(|m|)
    decreases |s|
  {
    if s != [] {
      match MarkerLength(s, k)
      case Some(n) =>
        ScanRematch(s[n..], k);
        PrefixRematch(s, k);
      case None =>
        ScanRematch(s[1..], k);
    }
  }

  lemma PrefixRematch(s: string, k: Kind)
    requires MarkerLength(s, k).Some?
    ensures MarkerLength(s[..MarkerLength(s, k).value], k) == Some(MarkerLength(s, k).value)
  {
    var n := MarkerLength(s, k).value;
    var m := s[..n];
    LazyCloseSpec(s, 5);
    assert m[1..3] == s[1..3];
    forall i | 5 <= i < n - 1 ensures m[i] != Close && !IsLineTerminator(m[i]) {
      assert m[i] == s[i];
    }
    LazyCloseAt(m, 5, n - 1);
  }

  /** `【新增：x】` written out, with either colon. */
  function Markup(k: Kind, colon: char, payload: string): string {
    [Open] + Word(k) + [colon] + payload + [Close]
  }

  /** No `【`: no marker can start in such a text. */
  predicate NoOpen(t: string) {
    forall i :: 0 <= i < |t| ==> t[i] != Open
  }

  /** A payload the scanner reads back whole: non-empty, without brackets or line terminators. */
  predicate IsCleanPayload(x: string) {
    x != [] && forall i :: 0 <= i < |x| ==> x[i] != Open && x[i] != Close && !IsLineTerminator(x[i])
  }

  /** A well-formed marker of kind `k` is matched whole, whatever follows it. */
  lemma MarkupMatches(k: Kind, colon: char, x: string, rest: string)
    requires IsMarkerColon(colon) && IsCleanPayload(x)
    ensures MarkerLength(Markup(k, colon, x) + rest, k) == Some(|x| + 5)
  {
    var s := Markup(k, colon, x) + rest;
    var q := |x| + 4;
    assert s[1..3] == Word(k);
    assert s[3] == colon && s[4] == x[0] && s[q] == Close;
    forall i | 5 <= i < q ensures s[i] != Close && !IsLineTerminator(s[i]) {
      assert s[i] == x[i - 4];
    }
    LazyCloseAt(s, 5, q);
  }

  /** A marker of the other kind is not matched at its `【`. */
  lemma MarkupOtherKind(k: Kind, colon: char, x: string, rest: string, other: Kind)
    requires other != k
    ensures MarkerLength(Markup(k, colon, x) + rest, other).None?
  {
    var s := Markup(k, colon, x) + rest;
    assert |s| >= 5 ==> s[1..3] == Word(k);
  }

  /** The scan passes over a text with no `【`. */
  lemma {:induction false} ScanSkip(t: string, s: string, k: Kind)
    requires NoOpen(t)
    ensures Scan(t + s, k) == Scan(s, k)
    decreases |t|
  {
    if t != [] {
      assert (t + s)[0] == t[0];
      assert MarkerLength(t + s, k).None?;
      assert (t + s)[1..] == t[1..] + s;
      ScanSkip(t[1..], s, k);
    } else {
      assert t + s == s;
    }
  }

  /** The marker text, without its `【`, holds no `【`. */
  lemma MarkupTailNoOpen(k: Kind, colon: char, x: string)
    requires IsMarkerColon(colon) && IsCleanPayload(x)
    ensures NoOpen(Markup(k, colon, x)[1..])
  {
    var m := Markup(k, colon, x);
    forall i | 1 <= i < |m| ensures m[i] != Open {
      if 4 <= i < |m| - 1 {
        assert m[i] == x[i - 4];
      } else if i < 3 {
        assert m[1..3] == Word(k);
      }
    }
  }

  /** The scan finds a well-formed marker of its kind and passes over one of the other kind. */
  lemma ScanMarkup(k: Kind, colon: char, x: string, rest: string, scanned: Kind)
    requires IsMarkerColon(colon) && IsCleanPayload(x)
    ensures Scan(Markup(k, colon, x) + rest, scanned)
      == (if k == scanned then [Markup(k, colon, x)] else []) + Scan(rest, scanned)
  {
    var m := Markup(k, colon, x);
    var s := m + rest;
    if k == scanned {
      MarkupMatches(k, colon, x, rest);
      assert s[..|m|] == m && s[|m|..] == rest;
    } else {
      MarkupOtherKind(k, colon, x, rest, scanned);
      MarkupTailNoOpen(k, colon, x);
      assert s[1..] == m[1..] + rest;
      ScanSkip(m[1..], rest, scanned);
    }
  }

  /** A marker occurrence as written in a line: its kind, its colon, its payload. */
  datatype Mark = Mark(kind: Kind, colon: char, payload: string)

  /** A marker and the plain text right before it. */
  datatype Block = Block(before: string, mark: Mark)

  function MarkText(m: Mark): string {
    Markup(m.kind, m.colon, m.payload)
  }

  /** The text of a line made of blocks. */
  function RenderBlocks(bs: seq<Block>): string {
    if bs == [] then "" else bs[0].before + MarkText(bs[0].mark) + RenderBlocks(bs[1..])
  }

  /** Plain texts free of `【` and markers the scanner reads back whole. */
  predicate WellFormedBlocks(bs: seq<Block>) {
    forall i :: 0 <= i < |bs| ==> NoOpen(bs[i].before) && IsMarkerColon(bs[i].mark.colon) && IsCleanPayload(bs[i].mark.payload)
  }

  /** The marker texts of kind `k`, in order. */
  function MarkTexts(bs: seq<Block>, k: Kind): seq<string> {
    if bs == [] then []
    else (if bs[0].mark.kind == k then [MarkText(bs[0].mark)] else []) + MarkTexts(bs[1..], k)
  }

  /** On a line written as blocks, the scan finds exactly the markers of its kind, in order. */
  lemma {:induction false} ScanBlocks(bs: seq<Block>, rest: string, k: Kind)
    requires WellFormedBlocks(bs)
    ensures Scan(RenderBlocks(bs) + rest, k) == MarkTexts(bs, k) + Scan(rest, k)
  {
    if bs != [] {
      var tail := RenderBlocks(bs[1..]) + rest;
      var found := if bs[0].mark.kind == k then [MarkText(bs[0].mark)] else [];
      WellFormedTail(bs);
      calc {
        Scan(RenderBlocks(bs) + rest, k);
      == { assert RenderBlocks(bs) + rest == bs[0].before + MarkText(bs[0].mark) + tail; }
        Scan(bs[0].before + MarkText(bs[0].mark) + tail, k);
      == { ScanBlock(bs[0], tail, k); }
        found + Scan(tail, k);
      == { ScanBlocks(bs[1..], rest, k); }
        found + (MarkTexts(bs[1..], k) + Scan(rest, k));
      ==
        found + MarkTexts(bs[1..], k) + Scan(rest, k);
      }
    } else {
      assert RenderBlocks(bs) + rest == rest;
    }
  }

  lemma WellFormedTail(bs: seq<Block>)
    requires bs != [] && WellFormedBlocks(bs)
    ensures WellFormedBlocks(bs[1..])
  {
    forall i | 0 <= i < |bs| - 1
      ensures NoOpen(bs[1..][i].before) && IsMarkerColon(bs[1..][i].mark.colon) && IsCleanPayload(bs[1..][i].mark.payload)
    {
      assert bs[1..][i] == bs[i + 1];
    }
  }

  /** One block: the scan passes over its plain text, then finds or passes over its marker. */
  lemma ScanBlock(b: Block, tail: string, k: Kind)
    requires NoOpen(b.before) && IsMarkerColon(b.mark.colon) && IsCleanPayload(b.mark.payload)
    ensures Scan(b.before + MarkText(b.mark) + tail, k)
      == (if b.mark.kind == k then [MarkText(b.mark)] else []) + Scan(tail, k)
  {
    assert b.before + MarkText(b.mark) + tail == b.before + (MarkText(b.mark) + tail);
    ScanSkip(b.before, MarkText(b.mark) + tail, k);
    ScanMarkup(b.mark.kind, b.mark.colon, b.mark.payload, tail, k);
  }

  /** A `【新增：】` with nothing inside is no marker of either kind: the group needs a character and a `】` after it. */
  lemma EmptyMarkerIgnored(k: Kind, colon: char, scanned: Kind)
    requires IsMarkerColon(colon)
    ensures Scan([Open] + Word(k) + [colon, Close], scanned) == []
  {
    var s := [Open] + Word(k) + [colon, Close];
    assert |s| == 5;
    var t := s[1..];
    assert t == Word(k) + [colon, Close];
    assert NoOpen(t) by {
      assert Word(k)[0] != Open && Word(k)[1] != Open;
    }
    assert s[1..] + [] == t;
    ScanSkip(t, [], scanned);
  }

  /** A text without `【` holds no marker. */
  lemma NoOpenScan(t: string, k: Kind)
    requires NoOpen(t)
    ensures Scan(t, k) == []
  {
    assert t + [] == t;
    ScanSkip(t, [], k);
  }

  /** Matched on its own, a well-formed marker is matched whole and its capture is the payload written in it. */
  lemma PayloadOfMarkup(k: Kind, colon: char, x: string)
    requires IsMarkerColon(colon) && IsCleanPayload(x)
    ensures MarkerLength(Markup(k, colon, x), k) == Some(|Markup(k, colon, x)|)
    ensures Payload(Markup(k, colon, x), k) == x
  {
    var m := Markup(k, colon, x);
    MarkupMatches(k, colon, x, []);
    assert m + [] == m;
    assert m[4..|x| + 4] == x;
  }

  /** Markers all of kind `k`. */
  predicate OfKind(bs: seq<Block>, k: Kind) {
    forall i :: 0 <= i < |bs| ==> bs[i].mark.kind == k
  }

  lemma {:induction false} RenderAppend(a: seq<Block>, b: seq<Block>)
    ensures RenderBlocks(a + b) == RenderBlocks(a) + RenderBlocks(b)
  {
    if a != [] {
      assert (a + b)[0] == a[0] && (a + b)[1..] == a[1..] + b;
      RenderAppend(a[1..], b);
    } else {
      assert a + b == b;
    }
  }

  lemma {:induction false} MarkTextsAppend(a: seq<Block>, b: seq<Block>, k: Kind)
    ensures MarkTexts(a + b, k) == MarkTexts(a, k) + MarkTexts(b, k)
  {
    if a != [] {
      assert (a + b)[0] == a[0] && (a + b)[1..] == a[1..] + b;
      MarkTextsAppend(a[1..], b, k);
      var found := if a[0].mark.kind == k then [MarkText(a[0].mark)] else [];
      calc {
        MarkTexts(a + b, k);
        found + MarkTexts(a[1..] + b, k);
        found + (MarkTexts(a[1..], k) + MarkTexts(b, k));
        found + MarkTexts(a[1..], k) + MarkTexts(b, k);
      }
    } else {
      assert a + b == b;
    }
  }

  /** Markers all of another kind contribute nothing to a scan for `k`. */
  lemma {:induction false} MarkTextsOtherKind(bs: seq<Block>, other: Kind, k: Kind)
    requires OfKind(bs, other) && other != k
    ensures MarkTexts(bs, k) == []
  {
    if bs != [] {
      MarkTextsOtherKind(bs[1..], other, k);
    }
  }

  /** Markers all of kind `k` are all found, one text per block. */
  lemma {:induction false} MarkTextsOfKind(bs: seq<Block>, k: Kind)
    requires OfKind(bs, k)
    ensures |MarkTexts(bs, k)| == |bs|
    ensures bs != [] ==> MarkTexts(bs, k) == [MarkText(bs[0].mark)] + MarkTexts(bs[1..], k)
  {
    if bs != [] {
      MarkTextsOfKind(bs[1..], k);
    }
  }
}
