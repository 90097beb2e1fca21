/**
 * The OpenAI-compatible adapter without its network call: the base URL
 * normalisation of the constructor, the configuration test, and the
 * fixed-size chunking of long texts.
 */
module OpenAICompatible {

  /** `chunkText`'s default chunk size, in UTF-16 code units. */
  const DefaultChunkSize: nat := 8000

  /** `apiBase.endsWith('/') ? apiBase.slice(0, -1) : apiBase`. */
  function WithoutTrailingSlash(s: string): (r: string)
    ensures r <= s && |s| - |r| <= 1
    ensures |r| < |s| <==> s != [] && s[|s| - 1] == '/'
  {
    if s != [] && s[|s| - 1] == '/' then s[..|s| - 1] else s
  }

  /** Only one slash goes: a base ending in `//` keeps the second to last. */
  lemma OneSlashOnly(s: string)
    ensures WithoutTrailingSlash(s + "//") == s + "/"
  {
    assert (s + "//")[..|s| + 1] == s + "/";
  }

  /** The normalised base is empty exactly for `''` and `'/'`. */
  lemma EmptyBase(s: string)
    ensures WithoutTrailingSlash(s) == [] <==> s == [] || s == "/"
  {
    if |s| == 1 && s[0] == '/' {
      assert s == "/";
    }
  }

  class OpenAICompatibleAdapter {
    var apiKey: string
    var baseUrl: string
    var model: string

    constructor (apiKey: string, apiBase: string, model: string)
      ensures this.apiKey == apiKey && baseUrl == WithoutTrailingSlash(apiBase) && this.model == model
      ensures IsConfigured() <==> apiKey != [] && apiBase != [] && apiBase != "/" && model != []
    {
      this.apiKey := apiKey;
      baseUrl := WithoutTrailingSlash(apiBase);
      this.model := model;
      EmptyBase(apiBase);
    }

    /** `!!this.apiKey && !!this.baseURL && !!this.model`: only the empty string is falsy. */
    predicate IsConfigured()
      reads this
    {
      apiKey != [] && baseUrl != [] && model != []
    }
  }

  // ---------------------------------------------------------------------------
  // Chunking

  /**
   * A UTF-16 code unit. A JavaScript string is a sequence of these, and
   * `length` and `slice` count and cut code units, not characters.
   */
  newtype CodeUnit = x: int | 0 <= x < 0x1_0000

  /** The code units of one character: the character itself below U+10000, its surrogate pair above. */
  function Utf16Char(c: char): (u: seq<CodeUnit>)
    ensures |u| == (if c as int < 0x1_0000 then 1 else 2)
  {
    var v := c as int;
    if v < 0x1_0000 then [v as CodeUnit]
    else [(0xD800 + (v - 0x1_0000) / 0x400) as CodeUnit, (0xDC00 + (v - 0x1_0000) % 0x400) as CodeUnit]
  }

  /** The JavaScript string holding the characters of `s`. */
  function Utf16(s: string): seq<CodeUnit> {
    if s == [] then [] else Utf16Char(s[0]) + Utf16(s[1..])
  }

  /** A code unit reserved for surrogate pairs: no character is one on its own. */
  predicate IsSurrogate(u: CodeUnit) { 0xD800 <= u < 0xE000 }

  /** A text of characters below U+10000 has one code unit per character, each the character itself. */
  lemma {:induction false} BasicPlaneUtf16(s: string)
    requires forall i :: 0 <= i < |s| ==> s[i] as int < 0x1_0000
    ensures |Utf16(s)| == |s| && forall i :: 0 <= i < |s| ==> Utf16(s)[i] as int == s[i] as int
  {
    if s != [] {
      BasicPlaneUtf16(s[1..]);
      assert Utf16(s) == [s[0] as int as CodeUnit] + Utf16(s[1..]);
    }
  }

  /** A character above U+10000 takes two code units, a high and then a low surrogate. */
  lemma AstralUtf16(c: char)
    requires c as int >= 0x1_0000
    ensures var u := Utf16([c]);
      |u| == 2 && 0xD800 <= u[0] < 0xDC00 && 0xDC00 <= u[1] < 0xE000
  {
    assert Utf16([c]) == Utf16Char(c) + Utf16([]);
  }

  /** A lone surrogate is the text of no string of characters. */
  lemma LoneSurrogate(s: string, u: CodeUnit)
    requires IsSurrogate(u)
    ensures Utf16(s) != [u]
  {
    if s != [] {
      var c := s[0];
      assert |Utf16(s)| >= |Utf16Char(c)|;
      if |Utf16(s)| == 1 {
        assert Utf16(s)[0] == Utf16Char(c)[0] && Utf16Char(c)[0] as int == c as int;
      }
    }
  }

  /**
   * The slices `chunkText` pushes from offset `i` on: `text.slice(i, i + size)`,
   * then the next offset. A step of zero is allowed only once the text is used
   * up, where the loop does not run.
   */
  function ChunksFrom<T>(text: seq<T>, size: nat, i: nat): seq<seq<T>>
    requires size > 0 || i >= |text|
    decreases |text| - i
  {
    if i >= |text| then []
    else [text[i..if i + size <= |text| then i + size else |text|]] + ChunksFrom(text, size, i + size)
  }

  function Chunks<T>(text: seq<T>, size: nat): seq<seq<T>>
    requires size > 0 || text == []
  {
    ChunksFrom(text, size, 0)
  }

  function Flatten<T>(parts: seq<seq<T>>): seq<T> {
    if parts == [] then [] else parts[0] + Flatten(parts[1..])
  }

  /**
   * `OpenAICompatibleAdapter.chunkText`: step through the text `chunkSize`
   * code units at a time. A positive step ends the loop; on an empty text
   * the loop does not run whatever the step.
   */
  method ChunkText(text: seq<CodeUnit>, chunkSize: nat := DefaultChunkSize) returns (chunks: seq<seq<CodeUnit>>)
    requires chunkSize > 0 || text == []
    ensures chunks == Chunks(text, chunkSize)
  {
    chunks := [];
    var i := 0;
    while i < |text|
      invariant chunks + ChunksFrom(text, chunkSize, i) == Chunks(text, chunkSize)
      decreases |text| - i
    {
      var end := if i + chunkSize <= |text| then i + chunkSize else |text|;
      assert ChunksFrom(text, chunkSize, i) == [text[i..end]] + ChunksFrom(text, chunkSize, i + chunkSize);
      assert chunks + ChunksFrom(text, chunkSize, i) == (chunks + [text[i..end]]) + ChunksFrom(text, chunkSize, i + chunkSize);
      chunks := chunks + [text[i..end]];
      i := i + chunkSize;
    }
  }

  /** Concatenating the chunks gives back the text. */
  lemma {:induction false} ChunksConcat<T>(text: seq<T>, size: nat, i: nat)
    requires size > 0
    ensures Flatten(ChunksFrom(text, size, i)) == if i < |text| then text[i..] else []
    decreases |text| - i
  {
    if i < |text| {
      ChunksConcat(text, size, i + size);
      var end := if i + size <= |text| then i + size else |text|;
      var cs := ChunksFrom(text, size, i);
      assert cs == [text[i..end]] + ChunksFrom(text, size, i + size);
      assert cs[0] == text[i..end] && cs[1..] == ChunksFrom(text, size, i + size);
      assert Flatten(cs) == text[i..end] + Flatten(cs[1..]);
      assert text[i..] == text[i..end] + (if i + size < |text| then text[i + size..] else []);
    }
  }

  /** Every chunk holds at most `size` code units, and every one but the last exactly `size`. */
  predicate SizedChunks<T>(cs: seq<seq<T>>, size: nat) {
    forall k :: 0 <= k < |cs| ==> 0 < |cs[k]| <= size && (k < |cs| - 1 ==> |cs[k]| == size)
  }

  lemma {:induction false} ChunkLengths<T>(text: seq<T>, size: nat, i: nat)
    requires size > 0
    ensures SizedChunks(ChunksFrom(text, size, i), size)
    decreases |text| - i
  {
    if i < |text| {
      ChunkLengths(text, size, i + size);
      var end := if i + size <= |text| then i + size else |text|;
      var cs := ChunksFrom(text, size, i);
      var rest := ChunksFrom(text, size, i + size);
      assert cs == [text[i..end]] + rest;
      assert rest != [] ==> i + size < |text|;
      forall k | 0 <= k < |cs| ensures 0 < |cs[k]| <= size && (k < |cs| - 1 ==> |cs[k]| == size) {
        if k > 0 {
          assert cs[k] == rest[k - 1];
        }
      }
    }
  }

  /** There are ⌈(|text| - i) / size⌉ chunks from offset `i`: none for an empty remainder. */
  lemma {:induction false} ChunkCount<T>(text: seq<T>, size: nat, i: nat)
    requires size > 0
    ensures |ChunksFrom(text, size, i)| == if i < |text| then (|text| - i + size - 1) / size else 0
    decreases |text| - i
  {
    if i < |text| {
      ChunkCount(text, size, i + size);
      var n := |text| - i;
      var cs := ChunksFrom(text, size, i);
      var rest := ChunksFrom(text, size, i + size);
      assert |cs| == 1 + |rest|;
      if n <= size {
        assert rest == [];
        DivOne(n + size - 1, size);
      } else {
        assert |rest| == (n - 1) / size;
        DivStep(n + size - 1, size);
      }
    }
  }

  lemma DivOne(x: nat, size: nat)
    requires 0 < size <= x < 2 * size
    ensures x / size == 1
  { }

  lemma DivStep(x: nat, size: nat)
    requires 0 < size <= x
    ensures x / size == (x - size) / size + 1
  {
    var q, r := (x - size) / size, (x - size) % size;
    assert x - size == size * q + r;
    assert x == size * (q + 1) + r;
    DivUnique(x, size, q + 1, r);
  }

  /** Euclidean division has one quotient. */
  lemma DivUnique(x: int, d: int, q: int, r: int)
    requires d > 0 && 0 <= r < d && x == d * q + r
    ensures x / d == q
  {
    var q', r' := x / d, x % d;
    assert x == d * q' + r';
    if q' < q {
      MulMonotone(d, q' + 1, q);
    } else if q < q' {
      MulMonotone(d, q + 1, q');
    }
  }

  lemma MulMonotone(d: int, a: int, b: int)
    requires d > 0 && a <= b
    ensures d * a <= d * b
  { }

  /**
   * The whole text: it is reproduced, in chunks of the promised lengths,
   * ⌈|text| / size⌉ of them; an empty text gives no chunk, whatever the size.
   */
  lemma ChunksSpec<T>(text: seq<T>, size: nat)
    requires size > 0 || text == []
    ensures var cs := Chunks(text, size);
      && Flatten(cs) == text
      && SizedChunks(cs, size)
      && (size > 0 ==> |cs| == (|text| + size - 1) / size)
      && (text == [] <==> cs == [])
  {
    if size > 0 {
      ChunksConcat(text, size, 0);
      ChunkLengths(text, size, 0);
      ChunkCount(text, size, 0);
    }
  }

  /**
   * A character above U+10000 is cut in two by a chunk boundary that falls
   * inside it: with a size of one, `'𠀀'` gives two chunks, each a lone
   * surrogate that no string of characters encodes.
   */
  lemma SplitSurrogatePair()
    ensures Chunks(Utf16("𠀀"), 1) == [[0xD840], [0xDC00]]
    ensures forall s: string :: Utf16(s) != Chunks(Utf16("𠀀"), 1)[0] && Utf16(s) != Chunks(Utf16("𠀀"), 1)[1]
  {
    var u := Utf16("𠀀");
    assert u == Utf16Char('𠀀') + Utf16([]);
    assert u == [0xD840, 0xDC00];
    assert u[0..1] == [0xD840] && u[1..2] == [0xDC00];
    assert ChunksFrom(u, 1, 1) == [[0xDC00]] + ChunksFrom(u, 1, 2);
    forall s: string ensures Utf16(s) != [0xD840] && Utf16(s) != [0xDC00] {
      LoneSurrogate(s, 0xD840);
      LoneSurrogate(s, 0xDC00);
    }
  }
}
