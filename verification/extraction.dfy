/**
 * What the serverless profile handler and the browser-side profile service
 * both do with the generative backend's answer: cut the JSON object out of
 * free text by its first `{` and last `}`, parse it with an opaque parser,
 * and overwrite its `googleSearchSources` with the citations found in the
 * grounding metadata.
 */
module Extraction {
  import opened Base
  import opened Json
  import opened Text
  import opened Seqs
  import opened Schema

  /** Why the answer text could not be turned into a profile value. */
  datatype ReadError =
    | MissingBrace            // no `{` or no `}` in the trimmed text
    | ParseError(message: string)  // the parser threw with this message
    | NotAnObject             // the parsed value is null or a primitive

  /** A grounding reference as the backend reports it; either field may be
      missing. */
  datatype WebRef = WebRef(uri: Option<string>, title: Option<string>)

  /** A grounding chunk, optionally carrying a web reference. */
  datatype Chunk = Chunk(web: Option<WebRef>)

  const SourcesKey: string := "googleSearchSources"

  /** `i` is the position of the first `c` in `t`. */
  predicate FirstAt(t: string, c: char, i: int) {
    0 <= i < |t| && t[i] == c && forall k :: 0 <= k < i ==> t[k] != c
  }

  /** `j` is the position of the last `c` in `t`. */
  predicate LastAt(t: string, c: char, j: int) {
    0 <= j < |t| && t[j] == c && forall k :: j < k < |t| ==> t[k] != c
  }

  lemma FirstAtIsIndexOf(t: string, c: char, i: int)
    requires FirstAt(t, c, i)
    ensures IndexOf(t, c) == i
  {
  }

  lemma LastAtIsLastIndexOf(t: string, c: char, j: int)
    requires LastAt(t, c, j)
    ensures LastIndexOf(t, c) == j
  {
  }

  /** The brace slice of already-trimmed text: locate the first `{` and the
      last `}`, fail when either is missing, otherwise take
      `substring(first, last + 1)`, with JavaScript's argument swap when the
      last `}` precedes the first `{`. */
  function BraceSlice(t: string): (r: Result<string, ReadError>)
    ensures r.Failure? <==> '{' !in t || '}' !in t
    ensures r.Failure? ==> r.error == MissingBrace
  {
    var start := IndexOf(t, '{');
    var end := LastIndexOf(t, '}');
    if start == -1 || end == -1 then Failure(MissingBrace)
    else Success(JsSubstring(t, start, end + 1))
  }

  /** Trim the answer, then take its brace slice. Trimming removes only
      whitespace, so the braces can be looked for in the untrimmed text. */
  function ExtractObjectText(text: string): (r: Result<string, ReadError>)
    ensures r.Failure? <==> '{' !in text || '}' !in text
    ensures r.Failure? ==> r.error == MissingBrace
  {
    TrimKeeps(text, '{');
    TrimKeeps(text, '}');
    BraceSlice(Trim(text))
  }

  lemma SliceSpans(t: string, i: int, j: int)
    requires FirstAt(t, '{', i) && LastAt(t, '}', j) && i <= j
    ensures BraceSlice(t) == Success(t[i..j + 1])
    ensures var v := t[i..j + 1]; |v| >= 2 && v[0] == '{' && v[|v| - 1] == '}'
  {
    FirstAtIsIndexOf(t, '{', i);
    LastAtIsLastIndexOf(t, '}', j);
  }

  lemma SliceSwapped(t: string, i: int, j: int)
    requires FirstAt(t, '{', i) && LastAt(t, '}', j) && j < i
    ensures BraceSlice(t) == Success(t[j + 1..i])
    ensures '{' !in t[j + 1..i] && '}' !in t[j + 1..i]
  {
    FirstAtIsIndexOf(t, '{', i);
    LastAtIsLastIndexOf(t, '}', j);
  }

  /** Trimming never changes the slice: the braces and everything between
      them lie inside the trimmed part, so slicing the raw text gives the
      same result. */
  lemma TrimIrrelevant(text: string)
    ensures ExtractObjectText(text) == BraceSlice(text)
  {
    var n, m := TrimPiece(text);
    FramedSlice(text, n, m);
  }

  /** Cutting whitespace off both ends of a text does not change its brace
      slice. */
  lemma FramedSlice(text: string, n: int, m: int)
    requires Framed(text, n, m)
    ensures BraceSlice(text[n..m]) == BraceSlice(text)
  {
    InFramedPiece(text, n, m, '{');
    InFramedPiece(text, n, m, '}');
    if '{' in text && '}' in text {
      var i := IndexOf(text, '{');
      var j := LastIndexOf(text, '}');
      if i <= j {
        SliceSpans(text, i, j);
        FramedSpans(text, n, m, i, j);
      } else {
        SliceSwapped(text, i, j);
        FramedSwapped(text, n, m, i, j);
      }
    } else {
      assert BraceSlice(text) == Failure(MissingBrace);
      assert BraceSlice(text[n..m]) == Failure(MissingBrace);
    }
  }

  /** The braces of a text lie inside its framed piece, so the piece's slice
      runs between the same two braces. */
  lemma FramedSpans(text: string, n: int, m: int, i: int, j: int)
    requires Framed(text, n, m)
    requires FirstAt(text, '{', i) && LastAt(text, '}', j) && i <= j
    ensures BraceSlice(text[n..m]) == Success(text[i..j + 1])
  {
    Between(text, n, m, i);
    Between(text, n, m, j);
    FirstAtInside(text, n, m, '{', i);
    LastAtInside(text, n, m, '}', j);
    SliceSpans(text[n..m], i - n, j - n);
    SliceOfSlice(text, n, m, i, j + 1);
  }

  /** The same when the last `}` comes before the first `{`. */
  lemma FramedSwapped(text: string, n: int, m: int, i: int, j: int)
    requires Framed(text, n, m)
    requires FirstAt(text, '{', i) && LastAt(text, '}', j) && j < i
    ensures BraceSlice(text[n..m]) == Success(text[j + 1..i])
  {
    Between(text, n, m, i);
    Between(text, n, m, j);
    FirstAtInside(text, n, m, '{', i);
    LastAtInside(text, n, m, '}', j);
    SliceSwapped(text[n..m], i - n, j - n);
    SliceOfSlice(text, n, m, j + 1, i);
  }

  /** The first `c` of a text, when it lies inside a piece, is the first `c`
      of the piece too. */
  lemma FirstAtInside(text: string, n: int, m: int, c: char, i: int)
    requires 0 <= n <= i < m <= |text| && FirstAt(text, c, i)
    ensures FirstAt(text[n..m], c, i - n)
  {
  }

  /** The last `c` of a text, when it lies inside a piece, is the last `c`
      of the piece too. */
  lemma LastAtInside(text: string, n: int, m: int, c: char, j: int)
    requires 0 <= n <= j < m <= |text| && LastAt(text, c, j)
    ensures LastAt(text[n..m], c, j - n)
  {
  }

  /** When the first `{` comes before the last `}`, the slice spans exactly
      from the one to the other, inclusive. */
  lemma {:induction false} ExtractSpansBraces(text: string, i: int, j: int)
    requires FirstAt(text, '{', i) && LastAt(text, '}', j) && i <= j
    ensures ExtractObjectText(text) == Success(text[i..j + 1])
  {
    TrimIrrelevant(text);
    SliceSpans(text, i, j);
  }

  /** When the last `}` comes before the first `{`, `substring` swaps its
      arguments and the slice is the text strictly between them, which holds
      no brace at all. */
  lemma {:induction false} ExtractSwapped(text: string, i: int, j: int)
    requires FirstAt(text, '{', i) && LastAt(text, '}', j) && j < i
    ensures ExtractObjectText(text) == Success(text[j + 1..i])
    ensures var v := ExtractObjectText(text).value; '{' !in v && '}' !in v
  {
    TrimIrrelevant(text);
    SliceSwapped(text, i, j);
  }

  /** A brace-delimited text is its own brace slice. */
  lemma SliceClean(t: string)
    requires |t| > 0 && t[0] == '{' && t[|t| - 1] == '}'
    ensures BraceSlice(t) == Success(t)
  {
    assert FirstAt(t, '{', 0) && LastAt(t, '}', |t| - 1);
    assert t[0..|t| - 1 + 1] == t;
    SliceSpans(t, 0, |t| - 1);
  }

  /** Idempotence on clean input: text that already starts with `{` and ends
      with `}` is returned whole. */
  lemma ExtractClean(text: string)
    requires |text| > 0 && text[0] == '{' && text[|text| - 1] == '}'
    ensures ExtractObjectText(text) == Success(text)
  {
    TrimIrrelevant(text);
    SliceClean(text);
  }

  /** A brace slice that contains a `{` is delimited by braces, so slicing
      it again gives it back. */
  lemma SliceIdempotent(t: string, v: string)
    requires BraceSlice(t) == Success(v) && '{' in v
    ensures BraceSlice(v) == Success(v)
  {
    var i := IndexOf(t, '{');
    var j := LastIndexOf(t, '}');
    if j < i {
      SliceSwapped(t, i, j);
    } else {
      SliceSpans(t, i, j);
      SliceClean(v);
    }
  }

  /** Extracting again from an extracted object gives it back. */
  lemma ExtractIdempotent(text: string, v: string)
    requires ExtractObjectText(text) == Success(v) && '{' in v
    ensures ExtractObjectText(v) == Success(v)
  {
    TrimIrrelevant(text);
    TrimIrrelevant(v);
    SliceIdempotent(text, v);
  }

  /** Prose around an object is stripped: with no `{` before the object and
      no `}` after it, the object itself is extracted. */
  lemma {:induction false} ExtractFromProse(before: string, obj: string, after: string)
    requires '{' !in before && '}' !in after
    requires |obj| > 0 && obj[0] == '{' && obj[|obj| - 1] == '}'
    ensures ExtractObjectText(before + obj + after) == Success(obj)
  {
    var text := before + obj + after;
    var i, j := |before|, |before| + |obj| - 1;
    forall k | 0 <= k < i
      ensures text[k] != '{'
    {
      assert text[k] == before[k];
    }
    forall k | j < k < |text|
      ensures text[k] != '}'
    {
      assert text[k] == after[k - j - 1];
    }
    assert FirstAt(text, '{', i);
    assert LastAt(text, '}', j);
    ExtractSpansBraces(text, i, j);
    assert text[i..j + 1] == obj;
  }

  /** The JavaScript test `web?.uri && web?.title`. */
  predicate Cited(c: Chunk) {
    c.web.Some? && Present(c.web.value.uri) && Present(c.web.value.title)
  }

  /** A chunk's web reference as a (uri, title) pair, with a missing field
      read as the (equally falsy) empty string. */
  function Link(c: Chunk): Source {
    match c.web
    case None => Source("", "")
    case Some(w) =>
      Source(if w.uri.Some? then w.uri.value else "", if w.title.Some? then w.title.value else "")
  }

  /** A source with both fields non-empty. */
  predicate Complete(s: Source) {
    s.uri != "" && s.title != ""
  }

  /** The filter's test on a chunk agrees with completeness of its link. */
  lemma CitedIffComplete(c: Chunk)
    ensures Cited(c) <==> Complete(Link(c))
  {
  }

  /** `chunks.map(chunk => chunk.web)`, as (uri, title) pairs. */
  function Links(chunks: seq<Chunk>): (r: seq<Source>)
    ensures |r| == |chunks|
    ensures forall k :: 0 <= k < |chunks| ==> r[k] == Link(chunks[k])
  {
    seq(|chunks|, k requires 0 <= k < |chunks| => Link(chunks[k]))
  }

  /** `groundingChunks?.map(...).filter(web => web?.uri && web?.title) || []`:
      the cited references in chunk order, or nothing when the metadata has
      no chunk list. */
  function GroundingSources(chunks: Option<seq<Chunk>>): (r: seq<Source>)
    ensures chunks.None? ==> r == []
    ensures forall k :: 0 <= k < |r| ==> Complete(r[k])
    ensures chunks.Some? ==> IsSubsequence(r, Links(chunks.value))
    ensures chunks.Some? ==>
      forall s :: multiset(r)[s] == if Complete(s) then multiset(Links(chunks.value))[s] else 0
  {
    match chunks
    case None => []
    case Some(cs) =>
      FilterCounts(Links(cs), Complete);
      FilterSubsequence(Links(cs), Complete);
      Filter(Links(cs), Complete)
  }

  /** Every cited chunk contributes its reference; no other chunk does. */
  lemma CitedChunksKept(chunks: seq<Chunk>, s: Source)
    ensures s in GroundingSources(Some(chunks)) <==>
      exists k :: 0 <= k < |chunks| && Cited(chunks[k]) && Link(chunks[k]) == s
  {
    var r := GroundingSources(Some(chunks));
    var ls := Links(chunks);
    assert s in r <==> multiset(r)[s] > 0;
    assert s in ls <==> multiset(ls)[s] > 0;
    if s in r {
      var k :| 0 <= k < |ls| && ls[k] == s;
      CitedIffComplete(chunks[k]);
    }
    if exists k :: 0 <= k < |chunks| && Cited(chunks[k]) && Link(chunks[k]) == s {
      var k :| 0 <= k < |chunks| && Cited(chunks[k]) && Link(chunks[k]) == s;
      assert ls[k] == s;
    }
  }

  /** The citation list as the JSON array stored in the profile. */
  function SourcesJson(sources: seq<Source>): (r: Json)
    ensures r.JArr? && |r.items| == |sources|
    ensures forall k :: 0 <= k < |sources| ==>
      Get(r.items[k], "uri") == Some(JStr(sources[k].uri)) &&
      Get(r.items[k], "title") == Some(JStr(sources[k].title))
  {
    JArr(seq(|sources|, k requires 0 <= k < |sources| =>
      JObj(map["uri" := JStr(sources[k].uri), "title" := JStr(sources[k].title)])))
  }

  /** From answer text to profile value: slice, parse, then overwrite the
      citation list. */
  function ReadProfile(text: string, chunks: Option<seq<Chunk>>, parse: string -> Result<Json, string>)
    : (r: Result<Json, ReadError>)
    ensures r == Failure(MissingBrace) <==> '{' !in text || '}' !in text
    ensures r.Success? ==> r.value.JObj? || r.value.JArr?
    ensures r.Success? && r.value.JObj? ==>
      Get(r.value, SourcesKey) == Some(SourcesJson(GroundingSources(chunks)))
    ensures var e := ExtractObjectText(text);
      e.Success? && parse(e.value).Failure? ==> r == Failure(ParseError(parse(e.value).error))
    ensures var e := ExtractObjectText(text);
      e.Success? && parse(e.value).Success? && parse(e.value).value.JObj? ==>
        r.Success? && r.value.JObj? &&
        forall k :: k != SourcesKey ==> Get(r.value, k) == Get(parse(e.value).value, k)
    ensures var e := ExtractObjectText(text);
      e.Success? && parse(e.value).Success? && parse(e.value).value.JArr? ==> r == Success(parse(e.value).value)
    ensures var e := ExtractObjectText(text);
      (e.Success? && parse(e.value).Success? && !parse(e.value).value.JObj? && !parse(e.value).value.JArr?)
        ==> r == Failure(NotAnObject)
  {
    match ExtractObjectText(text)
    case Failure(e) => Failure(e)
    case Success(slice) =>
      match parse(slice)
      case Failure(m) => Failure(ParseError(m))
      case Success(v) =>
        match Put(v, SourcesKey, SourcesJson(GroundingSources(chunks)))
        case None => Failure(NotAnObject)
        case Some(w) => Success(w)
  }
}
