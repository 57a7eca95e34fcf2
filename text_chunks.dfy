/** Chunk assembly: `get_text_chunks` in utils.py.

    The LangChain text splitter is a library whose code is not modelled. It is
    a parameter `split` of type `Splitter`: a deterministic function from the
    splitter's configuration and a text to the list of pieces it produces. */
module TextChunks {
  import opened Wrappers

  /** config.py: TEXT_CHUNK_SIZE and TEXT_CHUNK_OVERLAP. */
  const TEXT_CHUNK_SIZE: nat := 1000
  const TEXT_CHUNK_OVERLAP: nat := 200

  /** The arguments `RecursiveCharacterTextSplitter` is built with; the length
      function is always `len`, so it is not a field. */
  datatype SplitterConfig = SplitterConfig(chunkSize: nat, chunkOverlap: nat)

  /** The one splitter `get_text_chunks` builds. */
  const TextSplitter: SplitterConfig := SplitterConfig(TEXT_CHUNK_SIZE, TEXT_CHUNK_OVERLAP)

  /** `splitter.split_text(text)`, for a splitter built with the given configuration. */
  type Splitter = (SplitterConfig, string) -> seq<string>

  /** The value `doc_data.get('text', '')` finds: no 'text' key, a value that
      is not a `str`, or a string. */
  datatype TextField = Absent | NotAString | Str(value: string)

  /** One loaded document: the dict `{'name': ..., 'text': ...}`. */
  datatype DocumentData = DocumentData(name: string, text: TextField)

  /** A LangChain `Document` with `page_content` and the metadata
      `{'source': ..., 'chunk_id': ...}`. */
  datatype ChunkDocument = ChunkDocument(pageContent: string, source: string, chunkId: string)

  // ---------------------------------------------------------------------------
  // str.strip()

  /** The characters Python's `str.isspace()` accepts, which `str.strip()` removes. */
  predicate IsSpace(c: char) {
    ('\t' <= c <= '\r') || ('\U{1C}' <= c <= ' ') ||
    c == '\U{85}' || c == '\U{A0}' || c == '\U{1680}' || ('\U{2000}' <= c <= '\U{200A}') ||
    c == '\U{2028}' || c == '\U{2029}' || c == '\U{202F}' || c == '\U{205F}' || c == '\U{3000}'
  }

  function StripLeading(s: string): string {
    if |s| > 0 && IsSpace(s[0]) then StripLeading(s[1..]) else s
  }

  function StripTrailing(s: string): string {
    if |s| > 0 && IsSpace(s[|s| - 1]) then StripTrailing(s[..|s| - 1]) else s
  }

  /** `s.strip()` with no argument. */
  function Strip(s: string): string {
    StripTrailing(StripLeading(s))
  }

  lemma {:induction false} StripLeadingEmpty(s: string)
    ensures StripLeading(s) == [] <==> forall i | 0 <= i < |s| :: IsSpace(s[i])
  {
    if |s| > 0 && IsSpace(s[0]) {
      StripLeadingEmpty(s[1..]);
      assert forall i | 1 <= i < |s| :: s[i] == s[1..][i - 1];
    }
  }

  lemma {:induction false} StripLeadingStartsSolid(s: string)
    ensures StripLeading(s) != [] ==> !IsSpace(StripLeading(s)[0])
  {
    if |s| > 0 && IsSpace(s[0]) {
      StripLeadingStartsSolid(s[1..]);
    }
  }

  lemma {:induction false} StripTrailingKeepsSolidHead(s: string)
    requires |s| > 0 && !IsSpace(s[0])
    ensures StripTrailing(s) != []
  {
    if IsSpace(s[|s| - 1]) {
      StripTrailingKeepsSolidHead(s[..|s| - 1]);
    }
  }

  /** `not text.strip()` holds exactly when every character of the text is
      whitespace, the empty text included. */
  lemma StripEmptyIffBlank(s: string)
    ensures Strip(s) == [] <==> forall i | 0 <= i < |s| :: IsSpace(s[i])
  {
    StripLeadingEmpty(s);
    StripLeadingStartsSolid(s);
    if StripLeading(s) != [] {
      StripTrailingKeepsSolidHead(StripLeading(s));
    }
  }

  // ---------------------------------------------------------------------------
  // f"{i}" and the chunk id

  function DigitChar(d: nat): (c: char)
    requires d < 10
    ensures '0' <= c <= '9'
  {
    (48 + d) as char
  }

  /** `str(n)` for a non-negative integer: its decimal digits. */
  function NatToString(n: nat): (r: string)
    ensures |r| > 0
    ensures forall i | 0 <= i < |r| :: '0' <= r[i] <= '9'
  {
    if n < 10 then [DigitChar(n)] else NatToString(n / 10) + [DigitChar(n % 10)]
  }

  /** The value of a string of decimal digits, the inverse of `NatToString`. */
  function ParseDecimal(s: string): nat
    requires forall i | 0 <= i < |s| :: '0' <= s[i] <= '9'
  {
    if s == [] then 0 else 10 * ParseDecimal(s[..|s| - 1]) + (s[|s| - 1] as int - 48)
  }

  lemma {:induction false} ParseNatToString(n: nat)
    ensures ParseDecimal(NatToString(n)) == n
  {
    var r := NatToString(n);
    if n >= 10 {
      assert r[..|r| - 1] == NatToString(n / 10);
      ParseNatToString(n / 10);
    }
  }

  /** Distinct numbers have distinct decimal forms. */
  lemma NatToStringInjective(m: nat, n: nat)
    ensures NatToString(m) == NatToString(n) ==> m == n
  {
    ParseNatToString(m);
    ParseNatToString(n);
  }

  /** f"{name}_chunk_{i}" */
  function ChunkId(name: string, i: nat): string {
    name + "_chunk_" + NatToString(i)
  }

  /** Within one document every chunk gets its own id, and the id starts with
      the document's name. */
  lemma ChunkIdsDistinct(name: string, i: nat, j: nat)
    ensures ChunkId(name, i)[..|name|] == name
    ensures i != j ==> ChunkId(name, i) != ChunkId(name, j)
  {
    var k := |name| + 7;
    if ChunkId(name, i) == ChunkId(name, j) {
      assert ChunkId(name, i)[k..] == NatToString(i);
      assert ChunkId(name, j)[k..] == NatToString(j);
      NatToStringInjective(i, j);
    }
  }

  // ---------------------------------------------------------------------------
  // Specification of get_text_chunks

  /** The test at utils.py:73: the text is a `str` and not blank once stripped. */
  predicate HasUsableText(d: DocumentData) {
    d.text.Str? && Strip(d.text.value) != []
  }

  /** A document is used exactly when its text is a string holding at least
      one non-whitespace character. */
  lemma UsableTextIff(d: DocumentData)
    ensures HasUsableText(d) <==>
      d.text.Str? && exists i | 0 <= i < |d.text.value| :: !IsSpace(d.text.value[i])
  {
    if d.text.Str? {
      StripEmptyIffBlank(d.text.value);
    }
  }

  /** The pieces the configured splitter makes of a usable document's text. */
  function Pieces(d: DocumentData, split: Splitter): seq<string>
    requires HasUsableText(d)
  {
    split(TextSplitter, d.text.value)
  }

  /** The pieces of document `name`, numbered from 0 in the splitter's order. */
  function Numbered(name: string, pieces: seq<string>): (r: seq<ChunkDocument>)
    ensures |r| == |pieces|
  {
    if pieces == [] then []
    else
      var n := |pieces| - 1;
      Numbered(name, pieces[..n]) + [ChunkDocument(pieces[n], name, ChunkId(name, n))]
  }

  lemma NumberedSnoc(name: string, pieces: seq<string>, i: nat)
    requires i < |pieces|
    ensures Numbered(name, pieces[..i + 1]) ==
      Numbered(name, pieces[..i]) + [ChunkDocument(pieces[i], name, ChunkId(name, i))]
  {
    assert pieces[..i + 1][..i] == pieces[..i];
  }

  /** Entry `i` of the numbered pieces is piece `i`, from `name`, with id `i`. */
  lemma {:induction false} NumberedAt(name: string, pieces: seq<string>, i: nat)
    requires i < |pieces|
    ensures Numbered(name, pieces)[i] == ChunkDocument(pieces[i], name, ChunkId(name, i))
  {
    var n := |pieces| - 1;
    if i < n {
      NumberedAt(name, pieces[..n], i);
    }
  }

  /** The chunks one document contributes. */
  function DocumentChunks(d: DocumentData, split: Splitter): seq<ChunkDocument> {
    if HasUsableText(d) then Numbered(d.name, Pieces(d, split)) else []
  }

  /** `f(x)` for every `x` of `xs`, concatenated in the order of `xs`. */
  function FlatMap<A, B>(xs: seq<A>, f: A -> seq<B>): seq<B> {
    if xs == [] then [] else FlatMap(xs[..|xs| - 1], f) + f(xs[|xs| - 1])
  }

  /** The chunking of one document, as a function. */
  function PerDocument(split: Splitter): DocumentData -> seq<ChunkDocument> {
    d => DocumentChunks(d, split)
  }

  /** The chunks of a list of documents, document by document. */
  function ChunksOf(docs: seq<DocumentData>, split: Splitter): seq<ChunkDocument> {
    FlatMap(docs, PerDocument(split))
  }

  /** The number of pieces the splitter makes of the usable documents, counted
      independently of the chunk list. */
  function PieceCount(docs: seq<DocumentData>, split: Splitter): nat {
    if docs == [] then 0
    else (if HasUsableText(docs[0]) then |Pieces(docs[0], split)| else 0) + PieceCount(docs[1..], split)
  }

  /** `get_text_chunks(documents_data)`; `None` stands for a missing argument. */
  method GetTextChunks(documentsData: Option<seq<DocumentData>>, split: Splitter)
    returns (allChunks: seq<ChunkDocument>)
    ensures documentsData.None? || documentsData.value == [] ==> allChunks == []
    ensures documentsData.Some? ==> allChunks == ChunksOf(documentsData.value, split)
  {
    if documentsData.None? || documentsData.value == [] {
      return [];
    }
    var docs := documentsData.value;
    allChunks := [];
    for k := 0 to |docs|
      invariant allChunks == ChunksOf(docs[..k], split)
    {
      assert docs[..k + 1] == docs[..k] + [docs[k]];
      FlatMapSnoc(docs[..k], docs[k], PerDocument(split));
      var doc := docs[k];
      if !doc.text.Str? || Strip(doc.text.value) == [] {
        continue;
      }
      var chunksTextList := split(TextSplitter, doc.text.value);
      for i := 0 to |chunksTextList|
        invariant allChunks == ChunksOf(docs[..k], split) + Numbered(doc.name, chunksTextList[..i])
      {
        var document := ChunkDocument(chunksTextList[i], doc.name, ChunkId(doc.name, i));
        NumberedSnoc(doc.name, chunksTextList, i);
        allChunks := allChunks + [document];
      }
      assert chunksTextList[..|chunksTextList|] == chunksTextList;
    }
    assert docs[..|docs|] == docs;
  }

  // ---------------------------------------------------------------------------
  // Properties of the chunk list

  lemma {:induction false} FlatMapConcat<A, B>(xs: seq<A>, ys: seq<A>, f: A -> seq<B>)
    ensures FlatMap(xs + ys, f) == FlatMap(xs, f) + FlatMap(ys, f)
  {
    if ys == [] {
      assert xs + ys == xs;
    } else {
      var n := |ys| - 1;
      assert (xs + ys)[..|xs + ys| - 1] == xs + ys[..n];
      assert (xs + ys)[|xs + ys| - 1] == ys[n];
      FlatMapConcat(xs, ys[..n], f);
    }
  }

  lemma FlatMapSnoc<A, B>(xs: seq<A>, x: A, f: A -> seq<B>)
    ensures FlatMap(xs + [x], f) == FlatMap(xs, f) + f(x)
  {
    assert (xs + [x])[..|xs|] == xs;
  }

  lemma FlatMapAround<A, B>(xs: seq<A>, j: nat, f: A -> seq<B>)
    requires j < |xs|
    ensures FlatMap(xs, f) == (FlatMap(xs[..j], f) + f(xs[j])) + FlatMap(xs[j + 1..], f)
  {
    var before := xs[..j + 1];
    assert xs == before + xs[j + 1..];
    FlatMapConcat(before, xs[j + 1..], f);
    assert before[..|before| - 1] == xs[..j];
  }

  /** Chunking a concatenation of document lists concatenates their chunks. */
  lemma ChunksOfConcat(a: seq<DocumentData>, b: seq<DocumentData>, split: Splitter)
    ensures ChunksOf(a + b, split) == ChunksOf(a, split) + ChunksOf(b, split)
  {
    FlatMapConcat(a, b, PerDocument(split));
  }

  /** A document without usable text, wherever it stands, contributes no chunks. */
  lemma SkippedDocumentAddsNothing(before: seq<DocumentData>, d: DocumentData, after: seq<DocumentData>, split: Splitter)
    requires !HasUsableText(d)
    ensures ChunksOf(before + [d] + after, split) == ChunksOf(before + after, split)
  {
    ChunksOfConcat(before + [d], after, split);
    ChunksOfConcat(before, after, split);
    FlatMapSnoc(before, d, PerDocument(split));
  }

  /** The number of chunks is the number of pieces of the usable documents. */
  lemma {:induction false} ChunkCount(docs: seq<DocumentData>, split: Splitter)
    ensures |ChunksOf(docs, split)| == PieceCount(docs, split)
  {
    if docs != [] {
      assert docs == [docs[0]] + docs[1..];
      ChunksOfConcat([docs[0]], docs[1..], split);
      FlatMapSnoc([], docs[0], PerDocument(split));
      assert [] + [docs[0]] == [docs[0]];
      ChunkCount(docs[1..], split);
    }
  }

  lemma {:induction false} PieceCountConcat(a: seq<DocumentData>, b: seq<DocumentData>, split: Splitter)
    ensures PieceCount(a + b, split) == PieceCount(a, split) + PieceCount(b, split)
  {
    if a == [] {
      assert a + b == b;
    } else {
      assert (a + b)[0] == a[0];
      assert (a + b)[1..] == a[1..] + b;
      PieceCountConcat(a[1..], b, split);
    }
  }

  /** The chunks of a list are those of the documents before `j`, then those
      of document `j`, then those of the documents after it. */
  lemma ChunksAround(docs: seq<DocumentData>, j: nat, split: Splitter)
    requires j < |docs|
    ensures ChunksOf(docs, split) ==
      (ChunksOf(docs[..j], split) + DocumentChunks(docs[j], split)) + ChunksOf(docs[j + 1..], split)
  {
    FlatMapAround(docs, j, PerDocument(split));
  }

  /** Piece `i` of document `j` becomes the chunk at position
      `PieceCount(docs[..j]) + i`: its content is the piece made by the splitter
      configured with chunk size 1000 and overlap 200, verbatim; its source is the
      document's name; its id is the name, `_chunk_` and `i`. */
  lemma ChunkPlacement(docs: seq<DocumentData>, split: Splitter, j: nat, i: nat)
    requires j < |docs| && HasUsableText(docs[j])
    requires i < |split(SplitterConfig(1000, 200), docs[j].text.value)|
    ensures PieceCount(docs[..j], split) + i < |ChunksOf(docs, split)|
    ensures ChunksOf(docs, split)[PieceCount(docs[..j], split) + i] ==
      ChunkDocument(split(SplitterConfig(1000, 200), docs[j].text.value)[i], docs[j].name, ChunkId(docs[j].name, i))
  {
    ChunksAround(docs, j, split);
    ChunkCount(docs[..j], split);
    var prefix, own, rest := ChunksOf(docs[..j], split), DocumentChunks(docs[j], split), ChunksOf(docs[j + 1..], split);
    assert ((prefix + own) + rest)[|prefix| + i] == own[i];
    NumberedAt(docs[j].name, Pieces(docs[j], split), i);
  }

  /** Every chunk comes from piece `i` of some usable document `j`, at the
      position `ChunkPlacement` gives it. */
  lemma {:induction false} ChunkOrigin(docs: seq<DocumentData>, split: Splitter, k: nat) returns (j: nat, i: nat)
    requires k < |ChunksOf(docs, split)|
    ensures j < |docs| && HasUsableText(docs[j])
    ensures i < |split(SplitterConfig(1000, 200), docs[j].text.value)|
    ensures k == PieceCount(docs[..j], split) + i
    ensures ChunksOf(docs, split)[k] ==
      ChunkDocument(split(SplitterConfig(1000, 200), docs[j].text.value)[i], docs[j].name, ChunkId(docs[j].name, i))
  {
    var n := |docs| - 1;
    var init := docs[..n];
    var prefix := ChunksOf(init, split);
    assert docs == init + [docs[n]];
    FlatMapSnoc(init, docs[n], PerDocument(split));
    if k < |prefix| {
      j, i := ChunkOrigin(init, split, k);
      assert docs[..j] == init[..j];
    } else {
      j, i := n, k - |prefix|;
      ChunkCount(init, split);
      assert HasUsableText(docs[n]);
      ChunkPlacement(docs, split, n, i);
    }
  }

  /** Chunks keep the order of the documents, and within a document the
      splitter's order. */
  lemma ChunkOrder(docs: seq<DocumentData>, split: Splitter, j1: nat, i1: nat, j2: nat, i2: nat)
    requires j1 < |docs| && HasUsableText(docs[j1]) && i1 < |Pieces(docs[j1], split)|
    requires j2 < |docs| && HasUsableText(docs[j2]) && i2 < |Pieces(docs[j2], split)|
    requires j1 < j2 || (j1 == j2 && i1 < i2)
    ensures PieceCount(docs[..j1], split) + i1 < PieceCount(docs[..j2], split) + i2
  {
    if j1 < j2 {
      assert docs[..j2] == docs[..j1] + [docs[j1]] + docs[j1 + 1..j2];
      PieceCountConcat(docs[..j1] + [docs[j1]], docs[j1 + 1..j2], split);
      PieceCountConcat(docs[..j1], [docs[j1]], split);
    }
  }
}
