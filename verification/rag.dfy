/**
 * Keyword snippet search over a library of books: each book whose content
 * holds a long query word contributes a window of text around the first
 * such word; at most three windows are returned.
 */
module Rag {
  import opened Wrappers
  import opened Text
  import opened Seqs

  /** A book of the library: file name and text. */
  datatype Book = Book(filename: string, content: string)

  /** A returned window, tagged with the book it came from. */
  datatype Chunk = Chunk(source: string, snippet: string)

  const BEFORE := 300
  const AFTER := 1000
  const MAX_CHUNKS := 3

  function Min(a: int, b: int): int { if a <= b then a else b }

  function Max(a: int, b: int): int { if a >= b then a else b }

  /** `query.lower().split()` */
  function QueryWords(query: string): seq<string> {
    Words(Lower(query))
  }

  /** A query word that can anchor a window in the lowercased content. */
  predicate Anchors(low: string, w: string) {
    |w| > 3 && Contains(low, w)
  }

  function AnchorsIn(low: string): string -> bool {
    (w: string) => Anchors(low, w)
  }

  /** The position of the first occurrence of the first anchoring word
      (query order), or None when no word longer than three characters occurs. */
  function AnchorIndex(low: string, words: seq<string>): (r: Option<nat>)
    ensures r.None? <==> forall k :: 0 <= k < |words| ==> !Anchors(low, words[k])
    ensures r.Some? ==> r.value < |low|
    ensures r.Some? ==>
              exists k :: 0 <= k < |words| && Anchors(low, words[k]) && Find(low, words[k]) == r
                          && forall j :: 0 <= j < k ==> !Anchors(low, words[j])
  {
    var k := FirstWhere(words, AnchorsIn(low));
    if k.None? then None
    else
      assert Anchors(low, words[k.value]);
      Find(low, words[k.value])
  }

  function ReplaceNewlines(s: string): (r: string)
    ensures |r| == |s|
    ensures forall i :: 0 <= i < |s| ==> r[i] == (if s[i] == '\n' then ' ' else s[i])
  {
    seq(|s|, i requires 0 <= i < |s| => if s[i] == '\n' then ' ' else s[i])
  }

  /** `content[max(0, i - 300) : min(len, i + 1000)].replace("\n", " ")` */
  function Snippet(content: string, i: nat): (r: string)
    requires i <= |content|
    ensures |r| <= BEFORE + AFTER
    ensures forall k :: 0 <= k < |r| ==> r[k] != '\n'
    ensures |r| == Min(|content|, i + AFTER) - Max(0, i - BEFORE)
    ensures forall k :: 0 <= k < |r| ==>
              var c := content[Max(0, i - BEFORE) + k];
              r[k] == (if c == '\n' then ' ' else c)
  {
    ReplaceNewlines(content[Max(0, i - BEFORE)..Min(|content|, i + AFTER)])
  }

  /** What one book contributes: the source's outer guard (some query word
      occurs), then the anchor and its window. */
  function ChunkOf(book: Book, words: seq<string>): (r: Option<Chunk>)
    ensures r.Some? <==> exists k :: 0 <= k < |words| && Anchors(Lower(book.content), words[k])
    ensures r.Some? ==>
              var i := AnchorIndex(Lower(book.content), words).value;
              r.value == Chunk(book.filename, Snippet(book.content, i))
  {
    var low := Lower(book.content);
    if !ContainsAny(low, words) then
      assert forall k :: 0 <= k < |words| ==> !Anchors(low, words[k]);
      None
    else
      var i := AnchorIndex(low, words);
      if i.None? then None else Some(Chunk(book.filename, Snippet(book.content, i.value)))
  }

  /** The chunks of every contributing book, in library order. */
  function Chunks(library: seq<Book>, words: seq<string>): (r: seq<Chunk>)
    ensures |r| <= |library|
  {
    if library == [] then []
    else
      var last := ChunkOf(library[|library| - 1], words);
      Chunks(library[..|library| - 1], words) + (if last.Some? then [last.value] else [])
  }

  /** Chunks of a concatenated library come book by book, in order. */
  lemma {:induction false} ChunksAppend(a: seq<Book>, b: seq<Book>, words: seq<string>)
    ensures Chunks(a + b, words) == Chunks(a, words) + Chunks(b, words)
    decreases |b|
  {
    if b == [] {
      assert a + b == a;
    } else {
      var init := b[..|b| - 1];
      ChunksAppend(a, init, words);
      assert (a + b)[..|a + b| - 1] == a + init;
      assert (a + b)[|a + b| - 1] == b[|b| - 1];
      var tail := ChunkOf(b[|b| - 1], words);
      var extra := if tail.Some? then [tail.value] else [];
      assert Chunks(a + b, words) == Chunks(a + init, words) + extra;
      assert Chunks(b, words) == Chunks(init, words) + extra;
    }
  }

  /** Every chunk comes from a book of the library, tagged with its file name. */
  lemma {:induction false} ChunksFromLibrary(library: seq<Book>, words: seq<string>)
    ensures forall c :: c in Chunks(library, words) ==>
              exists k :: 0 <= k < |library| && ChunkOf(library[k], words) == Some(c)
                          && c.source == library[k].filename
  {
    if library != [] {
      var n := |library|;
      ChunksFromLibrary(library[..n - 1], words);
      forall c | c in Chunks(library, words)
        ensures exists k :: 0 <= k < n && ChunkOf(library[k], words) == Some(c)
                            && c.source == library[k].filename
      {
        if c in Chunks(library[..n - 1], words) {
          var k :| 0 <= k < n - 1 && ChunkOf(library[..n - 1][k], words) == Some(c)
                   && c.source == library[..n - 1][k].filename;
          assert library[..n - 1][k] == library[k];
        } else {
          assert ChunkOf(library[n - 1], words) == Some(c);
        }
      }
    }
  }

  /** `search`, on values: None when no book contributed, else the first
      three chunks. */
  function SearchResult(library: seq<Book>, query: string): (r: Option<seq<Chunk>>)
    ensures r.None? <==> Chunks(library, QueryWords(query)) == []
    ensures r.Some? ==> 1 <= |r.value| <= MAX_CHUNKS
    ensures r.Some? ==> |r.value| == Min(MAX_CHUNKS, |Chunks(library, QueryWords(query))|)
    ensures r.Some? ==> r.value == Chunks(library, QueryWords(query))[..|r.value|]
  {
    var found := Chunks(library, QueryWords(query));
    if found == [] then None else Some(found[..Min(MAX_CHUNKS, |found|)])
  }

  /** The inner anchor loop, with the source's -1 for "no anchor". */
  method FindAnchor(low: string, words: seq<string>) returns (index: int)
    ensures index == (if AnchorIndex(low, words).Some? then AnchorIndex(low, words).value else -1)
  {
    index := -1;
    var j := 0;
    while j < |words|
      invariant 0 <= j <= |words|
      invariant forall k :: 0 <= k < j ==> !Anchors(low, words[k])
    {
      var w := words[j];
      if |w| > 3 {
        var idx := Find(low, w);
        if idx.Some? {
          assert Anchors(low, w);
          return idx.value;
        }
      }
      j := j + 1;
    }
  }

  /** The body of the book loop of search: what one book contributes. */
  method BookChunk(book: Book, words: seq<string>) returns (c: Option<Chunk>)
    ensures c == ChunkOf(book, words)
  {
    var low := Lower(book.content);
    var any := AnyOccurs(low, words);
    if !any {
      return None;
    }
    var index := FindAnchor(low, words);
    if index == -1 {
      return None;
    }
    var start := Max(0, index - BEFORE);
    var end := Min(|book.content|, index + AFTER);
    var snippet := ReplaceNewlines(book.content[start..end]);
    c := Some(Chunk(book.filename, snippet));
  }

  /** RagEngine.search */
  method Search(library: seq<Book>, query: string) returns (r: Option<seq<Chunk>>)
    ensures r == SearchResult(library, query)
  {
    var words := QueryWords(query);
    var found: seq<Chunk> := [];
    var b := 0;
    while b < |library|
      invariant 0 <= b <= |library|
      invariant found == Chunks(library[..b], words)
    {
      assert library[..b + 1][..b] == library[..b];
      var c := BookChunk(library[b], words);
      if c.Some? {
        found := found + [c.value];
      }
      b := b + 1;
    }
    assert library[..b] == library;
    if found == [] {
      return None;
    }
    r := Some(found[..Min(MAX_CHUNKS, |found|)]);
  }
}
