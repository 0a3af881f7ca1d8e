/**
 * The simpler knowledge-base seeder: a PDF's pages concatenated into one
 * text, the text cut into groups of `chunk_size` words re-joined with single
 * spaces, and each file's chunks added under the ids `<filename>_<i>` with
 * the file name as their source.
 *
 * PDF reading and the vector store are oracles: a file's pages are `None`
 * when reading it raises, `clientFails` tells whether connecting or
 * creating the collection raises, and `addFails(k)` whether the k-th add
 * raises.
 */
module Seed {
  import opened Common
  import opened Text

  const DEFAULT_CHUNK_SIZE := 500
  const COLLECTION_NAME := "corn-stress-knowledge"
  const KNOWLEDGE_DIR := "knowledge_base"
  const PDF_SUFFIX := ".pdf"

  // ---------------------------------------------------------------------------
  // extract_text_from_pdf
  // ---------------------------------------------------------------------------

  /** The page loop with `text +=`; a PDF that cannot be read gives `""`. */
  method ExtractTextFromPdf(pages: Option<seq<string>>) returns (text: string)
    ensures pages.None? ==> text == ""
    ensures pages.Some? ==> text == Flatten(pages.value)
  {
    text := "";
    if pages.None? {
      return;
    }
    var reader := pages.value;
    var k := 0;
    while k < |reader|
      invariant 0 <= k <= |reader|
      invariant text == Flatten(reader[..k])
    {
      assert reader[..k + 1][..k] == reader[..k];
      text := text + reader[k];
      k := k + 1;
    }
    assert reader[..|reader|] == reader;
  }

  /** The extracted text is the earlier pages, then page `k` unchanged, then the later pages. */
  lemma PagesInOrder(pages: seq<string>, k: nat)
    requires k < |pages|
    ensures Flatten(pages) == Flatten(pages[..k]) + pages[k] + Flatten(pages[k + 1..])
    ensures OccursAt(pages[k], Flatten(pages), |Flatten(pages[..k])|)
  {
    assert pages == pages[..k] + [pages[k]] + pages[k + 1..];
    FlattenConcat(pages[..k] + [pages[k]], pages[k + 1..]);
    FlattenConcat(pages[..k], [pages[k]]);
    assert Flatten([pages[k]]) == pages[k] by {
      assert [pages[k]][..0] == [];
    }
  }

  // ---------------------------------------------------------------------------
  // chunk_text
  // ---------------------------------------------------------------------------

  /** The end of the group starting at `i`: `words[i:i + size]` stops at the end of the list. */
  function GroupEnd(n: nat, size: nat, i: nat): (e: nat)
    requires i <= n
    ensures i <= e <= n && e - i <= size
    ensures e - i == size || e == n
  {
    if i + size <= n then i + size else n
  }

  /** The word groups `words[i:i + size]` for the offsets `i, i + size, ...` below `len(words)`. */
  function Groups(words: seq<string>, size: nat, i: nat): seq<seq<string>>
    requires size > 0
    decreases |words| - i
  {
    if i >= |words| then []
    else [words[i..GroupEnd(|words|, size, i)]] + Groups(words, size, i + size)
  }

  /** `" ".join(group)` for every group. */
  function JoinEach(groups: seq<seq<string>>): (chunks: seq<string>)
    ensures |chunks| == |groups|
  {
    seq(|groups|, k requires 0 <= k < |groups| => Join(" ", groups[k]))
  }

  /** `chunk.split()` for every chunk. */
  function SplitEach(chunks: seq<string>): (words: seq<seq<string>>)
    ensures |words| == |chunks|
  {
    seq(|chunks|, k requires 0 <= k < |chunks| => Split(chunks[k]))
  }

  /** The chunks `chunk_text(text, size)` returns; a negative size makes the range empty. */
  function Chunked(text: string, size: int): seq<string>
    requires size != 0
  {
    if size < 0 then [] else JoinEach(Groups(Split(text), size, 0))
  }

  /** `chunk_text`: the stepped loop over the words. A size of zero makes `range` raise. */
  method ChunkText(text: string, chunkSize: int) returns (chunks: seq<string>)
    requires chunkSize != 0
    ensures chunks == Chunked(text, chunkSize)
  {
    var words := Split(text);
    chunks := [];
    if chunkSize < 0 {
      return;
    }
    ghost var done: seq<seq<string>> := [];
    var i := 0;
    while i < |words|
      invariant done + Groups(words, chunkSize, i) == Groups(words, chunkSize, 0)
      invariant chunks == JoinEach(done)
      decreases |words| - i
    {
      var group := words[i..if i + chunkSize <= |words| then i + chunkSize else |words|];
      var chunk := Join(" ", group);
      GroupsStep(words, chunkSize, i, done);
      JoinEachAppend(done, group);
      chunks := chunks + [chunk];
      done := done + [group];
      i := i + chunkSize;
    }
  }

  /** One turn of the loop: the group at `i` is taken and the rest starts `size` words later. */
  lemma GroupsStep(words: seq<string>, size: nat, i: nat, done: seq<seq<string>>)
    requires size > 0 && i < |words|
    ensures done + Groups(words, size, i)
      == (done + [words[i..GroupEnd(|words|, size, i)]]) + Groups(words, size, i + size)
  {
  }

  lemma JoinEachAppend(groups: seq<seq<string>>, group: seq<string>)
    ensures JoinEach(groups + [group]) == JoinEach(groups) + [Join(" ", group)]
  {
  }

  /**
   * The groups from offset `i` on: ceil((n - i) / size) of them, that is the
   * fewest groups of `size` that hold the `n - i` words; each has 1 to
   * `size` words and all but the last exactly `size`; together, in order,
   * they are the words from `i` on.
   */
  lemma {:induction false} GroupsShape(words: seq<string>, size: nat, i: nat)
    requires size > 0 && i <= |words|
    ensures var g := Groups(words, size, i);
      && IsCeilQuotient(|g|, |words| - i, size)
      && Flatten(g) == words[i..]
      && (forall k :: 0 <= k < |g| ==> 0 < |g[k]| <= size)
      && (forall k :: 0 <= k < |g| - 1 ==> |g[k]| == size)
      && (forall k, j :: 0 <= k < |g| && 0 <= j < |g[k]| ==> g[k][j] in words)
  {
    GroupsCount(words, size, i);
    GroupsFlatten(words, size, i);
    GroupsElements(words, size, i);
  }

  /** The number of groups and their sizes. */
  lemma {:induction false} GroupsCount(words: seq<string>, size: nat, i: nat)
    requires size > 0 && i <= |words|
    ensures var g := Groups(words, size, i);
      && IsCeilQuotient(|g|, |words| - i, size)
      && (forall k :: 0 <= k < |g| ==> 0 < |g[k]| <= size)
      && (forall k :: 0 <= k < |g| - 1 ==> |g[k]| == size)
    decreases |words| - i
  {
    if i < |words| {
      var g := Groups(words, size, i);
      var rest := Groups(words, size, i + size);
      assert g == [words[i..GroupEnd(|words|, size, i)]] + rest;
      if i + size < |words| {
        GroupsCount(words, size, i + size);
        assert |g| * size == |rest| * size + size;
        assert (|g| - 1) * size == (|rest| - 1) * size + size;
      } else {
        assert rest == [];
      }
    }
  }

  /** The groups, concatenated in order, are the words from `i` on. */
  lemma {:induction false} GroupsFlatten(words: seq<string>, size: nat, i: nat)
    requires size > 0 && i <= |words|
    ensures Flatten(Groups(words, size, i)) == words[i..]
    decreases |words| - i
  {
    if i < |words| {
      var e := GroupEnd(|words|, size, i);
      GroupsFlattenStep(words, size, i);
      if i + size < |words| {
        GroupsFlatten(words, size, i + size);
      } else {
        assert Groups(words, size, i + size) == [];
      }
      assert words[i..] == words[i..e] + words[e..];
    }
  }

  /** The first group, then the rest. */
  lemma GroupsFlattenStep(words: seq<string>, size: nat, i: nat)
    requires size > 0 && i < |words|
    ensures Flatten(Groups(words, size, i))
      == words[i..GroupEnd(|words|, size, i)] + Flatten(Groups(words, size, i + size))
  {
    var first := words[i..GroupEnd(|words|, size, i)];
    var rest := Groups(words, size, i + size);
    assert Groups(words, size, i) == [first] + rest;
    FlattenConcat([first], rest);
    FlattenSingle(first);
  }

  /** Every word of every group is one of the words. */
  lemma {:induction false} GroupsElements(words: seq<string>, size: nat, i: nat)
    requires size > 0
    ensures var g := Groups(words, size, i);
      forall k, j :: 0 <= k < |g| && 0 <= j < |g[k]| ==> g[k][j] in words
    decreases |words| - i
  {
    if i < |words| {
      var g := Groups(words, size, i);
      var first := words[i..GroupEnd(|words|, size, i)];
      assert g == [first] + Groups(words, size, i + size);
      GroupsElements(words, size, i + size);
      forall k, j | 0 <= k < |g| && 0 <= j < |g[k]| ensures g[k][j] in words {
        if k == 0 {
          assert g[k][j] == words[i + j];
        } else {
          assert g[k] == Groups(words, size, i + size)[k - 1];
        }
      }
    }
  }

  /**
   * Splitting every chunk again and concatenating in order gives back
   * `text.split()`; each chunk holds 1 to `size` words, all but the last
   * exactly `size`; there are ceil(#words / size) chunks.
   */
  lemma ChunkRoundTrip(text: string, size: nat)
    requires size > 0
    ensures var chunks := Chunked(text, size);
      && Flatten(SplitEach(chunks)) == Split(text)
      && IsCeilQuotient(|chunks|, |Split(text)|, size)
      && (forall k :: 0 <= k < |chunks| ==> 0 < |Split(chunks[k])| <= size)
      && (forall k :: 0 <= k < |chunks| - 1 ==> |Split(chunks[k])| == size)
  {
    var words := Split(text);
    var g := Groups(words, size, 0);
    GroupsShape(words, size, 0);
    SplitGivesWords(text);
    var chunks := Chunked(text, size);
    forall k | 0 <= k < |g| ensures Split(chunks[k]) == g[k] {
      forall j | 0 <= j < |g[k]| ensures IsWord(g[k][j]) {
        assert g[k][j] in words;
      }
      SplitJoin(g[k]);
    }
    assert SplitEach(chunks) == g;
  }

  /** No chunks exactly when the text is whitespace only, or the size is negative. */
  lemma ChunkedEmpty(text: string, size: int)
    requires size != 0
    ensures Chunked(text, size) == [] <==> size < 0 || AllSpace(text)
  {
    SplitEmptyIffAllSpace(text);
    if size > 0 {
      GroupsShape(Split(text), size, 0);
    }
  }

  // ---------------------------------------------------------------------------
  // ids and metadata
  // ---------------------------------------------------------------------------

  /** `q` is ceil(n / d): the fewest blocks of `d` that hold `n` items. */
  predicate IsCeilQuotient(q: nat, n: nat, d: nat) {
    q * d >= n && (q == 0 || (q - 1) * d < n)
  }

  /** `f"{filename}_{i}"` */
  function ChunkId(filename: string, i: nat): string {
    filename + "_" + NatToString(i)
  }

  /** `[f"{filename}_{i}" for i in range(n)]` */
  function ChunkIds(filename: string, n: nat): (ids: seq<string>)
    ensures |ids| == n
  {
    seq(n, i requires 0 <= i < n => ChunkId(filename, i))
  }

  /** `{"source": filename}` */
  datatype SourceMeta = SourceMeta(source: string)

  /** `[{"source": filename} for _ in range(n)]` */
  function Metadatas(filename: string, n: nat): (metas: seq<SourceMeta>)
    ensures |metas| == n
  {
    seq(n, _ => SourceMeta(filename))
  }

  /** Past the `_` that follows the file name, an id has only digits. */
  lemma DigitAfterSeparator(f: string, digits: string, p: nat)
    requires forall k :: 0 <= k < |digits| ==> IsDigit(digits[k])
    requires |f| < p < |f| + 1 + |digits|
    ensures IsDigit((f + "_" + digits)[p]) && (f + "_" + digits)[p] != '_'
  {
    assert (f + "_" + digits)[p] == digits[p - |f| - 1];
  }

  /** An id names one file and one position: the digits after the last `_` are the position. */
  lemma ChunkIdInjective(f1: string, i1: nat, f2: string, i2: nat)
    requires ChunkId(f1, i1) == ChunkId(f2, i2)
    ensures f1 == f2 && i1 == i2
  {
    var id := ChunkId(f1, i1);
    var d1, d2 := NatToString(i1), NatToString(i2);
    assert id == f2 + "_" + d2;
    if |d1| < |d2| {
      DigitAfterSeparator(f2, d2, |f1|);
      assert false;
    } else if |d2| < |d1| {
      DigitAfterSeparator(f1, d1, |f2|);
      assert false;
    }
    assert d1 == id[|id| - |d1|..] == d2;
    assert f1 == id[..|f1|] == f2;
    NatToStringInjective(i1, i2);
  }

  /** One file's ids are pairwise distinct, and two files never share an id. */
  lemma ChunkIdsDistinct(f1: string, n1: nat, f2: string, n2: nat)
    ensures forall a, b :: 0 <= a < n1 && 0 <= b < n2 && ChunkIds(f1, n1)[a] == ChunkIds(f2, n2)[b] ==> f1 == f2 && a == b
  {
    forall a, b | 0 <= a < n1 && 0 <= b < n2 && ChunkIds(f1, n1)[a] == ChunkIds(f2, n2)[b] ensures f1 == f2 && a == b {
      ChunkIdInjective(f1, a, f2, b);
    }
  }

  // ---------------------------------------------------------------------------
  // seed_knowledge_base
  // ---------------------------------------------------------------------------

  /** An entry of the knowledge directory: its name and its pages, `None` when reading it raises. */
  datatype File = File(name: string, pages: Option<seq<string>>)

  /** One `collection.add(documents=..., ids=..., metadatas=...)` call. */
  datatype Add = Add(documents: seq<string>, ids: seq<string>, metadatas: seq<SourceMeta>)

  /** How seeding ends; every failure is caught and reported. */
  datatype Outcome =
    | ClientFailed   // connecting or creating the collection raised
    | NoDirectory    // "No knowledge_base directory found"
    | AddFailed      // an add raised after the earlier adds went through
    | Seeded         // "Knowledge base seeded successfully"

  /** The text `extract_text_from_pdf` gives for a file. */
  function FileText(file: File): string {
    if file.pages.None? then "" else Flatten(file.pages.value)
  }

  /** The entries whose name ends with `.pdf`, in listing order. */
  function PdfFiles(files: seq<File>): seq<File> {
    if files == [] then []
    else
      var last := files[|files| - 1];
      PdfFiles(files[..|files| - 1]) + (if EndsWith(last.name, PDF_SUFFIX) then [last] else [])
  }

  /** The add a PDF leads to: its chunks of 500 words, their ids and their metadata. */
  function PlannedAdd(file: File): Add {
    var chunks := Chunked(FileText(file), DEFAULT_CHUNK_SIZE);
    Add(chunks, ChunkIds(file.name, |chunks|), Metadatas(file.name, |chunks|))
  }

  /** The adds seeding makes when none raises, one per PDF in listing order. */
  function PlannedAdds(files: seq<File>): (adds: seq<Add>)
    ensures |adds| == |PdfFiles(files)|
  {
    var pdfs := PdfFiles(files);
    seq(|pdfs|, k requires 0 <= k < |pdfs| => PlannedAdd(pdfs[k]))
  }

  /** `seed_knowledge_base`: the adds handed to the store, up to and including one that raises. */
  method SeedKnowledgeBase(clientFails: bool, directoryExists: bool, files: seq<File>, addFails: nat -> bool)
    returns (outcome: Outcome, sent: seq<Add>)
    ensures clientFails ==> outcome == ClientFailed && sent == []
    ensures !clientFails && !directoryExists ==> outcome == NoDirectory && sent == []
    ensures !clientFails && directoryExists ==> outcome == Seeded || outcome == AddFailed
    ensures outcome == Seeded ==> sent == PlannedAdds(files) && forall k :: 0 <= k < |sent| ==> !addFails(k)
    ensures outcome == AddFailed ==>
      && 0 < |sent| <= |PlannedAdds(files)| && sent == PlannedAdds(files)[..|sent|]
      && addFails(|sent| - 1) && forall k :: 0 <= k < |sent| - 1 ==> !addFails(k)
  {
    sent := [];
    if clientFails {
      return ClientFailed, sent;
    }
    if !directoryExists {
      return NoDirectory, sent;
    }
    var p := 0;
    while p < |files|
      invariant 0 <= p <= |files|
      invariant sent == PlannedAdds(files[..p])
      invariant forall k :: 0 <= k < |sent| ==> !addFails(k)
    {
      var file := files[p];
      PdfFilesStep(files, p);
      if EndsWith(file.name, PDF_SUFFIX) {
        var add := PrepareAdd(file);
        sent := sent + [add];
        if addFails(|sent| - 1) {
          PlannedAddsPrefix(files, p + 1);
          return AddFailed, sent;
        }
      }
      p := p + 1;
    }
    assert files[..|files|] == files;
    outcome := Seeded;
  }

  /** The body of the loop for one PDF: its text, its chunks, their ids and metadata. */
  method PrepareAdd(file: File) returns (add: Add)
    ensures add == PlannedAdd(file)
  {
    var text := ExtractTextFromPdf(file.pages);
    var chunks := ChunkText(text, DEFAULT_CHUNK_SIZE);
    add := Add(chunks, ChunkIds(file.name, |chunks|), Metadatas(file.name, |chunks|));
  }

  lemma PdfFilesStep(files: seq<File>, p: nat)
    requires p < |files|
    ensures PlannedAdds(files[..p + 1])
      == PlannedAdds(files[..p]) + (if EndsWith(files[p].name, PDF_SUFFIX) then [PlannedAdd(files[p])] else [])
  {
    assert files[..p + 1][..p] == files[..p];
  }

  /** The PDFs among the first `p` entries come first among all the PDFs. */
  lemma {:induction false} PdfFilesPrefix(files: seq<File>, p: nat)
    requires p <= |files|
    ensures |PdfFiles(files[..p])| <= |PdfFiles(files)|
    ensures PdfFiles(files[..p]) == PdfFiles(files)[..|PdfFiles(files[..p])|]
    decreases |files|
  {
    if p < |files| {
      var n := |files| - 1;
      assert files[..n][..p] == files[..p];
      PdfFilesPrefix(files[..n], p);
    } else {
      assert files[..p] == files;
    }
  }

  /** The adds for the first `p` entries come first among all the adds. */
  lemma PlannedAddsPrefix(files: seq<File>, p: nat)
    requires p <= |files|
    ensures |PlannedAdds(files[..p])| <= |PlannedAdds(files)|
    ensures PlannedAdds(files[..p]) == PlannedAdds(files)[..|PlannedAdds(files[..p])|]
  {
    PdfFilesPrefix(files, p);
  }

  /** A PDF is added exactly when its name ends with `.pdf`; distinct names stay distinct. */
  lemma {:induction false} PdfFilesExact(files: seq<File>)
    ensures forall f :: f in PdfFiles(files) <==> f in files && EndsWith(f.name, PDF_SUFFIX)
    ensures (forall a, b :: 0 <= a < b < |files| ==> files[a].name != files[b].name) ==>
      forall a, b :: 0 <= a < b < |PdfFiles(files)| ==> PdfFiles(files)[a].name != PdfFiles(files)[b].name
  {
    if files != [] {
      var n := |files| - 1;
      PdfFilesExact(files[..n]);
      assert files == files[..n] + [files[n]];
    }
  }

  /**
   * Every add sends as many ids and metadata as documents; when the listing
   * names are distinct, no two documents anywhere in the collection share
   * an id.
   */
  lemma AddsHaveDistinctIds(files: seq<File>)
    requires forall a, b :: 0 <= a < b < |files| ==> files[a].name != files[b].name
    ensures var adds := PlannedAdds(files);
      && (forall k :: 0 <= k < |adds| ==> |adds[k].ids| == |adds[k].documents| == |adds[k].metadatas|)
      && (forall k1, k2, a, b ::
            (&& 0 <= k1 < |adds| && 0 <= k2 < |adds| && 0 <= a < |adds[k1].ids| && 0 <= b < |adds[k2].ids|
             && adds[k1].ids[a] == adds[k2].ids[b])
            ==> k1 == k2 && a == b)
  {
    var adds := PlannedAdds(files);
    var pdfs := PdfFiles(files);
    PdfFilesExact(files);
    forall k1, k2, a, b |
      0 <= k1 < |adds| && 0 <= k2 < |adds| && 0 <= a < |adds[k1].ids| && 0 <= b < |adds[k2].ids|
      && adds[k1].ids[a] == adds[k2].ids[b]
      ensures k1 == k2 && a == b
    {
      ChunkIdInjective(pdfs[k1].name, a, pdfs[k2].name, b);
    }
  }
}
