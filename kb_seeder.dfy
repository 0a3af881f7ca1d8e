/**
 * The knowledge-base seeder that loads PDF text into the vector store:
 * page tagging, the overlapping character-window chunker with its
 * minimum-content filter, the three parallel lists of documents, ids and
 * metadata, and the batches of 100 the store receives.
 *
 * PDF reading, the store and `uuid4` are oracles: a PDF is its list of page
 * texts (`None` when reading it raises), `uuid(k)` is the id drawn for the
 * k-th chunk, and `addFails(b)` tells whether adding batch `b` raises.
 */
module KnowledgeBaseSeeder {
  import opened Common
  import opened Text

  const DEFAULT_CHUNK_SIZE := 1000
  const DEFAULT_CHUNK_OVERLAP := 100
  /** A window is kept only if more than this many characters remain after stripping. */
  const MIN_CHUNK_CONTENT := 100
  const BATCH_SIZE := 100
  const COLLECTION_NAME := "corn-stress-knowledge"
  const DOCUMENT_TYPE := "agricultural_knowledge"

  // ---------------------------------------------------------------------------
  // split_text_into_chunks
  // ---------------------------------------------------------------------------

  /** `text[start:start + size]`, which stops at the end of the text. */
  function Window(text: string, start: nat, size: nat): (w: string)
    requires start <= |text|
    ensures |w| <= size && |w| <= |text| - start
    ensures OccursAt(w, text, start)
  {
    text[start..if start + size <= |text| then start + size else |text|]
  }

  /** `len(chunk.strip()) > 100` */
  predicate Substantial(chunk: string) {
    |Strip(chunk)| > MIN_CHUNK_CONTENT
  }

  /** The offsets `range(0, n, step)` visits: 0 and every offset one step after a visited one. */
  predicate OnGrid(j: int, step: nat)
    requires step > 0
    decreases if j < 0 then 0 else j
  {
    j == 0 || (j >= step && OnGrid(j - step, step))
  }

  /** The offsets `i, i + step, ...` below `|text|` whose window `keep` accepts. */
  function KeptStarts(text: string, size: nat, step: nat, i: nat, keep: string -> bool): (r: seq<nat>)
    requires step > 0
    ensures forall n :: 0 <= n < |r| ==> i <= r[n] < |text|
    decreases |text| - i
  {
    if i >= |text| then []
    else (if keep(Window(text, i, size)) then [i] else []) + KeptStarts(text, size, step, i + step, keep)
  }

  /** The windows at the kept offsets. */
  function Windows(text: string, size: nat, starts: seq<nat>): (ws: seq<string>)
    requires forall n :: 0 <= n < |starts| ==> starts[n] <= |text|
    ensures |ws| == |starts|
  {
    seq(|starts|, n requires 0 <= n < |starts| => Window(text, starts[n], size))
  }

  /**
   * The offsets kept from `i` on are exactly those `i + g` below `|text|`
   * with `g` on the grid whose window is substantial, in increasing order.
   */
  lemma {:induction false} KeptStartsExact(text: string, size: nat, step: nat, i: nat, keep: string -> bool)
    requires step > 0
    ensures forall j: nat :: j in KeptStarts(text, size, step, i, keep) <==>
      i <= j < |text| && OnGrid(j - i, step) && keep(Window(text, j, size))
    ensures forall a, b :: 0 <= a < b < |KeptStarts(text, size, step, i, keep)| ==>
      KeptStarts(text, size, step, i, keep)[a] < KeptStarts(text, size, step, i, keep)[b]
    decreases |text| - i
  {
    if i < |text| {
      KeptStartsExact(text, size, step, i + step, keep);
    }
  }

  /** The chunks `split_text_into_chunks(text, size, overlap)` returns: none when the step is negative. */
  function Chunks(text: string, size: nat, overlap: int): seq<string>
    requires size != overlap
  {
    var step := size - overlap;
    if step < 0 then []
    else Windows(text, size, KeptStarts(text, size, step, 0, Substantial))
  }

  /**
   * `split_text_into_chunks(text, chunk_size, chunk_overlap)`. A step of zero
   * makes `range` raise, so the source's callers must avoid
   * `chunk_size == chunk_overlap`; a negative size is not a window length.
   */
  method SplitTextIntoChunks(text: string, chunkSize: int, chunkOverlap: int) returns (chunks: seq<string>)
    requires chunkSize >= 0 && chunkSize != chunkOverlap
    ensures chunks == Chunks(text, chunkSize, chunkOverlap)
  {
    var step := chunkSize - chunkOverlap;
    if step < 0 {
      return [];
    }
    chunks := KeepWindows(text, chunkSize, step, Substantial);
  }

  /** The stepped loop over `range(0, len(text), step)` that appends each window `keep` accepts. */
  method KeepWindows(text: string, size: nat, step: nat, keep: string -> bool) returns (chunks: seq<string>)
    requires step > 0
    ensures chunks == Windows(text, size, KeptStarts(text, size, step, 0, keep))
  {
    chunks := [];
    ghost var starts: seq<nat> := [];
    var i := 0;
    while i < |text|
      invariant starts + KeptStarts(text, size, step, i, keep) == KeptStarts(text, size, step, 0, keep)
      invariant forall n :: 0 <= n < |starts| ==> starts[n] <= |text|
      invariant chunks == Windows(text, size, starts)
      decreases |text| - i
    {
      var chunk := text[i..if i + size <= |text| then i + size else |text|];
      assert chunk == Window(text, i, size);
      if keep(chunk) {
        KeptStartsKeep(text, size, step, i, keep, starts);
        WindowsAppend(text, size, starts, i);
        chunks := chunks + [chunk];
        starts := starts + [i];
      } else {
        KeptStartsSkip(text, size, step, i, keep, starts);
      }
      i := i + step;
    }
  }

  /** One turn of the loop: the offset `i` is kept or not, and the rest starts one step later. */
  lemma KeptStartsKeep(text: string, size: nat, step: nat, i: nat, keep: string -> bool, starts: seq<nat>)
    requires step > 0 && i < |text| && keep(Window(text, i, size))
    ensures starts + KeptStarts(text, size, step, i, keep) == (starts + [i]) + KeptStarts(text, size, step, i + step, keep)
  {
  }

  lemma KeptStartsSkip(text: string, size: nat, step: nat, i: nat, keep: string -> bool, starts: seq<nat>)
    requires step > 0 && i < |text| && !keep(Window(text, i, size))
    ensures starts + KeptStarts(text, size, step, i, keep) == starts + KeptStarts(text, size, step, i + step, keep)
  {
  }

  lemma WindowsAppend(text: string, size: nat, starts: seq<nat>, i: nat)
    requires forall n :: 0 <= n < |starts| ==> starts[n] <= |text|
    requires i <= |text|
    ensures Windows(text, size, starts) + [Window(text, i, size)] == Windows(text, size, starts + [i])
  {
  }

  function Multiple(m: nat, step: nat): nat {
    m * step
  }

  /** The grid offsets are exactly the multiples of the step. */
  lemma {:induction false} OnGridIsMultiple(j: nat, step: nat)
    requires step > 0
    ensures OnGrid(j, step) <==> exists m: nat :: j == Multiple(m, step)
    decreases j
  {
    if j >= step {
      OnGridIsMultiple(j - step, step);
      if OnGrid(j, step) {
        var m: nat :| j - step == Multiple(m, step);
        assert j == Multiple(m + 1, step);
      }
      if m: nat :| j == Multiple(m, step) {
        if m > 0 {
          assert j - step == Multiple(m - 1, step);
        }
      }
    } else if j == 0 {
      assert j == Multiple(0, step);
    }
  }

  /**
   * With a positive step, the n-th chunk is the window at the n-th kept
   * offset, a multiple of the step below `|text|`; it is substantial and no
   * longer than `size`; every substantial window on that grid is a chunk;
   * the offsets increase.
   */
  lemma ChunksExact(text: string, size: nat, overlap: int)
    requires size > overlap
    ensures var step := size - overlap;
      var starts := KeptStarts(text, size, step, 0, Substantial);
      var chunks := Chunks(text, size, overlap);
      && |chunks| == |starts|
      && (forall n :: 0 <= n < |starts| ==>
            && starts[n] < |text| && OnGrid(starts[n], step)
            && chunks[n] == Window(text, starts[n], size)
            && Substantial(chunks[n]) && |chunks[n]| <= size)
      && (forall j: nat :: j < |text| && OnGrid(j, step) && Substantial(Window(text, j, size)) ==> j in starts)
      && (forall a, b :: 0 <= a < b < |starts| ==> starts[a] < starts[b])
  {
    KeptWindowsExact(text, size, size - overlap, Substantial);
  }

  /** `ChunksExact` for any acceptance test `keep`. */
  lemma KeptWindowsExact(text: string, size: nat, step: nat, keep: string -> bool)
    requires step > 0
    ensures var starts := KeptStarts(text, size, step, 0, keep);
      var chunks := Windows(text, size, starts);
      && (forall n :: 0 <= n < |starts| ==>
            && starts[n] < |text| && OnGrid(starts[n], step)
            && chunks[n] == Window(text, starts[n], size)
            && keep(chunks[n]) && |chunks[n]| <= size)
      && (forall j: nat :: j < |text| && OnGrid(j, step) && keep(Window(text, j, size)) ==> j in starts)
      && (forall a, b :: 0 <= a < b < |starts| ==> starts[a] < starts[b])
  {
    KeptStartsExact(text, size, step, 0, keep);
    var starts := KeptStarts(text, size, step, 0, keep);
    forall n | 0 <= n < |starts| ensures OnGrid(starts[n], step) && keep(Window(text, starts[n], size)) {
      assert starts[n] in starts;
    }
  }

  /** No text, no chunks; a step that does not advance gives none either. */
  lemma ChunksEmpty(size: nat, overlap: int, text: string)
    requires size != overlap
    ensures Chunks("", size, overlap) == []
    ensures size < overlap ==> Chunks(text, size, overlap) == []
  {
  }

  /** A kept chunk is a piece of its text, never altered. */
  lemma ChunksArePieces(text: string, size: nat, overlap: int, n: nat)
    requires size != overlap && n < |Chunks(text, size, overlap)|
    ensures IsSubstring(Chunks(text, size, overlap)[n], text)
  {
    var step := size - overlap;
    KeptStartsExact(text, size, step, 0, Substantial);
    var starts := KeptStarts(text, size, step, 0, Substantial);
    assert OccursAt(Chunks(text, size, overlap)[n], text, starts[n]);
  }

  // ---------------------------------------------------------------------------
  // extract_text_from_pdf
  // ---------------------------------------------------------------------------

  /** `f"[Source: {name}, Page {page_num + 1}]\n"` */
  function SourceTag(name: string, pageNumber: nat): string {
    "[Source: " + name + ", Page " + NatToString(pageNumber) + "]\n"
  }

  /** The tagged non-blank pages among `pages`, in page order. */
  function TaggedPages(name: string, pages: seq<string>): seq<string> {
    if pages == [] then []
    else
      var n := |pages| - 1;
      TaggedPages(name, pages[..n]) + (if AllSpace(pages[n]) then [] else [SourceTag(name, n + 1) + pages[n]])
  }

  /** The page loop; a PDF that cannot be read gives no texts. */
  method ExtractTextFromPdf(name: string, pages: Option<seq<string>>) returns (texts: seq<string>)
    ensures pages.None? ==> texts == []
    ensures pages.Some? ==> texts == TaggedPages(name, pages.value)
  {
    texts := [];
    if pages.None? {
      return;
    }
    var reader := pages.value;
    var pageNum := 0;
    while pageNum < |reader|
      invariant 0 <= pageNum <= |reader|
      invariant texts == TaggedPages(name, reader[..pageNum])
    {
      var text := reader[pageNum];
      assert reader[..pageNum + 1][..pageNum] == reader[..pageNum];
      StripEmptyIffAllSpace(text);
      if Strip(text) != [] {
        texts := texts + [SourceTag(name, pageNum + 1) + text];
      }
      pageNum := pageNum + 1;
    }
    assert reader[..|reader|] == reader;
  }

  /** Which pages survive: a page is skipped exactly when it is whitespace only. */
  function NonBlankPages(pages: seq<string>): (kept: seq<nat>)
    ensures forall k :: 0 <= k < |kept| ==> kept[k] < |pages|
  {
    if pages == [] then []
    else
      var n := |pages| - 1;
      NonBlankPages(pages[..n]) + (if AllSpace(pages[n]) then [] else [n])
  }

  /** A page is skipped exactly when it is whitespace only; the kept page numbers increase. */
  lemma {:induction false} NonBlankPagesExact(pages: seq<string>)
    ensures forall p :: 0 <= p < |pages| ==> (p in NonBlankPages(pages) <==> !AllSpace(pages[p]))
    ensures forall a, b :: 0 <= a < b < |NonBlankPages(pages)| ==> NonBlankPages(pages)[a] < NonBlankPages(pages)[b]
  {
    if pages != [] {
      var n := |pages| - 1;
      NonBlankPagesExact(pages[..n]);
      forall p | 0 <= p < n ensures pages[p] == pages[..n][p] {
      }
    }
  }

  /** The k-th text carries the 1-based number of the k-th non-blank page, then that page's text unchanged. */
  lemma {:induction false} TaggedPagesExact(name: string, pages: seq<string>)
    ensures |TaggedPages(name, pages)| == |NonBlankPages(pages)|
    ensures forall k :: 0 <= k < |NonBlankPages(pages)| ==>
      TaggedPages(name, pages)[k] == SourceTag(name, NonBlankPages(pages)[k] + 1) + pages[NonBlankPages(pages)[k]]
  {
    if pages != [] {
      var n := |pages| - 1;
      var front := pages[..n];
      TaggedPagesExact(name, front);
      var tagged, kept := TaggedPages(name, pages), NonBlankPages(pages);
      forall k | 0 <= k < |kept| ensures tagged[k] == SourceTag(name, kept[k] + 1) + pages[kept[k]] {
        if k < |NonBlankPages(front)| {
          assert tagged[k] == TaggedPages(name, front)[k];
          assert kept[k] == NonBlankPages(front)[k];
          assert pages[kept[k]] == front[kept[k]];
        }
      }
    }
  }

  // ---------------------------------------------------------------------------
  // seed_knowledge_base
  // ---------------------------------------------------------------------------

  /** A PDF in the directory: its file name and its pages, `None` when reading it raises. */
  datatype Pdf = Pdf(name: string, pages: Option<seq<string>>)

  /** `{"source": pdf.name, "type": "agricultural_knowledge"}` */
  datatype Metadata = Metadata(source: string, kind: string)

  function PdfTexts(pdf: Pdf): seq<string> {
    if pdf.pages.None? then [] else TaggedPages(pdf.name, pdf.pages.value)
  }

  /** The chunks of a list of texts, text after text. */
  function TextsChunks(texts: seq<string>, size: nat): seq<string>
    requires size != DEFAULT_CHUNK_OVERLAP
  {
    if texts == [] then []
    else TextsChunks(texts[..|texts| - 1], size) + Chunks(texts[|texts| - 1], size, DEFAULT_CHUNK_OVERLAP)
  }

  /** Every document that reaches `all_chunks`, PDF after PDF. */
  function AllChunks(pdfs: seq<Pdf>, size: nat): seq<string>
    requires size != DEFAULT_CHUNK_OVERLAP
  {
    if pdfs == [] then []
    else AllChunks(pdfs[..|pdfs| - 1], size) + TextsChunks(PdfTexts(pdfs[|pdfs| - 1]), size)
  }

  /** The PDF each of those documents came from. */
  function AllSources(pdfs: seq<Pdf>, size: nat): (sources: seq<string>)
    requires size != DEFAULT_CHUNK_OVERLAP
    ensures |sources| == |AllChunks(pdfs, size)|
  {
    if pdfs == [] then []
    else
      var last := pdfs[|pdfs| - 1];
      AllSources(pdfs[..|pdfs| - 1], size) + Repeat(last.name, |TextsChunks(PdfTexts(last), size)|)
  }

  /** `ids[i:i + 100]`, `all_chunks[i:i + 100]` and `metadatas[i:i + 100]`, sent together. */
  datatype Batch = Batch(ids: seq<string>, documents: seq<string>, metadatas: seq<Metadata>)

  /** How seeding ends. */
  datatype Outcome =
    | MissingDirectory        // exits with status 1
    | NoPdfs                  // returns None
    | NoChunks                // returns None, nothing is sent
    | AddFailed(batch: nat)   // exits with status 1 after the earlier batches were added
    | Seeded(count: nat)      // returns len(all_chunks)

  function Min(a: int, b: int): int {
    if a <= b then a else b
  }

  /** `(n + batch_size - 1) // batch_size` */
  function BatchCount(n: nat): nat {
    (n + BATCH_SIZE - 1) / BATCH_SIZE
  }

  /** The b-th batch: the three lists sliced at the same bounds. */
  function BatchAt(ids: seq<string>, docs: seq<string>, metas: seq<Metadata>, b: nat): Batch
    requires |ids| == |docs| == |metas| && b * BATCH_SIZE <= |docs|
  {
    var lo := b * BATCH_SIZE;
    var hi := Min(lo + BATCH_SIZE, |docs|);
    Batch(ids[lo..hi], docs[lo..hi], metas[lo..hi])
  }

  function BatchDocuments(batches: seq<Batch>): seq<seq<string>> {
    seq(|batches|, k requires 0 <= k < |batches| => batches[k].documents)
  }

  /**
   * The batch loop over `range(0, len(all_chunks), 100)`: the batches handed
   * to the store, up to and including one whose add raises.
   */
  method AddInBatches(ids: seq<string>, docs: seq<string>, metas: seq<Metadata>, addFails: nat -> bool)
    returns (sent: seq<Batch>, failed: Option<nat>)
    requires |ids| == |docs| == |metas|
    ensures failed.None? ==> |sent| == BatchCount(|docs|) && (forall b :: 0 <= b < |sent| ==> !addFails(b))
    ensures failed.Some? ==>
      && |sent| == failed.value + 1 && failed.value < BatchCount(|docs|) && addFails(failed.value)
      && (forall b :: 0 <= b < failed.value ==> !addFails(b))
    ensures forall b :: 0 <= b < |sent| ==> b * BATCH_SIZE < |docs| && sent[b] == BatchAt(ids, docs, metas, b)
  {
    sent := [];
    failed := None;
    var i := 0;
    while i < |docs|
      invariant i == |sent| * BATCH_SIZE
      invariant |sent| <= BatchCount(|docs|)
      invariant i < |docs| ==> |sent| < BatchCount(|docs|)
      invariant i >= |docs| ==> |sent| == BatchCount(|docs|)
      invariant forall b :: 0 <= b < |sent| ==> !addFails(b)
      invariant forall b :: 0 <= b < |sent| ==> b * BATCH_SIZE < |docs| && sent[b] == BatchAt(ids, docs, metas, b)
      decreases |docs| - i
    {
      BatchStep(|docs|, |sent|);
      var hi := Min(i + BATCH_SIZE, |docs|);
      var batch := Batch(ids[i..hi], docs[i..hi], metas[i..hi]);
      var b := i / BATCH_SIZE;
      sent := sent + [batch];
      if addFails(b) {
        return sent, Some(b);
      }
      i := i + BATCH_SIZE;
    }
  }

  /** The batch starting at offset `count * 100 < n` is number `count`, and the last one exactly when it reaches `n`. */
  lemma BatchStep(n: nat, count: nat)
    requires count * BATCH_SIZE < n
    ensures (count * BATCH_SIZE) / BATCH_SIZE == count
    ensures count < BatchCount(n)
    ensures count * BATCH_SIZE + BATCH_SIZE >= n <==> count + 1 == BatchCount(n)
  {
  }

  /** A batch is a non-empty slice of at most 100 entries, the same bounds in all three lists. */
  lemma BatchShape(ids: seq<string>, docs: seq<string>, metas: seq<Metadata>, b: nat)
    requires |ids| == |docs| == |metas| && b * BATCH_SIZE < |docs|
    ensures var batch := BatchAt(ids, docs, metas, b);
      && 0 < |batch.documents| <= BATCH_SIZE
      && |batch.ids| == |batch.documents| == |batch.metadatas|
  {
  }

  /** The first `count` batches, concatenated, are the documents up to their end. */
  lemma {:induction false} BatchesCover(ids: seq<string>, docs: seq<string>, metas: seq<Metadata>, count: nat)
    requires |ids| == |docs| == |metas| && count <= BatchCount(|docs|)
    ensures forall b :: 0 <= b < count ==> b * BATCH_SIZE < |docs|
    ensures Flatten(BatchDocuments(seq(count, b requires 0 <= b < count => BatchAt(ids, docs, metas, b))))
      == docs[..Min(count * BATCH_SIZE, |docs|)]
  {
    forall b | 0 <= b < count ensures b * BATCH_SIZE < |docs| {
      BatchBound(|docs|, b);
    }
    if count > 0 {
      BatchesCover(ids, docs, metas, count - 1);
      var batches := seq(count, b requires 0 <= b < count => BatchAt(ids, docs, metas, b));
      var front := seq(count - 1, b requires 0 <= b < count - 1 => BatchAt(ids, docs, metas, b));
      var all := BatchDocuments(batches);
      assert all[..count - 1] == BatchDocuments(front);
      assert Flatten(all) == Flatten(BatchDocuments(front)) + all[count - 1];
      var lo := (count - 1) * BATCH_SIZE;
      var hi := Min(lo + BATCH_SIZE, |docs|);
      assert all[count - 1] == docs[lo..hi];
      assert Min(count * BATCH_SIZE, |docs|) == hi;
      assert docs[..hi] == docs[..lo] + docs[lo..hi];
    }
  }

  /** Every batch number below the count starts inside the list. */
  lemma BatchBound(n: nat, b: nat)
    requires b < BatchCount(n)
    ensures b * BATCH_SIZE < n
  {
  }

  /** With every add succeeding, the documents sent, in order, are exactly `all_chunks`. */
  lemma AllBatchesSendEverything(ids: seq<string>, docs: seq<string>, metas: seq<Metadata>, sent: seq<Batch>)
    requires |ids| == |docs| == |metas| && |sent| == BatchCount(|docs|)
    requires forall b :: 0 <= b < |sent| ==> b * BATCH_SIZE < |docs| && sent[b] == BatchAt(ids, docs, metas, b)
    ensures Flatten(BatchDocuments(sent)) == docs
  {
    BatchesCover(ids, docs, metas, |sent|);
    assert sent == seq(|sent|, b requires 0 <= b < |sent| => BatchAt(ids, docs, metas, b));
    assert Min(|sent| * BATCH_SIZE, |docs|) == |docs|;
  }

  /**
   * `seed_knowledge_base`: the directory check, the PDF list, the nested
   * loops filling `all_chunks`, `ids` and `metadatas`, then the batches.
   */
  method SeedKnowledgeBase(
    directoryExists: bool, pdfs: seq<Pdf>, chunkSize: int,
    uuid: nat -> string, addFails: nat -> bool)
    returns (outcome: Outcome, allChunks: seq<string>, ids: seq<string>, metadatas: seq<Metadata>, sent: seq<Batch>)
    requires chunkSize >= 0 && chunkSize != DEFAULT_CHUNK_OVERLAP
    ensures !directoryExists ==> outcome == MissingDirectory && sent == []
    ensures directoryExists && pdfs == [] ==> outcome == NoPdfs && sent == []
    ensures directoryExists && pdfs != [] ==>
      && allChunks == AllChunks(pdfs, chunkSize)
      && |ids| == |allChunks| == |metadatas|
      && (forall k :: 0 <= k < |ids| ==> ids[k] == uuid(k))
      && (forall k :: 0 <= k < |metadatas| ==> metadatas[k] == Metadata(AllSources(pdfs, chunkSize)[k], DOCUMENT_TYPE))
      && (allChunks == [] ==> outcome == NoChunks && sent == [])
      && (outcome.Seeded? ==> outcome.count == |allChunks| && Flatten(BatchDocuments(sent)) == allChunks)
      && (allChunks != [] ==> outcome.Seeded? || outcome.AddFailed?)
    ensures forall b :: 0 <= b < |sent| ==> b * BATCH_SIZE < |allChunks| && sent[b] == BatchAt(ids, allChunks, metadatas, b)
    ensures outcome.Seeded? ==> |sent| == BatchCount(|allChunks|) && forall b :: 0 <= b < |sent| ==> !addFails(b)
    ensures outcome.AddFailed? ==>
      && |sent| == outcome.batch + 1 && addFails(outcome.batch)
      && forall b :: 0 <= b < outcome.batch ==> !addFails(b)
  {
    allChunks, ids, metadatas, sent := [], [], [], [];
    if !directoryExists {
      return MissingDirectory, allChunks, ids, metadatas, sent;
    }
    if pdfs == [] {
      return NoPdfs, allChunks, ids, metadatas, sent;
    }
    allChunks, ids, metadatas := CollectChunks(pdfs, chunkSize, uuid);
    if allChunks == [] {
      return NoChunks, allChunks, ids, metadatas, sent;
    }
    var failed;
    sent, failed := AddInBatches(ids, allChunks, metadatas, addFails);
    if failed.Some? {
      return AddFailed(failed.value), allChunks, ids, metadatas, sent;
    }
    AllBatchesSendEverything(ids, allChunks, metadatas, sent);
    outcome := Seeded(|allChunks|);
  }

  /** The loop over the PDFs that fills `all_chunks`, `ids` and `metadatas`. */
  method CollectChunks(pdfs: seq<Pdf>, chunkSize: nat, uuid: nat -> string)
    returns (allChunks: seq<string>, ids: seq<string>, metadatas: seq<Metadata>)
    requires chunkSize != DEFAULT_CHUNK_OVERLAP
    ensures allChunks == AllChunks(pdfs, chunkSize)
    ensures metadatas == MetadataOf(AllSources(pdfs, chunkSize))
    ensures |ids| == |allChunks| && forall k :: 0 <= k < |ids| ==> ids[k] == uuid(k)
  {
    allChunks, ids, metadatas := [], [], [];
    var p := 0;
    while p < |pdfs|
      invariant 0 <= p <= |pdfs|
      invariant allChunks == AllChunks(pdfs[..p], chunkSize)
      invariant metadatas == MetadataOf(AllSources(pdfs[..p], chunkSize))
      invariant |ids| == |allChunks| && forall k :: 0 <= k < |ids| ==> ids[k] == uuid(k)
    {
      var pdf := pdfs[p];
      var texts := ExtractTextFromPdf(pdf.name, pdf.pages);
      allChunks, ids, metadatas := AddTexts(pdf.name, texts, chunkSize, uuid, allChunks, ids, metadatas);
      CollectStep(pdfs, p, chunkSize);
      p := p + 1;
    }
    assert pdfs[..|pdfs|] == pdfs;
  }

  lemma CollectStep(pdfs: seq<Pdf>, p: nat, size: nat)
    requires p < |pdfs| && size != DEFAULT_CHUNK_OVERLAP
    ensures var added := TextsChunks(PdfTexts(pdfs[p]), size);
      && AllChunks(pdfs[..p + 1], size) == AllChunks(pdfs[..p], size) + added
      && MetadataOf(AllSources(pdfs[..p + 1], size))
         == MetadataOf(AllSources(pdfs[..p], size)) + MetadataOf(Repeat(pdfs[p].name, |added|))
  {
    assert pdfs[..p + 1][..p] == pdfs[..p];
    MetadataOfAppend(AllSources(pdfs[..p], size), Repeat(pdfs[p].name, |TextsChunks(PdfTexts(pdfs[p]), size)|));
  }

  /** The loop over one PDF's texts, and within it over each text's chunks. */
  method AddTexts(
    source: string, texts: seq<string>, chunkSize: nat, uuid: nat -> string,
    allChunks0: seq<string>, ids0: seq<string>, metadatas0: seq<Metadata>)
    returns (allChunks: seq<string>, ids: seq<string>, metadatas: seq<Metadata>)
    requires chunkSize != DEFAULT_CHUNK_OVERLAP
    requires |ids0| == |allChunks0| && forall k :: 0 <= k < |ids0| ==> ids0[k] == uuid(k)
    ensures allChunks == allChunks0 + TextsChunks(texts, chunkSize)
    ensures metadatas == metadatas0 + MetadataOf(Repeat(source, |TextsChunks(texts, chunkSize)|))
    ensures |ids| == |allChunks| && forall k :: 0 <= k < |ids| ==> ids[k] == uuid(k)
  {
    allChunks, ids, metadatas := allChunks0, ids0, metadatas0;
    var t := 0;
    while t < |texts|
      invariant 0 <= t <= |texts|
      invariant allChunks == allChunks0 + TextsChunks(texts[..t], chunkSize)
      invariant metadatas == metadatas0 + MetadataOf(Repeat(source, |TextsChunks(texts[..t], chunkSize)|))
      invariant |ids| == |allChunks| && forall k :: 0 <= k < |ids| ==> ids[k] == uuid(k)
    {
      var chunks := SplitTextIntoChunks(texts[t], chunkSize, DEFAULT_CHUNK_OVERLAP);
      allChunks, ids, metadatas := AddChunks(source, chunks, uuid, allChunks, ids, metadatas);
      AddTextsStep(source, texts, t, chunkSize);
      t := t + 1;
    }
    assert texts[..|texts|] == texts;
  }

  lemma AddTextsStep(source: string, texts: seq<string>, t: nat, size: nat)
    requires t < |texts| && size != DEFAULT_CHUNK_OVERLAP
    ensures var done, added := TextsChunks(texts[..t], size), Chunks(texts[t], size, DEFAULT_CHUNK_OVERLAP);
      && TextsChunks(texts[..t + 1], size) == done + added
      && MetadataOf(Repeat(source, |done|)) + MetadataOf(Repeat(source, |added|))
         == MetadataOf(Repeat(source, |done + added|))
  {
    assert texts[..t + 1][..t] == texts[..t];
    var done, added := TextsChunks(texts[..t], size), Chunks(texts[t], size, DEFAULT_CHUNK_OVERLAP);
    MetadataOfAppend(Repeat(source, |done|), Repeat(source, |added|));
    RepeatAppend(source, |done|, |added|);
  }

  /** The innermost loop: each chunk with a fresh id and its source's metadata. */
  method AddChunks(
    source: string, chunks: seq<string>, uuid: nat -> string,
    allChunks0: seq<string>, ids0: seq<string>, metadatas0: seq<Metadata>)
    returns (allChunks: seq<string>, ids: seq<string>, metadatas: seq<Metadata>)
    requires |ids0| == |allChunks0| && forall k :: 0 <= k < |ids0| ==> ids0[k] == uuid(k)
    ensures allChunks == allChunks0 + chunks
    ensures metadatas == metadatas0 + MetadataOf(Repeat(source, |chunks|))
    ensures |ids| == |allChunks| && forall k :: 0 <= k < |ids| ==> ids[k] == uuid(k)
  {
    allChunks, ids, metadatas := allChunks0, ids0, metadatas0;
    var c := 0;
    while c < |chunks|
      invariant 0 <= c <= |chunks|
      invariant allChunks == allChunks0 + chunks[..c]
      invariant metadatas == metadatas0 + MetadataOf(Repeat(source, c))
      invariant |ids| == |allChunks| && forall k :: 0 <= k < |ids| ==> ids[k] == uuid(k)
    {
      var chunkId := uuid(|ids|);
      allChunks := allChunks + [chunks[c]];
      ids := ids + [chunkId];
      metadatas := metadatas + [Metadata(source, DOCUMENT_TYPE)];
      assert chunks[..c + 1] == chunks[..c] + [chunks[c]];
      MetadataOfAppend(Repeat(source, c), [source]);
      RepeatAppend(source, c, 1);
      c := c + 1;
    }
    assert chunks[..|chunks|] == chunks;
  }

  /** `n` copies of `x`. */
  function Repeat<T>(x: T, n: nat): (r: seq<T>)
    ensures |r| == n && forall k :: 0 <= k < n ==> r[k] == x
  {
    seq(n, _ => x)
  }

  lemma RepeatAppend<T>(x: T, m: nat, n: nat)
    ensures Repeat(x, m) + Repeat(x, n) == Repeat(x, m + n)
  {
  }

  function MetadataOf(sources: seq<string>): (metas: seq<Metadata>)
    ensures |metas| == |sources|
    ensures forall k :: 0 <= k < |sources| ==> metas[k] == Metadata(sources[k], DOCUMENT_TYPE)
  {
    seq(|sources|, k requires 0 <= k < |sources| => Metadata(sources[k], DOCUMENT_TYPE))
  }

  lemma MetadataOfAppend(a: seq<string>, b: seq<string>)
    ensures MetadataOf(a + b) == MetadataOf(a) + MetadataOf(b)
  {
  }
}
