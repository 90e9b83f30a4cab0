/** `FAISSIndex` and `RAGSystem`: a vector store kept in step with the list of chunks it
    was built from. Vectors are opaque, the nearest-neighbour kernel is an oracle, and
    the sentence parser and the encoder are parameters. */
module Rag {
  import opened Wrappers
  import opened Chunker

  /** One embedding row. */
  type Vector = seq<real>

  /** The FAISS classes `FAISSIndex.__init__` can build. */
  datatype IndexKind = FlatL2 | IvfFlat

  /** What a FAISS index holds, abstractly: its class, its dimension, whether it has been
      trained, and the stored vectors in the order they were added (a vector's position is
      the id `search` reports for it). */
  datatype IndexState = IndexState(kind: IndexKind, dimension: int, trained: bool, vectors: seq<Vector>)

  /** Flat indexes need no training; an IVF index is trained once, on its first batch. */
  predicate WellTrained(s: IndexState) {
    s.kind == FlatL2 ==> s.trained
  }

  /** The index `__init__` builds for `index_type`: `"L2"` gives an empty flat L2 index,
      `"IVF"` an empty, untrained IVF index over 100 lists, and any other type leaves
      `self.index` unset. */
  function NewIndex(dimension: int, indexType: string): (r: Option<IndexState>)
    ensures r.Some? <==> indexType == "L2" || indexType == "IVF"
    ensures r.Some? ==> r.value.vectors == [] && r.value.dimension == dimension && WellTrained(r.value)
    ensures r.Some? ==> (r.value.kind == FlatL2 <==> indexType == "L2")
    ensures r.Some? ==> (r.value.trained <==> indexType == "L2")
  {
    if indexType == "L2" then Some(IndexState(FlatL2, dimension, true, []))
    else if indexType == "IVF" then Some(IndexState(IvfFlat, dimension, false, []))
    else None
  }

  /** `add_documents` on a built index: an untrained IVF index is trained on the batch,
      then the batch is appended. The class and the dimension stay, every old id keeps its
      vector, and the index is trained afterwards. */
  function AddVectors(s: IndexState, batch: seq<Vector>): (r: IndexState)
    ensures r.kind == s.kind && r.dimension == s.dimension
    ensures r.vectors == s.vectors + batch
    ensures WellTrained(s) ==> r.trained && WellTrained(r)
  {
    var trained := if s.kind == IvfFlat && !s.trained then true else s.trained;
    IndexState(s.kind, s.dimension, trained, s.vectors + batch)
  }

  /** An index that is already trained is not trained again: an add only appends. */
  lemma TrainedOnlyAppends(s: IndexState, batch: seq<Vector>)
    requires s.trained
    ensures AddVectors(s, batch) == s.(vectors := s.vectors + batch)
  {
  }

  /** After any non-empty run of adds the index is trained, and the stored vectors are the
      old ones followed by every batch in order. */
  lemma {:induction false} AddAllTrainsAndAppends(s: IndexState, batches: seq<seq<Vector>>)
    requires WellTrained(s)
    ensures var r := AddAll(s, batches);
            && (batches != [] ==> r.trained)
            && r.vectors == s.vectors + Flatten(batches)
            && r.kind == s.kind && r.dimension == s.dimension
    decreases |batches|
  {
    if batches != [] {
      var s' := AddVectors(s, batches[0]);
      AddAllTrainsAndAppends(s', batches[1..]);
      assert s.vectors + batches[0] + Flatten(batches[1..]) == s.vectors + (batches[0] + Flatten(batches[1..]));
    }
  }

  /** Several `add_documents` calls in a row. */
  function AddAll(s: IndexState, batches: seq<seq<Vector>>): IndexState
    decreases |batches|
  {
    if batches == [] then s else AddAll(AddVectors(s, batches[0]), batches[1..])
  }

  function Flatten<T>(xss: seq<seq<T>>): seq<T>
    decreases |xss|
  {
    if xss == [] then [] else xss[0] + Flatten(xss[1..])
  }

  /** `FAISSIndex`: `self.index` is unset (`None`) when `__init__` got an unknown type. */
  class FaissIndex {
    var index: Option<IndexState>

    /** `FAISSIndex(dimension, index_type)`. */
    constructor(dimension: int, indexType: string)
      ensures index == NewIndex(dimension, indexType)
    {
      index := NewIndex(dimension, indexType);
    }

    /** `add_documents(embeddings)`: fails (the attribute error) when no index was built. */
    method AddDocuments(embeddings: seq<Vector>) returns (ok: bool)
      modifies this
      ensures ok <==> old(index).Some?
      ensures index == if ok then Some(AddVectors(old(index).value, embeddings)) else old(index)
    {
      ok := index.Some?;
      if ok {
        var s := index.value;
        if s.kind == IvfFlat && !s.trained {
          s := s.(trained := true);
        }
        index := Some(s.(vectors := s.vectors + embeddings));
      }
    }

    /** `search(query, k)`: the ids `nearest` reports for the stored vectors, or a failure
      when no index was built. Distances are not modelled. */
    function Search(query: Vector, k: int, nearest: (IndexState, Vector, int) -> seq<int>): (r: Option<seq<int>>)
      reads this
      ensures r.Some? <==> index.Some?
      ensures r.Some? ==> r.value == nearest(index.value, query, k)
    {
      if index.Some? then Some(nearest(index.value, query, k)) else None
    }

    /** `save`: the index as written to disk, or a failure when no index was built. */
    function Save(): (blob: Option<IndexState>)
      reads this
      ensures blob == index
    {
      index
    }

    /** `load`: `self.index` becomes whatever was read, whatever it was before. */
    method Load(blob: IndexState)
      modifies this
      ensures index == Some(blob)
    {
      index := Some(blob);
    }
  }

  // ---------------------------------------------------------------------------
  // Persistence of the document list

  /** One entry of `documents.json`: `{"text": …, "metadata": …}`. */
  datatype Record = Record(text: string, metadata: Metadata)

  /** The list `save` writes: one record per document, in order. */
  function SaveRecords(docs: seq<Document>): (r: seq<Record>)
    ensures |r| == |docs|
    ensures forall i :: 0 <= i < |docs| ==> r[i].text == docs[i].text && r[i].metadata == docs[i].metadata
  {
    if docs == [] then [] else [Record(docs[0].text, docs[0].metadata)] + SaveRecords(docs[1..])
  }

  /** The list `load` rebuilds: one document per record, in order. */
  function LoadRecords(records: seq<Record>): (r: seq<Document>)
    ensures |r| == |records|
    ensures forall i :: 0 <= i < |records| ==> r[i].text == records[i].text && r[i].metadata == records[i].metadata
  {
    if records == [] then [] else [Document(records[0].text, records[0].metadata)] + LoadRecords(records[1..])
  }

  /** Saving and loading gives back the same documents in the same order. */
  lemma {:induction false} LoadSaveRoundTrip(docs: seq<Document>)
    ensures LoadRecords(SaveRecords(docs)) == docs
  {
    if docs != [] {
      LoadSaveRoundTrip(docs[1..]);
      assert docs == [docs[0]] + docs[1..];
    }
  }

  /** Loading and saving again writes back the same records. */
  lemma {:induction false} SaveLoadRoundTrip(records: seq<Record>)
    ensures SaveRecords(LoadRecords(records)) == records
  {
    if records != [] {
      SaveLoadRoundTrip(records[1..]);
      assert records == [records[0]] + records[1..];
    }
  }

  /** What `RAGSystem.save` leaves in its directory. */
  datatype Saved = Saved(index: IndexState, records: seq<Record>)

  // ---------------------------------------------------------------------------
  // Search

  /** `documents[idx]` for a Python list of length `n`: negative ids count from the end
      (FAISS pads missing hits with -1, which reads the last document), and anything else
      outside the list raises. */
  function ListIndex(n: int, idx: int): (r: Option<int>)
    ensures r.Some? <==> -n <= idx < n
    ensures r.Some? ==> 0 <= r.value < n && (r.value == idx || r.value == n + idx)
  {
    if 0 <= idx < n then Some(idx) else if -n <= idx < 0 then Some(n + idx) else None
  }

  /** `[documents[idx] for idx in indices]`: one document per id, in id order, or a failure
      when any id is out of range. */
  function Lookup(docs: seq<Document>, indices: seq<int>): (r: Option<seq<Document>>)
    ensures r.Some? <==> forall j :: 0 <= j < |indices| ==> -|docs| <= indices[j] < |docs|
    ensures r.Some? ==> |r.value| == |indices|
    ensures r.Some? ==> forall j :: 0 <= j < |indices| ==>
              r.value[j] == docs[if indices[j] >= 0 then indices[j] else |docs| + indices[j]]
    decreases |indices|
  {
    if indices == [] then Some([])
    else
      var first := ListIndex(|docs|, indices[0]);
      var rest := Lookup(docs, indices[1..]);
      if first.None? || rest.None? then None
      else
        assert forall j :: 1 <= j < |indices| ==> indices[j] == indices[1..][j - 1];
        Some([docs[first.value]] + rest.value)
  }

  /** The query embedding: the first row the encoder returns for `Document(text=query)`, or a
      failure when encoding fails or returns no rows. */
  function QueryVector(encode: seq<Document> -> Option<seq<Vector>>, query: string): Option<Vector> {
    var e := encode([Document(query, NoMetadata)]);
    if e.Some? && |e.value| > 0 then Some(e.value[0]) else None
  }

  // ---------------------------------------------------------------------------
  // add_documents

  /** How `add_documents` ended: it returned, or it stopped at text number `at` because
      chunking would not return, encoding raised, or no index was built. */
  datatype AddOutcome = Added | ChunkingDiverged(at: nat) | EncodingFailed(at: nat) | IndexMissing(at: nat)

  datatype AddResult = AddResult(documents: seq<Document>, index: Option<IndexState>, outcome: AddOutcome)

  /** The chunks `chunk_text(text)` returns with its defaults (512, 50), within `fuel` iterations. */
  function ChunksOf(text: string, sentenceEnds: string -> seq<int>, fuel: nat): Outcome {
    Run(text, SemanticBoundaries(sentenceEnds(text)), DefaultMaxChunkSize, DefaultOverlap, 0, fuel)
  }

  /** `add_documents(texts)` from the list `docs` and the index `idx`, numbering texts from `at`:
      for each text, chunk it, extend the list, encode the chunks, add them to the index. */
  function AddSpec(docs: seq<Document>, idx: Option<IndexState>, texts: seq<string>,
                   sentenceEnds: string -> seq<int>, encode: seq<Document> -> Option<seq<Vector>>,
                   fuel: nat, at: nat): (r: AddResult)
    ensures r.outcome.IndexMissing? ==> idx.None?
    ensures idx.None? && texts != [] ==> !r.outcome.Added?
    ensures !r.outcome.Added? ==> at <= r.outcome.at < at + |texts|
    decreases |texts|
  {
    if texts == [] then AddResult(docs, idx, Added)
    else
      var run := ChunksOf(texts[0], sentenceEnds, fuel);
      if !run.done then AddResult(docs, idx, ChunkingDiverged(at))
      else
        var docs' := docs + run.chunks;
        var e := encode(run.chunks);
        if e.None? then AddResult(docs', idx, EncodingFailed(at))
        else if idx.None? then AddResult(docs', idx, IndexMissing(at))
        else AddSpec(docs', Some(AddVectors(idx.value, e.value)), texts[1..], sentenceEnds, encode, fuel, at + 1)
  }

  /** The chunk lists of all the texts, one after another. */
  function AllChunks(texts: seq<string>, sentenceEnds: string -> seq<int>, fuel: nat): seq<Document>
    decreases |texts|
  {
    if texts == [] then [] else ChunksOf(texts[0], sentenceEnds, fuel).chunks + AllChunks(texts[1..], sentenceEnds, fuel)
  }

  /** The encoder gives one row per document whenever it succeeds. */
  ghost predicate RowPerDocument(encode: seq<Document> -> Option<seq<Vector>>) {
    forall ds :: encode(ds).Some? ==> |encode(ds).value| == |ds|
  }

  /** A successful `add_documents` appends the chunks of every text, in text order and chunk
      order, and the old documents keep their positions. */
  lemma {:induction false} AddAppendsInOrder(docs: seq<Document>, idx: Option<IndexState>, texts: seq<string>,
                                             sentenceEnds: string -> seq<int>,
                                             encode: seq<Document> -> Option<seq<Vector>>, fuel: nat, at: nat)
    ensures var r := AddSpec(docs, idx, texts, sentenceEnds, encode, fuel, at);
            r.outcome == Added ==> r.documents == docs + AllChunks(texts, sentenceEnds, fuel)
    decreases |texts|
  {
    if texts != [] {
      var run := ChunksOf(texts[0], sentenceEnds, fuel);
      var e := encode(run.chunks);
      if run.done && e.Some? && idx.Some? {
        AddAppendsInOrder(docs + run.chunks, Some(AddVectors(idx.value, e.value)), texts[1..],
                          sentenceEnds, encode, fuel, at + 1);
        assert docs + run.chunks + AllChunks(texts[1..], sentenceEnds, fuel)
            == docs + (run.chunks + AllChunks(texts[1..], sentenceEnds, fuel));
      }
    }
  }

  /** Whatever happens, the old documents stay a prefix of the list and the old vectors a
      prefix of the index, so positions already paired stay paired. */
  lemma {:induction false} AddOnlyAppends(docs: seq<Document>, idx: Option<IndexState>, texts: seq<string>,
                                          sentenceEnds: string -> seq<int>,
                                          encode: seq<Document> -> Option<seq<Vector>>, fuel: nat, at: nat)
    ensures var r := AddSpec(docs, idx, texts, sentenceEnds, encode, fuel, at);
            && docs <= r.documents
            && r.index.Some? == idx.Some?
            && (idx.Some? ==> idx.value.vectors <= r.index.value.vectors)
    decreases |texts|
  {
    if texts != [] {
      var run := ChunksOf(texts[0], sentenceEnds, fuel);
      var e := encode(run.chunks);
      if run.done && e.Some? && idx.Some? {
        AddOnlyAppends(docs + run.chunks, Some(AddVectors(idx.value, e.value)), texts[1..],
                       sentenceEnds, encode, fuel, at + 1);
      }
    }
  }

  /** With an encoder that gives one row per chunk, a list and an index that line up stay
      lined up after a successful `add_documents`; when encoding raises, the failing text's
      chunks are already in the list with no vectors behind them. */
  lemma {:induction false} AddKeepsAlignment(docs: seq<Document>, idx: Option<IndexState>, texts: seq<string>,
                                             sentenceEnds: string -> seq<int>,
                                             encode: seq<Document> -> Option<seq<Vector>>, fuel: nat, at: nat)
    requires RowPerDocument(encode)
    requires idx.Some? && |idx.value.vectors| == |docs|
    ensures var r := AddSpec(docs, idx, texts, sentenceEnds, encode, fuel, at);
            && r.index.Some?
            && (r.outcome == Added ==> |r.index.value.vectors| == |r.documents|)
            && (r.outcome.EncodingFailed? ==>
                  |r.documents| == |r.index.value.vectors| +
                                   |ChunksOf(texts[r.outcome.at - at], sentenceEnds, fuel).chunks|)
    decreases |texts|
  {
    if texts != [] {
      var run := ChunksOf(texts[0], sentenceEnds, fuel);
      var e := encode(run.chunks);
      if !run.done || e.None? {
        FirstTextStops(docs, idx, texts, sentenceEnds, encode, fuel, at);
      } else {
        var idx' := Some(AddVectors(idx.value, e.value));
        assert |e.value| == |run.chunks|;
        assert |idx'.value.vectors| == |docs + run.chunks|;
        AddKeepsAlignment(docs + run.chunks, idx', texts[1..], sentenceEnds, encode, fuel, at + 1);
        var r := AddSpec(docs + run.chunks, idx', texts[1..], sentenceEnds, encode, fuel, at + 1);
        AddContinues(docs, idx, texts, sentenceEnds, encode, fuel, at);
        if r.outcome.EncodingFailed? {
          var i := r.outcome.at - at;
          assert texts[1..][i - 1] == texts[i];
        }
      }
    }
  }

  /** An add whose first text is chunked and encoded goes on with the rest, from the
      extended list and index. */
  lemma AddContinues(docs: seq<Document>, idx: Option<IndexState>, texts: seq<string>,
                     sentenceEnds: string -> seq<int>,
                     encode: seq<Document> -> Option<seq<Vector>>, fuel: nat, at: nat)
    requires idx.Some? && texts != []
    requires ChunksOf(texts[0], sentenceEnds, fuel).done && encode(ChunksOf(texts[0], sentenceEnds, fuel).chunks).Some?
    ensures var run := ChunksOf(texts[0], sentenceEnds, fuel);
            AddSpec(docs, idx, texts, sentenceEnds, encode, fuel, at)
            == AddSpec(docs + run.chunks, Some(AddVectors(idx.value, encode(run.chunks).value)), texts[1..],
                       sentenceEnds, encode, fuel, at + 1)
  {
  }

  /** An add that stops at the first text, because chunking it diverges or encoding it
      fails, keeps the index and adds at most that text's chunks to the list. */
  lemma FirstTextStops(docs: seq<Document>, idx: Option<IndexState>, texts: seq<string>,
                       sentenceEnds: string -> seq<int>,
                       encode: seq<Document> -> Option<seq<Vector>>, fuel: nat, at: nat)
    requires idx.Some? && |idx.value.vectors| == |docs| && texts != []
    requires !ChunksOf(texts[0], sentenceEnds, fuel).done || encode(ChunksOf(texts[0], sentenceEnds, fuel).chunks).None?
    ensures var r := AddSpec(docs, idx, texts, sentenceEnds, encode, fuel, at);
            && r.index.Some?
            && r.outcome != Added
            && (r.outcome.EncodingFailed? ==>
                  r.outcome.at == at &&
                  |r.documents| == |r.index.value.vectors| + |ChunksOf(texts[0], sentenceEnds, fuel).chunks|)
  {
  }

  // ---------------------------------------------------------------------------
  // The system

  /** `RAGSystem`: the chunk list and the index built from it. */
  class RagSystem {
    var documents: seq<Document>
    const index: FaissIndex

    /** `RAGSystem(chunker, encoder, dimension)`: an empty list and a flat L2 index. */
    constructor(dimension: int)
      ensures documents == [] && fresh(index)
      ensures index.index == Some(IndexState(FlatL2, dimension, true, []))
    {
      documents := [];
      index := new FaissIndex(dimension, "L2");
    }

    /** `add_documents(texts)`, with `sentenceEnds` standing for the parser behind
        `_get_semantic_boundaries`, `encode` for the encoder, and `fuel` bounding each
        `chunk_text` call. */
    method AddDocuments(texts: seq<string>, sentenceEnds: string -> seq<int>,
                        encode: seq<Document> -> Option<seq<Vector>>, fuel: nat)
      returns (outcome: AddOutcome)
      modifies this, index
      ensures AddResult(documents, index.index, outcome)
              == AddSpec(old(documents), old(index.index), texts, sentenceEnds, encode, fuel, 0)
    {
      var i := 0;
      while i < |texts|
        invariant 0 <= i <= |texts|
        invariant AddSpec(documents, index.index, texts[i..], sentenceEnds, encode, fuel, i)
                  == AddSpec(old(documents), old(index.index), texts, sentenceEnds, encode, fuel, 0)
      {
        var text := texts[i];
        assert texts[i..][0] == text && texts[i..][1..] == texts[i + 1..];
        var chunks, done := ChunkText(text, SemanticBoundaries(sentenceEnds(text)), DefaultMaxChunkSize, DefaultOverlap, fuel);
        if !done {
          outcome := ChunkingDiverged(i);
          return;
        }
        documents := documents + chunks;
        var embeddings := encode(chunks);
        if embeddings.None? {
          outcome := EncodingFailed(i);
          return;
        }
        var ok := index.AddDocuments(embeddings.value);
        if !ok {
          outcome := IndexMissing(i);
          return;
        }
        i := i + 1;
      }
      outcome := Added;
    }

    /** `search(query, k)`, with `nearest` standing for the FAISS kernel. */
    function Search(query: string, k: int, encode: seq<Document> -> Option<seq<Vector>>,
                    nearest: (IndexState, Vector, int) -> seq<int>): (r: Option<seq<Document>>)
      reads this, index
      ensures r.Some? ==> index.index.Some? && QueryVector(encode, query).Some?
      ensures r.Some? ==> forall j :: 0 <= j < |r.value| ==> r.value[j] in documents
      ensures QueryVector(encode, query).Some? && index.index.Some? ==>
        r == Lookup(documents, nearest(index.index.value, QueryVector(encode, query).value, k))
    {
      var q := QueryVector(encode, query);
      if q.None? then None
      else
        var ids := index.Search(q.value, k, nearest);
        if ids.None? then None else Lookup(documents, ids.value)
    }

    /** `save(directory)`: the index file and the records; nothing is written when the
        index cannot be saved, since that is the first write. */
    function Save(): (saved: Option<Saved>)
      reads this, index
      ensures saved.Some? <==> index.index.Some?
      ensures saved.Some? ==> saved.value.index == index.index.value && LoadRecords(saved.value.records) == documents
    {
      LoadSaveRoundTrip(documents);
      if index.index.None? then None else Some(Saved(index.index.value, SaveRecords(documents)))
    }

    /** `load(directory)`: the index and the document list are replaced by what was saved;
        nothing compares the list's length with the index. */
    method Load(saved: Saved)
      modifies this, index
      ensures index.index == Some(saved.index)
      ensures documents == LoadRecords(saved.records)
    {
      index.Load(saved.index);
      documents := LoadRecords(saved.records);
    }
  }
}
