/** `HybridChunker.chunk_text`: fixed-size windows cut at the last sentence boundary inside
    each window, advancing by `best_boundary - overlap` with no clamp. */
module Chunker {
  import opened Wrappers
  import opened Text

  /** A `Document`'s `metadata` dict: absent (`None`) or `{"start": s, "end": e}`. */
  datatype Metadata = NoMetadata | Span(start: int, end: int)

  /** `Document(text, metadata)`. */
  datatype Document = Document(text: string, metadata: Metadata)

  /** The defaults of `chunk_text`, which `RAGSystem.add_documents` relies on. */
  const DefaultMaxChunkSize: int := 512
  const DefaultOverlap: int := 50

  /** `_get_semantic_boundaries`: `[0]` followed by the end offsets the sentence parser
      reports for sentences whose root is `ROOT`; the parser itself is not modelled. */
  function SemanticBoundaries(sentenceEnds: seq<int>): (bs: seq<int>)
    ensures |bs| == |sentenceEnds| + 1 && bs[0] == 0 && bs[1..] == sentenceEnds
  {
    [0] + sentenceEnds
  }

  // ---------------------------------------------------------------------------
  // Python slicing

  /** How Python reads a slice bound `i` against a sequence of length `n`:
      a negative bound counts from the end, and every bound is clamped to `[0, n]`. */
  function SliceBound(i: int, n: nat): (r: nat)
    ensures r <= n
    ensures 0 <= i <= n ==> r == i
    ensures n < i ==> r == n
    ensures -(n as int) <= i < 0 ==> r == i + n
    ensures i < -(n as int) ==> r == 0
  {
    if i < 0 then (if i + n < 0 then 0 else i + n) else if i <= n then i else n
  }

  /** `s[a:b]`. */
  function Slice(s: string, a: int, b: int): string {
    var i := SliceBound(a, |s|);
    var j := SliceBound(b, |s|);
    if i < j then s[i..j] else []
  }

  /** In-range bounds select that stretch, an end past the text stops at the text's end,
      and bounds out of order give the empty string. */
  lemma SliceSpec(s: string, a: int, b: int)
    ensures 0 <= a <= b <= |s| ==> Slice(s, a, b) == s[a..b]
    ensures 0 <= a <= |s| <= b ==> Slice(s, a, b) == s[a..]
    ensures 0 <= b <= a ==> Slice(s, a, b) == []
    ensures |Slice(s, a, b)| <= |s|
  {
  }

  // ---------------------------------------------------------------------------
  // One iteration of the loop

  /** The inner `if current_pos < boundary <= chunk_end` test. */
  predicate InWindow(b: int, pos: int, windowEnd: int) {
    pos < b <= windowEnd
  }

  /** Index of the last listed boundary inside `(pos, windowEnd]`, or -1 if there is none. */
  function LastInWindowIndex(bs: seq<int>, pos: int, windowEnd: int): (k: int)
    ensures -1 <= k < |bs|
    ensures k >= 0 ==> InWindow(bs[k], pos, windowEnd)
    ensures forall j :: k < j < |bs| ==> !InWindow(bs[j], pos, windowEnd)
  {
    if bs == [] then -1
    else if InWindow(bs[|bs| - 1], pos, windowEnd) then |bs| - 1
    else LastInWindowIndex(bs[..|bs| - 1], pos, windowEnd)
  }

  /** `best_boundary` after the inner loop: the last listed boundary in the window,
      else the raw window end. */
  function BestBoundary(bs: seq<int>, pos: int, windowEnd: int): (best: int)
  {
    var k := LastInWindowIndex(bs, pos, windowEnd);
    if k < 0 then windowEnd else bs[k]
  }

  /** The inner `for boundary in semantic_boundaries` loop, as the source writes it:
      a forward scan in which the last boundary that passes the test wins. */
  method ScanBoundaries(bs: seq<int>, pos: int, chunkEnd: int) returns (best: int)
    ensures best == BestBoundary(bs, pos, chunkEnd)
    ensures best == chunkEnd || (best in bs && InWindow(best, pos, chunkEnd))
  {
    best := chunkEnd;
    for i := 0 to |bs|
      invariant best == BestBoundary(bs[..i], pos, chunkEnd)
    {
      assert bs[..i + 1][..i] == bs[..i];
      if pos < bs[i] <= chunkEnd {
        best := bs[i];
      }
    }
    assert bs[..|bs|] == bs;
    var k := LastInWindowIndex(bs, pos, chunkEnd);
    assert k >= 0 ==> bs[k] == best;
  }

  /** What one pass of the `while` body produces: the chunk it appends, if any, and the
      next value of `current_pos`. */
  datatype StepResult = StepResult(chunk: Option<Document>, next: int)

  /** One pass of the `while` body from `current_pos == pos`. */
  function Step(text: string, bs: seq<int>, maxChunkSize: int, overlap: int, pos: int): StepResult {
    var best := BestBoundary(bs, pos, pos + maxChunkSize);
    StepResult(ChunkAt(text, pos, best), best - overlap)
  }

  /** The chunk for `text[start:end]`: its stripped text, kept only when that is non-empty. */
  function ChunkAt(text: string, start: int, end: int): Option<Document> {
    var t := Strip(Slice(text, start, end));
    if t != [] then Some(Document(t, Span(start, end))) else None
  }

  /** One pass cuts at a boundary that never lies past the window and lies after
      `current_pos` when the window is non-empty; it emits the stripped slice, with that
      span, exactly when the stripped slice is non-empty; and it moves back by `overlap`. */
  lemma StepSpec(text: string, bs: seq<int>, maxChunkSize: int, overlap: int, pos: int)
    ensures var best := BestBoundary(bs, pos, pos + maxChunkSize);
            var st := Step(text, bs, maxChunkSize, overlap, pos);
            && st.next == best - overlap
            && best <= pos + maxChunkSize
            && (maxChunkSize > 0 ==> pos < best)
            && (st.chunk.Some? <==> Strip(Slice(text, pos, best)) != [])
            && (st.chunk.Some? ==> st.chunk.value == Document(Strip(Slice(text, pos, best)), Span(pos, best)))
  {
  }

  /** The loop body as a function of `current_pos`. */
  function StepOf(text: string, bs: seq<int>, maxChunkSize: int, overlap: int): int -> StepResult {
    pos => Step(text, bs, maxChunkSize, overlap, pos)
  }

  // ---------------------------------------------------------------------------
  // The `while current_pos < len(text)` loop, over any body, with a bound on the iterations

  /** The chunks a run emits and whether `current_pos < len(text)` became false. */
  datatype Outcome = Outcome(chunks: seq<Document>, done: bool)

  /** The loop from position `pos` with body `step`, allowed `fuel` more iterations.
      `done == false` means the loop would still be running. */
  function Loop(step: int -> StepResult, len: int, pos: int, fuel: nat): Outcome
    decreases fuel
  {
    if pos >= len then Outcome([], true)
    else if fuel == 0 then Outcome([], false)
    else
      var st := step(pos);
      var rest := Loop(step, len, st.next, fuel - 1);
      Outcome(ToSeq(st.chunk) + rest.chunks, rest.done)
  }

  /** The same loop with the chunks emitted so far carried along, as the method keeps them. */
  function LoopFrom(step: int -> StepResult, len: int, emitted: seq<Document>, pos: int, fuel: nat): Outcome
    decreases fuel
  {
    if pos >= len then Outcome(emitted, true)
    else if fuel == 0 then Outcome(emitted, false)
    else
      var st := step(pos);
      LoopFrom(step, len, emitted + ToSeq(st.chunk), st.next, fuel - 1)
  }

  /** Carrying the emitted chunks along only prefixes them to what the rest of the run emits. */
  lemma {:induction false} LoopFromLoop(step: int -> StepResult, len: int, emitted: seq<Document>,
                                        pos: int, fuel: nat)
    ensures var r := Loop(step, len, pos, fuel);
            LoopFrom(step, len, emitted, pos, fuel) == Outcome(emitted + r.chunks, r.done)
    decreases fuel
  {
    if pos < len && fuel > 0 {
      var st := step(pos);
      LoopFromLoop(step, len, emitted + ToSeq(st.chunk), st.next, fuel - 1);
      var r := Loop(step, len, st.next, fuel - 1);
      assert emitted + ToSeq(st.chunk) + r.chunks == emitted + (ToSeq(st.chunk) + r.chunks);
    } else {
      assert emitted + [] == emitted;
    }
  }

  /** `chunk_text` from `current_pos == pos`, allowed `fuel` iterations of its `while` loop,
      with `bs` the list `_get_semantic_boundaries` returned. */
  function Run(text: string, bs: seq<int>, maxChunkSize: int, overlap: int, pos: int, fuel: nat): Outcome {
    Loop(StepOf(text, bs, maxChunkSize, overlap), |text|, pos, fuel)
  }

  /** One pass of the `while` body: the window end, the scan over the boundaries, the
      stripped slice, and the overlap step back. */
  method ChunkStep(text: string, bs: seq<int>, maxChunkSize: int, overlap: int, currentPos: int)
    returns (chunk: Option<Document>, nextPos: int)
    ensures StepResult(chunk, nextPos) == Step(text, bs, maxChunkSize, overlap, currentPos)
  {
    var chunkEnd := currentPos + maxChunkSize;
    var bestBoundary := ScanBoundaries(bs, currentPos, chunkEnd);
    var chunkText := Strip(Slice(text, currentPos, bestBoundary));
    chunk := if chunkText != [] then Some(Document(chunkText, Span(currentPos, bestBoundary))) else None;
    nextPos := bestBoundary - overlap;
  }

  /** `chunk_text(text, max_chunk_size, overlap)` run for at most `fuel` iterations of its
      `while` loop, with `bs` the list `_get_semantic_boundaries` returned. */
  method ChunkText(text: string, bs: seq<int>, maxChunkSize: int, overlap: int, fuel: nat)
    returns (chunks: seq<Document>, done: bool)
    ensures Outcome(chunks, done) == Run(text, bs, maxChunkSize, overlap, 0, fuel)
  {
    ghost var step := StepOf(text, bs, maxChunkSize, overlap);
    LoopFromLoop(step, |text|, [], 0, fuel);
    chunks := [];
    var currentPos := 0;
    var remaining := fuel;
    while currentPos < |text| && remaining > 0
      invariant LoopFrom(step, |text|, chunks, currentPos, remaining) == LoopFrom(step, |text|, [], 0, fuel)
      decreases remaining
    {
      var chunk, nextPos := ChunkStep(text, bs, maxChunkSize, overlap, currentPos);
      ghost var before := chunks;
      if chunk.Some? {
        chunks := chunks + [chunk.value];
      }
      assert chunks == before + ToSeq(step(currentPos).chunk);
      currentPos := nextPos;
      remaining := remaining - 1;
    }
    done := currentPos >= |text|;
  }

  // ---------------------------------------------------------------------------
  // Properties of the loop, for any body

  /** The progress hypothesis: along the positions the loop actually visits, every step
      moves `current_pos` forward. */
  predicate Advances(step: int -> StepResult, len: int, pos: int)
    decreases len - pos
  {
    pos >= len || (step(pos).next > pos && Advances(step, len, step(pos).next))
  }

  /** Every chunk a step emits is tagged with the position the step started from. */
  ghost predicate TagsStart(step: int -> StepResult) {
    forall p :: step(p).chunk.Some? ==> step(p).chunk.value.metadata.Span? && step(p).chunk.value.metadata.start == p
  }

  predicate StartsAtLeast(chunks: seq<Document>, lo: int) {
    forall i :: 0 <= i < |chunks| ==> chunks[i].metadata.Span? && lo <= chunks[i].metadata.start
  }

  predicate StartsIncreasing(chunks: seq<Document>) {
    forall i, j :: 0 <= i < j < |chunks| ==>
      chunks[i].metadata.Span? && chunks[j].metadata.Span? &&
      chunks[i].metadata.start < chunks[j].metadata.start
  }

  /** Under the progress hypothesis the loop ends within `len - pos` iterations, and when
      steps tag their chunks with their start the starts are strictly increasing and no
      smaller than `pos`. */
  lemma {:induction false} AdvancingLoopTerminates(step: int -> StepResult, len: int, pos: int, fuel: nat)
    requires Advances(step, len, pos)
    requires TagsStart(step)
    requires fuel >= len - pos
    ensures Loop(step, len, pos, fuel).done
    ensures StartsAtLeast(Loop(step, len, pos, fuel).chunks, pos)
    ensures StartsIncreasing(Loop(step, len, pos, fuel).chunks)
    decreases len - pos
  {
    if pos < len {
      var st := step(pos);
      AdvancingLoopTerminates(step, len, st.next, fuel - 1);
      var rest := Loop(step, len, st.next, fuel - 1).chunks;
      var all := ToSeq(st.chunk) + rest;
      assert all == Loop(step, len, pos, fuel).chunks;
      forall i | 0 <= i < |all| ensures all[i].metadata.Span? && pos <= all[i].metadata.start {
        if i >= |ToSeq(st.chunk)| { assert all[i] == rest[i - |ToSeq(st.chunk)|]; }
      }
      forall i, j | 0 <= i < j < |all|
        ensures all[i].metadata.Span? && all[j].metadata.Span? &&
                all[i].metadata.start < all[j].metadata.start
      {
        var h := |ToSeq(st.chunk)|;
        assert all[j] == rest[j - h];
        if i >= h { assert all[i] == rest[i - h]; }
      }
    }
  }

  /** A run that has finished is not changed by more fuel, so its chunks are the result. */
  lemma {:induction false} FinishedLoopIsStable(step: int -> StepResult, len: int, pos: int, fuel: nat, more: nat)
    requires Loop(step, len, pos, fuel).done
    requires fuel <= more
    ensures Loop(step, len, pos, more) == Loop(step, len, pos, fuel)
    decreases fuel
  {
    if pos < len {
      FinishedLoopIsStable(step, len, step(pos).next, fuel - 1, more - 1);
    }
  }

  /** Every chunk the loop emits is one some step emitted, so a property of every step's
      chunk holds of every emitted chunk. */
  lemma {:induction false} LoopChunksFromSteps(step: int -> StepResult, len: int, pos: int, fuel: nat,
                                               ok: Document -> bool)
    requires forall p :: step(p).chunk.Some? ==> ok(step(p).chunk.value)
    ensures forall i :: 0 <= i < |Loop(step, len, pos, fuel).chunks| ==> ok(Loop(step, len, pos, fuel).chunks[i])
    decreases fuel
  {
    if pos < len && fuel > 0 {
      var st := step(pos);
      LoopChunksFromSteps(step, len, st.next, fuel - 1, ok);
      var rest := Loop(step, len, st.next, fuel - 1).chunks;
      var all := ToSeq(st.chunk) + rest;
      forall i | 0 <= i < |all| ensures ok(all[i]) {
        if i >= |ToSeq(st.chunk)| { assert all[i] == rest[i - |ToSeq(st.chunk)|]; }
      }
    }
  }

  /** `n` copies of the chunk list one step contributes. */
  function Repeat(chunk: Option<Document>, n: nat): (r: seq<Document>)
    ensures |r| == n * |ToSeq(chunk)|
    ensures forall i :: 0 <= i < |r| ==> r[i] == chunk.value
  {
    if n == 0 then [] else ToSeq(chunk) + Repeat(chunk, n - 1)
  }

  /** A position inside the text that the step maps to itself is never left: the loop never
      ends and emits the same chunk on every iteration. */
  lemma {:induction false} FixedPointLoops(step: int -> StepResult, len: int, pos: int, fuel: nat)
    requires pos < len
    requires step(pos).next == pos
    ensures !Loop(step, len, pos, fuel).done
    ensures Loop(step, len, pos, fuel).chunks == Repeat(step(pos).chunk, fuel)
    decreases fuel
  {
    if fuel > 0 {
      FixedPointLoops(step, len, pos, fuel - 1);
    }
  }

  // ---------------------------------------------------------------------------
  // Properties of `chunk_text`

  /** The largest in-window boundary is chosen when the boundaries ascend, as sentence ends do:
      the "closest semantic boundary within max_chunk_size". */
  lemma BestIsLargestInWindow(bs: seq<int>, pos: int, windowEnd: int)
    requires forall i, j :: 0 <= i < j < |bs| ==> bs[i] < bs[j]
    ensures var best := BestBoundary(bs, pos, windowEnd);
            forall j :: 0 <= j < |bs| && InWindow(bs[j], pos, windowEnd) ==> bs[j] <= best
  {
  }

  /** What every chunk `chunk_text` emits looks like. */
  predicate WellFormedChunk(d: Document, maxChunkSize: int) {
    && d.text != []
    && !IsSpace(d.text[0]) && !IsSpace(d.text[|d.text| - 1])
    && d.metadata.Span?
    && d.metadata.end <= d.metadata.start + maxChunkSize
    && (maxChunkSize > 0 ==> d.metadata.start < d.metadata.end)
  }

  /** Every emitted chunk has non-empty stripped text and `start < end <= start + max_chunk_size`
      (the lower bound needs a positive window), whether or not the run finished. */
  lemma RunChunksWellFormed(text: string, bs: seq<int>, maxChunkSize: int, overlap: int, pos: int, fuel: nat)
    ensures forall i :: 0 <= i < |Run(text, bs, maxChunkSize, overlap, pos, fuel).chunks| ==>
              WellFormedChunk(Run(text, bs, maxChunkSize, overlap, pos, fuel).chunks[i], maxChunkSize)
  {
    var step := StepOf(text, bs, maxChunkSize, overlap);
    forall p | step(p).chunk.Some? ensures WellFormedChunk(step(p).chunk.value, maxChunkSize) {
      StepSpec(text, bs, maxChunkSize, overlap, p);
      StripEnds(Slice(text, p, BestBoundary(bs, p, p + maxChunkSize)));
    }
    LoopChunksFromSteps(step, |text|, pos, fuel, d => WellFormedChunk(d, maxChunkSize));
  }

  /** Under the progress hypothesis `chunk_text` returns within `len(text) - pos` iterations,
      more iterations change nothing, and the chunk starts strictly increase from `pos`. */
  lemma AdvancingRunTerminates(text: string, bs: seq<int>, maxChunkSize: int, overlap: int,
                               pos: int, fuel: nat, more: nat)
    requires Advances(StepOf(text, bs, maxChunkSize, overlap), |text|, pos)
    requires |text| - pos <= fuel <= more
    ensures Run(text, bs, maxChunkSize, overlap, pos, fuel).done
    ensures Run(text, bs, maxChunkSize, overlap, pos, more) == Run(text, bs, maxChunkSize, overlap, pos, fuel)
    ensures StartsAtLeast(Run(text, bs, maxChunkSize, overlap, pos, fuel).chunks, pos)
    ensures StartsIncreasing(Run(text, bs, maxChunkSize, overlap, pos, fuel).chunks)
  {
    var step := StepOf(text, bs, maxChunkSize, overlap);
    forall p | step(p).chunk.Some?
      ensures step(p).chunk.value.metadata.Span? && step(p).chunk.value.metadata.start == p
    {
      StepSpec(text, bs, maxChunkSize, overlap, p);
    }
    AdvancingLoopTerminates(step, |text|, pos, fuel);
    FinishedLoopIsStable(step, |text|, pos, fuel, more);
  }

  /** With no overlap and a positive window every step advances, for any boundaries. */
  lemma {:induction false} NoOverlapAdvances(text: string, bs: seq<int>, maxChunkSize: int, overlap: int, pos: int)
    requires maxChunkSize > 0 && overlap <= 0
    ensures Advances(StepOf(text, bs, maxChunkSize, overlap), |text|, pos)
    decreases |text| - pos
  {
    if pos < |text| {
      StepSpec(text, bs, maxChunkSize, overlap, pos);
      NoOverlapAdvances(text, bs, maxChunkSize, overlap, Step(text, bs, maxChunkSize, overlap, pos).next);
    }
  }

  /** The counterexample to termination: a text no longer than the window whose only
      sentence ends at its end, and an overlap strictly between 0 and its length. The
      position settles at `len(text) - overlap` and the loop never ends, for any fuel. */
  lemma ShortTextNeverFinishes(text: string, maxChunkSize: int, overlap: int, fuel: nat)
    requires |text| <= maxChunkSize
    requires 0 < overlap < |text|
    ensures var bs := SemanticBoundaries([|text|]);
            && Step(text, bs, maxChunkSize, overlap, 0).next == |text| - overlap
            && Step(text, bs, maxChunkSize, overlap, |text| - overlap).next == |text| - overlap
            && !Run(text, bs, maxChunkSize, overlap, 0, fuel).done
  {
    var bs := SemanticBoundaries([|text|]);
    var p := |text| - overlap;
    assert LastInWindowIndex(bs, 0, maxChunkSize) == 1;
    assert LastInWindowIndex(bs, p, p + maxChunkSize) == 1;
    if fuel > 0 {
      FixedPointLoops(StepOf(text, bs, maxChunkSize, overlap), |text|, p, fuel - 1);
    }
  }

  /** The same counterexample on a concrete text: `"ab"` with the default window of 512 and
      overlap 1 emits `"ab"` once, then `"b"` (span 1..2) on every later iteration. */
  lemma ConcreteNonTermination(fuel: nat)
    requires fuel >= 1
    ensures Run("ab", [0, 2], DefaultMaxChunkSize, 1, 0, fuel).chunks
            == [Document("ab", Span(0, 2))] + Repeat(Some(Document("b", Span(1, 2))), fuel - 1)
    ensures !Run("ab", [0, 2], DefaultMaxChunkSize, 1, 0, fuel).done
  {
    var bs := [0, 2];
    assert LastInWindowIndex(bs, 0, 512) == 1;
    assert LastInWindowIndex(bs, 1, 513) == 1;
    assert Slice("ab", 0, 2) == "ab";
    assert Slice("ab", 1, 2) == "b";
    StripNoSpace("ab");
    StripNoSpace("b");
    FixedPointLoops(StepOf("ab", bs, DefaultMaxChunkSize, 1), 2, 1, fuel - 1);
  }

  /** When no boundary lies in the window the end offset is the raw window end, which may lie
      past the text: `"abc"` with no sentence ends gives the span 0..512. */
  lemma EndMayExceedText()
    ensures Step("abc", SemanticBoundaries([]), DefaultMaxChunkSize, DefaultOverlap, 0).chunk
            == Some(Document("abc", Span(0, 512)))
  {
    assert LastInWindowIndex([0], 0, 512) == -1;
    assert Slice("abc", 0, 512) == "abc";
    StripNoSpace("abc");
  }
}
