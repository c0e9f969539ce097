/**
 * The summary endpoint: look the request up in the cache, otherwise run the
 * generator, replace a reply with too few blocks by a fallback, cache the result;
 * any generator error yields the fallback, which is then not cached.
 */
module SummaryEndpoint {
  import opened Wrappers
  import opened Text
  import opened Schemas
  import opened CacheService
  import GeminiClient

  const PreviewLength: nat := 300
  /** Generated replies with fewer blocks than this are replaced by the fallback. */
  const MinUsableBlocks: nat := 3

  /** The first 300 characters of the chunk, stripped, with "..." when the chunk is longer. */
  function FallbackPreview(text: string): (p: string)
    ensures |p| <= PreviewLength + 3
    ensures |text| <= PreviewLength ==> p == Strip(text)
    ensures |text| > PreviewLength ==> p == Strip(text[..PreviewLength]) + "..."
  {
    var preview := Strip(Take(text, PreviewLength));
    if |text| > PreviewLength then preview + "..." else preview
  }

  /** For a validated chunk (which is stripped, so starts with a non-space): a chunk that
      fits is its own preview; a longer one is cut at 300 characters, loses only the white
      space at the end of the cut, and is marked with "...". When the 300th character is
      not white space, the preview is exactly the first 300 characters and "...". */
  lemma PreviewOfValidChunk(r: SummaryRequest)
    requires ValidRequest(r)
    ensures |r.textChunk| <= PreviewLength ==> FallbackPreview(r.textChunk) == r.textChunk
    ensures |r.textChunk| > PreviewLength ==>
      var p := FallbackPreview(r.textChunk);
      var n := |p| - 3;
      && 0 < n <= PreviewLength
      && p == r.textChunk[..n] + "..."
      && !IsSpace(r.textChunk[n - 1])
      && forall k :: n <= k < PreviewLength ==> IsSpace(r.textChunk[k])
    ensures |r.textChunk| > PreviewLength && !IsSpace(r.textChunk[PreviewLength - 1]) ==>
      FallbackPreview(r.textChunk) == r.textChunk[..PreviewLength] + "..."
  {
    var t := r.textChunk;
    if |t| <= PreviewLength {
      StripOfStripped(t);
    } else {
      LongPreview(t);
    }
  }

  /** The preview of a text longer than 300 characters that starts with a non-space. */
  lemma LongPreview(t: string)
    requires |t| > PreviewLength && !IsSpace(t[0])
    ensures var p := FallbackPreview(t);
      var n := |p| - 3;
      && 0 < n <= PreviewLength
      && p == t[..n] + "..."
      && !IsSpace(t[n - 1])
      && forall k :: n <= k < PreviewLength ==> IsSpace(t[k])
    ensures !IsSpace(t[PreviewLength - 1]) ==> FallbackPreview(t) == t[..PreviewLength] + "..."
  {
    var q := Strip(t[..PreviewLength]);
    StrippedCut(t);
    assert FallbackPreview(t) == q + "...";
    assert |FallbackPreview(t)| - 3 == |q|;
  }

  /** Stripping the first 300 characters of a text that starts with a non-space only
      removes the white space at the end of the cut. */
  lemma StrippedCut(t: string)
    requires |t| > PreviewLength && !IsSpace(t[0])
    ensures var q := Strip(t[..PreviewLength]);
      && 0 < |q| && q == t[..|q|] && !IsSpace(t[|q| - 1])
      && forall k :: |q| <= k < PreviewLength ==> IsSpace(t[k])
  {
    var head := t[..PreviewLength];
    assert head[0] == t[0];
    assert TrimStart(head) == head;
    var q := TrimEnd(head);
    assert Strip(head) == q;
    assert q != [] by {
      assert !IsSpace(head[0]);
    }
    assert q == t[..|q|];
    assert q[|q| - 1] == t[|q| - 1];
    forall k | |q| <= k < PreviewLength ensures IsSpace(t[k]) {
      assert t[k] == head[k];
    }
  }

  const RetryAdvice := "AI summary generation encountered an issue. Please try again or continue reading."
  const ReviewAdvice := "Consider reviewing the full chapter for complete understanding."

  function FallbackBlock(t: BlockType, text: string): ContentBlock
  {
    ContentBlock(t, "", "", "", text, [], false, "")
  }

  /** `_create_fallback_response` (the error message it receives is only logged). */
  function CreateFallbackResponse(request: SummaryRequest): (r: SummaryResponse)
    ensures ValidSummaryResponse(r)
    ensures |r.blocks| == 3
    ensures r.blocks[0].blockType == CoreIdea && r.blocks[1].blockType == Insight
      && r.blocks[2].blockType == Takeaway
    ensures r.blocks[0].text == "This chapter covers: " + FallbackPreview(request.textChunk)
    ensures r.blocks[1].text == RetryAdvice && r.blocks[2].text == ReviewAdvice
    ensures forall i :: 0 <= i < |r.blocks| ==> !r.blocks[i].imageHint
    ensures r.visualSlotsUsed == 0 == GeminiClient.GrantedHints(r.blocks)
    ensures !r.cached && r.notes == DefaultNotes
    ensures r.unitTitle == if GeminiClient.Present(request.chapterTitle)
      then request.chapterTitle.value else "Chapter Summary"
  {
    var blocks := [
      FallbackBlock(CoreIdea, "This chapter covers: " + FallbackPreview(request.textChunk)),
      FallbackBlock(Insight, RetryAdvice),
      FallbackBlock(Takeaway, ReviewAdvice)];
    GeminiClient.NoHintsNoSlots(blocks);
    SummaryResponse(
      if GeminiClient.Present(request.chapterTitle) then request.chapterTitle.value else "Chapter Summary",
      blocks, 0, false, DefaultNotes)
  }

  /** `generate_summary`. The lookup happens at time `now` and the store at `doneAt`;
      `generated` is what the generator returns when it is called (`Err` where it raises).
      `generatorCalled` reports whether it was called. */
  method GenerateSummary(cache: Cache, request: SummaryRequest, now: int, doneAt: int,
                         generated: Result<SummaryResponse, string>)
    returns (response: SummaryResponse, generatorCalled: bool)
    requires cache.Valid()
    modifies cache
    ensures cache.Valid()
    ensures IsHit(old(cache.entries), GenerateKey(request), now) ==>
      var key := GenerateKey(request);
      && response == old(cache.entries)[key].data.(cached := true)
      && !generatorCalled
      && cache.entries == old(cache.entries)[key := old(cache.entries)[key].(hitCount := old(cache.entries)[key].hitCount + 1)]
      && cache.hits == old(cache.hits) + 1 && cache.misses == old(cache.misses)
      && cache.stores == old(cache.stores) && cache.evictions == old(cache.evictions)
    ensures !IsHit(old(cache.entries), GenerateKey(request), now) ==>
      && generatorCalled
      && cache.misses == old(cache.misses) + 1 && cache.hits == old(cache.hits)
    ensures !IsHit(old(cache.entries), GenerateKey(request), now) && generated.Err? ==>
      var key := GenerateKey(request);
      && response == CreateFallbackResponse(request)
      && cache.entries == old(cache.entries) - {key}
      && cache.stores == old(cache.stores)
      && cache.evictions == old(cache.evictions) + (if key in old(cache.entries) then 1 else 0)
    ensures !IsHit(old(cache.entries), GenerateKey(request), now) && generated.Ok? ==>
      var key := GenerateKey(request);
      var written := (old(cache.entries) - {key})[key := StoredEntry(response, doneAt, cache.ttl)];
      var expired := if key in old(cache.entries) then 1 else 0;
      && response == (if |generated.value.blocks| < MinUsableBlocks
                      then CreateFallbackResponse(request) else generated.value)
      && cache.stores == old(cache.stores) + 1
      && if cache.stores % CleanupEvery == 0 then
           && cache.entries == LiveEntries(written, doneAt)
           && cache.evictions == old(cache.evictions) + expired + |ExpiredKeys(written, doneAt)|
         else
           && cache.entries == written
           && cache.evictions == old(cache.evictions) + expired
    ensures !IsHit(old(cache.entries), GenerateKey(request), now) && generated.Ok? && cache.ttl >= 0 ==>
      && GenerateKey(request) in cache.entries
      && cache.entries[GenerateKey(request)] == StoredEntry(response, doneAt, cache.ttl)
  {
    var cached := cache.Get(request, now);
    if cached.Some? {
      return cached.value, false;
    }
    RemoveAbsentKey(old(cache.entries), GenerateKey(request));
    generatorCalled := true;
    if generated.Err? {
      response := CreateFallbackResponse(request);
      return;
    }
    response := generated.value;
    if |response.blocks| < MinUsableBlocks {
      response := CreateFallbackResponse(request);
    }
    cache.Store(request, response, doneAt);
  }
}
