/**
 * The summary generator around the Gemini model: the user prompt built from a
 * request, the clean-up of the model's reply (Markdown fences) and its
 * normalisation into a schema-valid response. The model call itself, and JSON
 * decoding of the reply, are function parameters.
 */
module GeminiClient {
  import opened Wrappers
  import opened Text
  import opened Schemas

  // ---- the user prompt ----

  function ModeInstruction(m: SummaryMode): string
  {
    match m
    case Chapter => "Summarize this chapter as a learning unit."
    case Concept => "Extract and explain the core concept from this text."
    case Law => "Identify and break down the principle/law presented in this text."
  }

  const ContextLimit: nat := 500

  function ModePart(m: SummaryMode): string
  {
    "MODE: " + ModeInstruction(m)
  }

  /** A continuity context, cut to 500 characters and marked as not to be summarised. */
  function ContextPart(marker: string, context: string): string
  {
    "\n[" + marker + " - for continuity awareness only, do NOT summarize]:\n" + Take(context, ContextLimit) + "..."
  }

  function TitlePart(title: string): string
  {
    "\nCHAPTER TITLE: " + title
  }

  function TargetPart(text: string): string
  {
    "\n---TARGET CHAPTER TEXT (summarize ONLY this)---\n" + text + "\n---END OF TARGET CHAPTER---"
  }

  const ClosingPart := "\nGenerate the structured JSON output now:"

  /** Python truthiness of an optional string. */
  predicate Present(o: Option<string>)
  {
    o.Some? && o.value != ""
  }

  /** The context parts and the title part, each with the line break that joins it to the
      part before, or nothing when the field is absent or empty. */
  function PrevSegment(r: SummaryRequest): string
  {
    if Present(r.prevContext) then "\n" + ContextPart("PREV_CONTEXT", r.prevContext.value) else ""
  }

  function NextSegment(r: SummaryRequest): string
  {
    if Present(r.nextContext) then "\n" + ContextPart("NEXT_CONTEXT", r.nextContext.value) else ""
  }

  function TitleSegment(r: SummaryRequest): string
  {
    if Present(r.chapterTitle) then "\n" + TitlePart(r.chapterTitle.value) else ""
  }

  /** A prompt assembled from its parts opens with the mode part and closes with the target
      part, a line break and the closing instruction. */
  lemma PromptFrame(m: string, p: string, n: string, t: string, target: string)
    ensures StartsWith(m + p + n + t + "\n" + target + "\n" + ClosingPart, m)
    ensures EndsWith(m + p + n + t + "\n" + target + "\n" + ClosingPart, target + "\n" + ClosingPart)
  {
    ConcatPrefixSuffix(m, p);
    StartsWithExtend(m + p, m, n);
    StartsWithExtend(m + p + n, m, t);
    StartsWithExtend(m + p + n + t, m, "\n");
    StartsWithExtend(m + p + n + t + "\n", m, target);
    StartsWithExtend(m + p + n + t + "\n" + target, m, "\n");
    StartsWithExtend(m + p + n + t + "\n" + target + "\n", m, ClosingPart);
    var x := m + p + n + t + "\n";
    ConcatAssoc(x + target, "\n", ClosingPart);
    ConcatAssoc(x, target, "\n" + ClosingPart);
    ConcatAssoc(target, "\n", ClosingPart);
    ConcatPrefixSuffix(x, target + "\n" + ClosingPart);
  }

  /** The whole prompt: the mode line, the present contexts and title, the target text,
      the closing instruction, one line break between consecutive parts. It opens with the
      mode instruction and closes with the whole target text between its markers, followed
      by the closing instruction. */
  function UserPrompt(r: SummaryRequest): (prompt: string)
    ensures StartsWith(prompt, ModePart(r.mode))
    ensures EndsWith(prompt, TargetPart(r.textChunk) + "\n" + ClosingPart)
  {
    PromptFrame(ModePart(r.mode), PrevSegment(r), NextSegment(r), TitleSegment(r), TargetPart(r.textChunk));
    ModePart(r.mode) + PrevSegment(r) + NextSegment(r) + TitleSegment(r)
    + "\n" + TargetPart(r.textChunk) + "\n" + ClosingPart
  }

  /** With no context and no title the prompt is exactly the three parts joined. */
  lemma PromptWithoutExtras(r: SummaryRequest)
    requires !Present(r.prevContext) && !Present(r.nextContext) && !Present(r.chapterTitle)
    ensures UserPrompt(r) == Join("\n", [ModePart(r.mode), TargetPart(r.textChunk), ClosingPart])
  {
    var m, t := ModePart(r.mode), TargetPart(r.textChunk);
    ConcatEmpty(m);
    JoinSnoc("\n", [m], t);
    assert [m] + [t] == [m, t];
    JoinSnoc("\n", [m, t], ClosingPart);
    assert [m, t] + [ClosingPart] == [m, t, ClosingPart];
  }

  /** Appending an optional segment to the prompt built so far. */
  lemma AppendSegment(parts: seq<string>, flat: string, present: bool, part: string)
    requires |parts| > 0 && Join("\n", parts) == flat
    ensures var parts' := if present then parts + [part] else parts;
      && |parts'| > 0
      && Join("\n", parts') == flat + (if present then "\n" + part else "")
  {
    if present {
      JoinSnoc("\n", parts, part);
      ConcatAssoc(flat, "\n", part);
    } else {
      ConcatEmpty(flat);
    }
  }

  /** `_build_user_prompt`: appends the parts to a list and joins them with line breaks. */
  method BuildUserPrompt(r: SummaryRequest) returns (prompt: string)
    ensures prompt == UserPrompt(r)
  {
    var parts := [ModePart(r.mode)];
    ghost var flat := ModePart(r.mode);
    AppendSegment(parts, flat, Present(r.prevContext),
                  if Present(r.prevContext) then ContextPart("PREV_CONTEXT", r.prevContext.value) else "");
    if Present(r.prevContext) {
      parts := parts + [ContextPart("PREV_CONTEXT", r.prevContext.value)];
    }
    flat := flat + PrevSegment(r);
    AppendSegment(parts, flat, Present(r.nextContext),
                  if Present(r.nextContext) then ContextPart("NEXT_CONTEXT", r.nextContext.value) else "");
    if Present(r.nextContext) {
      parts := parts + [ContextPart("NEXT_CONTEXT", r.nextContext.value)];
    }
    flat := flat + NextSegment(r);
    AppendSegment(parts, flat, Present(r.chapterTitle),
                  if Present(r.chapterTitle) then TitlePart(r.chapterTitle.value) else "");
    if Present(r.chapterTitle) {
      parts := parts + [TitlePart(r.chapterTitle.value)];
    }
    flat := flat + TitleSegment(r);
    JoinSnoc("\n", parts, TargetPart(r.textChunk));
    parts := parts + [TargetPart(r.textChunk)];
    JoinSnoc("\n", parts, ClosingPart);
    parts := parts + [ClosingPart];
    prompt := Join("\n", parts);
  }

  // ---- cleaning the reply ----

  const Fence := "```"
  const JsonFence := "```json"

  /** Strip, drop a leading "```json", then a leading "```", then a trailing "```", strip again. */
  function StripFences(raw: string): (r: string)
    ensures |r| <= |raw|
    ensures r == [] || (!IsSpace(r[0]) && !IsSpace(r[|r| - 1]))
  {
    var stripped := Strip(raw);
    var unfenced := DropPrefix(DropPrefix(stripped, JsonFence), Fence);
    var closed := DropSuffix(unfenced, Fence);
    assert |closed| <= |unfenced| <= |stripped| <= |raw|;
    Strip(closed)
  }

  /** `s[len(p):]` when `s` starts with `p`, else `s`. */
  function DropPrefix(s: string, p: string): (r: string)
    ensures |r| <= |s|
    ensures StartsWith(s, p) ==> r == s[|p|..]
    ensures !StartsWith(s, p) ==> r == s
  {
    if StartsWith(s, p) then s[|p|..] else s
  }

  /** `s[:-len(p)]` when `s` ends with `p`, else `s`. */
  function DropSuffix(s: string, p: string): (r: string)
    ensures |r| <= |s|
    ensures EndsWith(s, p) ==> r == s[..|s| - |p|]
    ensures !EndsWith(s, p) ==> r == s
  {
    if EndsWith(s, p) then s[..|s| - |p|] else s
  }

  /** A reply wrapped in a ```json fence comes back as the stripped text inside it. */
  lemma FencedReply(x: string)
    requires !StartsWith(x, Fence)
    ensures StripFences(JsonFence + x + Fence) == Strip(x)
  {
    var s := JsonFence + x + Fence;
    BacktickIsNotSpace();
    assert s[0] == '`' && s[|s| - 1] == '`';
    StripOfStripped(s);
    DropJsonFence(x);
    FenceTail(x);
  }

  lemma BacktickIsNotSpace()
    ensures !IsSpace('`')
  {
  }

  lemma DropJsonFence(x: string)
    ensures DropPrefix(JsonFence + x + Fence, JsonFence) == x + Fence
  {
    ConcatAssoc(JsonFence, x, Fence);
    ConcatPrefixSuffix(JsonFence, x + Fence);
  }

  /** After the opening fence is gone, the closing fence goes, even when the text is a run of backticks. */
  lemma FenceTail(x: string)
    requires !StartsWith(x, Fence)
    ensures DropSuffix(DropPrefix(x + Fence, Fence), Fence) == x
  {
    var c1 := x + Fence;
    if |x| >= |Fence| {
      assert c1[..|Fence|] == x[..|Fence|];
      assert c1[..|c1| - |Fence|] == x;
    } else if StartsWith(c1, Fence) {
      // x is a run of fewer than three backticks
      var c2 := c1[|Fence|..];
      assert c2 == x by {
        forall k | 0 <= k < |x| ensures c2[k] == x[k] {
          assert x[k] == c1[k] == '`';
          assert c2[k] == c1[k + 3] == '`';
        }
      }
    } else {
      assert c1[..|c1| - |Fence|] == x;
    }
  }

  lemma StartsWithTransitive(s: string, p: string, q: string)
    ensures StartsWith(s, p) && StartsWith(p, q) ==> StartsWith(s, q)
  {
    if StartsWith(s, p) && StartsWith(p, q) {
      assert s[..|q|] == s[..|p|][..|q|];
    }
  }

  /** A reply that is already stripped and carries no fence at either end is left alone. */
  lemma UnfencedReply(x: string)
    requires x == [] || (!IsSpace(x[0]) && !IsSpace(x[|x| - 1]))
    requires !StartsWith(x, Fence) && !EndsWith(x, Fence)
    ensures StripFences(x) == x
  {
    StripOfStripped(x);
    NoJsonFence(x);
    assert DropPrefix(x, JsonFence) == x;
    assert DropPrefix(x, Fence) == x;
    assert DropSuffix(x, Fence) == x;
  }

  /** Text that does not open with ``` does not open with ```json either. */
  lemma NoJsonFence(x: string)
    requires !StartsWith(x, Fence)
    ensures !StartsWith(x, JsonFence)
  {
    StartsWithTransitive(x, JsonFence, Fence);
    assert JsonFence[..|Fence|] == Fence;
  }

  // ---- normalising the decoded reply ----

  /** An unknown block type becomes `insight`; a known one is kept. */
  function NormalizeType(s: string): (t: BlockType)
    ensures ParseBlockType(s).Some? ==> BlockTypeValue(t) == s
    ensures ParseBlockType(s).None? ==> t == Insight
  {
    match ParseBlockType(s)
    case Some(t) => t
    case None => Insight
  }

  /** `unit_title or chapter_title or "Learning Unit"`. */
  function ResolveTitle(unitTitle: string, chapterTitle: Option<string>): (t: string)
    ensures t != ""
    ensures unitTitle != "" ==> t == unitTitle
    ensures unitTitle == "" && Present(chapterTitle) ==> t == chapterTitle.value
    ensures unitTitle == "" && !Present(chapterTitle) ==> t == "Learning Unit"
  {
    if unitTitle != "" then unitTitle
    else if Present(chapterTitle) then chapterTitle.value
    else "Learning Unit"
  }

  function NoteFlag(notes: map<string, bool>, key: string): bool
  {
    if key in notes then notes[key] else false
  }

  /** How many of the raw blocks ask for an image. */
  function RequestedHints(bs: seq<GeminiOutputBlock>): (n: nat)
    ensures n <= |bs|
  {
    if bs == [] then 0
    else RequestedHints(bs[..|bs| - 1]) + (if bs[|bs| - 1].imageHint then 1 else 0)
  }

  /** How many of the output blocks carry an image hint. */
  function GrantedHints(bs: seq<ContentBlock>): (n: nat)
    ensures n <= |bs|
  {
    if bs == [] then 0
    else GrantedHints(bs[..|bs| - 1]) + (if bs[|bs| - 1].imageHint then 1 else 0)
  }

  /** Blocks without image hints use no visual slots. */
  lemma {:induction false} NoHintsNoSlots(bs: seq<ContentBlock>)
    requires forall i :: 0 <= i < |bs| ==> !bs[i].imageHint
    ensures GrantedHints(bs) == 0
  {
    if bs != [] {
      NoHintsNoSlots(bs[..|bs| - 1]);
    }
  }

  function Min(a: int, b: int): int
  {
    if a <= b then a else b
  }

  /** The raw block at `i` keeps its image hint iff it asks for one and fewer than two of
      the blocks before it did. */
  predicate HintKept(bs: seq<GeminiOutputBlock>, i: nat)
    requires i < |bs|
  {
    bs[i].imageHint && RequestedHints(bs[..i]) < MaxVisualSlots
  }

  /** The output block made from raw block `i`: type normalised, text and lyric lines
      kept, image hint kept only while fewer than two were granted before it. */
  function ParsedBlock(bs: seq<GeminiOutputBlock>, i: nat): ContentBlock
    requires i < |bs|
  {
    ContentBlock(NormalizeType(bs[i].blockType), "", "", "", bs[i].text, bs[i].lyricLines, HintKept(bs, i), "")
  }

  /** The requested count, capped at two, grows by one exactly when block `i` keeps its hint. */
  lemma HintStep(bs: seq<GeminiOutputBlock>, i: nat)
    requires i < |bs|
    ensures Min(RequestedHints(bs[..i + 1]), MaxVisualSlots)
            == Min(RequestedHints(bs[..i]), MaxVisualSlots) + (if HintKept(bs, i) then 1 else 0)
  {
    assert bs[..i + 1][..i] == bs[..i];
  }

  /** The parsed blocks carry min(requested, 2) image hints between them. */
  lemma {:induction false} GrantedOfParsed(bs: seq<GeminiOutputBlock>, blocks: seq<ContentBlock>)
    requires |blocks| <= |bs|
    requires forall k :: 0 <= k < |blocks| ==> blocks[k] == ParsedBlock(bs, k)
    ensures GrantedHints(blocks) == Min(RequestedHints(bs[..|blocks|]), MaxVisualSlots)
  {
    if blocks != [] {
      var i := |blocks| - 1;
      var init := blocks[..i];
      assert forall k :: 0 <= k < i ==> init[k] == blocks[k];
      GrantedOfParsed(bs, init);
      assert GrantedHints(blocks) == GrantedHints(init) + (if blocks[i].imageHint then 1 else 0);
      assert blocks[i].imageHint == HintKept(bs, i);
      HintStep(bs, i);
    }
  }

  lemma ParsedStep(bs: seq<GeminiOutputBlock>, i: nat, blocks: seq<ContentBlock>)
    requires i < |bs| && |blocks| == i
    requires forall k :: 0 <= k < i ==> blocks[k] == ParsedBlock(bs, k)
    ensures forall k :: 0 <= k < i + 1 ==> (blocks + [ParsedBlock(bs, i)])[k] == ParsedBlock(bs, k)
  {
  }

  /** The loop of `_parse_gemini_response` over the first eight raw blocks. */
  method ParseBlocks(bs: seq<GeminiOutputBlock>) returns (blocks: seq<ContentBlock>, visualCount: nat)
    ensures |blocks| == Min(|bs|, MaxBlocks)
    ensures forall i :: 0 <= i < |blocks| ==> blocks[i] == ParsedBlock(bs, i)
    ensures visualCount == GrantedHints(blocks) == Min(RequestedHints(bs[..|blocks|]), MaxVisualSlots)
    ensures visualCount <= MaxVisualSlots
    ensures forall i :: 0 <= i < |blocks| ==> ValidContentBlock(blocks[i])
  {
    var n := Min(|bs|, MaxBlocks);
    blocks := [];
    visualCount := 0;
    for i := 0 to n
      invariant |blocks| == i
      invariant visualCount == Min(RequestedHints(bs[..i]), MaxVisualSlots)
      invariant forall k :: 0 <= k < i ==> blocks[k] == ParsedBlock(bs, k)
    {
      var block := bs[i];
      var imageHint := false;
      if block.imageHint && visualCount < MaxVisualSlots {
        visualCount := visualCount + 1;
        imageHint := true;
      }
      var b := ContentBlock(NormalizeType(block.blockType), "", "", "", block.text, block.lyricLines, imageHint, "");
      assert imageHint == HintKept(bs, i);
      HintStep(bs, i);
      ParsedStep(bs, i, blocks);
      blocks := blocks + [b];
    }
    GrantedOfParsed(bs, blocks);
  }

  /** `_parse_gemini_response`, after the reply has been decoded by `decode` (JSON decoding
      and the `GeminiOutput` schema, `None` where either raises). Keeps the first eight
      blocks in order, normalises their types, keeps the first two image hints, and fails
      exactly when decoding fails or the reply has no blocks (the response schema demands
      at least one). */
  method ParseGeminiResponse(raw: string, request: SummaryRequest,
                             decode: string -> Option<GeminiOutput>)
    returns (r: Result<SummaryResponse, string>)
    ensures decode(StripFences(raw)).None? ==> r.Err?
    ensures decode(StripFences(raw)).Some? ==>
      var p := decode(StripFences(raw)).value;
      var n := Min(|p.blocks|, MaxBlocks);
      && (r.Err? <==> |p.blocks| == 0)
      && (r.Ok? ==>
        && ValidSummaryResponse(r.value)
        && |r.value.blocks| == n
        && (forall i :: 0 <= i < n ==> r.value.blocks[i] == ParsedBlock(p.blocks, i))
        && r.value.visualSlotsUsed == GrantedHints(r.value.blocks)
        && r.value.visualSlotsUsed == Min(RequestedHints(p.blocks[..n]), MaxVisualSlots)
        && r.value.unitTitle == ResolveTitle(p.unitTitle, request.chapterTitle)
        && !r.value.cached
        && r.value.notes == GenerationNotes(NoteFlag(p.notes, "compression_applied"),
                                            NoteFlag(p.notes, "long_chapter_handled"), true))
  {
    var cleaned := StripFences(raw);
    var decoded := decode(cleaned);
    if decoded.None? {
      return Err("AI response parsing failed: invalid JSON");
    }
    var parsed := decoded.value;
    var blocks, visualCount := ParseBlocks(parsed.blocks);
    var notes := GenerationNotes(NoteFlag(parsed.notes, "compression_applied"),
                                 NoteFlag(parsed.notes, "long_chapter_handled"), true);
    var response := SummaryResponse(ResolveTitle(parsed.unitTitle, request.chapterTitle),
                                     blocks, visualCount, false, notes);
    assert ValidSummaryResponse(response) <==> |blocks| > 0;
    if !ValidSummaryResponse(response) {
      return Err("AI response parsing failed: response validation");
    }
    r := Ok(response);
  }

  /** The generator object; `initialized` is its lazy-initialisation flag. */
  class Generator {
    const apiKey: string
    var initialized: bool

    constructor (apiKey: string)
      ensures this.apiKey == apiKey && !initialized
    {
      this.apiKey := apiKey;
      initialized := false;
    }

    /** `_ensure_initialized`: fails (the source raises) when no API key is configured. */
    method EnsureInitialized() returns (ok: bool)
      modifies this
      ensures ok <==> old(initialized) || apiKey != ""
      ensures initialized == ok
    {
      if initialized {
        return true;
      }
      if apiKey == "" {
        return false;
      }
      initialized := true;
      ok := true;
    }

    /** `generate_summary`: `call` is the model call for a prompt (`None` where it raises,
        otherwise the reply text). Every failure is an error; a success is a schema-valid
        response that is not marked as cached. */
    method GenerateSummary(request: SummaryRequest, call: string -> Option<string>,
                           decode: string -> Option<GeminiOutput>)
      returns (r: Result<SummaryResponse, string>)
      modifies this
      ensures initialized == (old(initialized) || apiKey != "")
      ensures !old(initialized) && apiKey == "" ==> r.Err?
      ensures call(UserPrompt(request)).None? ==> r.Err?
      ensures call(UserPrompt(request)) == Some("") ==> r.Err?
      ensures r.Ok? ==> ValidSummaryResponse(r.value) && !r.value.cached
      ensures (old(initialized) || apiKey != "") && call(UserPrompt(request)).Some? && call(UserPrompt(request)).value != "" ==>
        var p := decode(StripFences(call(UserPrompt(request)).value));
        (r.Ok? <==> p.Some? && |p.value.blocks| > 0)
    {
      var ok := EnsureInitialized();
      if !ok {
        return Err("GEMINI_API_KEY not configured");
      }
      var prompt := BuildUserPrompt(request);
      var reply := call(prompt);
      if reply.None? {
        return Err("Gemini API error");
      }
      if reply.value == "" {
        return Err("Empty response from Gemini");
      }
      r := ParseGeminiResponse(reply.value, request, decode);
    }
  }
}
