/**
 * The request and response schemas of the summary endpoint: the two enums, the
 * request with its field bounds and `text_chunk` validator, the response blocks,
 * and the raw shape of the model's JSON output.
 */
module Schemas {
  import opened Wrappers
  import opened Text

  // ---- enums ----

  datatype SummaryMode = Chapter | Concept | Law

  function ModeValue(m: SummaryMode): string
  {
    match m
    case Chapter => "chapter"
    case Concept => "concept"
    case Law => "law"
  }

  /** `SummaryMode(s)`: `None` where the enum lookup raises. */
  function ParseMode(s: string): (r: Option<SummaryMode>)
    ensures r.Some? ==> ModeValue(r.value) == s
  {
    if s == "chapter" then Some(Chapter)
    else if s == "concept" then Some(Concept)
    else if s == "law" then Some(Law)
    else None
  }

  lemma ModeRoundTrip(m: SummaryMode)
    ensures ParseMode(ModeValue(m)) == Some(m)
  {
  }

  datatype BlockType =
    | Scene | Reveal | Emotion | Tension | Insight | Quote | Visual | LyricScroll
    | CoreIdea | Explanation | Example | Takeaway | Nuance | Contrast | Reflection

  function BlockTypeValue(t: BlockType): string
  {
    match t
    case Scene => "scene"
    case Reveal => "reveal"
    case Emotion => "emotion"
    case Tension => "tension"
    case Insight => "insight"
    case Quote => "quote"
    case Visual => "visual"
    case LyricScroll => "lyric_scroll"
    case CoreIdea => "core_idea"
    case Explanation => "explanation"
    case Example => "example"
    case Takeaway => "takeaway"
    case Nuance => "nuance"
    case Contrast => "contrast"
    case Reflection => "reflection"
  }

  const AllBlockTypes: seq<BlockType> :=
    [Scene, Reveal, Emotion, Tension, Insight, Quote, Visual, LyricScroll,
     CoreIdea, Explanation, Example, Takeaway, Nuance, Contrast, Reflection]

  /** The first member of `ts` whose value is `s`. */
  function FindBlockType(s: string, ts: seq<BlockType>): (r: Option<BlockType>)
    ensures r.Some? ==> r.value in ts && BlockTypeValue(r.value) == s
    ensures r.None? ==> forall t :: t in ts ==> BlockTypeValue(t) != s
  {
    if ts == [] then None
    else if BlockTypeValue(ts[0]) == s then Some(ts[0])
    else
      var r := FindBlockType(s, ts[1..]);
      assert forall t :: t in ts ==> t == ts[0] || t in ts[1..];
      r
  }

  /** `BlockType(s)`: the member whose value is exactly `s`, `None` where the lookup raises. */
  function ParseBlockType(s: string): (r: Option<BlockType>)
    ensures r.Some? ==> BlockTypeValue(r.value) == s
    ensures r.None? ==> forall t: BlockType :: BlockTypeValue(t) != s
  {
    EveryBlockTypeListed();
    FindBlockType(s, AllBlockTypes)
  }

  lemma EveryBlockTypeListed()
    ensures forall t: BlockType :: t in AllBlockTypes
  {
    forall t: BlockType ensures t in AllBlockTypes {
      match t
      case Scene => assert AllBlockTypes[0] == t;
      case Reveal => assert AllBlockTypes[1] == t;
      case Emotion => assert AllBlockTypes[2] == t;
      case Tension => assert AllBlockTypes[3] == t;
      case Insight => assert AllBlockTypes[4] == t;
      case Quote => assert AllBlockTypes[5] == t;
      case Visual => assert AllBlockTypes[6] == t;
      case LyricScroll => assert AllBlockTypes[7] == t;
      case CoreIdea => assert AllBlockTypes[8] == t;
      case Explanation => assert AllBlockTypes[9] == t;
      case Example => assert AllBlockTypes[10] == t;
      case Takeaway => assert AllBlockTypes[11] == t;
      case Nuance => assert AllBlockTypes[12] == t;
      case Contrast => assert AllBlockTypes[13] == t;
      case Reflection => assert AllBlockTypes[14] == t;
    }
  }

  /** No two block types share a value. */
  lemma BlockTypeValueInjective(a: BlockType, b: BlockType)
    requires BlockTypeValue(a) == BlockTypeValue(b)
    ensures a == b
  {
    var v := BlockTypeValue(a);
    assert |v| > 0 && v[0] == BlockTypeValue(b)[0];
  }

  lemma BlockTypeRoundTrip(t: BlockType)
    ensures ParseBlockType(BlockTypeValue(t)) == Some(t)
  {
    EveryBlockTypeListed();
    var r := ParseBlockType(BlockTypeValue(t));
    BlockTypeValueInjective(r.value, t);
  }

  const AllModes: seq<SummaryMode> := [Chapter, Concept, Law]

  /** The block type enum has exactly fifteen members with fifteen distinct values. */
  lemma BlockTypeHasFifteenValues()
    ensures |AllBlockTypes| == 15
    ensures forall t: BlockType :: t in AllBlockTypes
    ensures forall a: BlockType, b: BlockType :: BlockTypeValue(a) == BlockTypeValue(b) ==> a == b
  {
    EveryBlockTypeListed();
    forall a: BlockType, b: BlockType | BlockTypeValue(a) == BlockTypeValue(b) ensures a == b {
      BlockTypeValueInjective(a, b);
    }
  }

  /** The mode enum has exactly three members with three distinct values. */
  lemma SummaryModeHasThreeValues()
    ensures |AllModes| == 3
    ensures forall m: SummaryMode :: m in AllModes
    ensures forall i, j :: 0 <= i < j < |AllModes| ==>
      ModeValue(AllModes[i]) != ModeValue(AllModes[j])
  {
    forall m: SummaryMode ensures m in AllModes {
      match m
      case Chapter => assert AllModes[0] == m;
      case Concept => assert AllModes[1] == m;
      case Law => assert AllModes[2] == m;
    }
  }

  // ---- the request ----

  const MinChunkLength: nat := 100
  const MaxChunkLength: nat := 15000
  const MaxTitleLength: nat := 200
  const MaxContextLength: nat := 2000

  /** A field of the request body that may be missing, explicitly null, or a string. */
  datatype RawField = Absent | Null | Given(value: string)

  /** The request body as it arrives, before validation. For the optional string fields
      `None` is a missing or null field, which both mean "no value"; `mode` is not
      optional, so a null there is distinguished from a missing key. */
  datatype RawSummaryRequest = RawSummaryRequest(
    bookId: Option<string>,
    chapterTitle: Option<string>,
    textChunk: string,
    mode: RawField,
    prevContext: Option<string>,
    nextContext: Option<string>)

  /** A validated request. */
  datatype SummaryRequest = SummaryRequest(
    bookId: Option<string>,
    chapterTitle: Option<string>,
    textChunk: string,
    mode: SummaryMode,
    prevContext: Option<string>,
    nextContext: Option<string>)

  predicate AtMost(o: Option<string>, n: nat)
  {
    o.None? || |o.value| <= n
  }

  /** A stripped text chunk within the length bounds. */
  predicate ValidChunk(s: string)
  {
    MinChunkLength <= |s| <= MaxChunkLength && !IsSpace(s[0]) && !IsSpace(s[|s| - 1])
  }

  /** Stripping a chunk that was within bounds and keeps 100 characters gives a valid chunk. */
  lemma StrippedChunkValid(v: string)
    requires |v| <= MaxChunkLength && |Strip(v)| >= MinChunkLength
    ensures ValidChunk(Strip(v))
  {
  }

  /** What every validated request satisfies. */
  predicate ValidRequest(r: SummaryRequest)
  {
    && ValidChunk(r.textChunk)
    && AtMost(r.chapterTitle, MaxTitleLength)
    && AtMost(r.prevContext, MaxContextLength)
    && AtMost(r.nextContext, MaxContextLength)
  }

  /** `validate_text_chunk`, run after the length bounds: strip, then demand 100 characters. */
  function ValidateTextChunk(v: string): (r: Result<string, string>)
    ensures r.Ok? <==> |Strip(v)| >= MinChunkLength
    ensures r.Ok? ==> r.value == Strip(v)
  {
    var stripped := Strip(v);
    if |stripped| < MinChunkLength then Err("text_chunk must contain at least 100 meaningful characters")
    else Ok(stripped)
  }

  /** Field-by-field validation as the schema library runs it: every field is checked and
      the names of all failing fields are reported together. */
  function ValidateSummaryRequest(raw: RawSummaryRequest): (r: Result<SummaryRequest, set<string>>)
    ensures r.Ok? <==>
      && MinChunkLength <= |raw.textChunk| <= MaxChunkLength
      && |Strip(raw.textChunk)| >= MinChunkLength
      && AtMost(raw.chapterTitle, MaxTitleLength)
      && AtMost(raw.prevContext, MaxContextLength)
      && AtMost(raw.nextContext, MaxContextLength)
      && (raw.mode.Absent? || (raw.mode.Given? && ParseMode(raw.mode.value).Some?))
    ensures r.Ok? ==> ValidRequest(r.value)
    ensures r.Ok? ==> r.value.textChunk == Strip(raw.textChunk)
    ensures r.Ok? ==>
      && r.value.bookId == raw.bookId && r.value.chapterTitle == raw.chapterTitle
      && r.value.prevContext == raw.prevContext && r.value.nextContext == raw.nextContext
    ensures r.Ok? && raw.mode.Absent? ==> r.value.mode == Chapter
    ensures r.Ok? && raw.mode.Given? ==> ModeValue(r.value.mode) == raw.mode.value
    ensures r.Err? ==> r.error != {}
    ensures r.Err? ==> ("mode" in r.error <==> raw.mode.Null? || (raw.mode.Given? && ParseMode(raw.mode.value).None?))
    ensures r.Err? ==> ("text_chunk" in r.error <==>
      !(MinChunkLength <= |raw.textChunk| <= MaxChunkLength && |Strip(raw.textChunk)| >= MinChunkLength))
    ensures r.Err? ==> ("chapter_title" in r.error <==> !AtMost(raw.chapterTitle, MaxTitleLength))
    ensures r.Err? ==> ("prev_context" in r.error <==> !AtMost(raw.prevContext, MaxContextLength))
    ensures r.Err? ==> ("next_context" in r.error <==> !AtMost(raw.nextContext, MaxContextLength))
  {
    var titleOk := AtMost(raw.chapterTitle, MaxTitleLength);
    var chunk := if MinChunkLength <= |raw.textChunk| <= MaxChunkLength
      then ValidateTextChunk(raw.textChunk) else Err("length");
    assert chunk.Ok? ==> ValidChunk(chunk.value) by {
      if chunk.Ok? {
        StrippedChunkValid(raw.textChunk);
      }
    }
    var mode := match raw.mode
      case Absent => Some(Chapter)
      case Null => None
      case Given(v) => ParseMode(v);
    var prevOk := AtMost(raw.prevContext, MaxContextLength);
    var nextOk := AtMost(raw.nextContext, MaxContextLength);
    if titleOk && chunk.Ok? && mode.Some? && prevOk && nextOk then
      Ok(SummaryRequest(raw.bookId, raw.chapterTitle, chunk.value, mode.value,
                        raw.prevContext, raw.nextContext))
    else
      Err(FailingFields(titleOk, chunk.Ok?, mode.Some?, prevOk, nextOk))
  }

  /** The names of the fields whose check failed. */
  function FailingFields(titleOk: bool, chunkOk: bool, modeOk: bool, prevOk: bool, nextOk: bool): (r: set<string>)
    ensures r == {} <==> titleOk && chunkOk && modeOk && prevOk && nextOk
    ensures "text_chunk" in r <==> !chunkOk
    ensures "mode" in r <==> !modeOk
    ensures "chapter_title" in r <==> !titleOk
    ensures "prev_context" in r <==> !prevOk
    ensures "next_context" in r <==> !nextOk
  {
    (if titleOk then {} else {"chapter_title"})
      + (if chunkOk then {} else {"text_chunk"})
      + (if modeOk then {} else {"mode"})
      + (if prevOk then {} else {"prev_context"})
      + (if nextOk then {} else {"next_context"})
  }

  /** The request body a validated request serialises to. */
  function Dump(r: SummaryRequest): RawSummaryRequest
  {
    RawSummaryRequest(r.bookId, r.chapterTitle, r.textChunk, Given(ModeValue(r.mode)),
                      r.prevContext, r.nextContext)
  }

  /** Validation is idempotent: re-validating a validated request gives it back unchanged. */
  lemma RevalidateIsIdentity(r: SummaryRequest)
    requires ValidRequest(r)
    ensures ValidateSummaryRequest(Dump(r)) == Ok(r)
  {
    StripOfStripped(r.textChunk);
    ModeRoundTrip(r.mode);
  }

  // ---- the response ----

  const MaxBlocks: nat := 8
  const MaxVisualSlots: nat := 2

  datatype ContentBlock = ContentBlock(
    blockType: BlockType,
    slideTitle: string,
    headline: string,
    body: string,
    text: string,
    lyricLines: seq<string>,
    imageHint: bool,
    imagePrompt: string)

  predicate ValidContentBlock(b: ContentBlock)
  {
    |b.slideTitle| <= 30 && |b.headline| <= 100 && |b.imagePrompt| <= 500
  }

  datatype GenerationNotes = GenerationNotes(
    compressionApplied: bool,
    longChapterHandled: bool,
    contextUsedOnlyForContinuity: bool)

  const DefaultNotes := GenerationNotes(false, false, true)

  datatype SummaryResponse = SummaryResponse(
    unitTitle: string,
    blocks: seq<ContentBlock>,
    visualSlotsUsed: int,
    cached: bool,
    notes: GenerationNotes)

  /** The constraints the response schema enforces whenever a response is constructed. */
  predicate ValidSummaryResponse(r: SummaryResponse)
  {
    && 1 <= |r.blocks| <= MaxBlocks
    && 0 <= r.visualSlotsUsed <= MaxVisualSlots
    && forall i :: 0 <= i < |r.blocks| ==> ValidContentBlock(r.blocks[i])
  }

  // ---- the model's raw output, after JSON decoding ----

  datatype GeminiOutputBlock = GeminiOutputBlock(
    blockType: string,
    slideTitle: string,
    headline: string,
    body: string,
    text: string,
    lyricLines: seq<string>,
    imageHint: bool,
    imagePrompt: string)

  /** `notes` keeps the boolean entries of the decoded `notes` object. */
  datatype GeminiOutput = GeminiOutput(
    unitTitle: string,
    blocks: seq<GeminiOutputBlock>,
    visualSlotsUsed: int,
    notes: map<string, bool>)
}
