// Image generation for content slides: a Gemini image model first, then a
// Pollinations.ai URL, then a Picsum placeholder URL. The image model, MD5,
// URL quoting and base64 are library calls and enter as function parameters;
// the clock enters as an integer number of seconds.

module ImageService {
  import opened Wrappers
  import opened Text

  const PollinationsBase := "https://image.pollinations.ai/prompt"
  const PicsumBase := "https://picsum.photos"
  const DataUriPrefix := "data:image/png;base64,"

  /** Minimum spacing, in seconds, between two calls to the image model. */
  const GeminiMinInterval := 5
  const SeedModulus := 1000000
  const CleanPromptLimit := 300
  const GeminiPromptLimit := 450

  /** The integer value of the first eight hex digits of an MD5 digest. */
  type Digest32 = x: nat | x < 0x1_0000_0000

  function Max(a: int, b: int): int { if a < b then b else a }

  // ---- Seeds and prompts ----

  /** A deterministic seed taken from the prompt's MD5 digest. */
  function SeedFromPrompt(md5Prefix: string -> Digest32, prompt: string): (seed: nat)
    ensures seed < SeedModulus
  {
    md5Prefix(prompt) % SeedModulus
  }

  /** The prompt with every single and every double quote removed, the rest in order. */
  function Unquoted(prompt: string): (r: string)
    ensures multiset(r) == multiset(prompt)['\'' := 0]['"' := 0]
    ensures forall k :: 0 <= k < |r| ==> r[k] != '\'' && r[k] != '"'
  {
    var once := RemoveChar(prompt, '\'');
    var twice := RemoveChar(once, '"');
    forall k | 0 <= k < |twice| ensures twice[k] != '\'' {
      assert twice[k] in once;
    }
    twice
  }

  /** The unquoted prompt with newlines turned into spaces, cut to 300 characters. */
  function CleanPrompt(prompt: string): (r: string)
    ensures |r| == if |Unquoted(prompt)| <= CleanPromptLimit then |Unquoted(prompt)| else CleanPromptLimit
    ensures forall k :: 0 <= k < |r| ==>
      r[k] == if Unquoted(prompt)[k] == '\n' then ' ' else Unquoted(prompt)[k]
    ensures forall k :: 0 <= k < |r| ==> r[k] != '\'' && r[k] != '"' && r[k] != '\n'
    ensures ((forall k :: 0 <= k < |prompt| ==> prompt[k] != '\'' && prompt[k] != '"' && prompt[k] != '\n') &&
             |prompt| <= CleanPromptLimit) ==> r == prompt
  {
    var unquoted := Unquoted(prompt);
    var flat := ReplaceChar(unquoted, '\n', ' ');
    Take(flat, CleanPromptLimit)
  }

  function StyleSuffix(style: string): string
  {
    style + " style illustration high quality"
  }

  /** A base text followed, when the title is not empty, by the title in parentheses. */
  lemma TitledShape(clean: string, suffix: string, title: string)
    ensures var base := clean + " " + suffix;
      var r := if title != "" then base + " (" + title + ")" else base;
      && StartsWith(r, base)
      && |r| == |clean| + 1 + |suffix| + (if title != "" then |title| + 3 else 0)
      && (title == "" ==> EndsWith(r, suffix))
      && (title != "" ==> EndsWith(r, " (" + title + ")"))
  {
    var base := clean + " " + suffix;
    ConcatPrefixSuffix(clean + " ", suffix);
    ConcatPrefixSuffix(base, "");
    assert base + "" == base;
    ConcatPrefixSuffix(base, " (" + title + ")");
  }

  /** The text sent to Pollinations: cleaned prompt, style, and the book title in parentheses when there is one. */
  function FinalPrompt(prompt: string, style: string, bookTitle: string): (r: string)
    ensures StartsWith(r, CleanPrompt(prompt) + " " + StyleSuffix(style))
    ensures |r| == |CleanPrompt(prompt)| + 1 + |StyleSuffix(style)| + (if bookTitle != "" then |bookTitle| + 3 else 0)
    ensures bookTitle == "" ==> EndsWith(r, StyleSuffix(style))
    ensures bookTitle != "" ==> EndsWith(r, " (" + bookTitle + ")")
  {
    var base := CleanPrompt(prompt) + " " + StyleSuffix(style);
    TitledShape(CleanPrompt(prompt), StyleSuffix(style), bookTitle);
    if bookTitle != "" then base + " (" + bookTitle + ")" else base
  }

  /** The text sent to the image model: style, prompt, characters and book title, cut to 450 characters. */
  function GeminiPromptFull(prompt: string, style: string, bookTitle: string, characterContext: string): string
  {
    "Create a high quality " + style + " style illustration. " + prompt
      + (if characterContext != "" then " Characters: " + characterContext else "")
      + (if bookTitle != "" then " Context: " + bookTitle else "")
  }

  function GeminiPrompt(prompt: string, style: string, bookTitle: string, characterContext: string): (r: string)
    ensures |r| == if |GeminiPromptFull(prompt, style, bookTitle, characterContext)| <= GeminiPromptLimit
                   then |GeminiPromptFull(prompt, style, bookTitle, characterContext)| else GeminiPromptLimit
    ensures StartsWith(GeminiPromptFull(prompt, style, bookTitle, characterContext), r)
    ensures |GeminiPromptFull(prompt, style, bookTitle, characterContext)| <= GeminiPromptLimit ==>
              r == GeminiPromptFull(prompt, style, bookTitle, characterContext)
  {
    Take(GeminiPromptFull(prompt, style, bookTitle, characterContext), GeminiPromptLimit)
  }

  // ---- URLs ----

  /** Every character is a digit or a minus sign, as in `str(n)`. */
  predicate IsNumeral(s: string)
  {
    forall k :: 0 <= k < |s| ==> IsDigit(s[k]) || s[k] == '-'
  }

  lemma NumeralHasNoDelimiter(s: string)
    requires IsNumeral(s)
    ensures '/' !in s && '=' !in s && '&' !in s && '?' !in s
  {
    forall c | c in s ensures c != '/' && c != '=' && c != '&' && c != '?' {
      var k :| 0 <= k < |s| && s[k] == c;
    }
  }

  function Param(name: string, value: string): string
  {
    name + "=" + value
  }

  /** The query string of a Pollinations URL. */
  function QueryString(width: int, height: int, seed: nat): string
  {
    Join("&", QueryFieldList(width, height, seed))
  }

  /** The Pollinations URL, or None where quoting the prompt fails. */
  function PollinationsUrl(md5Prefix: string -> Digest32, quote: string -> Option<string>,
                           prompt: string, width: int, height: int, style: string, bookTitle: string): (r: Option<string>)
    ensures r.Some? <==> quote(FinalPrompt(prompt, style, bookTitle)).Some?
    ensures r.Some? ==> StartsWith(r.value, PollinationsBase + "/" + quote(FinalPrompt(prompt, style, bookTitle)).value + "?")
    ensures r.Some? ==> StartsWith(r.value, PollinationsBase + "/")
    ensures r.Some? ==> EndsWith(r.value, "&nologo=true&model=flux")
  {
    match quote(FinalPrompt(prompt, style, bookTitle))
    case None => None
    case Some(encoded) =>
      var head := PollinationsBase + "/" + encoded + "?";
      ConcatPrefixSuffix(head, QueryString(width, height, SeedFromPrompt(md5Prefix, prompt)));
      ConcatPrefixSuffix(PollinationsBase + "/", encoded);
      StartsWithExtend(PollinationsBase + "/" + encoded, PollinationsBase + "/", "?");
      StartsWithExtend(head, PollinationsBase + "/", QueryString(width, height, SeedFromPrompt(md5Prefix, prompt)));
      QueryTail(width, height, SeedFromPrompt(md5Prefix, prompt));
      EndsWithExtend(QueryString(width, height, SeedFromPrompt(md5Prefix, prompt)), "&nologo=true&model=flux", head);
      Some(head + QueryString(width, height, SeedFromPrompt(md5Prefix, prompt)))
  }

  /** The query closes with the two fixed parameters. */
  lemma QueryTail(width: int, height: int, seed: nat)
    ensures EndsWith(QueryString(width, height, seed), "&nologo=true&model=flux")
  {
    var fields := QueryFieldList(width, height, seed);
    var first3 := fields[..3];
    assert fields[..4] == first3 + ["nologo=true"];
    assert fields == fields[..4] + ["model=flux"];
    JoinSnoc("&", first3, "nologo=true");
    JoinSnoc("&", fields[..4], "model=flux");
    var j := Join("&", first3);
    ConcatAssoc(j + "&" + "nologo=true", "&", "model=flux");
    assert QueryString(width, height, seed) == j + "&" + "nologo=true" + "&" + "model=flux";
    assert QueryString(width, height, seed) == j + "&nologo=true&model=flux";
    ConcatPrefixSuffix(j, "&nologo=true&model=flux");
  }

  /** The Picsum placeholder URL; it depends on the prompt only through the seed. */
  function PicsumUrl(md5Prefix: string -> Digest32, prompt: string, width: int, height: int): (r: string)
    ensures StartsWith(r, PicsumBase + "/seed/")
  {
    var path := Join("/", [NatToString(SeedFromPrompt(md5Prefix, prompt)), IntToString(width), IntToString(height)]);
    ConcatPrefixSuffix(PicsumBase + "/seed/", path);
    PicsumBase + "/seed/" + path
  }

  // ---- Reading URLs back ----

  function Last(parts: seq<string>): string
    requires |parts| >= 1
  {
    parts[|parts| - 1]
  }

  /** The value of the first `name=value` field of a query string. */
  function LookupParam(fields: seq<string>, name: string): Option<string>
  {
    if fields == [] then None
    else
      var kv := Split(fields[0], '=');
      if |kv| == 2 && kv[0] == name then Some(kv[1]) else LookupParam(fields[1..], name)
  }

  function LookupInt(fields: seq<string>, name: string): Option<int>
  {
    match LookupParam(fields, name)
    case None => None
    case Some(v) => ParseInt(v)
  }

  /** The `&`-separated fields after the last `?` of a URL. */
  function QueryFieldsOf(url: string): seq<string>
  {
    Split(Last(Split(url, '?')), '&')
  }

  /** Width, height and seed read back from the query of a Pollinations URL. */
  function ParsePollinationsUrl(url: string): Option<(int, int, int)>
  {
    var fields := QueryFieldsOf(url);
    match (LookupInt(fields, "width"), LookupInt(fields, "height"), LookupInt(fields, "seed"))
    case (Some(w), Some(h), Some(s)) => Some((w, h, s))
    case _ => None
  }

  /** Seed, width and height read back from the path of a Picsum URL. */
  function ParsePicsumUrl(url: string): Option<(int, int, int)>
  {
    var prefix := PicsumBase + "/seed/";
    if !StartsWith(url, prefix) then None
    else
      var fields := Split(url[|prefix|..], '/');
      if |fields| != 3 then None
      else
        match (ParseInt(fields[0]), ParseInt(fields[1]), ParseInt(fields[2]))
        case (Some(s), Some(w), Some(h)) => Some((s, w, h))
        case _ => None
  }

  lemma ParamFields(name: string, value: string)
    requires '=' !in name && '=' !in value
    ensures Split(Param(name, value), '=') == [name, value]
  {
    assert Param(name, value) == name + ['='] + value;
    SplitAtSeparator(name, value, '=');
    SplitNoSeparator(name, '=');
    SplitNoSeparator(value, '=');
  }

  lemma SeedNumeral(seed: nat)
    ensures IsNumeral(NatToString(seed))
  {
  }

  function QueryFieldList(width: int, height: int, seed: nat): seq<string>
  {
    [Param("width", IntToString(width)), Param("height", IntToString(height)),
     Param("seed", NatToString(seed)), "nologo=true", "model=flux"]
  }

  lemma QueryFieldsAvoid(width: int, height: int, seed: nat, c: char)
    requires c in {'&', '?'}
    ensures forall i :: 0 <= i < 5 ==> c !in QueryFieldList(width, height, seed)[i]
  {
    var w, h, s := IntToString(width), IntToString(height), NatToString(seed);
    NumeralHasNoDelimiter(w);
    NumeralHasNoDelimiter(h);
    SeedNumeral(seed);
    NumeralHasNoDelimiter(s);
    assert Param("width", w) == "width=" + w;
    assert Param("height", h) == "height=" + h;
    assert Param("seed", s) == "seed=" + s;
  }

  /** The query of a Pollinations URL splits into its five fields. */
  lemma QueryFields(width: int, height: int, seed: nat)
    ensures Split(QueryString(width, height, seed), '&') == QueryFieldList(width, height, seed)
  {
    QueryFieldsAvoid(width, height, seed, '&');
    SplitJoin(QueryFieldList(width, height, seed), '&');
  }

  /** Each numeric field of the query reads back as the number written into it. */
  lemma QueryFieldValues(width: int, height: int, seed: nat)
    ensures LookupInt(QueryFieldList(width, height, seed), "width") == Some(width)
    ensures LookupInt(QueryFieldList(width, height, seed), "height") == Some(height)
    ensures LookupInt(QueryFieldList(width, height, seed), "seed") == Some(seed)
  {
    var fields := QueryFieldList(width, height, seed);
    var w, h, s := IntToString(width), IntToString(height), NatToString(seed);
    NumeralHasNoDelimiter(w);
    NumeralHasNoDelimiter(h);
    SeedNumeral(seed);
    NumeralHasNoDelimiter(s);
    ParamFields("width", w);
    ParamFields("height", h);
    ParamFields("seed", s);
    assert LookupParam(fields, "width") == Some(w);
    assert LookupParam(fields, "height") == Some(h) by {
      assert LookupParam(fields, "height") == LookupParam(fields[1..], "height");
    }
    assert LookupParam(fields, "seed") == Some(s) by {
      assert LookupParam(fields, "seed") == LookupParam(fields[1..], "seed") == LookupParam(fields[2..], "seed");
    }
    IntToStringRoundTrip(width);
    IntToStringRoundTrip(height);
    IntToStringRoundTrip(seed);
    assert IntToString(seed) == s;
  }

  /** The text after the last '?' is the query, whatever the quoted prompt holds. */
  lemma QueryAfterLastQuestionMark(head: string, query: string)
    requires '?' !in query
    ensures Last(Split(head + "?" + query, '?')) == query
  {
    assert head + "?" + query == head + ['?'] + query;
    SplitAtSeparator(head, query, '?');
    SplitNoSeparator(query, '?');
  }

  /** The query of a Pollinations URL reads back as the five fields written into it,
      whatever the quoted prompt holds. */
  lemma PollinationsQuery(md5Prefix: string -> Digest32, quote: string -> Option<string>,
                          prompt: string, width: int, height: int, style: string, bookTitle: string)
    requires quote(FinalPrompt(prompt, style, bookTitle)).Some?
    ensures QueryFieldsOf(PollinationsUrl(md5Prefix, quote, prompt, width, height, style, bookTitle).value)
            == QueryFieldList(width, height, SeedFromPrompt(md5Prefix, prompt))
  {
    var seed := SeedFromPrompt(md5Prefix, prompt);
    var encoded := quote(FinalPrompt(prompt, style, bookTitle)).value;
    var query := QueryString(width, height, seed);
    QueryFieldsAvoid(width, height, seed, '?');
    JoinAvoids(QueryFieldList(width, height, seed), "&", '?');
    QueryAfterLastQuestionMark(PollinationsBase + "/" + encoded, query);
    QueryFields(width, height, seed);
  }

  /** The query of a Pollinations URL carries the width, height and seed written into it,
      then `nologo=true` and `model=flux`, and the numbers read back as written. */
  lemma PollinationsUrlRoundTrip(md5Prefix: string -> Digest32, quote: string -> Option<string>,
                                 prompt: string, width: int, height: int, style: string, bookTitle: string)
    requires quote(FinalPrompt(prompt, style, bookTitle)).Some?
    ensures QueryFieldsOf(PollinationsUrl(md5Prefix, quote, prompt, width, height, style, bookTitle).value)
            == ["width=" + IntToString(width), "height=" + IntToString(height),
                "seed=" + NatToString(SeedFromPrompt(md5Prefix, prompt)), "nologo=true", "model=flux"]
    ensures ParsePollinationsUrl(PollinationsUrl(md5Prefix, quote, prompt, width, height, style, bookTitle).value)
            == Some((width, height, SeedFromPrompt(md5Prefix, prompt)))
  {
    var seed := SeedFromPrompt(md5Prefix, prompt);
    var url := PollinationsUrl(md5Prefix, quote, prompt, width, height, style, bookTitle).value;
    PollinationsQuery(md5Prefix, quote, prompt, width, height, style, bookTitle);
    QueryFieldListSpelled(width, height, seed);
    ParseQueryFields(url, width, height, seed);
  }

  /** The query fields spelled out. */
  lemma QueryFieldListSpelled(width: int, height: int, seed: nat)
    ensures QueryFieldList(width, height, seed)
            == ["width=" + IntToString(width), "height=" + IntToString(height),
                "seed=" + NatToString(seed), "nologo=true", "model=flux"]
  {
    assert Param("width", IntToString(width)) == "width=" + IntToString(width);
    assert Param("height", IntToString(height)) == "height=" + IntToString(height);
    assert Param("seed", NatToString(seed)) == "seed=" + NatToString(seed);
  }

  /** A URL whose query holds the Pollinations fields reads back their numbers. */
  lemma ParseQueryFields(url: string, width: int, height: int, seed: nat)
    requires QueryFieldsOf(url) == QueryFieldList(width, height, seed)
    ensures ParsePollinationsUrl(url) == Some((width, height, seed))
  {
    QueryFieldValues(width, height, seed);
  }

  /** A joined string avoids a character that neither its parts nor its separator contain. */
  lemma {:induction false} JoinAvoids(parts: seq<string>, sep: string, c: char)
    requires c !in sep
    requires forall i :: 0 <= i < |parts| ==> c !in parts[i]
    ensures c !in Join(sep, parts)
  {
    if |parts| > 1 {
      JoinAvoids(parts[..|parts| - 1], sep, c);
    }
  }

  /** The seed, width and height written into a Picsum URL are the ones read back from it. */
  lemma PicsumUrlRoundTrip(md5Prefix: string -> Digest32, prompt: string, width: int, height: int)
    ensures ParsePicsumUrl(PicsumUrl(md5Prefix, prompt, width, height))
            == Some((SeedFromPrompt(md5Prefix, prompt), width, height))
  {
    var seed := SeedFromPrompt(md5Prefix, prompt);
    var s, w, h := NatToString(seed), IntToString(width), IntToString(height);
    SeedNumeral(seed);
    NumeralHasNoDelimiter(s);
    NumeralHasNoDelimiter(w);
    NumeralHasNoDelimiter(h);
    var prefix := PicsumBase + "/seed/";
    var path := Join("/", [s, w, h]);
    var url := PicsumUrl(md5Prefix, prompt, width, height);
    assert url == prefix + path;
    assert url[|prefix|..] == path;
    SplitJoin([s, w, h], '/');
    IntToStringRoundTrip(seed);
    IntToStringRoundTrip(width);
    IntToStringRoundTrip(height);
    assert IntToString(seed) == s;
  }

  // ---- Image data ----

  /** The data URI for the image bytes the model returned, or None when it returned none. */
  function ImageDataUri(payload: Option<seq<bv8>>, base64: seq<bv8> -> string): (r: Option<string>)
    ensures r.Some? <==> payload.Some? && |payload.value| > 0
    ensures r.Some? ==> StartsWith(r.value, DataUriPrefix)
    ensures r.Some? ==> r.value[|DataUriPrefix|..] == base64(payload.value)
  {
    match payload
    case Some(bytes) =>
      if |bytes| > 0 then
        ConcatPrefixSuffix(DataUriPrefix, base64(bytes));
        Some(DataUriPrefix + base64(bytes))
      else None
    case None => None
  }

  /**
   * The image service. `hasClient` says whether an image-model client could be
   * created; `lastGeminiCall` is the clock reading after the last wait for the
   * rate limit.
   */
  class ImageGenerationService {
    const hasClient: bool
    var lastGeminiCall: int

    constructor(hasClient: bool)
      ensures this.hasClient == hasClient
      ensures lastGeminiCall == 0
    {
      this.hasClient := hasClient;
      lastGeminiCall := 0;
    }

    /**
     * Sleeps until five seconds have passed since the previous call, then
     * records the clock. The sleep is taken to last exactly `wait` seconds.
     */
    method WaitForGeminiRateLimit(now: int) returns (wait: int)
      modifies this
      ensures wait >= 0
      ensures now - old(lastGeminiCall) >= GeminiMinInterval ==> wait == 0
      ensures now - old(lastGeminiCall) < GeminiMinInterval ==> wait == GeminiMinInterval - (now - old(lastGeminiCall))
      ensures lastGeminiCall == now + wait
      ensures lastGeminiCall == Max(now, old(lastGeminiCall) + GeminiMinInterval)
      ensures lastGeminiCall - old(lastGeminiCall) >= GeminiMinInterval
    {
      var elapsed := now - lastGeminiCall;
      wait := 0;
      if elapsed < GeminiMinInterval {
        wait := GeminiMinInterval - elapsed;
      }
      lastGeminiCall := now + wait;
    }

    /**
     * Asks the image model for a picture. `generate` stands for the SDK call
     * and returns the image bytes, or None when it fails or the reply holds
     * no image.
     */
    method GenerateGeminiImage(prompt: string, style: string, bookTitle: string, characterContext: string,
                               now: int, generate: string -> Option<seq<bv8>>, base64: seq<bv8> -> string)
      returns (url: Option<string>)
      modifies this
      ensures !hasClient ==> url.None? && lastGeminiCall == old(lastGeminiCall)
      ensures hasClient ==> lastGeminiCall == Max(now, old(lastGeminiCall) + GeminiMinInterval)
      ensures hasClient ==> url == ImageDataUri(generate(GeminiPrompt(prompt, style, bookTitle, characterContext)), base64)
      ensures url.Some? ==> StartsWith(url.value, DataUriPrefix)
    {
      if !hasClient {
        return None;
      }
      var _ := WaitForGeminiRateLimit(now);
      var payload := generate(GeminiPrompt(prompt, style, bookTitle, characterContext));
      url := ImageDataUri(payload, base64);
    }

    /** Image model first, then Pollinations, then Picsum. */
    method GenerateImageUrl(prompt: string, width: int, height: int, style: string, bookTitle: string,
                            characterContext: string, now: int,
                            generate: string -> Option<seq<bv8>>, base64: seq<bv8> -> string,
                            md5Prefix: string -> Digest32, quote: string -> Option<string>)
      returns (url: string)
      modifies this
      ensures !hasClient ==> lastGeminiCall == old(lastGeminiCall)
      ensures hasClient ==> lastGeminiCall == Max(now, old(lastGeminiCall) + GeminiMinInterval)
      ensures var gemini := ImageDataUri(generate(GeminiPrompt(prompt, style, bookTitle, characterContext)), base64);
              var pollinations := PollinationsUrl(md5Prefix, quote, prompt, width, height, style, bookTitle);
              url == if hasClient && gemini.Some? then gemini.value
                     else if pollinations.Some? then pollinations.value
                     else PicsumUrl(md5Prefix, prompt, width, height)
      ensures StartsWith(url, DataUriPrefix) || StartsWith(url, PollinationsBase + "/") || StartsWith(url, PicsumBase + "/seed/")
    {
      if hasClient {
        var gemini := GenerateGeminiImage(prompt, style, bookTitle, characterContext, now, generate, base64);
        if gemini.Some? {
          return gemini.value;
        }
      }
      var pollinations := PollinationsUrl(md5Prefix, quote, prompt, width, height, style, bookTitle);
      if pollinations.Some? {
        return pollinations.value;
      }
      return PicsumUrl(md5Prefix, prompt, width, height);
    }
  }
}
