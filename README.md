# Chapter-summary backend, modelled in Dafny

This project models the Python backend of a reading app. The backend turns a chunk of
a book chapter into a short deck of learning slides. The model covers six parts:

- **Request and response schemas** (`Schemas`). These are the summary modes and the
  fifteen block types. They include the request with its field bounds and the
  `text_chunk` validator, which strips the chunk and then demands 100 characters. They
  also include the response with its 1–8 blocks and 0–2 visual slots, and the raw shape
  of the model's JSON reply.
- **The in-memory summary cache** (`CacheService`). This is the key derived from book,
  chapter title, chunk and mode, plus entries that expire a fixed number of seconds
  after they are stored. It keeps hit, miss, store and eviction counters, and purges
  expired entries on every hundredth store.
- **The in-memory notes store** (`NotesService`). It creates, reads, updates and deletes
  notes in a dictionary that remembers insertion order. It has the per-book and per-card
  queries, and the dictionary form a note is serialised to and read back from.
- **The summary generator** (`GeminiClient`). This covers the user prompt built from a
  request, and removing Markdown fences from the model's reply. It also covers turning
  the decoded reply into a response: at most eight blocks, unknown types read as
  `insight`, at most two image hints, and a fallback chain for the title.
- **The summary endpoint** (`SummaryEndpoint`). It runs a cache lookup, then the
  generator, then replaces a reply with fewer than three blocks by a fallback, then
  stores the result. Any generator error yields the fallback response, which is not
  cached.
- **The image service** (`ImageService`). This covers the prompt seed and prompt
  cleaning, the Pollinations and Picsum URLs, and the prompt and data URI of the Gemini
  image model. It also covers the five-second rate limit between image-model calls and
  the provider order: image model, then Pollinations, then Picsum.

`Text` gives the Python string operations the code relies on, with Python's meaning:
- `strip`, including every character `str.isspace` accepts;
- slicing, `startswith`/`endswith` and `join`;
- `replace` of one character;
- `str(n)`.

`Text` also has `split` on one character and `int(s)`. The source calls neither; they
exist to read the numbers back out of a generated URL, so that the URL lemmas can state
that what was written is what a reader gets.

`Wrappers` holds `Option` and `Result`; `None` and `Err` stand for Python's `None` and
for raised exceptions.

State that the source changes in place is kept in classes:
- the cache dictionary and its counters (`Cache`);
- the notes dictionary, split into its contents and its insertion order (`NotesStore`);
- the generator's lazy-initialisation flag (`Generator`);
- the time of the last image-model call (`ImageGenerationService`).

The loops of the source are methods with loop invariants:
- the eviction loop of `_cleanup_expired`;
- the block loop of `_parse_gemini_response`;
- the search of `get_note_for_card`.

Clocks are integer seconds passed to each call. Calls into libraries and services are
function parameters:
- the Gemini SDK calls, for text and for images;
- JSON decoding together with the `GeminiOutput` schema;
- MD5 (the first eight hex digits as a number below 2^32);
- `urllib.parse.quote` and base64.

SHA-256 of the cache key is taken to be injective, so the joined key string stands for
the key.

## Model

| member | source | states |
|---|---|---|
| Text.Strip | backend/src/core/schemas.py:84 | The stripped text is no longer than the input and neither starts nor ends with a white-space character |
| Text.StripSlice | backend/src/core/schemas.py:84 | Stripping returns a contiguous slice of the input, and everything cut off on either side is white space |
| Text.StripIdempotent | backend/src/core/schemas.py:84-87 | Stripping an already stripped text changes nothing, so a validated chunk re-validates to itself |
| Text.NatToStringRoundTrip | backend/src/services/notes_service.py:43-57 | Reading back the numeral written for a timestamp gives the timestamp; this is the stand-in for the isoformat/fromisoformat round trip |
| Text.IntToStringRoundTrip | backend/src/services/image_service.py:197 | `int(str(i)) == i` for every integer, including negative widths and heights written into URLs |
| Text.RemoveChar | backend/src/services/image_service.py:189 | Removing a character leaves every other character with its multiplicity and no occurrence of the removed one; a string without it is unchanged |
| Text.RemoveCharAppend | backend/src/services/image_service.py:189 | Removal works piece by piece: removing from a concatenation concatenates the removals, so order is kept |
| Text.RemoveCharOne | backend/src/services/image_service.py:189 | Removing from one character drops it exactly when it is the removed character |
| Text.SplitJoin | backend/src/services/image_service.py:201 | Splitting a join of separator-free parts on the separator gives the parts back |
| Schemas.ParseMode | backend/src/core/schemas.py:15-19 | A recognised mode string names the mode whose value is that string; anything else is rejected |
| Schemas.ModeRoundTrip | backend/src/core/schemas.py:15-19 | Every mode's value parses back to that mode |
| Schemas.SummaryModeHasThreeValues | backend/src/core/schemas.py:15-19 | The mode enum has exactly three members with pairwise distinct values |
| Schemas.ParseBlockType | backend/src/core/schemas.py:22-40 | A parsed block type has exactly the given value, and parsing fails only when no block type has that value |
| Schemas.BlockTypeRoundTrip | backend/src/core/schemas.py:22-40 | Every block type's value parses back to that block type |
| Schemas.BlockTypeHasFifteenValues | backend/src/core/schemas.py:22-40 | The block-type enum has exactly fifteen members, and no two share a value |
| Schemas.ValidateTextChunk | backend/src/core/schemas.py:80-87 | The validator accepts exactly when the stripped chunk has at least 100 characters, and returns the stripped chunk |
| Schemas.ValidateSummaryRequest | backend/src/core/schemas.py:47-87 | A request is accepted iff the raw chunk length is in 100..15000, the stripped chunk keeps 100 characters, the title is at most 200, each context is at most 2000, and the mode is either missing or a known value; an explicit null mode is rejected. An accepted request holds the stripped chunk, has chapter mode when the mode was missing and the given mode otherwise, and satisfies the request invariant. A rejection names "mode" exactly when the mode is null or unknown, and "text_chunk" exactly when the chunk fails its bounds, and likewise "chapter_title", "prev_context" and "next_context" exactly when that field is too long. An accepted request keeps the book id, title and both contexts unchanged |
| Schemas.RevalidateIsIdentity | backend/src/core/schemas.py:47-87 | Serialising a valid request and validating it again gives back the same request |
| CacheService.OrNone | backend/src/services/cache_service.py:60-61 | A key component is never empty: an absent or empty value becomes "none", and a present value is kept |
| CacheService.ChunkKeyPart | backend/src/services/cache_service.py:62 | A chunk of at most 1000 characters enters the key whole; a longer one enters as its first 500 followed by its last 500 characters |
| CacheService.GenerateKey | backend/src/services/cache_service.py:49-67 | The key string is the book (or "none"), the chapter title (or "none"), the chunk's key part and the mode's value, separated by "\|" |
| CacheService.ExpiryIsStrictAndFinal | backend/src/services/cache_service.py:69-71 | An entry is not yet expired at its expiry time, is expired exactly from one second later on, and stays expired |
| CacheService.KeyDependsOnlyOnComponents | backend/src/services/cache_service.py:59-67 | Two requests with the same book, title, mode and chunk ends get the same key, whatever their contexts or chunk middles |
| CacheService.KeyEndsWithMode | backend/src/services/cache_service.py:59-67 | Every key ends with the mode's value |
| CacheService.ModeSeparatesKeys | backend/src/services/cache_service.py:59-67 | Requests in different modes never share a key |
| CacheService.SeparatorCollision | backend/src/services/cache_service.py:66 | Because the separator is not escaped, two requests with different books and different chapter titles can share a key |
| CacheService.PurgePartitions | backend/src/services/cache_service.py:73-81 | A purge keeps exactly the unexpired entries unchanged and evicts the rest, and kept plus evicted is the number of entries |
| CacheService.Cache.constructor | backend/src/services/cache_service.py:39-47 | A new cache is empty with all four counters at zero |
| CacheService.Cache.Get | backend/src/services/cache_service.py:86-121 | Absent key: a miss, no other change. Expired entry (strictly past its expiry): the key is removed and a miss and an eviction are counted. Live entry: its hit count and the hits go up by one, and the stored response comes back marked cached. Each call counts exactly one hit or one miss |
| CacheService.Cache.CleanupExpired | backend/src/services/cache_service.py:73-84 | The cache afterwards holds exactly its live entries, evictions grow by the number of expired entries, and the other counters stay |
| CacheService.Cache.EvictAll | backend/src/services/cache_service.py:79-81 | Deleting the given keys one by one removes exactly them and counts one eviction per key |
| CacheService.Cache.Store | backend/src/services/cache_service.py:123-151 | The key is (re)written with an uncached copy that expires TTL seconds later, and stores go up by one. When the new store count is a multiple of 100, the expired entries are purged and counted as evictions; otherwise no other key changes. With a non-negative TTL the new entry survives the purge |
| CacheService.Cache.Invalidate | backend/src/services/cache_service.py:153-168 | The result is true iff the key was present, the key is absent afterwards, and the counters are unchanged |
| CacheService.Cache.GetStats | backend/src/services/cache_service.py:182-191 | The statistics report the hit, miss, store and eviction counters and the number of entries |
| CacheService.Cache.Clear | backend/src/services/cache_service.py:170-180 | Returns the previous number of entries, leaves the cache empty, and leaves every counter as it was |
| CacheService.StoreThenGet | backend/src/services/cache_service.py:86-151 | Storing a response and reading it back no later than its expiry returns that response marked as cached |
| NotesService.ToDict | backend/src/services/notes_service.py:35-45 | The dictionary form has exactly the seven fields of a note |
| NotesService.FromDict | backend/src/services/notes_service.py:48-67 | A note read from a dictionary carries the dictionary's id, book, card index, card title and text. A missing field is an error. A timestamp that is absent or not a string defaults to the current time, and a string timestamp is the parsed time. Reading succeeds iff the five fields are present with their types and every string timestamp parses |
| NotesService.DictRoundTrip | backend/src/services/notes_service.py:35-67 | Reading back the dictionary form of a note gives the same note, timestamps included |
| NotesService.NotesInOrder | backend/src/services/notes_service.py:134-136 | All notes are listed in insertion order, one per id |
| NotesService.NotesOfBook | backend/src/services/notes_service.py:119-121 | The filter returns exactly the notes of the given book |
| NotesService.NotesOfBookAppend | backend/src/services/notes_service.py:119-121 | The filter keeps relative order: filtering a concatenation concatenates the filtered parts |
| NotesService.NotesStore.constructor | backend/src/services/notes_service.py:73-75 | A new store has no notes |
| NotesService.NotesStore.AllNotes | backend/src/services/notes_service.py:134-136 | The list has one note per stored id, in insertion order, with no id twice; a note is in it exactly when it is stored |
| NotesService.NotesStore.GetNote | backend/src/services/notes_service.py:97-99 | A note is found iff its id is stored, and the note found is the stored note, with that id |
| NotesService.NotesStore.NotesForBook | backend/src/services/notes_service.py:119-121 | The result holds exactly the stored notes of the given book |
| NotesService.NotesStore.CreateNote | backend/src/services/notes_service.py:77-95 | The new note has the given fields, the fresh id and the clock reading as both timestamps, and is stored under its id. A new id goes to the end of the insertion order, so all notes gain exactly that note at the end; no other note changes |
| NotesService.NotesStore.UpdateNote | backend/src/services/notes_service.py:101-109 | An existing note gets the new text and update time and is returned, with every other field and note unchanged. A missing id returns nothing and changes nothing |
| NotesService.NotesStore.DeleteNote | backend/src/services/notes_service.py:111-117 | The result is true iff the id was stored. The id is gone afterwards, and every other note stays, in its order |
| NotesService.NotesStore.FindNoteForCard | backend/src/services/notes_service.py:123-132 | Returns the first note in insertion order that matches the book and card index, and nothing only when no note matches |
| NotesService.NotesStore.ClearNotes | backend/src/services/notes_service.py:138-141 | The store is empty and listing all notes gives the empty list |
| GeminiClient.BuildUserPrompt | backend/src/services/gemini_client.py:77-106 | Joining the appended parts with line breaks gives the mode line, the present contexts (each cut to 500 characters), the present title, the target text and the closing line, in that order |
| GeminiClient.UserPrompt | backend/src/services/gemini_client.py:77-106 | Every prompt opens with the mode instruction and ends with the whole target text between its markers, followed by the closing instruction |
| GeminiClient.PromptWithoutExtras | backend/src/services/gemini_client.py:77-106 | Without contexts or title, the prompt is the mode line, the target block and the closing line joined by line breaks |
| GeminiClient.StripFences | backend/src/services/gemini_client.py:115-123 | The cleaned reply is no longer than the raw reply and has no white space at either end |
| GeminiClient.FencedReply | backend/src/services/gemini_client.py:115-123 | A reply wrapped in a json-tagged code fence, whose content does not itself open a fence, cleans to its stripped content |
| GeminiClient.UnfencedReply | backend/src/services/gemini_client.py:115-123 | A stripped reply with no fence at either end is left as it is |
| GeminiClient.NormalizeType | backend/src/services/gemini_client.py:135-138 | A known block type is kept, and an unknown one becomes insight |
| GeminiClient.ResolveTitle | backend/src/services/gemini_client.py:165 | The title is the reply's title if non-empty, else the request's chapter title if non-empty, else "Learning Unit" |
| GeminiClient.GrantedOfParsed | backend/src/services/gemini_client.py:141-145 | The normalised blocks carry as many image hints as the minimum of two and the number of raw blocks that asked for one |
| GeminiClient.ParseBlocks | backend/src/services/gemini_client.py:130-152 | The first min(8, n) raw blocks become output blocks, in order. Each keeps its text and lyric lines, gets its normalised type, and keeps its image hint only if fewer than two hints were granted before it. The visual count equals the number of hints granted, and is at most two |
| GeminiClient.ParseGeminiResponse | backend/src/services/gemini_client.py:109-175 | A reply that cannot be decoded is an error, and so is a decoded reply with no blocks. Otherwise the response is schema-valid, holds the normalised first eight blocks, counts exactly its image hints as visual slots, takes the resolved title and the two note flags, and is not marked cached |
| GeminiClient.Generator.constructor | backend/src/services/gemini_client.py:184-187 | A new generator is not initialised |
| GeminiClient.Generator.EnsureInitialized | backend/src/services/gemini_client.py:189-211 | Initialisation succeeds iff it already happened or an API key is configured, and the flag records the success |
| GeminiClient.Generator.GenerateSummary | backend/src/services/gemini_client.py:213-245 | A missing API key, a failed model call or an empty reply is an error. Otherwise the call succeeds iff the cleaned reply decodes and holds at least one block. A success is a schema-valid response not marked cached. Afterwards the client counts as initialised iff it was before or an API key is configured |
| SummaryEndpoint.FallbackPreview | backend/src/api/generate_summary.py:33-35 | The preview is the stripped chunk when the chunk has at most 300 characters, and otherwise its first 300 characters, stripped, followed by "..."; it is at most 303 characters |
| SummaryEndpoint.PreviewOfValidChunk | backend/src/api/generate_summary.py:33-35 | A valid chunk of at most 300 characters is its own preview. A longer one's preview is its first n characters and "...", where n is the position of the last non-space among the first 300; everything from n to 300 is white space. When the 300th character is not white space, the preview is exactly the first 300 characters and "..." |
| SummaryEndpoint.LongPreview | backend/src/api/generate_summary.py:33-35 | For a text longer than 300 characters that starts with a non-space, the preview cuts at the last non-space among the first 300 characters and appends "..." |
| SummaryEndpoint.CreateFallbackResponse | backend/src/api/generate_summary.py:25-66 | The fallback is schema-valid with exactly three blocks: core idea (carrying the preview), insight and takeaway. No block has an image hint, no visual slot is used, it is not marked cached, and its title is the chapter title or "Chapter Summary". The core idea reads "This chapter covers: " followed by the preview, and the other two blocks carry the fixed retry and review advice |
| SummaryEndpoint.GenerateSummary | backend/src/api/generate_summary.py:92-144 | For one request running alone: a cache hit is returned marked cached without calling the generator: only that entry's hit count and the hits go up. On a miss the generator is called and the misses go up by one. An error yields the fallback; the cache loses only the request's expired entry (counted as an eviction) and stores nothing. A reply with fewer than three blocks is replaced by the fallback, and the response is stored: the other entries are kept, or purged of expired ones on every hundredth store, with evictions counted as the store counts them |
| ImageService.SeedFromPrompt | backend/src/services/image_service.py:103-104 | The seed is a function of the prompt alone and lies in [0, 1000000) |
| ImageService.Unquoted | backend/src/services/image_service.py:189 | Removing quotes and double quotes keeps every other character with its multiplicity and leaves neither kind of quote |
| ImageService.CleanPrompt | backend/src/services/image_service.py:189 | The cleaned prompt is the unquoted prompt with each newline turned into a space, cut to its first 300 characters: its length is the smaller of the two and each character is the unquoted prompt's character at that position, a newline read as a space |
| ImageService.FinalPrompt | backend/src/services/image_service.py:190-193 | The Pollinations prompt starts with the cleaned prompt, a space and the style suffix. Its length is theirs plus, with a book title, the title and three characters. It ends with the style suffix when there is no title, and with the title in parentheses otherwise |
| ImageService.GeminiPrompt | backend/src/services/image_service.py:122-130 | The image-model prompt is the first min(n, 450) characters of the full prompt of length n, so the whole prompt when that fits |
| ImageService.PollinationsUrl | backend/src/services/image_service.py:181-197 | A URL exists iff quoting the final prompt succeeds. It is the Pollinations base, a slash, the quoted prompt and "?" followed by the query, and it ends with "&nologo=true&model=flux" |
| ImageService.QueryTail | backend/src/services/image_service.py:197 | The query string ends with "&nologo=true&model=flux" |
| ImageService.PollinationsUrlRoundTrip | backend/src/services/image_service.py:195-197 | The query of a Pollinations URL is exactly the five fields width, height, seed, nologo=true and model=flux, whatever the quoted prompt contains, and the width, height and seed read back are the ones written into it |
| ImageService.PicsumUrl | backend/src/services/image_service.py:199-201 | The Picsum URL lies under the base's /seed/ path |
| ImageService.PicsumUrlRoundTrip | backend/src/services/image_service.py:199-201 | The seed, width and height read back from a Picsum URL's path are the ones written into it |
| ImageService.ImageDataUri | backend/src/services/image_service.py:163-175 | A data URI exists iff the model returned non-empty image data, and it is the PNG base64 prefix followed by the base64 encoding of those bytes |
| ImageService.ImageGenerationService.constructor | backend/src/services/image_service.py:46-63 | A new service records whether an image-model client exists and a last call time of zero |
| ImageService.ImageGenerationService.WaitForGeminiRateLimit | backend/src/services/image_service.py:94-101 | The wait is 5 − elapsed when fewer than five seconds have elapsed, else 0. The recorded call time is max(now, previous + 5), so consecutive recorded calls that do not overlap are at least five seconds apart |
| ImageService.ImageGenerationService.GenerateGeminiImage | backend/src/services/image_service.py:106-179 | Without a client: no image, and the rate-limit state is untouched. With one: the rate limit is applied, and the result is the data URI of what the model returns for the prompt cut to 450 characters |
| ImageService.ImageGenerationService.GenerateImageUrl | backend/src/services/image_service.py:203-229 | The URL is the image model's data URI when there is a client and it returns an image, else the Pollinations URL when quoting succeeds, else the Picsum URL. It always starts with one of the three prefixes |

## Left out

- The Gemini SDK calls and client construction: foreign network calls. They enter as functions that return a reply or `None` for a raised exception. The system prompt and generation settings are not modelled.
- `json.loads`, the `GeminiOutput` schema, SHA-256, MD5, `urllib.parse.quote` and base64: library functions. They enter as function parameters; SHA-256 is taken to be injective.
- The image model's reply parts: the first inline image part is folded into the SDK parameter, which yields the image bytes directly. Decoding a string payload before re-encoding it is folded in as well. The aspect ratio and resolution settings are unused by the source and left out.
- `_setup_images_dir`: filesystem I/O, and its result is not used by the modelled operations.
- `GeminiClient.generate_summary_sync`: the same steps as `generate_summary` without `await`, so it adds nothing to model.
- Module singletons (`get_cache_service`, `get_notes_service`, `get_gemini_client`, `get_image_service`) and settings loading: the model takes a service object and the TTL as parameters. The default TTL of 86400 seconds is not a constant of the model: any TTL may be passed.
- The HTTP routes in backend/main.py and backend/src/api/notes.py, the cache stats and clear routes, and backend/src/api/generate_image.py and backend/src/api/extract_text.py: request plumbing and PDF parsing outside the services.
- `get_stats`: the hit rate is floating-point and is left out; the counters and the entry count are `Cache.GetStats`.
- Real clocks, `asyncio.sleep` and `asyncio.to_thread`: time is an integer number of seconds passed to each call. A sleep is taken to last exactly as long as asked, so the clock after the wait is `now + wait`.
- Concurrency: each operation is modelled as running alone, with no other request interleaved at an `await`. Two overlapping summary requests can both miss the cache and both store (backend/src/api/generate_summary.py:116-131, where `await` separates the lookup from the store), and two overlapping image-model calls can read the same last-call time during the sleep and record times less than five seconds apart (backend/src/services/image_service.py:97-101); neither interleaving is modelled.
- Logging, including the error message passed to `_create_fallback_response`, which is only logged.
- Note timestamps are whole seconds. `isoformat`/`fromisoformat` are modelled as writing and reading a decimal numeral, which keeps their round trip but not their text format.
- NotesService.FromDict: values of the wrong JSON type (a number where a string belongs, a string for the card index) are rejected, whereas Python would build a note holding them untyped.
- `Note` objects are values. `update_note` replaces the stored note instead of changing a shared object, so aliasing of notes returned earlier is not modelled.
- The schema library's coercions and error messages are not modelled. Validation reports only the set of failing field names. The request's mode default is the only default that matters, since absent optional strings are `None`.
- The raw request's `text_chunk` is always a string: a missing, null or non-string chunk, which the schema library rejects before any length check, is not modelled, and neither are optional fields of a non-string type.
- The 32-character truncation of the hex digest is part of the injective-hash abstraction.
- GeminiClient.Generator.GenerateSummary: a success is described by when it happens, its schema validity and its cached flag. The exact response is the one `ParseGeminiResponse` states for the reply.
