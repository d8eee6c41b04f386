# Voice orchestrator: decision and bookkeeping core

A Dafny model of the parts of the voice orchestrator that decide what a spoken
command turns into and keep the shared tables consistent:

- the **phonetic sanitizer** (`NgramSanitizer`), which corrects speech-to-text output
  against a vocabulary of device and area names. It uses the Sørensen–Dice similarity
  of character trigrams over windows of three, two and one words;
- the **semantic tool cache** (`S3SemanticCache`). It maps a normalised utterance to the
  tool call it triggered. It keeps a parallel list of the utterances that may be matched
  fuzzily and heals `exact_only` flags on load. Lookup has two tiers: an exact key, then
  the best-scoring row, gated by a threshold;
- the **semantic router** (`S3SemanticRouter`). It keeps a route → phrases table, the list
  of routes, and one label per matrix row. It learns new phrases, refusing conflicts, and
  classifies a query by the first row of maximal score;
- the **intent processor** (`IntentProcessor`). It tries the cache tier at 0.92 first. On
  a miss it narrows the tools by the router's route (a score at or below 0.6 means no
  route), runs the model's tool calls in order, picks the answer with a fixed fallback,
  and learns the executed calls into the cache with `room` removed;
- the **tool handlers** (`tool_handler.py`): the room → entity-id normaliser, the
  twelve-entry dispatch table, the timer arithmetic and messages, the player and timer
  state reports, and the service payloads;
- the **Home Assistant response parsing** (`ha_client.py`): route → allowed domains, and
  the split/strip/filter parsing of the rendered templates into areas, vocabulary and
  device-context lines.

Modules follow the source files: `Sanitizer` (sanitizer.dfy), `SemanticCache`
(semantic_cache.dfy), `SemanticRouter` (semantic_router.dfy), `IntentProcessor`
(intent_processor.dfy), `ToolHandler` (tool_handler.dfy), `HaClient` (ha_client.dfy).
Two helper modules hold what they share: `Text` has the Python string methods used
(`lower`, `strip`, `split`, `join`, `replace`, `in`), and `Common` has `Option`, JSON
scalars, insertion-ordered dictionaries and `np.argmax`.

What stands in for the outside world:

- **Embeddings.** A matrix is modelled as the list of texts its rows encode. The cosine
  similarity of a query to a row is an abstract function `sim`. `np.argmax` is the first
  index of maximal score.
- **Storage.** Persistence to object storage is a ghost history `writes` of every table
  written. Reading the stored document is an input: the decoded table, or the error.
- **Home Assistant.** The client is a pair of functions `callService` and `getState`.
  Every HTTP response (area template, vocabulary template, context template) is an input
  of type `Option<string>`, where `None` is a failed request.
- **Language model.** It is a function from the chat request to its first choice. The
  router's `(route, matched text, score)` triple is an abstract function of the text,
  because `get_match_details` is not part of this model.
- **Iteration order.** Python set order (the sanitizer vocabulary) is an explicit
  sequence that enumerates the set. Dictionary insertion order is kept by `Dict`.
- **Threshold comparison.** The Dice ratio is computed exactly, as a `real`.

Where the description of the system and the code disagree, the model follows the code:

- `sanitize` does not keep the best match across window sizes at each position. It
  rewrites the text window by window: sizes 3, 2, then 1, each left to right, over the
  word list taken once from the lower-cased input. A chunk that reaches the threshold is
  replaced everywhere it occurs.
- The description promises that sanitizing is idempotent on text the vocabulary already
  covers. The code is not: a one-word window that is similar enough to a multi-word
  entry is replaced by the whole entry, even inside that same entry. With the
  vocabulary `["abcd e"]` and the default threshold 0.75, the input `"abcd e"` is kept by
  its two-word window. Its one-word window `"abcd"` then scores 0.8 against the entry,
  so the text becomes `"abcd e e"` (`Sanitizer.VocabularyPhraseRewritten`).
- There is no fast-path table and no event correlator in the code, and the sanitizer is
  not called by the intent processor.
- On a cache hit the intent processor returns the tool's result as it is (possibly empty,
  or none when the tool raised). Only the language-model path substitutes the fallback
  phrase.

## Model

| member | source | states |
|---|---|---|
| `Sanitizer.NgramSanitizer.constructor` | sanitizer.py:7-9 | a new sanitizer has the given threshold and an empty vocabulary |
| `Sanitizer.NgramSanitizer.UpdateVocabulary` | sanitizer.py:11-16 | the vocabulary grows by exactly the lower-cased words longer than three characters; nothing is removed |
| `Sanitizer.TrigramSet` | sanitizer.py:18-21 | every trigram has three characters, and the set is empty exactly when the cleaned text has fewer than three |
| `Sanitizer.TrigramSetMembers` | sanitizer.py:18-21 | a string is a trigram exactly when it has length 3 and occurs in the lower-cased, space-free text |
| `Sanitizer.DiceSymmetric` | sanitizer.py:23-32 | the similarity does not depend on argument order |
| `Sanitizer.DiceBounds` | sanitizer.py:23-32 | the similarity lies between 0 and 1, including the 0.0 returned for an empty trigram set |
| `Sanitizer.DiceSelf` | sanitizer.py:23-32 | a text with at least three non-space characters has similarity 1 with itself |
| `Sanitizer.BestOfIsFirstMaximum` | sanitizer.py:46-53 | the kept entry is the first, in iteration order, of maximal score; with no positive score nothing is kept and the score is 0 |
| `Sanitizer.ScanVocabulary` | sanitizer.py:46-53 | the vocabulary loop computes the best match of the chunk, strict `>` keeping earlier ties |
| `Sanitizer.StepReplacesByBest` | sanitizer.py:55-60 | a window leaves the text unchanged, or replaces every occurrence of the chunk by a first maximal entry whose score meets the threshold |
| `Sanitizer.StepReplacesStrongMatch` | sanitizer.py:46-60 | conversely, when the first maximal entry is non-empty, scores above zero and meets the threshold, every occurrence of the chunk is replaced by it; a score of 0.0 never wins, so nothing is replaced then even for a threshold of 0 |
| `Common.FirstMaximumUnique` | sanitizer.py:49-53 | a score list has at most one first maximal entry, so the entry the scan keeps is determined |
| `Sanitizer.NgramSanitizer.Sanitize` | sanitizer.py:34-62 | the method computes the window-by-window rewrite: sizes 3, 2, 1, left to right, over the words of the lower-cased input |
| `Sanitizer.NgramSanitizer.ScanWindowSize` | sanitizer.py:42-60 | one window size slides over the word list left to right, each window rewriting the text produced by the one before |
| `Sanitizer.SanitizeWithoutMatch` | sanitizer.py:34-62 | when no window of any size reaches the threshold, the result is the lower-cased input |
| `Sanitizer.VocabularyPhraseRewritten` | sanitizer.py:34-62 | a phrase that is itself the only vocabulary entry is not left alone: its first word matches the entry at 0.8 and is replaced by it, so `"abcd e"` becomes `"abcd e e"` |
| `Sanitizer.SanitizeEmptyVocabulary` | sanitizer.py:36-60 | with an empty vocabulary the result is the lower-cased input for every threshold |
| `SemanticCache.FuzzyKeysMembers` | semantic_cache.py:73-79 | the fuzzy list holds exactly the table keys whose entry is not exact-only, each once |
| `SemanticCache.FuzzyKeysPut` | semantic_cache.py:102-114 | storing a new key appends it to the fuzzy list when its entry is fuzzy and leaves the list alone otherwise |
| `SemanticCache.Healed` | semantic_cache.py:55-58 | a healed entry keeps tool and arguments and carries the registry's flag |
| `SemanticCache.HealSpec` | semantic_cache.py:53-65 | healing corrects every flag and is the identity exactly when no flag was stale |
| `SemanticCache.S3SemanticCache.constructor` | semantic_cache.py:47-71 | a client error gives an empty table that is written once; a loaded table is healed and written back only if a flag changed; the index is rebuilt once over the fuzzy keys |
| `SemanticCache.S3SemanticCache.SelfHeal` | semantic_cache.py:54-59 | the loop corrects every stale flag in place and reports whether any was stale |
| `SemanticCache.S3SemanticCache.RebuildMatrix` | semantic_cache.py:73-88 | the list becomes the fuzzy keys in table order, and the matrix is none exactly when that list is empty |
| `SemanticCache.S3SemanticCache.SyncToS3` | semantic_cache.py:90-94 | the current table is appended to the write history and nothing else changes |
| `SemanticCache.S3SemanticCache.AddToCache` | semantic_cache.py:96-116 | a known normalised key changes nothing; a new one is stored with the registry's flag, the list and matrix are rebuilt only for a fuzzy entry, the table is written, and the invariant is kept |
| `SemanticCache.S3SemanticCache.GetCachedTool` | semantic_cache.py:118-131 | an exact key returns its tool and arguments with score 1.0 whatever the threshold and flag; no index gives no match and 0.0; otherwise the fuzzy tier answers |
| `SemanticCache.S3SemanticCache.FuzzyTier` | semantic_cache.py:133-152 | the answer refers to the first row of maximal score, whose score it reports; a tool is returned only when that score meets the threshold and the entry is not exact-only |
| `SemanticCache.S3SemanticCache.ExactOnlyGuardRedundant` | semantic_cache.py:141-152 | under the invariant the fuzzy tier returns a tool exactly when the best score meets the threshold |
| `Common.ArgMax` | semantic_cache.py:137-139 | the index is the first at which the maximal score is reached |
| `SemanticRouter.DefaultRoutes` | semantic_router.py:37-69 | the built-in table lists the routes media, timers and home_control in that order |
| `SemanticRouter.S3SemanticRouter.constructor` | semantic_router.py:73-113 | the stored table replaces the defaults when readable; a missing object writes the defaults; any other error or a corrupt document keeps the defaults unwritten; the index is then built |
| `SemanticRouter.S3SemanticRouter.BuildIndex` | semantic_router.py:92-113 | routes are the non-empty routes in table order, rows are the phrases route by route, and each route's label is emitted once per phrase |
| `SemanticRouter.LayoutSpec` | semantic_router.py:94-109 | the rows and labels built route by route are parallel and stand for exactly the (route, phrase) pairs of the table |
| `SemanticRouter.IndexLayout` | semantic_router.py:94-113 | the built index satisfies the router invariant: parallel labels, no route listed twice, every listed route in the table |
| `SemanticRouter.NonEmptyRoutesSpec` | semantic_router.py:95-99 | a route is listed exactly when it is in the table with at least one phrase |
| `SemanticRouter.Owner` | semantic_router.py:126-127 | the owner is the first route, in table order, whose phrases contain the utterance; none when no route has it |
| `SemanticRouter.S3SemanticRouter.FindOwner` | semantic_router.py:126-131 | the conflict scan finds that first owning route |
| `SemanticRouter.S3SemanticRouter.LearnNewPhrase` | semantic_router.py:121-152 | route and utterance are normalised; a known utterance mutates nothing and gives the already-known or conflict message naming the owner; otherwise one phrase, one row and one label are appended, a new route is created and listed, and the table is written |
| `SemanticRouter.S3SemanticRouter.AppendPhrase` | semantic_router.py:133-152 | appending a phrase no route has keeps the invariant and adds exactly one row and one label |
| `SemanticRouter.LearnKeepsLayout` | semantic_router.py:137-151 | appending the phrase to its route and one labelled row keeps rows and labels parallel to the table |
| `SemanticRouter.LayoutRow` | semantic_router.py:109 | label k names a route of the table, and row k is one of its phrases |
| `SemanticRouter.S3SemanticRouter.GetRoute` | semantic_router.py:156-176 | no matrix gives none; otherwise the answer is the label of the first maximal row when its score is at least 0.55, else none |
| `IntentProcessor.EffectiveRoute` | intent_processor.py:116-120 | a router score of 0.6 or less drops the route; above it the router's route is kept |
| `IntentProcessor.FilterByNameSpec` | intent_processor.py:38-43 | filtering keeps exactly the allowed tools, in their original order, and keeps every tool when all are allowed |
| `IntentProcessor.ActiveToolsSpec` | intent_processor.py:34-45 | without a route every tool is offered; with one, the order-preserving sublist the route map allows, none for an unmapped route |
| `IntentProcessor.ToolsParam` | intent_processor.py:63-64 | no active tools sends no tool list with choice "none"; otherwise the list with choice "auto" |
| `IntentProcessor.SystemPrompt` | intent_processor.py:48-56 | the prompt begins with the device context and ends with the room |
| `IntentProcessor.Reply` | intent_processor.py:89-90 | the answer is never empty: no text or empty text becomes "Das habe ich nicht verstanden." |
| `IntentProcessor.RunToolCalls` | intent_processor.py:78-85 | every requested call is recorded in call order, the Home Assistant calls issued are those of each handler concatenated in call order, and the response is the last call's result |
| `IntentProcessor.CallsOfConcat` | intent_processor.py:78-85 | running two batches of tool calls in turn issues the first batch's Home Assistant calls followed by the second's |
| `IntentProcessor.IntentProcessor.RunLlmInference` | intent_processor.py:29-92 | the executed tools are the model's calls, the Home Assistant calls issued are those of their handlers in order, the answer is the last tool's result or the model's text with the fallback, and no client action is produced |
| `IntentProcessor.EmptyAnswerFallsBack` | intent_processor.py:82-90 | a last call whose handler answers with the empty string (as a successful `queue_music` does) is answered with the fallback phrase |
| `IntentProcessor.IntentProcessor.ResolveAndExecuteIntent` | intent_processor.py:94-133 | a cache hit runs the cached tool with the room added, issues exactly that handler's Home Assistant calls and changes no table, write history or area list; a miss asks the model with the effective route, issues the calls of every requested tool in order, learns its calls into the cache, writes the table once exactly when it changed, and loads the areas only when none were loaded |
| `IntentProcessor.IntentProcessor.Learn` | intent_processor.py:126-131 | every executed call is added to the cache, in order, with `room` removed, and the table is written to storage once, exactly when learning changed it |
| `IntentProcessor.LearnOnlyFirst` | intent_processor.py:126-131 | all calls of one utterance share its key, so only the first call is learned, and only for an unknown utterance |
| `IntentProcessor.LearnedEntry` | intent_processor.py:126-131 | a learned entry is the first call's tool without `room`, flagged by the registry |
| `ToolHandler.SanitizeRoomClean` | tool_handler.py:215-223 | a sanitized room has no space, no lower-case umlaut and no upper-case letter |
| `ToolHandler.RoomSpellingsDiffer` | tool_handler.py:215-228 | the two room spellings disagree for "Küche": `sanitize_room` gives "kueche" while `lower().replace(' ', '_')` gives "küche", so `whats_playing`, `timer_remaining` and `cancel_timer` look up a different entity from the one the media commands and `set_timer` address |
| `ToolHandler.Mapping` | tool_handler.py:355-368 | a name the mapping finds is the key of the handler it yields |
| `ToolHandler.MappingFindsEveryTool` | tool_handler.py:355-368 | each of the twelve handlers is found under its own key |
| `ToolHandler.UnmappedHandlers` | tool_handler.py:355-368 | the volume, Spotify, cancel and remaining-time handlers are not in the mapping |
| `ToolHandler.LightPayload` | tool_handler.py:18-20 | the payload has the entity, and the brightness exactly when it is not null |
| `ToolHandler.ControlLightRun` | tool_handler.py:13-27 | a missing `action` raises; otherwise one light call is made with the action as the service and the success or failure text is returned |
| `ToolHandler.ControlLight` | tool_handler.py:13-27 | popping `action` and building the payload step by step gives the same run |
| `ToolHandler.SetTemperature` | tool_handler.py:30-40 | the whole argument map is sent to `climate.set_temperature`, and an answer comes exactly when the call returns |
| `ToolHandler.ActivateScene` | tool_handler.py:77-92 | without a truthy entity no call is made and the error text is returned; otherwise the scene is turned on |
| `ToolHandler.PlayAndQueueDiffer` | tool_handler.py:95-114 | playing and queueing send the same `play_media` payload except `enqueue` "play" against "add", and a returned queue call answers with "" |
| `ToolHandler.MediaCommand` | tool_handler.py:59-74 | the media commands make one call on `media_player.<sanitized room>` and answer exactly when the room is a string |
| `ToolHandler.WhatsPlaying` | tool_handler.py:226-247 | only a state query is made, an answer comes exactly when the room is a string, and it is the report on the state of `media_player.` plus the lower-cased room with spaces as `_` |
| `ToolHandler.PlayerReportCases` | tool_handler.py:232-247 | missing state data gives the error text, an idle-like state gives "nothing playing", a paused player the paused sentence and any other the playing sentence, each naming the title and artist attributes or, when absent, "einem unbekannten Titel" and "einem unbekannten Künstler" |
| `ToolHandler.PausedReportDistinct` | tool_handler.py:232-247 | the paused sentence differs from every report on a player that is not paused |
| `ToolHandler.TimeParts` | tool_handler.py:274-280 | one part per positive component, in the order hours, minutes, seconds, each with its unit |
| `ToolHandler.TimerComponents` | tool_handler.py:252-254 | the components are read, defaulting to 0, exactly when all three are numbers |
| `ToolHandler.SetTimerRun` | tool_handler.py:250-287 | all-zero components give the error text with no call; otherwise one `timer.start` call on `timer.<sanitized room>` with 3600·h + 60·m + s seconds, and on success the confirmation |
| `ToolHandler.CollectTimeParts` | tool_handler.py:274-280 | appending the parts one by one builds the confirmation pieces |
| `ToolHandler.SetTimer` | tool_handler.py:250-287 | the imperative handler computes the same run |
| `ToolHandler.CancelTimer` | tool_handler.py:290-302 | a string room gives exactly one `timer.cancel` call on `timer.` plus the lower-cased room with spaces as `_`, answered unless the call raised, with the success text exactly when it returned true; a room that is not a string raises before any call |
| `ToolHandler.TimerDurationRoundTrip` | tool_handler.py:264-267 | the duration sent splits back into the same canonical hours, minutes and seconds |
| `ToolHandler.Decompose` | tool_handler.py:337-338 | the two `divmod` steps give h ≥ 0 and minutes and seconds below 60 with 3600·h + 60·m + s equal to the total |
| `ToolHandler.DecomposeRoundTrip` | tool_handler.py:337-338 | decomposition inverts the duration sum on canonical components |
| `ToolHandler.RemainingMessageForms` | tool_handler.py:340-345 | hours are mentioned only from one hour up, and under a minute only the seconds are |
| `ToolHandler.TimerReport` | tool_handler.py:312-352 | an active timer with a finishing time reports expiry at or below zero seconds, else the remaining time |
| `ToolHandler.TimerReportExpired` | tool_handler.py:312-352 | the expiry answer comes exactly from an active timer with a finishing time and no second left |
| `ToolHandler.ExecuteToolRejects` | tool_handler.py:371-381 | an unknown name makes no call and its answer names the tool; a `context` keyword raises and gives no answer |
| `ToolHandler.ExecuteToolDispatches` | tool_handler.py:371-381 | without a `context` keyword, the name of each handler runs that handler |
| `ToolHandler.ExecuteTool` | tool_handler.py:371-381 | dispatch runs the named handler, with the imperative ones as methods |
| `HaClient.AllowedDomainsCases` | ha_client.py:7-11 | timers are hidden only from the media and home-control routes, media players only from timers and home control, covers are reachable only through home control, and the list is never empty |
| `HaClient.ComprehensionMembers` | ha_client.py:56-60 | a list comprehension yields a value exactly when some kept item maps to it |
| `HaClient.AreaNamesMembers` | ha_client.py:56-60 | an area is listed exactly when a piece strips to something other than "" and "None" and lowers to it |
| `HaClient.AreasFrom` | ha_client.py:47-64 | a failed request gives the corrected fallback area list (see Findings) |
| `HaClient.VocabularyItemsMembers` | ha_client.py:78-83 | a word is in the vocabulary exactly when a piece strips to something non-empty that does not lower to "none" |
| `HaClient.VocabularyItemsClean` | ha_client.py:78-83 | no vocabulary word is "none" or contains an upper-case letter |
| `HaClient.NonePlaceholderFilters` | ha_client.py:56-60 | the area list keeps "NONE" as "none" while the vocabulary drops it, because the area filter compares before lower-casing |
| `HaClient.VocabularyFrom` | ha_client.py:84-86 | a failed request gives the empty vocabulary |
| `HaClient.MentionedOtherRoomsMembers` | ha_client.py:99-101 | an area is mentioned exactly when it occurs in the lower-cased text and is not the current room |
| `HaClient.ContextLines` | ha_client.py:128-133 | at most one line per segment |
| `HaClient.ContextLinesObjects` | ha_client.py:128-133 | every context line is a JSON-like object beginning with `{` |
| `HaClient.ContextLinesMembers` | ha_client.py:128-133 | a line is produced exactly when some non-blank segment with at least three fields parses into it |
| `HaClient.ContextFromCases` | ha_client.py:128-138 | "No devices found." comes exactly from a failed request, and "No relevant devices found." exactly when no segment qualifies |
| `HaClient.ContextRoundTrip` | ha_client.py:116-133 | parsing the rendered device list gives one line per device with fields id, name, state, for fields without separators or surrounding blanks |
| `HaClient.BaseUrlTrailingSlash` | ha_client.py:16 | stripping trailing slashes is idempotent and ignores an added slash |
| `HaClient.HomeAssistantClient.constructor` | ha_client.py:15-21 | the base URL has no trailing slash, the headers carry the bearer token, and no areas are loaded |
| `HaClient.HomeAssistantClient.LoadAreas` | ha_client.py:47-64 | the areas become the parsed template response, or the corrected fallback list on failure (see Findings) |
| `HaClient.HomeAssistantClient.GetDynamicContext` | ha_client.py:88-138 | areas are loaded only when still empty, the template uses the route's domains and the lower-cased room with the local flag false, and its response is parsed |
| `HaClient.FallbackKitchenMissed` | ha_client.py:64 | with the fallback list as written a command naming the kitchen mentions no other room; with the corrected spelling it does |

## Left out

- Embedding encoding, vector normalisation and cosine similarity: floating point and a foreign library. They are replaced by the abstract score function `sim`.
- Object-storage reads and writes: I/O. A read is an input and a write is an entry in the ghost `writes` history. Every write is taken to succeed: a `put_object` that fails during the cache's self-heal (semantic_cache.py:64), which the source catches as a client error and answers by syncing again, is not modelled.
- JSON encoding and decoding of the stored tables and of tool-call arguments: treated as given. A corrupt cache document, which the cache does not catch (it handles only client errors), is not modelled; the router's tolerance of a corrupt document is.
- HTTP requests to Home Assistant (`get_state`, `call_service`, the template posts): network I/O. They are abstract functions and optional response texts. The Jinja templates are not rendered; the rendered text is an input.
- Asynchrony: `call_service` and `get_state` are coroutines in the client but are called without `await` by the handlers, and `execute_tool` is awaited though synchronous. Every collaborator is modelled as a plain synchronous function returning its documented value.
- `get_match_details`: not defined in the router; its `(route, text, score)` result is an abstract function of the text.
- The language model client: its reply is an abstract function of the request.
- Logging, configuration, the legacy HTTP endpoint, text-to-speech and Spotify: outside the modelled core.
- `manage_volume`: converts the level with `float()`; floating point, and it is not in the dispatch table.
- `play_spotify_music`: delegates to the Spotify client, which is not part of this model, and it is not in the dispatch table.
- `ToolHandler.TimerRemaining`: the seconds left are an input; reading the clock and parsing the ISO finishing time are not modelled.
- `ToolHandler.SetTimerRun`: the duration is sent as an integer number of seconds, where the source sends the float `total_seconds()`; fractional and float components are not modelled (arguments are null, booleans, integers or strings); nor is the `OverflowError` that `datetime.timedelta` raises for components beyond its range (tool_handler.py:264), after which the source gives no answer while the model still sends the call.
- `ToolHandler.TimerReport`: the contract states only the active-timer branch; the other branches are stated by `TimerReportExpired` as the cases that are not expiry.
- `SemanticCache.S3SemanticCache.GetCachedTool`: the score is reported as the abstract similarity rather than as a float cast.
- String case and whitespace: `lower()` covers A–Z and Ä, Ö, Ü only, and `strip()`/`split()` treat as whitespace only space, `\t`, `\n`, `\r`, `\v`, `\f` and the separators 0x1C–0x1F; non-ASCII whitespace (0x85, 0xA0 and the Unicode spaces) is not modelled.

## Findings

| source | as written | input that shows it | evidently intended | confidence | as-written member | corrected member |
|---|---|---|---|---|---|---|
| ha_client.py:64 | the fallback area list spells the kitchen as "kÃ¼che", the UTF-8 bytes of "küche" decoded a second time; the only reader of the areas is `mentioned_other_rooms` (ha_client.py:95-101), which is computed but not used afterwards, so no answer of the shown code changes | `_load_areas` fails, then the text "küche" in room "bad": the kitchen is not detected as another room | the fallback list holds "küche" | medium, not executed | `HaClient.FallbackKitchenMissed` | `HaClient.HomeAssistantClient.LoadAreas`, `HaClient.AreasFrom` |
