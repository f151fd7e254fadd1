# SCreacte quest generator — a Dafny model of its core

SCreacte turns a short description of a world into an interactive text quest. The description
names a setting, a quest style, the number of scenes and characters, and an optional uploaded
file. A language model running under Ollama writes the quest as JSON: characters, locations,
items and a graph of scenes joined by choices. The React frontend shows the result as a reader
with the current scene and its panels, and as a scene graph.

This project models the logic of that pipeline as pure Dafny functions and proves what each part
promises. The modules are:

- **BackendRepair, BackendFallback, BackendStream, EventStream** (`backend/main.py`): the
  streaming backend. They cover:
  - the validation filter applied to every generated list;
  - `fix_scene_references`, which redirects dangling choices or turns a scene into an ending;
  - the fallback characters, locations, items and linear scene chain;
  - the order of the server-sent events and their `data:` framing.
- **MonoBackend, ApiTypes** (`main.py`): the monolithic backend. They cover:
  - request validation;
  - the prompt and the uploaded-file extraction;
  - the mock quest;
  - the exception handlers and the body each one sends.
- **StoreSrc, StoreMock, StoreInput** (`src/store/generatorStore.ts`) and **StoreFrontend**
  (`frontend/src/store/generatorStore.ts`): the two generator stores. The frontend store
  contains an unresolved merge conflict. Its `HEAD` side (a mock quest after a delay) and its
  merged side (a `fetch` to the backend with a mapping of the answer) are modelled separately.
  The older store reads a line-delimited stream and normalises what it parses.
- **GeneratorForm, QuestViewer, GraphScenes, LevelGraph, DiamondGraph, GenerationProgress,
  FileUpload**: the UI components. They cover:
  - the form's state and validation;
  - the reader's scene navigation and labels;
  - both scene-graph layouts;
  - the progress panel;
  - the file upload's checks.
- **QuestTypes, Json, JsValue, Text, Seqs, Wrappers**: shared vocabulary. This is the quest data
  model with its setting and style keys, JSON values with both Python and JavaScript
  truthiness, JavaScript property reads and string conversion, the Python `int`/`str`/`title`
  string operations, and sequence helpers.

The following become parameters of the model:
- what the language model answers;
- what `fetch` returns;
- `JSON.parse`, `json.loads` and `json.dumps`;
- the regular-expression captures;
- the clock;
- the iteration order of a Python set.

## Model

| member | source | states |
|---|---|---|
| MonoBackend.FirstMatchIndex | main.py:223-226 | the index of the first rule with a keyword in the text, every earlier rule failing; `|rules|` when none matches |
| MonoBackend.Classify | main.py:146-159 | the first matching rule's key wins (`if`/`elif` order, and the `break` of `generate_quest_with_ai`); with no match the default stays; nothing else can come out |
| MonoBackend.EarlierRuleWins | main.py:148-152 | a matching rule shadows every later one: the result is the key of that rule or of an earlier one |
| MonoBackend.StoryTitle | main.py:189-194 | the title never holds a full stop; without a story the default title stays |
| MonoBackend.ParseFileContent | main.py:134-196 | missing starting point and description markers give empty strings; the title holds no full stop |
| MonoBackend.NoMarkersGiveDefaults | main.py:136-142 | a file without any marker parses to `fantasy`, `""`, `adventure`, `""` and "Приключение в неизвестном мире" |
| MonoBackend.ParsedKeysAreKnown | main.py:146-181 | the parsed setting is one of the six setting keys and the style one of the six style keys |
| MonoBackend.ClassifyCaptureKnown | main.py:146-159 | a classified capture is the default or one of the rules' keys |
| MonoBackend.KeysOf | main.py:146-159 | a value equal to some rule's key is in the list of keys |
| MonoBackend.FantasyShadowsCyberpunk | main.py:148-151 | a setting line mentioning "фэнтези" is fantasy whatever else it says |
| MonoBackend.StoryWithoutFullStop | main.py:189-194 | a non-blank story without a full stop becomes the title whole, stripped |
| MonoBackend.StoryStartingWithFullStop | main.py:191-193 | a story whose stripped text starts with a full stop has an empty first sentence and leaves the default title |
| MonoBackend.FirstKeyword | main.py:234-235 | `keywords.get(key, [fallback])[0]`: the first keyword of the rule listed under the key (the first such rule), and the fallback word when no rule has that key |
| MonoBackend.FirstKeywordOfDistinct | main.py:201-217 | in a table whose keys are listed once (a dictionary), looking up a rule's own key gives that rule's first keyword |
| MonoBackend.AiTablesWellFormed | main.py:201-217 | both keyword tables list each key once and at least one keyword per key; their first entries are fantasy ("магический") and adventure ("приключение") |
| MonoBackend.AiSetting | main.py:220-226 | the detected setting is always a key of `setting_keywords` (the default "fantasy" included), so the `.get` fallback "увлекательный" is never used |
| MonoBackend.AiStyle | main.py:221-231 | the detected style is always a key of `quest_keywords`, so the fallback "захватывающий" is never used |
| MonoBackend.FirstKeywordOfFirstMatch | main.py:220-235 | the word looked up under the classified key is the first keyword of the first matching rule, or the first rule's first keyword when none matches |
| MonoBackend.GenerateQuestWithAi | main.py:237 | the text starts with "Это " and ends with the prompt's first hundred characters followed by "..." |
| MonoBackend.AiTextNamesFirstMatch | main.py:198-237 | the whole text for every prompt: "Это ", the first keyword of the first setting rule the lower-cased prompt matches ("магический" when none), " мир, где вас ждет ", the first keyword of the first matching style rule ("приключение" when none), " квест. ", then the prompt's first hundred characters and "..." |
| MonoBackend.FuturisticIsNeverSciFi | main.py:200-208 | "футуристический" is listed for cyberpunk before sci-fi, so a prompt holding it is never classified sci-fi |
| MonoBackend.NoKeywordGivesDefaults | main.py:219-237 | with no keyword present the text is built from "магический" and "приключение" |
| MonoBackend.Basis | main.py:242-255 | form mode uses the request's values with the fixed description and title; file mode uses the parsed setting, style and title, the parsed starting point and description when non-empty, and otherwise the request's starting point and the fixed description |
| MonoBackend.MockScenes | main.py:271-349 | eight scenes |
| MonoBackend.MockLocations | main.py:366-387 | four locations, the first named after the starting point |
| MonoBackend.MockCharacters | main.py:350-365 | two characters with distinct ids: the informant marked only as an ally, the dark lord marked only as an enemy |
| MonoBackend.MockItems | main.py:388-395 | one item, a key item |
| MonoBackend.CreateMockQuest | main.py:239-398 | the quest carries the basis's setting, style, starting point, title and description, with eight scenes, two characters, four locations and one item |
| MonoBackend.MockQuestClosed | main.py:271-349 | the scenes are `scene-1` .. `scene-8` in order, every choice names one of them, and exactly scenes 5, 7 and 8 are endings, each without choices |
| MonoBackend.MockScenesClosed | main.py:271-349 | the same facts for the scene list of any starting point and generated text |
| MonoBackend.SafeTextConcat | main.py:401-403 | a text is safe when every character is in Python's `string.printable` (the printable ASCII characters and the whitespace space, tab, LF, CR, vertical tab VT and form feed FF) or is a Russian letter: the empty text is safe, and a concatenation is safe exactly when both parts are |
| MonoBackend.Validate | main.py:487-497 | no error exactly for the accepted requests (a form request with a starting point; a file request with non-empty content of at most a million characters, all safe), every error a 400, and a form request without a starting point gets "Необходимо указать отправную точку" |
| MonoBackend.SizeCheckedBeforeCharacters | main.py:494-497 | an oversized file reports its size even when it also holds unsafe characters |
| MonoBackend.GenerateQuestAsWritten | main.py:481-507 | success exactly for acceptable requests; every failure has status 500 |
| MonoBackend.ValidationErrorBecomes500 | main.py:488-489 | a form request without a starting point fails with 500 and the detail "Ошибка при генерации квеста: 400: Необходимо указать отправную точку" |
| MonoBackend.GenerateQuest | main.py:481-503 | success exactly for acceptable requests, carrying the mock quest; failures are the validation's own 400s |
| MonoBackend.ValidationMessageReachesClient | main.py:528-533 | a rejected request's body is `{code: 400, message: <validation message>, details: None}` |
| BackendRepair.ValidateAndFix | backend/main.py:98-130 | a non-list gives the empty list; a list gives exactly the dict elements whose required fields are all present and acceptable ("choices" a list, every other field truthy), in input order |
| BackendRepair.KeepValid | backend/main.py:104-128 | the reference filter: never longer than its input, and every element it keeps is a dict with all required fields acceptable |
| BackendRepair.KeepValidAppend | backend/main.py:104-128 | the filter works element by element: filtering a concatenation is concatenating the filtered parts |
| BackendRepair.KeepValidMembers | backend/main.py:104-128 | an element is kept exactly when it is in the input and valid |
| BackendRepair.KeepValidIsSubsequence | backend/main.py:104-128 | the output keeps the input order: it is a subsequence of the input |
| BackendRepair.KeepValidIdempotent | backend/main.py:98-130 | validating twice is validating once |
| BackendRepair.IdSetError | backend/main.py:138 | building the id set fails exactly when some scene is not a dict with a hashable id |
| BackendRepair.PyInOrderIffSceneId | backend/main.py:138-151 | membership in the id set, whatever its iteration order, is membership among the scene ids under Python equality |
| BackendRepair.PyInVia | backend/main.py:151 | a value Python-equal to a listed id is in the set |
| BackendRepair.SetOrderHashable | backend/main.py:138 | every element of the id set is hashable |
| BackendRepair.Others | backend/main.py:164 | `[sid for sid in scene_ids if sid != scene['id']]`: set elements different from the scene's id; empty only when every element equals it |
| BackendRepair.RepairTarget | backend/main.py:156-173 | the repair order for a dangling reference. A suffix after the last underscore that is not an integer makes the scene an ending. Otherwise, with `n` that integer (1 when there is no underscore), the target is `scene_{n+1}` if that id is in the set. Failing that, it is the first other id in set order, and the scene becomes an ending exactly when there is no other id. Any target is in the id set |
| BackendRepair.RepairTargetNotSelf | backend/main.py:156-166 | a redirected reference never points back at the scene being repaired |
| BackendRepair.NextSceneIdDiffers | backend/main.py:156-157 | `scene_{n+1}` differs from the id whose suffix gave `n`, and from an id without an underscore |
| BackendRepair.RepairChoiceSpec | backend/main.py:147-180 | one iteration of the inner loop: a kept choice resolves; a redirected choice points at a scene of the set other than its own; an ending comes only from a dangling reference in a scene with a string id |
| BackendRepair.FixChoices | backend/main.py:145-181 | the inner loop: on success the choice list keeps its length, every choice resolves, resolving choices are untouched and every changed choice is retargeted at the repair target; an ending only for a string scene id; no exception when every target is hashable; a list that already resolves comes back unchanged |
| BackendRepair.Prepend | backend/main.py:145-181 | a handled first choice goes in front of the outcome for the rest, and an ending or an exception further on wins |
| BackendRepair.FixScene | backend/main.py:143-182 | a repaired scene keeps its id and every field other than "choices" and "is_ending" |
| BackendRepair.FixSceneSpec | backend/main.py:142-181 | a repaired scene keeps its id and is untouched, has its choices replaced one-for-one by resolving ones, or is made an ending with no choices |
| BackendRepair.FixAll | backend/main.py:142-182 | the loop over scenes succeeds exactly when every scene's repair does, and then gives each scene's repair at its position |
| BackendRepair.FixAllSpec | backend/main.py:142-181 | the same for every scene of the list, which keeps its length and order |
| BackendRepair.FixSceneReferences | backend/main.py:132-194 | the empty list comes back as is; on success the list keeps its length and ids, and every truthy "choices" value is iterable |
| BackendRepair.FixSceneReferencesSpec | backend/main.py:132-194 | the empty list comes back as is; a list whose id set cannot be built raises; a scene whose "choices" is a truthy number or boolean makes the closing log pass (lines 186-189) raise TypeError; on success length, order and ids are kept and every scene is repaired as above |
| BackendRepair.RepairKeepsIterability | backend/main.py:144-189 | a repaired scene's "choices" is iterable exactly when the original's was, so the log pass fails on the output exactly when it would on the input |
| BackendRepair.RepairedSceneResolves | backend/main.py:145-181 | every choice of a repaired scene resolves |
| BackendRepair.FixResolvesAllReferences | backend/main.py:133 | after a successful repair every dict reference names an existing scene, as the docstring promises |
| BackendRepair.FixAllResolved | backend/main.py:151-152 | a list whose references all resolve is returned unchanged |
| BackendRepair.SameIdsSameOrder | backend/main.py:138 | lists with the same ids have the same id set |
| BackendRepair.FixSceneReferencesIdempotent | backend/main.py:132-194 | repairing a repaired list changes nothing |
| BackendRepair.FixChoicesNotSelf | backend/main.py:156-166 | a changed choice points at a scene other than its own |
| BackendFallback.NumberedInjective | backend/main.py:283 | `f"{prefix}{n}"` determines `n` |
| BackendFallback.FallbackCharacters | backend/main.py:282-290 | one character per requested count (none for a negative count), ids `character_1`, `character_2`, … |
| BackendFallback.FallbackLocations | backend/main.py:315-319 | one location per requested scene, ids `location_1`, … |
| BackendFallback.FallbackItems | backend/main.py:345-351 | three items `item_1` .. `item_3`, only the first a key item |
| BackendFallback.FallbacksPassValidation | backend/main.py:292-293 | the fallback characters, locations and items pass their own validation unchanged |
| BackendFallback.FallbackEntriesValid | backend/main.py:282-354 | each fallback character, location and item has every required field truthy |
| BackendFallback.NumberedNonEmpty | backend/main.py:283 | a numbered text is never empty |
| BackendFallback.KeepAllValid | backend/main.py:104-128 | a list of valid items passes the filter unchanged |
| BackendFallback.FallbackChoice | backend/main.py:403-408 | the choice of scene `i` points at `scene_{i+2}` |
| BackendFallback.FallbackScene | backend/main.py:394-414 | scene `i` has id `scene_{i+1}`, one choice unless it is the last, and is an ending exactly when last |
| BackendFallback.FallbackScenes | backend/main.py:393-416 | one scene per requested count with ids `scene_1`, …, only the last an ending |
| BackendFallback.FallbackScenesLinear | backend/main.py:393-416 | the fallback scenes form a chain: scene `i` has one choice to scene `i + 1`, the last none, and the ids are distinct |
| BackendFallback.FallbackScenesChain | backend/main.py:393-416 | the chain half of the above |
| BackendFallback.FallbackScenesDistinct | backend/main.py:394-395 | the ids half of the above |
| BackendFallback.FallbackScenesClosed | backend/main.py:393-416 | every reference of the fallback scenes resolves, for any set order |
| BackendFallback.FallbackScenesPassValidation | backend/main.py:418-419 | with a truthy location id the fallback scenes pass scene validation unchanged |
| BackendFallback.FallbackSceneValid | backend/main.py:394-414 | one fallback scene has all its required fields acceptable |
| BackendFallback.FallbackScenesIterable | backend/main.py:405-414 | every fallback scene's "choices" is a list |
| BackendFallback.FallbackScenesFixpoint | backend/main.py:418-422 | the repair leaves the fallback scenes unchanged, whatever the set order |
| BackendStream.EventJson | backend/main.py:445-484 | every event object has its `type` and a `content`; exactly the scene events add `scene_number` and `total_scenes` |
| BackendStream.StreamTitleNamesSetting | backend/main.py:448 | for a setting other than "custom" the title is "Квест: " followed by the setting itself, same length and the same letters up to case |
| BackendStream.SceneEvents | backend/main.py:476-478 | one scene event per scene, numbered from 1 and each carrying the total |
| BackendStream.OpeningEvents | backend/main.py:445-474 | eleven events precede the first scene event when no stage raises |
| BackendStream.SuccessShape | backend/main.py:442-480 | without an exception the stream is the opening, the scene events and `complete` with "Квест успешно создан!" |
| BackendStream.StreamOrderOnSuccess | backend/main.py:442-480 | without an exception the stream has 12 + N events whose kinds come in the fixed order status, title, status, description, status, characters, status, locations, status, items, status, N scenes, complete; each stage's result sits at its position |
| BackendStream.StreamEndsWithOneError | backend/main.py:482-484 | an exception ends the stream with one error event, after no scene event of a failed scene stage and no completion |
| BackendStream.StreamErrorIsFirstFailure | backend/main.py:457-484 | the first stage that raises decides the error text and the stream length (6, 8, 10 or 12 events) |
| BackendStream.StreamLastEvent | backend/main.py:442-484 | every stream opens with the start status, the title and the description, and its last event is `complete` exactly when no stage raised and `error` otherwise |
| BackendStream.ValidatedScenesHaveIds | backend/main.py:419 | every scene that passes validation has a truthy id, so the repair can read it |
| BackendStream.FallbackStageSucceeds | backend/main.py:393-424 | when the answer cannot be parsed the scene stage returns the fallback chain unchanged |
| EventStream.SplitFrame | backend/main.py:445 | a framed payload without LF splits into its data line and a blank line, ahead of the rest |
| EventStream.DataLineHasNoLineFeed | backend/main.py:445 | a data line of a payload without LF has no LF |
| EventStream.FrameConcat | backend/main.py:445 | `data: <payload>\n\n` is the data line, LF, LF |
| EventStream.SplitAfterLine | backend/main.py:445-484 | a line without LF followed by LF splits off as one part |
| EventStream.DataLine | backend/main.py:445 | a data line is a `data` field whose value is the payload |
| EventStream.FramedLines | backend/main.py:445-484 | two complete lines per framed payload |
| EventStream.FrameShape | backend/main.py:445 | a frame is the payload between the `data: ` prefix and the blank line that ends the event |
| EventStream.FrameAllShape | backend/main.py:445-484 | the framed stream is empty exactly when nothing is sent, and otherwise starts with the first frame and ends on a blank line |
| EventStream.Decode | backend/main.py:486-488 | a `text/event-stream` reader delivers nothing until the first line is terminated |
| EventStream.SplitFrameAll | backend/main.py:445-484 | the framed stream splits into those lines and an empty remainder |
| EventStream.DecodeFramedLines | backend/main.py:445-484 | interpreting the lines gives back the payloads in order |
| EventStream.DecodeFrameAll | backend/main.py:445-484 | a client decoding the framed stream receives exactly the payloads, in order, one event each |
| StoreSrc.Validate | src/store/generatorStore.ts:41-49 | form input is rejected exactly when the starting point is empty, file input exactly when the file content is missing or empty, any other input method passes; the message names what is missing |
| StoreSrc.DefaultNeedsStartingPoint | src/store/generatorStore.ts:15-44 | the untouched default input is rejected for its starting point, and setting any non-empty starting point makes it pass |
| StoreSrc.LoadedFilePasses | src/store/generatorStore.ts:46-49 | once non-empty file content is stored with the file input method, validation passes whatever else the input holds |
| StoreSrc.EffectiveSetting | src/store/generatorStore.ts:58 | the setting used is the selected one, or the custom text (possibly undefined) when "custom" is selected |
| StoreSrc.EffectiveStyle | src/store/generatorStore.ts:59 | the quest style used is the selected one, or the custom text (possibly undefined) when "custom" is selected |
| StoreSrc.Prompt | src/store/generatorStore.ts:55-64 | the prompt opens with the form or the file lead-in according to the input method and always ends with the request for six JSON scenes |
| StoreSrc.PromptMentionsInput | src/store/generatorStore.ts:57-64 | a form prompt contains the starting point and the effective setting (the custom text when one is chosen); a file prompt contains the file content |
| StoreSrc.LineEffect | src/store/generatorStore.ts:99-109 | a line that does not parse, or parses to null, adds nothing and does not stop the chunk; any text added comes from a truthy `response` |
| StoreSrc.ReadLines | src/store/generatorStore.ts:98-110 | the line loop yields the text of the chunk's lines up to and including the first `done` line |
| StoreSrc.ReadStream | src/store/generatorStore.ts:86-112 | the reader loop's `fullResponse` is the concatenation of the chunks' texts, each chunk split into lines on its own |
| StoreSrc.StreamTextAppend | src/store/generatorStore.ts:91-111 | reading two runs of chunks in turn gives the two texts in turn: nothing is carried across a chunk boundary |
| StoreSrc.StreamTextCons | src/store/generatorStore.ts:91-111 | a run of chunks reads as its first chunk's text followed by the rest's; no chunks read as the empty text |
| StoreSrc.StreamTextPair | src/store/generatorStore.ts:91-111 | two chunks read as the first chunk's text followed by the second's |
| StoreSrc.LinesTextDoneFirst | src/store/generatorStore.ts:104-106 | when the first line says `done`, the chunk's text is that line's text alone |
| StoreSrc.LinesTextWithoutDone | src/store/generatorStore.ts:98-110 | a chunk with no `done` line adds the responses of all its lines, in order |
| StoreSrc.LinesTextUpToDone | src/store/generatorStore.ts:98-110 | a chunk whose first `done` is at line k adds the responses of lines 0 to k, that line included, and nothing of the lines after it |
| StoreSrc.SingleLineText | src/store/generatorStore.ts:95-103 | a chunk holding one non-blank line adds exactly that line's response |
| StoreSrc.DoneEndsOnlyItsChunk | src/store/generatorStore.ts:98-110 | `done` skips the rest of its own chunk only: the next chunk is still read in full |
| StoreSrc.SplitLineIsLost | src/store/generatorStore.ts:95-109 | a JSON line cut in two by a chunk boundary adds nothing when neither half parses, whereas the same line arriving whole adds its response |
| StoreSrc.NormalizeChoice | src/store/generatorStore.ts:140-146 | a null choice raises; otherwise the id is truthy and the target is `next_scene_id` when truthy, else `nextSceneId` when truthy, else null |
| StoreSrc.NormalizeChoices | src/store/generatorStore.ts:140-146 | the choice list maps one-to-one and in order, and it fails exactly when some element is null |
| StoreSrc.ListOrEmpty | src/store/generatorStore.ts:133 | a falsy or missing list gives no elements, a truthy array gives its elements, and a truthy non-array raises |
| StoreSrc.NormalizeScene | src/store/generatorStore.ts:133-148 | a null scene raises; a normalised scene has a truthy id and title, as many choices as its `choices` list, and the last scene is always an ending |
| StoreSrc.NormalizeScenes | src/store/generatorStore.ts:133-148 | the scene list maps one-to-one |
| StoreSrc.NormalizeQuest | src/store/generatorStore.ts:126-152 | a normalised quest carries the clock's id, the input's starting point and the effective setting and style; a null reply raises |
| StoreSrc.NormalizeKeepsShape | src/store/generatorStore.ts:133-148 | normalisation keeps the number and order of scenes and of each scene's choices, gives no scenes when `scenes` is falsy, and ends with an ending scene |
| StoreSrc.PlainIdIgnored | src/store/generatorStore.ts:134 | a scene without `scene_id` gets `scene_{index+1}` even when it carries a plain `id` |
| StoreSrc.BareChoiceDefaults | src/store/generatorStore.ts:141-145 | an empty choice object becomes `choice_{index}_{choiceIndex}` with empty text, a null target, no required items and a null consequence |
| StoreSrc.Attempt | src/store/generatorStore.ts:53-152 | an attempt succeeds only after an ok Ollama reply. A failed fetch, or a body reader that rejects part-way through the stream (line 91), makes it fail. A successful attempt's quest carries the clock's id, the starting point and the effective setting |
| StoreSrc.GenerateQuest | src/store/generatorStore.ts:36-163 | rejected input only sets the error; otherwise loading ends with no error and the stored quest is the attempt's, or, when the attempt fails, the 18-scene referentially closed fallback built from the raw setting, style and starting point |
| StoreMock.AddScene1 | src/store/generatorStore.ts:171-181 | appending scene 1, titled "Начало пути" and with a description that contains the starting point, keeps the fallback's prefix invariant: ids in order, every choice targets a fallback scene, endings exactly at the ending positions and exactly where no choice is left, locations among the fallback's |
| StoreMock.AddScene2 | src/store/generatorStore.ts:182-192 | appending scene 2 leaves the scenes before it untouched and keeps the fallback's prefix invariant: ids in order, every choice targets a fallback scene, endings exactly at the ending positions and exactly where no choice is left, locations among the fallback's |
| StoreMock.AddScene3 | src/store/generatorStore.ts:193-200 | appending scene 3 as an ending without choices leaves the scenes before it untouched and keeps the fallback's prefix invariant: ids in order, every choice targets a fallback scene, endings exactly at the ending positions and exactly where no choice is left, locations among the fallback's |
| StoreMock.AddScene4 | src/store/generatorStore.ts:201-211 | appending scene 4 leaves the scenes before it untouched and keeps the fallback's prefix invariant: ids in order, every choice targets a fallback scene, endings exactly at the ending positions and exactly where no choice is left, locations among the fallback's |
| StoreMock.AddScene5 | src/store/generatorStore.ts:212-222 | appending scene 5 leaves the scenes before it untouched and keeps the fallback's prefix invariant: ids in order, every choice targets a fallback scene, endings exactly at the ending positions and exactly where no choice is left, locations among the fallback's |
| StoreMock.AddScene6 | src/store/generatorStore.ts:223-233 | appending scene 6 leaves the scenes before it untouched and keeps the fallback's prefix invariant: ids in order, every choice targets a fallback scene, endings exactly at the ending positions and exactly where no choice is left, locations among the fallback's |
| StoreMock.AddScene7 | src/store/generatorStore.ts:234-244 | appending scene 7 leaves the scenes before it untouched and keeps the fallback's prefix invariant: ids in order, every choice targets a fallback scene, endings exactly at the ending positions and exactly where no choice is left, locations among the fallback's |
| StoreMock.AddScene8 | src/store/generatorStore.ts:245-255 | appending scene 8 leaves the scenes before it untouched and keeps the fallback's prefix invariant: ids in order, every choice targets a fallback scene, endings exactly at the ending positions and exactly where no choice is left, locations among the fallback's |
| StoreMock.AddScene9 | src/store/generatorStore.ts:256-266 | appending scene 9 leaves the scenes before it untouched and keeps the fallback's prefix invariant: ids in order, every choice targets a fallback scene, endings exactly at the ending positions and exactly where no choice is left, locations among the fallback's |
| StoreMock.AddScene10 | src/store/generatorStore.ts:267-277 | appending scene 10 leaves the scenes before it untouched and keeps the fallback's prefix invariant: ids in order, every choice targets a fallback scene, endings exactly at the ending positions and exactly where no choice is left, locations among the fallback's |
| StoreMock.AddScene11 | src/store/generatorStore.ts:278-288 | appending scene 11 leaves the scenes before it untouched and keeps the fallback's prefix invariant: ids in order, every choice targets a fallback scene, endings exactly at the ending positions and exactly where no choice is left, locations among the fallback's |
| StoreMock.AddScene12 | src/store/generatorStore.ts:289-298 | appending scene 12 leaves the scenes before it untouched and keeps the fallback's prefix invariant: ids in order, every choice targets a fallback scene, endings exactly at the ending positions and exactly where no choice is left, locations among the fallback's |
| StoreMock.AddScene13 | src/store/generatorStore.ts:299-306 | appending scene 13 as an ending without choices leaves the scenes before it untouched and keeps the fallback's prefix invariant: ids in order, every choice targets a fallback scene, endings exactly at the ending positions and exactly where no choice is left, locations among the fallback's |
| StoreMock.AddScene14 | src/store/generatorStore.ts:307-314 | appending scene 14 as an ending without choices leaves the scenes before it untouched and keeps the fallback's prefix invariant: ids in order, every choice targets a fallback scene, endings exactly at the ending positions and exactly where no choice is left, locations among the fallback's |
| StoreMock.AddScene15 | src/store/generatorStore.ts:315-324 | appending scene 15 leaves the scenes before it untouched and keeps the fallback's prefix invariant: ids in order, every choice targets a fallback scene, endings exactly at the ending positions and exactly where no choice is left, locations among the fallback's |
| StoreMock.AddScene16 | src/store/generatorStore.ts:325-334 | appending scene 16 leaves the scenes before it untouched and keeps the fallback's prefix invariant: ids in order, every choice targets a fallback scene, endings exactly at the ending positions and exactly where no choice is left, locations among the fallback's |
| StoreMock.AddScene17 | src/store/generatorStore.ts:335-345 | appending scene 17 leaves the scenes before it untouched and keeps the fallback's prefix invariant: ids in order, every choice targets a fallback scene, endings exactly at the ending positions and exactly where no choice is left, locations among the fallback's |
| StoreMock.AddScene18 | src/store/generatorStore.ts:346-354 | appending scene 18 as an ending without choices leaves the scenes before it untouched and keeps the fallback's prefix invariant: ids in order, every choice targets a fallback scene, endings exactly at the ending positions and exactly where no choice is left, locations among the fallback's |
| StoreMock.MockCharacters | src/store/generatorStore.ts:356-396 | the fallback has five characters, `char-1` to `char-5` in order |
| StoreMock.MockLocations | src/store/generatorStore.ts:397-440 | the fallback has seven locations, `loc-1` to `loc-7` in order |
| StoreMock.MockItems | src/store/generatorStore.ts:441-462 | the fallback has three items, `item-1` to `item-3` in order |
| StoreMock.TargetsInIdsClosed | src/store/generatorStore.ts:170-355 | a scene list whose ids are exactly the listed ids, and whose choices all target listed ids, is referentially closed |
| StoreMock.ExtendPrefix | src/store/generatorStore.ts:170-355 | appending a scene with the next id, targets among the ids, the right ending flag and a known location keeps a scene prefix a prefix |
| StoreMock.ExtendMockPrefix | src/store/generatorStore.ts:170-355 | the same step for the fallback's own ids, locations and ending positions |
| StoreMock.MockQuest | src/store/generatorStore.ts:163-463 | the fallback stores the input's setting, style and starting point unchanged, has 18 scenes `scene-1`..`scene-18` that are referentially closed, ends exactly at scenes 3, 13, 14 and 18 (the scenes without choices), sets every scene in one of its seven locations, and opens with "Начало пути", whose description contains the starting point |
| StoreInput.Get | frontend/src/types/index.ts:4-10 | the three required input keys are always present; a present value is a number exactly for the two count keys |
| StoreInput.SameFieldsSameInput | frontend/src/types/index.ts:4-10 | an input is determined by what it stores under each key |
| StoreInput.SetInput | src/store/generatorStore.ts:30-32 | after the spread, every key the partial input mentions holds the partial input's value and every other key keeps its stored value |
| StoreInput.SetInputEmpty | src/store/generatorStore.ts:30-32 | spreading an empty partial input changes nothing |
| StoreInput.SetInputIdempotent | src/store/generatorStore.ts:30-32 | spreading the same partial input twice is spreading it once |
| StoreInput.SetInputCompose | src/store/generatorStore.ts:30-32 | two successive spreads act as one spread of their union, the later one winning on shared keys |
| StoreInput.SetInputCommute | src/store/generatorStore.ts:30-32 | spreads of partial inputs on disjoint keys commute |
| StoreInput.DefaultInputKeys | frontend/src/store/generatorStore.ts:36-49 | the default input carries exactly seven keys (the five input keys, file content and input method); the HEAD default carries exactly the five input keys |
| StoreInput.DefaultExtendsHeadDefault | frontend/src/store/generatorStore.ts:36-49 | the default input is the HEAD default with an empty file content and the form input method spread over it |
| StoreInput.InitialState | src/store/generatorStore.ts:24-28 | the store starts with the defaults as input, no quest, not loading and no error |
| StoreInput.SetInputAction | src/store/generatorStore.ts:30-32 | `setInput` changes only the input, key by key as the spread says; quest, loading flag and error are kept |
| StoreInput.ResetInputAction | src/store/generatorStore.ts:34 | `resetInput` makes the input agree with the defaults on every key and keeps everything else |
| StoreInput.ResetForgetsPatches | src/store/generatorStore.ts:30-34 | resetting after any `setInput` is the same as resetting directly, and resetting twice is resetting once |
| StoreInput.ResetQuest | src/store/generatorStore.ts:468 | `resetQuest` drops the generated quest and keeps the input, loading flag and error |
| StoreInput.Rejected | src/store/generatorStore.ts:41-49 | a rejection sets the message as the error and touches nothing else |
| StoreInput.CheckInput | src/store/generatorStore.ts:41-49 | the shared pre-generation check: form input is rejected exactly when the starting point is empty, file input exactly when the file content is missing or empty, any other method never, and a rejection carries the form or the file message |
| StoreFrontend.HeadValidate | frontend/src/store/generatorStore.ts:75-78 | the HEAD side rejects exactly the inputs with an empty starting point, whatever the input method |
| StoreFrontend.HeadGenerateQuest | frontend/src/store/generatorStore.ts:71-414 | HEAD `generateQuest`: a rejected input only sets the error; otherwise loading ends, and either the 18-scene referentially closed fallback built from the raw input is stored with no error, or, when the wait is interrupted, the fixed failure message is set and the previous quest kept |
| StoreFrontend.Validate | frontend/src/store/generatorStore.ts:87-95 | the `6b47bff` side rejects form input exactly when the starting point is empty and file input exactly when the file is missing or empty; other methods pass |
| StoreFrontend.SidesCompared | frontend/src/store/generatorStore.ts:71-95 | the two merge sides agree on form input; on file input HEAD wrongly demands a starting point and never asks for the file |
| StoreFrontend.Put | frontend/src/store/generatorStore.ts:419-437 | adding an optional field sets that key to the value, drops it when undefined, and leaves every other key alone |
| StoreFrontend.RequestBody | frontend/src/store/generatorStore.ts:419-427 | the request body carries each of the seven input fields under its snake_case key, an undefined optional field having no key |
| StoreFrontend.ReadRequest | main.py:73-80 | the backend accepts a body exactly when the three required keys are present |
| StoreFrontend.RequestRoundTrip | main.py:73-80 | every input field the frontend sends reaches the backend unchanged, and a missing input method arrives as "form" |
| StoreFrontend.AdvancedSettingsNotSent | frontend/src/store/generatorStore.ts:419-427 | patching only the advanced form settings leaves the request body unchanged |
| StoreFrontend.BackendAgreesWithFrontendChecks | main.py:488-497 | whatever the frontend rejects the backend rejects with the same message, and whatever the backend accepts the frontend accepts |
| StoreFrontend.FromApiChoice | frontend/src/store/generatorStore.ts:463-469 | a mapped choice always names its next scene, taken from `next_scene_id` |
| StoreFrontend.FromApiCharacter | frontend/src/store/generatorStore.ts:472-480 | a character is copied field by field: mapping it back gives the backend's record, and no other frontend character maps back to it |
| StoreFrontend.FromApiLocation | frontend/src/store/generatorStore.ts:481-487 | a location is copied field by field: mapping it back gives the backend's record, and no other frontend location maps back to it |
| StoreFrontend.FromApiItem | frontend/src/store/generatorStore.ts:488-494 | an item is copied field by field, `is_key` becoming `isKey`: mapping it back gives the backend's record, and no other frontend item maps back to it |
| StoreFrontend.FromApiScene | frontend/src/store/generatorStore.ts:456-471 | a mapped scene keeps its choices one-to-one and in order |
| StoreFrontend.FromApi | frontend/src/store/generatorStore.ts:449-495 | the mapping copies id, setting, style and starting point, and keeps every list's length and order |
| StoreFrontend.FromApiRoundTrip | frontend/src/store/generatorStore.ts:449-495 | the mapping loses nothing: mapping back gives the backend's quest, and a frontend quest whose choices all have targets survives the round trip unchanged |
| StoreFrontend.FromApiKeepsClosure | frontend/src/store/generatorStore.ts:456-471 | a quest is referentially closed on the backend's side exactly when its mapping is closed on the frontend's side |
| StoreFrontend.ErrorBodyJson | main.py:528-533 | the backend's error body is an object carrying the reason under `message` and has no `detail` key |
| StoreFrontend.ErrorTextAsWritten | frontend/src/store/generatorStore.ts:440-443 | as written, a thrown error shows its message and a failed response without a truthy `detail` shows the generic text |
| StoreFrontend.BackendMessageNeverShown | frontend/src/store/generatorStore.ts:440-443 | as written, every error body the backend sends is shown as the generic text |
| StoreFrontend.ErrorText | frontend/src/store/generatorStore.ts:440-443 | reading `message` when `detail` is not truthy, a failed response shows the backend's message |
| StoreFrontend.BackendMessageShown | frontend/src/store/generatorStore.ts:440-443 | with `message` read, the user sees exactly the detail the backend raised |
| StoreFrontend.GenerateQuest | frontend/src/store/generatorStore.ts:82-505 | `6b47bff` `generateQuest` as written: a rejected input only sets the error; otherwise loading ends, and an ok response stores its mapped quest with no error while a failure keeps the previous quest and shows the as-written error text |
| StoreFrontend.GenerateQuestCorrected | frontend/src/store/generatorStore.ts:440-443 | corrected `generateQuest`: identical to the as-written one except that a failed response shows the backend's `message` when `detail` is missing |
| StoreFrontend.BackendRejectionHiddenAsWritten | frontend/src/store/generatorStore.ts:440-443 | as written, a file that passes the frontend's check but that the backend refuses (for example content holding a character outside `is_safe_text`, main.py:496-497) comes back as a 500, and the user sees only the fallback text 'Ошибка при генерации квеста' |
| StoreFrontend.BackendRejectionReachesUser | main.py:488-497 | corrected (backend passing its 400 through, store reading `message`): a file that passes the frontend's check but that the backend refuses (too large, or with characters it does not accept) ends with the backend's own reason as the error |
| GeneratorForm.InitialFlags | frontend/src/components/GeneratorForm.tsx:36-37 | the form starts showing a custom field exactly when the stored value is "custom" |
| GeneratorForm.SettingChange | frontend/src/components/GeneratorForm.tsx:43-47 | choosing a setting stores it through `setInput` and shows the custom-setting field exactly when it is "custom", leaving the style flag alone |
| GeneratorForm.QuestStyleChange | frontend/src/components/GeneratorForm.tsx:49-53 | choosing a style stores it and shows the custom-style field exactly when it is "custom", leaving the setting flag alone |
| GeneratorForm.ChangesKeepMirror | frontend/src/components/GeneratorForm.tsx:36-53 | the two flags keep mirroring the stored setting and style through both select handlers and through any patch of other fields |
| GeneratorForm.LoadFile | frontend/src/components/GeneratorForm.tsx:66-71 | a loaded file stores its text and switches to file input, and nothing else in the input changes |
| GeneratorForm.ClearFile | frontend/src/components/GeneratorForm.tsx:73-78 | clearing empties the file text and switches back to form input, and nothing else changes |
| GeneratorForm.ClearUndoesLoad | frontend/src/components/GeneratorForm.tsx:66-78 | from the default file fields, loading then clearing gives back the same state, and a second load replaces the first |
| GeneratorForm.EnabledButtonPassesValidation | frontend/src/components/GeneratorForm.tsx:369 | after a load the file button is enabled exactly for non-empty text, and exactly then the store's validation accepts the input |
| GeneratorForm.CountShown | frontend/src/components/GeneratorForm.tsx:267 | a count select shows either the stored count or the default 3, and never the falsy 0 |
| GeneratorForm.TextShown | frontend/src/components/GeneratorForm.tsx:303 | a text select shows either the stored value or its fallback, and never the empty string when the fallback is not empty |
| GeneratorForm.AdvancedDefaults | frontend/src/components/GeneratorForm.tsx:268-318 | the default input shows 3 scenes, 3 characters, medium complexity and a serious tone, and a chosen non-zero scene count is shown as chosen |
| GeneratorForm.SelectsShowAnOption | frontend/src/components/GeneratorForm.tsx:266-325 | when each advanced value is unset or one of its select's options, every select shows one of its own options, namely the stored one when there is one |
| QuestViewer.FindScene | frontend/src/components/QuestViewer.tsx:62 | a scene is found exactly when the id is set and some scene carries it, and the one found is the first such scene |
| QuestViewer.CurrentScene | frontend/src/components/QuestViewer.tsx:62 | the shown scene is a scene of the quest carrying the current id, and there is one exactly when the id is set and some scene carries it |
| QuestViewer.InitialSceneEffect | frontend/src/components/QuestViewer.tsx:56-60 | with no current scene (null or empty) and a non-empty quest the first scene becomes current; otherwise the current scene is kept |
| QuestViewer.InitialSceneShown | frontend/src/components/QuestViewer.tsx:56-62 | after the effect the first scene is shown, and running the effect again changes nothing unless that scene's id is empty |
| QuestViewer.ChooseScene | frontend/src/components/QuestViewer.tsx:75-86 | a choice moves to its target exactly when some scene carries the target; a dangling target leaves the current scene |
| QuestViewer.ChooseSceneIdempotent | frontend/src/components/QuestViewer.tsx:75-86 | clicking a choice twice is clicking it once |
| QuestViewer.ClosedQuestChoicesMove | frontend/src/components/QuestViewer.tsx:75-86 | in a referentially closed quest every choice of the shown scene moves the viewer to a scene carrying the choice's target |
| QuestViewer.SceneListClick | frontend/src/components/QuestViewer.tsx:351 | clicking a scene in the list shows a scene with that scene's id |
| QuestViewer.CurrentLocation | frontend/src/components/QuestViewer.tsx:63-65 | the location is the first one whose id is the scene's location id, and there is none exactly when no scene is current or no location matches |
| QuestViewer.SceneCharacters | frontend/src/components/QuestViewer.tsx:67-69 | the panel lists exactly the quest's characters whose ids the scene names, none when the scene names none |
| QuestViewer.SceneItems | frontend/src/components/QuestViewer.tsx:71-73 | the panel lists exactly the quest's items whose ids the scene names, none when the scene names none |
| QuestViewer.ProjectionsInQuestOrder | frontend/src/components/QuestViewer.tsx:67-73 | both lists keep the quest's order, whatever order the scene names the ids in |
| QuestViewer.ScenePanels | frontend/src/components/QuestViewer.tsx:176-311 | the location, characters, items, choices and ending sections are visible exactly when a location matches, some named character or item exists, the scene has choices, and the scene is an ending |
| QuestViewer.SettingLabelAsWritten | frontend/src/components/QuestViewer.tsx:88-99 | as written, a known setting shows its Russian label, and a key inherited from `Object.prototype` yields a non-string value |
| QuestViewer.InheritedSettingKeyShowsNoText | frontend/src/components/QuestViewer.tsx:88-99 | as written, a quest whose setting is "toString" or "constructor" (reachable only through a request that names it, since the form offers only the setting keys) shows a function instead of text |
| QuestViewer.SettingLabel | frontend/src/components/QuestViewer.tsx:88-99 | looking up own keys only, a known setting shows its label and every other string is shown unchanged |
| QuestViewer.QuestStyleLabel | frontend/src/components/QuestViewer.tsx:101-112 | looking up own keys only, a known style shows its label and every other string is shown unchanged |
| QuestViewer.QuestStyleLabelAsWritten | frontend/src/components/QuestViewer.tsx:101-112 | as written, a known style shows its label, and an inherited key yields a non-string value |
| QuestViewer.LabelsAgreeOffPrototype | frontend/src/components/QuestViewer.tsx:88-112 | off the inherited keys, the written lookups and the own-key lookups give the same text |
| GraphScenes.FindIndex | frontend/src/components/QuestGraph.tsx:167-168 | `findIndex` gives the first scene carrying the id, and nothing exactly when the id is null or no scene carries it |
| LevelGraph.IndexIn | src/components/QuestGraph.tsx:124-125 | `indexOf` gives the first index holding the id, and nothing exactly when the level does not list it |
| LevelGraph.ScenePosition | src/components/QuestGraph.tsx:122-134 | a scene sits at its first index in the first level listing it, spread evenly over the width at that level's height, and at the origin when no level lists it |
| LevelGraph.SlotsInsideAndOrdered | src/components/QuestGraph.tsx:126-128 | within a level every slot lies strictly inside the width and slots move right as the index grows |
| LevelGraph.FixtureLevelsPartition | src/components/QuestGraph.tsx:114-121 | the three levels list each of the fixture's scene ids 1 to 7 exactly once and nothing else |
| LevelGraph.PositionAt | src/components/QuestGraph.tsx:122-134 | an id first listed at a given index of a given level is placed at that slot |
| LevelGraph.FixturePositions | src/components/QuestGraph.tsx:114-134 | the fixture places scene 1 at (600, 100), scene 3 at (800, 300), scene 7 at (960, 500), and an unlisted id at the origin |
| LevelGraph.FixtureFirstLevel | src/components/QuestGraph.tsx:118 | scene 1, alone on the first level, sits in the middle of the width |
| LevelGraph.FixtureSecondLevel | src/components/QuestGraph.tsx:119 | scene 3, second of two on the second level, sits at two thirds of the width |
| LevelGraph.FixtureThirdLevel | src/components/QuestGraph.tsx:120 | scene 7, last of four on the third level, sits at four fifths of the width |
| LevelGraph.FixturePosition | src/components/QuestGraph.tsx:122-134 | a fixture scene first listed at a given slot is placed at that slot's x and its level's y |
| LevelGraph.FixtureUnlisted | src/components/QuestGraph.tsx:133 | an id no level lists is placed at the origin |
| LevelGraph.SlotValue | src/components/QuestGraph.tsx:126-128 | a slot's x is the value that solves the spacing equation |
| LevelGraph.ChoiceEdges | src/components/QuestGraph.tsx:195-216 | a choice gives an edge exactly when its target is truthy, the connection is displayed and some scene carries the target |
| LevelGraph.SceneEdges | src/components/QuestGraph.tsx:192-217 | the drawn edges are exactly those of the choices of all scenes that pass the three tests |
| LevelGraph.DrawnEdgesDisplayable | src/components/QuestGraph.tsx:142-217 | no drawn edge loops back from 7 to 1, and every drawn edge leaves a listed scene and ends at a scene that exists |
| LevelGraph.ChoiceEdgesPair | src/components/QuestGraph.tsx:195-216 | a scene with two choices draws the first choice's edge, if any, then the second's |
| LevelGraph.SceneEdgesCons | src/components/QuestGraph.tsx:192-217 | the edges of a scene list are the first scene's edges followed by the rest's |
| LevelGraph.FixtureChoiceEdges | src/components/QuestGraph.tsx:15-79 | each fixture scene draws its own listed edges: two for each of scenes 1 to 3, none for the rest |
| LevelGraph.SceneEdgesFrom | src/components/QuestGraph.tsx:192-217 | the edges of the fixture's scenes from a given position on are the listed ones from that position on |
| LevelGraph.FixtureEdges | src/components/QuestGraph.tsx:142-217 | the fixture draws six edges in scene order, every choice with a target except the loop back from 7 to 1 |
| LevelGraph.SceneClickToggles | src/components/QuestGraph.tsx:137-139 | clicking a scene twice from no selection leaves none, and a third click returns to the state after the first |
| LevelGraph.Caption | src/components/QuestGraph.tsx:288-320 | the caption is the loop-back text for 7 to 1, otherwise an arrow and the title of a scene carrying the target, or the ending caption when none does |
| LevelGraph.EndingCaptionIffNoTarget | src/components/QuestGraph.tsx:289-319 | away from the loop back, the caption is the ending caption exactly when no scene carries the target |
| DiamondGraph.RombPoints | frontend/src/components/QuestGraph.tsx:38-45 | the diamond's vertices are top, right, bottom, left, symmetric about the centre and spanning the diamond's height and width |
| DiamondGraph.FixtureTablesFit | frontend/src/components/QuestGraph.tsx:4-72 | the position tables hold one block per scene and one diamond per choice, so every index the drawing uses is in range |
| DiamondGraph.SceneToDiamond | frontend/src/components/QuestGraph.tsx:130-146 | the arrow to a choice's diamond runs from the bottom centre of the scene's block to the diamond's top vertex |
| DiamondGraph.DiamondToScene | frontend/src/components/QuestGraph.tsx:164-183 | an arrow leaves a diamond exactly when the target is truthy and a scene carries it, from the diamond's bottom vertex to the top centre of that scene's block |
| DiamondGraph.FixtureDiamondArrows | frontend/src/components/QuestGraph.tsx:4-29 | in the fixture only the two choices of the first scene lead on, to the second and third blocks |
| DiamondGraph.SummaryClick | frontend/src/components/QuestGraph.tsx:87 | clicking the summary box expands the drawing |
| DiamondGraph.FixtureExpanded | frontend/src/components/QuestGraph.tsx:105-196 | the expanded fixture draws three blocks and six diamonds |
| GenerationProgress.Progress | frontend/src/components/GenerationProgress.tsx:59-62 | the bar is between 0 and 100, full from six completed steps on, and otherwise the completed share of six steps in percent |
| GenerationProgress.ProgressMonotone | frontend/src/components/GenerationProgress.tsx:59-62 | more completed steps never lower the bar, and below six every further step raises it |
| GenerationProgress.StripStartSkipsSpaces | frontend/src/components/GenerationProgress.tsx:66 | trimming the start removes only whitespace |
| GenerationProgress.StripEndKeepsFirst | frontend/src/components/GenerationProgress.tsx:66 | trimming the end of a text that opens with a non-space keeps that first character |
| GenerationProgress.OpensAt | frontend/src/components/GenerationProgress.tsx:66 | given the first non-space position, the text opens with a brace exactly when that character is one |
| GenerationProgress.StartsWithBrace | frontend/src/components/GenerationProgress.tsx:66 | `startsWith('{')` holds exactly when the first character is a brace |
| GenerationProgress.IsJsonContentIff | frontend/src/components/GenerationProgress.tsx:65-67 | the content counts as JSON exactly when its first non-whitespace character is `{` |
| GenerationProgress.Logo | frontend/src/components/GenerationProgress.tsx:70-81 | no logo unless the content looks like JSON; then a logo exactly when the parsed value's `logo` is truthy, and it is that `logo` field; when parsing fails (or the value is null) the regex capture, if any |
| GenerationProgress.StepIconByRules | frontend/src/components/GenerationProgress.tsx:84-93 | the chain of tests picks the icon of the first rule of the table (preparation, sending, generation or forming, completion or processing) whose words the step contains, and the check-circle when none matches |
| GenerationProgress.StepIconFirstMatch | frontend/src/components/GenerationProgress.tsx:86-87 | a step naming the preparation stage always gets its icon, and a step naming sending but not preparation gets the sending icon |
| GenerationProgress.StatusBadge | frontend/src/components/GenerationProgress.tsx:117-123 | the badge reads "В процессе" in blue exactly while generating, and "Завершено" in green otherwise |
| GenerationProgress.BadgeShowsState | frontend/src/components/GenerationProgress.tsx:117-123 | the badge's text alone, and its colour alone, tell whether generation is running |
| FileUpload.HandleFile | frontend/src/components/FileUpload.tsx:60-82 | a file's text is delivered exactly when its name ends in ".txt" in any case, it is at most 1 MiB and the read succeeds; otherwise the error names the first failed check, extension before size before read |
| FileUpload.ExtensionCheckedFirst | frontend/src/components/FileUpload.tsx:62-71 | an oversized file with the wrong extension reports the extension |
| FileUpload.UpperCaseExtensionAccepted | frontend/src/components/FileUpload.tsx:62-68 | an upper-case ".TXT" name is accepted, and one byte over 1 MiB is refused |
| FileUpload.HandleDrag | frontend/src/components/FileUpload.tsx:33-41 | entering or moving over the area highlights it, leaving removes the highlight, any other drag event changes nothing, and the error is kept |
| FileUpload.DragFollowsLastEvent | frontend/src/components/FileUpload.tsx:33-41 | after any run of drag events the area is highlighted exactly when the last enter, over or leave event was not a leave (the current highlight when there was none), and the error never changes |
| FileUpload.HandleDrop | frontend/src/components/FileUpload.tsx:43-52 | a drop clears the highlight and the earlier error, then delivers the first file's text exactly when that file is acceptable and read |
| FileUpload.HandleClear | frontend/src/components/FileUpload.tsx:88-94 | clearing removes the error and keeps the highlight |
| FileUpload.ClearForgetsFile | frontend/src/components/FileUpload.tsx:60-94 | clearing after any file was handled gives the same state as clearing before it, and clearing twice is clearing once |
| FileUpload.Preview | frontend/src/components/FileUpload.tsx:187-190 | a text of at most 500 characters is previewed whole; a longer one as 500 characters of its start followed by "..." |
| FileUpload.PreviewNote | frontend/src/components/FileUpload.tsx:192-196 | the note appears exactly for texts longer than 500 characters |
| FileUpload.LongPreview | frontend/src/components/FileUpload.tsx:187-196 | a long text's preview is its first 500 characters and the dots, and its note ends with a number that reads back as the text's length |
| QuestTypes.SettingOfKey | frontend/src/types/index.ts:1 | a string names a setting exactly when it is that setting's key, and then names that setting |
| QuestTypes.QuestStyleOfKey | frontend/src/types/index.ts:2 | a string names a quest style exactly when it is that style's key, and then names that style |
| QuestTypes.VocabulariesHaveSevenValues | src/types/generator.js:1-19 | each vocabulary has exactly seven members with seven distinct keys, "custom" is in both, and "horror" names both a setting and a style |
| QuestTypes.KeysRoundTrip | frontend/src/types/index.ts:1-2 | reading a member's key back gives the member |
| JsValue.Prop | src/store/generatorStore.ts:128-151 | a property read fails exactly on null, and a value found comes from the object's own key |
| JsValue.OrElse | src/store/generatorStore.ts:128-151 | `a \|\| fallback` is `a` when truthy and the fallback otherwise, so it is truthy exactly when one of the two is |
| JsValue.OrElseChain | src/store/generatorStore.ts:133-150 | a chain `a \|\| b \|\| c` yields the first truthy operand, or the last when none is |
| JsValue.ToJsStringOfStrings | src/store/generatorStore.ts:102 | appending a string response appends that string, and a one-string array appends that string too |
| Text.Title | backend/main.py:448 | `str.title()` keeps the length and upper-cases a letter exactly when it starts the text or follows a character without case, lower-casing the rest |
| Text.TitleKeepsLetters | backend/main.py:448 | title-casing changes only case: lower-cased, the title equals the lower-cased text |
| Text.NatToStringValue | backend/main.py:156 | the decimal digits of a number read back as the number |
| Text.IntToStringRoundTrip | backend/main.py:156 | formatting an integer and reading it back with `int()` gives the integer |
| Text.IntToStringInjective | backend/main.py:283 | two integers with the same decimal text are equal |
| Text.StripStart | frontend/src/components/GenerationProgress.tsx:66 | trimming the start leaves a suffix of the text that does not start with whitespace |
| Text.StripEnd | frontend/src/components/GenerationProgress.tsx:66 | trimming the end leaves a prefix of the text that does not end with whitespace |
| Text.StripIdempotent | main.py:191-194 | stripping a stripped text changes nothing |
| Text.Split | src/store/generatorStore.ts:96 | splitting on a character gives at least one part and no part contains the separator |
| Text.SplitJoin | src/store/generatorStore.ts:96 | joining the parts with the separator gives back the text |
| Text.SplitAround | src/store/generatorStore.ts:96 | splitting two texts joined by the separator splits each on its own |
| Text.Take | frontend/src/components/FileUpload.tsx:188 | `substring(0, n)` is the prefix of length n, or the whole text when it is shorter |
| Text.LastSegment | backend/main.py:156 | the text after the last separator holds no separator |
| Text.LastSegmentAfter | backend/main.py:156 | the text after the last underscore of `scene_<digits>` is the digits |
| Text.FirstSegment | main.py:192 | the text before the first separator is a prefix of the text holding no separator |
| Seqs.Filter | frontend/src/components/QuestViewer.tsx:68 | `filter` keeps exactly the elements that pass the test |
| Seqs.FilterIsSubsequence | frontend/src/components/QuestViewer.tsx:68 | `filter` keeps the elements' order |
| Seqs.FirstWhere | frontend/src/components/QuestViewer.tsx:62 | `find` gives the first element passing the test, and nothing exactly when none passes |
| Seqs.MapResult | src/store/generatorStore.ts:133-148 | a `map` whose callback may throw succeeds exactly when every element's call succeeds, and then keeps the length |
| Seqs.MapResultElements | src/store/generatorStore.ts:133-148 | each element of a successful `map` is the callback's result for that element and position |
| Seqs.MapResultFirstFailure | src/store/generatorStore.ts:133-148 | a failing `map` throws the error of the first element whose call fails |

## Left out

- The users, registration and login (bcrypt hashing, JWT tokens, the SQLite database) are not modelled. They play no part in generating a quest.
- The FastAPI application setup, CORS and the route wiring are left out. Only the handler bodies listed above are modelled.
- The HTTP calls to Ollama are parameters: the model receives the answer text.
- `asyncio.sleep`, `setTimeout`, `Date.now` and timestamps are left out. Delays do not change any result.
- The JSON parsers and encoders (`safe_json_parse`, `json.loads`, `json.dumps`, `JSON.parse`, `JSON.stringify`) are parameters. Their own correctness belongs to the runtime.
- The regular expressions of the uploaded-file extraction are parameters. The model receives their captured groups.
- `TextDecoder` chunking and `FileReader` are left out. The model reads decoded text chunks and the file's text.
- Chakra UI styling, colours, animation, the `HomePage`/`QuestResultPage` pages and `App` routing are left out. They are presentation only.
- `app.py`, `build-and-run.py` and `run.py` are left out. They are process launchers.
- `Math.round` and IEEE doubles are left out. The progress percentage and the layout coordinates are exact rationals.
- String lengths are counted in characters, not in UTF-16 code units as JavaScript's `.length` does.
- Case mapping (`.title()`, `toLowerCase`) and whitespace stripping cover ASCII and basic Cyrillic only.
- The message of a `TypeError` raised by a property read on `null` is a fixed text. The text of a thrown value that is not an `Error` is also left out.
- BackendRepair.FixSceneReferencesSpec: Python's equality between integers and floats (`1 == 1.0`, which also hash alike) is not modelled, because JSON numbers are integers here. Booleans equal to integers (`True == 1`) and ids that are not strings (the `TypeError` of `'_' in scene['id']`, and of iterating `choices` that is not a list) are modelled.
- JSON numbers are integers (`Json.JNum` holds an `int`). Floats, and with them fractional counts and float ids, are left out.
- Text.ParsePyInt: only ASCII digits with an optional sign are read. Python's `int()` also accepts other Unicode decimal digits (such as `٣`) and `_` between digits, and refuses texts of more than 4300 digits; none of these is modelled.
- BackendRepair.RepairTarget: inherits the limits of `Text.ParsePyInt`. An id such as `scene_٣` makes the scene an ending in the model, where Python would redirect the choice to `scene_4` when that scene exists.
- BackendRepair.IdSetError: the iteration order of the id set is a parameter, because CPython's hash order is an implementation detail.
- The unused `hGap`/`vGap` constants of the level layout are left out.
- The `generationProgress` record that the stores fill in during generation is reduced to the parameters its readers use.
- The `mainGoal` and `themes` form inputs are not modelled as sent fields, because the request body never includes them.

## Findings

| source | as written | input that shows it | evidently intended | confidence | as-written member | corrected member |
|---|---|---|---|---|---|---|
| main.py:488-507 | the `HTTPException(400)` raised by the request checks sits inside `try … except Exception`, so it is caught and raised again as a 500 whose detail is "Ошибка при генерации квеста: 400: Необходимо указать отправную точку" | a form request with an empty starting point, `{"input_method": "form", "starting_point": ""}` (main.py:488-489) | the client gets the 400 with the validation message | not executed | MonoBackend.ValidationErrorBecomes500 | MonoBackend.ValidationMessageReachesClient |
| frontend/src/store/generatorStore.ts:440-443 | the store reads `errorData.detail`, but the backend's handler sends the text under `message` (main.py:528-533), so the user always sees the fallback text 'Ошибка при генерации квеста' | a file request whose content holds a character outside `is_safe_text`. The backend answers with a 500 whose body has `message` "Ошибка при генерации квеста: 400: Недопустимые символы в файле" and no `detail` (main.py:496-497, 505-507) | the backend's message is shown | not executed | StoreFrontend.BackendMessageNeverShown | StoreFrontend.BackendMessageShown |
| frontend/src/components/QuestViewer.tsx:88-112 | the labels are looked up in a plain object literal with `map[key] \|\| key`, so an inherited key such as `toString` yields `Object.prototype`'s function, not text, and `__proto__` yields the prototype object, which React throws on. The defect is latent: the form offers only the setting keys (QuestViewer.tsx:153 shows the setting the backend echoes), so only a request that names such a setting directly reaches it | a quest whose setting is `toString` | a key without a label is shown as itself | not executed | QuestViewer.InheritedSettingKeyShowsNoText | QuestViewer.LabelsAgreeOffPrototype |
