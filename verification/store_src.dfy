/** The store of src/store/generatorStore.ts: validation of the input, the prompt sent
    to the local Ollama model, the accumulation of the model's streamed reply, the
    normalisation of the parsed reply into a quest, and the fallback to the fixed quest
    when any step of the attempt fails.

    The Ollama request, the line and reply parsers (`JSON.parse`) and the clock
    (`Date.now()`) are parameters. */
module StoreSrc {
  import opened Wrappers
  import opened Seqs
  import opened Text
  import opened Json
  import opened JsValue
  import opened StoreInput
  import QuestTypes
  import StoreMock

  // ---------------------------------------------------------------------------
  // Validation

  const NoStartingPoint := "Пожалуйста, укажите отправную точку"
  const NoFile := "Пожалуйста, загрузите файл"

  /** The error message `generateQuest` stops with, if any: form input needs a starting
      point, file input needs file content, and any other input method is not
      checked. */
  function Validate(i: Input): (r: Option<string>)
    ensures i.inputMethod == Some("form") ==> (r.Some? <==> i.startingPoint == "")
    ensures i.inputMethod == Some("file") ==> (r.Some? <==> Blank(i.fileContent))
    ensures i.inputMethod != Some("form") && i.inputMethod != Some("file") ==> r.None?
    ensures r.Some? ==> r.value == (if i.inputMethod == Some("form") then NoStartingPoint else NoFile)
  {
    CheckInput(i, NoStartingPoint, NoFile)
  }

  /** The untouched default input is rejected for its missing starting point; typing a
      starting point into it is enough to pass. */
  lemma DefaultNeedsStartingPoint(sp: string)
    ensures Validate(DefaultInput) == Some(NoStartingPoint)
    ensures sp != "" ==> Validate(SetInput(DefaultInput, map[StartingPoint := Str(sp)])).None?
  {
    var i := SetInput(DefaultInput, map[StartingPoint := Str(sp)]);
    assert Get(i, InputMethod) == Get(DefaultInput, InputMethod);
    assert Get(i, StartingPoint) == Some(Str(sp));
  }

  /** After the form's file handler stores non-empty content (and switches to file
      input), validation passes whatever the starting point. */
  lemma LoadedFilePasses(i: Input, content: string)
    requires content != ""
    ensures Validate(SetInput(i, map[FileContent := Str(content), InputMethod := Str("file")])).None?
  {
    var j := SetInput(i, map[FileContent := Str(content), InputMethod := Str("file")]);
    assert Get(j, InputMethod) == Some(Str("file"));
    assert Get(j, FileContent) == Some(Str(content));
  }

  // ---------------------------------------------------------------------------
  // Prompt

  /** The setting the quest is for: the custom text when "custom" is selected. */
  function EffectiveSetting(i: Input): (r: Option<string>)
    ensures i.setting != "custom" ==> r == Some(i.setting)
    ensures i.setting == "custom" ==> r == i.customSetting
  {
    if i.setting == "custom" then i.customSetting else Some(i.setting)
  }

  /** The quest style: the custom text when "custom" is selected. */
  function EffectiveStyle(i: Input): (r: Option<string>)
    ensures i.questStyle != "custom" ==> r == Some(i.questStyle)
    ensures i.questStyle == "custom" ==> r == i.customQuestStyle
  {
    if i.questStyle == "custom" then i.customQuestStyle else Some(i.questStyle)
  }

  const FormPromptStart := "Сгенерируй квест в жанре "
  const FilePromptStart := "На основе следующего описания сгенерируй квест: "
  const StyleLabel := ". Стиль квеста: "
  const PromptEnd := ". Верни структуру из 6 сцен в JSON формате, где каждая сцена содержит scene_id, text и choices."

  /** The prompt: form input names the effective setting, the starting point and the
      effective style; every other input method describes the file content. Both end
      with the request for six scenes in JSON. */
  function Prompt(i: Input): (p: string)
    ensures StartsWith(p, if i.inputMethod == Some("form") then FormPromptStart else FilePromptStart)
    ensures EndsWith(p, PromptEnd)
  {
    if i.inputMethod == Some("form") then
      var middle := TemplateText(EffectiveSetting(i)) + ". " + i.startingPoint + StyleLabel +
        TemplateText(EffectiveStyle(i));
      ConcatEdges(FormPromptStart, middle, PromptEnd);
      FormPromptStart + middle + PromptEnd
    else
      ConcatEdges(FilePromptStart, TemplateText(i.fileContent), PromptEnd);
      FilePromptStart + TemplateText(i.fileContent) + PromptEnd
  }

  /** A text assembled from seven parts contains its second and fourth parts. */
  lemma FormPromptParts(a: string, s: string, b: string, sp: string, c: string, st: string, d: string)
    ensures Contains(a + (s + b + sp + c + st) + d, sp)
    ensures Contains(a + (s + b + sp + c + st) + d, s)
  {
    var inner := s + b + sp + c + st;
    ContainsSelf(sp);
    ContainsExtend(sp, sp, s + b);
    ContainsExtend(s + b + sp, sp, c);
    ContainsExtend(s + b + sp + c, sp, st);
    ContainsExtend(inner, sp, a);
    ContainsExtend(a + inner, sp, d);
    ContainsSelf(s);
    ContainsExtend(s, s, b);
    ContainsExtend(s + b, s, sp);
    ContainsExtend(s + b + sp, s, c);
    ContainsExtend(s + b + sp + c, s, st);
    ContainsExtend(inner, s, a);
    ContainsExtend(a + inner, s, d);
  }

  /** A form prompt mentions the starting point and the setting actually chosen, which
      is the custom text when the setting is "custom"; a file prompt mentions the file
      content. */
  lemma PromptMentionsInput(i: Input)
    ensures i.inputMethod == Some("form") ==>
      Contains(Prompt(i), i.startingPoint) && Contains(Prompt(i), TemplateText(EffectiveSetting(i)))
    ensures i.inputMethod == Some("form") && i.setting == "custom" && i.customSetting.Some? ==>
      Contains(Prompt(i), i.customSetting.value)
    ensures i.inputMethod != Some("form") && i.fileContent.Some? ==>
      Contains(Prompt(i), i.fileContent.value)
  {
    if i.inputMethod == Some("form") {
      FormPromptParts(FormPromptStart, TemplateText(EffectiveSetting(i)), ". ", i.startingPoint,
        StyleLabel, TemplateText(EffectiveStyle(i)), PromptEnd);
    } else {
      ContainsMiddle(FilePromptStart, TemplateText(i.fileContent), PromptEnd);
    }
  }

  // ---------------------------------------------------------------------------
  // The streamed reply

  /** `line.trim()` is non-empty. */
  predicate NonBlank(line: string) {
    Strip(line) != ""
  }

  /** The non-blank lines of one chunk. */
  function ChunkLines(chunk: string): seq<string> {
    Filter(Split(chunk, '\n'), NonBlank)
  }

  /** What one line adds to the reply text, and whether it ends its chunk. A line that
      does not parse, or parses to `null` (whose property read raises), adds nothing and
      ends nothing. Otherwise a truthy `response` is appended as a string and a truthy
      `done` ends the chunk. */
  function LineEffect(parse: string -> Option<Json>, line: string): (e: (string, bool))
    ensures parse(line).None? ==> e == ("", false)
    ensures parse(line).Some? && parse(line).value.JNull? ==> e == ("", false)
    ensures e.0 != "" ==> parse(line).Some? && Truthy(Prop(parse(line).value, "response").value)
  {
    var parsed := parse(line);
    if parsed.None? || parsed.value.JNull? then ("", false)
    else
      var response := Field(parsed.value, "response");
      var done := Field(parsed.value, "done");
      (if Truthy(response) then ToJsString(response.value) else "", Truthy(done))
  }

  /** The text the lines of one chunk add, up to and including the first line that
      says `done`. */
  function LinesText(parse: string -> Option<Json>, lines: seq<string>): string {
    if |lines| == 0 then ""
    else
      var e := LineEffect(parse, lines[0]);
      if e.1 then e.0 else e.0 + LinesText(parse, lines[1..])
  }

  /** The text one chunk adds. */
  function ChunkText(parse: string -> Option<Json>, chunk: string): string {
    LinesText(parse, ChunkLines(chunk))
  }

  /** `fullResponse` after reading the chunks in order: each chunk is split into lines
      on its own, with no text carried from one chunk to the next, and `done` stops
      only the chunk it appears in. */
  function StreamText(parse: string -> Option<Json>, chunks: seq<string>): string {
    ConcatMap(c => ChunkText(parse, c), chunks)
  }

  /** The line loop over one chunk: append each line's response, leave at `done`. */
  method ReadLines(parse: string -> Option<Json>, lines: seq<string>) returns (text: string)
    ensures text == LinesText(parse, lines)
  {
    text := "";
    var j := 0;
    while j < |lines|
      invariant 0 <= j <= |lines|
      invariant text + LinesText(parse, lines[j..]) == LinesText(parse, lines)
    {
      var e := LineEffect(parse, lines[j]);
      LinesTextStep(parse, lines, j);
      if e.1 {
        text := text + e.0;
        return;
      }
      AppendAssoc(text, e.0, LinesText(parse, lines[j + 1..]));
      text := text + e.0;
      j := j + 1;
    }
    assert lines[j..] == [];
  }

  /** One step of the line loop: the text from line `j` on is that line's text,
      followed by the rest's unless the line says `done`. */
  lemma LinesTextStep(parse: string -> Option<Json>, lines: seq<string>, j: nat)
    requires j < |lines|
    ensures var e := LineEffect(parse, lines[j]);
      LinesText(parse, lines[j..]) == if e.1 then e.0 else e.0 + LinesText(parse, lines[j + 1..])
  {
    assert lines[j..][0] == lines[j];
    assert lines[j..][1..] == lines[j + 1..];
  }

  /** The reading loop: chunk by chunk, each chunk's lines appended in turn. */
  method ReadStream(parse: string -> Option<Json>, chunks: seq<string>) returns (fullResponse: string)
    ensures fullResponse == StreamText(parse, chunks)
  {
    var chunkText := c => ChunkText(parse, c);
    fullResponse := "";
    var c := 0;
    while c < |chunks|
      invariant 0 <= c <= |chunks|
      invariant fullResponse + ConcatMap(chunkText, chunks[c..]) == ConcatMap(chunkText, chunks)
    {
      assert chunks[c..][0] == chunks[c];
      assert chunks[c..][1..] == chunks[c + 1..];
      var text := ReadLines(parse, ChunkLines(chunks[c]));
      AppendAssoc(fullResponse, text, ConcatMap(chunkText, chunks[c + 1..]));
      fullResponse := fullResponse + text;
      c := c + 1;
    }
  }

  /** Reading two runs of chunks one after the other gives the two texts one after
      the other. */
  lemma StreamTextAppend(parse: string -> Option<Json>, a: seq<string>, b: seq<string>)
    ensures StreamText(parse, a + b) == StreamText(parse, a) + StreamText(parse, b)
  {
    ConcatMapAppend(c => ChunkText(parse, c), a, b);
  }

  /** A run of chunks reads as the first chunk's text followed by the rest's. */
  lemma StreamTextCons(parse: string -> Option<Json>, c: string, rest: seq<string>)
    ensures StreamText(parse, [c] + rest) == ChunkText(parse, c) + StreamText(parse, rest)
    ensures StreamText(parse, []) == ""
  {
    assert ([c] + rest)[1..] == rest;
  }

  /** Two chunks read as the first chunk's text followed by the second's. */
  lemma StreamTextPair(parse: string -> Option<Json>, a: string, b: string)
    ensures StreamText(parse, [a, b]) == ChunkText(parse, a) + ChunkText(parse, b)
  {
    StreamTextCons(parse, a, [b]);
    StreamTextCons(parse, b, []);
    assert [a] + [b] == [a, b];
    assert [b] + [] == [b];
    assert ChunkText(parse, b) + "" == ChunkText(parse, b);
  }

  lemma SingleLineChunk(line: string)
    requires '\n' !in line && NonBlank(line)
    ensures ChunkLines(line) == [line]
  {
    assert Split(line, '\n') == [line];
    FilterOne(line);
  }

  lemma FilterOne(line: string)
    requires NonBlank(line)
    ensures Filter([line], NonBlank) == [line]
  {
    assert [line][1..] == [];
  }

  lemma TwoLineChunk(l1: string, l2: string)
    requires '\n' !in l1 && '\n' !in l2 && NonBlank(l1) && NonBlank(l2)
    ensures ChunkLines(l1 + "\n" + l2) == [l1, l2]
  {
    assert l1 + "\n" + l2 == l1 + ['\n'] + l2;
    SplitAround(l1, '\n', l2);
    assert Split(l1, '\n') == [l1];
    assert Split(l2, '\n') == [l2];
    assert Split(l1 + "\n" + l2, '\n') == [l1, l2];
    FilterOne(l2);
    assert [l1, l2][1..] == [l2];
    assert Filter([l1, l2], NonBlank) == [l1] + Filter([l2], NonBlank);
  }

  /** A line list whose first line says `done` reads as that line's text. */
  lemma LinesTextDoneFirst(parse: string -> Option<Json>, lines: seq<string>)
    requires |lines| > 0 && LineEffect(parse, lines[0]).1
    ensures LinesText(parse, lines) == LineEffect(parse, lines[0]).0
  {
  }

  /** The responses of the lines, all appended. */
  function Responses(parse: string -> Option<Json>, lines: seq<string>): string {
    ConcatMap(l => LineEffect(parse, l).0, lines)
  }

  /** Without a `done` line a chunk adds the responses of all its lines. */
  lemma {:induction false} LinesTextWithoutDone(parse: string -> Option<Json>, lines: seq<string>)
    requires forall j :: 0 <= j < |lines| ==> !LineEffect(parse, lines[j]).1
    ensures LinesText(parse, lines) == Responses(parse, lines)
    decreases |lines|
  {
    if |lines| > 0 {
      assert forall j :: 0 <= j < |lines| - 1 ==> lines[1..][j] == lines[j + 1];
      LinesTextWithoutDone(parse, lines[1..]);
    }
  }

  /** With its first `done` at line k a chunk adds the responses of lines 0 to k, that
      line included, and nothing after it. */
  lemma {:induction false} LinesTextUpToDone(parse: string -> Option<Json>, lines: seq<string>, k: nat)
    requires k < |lines| && LineEffect(parse, lines[k]).1
    requires forall j :: 0 <= j < k ==> !LineEffect(parse, lines[j]).1
    ensures LinesText(parse, lines) == Responses(parse, lines[..k + 1])
    decreases k
  {
    if k == 0 {
      assert lines[..1][1..] == [];
      assert Responses(parse, lines[..1]) == LineEffect(parse, lines[0]).0 + Responses(parse, []);
    } else {
      var rest := lines[1..];
      assert forall j :: 0 <= j < k - 1 ==> rest[j] == lines[j + 1];
      assert rest[k - 1] == lines[k];
      LinesTextUpToDone(parse, rest, k - 1);
      assert lines[..k + 1][1..] == rest[..k];
      assert lines[..k + 1][0] == lines[0];
    }
  }

  /** A chunk of a single line adds that line's response. */
  lemma SingleLineText(parse: string -> Option<Json>, line: string)
    requires '\n' !in line && NonBlank(line)
    ensures ChunkText(parse, line) == LineEffect(parse, line).0
  {
    SingleLineChunk(line);
    var e := LineEffect(parse, line);
    assert [line][1..] == [];
    assert LinesText(parse, [line]) == if e.1 then e.0 else e.0 + LinesText(parse, []);
    assert e.0 + "" == e.0;
  }

  /** `done` ends only its own chunk: the next line of the same chunk is skipped, but
      the following chunk is read in full. */
  lemma DoneEndsOnlyItsChunk(parse: string -> Option<Json>, l1: string, l2: string, next: string)
    requires '\n' !in l1 && '\n' !in l2 && NonBlank(l1) && NonBlank(l2)
    requires LineEffect(parse, l1).1
    ensures StreamText(parse, [l1 + "\n" + l2, next]) ==
      LineEffect(parse, l1).0 + ChunkText(parse, next)
  {
    var chunk := l1 + "\n" + l2;
    assert ChunkText(parse, chunk) == LineEffect(parse, l1).0 by {
      TwoLineChunk(l1, l2);
      LinesTextDoneFirst(parse, [l1, l2]);
    }
    StreamTextPair(parse, chunk, next);
  }

  /** A line cut in two by a chunk boundary is lost: if neither half parses, the two
      chunks add nothing, whereas the same line arriving whole adds its response. */
  lemma SplitLineIsLost(parse: string -> Option<Json>, h1: string, h2: string)
    requires '\n' !in h1 && '\n' !in h2 && NonBlank(h1) && NonBlank(h2) && NonBlank(h1 + h2)
    requires parse(h1).None? && parse(h2).None?
    ensures StreamText(parse, [h1, h2]) == ""
    ensures StreamText(parse, [h1 + h2]) == LineEffect(parse, h1 + h2).0
  {
    SingleLineText(parse, h1);
    SingleLineText(parse, h2);
    assert '\n' !in h1 + h2;
    SingleLineText(parse, h1 + h2);
    StreamTextCons(parse, h1, [h2]);
    StreamTextCons(parse, h2, []);
    StreamTextCons(parse, h1 + h2, []);
    assert [h1] + [h2] == [h1, h2];
    assert [h1 + h2] + [] == [h1 + h2];
    assert [h2] + [] == [h2];
  }

  // ---------------------------------------------------------------------------
  // Normalisation of the parsed reply

  /** A normalised choice. Every field is a JSON value: the store copies whatever the
      model sent when it is truthy and a default otherwise. */
  datatype NChoice = NChoice(
    id: Json, text: Json, nextSceneId: Json, requiredItems: Json, consequence: Json)

  datatype NScene = NScene(
    id: Json, title: Json, description: Json, locationId: Json,
    characters: Json, items: Json, choices: seq<NChoice>, isEnding: Json)

  /** A normalised quest; `setting` and `questStyle` are `None` where a custom value
      was selected but never typed. */
  datatype NQuest = NQuest(
    id: string, title: Json, description: Json,
    setting: Option<string>, questStyle: Option<string>, startingPoint: string,
    scenes: seq<NScene>, characters: Json, locations: Json, items: Json)

  function SceneDefaultId(index: nat): string {
    "scene_" + IntToString(index + 1)
  }

  function ChoiceDefaultId(index: nat, choiceIndex: nat): string {
    "choice_" + IntToString(index) + "_" + IntToString(choiceIndex)
  }

  /** One choice of scene `index`. A `null` choice raises on its first property read;
      otherwise the id is always truthy and the next scene id is a truthy value or
      `null`, preferring `next_scene_id` over `nextSceneId`. */
  function NormalizeChoice(c: Json, index: nat, choiceIndex: nat): (r: Result<NChoice, string>)
    ensures r.Failure? <==> c.JNull?
    ensures r.Success? ==> JsTruthy(r.value.id)
    ensures r.Success? ==> r.value.nextSceneId.JNull? || JsTruthy(r.value.nextSceneId)
    ensures r.Success? && Truthy(Field(c, "next_scene_id")) ==>
      r.value.nextSceneId == Field(c, "next_scene_id").value
    ensures r.Success? && !Truthy(Field(c, "next_scene_id")) && !Truthy(Field(c, "nextSceneId")) ==>
      r.value.nextSceneId == JNull
  {
    if c.JNull? then Failure(TypeErrorOnNull)
    else
      Success(NChoice(
        OrElse(Field(c, "id"), JStr(ChoiceDefaultId(index, choiceIndex))),
        OrElse(Field(c, "text"), OrElse(Field(c, "description"), JStr(""))),
        OrElse(Field(c, "next_scene_id"), OrElse(Field(c, "nextSceneId"), JNull)),
        OrElse(Field(c, "required_items"), OrElse(Field(c, "requiredItems"), JArr([]))),
        OrElse(Field(c, "consequence"), JNull)))
  }

  /** The choice normaliser of scene `index`, as the callback of `choices.map`. */
  function ChoiceAt(index: nat): (Json, nat) -> Result<NChoice, string> {
    (c: Json, j: nat) => NormalizeChoice(c, index, j)
  }

  /** `choices.map(...)`: one normalised choice per element, in order; it fails
      exactly when some element is `null`. */
  function NormalizeChoices(cs: seq<Json>, index: nat): (r: Result<seq<NChoice>, string>)
    ensures r.Success? <==> forall k :: 0 <= k < |cs| ==> !cs[k].JNull?
    ensures r.Success? ==> |r.value| == |cs|
  {
    var r := MapResult(cs, ChoiceAt(index), 0);
    assert forall k :: 0 <= k < |cs| ==> (ChoiceAt(index)(cs[k], 0 + k).Success? <==> !cs[k].JNull?);
    r
  }

  /** A property that must be a list when truthy: absent or falsy gives the empty list,
      a truthy non-list raises (it has no `map`). */
  function ListOrEmpty(o: Option<Json>): (r: Result<seq<Json>, string>)
    ensures !Truthy(o) ==> r == Success([])
    ensures Truthy(o) ==> (r.Success? <==> o.value.JArr?)
    ensures Truthy(o) && o.value.JArr? ==> r == Success(o.value.items)
  {
    if !Truthy(o) then Success([])
    else if o.value.JArr? then Success(o.value.items)
    else Failure("TypeError: map is not a function")
  }

  /** Scene `index` of `total`. The id is `scene_id` or `scene_{index+1}` (a plain `id`
      is never read); the ending flag defaults to "is the last scene". */
  function NormalizeScene(s: Json, index: nat, total: nat): (r: Result<NScene, string>)
    ensures s.JNull? ==> r.Failure?
    ensures r.Success? ==> JsTruthy(r.value.id) && JsTruthy(r.value.title)
    ensures r.Success? && index + 1 == total ==> JsTruthy(r.value.isEnding)
    ensures r.Success? ==> !s.JNull? && ListOrEmpty(Field(s, "choices")).Success?
    ensures r.Success? ==> |r.value.choices| == |ListOrEmpty(Field(s, "choices")).value|
  {
    if s.JNull? then Failure(TypeErrorOnNull)
    else
      var choiceList :- ListOrEmpty(Field(s, "choices"));
      var choices :- NormalizeChoices(choiceList, index);
      Success(NScene(
        OrElse(Field(s, "scene_id"), JStr(SceneDefaultId(index))),
        OrElse(Field(s, "title"), JStr("Сцена " + IntToString(index + 1))),
        OrElse(Field(s, "text"), OrElse(Field(s, "description"), JStr(""))),
        OrElse(Field(s, "location_id"), JStr("location_" + IntToString(index + 1))),
        OrElse(Field(s, "characters"), JArr([])),
        OrElse(Field(s, "items"), JArr([])),
        choices,
        OrElse(Field(s, "is_ending"), OrElse(Field(s, "isEnding"), JBool(index + 1 == total)))))
  }

  /** The scene normaliser for `total` scenes, as the callback of `scenes.map`. */
  function SceneAt(total: nat): (Json, nat) -> Result<NScene, string> {
    (s: Json, j: nat) => NormalizeScene(s, j, total)
  }

  /** `scenes.map(...)` over all `|ss|` scenes. */
  function NormalizeScenes(ss: seq<Json>): (r: Result<seq<NScene>, string>)
    ensures r.Success? ==> |r.value| == |ss|
  {
    MapResult(ss, SceneAt(|ss|), 0)
  }

  /** The quest the store builds from the parsed reply `data`, stamped with `now`. */
  function NormalizeQuest(data: Json, i: Input, now: string): (r: Result<NQuest, string>)
    ensures r.Success? ==> !data.JNull?
    ensures r.Success? ==> r.value.id == now && r.value.startingPoint == i.startingPoint
    ensures r.Success? ==> r.value.setting == EffectiveSetting(i) && r.value.questStyle == EffectiveStyle(i)
  {
    if data.JNull? then Failure(TypeErrorOnNull)
    else
      var sceneList :- ListOrEmpty(Field(data, "scenes"));
      var scenes :- NormalizeScenes(sceneList);
      Success(NQuest(
        now,
        OrElse(Field(data, "title"), JStr("Сгенерированный квест")),
        OrElse(Field(data, "description"), JStr("Квест, созданный нейронной сетью")),
        EffectiveSetting(i), EffectiveStyle(i), i.startingPoint,
        scenes,
        OrElse(Field(data, "characters"), JArr([])),
        OrElse(Field(data, "locations"), JArr([])),
        OrElse(Field(data, "items"), JArr([]))))
  }

  /** Normalisation keeps the number and order of scenes (none when `scenes` is
      missing or falsy) and of each scene's choices, and the last scene is always an
      ending. */
  lemma NormalizeKeepsShape(data: Json, i: Input, now: string)
    requires NormalizeQuest(data, i, now).Success?
    ensures var q := NormalizeQuest(data, i, now).value;
      var list := ListOrEmpty(Field(data, "scenes")).value;
      |q.scenes| == |list| &&
      (forall k :: 0 <= k < |list| ==>
        NormalizeScene(list[k], k, |list|).Success? &&
        q.scenes[k] == NormalizeScene(list[k], k, |list|).value) &&
      (forall k :: 0 <= k < |list| ==>
        |q.scenes[k].choices| == |ListOrEmpty(Field(list[k], "choices")).value|) &&
      (|q.scenes| > 0 ==> JsTruthy(q.scenes[|q.scenes| - 1].isEnding))
    ensures !Truthy(Field(data, "scenes")) ==> NormalizeQuest(data, i, now).value.scenes == []
  {
    var q := NormalizeQuest(data, i, now).value;
    var list := ListOrEmpty(Field(data, "scenes")).value;
    assert q.scenes == NormalizeScenes(list).value;
    MapResultElements(list, SceneAt(|list|), 0);
    forall k | 0 <= k < |list|
      ensures NormalizeScene(list[k], k, |list|).Success?
      ensures q.scenes[k] == NormalizeScene(list[k], k, |list|).value
    {
      assert SceneAt(|list|)(list[k], 0 + k) == NormalizeScene(list[k], k, |list|);
    }
    if |list| > 0 {
      var last := |list| - 1;
      assert q.scenes[last] == NormalizeScene(list[last], last, |list|).value;
    }
  }

  /** A scene without `scene_id` gets `scene_{index+1}`, whatever `id` it carries. */
  lemma PlainIdIgnored(fields: map<string, Json>, index: nat, total: nat)
    requires "scene_id" !in fields && NormalizeScene(JObj(fields), index, total).Success?
    ensures NormalizeScene(JObj(fields), index, total).value.id == JStr(SceneDefaultId(index))
  {
  }

  /** A choice without any id or target gets `choice_{index}_{choiceIndex}` and a
      `null` next scene. */
  lemma BareChoiceDefaults(index: nat, choiceIndex: nat)
    ensures NormalizeChoice(JObj(map[]), index, choiceIndex) ==
      Success(NChoice(JStr(ChoiceDefaultId(index, choiceIndex)), JStr(""), JNull, JArr([]), JNull))
  {
  }

  // ---------------------------------------------------------------------------
  // generateQuest

  /** The Ollama request's outcome: the request failed; or a response arrived with its
      `ok` flag, its status and, when it has a body, the body's text chunks; or an ok
      response arrived whose body reader rejected part-way through the stream. */
  datatype OllamaReply =
    | FetchFailed
    | Reply(ok: bool, status: int, body: Option<seq<string>>)
    | ReadFailed

  /** The try block of `generateQuest`: send the prompt, read the streamed reply, parse
      it, normalise it. Any failure is an exception the catch block handles. */
  function Attempt(i: Input, ollama: string -> OllamaReply, parseLine: string -> Option<Json>,
                   parseReply: string -> Option<Json>, now: string): (r: Result<NQuest, string>)
    ensures r.Success? ==> ollama(Prompt(i)).Reply? && ollama(Prompt(i)).ok
    ensures ollama(Prompt(i)).FetchFailed? || ollama(Prompt(i)).ReadFailed? ==> r.Failure?
    ensures r.Success? ==> r.value.id == now && r.value.startingPoint == i.startingPoint
    ensures r.Success? ==> r.value.setting == EffectiveSetting(i)
  {
    var reply := ollama(Prompt(i));
    if reply.FetchFailed? then Failure("TypeError: Failed to fetch")
    else if reply.ReadFailed? then Failure("TypeError: network error")
    else if !reply.ok then Failure("Ошибка API Ollama: " + IntToString(reply.status))
    else
      var full := if reply.body.Some? then StreamText(parseLine, reply.body.value) else "";
      var data := parseReply(full);
      if data.None? then Failure("Модель вернула некорректный JSON")
      else NormalizeQuest(data.value, i, now)
  }

  /** What the store keeps: the normalised reply, or the fixed fallback quest. */
  datatype StoredQuest = Generated(quest: NQuest) | Fallback(mock: QuestTypes.Quest)

  /** `generateQuest`. A rejected input only sets `error`. Otherwise the attempt's quest
      is stored, and when the attempt fails the fallback quest is stored instead, built
      from the raw `setting` and `questStyle` (no custom substitution); either way
      loading ends with no error. */
  method GenerateQuest(st: State<StoredQuest>, ollama: string -> OllamaReply,
                       parseLine: string -> Option<Json>, parseReply: string -> Option<Json>,
                       now: string) returns (r: State<StoredQuest>)
    ensures Validate(st.input).Some? ==> r == Rejected(st, Validate(st.input).value)
    ensures Validate(st.input).None? ==>
      r.input == st.input && !r.isLoading && r.error.None? && r.generatedQuest.Some?
    ensures Validate(st.input).None? && Attempt(st.input, ollama, parseLine, parseReply, now).Success? ==>
      r.generatedQuest == Some(Generated(Attempt(st.input, ollama, parseLine, parseReply, now).value))
    ensures Validate(st.input).None? && Attempt(st.input, ollama, parseLine, parseReply, now).Failure? ==>
      r.generatedQuest.Some? && r.generatedQuest.value.Fallback? &&
      r.generatedQuest.value.mock.setting == st.input.setting &&
      r.generatedQuest.value.mock.questStyle == st.input.questStyle &&
      r.generatedQuest.value.mock.startingPoint == st.input.startingPoint &&
      |r.generatedQuest.value.mock.scenes| == 18 &&
      QuestTypes.ReferentiallyClosed(r.generatedQuest.value.mock.scenes)
  {
    var rejection := Validate(st.input);
    if rejection.Some? {
      return Rejected(st, rejection.value);
    }
    var loading := st.(isLoading := true, error := None);
    var attempt := Attempt(st.input, ollama, parseLine, parseReply, now);
    if attempt.Success? {
      r := loading.(generatedQuest := Some(Generated(attempt.value)), isLoading := false);
    } else {
      var mock := StoreMock.MockQuest(st.input.setting, st.input.questStyle, st.input.startingPoint);
      r := loading.(generatedQuest := Some(Fallback(mock)), isLoading := false);
    }
  }
}
