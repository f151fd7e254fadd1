/** The event sequence of `stream_generator` in backend/main.py. The language-model
    stages are inputs: each is the value the stage returned or the text of the
    exception it raised. The scene stage is also modelled end to end, from the parsed
    model answer through validation and reference repair. */
module BackendStream {
  import opened Wrappers
  import opened Text
  import opened Json
  import opened BackendRepair
  import opened BackendFallback

  /** One event of the stream, before JSON encoding. */
  datatype Event =
    | Status(message: string)
    | TitleEvent(title: string)
    | DescriptionEvent(text: string)
    | CharactersEvent(characters: seq<Json>)
    | LocationsEvent(locations: seq<Json>)
    | ItemsEvent(items: seq<Json>)
    | SceneEvent(scene: Json, sceneNumber: int, totalScenes: int)
    | Complete(message: string)
    | ErrorEvent(message: string)

  /** The `type` field of the event's JSON object. */
  function Kind(e: Event): string {
    match e
    case Status(_) => "status"
    case TitleEvent(_) => "title"
    case DescriptionEvent(_) => "description"
    case CharactersEvent(_) => "characters"
    case LocationsEvent(_) => "locations"
    case ItemsEvent(_) => "items"
    case SceneEvent(_, _, _) => "scene"
    case Complete(_) => "complete"
    case ErrorEvent(_) => "error"
  }

  /** The object the generator passes to `json.dumps`: the kind, the content, and for
      a scene its 1-based number and the scene total. */
  function EventJson(e: Event): (r: Json)
    ensures r.JObj? && "type" in r.fields && r.fields["type"] == JStr(Kind(e))
    ensures "content" in r.fields
    ensures e.SceneEvent? <==> "scene_number" in r.fields
    ensures e.SceneEvent? ==>
      (r.fields["scene_number"] == JNum(e.sceneNumber) &&
       "total_scenes" in r.fields && r.fields["total_scenes"] == JNum(e.totalScenes))
  {
    match e
    case Status(m) => JObj(map["type" := JStr("status"), "content" := JStr(m)])
    case TitleEvent(t) => JObj(map["type" := JStr("title"), "content" := JStr(t)])
    case DescriptionEvent(d) => JObj(map["type" := JStr("description"), "content" := JStr(d)])
    case CharactersEvent(cs) => JObj(map["type" := JStr("characters"), "content" := JArr(cs)])
    case LocationsEvent(ls) => JObj(map["type" := JStr("locations"), "content" := JArr(ls)])
    case ItemsEvent(its) => JObj(map["type" := JStr("items"), "content" := JArr(its)])
    case SceneEvent(s, n, t) =>
      JObj(map["type" := JStr("scene"), "content" := s, "scene_number" := JNum(n), "total_scenes" := JNum(t)])
    case Complete(m) => JObj(map["type" := JStr("complete"), "content" := JStr(m)])
    case ErrorEvent(m) => JObj(map["type" := JStr("error"), "content" := JStr(m)])
  }

  /** The quest title: the title-cased setting key, or the custom setting as Python
      formats it (`None` when absent). */
  function StreamTitle(setting: string, customSetting: Option<string>): (r: string)
    ensures setting != "custom" ==> r == "Квест: " + Title(setting)
    ensures setting == "custom" && customSetting.Some? ==> r == "Квест: " + customSetting.value
    ensures setting == "custom" && customSetting.None? ==> r == "Квест: None"
  {
    "Квест: " + (if setting != "custom" then Title(setting) else customSetting.GetOr("None"))
  }

  /** The title event names the chosen setting: after the "Квест: " prefix comes the
      setting itself, letter for letter up to case. */
  lemma StreamTitleNamesSetting(setting: string, customSetting: Option<string>)
    requires setting != "custom"
    ensures var r := StreamTitle(setting, customSetting);
      StartsWith(r, "Квест: ") && |r| == 7 + |setting| && Lower(r[7..]) == Lower(setting)
  {
    var r := StreamTitle(setting, customSetting);
    TitleKeepsLetters(setting);
    assert r[7..] == Title(setting);
  }

  /** What each generation stage produced: its value, or the text of the exception it
      raised. The description stage catches its own errors and always has a value. */
  datatype Stages = Stages(
    description: string,
    characters: Result<seq<Json>, string>,
    locations: Result<seq<Json>, string>,
    items: Result<seq<Json>, string>,
    scenes: Result<seq<Json>, string>)

  /** One event per scene, numbered from 1, each carrying the total. */
  function SceneEvents(scenes: seq<Json>): (r: seq<Event>)
    ensures |r| == |scenes|
    ensures forall i :: 0 <= i < |r| ==> r[i] == SceneEvent(scenes[i], i + 1, |scenes|)
  {
    seq(|scenes|, i requires 0 <= i < |scenes| => SceneEvent(scenes[i], i + 1, |scenes|))
  }

  function Failed(message: string): Event {
    ErrorEvent("Ошибка: " + message)
  }

  /** `stream_generator`: status, title, status, description, then for each of the
      characters, locations, items and scenes a status followed by the stage's result,
      then `complete`. An exception ends the stream with a single error event. */
  function StreamEvents(setting: string, customSetting: Option<string>, st: Stages): seq<Event> {
    var opening := [
      Status("Начинаем генерацию квеста..."),
      TitleEvent(StreamTitle(setting, customSetting)),
      Status("Создаём описание сюжета..."),
      DescriptionEvent(st.description),
      Status("Создаём персонажей...")];
    match st.characters
    case Failure(e) => opening + [Failed(e)]
    case Success(cs) =>
      var a := opening + [CharactersEvent(cs), Status("Создаём локации...")];
      match st.locations
      case Failure(e) => a + [Failed(e)]
      case Success(ls) =>
        var b := a + [LocationsEvent(ls), Status("Создаём предметы...")];
        match st.items
        case Failure(e) => b + [Failed(e)]
        case Success(its) =>
          var c := b + [ItemsEvent(its), Status("Создаём сцены...")];
          match st.scenes
          case Failure(e) => c + [Failed(e)]
          case Success(ss) => c + SceneEvents(ss) + [Complete("Квест успешно создан!")]
  }

  function Kinds(es: seq<Event>): (r: seq<string>)
    ensures |r| == |es| && forall i :: 0 <= i < |es| ==> r[i] == Kind(es[i])
  {
    seq(|es|, i requires 0 <= i < |es| => Kind(es[i]))
  }

  function Repeat(s: string, n: nat): (r: seq<string>)
    ensures |r| == n && forall i :: 0 <= i < n ==> r[i] == s
  {
    seq(n, i requires 0 <= i < n => s)
  }

  /** The kinds before the first scene event. */
  const OpeningKinds: seq<string> := [
    "status", "title", "status", "description", "status", "characters",
    "status", "locations", "status", "items", "status"]

  predicate AllSucceed(st: Stages) {
    st.characters.Success? && st.locations.Success? && st.items.Success? && st.scenes.Success?
  }

  /** The eleven events before the first scene event when every stage succeeds. */
  function OpeningEvents(setting: string, customSetting: Option<string>, st: Stages): (r: seq<Event>)
    requires AllSucceed(st)
    ensures |r| == 11
  {
    [Status("Начинаем генерацию квеста..."),
     TitleEvent(StreamTitle(setting, customSetting)),
     Status("Создаём описание сюжета..."),
     DescriptionEvent(st.description),
     Status("Создаём персонажей..."),
     CharactersEvent(st.characters.value), Status("Создаём локации..."),
     LocationsEvent(st.locations.value), Status("Создаём предметы..."),
     ItemsEvent(st.items.value), Status("Создаём сцены...")]
  }

  lemma SuccessShape(setting: string, customSetting: Option<string>, st: Stages)
    requires AllSucceed(st)
    ensures StreamEvents(setting, customSetting, st) ==
      OpeningEvents(setting, customSetting, st) + SceneEvents(st.scenes.value) +
      [Complete("Квест успешно создан!")]
  {
  }

  /** Without an exception the kinds come in the fixed order, one scene event per scene
      numbered 1..N with total N, and `complete` last. */
  lemma StreamOrderOnSuccess(setting: string, customSetting: Option<string>, st: Stages)
    requires AllSucceed(st)
    ensures var es := StreamEvents(setting, customSetting, st);
      var n := |st.scenes.value|;
      |es| == 12 + n &&
      Kinds(es) == OpeningKinds + Repeat("scene", n) + ["complete"] &&
      (forall i :: 0 <= i < n ==> es[11 + i] == SceneEvent(st.scenes.value[i], i + 1, n)) &&
      es[3] == DescriptionEvent(st.description) &&
      es[5] == CharactersEvent(st.characters.value) &&
      es[7] == LocationsEvent(st.locations.value) &&
      es[9] == ItemsEvent(st.items.value)
  {
    var es := StreamEvents(setting, customSetting, st);
    var opening := OpeningEvents(setting, customSetting, st);
    var scenes := SceneEvents(st.scenes.value);
    var n := |st.scenes.value|;
    SuccessShape(setting, customSetting, st);
    assert Kinds(opening) == OpeningKinds;
    var want := OpeningKinds + Repeat("scene", n) + ["complete"];
    forall i | 0 <= i < |es|
      ensures Kinds(es)[i] == want[i]
    {
      if i < 11 {
        assert es[i] == opening[i];
        assert want[i] == OpeningKinds[i];
      } else if i < 11 + n {
        assert es[i] == scenes[i - 11];
      }
    }
    forall i | 0 <= i < n
      ensures es[11 + i] == SceneEvent(st.scenes.value[i], i + 1, n)
    {
      assert es[11 + i] == scenes[i];
    }
  }

  /** Every stream opens with the start status, the title and the description, and
      closes with exactly one of `complete` (when no stage raised) or `error`. */
  lemma StreamLastEvent(setting: string, customSetting: Option<string>, st: Stages)
    ensures var r := StreamEvents(setting, customSetting, st);
      |r| >= 6 && r[0] == Status("Начинаем генерацию квеста...") &&
      r[1] == TitleEvent(StreamTitle(setting, customSetting)) &&
      r[3] == DescriptionEvent(st.description) &&
      (r[|r| - 1].Complete? || r[|r| - 1].ErrorEvent?) &&
      (r[|r| - 1].Complete? <==> AllSucceed(st))
  {
  }

  /** An exception in a stage ends the stream: the last event is the only error event,
      nothing is completed, and no scene event is sent unless the scenes succeeded. */
  lemma StreamEndsWithOneError(setting: string, customSetting: Option<string>, st: Stages)
    requires !AllSucceed(st)
    ensures var es := StreamEvents(setting, customSetting, st);
      |es| > 0 && es[|es| - 1].ErrorEvent? &&
      (forall i :: 0 <= i < |es| - 1 ==> !es[i].ErrorEvent? && !es[i].Complete? && !es[i].SceneEvent?)
  {
  }

  /** The first stage that fails decides the error text and the length of the stream. */
  lemma StreamErrorIsFirstFailure(setting: string, customSetting: Option<string>, st: Stages)
    requires !AllSucceed(st)
    ensures var es := StreamEvents(setting, customSetting, st);
      if st.characters.Failure? then |es| == 6 && es[5] == Failed(st.characters.error)
      else if st.locations.Failure? then |es| == 8 && es[7] == Failed(st.locations.error)
      else if st.items.Failure? then |es| == 10 && es[9] == Failed(st.items.error)
      else |es| == 12 && es[11] == Failed(st.scenes.error)
  {
  }

  // ---------------------------------------------------------------------------
  // The scene stage

  /** The scenes `generate_scenes` validates: the parsed answer filtered by the scene
      fields, or nothing when the answer is not a list. */
  function ValidatedScenes(parsed: Json): seq<Json> {
    if parsed.JArr? then KeepValid(parsed.items, SceneRequired) else []
  }

  lemma ValidatedScenesHaveIds(parsed: Json)
    ensures forall k :: 0 <= k < |ValidatedScenes(parsed)| ==> HasId(ValidatedScenes(parsed)[k])
  {
    if parsed.JArr? {
      forall k | 0 <= k < |ValidatedScenes(parsed)|
        ensures HasId(ValidatedScenes(parsed)[k])
      {
        var x := ValidatedScenes(parsed)[k];
        KeepValidMembers(parsed.items, SceneRequired, x);
        assert FieldOk(x.fields, SceneRequired[0]);
      }
    }
  }

  /** `generate_scenes` after the answer is parsed: validation, then reference repair. */
  function ScenesStage(parsed: Json, order: seq<Json>): Result<seq<Json>, Raised>
    requires OrderFits(order, ValidatedScenes(parsed))
  {
    FixSceneReferences(ValidatedScenes(parsed), order)
  }

  /** When the answer cannot be parsed the stage falls back to the linear chain of
      `count` scenes and returns it unchanged, whatever the set order. */
  lemma FallbackStageSucceeds(count: int, locations: seq<Json>, characters: seq<Json>, order: seq<Json>)
    requires |locations| > 0 ==> HasId(locations[0])
    requires |characters| > 0 ==> HasId(characters[0])
    requires PyTruthy(FallbackLocationId(locations))
    requires OrderFits(order, FallbackScenes(count, locations, characters))
    ensures var fb := FallbackScenes(count, locations, characters);
      ValidatedScenes(JArr(fb)) == fb &&
      ScenesStage(JArr(fb), order) == Success(fb)
  {
    FallbackScenesPassValidation(count, locations, characters);
    FallbackScenesFixpoint(count, locations, characters, order);
  }
}
