/** The store of frontend/src/store/generatorStore.ts. The file holds an unresolved
    merge: the HEAD side waits and stores the fixed quest, the `6b47bff` side posts the
    input to the backend's `/api/generate-quest` and maps the reply into the frontend's
    quest record. Both sides are modelled, each under its own name.

    The outcome of the `fetch` call (a thrown error, a failed response with its JSON
    body, or a successful response with its quest) is a parameter. */
module StoreFrontend {
  import opened Wrappers
  import opened Json
  import opened JsValue
  import opened StoreInput
  import opened ApiTypes
  import QuestTypes
  import StoreMock
  import MonoBackend

  // ---------------------------------------------------------------------------
  // HEAD side

  const NoStartingPoint := "Необходимо указать отправную точку"
  const HeadFailure := "Произошла ошибка при генерации квеста"

  /** HEAD validation: a starting point is required whatever the input method. */
  function HeadValidate(i: Input): (r: Option<string>)
    ensures r.Some? <==> i.startingPoint == ""
    ensures r.Some? ==> r.value == NoStartingPoint
  {
    if i.startingPoint == "" then Some(NoStartingPoint) else None
  }

  /** HEAD `generateQuest`. A rejected input only sets `error`. Otherwise the fixed quest
      is stored, built from the raw input values. The catch block is reached only if
      the environment fails while waiting (`interrupted`); it sets the fixed failure
      message, ends loading and keeps the previous quest. */
  method HeadGenerateQuest(st: State<QuestTypes.Quest>, interrupted: bool)
    returns (r: State<QuestTypes.Quest>)
    ensures HeadValidate(st.input).Some? ==> r == Rejected(st, NoStartingPoint)
    ensures HeadValidate(st.input).None? ==> r.input == st.input && !r.isLoading
    ensures HeadValidate(st.input).None? && interrupted ==>
      r.error == Some(HeadFailure) && r.generatedQuest == st.generatedQuest
    ensures HeadValidate(st.input).None? && !interrupted ==>
      r.error.None? && r.generatedQuest.Some? &&
      r.generatedQuest.value.setting == st.input.setting &&
      r.generatedQuest.value.questStyle == st.input.questStyle &&
      r.generatedQuest.value.startingPoint == st.input.startingPoint &&
      |r.generatedQuest.value.scenes| == 18 &&
      QuestTypes.ReferentiallyClosed(r.generatedQuest.value.scenes)
  {
    var rejection := HeadValidate(st.input);
    if rejection.Some? {
      return Rejected(st, rejection.value);
    }
    var loading := st.(isLoading := true, error := None);
    if interrupted {
      r := loading.(error := Some(HeadFailure), isLoading := false);
    } else {
      var mock := StoreMock.MockQuest(st.input.setting, st.input.questStyle, st.input.startingPoint);
      r := loading.(generatedQuest := Some(mock), isLoading := false);
    }
  }

  // ---------------------------------------------------------------------------
  // 6b47bff side: validation

  const NoFile := "Необходимо загрузить файл"

  /** Validation of the `6b47bff` side: form input needs a starting point, file input
      needs file content, and any other input method is not checked. */
  function Validate(i: Input): (r: Option<string>)
    ensures i.inputMethod == Some("form") ==> (r.Some? <==> i.startingPoint == "")
    ensures i.inputMethod == Some("file") ==> (r.Some? <==> Blank(i.fileContent))
    ensures i.inputMethod != Some("form") && i.inputMethod != Some("file") ==> r.None?
    ensures r.Some? ==> r.value == (if i.inputMethod == Some("form") then NoStartingPoint else NoFile)
  {
    CheckInput(i, NoStartingPoint, NoFile)
  }

  /** The two sides agree on form input, and differ on file input: HEAD asks for a
      starting point that a file does not need, and does not ask for the file. */
  lemma SidesCompared(i: Input)
    ensures i.inputMethod == Some("form") ==> HeadValidate(i) == Validate(i)
    ensures i.inputMethod == Some("file") && i.startingPoint == "" && !Blank(i.fileContent) ==>
      HeadValidate(i).Some? && Validate(i).None?
    ensures i.inputMethod == Some("file") && i.startingPoint != "" && Blank(i.fileContent) ==>
      HeadValidate(i).None? && Validate(i).Some?
  {
  }

  // ---------------------------------------------------------------------------
  // 6b47bff side: the request

  /** A string-valued key of a JSON object. */
  function StrKey(body: map<string, Json>, key: string): Option<string> {
    if key in body && body[key].JStr? then Some(body[key].s) else None
  }

  /** Adding a key for an optional string: left out when the value is `undefined`,
      since `JSON.stringify` drops such keys. */
  function Put(m: map<string, Json>, key: string, o: Option<string>): (r: map<string, Json>)
    ensures StrKey(r, key) == o
    ensures forall k :: k != key ==> StrKey(r, k) == StrKey(m, k)
    ensures r.Keys <= m.Keys + {key}
  {
    if o.Some? then m[key := JStr(o.value)] else m - {key}
  }

  /** The request body: the seven input fields under their snake_case keys; an
      optional field that is `undefined` has no key. */
  function RequestBody(i: Input): (body: map<string, Json>)
    ensures StrKey(body, "setting") == Some(i.setting)
    ensures StrKey(body, "starting_point") == Some(i.startingPoint)
    ensures StrKey(body, "quest_style") == Some(i.questStyle)
    ensures StrKey(body, "custom_setting") == i.customSetting
    ensures StrKey(body, "custom_quest_style") == i.customQuestStyle
    ensures StrKey(body, "file_content") == i.fileContent
    ensures StrKey(body, "input_method") == i.inputMethod
  {
    var m0 := map["setting" := JStr(i.setting), "starting_point" := JStr(i.startingPoint),
                  "quest_style" := JStr(i.questStyle)];
    assert StrKey(m0, "setting") == Some(i.setting);
    assert StrKey(m0, "starting_point") == Some(i.startingPoint);
    assert StrKey(m0, "quest_style") == Some(i.questStyle);
    var m1 := Put(m0, "custom_setting", i.customSetting);
    var m2 := Put(m1, "custom_quest_style", i.customQuestStyle);
    var m3 := Put(m2, "file_content", i.fileContent);
    Put(m3, "input_method", i.inputMethod)
  }

  /** The backend reading a string-valued body into its request record: the three
      required keys must be present, the optional ones default to `None`, and
      `input_method` defaults to "form". */
  function ReadRequest(body: map<string, Json>): (r: Option<QuestRequest>)
    ensures r.Some? <==> (StrKey(body, "setting").Some? && StrKey(body, "starting_point").Some? &&
      StrKey(body, "quest_style").Some?)
  {
    if StrKey(body, "setting").None? || StrKey(body, "starting_point").None? ||
       StrKey(body, "quest_style").None? then None
    else
      Some(QuestRequest(
        StrKey(body, "setting").value, StrKey(body, "starting_point").value,
        StrKey(body, "quest_style").value,
        StrKey(body, "custom_setting"), StrKey(body, "custom_quest_style"),
        StrKey(body, "file_content"), StrKey(body, "input_method").GetOr("form")))
  }

  /** The request the backend sees for an input. */
  function Sent(i: Input): QuestRequest {
    QuestRequest(i.setting, i.startingPoint, i.questStyle, i.customSetting,
      i.customQuestStyle, i.fileContent, i.inputMethod.GetOr("form"))
  }

  /** Every input field the body carries arrives unchanged; a missing input method
      arrives as the backend's default, "form". */
  lemma RequestRoundTrip(i: Input)
    ensures ReadRequest(RequestBody(i)) == Some(Sent(i))
  {
  }

  /** The advanced form settings (goal, themes, counts, complexity, tone) never reach
      the request. */
  lemma AdvancedSettingsNotSent(i: Input, p: Patch)
    requires WellTyped(p)
    requires forall k :: k in p ==> k in {MainGoal, Themes, SceneCount, CharacterCount, Complexity, Tone}
    ensures RequestBody(SetInput(i, p)) == RequestBody(i)
  {
    var j := SetInput(i, p);
    assert Get(j, Setting) == Get(i, Setting) && Get(j, StartingPoint) == Get(i, StartingPoint);
    assert Get(j, QuestStyle) == Get(i, QuestStyle);
    assert Get(j, CustomSetting) == Get(i, CustomSetting);
    assert Get(j, CustomQuestStyle) == Get(i, CustomQuestStyle);
    assert Get(j, FileContent) == Get(i, FileContent);
    assert Get(j, InputMethod) == Get(i, InputMethod);
  }

  /** Whatever this side rejects, the backend rejects too, with the same message; for
      form input and for a missing file the two agree exactly. The backend adds the
      size and character checks. */
  lemma BackendAgreesWithFrontendChecks(i: Input)
    requires i.inputMethod.Some?
    ensures Validate(i).Some? ==>
      MonoBackend.Validate(Sent(i)).Some? && MonoBackend.Validate(Sent(i)).value.detail == Validate(i).value
    ensures MonoBackend.Validate(Sent(i)).None? ==> Validate(i).None?
  {
  }

  // ---------------------------------------------------------------------------
  // 6b47bff side: the response

  function FromApiChoice(c: ApiChoice): (r: QuestTypes.Choice)
    ensures r.nextSceneId == Some(c.nextSceneId)
  {
    QuestTypes.Choice(c.id, c.text, Some(c.nextSceneId), c.requiredItems, c.consequence)
  }

  function FromApiScene(s: ApiScene): (r: QuestTypes.Scene)
    ensures |r.choices| == |s.choices|
    ensures forall k :: 0 <= k < |s.choices| ==> r.choices[k] == FromApiChoice(s.choices[k])
  {
    QuestTypes.Scene(s.id, s.title, s.description, s.locationId, s.characters, s.items,
      seq(|s.choices|, k requires 0 <= k < |s.choices| => FromApiChoice(s.choices[k])),
      s.isEnding)
  }

  function ToApiCharacter(c: QuestTypes.Character): ApiCharacter {
    ApiCharacter(c.id, c.name, c.role, c.description, c.motivation, c.isEnemy, c.isAlly)
  }

  function ToApiLocation(l: QuestTypes.Location): ApiLocation {
    ApiLocation(l.id, l.name, l.description, l.characters, l.items)
  }

  function ToApiItem(t: QuestTypes.Item): ApiItem {
    ApiItem(t.id, t.name, t.description, t.isKey, t.effect)
  }

  /** Characters, locations and items are copied field by field: each mapping is
      undone by the mapping back, in both directions, so nothing is lost or defaulted. */
  function FromApiCharacter(c: ApiCharacter): (r: QuestTypes.Character)
    ensures ToApiCharacter(r) == c
    ensures forall f: QuestTypes.Character {:trigger ToApiCharacter(f)} :: ToApiCharacter(f) == c ==> f == r
  {
    QuestTypes.Character(c.id, c.name, c.role, c.description, c.motivation, c.isEnemy, c.isAlly)
  }

  function FromApiLocation(l: ApiLocation): (r: QuestTypes.Location)
    ensures ToApiLocation(r) == l
    ensures forall f: QuestTypes.Location {:trigger ToApiLocation(f)} :: ToApiLocation(f) == l ==> f == r
  {
    QuestTypes.Location(l.id, l.name, l.description, l.characters, l.items)
  }

  function FromApiItem(t: ApiItem): (r: QuestTypes.Item)
    ensures ToApiItem(r) == t
    ensures forall f: QuestTypes.Item {:trigger ToApiItem(f)} :: ToApiItem(f) == t ==> f == r
  {
    QuestTypes.Item(t.id, t.name, t.description, t.isKey, t.effect)
  }

  /** The response mapping: every camelCase field is its snake_case source, with no
      defaults, and every list keeps its length and order. */
  function FromApi(q: ApiQuest): (r: QuestTypes.Quest)
    ensures r.id == q.id && r.setting == q.setting && r.questStyle == q.questStyle
    ensures r.startingPoint == q.startingPoint
    ensures |r.scenes| == |q.scenes| && |r.characters| == |q.characters|
    ensures |r.locations| == |q.locations| && |r.items| == |q.items|
    ensures forall k :: 0 <= k < |q.scenes| ==> r.scenes[k] == FromApiScene(q.scenes[k])
  {
    QuestTypes.Quest(q.id, q.title, q.description, q.setting, q.questStyle, q.startingPoint,
      seq(|q.scenes|, k requires 0 <= k < |q.scenes| => FromApiScene(q.scenes[k])),
      seq(|q.characters|, k requires 0 <= k < |q.characters| => FromApiCharacter(q.characters[k])),
      seq(|q.locations|, k requires 0 <= k < |q.locations| => FromApiLocation(q.locations[k])),
      seq(|q.items|, k requires 0 <= k < |q.items| => FromApiItem(q.items[k])))
  }

  /** The inverse mapping, for quests whose choices all name a next scene. */
  predicate AllTargetsSet(q: QuestTypes.Quest) {
    forall i, j :: 0 <= i < |q.scenes| && 0 <= j < |q.scenes[i].choices| ==>
      q.scenes[i].choices[j].nextSceneId.Some?
  }

  function ToApiScene(s: QuestTypes.Scene): ApiScene
    requires forall j :: 0 <= j < |s.choices| ==> s.choices[j].nextSceneId.Some?
  {
    ApiScene(s.id, s.title, s.description, s.locationId, s.characters, s.items,
      seq(|s.choices|, j requires 0 <= j < |s.choices| =>
        ApiChoice(s.choices[j].id, s.choices[j].text, s.choices[j].nextSceneId.value,
          s.choices[j].requiredItems, s.choices[j].consequence)),
      s.isEnding)
  }

  function ToApi(q: QuestTypes.Quest): ApiQuest
    requires AllTargetsSet(q)
  {
    ApiQuest(q.id, q.title, q.description, q.setting, q.questStyle, q.startingPoint,
      seq(|q.scenes|, k requires 0 <= k < |q.scenes| => ToApiScene(q.scenes[k])),
      seq(|q.characters|, k requires 0 <= k < |q.characters| => ToApiCharacter(q.characters[k])),
      seq(|q.locations|, k requires 0 <= k < |q.locations| => ToApiLocation(q.locations[k])),
      seq(|q.items|, k requires 0 <= k < |q.items| => ToApiItem(q.items[k])))
  }

  /** The mapping loses nothing: mapping back gives the backend's quest, and a frontend
      quest whose choices all have targets comes back unchanged. */
  lemma FromApiRoundTrip(q: ApiQuest, f: QuestTypes.Quest)
    ensures AllTargetsSet(FromApi(q)) && ToApi(FromApi(q)) == q
    ensures AllTargetsSet(f) ==> FromApi(ToApi(f)) == f
  {
    var r := FromApi(q);
    forall k | 0 <= k < |q.scenes|
      ensures ToApiScene(r.scenes[k]) == q.scenes[k]
    {
      assert ToApiScene(r.scenes[k]).choices == q.scenes[k].choices;
    }
    assert ToApi(r).scenes == q.scenes;
    assert ToApi(r).characters == q.characters;
    assert ToApi(r).locations == q.locations;
    assert ToApi(r).items == q.items;
    if AllTargetsSet(f) {
      var a := ToApi(f);
      forall k | 0 <= k < |f.scenes|
        ensures FromApiScene(a.scenes[k]) == f.scenes[k]
      {
        assert FromApiScene(a.scenes[k]).choices == f.scenes[k].choices;
      }
      assert FromApi(a).scenes == f.scenes;
      assert FromApi(a).characters == f.characters;
      assert FromApi(a).locations == f.locations;
      assert FromApi(a).items == f.items;
    }
  }

  /** A quest closed on the backend's side is closed on the frontend's side, and the
      other way round. */
  lemma FromApiKeepsClosure(q: ApiQuest)
    ensures ApiClosed(q.scenes) <==> QuestTypes.ReferentiallyClosed(FromApi(q).scenes)
  {
    var r := FromApi(q);
    forall id: string
      ensures HasApiScene(q.scenes, id) <==> QuestTypes.HasScene(r.scenes, id)
    {
      if HasApiScene(q.scenes, id) {
        var k :| 0 <= k < |q.scenes| && q.scenes[k].id == id;
        assert r.scenes[k].id == id;
      }
      if QuestTypes.HasScene(r.scenes, id) {
        var k :| 0 <= k < |r.scenes| && r.scenes[k].id == id;
        assert q.scenes[k].id == id;
      }
    }
  }

  // ---------------------------------------------------------------------------
  // 6b47bff side: generateQuest

  /** The outcome of the `fetch` call: an error thrown on the way (network failure, or
      a body that is not JSON), a response that is not ok with its parsed JSON body, or
      an ok response carrying the backend's quest. */
  datatype FetchOutcome = Threw(message: string) | NotOk(errorData: Json) | Ok(quest: ApiQuest)

  const GenericFailure := "Ошибка при генерации квеста"

  /** The JSON body of an `ErrorBody`. */
  function ErrorBodyJson(b: ErrorBody): (j: Json)
    ensures j.JObj? && "detail" !in j.fields
    ensures "message" in j.fields && j.fields["message"] == JStr(b.message)
  {
    JObj(map["code" := JNum(b.code), "message" := JStr(b.message),
             "details" := if b.details.Some? then JStr(b.details.value) else JNull])
  }

  /** The error text as written: the thrown message, or for a failed response its
      `detail` when truthy and the generic text otherwise. */
  function ErrorTextAsWritten(o: FetchOutcome): (e: string)
    requires !o.Ok?
    ensures o.Threw? ==> e == o.message
    ensures o.NotOk? && o.errorData.JObj? && !Truthy(Field(o.errorData, "detail")) ==> e == GenericFailure
  {
    match o
    case Threw(m) => m
    case NotOk(d) =>
      if d.JNull? then TypeErrorOnNull
      else
        var detail := Field(d, "detail");
        if Truthy(detail) then ToJsString(detail.value) else GenericFailure
  }

  /** The backend's error bodies carry `message`, never `detail`, so as written every
      error the backend reports reaches the user as the generic text. */
  lemma BackendMessageNeverShown(e: HttpError)
    ensures ErrorTextAsWritten(NotOk(ErrorBodyJson(HandlerBody(e)))) == GenericFailure
  {
  }

  /** The error text reading the key the backend sends: `detail` when truthy, else
      `message` when truthy, else the generic text. */
  function ErrorText(o: FetchOutcome): (e: string)
    requires !o.Ok?
    ensures o.Threw? ==> e == o.message
    ensures (o.NotOk? && o.errorData.JObj? && !Truthy(Field(o.errorData, "detail")) &&
      Truthy(Field(o.errorData, "message"))) ==> e == ToJsString(Field(o.errorData, "message").value)
  {
    match o
    case Threw(m) => m
    case NotOk(d) =>
      if d.JNull? then TypeErrorOnNull
      else
        var detail := Field(d, "detail");
        var message := Field(d, "message");
        if Truthy(detail) then ToJsString(detail.value)
        else if Truthy(message) then ToJsString(message.value)
        else GenericFailure
  }

  /** With the key read, the user sees exactly the detail the backend raised. */
  lemma BackendMessageShown(e: HttpError)
    requires e.detail != ""
    ensures ErrorText(NotOk(ErrorBodyJson(HandlerBody(e)))) == e.detail
  {
  }

  /** The text a failed request leaves in `error`: as written, or reading the key the
      backend sends. */
  function ShownError(o: FetchOutcome, corrected: bool): string
    requires !o.Ok?
  {
    if corrected then ErrorText(o) else ErrorTextAsWritten(o)
  }

  /** The shared shape of `generateQuest` on the `6b47bff` side. A rejected input only
      sets `error`. An ok response stores its mapped quest; any failure sets the error
      text and keeps the previous quest. Loading ends either way. */
  function Generate(st: State<QuestTypes.Quest>, outcome: FetchOutcome, corrected: bool)
    : (r: State<QuestTypes.Quest>)
    ensures Validate(st.input).Some? ==> r == Rejected(st, Validate(st.input).value)
    ensures Validate(st.input).None? ==> r.input == st.input && !r.isLoading
    ensures Validate(st.input).None? && outcome.Ok? ==>
      r.generatedQuest == Some(FromApi(outcome.quest)) && r.error.None?
    ensures Validate(st.input).None? && !outcome.Ok? ==>
      r.generatedQuest == st.generatedQuest && r.error == Some(ShownError(outcome, corrected))
  {
    match Validate(st.input)
    case Some(message) => Rejected(st, message)
    case None =>
      var loading := st.(isLoading := true, error := None);
      match outcome
      case Ok(q) => loading.(generatedQuest := Some(FromApi(q)), isLoading := false)
      case _ => loading.(error := Some(ShownError(outcome, corrected)), isLoading := false)
  }

  /** `generateQuest` of the `6b47bff` side as written (with `ErrorTextAsWritten`). */
  function GenerateQuest(st: State<QuestTypes.Quest>, outcome: FetchOutcome)
    : (r: State<QuestTypes.Quest>)
    ensures Validate(st.input).Some? ==> r == Rejected(st, Validate(st.input).value)
    ensures Validate(st.input).None? ==> r.input == st.input && !r.isLoading
    ensures Validate(st.input).None? && outcome.Ok? ==>
      r.generatedQuest == Some(FromApi(outcome.quest)) && r.error.None?
    ensures Validate(st.input).None? && !outcome.Ok? ==>
      r.generatedQuest == st.generatedQuest && r.error == Some(ErrorTextAsWritten(outcome))
  {
    Generate(st, outcome, false)
  }

  /** `generateQuest` reading the `message` key the backend sends (with `ErrorText`). */
  function GenerateQuestCorrected(st: State<QuestTypes.Quest>, outcome: FetchOutcome)
    : (r: State<QuestTypes.Quest>)
    ensures Validate(st.input).None? && !outcome.Ok? ==>
      r.generatedQuest == st.generatedQuest && r.error == Some(ErrorText(outcome))
    ensures !outcome.NotOk? ==> r == GenerateQuest(st, outcome)
  {
    Generate(st, outcome, true)
  }

  /** As written, end to end: a file the backend refuses gets past this side's check,
      the backend answers with a 500, and the user reads only the generic text. */
  lemma BackendRejectionHiddenAsWritten(st: State<QuestTypes.Quest>, extract: string -> MonoBackend.FileCaptures)
    requires Validate(st.input).None?
    requires MonoBackend.Validate(Sent(st.input)).Some?
    ensures var out := MonoBackend.GenerateQuestAsWritten(Sent(st.input), extract);
      out.Failure? && out.error.status == 500 &&
      GenerateQuest(st, NotOk(ErrorBodyJson(HandlerBody(out.error)))).error == Some(GenericFailure)
  {
    var out := MonoBackend.GenerateQuestAsWritten(Sent(st.input), extract);
    BackendMessageNeverShown(out.error);
  }

  /** Corrected, end to end: with the backend passing its 400 through and this side
      reading `message`, a file the backend refuses (too large, or with characters it
      does not accept) gets past this side's check, and the user then reads the
      backend's own reason. */
  lemma BackendRejectionReachesUser(st: State<QuestTypes.Quest>, extract: string -> MonoBackend.FileCaptures)
    requires Validate(st.input).None?
    requires MonoBackend.Validate(Sent(st.input)).Some?
    ensures var e := MonoBackend.GenerateQuest(Sent(st.input), extract).error;
      GenerateQuestCorrected(st, NotOk(ErrorBodyJson(HandlerBody(e)))).error ==
        Some(MonoBackend.Validate(Sent(st.input)).value.detail)
  {
    var e := MonoBackend.GenerateQuest(Sent(st.input), extract).error;
    assert e.detail != "";
  }
}
