/** The frontend's quest document (frontend/src/types/index.ts, src/types/generator.js):
    the `Setting` and `QuestStyle` vocabularies and the camelCase Quest, Scene, Choice,
    Character, Location and Item records. Optional TypeScript fields are `Option`s;
    records are built with their datatype constructors, which store each argument
    unchanged in the field of the same name, as the JavaScript classes do. */
module QuestTypes {
  import opened Wrappers

  // ---------------------------------------------------------------------------
  // Vocabularies

  datatype Setting =
    Fantasy | Cyberpunk | PostApocalyptic | SciFi | HorrorSetting | Western | CustomSetting

  datatype QuestStyle =
    Detective | Survival | Politics | Adventure | Romance | HorrorStyle | CustomStyle

  /** The string each `Setting` member stands for. */
  function SettingKey(s: Setting): string {
    match s
    case Fantasy => "fantasy"
    case Cyberpunk => "cyberpunk"
    case PostApocalyptic => "post-apocalyptic"
    case SciFi => "sci-fi"
    case HorrorSetting => "horror"
    case Western => "western"
    case CustomSetting => "custom"
  }

  /** The string each `QuestStyle` member stands for. */
  function QuestStyleKey(s: QuestStyle): string {
    match s
    case Detective => "detective"
    case Survival => "survival"
    case Politics => "politics"
    case Adventure => "adventure"
    case Romance => "romance"
    case HorrorStyle => "horror"
    case CustomStyle => "custom"
  }

  /** The members of `Setting` in declaration order. */
  const AllSettings: seq<Setting> :=
    [Fantasy, Cyberpunk, PostApocalyptic, SciFi, HorrorSetting, Western, CustomSetting]

  /** The members of `QuestStyle` in declaration order. */
  const AllQuestStyles: seq<QuestStyle> :=
    [Detective, Survival, Politics, Adventure, Romance, HorrorStyle, CustomStyle]

  /** The `Setting` a string names, if any (the TypeScript union read back). */
  function SettingOfKey(k: string): (r: Option<Setting>)
    ensures r.Some? ==> SettingKey(r.value) == k
    ensures r.None? ==> forall s :: SettingKey(s) != k
  {
    if k == "fantasy" then Some(Fantasy)
    else if k == "cyberpunk" then Some(Cyberpunk)
    else if k == "post-apocalyptic" then Some(PostApocalyptic)
    else if k == "sci-fi" then Some(SciFi)
    else if k == "horror" then Some(HorrorSetting)
    else if k == "western" then Some(Western)
    else if k == "custom" then Some(CustomSetting)
    else None
  }

  /** The `QuestStyle` a string names, if any. */
  function QuestStyleOfKey(k: string): (r: Option<QuestStyle>)
    ensures r.Some? ==> QuestStyleKey(r.value) == k
    ensures r.None? ==> forall s :: QuestStyleKey(s) != k
  {
    if k == "detective" then Some(Detective)
    else if k == "survival" then Some(Survival)
    else if k == "politics" then Some(Politics)
    else if k == "adventure" then Some(Adventure)
    else if k == "romance" then Some(Romance)
    else if k == "horror" then Some(HorrorStyle)
    else if k == "custom" then Some(CustomStyle)
    else None
  }

  /** Each vocabulary has exactly seven members with seven distinct keys, one of them
      "custom", and "horror" belongs to both. */
  lemma VocabulariesHaveSevenValues()
    ensures |AllSettings| == 7 && forall s: Setting :: s in AllSettings
    ensures |AllQuestStyles| == 7 && forall s: QuestStyle :: s in AllQuestStyles
    ensures forall i, j :: 0 <= i < j < 7 ==> SettingKey(AllSettings[i]) != SettingKey(AllSettings[j])
    ensures forall i, j :: 0 <= i < j < 7 ==> QuestStyleKey(AllQuestStyles[i]) != QuestStyleKey(AllQuestStyles[j])
    ensures SettingOfKey("custom") == Some(CustomSetting) && QuestStyleOfKey("custom") == Some(CustomStyle)
    ensures SettingOfKey("horror").Some? && QuestStyleOfKey("horror").Some?
  {
    forall s: Setting ensures s in AllSettings {
      match s
      case Fantasy => assert AllSettings[0] == s;
      case Cyberpunk => assert AllSettings[1] == s;
      case PostApocalyptic => assert AllSettings[2] == s;
      case SciFi => assert AllSettings[3] == s;
      case HorrorSetting => assert AllSettings[4] == s;
      case Western => assert AllSettings[5] == s;
      case CustomSetting => assert AllSettings[6] == s;
    }
    forall s: QuestStyle ensures s in AllQuestStyles {
      match s
      case Detective => assert AllQuestStyles[0] == s;
      case Survival => assert AllQuestStyles[1] == s;
      case Politics => assert AllQuestStyles[2] == s;
      case Adventure => assert AllQuestStyles[3] == s;
      case Romance => assert AllQuestStyles[4] == s;
      case HorrorStyle => assert AllQuestStyles[5] == s;
      case CustomStyle => assert AllQuestStyles[6] == s;
    }
  }

  /** Reading a key back gives the member it came from. */
  lemma KeysRoundTrip(s: Setting, q: QuestStyle)
    ensures SettingOfKey(SettingKey(s)) == Some(s)
    ensures QuestStyleOfKey(QuestStyleKey(q)) == Some(q)
  {
  }

  // ---------------------------------------------------------------------------
  // Quest document

  datatype Character = Character(
    id: string, name: string, role: string, description: string,
    motivation: Option<string>, isEnemy: Option<bool>, isAlly: Option<bool>)

  datatype Location = Location(
    id: string, name: string, description: string,
    characters: Option<seq<string>>, items: Option<seq<string>>)

  datatype Item = Item(
    id: string, name: string, description: string,
    isKey: Option<bool>, effect: Option<string>)

  /** A choice; `nextSceneId` is `None` where the stores produce `null`. */
  datatype Choice = Choice(
    id: string, text: string, nextSceneId: Option<string>,
    requiredItems: Option<seq<string>>, consequence: Option<string>)

  /** A scene; `choices` is required, `characters`, `items` and `isEnding` are optional. */
  datatype Scene = Scene(
    id: string, title: string, description: string, locationId: string,
    characters: Option<seq<string>>, items: Option<seq<string>>,
    choices: seq<Choice>, isEnding: Option<bool>)

  /** A quest; all four collections are required. `setting` and `questStyle` hold the
      strings the stores put there, which are free text for a custom setting or style. */
  datatype Quest = Quest(
    id: string, title: string, description: string,
    setting: string, questStyle: string, startingPoint: string,
    scenes: seq<Scene>, characters: seq<Character>,
    locations: seq<Location>, items: seq<Item>)

  /** Some scene of the list carries this id. */
  predicate HasScene(scenes: seq<Scene>, id: string) {
    exists k :: 0 <= k < |scenes| && scenes[k].id == id
  }

  /** Every choice of every scene names a scene of the same list. */
  predicate ReferentiallyClosed(scenes: seq<Scene>) {
    forall i, j :: 0 <= i < |scenes| && 0 <= j < |scenes[i].choices| ==>
      var next := scenes[i].choices[j].nextSceneId;
      next.Some? && HasScene(scenes, next.value)
  }

  /** A scene explicitly flagged as an ending. */
  predicate IsEndingScene(s: Scene) {
    s.isEnding == Some(true)
  }
}
