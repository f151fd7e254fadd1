/** The quest viewer (frontend/src/components/QuestViewer.tsx): which scene is current,
    how a choice moves to the next scene, what the scene panel shows about the current
    scene, and the labels of the setting and style badges.

    The viewer's only state is `currentSceneId`; `None` stands for `null`. */
module QuestViewer {
  import opened Wrappers
  import opened Seqs
  import opened QuestTypes

  // ---------------------------------------------------------------------------
  // Current scene

  /** `scenes.find(scene => scene.id === id)`: the first scene with the id. A `null` or
      `undefined` id matches no scene. */
  function FindScene(scenes: seq<Scene>, id: Option<string>): (r: Option<Scene>)
    ensures r.Some? <==> id.Some? && HasScene(scenes, id.value)
    ensures r.Some? ==> r.value.id == id.value
    ensures r.Some? ==> exists k :: (0 <= k < |scenes| && scenes[k] == r.value &&
      forall j :: 0 <= j < k ==> scenes[j].id != id.value)
  {
    if id.None? then None
    else
      var k := FirstWhere(scenes, (s: Scene) => s.id == id.value);
      if k.Some? then Some(scenes[k.value]) else None
  }

  /** The scene the viewer shows: a scene of the quest carrying the current id, and
      none when the id is unset or dangling. */
  function CurrentScene(q: Quest, current: Option<string>): (r: Option<Scene>)
    ensures r.Some? <==> current.Some? && HasScene(q.scenes, current.value)
    ensures r.Some? ==> r.value in q.scenes && r.value.id == current.value
  {
    FindScene(q.scenes, current)
  }

  /** `currentSceneId` is unset: `null`, or the empty string, which is falsy too. */
  predicate Unset(current: Option<string>) {
    current.None? || current.value == ""
  }

  /** The effect run on load: with no current scene and a non-empty quest, the first
      scene in list order becomes current; otherwise nothing changes. */
  function InitialSceneEffect(q: Quest, current: Option<string>): (r: Option<string>)
    ensures Unset(current) && |q.scenes| > 0 ==> r == Some(q.scenes[0].id)
    ensures !(Unset(current) && |q.scenes| > 0) ==> r == current
  {
    if Unset(current) && |q.scenes| > 0 then Some(q.scenes[0].id) else current
  }

  /** After the effect, a non-empty quest shows its first scene, and running the effect
      again changes nothing unless that scene's id is itself the empty string. */
  lemma InitialSceneShown(q: Quest, current: Option<string>)
    requires Unset(current) && |q.scenes| > 0
    ensures CurrentScene(q, InitialSceneEffect(q, current)) == Some(q.scenes[0])
    ensures q.scenes[0].id != "" ==>
      InitialSceneEffect(q, InitialSceneEffect(q, current)) == InitialSceneEffect(q, current)
  {
    var p := (s: Scene) => s.id == q.scenes[0].id;
    assert FirstWhere(q.scenes, p) == Some(0);
  }

  /** `handleChoiceClick`: the target becomes current exactly when some scene carries
      it; a dangling, `null` or `undefined` target leaves the current scene as it is. */
  function ChooseScene(q: Quest, current: Option<string>, target: Option<string>): (r: Option<string>)
    ensures target.Some? && HasScene(q.scenes, target.value) ==> r == target
    ensures !(target.Some? && HasScene(q.scenes, target.value)) ==> r == current
  {
    if FindScene(q.scenes, target).Some? then target else current
  }

  /** Choosing the same target twice is choosing it once. */
  lemma ChooseSceneIdempotent(q: Quest, current: Option<string>, target: Option<string>)
    ensures ChooseScene(q, ChooseScene(q, current, target), target) == ChooseScene(q, current, target)
  {
  }

  /** In a referentially closed quest every choice of the shown scene moves the viewer
      to a scene carrying the choice's target. */
  lemma ClosedQuestChoicesMove(q: Quest, current: Option<string>, j: nat)
    requires ReferentiallyClosed(q.scenes)
    requires CurrentScene(q, current).Some? && j < |CurrentScene(q, current).value.choices|
    ensures var target := CurrentScene(q, current).value.choices[j].nextSceneId;
      var next := CurrentScene(q, ChooseScene(q, current, target));
      next.Some? && Some(next.value.id) == target
  {
    var s := CurrentScene(q, current).value;
    var k :| 0 <= k < |q.scenes| && q.scenes[k] == s && forall i :: 0 <= i < k ==> q.scenes[i].id != current.value;
    assert q.scenes[k].choices[j] == s.choices[j];
  }

  /** Clicking an entry of the scene list makes that scene's id current, and some scene
      with that id is then shown. */
  function SceneListClick(q: Quest, k: nat): (r: Option<string>)
    requires k < |q.scenes|
    ensures CurrentScene(q, r).Some? && CurrentScene(q, r).value.id == q.scenes[k].id
  {
    Some(q.scenes[k].id)
  }

  // ---------------------------------------------------------------------------
  // What the scene panel shows

  /** The current scene's location: the first location whose id is the scene's
      `locationId`, none when no location matches or no scene is current. */
  function CurrentLocation(q: Quest, scene: Option<Scene>): (r: Option<Location>)
    ensures r.None? <==> scene.None? || forall j :: 0 <= j < |q.locations| ==> q.locations[j].id != scene.value.locationId
    ensures r.Some? ==> exists k :: (0 <= k < |q.locations| && q.locations[k] == r.value &&
      r.value.id == scene.value.locationId &&
      forall j :: 0 <= j < k ==> q.locations[j].id != scene.value.locationId)
  {
    if scene.None? then None
    else
      var k := FirstWhere(q.locations, (l: Location) => l.id == scene.value.locationId);
      if k.Some? then Some(q.locations[k.value]) else None
  }

  /** The scene's characters: the quest's characters whose id the scene lists, none
      when the scene lists no characters. */
  function SceneCharacters(q: Quest, scene: Option<Scene>): (r: seq<Character>)
    ensures scene.None? || scene.value.characters.None? ==> r == []
    ensures forall k :: 0 <= k < |r| ==>
      r[k] in q.characters && scene.Some? && scene.value.characters.Some? &&
      r[k].id in scene.value.characters.value
    ensures scene.Some? && scene.value.characters.Some? ==>
      forall k :: 0 <= k < |q.characters| && q.characters[k].id in scene.value.characters.value ==>
        q.characters[k] in r
  {
    if scene.Some? && scene.value.characters.Some? then
      Filter(q.characters, (c: Character) => c.id in scene.value.characters.value)
    else []
  }

  /** The scene's items: the quest's items whose id the scene lists, none when the
      scene lists no items. */
  function SceneItems(q: Quest, scene: Option<Scene>): (r: seq<Item>)
    ensures scene.None? || scene.value.items.None? ==> r == []
    ensures forall k :: 0 <= k < |r| ==>
      r[k] in q.items && scene.Some? && scene.value.items.Some? &&
      r[k].id in scene.value.items.value
    ensures scene.Some? && scene.value.items.Some? ==>
      forall k :: 0 <= k < |q.items| && q.items[k].id in scene.value.items.value ==>
        q.items[k] in r
  {
    if scene.Some? && scene.value.items.Some? then
      Filter(q.items, (t: Item) => t.id in scene.value.items.value)
    else []
  }

  /** Both lists keep the quest's order, whatever order the scene lists ids in. */
  lemma ProjectionsInQuestOrder(q: Quest, scene: Option<Scene>)
    ensures IsSubsequence(SceneCharacters(q, scene), q.characters)
    ensures IsSubsequence(SceneItems(q, scene), q.items)
  {
    if scene.Some? && scene.value.characters.Some? {
      FilterIsSubsequence(q.characters, (c: Character) => c.id in scene.value.characters.value);
    }
    if scene.Some? && scene.value.items.Some? {
      FilterIsSubsequence(q.items, (t: Item) => t.id in scene.value.items.value);
    }
  }

  /** Which sections of the scene panel are visible. */
  datatype Panels = Panels(location: bool, characters: bool, items: bool, choices: bool, ending: bool)

  function ScenePanels(q: Quest, scene: Scene): (p: Panels)
    ensures p.location <==> exists k :: 0 <= k < |q.locations| && q.locations[k].id == scene.locationId
    ensures p.characters <==> (scene.characters.Some? &&
      exists k :: 0 <= k < |q.characters| && q.characters[k].id in scene.characters.value)
    ensures p.items <==> (scene.items.Some? &&
      exists k :: 0 <= k < |q.items| && q.items[k].id in scene.items.value)
    ensures p.choices <==> |scene.choices| > 0
    ensures p.ending <==> IsEndingScene(scene)
  {
    var characters := SceneCharacters(q, Some(scene));
    var items := SceneItems(q, Some(scene));
    assert |characters| > 0 ==> characters[0] in q.characters;
    assert |items| > 0 ==> items[0] in q.items;
    Panels(CurrentLocation(q, Some(scene)).Some?, |characters| > 0, |items| > 0,
      |scene.choices| > 0, scene.isEnding == Some(true))
  }

  // ---------------------------------------------------------------------------
  // Badge labels

  function SettingLabelOf(s: Setting): string {
    match s
    case Fantasy => "Фэнтези"
    case Cyberpunk => "Киберпанк"
    case PostApocalyptic => "Постапокалипсис"
    case SciFi => "Научная фантастика"
    case HorrorSetting => "Хоррор"
    case Western => "Вестерн"
    case CustomSetting => "Пользовательский"
  }

  function QuestStyleLabelOf(s: QuestStyle): string {
    match s
    case Detective => "Детектив"
    case Survival => "Выживание"
    case Politics => "Политика"
    case Adventure => "Приключение"
    case Romance => "Романтика"
    case HorrorStyle => "Хоррор"
    case CustomStyle => "Пользовательский"
  }

  /** The properties every plain JavaScript object inherits from `Object.prototype`
      (section 20.1.3 of ECMAScript 2024 and its Annex B.2.2). */
  const ObjectPrototypeKeys: set<string> := {
    "constructor", "hasOwnProperty", "isPrototypeOf", "propertyIsEnumerable",
    "toLocaleString", "toString", "valueOf", "__proto__",
    "__defineGetter__", "__defineSetter__", "__lookupGetter__", "__lookupSetter__"}

  /** What a badge receives: a text, or a non-string value inherited from
      `Object.prototype`. An inherited function renders as nothing; `__proto__` yields
      the prototype object itself, and React refuses to render an object child and
      throws. */
  datatype Shown = Text(s: string) | NonString(inheritedKey: string)

  /** `settingMap[setting] || setting` as written: the lookup in an object literal also
      finds inherited properties, which are truthy. */
  function SettingLabelAsWritten(key: string): (r: Shown)
    ensures SettingOfKey(key).Some? ==> r == Text(SettingLabelOf(SettingOfKey(key).value))
    ensures SettingOfKey(key).None? && key in ObjectPrototypeKeys ==> r.NonString?
  {
    var own := SettingOfKey(key);
    if own.Some? then Text(SettingLabelOf(own.value))
    else if key in ObjectPrototypeKeys then NonString(key)
    else Text(key)
  }

  /** A setting that names an inherited property gets a function instead of the string
      back. The form only offers the setting keys, and the backend echoes the setting it
      was sent, so this arises only for a quest whose request named such a setting
      directly: a latent defect of the lookup. */
  lemma InheritedSettingKeyShowsNoText()
    ensures SettingLabelAsWritten("toString") == NonString("toString")
    ensures SettingLabelAsWritten("constructor").NonString?
  {
  }

  /** The setting label looking up own keys only: the label of a known setting, and
      any other string unchanged. */
  function SettingLabel(key: string): (r: string)
    ensures forall s :: key == SettingKey(s) ==> r == SettingLabelOf(s)
    ensures (forall s :: key != SettingKey(s)) ==> r == key
  {
    var own := SettingOfKey(key);
    if own.Some? then SettingLabelOf(own.value) else key
  }

  /** The style label, looking up own keys only. */
  function QuestStyleLabel(key: string): (r: string)
    ensures forall s :: key == QuestStyleKey(s) ==> r == QuestStyleLabelOf(s)
    ensures (forall s :: key != QuestStyleKey(s)) ==> r == key
  {
    var own := QuestStyleOfKey(key);
    if own.Some? then QuestStyleLabelOf(own.value) else key
  }

  /** `styleMap[style] || style` as written. */
  function QuestStyleLabelAsWritten(key: string): (r: Shown)
    ensures QuestStyleOfKey(key).Some? ==> r == Text(QuestStyleLabelOf(QuestStyleOfKey(key).value))
    ensures QuestStyleOfKey(key).None? && key in ObjectPrototypeKeys ==> r.NonString?
  {
    var own := QuestStyleOfKey(key);
    if own.Some? then Text(QuestStyleLabelOf(own.value))
    else if key in ObjectPrototypeKeys then NonString(key)
    else Text(key)
  }

  /** The two readings agree on every string that is not an inherited key; the
      corrected one always returns text. */
  lemma LabelsAgreeOffPrototype(key: string)
    requires key !in ObjectPrototypeKeys
    ensures SettingLabelAsWritten(key) == Text(SettingLabel(key))
    ensures QuestStyleLabelAsWritten(key) == Text(QuestStyleLabel(key))
  {
  }
}
