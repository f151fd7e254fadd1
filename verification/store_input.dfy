/** The generator input and the store state shared by both frontend stores
    (src/store/generatorStore.ts and frontend/src/store/generatorStore.ts).

    The input is a record of thirteen keys: the five of the `GeneratorInput` type, the
    `fileContent` / `inputMethod` pair the stores add, and the six advanced-form keys
    the generator form writes. A partial input (`Partial<GeneratorInput>`) is a map
    from keys to values; `setInput` spreads it over the stored input. */
module StoreInput {
  import opened Wrappers

  datatype Key =
    | Setting | StartingPoint | QuestStyle | CustomSetting | CustomQuestStyle
    | FileContent | InputMethod
    | MainGoal | Themes | SceneCount | CharacterCount | Complexity | Tone

  /** The keys that hold numbers; every other key holds a string. */
  predicate IsCountKey(k: Key) {
    k == SceneCount || k == CharacterCount
  }

  /** The keys every input carries. */
  predicate IsRequiredKey(k: Key) {
    k == Setting || k == StartingPoint || k == QuestStyle
  }

  datatype Value = Str(s: string) | Num(n: int)

  /** The stored input. Optional keys are `None` while absent (`undefined`). */
  datatype Input = Input(
    setting: string, startingPoint: string, questStyle: string,
    customSetting: Option<string>, customQuestStyle: Option<string>,
    fileContent: Option<string>, inputMethod: Option<string>,
    mainGoal: Option<string>, themes: Option<string>,
    sceneCount: Option<int>, characterCount: Option<int>,
    complexity: Option<string>, tone: Option<string>)

  function StrField(o: Option<string>): Option<Value> {
    if o.Some? then Some(Str(o.value)) else None
  }

  function NumField(o: Option<int>): Option<Value> {
    if o.Some? then Some(Num(o.value)) else None
  }

  /** The value stored under a key, `None` when the key is absent. */
  function Get(i: Input, k: Key): (v: Option<Value>)
    ensures IsRequiredKey(k) ==> v.Some?
    ensures v.Some? ==> (v.value.Num? <==> IsCountKey(k))
  {
    match k
    case Setting => Some(Str(i.setting))
    case StartingPoint => Some(Str(i.startingPoint))
    case QuestStyle => Some(Str(i.questStyle))
    case CustomSetting => StrField(i.customSetting)
    case CustomQuestStyle => StrField(i.customQuestStyle)
    case FileContent => StrField(i.fileContent)
    case InputMethod => StrField(i.inputMethod)
    case MainGoal => StrField(i.mainGoal)
    case Themes => StrField(i.themes)
    case SceneCount => NumField(i.sceneCount)
    case CharacterCount => NumField(i.characterCount)
    case Complexity => StrField(i.complexity)
    case Tone => StrField(i.tone)
  }

  /** Two inputs that agree on every key are the same input. */
  lemma SameFieldsSameInput(a: Input, b: Input)
    requires forall k :: Get(a, k) == Get(b, k)
    ensures a == b
  {
    assert Get(a, Setting) == Get(b, Setting);
    assert Get(a, StartingPoint) == Get(b, StartingPoint);
    assert Get(a, QuestStyle) == Get(b, QuestStyle);
    assert Get(a, CustomSetting) == Get(b, CustomSetting);
    assert Get(a, CustomQuestStyle) == Get(b, CustomQuestStyle);
    assert Get(a, FileContent) == Get(b, FileContent);
    assert Get(a, InputMethod) == Get(b, InputMethod);
    assert Get(a, MainGoal) == Get(b, MainGoal);
    assert Get(a, Themes) == Get(b, Themes);
    assert Get(a, SceneCount) == Get(b, SceneCount);
    assert Get(a, CharacterCount) == Get(b, CharacterCount);
    assert Get(a, Complexity) == Get(b, Complexity);
    assert Get(a, Tone) == Get(b, Tone);
  }

  // ---------------------------------------------------------------------------
  // setInput

  /** A partial input: the keys it mentions, with their new values. */
  type Patch = map<Key, Value>

  /** A patch respects the declared field types: numbers for the counts, strings
      elsewhere. */
  predicate WellTyped(p: Patch) {
    forall k :: k in p ==> (p[k].Num? <==> IsCountKey(k))
  }

  function NewStr(p: Patch, k: Key, cur: string): string
    requires WellTyped(p) && !IsCountKey(k)
  {
    if k in p then p[k].s else cur
  }

  function NewOptStr(p: Patch, k: Key, cur: Option<string>): Option<string>
    requires WellTyped(p) && !IsCountKey(k)
  {
    if k in p then Some(p[k].s) else cur
  }

  function NewOptNum(p: Patch, k: Key, cur: Option<int>): Option<int>
    requires WellTyped(p) && IsCountKey(k)
  {
    if k in p then Some(p[k].n) else cur
  }

  /** `{ ...input, ...patch }`: every key the patch mentions takes the patch's value,
      and every other key keeps its stored value. */
  function SetInput(i: Input, p: Patch): (r: Input)
    requires WellTyped(p)
    ensures forall k :: Get(r, k) == if k in p then Some(p[k]) else Get(i, k)
  {
    Input(
      NewStr(p, Setting, i.setting), NewStr(p, StartingPoint, i.startingPoint),
      NewStr(p, QuestStyle, i.questStyle),
      NewOptStr(p, CustomSetting, i.customSetting),
      NewOptStr(p, CustomQuestStyle, i.customQuestStyle),
      NewOptStr(p, FileContent, i.fileContent), NewOptStr(p, InputMethod, i.inputMethod),
      NewOptStr(p, MainGoal, i.mainGoal), NewOptStr(p, Themes, i.themes),
      NewOptNum(p, SceneCount, i.sceneCount), NewOptNum(p, CharacterCount, i.characterCount),
      NewOptStr(p, Complexity, i.complexity), NewOptStr(p, Tone, i.tone))
  }

  /** An empty patch changes nothing. */
  lemma SetInputEmpty(i: Input)
    ensures SetInput(i, map[]) == i
  {
    SameFieldsSameInput(SetInput(i, map[]), i);
  }

  /** Applying the same patch twice is the same as applying it once. */
  lemma SetInputIdempotent(i: Input, p: Patch)
    requires WellTyped(p)
    ensures SetInput(SetInput(i, p), p) == SetInput(i, p)
  {
    SameFieldsSameInput(SetInput(SetInput(i, p), p), SetInput(i, p));
  }

  /** Two successive patches act as their union, the later one winning on keys both
      mention. */
  lemma SetInputCompose(i: Input, p: Patch, q: Patch)
    requires WellTyped(p) && WellTyped(q)
    ensures WellTyped(p + q)
    ensures SetInput(SetInput(i, p), q) == SetInput(i, p + q)
  {
    var a := SetInput(SetInput(i, p), q);
    var b := SetInput(i, p + q);
    forall k ensures Get(a, k) == Get(b, k) {
      assert Get(b, k) == if k in q then Some(q[k]) else if k in p then Some(p[k]) else Get(i, k);
    }
    SameFieldsSameInput(a, b);
  }

  /** Patches on disjoint keys commute. */
  lemma SetInputCommute(i: Input, p: Patch, q: Patch)
    requires WellTyped(p) && WellTyped(q) && p.Keys !! q.Keys
    ensures SetInput(SetInput(i, p), q) == SetInput(SetInput(i, q), p)
  {
    SameFieldsSameInput(SetInput(SetInput(i, p), q), SetInput(SetInput(i, q), p));
  }

  // ---------------------------------------------------------------------------
  // Default inputs

  /** `defaultInput` of src/store/generatorStore.ts and of the second side of the
      conflicted frontend store: seven keys, form input. */
  const DefaultInput: Input := Input(
    "fantasy", "", "adventure", Some(""), Some(""), Some(""), Some("form"),
    None, None, None, None, None, None)

  /** `defaultInput` of the HEAD side of the conflicted frontend store: the five
      `GeneratorInput` keys, no file content and no input method. */
  const HeadDefaultInput: Input := Input(
    "fantasy", "", "adventure", Some(""), Some(""), None, None,
    None, None, None, None, None, None)

  /** The keys each default carries: seven for the default input, the five
      `GeneratorInput` keys for the HEAD default. */
  lemma DefaultInputKeys(k: Key)
    ensures Get(DefaultInput, k).Some? <==>
      (IsRequiredKey(k) || k == CustomSetting || k == CustomQuestStyle ||
       k == FileContent || k == InputMethod)
    ensures Get(HeadDefaultInput, k).Some? <==>
      (IsRequiredKey(k) || k == CustomSetting || k == CustomQuestStyle)
  {
  }

  /** The default input is the HEAD default with an empty file and the form method
      spread over it. */
  lemma DefaultExtendsHeadDefault()
    ensures DefaultInput ==
      SetInput(HeadDefaultInput, map[FileContent := Str(""), InputMethod := Str("form")])
  {
    SameFieldsSameInput(DefaultInput,
      SetInput(HeadDefaultInput, map[FileContent := Str(""), InputMethod := Str("form")]));
  }

  // ---------------------------------------------------------------------------
  // Store state

  /** The store's state; `Q` is the type of quest the store keeps. */
  datatype State<Q> = State(
    input: Input, generatedQuest: Option<Q>, isLoading: bool, error: Option<string>)

  /** The state both stores start in. */
  function InitialState<Q>(defaults: Input): (st: State<Q>)
    ensures st.input == defaults && st.generatedQuest.None? && !st.isLoading && st.error.None?
  {
    State(defaults, None, false, None)
  }

  /** `setInput`: only the input changes, as `SetInput` describes. */
  function SetInputAction<Q>(st: State<Q>, p: Patch): (r: State<Q>)
    requires WellTyped(p)
    ensures r.generatedQuest == st.generatedQuest && r.isLoading == st.isLoading
    ensures r.error == st.error
    ensures forall k :: Get(r.input, k) == if k in p then Some(p[k]) else Get(st.input, k)
  {
    st.(input := SetInput(st.input, p))
  }

  /** `resetInput`: the input becomes a fresh copy of the defaults; nothing else
      changes. */
  function ResetInputAction<Q>(st: State<Q>, defaults: Input): (r: State<Q>)
    ensures forall k :: Get(r.input, k) == Get(defaults, k)
    ensures r.generatedQuest == st.generatedQuest && r.isLoading == st.isLoading
    ensures r.error == st.error
  {
    st.(input := defaults)
  }

  /** Resetting discards every earlier patch, and resetting twice is resetting once. */
  lemma ResetForgetsPatches<Q>(st: State<Q>, p: Patch, defaults: Input)
    requires WellTyped(p)
    ensures ResetInputAction(SetInputAction(st, p), defaults) == ResetInputAction(st, defaults)
    ensures ResetInputAction(ResetInputAction(st, defaults), defaults) == ResetInputAction(st, defaults)
  {
  }

  /** `resetQuest`: the generated quest is dropped; input, loading flag and error are
      kept. */
  function ResetQuest<Q>(st: State<Q>): (r: State<Q>)
    ensures r.generatedQuest.None?
    ensures r.input == st.input && r.isLoading == st.isLoading && r.error == st.error
  {
    st.(generatedQuest := None)
  }

  /** A failed validation: `error` is set and the action returns before anything else
      is touched. */
  function Rejected<Q>(st: State<Q>, message: string): (r: State<Q>)
    ensures r.error == Some(message)
    ensures r.input == st.input && r.generatedQuest == st.generatedQuest
    ensures r.isLoading == st.isLoading
  {
    st.(error := Some(message))
  }

  /** JavaScript `!value` for an optional string: absent or empty. */
  predicate Blank(o: Option<string>) {
    o.None? || o.value == ""
  }

  /** The check both stores run before generating, with each store's own messages:
      form input needs a starting point, file input needs file content, and any other
      input method is not checked. */
  function CheckInput(i: Input, noStartingPoint: string, noFile: string): (r: Option<string>)
    ensures i.inputMethod == Some("form") ==> (r.Some? <==> i.startingPoint == "")
    ensures i.inputMethod == Some("file") ==> (r.Some? <==> Blank(i.fileContent))
    ensures i.inputMethod != Some("form") && i.inputMethod != Some("file") ==> r.None?
    ensures r.Some? ==> r.value == (if i.inputMethod == Some("form") then noStartingPoint else noFile)
  {
    if i.inputMethod == Some("form") && i.startingPoint == "" then Some(noStartingPoint)
    else if i.inputMethod == Some("file") && Blank(i.fileContent) then Some(noFile)
    else None
  }
}
