/** The generator form (frontend/src/components/GeneratorForm.tsx): what its change
    handlers write into the store's input, the two flags that show the custom-text
    fields, the file handlers, when the file button is enabled, and what the advanced
    selects show for missing values. */
module GeneratorForm {
  import opened Wrappers
  import opened StoreInput
  import StoreFrontend

  /** The flags that show the custom setting and custom style fields. */
  datatype Flags = Flags(showCustomSetting: bool, showCustomQuestStyle: bool)

  /** The flags show a custom field exactly when the stored value is "custom". */
  predicate Mirrors(flags: Flags, i: Input) {
    flags.showCustomSetting == (i.setting == "custom") &&
    flags.showCustomQuestStyle == (i.questStyle == "custom")
  }

  /** The flags the form starts with. */
  function InitialFlags(i: Input): (flags: Flags)
    ensures Mirrors(flags, i)
  {
    Flags(i.setting == "custom", i.questStyle == "custom")
  }

  /** `handleSettingChange`: the chosen value is stored and its custom field shown iff
      it is "custom". */
  function SettingChange<Q>(st: State<Q>, flags: Flags, value: string): (r: (State<Q>, Flags))
    ensures r.0 == SetInputAction(st, map[Setting := Str(value)])
    ensures r.1.showCustomSetting <==> value == "custom"
    ensures r.1.showCustomQuestStyle == flags.showCustomQuestStyle
  {
    (SetInputAction(st, map[Setting := Str(value)]), flags.(showCustomSetting := value == "custom"))
  }

  /** `handleQuestStyleChange`, the same for the style. */
  function QuestStyleChange<Q>(st: State<Q>, flags: Flags, value: string): (r: (State<Q>, Flags))
    ensures r.0 == SetInputAction(st, map[QuestStyle := Str(value)])
    ensures r.1.showCustomQuestStyle <==> value == "custom"
    ensures r.1.showCustomSetting == flags.showCustomSetting
  {
    (SetInputAction(st, map[QuestStyle := Str(value)]), flags.(showCustomQuestStyle := value == "custom"))
  }

  /** The flags keep mirroring the input through both select handlers and through
      every other field's handler. */
  lemma ChangesKeepMirror<Q>(st: State<Q>, flags: Flags, value: string, p: Patch)
    requires Mirrors(flags, st.input)
    requires WellTyped(p) && Setting !in p && QuestStyle !in p
    ensures var r := SettingChange(st, flags, value); Mirrors(r.1, r.0.input)
    ensures var r := QuestStyleChange(st, flags, value); Mirrors(r.1, r.0.input)
    ensures Mirrors(flags, SetInputAction(st, p).input)
  {
    var a := SetInputAction(st, map[Setting := Str(value)]);
    assert Get(a.input, Setting) == Some(Str(value)) && Get(a.input, QuestStyle) == Get(st.input, QuestStyle);
    var b := SetInputAction(st, map[QuestStyle := Str(value)]);
    assert Get(b.input, QuestStyle) == Some(Str(value)) && Get(b.input, Setting) == Get(st.input, Setting);
    var c := SetInputAction(st, p);
    assert Get(c.input, Setting) == Get(st.input, Setting) && Get(c.input, QuestStyle) == Get(st.input, QuestStyle);
  }

  /** `handleFileContent`: the text is stored and the input method becomes "file". */
  function LoadFile<Q>(st: State<Q>, content: string): (r: State<Q>)
    ensures r.input.fileContent == Some(content) && r.input.inputMethod == Some("file")
    ensures forall k :: k != FileContent && k != InputMethod ==> Get(r.input, k) == Get(st.input, k)
  {
    SetInputAction(st, map[FileContent := Str(content), InputMethod := Str("file")])
  }

  /** `handleClearFile`: the text is emptied and the input method goes back to "form". */
  function ClearFile<Q>(st: State<Q>): (r: State<Q>)
    ensures r.input.fileContent == Some("") && r.input.inputMethod == Some("form")
    ensures forall k :: k != FileContent && k != InputMethod ==> Get(r.input, k) == Get(st.input, k)
  {
    SetInputAction(st, map[FileContent := Str(""), InputMethod := Str("form")])
  }

  /** Loading then clearing a file undoes the load whenever the input started from the
      defaults' file fields, and a file load overrides an earlier one. */
  lemma ClearUndoesLoad<Q>(st: State<Q>, a: string, b: string)
    requires st.input.fileContent == Some("") && st.input.inputMethod == Some("form")
    ensures ClearFile(LoadFile(st, a)) == st
    ensures LoadFile(LoadFile(st, a), b) == LoadFile(st, b)
  {
    SameFieldsSameInput(ClearFile(LoadFile(st, a)).input, st.input);
    SameFieldsSameInput(LoadFile(LoadFile(st, a), b).input, LoadFile(st, b).input);
  }

  /** The file button is disabled while there is no file text. */
  predicate FileButtonDisabled(i: Input) {
    Blank(i.fileContent)
  }

  /** Loading a non-empty text enables the button, and the store then accepts the
      input: its file check is the button's condition. */
  lemma EnabledButtonPassesValidation<Q>(st: State<Q>, content: string)
    ensures !FileButtonDisabled(LoadFile(st, content).input) <==> content != ""
    ensures var i := LoadFile(st, content).input;
      !FileButtonDisabled(i) <==> StoreFrontend.Validate(i).None?
  {
  }

  // ---------------------------------------------------------------------------
  // Advanced selects

  /** `input.sceneCount || 3` and `input.characterCount || 3`: a missing or zero count
      shows 3. */
  function CountShown(o: Option<int>): (n: int)
    ensures o.Some? && o.value != 0 ==> n == o.value
    ensures o.None? || o.value == 0 ==> n == 3
    ensures n != 0 && (o == Some(n) || n == 3)
  {
    if o.Some? && o.value != 0 then o.value else 3
  }

  /** `value || fallback` for a string select: a missing or empty value shows the
      fallback. */
  function TextShown(o: Option<string>, fallback: string): (s: string)
    ensures o.Some? && o.value != "" ==> s == o.value
    ensures o.None? || o.value == "" ==> s == fallback
    ensures (o == Some(s) || s == fallback) && (fallback != "" ==> s != "")
  {
    if o.Some? && o.value != "" then o.value else fallback
  }

  /** The options each advanced select offers. */
  const SceneCountOptions: set<int> := {3, 4, 6, 8}
  const CharacterCountOptions: set<int> := {2, 3, 5, 7}
  const ComplexityOptions: set<string> := {"simple", "medium", "complex"}
  const ToneOptions: set<string> := {"light", "serious", "dark", "humorous"}

  datatype AdvancedShown = AdvancedShown(sceneCount: int, characterCount: int, complexity: string, tone: string)

  /** What the four advanced selects show for an input. */
  function Advanced(i: Input): AdvancedShown {
    AdvancedShown(CountShown(i.sceneCount), CountShown(i.characterCount),
      TextShown(i.complexity, "medium"), TextShown(i.tone, "serious"))
  }

  /** The default input, which has none of the advanced keys, shows 3 scenes,
      3 characters, medium complexity and a serious tone; a chosen value is shown as
      chosen. */
  lemma AdvancedDefaults(i: Input, n: int)
    requires n != 0
    ensures Advanced(DefaultInput) == AdvancedShown(3, 3, "medium", "serious")
    ensures Advanced(SetInput(i, map[SceneCount := Num(n)])).sceneCount == n
  {
    assert Get(SetInput(i, map[SceneCount := Num(n)]), SceneCount) == Some(Num(n));
  }

  /** Whatever an advanced select stored (nothing yet, or one of its own options), each
      select shows one of its options, and the very option stored when there is one. */
  lemma SelectsShowAnOption(i: Input)
    requires i.sceneCount.None? || i.sceneCount.value in SceneCountOptions
    requires i.characterCount.None? || i.characterCount.value in CharacterCountOptions
    requires i.complexity.None? || i.complexity.value in ComplexityOptions
    requires i.tone.None? || i.tone.value in ToneOptions
    ensures var a := Advanced(i);
      a.sceneCount in SceneCountOptions && a.characterCount in CharacterCountOptions &&
      a.complexity in ComplexityOptions && a.tone in ToneOptions
    ensures var a := Advanced(i);
      (i.sceneCount.Some? ==> a.sceneCount == i.sceneCount.value) &&
      (i.characterCount.Some? ==> a.characterCount == i.characterCount.value) &&
      (i.complexity.Some? ==> a.complexity == i.complexity.value) &&
      (i.tone.Some? ==> a.tone == i.tone.value)
  {
  }
}
