/** The monolithic backend (main.py): keyword classification of an uploaded quest
    description, the keyword-based "AI" text, the fixed eight-scene quest it answers
    with, the character whitelist for uploaded text, and the request validation of
    `POST /api/generate-quest`.

    The regular-expression searches of `parse_file_content` are not modelled: their
    captured groups arrive as a `FileCaptures` value, and `CreateMockQuest` takes the
    extraction as a function parameter. */
module MonoBackend {
  import opened Wrappers
  import opened Text
  import opened ApiTypes

  // ---------------------------------------------------------------------------
  // First-match keyword classification

  /** A classification rule: `key` is chosen when any of `keywords` occurs in the text. */
  datatype Rule = Rule(key: string, keywords: seq<string>)

  predicate RuleMatches(r: Rule, text: string) {
    exists k | 0 <= k < |r.keywords| :: Contains(text, r.keywords[k])
  }

  /** Position of the first rule that matches, or `|rules|` when none does. */
  function FirstMatchIndex(rules: seq<Rule>, text: string): (i: nat)
    ensures i <= |rules|
    ensures i < |rules| ==> RuleMatches(rules[i], text)
    ensures forall k :: 0 <= k < i ==> !RuleMatches(rules[k], text)
  {
    if |rules| == 0 then 0
    else if RuleMatches(rules[0], text) then 0
    else 1 + FirstMatchIndex(rules[1..], text)
  }

  /** The key of the first matching rule; `dflt` when no rule matches. */
  function Classify(rules: seq<Rule>, text: string, dflt: string): (r: string)
    ensures (forall k :: 0 <= k < |rules| ==> !RuleMatches(rules[k], text)) ==> r == dflt
    ensures forall i :: (0 <= i < |rules| && RuleMatches(rules[i], text) &&
      (forall k :: 0 <= k < i ==> !RuleMatches(rules[k], text))) ==> r == rules[i].key
    ensures r == dflt || exists k | 0 <= k < |rules| :: r == rules[k].key
  {
    var i := FirstMatchIndex(rules, text);
    if i < |rules| then rules[i].key else dflt
  }

  /** A rule earlier in the list shadows every later rule whenever it matches. */
  lemma EarlierRuleWins(rules: seq<Rule>, text: string, dflt: string, i: nat)
    requires i < |rules| && RuleMatches(rules[i], text)
    ensures exists k | 0 <= k <= i :: Classify(rules, text, dflt) == rules[k].key
  {
    var j := FirstMatchIndex(rules, text);
    assert j <= i;
    assert Classify(rules, text, dflt) == rules[j].key;
  }

  // ---------------------------------------------------------------------------
  // parse_file_content

  /** Setting keywords of `parse_file_content`, in the order they are checked. */
  const FileSettingRules: seq<Rule> := [
    Rule("fantasy", ["фэнтези"]),
    Rule("cyberpunk", ["киберпанк"]),
    Rule("post-apocalyptic", ["постапокалипсис"]),
    Rule("sci-fi", ["научная фантастика", "sci-fi"]),
    Rule("horror", ["хоррор"]),
    Rule("western", ["вестерн"])
  ]

  /** Quest-style keywords of `parse_file_content`, in the order they are checked. */
  const FileStyleRules: seq<Rule> := [
    Rule("detective", ["детектив"]),
    Rule("survival", ["выживание"]),
    Rule("politics", ["политика"]),
    Rule("adventure", ["приключение"]),
    Rule("romance", ["романтика"]),
    Rule("horror", ["хоррор"])
  ]

  const DefaultFileTitle := "Приключение в неизвестном мире"

  /** The first captured group of each marker search (`СЕТТИНГ:`, `ОТПРАВНАЯ ТОЧКА:`,
      `СТИЛЬ КВЕСТА:`, `ОПИСАНИЕ МИРА:`, `ОСНОВНАЯ ИСТОРИЯ:`), `None` when it does not match. */
  datatype FileCaptures = FileCaptures(
    setting: Option<string>, startingPoint: Option<string>, questStyle: Option<string>,
    description: Option<string>, story: Option<string>)

  /** The dictionary `parse_file_content` returns. */
  datatype ParsedFile = ParsedFile(
    setting: string, startingPoint: string, questStyle: string,
    description: string, title: string)

  /** A captured marker value is stripped and lower-cased, then classified; the
      default stays when the marker is missing or names nothing known. */
  function ClassifyCapture(capture: Option<string>, rules: seq<Rule>, dflt: string): string {
    match capture
    case None => dflt
    case Some(t) => Classify(rules, Lower(Strip(t)), dflt)
  }

  /** The story's first sentence, stripped, when the stripped story does not start with
      a full stop; the default title otherwise. */
  function StoryTitle(story: Option<string>): (t: string)
    ensures '.' !in t
    ensures story.None? ==> t == DefaultFileTitle
  {
    match story
    case None => DefaultFileTitle
    case Some(s) =>
      var first := FirstSegment(Strip(s), '.');
      if first != "" then
        var t := Strip(first);
        assert forall i :: 0 <= i < |t| ==> t[i] in first;
        t
      else DefaultFileTitle
  }

  function ParseFileContent(c: FileCaptures): (p: ParsedFile)
    ensures c.startingPoint.None? ==> p.startingPoint == ""
    ensures c.description.None? ==> p.description == ""
    ensures '.' !in p.title
  {
    ParsedFile(
      ClassifyCapture(c.setting, FileSettingRules, "fantasy"),
      match c.startingPoint case None => "" case Some(t) => Strip(t),
      ClassifyCapture(c.questStyle, FileStyleRules, "adventure"),
      match c.description case None => "" case Some(t) => Strip(t),
      StoryTitle(c.story))
  }

  /** A file without any marker line parses to the defaults. */
  lemma NoMarkersGiveDefaults()
    ensures ParseFileContent(FileCaptures(None, None, None, None, None))
      == ParsedFile("fantasy", "", "adventure", "", DefaultFileTitle)
  {
  }

  /** Only the six setting keys and the default can come out, and the same for styles. */
  lemma ParsedKeysAreKnown(c: FileCaptures)
    ensures ParseFileContent(c).setting in
      ["fantasy", "cyberpunk", "post-apocalyptic", "sci-fi", "horror", "western"]
    ensures ParseFileContent(c).questStyle in
      ["detective", "survival", "politics", "adventure", "romance", "horror"]
  {
    ClassifyCaptureKnown(c.setting, FileSettingRules, "fantasy");
    ClassifyCaptureKnown(c.questStyle, FileStyleRules, "adventure");
    assert Keys(FileSettingRules) ==
      ["fantasy", "cyberpunk", "post-apocalyptic", "sci-fi", "horror", "western"];
    assert Keys(FileStyleRules) ==
      ["detective", "survival", "politics", "adventure", "romance", "horror"];
  }

  lemma ClassifyCaptureKnown(capture: Option<string>, rules: seq<Rule>, dflt: string)
    ensures var v := ClassifyCapture(capture, rules, dflt); v == dflt || v in Keys(rules)
  {
    if capture.Some? {
      KeysOf(rules, ClassifyCapture(capture, rules, dflt), dflt);
    }
  }

  /** A classified value is the default or one of the rules' keys. */
  lemma KeysOf(rules: seq<Rule>, v: string, dflt: string)
    requires v == dflt || exists k | 0 <= k < |rules| :: v == rules[k].key
    ensures v == dflt || v in Keys(rules)
  {
    if v != dflt {
      var k :| 0 <= k < |rules| && v == rules[k].key;
      assert Keys(rules)[k] == v;
    }
  }

  function Keys(rules: seq<Rule>): (ks: seq<string>)
    ensures |ks| == |rules| && forall k :: 0 <= k < |rules| ==> ks[k] == rules[k].key
  {
    seq(|rules|, k requires 0 <= k < |rules| => rules[k].key)
  }

  /** A setting line naming both fantasy and cyberpunk is fantasy: the first listed
      keyword wins. */
  lemma FantasyShadowsCyberpunk(t: string)
    requires Contains(Lower(Strip(t)), "фэнтези")
    ensures ParseFileContent(FileCaptures(Some(t), None, None, None, None)).setting == "fantasy"
  {
    assert RuleMatches(FileSettingRules[0], Lower(Strip(t))) by {
      assert Contains(Lower(Strip(t)), FileSettingRules[0].keywords[0]);
    }
  }

  /** A story whose stripped text has no full stop becomes the title whole. */
  lemma StoryWithoutFullStop(s: string)
    requires Strip(s) != "" && '.' !in Strip(s)
    ensures StoryTitle(Some(s)) == Strip(s)
  {
    var t := Strip(s);
    assert FirstSegment(t, '.') == t;
    StripIdempotent(s);
    assert Strip(t) == t;
  }

  /** A story starting with a full stop leaves the default title. */
  lemma StoryStartingWithFullStop(s: string)
    requires |Strip(s)| > 0 && Strip(s)[0] == '.'
    ensures StoryTitle(Some(s)) == DefaultFileTitle
  {
    assert IndexOf(Strip(s), '.') == 0;
  }

  // ---------------------------------------------------------------------------
  // generate_quest_with_ai

  /** `setting_keywords` in dictionary (insertion) order. */
  const AiSettingRules: seq<Rule> := [
    Rule("fantasy", ["магический", "древний", "зачарованный", "мистический"]),
    Rule("cyberpunk", ["технологичный", "футуристический", "цифровой", "неоновый"]),
    Rule("post-apocalyptic", ["разрушенный", "заброшенный", "опасный", "выживание"]),
    Rule("sci-fi", ["космический", "инопланетный", "научный", "футуристический"]),
    Rule("horror", ["жуткий", "темный", "пугающий", "зловещий"]),
    Rule("western", ["дикий", "ковбойский", "пустынный", "приключенческий"])
  ]

  /** `quest_keywords` in dictionary (insertion) order. */
  const AiStyleRules: seq<Rule> := [
    Rule("adventure", ["приключение", "исследование", "открытие"]),
    Rule("detective", ["расследование", "загадка", "тайна"]),
    Rule("survival", ["выживание", "опасность", "борьба"]),
    Rule("politics", ["интриги", "власть", "дипломатия"]),
    Rule("romance", ["романтика", "чувства", "отношения"]),
    Rule("horror", ["ужас", "напряжение", "страх"])
  ]

  /** Every rule lists at least one keyword, so `[0]` of its list exists. */
  predicate KeywordsListed(rules: seq<Rule>) {
    forall k :: 0 <= k < |rules| ==> |rules[k].keywords| > 0
  }

  /** No key is listed twice, as in a dictionary. */
  predicate KeysDistinct(rules: seq<Rule>) {
    forall a, b :: 0 <= a < b < |rules| ==> rules[a].key != rules[b].key
  }

  /** `keywords.get(key, [fallback])[0]`: the first keyword listed under `key`. */
  function FirstKeyword(rules: seq<Rule>, key: string, fallback: string): (w: string)
    requires KeywordsListed(rules)
    ensures (forall k :: 0 <= k < |rules| ==> rules[k].key != key) ==> w == fallback
    ensures forall i :: (0 <= i < |rules| && rules[i].key == key &&
      (forall k :: 0 <= k < i ==> rules[k].key != key)) ==> w == rules[i].keywords[0]
  {
    if |rules| == 0 then fallback
    else if rules[0].key == key then rules[0].keywords[0]
    else
      assert forall k :: 1 <= k < |rules| ==> rules[1..][k - 1] == rules[k];
      FirstKeyword(rules[1..], key, fallback)
  }

  /** In a table with distinct keys the word listed first under a rule's key is that
      rule's first keyword. */
  lemma FirstKeywordOfDistinct(rules: seq<Rule>, i: nat, fallback: string)
    requires KeywordsListed(rules) && KeysDistinct(rules) && i < |rules|
    ensures FirstKeyword(rules, rules[i].key, fallback) == rules[i].keywords[0]
  {
  }

  /** The setting `generate_quest_with_ai` detects is always a key of
      `setting_keywords` (the default "fantasy" included). */
  function AiSetting(prompt: string): (r: string)
    ensures exists k | 0 <= k < |AiSettingRules| :: AiSettingRules[k].key == r
  {
    assert AiSettingRules[0].key == "fantasy";
    Classify(AiSettingRules, Lower(prompt), "fantasy")
  }

  /** The style it detects is always a key of `quest_keywords`. */
  function AiStyle(prompt: string): (r: string)
    ensures exists k | 0 <= k < |AiStyleRules| :: AiStyleRules[k].key == r
  {
    assert AiStyleRules[0].key == "adventure";
    Classify(AiStyleRules, Lower(prompt), "adventure")
  }

  /** The first keyword of the first rule with a keyword in `text`, or `dflt`. */
  function FirstMatchWord(rules: seq<Rule>, text: string, dflt: string): string
    requires KeywordsListed(rules)
  {
    var i := FirstMatchIndex(rules, text);
    if i < |rules| then rules[i].keywords[0] else dflt
  }

  /** Looking up the first keyword under the key the classification picks gives the
      first keyword of the first matching rule; with no match, the first rule's key is
      the default and its first keyword comes out. */
  lemma FirstKeywordOfFirstMatch(rules: seq<Rule>, text: string, fallback: string)
    requires KeywordsListed(rules) && KeysDistinct(rules) && |rules| > 0
    ensures FirstKeyword(rules, Classify(rules, text, rules[0].key), fallback) ==
      FirstMatchWord(rules, text, rules[0].keywords[0])
  {
    var i := FirstMatchIndex(rules, text);
    FirstKeywordOfDistinct(rules, if i < |rules| then i else 0, fallback);
  }

  lemma AiTablesWellFormed()
    ensures KeywordsListed(AiSettingRules) && KeysDistinct(AiSettingRules)
    ensures KeywordsListed(AiStyleRules) && KeysDistinct(AiStyleRules)
    ensures AiSettingRules[0].key == "fantasy" && AiSettingRules[0].keywords[0] == "магический"
    ensures AiStyleRules[0].key == "adventure" && AiStyleRules[0].keywords[0] == "приключение"
  {
  }

  /** The text `generate_quest_with_ai` returns for a prompt: the setting phrase is the
      first keyword of the first setting rule the lower-cased prompt matches
      ("магический" when none does), the style phrase likewise ("приключение"), then
      the prompt's first hundred characters. */
  function GenerateQuestWithAi(prompt: string): (r: string)
    ensures StartsWith(r, "Это ")
    ensures EndsWith(r, Take(prompt, 100) + "...")
  {
    AiTablesWellFormed();
    var sd := FirstKeyword(AiSettingRules, AiSetting(prompt), "увлекательный");
    var qd := FirstKeyword(AiStyleRules, AiStyle(prompt), "захватывающий");
    var middle := sd + " мир, где вас ждет " + qd + " квест. ";
    var tail := Take(prompt, 100) + "...";
    ConcatEdges("Это ", middle, tail);
    "Это " + middle + tail
  }

  /** The phrases of the text name what the prompt matched: the setting phrase is the
      first keyword of the first setting rule the lower-cased prompt matches
      ("магический" when none does), and the style phrase likewise ("приключение"). */
  lemma AiTextNamesFirstMatch(prompt: string)
    ensures KeywordsListed(AiSettingRules) && KeywordsListed(AiStyleRules)
    ensures GenerateQuestWithAi(prompt) ==
      "Это " + (FirstMatchWord(AiSettingRules, Lower(prompt), "магический") +
      " мир, где вас ждет " + FirstMatchWord(AiStyleRules, Lower(prompt), "приключение") +
      " квест. ") + (Take(prompt, 100) + "...")
  {
    AiTablesWellFormed();
    FirstKeywordOfFirstMatch(AiSettingRules, Lower(prompt), "увлекательный");
    FirstKeywordOfFirstMatch(AiStyleRules, Lower(prompt), "захватывающий");
  }

  /** "футуристический" is listed under both cyberpunk and sci-fi; cyberpunk comes
      first, so a prompt containing it is never classified sci-fi. */
  lemma FuturisticIsNeverSciFi(prompt: string)
    requires Contains(Lower(prompt), "футуристический")
    ensures AiSetting(prompt) in ["fantasy", "cyberpunk"]
  {
    var text := Lower(prompt);
    assert RuleMatches(AiSettingRules[1], text) by {
      assert Contains(text, AiSettingRules[1].keywords[1]);
    }
    var i := FirstMatchIndex(AiSettingRules, text);
    assert i <= 1;
    assert AiSetting(prompt) == AiSettingRules[i].key;
  }

  /** With no keyword present, the text opens with the fantasy and adventure words. */
  lemma NoKeywordGivesDefaults(prompt: string)
    requires forall k :: 0 <= k < |AiSettingRules| ==> !RuleMatches(AiSettingRules[k], Lower(prompt))
    requires forall k :: 0 <= k < |AiStyleRules| ==> !RuleMatches(AiStyleRules[k], Lower(prompt))
    ensures GenerateQuestWithAi(prompt) ==
      "Это " + ("магический" + " мир, где вас ждет " + "приключение" + " квест. ") +
      (Take(prompt, 100) + "...")
  {
    assert AiSetting(prompt) == "fantasy" && AiStyle(prompt) == "adventure";
    assert FirstKeyword(AiSettingRules, "fantasy", "увлекательный") == "магический";
    assert FirstKeyword(AiStyleRules, "adventure", "захватывающий") == "приключение";
  }

  // ---------------------------------------------------------------------------
  // create_mock_quest

  const MockDescription := "Захватывающее приключение в неизвестном мире"

  /** File mode: the request says "file" and carries non-empty content. */
  predicate FileMode(request: QuestRequest) {
    request.inputMethod == "file" && request.fileContent.Some? && request.fileContent.value != ""
  }

  /** The five values the mock quest is built from. */
  datatype MockBasis = MockBasis(
    setting: string, startingPoint: string, questStyle: string,
    description: string, title: string)

  function Basis(request: QuestRequest, extract: string -> FileCaptures): (b: MockBasis)
    ensures !FileMode(request) ==>
      b == MockBasis(request.setting, request.startingPoint, request.questStyle,
                     MockDescription, "Поиск артефакта")
    ensures FileMode(request) ==>
      var p := ParseFileContent(extract(request.fileContent.value));
      b.setting == p.setting && b.questStyle == p.questStyle && b.title == p.title &&
      (p.startingPoint != "" ==> b.startingPoint == p.startingPoint) &&
      (p.startingPoint == "" ==> b.startingPoint == request.startingPoint) &&
      (p.description != "" ==> b.description == p.description) &&
      (p.description == "" ==> b.description == MockDescription)
  {
    if FileMode(request) then
      var p := ParseFileContent(extract(request.fileContent.value));
      MockBasis(
        p.setting,
        if p.startingPoint != "" then p.startingPoint else request.startingPoint,
        p.questStyle,
        if p.description != "" then p.description else MockDescription,
        p.title)
    else
      MockBasis(request.setting, request.startingPoint, request.questStyle,
                MockDescription, "Поиск артефакта")
  }

  function MockPrompt(b: MockBasis): string {
    "Create a quest in " + b.setting + " setting starting at " + b.startingPoint +
    " with " + b.questStyle + " style"
  }

  function C(id: string, text: string, next: string): ApiChoice {
    ApiChoice(id, text, next, None, None)
  }

  // The texts of the mock scenes: titles, descriptions and choice texts.
  const Scene1Title := "Начало пути"
  const Scene1Lead := "Вы находитесь в "
  const Choice1Text := "Исследовать окрестности"
  const Choice2Text := "Поговорить с местными"
  const Scene2Title := "Исследование"
  const Scene2Text := "Вы обнаруживаете интересные следы, ведущие вглубь территории."
  const Choice3Text := "Следовать по следам"
  const Choice4Text := "Вернуться назад"
  const Scene3Title := "Разговор с местными"
  const Scene3Text := "Местные жители рассказывают о странных событиях в последнее время."
  const Choice5Text := "Узнать больше"
  const Choice6Text := "Покинуть это место"
  const Scene4Title := "Тайна раскрывается"
  const Scene4Text := "Вы находите ключ к разгадке тайны этого места."
  const Choice7Text := "Продолжить приключение"
  const Scene5Title := "Конец пути"
  const Scene5Text := "Вы решаете покинуть это место и вернуться к обычной жизни."
  const Scene6Title := "Финальная битва"
  const Scene6Text := "Вы сталкиваетесь с главным антагонистом и должны сделать выбор."
  const Choice8Text := "Сражаться"
  const Choice9Text := "Попытаться договориться"
  const Scene7Title := "Победа"
  const Scene7Text := "Вы побеждаете зло и спасаете мир!"
  const Scene8Title := "Мирное решение"
  const Scene8Text := "Вам удается найти мирное решение конфликта."

  function MockScenes(startingPoint: string, ai: string): (s: seq<ApiScene>)
    ensures |s| == 8
  {
    [
      ApiScene("scene-1", Scene1Title,
        Scene1Lead + startingPoint + ". " + Take(ai, 200) + "...",
        "loc-1", Some(["char-1"]), None,
        [C("choice-1", Choice1Text, "scene-2"),
         C("choice-2", Choice2Text, "scene-3")], None),
      ApiScene("scene-2", Scene2Title,
        Scene2Text,
        "loc-2", None, None,
        [C("choice-3", Choice3Text, "scene-4"),
         C("choice-4", Choice4Text, "scene-1")], None),
      ApiScene("scene-3", Scene3Title,
        Scene3Text,
        "loc-1", Some(["char-1"]), None,
        [C("choice-5", Choice5Text, "scene-4"),
         C("choice-6", Choice6Text, "scene-5")], None),
      ApiScene("scene-4", Scene4Title,
        Scene4Text,
        "loc-3", None, Some(["item-1"]),
        [C("choice-7", Choice7Text, "scene-6")], None),
      ApiScene("scene-5", Scene5Title,
        Scene5Text,
        "loc-1", None, None, [], Some(true)),
      ApiScene("scene-6", Scene6Title,
        Scene6Text,
        "loc-4", Some(["char-2"]), None,
        [C("choice-8", Choice8Text, "scene-7"),
         C("choice-9", Choice9Text, "scene-8")], None),
      ApiScene("scene-7", Scene7Title, Scene7Text,
        "loc-4", None, None, [], Some(true)),
      ApiScene("scene-8", Scene8Title, Scene8Text,
        "loc-4", None, None, [], Some(true))
    ]
  }

  /** The two characters: a friendly informant marked as an ally, and the dark lord
      marked as an enemy. */
  function MockCharacters(): (cs: seq<ApiCharacter>)
    ensures |cs| == 2 && cs[0].id != cs[1].id
    ensures cs[0].isAlly == Some(true) && cs[0].isEnemy.None?
    ensures cs[1].isEnemy == Some(true) && cs[1].isAlly.None?
  {
    [
      ApiCharacter("char-1", "Местный житель", "Информатор",
        "Дружелюбный местный житель, готовый помочь", None, None, Some(true)),
      ApiCharacter("char-2", "Темный лорд", "Антагонист",
        "Могущественный злодей, угрожающий миру", None, Some(true), None)
    ]
  }

  function MockLocations(startingPoint: string): (ls: seq<ApiLocation>)
    ensures |ls| == 4 && ls[0].name == startingPoint
  {
    [
      ApiLocation("loc-1", startingPoint,
        "Начальная точка вашего приключения: " + startingPoint, None, None),
      ApiLocation("loc-2", "Загадочная территория", "Странное место с необычными следами", None, None),
      ApiLocation("loc-3", "Секретная комната", "Скрытое помещение с важными артефактами", None, None),
      ApiLocation("loc-4", "Финальная арена", "Место решающей битвы", None, None)
    ]
  }

  /** The single item, a key item. */
  function MockItems(): (ts: seq<ApiItem>)
    ensures |ts| == 1 && ts[0].isKey == Some(true)
  {
    [ApiItem("item-1", "Древний ключ", "Магический ключ, открывающий тайны", Some(true), None)]
  }

  /** The quest `create_mock_quest` answers with. */
  function CreateMockQuest(request: QuestRequest, extract: string -> FileCaptures): (q: ApiQuest)
    ensures var b := Basis(request, extract);
      q.setting == b.setting && q.questStyle == b.questStyle &&
      q.startingPoint == b.startingPoint && q.title == b.title && q.description == b.description
    ensures |q.scenes| == 8 && |q.characters| == 2 && |q.locations| == 4 && |q.items| == 1
    ensures q.locations[0].name == q.startingPoint
  {
    var b := Basis(request, extract);
    var ai := GenerateQuestWithAi(MockPrompt(b));
    assert |MockCharacters()| == 2 && |MockItems()| == 1;
    ApiQuest("quest-1", b.title, b.description, b.setting, b.questStyle, b.startingPoint,
      MockScenes(b.startingPoint, ai), MockCharacters(), MockLocations(b.startingPoint), MockItems())
  }

  /** The id a mock scene carries at list position `i`. */
  function MockSceneId(i: nat): string {
    "scene-" + IntToString(i + 1)
  }

  /** The mock quest's scenes are `scene-1` .. `scene-8` in order, every choice names
      one of them, and exactly scenes 5, 7 and 8 are endings, each without choices. */
  lemma MockQuestClosed(request: QuestRequest, extract: string -> FileCaptures)
    ensures var s := CreateMockQuest(request, extract).scenes;
      ApiClosed(s) &&
      (forall i :: 0 <= i < |s| ==> s[i].id == MockSceneId(i)) &&
      (forall i :: 0 <= i < |s| ==>
        (s[i].isEnding == Some(true) <==> i in {4, 6, 7}) &&
        (s[i].isEnding == Some(true) <==> s[i].choices == []))
  {
    var q := CreateMockQuest(request, extract);
    var b := Basis(request, extract);
    MockScenesClosed(b.startingPoint, GenerateQuestWithAi(MockPrompt(b)));
  }

  lemma MockScenesClosed(startingPoint: string, ai: string)
    ensures var s := MockScenes(startingPoint, ai);
      ApiClosed(s) &&
      (forall i :: 0 <= i < |s| ==> s[i].id == MockSceneId(i)) &&
      (forall i :: 0 <= i < |s| ==>
        (s[i].isEnding == Some(true) <==> i in {4, 6, 7}) &&
        (s[i].isEnding == Some(true) <==> s[i].choices == []))
  {
    var s := MockScenes(startingPoint, ai);
    forall i | 0 <= i < |s| ensures s[i].id == MockSceneId(i) {
      assert IntToString(i + 1) == [DigitChar(i + 1)];
    }
    forall i, j | 0 <= i < |s| && 0 <= j < |s[i].choices|
      ensures HasApiScene(s, s[i].choices[j].nextSceneId)
    {
      var next := s[i].choices[j].nextSceneId;
      if i == 0 { if j == 0 { assert s[1].id == next; } else { assert s[2].id == next; } }
      else if i == 1 { if j == 0 { assert s[3].id == next; } else { assert s[0].id == next; } }
      else if i == 2 { if j == 0 { assert s[3].id == next; } else { assert s[4].id == next; } }
      else if i == 3 { assert s[5].id == next; }
      else if i == 5 { if j == 0 { assert s[6].id == next; } else { assert s[7].id == next; } }
    }
  }

  // ---------------------------------------------------------------------------
  // is_safe_text

  /** Python's `string.printable`: digits, ASCII letters, punctuation, whitespace. */
  const Printable: string :=
    "0123456789" + "abcdefghijklmnopqrstuvwxyz" + "ABCDEFGHIJKLMNOPQRSTUVWXYZ" +
    "!\"#$%&'()*+,-./:;<=>?@[\\]^_`{|}~" + " \t\n\r\U{0B}\U{0C}"

  /** The characters `is_safe_text` admits: `string.printable`, the Russian alphabet in
      both cases, and space, LF, CR and tab once more. */
  const SafeChars: string :=
    Printable +
    "абвгдеёжзийклмнопрстуфхцчшщъыьэюяАБВГДЕЁЖЗИЙКЛМНОПРСТУФХЦЧШЩЪЫЬЭЮЯ \n\r\t"

  predicate IsSafeText(text: string) {
    forall i :: 0 <= i < |text| ==> text[i] in SafeChars
  }

  /** The empty text is safe, and a concatenation is safe exactly when both parts are. */
  lemma SafeTextConcat(a: string, b: string)
    ensures IsSafeText("")
    ensures IsSafeText(a + b) <==> IsSafeText(a) && IsSafeText(b)
  {
    if IsSafeText(a + b) {
      forall i | 0 <= i < |a| ensures a[i] in SafeChars { assert (a + b)[i] == a[i]; }
      forall i | 0 <= i < |b| ensures b[i] in SafeChars { assert (a + b)[|a| + i] == b[i]; }
    }
  }

  // ---------------------------------------------------------------------------
  // generate_quest: validation

  const MaxFileChars := 1_000_000

  const MissingStartingPoint := "Необходимо указать отправную точку"

  const MissingFile := "Необходимо загрузить файл"

  /** The requests the endpoint accepts, stated field by field. */
  predicate Acceptable(request: QuestRequest) {
    (request.inputMethod == "form" ==> request.startingPoint != "") &&
    (request.inputMethod == "file" ==>
      request.fileContent.Some? && request.fileContent.value != "" &&
      |request.fileContent.value| <= MaxFileChars && IsSafeText(request.fileContent.value))
  }

  /** The validation checks of `generate_quest`, in order; the first that fails names
      the 400 error raised. */
  function Validate(request: QuestRequest): (e: Option<HttpError>)
    ensures e.None? <==> Acceptable(request)
    ensures e.Some? ==> e.value.status == 400
    ensures request.inputMethod == "form" && request.startingPoint == "" ==>
      e == Some(HttpError(400, MissingStartingPoint))
  {
    if request.inputMethod == "form" && request.startingPoint == "" then
      Some(HttpError(400, MissingStartingPoint))
    else if request.inputMethod == "file" then
      if request.fileContent.None? || request.fileContent.value == "" then
        Some(HttpError(400, MissingFile))
      else if |request.fileContent.value| > MaxFileChars then
        Some(HttpError(400, "Файл слишком большой (макс. 1 МБ)"))
      else if !IsSafeText(request.fileContent.value) then
        Some(HttpError(400, "Недопустимые символы в файле"))
      else None
    else None
  }

  /** An oversized file with unsafe characters reports its size: size comes first. */
  lemma SizeCheckedBeforeCharacters(request: QuestRequest)
    requires request.inputMethod == "file" && request.fileContent.Some?
    requires |request.fileContent.value| > MaxFileChars
    ensures Validate(request) == Some(HttpError(400, "Файл слишком большой (макс. 1 МБ)"))
  {
  }

  /** `str(e)` of an `HTTPException`: "<status>: <detail>". */
  function ExceptionText(e: HttpError): string {
    IntToString(e.status) + ": " + e.detail
  }

  const GenerateErrorPrefix := "Ошибка при генерации квеста: "

  /** `generate_quest` as written: the 400 raised by validation is caught by the
      surrounding `except Exception` and re-raised as a 500 whose detail embeds it. */
  function GenerateQuestAsWritten(request: QuestRequest, extract: string -> FileCaptures)
    : (r: Result<ApiQuest, HttpError>)
    ensures r.Success? <==> Acceptable(request)
    ensures r.Failure? ==> r.error.status == 500
  {
    match Validate(request)
    case Some(e) => Failure(HttpError(500, GenerateErrorPrefix + ExceptionText(e)))
    case None => Success(CreateMockQuest(request, extract))
  }

  /** A form request without a starting point gets status 500, not the 400 the
      validation raises, and the 400 shows up inside the detail text. */
  lemma ValidationErrorBecomes500(extract: string -> FileCaptures)
    ensures var r := QuestRequest("fantasy", "", "adventure", None, None, None, "form");
      var out := GenerateQuestAsWritten(r, extract);
      out.Failure? && out.error.status == 500 &&
      out.error.detail == GenerateErrorPrefix + "400: " + MissingStartingPoint
  {
    var r := QuestRequest("fantasy", "", "adventure", None, None, None, "form");
    var e := HttpError(400, MissingStartingPoint);
    assert Validate(r) == Some(e);
    assert ExceptionText(e) == "400: " + MissingStartingPoint by {
      assert IntToString(400) == "400" by {
        assert NatToString(400) == NatToString(40) + ['0'];
        assert NatToString(40) == NatToString(4) + ['0'];
      }
      assert "400" + ": " == "400: ";
    }
    AppendAssoc(GenerateErrorPrefix, "400: ", MissingStartingPoint);
  }

  /** `generate_quest` with validation errors passed through unchanged as 400s. */
  function GenerateQuest(request: QuestRequest, extract: string -> FileCaptures)
    : (r: Result<ApiQuest, HttpError>)
    ensures r.Success? <==> Acceptable(request)
    ensures r.Success? ==> r.value == CreateMockQuest(request, extract)
    ensures r.Failure? ==> r.error.status == 400 && Some(r.error) == Validate(request)
  {
    match Validate(request)
    case Some(e) => Failure(e)
    case None => Success(CreateMockQuest(request, extract))
  }

  /** The client sees the validation message itself in the error body's `message`. */
  lemma ValidationMessageReachesClient(request: QuestRequest, extract: string -> FileCaptures)
    requires !Acceptable(request)
    ensures var r := GenerateQuest(request, extract);
      r.Failure? && HandlerBody(r.error) == ErrorBody(400, Validate(request).value.detail, None)
  {
  }
}
