/** The quest both frontend stores fall back to (src/store/generatorStore.ts:163-463,
    and the identical literal at frontend/src/store/generatorStore.ts:107-407):
    eighteen scenes, five characters, seven locations and three items. Only the quest's
    `setting`, `questStyle` and `startingPoint` and the first scene's description
    depend on the user's input.

    The scene list is assembled one scene at a time. `MockPrefix` is what every prefix
    of the list satisfies (ids in order, targets and locations among the fixture's
    ids, endings exactly at the ending positions and exactly where no choice is left);
    each `AddSceneK` appends scene K and keeps it, so `MockQuest` reads the quest-level
    facts off the complete list without re-reading the fixture's prose. */
module StoreMock {
  import opened Wrappers
  import opened QuestTypes
  import opened Text

  function Ch(id: string, text: string, next: string): Choice {
    Choice(id, text, Some(next), None, None)
  }

  // The descriptions of the fallback's scenes; scene 1's is built around the
  // starting point.
  const Scene1Lead := "Вы находитесь в "
  const Scene1Rest := ". Вокруг вас суета и шум. К вам подходит старец и рассказывает о древнем артефакте."
  const Scene2Text := "Старец рассказывает вам о древней библиотеке, где можно найти больше информации об артефакте."
  const Scene3Text := "Вы решаете не ввязываться в эту историю. Старец уходит с разочарованием."
  const Scene4Text := "В древней библиотеке вы находите манускрипт, описывающий местонахождение артефакта в пещерах на севере."
  const Scene5Text := "В таверне вы встречаете странного путешественника, который утверждает, что знает о артефакте."
  const Scene6Text := "Вы достигаете пещер и находите древний храм внутри. Вход охраняет каменный голем."
  const Scene7Text := "Старец изучает манускрипт и предупреждает об опасностях, которые ждут вас в пещерах."
  const Scene8Text := "Путешественник заводит вас в ловушку и оказывается приспешником тёмных сил."
  const Scene9Text := "Вам удаётся обойти голема и проникнуть в храм. В центре на постаменте лежит артефакт."
  const Scene10Text := "Вы вступаете в битву с големом, но он слишком силён. Вам приходится отступить."
  const Scene11Text := "Старец даёт вам амулет, который поможет усмирить голема."
  const Scene12Text := "Вам удаётся сбежать от тёмных сил, но вы ранены."
  const Scene13Text := "Вы сражаетесь отважно, но силы неравны. Тьма поглощает вас."
  const Scene14Text := "Как только вы касаетесь артефакта, древнее проклятие активируется. Вы становитесь его новым хранителем, обречённым на вечность в храме."
  const Scene15Text := "Осмотревшись, вы замечаете древние письмена, предупреждающие о проклятии. Вы находите способ безопасно извлечь артефакт."
  const Scene16Text := "С помощью амулета вы усмиряете голема, и он пропускает вас в храм."
  const Scene17Text := "Вам помогает таинственный незнакомец, который оказывается союзником старца."
  const Scene18Text := "Вы возвращаетесь с артефактом и передаёте его старцу. Свет возвращается в мир, а вы становитесь легендой."

  /** Appends scene 1 (at loc-1). */
  method AddScene1(s: seq<Scene>, startingPoint: string) returns (r: seq<Scene>)
    requires MockPrefix(s) && |s| == 0
    ensures MockPrefix(r) && |r| == 1
    ensures r[0].title == "Начало пути" && Contains(r[0].description, startingPoint)
  {
    ContainsMiddle(Scene1Lead, startingPoint, Scene1Rest);
    var sc := Scene("scene-1", "Начало пути",
      Scene1Lead + startingPoint + Scene1Rest,
      "loc-1", Some(["char-1"]), None,
      [Ch("choice-1", "Расспросить подробнее о артефакте", "scene-2"),
       Ch("choice-2", "Отказаться от задания", "scene-3")], None);
    ExtendMockPrefix(s, sc);
    r := s + [sc];
  }

  /** Appends scene 2 (at loc-1). */
  method AddScene2(s: seq<Scene>) returns (r: seq<Scene>)
    requires MockPrefix(s) && |s| == 1
    ensures MockPrefix(r) && |r| == 2 && r[..|s|] == s
  {
    var sc := Scene("scene-2", "Поиски информации",
      Scene2Text,
      "loc-1", Some(["char-1"]), None,
      [Ch("choice-3", "Отправиться в библиотеку", "scene-4"),
       Ch("choice-4", "Поискать информацию в таверне", "scene-5")], None);
    ExtendMockPrefix(s, sc);
    r := s + [sc];
  }

  /** Appends scene 3 (an ending). */
  method AddScene3(s: seq<Scene>) returns (r: seq<Scene>)
    requires MockPrefix(s) && |s| == 2
    ensures MockPrefix(r) && |r| == 3 && r[..|s|] == s
  {
    var sc := Scene("scene-3", "Отказ",
      Scene3Text,
      "loc-1", None, None,
      [], Some(true));
    ExtendMockPrefix(s, sc);
    r := s + [sc];
  }

  /** Appends scene 4 (at loc-2). */
  method AddScene4(s: seq<Scene>) returns (r: seq<Scene>)
    requires MockPrefix(s) && |s| == 3
    ensures MockPrefix(r) && |r| == 4 && r[..|s|] == s
  {
    var sc := Scene("scene-4", "Библиотека",
      Scene4Text,
      "loc-2", None, Some(["item-1"]),
      [Ch("choice-5", "Отправиться к пещерам", "scene-6"),
       Ch("choice-6", "Показать манускрипт старцу", "scene-7")], None);
    ExtendMockPrefix(s, sc);
    r := s + [sc];
  }

  /** Appends scene 5 (at loc-3). */
  method AddScene5(s: seq<Scene>) returns (r: seq<Scene>)
    requires MockPrefix(s) && |s| == 4
    ensures MockPrefix(r) && |r| == 5 && r[..|s|] == s
  {
    var sc := Scene("scene-5", "Таверна",
      Scene5Text,
      "loc-3", Some(["char-2"]), None,
      [Ch("choice-7", "Довериться путешественнику", "scene-8"),
       Ch("choice-8", "Отказаться от его помощи", "scene-4")], None);
    ExtendMockPrefix(s, sc);
    r := s + [sc];
  }

  /** Appends scene 6 (at loc-4). */
  method AddScene6(s: seq<Scene>) returns (r: seq<Scene>)
    requires MockPrefix(s) && |s| == 5
    ensures MockPrefix(r) && |r| == 6 && r[..|s|] == s
  {
    var sc := Scene("scene-6", "Пещеры",
      Scene6Text,
      "loc-4", Some(["char-3"]), None,
      [Ch("choice-9", "Попытаться обойти голема", "scene-9"),
       Ch("choice-10", "Атаковать голема", "scene-10")], None);
    ExtendMockPrefix(s, sc);
    r := s + [sc];
  }

  /** Appends scene 7 (at loc-1). */
  method AddScene7(s: seq<Scene>) returns (r: seq<Scene>)
    requires MockPrefix(s) && |s| == 6
    ensures MockPrefix(r) && |r| == 7 && r[..|s|] == s
  {
    var sc := Scene("scene-7", "Возвращение к старцу",
      Scene7Text,
      "loc-1", Some(["char-1"]), None,
      [Ch("choice-11", "Всё равно отправиться к пещерам", "scene-6"),
       Ch("choice-12", "Попросить старца о помощи", "scene-11")], None);
    ExtendMockPrefix(s, sc);
    r := s + [sc];
  }

  /** Appends scene 8 (at loc-5). */
  method AddScene8(s: seq<Scene>) returns (r: seq<Scene>)
    requires MockPrefix(s) && |s| == 7
    ensures MockPrefix(r) && |r| == 8 && r[..|s|] == s
  {
    var sc := Scene("scene-8", "Ловушка",
      Scene8Text,
      "loc-5", Some(["char-2", "char-4"]), None,
      [Ch("choice-13", "Попытаться сбежать", "scene-12"),
       Ch("choice-14", "Сражаться", "scene-13")], None);
    ExtendMockPrefix(s, sc);
    r := s + [sc];
  }

  /** Appends scene 9 (at loc-6). */
  method AddScene9(s: seq<Scene>) returns (r: seq<Scene>)
    requires MockPrefix(s) && |s| == 8
    ensures MockPrefix(r) && |r| == 9 && r[..|s|] == s
  {
    var sc := Scene("scene-9", "Храм",
      Scene9Text,
      "loc-6", None, Some(["item-2"]),
      [Ch("choice-15", "Взять артефакт", "scene-14"),
       Ch("choice-16", "Осмотреться внимательнее", "scene-15")], None);
    ExtendMockPrefix(s, sc);
    r := s + [sc];
  }

  /** Appends scene 10 (at loc-4). */
  method AddScene10(s: seq<Scene>) returns (r: seq<Scene>)
    requires MockPrefix(s) && |s| == 9
    ensures MockPrefix(r) && |r| == 10 && r[..|s|] == s
  {
    var sc := Scene("scene-10", "Битва с големом",
      Scene10Text,
      "loc-4", Some(["char-3"]), None,
      [Ch("choice-17", "Искать другой путь", "scene-9"),
       Ch("choice-18", "Вернуться к старцу", "scene-7")], None);
    ExtendMockPrefix(s, sc);
    r := s + [sc];
  }

  /** Appends scene 11 (at loc-1). */
  method AddScene11(s: seq<Scene>) returns (r: seq<Scene>)
    requires MockPrefix(s) && |s| == 10
    ensures MockPrefix(r) && |r| == 11 && r[..|s|] == s
  {
    var sc := Scene("scene-11", "Помощь старца",
      Scene11Text,
      "loc-1", Some(["char-1"]), Some(["item-3"]),
      [Ch("choice-19", "Отправиться к пещерам", "scene-16")], None);
    ExtendMockPrefix(s, sc);
    r := s + [sc];
  }

  /** Appends scene 12 (at loc-7). */
  method AddScene12(s: seq<Scene>) returns (r: seq<Scene>)
    requires MockPrefix(s) && |s| == 11
    ensures MockPrefix(r) && |r| == 12 && r[..|s|] == s
  {
    var sc := Scene("scene-12", "Побег",
      Scene12Text,
      "loc-7", None, None,
      [Ch("choice-20", "Искать помощи", "scene-17"),
       Ch("choice-21", "Продолжить путь к пещерам", "scene-6")], None);
    ExtendMockPrefix(s, sc);
    r := s + [sc];
  }

  /** Appends scene 13 (an ending). */
  method AddScene13(s: seq<Scene>) returns (r: seq<Scene>)
    requires MockPrefix(s) && |s| == 12
    ensures MockPrefix(r) && |r| == 13 && r[..|s|] == s
  {
    var sc := Scene("scene-13", "Поражение",
      Scene13Text,
      "loc-5", None, None,
      [], Some(true));
    ExtendMockPrefix(s, sc);
    r := s + [sc];
  }

  /** Appends scene 14 (an ending). */
  method AddScene14(s: seq<Scene>) returns (r: seq<Scene>)
    requires MockPrefix(s) && |s| == 13
    ensures MockPrefix(r) && |r| == 14 && r[..|s|] == s
  {
    var sc := Scene("scene-14", "Проклятие",
      Scene14Text,
      "loc-6", None, None,
      [], Some(true));
    ExtendMockPrefix(s, sc);
    r := s + [sc];
  }

  /** Appends scene 15 (at loc-6). */
  method AddScene15(s: seq<Scene>) returns (r: seq<Scene>)
    requires MockPrefix(s) && |s| == 14
    ensures MockPrefix(r) && |r| == 15 && r[..|s|] == s
  {
    var sc := Scene("scene-15", "Разгадка",
      Scene15Text,
      "loc-6", None, Some(["item-2"]),
      [Ch("choice-22", "Взять артефакт и вернуться", "scene-18")], None);
    ExtendMockPrefix(s, sc);
    r := s + [sc];
  }

  /** Appends scene 16 (at loc-4). */
  method AddScene16(s: seq<Scene>) returns (r: seq<Scene>)
    requires MockPrefix(s) && |s| == 15
    ensures MockPrefix(r) && |r| == 16 && r[..|s|] == s
  {
    var sc := Scene("scene-16", "Усмирение голема",
      Scene16Text,
      "loc-4", Some(["char-3"]), None,
      [Ch("choice-23", "Войти в храм", "scene-9")], None);
    ExtendMockPrefix(s, sc);
    r := s + [sc];
  }

  /** Appends scene 17 (at loc-7). */
  method AddScene17(s: seq<Scene>) returns (r: seq<Scene>)
    requires MockPrefix(s) && |s| == 16
    ensures MockPrefix(r) && |r| == 17 && r[..|s|] == s
  {
    var sc := Scene("scene-17", "Помощь незнакомца",
      Scene17Text,
      "loc-7", Some(["char-5"]), None,
      [Ch("choice-24", "Принять его помощь", "scene-11"),
       Ch("choice-25", "Отказаться от помощи", "scene-6")], None);
    ExtendMockPrefix(s, sc);
    r := s + [sc];
  }

  /** Appends scene 18 (an ending). */
  method AddScene18(s: seq<Scene>) returns (r: seq<Scene>)
    requires MockPrefix(s) && |s| == 17
    ensures MockPrefix(r) && |r| == 18 && r[..|s|] == s
  {
    var sc := Scene("scene-18", "Возвращение героя",
      Scene18Text,
      "loc-1", Some(["char-1"]), None,
      [], Some(true));
    ExtendMockPrefix(s, sc);
    r := s + [sc];
  }

  // The descriptions and goals of the fallback's characters.
  const Character1Text := "Древний мудрец с длинной седой бородой и глубокими знаниями о мире."
  const Character1Goal := "Восстановить свет в мире и победить тьму."
  const Character2Text := "Харизматичный путешественник в потрёпанном плаще с таинственной улыбкой."
  const Character2Goal := "Заполучить артефакт для своего тёмного хозяина."
  const Character3Text := "Огромное существо из камня, охраняющее вход в древний храм."
  const Character3Goal := "Защищать храм от недостойных."
  const Character4Text := "Последователь тёмных сил в чёрных одеждах с символами тьмы."
  const Character4Goal := "Служить тьме и не допустить возвращения света."
  const Character5Text := "Ловкий лучник с острым взглядом и быстрыми рефлексами."
  const Character5Goal := "Помогать тем, кто борется против тьмы."

  method MockCharacters() returns (cs: seq<Character>)
    ensures |cs| == 5
    ensures forall k :: 0 <= k < |cs| ==> cs[k].id == ["char-1", "char-2", "char-3", "char-4", "char-5"][k]
  {
    cs := [
      Character("char-1", "Старец Мирон", "Наставник",
        Character1Text,
        Some(Character1Goal), None, Some(true)),
      Character("char-2", "Странник Корвус", "Обманщик",
        Character2Text,
        Some(Character2Goal), Some(true), None),
      Character("char-3", "Каменный голем", "Страж",
        Character3Text,
        Some(Character3Goal), None, None),
      Character("char-4", "Культист тьмы", "Враг",
        Character4Text,
        Some(Character4Goal), Some(true), None),
      Character("char-5", "Лучник Элиан", "Помощник",
        Character5Text,
        Some(Character5Goal), None, Some(true))
    ];
  }

  // The descriptions of the fallback's locations.
  const Location1Text := "Небольшая деревня на берегу реки, одно из последних мест, где ещё сохранился свет."
  const Location2Text := "Огромное здание, заполненное книгами и свитками, хранящими знания тысячелетий."
  const Location3Text := "Шумное место, где собираются путешественники и местные жители для обмена новостями."
  const Location4Text := "Тёмные и холодные пещеры в горах, скрывающие древние тайны."
  const Location5Text := "Полуразрушенная башня в лесу, ставшая убежищем для последователей тьмы."
  const Location6Text := "Древний храм внутри пещер, построенный для хранения артефакта."
  const Location7Text := "Тихая поляна в лесу, окружённая высокими деревьями и кустарниками."

  method MockLocations() returns (ls: seq<Location>)
    ensures |ls| == 7
    ensures forall k :: 0 <= k < |ls| ==> ls[k].id == MockLocationIds[k]
  {
    ls := [
      Location("loc-1", "Деревня Светлоречье",
        Location1Text,
        Some(["char-1"]), None),
      Location("loc-2", "Древняя библиотека",
        Location2Text,
        None, Some(["item-1"])),
      Location("loc-3", "Таверна \"Пьяный гоблин\"",
        Location3Text,
        Some(["char-2"]), None),
      Location("loc-4", "Северные пещеры",
        Location4Text,
        Some(["char-3"]), None),
      Location("loc-5", "Заброшенная башня",
        Location5Text,
        Some(["char-2", "char-4"]), None),
      Location("loc-6", "Храм Света",
        Location6Text,
        None, Some(["item-2"])),
      Location("loc-7", "Лесная поляна",
        Location7Text,
        Some(["char-5"]), None)
    ];
  }

  // The descriptions of the fallback's items.
  const Item1Text := "Пожелтевший от времени свиток с картой и описанием местонахождения артефакта."
  const Item2Text := "Сияющий кристалл, способный рассеять тьму и восстановить баланс в мире."
  const Item3Text := "Древний амулет с символом мира, способный усмирить каменного голема."

  method MockItems() returns (its: seq<Item>)
    ensures |its| == 3
    ensures forall k :: 0 <= k < |its| ==> its[k].id == ["item-1", "item-2", "item-3"][k]
  {
    its := [
      Item("item-1", "Древний манускрипт",
        Item1Text,
        Some(true), None),
      Item("item-2", "Кристалл Света",
        Item2Text,
        Some(true), Some("Восстанавливает свет в мире")),
      Item("item-3", "Амулет Усмирения",
        Item3Text,
        Some(true), Some("Усмиряет големов и других магических стражей"))
    ];
  }

  /** The scene ids of the fallback, in list order. */
  const MockSceneIds: seq<string> := ["scene-1", "scene-2", "scene-3", "scene-4", "scene-5", "scene-6", "scene-7", "scene-8", "scene-9", "scene-10", "scene-11", "scene-12", "scene-13", "scene-14", "scene-15", "scene-16", "scene-17", "scene-18"]

  /** The location ids of the fallback, in list order. */
  const MockLocationIds: seq<string> := ["loc-1", "loc-2", "loc-3", "loc-4", "loc-5", "loc-6", "loc-7"]


  /** The positions of the ending scenes (scenes 3, 13, 14 and 18). */
  const MockEndingPositions: set<nat> := {2, 12, 13, 17}

  /** A scene list whose ids are `ids` in order, and whose choices all name one of
      `ids`, is referentially closed. */
  lemma TargetsInIdsClosed(s: seq<Scene>, ids: seq<string>)
    requires |s| == |ids| && forall i :: 0 <= i < |s| ==> s[i].id == ids[i]
    requires forall i, j :: 0 <= i < |s| && 0 <= j < |s[i].choices| ==>
      s[i].choices[j].nextSceneId.Some? && s[i].choices[j].nextSceneId.value in ids
    ensures ReferentiallyClosed(s)
  {
    forall i, j | 0 <= i < |s| && 0 <= j < |s[i].choices|
      ensures HasScene(s, s[i].choices[j].nextSceneId.value)
    {
      var k :| 0 <= k < |ids| && ids[k] == s[i].choices[j].nextSceneId.value;
      assert s[k].id == ids[k];
    }
  }

  /** A prefix of a scene list with scene ids `ids`, location ids `locs` and endings at
      `endings`: ids in order, choice targets among `ids`, locations among `locs`,
      endings exactly at the ending positions and exactly where there are no choices. */
  predicate PrefixOf(s: seq<Scene>, ids: seq<string>, locs: seq<string>, endings: set<nat>) {
    |s| <= |ids| &&
    (forall i :: 0 <= i < |s| ==> s[i].id == ids[i]) &&
    (forall i, j :: 0 <= i < |s| && 0 <= j < |s[i].choices| ==>
      s[i].choices[j].nextSceneId.Some? && s[i].choices[j].nextSceneId.value in ids) &&
    (forall i :: 0 <= i < |s| ==>
      (IsEndingScene(s[i]) <==> i in endings) &&
      (IsEndingScene(s[i]) <==> s[i].choices == [])) &&
    (forall i :: 0 <= i < |s| ==> s[i].locationId in locs)
  }

  /** Appending the next scene, when it fits the description, keeps a prefix a prefix. */
  lemma ExtendPrefix(s: seq<Scene>, sc: Scene, ids: seq<string>, locs: seq<string>, endings: set<nat>)
    requires PrefixOf(s, ids, locs, endings) && |s| < |ids| && sc.id == ids[|s|]
    requires forall j :: 0 <= j < |sc.choices| ==>
      sc.choices[j].nextSceneId.Some? && sc.choices[j].nextSceneId.value in ids
    requires (IsEndingScene(sc) <==> |s| in endings)
    requires (IsEndingScene(sc) <==> sc.choices == [])
    requires sc.locationId in locs
    ensures PrefixOf(s + [sc], ids, locs, endings)
  {
    var t := s + [sc];
    assert forall i :: 0 <= i < |s| ==> t[i] == s[i];
  }

  /** A prefix of the fallback's scene list. */
  predicate MockPrefix(s: seq<Scene>) {
    PrefixOf(s, MockSceneIds, MockLocationIds, MockEndingPositions)
  }

  lemma ExtendMockPrefix(s: seq<Scene>, sc: Scene)
    requires MockPrefix(s) && |s| < |MockSceneIds| && sc.id == MockSceneIds[|s|]
    requires forall j :: 0 <= j < |sc.choices| ==>
      sc.choices[j].nextSceneId.Some? && sc.choices[j].nextSceneId.value in MockSceneIds
    requires (IsEndingScene(sc) <==> |s| in MockEndingPositions)
    requires (IsEndingScene(sc) <==> sc.choices == [])
    requires sc.locationId in MockLocationIds
    ensures MockPrefix(s + [sc])
  {
    ExtendPrefix(s, sc, MockSceneIds, MockLocationIds, MockEndingPositions);
  }

  /** The fallback quest for the given input values: its input fields are stored
      unchanged; it is referentially closed over `scene-1` .. `scene-18`; exactly
      scenes 3, 13, 14, 18 are endings, and they are the scenes without choices; every scene is
      set in one of the fallback's locations. */
  method MockQuest(setting: string, questStyle: string, startingPoint: string) returns (q: Quest)
    ensures q.setting == setting && q.questStyle == questStyle && q.startingPoint == startingPoint
    ensures |q.scenes| == 18 && |q.characters| == 5 && |q.locations| == 7 && |q.items| == 3
    ensures forall i :: 0 <= i < |q.scenes| ==> q.scenes[i].id == MockSceneIds[i]
    ensures ReferentiallyClosed(q.scenes)
    ensures forall i :: 0 <= i < |q.scenes| ==>
      (IsEndingScene(q.scenes[i]) <==> i in MockEndingPositions) &&
      (IsEndingScene(q.scenes[i]) <==> q.scenes[i].choices == [])
    ensures forall i :: 0 <= i < |q.scenes| ==> q.scenes[i].locationId in MockLocationIds
    ensures forall k :: 0 <= k < |q.locations| ==> q.locations[k].id == MockLocationIds[k]
    ensures q.scenes[0].title == "Начало пути" && Contains(q.scenes[0].description, startingPoint)
  {
    var s: seq<Scene> := [];
    s := AddScene1(s, startingPoint);
    var first := s[0];
    s := AddScene2(s);
    s := AddScene3(s);
    s := AddScene4(s);
    s := AddScene5(s);
    s := AddScene6(s);
    s := AddScene7(s);
    s := AddScene8(s);
    s := AddScene9(s);
    s := AddScene10(s);
    s := AddScene11(s);
    s := AddScene12(s);
    s := AddScene13(s);
    s := AddScene14(s);
    s := AddScene15(s);
    s := AddScene16(s);
    s := AddScene17(s);
    s := AddScene18(s);
    assert s[0] == first;
    TargetsInIdsClosed(s, MockSceneIds);
    var cs := MockCharacters();
    var ls := MockLocations();
    var its := MockItems();
    q := Quest("quest-1", "Поиск артефакта",
      "В мире, охваченном тьмой, вы должны найти древний артефакт, способный восстановить свет.",
      setting, questStyle, startingPoint, s, cs, ls, its);
  }
}
