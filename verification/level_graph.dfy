/** The level-table graph of src/components/QuestGraph.tsx: its fixed seven scenes, the
    three-level layout and the position of a scene in it, which choices are drawn as
    edges, the selection toggle and the caption under each choice. */
module LevelGraph {
  import opened Wrappers
  import opened Seqs
  import opened GraphScenes

  // ---------------------------------------------------------------------------
  // Fixture

  function Ch(text: string, next: Option<int>): GChoice {
    GChoice(text, next)
  }

  const Title1 := "Старый замок"
  const Title2 := "Тайны дневника"
  const Title3 := "Забытая карта"
  const Title4 := "Тайное озеро"
  const Title5 := "Расшифровка рун"
  const Title6 := "Забытая долина"
  const Title7 := "Поиск следов"

  const Description1 := "Вы находитесь в старом замке. Перед вами стол с предметами."
  const Description2 := "Дневник содержит странные символы и упоминание озера."
  const Description3 := "Карта показывает путь в Забытую долину."
  const Description4 := "Вы обнаружили загадочное озеро с мерцающей водой."
  const Description5 := "Символы указывают на скрытый проход в стене."
  const Description6 := "Мрачная долина с древними руинами."
  const Description7 := "Вы нашли следы, ведущие в лес."

  const Choice1a := "Взять дневник"
  const Choice1b := "Изучить карту"
  const Choice2a := "Отправиться к озеру"
  const Choice2b := "Расшифровать руну"
  const Choice3a := "В Забытую долину"
  const Choice3b := "Поискать следы"
  const Choice4a := "Исследовать берег"
  const Choice4b := "Окунуться в воду"
  const Choice5a := "Искать проход"
  const Choice5b := "Игнорировать"
  const Choice6a := "Осмотреть руины"
  const Choice6b := "Обойти стороной"
  const Choice7a := "Следовать по следам"
  const Choice7b := "Вернуться назад"

  /** The seven scenes the component draws; descriptions and choice texts are kept
      apart from the structure. */
  const FixtureScenes: seq<GScene> := [
    GScene(1, Title1, Some(Description1), [Ch(Choice1a, Some(2)), Ch(Choice1b, Some(3))]),
    GScene(2, Title2, Some(Description2), [Ch(Choice2a, Some(4)), Ch(Choice2b, Some(5))]),
    GScene(3, Title3, Some(Description3), [Ch(Choice3a, Some(6)), Ch(Choice3b, Some(7))]),
    GScene(4, Title4, Some(Description4), [Ch(Choice4a, None), Ch(Choice4b, None)]),
    GScene(5, Title5, Some(Description5), [Ch(Choice5a, None), Ch(Choice5b, None)]),
    GScene(6, Title6, Some(Description6), [Ch(Choice6a, None), Ch(Choice6b, None)]),
    GScene(7, Title7, Some(Description7), [Ch(Choice7a, Some(1)), Ch(Choice7b, None)])]

  // ---------------------------------------------------------------------------
  // Layout

  datatype Level = Level(y: real, scenes: seq<int>)

  datatype Layout = Layout(width: real, height: real, levels: seq<Level>)

  const FixtureLayout: Layout :=
    Layout(1200.0, 700.0, [Level(100.0, [1]), Level(300.0, [2, 3]), Level(500.0, [4, 5, 6, 7])])

  /** `level.scenes.indexOf(id)`, `None` for -1. */
  function IndexIn(ids: seq<int>, id: int): (r: Option<nat>)
    ensures r.Some? ==> r.value < |ids| && ids[r.value] == id
    ensures r.Some? ==> forall m :: 0 <= m < r.value ==> ids[m] != id
    ensures r.None? <==> id !in ids
  {
    FirstWhere(ids, (v: int) => v == id)
  }

  /** The x of the `index`-th of `count` scenes spread evenly over `width`. */
  function SlotX(width: real, count: nat, index: nat): real {
    width / (count as real + 1.0) * (index as real + 1.0)
  }

  /** `layout.getScenePosition(id)`: in the first level listing the id, the id's slot
      at that level's height; (0, 0) when no level lists it. */
  function ScenePosition(width: real, levels: seq<Level>, id: int): (p: Point)
    ensures (forall k :: 0 <= k < |levels| ==> id !in levels[k].scenes) ==> p == Point(0.0, 0.0)
    ensures forall k, i ::
      0 <= k < |levels| && (forall j :: 0 <= j < k ==> id !in levels[j].scenes) &&
      0 <= i < |levels[k].scenes| && levels[k].scenes[i] == id &&
      (forall m :: 0 <= m < i ==> levels[k].scenes[m] != id) ==>
        p == Point(SlotX(width, |levels[k].scenes|, i), levels[k].y)
  {
    if |levels| == 0 then Point(0.0, 0.0)
    else
      var index := IndexIn(levels[0].scenes, id);
      if index.Some? then Point(SlotX(width, |levels[0].scenes|, index.value), levels[0].y)
      else
        var rest := ScenePosition(width, levels[1..], id);
        assert forall k :: 1 <= k < |levels| ==> levels[1..][k - 1] == levels[k];
        rest
  }

  /** Within a level every slot lies strictly inside the width, and slots move right as
      the index grows. */
  lemma SlotsInsideAndOrdered(width: real, count: nat, i: nat, j: nat)
    requires width > 0.0 && i < j < count
    ensures 0.0 < SlotX(width, count, i) < width
    ensures SlotX(width, count, i) < SlotX(width, count, j)
  {
    var spacing := width / (count as real + 1.0);
    assert spacing > 0.0;
    assert spacing * (count as real + 1.0) == width;
    assert spacing * (i as real + 1.0) < spacing * (j as real + 1.0);
    assert spacing * (i as real + 1.0) < spacing * (count as real + 1.0);
  }

  /** The fixture's levels list each of the ids 1..7 exactly once and list nothing
      else, so every fixture scene has its own slot. */
  lemma FixtureLevelsPartition(id: int)
    ensures 1 <= id <= 7 <==> HasId(FixtureScenes, id)
    ensures 1 <= id <= 7 <==> exists k :: 0 <= k < 3 && id in FixtureLayout.levels[k].scenes
    ensures forall k, l :: 0 <= k < l < 3 ==>
      !(id in FixtureLayout.levels[k].scenes && id in FixtureLayout.levels[l].scenes)
    ensures forall k, i, m :: 0 <= k < 3 && 0 <= i < m < |FixtureLayout.levels[k].scenes| ==>
      FixtureLayout.levels[k].scenes[i] != FixtureLayout.levels[k].scenes[m]
  {
    if 1 <= id <= 7 {
      assert FixtureScenes[id - 1].id == id;
      var k := if id == 1 then 0 else if id <= 3 then 1 else 2;
      assert id in FixtureLayout.levels[k].scenes;
    }
  }

  /** The position of an id listed at index `i` of level `k`, when no earlier level
      and no earlier index lists it. */
  lemma PositionAt(width: real, levels: seq<Level>, id: int, k: nat, i: nat)
    requires k < |levels| && i < |levels[k].scenes| && levels[k].scenes[i] == id
    requires forall j :: 0 <= j < k ==> id !in levels[j].scenes
    requires forall m :: 0 <= m < i ==> levels[k].scenes[m] != id
    ensures ScenePosition(width, levels, id) == Point(SlotX(width, |levels[k].scenes|, i), levels[k].y)
  {
  }

  /** The fixture's positions: one slot at the top, two in the middle and four at the
      bottom; an unlisted id sits at the origin. */
  lemma FixturePositions()
    ensures ScenePosition(1200.0, FixtureLayout.levels, 1) == Point(600.0, 100.0)
    ensures ScenePosition(1200.0, FixtureLayout.levels, 3) == Point(800.0, 300.0)
    ensures ScenePosition(1200.0, FixtureLayout.levels, 7) == Point(960.0, 500.0)
    ensures ScenePosition(1200.0, FixtureLayout.levels, 8) == Point(0.0, 0.0)
  {
    FixtureFirstLevel();
    FixtureSecondLevel();
    FixtureThirdLevel();
    FixtureUnlisted();
  }

  /** The root, alone on the first level, sits in the middle. */
  lemma FixtureFirstLevel()
    ensures ScenePosition(1200.0, FixtureLayout.levels, 1) == Point(600.0, 100.0)
  {
    FixturePosition(1, 0, 0, 600.0);
  }

  /** Scene 3, second of two on the second level, sits at two thirds. */
  lemma FixtureSecondLevel()
    ensures ScenePosition(1200.0, FixtureLayout.levels, 3) == Point(800.0, 300.0)
  {
    FixturePosition(3, 1, 1, 800.0);
  }

  /** Scene 7, last of four on the third level, sits at four fifths. */
  lemma FixtureThirdLevel()
    ensures ScenePosition(1200.0, FixtureLayout.levels, 7) == Point(960.0, 500.0)
  {
    FixturePosition(7, 2, 3, 960.0);
  }

  lemma FixturePosition(id: int, k: nat, i: nat, x: real)
    requires k < 3 && i < |FixtureLayout.levels[k].scenes| && FixtureLayout.levels[k].scenes[i] == id
    requires forall j :: 0 <= j < k ==> id !in FixtureLayout.levels[j].scenes
    requires forall m :: 0 <= m < i ==> FixtureLayout.levels[k].scenes[m] != id
    requires x * (|FixtureLayout.levels[k].scenes| as real + 1.0) == 1200.0 * (i as real + 1.0)
    ensures ScenePosition(1200.0, FixtureLayout.levels, id) == Point(x, FixtureLayout.levels[k].y)
  {
    var levels := FixtureLayout.levels;
    SlotValue(1200.0, |levels[k].scenes|, i, x);
    PositionAt(1200.0, levels, id, k, i);
  }

  lemma FixtureUnlisted()
    ensures ScenePosition(1200.0, FixtureLayout.levels, 8) == Point(0.0, 0.0)
  {
    var l0, l1, l2 := Level(100.0, [1]), Level(300.0, [2, 3]), Level(500.0, [4, 5, 6, 7]);
    assert FixtureLayout.levels == [l0, l1, l2];
    assert 8 !in l0.scenes && 8 !in l1.scenes && 8 !in l2.scenes;
  }

  lemma SlotValue(width: real, count: nat, index: nat, x: real)
    requires x * (count as real + 1.0) == width * (index as real + 1.0)
    ensures SlotX(width, count, index) == x
  {
  }

  // ---------------------------------------------------------------------------
  // Edges

  /** `shouldDisplayConnection`: every connection but the loop back from 7 to 1. */
  predicate ShouldDisplay(fromId: int, toId: int) {
    !(fromId == 7 && toId == 1)
  }

  datatype Edge = Edge(from: int, to: int)

  /** A choice of the scene `fromId` is drawn as an edge: its target is truthy, the
      connection is displayed, and a scene carries the target. */
  predicate Drawn(all: seq<GScene>, fromId: int, c: GChoice) {
    TargetTruthy(c) && ShouldDisplay(fromId, c.nextScene.value) && HasId(all, c.nextScene.value)
  }

  /** The edges drawn for the choices `cs` of scene `fromId`, in order. */
  function ChoiceEdges(all: seq<GScene>, fromId: int, cs: seq<GChoice>): (r: seq<Edge>)
    ensures forall e :: e in r <==>
      exists j :: 0 <= j < |cs| && Drawn(all, fromId, cs[j]) && e == Edge(fromId, cs[j].nextScene.value)
  {
    if |cs| == 0 then []
    else
      var rest := ChoiceEdges(all, fromId, cs[1..]);
      var head := if Drawn(all, fromId, cs[0]) then [Edge(fromId, cs[0].nextScene.value)] else [];
      assert forall j :: 1 <= j < |cs| ==> cs[1..][j - 1] == cs[j];
      head + rest
  }

  /** The edges drawn for the scenes `ss`, scene by scene. */
  function SceneEdges(all: seq<GScene>, ss: seq<GScene>): (r: seq<Edge>)
    ensures forall e :: e in r <==>
      exists i, j :: 0 <= i < |ss| && 0 <= j < |ss[i].choices| &&
        Drawn(all, ss[i].id, ss[i].choices[j]) && e == Edge(ss[i].id, ss[i].choices[j].nextScene.value)
  {
    if |ss| == 0 then []
    else
      var rest := SceneEdges(all, ss[1..]);
      var mine := ChoiceEdges(all, ss[0].id, ss[0].choices);
      assert forall i :: 1 <= i < |ss| ==> ss[1..][i - 1] == ss[i];
      mine + rest
  }

  /** The edges of a scene with two choices. */
  lemma ChoiceEdgesPair(all: seq<GScene>, fromId: int, a: GChoice, b: GChoice)
    ensures ChoiceEdges(all, fromId, [a, b]) ==
      (if Drawn(all, fromId, a) then [Edge(fromId, a.nextScene.value)] else []) +
      (if Drawn(all, fromId, b) then [Edge(fromId, b.nextScene.value)] else [])
  {
    assert [a, b][1..] == [b];
    assert [b][1..] == [];
    assert ChoiceEdges(all, fromId, []) == [];
    assert ChoiceEdges(all, fromId, [b]) ==
      (if Drawn(all, fromId, b) then [Edge(fromId, b.nextScene.value)] else []);
  }

  lemma SceneEdgesCons(all: seq<GScene>, s: GScene, ss: seq<GScene>)
    ensures SceneEdges(all, [s] + ss) == ChoiceEdges(all, s.id, s.choices) + SceneEdges(all, ss)
  {
    assert ([s] + ss)[1..] == ss;
  }

  /** The edges the fixture draws from its `k`-th scene. */
  function FixtureSceneEdges(k: nat): seq<Edge> {
    if k == 0 then [Edge(1, 2), Edge(1, 3)]
    else if k == 1 then [Edge(2, 4), Edge(2, 5)]
    else if k == 2 then [Edge(3, 6), Edge(3, 7)]
    else []
  }

  lemma FixtureChoiceEdges(k: nat)
    requires k < 7
    ensures ChoiceEdges(FixtureScenes, FixtureScenes[k].id, FixtureScenes[k].choices) == FixtureSceneEdges(k)
  {
    var f := FixtureScenes;
    ChoiceEdgesPair(f, f[k].id, f[k].choices[0], f[k].choices[1]);
    assert f[k].choices == [f[k].choices[0], f[k].choices[1]];
    if k < 3 {
      var t0, t1 := f[k].choices[0].nextScene.value, f[k].choices[1].nextScene.value;
      assert f[t0 - 1].id == t0 && f[t1 - 1].id == t1;
    }
  }

  /** The edges the fixture draws from its `k`-th scene on. */
  function FixtureEdgesFrom(k: nat): seq<Edge>
    decreases 7 - k
  {
    if k >= 7 then [] else FixtureSceneEdges(k) + FixtureEdgesFrom(k + 1)
  }

  lemma {:induction false} SceneEdgesFrom(k: nat)
    requires k <= 7
    ensures SceneEdges(FixtureScenes, FixtureScenes[k..]) == FixtureEdgesFrom(k)
    decreases 7 - k
  {
    var f := FixtureScenes;
    if k == 7 {
      assert f[7..] == [];
    } else {
      FixtureChoiceEdges(k);
      assert f[k..] == [f[k]] + f[k + 1..];
      SceneEdgesCons(f, f[k], f[k + 1..]);
      SceneEdgesFrom(k + 1);
    }
  }

  /** The fixture draws six edges, in scene order: every choice with a target except
      the loop back from 7 to 1. */
  lemma FixtureEdges()
    ensures SceneEdges(FixtureScenes, FixtureScenes) ==
      [Edge(1, 2), Edge(1, 3), Edge(2, 4), Edge(2, 5), Edge(3, 6), Edge(3, 7)]
  {
    SceneEdgesFrom(0);
    assert FixtureScenes[0..] == FixtureScenes;
    assert FixtureEdgesFrom(3) == [];
  }

  /** No drawn edge loops back from 7 to 1, and every drawn edge leaves a listed scene
      and ends at a scene that exists. */
  lemma DrawnEdgesDisplayable(all: seq<GScene>, ss: seq<GScene>)
    ensures Edge(7, 1) !in SceneEdges(all, ss)
    ensures forall e :: e in SceneEdges(all, ss) ==>
      ShouldDisplay(e.from, e.to) && HasId(all, e.to) && exists i :: 0 <= i < |ss| && ss[i].id == e.from
  {
    forall e | e in SceneEdges(all, ss)
      ensures ShouldDisplay(e.from, e.to) && HasId(all, e.to) && exists i :: 0 <= i < |ss| && ss[i].id == e.from
    {
      var i, j :| 0 <= i < |ss| && 0 <= j < |ss[i].choices| &&
        Drawn(all, ss[i].id, ss[i].choices[j]) && e == Edge(ss[i].id, ss[i].choices[j].nextScene.value);
    }
  }

  // ---------------------------------------------------------------------------
  // Selection and captions

  /** `handleSceneClick`: clicking the selected scene clears the selection, clicking any
      other scene selects it. */
  function SceneClick(selected: Option<GScene>, scene: GScene): (r: Option<GScene>)
    ensures selected.Some? && selected.value.id == scene.id ==> r.None?
    ensures !(selected.Some? && selected.value.id == scene.id) ==> r == Some(scene)
  {
    if selected.Some? && selected.value.id == scene.id then None else Some(scene)
  }

  /** Clicking the same scene twice restores the selection state when nothing, or a
      scene with another id, was selected before; a third click selects it again. */
  lemma SceneClickToggles(selected: Option<GScene>, scene: GScene)
    ensures SceneClick(SceneClick(None, scene), scene).None?
    ensures var once := SceneClick(selected, scene);
      SceneClick(SceneClick(once, scene), scene) == once
  {
  }

  const LoopBackCaption := "Возврат в начало квеста"
  const EndingCaption := "Конечная сцена"

  /** The caption under a choice of the selected scene: the loop-back text for 7 to 1,
      otherwise an arrow and the target's title when a scene carries the target, and
      the ending caption when none does. */
  function Caption(all: seq<GScene>, selected: GScene, c: GChoice): (r: string)
    ensures selected.id == 7 && c.nextScene == Some(1) ==> r == LoopBackCaption
    ensures !(selected.id == 7 && c.nextScene == Some(1)) && (c.nextScene.None? || !HasId(all, c.nextScene.value)) ==>
      r == EndingCaption
    ensures !(selected.id == 7 && c.nextScene == Some(1)) && c.nextScene.Some? && HasId(all, c.nextScene.value) ==>
      exists k :: 0 <= k < |all| && all[k].id == c.nextScene.value && r == "→ " + all[k].title
  {
    if selected.id == 7 && c.nextScene == Some(1) then LoopBackCaption
    else
      var k := FindIndex(all, c.nextScene);
      if k.Some? then "→ " + all[k.value].title else EndingCaption
  }

  /** Away from the loop back, the caption is the ending caption exactly when no scene
      carries the choice's target. */
  lemma EndingCaptionIffNoTarget(all: seq<GScene>, selected: GScene, c: GChoice)
    requires !(selected.id == 7 && c.nextScene == Some(1))
    ensures Caption(all, selected, c) == EndingCaption <==> c.nextScene.None? || !HasId(all, c.nextScene.value)
  {
    var k := FindIndex(all, c.nextScene);
    if k.Some? {
      assert ("→ " + all[k.value].title)[0] != EndingCaption[0];
    }
  }
}
