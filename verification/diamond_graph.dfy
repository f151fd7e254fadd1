/** The diamond graph of frontend/src/components/QuestGraph.tsx: three fixed scenes drawn
    as blocks, each choice drawn as a diamond below its scene, an arrow from a scene to
    each of its diamonds and, when the choice has a target, an arrow from the diamond
    to the target's block. Until expanded only a summary box is drawn. */
module DiamondGraph {
  import opened Wrappers
  import opened GraphScenes

  const BlockWidth: real := 140.0
  const BlockHeight: real := 50.0
  const RombWidth: real := 100.0
  const RombHeight: real := 60.0

  const FixtureScenes: seq<GScene> := [
    GScene(1, "Сцена 1", None,
      [GChoice("Взять дневник", Some(2)), GChoice("Изучить карту", Some(3))]),
    GScene(2, "Сцена 2", None,
      [GChoice("Отправиться к озеру", None), GChoice("Расшифровать руну", None)]),
    GScene(3, "Сцена 3", None,
      [GChoice("В Забытую долину", None), GChoice("Поискать следы", None)])]

  /** The top-left corner of each scene block. */
  const Positions: seq<Point> := [Point(320.0, 40.0), Point(120.0, 220.0), Point(520.0, 220.0)]

  /** The centre of each choice's diamond, per scene. */
  const RombPositions: seq<seq<Point>> := [
    [Point(220.0, 140.0), Point(420.0, 140.0)],
    [Point(70.0, 320.0), Point(170.0, 320.0)],
    [Point(470.0, 320.0), Point(570.0, 320.0)]]

  /** `getRombPoints(cx, cy)`: the four vertices top, right, bottom, left. The top and
      bottom vertices lie on the vertical through the centre, the left and right ones
      on the horizontal, each pair symmetric about the centre and spanning the
      diamond's height and width. */
  function RombPoints(cx: real, cy: real): (ps: seq<Point>)
    ensures |ps| == 4
    ensures ps[0].x == cx && ps[2].x == cx && ps[1].y == cy && ps[3].y == cy
    ensures ps[0].y < cy < ps[2].y && ps[3].x < cx < ps[1].x
    ensures ps[0].y + ps[2].y == 2.0 * cy && ps[1].x + ps[3].x == 2.0 * cx
    ensures ps[2].y - ps[0].y == RombHeight && ps[1].x - ps[3].x == RombWidth
  {
    [Point(cx, cy - RombHeight / 2.0), Point(cx + RombWidth / 2.0, cy),
     Point(cx, cy + RombHeight / 2.0), Point(cx - RombWidth / 2.0, cy)]
  }

  /** The fixture tables fit the scenes: one block per scene and one diamond per
      choice, so every index the drawing uses is in range. */
  lemma FixtureTablesFit()
    ensures |Positions| == |FixtureScenes| && |RombPositions| == |FixtureScenes|
    ensures forall idx :: 0 <= idx < |FixtureScenes| ==>
      |RombPositions[idx]| == |FixtureScenes[idx].choices|
  {
  }

  /** The arrow from scene `idx` to the diamond of its choice `cidx`: from the bottom
      centre of the block to the diamond's top vertex. */
  function SceneToDiamond(positions: seq<Point>, romb: seq<seq<Point>>, idx: nat, cidx: nat): (arrow: (Point, Point))
    requires idx < |positions| && idx < |romb| && cidx < |romb[idx]|
    ensures arrow.0 == Point(positions[idx].x + BlockWidth / 2.0, positions[idx].y + BlockHeight)
    ensures arrow.1 == RombPoints(romb[idx][cidx].x, romb[idx][cidx].y)[0]
  {
    (Point(positions[idx].x + BlockWidth / 2.0, positions[idx].y + BlockHeight),
     Point(romb[idx][cidx].x, romb[idx][cidx].y - RombHeight / 2.0))
  }

  /** The arrow from a choice's diamond to its target scene: drawn only when the target
      is truthy and `findIndex` finds it, from the diamond's bottom vertex to the top
      centre of the target's block. */
  function DiamondToScene(scenes: seq<GScene>, positions: seq<Point>, centre: Point, c: GChoice)
    : (arrow: Option<(Point, Point)>)
    requires |scenes| <= |positions|
    ensures arrow.Some? <==> TargetTruthy(c) && HasId(scenes, c.nextScene.value)
    ensures arrow.Some? ==> arrow.value.0 == RombPoints(centre.x, centre.y)[2]
    ensures arrow.Some? ==> exists k :: (0 <= k < |scenes| && scenes[k].id == c.nextScene.value &&
      arrow.value.1 == Point(positions[k].x + BlockWidth / 2.0, positions[k].y))
  {
    if !TargetTruthy(c) then None
    else
      var k := FindIndex(scenes, c.nextScene);
      if k.None? then None
      else Some((Point(centre.x, centre.y + RombHeight / 2.0),
                 Point(positions[k.value].x + BlockWidth / 2.0, positions[k.value].y)))
  }

  /** In the fixture only the two choices of the first scene lead on, to the second
      and third blocks. */
  lemma FixtureDiamondArrows(idx: nat, cidx: nat)
    requires idx < 3 && cidx < 2
    ensures var a := DiamondToScene(FixtureScenes, Positions, RombPositions[idx][cidx], FixtureScenes[idx].choices[cidx]);
      a.Some? <==> idx == 0
    ensures idx == 0 ==>
      DiamondToScene(FixtureScenes, Positions, RombPositions[0][cidx], FixtureScenes[0].choices[cidx]).value.1 ==
        Point(Positions[cidx + 1].x + BlockWidth / 2.0, Positions[cidx + 1].y)
  {
    if idx == 0 {
      assert FixtureScenes[cidx + 1].id == cidx + 2;
    }
  }

  // ---------------------------------------------------------------------------
  // Collapsed and expanded

  /** What is drawn: the summary box alone, or the graph with its blocks and
      diamonds. */
  datatype View = Summary | Graph(blocks: nat, diamonds: nat)

  function TotalChoices(scenes: seq<GScene>): nat {
    if |scenes| == 0 then 0 else |scenes[0].choices| + TotalChoices(scenes[1..])
  }

  /** The drawing for the `expanded` flag. */
  function Render(scenes: seq<GScene>, expanded: bool): (v: View)
    ensures !expanded <==> v == Summary
    ensures v.Graph? ==> v.blocks == |scenes| && v.diamonds == TotalChoices(scenes)
  {
    if expanded then Graph(|scenes|, TotalChoices(scenes)) else Summary
  }

  /** A click on the summary box (the only thing drawn while collapsed) sets the flag;
      nothing in the expanded drawing clears it. */
  function SummaryClick(expanded: bool): (r: bool)
    requires !expanded
    ensures r && Render(FixtureScenes, r) != Summary
  {
    true
  }

  /** The expanded fixture draws three blocks and six diamonds. */
  lemma FixtureExpanded()
    ensures Render(FixtureScenes, true) == Graph(3, 6)
  {
    var f := FixtureScenes;
    assert f[1..][1..][1..] == [];
  }
}
