/** The scene records both graph components (src/components/QuestGraph.tsx and
    frontend/src/components/QuestGraph.tsx) draw: numeric ids, and choices whose
    `nextScene` is a number or `null` (`None`). Coordinates are reals. */
module GraphScenes {
  import opened Wrappers
  import opened Seqs

  datatype GChoice = GChoice(text: string, nextScene: Option<int>)

  datatype GScene = GScene(id: int, title: string, description: Option<string>, choices: seq<GChoice>)

  datatype Point = Point(x: real, y: real)

  /** `choice.nextScene` is truthy: present and not the number 0. */
  predicate TargetTruthy(c: GChoice) {
    c.nextScene.Some? && c.nextScene.value != 0
  }

  /** Some scene carries the id. */
  predicate HasId(scenes: seq<GScene>, id: int) {
    exists k :: 0 <= k < |scenes| && scenes[k].id == id
  }

  /** `scenes.findIndex(s => s.id === id)`, `None` for -1; a `null` id matches nothing. */
  function FindIndex(scenes: seq<GScene>, id: Option<int>): (r: Option<nat>)
    ensures r.Some? ==> id.Some? && r.value < |scenes| && scenes[r.value].id == id.value
    ensures r.Some? ==> forall j :: 0 <= j < r.value ==> scenes[j].id != id.value
    ensures r.None? <==> id.None? || !HasId(scenes, id.value)
  {
    if id.None? then None else FirstWhere(scenes, (s: GScene) => s.id == id.value)
  }
}
