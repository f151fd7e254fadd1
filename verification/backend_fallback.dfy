/** The fallback data the streaming backend (backend/main.py) substitutes when the
    language model's answer cannot be parsed: `fallback_characters`,
    `fallback_locations`, `fallback_items` and the linear `fallback_scenes`. */
module BackendFallback {
  import opened Wrappers
  import opened Text
  import opened Json
  import opened BackendRepair

  /** `range(count)` has no elements for a negative count. */
  function RangeLen(count: int): nat {
    if count < 0 then 0 else count
  }

  /** `f"{prefix}{n}"`. */
  function Numbered(prefix: string, n: int): string {
    prefix + IntToString(n)
  }

  lemma NumberedInjective(prefix: string, a: int, b: int)
    requires Numbered(prefix, a) == Numbered(prefix, b)
    ensures a == b
  {
    var sa := IntToString(a);
    var sb := IntToString(b);
    assert sa == Numbered(prefix, a)[|prefix|..];
    assert sb == Numbered(prefix, b)[|prefix|..];
    IntToStringInjective(a, b);
  }

  const CharacterRequired: seq<string> := ["id", "name", "role", "description"]
  const LocationRequired: seq<string> := ["id", "name", "description"]
  const ItemRequired: seq<string> := ["id", "name", "description"]
  const SceneRequired: seq<string> := ["id", "title", "description", "location_id", "choices"]

  // ---------------------------------------------------------------------------
  // Characters, locations, items

  function FallbackCharacter(i: int): Json {
    JObj(map[
      "id" := JStr(Numbered("character_", i + 1)),
      "name" := JStr(Numbered("Персонаж ", i + 1)),
      "role" := JStr("guide"),
      "description" := JStr("Загадочная фигура"),
      "motivation" := JStr("Помочь герою"),
      "is_ally" := JBool(true),
      "is_enemy" := JBool(false)])
  }

  /** `fallback_characters`: `character_count` guides numbered from 1. */
  function FallbackCharacters(count: int): (r: seq<Json>)
    ensures |r| == RangeLen(count)
    ensures forall i :: 0 <= i < |r| ==> HasId(r[i]) && IdOf(r[i]) == JStr(Numbered("character_", i + 1))
  {
    seq(RangeLen(count), i requires 0 <= i < RangeLen(count) => FallbackCharacter(i))
  }

  function FallbackLocation(i: int): Json {
    JObj(map[
      "id" := JStr(Numbered("location_", i + 1)),
      "name" := JStr(Numbered("Локация ", i + 1)),
      "description" := JStr("Загадочное место")])
  }

  /** `fallback_locations`: one location per requested scene. */
  function FallbackLocations(count: int): (r: seq<Json>)
    ensures |r| == RangeLen(count)
    ensures forall i :: 0 <= i < |r| ==> HasId(r[i]) && IdOf(r[i]) == JStr(Numbered("location_", i + 1))
  {
    seq(RangeLen(count), i requires 0 <= i < RangeLen(count) => FallbackLocation(i))
  }

  function FallbackItem(i: int): Json {
    JObj(map[
      "id" := JStr(Numbered("item_", i + 1)),
      "name" := JStr(Numbered("Предмет ", i + 1)),
      "description" := JStr("Загадочный артефакт"),
      "is_key" := JBool(i == 0),
      "effect" := JStr("Неизвестный эффект")])
  }

  /** `fallback_items`: always three items, the first of them the key item. */
  function FallbackItems(): (r: seq<Json>)
    ensures |r| == 3
    ensures forall i :: 0 <= i < 3 ==>
      HasId(r[i]) && IdOf(r[i]) == JStr(Numbered("item_", i + 1)) &&
      "is_key" in r[i].fields && r[i].fields["is_key"] == JBool(i == 0)
  {
    [FallbackItem(0), FallbackItem(1), FallbackItem(2)]
  }

  /** Every fallback character, location and item passes its own validation, so the
      filter returns the fallback lists unchanged. */
  lemma FallbacksPassValidation(count: int)
    ensures KeepValid(FallbackCharacters(count), CharacterRequired) == FallbackCharacters(count)
    ensures KeepValid(FallbackLocations(count), LocationRequired) == FallbackLocations(count)
    ensures KeepValid(FallbackItems(), ItemRequired) == FallbackItems()
  {
    var cs := FallbackCharacters(count);
    forall i | 0 <= i < |cs| ensures IsValidItem(cs[i], CharacterRequired) {
      assert cs[i] == FallbackCharacter(i);
      FallbackEntriesValid(i);
    }
    KeepAllValid(cs, CharacterRequired);
    var ls := FallbackLocations(count);
    forall i | 0 <= i < |ls| ensures IsValidItem(ls[i], LocationRequired) {
      assert ls[i] == FallbackLocation(i);
      FallbackEntriesValid(i);
    }
    KeepAllValid(ls, LocationRequired);
    var its := FallbackItems();
    forall i | 0 <= i < 3 ensures IsValidItem(its[i], ItemRequired) {
      assert its[i] == FallbackItem(i);
      FallbackEntriesValid(i);
    }
    KeepAllValid(its, ItemRequired);
  }

  /** The `i`-th fallback character, location and item each pass their validation. */
  lemma FallbackEntriesValid(i: int)
    ensures IsValidItem(FallbackCharacter(i), CharacterRequired)
    ensures IsValidItem(FallbackLocation(i), LocationRequired)
    ensures IsValidItem(FallbackItem(i), ItemRequired)
  {
    NumberedNonEmpty("character_", i + 1);
    NumberedNonEmpty("Персонаж ", i + 1);
    NumberedNonEmpty("location_", i + 1);
    NumberedNonEmpty("Локация ", i + 1);
    NumberedNonEmpty("item_", i + 1);
    NumberedNonEmpty("Предмет ", i + 1);
  }

  lemma NumberedNonEmpty(prefix: string, n: int)
    ensures PyTruthy(JStr(Numbered(prefix, n)))
  {
  }

  lemma {:induction false} KeepAllValid(items: seq<Json>, required: seq<string>)
    requires forall i :: 0 <= i < |items| ==> IsValidItem(items[i], required)
    ensures KeepValid(items, required) == items
    decreases |items|
  {
    if |items| > 0 {
      KeepAllValid(items[1..], required);
      assert [items[0]] + items[1..] == items;
    }
  }

  // ---------------------------------------------------------------------------
  // Scenes

  function FallbackChoice(i: int): (r: Json)
    ensures HasNext(r) && r.fields["next_scene_id"] == JStr(Numbered("scene_", i + 2))
  {
    JObj(map[
      "id" := JStr("choice_" + IntToString(i + 1) + "_1"),
      "text" := JStr("Продолжить"),
      "next_scene_id" := JStr(Numbered("scene_", i + 2)),
      "consequence" := JStr("Продолжение истории")])
  }

  /** Scene `i` of `count`: the last has no choices, every other one continues to the
      next scene. The location is the first location's id ("location_1" when there
      are none) and the characters the first character's id, if any. */
  function FallbackScene(i: int, count: int, locationId: Json, characterIds: seq<Json>): (r: Json)
    ensures HasId(r) && IdOf(r) == JStr(Numbered("scene_", i + 1))
    ensures "choices" in r.fields && ChoicesOf(r) == (if i < count - 1 then [FallbackChoice(i)] else [])
    ensures "is_ending" in r.fields && r.fields["is_ending"] == JBool(i == count - 1)
  {
    JObj(map[
      "id" := JStr(Numbered("scene_", i + 1)),
      "title" := JStr(Numbered("Сцена ", i + 1)),
      "description" := JStr(Numbered("Описание сцены ", i + 1)),
      "location_id" := locationId,
      "characters" := JArr(characterIds),
      "items" := JArr([]),
      "is_ending" := JBool(i == count - 1),
      "choices" := JArr(if i < count - 1 then [FallbackChoice(i)] else [])])
  }

  /** The location id the fallback scenes use: `locations[0]['id']`, or "location_1". */
  function FallbackLocationId(locations: seq<Json>): Json
    requires |locations| > 0 ==> HasId(locations[0])
  {
    if |locations| > 0 then IdOf(locations[0]) else JStr("location_1")
  }

  /** The scene characters: `[characters[0]['id']]`, or none. */
  function FallbackCharacterIds(characters: seq<Json>): seq<Json>
    requires |characters| > 0 ==> HasId(characters[0])
  {
    if |characters| > 0 then [IdOf(characters[0])] else []
  }

  /** `fallback_scenes` for `scene_count`, built from the validated locations and
      characters. */
  function FallbackScenes(count: int, locations: seq<Json>, characters: seq<Json>): (r: seq<Json>)
    requires |locations| > 0 ==> HasId(locations[0])
    requires |characters| > 0 ==> HasId(characters[0])
    ensures |r| == RangeLen(count)
    ensures forall i :: 0 <= i < |r| ==> HasId(r[i]) && IdOf(r[i]) == JStr(Numbered("scene_", i + 1))
    ensures forall i :: 0 <= i < |r| ==>
      r[i].JObj? && "is_ending" in r[i].fields && r[i].fields["is_ending"] == JBool(i == |r| - 1)
  {
    var loc := FallbackLocationId(locations);
    var chars := FallbackCharacterIds(characters);
    seq(RangeLen(count), i requires 0 <= i < RangeLen(count) => FallbackScene(i, count, loc, chars))
  }

  /** The choices of the fallback scene `i`. */
  function ChoicesOf(scene: Json): seq<Json>
    requires scene.JObj? && "choices" in scene.fields
  {
    if scene.fields["choices"].JArr? then scene.fields["choices"].items else []
  }

  /** Scene `i` of the fallback has exactly one choice, to scene `i + 1`, and the last
      scene none. */
  predicate ChainsAt(r: seq<Json>, i: int)
    requires 0 <= i < |r| && r[i].JObj?
    requires i < |r| - 1 ==> HasId(r[i + 1])
  {
    "choices" in r[i].fields && r[i].fields["choices"].JArr? &&
    (i == |r| - 1 ==> ChoicesOf(r[i]) == []) &&
    (i < |r| - 1 ==> (|ChoicesOf(r[i])| == 1 && ChoicesOf(r[i])[0] == FallbackChoice(i) &&
                      FallbackChoice(i).fields["next_scene_id"] == IdOf(r[i + 1])))
  }

  /** The fallback scenes form a linear chain: only the last is an ending and has no
      choices; scene `i` has exactly one choice, to scene `i + 1`; the ids are distinct. */
  lemma FallbackScenesLinear(count: int, locations: seq<Json>, characters: seq<Json>)
    requires |locations| > 0 ==> HasId(locations[0])
    requires |characters| > 0 ==> HasId(characters[0])
    ensures var r := FallbackScenes(count, locations, characters);
      forall i :: 0 <= i < |r| ==> ChainsAt(r, i)
    ensures var r := FallbackScenes(count, locations, characters);
      forall i, j :: 0 <= i < j < |r| ==> IdOf(r[i]) != IdOf(r[j])
  {
    FallbackScenesChain(count, locations, characters);
    FallbackScenesDistinct(count, locations, characters);
  }

  lemma FallbackScenesChain(count: int, locations: seq<Json>, characters: seq<Json>)
    requires |locations| > 0 ==> HasId(locations[0])
    requires |characters| > 0 ==> HasId(characters[0])
    ensures var r := FallbackScenes(count, locations, characters);
      forall i :: 0 <= i < |r| ==> ChainsAt(r, i)
  {
    var r := FallbackScenes(count, locations, characters);
    var loc := FallbackLocationId(locations);
    var chars := FallbackCharacterIds(characters);
    forall i | 0 <= i < |r| ensures ChainsAt(r, i) {
      assert r[i] == FallbackScene(i, count, loc, chars);
      if i < |r| - 1 {
        assert r[i + 1] == FallbackScene(i + 1, count, loc, chars);
      }
    }
  }

  lemma FallbackScenesDistinct(count: int, locations: seq<Json>, characters: seq<Json>)
    requires |locations| > 0 ==> HasId(locations[0])
    requires |characters| > 0 ==> HasId(characters[0])
    ensures var r := FallbackScenes(count, locations, characters);
      forall i, j :: 0 <= i < j < |r| ==> IdOf(r[i]) != IdOf(r[j])
  {
    var r := FallbackScenes(count, locations, characters);
    forall i, j | 0 <= i < j < |r|
      ensures IdOf(r[i]) != IdOf(r[j])
    {
      if IdOf(r[i]) == IdOf(r[j]) {
        NumberedInjective("scene_", i + 1, j + 1);
      }
    }
  }

  /** Every reference of the fallback scenes resolves, for any order of the id set. */
  lemma FallbackScenesClosed(count: int, locations: seq<Json>, characters: seq<Json>, order: seq<Json>)
    requires |locations| > 0 ==> HasId(locations[0])
    requires |characters| > 0 ==> HasId(characters[0])
    requires OrderFits(order, FallbackScenes(count, locations, characters))
    ensures AllReferencesResolve(FallbackScenes(count, locations, characters), order)
  {
    var r := FallbackScenes(count, locations, characters);
    FallbackScenesLinear(count, locations, characters);
    assert IdsBuildable(r);
    var ids := Ids(r);
    forall i | 0 <= i < |r| && r[i].JObj? && "choices" in r[i].fields && r[i].fields["choices"].JArr?
      ensures forall j :: 0 <= j < |r[i].fields["choices"].items| ==>
        Resolves(r[i].fields["choices"].items[j], order)
    {
      if i < |r| - 1 {
        var v := FallbackChoice(i).fields["next_scene_id"];
        PyInVia(v, ids[i + 1], ids);
        PyInOrderIffSceneId(order, r, v);
      }
    }
  }

  /** The fallback scenes pass scene validation unchanged when the location id is
      truthy, which the validated locations guarantee. */
  lemma FallbackScenesPassValidation(count: int, locations: seq<Json>, characters: seq<Json>)
    requires |locations| > 0 ==> HasId(locations[0])
    requires |characters| > 0 ==> HasId(characters[0])
    requires PyTruthy(FallbackLocationId(locations))
    ensures var r := FallbackScenes(count, locations, characters);
      KeepValid(r, SceneRequired) == r
  {
    var r := FallbackScenes(count, locations, characters);
    var loc := FallbackLocationId(locations);
    var chars := FallbackCharacterIds(characters);
    forall i | 0 <= i < |r| ensures IsValidItem(r[i], SceneRequired) {
      assert r[i] == FallbackScene(i, count, loc, chars);
      FallbackSceneValid(i, count, loc, chars);
    }
    KeepAllValid(r, SceneRequired);
  }

  /** One fallback scene passes scene validation when its location id is truthy. */
  lemma FallbackSceneValid(i: int, count: int, loc: Json, chars: seq<Json>)
    requires PyTruthy(loc)
    ensures IsValidItem(FallbackScene(i, count, loc, chars), SceneRequired)
  {
    NumberedNonEmpty("scene_", i + 1);
    NumberedNonEmpty("Сцена ", i + 1);
    NumberedNonEmpty("Описание сцены ", i + 1);
  }

  /** Every fallback scene's choices are a list, so the closing log pass of the repair
      can iterate over them. */
  lemma FallbackScenesIterable(count: int, locations: seq<Json>, characters: seq<Json>)
    requires |locations| > 0 ==> HasId(locations[0])
    requires |characters| > 0 ==> HasId(characters[0])
    ensures AllChoicesIterable(FallbackScenes(count, locations, characters))
  {
    var r := FallbackScenes(count, locations, characters);
    var loc := FallbackLocationId(locations);
    var chars := FallbackCharacterIds(characters);
    forall i | 0 <= i < |r| ensures ChoicesIterable(r[i]) {
      assert r[i] == FallbackScene(i, count, loc, chars);
    }
  }

  /** Repairing the fallback scenes changes nothing, whatever the set order. */
  lemma FallbackScenesFixpoint(count: int, locations: seq<Json>, characters: seq<Json>, order: seq<Json>)
    requires |locations| > 0 ==> HasId(locations[0])
    requires |characters| > 0 ==> HasId(characters[0])
    requires OrderFits(order, FallbackScenes(count, locations, characters))
    ensures var r := FallbackScenes(count, locations, characters);
      FixSceneReferences(r, order) == Success(r)
  {
    var r := FallbackScenes(count, locations, characters);
    FallbackScenesClosed(count, locations, characters, order);
    FallbackScenesIterable(count, locations, characters);
    if |r| > 0 {
      SetOrderHashable(order, r);
      FixAllResolved(r, order);
    }
  }
}
