/** The repair pipeline of the streaming backend (backend/main.py): the list filter
    `validate_and_fix_data` and the reference repair `fix_scene_references`, over the
    decoded JSON the language model produced. A raised Python exception is a `Failure`. */
module BackendRepair {
  import opened Wrappers
  import opened Text
  import opened Json
  import opened Seqs

  // ---------------------------------------------------------------------------
  // validate_and_fix_data

  /** One required field of a dict is acceptable: present, a list when it is "choices",
      truthy otherwise. */
  predicate FieldOk(fields: map<string, Json>, f: string) {
    f in fields && (if f == "choices" then fields[f].JArr? else PyTruthy(fields[f]))
  }

  /** An item survives validation: a dict whose every required field is acceptable. */
  predicate IsValidItem(item: Json, required: seq<string>) {
    item.JObj? && forall k :: 0 <= k < |required| ==> FieldOk(item.fields, required[k])
  }

  /** The reference filter: the valid items, in input order. */
  function KeepValid(items: seq<Json>, required: seq<string>): (r: seq<Json>)
    ensures |r| <= |items|
    ensures forall k :: 0 <= k < |r| ==> IsValidItem(r[k], required)
  {
    if |items| == 0 then []
    else (if IsValidItem(items[0], required) then [items[0]] else []) + KeepValid(items[1..], required)
  }

  /** `validate_and_fix_data`: a non-list gives the empty list; otherwise each element is
      kept, unmodified, exactly when it is a dict whose required fields are acceptable,
      the check stopping at the first field that is not. */
  method ValidateAndFix(data: Json, required: seq<string>) returns (r: seq<Json>)
    ensures !data.JArr? ==> r == []
    ensures data.JArr? ==> r == KeepValid(data.items, required)
  {
    if !data.JArr? {
      return [];
    }
    var items := data.items;
    r := [];
    var i := 0;
    while i < |items|
      invariant 0 <= i <= |items|
      invariant r == KeepValid(items[..i], required)
    {
      var item := items[i];
      var valid := false;
      if item.JObj? {
        valid := true;
        var j := 0;
        while j < |required| && valid
          invariant 0 <= j <= |required|
          invariant valid ==> forall k :: 0 <= k < j ==> FieldOk(item.fields, required[k])
          invariant !valid ==> j < |required| && !FieldOk(item.fields, required[j])
          decreases if valid then |required| - j + 1 else 0
        {
          var f := required[j];
          if f !in item.fields {
            valid := false;
          } else if f == "choices" {
            if !item.fields[f].JArr? {
              valid := false;
            }
          } else if !PyTruthy(item.fields[f]) {
            valid := false;
          }
          if valid {
            j := j + 1;
          }
        }
      }
      assert valid == IsValidItem(item, required);
      KeepValidAppend(items[..i], [item], required);
      assert items[..i + 1] == items[..i] + [item];
      if valid {
        r := r + [item];
      }
      i := i + 1;
    }
    assert items[..i] == items;
  }

  /** Filtering distributes over concatenation. */
  lemma {:induction false} KeepValidAppend(a: seq<Json>, b: seq<Json>, required: seq<string>)
    ensures KeepValid(a + b, required) == KeepValid(a, required) + KeepValid(b, required)
    decreases |a|
  {
    if |a| == 0 {
      assert a + b == b;
    } else {
      KeepValidAppend(a[1..], b, required);
      assert (a + b)[0] == a[0] && (a + b)[1..] == a[1..] + b;
      var head := if IsValidItem(a[0], required) then [a[0]] else [];
      assert KeepValid(a + b, required) == head + KeepValid(a[1..] + b, required);
      assert KeepValid(a, required) == head + KeepValid(a[1..], required);
    }
  }

  /** An element is kept iff it is in the input and valid. */
  lemma {:induction false} KeepValidMembers(items: seq<Json>, required: seq<string>, x: Json)
    ensures x in KeepValid(items, required) <==> x in items && IsValidItem(x, required)
    decreases |items|
  {
    if |items| > 0 {
      KeepValidMembers(items[1..], required, x);
      assert items == [items[0]] + items[1..];
    }
  }

  /** The output keeps the input order: it is a subsequence of the input. */
  lemma {:induction false} KeepValidIsSubsequence(items: seq<Json>, required: seq<string>)
    ensures IsSubsequence(KeepValid(items, required), items)
    decreases |items|
  {
    if |items| > 0 {
      KeepValidIsSubsequence(items[1..], required);
      var rest := KeepValid(items[1..], required);
      if IsValidItem(items[0], required) {
        assert KeepValid(items, required) == [items[0]] + rest;
        assert ([items[0]] + rest)[1..] == rest;
      } else {
        assert KeepValid(items, required) == rest;
        SubsequenceSkip(rest, items);
      }
    }
  }

  /** Validating twice is validating once. */
  lemma {:induction false} KeepValidIdempotent(items: seq<Json>, required: seq<string>)
    ensures KeepValid(KeepValid(items, required), required) == KeepValid(items, required)
    decreases |items|
  {
    if |items| > 0 {
      KeepValidIdempotent(items[1..], required);
      var head := if IsValidItem(items[0], required) then [items[0]] else [];
      KeepValidAppend(head, KeepValid(items[1..], required), required);
      if IsValidItem(items[0], required) {
        assert KeepValid(head, required) == head by {
          assert head[1..] == [];
        }
      }
    }
  }

  // ---------------------------------------------------------------------------
  // Python set membership

  /** The value Python hashes and compares a hashable JSON value by: `True == 1` and
      `False == 0`; every other value compares by itself. */
  function PyKey(v: Json): Json {
    if v.JBool? then JNum(if v.b then 1 else 0) else v
  }

  predicate PyEq(a: Json, b: Json) {
    PyKey(a) == PyKey(b)
  }

  /** `v in s` for the Python set listed by `order`. */
  predicate PyIn(v: Json, order: seq<Json>) {
    exists k | 0 <= k < |order| :: PyEq(v, order[k])
  }

  // ---------------------------------------------------------------------------
  // fix_scene_references

  /** The exceptions the repair can raise and does not catch. */
  datatype Raised = TypeError | KeyError

  predicate HasId(scene: Json) {
    scene.JObj? && "id" in scene.fields
  }

  function IdOf(scene: Json): Json
    requires HasId(scene)
  {
    scene.fields["id"]
  }

  /** Every scene is a dict with a hashable id, so the id set can be built. */
  predicate IdsBuildable(scenes: seq<Json>) {
    forall k :: 0 <= k < |scenes| ==> HasId(scenes[k]) && Hashable(IdOf(scenes[k]))
  }

  /** The scene ids in list order. */
  function Ids(scenes: seq<Json>): (r: seq<Json>)
    requires forall k :: 0 <= k < |scenes| ==> HasId(scenes[k])
    ensures |r| == |scenes| && forall k :: 0 <= k < |scenes| ==> r[k] == IdOf(scenes[k])
  {
    seq(|scenes|, k requires 0 <= k < |scenes| => IdOf(scenes[k]))
  }

  predicate AllHashable(xs: seq<Json>) {
    forall k :: 0 <= k < |xs| ==> Hashable(xs[k])
  }

  /** The exception building `{scene['id'] for scene in scenes}` raises, at the first
      scene that is not a dict (TypeError), lacks "id" (KeyError) or has an unhashable
      id (TypeError). */
  function IdSetError(scenes: seq<Json>): (r: Option<Raised>)
    ensures r.None? <==> IdsBuildable(scenes)
  {
    if |scenes| == 0 then None
    else if !scenes[0].JObj? then Some(TypeError)
    else if "id" !in scenes[0].fields then Some(KeyError)
    else if !Hashable(IdOf(scenes[0])) then Some(TypeError)
    else
      var rest := IdSetError(scenes[1..]);
      assert forall k :: 1 <= k < |scenes| ==> scenes[k] == scenes[1..][k - 1];
      rest
  }

  /** `order` lists the elements of the Python set of scene ids, each once, in the
      (unspecified) order the set iterates in. */
  predicate IsSetOrder(order: seq<Json>, scenes: seq<Json>)
    requires IdsBuildable(scenes)
  {
    var ids := Ids(scenes);
    && (forall k :: 0 <= k < |order| ==> order[k] in ids)
    && (forall m :: 0 <= m < |ids| ==> PyIn(ids[m], order))
    && (forall k, l :: 0 <= k < l < |order| ==> !PyEq(order[k], order[l]))
  }

  /** The precondition on the set order, meaningful once the id set exists. */
  predicate OrderFits(order: seq<Json>, scenes: seq<Json>) {
    IdsBuildable(scenes) ==> IsSetOrder(order, scenes)
  }

  /** The set order enumerates exactly the scene ids. */
  lemma PyInOrderIffSceneId(order: seq<Json>, scenes: seq<Json>, v: Json)
    requires IdsBuildable(scenes) && IsSetOrder(order, scenes)
    ensures PyIn(v, order) <==> PyIn(v, Ids(scenes))
  {
    var ids := Ids(scenes);
    if PyIn(v, order) {
      var k :| 0 <= k < |order| && PyEq(v, order[k]);
      PyInVia(v, order[k], ids);
    }
    if PyIn(v, ids) {
      var m :| 0 <= m < |ids| && PyEq(v, ids[m]);
      assert PyIn(ids[m], order);
      var k :| 0 <= k < |order| && PyEq(ids[m], order[k]);
      PyInVia(v, order[k], order);
    }
  }

  lemma PyInVia(v: Json, w: Json, xs: seq<Json>)
    requires PyEq(v, w) && w in xs
    ensures PyIn(v, xs)
  {
    var k :| 0 <= k < |xs| && xs[k] == w;
    assert PyEq(v, xs[k]);
  }

  lemma SetOrderHashable(order: seq<Json>, scenes: seq<Json>)
    requires IdsBuildable(scenes) && IsSetOrder(order, scenes)
    ensures AllHashable(order)
  {
    var ids := Ids(scenes);
    forall k | 0 <= k < |order|
      ensures Hashable(order[k])
    {
      var m :| 0 <= m < |ids| && ids[m] == order[k];
    }
  }

  /** The ids of the set other than `id`, in set order. */
  function Others(order: seq<Json>, id: Json): (r: seq<Json>)
    ensures forall k :: 0 <= k < |r| ==> r[k] in order && !PyEq(r[k], id)
    ensures |r| == 0 ==> forall k :: 0 <= k < |order| ==> PyEq(order[k], id)
  {
    if |order| == 0 then []
    else (if PyEq(order[0], id) then [] else [order[0]]) + Others(order[1..], id)
  }

  /** The number the repair reads from a scene id: the integer after the last
      underscore, 1 when there is no underscore, and none when that suffix is not an
      integer. */
  function SceneNumber(id: string): (r: Option<int>)
    ensures '_' !in id ==> r == Some(1)
  {
    if '_' in id then ParsePyInt(LastSegment(id, '_')) else Some(1)
  }

  /** The id `scene_{n+1}` that the repair tries first. */
  function NextSceneId(n: int): (r: Json)
    ensures r.JStr? && |r.s| > 6 && r.s[..6] == "scene_"
  {
    JStr("scene_" + IntToString(n + 1))
  }

  /** The id a dangling reference of the scene `id` is redirected to, or `None` when
      the scene becomes an ending: `scene_{n+1}` where `n` is the integer after the last
      underscore (1 when there is none), if that scene exists; else the first other id
      in set order. A suffix that is not an integer makes the scene an ending. */
  function RepairTarget(id: string, order: seq<Json>): (r: Option<Json>)
    ensures r.Some? ==> PyIn(r.value, order) && (r.value.JStr? || r.value in order)
    ensures '_' in id && ParsePyInt(LastSegment(id, '_')).None? ==> r.None?
    ensures SceneNumber(id).Some? ==>
      var next := NextSceneId(SceneNumber(id).value);
      if PyIn(next, order) then r == Some(next)
      else
        (r.Some? <==> |Others(order, JStr(id))| > 0) &&
        (r.Some? ==> r == Some(Others(order, JStr(id))[0]))
  {
    match SceneNumber(id)
    case None => None
    case Some(n) =>
      var next := NextSceneId(n);
      if PyIn(next, order) then Some(next)
      else
        var others := Others(order, JStr(id));
        if |others| > 0 then
          assert others[0] in order;
          Some(others[0])
        else None
  }

  /** The redirected reference never points back at the scene being repaired. */
  lemma RepairTargetNotSelf(id: string, order: seq<Json>)
    requires RepairTarget(id, order).Some?
    ensures !PyEq(RepairTarget(id, order).value, JStr(id))
  {
    var n := if '_' in id then ParsePyInt(LastSegment(id, '_')) else Some(1);
    if n.Some? {
      NextSceneIdDiffers(id, n.value);
    }
  }

  /** `scene_{n+1}` is not the id it was computed from: an id with an underscore and
      integer suffix `n` ends in `n`, and an id without one cannot be `scene_…`. */
  lemma NextSceneIdDiffers(id: string, n: int)
    requires if '_' in id then ParsePyInt(LastSegment(id, '_')) == Some(n) else n == 1
    ensures "scene_" + IntToString(n + 1) != id
  {
    var digits := IntToString(n + 1);
    var next := "scene_" + digits;
    if '_' in id {
      assert ParsePyInt(LastSegment(next, '_')) == Some(n + 1) by {
        IntToStringHasNo(n + 1, '_');
        assert next == "scene" + ['_'] + digits;
        LastSegmentAfter("scene", '_', digits);
        IntToStringRoundTrip(n + 1);
      }
    } else {
      assert next[5] == '_';
    }
  }

  /** What happens to one choice. */
  datatype Repair = Kept | Retarget(target: Json) | MakeEnding | Raise(error: Raised)

  predicate HasNext(choice: Json) {
    choice.JObj? && "next_scene_id" in choice.fields
  }

  /** A dict choice with a `next_scene_id` names a scene of the set; other choices are
      not inspected and count as resolved. */
  predicate Resolves(choice: Json, order: seq<Json>) {
    HasNext(choice) ==> PyIn(choice.fields["next_scene_id"], order)
  }

  /** One iteration of the inner loop: membership of an unhashable value raises
      TypeError, a resolving reference is kept, and `'_' in scene['id']` raises TypeError
      on an id that is not a string. */
  function RepairChoice(sceneId: Json, choice: Json, order: seq<Json>): Repair {
    if !HasNext(choice) then Kept
    else
      var v := choice.fields["next_scene_id"];
      if !Hashable(v) then Raise(TypeError)
      else if PyIn(v, order) then Kept
      else if !sceneId.JStr? then Raise(TypeError)
      else
        match RepairTarget(sceneId.s, order)
        case Some(t) => Retarget(t)
        case None => MakeEnding
  }

  /** What one iteration achieves: a kept choice resolves; a redirected one points at a
      scene of the set other than its own; an ending comes only from a dangling
      reference in a scene with a string id. */
  lemma RepairChoiceSpec(sceneId: Json, choice: Json, order: seq<Json>)
    ensures var r := RepairChoice(sceneId, choice, order);
      (r.Kept? ==> Resolves(choice, order)) &&
      (r.Retarget? ==> PyIn(r.target, order) && !PyEq(r.target, sceneId)) &&
      (r.MakeEnding? ==> !Resolves(choice, order) && sceneId.JStr?)
  {
    var r := RepairChoice(sceneId, choice, order);
    if r.Retarget? {
      RepairTargetNotSelf(sceneId.s, order);
    }
  }

  function SetTarget(choice: Json, t: Json): Json
    requires choice.JObj?
  {
    JObj(choice.fields["next_scene_id" := t])
  }

  /** The outcome of the inner loop over a scene's choices. */
  datatype Outcome = Fixed(choices: seq<Json>) | Ended | Failed(error: Raised)

  /** The inner loop: choices are repaired in order; the first that cannot be repaired
      ends the scene, and an exception stops everything. */
  function FixChoices(sceneId: Json, choices: seq<Json>, order: seq<Json>): (r: Outcome)
    requires AllHashable(order)
    ensures r.Fixed? ==> |r.choices| == |choices|
    ensures r.Fixed? ==> forall j :: 0 <= j < |choices| ==> Resolves(r.choices[j], order)
    ensures r.Fixed? ==> forall j :: 0 <= j < |choices| && Resolves(choices[j], order) ==>
      r.choices[j] == choices[j]
    ensures r.Fixed? ==> forall j :: 0 <= j < |choices| && r.choices[j] != choices[j] ==>
      sceneId.JStr? && HasNext(choices[j]) && RepairTarget(sceneId.s, order).Some? &&
      r.choices[j] == SetTarget(choices[j], RepairTarget(sceneId.s, order).value)
    ensures r.Ended? ==> sceneId.JStr?
    ensures (sceneId.JStr? && forall j :: 0 <= j < |choices| && HasNext(choices[j]) ==>
                                 Hashable(choices[j].fields["next_scene_id"])) ==> !r.Failed?
    ensures (forall j :: 0 <= j < |choices| ==> Resolves(choices[j], order)) ==> r == Fixed(choices)
  {
    if |choices| == 0 then Fixed([])
    else
      var rest := FixChoices(sceneId, choices[1..], order);
      assert forall j :: 1 <= j < |choices| ==> choices[j] == choices[1..][j - 1];
      match RepairChoice(sceneId, choices[0], order)
      case Raise(e) => Failed(e)
      case MakeEnding => Ended
      case Kept => Prepend(choices[0], rest)
      case Retarget(t) => Prepend(SetTarget(choices[0], t), rest)
  }

  /** A repaired first choice in front of the outcome for the others; an ending or an
      exception further on wins. */
  function Prepend(c: Json, rest: Outcome): (r: Outcome)
    ensures r.Fixed? <==> rest.Fixed?
    ensures !rest.Fixed? ==> r == rest
    ensures r.Fixed? ==> |r.choices| == |rest.choices| + 1 && r.choices[0] == c
    ensures r.Fixed? ==> forall j :: 1 <= j < |r.choices| ==> r.choices[j] == rest.choices[j - 1]
  {
    if rest.Fixed? then Fixed([c] + rest.choices) else rest
  }

  /** The repair of one scene: only a dict scene whose "choices" is a list is touched. */
  function FixScene(scene: Json, order: seq<Json>): (r: Result<Json, Raised>)
    requires HasId(scene) && AllHashable(order)
    ensures r.Success? ==> HasId(r.value) && IdOf(r.value) == IdOf(scene)
    ensures r.Success? ==> forall f :: f in scene.fields && f != "choices" && f != "is_ending" ==>
      f in r.value.fields && r.value.fields[f] == scene.fields[f]
  {
    var f := scene.fields;
    if "choices" in f && f["choices"].JArr? then
      match FixChoices(f["id"], f["choices"].items, order)
      case Failed(e) => Failure(e)
      case Ended => Success(JObj(f["is_ending" := JBool(true)]["choices" := JArr([])]))
      case Fixed(cs) => Success(JObj(f["choices" := JArr(cs)]))
    else Success(scene)
  }

  /** Every scene repaired in order; the first exception stops the loop. */
  function FixAll(scenes: seq<Json>, order: seq<Json>): (r: Result<seq<Json>, Raised>)
    requires forall k :: 0 <= k < |scenes| ==> HasId(scenes[k])
    requires AllHashable(order)
    ensures r.Success? <==> forall k :: 0 <= k < |scenes| ==> FixScene(scenes[k], order).Success?
    ensures r.Success? ==> (|r.value| == |scenes| &&
      forall k :: 0 <= k < |scenes| ==> r.value[k] == FixScene(scenes[k], order).value)
  {
    if |scenes| == 0 then Success([])
    else
      var head :- FixScene(scenes[0], order);
      var tail :- FixAll(scenes[1..], order);
      Success([head] + tail)
  }

  /** The closing log pass iterates over every truthy "choices" value: a number or a
      boolean is not iterable, so `for choice in scene['choices']` raises TypeError there.
      Strings and dicts iterate (over characters and keys) and log nothing. */
  predicate ChoicesIterable(scene: Json) {
    scene.JObj? && "choices" in scene.fields && PyTruthy(scene.fields["choices"]) ==>
      !scene.fields["choices"].JNum? && !scene.fields["choices"].JBool?
  }

  predicate AllChoicesIterable(scenes: seq<Json>) {
    forall k :: 0 <= k < |scenes| ==> ChoicesIterable(scenes[k])
  }

  /** `fix_scene_references`: an empty list comes back as it is; otherwise the id set is
      built, every scene is repaired in order, and the closing log pass runs over the
      repaired scenes. */
  function FixSceneReferences(scenes: seq<Json>, order: seq<Json>): (r: Result<seq<Json>, Raised>)
    requires OrderFits(order, scenes)
    ensures |scenes| == 0 ==> r == Success(scenes)
    ensures r.Success? ==> |r.value| == |scenes| && AllChoicesIterable(r.value)
    ensures r.Success? ==> forall k :: 0 <= k < |scenes| ==>
      HasId(scenes[k]) && HasId(r.value[k]) && IdOf(r.value[k]) == IdOf(scenes[k])
  {
    if |scenes| == 0 then Success(scenes)
    else
      match IdSetError(scenes)
      case Some(e) => Failure(e)
      case None =>
        SetOrderHashable(order, scenes);
        var out :- FixAll(scenes, order);
        if AllChoicesIterable(out) then Success(out) else Failure(TypeError)
  }

  // ---------------------------------------------------------------------------
  // Properties of the repair

  /** How a repaired scene relates to the original: untouched, its choices replaced
      one-for-one by repaired ones, or made an ending with no choices. */
  ghost predicate RepairedScene(before: Json, after: Json, order: seq<Json>)
    requires HasId(before)
  {
    var f := before.fields;
    if "choices" in f && f["choices"].JArr? then
      var cs := f["choices"].items;
      || (after == JObj(f["is_ending" := JBool(true)]["choices" := JArr([])]) && f["id"].JStr?)
      || (exists ds: seq<Json> ::
            after == JObj(f["choices" := JArr(ds)]) && |ds| == |cs| &&
            (forall j :: 0 <= j < |cs| ==> Resolves(ds[j], order)) &&
            (forall j :: 0 <= j < |cs| && Resolves(cs[j], order) ==> ds[j] == cs[j]))
    else after == before
  }

  lemma FixSceneSpec(scene: Json, order: seq<Json>)
    requires HasId(scene) && AllHashable(order)
    ensures FixScene(scene, order).Success? ==>
      var after := FixScene(scene, order).value;
      HasId(after) && IdOf(after) == IdOf(scene) && RepairedScene(scene, after, order)
  {
    var f := scene.fields;
    if "choices" in f && f["choices"].JArr? {
      var r := FixChoices(f["id"], f["choices"].items, order);
      if r.Fixed? {
        assert FixScene(scene, order).value == JObj(f["choices" := JArr(r.choices)]);
      }
    }
  }

  lemma {:induction false} FixAllSpec(scenes: seq<Json>, order: seq<Json>)
    requires forall k :: 0 <= k < |scenes| ==> HasId(scenes[k])
    requires AllHashable(order)
    ensures FixAll(scenes, order).Success? ==>
      var out := FixAll(scenes, order).value;
      |out| == |scenes| &&
      forall k :: 0 <= k < |scenes| ==>
        HasId(out[k]) && IdOf(out[k]) == IdOf(scenes[k]) && RepairedScene(scenes[k], out[k], order)
    decreases |scenes|
  {
    if |scenes| > 0 && FixAll(scenes, order).Success? {
      FixSceneSpec(scenes[0], order);
      FixAllSpec(scenes[1..], order);
      var out := FixAll(scenes, order).value;
      var tail := FixAll(scenes[1..], order).value;
      assert out == [FixScene(scenes[0], order).value] + tail;
      forall k | 1 <= k < |scenes|
        ensures HasId(out[k]) && IdOf(out[k]) == IdOf(scenes[k]) && RepairedScene(scenes[k], out[k], order)
      {
        assert scenes[k] == scenes[1..][k - 1] && out[k] == tail[k - 1];
      }
    }
  }

  /** On success the list keeps its length and order, every scene keeps its id, and each
      scene is either untouched, has its choices repaired one-for-one with every dict
      reference resolving and every already resolving choice untouched, or was made an
      ending with no choices. */
  lemma FixSceneReferencesSpec(scenes: seq<Json>, order: seq<Json>)
    requires OrderFits(order, scenes)
    ensures |scenes| == 0 ==> FixSceneReferences(scenes, order) == Success(scenes)
    ensures !IdsBuildable(scenes) && |scenes| > 0 ==> FixSceneReferences(scenes, order).Failure?
    ensures !AllChoicesIterable(scenes) ==> FixSceneReferences(scenes, order).Failure?
    ensures FixSceneReferences(scenes, order).Success? ==>
      var out := FixSceneReferences(scenes, order).value;
      |out| == |scenes| &&
      forall k :: 0 <= k < |scenes| ==>
        HasId(scenes[k]) && HasId(out[k]) && IdOf(out[k]) == IdOf(scenes[k]) &&
        RepairedScene(scenes[k], out[k], order)
  {
    if |scenes| > 0 && IdsBuildable(scenes) {
      SetOrderHashable(order, scenes);
      FixAllSpec(scenes, order);
      var r := FixAll(scenes, order);
      if r.Success? && !AllChoicesIterable(scenes) {
        var k :| 0 <= k < |scenes| && !ChoicesIterable(scenes[k]);
        RepairKeepsIterability(scenes[k], r.value[k], order);
      }
    }
  }

  /** A repaired scene's choices are iterable exactly when the original's were: a list
      stays a list, and anything else is left as it is. */
  lemma RepairKeepsIterability(before: Json, after: Json, order: seq<Json>)
    requires HasId(before) && RepairedScene(before, after, order)
    ensures ChoicesIterable(after) <==> ChoicesIterable(before)
  {
  }

  /** Every dict scene whose choices are a list: each of its dict choices with a
      `next_scene_id` names a scene of the set. */
  predicate AllReferencesResolve(scenes: seq<Json>, order: seq<Json>) {
    forall k :: (0 <= k < |scenes| && scenes[k].JObj? && "choices" in scenes[k].fields &&
                 scenes[k].fields["choices"].JArr?) ==>
      forall j :: 0 <= j < |scenes[k].fields["choices"].items| ==>
        Resolves(scenes[k].fields["choices"].items[j], order)
  }

  lemma RepairedSceneResolves(before: Json, after: Json, order: seq<Json>)
    requires HasId(before) && RepairedScene(before, after, order)
    requires after.JObj? && "choices" in after.fields && after.fields["choices"].JArr?
    ensures forall j :: 0 <= j < |after.fields["choices"].items| ==>
      Resolves(after.fields["choices"].items[j], order)
  {
  }

  /** The docstring's promise: after a successful repair every reference resolves, and
      by `PyInOrderIffSceneId` resolving means naming the id of a scene of the list. */
  lemma FixResolvesAllReferences(scenes: seq<Json>, order: seq<Json>)
    requires OrderFits(order, scenes)
    requires FixSceneReferences(scenes, order).Success?
    ensures AllReferencesResolve(FixSceneReferences(scenes, order).value, order)
  {
    FixSceneReferencesSpec(scenes, order);
    var out := FixSceneReferences(scenes, order).value;
    forall k | 0 <= k < |out| && out[k].JObj? && "choices" in out[k].fields &&
      out[k].fields["choices"].JArr?
      ensures forall j :: 0 <= j < |out[k].fields["choices"].items| ==>
        Resolves(out[k].fields["choices"].items[j], order)
    {
      RepairedSceneResolves(scenes[k], out[k], order);
    }
  }

  /** A list whose references all resolve is returned unchanged. */
  lemma {:induction false} FixAllResolved(scenes: seq<Json>, order: seq<Json>)
    requires forall k :: 0 <= k < |scenes| ==> HasId(scenes[k])
    requires AllHashable(order)
    requires AllReferencesResolve(scenes, order)
    ensures FixAll(scenes, order) == Success(scenes)
    decreases |scenes|
  {
    if |scenes| > 0 {
      var f := scenes[0].fields;
      if "choices" in f && f["choices"].JArr? {
        assert FixChoices(f["id"], f["choices"].items, order) == Fixed(f["choices"].items);
        assert f["choices" := f["choices"]] == f;
      }
      assert AllReferencesResolve(scenes[1..], order) by {
        assert forall k :: 1 <= k < |scenes| ==> scenes[1..][k - 1] == scenes[k];
      }
      FixAllResolved(scenes[1..], order);
      assert [scenes[0]] + scenes[1..] == scenes;
    }
  }

  /** A set order of a list is a set order of every list with the same ids. */
  lemma SameIdsSameOrder(order: seq<Json>, scenes: seq<Json>, out: seq<Json>)
    requires IdsBuildable(scenes) && IsSetOrder(order, scenes)
    requires |out| == |scenes|
    requires forall k :: 0 <= k < |scenes| ==> HasId(out[k]) && IdOf(out[k]) == IdOf(scenes[k])
    ensures IdsBuildable(out) && IsSetOrder(order, out)
  {
    assert Ids(out) == Ids(scenes);
  }

  /** Repair is idempotent: repairing a repaired list changes nothing. */
  lemma FixSceneReferencesIdempotent(scenes: seq<Json>, order: seq<Json>)
    requires OrderFits(order, scenes)
    requires FixSceneReferences(scenes, order).Success?
    ensures OrderFits(order, FixSceneReferences(scenes, order).value)
    ensures var out := FixSceneReferences(scenes, order).value;
      FixSceneReferences(out, order) == Success(out)
  {
    FixSceneReferencesSpec(scenes, order);
    FixResolvesAllReferences(scenes, order);
    var out := FixSceneReferences(scenes, order).value;
    if |scenes| > 0 {
      SameIdsSameOrder(order, scenes, out);
      SetOrderHashable(order, scenes);
      FixAllResolved(out, order);
    }
  }

  /** A choice that is repaired is pointed at another scene, never its own. */
  lemma FixChoicesNotSelf(sceneId: Json, choices: seq<Json>, order: seq<Json>, j: nat)
    requires AllHashable(order)
    ensures var out := FixChoices(sceneId, choices, order);
      out.Fixed? && j < |choices| && out.choices[j] != choices[j] ==>
        HasNext(out.choices[j]) && !PyEq(out.choices[j].fields["next_scene_id"], sceneId)
  {
    var out := FixChoices(sceneId, choices, order);
    if out.Fixed? && j < |choices| && out.choices[j] != choices[j] {
      RepairTargetNotSelf(sceneId.s, order);
    }
  }
}
