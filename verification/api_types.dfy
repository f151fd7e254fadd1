/** The wire records of the monolithic backend (main.py): the request body of
    `POST /api/generate-quest`, the pydantic response records, and the error body
    its exception handler sends. Field names are camelCase here; each doc comment
    gives the snake_case JSON key where the two differ. */
module ApiTypes {
  import opened Wrappers

  /** Request body. Keys: setting, starting_point, quest_style, custom_setting,
      custom_quest_style, file_content, input_method (default "form"). */
  datatype QuestRequest = QuestRequest(
    setting: string, startingPoint: string, questStyle: string,
    customSetting: Option<string>, customQuestStyle: Option<string>,
    fileContent: Option<string>, inputMethod: string)

  /** Keys: id, name, role, description, motivation, is_enemy, is_ally. */
  datatype ApiCharacter = ApiCharacter(
    id: string, name: string, role: string, description: string,
    motivation: Option<string>, isEnemy: Option<bool>, isAlly: Option<bool>)

  /** Keys: id, name, description, characters, items. */
  datatype ApiLocation = ApiLocation(
    id: string, name: string, description: string,
    characters: Option<seq<string>>, items: Option<seq<string>>)

  /** Keys: id, name, description, is_key, effect. */
  datatype ApiItem = ApiItem(
    id: string, name: string, description: string,
    isKey: Option<bool>, effect: Option<string>)

  /** Keys: id, text, next_scene_id (a required string), required_items, consequence. */
  datatype ApiChoice = ApiChoice(
    id: string, text: string, nextSceneId: string,
    requiredItems: Option<seq<string>>, consequence: Option<string>)

  /** Keys: id, title, description, location_id, characters, items, choices, is_ending. */
  datatype ApiScene = ApiScene(
    id: string, title: string, description: string, locationId: string,
    characters: Option<seq<string>>, items: Option<seq<string>>,
    choices: seq<ApiChoice>, isEnding: Option<bool>)

  /** Keys: id, title, description, setting, quest_style, starting_point, scenes,
      characters, locations, items. */
  datatype ApiQuest = ApiQuest(
    id: string, title: string, description: string,
    setting: string, questStyle: string, startingPoint: string,
    scenes: seq<ApiScene>, characters: seq<ApiCharacter>,
    locations: seq<ApiLocation>, items: seq<ApiItem>)

  /** A raised `HTTPException`: status code and detail text. */
  datatype HttpError = HttpError(status: int, detail: string)

  /** The JSON body the backend's HTTPException handler sends:
      `{"code": status, "message": detail, "details": null}`. There is no `detail` key. */
  datatype ErrorBody = ErrorBody(code: int, message: string, details: Option<string>)

  /** The handler's translation of an `HTTPException` into a response body. */
  function HandlerBody(e: HttpError): (b: ErrorBody)
    ensures b.code == e.status && b.message == e.detail && b.details.None?
  {
    ErrorBody(e.status, e.detail, None)
  }

  /** Some scene of the list carries this id. */
  predicate HasApiScene(scenes: seq<ApiScene>, id: string) {
    exists k :: 0 <= k < |scenes| && scenes[k].id == id
  }

  /** Every choice of every scene names a scene of the same list. */
  predicate ApiClosed(scenes: seq<ApiScene>) {
    forall i, j :: 0 <= i < |scenes| && 0 <= j < |scenes[i].choices| ==>
      HasApiScene(scenes, scenes[i].choices[j].nextSceneId)
  }
}
