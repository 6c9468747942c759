/** The forms whose cleaning and `save` methods decide what is stored: the
    target of a move or copy, new Dirs, AI models and prompts, edits of an
    AI model, and the AI models an edited prompt may link to. */
module Forms {
  import opened Wrappers
  import opened Models
  import opened Store

  // ---------------------------------------------------------------------
  // TargetNodeForm

  /** `clean_target_id`: the empty choice stands for no target. */
  function CleanTargetId(value: string): (r: Option<string>)
    ensures r.None? <==> value == ""
    ensures r.Some? ==> r.value == value
  {
    if value == "" then None else Some(value)
  }

  /** The value the select widget posts for a target: the empty choice for
      none. */
  function TargetValue(target: Option<string>): string {
    match target
    case None => ""
    case Some(v) => v
  }

  /** Cleaning loses nothing the widget posted, and every target except the
      empty text survives the trip through the widget. */
  lemma CleanTargetRoundTrip(value: string, target: Option<string>)
    ensures TargetValue(CleanTargetId(value)) == value
    ensures CleanTargetId(TargetValue(target)) == target <==> target != Some("")
  {
  }

  // ---------------------------------------------------------------------
  // The hidden `parent_id` field

  /** `if parent_id := self.cleaned_data.get('parent_id')`: the optional
      integer field is truthy when it is filled in and not zero. */
  function Placement(parentId: Option<int>): (r: Option<int>)
    ensures r.Some? <==> parentId.Some? && parentId.value != 0
    ensures r.Some? ==> r == parentId
  {
    if parentId.Some? && parentId.value != 0 then parentId else None
  }

  /** A stored row can sit under the Dir `Placement` names only when that
      Dir exists. */
  predicate PlacementExists(dirs: map<Id, Dir>, parentId: Option<int>) {
    Placement(parentId).None? || (Placement(parentId).value >= 0 && Placement(parentId).value as Id in dirs)
  }

  /** The Dir a saved row is filed in, when its placement exists. */
  function FiledIn(dirs: map<Id, Dir>, parentId: Option<int>): (r: Option<Id>)
    requires PlacementExists(dirs, parentId)
    ensures r.Some? ==> r.value in dirs && Placement(parentId) == Some(r.value as int)
    ensures r.None? <==> Placement(parentId).None?
  {
    if Placement(parentId).None? then None else Some(Placement(parentId).value as Id)
  }

  // ---------------------------------------------------------------------
  // AddDirNodeForm

  /** `AddDirNodeForm.save`: a child of the Dir `parent_id` names when it
      is truthy, which must exist; a new root otherwise. */
  method AddDirNodeSave(db: Db, parentId: Option<int>, display: string) returns (r: Result<Id, Error>)
    requires db.Valid()
    modifies db
    ensures db.Valid()
    ensures !PlacementExists(old(db.dirs), parentId) ==> r == Err(NotFound) && unchanged(db)
    ensures PlacementExists(old(db.dirs), parentId) ==>
      && r == Ok(old(db.next)) && old(db.next) !in old(db.dirs)
      && db.dirs == old(db.dirs)[old(db.next) := Dir(FiledIn(old(db.dirs), parentId), display)]
      && db.prompts == old(db.prompts) && db.aimodels == old(db.aimodels) && db.next == old(db.next) + 1
  {
    if !PlacementExists(db.dirs, parentId) {
      return Err(NotFound);
    }
    var id := db.CreateDir(FiledIn(db.dirs, parentId), display);
    r := Ok(id);
  }

  /** A zero or empty `parent_id` makes a root, any other one a child of
      the Dir it names. */
  lemma AddDirNodePlace(dirs: map<Id, Dir>, parentId: Option<int>)
    requires PlacementExists(dirs, parentId)
    ensures FiledIn(dirs, parentId).None? <==> parentId.None? || parentId == Some(0)
    ensures FiledIn(dirs, parentId).Some? ==> parentId == Some(FiledIn(dirs, parentId).value as int)
  {
  }

  // ---------------------------------------------------------------------
  // AddAIModelForm

  /** The AI model `AddAIModelForm.save` writes: the form's display and
      endpoint, the key only when `api_key` is not empty, filed in `dir`. */
  function NewAIModel(display: string, endpoint: string, apiKey: string, dir: Option<Id>): (r: AIModel)
    ensures r.display == display && r.endpoint == endpoint && r.dir == dir
    ensures r.key.Some? <==> apiKey != ""
    ensures r.key.Some? ==> r.key.value == apiKey
  {
    AIModel(display, dir, endpoint, if apiKey != "" then Some(apiKey) else None)
  }

  /** `AddAIModelForm.save`: `dirnode_id` is set to a truthy `parent_id`
      without a lookup, so a key that names no Dir breaks the foreign key
      when the row is saved. */
  method AddAIModelSave(db: Db, display: string, endpoint: string, apiKey: string, parentId: Option<int>)
    returns (r: Result<Id, Error>)
    requires db.Valid()
    modifies db
    ensures db.Valid()
    ensures !PlacementExists(old(db.dirs), parentId) ==> r == Err(IntegrityError) && unchanged(db)
    ensures PlacementExists(old(db.dirs), parentId) ==>
      && r == Ok(old(db.next)) && old(db.next) !in old(db.aimodels)
      && db.aimodels == old(db.aimodels)[old(db.next) :=
           NewAIModel(display, endpoint, apiKey, FiledIn(old(db.dirs), parentId))]
      && db.dirs == old(db.dirs) && db.prompts == old(db.prompts) && db.next == old(db.next) + 1
  {
    if !PlacementExists(db.dirs, parentId) {
      return Err(IntegrityError);
    }
    var id := db.CreateAIModel(NewAIModel(display, endpoint, apiKey, FiledIn(db.dirs, parentId)));
    r := Ok(id);
  }

  // ---------------------------------------------------------------------
  // AddPromptForm

  /** The prompt `AddPromptForm.save` writes: the form's display and text,
      filed in `dir`, with no AI models and no fields yet. */
  function NewPrompt(display: string, text: string, dir: Option<Id>): (r: Prompt)
    ensures r.display == display && r.text == text && r.dir == dir
    ensures r.aimodels == {} && r.fields == {}
  {
    Prompt(display, text, dir, {}, {})
  }

  /** `AddPromptForm.save`: filed under a truthy `parent_id`, without a
      lookup; unattached otherwise. */
  method AddPromptSave(db: Db, display: string, text: string, parentId: Option<int>) returns (r: Result<Id, Error>)
    requires db.Valid()
    modifies db
    ensures db.Valid()
    ensures !PlacementExists(old(db.dirs), parentId) ==> r == Err(IntegrityError) && unchanged(db)
    ensures PlacementExists(old(db.dirs), parentId) ==>
      && r == Ok(old(db.next)) && old(db.next) !in old(db.prompts)
      && db.prompts == old(db.prompts)[old(db.next) := NewPrompt(display, text, FiledIn(old(db.dirs), parentId))]
      && db.dirs == old(db.dirs) && db.aimodels == old(db.aimodels) && db.next == old(db.next) + 1
  {
    if !PlacementExists(db.dirs, parentId) {
      return Err(IntegrityError);
    }
    var id := db.CreatePrompt(NewPrompt(display, text, FiledIn(db.dirs, parentId)));
    r := Ok(id);
  }

  // ---------------------------------------------------------------------
  // EditAIModelForm

  /** The instance `EditAIModelForm.save` hands back: display and endpoint
      from the form, the stored key replaced only by a non-empty `api_key`,
      the directory untouched. */
  function EditedAIModel(m: AIModel, display: string, endpoint: string, apiKey: string): (r: AIModel)
    ensures r.display == display && r.endpoint == endpoint && r.dir == m.dir
    ensures apiKey == "" ==> r.key == m.key
    ensures apiKey != "" ==> r.key == Some(apiKey)
  {
    m.(display := display, endpoint := endpoint, key := if apiKey != "" then Some(apiKey) else m.key)
  }

  /** Saving the same form twice stores what saving it once does. */
  lemma EditedAIModelIdempotent(m: AIModel, display: string, endpoint: string, apiKey: string)
    ensures EditedAIModel(EditedAIModel(m, display, endpoint, apiKey), display, endpoint, apiKey)
      == EditedAIModel(m, display, endpoint, apiKey)
  {
  }

  /** `EditAIModelForm(instance=...).save(commit)`: the edited instance is
      returned either way, and written back only when `commit` is set. */
  method EditAIModelSave(db: Db, id: Id, display: string, endpoint: string, apiKey: string, commit: bool)
    returns (m: AIModel)
    requires db.Valid() && id in db.aimodels
    modifies db
    ensures db.Valid()
    ensures m == EditedAIModel(old(db.aimodels)[id], display, endpoint, apiKey)
    ensures commit ==>
      && db.aimodels == old(db.aimodels)[id := m]
      && db.dirs == old(db.dirs) && db.prompts == old(db.prompts) && db.next == old(db.next)
    ensures !commit ==> unchanged(db)
  {
    m := EditedAIModel(db.aimodels[id], display, endpoint, apiKey);
    if commit {
      db.aimodels := db.aimodels[id := m];
    }
  }

  // ---------------------------------------------------------------------
  // EditPromptForm

  /** The AI models an `EditPromptForm` offers: for a prompt already saved
      (a truthy primary key), those `get_ancestor_aimodels()` returns;
      otherwise the field's own choices, every stored AI model. */
  function AIModelChoices(aimodels: map<Id, AIModel>, pk: Option<Id>, ancestorAIModels: set<Id>): (r: set<Id>)
    ensures pk.Some? && pk.value != 0 ==> r == ancestorAIModels
    ensures pk.None? || pk == Some(0) ==> r == aimodels.Keys
  {
    if pk.Some? && pk.value != 0 then ancestorAIModels else aimodels.Keys
  }

  /** The restriction only ever narrows the choices, so every choice names
      a stored AI model. */
  lemma AIModelChoicesNarrow(aimodels: map<Id, AIModel>, pk: Option<Id>, ancestorAIModels: set<Id>)
    requires ancestorAIModels <= aimodels.Keys
    ensures AIModelChoices(aimodels, pk, ancestorAIModels) <= AIModelChoices(aimodels, None, ancestorAIModels)
    ensures AIModelChoices(aimodels, pk, ancestorAIModels) <= aimodels.Keys
  {
  }
}
