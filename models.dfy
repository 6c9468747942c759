/** The three records of the directory store, as the initial migration
    declares them, and the errors the views and forms can end in. */
module Models {
  import opened Wrappers

  /** Primary keys. */
  type Id = nat

  /** A directory: an optional parent directory (null makes it a root) and a
      display name. */
  datatype Dir = Dir(parent: Option<Id>, display: string)

  /** A prompt: display name, body text, the directory it is filed in (the
      column is nullable), and its many-to-many links to AI models and to
      template fields (kept as sets of keys). */
  datatype Prompt = Prompt(
    display: string,
    text: string,
    dir: Option<Id>,
    aimodels: set<Id>,
    fields: set<Id>)

  /** An AI model configuration: display name, the directory it is filed in
      (nullable), its endpoint URL and its stored API key (absent until one is
      supplied). */
  datatype AIModel = AIModel(
    display: string,
    dir: Option<Id>,
    endpoint: string,
    key: Option<string>)

  /** How an operation can fail: a missing row (`get_object_or_404` and
      `.get()`), a request value that is not a key, a row that would break a
      foreign key, and a directory move that would create a cycle. */
  datatype Error = NotFound | BadValue | IntegrityError | InvalidMove
}
