/** The views that change the directory forest one row at a time:
    `add_dir`, `delete_dir`, `rename_dir` and `move_dir`. Only their effect
    on the store is modelled; each of them then renders the index page
    from the new state. */
module Views {
  import opened Wrappers
  import opened Models
  import opened Forest
  import opened Store
  import opened Post

  // ---------------------------------------------------------------------
  // add_dir

  /** `Dir.objects.get(id=parent_id) if parent_id else None`: a missing or
      empty `parent_dir_id` asks for a root; any other text must spell the
      key of a stored Dir. Text that is no number fails the lookup with
      `BadValue`, an unknown key with `NotFound`. */
  function ParentOf(dirs: map<Id, Dir>, parentId: Option<string>): (r: Result<Option<Id>, Error>)
    ensures r == Ok(None) <==> parentId.None? || parentId == Some("")
    ensures r.Ok? && r.value.Some? ==>
      parentId.Some? && ParseId(parentId.value) == r.value && r.value.value in dirs
    ensures r == Err(BadValue) <==> parentId.Some? && parentId.value != "" && ParseId(parentId.value).None?
    ensures r == Err(NotFound) <==>
      parentId.Some? && ParseId(parentId.value).Some? && ParseId(parentId.value).value !in dirs
  {
    match parentId
    case None => Ok(None)
    case Some(s) =>
      if s == "" then Ok(None)
      else match ParseId(s)
        case None => Err(BadValue)
        case Some(k) => if k in dirs then Ok(Some(k)) else Err(NotFound)
  }

  /** `add_dir` on a POST: the new Dir goes under the Dir `parent_dir_id`
      names, or becomes a root; a missing `dir_name` breaks the NOT NULL
      constraint on `display`. The key of the new Dir stands for the page. */
  method AddDir(db: Db, parentId: Option<string>, dirName: Option<string>) returns (r: Result<Id, Error>)
    requires db.Valid()
    modifies db
    ensures db.Valid()
    ensures ParentOf(old(db.dirs), parentId).Err? ==>
      r == Err(ParentOf(old(db.dirs), parentId).error) && unchanged(db)
    ensures ParentOf(old(db.dirs), parentId).Ok? && dirName.None? ==> r == Err(IntegrityError) && unchanged(db)
    ensures ParentOf(old(db.dirs), parentId).Ok? && dirName.Some? ==>
      && r == Ok(old(db.next)) && old(db.next) !in old(db.dirs)
      && db.dirs == old(db.dirs)[old(db.next) := Dir(ParentOf(old(db.dirs), parentId).value, dirName.value)]
      && db.prompts == old(db.prompts) && db.aimodels == old(db.aimodels) && db.next == old(db.next) + 1
  {
    var parent := ParentOf(db.dirs, parentId);
    if parent.Err? {
      return Err(parent.error);
    }
    if dirName.None? {
      return Err(IntegrityError);
    }
    var id := db.CreateDir(parent.value, dirName.value);
    r := Ok(id);
  }

  /** A Dir added under `parent` is a leaf whose ancestors are those of its
      parent followed by the parent; the Dirs already there keep theirs. */
  lemma AddedDirPlace(dirs: map<Id, Dir>, id: Id, parent: Option<Id>, display: string)
    requires Acyclic(dirs) && id !in dirs && (parent.Some? ==> parent.value in dirs)
    requires forall k :: k in dirs && dirs[k].parent.Some? ==> dirs[k].parent.value in dirs
    ensures Acyclic(dirs[id := Dir(parent, display)])
    ensures Subtree(dirs[id := Dir(parent, display)], id) == {id}
    ensures Ancestors(dirs[id := Dir(parent, display)], id) ==
      if parent.None? then [] else Ancestors(dirs, parent.value) + [parent.value]
    ensures forall x :: x in dirs ==> Ancestors(dirs[id := Dir(parent, display)], x) == Ancestors(dirs, x)
  {
    var more := dirs[id := Dir(parent, display)];
    InsertKeepsAcyclic(dirs, id, Dir(parent, display));
    forall x | x in dirs
      ensures Ancestors(more, x) == Ancestors(dirs, x)
    {
      AncestorsExtend(dirs, more, x);
    }
    forall x | x in dirs
      ensures !InSubtree(more, x, id)
    {
      assert Ancestors(more, x) == Ancestors(dirs, x);
    }
    assert InSubtree(more, id, id);
  }

  // ---------------------------------------------------------------------
  // delete_dir

  /** The rows of `m` whose key is not in `gone`. */
  function Without<V>(m: map<Id, V>, gone: set<Id>): map<Id, V> {
    map k | k in m && k !in gone :: m[k]
  }

  /** The prompts that survive a cascade, each without its links to the AI
      models the cascade deleted: those links are rows of the join table,
      which go with the AI model. */
  function Unlinked(prompts: map<Id, Prompt>, gone: set<Id>, goneAIModels: set<Id>): map<Id, Prompt> {
    map k | k in prompts && k !in gone :: prompts[k].(aimodels := prompts[k].aimodels - goneAIModels)
  }

  ghost predicate Deleted(
    dirs: map<Id, Dir>, prompts: map<Id, Prompt>, aimodels: map<Id, AIModel>, d: Id,
    dirs': map<Id, Dir>, prompts': map<Id, Prompt>, aimodels': map<Id, AIModel>)
    requires Acyclic(dirs)
  {
    var gone := Subtree(dirs, d);
    var goneAIModels := AIModelsUnder(aimodels, gone);
    && dirs' == Without(dirs, gone)
    && prompts' == Unlinked(prompts, PromptsUnder(prompts, gone), goneAIModels)
    && aimodels' == Without(aimodels, goneAIModels)
  }

  /** `delete_dir` on a POST: 404 when there is no such Dir; otherwise
      `_dir.delete()` removes it and, through the CASCADE foreign keys, its
      descendants and every prompt and AI model filed in one of them. */
  method DeleteDir(db: Db, dirId: Id) returns (r: Result<(), Error>)
    requires db.Valid()
    modifies db
    ensures db.Valid()
    ensures dirId !in old(db.dirs) ==> r == Err(NotFound) && unchanged(db)
    ensures dirId in old(db.dirs) ==>
      && r == Ok(()) && db.next == old(db.next)
      && Deleted(old(db.dirs), old(db.prompts), old(db.aimodels), dirId, db.dirs, db.prompts, db.aimodels)
    ensures PromptsFiled(old(db.prompts)) ==> PromptsFiled(db.prompts)
  {
    if dirId !in db.dirs {
      return Err(NotFound);
    }
    var gone := Subtree(db.dirs, dirId);
    var goneAIModels := AIModelsUnder(db.aimodels, gone);
    var dirs := Without(db.dirs, gone);
    var prompts := Unlinked(db.prompts, PromptsUnder(db.prompts, gone), goneAIModels);
    var aimodels := Without(db.aimodels, goneAIModels);
    DeleteCascade(db.dirs, db.prompts, db.aimodels, db.next, dirId);
    db.dirs, db.prompts, db.aimodels := dirs, prompts, aimodels;
    r := Ok(());
  }

  /** The cascade is complete and touches nothing else: a Dir is left iff
      it is neither `d` nor below `d`, and it is left unchanged; a prompt
      or AI model is left iff it is not filed below `d`; what is left
      refers to nothing deleted, so the store stays sound. */
  lemma DeleteCascade(dirs: map<Id, Dir>, prompts: map<Id, Prompt>, aimodels: map<Id, AIModel>, next: Id, d: Id)
    requires Integrity(dirs, prompts, aimodels, next) && Acyclic(dirs) && d in dirs
    ensures var gone := Subtree(dirs, d);
      var goneAIModels := AIModelsUnder(aimodels, gone);
      var dirs' := Without(dirs, gone);
      var prompts' := Unlinked(prompts, PromptsUnder(prompts, gone), goneAIModels);
      var aimodels' := Without(aimodels, goneAIModels);
      && d !in dirs'
      && (forall x :: x in dirs' <==> x in dirs && !InSubtree(dirs, x, d))
      && SubMap(dirs', dirs)
      && (forall k :: k in prompts' <==> k in prompts && !(prompts[k].dir.Some? && prompts[k].dir.value in gone))
      && (forall k :: k in aimodels' <==> k in aimodels && !(aimodels[k].dir.Some? && aimodels[k].dir.value in gone))
      && SubMap(aimodels', aimodels)
      && Integrity(dirs', prompts', aimodels', next) && Acyclic(dirs')
  {
    var gone := Subtree(dirs, d);
    var dirs' := Without(dirs, gone);
    forall k | k in dirs' && dirs'[k].parent.Some?
      ensures dirs'[k].parent.value in dirs'
    {
      if dirs'[k].parent.value in gone {
        ChildInSubtree(dirs, k, d);
      }
    }
    RestrictKeepsAcyclic(dirs, dirs');
  }

  // ---------------------------------------------------------------------
  // rename_dir

  /** `rename_dir` on a POST: 404 when there is no such Dir; otherwise its
      display becomes `new_dir_name`, a missing one breaking the NOT NULL
      constraint on `display`. */
  method RenameDir(db: Db, dirId: Id, newName: Option<string>) returns (r: Result<(), Error>)
    requires db.Valid()
    modifies db
    ensures db.Valid()
    ensures dirId !in old(db.dirs) ==> r == Err(NotFound) && unchanged(db)
    ensures dirId in old(db.dirs) && newName.None? ==> r == Err(IntegrityError) && unchanged(db)
    ensures dirId in old(db.dirs) && newName.Some? ==>
      && r == Ok(())
      && db.dirs == old(db.dirs)[dirId := old(db.dirs)[dirId].(display := newName.value)]
      && db.prompts == old(db.prompts) && db.aimodels == old(db.aimodels) && db.next == old(db.next)
  {
    if dirId !in db.dirs {
      return Err(NotFound);
    }
    if newName.None? {
      return Err(IntegrityError);
    }
    var dirs := db.dirs[dirId := db.dirs[dirId].(display := newName.value)];
    RenameKeepsShape(db.dirs, dirId, newName.value);
    db.dirs := dirs;
    r := Ok(());
  }

  /** Renaming changes a display name and nothing about the forest: every
      Dir keeps its ancestors and its subtree. */
  lemma RenameKeepsShape(dirs: map<Id, Dir>, d: Id, name: string)
    requires Acyclic(dirs) && d in dirs
    ensures SameParents(dirs, dirs[d := dirs[d].(display := name)])
    ensures Acyclic(dirs[d := dirs[d].(display := name)])
    ensures forall x :: x in dirs ==> Ancestors(dirs[d := dirs[d].(display := name)], x) == Ancestors(dirs, x)
    ensures forall x :: Subtree(dirs[d := dirs[d].(display := name)], x) == Subtree(dirs, x)
  {
    SameParentsShape(dirs, dirs[d := dirs[d].(display := name)]);
  }

  // ---------------------------------------------------------------------
  // move_dir

  /** `None if new_parent_id == 'None' else get_object_or_404(Dir,
      id=new_parent_id)`: the text `None` asks for a root; any other text
      must spell the key of a stored Dir. A missing field matches no Dir. */
  function NewParentOf(dirs: map<Id, Dir>, newParentId: Option<string>): (r: Result<Option<Id>, Error>)
    ensures r == Ok(None) <==> newParentId == Some("None")
    ensures r.Ok? && r.value.Some? ==>
      newParentId.Some? && ParseId(newParentId.value) == r.value && r.value.value in dirs
    ensures r == Err(BadValue) <==> newParentId.Some? && newParentId.value != "None" && ParseId(newParentId.value).None?
    ensures r == Err(NotFound) <==>
      newParentId.None? || (ParseId(newParentId.value).Some? && ParseId(newParentId.value).value !in dirs)
  {
    match newParentId
    case None => Err(NotFound)
    case Some(s) =>
      if s == "None" then Ok(None)
      else match ParseId(s)
        case None => Err(BadValue)
        case Some(k) => if k in dirs then Ok(Some(k)) else Err(NotFound)
  }

  /** The Dirs after `_dir.dir = new_parent_dir; _dir.save()`. */
  function Reparented(dirs: map<Id, Dir>, d: Id, np: Option<Id>): map<Id, Dir>
    requires d in dirs
  {
    dirs[d := dirs[d].(parent := np)]
  }

  /** A move keeps the forest a forest: the new parent is not the moved Dir
      and not one of its descendants. */
  predicate MoveAllowed(dirs: map<Id, Dir>, d: Id, np: Option<Id>)
    requires Acyclic(dirs)
  {
    np.None? || np.value !in Subtree(dirs, d)
  }

  /** `move_dir` on a POST, as written: the new parent is looked up first,
      then the Dir, and the Dir is re-parented without any check. Only its
      parent changes; the store stays sound exactly when the move is
      allowed. */
  method MoveDir(db: Db, dirId: Id, newParentId: Option<string>) returns (r: Result<(), Error>)
    requires db.Valid()
    modifies db
    ensures Integrity(db.dirs, db.prompts, db.aimodels, db.next)
    ensures NewParentOf(old(db.dirs), newParentId).Err? ==>
      r == Err(NewParentOf(old(db.dirs), newParentId).error) && unchanged(db)
    ensures NewParentOf(old(db.dirs), newParentId).Ok? && dirId !in old(db.dirs) ==> r == Err(NotFound) && unchanged(db)
    ensures NewParentOf(old(db.dirs), newParentId).Ok? && dirId in old(db.dirs) ==>
      && r == Ok(())
      && db.dirs == Reparented(old(db.dirs), dirId, NewParentOf(old(db.dirs), newParentId).value)
      && db.prompts == old(db.prompts) && db.aimodels == old(db.aimodels) && db.next == old(db.next)
      && (db.Valid() <==> MoveAllowed(old(db.dirs), dirId, NewParentOf(old(db.dirs), newParentId).value))
  {
    var np := NewParentOf(db.dirs, newParentId);
    if np.Err? {
      return Err(np.error);
    }
    if dirId !in db.dirs {
      return Err(NotFound);
    }
    MoveAcyclic(db.dirs, dirId, np.value);
    db.dirs := Reparented(db.dirs, dirId, np.value);
    r := Ok(());
  }

  /** `move_dir` with the check it lacks: a move onto the Dir itself or
      below it is refused with `InvalidMove`, so the store stays sound. */
  method MoveDirChecked(db: Db, dirId: Id, newParentId: Option<string>) returns (r: Result<(), Error>)
    requires db.Valid()
    modifies db
    ensures db.Valid()
    ensures NewParentOf(old(db.dirs), newParentId).Err? ==>
      r == Err(NewParentOf(old(db.dirs), newParentId).error) && unchanged(db)
    ensures NewParentOf(old(db.dirs), newParentId).Ok? && dirId !in old(db.dirs) ==> r == Err(NotFound) && unchanged(db)
    ensures NewParentOf(old(db.dirs), newParentId).Ok? && dirId in old(db.dirs) ==>
      !MoveAllowed(old(db.dirs), dirId, NewParentOf(old(db.dirs), newParentId).value) ==>
      r == Err(InvalidMove) && unchanged(db)
    ensures NewParentOf(old(db.dirs), newParentId).Ok? && dirId in old(db.dirs) ==>
      MoveAllowed(old(db.dirs), dirId, NewParentOf(old(db.dirs), newParentId).value) ==>
      && r == Ok(())
      && db.dirs == Reparented(old(db.dirs), dirId, NewParentOf(old(db.dirs), newParentId).value)
      && db.prompts == old(db.prompts) && db.aimodels == old(db.aimodels) && db.next == old(db.next)
  {
    var np := NewParentOf(db.dirs, newParentId);
    if np.Err? {
      return Err(np.error);
    }
    if dirId !in db.dirs {
      return Err(NotFound);
    }
    if !MoveAllowed(db.dirs, dirId, np.value) {
      return Err(InvalidMove);
    }
    MoveAcyclic(db.dirs, dirId, np.value);
    db.dirs := Reparented(db.dirs, dirId, np.value);
    r := Ok(());
  }

  /** Outside the subtree of `d` the parent chains do not pass through `d`,
      so a move of `d` leaves them as they were. */
  lemma {:induction false} HopsOutside(dirs: map<Id, Dir>, d: Id, np: Option<Id>, x: Id, n: nat)
    requires Acyclic(dirs) && d in dirs && x !in Subtree(dirs, d) && HopsToRoot(dirs, x, n)
    ensures HopsToRoot(Reparented(dirs, d, np), x, n)
    decreases n
  {
    match dirs[x].parent
    case None =>
    case Some(p) =>
      if p in Subtree(dirs, d) {
        ChildInSubtree(dirs, x, d);
      }
      HopsOutside(dirs, d, np, p, n - 1);
  }

  /** Inside the subtree of `d`, an allowed move hangs the chains from the
      new parent, whose own chain is untouched. */
  lemma {:induction false} HopsInside(dirs: map<Id, Dir>, d: Id, np: Option<Id>, x: Id) returns (n: nat)
    requires Acyclic(dirs) && d in dirs && x in Subtree(dirs, d)
    requires np.Some? ==> np.value in dirs && np.value !in Subtree(dirs, d)
    ensures HopsToRoot(Reparented(dirs, d, np), x, n)
    decreases Depth(dirs, x)
  {
    if x == d {
      match np
      case None =>
        n := 0;
      case Some(q) =>
        HopsOutside(dirs, d, np, q, Depth(dirs, q));
        n := Depth(dirs, q) + 1;
    } else {
      ParentInSubtree(dirs, d, x);
      var p := dirs[x].parent.value;
      DepthOfParent(dirs, x);
      var m := HopsInside(dirs, d, np, p);
      n := m + 1;
    }
  }

  /** After a move onto the subtree of `d`, every Dir of that subtree has
      its parent in it again, so no chain from it ever reaches a root. */
  lemma {:induction false} NoHopsInside(dirs: map<Id, Dir>, d: Id, q: Id, x: Id, n: nat)
    requires Acyclic(dirs) && d in dirs && q in Subtree(dirs, d) && x in Subtree(dirs, d)
    ensures !HopsToRoot(Reparented(dirs, d, Some(q)), x, n)
    decreases n
  {
    if x != d {
      ParentInSubtree(dirs, d, x);
      if n > 0 {
        NoHopsInside(dirs, d, q, dirs[x].parent.value, n - 1);
      }
    } else if n > 0 {
      NoHopsInside(dirs, d, q, q, n - 1);
    }
  }

  /** A move keeps the forest acyclic if and only if it is allowed. */
  lemma MoveAcyclic(dirs: map<Id, Dir>, d: Id, np: Option<Id>)
    requires Acyclic(dirs) && d in dirs && (np.Some? ==> np.value in dirs)
    ensures Acyclic(Reparented(dirs, d, np)) <==> MoveAllowed(dirs, d, np)
  {
    var moved := Reparented(dirs, d, np);
    if MoveAllowed(dirs, d, np) {
      forall x | x in moved
        ensures exists n: nat :: HopsToRoot(moved, x, n)
      {
        if x in Subtree(dirs, d) {
          var n := HopsInside(dirs, d, np, x);
        } else {
          HopsOutside(dirs, d, np, x, Depth(dirs, x));
        }
      }
    } else {
      assert d in Subtree(dirs, d) && d in moved;
      forall n: nat
        ensures !HopsToRoot(moved, d, n)
      {
        NoHopsInside(dirs, d, np.value, d, n);
      }
    }
  }

  /** The smallest store the unchecked move breaks: a single root moved
      under itself becomes its own parent, and the walk of
      `Dir.get_ancestors` from it never ends. */
  lemma MoveOntoItself()
    ensures var dirs := map[1 := Dir(None, "Project 1")];
      Acyclic(dirs) && !MoveAllowed(dirs, 1, Some(1)) && !Acyclic(Reparented(dirs, 1, Some(1)))
  {
    var dirs := map[1 := Dir(None, "Project 1")];
    assert HopsToRoot(dirs, 1, 0);
    assert 1 in Subtree(dirs, 1);
    MoveAcyclic(dirs, 1, Some(1));
  }
}
