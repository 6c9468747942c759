/** `copy_dir` and its helper `copy_directory`: the subtree of a directory
    is duplicated, row by row, next to the original. */
module Copy {
  import opened Wrappers
  import opened Models
  import opened Forest
  import opened Store
  import opened CopyPlan
  import opened CopyRows
  import opened CopySteps
  import opened CopyTree

  /** `copy_directory(original, parent)` on the tables `t`, where `p` is
      the plan of `original` in the snapshot `src` taken when the view
      started and `inside` holds the Dirs being copied. */
  method CopyDirectory(t: Tables, ghost src: Tables, ghost inside: set<Id>, ghost p: Plan, d: Id, parent: Option<Id>)
    returns (u: Tables)
    requires p.dir == d && Ready(src, inside, p, t, parent) && LinksIn(src)
    ensures TreeCopied(src, inside, p, parent, t, u)
    decreases p, 2
  {
    RootStart(src, inside, p, t, parent);
    var newDir := t.next;
    var t1 := AddDir(t, Dir(parent, t.dirs[d].display));
    var t2 := CopyPrompts(t1, src, inside, p.prompts, d, newDir);
    var t3 := CopyAIModels(t2, src, inside, p.aimodels, d, newDir);
    OwnDone(src, inside, p, t, parent, t1, t2, t3);
    u := CopyChildren(t3, src, inside, p, d, newDir);
    RootFinish(src, inside, p, parent, t, t1, t2, t3, u);
  }

  /** `for prompt in original.prompts.all()`: each prompt of `d` is
      created again in `newDir`, with the same AI models and fields. */
  method CopyPrompts(t: Tables, ghost src: Tables, ghost inside: set<Id>, ghost ks: seq<Id>, d: Id, newDir: Id)
    returns (u: Tables)
    requires ks == PromptsIn(src.prompts, d) && d in inside && newDir !in inside && newDir in t.dirs
    requires LinksIn(src)
    requires AddedOutside(src, t, inside) && Below(t)
    ensures OwnPromptsCopied(src, inside, ks, |ks|, d, newDir, t, u)
  {
    QueriesUnchanged(src, t, inside, d);
    var ps := PromptsIn(t.prompts, d);
    u := t;
    var j := 0;
    while j < |ps|
      invariant OwnPromptsCopied(src, inside, ps, j, d, newDir, t, u)
    {
      var row := u.prompts[ps[j]].(dir := Some(newDir));
      OwnPromptsNext(src, inside, ps, j, d, newDir, t, u, row);
      u := AddPrompt(u, row);
      j := j + 1;
    }
  }

  /** `for aimodel in original.aimodels.all()`: a new AI model with the
      same display is created in `newDir`. */
  method CopyAIModels(t: Tables, ghost src: Tables, ghost inside: set<Id>, ghost ks: seq<Id>, d: Id, newDir: Id)
    returns (u: Tables)
    requires ks == AIModelsIn(src.aimodels, d) && d in inside && newDir !in inside && newDir in t.dirs
    requires AddedOutside(src, t, inside) && Below(t)
    ensures OwnAIModelsCopied(src, inside, ks, |ks|, d, newDir, t, u)
  {
    QueriesUnchanged(src, t, inside, d);
    var ams := AIModelsIn(t.aimodels, d);
    u := t;
    var j := 0;
    while j < |ams|
      invariant OwnAIModelsCopied(src, inside, ams, j, d, newDir, t, u)
    {
      var row := AIModel(u.aimodels[ams[j]].display, Some(newDir), "", None);
      OwnAIModelsNext(src, inside, ams, j, d, newDir, t, u, row);
      u := AddAIModel(u, row);
      j := j + 1;
    }
  }

  /** `for child in original.children.all(): copy_directory(child, new_dir)`. */
  method CopyChildren(t: Tables, ghost src: Tables, ghost inside: set<Id>, ghost p: Plan, d: Id, newDir: Id)
    returns (u: Tables)
    requires p.dir == d && Ready(src, inside, p, t, Some(newDir)) && LinksIn(src)
    ensures KidsCopied(src, inside, p, |p.kids|, newDir, t, u)
    decreases p, 1
  {
    KidsStart(src, inside, p, newDir, t);
    var cs := Children(t.dirs, Some(d));
    u := t;
    var i := 0;
    while i < |cs|
      invariant i <= |cs| == |p.kids| && cs == Children(src.dirs, Some(d))
      invariant KidsCopied(src, inside, p, i, newDir, t, u)
    {
      u := CopyChild(t, src, inside, p, i, cs[i], newDir, u);
      i := i + 1;
    }
    KidsDone(src, inside, p, i, newDir, t, u);
  }

  /** One turn of that loop: `copy_directory(child, new_dir)` for `c`, the
      `i`-th child, on the tables `u` the turns before it left. */
  method CopyChild(t: Tables, ghost src: Tables, ghost inside: set<Id>, ghost p: Plan, i: nat, c: Id, newDir: Id, u: Tables)
    returns (v: Tables)
    requires Ready(src, inside, p, t, Some(newDir)) && LinksIn(src)
    requires KidsCopied(src, inside, p, i, newDir, t, u) && i < |p.kids| && c == Children(src.dirs, Some(p.dir))[i]
    ensures KidsCopied(src, inside, p, i + 1, newDir, t, v)
    decreases p, 0
  {
    KidsNext(src, inside, p, i, newDir, t, u);
    v := CopyDirectory(u, src, inside, p.kids[i], c, Some(newDir));
    ChildJoin(src, inside, p, i, newDir, t, u, v);
  }

  // ---------------------------------------------------------------------
  // The view

  /** What copying the subtree of `d` leaves behind, starting from the
      tables `src`: the copies of the subtree's rows, and no other new row. */
  ghost predicate Copied(src: Tables, d: Id, u: Tables)
    requires Acyclic(src.dirs) && d in src.dirs
  {
    CopiesMade(src, d, u) && OnlyCopies(src, d, u)
  }

  /** The copies, starting from the tables `src`:
      - every row of `src` is kept unchanged;
      - the first new Dir, at the key the counter stood at, is the copy of
        `d`, a sibling of it: same parent, same display;
      - the renaming `m` maps the subtree one to one onto new keys, and
        every copy has the display of its original and hangs under the
        copy of its original's parent;
      - every prompt filed in the subtree has a copy, identical except
        that it is filed in the copy of its Dir;
      - every AI model filed in the subtree has a copy with the same
        display in the copy of its Dir, and with no endpoint and no key. */
  ghost predicate CopiesMade(src: Tables, d: Id, u: Tables)
    requires Acyclic(src.dirs) && d in src.dirs
  {
    var root := src.dirs[d];
    var p := PlanOf(src, d);
    var m := DirsRenamed(p, src.next);
    && SubMap(src.dirs, u.dirs) && SubMap(src.prompts, u.prompts) && SubMap(src.aimodels, u.aimodels)
    && src.next !in src.dirs && src.next in u.dirs && u.dirs[src.next] == Dir(root.parent, root.display)
    && m.Keys == Subtree(src.dirs, d) && m[d] == src.next && Distinct(m)
    && (forall x :: x in m ==> m[x] !in src.dirs)
    && DirsCopied(src, m, d, root.parent, u.dirs)
    && PromptsRenamed(p, src.next).Keys == PromptsUnder(src.prompts, Subtree(src.dirs, d))
    && PromptsCopied(src, PromptsRenamed(p, src.next), m, u.prompts)
    && AIModelsRenamed(p, src.next).Keys == AIModelsUnder(src.aimodels, Subtree(src.dirs, d))
    && AIModelsCopied(src, AIModelsRenamed(p, src.next), m, u.aimodels)
  }

  /** Nothing but the copies: each table holds the rows it held in `src`
      and the copies, the copies of different rows are different new rows,
      so each table grows by the number of its rows in the subtree, and the
      counter moves past one key per row added. */
  ghost predicate OnlyCopies(src: Tables, d: Id, u: Tables)
    requires Acyclic(src.dirs) && d in src.dirs
  {
    var p := PlanOf(src, d);
    var m := DirsRenamed(p, src.next);
    var pm := PromptsRenamed(p, src.next);
    var am := AIModelsRenamed(p, src.next);
    var prompts := PromptsUnder(src.prompts, Subtree(src.dirs, d));
    var aimodels := AIModelsUnder(src.aimodels, Subtree(src.dirs, d));
    && u.dirs.Keys == src.dirs.Keys + m.Values && |u.dirs| == |src.dirs| + Size(src.dirs, d)
    && Distinct(pm) && (forall x :: x in pm ==> pm[x] !in src.prompts)
    && u.prompts.Keys == src.prompts.Keys + pm.Values && |u.prompts| == |src.prompts| + |prompts|
    && Distinct(am) && (forall x :: x in am ==> am[x] !in src.aimodels)
    && u.aimodels.Keys == src.aimodels.Keys + am.Values && |u.aimodels| == |src.aimodels| + |aimodels|
    && u.next == src.next + Size(src.dirs, d) + |prompts| + |aimodels|
  }

  /** The plan of `d` is ready to be copied next to `d`. */
  lemma CopyStart(src: Tables, d: Id)
    requires Integrity(src.dirs, src.prompts, src.aimodels, src.next) && Acyclic(src.dirs) && d in src.dirs
    ensures Ready(src, Subtree(src.dirs, d), PlanOf(src, d), src, src.dirs[d].parent) && LinksIn(src)
  {
    PlanApart(src, d);
    PlanFits(src, d);
    PlanDirs(src, d);
    if src.dirs[d].parent.Some? {
      SubtreeOfChild(src.dirs, d);
    }
  }

  /** Rows added as the copy adds them keep the store invariant. */
  lemma CopyKeepsIntegrity(src: Tables, inside: set<Id>, u: Tables)
    requires Integrity(src.dirs, src.prompts, src.aimodels, src.next) && Acyclic(src.dirs)
    requires AddedOutside(src, u, inside) && Below(u)
    ensures Integrity(u.dirs, u.prompts, u.aimodels, u.next) && Acyclic(u.dirs)
    ensures PromptsFiled(src.prompts) ==> PromptsFiled(u.prompts)
  {
    GrowKeepsAcyclic(src.dirs, u.dirs);
  }

  /** The whole copy, read off the plan of `d`, is the copy of the subtree
      of `d` described by `Copied`. */
  lemma CopyOutcome(src: Tables, d: Id, u: Tables)
    requires Integrity(src.dirs, src.prompts, src.aimodels, src.next) && Acyclic(src.dirs) && d in src.dirs
    requires TreeCopied(src, Subtree(src.dirs, d), PlanOf(src, d), src.dirs[d].parent, src, u)
    ensures Copied(src, d, u)
    ensures Integrity(u.dirs, u.prompts, u.aimodels, u.next) && Acyclic(u.dirs)
    ensures PromptsFiled(src.prompts) ==> PromptsFiled(u.prompts)
  {
    var p := PlanOf(src, d);
    var b1 := src.next + 1 + |p.prompts| + |p.aimodels|;
    PlanApart(src, d);
    PlanDirs(src, d);
    PlanPrompts(src, d);
    PlanAIModels(src, d);
    TreeDirsFresh(p, src.next);
    TreePromptsFresh(p, src.next);
    TreeAIModelsFresh(p, src.next);
    TreeDirsDistinct(p, src.next);
    TreeUnfold(p, src.next, src.next + 1, src.next + 1 + |p.prompts|, b1);
    KidsDirsFresh(p, |p.kids|, b1);
    CopyKeepsIntegrity(src, Subtree(src.dirs, d), u);
    CopyOnly(src, d, u);
  }

  /** The copy read off the plan of `d` adds no row but the copies. */
  lemma CopyOnly(src: Tables, d: Id, u: Tables)
    requires Integrity(src.dirs, src.prompts, src.aimodels, src.next) && Acyclic(src.dirs) && d in src.dirs
    requires TreeCopied(src, Subtree(src.dirs, d), PlanOf(src, d), src.dirs[d].parent, src, u)
    ensures OnlyCopies(src, d, u)
  {
    var p := PlanOf(src, d);
    PlanApart(src, d);
    PlanDirs(src, d);
    PlanPrompts(src, d);
    PlanAIModels(src, d);
    CopyExact(src, Subtree(src.dirs, d), p, src.dirs[d].parent, src, u);
    CopyCounts(src, Subtree(src.dirs, d), p, src.dirs[d].parent, src, u);
    TreeCount(p);
    TreePromptsFresh(p, src.next);
    TreeAIModelsFresh(p, src.next);
    TreePromptsDistinct(p, src.next);
    TreeAIModelsDistinct(p, src.next);
  }

  /** The copy of the subtree of `d` next to `d`, on the tables `src`. */
  method CopyTables(src: Tables, d: Id) returns (u: Tables)
    requires Integrity(src.dirs, src.prompts, src.aimodels, src.next) && Acyclic(src.dirs) && d in src.dirs
    ensures Copied(src, d, u)
    ensures Integrity(u.dirs, u.prompts, u.aimodels, u.next) && Acyclic(u.dirs)
    ensures PromptsFiled(src.prompts) ==> PromptsFiled(u.prompts)
  {
    CopyStart(src, d);
    u := CopyDirectory(src, src, Subtree(src.dirs, d), PlanOf(src, d), d, src.dirs[d].parent);
    CopyOutcome(src, d, u);
  }

  /** `copy_dir(request, dir_id)` on a POST: not found when there is no
      such Dir, otherwise its subtree is copied next to it. The key of the
      copy's root stands for the page the view renders. */
  method CopyDir(db: Db, dirId: Id) returns (r: Result<Id, Error>)
    requires db.Valid()
    modifies db
    ensures db.Valid()
    ensures dirId !in old(db.dirs) ==> r == Err(NotFound) && unchanged(db)
    ensures dirId in old(db.dirs) ==> r == Ok(old(db.next)) && Copied(old(TablesOf(db)), dirId, TablesOf(db))
    ensures PromptsFiled(old(db.prompts)) ==> PromptsFiled(db.prompts)
  {
    if dirId !in db.dirs {
      return Err(NotFound);
    }
    var u := CopyTables(TablesOf(db), dirId);
    r := Ok(db.next);
    Commit(db, u);
  }

  /** The rows built on the side are written to the store in one go. */
  method Commit(db: Db, u: Tables)
    requires Integrity(u.dirs, u.prompts, u.aimodels, u.next) && Acyclic(u.dirs)
    modifies db
    ensures db.Valid() && TablesOf(db) == u
  {
    db.dirs, db.prompts, db.aimodels, db.next := u.dirs, u.prompts, u.aimodels, u.next;
  }
}
