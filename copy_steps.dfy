/** The steps of `copy_directory`, one lemma per point where the code
    moves from one state of the copy to the next. */
module CopySteps {
  import opened Wrappers
  import opened Models
  import opened Forest
  import opened Store
  import opened CopyPlan
  import opened CopyRows

  /** Before the root's row is written: the root is in the tables as in
      the snapshot, the key it gets is outside `inside`, and adding it
      leaves the prompts ready to be copied. */
  lemma RootStart(src: Tables, inside: set<Id>, p: Plan, t: Tables, parent: Option<Id>)
    requires Ready(src, inside, p, t, parent)
    ensures p.dir in t.dirs && t.dirs[p.dir] == DirAt(src, p.dir) && p.dir in inside && t.next !in inside
    ensures var t1 := AddDir(t, Dir(parent, DirAt(src, p.dir).display));
      AddedOutside(src, t1, inside) && Below(t1)
  {
    assert p.dir in Dirs(p);
    if t.next in inside {
      assert false;
    }
    DirAddedOutside(src, t, inside, Dir(parent, DirAt(src, p.dir).display));
  }

  /** One more prompt of `d` is copied into `newDir`. */
  lemma OwnPromptsNext(src: Tables, inside: set<Id>, ks: seq<Id>, j: nat, d: Id, newDir: Id, t: Tables, u: Tables, row: Prompt)
    requires OwnPromptsCopied(src, inside, ks, j, d, newDir, t, u) && j < |ks| && LinksIn(src)
    requires ks[j] in u.prompts && row == u.prompts[ks[j]].(dir := Some(newDir))
    ensures OwnPromptsCopied(src, inside, ks, j + 1, d, newDir, t, AddPrompt(u, row))
  {
    OwnRenamedNext(ks, j, t.next, u.next);
    assert AddPrompt(u, row).prompts == u.prompts[u.next := row];
    PromptCopiedStep(src, OwnRenamed(ks, j, t.next), map[d := newDir], u.prompts, ks[j], u.next, row);
    PromptAddedOutside(src, u, inside, row);
  }

  /** One more AI model of `d` is copied into `newDir`. */
  lemma OwnAIModelsNext(src: Tables, inside: set<Id>, ks: seq<Id>, j: nat, d: Id, newDir: Id, t: Tables, u: Tables, row: AIModel)
    requires OwnAIModelsCopied(src, inside, ks, j, d, newDir, t, u) && j < |ks|
    requires ks[j] in u.aimodels && row == AIModel(u.aimodels[ks[j]].display, Some(newDir), "", None)
    ensures OwnAIModelsCopied(src, inside, ks, j + 1, d, newDir, t, AddAIModel(u, row))
  {
    OwnRenamedNext(ks, j, t.next, u.next);
    assert AddAIModel(u, row).aimodels == u.aimodels[u.next := row];
    AIModelCopiedStep(src, OwnRenamed(ks, j, t.next), map[d := newDir], u.aimodels, ks[j], u.next, row);
    AIModelAddedOutside(src, u, inside, row);
  }

  /** With its own rows written, the root is ready for its children. */
  lemma OwnDone(src: Tables, inside: set<Id>, p: Plan, t: Tables, parent: Option<Id>, t1: Tables, t2: Tables, t3: Tables)
    requires Ready(src, inside, p, t, parent)
    requires OwnPromptsCopied(src, inside, p.prompts, |p.prompts|, p.dir, t.next, t1, t2)
    requires OwnAIModelsCopied(src, inside, p.aimodels, |p.aimodels|, p.dir, t.next, t2, t3)
    ensures Ready(src, inside, p, t3, Some(t.next))
  {
  }

  /** Copying the prompts of `d` only adds prompts, at fresh keys. */
  lemma OwnPromptsGrown(src: Tables, inside: set<Id>, ks: seq<Id>, j: nat, d: Id, newDir: Id, t: Tables, u: Tables)
    requires OwnPromptsCopied(src, inside, ks, j, d, newDir, t, u) && Below(t)
    ensures Grown(t, u)
  {
  }

  /** Copying the AI models of `d` only adds AI models, at fresh keys. */
  lemma OwnAIModelsGrown(src: Tables, inside: set<Id>, ks: seq<Id>, j: nat, d: Id, newDir: Id, t: Tables, u: Tables)
    requires OwnAIModelsCopied(src, inside, ks, j, d, newDir, t, u) && Below(t)
    ensures Grown(t, u)
  {
  }

  /** Before the loop over the children: nothing is copied yet, and the
      query lists the children of the plan. */
  lemma KidsStart(src: Tables, inside: set<Id>, p: Plan, newDir: Id, t: Tables)
    requires Ready(src, inside, p, t, Some(newDir))
    ensures KidsCopied(src, inside, p, 0, newDir, t, t)
    ensures Children(t.dirs, Some(p.dir)) == Children(src.dirs, Some(p.dir))
    ensures |p.kids| == |Children(src.dirs, Some(p.dir))|
  {
    assert p.dir in Dirs(p);
    QueriesUnchanged(src, t, inside, p.dir);
  }

  /** Before child `i` is copied: its plan is ready on the current tables,
      and its place under the plan's Dir is known. */
  lemma KidsNext(src: Tables, inside: set<Id>, p: Plan, i: nat, newDir: Id, t: Tables, u: Tables)
    requires Ready(src, inside, p, t, Some(newDir)) && KidsCopied(src, inside, p, i, newDir, t, u) && i < |p.kids|
    ensures Ready(src, inside, p.kids[i], u, Some(newDir))
    ensures p.kids[i].dir == Children(src.dirs, Some(p.dir))[i]
    ensures DirAt(src, p.kids[i].dir).parent == Some(p.dir)
    ensures p.dir !in Dirs(p.kids[i]) && KidsDirs(p, i) * Dirs(p.kids[i]) == {}
  {
    ChildPlan(src, p, i);
    ChildPlace(src, p, i);
  }

  /** After the loop over the children: all of them are copied. */
  lemma KidsDone(src: Tables, inside: set<Id>, p: Plan, i: nat, newDir: Id, t: Tables, u: Tables)
    requires KidsCopied(src, inside, p, i, newDir, t, u) && i == |p.kids|
    ensures KidsCopied(src, inside, p, |p.kids|, newDir, t, u)
  {
  }

  /** After child `i` is copied: one more child's subtree is copied. */
  lemma ChildJoin(src: Tables, inside: set<Id>, p: Plan, i: nat, newDir: Id, t: Tables, u: Tables, v: Tables)
    requires KidsCopied(src, inside, p, i, newDir, t, u) && i < |p.kids|
    requires DirAt(src, p.kids[i].dir).parent == Some(p.dir)
    requires p.dir !in Dirs(p.kids[i]) && KidsDirs(p, i) * Dirs(p.kids[i]) == {}
    requires TreeCopied(src, inside, p.kids[i], Some(newDir), u, v)
    ensures KidsCopied(src, inside, p, i + 1, newDir, t, v)
  {
    KidsUnfold(p, i, t.next, u.next);
    ChildDirsJoin(src, p, i, newDir, t.next, u.next, u.dirs, v.dirs);
    ChildPromptsJoin(src, p, i, t.next, u.next, u.prompts, v.prompts);
    ChildAIModelsJoin(src, p, i, t.next, u.next, u.aimodels, v.aimodels);
    GrownTrans(t, u, v);
  }

  /** The copies of the Dirs of the first `i` children and of child `i`
      make up those of the first `i + 1`. */
  lemma ChildDirsJoin(src: Tables, p: Plan, i: nat, newDir: Id, base: nat, mid: nat, dirs: map<Id, Dir>, more: map<Id, Dir>)
    requires i < |p.kids| && mid == base + KidsCount(p, i) && DirAt(src, p.kids[i].dir).parent == Some(p.dir)
    requires p.dir !in Dirs(p.kids[i]) && KidsDirs(p, i) * Dirs(p.kids[i]) == {}
    requires DirsCopiedUnder(src, KidsDirsRenamed(p, i, base), p.dir, newDir, dirs) && SubMap(dirs, more)
    requires DirsCopied(src, DirsRenamed(p.kids[i], mid), p.kids[i].dir, Some(newDir), more)
    ensures DirsCopiedUnder(src, KidsDirsRenamed(p, i + 1, base), p.dir, newDir, more)
  {
    KidsUnfold(p, i, base, mid);
    ChildRenamedApart(p, i, base, mid);
    UnderStep(src, KidsDirsRenamed(p, i, base), DirsRenamed(p.kids[i], mid),
      p.kids[i].dir, p.dir, newDir, dirs, more);
  }

  /** The copies of the prompts of the first `i` children and of child `i`
      make up those of the first `i + 1`. */
  lemma ChildPromptsJoin(src: Tables, p: Plan, i: nat, base: nat, mid: nat, prompts: map<Id, Prompt>, more: map<Id, Prompt>)
    requires i < |p.kids| && mid == base + KidsCount(p, i) && p.dir !in Dirs(p.kids[i]) && KidsDirs(p, i) * Dirs(p.kids[i]) == {}
    requires PromptsCopied(src, KidsPromptsRenamed(p, i, base), KidsDirsRenamed(p, i, base), prompts) && SubMap(prompts, more)
    requires PromptsCopied(src, PromptsRenamed(p.kids[i], mid), DirsRenamed(p.kids[i], mid), more)
    ensures PromptsCopied(src, KidsPromptsRenamed(p, i + 1, base), KidsDirsRenamed(p, i + 1, base), more)
  {
    var before := KidsDirsRenamed(p, i, base);
    var mk := DirsRenamed(p.kids[i], mid);
    KidsUnfold(p, i, base, mid);
    ChildRenamedApart(p, i, base, mid);
    SubMapUnion(before, mk);
    PromptsJoin(src, KidsPromptsRenamed(p, i, base), before, prompts,
      PromptsRenamed(p.kids[i], mid), mk, before + mk, more);
  }

  /** The copies of the AI models of the first `i` children and of child
      `i` make up those of the first `i + 1`. */
  lemma ChildAIModelsJoin(src: Tables, p: Plan, i: nat, base: nat, mid: nat, aimodels: map<Id, AIModel>, more: map<Id, AIModel>)
    requires i < |p.kids| && mid == base + KidsCount(p, i) && p.dir !in Dirs(p.kids[i]) && KidsDirs(p, i) * Dirs(p.kids[i]) == {}
    requires AIModelsCopied(src, KidsAIModelsRenamed(p, i, base), KidsDirsRenamed(p, i, base), aimodels) && SubMap(aimodels, more)
    requires AIModelsCopied(src, AIModelsRenamed(p.kids[i], mid), DirsRenamed(p.kids[i], mid), more)
    ensures AIModelsCopied(src, KidsAIModelsRenamed(p, i + 1, base), KidsDirsRenamed(p, i + 1, base), more)
  {
    var before := KidsDirsRenamed(p, i, base);
    var mk := DirsRenamed(p.kids[i], mid);
    KidsUnfold(p, i, base, mid);
    ChildRenamedApart(p, i, base, mid);
    SubMapUnion(before, mk);
    AIModelsJoin(src, KidsAIModelsRenamed(p, i, base), before, aimodels,
      AIModelsRenamed(p.kids[i], mid), mk, before + mk, more);
  }

  /** After the whole of `copy_directory`: the copies of the root, of its
      prompts and AI models and of its children's subtrees make up the copy
      of the plan. */
  lemma RootFinish(src: Tables, inside: set<Id>, p: Plan, parent: Option<Id>, t: Tables, t1: Tables, t2: Tables, t3: Tables, u: Tables)
    requires Ready(src, inside, p, t, parent) && t1 == AddDir(t, Dir(parent, DirAt(src, p.dir).display))
    requires OwnPromptsCopied(src, inside, p.prompts, |p.prompts|, p.dir, t.next, t1, t2)
    requires OwnAIModelsCopied(src, inside, p.aimodels, |p.aimodels|, p.dir, t.next, t2, t3)
    requires KidsCopied(src, inside, p, |p.kids|, t.next, t3, u)
    ensures TreeCopied(src, inside, p, parent, t, u)
  {
    assert t1.next == t.next + 1;
    assert t2.next == t.next + 1 + |p.prompts|;
    assert t3.next == t.next + 1 + |p.prompts| + |p.aimodels|;
    AddDirGrown(t, Dir(parent, DirAt(src, p.dir).display));
    OwnPromptsGrown(src, inside, p.prompts, |p.prompts|, p.dir, t.next, t1, t2);
    OwnAIModelsGrown(src, inside, p.aimodels, |p.aimodels|, p.dir, t.next, t2, t3);
    GrownTrans(t, t1, t2);
    GrownTrans(t, t2, t3);
    GrownTrans(t, t3, u);
    GrownTrans(t2, t3, u);
    RootDirsJoin(src, p, parent, t.next, t3.next, t1.dirs, u.dirs);
    RootPromptsJoin(src, p, t.next, t1.next, t3.next, t2.prompts, u.prompts);
    RootAIModelsJoin(src, p, t.next, t2.next, t3.next, t3.aimodels, u.aimodels);
  }

  /** The root's own row and the copies of its children's Dirs make up the
      copies of the plan's Dirs. */
  lemma RootDirsJoin(src: Tables, p: Plan, parent: Option<Id>, base: nat, b1: nat, dirs: map<Id, Dir>, more: map<Id, Dir>)
    requires p.dir !in KidsDirs(p, |p.kids|) && b1 == base + 1 + |p.prompts| + |p.aimodels|
    requires base in dirs && dirs[base] == Dir(parent, DirAt(src, p.dir).display) && SubMap(dirs, more)
    requires DirsCopiedUnder(src, KidsDirsRenamed(p, |p.kids|, b1), p.dir, base, more)
    ensures DirsCopied(src, DirsRenamed(p, base), p.dir, parent, more)
  {
    TreeUnfold(p, base, base + 1, base + 1 + |p.prompts|, b1);
    KidsDirsFresh(p, |p.kids|, b1);
    RootStep(src, KidsDirsRenamed(p, |p.kids|, b1), p.dir, parent, base, dirs, more);
  }

  /** The copies of the root's own prompts and of its children's make up
      the copies of the plan's prompts. */
  lemma RootPromptsJoin(src: Tables, p: Plan, base: nat, lo: nat, b1: nat, prompts: map<Id, Prompt>, more: map<Id, Prompt>)
    requires p.dir !in KidsDirs(p, |p.kids|) && lo == base + 1 && b1 == base + 1 + |p.prompts| + |p.aimodels|
    requires PromptsCopied(src, OwnRenamed(p.prompts, |p.prompts|, lo), map[p.dir := base], prompts)
    requires SubMap(prompts, more)
    requires PromptsCopied(src, KidsPromptsRenamed(p, |p.kids|, b1), KidsDirsRenamed(p, |p.kids|, b1), more)
    ensures PromptsCopied(src, PromptsRenamed(p, base), DirsRenamed(p, base), more)
  {
    var kids := KidsDirsRenamed(p, |p.kids|, b1);
    TreeUnfold(p, base, lo, lo + |p.prompts|, b1);
    KidsDirsFresh(p, |p.kids|, b1);
    SubMapUnion(map[p.dir := base], kids);
    PromptsJoin(src, OwnRenamed(p.prompts, |p.prompts|, lo), map[p.dir := base], prompts,
      KidsPromptsRenamed(p, |p.kids|, b1), kids, map[p.dir := base] + kids, more);
    PromptsCopiedEq(src, OwnRenamed(p.prompts, |p.prompts|, lo) + KidsPromptsRenamed(p, |p.kids|, b1), map[p.dir := base] + kids,
      PromptsRenamed(p, base), DirsRenamed(p, base), more);
  }

  /** The copies of the root's own AI models and of its children's make up
      the copies of the plan's AI models. */
  lemma RootAIModelsJoin(src: Tables, p: Plan, base: nat, lo: nat, b1: nat, aimodels: map<Id, AIModel>, more: map<Id, AIModel>)
    requires p.dir !in KidsDirs(p, |p.kids|) && lo == base + 1 + |p.prompts| && b1 == base + 1 + |p.prompts| + |p.aimodels|
    requires AIModelsCopied(src, OwnRenamed(p.aimodels, |p.aimodels|, lo), map[p.dir := base], aimodels)
    requires SubMap(aimodels, more)
    requires AIModelsCopied(src, KidsAIModelsRenamed(p, |p.kids|, b1), KidsDirsRenamed(p, |p.kids|, b1), more)
    ensures AIModelsCopied(src, AIModelsRenamed(p, base), DirsRenamed(p, base), more)
  {
    var kids := KidsDirsRenamed(p, |p.kids|, b1);
    TreeUnfold(p, base, base + 1, lo, b1);
    KidsDirsFresh(p, |p.kids|, b1);
    SubMapUnion(map[p.dir := base], kids);
    AIModelsJoin(src, OwnRenamed(p.aimodels, |p.aimodels|, lo), map[p.dir := base], aimodels,
      KidsAIModelsRenamed(p, |p.kids|, b1), kids, map[p.dir := base] + kids, more);
    AIModelsCopiedEq(src, OwnRenamed(p.aimodels, |p.aimodels|, lo) + KidsAIModelsRenamed(p, |p.kids|, b1), map[p.dir := base] + kids,
      AIModelsRenamed(p, base), DirsRenamed(p, base), more);
  }

  // ---------------------------------------------------------------------
  // Nothing but the copies

  /** The keys a renaming hands out, when each is from `lo` up to `hi`. */
  lemma ValuesWithin(m: map<Id, Id>, lo: nat, hi: nat)
    requires forall x :: x in m ==> lo <= m[x] < hi
    ensures m.Values <= KeyRange(lo, hi)
  {
  }

  /** Every key the renamings hand out is a row of its table. */
  lemma CopiesAreRows(src: Tables, p: Plan, parent: Option<Id>, base: nat, u: Tables)
    requires TreeRowsCopied(src, p, parent, base, u)
    ensures DirsRenamed(p, base).Values <= u.dirs.Keys
    ensures PromptsRenamed(p, base).Values <= u.prompts.Keys
    ensures AIModelsRenamed(p, base).Values <= u.aimodels.Keys
  {
  }

  /** The copies of the Dirs, prompts and AI models of the plan `p`, at
      keys drawn from `t.next` on, take every key drawn, one row each. */
  lemma CopiesFillDrawn(p: Plan, t: Tables, u: Tables)
    requires Apart(p) && DrawnOnce(t, u) && u.next == t.next + Count(p)
    requires DirsRenamed(p, t.next).Values <= u.dirs.Keys
    requires PromptsRenamed(p, t.next).Values <= u.prompts.Keys
    requires AIModelsRenamed(p, t.next).Values <= u.aimodels.Keys
    ensures DirsRenamed(p, t.next).Values + PromptsRenamed(p, t.next).Values + AIModelsRenamed(p, t.next).Values
      == KeyRange(t.next, u.next)
  {
    var dm := DirsRenamed(p, t.next);
    var pm := PromptsRenamed(p, t.next);
    var am := AIModelsRenamed(p, t.next);
    TreeDirsFresh(p, t.next);
    TreePromptsFresh(p, t.next);
    TreeAIModelsFresh(p, t.next);
    ValuesWithin(dm, t.next, u.next);
    ValuesWithin(pm, t.next, u.next);
    ValuesWithin(am, t.next, u.next);
    TreeDirsDistinct(p, t.next);
    TreePromptsDistinct(p, t.next);
    TreeAIModelsDistinct(p, t.next);
    DistinctCount(dm);
    DistinctCount(pm);
    DistinctCount(am);
    TreeCount(p);
    FillRange(dm.Values, pm.Values, am.Values, t.next, u.next);
  }

  /** After the copy of the plan `p` from the tables `t`, the tables hold
      the rows of `t` and the copies, and no other row. */
  lemma CopyExact(src: Tables, inside: set<Id>, p: Plan, parent: Option<Id>, t: Tables, u: Tables)
    requires Apart(p) && TreeCopied(src, inside, p, parent, t, u)
    ensures u.dirs.Keys == t.dirs.Keys + DirsRenamed(p, t.next).Values
    ensures u.prompts.Keys == t.prompts.Keys + PromptsRenamed(p, t.next).Values
    ensures u.aimodels.Keys == t.aimodels.Keys + AIModelsRenamed(p, t.next).Values
  {
    CopiesAreRows(src, p, parent, t.next, u);
    CopiesFillDrawn(p, t, u);
    var dv, pv, av := DirsRenamed(p, t.next).Values, PromptsRenamed(p, t.next).Values, AIModelsRenamed(p, t.next).Values;
    NoOtherDirs(t, u, dv, pv, av);
    NoOtherPrompts(t, u, dv, pv, av);
    NoOtherAIModels(t, u, dv, pv, av);
  }

  /** When the copies fill the keys drawn, a Dir added at one of them is
      one of the copies of Dirs. */
  lemma NoOtherDirs(t: Tables, u: Tables, dv: set<Id>, pv: set<Id>, av: set<Id>)
    requires Grown(t, u) && dv + pv + av == KeyRange(t.next, u.next)
    requires dv <= u.dirs.Keys && pv <= u.prompts.Keys && av <= u.aimodels.Keys
    ensures u.dirs.Keys == t.dirs.Keys + dv
  {
    forall k | k in u.dirs && k !in t.dirs
      ensures k in dv
    {
      assert k in KeyRange(t.next, u.next);
    }
  }

  /** The same for the prompts. */
  lemma NoOtherPrompts(t: Tables, u: Tables, dv: set<Id>, pv: set<Id>, av: set<Id>)
    requires Grown(t, u) && dv + pv + av == KeyRange(t.next, u.next)
    requires dv <= u.dirs.Keys && pv <= u.prompts.Keys && av <= u.aimodels.Keys
    ensures u.prompts.Keys == t.prompts.Keys + pv
  {
    forall k | k in u.prompts && k !in t.prompts
      ensures k in pv
    {
      assert k in KeyRange(t.next, u.next);
    }
  }

  /** The same for the AI models. */
  lemma NoOtherAIModels(t: Tables, u: Tables, dv: set<Id>, pv: set<Id>, av: set<Id>)
    requires Grown(t, u) && dv + pv + av == KeyRange(t.next, u.next)
    requires dv <= u.dirs.Keys && pv <= u.prompts.Keys && av <= u.aimodels.Keys
    ensures u.aimodels.Keys == t.aimodels.Keys + av
  {
    forall k | k in u.aimodels && k !in t.aimodels
      ensures k in av
    {
      assert k in KeyRange(t.next, u.next);
    }
  }

  /** The copy adds one row per Dir, prompt and AI model of the plan. */
  lemma CopyCounts(src: Tables, inside: set<Id>, p: Plan, parent: Option<Id>, t: Tables, u: Tables)
    requires Apart(p) && Below(t) && TreeCopied(src, inside, p, parent, t, u)
    ensures |u.dirs| == |t.dirs| + |Dirs(p)|
    ensures |u.prompts| == |t.prompts| + |Prompts(p)|
    ensures |u.aimodels| == |t.aimodels| + |AIModels(p)|
  {
    CopyExact(src, inside, p, parent, t, u);
    TreeDirsFresh(p, t.next);
    TreePromptsFresh(p, t.next);
    TreeAIModelsFresh(p, t.next);
    TreeDirsDistinct(p, t.next);
    TreePromptsDistinct(p, t.next);
    TreeAIModelsDistinct(p, t.next);
    AddedCount(t.dirs.Keys, DirsRenamed(p, t.next));
    AddedCount(t.prompts.Keys, PromptsRenamed(p, t.next));
    AddedCount(t.aimodels.Keys, AIModelsRenamed(p, t.next));
  }
}
