/** What a copy has written: the rows it adds and how they relate to the
    rows of the plan. */
module CopyRows {
  import opened Wrappers
  import opened Models
  import opened Forest
  import opened Store
  import opened CopyPlan

  // ---------------------------------------------------------------------
  // Each Dir of the plan is copied, with the shape of the original

  /** The copy of `x` hangs under the copy of the parent of `x`. */
  ghost predicate ParentCopied(src: Tables, m: map<Id, Id>, x: Id, dirs: map<Id, Dir>)
    requires x in m && m[x] in dirs
  {
    var par := DirAt(src, x).parent;
    par.Some? && par.value in m && dirs[m[x]].parent == Some(m[par.value])
  }

  /** The renaming `m` maps each Dir to a copy in `dirs` with the same
      display; the copy of `root` hangs under `parent`, every other copy
      under the copy of its original's parent. */
  ghost predicate DirsCopied(src: Tables, m: map<Id, Id>, root: Id, parent: Option<Id>, dirs: map<Id, Dir>) {
    forall x :: x in m ==>
      && m[x] in dirs
      && dirs[m[x]].display == DirAt(src, x).display
      && (if x == root then dirs[m[x]].parent == parent else ParentCopied(src, m, x, dirs))
  }

  /** The same for the subtrees of the children of `d`: a copy whose
      original hangs under `d` hangs under `newDir`. */
  ghost predicate DirsCopiedUnder(src: Tables, m: map<Id, Id>, d: Id, newDir: Id, dirs: map<Id, Dir>) {
    forall x :: x in m ==>
      && m[x] in dirs
      && dirs[m[x]].display == DirAt(src, x).display
      && (if DirAt(src, x).parent == Some(d) then dirs[m[x]].parent == Some(newDir)
          else ParentCopied(src, m, x, dirs))
  }

  /** Copies made earlier survive later insertions. */
  lemma DirsCopiedUnderGrows(src: Tables, m: map<Id, Id>, d: Id, newDir: Id, dirs: map<Id, Dir>, more: map<Id, Dir>)
    requires DirsCopiedUnder(src, m, d, newDir, dirs) && SubMap(dirs, more)
    ensures DirsCopiedUnder(src, m, d, newDir, more)
  {
  }

  /** The copy of one more child's subtree joins those before it. */
  lemma UnderJoin(src: Tables, before: map<Id, Id>, m: map<Id, Id>, root: Id, d: Id, newDir: Id, dirs: map<Id, Dir>)
    requires DirsCopiedUnder(src, before, d, newDir, dirs) && DirsCopied(src, m, root, Some(newDir), dirs)
    requires DirAt(src, root).parent == Some(d) && d !in m && before.Keys * m.Keys == {}
    ensures DirsCopiedUnder(src, before + m, d, newDir, dirs)
  {
    var all := before + m;
    forall x | x in all
      ensures && all[x] in dirs
              && dirs[all[x]].display == DirAt(src, x).display
              && (if DirAt(src, x).parent == Some(d) then dirs[all[x]].parent == Some(newDir)
                  else ParentCopied(src, all, x, dirs))
    {
      if x in m {
        assert all[x] == m[x];
        if x != root {
          assert ParentCopied(src, m, x, dirs);
        }
      } else {
        assert all[x] == before[x];
        if DirAt(src, x).parent != Some(d) {
          assert ParentCopied(src, before, x, dirs);
          var par := DirAt(src, x).parent.value;
          assert par !in before.Keys * m.Keys;
        }
      }
    }
  }

  lemma UnderStep(src: Tables, before: map<Id, Id>, m: map<Id, Id>, root: Id, d: Id, newDir: Id,
                  dirs: map<Id, Dir>, more: map<Id, Dir>)
    requires DirsCopiedUnder(src, before, d, newDir, dirs) && SubMap(dirs, more)
    requires DirsCopied(src, m, root, Some(newDir), more)
    requires DirAt(src, root).parent == Some(d) && d !in m && before.Keys * m.Keys == {}
    ensures DirsCopiedUnder(src, before + m, d, newDir, more)
  {
    DirsCopiedUnderGrows(src, before, d, newDir, dirs, more);
    UnderJoin(src, before, m, root, d, newDir, more);
  }

  /** The copy of the plan's own Dir, above the copies of its children's
      subtrees. */
  lemma RootJoin(src: Tables, m: map<Id, Id>, d: Id, parent: Option<Id>, base: Id, dirs: map<Id, Dir>)
    requires DirsCopiedUnder(src, m, d, base, dirs) && d !in m
    requires base in dirs && dirs[base] == Dir(parent, DirAt(src, d).display)
    ensures DirsCopied(src, map[d := base] + m, d, parent, dirs)
  {
    var all := map[d := base] + m;
    forall x | x in all
      ensures && all[x] in dirs
              && dirs[all[x]].display == DirAt(src, x).display
              && (if x == d then dirs[all[x]].parent == parent else ParentCopied(src, all, x, dirs))
    {
      if x != d {
        assert all[x] == m[x];
        if DirAt(src, x).parent != Some(d) {
          assert ParentCopied(src, m, x, dirs);
        }
      }
    }
  }

  lemma RootStep(src: Tables, m: map<Id, Id>, d: Id, parent: Option<Id>, base: Id, dirs: map<Id, Dir>, more: map<Id, Dir>)
    requires DirsCopiedUnder(src, m, d, base, more) && d !in m && SubMap(dirs, more)
    requires base in dirs && dirs[base] == Dir(parent, DirAt(src, d).display)
    ensures DirsCopied(src, map[d := base] + m, d, parent, more)
  {
    RootJoin(src, m, d, parent, base, more);
  }

  // ---------------------------------------------------------------------
  // Each prompt and AI model of the plan is copied into the copy of its Dir

  /** The renaming `pm` maps each prompt to a copy in `prompts` with the
      same display, text, AI models and fields, filed in the copy (under
      `dm`) of the original's Dir. */
  ghost predicate PromptsCopied(src: Tables, pm: map<Id, Id>, dm: map<Id, Id>, prompts: map<Id, Prompt>) {
    forall k :: k in pm ==>
      && pm[k] in prompts
      && PromptAt(src, k).dir.Some? && PromptAt(src, k).dir.value in dm
      && prompts[pm[k]] == PromptAt(src, k).(dir := Some(dm[PromptAt(src, k).dir.value]))
  }

  /** The renaming `am` maps each AI model to a copy in `aimodels` with the
      same display, filed in the copy of the original's Dir; the endpoint
      and key of the copy are left at their defaults. */
  ghost predicate AIModelsCopied(src: Tables, am: map<Id, Id>, dm: map<Id, Id>, aimodels: map<Id, AIModel>) {
    forall k :: k in am ==>
      && am[k] in aimodels
      && AIModelAt(src, k).dir.Some? && AIModelAt(src, k).dir.value in dm
      && aimodels[am[k]] == AIModel(AIModelAt(src, k).display, Some(dm[AIModelAt(src, k).dir.value]), "", None)
  }

  /** One more prompt copied, under a key not used before. */
  lemma PromptCopiedStep(src: Tables, pm: map<Id, Id>, dm: map<Id, Id>, prompts: map<Id, Prompt>, k: Id, key: Id, row: Prompt)
    requires PromptsCopied(src, pm, dm, prompts) && key !in prompts
    requires PromptAt(src, k).dir.Some? && PromptAt(src, k).dir.value in dm
    requires row == PromptAt(src, k).(dir := Some(dm[PromptAt(src, k).dir.value]))
    ensures PromptsCopied(src, pm[k := key], dm, prompts[key := row])
  {
  }

  lemma AIModelCopiedStep(src: Tables, am: map<Id, Id>, dm: map<Id, Id>, aimodels: map<Id, AIModel>, k: Id, key: Id, row: AIModel)
    requires AIModelsCopied(src, am, dm, aimodels) && key !in aimodels
    requires AIModelAt(src, k).dir.Some? && AIModelAt(src, k).dir.value in dm
    requires row == AIModel(AIModelAt(src, k).display, Some(dm[AIModelAt(src, k).dir.value]), "", None)
    ensures AIModelsCopied(src, am[k := key], dm, aimodels[key := row])
  {
  }

  /** The same copies, under renamings written differently. */
  lemma PromptsCopiedEq(src: Tables, pm: map<Id, Id>, dm: map<Id, Id>, pm': map<Id, Id>, dm': map<Id, Id>, prompts: map<Id, Prompt>)
    requires PromptsCopied(src, pm, dm, prompts) && pm == pm' && dm == dm'
    ensures PromptsCopied(src, pm', dm', prompts)
  {
  }

  lemma AIModelsCopiedEq(src: Tables, am: map<Id, Id>, dm: map<Id, Id>, am': map<Id, Id>, dm': map<Id, Id>, aimodels: map<Id, AIModel>)
    requires AIModelsCopied(src, am, dm, aimodels) && am == am' && dm == dm'
    ensures AIModelsCopied(src, am', dm', aimodels)
  {
  }

  /** Copies made under two renamings of Dirs that agree with a third are
      copies under the third, and survive later insertions. */
  lemma PromptsJoin(src: Tables, pm1: map<Id, Id>, dm1: map<Id, Id>, p1: map<Id, Prompt>,
                    pm2: map<Id, Id>, dm2: map<Id, Id>, dm: map<Id, Id>, prompts: map<Id, Prompt>)
    requires PromptsCopied(src, pm1, dm1, p1) && SubMap(p1, prompts) && PromptsCopied(src, pm2, dm2, prompts)
    requires SubMap(dm1, dm) && SubMap(dm2, dm)
    ensures PromptsCopied(src, pm1 + pm2, dm, prompts)
  {
    forall k | k in pm1 + pm2
      ensures && (pm1 + pm2)[k] in prompts
              && PromptAt(src, k).dir.Some? && PromptAt(src, k).dir.value in dm
              && prompts[(pm1 + pm2)[k]] == PromptAt(src, k).(dir := Some(dm[PromptAt(src, k).dir.value]))
    {
      if k !in pm2 {
        assert p1[pm1[k]] == prompts[pm1[k]];
      }
    }
  }

  lemma AIModelsJoin(src: Tables, am1: map<Id, Id>, dm1: map<Id, Id>, a1: map<Id, AIModel>,
                     am2: map<Id, Id>, dm2: map<Id, Id>, dm: map<Id, Id>, aimodels: map<Id, AIModel>)
    requires AIModelsCopied(src, am1, dm1, a1) && SubMap(a1, aimodels) && AIModelsCopied(src, am2, dm2, aimodels)
    requires SubMap(dm1, dm) && SubMap(dm2, dm)
    ensures AIModelsCopied(src, am1 + am2, dm, aimodels)
  {
    forall k | k in am1 + am2
      ensures && (am1 + am2)[k] in aimodels
              && AIModelAt(src, k).dir.Some? && AIModelAt(src, k).dir.value in dm
              && aimodels[(am1 + am2)[k]] == AIModel(AIModelAt(src, k).display, Some(dm[AIModelAt(src, k).dir.value]), "", None)
    {
      if k !in am2 {
        assert a1[am1[k]] == aimodels[am1[k]];
      }
    }
  }

  // ---------------------------------------------------------------------
  // What the copy leaves alone

  /** `t` holds every row of `src` unchanged, and each row it adds hangs
      outside the Dirs `inside`, under a Dir of `t` (a Dir under one
      created before it), and links only AI models of `src`. */
  ghost predicate AddedOutside(src: Tables, t: Tables, inside: set<Id>) {
    && SubMap(src.dirs, t.dirs) && SubMap(src.prompts, t.prompts) && SubMap(src.aimodels, t.aimodels)
    && (forall k :: k in t.dirs && k !in src.dirs && t.dirs[k].parent.Some? ==>
          var par := t.dirs[k].parent.value; par !in inside && par in t.dirs && par < k)
    && (forall k :: k in t.prompts && k !in src.prompts ==>
          && t.prompts[k].aimodels <= src.aimodels.Keys
          && t.prompts[k].dir.Some? && t.prompts[k].dir.value !in inside && t.prompts[k].dir.value in t.dirs)
    && (forall k :: k in t.aimodels && k !in src.aimodels && t.aimodels[k].dir.Some? ==>
          t.aimodels[k].dir.value !in inside && t.aimodels[k].dir.value in t.dirs)
  }

  /** Every prompt of `src` links AI models of `src` only. */
  ghost predicate LinksIn(src: Tables) {
    forall k :: k in src.prompts ==> src.prompts[k].aimodels <= src.aimodels.Keys
  }

  /** While rows are only added outside `inside`, a Dir of `inside` has the
      same children, prompts and AI models, in the same order: the queries
      `copy_directory` runs during the copy see the tables as they were. */
  lemma QueriesUnchanged(src: Tables, t: Tables, inside: set<Id>, x: Id)
    requires AddedOutside(src, t, inside) && x in inside
    ensures Children(t.dirs, Some(x)) == Children(src.dirs, Some(x))
    ensures PromptsIn(t.prompts, x) == PromptsIn(src.prompts, x)
    ensures AIModelsIn(t.aimodels, x) == AIModelsIn(src.aimodels, x)
  {
    forall k
      ensures k in src.dirs && src.dirs[k].parent == Some(x) <==> k in t.dirs && t.dirs[k].parent == Some(x)
    {
    }
    ChildrenAgree(src.dirs, t.dirs, Some(x));
    forall k
      ensures k in src.prompts && src.prompts[k].dir == Some(x) <==> k in t.prompts && t.prompts[k].dir == Some(x)
    {
    }
    PromptsAgree(src.prompts, t.prompts, x);
    forall k
      ensures k in src.aimodels && src.aimodels[k].dir == Some(x) <==> k in t.aimodels && t.aimodels[k].dir == Some(x)
    {
    }
    AIModelsAgree(src.aimodels, t.aimodels, x);
  }

  lemma DirAddedOutside(src: Tables, t: Tables, inside: set<Id>, row: Dir)
    requires AddedOutside(src, t, inside) && t.next !in t.dirs
    requires row.parent.Some? ==> row.parent.value !in inside && row.parent.value in t.dirs && row.parent.value < t.next
    ensures AddedOutside(src, AddDir(t, row), inside)
  {
  }

  lemma PromptAddedOutside(src: Tables, t: Tables, inside: set<Id>, row: Prompt)
    requires AddedOutside(src, t, inside) && t.next !in t.prompts && row.aimodels <= src.aimodels.Keys
    requires row.dir.Some? && row.dir.value !in inside && row.dir.value in t.dirs
    ensures AddedOutside(src, AddPrompt(t, row), inside)
  {
  }

  lemma AIModelAddedOutside(src: Tables, t: Tables, inside: set<Id>, row: AIModel)
    requires AddedOutside(src, t, inside) && t.next !in t.aimodels
    requires row.dir.Some? ==> row.dir.value !in inside && row.dir.value in t.dirs
    ensures AddedOutside(src, AddAIModel(t, row), inside)
  {
  }

  /** `u` extends `t`: every row of `t` is kept, keys are still drawn
      above all rows, and every row added since `t` sits at a key drawn
      since `t` that no other table took. */
  ghost predicate Grown(t: Tables, u: Tables) {
    && SubMap(t.dirs, u.dirs) && SubMap(t.prompts, u.prompts) && SubMap(t.aimodels, u.aimodels)
    && Below(u) && t.next <= u.next && DrawnOnce(t, u)
  }

  /** Rows added since `t` are at keys from `t.next` on, and each such key
      is in one table only. */
  ghost predicate DrawnOnce(t: Tables, u: Tables) {
    && (forall k :: k in u.dirs && k !in t.dirs ==> t.next <= k)
    && (forall k :: k in u.prompts && k !in t.prompts ==> t.next <= k)
    && (forall k :: k in u.aimodels && k !in t.aimodels ==> t.next <= k)
    && (forall k :: t.next <= k && k in u.prompts ==> k !in u.dirs)
    && (forall k :: t.next <= k && k in u.aimodels ==> k !in u.dirs && k !in u.prompts)
  }

  lemma AddDirGrown(t: Tables, row: Dir)
    requires Below(t)
    ensures Grown(t, AddDir(t, row))
  {
  }

  lemma GrownTrans(t: Tables, u: Tables, v: Tables)
    requires Grown(t, u) && Grown(u, v)
    ensures Grown(t, v)
  {
  }

  lemma SubMapUnion(m1: map<Id, Id>, m2: map<Id, Id>)
    requires m1.Keys * m2.Keys == {}
    ensures SubMap(m1, m1 + m2) && SubMap(m2, m1 + m2)
  {
    forall k | k in m1
      ensures k in m1 + m2 && (m1 + m2)[k] == m1[k]
    {
      assert k !in m1.Keys * m2.Keys;
    }
  }

  // ---------------------------------------------------------------------
  // The states of a copy in progress

  /** What `copy_directory(original, parent)` relies on when it runs on the
      tables `t`: `p` is the plan of `original` in the snapshot `src`, every
      Dir of the plan is one of `inside`, no row has been added inside them,
      and `parent` is a Dir of `t` that is not one of them. */
  ghost predicate Ready(src: Tables, inside: set<Id>, p: Plan, t: Tables, parent: Option<Id>) {
    && Apart(p) && Matches(src, p) && Fits(src, p) && Dirs(p) <= inside <= src.dirs.Keys
    && AddedOutside(src, t, inside) && Below(t) && (parent.Some? ==> parent.value !in inside && parent.value in t.dirs)
  }

  /** The plan `p` is copied in `u` under `parent`: each Dir, prompt and
      AI model has a copy at the key the renamings from `base` give it. */
  ghost predicate TreeRowsCopied(src: Tables, p: Plan, parent: Option<Id>, base: nat, u: Tables) {
    && DirsCopied(src, DirsRenamed(p, base), p.dir, parent, u.dirs)
    && PromptsCopied(src, PromptsRenamed(p, base), DirsRenamed(p, base), u.prompts)
    && AIModelsCopied(src, AIModelsRenamed(p, base), DirsRenamed(p, base), u.aimodels)
  }

  /** `u` is `t` with the plan `p` copied under `parent`, on the keys from
      `t.next`: one new Dir per Dir of the plan, and every row added is
      outside `inside`. */
  ghost predicate TreeCopied(src: Tables, inside: set<Id>, p: Plan, parent: Option<Id>, t: Tables, u: Tables) {
    && Grown(t, u) && u.next == t.next + Count(p) && AddedOutside(src, u, inside)
    && TreeRowsCopied(src, p, parent, t.next, u)
  }

  /** The first `j` of the prompts `ks` of `d` are copied into `newDir`, on
      the keys from `t.next`, and nothing else is written. */
  ghost predicate OwnPromptsCopied(src: Tables, inside: set<Id>, ks: seq<Id>, j: nat, d: Id, newDir: Id, t: Tables, u: Tables) {
    && j <= |ks| && ks == PromptsIn(src.prompts, d) && d in inside && newDir !in inside && newDir in t.dirs
    && u.dirs == t.dirs && u.aimodels == t.aimodels && SubMap(t.prompts, u.prompts)
    && (forall k :: k in u.prompts && k !in t.prompts ==> t.next <= k)
    && Below(u) && u.next == t.next + j && AddedOutside(src, u, inside)
    && PromptsCopied(src, OwnRenamed(ks, j, t.next), map[d := newDir], u.prompts)
  }

  /** The first `j` of the AI models `ks` of `d` are copied into `newDir`,
      on the keys from `t.next`, and nothing else is written. */
  ghost predicate OwnAIModelsCopied(src: Tables, inside: set<Id>, ks: seq<Id>, j: nat, d: Id, newDir: Id, t: Tables, u: Tables) {
    && j <= |ks| && ks == AIModelsIn(src.aimodels, d) && d in inside && newDir !in inside && newDir in t.dirs
    && u.dirs == t.dirs && u.prompts == t.prompts && SubMap(t.aimodels, u.aimodels)
    && (forall k :: k in u.aimodels && k !in t.aimodels ==> t.next <= k)
    && Below(u) && u.next == t.next + j && AddedOutside(src, u, inside)
    && AIModelsCopied(src, OwnRenamed(ks, j, t.next), map[d := newDir], u.aimodels)
  }

  /** The subtrees of the first `i` children of the plan are copied in `u`
      under `newDir`, one after the other, on the keys from `base`. */
  ghost predicate KidsRowsCopied(src: Tables, p: Plan, i: nat, newDir: Id, base: nat, u: Tables)
    requires i <= |p.kids|
  {
    && DirsCopiedUnder(src, KidsDirsRenamed(p, i, base), p.dir, newDir, u.dirs)
    && PromptsCopied(src, KidsPromptsRenamed(p, i, base), KidsDirsRenamed(p, i, base), u.prompts)
    && AIModelsCopied(src, KidsAIModelsRenamed(p, i, base), KidsDirsRenamed(p, i, base), u.aimodels)
  }

  /** `u` is `t` with the subtrees of the first `i` children of the plan
      copied under `newDir`, on the keys from `t.next`. */
  ghost predicate KidsCopied(src: Tables, inside: set<Id>, p: Plan, i: nat, newDir: Id, t: Tables, u: Tables) {
    && i <= |p.kids| && Grown(t, u) && u.next == t.next + KidsCount(p, i) && AddedOutside(src, u, inside)
    && KidsRowsCopied(src, p, i, newDir, t.next, u)
  }
}
