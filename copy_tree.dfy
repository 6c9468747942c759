/** The plan `copy_directory` follows when it copies the subtree of a Dir:
    read off the tables, it covers exactly that subtree, with its prompts
    and AI models. */
module CopyTree {
  import opened Wrappers
  import opened Models
  import opened Forest
  import opened Store
  import opened CopyPlan

  /** The prompts `original.prompts.all()` lists are those filed in `d`. */
  lemma PromptsOfDir(prompts: map<Id, Prompt>, d: Id)
    ensures Prefix(PromptsIn(prompts, d), |PromptsIn(prompts, d)|) == PromptsUnder(prompts, {d})
  {
    var ps := PromptsIn(prompts, d);
    forall k | k in PromptsUnder(prompts, {d})
      ensures k in Prefix(ps, |ps|)
    {
      PromptsInComplete(prompts, d, k);
      PrefixMembers(ps, |ps|, k);
    }
    forall k | k in Prefix(ps, |ps|)
      ensures k in PromptsUnder(prompts, {d})
    {
      PrefixMembers(ps, |ps|, k);
    }
  }

  /** The AI models `original.aimodels.all()` lists are those filed in `d`. */
  lemma AIModelsOfDir(aimodels: map<Id, AIModel>, d: Id)
    ensures Prefix(AIModelsIn(aimodels, d), |AIModelsIn(aimodels, d)|) == AIModelsUnder(aimodels, {d})
  {
    var ams := AIModelsIn(aimodels, d);
    forall k | k in AIModelsUnder(aimodels, {d})
      ensures k in Prefix(ams, |ams|)
    {
      AIModelsInComplete(aimodels, d, k);
      PrefixMembers(ams, |ams|, k);
    }
    forall k | k in Prefix(ams, |ams|)
      ensures k in AIModelsUnder(aimodels, {d})
    {
      PrefixMembers(ams, |ams|, k);
    }
  }

  // ---------------------------------------------------------------------
  // The plan of a Dir

  /** What the queries of `copy_directory(original)` return on `src`, down
      the whole subtree of `d`. */
  ghost function PlanOf(src: Tables, d: Id): (p: Plan)
    requires Acyclic(src.dirs) && d in src.dirs
    ensures p.dir == d && |p.kids| == |Children(src.dirs, Some(d))|
    decreases Size(src.dirs, d), 1
  {
    Plan(d, PromptsIn(src.prompts, d), AIModelsIn(src.aimodels, d),
         KidsPlans(src, d, |Children(src.dirs, Some(d))|))
  }

  /** The plans of the first `i` children of `d`. */
  ghost function KidsPlans(src: Tables, d: Id, i: nat): (ps: seq<Plan>)
    requires Acyclic(src.dirs) && d in src.dirs && i <= |Children(src.dirs, Some(d))|
    ensures |ps| == i
    decreases Size(src.dirs, d), 0, i
  {
    if i == 0 then []
    else
      var c := Children(src.dirs, Some(d))[i - 1];
      ChildSmaller(src.dirs, c);
      KidsPlans(src, d, i - 1) + [PlanOf(src, c)]
  }

  lemma {:induction false} KidsPlansAt(src: Tables, d: Id, i: nat, j: nat)
    requires Acyclic(src.dirs) && d in src.dirs && j < i <= |Children(src.dirs, Some(d))|
    ensures Children(src.dirs, Some(d))[j] in src.dirs
    ensures KidsPlans(src, d, i)[j] == PlanOf(src, Children(src.dirs, Some(d))[j])
  {
    if j < i - 1 {
      KidsPlansAt(src, d, i - 1, j);
    }
  }

  /** The plan of `d` lists what the queries return and agrees with the
      tables. */
  lemma {:induction false} PlanFits(src: Tables, d: Id)
    requires Acyclic(src.dirs) && d in src.dirs
    ensures Fits(src, PlanOf(src, d)) && Matches(src, PlanOf(src, d))
    decreases Size(src.dirs, d), 1
  {
    KidsPlansFit(src, d, |Children(src.dirs, Some(d))|);
  }

  lemma {:induction false} KidsPlansFit(src: Tables, d: Id, i: nat)
    requires Acyclic(src.dirs) && d in src.dirs && i <= |Children(src.dirs, Some(d))|
    ensures KidsFit(src, PlanOf(src, d), i) && KidsMatch(src, PlanOf(src, d), i)
    decreases Size(src.dirs, d), 0, i
  {
    if i > 0 {
      var c := Children(src.dirs, Some(d))[i - 1];
      KidsPlansFit(src, d, i - 1);
      KidsPlansAt(src, d, |Children(src.dirs, Some(d))|, i - 1);
      ChildSmaller(src.dirs, c);
      PlanFits(src, c);
    }
  }

  /** The plan of `d` visits exactly the subtree of `d`. */
  lemma {:induction false} PlanDirs(src: Tables, d: Id)
    requires Acyclic(src.dirs) && d in src.dirs
    ensures Dirs(PlanOf(src, d)) == Subtree(src.dirs, d)
    decreases Size(src.dirs, d), 1
  {
    var cs := Children(src.dirs, Some(d));
    KidsPlansDirs(src, d, |cs|);
    assert cs[..|cs|] == cs;
    SubtreeSplit(src.dirs, d);
  }

  lemma {:induction false} KidsPlansDirs(src: Tables, d: Id, i: nat)
    requires Acyclic(src.dirs) && d in src.dirs && i <= |Children(src.dirs, Some(d))|
    ensures KidsDirs(PlanOf(src, d), i) == SubtreesOf(src.dirs, Children(src.dirs, Some(d))[..i])
    decreases Size(src.dirs, d), 0, i
  {
    var cs := Children(src.dirs, Some(d));
    if i > 0 {
      var c := cs[i - 1];
      KidsPlansDirs(src, d, i - 1);
      KidsPlansAt(src, d, |cs|, i - 1);
      ChildSmaller(src.dirs, c);
      PlanDirs(src, c);
      assert cs[..i][..i - 1] == cs[..i - 1];
    }
  }

  /** The plan of `d` copies exactly the prompts filed in the subtree of `d`. */
  lemma {:induction false} PlanPrompts(src: Tables, d: Id)
    requires Acyclic(src.dirs) && d in src.dirs
    ensures Prompts(PlanOf(src, d)) == PromptsUnder(src.prompts, Subtree(src.dirs, d))
    decreases Size(src.dirs, d), 1
  {
    var cs := Children(src.dirs, Some(d));
    KidsPlansPrompts(src, d, |cs|);
    assert cs[..|cs|] == cs;
    SubtreeSplit(src.dirs, d);
    PromptsOfDir(src.prompts, d);
    PromptsUnderUnion(src.prompts, {d}, SubtreesOf(src.dirs, cs));
  }

  /** The prompts of the first `i` children's plans are those of the first
      `i - 1` and those of the plan of the `i`-th child. */
  lemma KidsPromptsLast(src: Tables, d: Id, i: nat)
    requires Acyclic(src.dirs) && d in src.dirs && 0 < i <= |Children(src.dirs, Some(d))|
    ensures Children(src.dirs, Some(d))[i - 1] in src.dirs
    ensures KidsPrompts(PlanOf(src, d), i) == KidsPrompts(PlanOf(src, d), i - 1) + Prompts(PlanOf(src, Children(src.dirs, Some(d))[i - 1]))
  {
    KidsPlansAt(src, d, |Children(src.dirs, Some(d))|, i - 1);
  }

  lemma {:induction false} KidsPlansPrompts(src: Tables, d: Id, i: nat)
    requires Acyclic(src.dirs) && d in src.dirs && i <= |Children(src.dirs, Some(d))|
    ensures KidsPrompts(PlanOf(src, d), i) == PromptsUnder(src.prompts, SubtreesOf(src.dirs, Children(src.dirs, Some(d))[..i]))
    decreases Size(src.dirs, d), 0, i
  {
    var cs := Children(src.dirs, Some(d));
    if i > 0 {
      var c := cs[i - 1];
      KidsPromptsLast(src, d, i);
      KidsPlansPrompts(src, d, i - 1);
      ChildSmaller(src.dirs, c);
      PlanPrompts(src, c);
      ChildSubtreesDisjoint(src.dirs, Some(d), i - 1);
      PromptsUnderUnion(src.prompts, SubtreesOf(src.dirs, cs[..i - 1]), Subtree(src.dirs, c));
      SubtreesOfLast(src.dirs, cs, i);
    }
  }

  /** The plan of `d` copies exactly the AI models filed in the subtree of `d`. */
  lemma {:induction false} PlanAIModels(src: Tables, d: Id)
    requires Acyclic(src.dirs) && d in src.dirs
    ensures AIModels(PlanOf(src, d)) == AIModelsUnder(src.aimodels, Subtree(src.dirs, d))
    decreases Size(src.dirs, d), 1
  {
    var cs := Children(src.dirs, Some(d));
    KidsPlansAIModels(src, d, |cs|);
    assert cs[..|cs|] == cs;
    SubtreeSplit(src.dirs, d);
    AIModelsOfDir(src.aimodels, d);
    AIModelsUnderUnion(src.aimodels, {d}, SubtreesOf(src.dirs, cs));
  }

  /** The ai models of the first `i` children's plans are those of the first
      `i - 1` and those of the plan of the `i`-th child. */
  lemma KidsAIModelsLast(src: Tables, d: Id, i: nat)
    requires Acyclic(src.dirs) && d in src.dirs && 0 < i <= |Children(src.dirs, Some(d))|
    ensures Children(src.dirs, Some(d))[i - 1] in src.dirs
    ensures KidsAIModels(PlanOf(src, d), i) == KidsAIModels(PlanOf(src, d), i - 1) + AIModels(PlanOf(src, Children(src.dirs, Some(d))[i - 1]))
  {
    KidsPlansAt(src, d, |Children(src.dirs, Some(d))|, i - 1);
  }

  lemma {:induction false} KidsPlansAIModels(src: Tables, d: Id, i: nat)
    requires Acyclic(src.dirs) && d in src.dirs && i <= |Children(src.dirs, Some(d))|
    ensures KidsAIModels(PlanOf(src, d), i) == AIModelsUnder(src.aimodels, SubtreesOf(src.dirs, Children(src.dirs, Some(d))[..i]))
    decreases Size(src.dirs, d), 0, i
  {
    var cs := Children(src.dirs, Some(d));
    if i > 0 {
      var c := cs[i - 1];
      KidsAIModelsLast(src, d, i);
      KidsPlansAIModels(src, d, i - 1);
      ChildSmaller(src.dirs, c);
      PlanAIModels(src, c);
      ChildSubtreesDisjoint(src.dirs, Some(d), i - 1);
      AIModelsUnderUnion(src.aimodels, SubtreesOf(src.dirs, cs[..i - 1]), Subtree(src.dirs, c));
      SubtreesOfLast(src.dirs, cs, i);
    }
  }

  /** No row occurs twice in the plan of `d`. */
  lemma {:induction false} PlanApart(src: Tables, d: Id)
    requires Acyclic(src.dirs) && d in src.dirs
    ensures Apart(PlanOf(src, d))
    decreases Size(src.dirs, d), 1
  {
    var cs := Children(src.dirs, Some(d));
    PromptsInOrder(src.prompts, d);
    AIModelsInOrder(src.aimodels, d);
    assert cs[..|cs|] == cs;
    SubtreeSplit(src.dirs, d);
    KidsPlansDirs(src, d, |cs|);
    KidsPlansPrompts(src, d, |cs|);
    PromptsOfDir(src.prompts, d);
    PromptsUnderUnion(src.prompts, {d}, SubtreesOf(src.dirs, cs));
    KidsPlansAIModels(src, d, |cs|);
    AIModelsOfDir(src.aimodels, d);
    AIModelsUnderUnion(src.aimodels, {d}, SubtreesOf(src.dirs, cs));
    KidsPlansApart(src, d, |cs|);
  }

  lemma {:induction false} KidsPlansApart(src: Tables, d: Id, i: nat)
    requires Acyclic(src.dirs) && d in src.dirs && i <= |Children(src.dirs, Some(d))|
    ensures KidsApart(PlanOf(src, d), i)
    decreases Size(src.dirs, d), 0, i
  {
    if i > 0 {
      KidsPlansApart(src, d, i - 1);
      KidApart(src, d, i - 1);
      KidsApartStep(PlanOf(src, d), i - 1);
    }
  }

  /** The plan of child `k` is apart, and shares no Dir, prompt or AI
      model with those of the children before it. */
  lemma {:induction false} KidApart(src: Tables, d: Id, k: nat)
    requires Acyclic(src.dirs) && d in src.dirs && k < |Children(src.dirs, Some(d))|
    ensures var p := PlanOf(src, d);
      && Apart(p.kids[k])
      && KidsDirs(p, k) * Dirs(p.kids[k]) == {}
      && KidsPrompts(p, k) * Prompts(p.kids[k]) == {}
      && KidsAIModels(p, k) * AIModels(p.kids[k]) == {}
    decreases Size(src.dirs, d), 0, k
  {
    var cs := Children(src.dirs, Some(d));
    KidsPlansAt(src, d, |cs|, k);
    ChildSmaller(src.dirs, cs[k]);
    PlanApart(src, cs[k]);
    KidDirsApart(src, d, k);
    KidPromptsApart(src, d, k);
    KidAIModelsApart(src, d, k);
  }

  lemma KidDirsApart(src: Tables, d: Id, k: nat)
    requires Acyclic(src.dirs) && d in src.dirs && k < |Children(src.dirs, Some(d))|
    ensures Children(src.dirs, Some(d))[k] in src.dirs
    ensures KidsDirs(PlanOf(src, d), k) * Dirs(PlanOf(src, Children(src.dirs, Some(d))[k])) == {}
  {
    var c := Children(src.dirs, Some(d))[k];
    ChildSubtreesDisjoint(src.dirs, Some(d), k);
    KidsPlansDirs(src, d, k);
    PlanDirs(src, c);
  }

  lemma KidPromptsApart(src: Tables, d: Id, k: nat)
    requires Acyclic(src.dirs) && d in src.dirs && k < |Children(src.dirs, Some(d))|
    ensures Children(src.dirs, Some(d))[k] in src.dirs
    ensures KidsPrompts(PlanOf(src, d), k) * Prompts(PlanOf(src, Children(src.dirs, Some(d))[k])) == {}
  {
    var cs := Children(src.dirs, Some(d));
    ChildSubtreesDisjoint(src.dirs, Some(d), k);
    KidsPlansPrompts(src, d, k);
    PlanPrompts(src, cs[k]);
    PromptsUnderUnion(src.prompts, SubtreesOf(src.dirs, cs[..k]), Subtree(src.dirs, cs[k]));
  }

  lemma KidAIModelsApart(src: Tables, d: Id, k: nat)
    requires Acyclic(src.dirs) && d in src.dirs && k < |Children(src.dirs, Some(d))|
    ensures Children(src.dirs, Some(d))[k] in src.dirs
    ensures KidsAIModels(PlanOf(src, d), k) * AIModels(PlanOf(src, Children(src.dirs, Some(d))[k])) == {}
  {
    var cs := Children(src.dirs, Some(d));
    ChildSubtreesDisjoint(src.dirs, Some(d), k);
    KidsPlansAIModels(src, d, k);
    PlanAIModels(src, cs[k]);
    AIModelsUnderUnion(src.aimodels, SubtreesOf(src.dirs, cs[..k]), Subtree(src.dirs, cs[k]));
  }
}
