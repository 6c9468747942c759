/** The database behind the views: one table per record kind, keyed by
    primary key, and the counter the database draws fresh keys from. The
    ORM's `objects.create` inserts are the only way rows come into being. */
module Store {
  import opened Wrappers
  import opened Models
  import opened Forest
  import Ordering

  /** Every key was drawn from the counter, and every foreign key and
      many-to-many link names an existing row. */
  ghost predicate Integrity(
    dirs: map<Id, Dir>, prompts: map<Id, Prompt>, aimodels: map<Id, AIModel>, next: Id)
  {
    && (forall k :: k in dirs ==> k < next)
    && (forall k :: k in prompts ==> k < next)
    && (forall k :: k in aimodels ==> k < next)
    && (forall k :: k in dirs && dirs[k].parent.Some? ==> dirs[k].parent.value in dirs)
    && (forall k :: k in prompts && prompts[k].dir.Some? ==> prompts[k].dir.value in dirs)
    && (forall k :: k in prompts ==> prompts[k].aimodels <= aimodels.Keys)
    && (forall k :: k in aimodels && aimodels[k].dir.Some? ==> aimodels[k].dir.value in dirs)
  }

  /** The rule of the model class: every prompt is filed in a directory
      (the `dir` foreign key is not nullable there). */
  ghost predicate PromptsFiled(prompts: map<Id, Prompt>) {
    forall k :: k in prompts ==> prompts[k].dir.Some?
  }

  /** The prompts with key below `n` filed in `d`, in ascending order. */
  function PromptsBelow(prompts: map<Id, Prompt>, d: Id, n: nat): (r: seq<Id>)
    ensures forall i :: 0 <= i < |r| ==> r[i] < n && r[i] in prompts && prompts[r[i]].dir == Some(d)
    decreases n
  {
    if n == 0 then []
    else PromptsBelow(prompts, d, n - 1) + (if n - 1 in prompts && prompts[n - 1].dir == Some(d) then [n - 1] else [])
  }

  /** The prompts filed in `d`, as `Prompt.objects.filter(dir=d)` lists them. */
  function PromptsIn(prompts: map<Id, Prompt>, d: Id): (r: seq<Id>)
    ensures forall i :: 0 <= i < |r| ==> r[i] in prompts && prompts[r[i]].dir == Some(d)
  {
    PromptsBelow(prompts, d, Ordering.Bound(prompts))
  }

  lemma {:induction false} PromptsBelowComplete(prompts: map<Id, Prompt>, d: Id, n: nat, k: Id)
    requires k < n && k in prompts && prompts[k].dir == Some(d)
    ensures k in PromptsBelow(prompts, d, n)
    decreases n
  {
    if k < n - 1 {
      PromptsBelowComplete(prompts, d, n - 1, k);
    }
  }

  /** Every prompt filed in `d` is listed among the prompts of `d`. */
  lemma PromptsInComplete(prompts: map<Id, Prompt>, d: Id, k: Id)
    requires k in prompts && prompts[k].dir == Some(d)
    ensures k in PromptsIn(prompts, d)
  {
    PromptsBelowComplete(prompts, d, Ordering.Bound(prompts), k);
  }

  lemma {:induction false} PromptsBelowIncreasing(prompts: map<Id, Prompt>, d: Id, n: nat)
    ensures Ordering.Increasing(PromptsBelow(prompts, d, n))
    decreases n
  {
    if n > 0 {
      PromptsBelowIncreasing(prompts, d, n - 1);
      var front := PromptsBelow(prompts, d, n - 1);
      var r := PromptsBelow(prompts, d, n);
      forall i, j | 0 <= i < j < |r|
        ensures r[i] < r[j]
      {
        assert r[i] == front[i];
        if j < |front| {
          assert r[j] == front[j];
        }
      }
    }
  }

  /** The prompts of a directory are listed in ascending order of id. */
  lemma PromptsInOrder(prompts: map<Id, Prompt>, d: Id)
    ensures Ordering.Increasing(PromptsIn(prompts, d))
  {
    PromptsBelowIncreasing(prompts, d, Ordering.Bound(prompts));
  }

  lemma {:induction false} PromptsBelowAgree(a: map<Id, Prompt>, b: map<Id, Prompt>, d: Id, n: nat)
    requires forall k :: k < n ==> (k in a && a[k].dir == Some(d) <==> k in b && b[k].dir == Some(d))
    ensures PromptsBelow(a, d, n) == PromptsBelow(b, d, n)
    decreases n
  {
    if n > 0 {
      PromptsBelowAgree(a, b, d, n - 1);
    }
  }

  lemma {:induction false} PromptsBelowAll(prompts: map<Id, Prompt>, d: Id, n: nat)
    requires forall k :: k in prompts ==> k < n
    ensures PromptsBelow(prompts, d, n) == PromptsIn(prompts, d)
    decreases n
  {
    if n > Ordering.Bound(prompts) {
      assert n - 1 !in prompts;
      PromptsBelowAll(prompts, d, n - 1);
    }
  }

  /** Two tables with the same prompts filed in `d` list them in the same
      order. */
  lemma PromptsAgree(a: map<Id, Prompt>, b: map<Id, Prompt>, d: Id)
    requires forall k :: k in a && a[k].dir == Some(d) <==> k in b && b[k].dir == Some(d)
    ensures PromptsIn(a, d) == PromptsIn(b, d)
  {
    var n := if Ordering.Bound(a) < Ordering.Bound(b) then Ordering.Bound(b) else Ordering.Bound(a);
    PromptsBelowAgree(a, b, d, n);
    PromptsBelowAll(a, d, n);
    PromptsBelowAll(b, d, n);
  }

  /** The AI models with key below `n` filed in `d`, in ascending order. */
  function AIModelsBelow(aimodels: map<Id, AIModel>, d: Id, n: nat): (r: seq<Id>)
    ensures forall i :: 0 <= i < |r| ==> r[i] < n && r[i] in aimodels && aimodels[r[i]].dir == Some(d)
    decreases n
  {
    if n == 0 then []
    else AIModelsBelow(aimodels, d, n - 1) + (if n - 1 in aimodels && aimodels[n - 1].dir == Some(d) then [n - 1] else [])
  }

  /** The AI models filed in `d`, as `d.aimodels.all()` lists them. */
  function AIModelsIn(aimodels: map<Id, AIModel>, d: Id): (r: seq<Id>)
    ensures forall i :: 0 <= i < |r| ==> r[i] in aimodels && aimodels[r[i]].dir == Some(d)
  {
    AIModelsBelow(aimodels, d, Ordering.Bound(aimodels))
  }

  lemma {:induction false} AIModelsBelowComplete(aimodels: map<Id, AIModel>, d: Id, n: nat, k: Id)
    requires k < n && k in aimodels && aimodels[k].dir == Some(d)
    ensures k in AIModelsBelow(aimodels, d, n)
    decreases n
  {
    if k < n - 1 {
      AIModelsBelowComplete(aimodels, d, n - 1, k);
    }
  }

  /** Every AI model filed in `d` is listed among the AI models of `d`. */
  lemma AIModelsInComplete(aimodels: map<Id, AIModel>, d: Id, k: Id)
    requires k in aimodels && aimodels[k].dir == Some(d)
    ensures k in AIModelsIn(aimodels, d)
  {
    AIModelsBelowComplete(aimodels, d, Ordering.Bound(aimodels), k);
  }

  lemma {:induction false} AIModelsBelowIncreasing(aimodels: map<Id, AIModel>, d: Id, n: nat)
    ensures Ordering.Increasing(AIModelsBelow(aimodels, d, n))
    decreases n
  {
    if n > 0 {
      AIModelsBelowIncreasing(aimodels, d, n - 1);
      var front := AIModelsBelow(aimodels, d, n - 1);
      var r := AIModelsBelow(aimodels, d, n);
      forall i, j | 0 <= i < j < |r|
        ensures r[i] < r[j]
      {
        assert r[i] == front[i];
        if j < |front| {
          assert r[j] == front[j];
        }
      }
    }
  }

  /** The AI models of a directory are listed in ascending order of id. */
  lemma AIModelsInOrder(aimodels: map<Id, AIModel>, d: Id)
    ensures Ordering.Increasing(AIModelsIn(aimodels, d))
  {
    AIModelsBelowIncreasing(aimodels, d, Ordering.Bound(aimodels));
  }

  lemma {:induction false} AIModelsBelowAgree(a: map<Id, AIModel>, b: map<Id, AIModel>, d: Id, n: nat)
    requires forall k :: k < n ==> (k in a && a[k].dir == Some(d) <==> k in b && b[k].dir == Some(d))
    ensures AIModelsBelow(a, d, n) == AIModelsBelow(b, d, n)
    decreases n
  {
    if n > 0 {
      AIModelsBelowAgree(a, b, d, n - 1);
    }
  }

  lemma {:induction false} AIModelsBelowAll(aimodels: map<Id, AIModel>, d: Id, n: nat)
    requires forall k :: k in aimodels ==> k < n
    ensures AIModelsBelow(aimodels, d, n) == AIModelsIn(aimodels, d)
    decreases n
  {
    if n > Ordering.Bound(aimodels) {
      assert n - 1 !in aimodels;
      AIModelsBelowAll(aimodels, d, n - 1);
    }
  }

  /** Two tables with the same AI models filed in `d` list them in the same
      order. */
  lemma AIModelsAgree(a: map<Id, AIModel>, b: map<Id, AIModel>, d: Id)
    requires forall k :: k in a && a[k].dir == Some(d) <==> k in b && b[k].dir == Some(d)
    ensures AIModelsIn(a, d) == AIModelsIn(b, d)
  {
    var n := if Ordering.Bound(a) < Ordering.Bound(b) then Ordering.Bound(b) else Ordering.Bound(a);
    AIModelsBelowAgree(a, b, d, n);
    AIModelsBelowAll(a, d, n);
    AIModelsBelowAll(b, d, n);
  }

  /** The prompts filed in one of the Dirs of `ds`. */
  function PromptsUnder(prompts: map<Id, Prompt>, ds: set<Id>): set<Id> {
    set k | k in prompts && prompts[k].dir.Some? && prompts[k].dir.value in ds
  }

  /** The AI models filed in one of the Dirs of `ds`. */
  function AIModelsUnder(aimodels: map<Id, AIModel>, ds: set<Id>): set<Id> {
    set k | k in aimodels && aimodels[k].dir.Some? && aimodels[k].dir.value in ds
  }

  lemma PromptsUnderUnion(prompts: map<Id, Prompt>, ds1: set<Id>, ds2: set<Id>)
    requires ds1 !! ds2
    ensures PromptsUnder(prompts, ds1 + ds2) == PromptsUnder(prompts, ds1) + PromptsUnder(prompts, ds2)
    ensures PromptsUnder(prompts, ds1) !! PromptsUnder(prompts, ds2)
  {
  }

  lemma AIModelsUnderUnion(aimodels: map<Id, AIModel>, ds1: set<Id>, ds2: set<Id>)
    requires ds1 !! ds2
    ensures AIModelsUnder(aimodels, ds1 + ds2) == AIModelsUnder(aimodels, ds1) + AIModelsUnder(aimodels, ds2)
    ensures AIModelsUnder(aimodels, ds1) !! AIModelsUnder(aimodels, ds2)
  {
  }

  class Db {
    var dirs: map<Id, Dir>
    var prompts: map<Id, Prompt>
    var aimodels: map<Id, AIModel>
    var next: Id

    /** The store invariant: referential integrity and an acyclic forest. */
    ghost predicate Valid()
      reads this
    {
      Integrity(dirs, prompts, aimodels, next) && Acyclic(dirs)
    }

    /** An empty database. */
    constructor ()
      ensures Valid()
      ensures dirs == map[] && prompts == map[] && aimodels == map[] && next == 1
    {
      dirs, prompts, aimodels, next := map[], map[], map[], 1;
    }

    /** `Dir.get_ancestors`: walk the parent pointers up from `d`, putting
        each one in front of the list, until a Dir without parent. */
    method GetAncestors(d: Id) returns (ancestors: seq<Id>)
      requires Valid() && d in dirs
      ensures ancestors == Ancestors(dirs, d)
    {
      ancestors := [];
      var current := dirs[d].parent;
      while current.Some?
        invariant current.Some? ==> current.value in dirs
        invariant current.None? ==> ancestors == Ancestors(dirs, d)
        invariant current.Some? ==>
          Ancestors(dirs, current.value) + [current.value] + ancestors == Ancestors(dirs, d)
        decreases if current.Some? then Depth(dirs, current.value) + 1 else 0
      {
        var c := current.value;
        if dirs[c].parent.Some? {
          DepthOfParent(dirs, c);
        }
        ancestors := [c] + ancestors;
        current := dirs[c].parent;
      }
    }

    /** `Dir.objects.create(dir=parent, display=display)`. */
    method CreateDir(parent: Option<Id>, display: string) returns (id: Id)
      requires Valid()
      requires parent.Some? ==> parent.value in dirs
      modifies this
      ensures Valid()
      ensures id == old(next) && next == old(next) + 1 && id !in old(dirs)
      ensures dirs == old(dirs)[id := Dir(parent, display)]
      ensures prompts == old(prompts) && aimodels == old(aimodels)
    {
      id := next;
      InsertKeepsAcyclic(dirs, id, Dir(parent, display));
      dirs := dirs[id := Dir(parent, display)];
      next := next + 1;
    }

    /** `Prompt.objects.create(...)` followed by setting its many-to-many
        links and saving it. */
    method CreatePrompt(p: Prompt) returns (id: Id)
      requires Valid()
      requires p.dir.Some? ==> p.dir.value in dirs
      requires p.aimodels <= aimodels.Keys
      modifies this
      ensures Valid()
      ensures id == old(next) && next == old(next) + 1 && id !in old(prompts)
      ensures prompts == old(prompts)[id := p]
      ensures dirs == old(dirs) && aimodels == old(aimodels)
    {
      id := next;
      prompts := prompts[id := p];
      next := next + 1;
    }

    /** `AIModel.objects.create(...)`, or saving a new AIModel instance. */
    method CreateAIModel(m: AIModel) returns (id: Id)
      requires Valid()
      requires m.dir.Some? ==> m.dir.value in dirs
      modifies this
      ensures Valid()
      ensures id == old(next) && next == old(next) + 1 && id !in old(aimodels)
      ensures aimodels == old(aimodels)[id := m]
      ensures dirs == old(dirs) && prompts == old(prompts)
    {
      id := next;
      aimodels := aimodels[id := m];
      next := next + 1;
    }
  }
}
