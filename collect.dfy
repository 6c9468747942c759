/** `load_prompts` and its helper `collect_prompts`: every prompt filed
    anywhere in a directory's subtree. */
module Collect {
  import opened Wrappers
  import opened Models
  import opened Forest
  import opened Store
  import opened Sequences

  /** Specification of `collect_prompts(d)`: the prompts collected below each
      child of `d` in turn, then the prompts filed in `d` itself. */
  function Collected(dirs: map<Id, Dir>, prompts: map<Id, Prompt>, d: Id): seq<Id>
    requires Acyclic(dirs) && d in dirs
    decreases Size(dirs, d), 1
  {
    CollectedBelow(dirs, prompts, d, |Children(dirs, Some(d))|) + PromptsIn(prompts, d)
  }

  /** The prompts collected below the first `k` children of `parent`. */
  function CollectedBelow(dirs: map<Id, Dir>, prompts: map<Id, Prompt>, parent: Id, k: nat): seq<Id>
    requires Acyclic(dirs) && parent in dirs && k <= |Children(dirs, Some(parent))|
    decreases Size(dirs, parent), 0, k
  {
    if k == 0 then []
    else
      var c := Children(dirs, Some(parent))[k - 1];
      ChildSmaller(dirs, c);
      CollectedBelow(dirs, prompts, parent, k - 1) + Collected(dirs, prompts, c)
  }

  /** `p` is a prompt filed in one of the Dirs of `ds`. */
  ghost predicate FiledIn(prompts: map<Id, Prompt>, p: Id, ds: set<Id>) {
    p in prompts && prompts[p].dir.Some? && prompts[p].dir.value in ds
  }

  lemma {:induction false} CollectedBelowMembers(
    dirs: map<Id, Dir>, prompts: map<Id, Prompt>, parent: Id, k: nat, x: Id)
    requires Acyclic(dirs) && parent in dirs && k <= |Children(dirs, Some(parent))|
    ensures x in CollectedBelow(dirs, prompts, parent, k)
      <==> FiledIn(prompts, x, SubtreesOf(dirs, Children(dirs, Some(parent))[..k]))
    decreases Size(dirs, parent), 0, k
  {
    if k > 0 {
      var ds := Children(dirs, Some(parent));
      ChildSmaller(dirs, ds[k - 1]);
      CollectedBelowMembers(dirs, prompts, parent, k - 1, x);
      CollectedMembers(dirs, prompts, ds[k - 1], x);
      assert ds[..k][..k - 1] == ds[..k - 1];
    }
  }

  /** `collect_prompts(d)` gathers exactly the prompts filed in `d` or in
      one of its descendants. */
  lemma {:induction false} CollectedMembers(dirs: map<Id, Dir>, prompts: map<Id, Prompt>, d: Id, x: Id)
    requires Acyclic(dirs) && d in dirs
    ensures x in Collected(dirs, prompts, d) <==> FiledIn(prompts, x, Subtree(dirs, d))
    decreases Size(dirs, d), 1
  {
    var ds := Children(dirs, Some(d));
    CollectedBelowMembers(dirs, prompts, d, |ds|, x);
    assert ds[..|ds|] == ds;
    SubtreeSplit(dirs, d);
    if x in prompts && prompts[x].dir == Some(d) {
      PromptsInComplete(prompts, d, x);
    }
  }

  /** What the first k children yield and what the k-th child yields have
      no prompt in common, because sibling subtrees are disjoint. */
  lemma CollectedSiblingsDisjoint(dirs: map<Id, Dir>, prompts: map<Id, Prompt>, parent: Id, k: nat)
    requires Acyclic(dirs) && parent in dirs && k < |Children(dirs, Some(parent))|
    ensures forall x :: x in CollectedBelow(dirs, prompts, parent, k) ==>
      x !in Collected(dirs, prompts, Children(dirs, Some(parent))[k])
  {
    var ds := Children(dirs, Some(parent));
    ChildSubtreesDisjoint(dirs, Some(parent), k);
    forall x | x in CollectedBelow(dirs, prompts, parent, k)
      ensures x !in Collected(dirs, prompts, ds[k])
    {
      CollectedBelowMembers(dirs, prompts, parent, k, x);
      CollectedMembers(dirs, prompts, ds[k], x);
    }
  }

  lemma {:induction false} CollectedBelowDistinct(dirs: map<Id, Dir>, prompts: map<Id, Prompt>, parent: Id, k: nat)
    requires Acyclic(dirs) && parent in dirs && k <= |Children(dirs, Some(parent))|
    ensures Distinct(CollectedBelow(dirs, prompts, parent, k))
    decreases Size(dirs, parent), 0, k
  {
    if k > 0 {
      var c := Children(dirs, Some(parent))[k - 1];
      ChildSmaller(dirs, c);
      CollectedBelowDistinct(dirs, prompts, parent, k - 1);
      CollectedDistinct(dirs, prompts, c);
      CollectedSiblingsDisjoint(dirs, prompts, parent, k - 1);
      DistinctConcat(CollectedBelow(dirs, prompts, parent, k - 1), Collected(dirs, prompts, c));
    }
  }

  /** `collect_prompts(d)` gathers every prompt at most once. */
  lemma {:induction false} CollectedDistinct(dirs: map<Id, Dir>, prompts: map<Id, Prompt>, d: Id)
    requires Acyclic(dirs) && d in dirs
    ensures Distinct(Collected(dirs, prompts, d))
    decreases Size(dirs, d), 1
  {
    var n := |Children(dirs, Some(d))|;
    CollectedBelowDistinct(dirs, prompts, d, n);
    SubtreeSplit(dirs, d);
    var below := CollectedBelow(dirs, prompts, d, n);
    var own := PromptsIn(prompts, d);
    PromptsInOrder(prompts, d);
    forall x | x in below
      ensures x !in own
    {
      CollectedBelowMembers(dirs, prompts, d, n, x);
      assert Children(dirs, Some(d))[..n] == Children(dirs, Some(d));
    }
    DistinctConcat(below, own);
  }

  /** The descendants' prompts come first and `d`'s own prompts last: an
      entry of `collect_prompts(d)` is filed in `d` exactly when it lies in
      the final stretch, which lists `d`'s prompts in the database's order. */
  lemma CollectedOrder(dirs: map<Id, Dir>, prompts: map<Id, Prompt>, d: Id)
    requires Acyclic(dirs) && d in dirs
    ensures
      var r := Collected(dirs, prompts, d);
      var own := PromptsIn(prompts, d);
      && |own| <= |r| && r[|r| - |own|..] == own
      && forall i :: 0 <= i < |r| ==> r[i] in prompts && (prompts[r[i]].dir == Some(d) <==> i >= |r| - |own|)
  {
    var ds := Children(dirs, Some(d));
    var below := CollectedBelow(dirs, prompts, d, |ds|);
    var own := PromptsIn(prompts, d);
    var r := below + own;
    SubtreeSplit(dirs, d);
    assert ds[..|ds|] == ds;
    forall i | 0 <= i < |r|
      ensures r[i] in prompts && (prompts[r[i]].dir == Some(d) <==> i >= |r| - |own|)
    {
      if i < |below| {
        assert r[i] == below[i];
        CollectedBelowMembers(dirs, prompts, d, |ds|, below[i]);
      } else {
        assert r[i] == own[i - |below|];
      }
    }
  }

  /** One turn of the loop over the children: extending the list by the
      k-th child's prompts extends what has been collected so far. */
  lemma CollectedBelowExtend(
    dirs: map<Id, Dir>, prompts: map<Id, Prompt>, parent: Id, k: nat,
    all: seq<Id>, before: seq<Id>, after: seq<Id>)
    requires Acyclic(dirs) && parent in dirs && k < |Children(dirs, Some(parent))|
    requires before == all + CollectedBelow(dirs, prompts, parent, k)
    requires after == before + Collected(dirs, prompts, Children(dirs, Some(parent))[k])
    ensures after == all + CollectedBelow(dirs, prompts, parent, k + 1)
  {
    AppendAssoc(all, CollectedBelow(dirs, prompts, parent, k),
      Collected(dirs, prompts, Children(dirs, Some(parent))[k]));
  }

  /** The end of `collect_prompts(d)`: after the children's prompts, the
      list is extended by `d`'s own. */
  lemma CollectedFinish(
    dirs: map<Id, Dir>, prompts: map<Id, Prompt>, d: Id, all: seq<Id>, before: seq<Id>, after: seq<Id>)
    requires Acyclic(dirs) && d in dirs
    requires before == all + CollectedBelow(dirs, prompts, d, |Children(dirs, Some(d))|)
    requires after == before + PromptsIn(prompts, d)
    ensures after == all + Collected(dirs, prompts, d)
  {
    AppendAssoc(all, CollectedBelow(dirs, prompts, d, |Children(dirs, Some(d))|), PromptsIn(prompts, d));
  }

  // ---------------------------------------------------------------------
  // The view's code

  /** `collect_prompts(d)`: recurse into each child of `d`, then extend the
      closed-over list `all` with the prompts filed in `d`. */
  method CollectPrompts(dirs: map<Id, Dir>, prompts: map<Id, Prompt>, d: Id, all: seq<Id>)
    returns (all': seq<Id>)
    requires Acyclic(dirs) && d in dirs
    ensures all' == all + Collected(dirs, prompts, d)
    decreases Size(dirs, d), 2
  {
    var before := CollectChildren(dirs, prompts, d, all);
    all' := before + PromptsIn(prompts, d);
    CollectedFinish(dirs, prompts, d, all, before, all');
  }

  method CollectChildren(dirs: map<Id, Dir>, prompts: map<Id, Prompt>, d: Id, all: seq<Id>)
    returns (all': seq<Id>)
    requires Acyclic(dirs) && d in dirs
    ensures all' == all + CollectedBelow(dirs, prompts, d, |Children(dirs, Some(d))|)
    decreases Size(dirs, d), 1
  {
    var cs := Children(dirs, Some(d));
    all' := all;
    var i := 0;
    while i < |cs|
      invariant 0 <= i <= |cs|
      invariant all' == all + CollectedBelow(dirs, prompts, d, i)
    {
      var before := all';
      all' := CollectChild(dirs, prompts, d, i, all, before);
      i := i + 1;
    }
  }

  method CollectChild(dirs: map<Id, Dir>, prompts: map<Id, Prompt>, d: Id, i: nat, ghost all: seq<Id>, before: seq<Id>)
    returns (all': seq<Id>)
    requires Acyclic(dirs) && d in dirs && i < |Children(dirs, Some(d))|
    requires before == all + CollectedBelow(dirs, prompts, d, i)
    ensures all' == all + CollectedBelow(dirs, prompts, d, i + 1)
    decreases Size(dirs, d), 0
  {
    var c := Children(dirs, Some(d))[i];
    ChildSmaller(dirs, c);
    all' := CollectPrompts(dirs, prompts, c, before);
    CollectedBelowExtend(dirs, prompts, d, i, all, before, all');
  }

  /** What `load_prompts` hands to the page: the collected prompts and the
      directory's display name. */
  datatype PromptsPage = PromptsPage(prompts: seq<Id>, dirName: string)

  /** `load_prompts(dir_id)`: NotFound for an unknown id, otherwise the
      prompts of the whole subtree, each once, descendants' first. */
  method LoadPrompts(db: Db, dirId: Id) returns (page: Result<PromptsPage, Error>)
    requires db.Valid()
    ensures dirId !in db.dirs <==> page == Err(NotFound)
    ensures dirId in db.dirs ==>
      page == Ok(PromptsPage(Collected(db.dirs, db.prompts, dirId), db.dirs[dirId].display))
  {
    var dirs, prompts := db.dirs, db.prompts;
    if dirId !in dirs {
      return Err(NotFound);
    }
    var all := CollectPrompts(dirs, prompts, dirId, []);
    assert all == Collected(dirs, prompts, dirId);
    page := Ok(PromptsPage(all, dirs[dirId].display));
  }
}
