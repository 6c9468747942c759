/** The directory forest: every Dir points at its parent or at nothing.
    This module gives the parent-pointer structure its meaning: how far a Dir
    is from a root, its ancestors, its subtree and its children. */
module Forest {
  import opened Wrappers
  import opened Models
  import opened Ordering

  /** `d` is a Dir that reaches a root in exactly `n` parent hops. */
  predicate HopsToRoot(dirs: map<Id, Dir>, d: Id, n: nat)
    decreases n
  {
    d in dirs &&
    match dirs[d].parent
    case None => n == 0
    case Some(p) => n > 0 && HopsToRoot(dirs, p, n - 1)
  }

  /** No parent chain loops: from every Dir some number of hops reaches a
      root. */
  ghost predicate Acyclic(dirs: map<Id, Dir>) {
    forall d :: d in dirs ==> exists n: nat :: HopsToRoot(dirs, d, n)
  }

  /** The chain from a Dir is determined, so its length is too. */
  lemma {:induction false} HopsUnique(dirs: map<Id, Dir>, d: Id, n: nat, m: nat)
    requires HopsToRoot(dirs, d, n) && HopsToRoot(dirs, d, m)
    ensures n == m
    decreases n
  {
    match dirs[d].parent
    case None =>
    case Some(p) => HopsUnique(dirs, p, n - 1, m - 1);
  }

  /** The number of parent hops from `d` to its root. */
  ghost function Depth(dirs: map<Id, Dir>, d: Id): (n: nat)
    requires Acyclic(dirs) && d in dirs
    ensures HopsToRoot(dirs, d, n)
  {
    var n: nat :| HopsToRoot(dirs, d, n);
    n
  }

  lemma DepthOfParent(dirs: map<Id, Dir>, d: Id)
    requires Acyclic(dirs) && d in dirs && dirs[d].parent.Some?
    ensures dirs[d].parent.value in dirs
    ensures Depth(dirs, d) == Depth(dirs, dirs[d].parent.value) + 1
  {
    var p := dirs[d].parent.value;
    assert HopsToRoot(dirs, d, Depth(dirs, d));
    assert HopsToRoot(dirs, p, Depth(dirs, d) - 1);
    HopsUnique(dirs, p, Depth(dirs, p), Depth(dirs, d) - 1);
  }

  /** The ancestors of `d`, root first; the last one is `d`'s parent. This
      is what the parent-pointer walk of `Dir.get_ancestors` computes. */
  function Ancestors(dirs: map<Id, Dir>, d: Id): (r: seq<Id>)
    requires Acyclic(dirs) && d in dirs
    ensures |r| == Depth(dirs, d)
    ensures r == [] <==> dirs[d].parent.None?
    ensures forall i :: 0 <= i < |r| ==> r[i] in dirs
    ensures r != [] ==> r[|r| - 1] == dirs[d].parent.value && dirs[r[0]].parent.None?
    decreases Depth(dirs, d)
  {
    match dirs[d].parent
    case None => []
    case Some(p) =>
      DepthOfParent(dirs, d);
      Ancestors(dirs, p) + [p]
  }

  /** Each ancestor is the parent of the next one. */
  lemma {:induction false} AncestorsChain(dirs: map<Id, Dir>, d: Id)
    requires Acyclic(dirs) && d in dirs
    ensures forall i :: 0 < i < |Ancestors(dirs, d)| ==>
      dirs[Ancestors(dirs, d)[i]].parent == Some(Ancestors(dirs, d)[i - 1])
    decreases Depth(dirs, d)
  {
    match dirs[d].parent
    case None =>
    case Some(p) =>
      DepthOfParent(dirs, d);
      AncestorsChain(dirs, p);
      var a := Ancestors(dirs, d);
      assert a == Ancestors(dirs, p) + [p];
      forall i | 0 < i < |a|
        ensures dirs[a[i]].parent == Some(a[i - 1])
      {
        if i < |a| - 1 {
          assert a[i] == Ancestors(dirs, p)[i] && a[i - 1] == Ancestors(dirs, p)[i - 1];
        }
      }
  }

  /** The ancestors of the i-th ancestor are the first i ancestors. */
  lemma {:induction false} AncestorsPrefix(dirs: map<Id, Dir>, d: Id)
    requires Acyclic(dirs) && d in dirs
    ensures forall i :: 0 <= i < |Ancestors(dirs, d)| ==>
      Ancestors(dirs, Ancestors(dirs, d)[i]) == Ancestors(dirs, d)[..i]
    decreases Depth(dirs, d)
  {
    match dirs[d].parent
    case None =>
    case Some(p) =>
      DepthOfParent(dirs, d);
      AncestorsPrefix(dirs, p);
      var a := Ancestors(dirs, d);
      assert a == Ancestors(dirs, p) + [p];
      forall i | 0 <= i < |a|
        ensures Ancestors(dirs, a[i]) == a[..i]
      {
        if i < |a| - 1 {
          assert a[i] == Ancestors(dirs, p)[i];
          assert a[..i] == Ancestors(dirs, p)[..i];
        } else {
          assert a[..i] == Ancestors(dirs, p);
        }
      }
  }

  /** A Dir that is the j-th ancestor of `x` has the first j ancestors of
      `x` as its own. */
  lemma AncestorAt(dirs: map<Id, Dir>, x: Id, j: nat)
    requires Acyclic(dirs) && x in dirs && j < |Ancestors(dirs, x)|
    ensures Ancestors(dirs, Ancestors(dirs, x)[j]) == Ancestors(dirs, x)[..j]
  {
    AncestorsPrefix(dirs, x);
  }

  /** No Dir is its own ancestor and no ancestor occurs twice. */
  lemma AncestorsDistinct(dirs: map<Id, Dir>, d: Id)
    requires Acyclic(dirs) && d in dirs
    ensures d !in Ancestors(dirs, d)
    ensures forall i, j :: 0 <= i < j < |Ancestors(dirs, d)| ==>
      Ancestors(dirs, d)[i] != Ancestors(dirs, d)[j]
  {
    var a := Ancestors(dirs, d);
    AncestorsPrefix(dirs, d);
    forall i | 0 <= i < |a|
      ensures a[i] != d
    {
      assert |Ancestors(dirs, a[i])| == i;
    }
    forall i, j | 0 <= i < j < |a|
      ensures a[i] != a[j]
    {
      assert |Ancestors(dirs, a[i])| == i && |Ancestors(dirs, a[j])| == j;
    }
  }

  /** `x` lies in the subtree rooted at `d`: it is `d` or a descendant. */
  predicate InSubtree(dirs: map<Id, Dir>, x: Id, d: Id)
    requires Acyclic(dirs) && x in dirs
  {
    x == d || d in Ancestors(dirs, x)
  }

  /** The Dirs of the subtree rooted at `d`, `d` included. */
  function Subtree(dirs: map<Id, Dir>, d: Id): (s: set<Id>)
    requires Acyclic(dirs)
  {
    set x | x in dirs && InSubtree(dirs, x, d)
  }

  /** The number of Dirs in the subtree rooted at `d`: the measure of every
      downward recursion over the forest. */
  ghost function Size(dirs: map<Id, Dir>, d: Id): nat
    requires Acyclic(dirs)
  {
    |Subtree(dirs, d)|
  }

  /** The Dirs with key below `n` whose parent is `p`, in ascending order. */
  function ChildrenBelow(dirs: map<Id, Dir>, p: Option<Id>, n: nat): (r: seq<Id>)
    ensures forall i :: 0 <= i < |r| ==> r[i] < n && r[i] in dirs && dirs[r[i]].parent == p
    decreases n
  {
    if n == 0 then []
    else ChildrenBelow(dirs, p, n - 1) + (if n - 1 in dirs && dirs[n - 1].parent == p then [n - 1] else [])
  }

  /** The Dirs whose parent is `p` (the roots when `p` is None), in the
      order the database lists them. */
  function Children(dirs: map<Id, Dir>, p: Option<Id>): (r: seq<Id>)
    ensures forall i :: 0 <= i < |r| ==> r[i] in dirs && dirs[r[i]].parent == p
  {
    ChildrenBelow(dirs, p, Bound(dirs))
  }

  lemma {:induction false} ChildrenBelowComplete(dirs: map<Id, Dir>, p: Option<Id>, n: nat, c: Id)
    requires c < n && c in dirs && dirs[c].parent == p
    ensures c in ChildrenBelow(dirs, p, n)
    decreases n
  {
    if c < n - 1 {
      ChildrenBelowComplete(dirs, p, n - 1, c);
    }
  }

  /** Every Dir whose parent is `p` is listed among the children of `p`. */
  lemma ChildrenComplete(dirs: map<Id, Dir>, p: Option<Id>, c: Id)
    requires c in dirs && dirs[c].parent == p
    ensures c in Children(dirs, p)
  {
    ChildrenBelowComplete(dirs, p, Bound(dirs), c);
  }

  lemma {:induction false} ChildrenBelowIncreasing(dirs: map<Id, Dir>, p: Option<Id>, n: nat)
    ensures Increasing(ChildrenBelow(dirs, p, n))
    decreases n
  {
    if n > 0 {
      ChildrenBelowIncreasing(dirs, p, n - 1);
      var front := ChildrenBelow(dirs, p, n - 1);
      var r := ChildrenBelow(dirs, p, n);
      forall i, j | 0 <= i < j < |r|
        ensures r[i] < r[j]
      {
        assert r[i] == front[i];
        if j < |front| {
          assert r[j] == front[j];
        }
      }
    }
  }

  /** The children are listed in ascending order of id, so each once. */
  lemma ChildrenInOrder(dirs: map<Id, Dir>, p: Option<Id>)
    ensures Increasing(Children(dirs, p))
  {
    ChildrenBelowIncreasing(dirs, p, Bound(dirs));
  }

  lemma {:induction false} ChildrenBelowAgree(a: map<Id, Dir>, b: map<Id, Dir>, p: Option<Id>, n: nat)
    requires forall k :: k < n ==> (k in a && a[k].parent == p <==> k in b && b[k].parent == p)
    ensures ChildrenBelow(a, p, n) == ChildrenBelow(b, p, n)
    decreases n
  {
    if n > 0 {
      ChildrenBelowAgree(a, b, p, n - 1);
    }
  }

  lemma {:induction false} ChildrenBelowAll(dirs: map<Id, Dir>, p: Option<Id>, n: nat)
    requires forall k :: k in dirs ==> k < n
    ensures ChildrenBelow(dirs, p, n) == Children(dirs, p)
    decreases n
  {
    if n > Bound(dirs) {
      assert n - 1 !in dirs;
      ChildrenBelowAll(dirs, p, n - 1);
    }
  }

  /** Two tables with the same Dirs under `p` list the same children of
      `p`, in the same order. */
  lemma ChildrenAgree(a: map<Id, Dir>, b: map<Id, Dir>, p: Option<Id>)
    requires forall k :: k in a && a[k].parent == p <==> k in b && b[k].parent == p
    ensures Children(a, p) == Children(b, p)
  {
    var n := if Bound(a) < Bound(b) then Bound(b) else Bound(a);
    ChildrenBelowAgree(a, b, p, n);
    ChildrenBelowAll(a, p, n);
    ChildrenBelowAll(b, p, n);
  }

  lemma PathIndex(dirs: map<Id, Dir>, x: Id, c: Id)
    requires Acyclic(dirs) && x in Subtree(dirs, c)
    ensures c in dirs
    ensures |Ancestors(dirs, c)| <= |Ancestors(dirs, x)|
    ensures (Ancestors(dirs, x) + [x])[|Ancestors(dirs, c)|] == c
  {
    var a := Ancestors(dirs, x);
    if x != c {
      var j :| 0 <= j < |a| && a[j] == c;
      AncestorAt(dirs, x, j);
      assert Ancestors(dirs, c) == a[..j];
    }
  }

  /** A Dir whose parent is in a subtree is in it too. */
  lemma ChildInSubtree(dirs: map<Id, Dir>, x: Id, d: Id)
    requires Acyclic(dirs) && x in dirs && dirs[x].parent.Some?
    requires dirs[x].parent.value in Subtree(dirs, d)
    ensures x in Subtree(dirs, d)
  {
    var p := dirs[x].parent.value;
    assert Ancestors(dirs, x) == Ancestors(dirs, p) + [p];
  }

  /** A child's subtree is strictly contained in its parent's, so it is
      smaller. */
  lemma SubtreeOfChild(dirs: map<Id, Dir>, c: Id)
    requires Acyclic(dirs) && c in dirs && dirs[c].parent.Some?
    ensures Subtree(dirs, c) < Subtree(dirs, dirs[c].parent.value)
    ensures dirs[c].parent.value !in Subtree(dirs, c)
    ensures Size(dirs, c) < Size(dirs, dirs[c].parent.value)
  {
    var d := dirs[c].parent.value;
    DepthOfParent(dirs, c);
    assert Ancestors(dirs, c) == Ancestors(dirs, d) + [d];
    forall x | x in Subtree(dirs, c)
      ensures x in Subtree(dirs, d)
    {
      PathIndex(dirs, x, c);
      var a := Ancestors(dirs, x);
      if x != c {
        var j :| 0 <= j < |a| && a[j] == c;
        AncestorAt(dirs, x, j);
        assert a[..j] == Ancestors(dirs, d) + [d];
        assert a[j - 1] == d;
      }
    }
    AncestorsDistinct(dirs, d);
    AncestorsPrefix(dirs, d);
    assert d != c;
    forall j | 0 <= j < |Ancestors(dirs, d)|
      ensures Ancestors(dirs, d)[j] != c
    {
      assert |Ancestors(dirs, Ancestors(dirs, d)[j])| == j;
    }
    assert d !in Subtree(dirs, c);
    StrictSubsetSmaller(Subtree(dirs, c), Subtree(dirs, d));
  }

  /** A child's subtree has fewer Dirs than its parent's: the step of every
      downward recursion. */
  lemma ChildSmaller(dirs: map<Id, Dir>, c: Id)
    requires Acyclic(dirs) && c in dirs && dirs[c].parent.Some?
    ensures Size(dirs, c) < Size(dirs, dirs[c].parent.value)
  {
    SubtreeOfChild(dirs, c);
  }

  lemma StrictSubsetSmaller(small: set<Id>, big: set<Id>)
    requires small < big
    ensures |small| < |big|
  {
    var extra := big - small;
    assert big == small + extra && small !! extra;
    assert extra != {};
  }

  /** Subtrees of two different Dirs with the same parent share no Dir. */
  lemma SiblingSubtreesDisjoint(dirs: map<Id, Dir>, c1: Id, c2: Id)
    requires Acyclic(dirs) && c1 in dirs && c2 in dirs && c1 != c2
    requires dirs[c1].parent == dirs[c2].parent
    ensures Subtree(dirs, c1) !! Subtree(dirs, c2)
  {
    if dirs[c1].parent.Some? {
      DepthOfParent(dirs, c1);
      DepthOfParent(dirs, c2);
    }
    assert |Ancestors(dirs, c1)| == |Ancestors(dirs, c2)|;
    forall x | x in Subtree(dirs, c1)
      ensures x !in Subtree(dirs, c2)
    {
      PathIndex(dirs, x, c1);
      if x in Subtree(dirs, c2) {
        PathIndex(dirs, x, c2);
        assert false;
      }
    }
  }

  /** The Dirs in the subtrees of the Dirs of `cs`. */
  ghost function SubtreesOf(dirs: map<Id, Dir>, cs: seq<Id>): set<Id>
    requires Acyclic(dirs)
  {
    if cs == [] then {}
    else SubtreesOf(dirs, cs[..|cs| - 1]) + Subtree(dirs, cs[|cs| - 1])
  }

  /** The subtrees of the first `i` Dirs of `cs` are those of the first
      `i - 1` and the subtree of the `i`-th. */
  lemma SubtreesOfLast(dirs: map<Id, Dir>, cs: seq<Id>, i: nat)
    requires Acyclic(dirs) && 0 < i <= |cs|
    ensures SubtreesOf(dirs, cs[..i]) == SubtreesOf(dirs, cs[..i - 1]) + Subtree(dirs, cs[i - 1])
  {
    assert cs[..i][..i - 1] == cs[..i - 1];
  }

  lemma {:induction false} SubtreesOfMember(dirs: map<Id, Dir>, cs: seq<Id>, x: Id)
    requires Acyclic(dirs)
    ensures x in SubtreesOf(dirs, cs) <==> exists i :: 0 <= i < |cs| && x in Subtree(dirs, cs[i])
  {
    if cs != [] {
      var init := cs[..|cs| - 1];
      SubtreesOfMember(dirs, init, x);
      if x in SubtreesOf(dirs, init) {
        var i :| 0 <= i < |init| && x in Subtree(dirs, init[i]);
        assert cs[i] == init[i];
      }
      if i :| 0 <= i < |cs| && x in Subtree(dirs, cs[i]) {
        if i < |cs| - 1 {
          assert init[i] == cs[i];
        }
      }
    }
  }

  /** A proper descendant of `d` lies in the subtree of one of `d`'s
      children. */
  lemma DescendantUnderChild(dirs: map<Id, Dir>, d: Id, x: Id) returns (c: Id)
    requires Acyclic(dirs) && d in dirs && x in Subtree(dirs, d) && x != d
    ensures c in dirs && dirs[c].parent == Some(d) && x in Subtree(dirs, c)
  {
    var a := Ancestors(dirs, x);
    PathIndex(dirs, x, d);
    var k := |Ancestors(dirs, d)|;
    c := (a + [x])[k + 1];
    if k + 1 < |a| {
      assert c == a[k + 1] && a[k] == d;
      AncestorAt(dirs, x, k + 1);
    } else {
      assert c == x && a[|a| - 1] == d;
    }
  }

  /** A subtree is its root together with the subtrees of the root's
      children, and the root is in none of those. */
  lemma SubtreeSplit(dirs: map<Id, Dir>, d: Id)
    requires Acyclic(dirs) && d in dirs
    ensures Subtree(dirs, d) == {d} + SubtreesOf(dirs, Children(dirs, Some(d)))
    ensures d !in SubtreesOf(dirs, Children(dirs, Some(d)))
  {
    var cs := Children(dirs, Some(d));
    forall x | x in Subtree(dirs, d) && x != d
      ensures x in SubtreesOf(dirs, cs)
    {
      var c := DescendantUnderChild(dirs, d, x);
      ChildrenComplete(dirs, Some(d), c);
      SubtreesOfMember(dirs, cs, x);
      assert x in Subtree(dirs, cs[IndexOf(cs, c)]);
    }
    forall x | x in SubtreesOf(dirs, cs)
      ensures x in Subtree(dirs, d) && x != d
    {
      SubtreesOfMember(dirs, cs, x);
      var i :| 0 <= i < |cs| && x in Subtree(dirs, cs[i]);
      SubtreeOfChild(dirs, cs[i]);
    }
  }

  function IndexOf(s: seq<Id>, x: Id): (i: nat)
    requires x in s
    ensures i < |s| && s[i] == x
  {
    if s[0] == x then 0 else 1 + IndexOf(s[1..], x)
  }

  /** The subtrees of the first k children avoid the subtree of the k-th. */
  lemma ChildSubtreesDisjoint(dirs: map<Id, Dir>, p: Option<Id>, k: nat)
    requires Acyclic(dirs) && k < |Children(dirs, p)|
    ensures SubtreesOf(dirs, Children(dirs, p)[..k]) !! Subtree(dirs, Children(dirs, p)[k])
  {
    var cs := Children(dirs, p);
    ChildrenInOrder(dirs, p);
    forall x | x in SubtreesOf(dirs, cs[..k])
      ensures x !in Subtree(dirs, cs[k])
    {
      SubtreesOfMember(dirs, cs[..k], x);
      var i :| 0 <= i < k && x in Subtree(dirs, cs[..k][i]);
      assert cs[..k][i] == cs[i] && cs[i] < cs[k];
      SiblingSubtreesDisjoint(dirs, cs[i], cs[k]);
    }
  }

  /** `small` is contained in `big`, entry for entry. */
  ghost predicate SubMap<V>(small: map<Id, V>, big: map<Id, V>) {
    forall k :: k in small ==> k in big && big[k] == small[k]
  }

  lemma {:induction false} HopsExtend(dirs: map<Id, Dir>, more: map<Id, Dir>, d: Id, n: nat)
    requires SubMap(dirs, more) && HopsToRoot(dirs, d, n)
    ensures HopsToRoot(more, d, n)
    decreases n
  {
    match dirs[d].parent
    case None =>
    case Some(p) => HopsExtend(dirs, more, p, n - 1);
  }

  /** Inserting a fresh Dir whose parent exists (or that is a root) keeps
      the forest acyclic. */
  lemma InsertKeepsAcyclic(dirs: map<Id, Dir>, id: Id, r: Dir)
    requires Acyclic(dirs) && id !in dirs
    requires r.parent.Some? ==> r.parent.value in dirs
    ensures Acyclic(dirs[id := r])
  {
    var more := dirs[id := r];
    forall d | d in more
      ensures exists n: nat :: HopsToRoot(more, d, n)
    {
      if d == id {
        if r.parent.Some? {
          var p := r.parent.value;
          HopsExtend(dirs, more, p, Depth(dirs, p));
          assert HopsToRoot(more, d, Depth(dirs, p) + 1);
        } else {
          assert HopsToRoot(more, d, 0);
        }
      } else {
        HopsExtend(dirs, more, d, Depth(dirs, d));
      }
    }
  }

  /** Dirs added to a forest, each under a Dir of smaller key, keep it
      acyclic: the copy of a subtree, whose rows are created parents first,
      is one such growth. */
  lemma GrowKeepsAcyclic(dirs: map<Id, Dir>, more: map<Id, Dir>)
    requires Acyclic(dirs) && SubMap(dirs, more)
    requires forall k :: k in more && k !in dirs && more[k].parent.Some? ==>
      more[k].parent.value in more && more[k].parent.value < k
    ensures Acyclic(more)
  {
    forall d | d in more
      ensures exists n: nat :: HopsToRoot(more, d, n)
    {
      var n := GrownHops(dirs, more, d);
    }
  }

  lemma {:induction false} GrownHops(dirs: map<Id, Dir>, more: map<Id, Dir>, d: Id) returns (n: nat)
    requires Acyclic(dirs) && SubMap(dirs, more) && d in more
    requires forall k :: k in more && k !in dirs && more[k].parent.Some? ==>
      more[k].parent.value in more && more[k].parent.value < k
    ensures HopsToRoot(more, d, n)
    decreases d
  {
    if d in dirs {
      n := Depth(dirs, d);
      HopsExtend(dirs, more, d, n);
    } else {
      match more[d].parent
      case None =>
        n := 0;
      case Some(q) =>
        var m := GrownHops(dirs, more, q);
        n := m + 1;
    }
  }

  /** A Dir of the subtree of `d` other than `d` has its parent in that
      subtree. */
  lemma ParentInSubtree(dirs: map<Id, Dir>, d: Id, x: Id)
    requires Acyclic(dirs) && x in Subtree(dirs, d) && x != d
    ensures dirs[x].parent.Some? && dirs[x].parent.value in Subtree(dirs, d)
  {
    var p := dirs[x].parent.value;
    assert Ancestors(dirs, x) == Ancestors(dirs, p) + [p];
  }

  lemma {:induction false} HopsRestrict(dirs: map<Id, Dir>, keep: map<Id, Dir>, x: Id, n: nat)
    requires SubMap(keep, dirs) && x in keep && HopsToRoot(dirs, x, n)
    requires forall k :: k in keep && keep[k].parent.Some? ==> keep[k].parent.value in keep
    ensures HopsToRoot(keep, x, n)
    decreases n
  {
    match keep[x].parent
    case None =>
    case Some(p) => HopsRestrict(dirs, keep, p, n - 1);
  }

  /** Dropping Dirs so that no remaining Dir points at a dropped one keeps
      the forest acyclic. */
  lemma RestrictKeepsAcyclic(dirs: map<Id, Dir>, keep: map<Id, Dir>)
    requires Acyclic(dirs) && SubMap(keep, dirs)
    requires forall k :: k in keep && keep[k].parent.Some? ==> keep[k].parent.value in keep
    ensures Acyclic(keep)
  {
    forall x | x in keep
      ensures exists n: nat :: HopsToRoot(keep, x, n)
    {
      HopsRestrict(dirs, keep, x, Depth(dirs, x));
    }
  }

  /** Two tables of Dirs with the same keys and the same parent pointers:
      they differ at most in display names. */
  ghost predicate SameParents(a: map<Id, Dir>, b: map<Id, Dir>) {
    a.Keys == b.Keys && forall k :: k in a ==> a[k].parent == b[k].parent
  }

  lemma {:induction false} HopsSameParents(a: map<Id, Dir>, b: map<Id, Dir>, x: Id, n: nat)
    requires SameParents(a, b) && HopsToRoot(a, x, n)
    ensures HopsToRoot(b, x, n)
    decreases n
  {
    match a[x].parent
    case None =>
    case Some(p) => HopsSameParents(a, b, p, n - 1);
  }

  lemma {:induction false} AncestorsSameParents(a: map<Id, Dir>, b: map<Id, Dir>, x: Id)
    requires Acyclic(a) && Acyclic(b) && SameParents(a, b) && x in a
    ensures Ancestors(b, x) == Ancestors(a, x)
    decreases Depth(a, x)
  {
    match a[x].parent
    case None =>
    case Some(p) =>
      DepthOfParent(a, x);
      AncestorsSameParents(a, b, p);
  }

  /** Tables with the same parent pointers have the same forest: the same
      ancestors and the same subtrees. */
  lemma SameParentsShape(a: map<Id, Dir>, b: map<Id, Dir>)
    requires Acyclic(a) && SameParents(a, b)
    ensures Acyclic(b)
    ensures forall x :: x in a ==> Ancestors(b, x) == Ancestors(a, x)
    ensures forall d :: Subtree(b, d) == Subtree(a, d)
  {
    forall x | x in b
      ensures exists n: nat :: HopsToRoot(b, x, n)
    {
      HopsSameParents(a, b, x, Depth(a, x));
    }
    forall x | x in a
      ensures Ancestors(b, x) == Ancestors(a, x)
    {
      AncestorsSameParents(a, b, x);
    }
  }

  /** Adding Dirs leaves the ancestors of the Dirs already there as they
      were. */
  lemma {:induction false} AncestorsExtend(dirs: map<Id, Dir>, more: map<Id, Dir>, x: Id)
    requires Acyclic(dirs) && Acyclic(more) && SubMap(dirs, more) && x in dirs
    ensures Ancestors(more, x) == Ancestors(dirs, x)
    decreases Depth(dirs, x)
  {
    match dirs[x].parent
    case None =>
    case Some(p) =>
      DepthOfParent(dirs, x);
      AncestorsExtend(dirs, more, p);
  }
}
