/** `get_filesystem` and its helper `get_tree`: the nested listing of the
    directory forest that every page renders. */
module Listing {
  import opened Wrappers
  import opened Models
  import opened Forest
  import opened Store
  import opened Sequences

  /** One entry of the listing: a directory with its nested entries, or a
      prompt. A prompt entry carries the id of the directory it sits in. */
  datatype Entry =
    | DirEntry(display: string, level: nat, id: Id, children: seq<Entry>)
    | PromptEntry(display: string, id: Id, level: nat)

  /** Specification of `get_tree(parent, level)`: one entry per child of
      `parent`, in the database's order, at `level`; each holds the tree of
      the child one level deeper followed by the child's prompts. */
  function TreeOf(dirs: map<Id, Dir>, prompts: map<Id, Prompt>, parent: Id, level: nat): seq<Entry>
    requires Acyclic(dirs) && parent in dirs
    decreases Size(dirs, parent)
  {
    var cs := Children(dirs, Some(parent));
    seq(|cs|, i requires 0 <= i < |cs| =>
      ChildSmaller(dirs, cs[i]);
      DirEntry(dirs[cs[i]].display, level, cs[i],
        TreeOf(dirs, prompts, cs[i], level + 1) + PromptEntries(prompts, PromptsIn(prompts, cs[i]), cs[i], level + 1)))
  }

  /** The entry `get_tree` builds for a non-root directory `d`. */
  function DirEntryOf(dirs: map<Id, Dir>, prompts: map<Id, Prompt>, d: Id, level: nat): Entry
    requires Acyclic(dirs) && d in dirs
  {
    DirEntry(dirs[d].display, level, d,
      TreeOf(dirs, prompts, d, level + 1) + PromptEntries(prompts, PromptsIn(prompts, d), d, level + 1))
  }

  /** Entries for the prompts `ps` of directory `d`; each carries `d`'s id. */
  function PromptEntries(prompts: map<Id, Prompt>, ps: seq<Id>, d: Id, level: nat): seq<Entry>
    requires forall i :: 0 <= i < |ps| ==> ps[i] in prompts
  {
    seq(|ps|, j requires 0 <= j < |ps| => PromptEntry(prompts[ps[j]].display, d, level))
  }

  lemma PromptEntriesAt(prompts: map<Id, Prompt>, ps: seq<Id>, d: Id, level: nat)
    requires forall i :: 0 <= i < |ps| ==> ps[i] in prompts
    ensures |PromptEntries(prompts, ps, d, level)| == |ps|
    ensures forall j :: 0 <= j < |ps| ==>
      PromptEntries(prompts, ps, d, level)[j] == PromptEntry(prompts[ps[j]].display, d, level)
  {
  }

  /** Specification of `get_filesystem`: one entry per root directory at
      level 0, holding only the tree of its sub-directories. */
  function Filesystem(dirs: map<Id, Dir>, prompts: map<Id, Prompt>): seq<Entry>
    requires Acyclic(dirs)
  {
    var roots := Children(dirs, None);
    seq(|roots|, i requires 0 <= i < |roots| =>
      DirEntry(dirs[roots[i]].display, 0, roots[i], TreeOf(dirs, prompts, roots[i], 1)))
  }

  /** Every nested entry sits one level below the directory entry holding it. */
  predicate Levelled(e: Entry) {
    match e
    case PromptEntry(_, _, _) => true
    case DirEntry(_, level, _, children) =>
      forall i :: 0 <= i < |children| ==> children[i].level == level + 1 && Levelled(children[i])
  }

  /** Every prompt entry carries the id of the directory entry holding it. */
  predicate PromptsCarryDirId(e: Entry) {
    match e
    case PromptEntry(_, _, _) => true
    case DirEntry(_, _, id, children) =>
      forall i :: 0 <= i < |children| ==>
        (children[i].PromptEntry? ==> children[i].id == id) && PromptsCarryDirId(children[i])
  }

  /** `get_tree(parent, level)` lists one directory entry per child of
      `parent`, in the database's order, each at `level` and carrying the
      child's id and display; none of them is a prompt entry. */
  lemma TreeOfShape(dirs: map<Id, Dir>, prompts: map<Id, Prompt>, parent: Id, level: nat)
    requires Acyclic(dirs) && parent in dirs
    ensures |TreeOf(dirs, prompts, parent, level)| == |Children(dirs, Some(parent))|
    ensures forall i :: 0 <= i < |Children(dirs, Some(parent))| ==>
      var e := TreeOf(dirs, prompts, parent, level)[i];
      var c := Children(dirs, Some(parent))[i];
      e == DirEntryOf(dirs, prompts, c, level) && e.DirEntry? && e.id == c && e.level == level
      && e.display == dirs[c].display && dirs[c].parent == Some(parent)
  {
  }

  /** The entry of a non-root directory lists its sub-directories first,
      one level deeper, in the database's order. */
  lemma DirEntrySubdirs(dirs: map<Id, Dir>, prompts: map<Id, Prompt>, d: Id, level: nat)
    requires Acyclic(dirs) && d in dirs
    ensures
      var e := DirEntryOf(dirs, prompts, d, level);
      var cs := Children(dirs, Some(d));
      && |cs| <= |e.children|
      && forall i :: 0 <= i < |cs| ==>
        e.children[i].DirEntry? && e.children[i].id == cs[i] && e.children[i].level == level + 1
  {
    var e := DirEntryOf(dirs, prompts, d, level);
    var t := TreeOf(dirs, prompts, d, level + 1);
    TreeOfShape(dirs, prompts, d, level + 1);
    forall i | 0 <= i < |t|
      ensures e.children[i] == t[i]
    {
    }
  }

  /** After its sub-directories, the entry of a non-root directory `d` holds
      one entry per prompt filed in `d`, one level deeper, showing the
      prompt's display but `d`'s id. */
  lemma DirEntryPrompts(dirs: map<Id, Dir>, prompts: map<Id, Prompt>, d: Id, level: nat)
    requires Acyclic(dirs) && d in dirs
    ensures
      var e := DirEntryOf(dirs, prompts, d, level);
      var n := |Children(dirs, Some(d))|;
      var ps := PromptsIn(prompts, d);
      && |e.children| == n + |ps|
      && forall j :: 0 <= j < |ps| ==> e.children[n + j] == PromptEntry(prompts[ps[j]].display, d, level + 1)
  {
    var e := DirEntryOf(dirs, prompts, d, level);
    var ps := PromptsIn(prompts, d);
    var t := TreeOf(dirs, prompts, d, level + 1);
    var pe := PromptEntries(prompts, ps, d, level + 1);
    assert e.children == t + pe;
    assert |t| == |Children(dirs, Some(d))|;
    PromptEntriesAt(prompts, ps, d, level + 1);
    forall j | 0 <= j < |ps|
      ensures e.children[|t| + j] == PromptEntry(prompts[ps[j]].display, d, level + 1)
    {
      assert e.children[|t| + j] == pe[j];
    }
  }

  /** A directory entry is well formed when its nested directory entries
      are well formed one level deeper and its prompt entries carry its id
      one level deeper. */
  lemma WellFormedOfParts(display: string, level: nat, id: Id, tree: seq<Entry>, pes: seq<Entry>)
    requires forall i :: 0 <= i < |tree| ==>
      tree[i].DirEntry? && tree[i].level == level + 1 && Levelled(tree[i]) && PromptsCarryDirId(tree[i])
    requires forall i :: 0 <= i < |pes| ==> pes[i].PromptEntry? && pes[i].id == id && pes[i].level == level + 1
    ensures Levelled(DirEntry(display, level, id, tree + pes))
    ensures PromptsCarryDirId(DirEntry(display, level, id, tree + pes))
  {
    var cs := tree + pes;
    forall i | 0 <= i < |cs|
      ensures cs[i].level == level + 1 && Levelled(cs[i])
      ensures (cs[i].PromptEntry? ==> cs[i].id == id) && PromptsCarryDirId(cs[i])
    {
      if i < |tree| {
        assert cs[i] == tree[i];
      } else {
        assert cs[i] == pes[i - |tree|];
      }
    }
  }

  /** Every entry of `get_tree(parent, level)` sits at `level`, every entry
      nested in it one level below its directory entry, and every prompt
      entry carries the id of the directory holding it. */
  lemma {:induction false} TreeWellFormed(dirs: map<Id, Dir>, prompts: map<Id, Prompt>, parent: Id, level: nat)
    requires Acyclic(dirs) && parent in dirs
    ensures forall i :: 0 <= i < |TreeOf(dirs, prompts, parent, level)| ==>
      var e := TreeOf(dirs, prompts, parent, level)[i];
      e.DirEntry? && e.level == level && Levelled(e) && PromptsCarryDirId(e)
    decreases Size(dirs, parent)
  {
    var t := TreeOf(dirs, prompts, parent, level);
    var cs := Children(dirs, Some(parent));
    forall i | 0 <= i < |t|
      ensures t[i].DirEntry? && t[i].level == level && Levelled(t[i]) && PromptsCarryDirId(t[i])
    {
      var c := cs[i];
      ChildSmaller(dirs, c);
      TreeWellFormed(dirs, prompts, c, level + 1);
      WellFormedOfParts(dirs[c].display, level, c,
        TreeOf(dirs, prompts, c, level + 1), PromptEntries(prompts, PromptsIn(prompts, c), c, level + 1));
    }
  }

  /** `get_filesystem` lists one entry per root directory, in the database's
      order, at level 0 with the root's id and display. Below a root entry
      there are directory entries only: prompts filed directly in a root are
      not listed. */
  lemma FilesystemShape(dirs: map<Id, Dir>, prompts: map<Id, Prompt>)
    requires Acyclic(dirs)
    ensures |Filesystem(dirs, prompts)| == |Children(dirs, None)|
    ensures forall i :: 0 <= i < |Children(dirs, None)| ==>
      var e := Filesystem(dirs, prompts)[i];
      var r := Children(dirs, None)[i];
      && e.DirEntry? && e.id == r && e.level == 0 && e.display == dirs[r].display
      && dirs[r].parent.None?
      && (forall k :: 0 <= k < |e.children| ==> e.children[k].DirEntry?)
  {
    var roots := Children(dirs, None);
    forall i | 0 <= i < |roots| {
      TreeOfShape(dirs, prompts, roots[i], 1);
    }
  }

  /** Every entry of the listing is well formed: a nested entry sits one
      level below its directory entry, and a prompt entry carries its
      directory's id. */
  lemma FilesystemWellFormed(dirs: map<Id, Dir>, prompts: map<Id, Prompt>)
    requires Acyclic(dirs)
    ensures forall i :: 0 <= i < |Filesystem(dirs, prompts)| ==>
      Levelled(Filesystem(dirs, prompts)[i]) && PromptsCarryDirId(Filesystem(dirs, prompts)[i])
  {
    var fs := Filesystem(dirs, prompts);
    var roots := Children(dirs, None);
    forall i | 0 <= i < |fs|
      ensures Levelled(fs[i]) && PromptsCarryDirId(fs[i])
    {
      TreeWellFormed(dirs, prompts, roots[i], 1);
      WellFormedOfParts(dirs[roots[i]].display, 0, roots[i], TreeOf(dirs, prompts, roots[i], 1), []);
      assert TreeOf(dirs, prompts, roots[i], 1) + [] == TreeOf(dirs, prompts, roots[i], 1);
    }
  }

  // ---------------------------------------------------------------------
  // The views' code

  /** `get_tree(parent, level)`, reading the Dir and Prompt tables. */
  method GetTree(dirs: map<Id, Dir>, prompts: map<Id, Prompt>, parent: Id, level: nat)
    returns (tree: seq<Entry>)
    requires Acyclic(dirs) && parent in dirs
    ensures tree == TreeOf(dirs, prompts, parent, level)
    decreases Size(dirs, parent), 0
  {
    tree := [];
    var ds := Children(dirs, Some(parent));
    ghost var spec := TreeOf(dirs, prompts, parent, level);
    TreeOfShape(dirs, prompts, parent, level);
    var i := 0;
    while i < |ds|
      invariant 0 <= i <= |ds| && |spec| == |ds|
      invariant tree == spec[..i]
    {
      ChildSmaller(dirs, ds[i]);
      var entry := GetDirEntry(dirs, prompts, ds[i], level);
      TakeSnoc(spec, i);
      tree := tree + [entry];
      i := i + 1;
    }
    assert spec[..i] == spec;
  }

  /** The body of `get_tree`'s loop for one sub-directory `d`: its entry,
      holding the tree below it and then its prompts. */
  method GetDirEntry(dirs: map<Id, Dir>, prompts: map<Id, Prompt>, d: Id, level: nat)
    returns (entry: Entry)
    requires Acyclic(dirs) && d in dirs
    ensures entry == DirEntryOf(dirs, prompts, d, level)
    decreases Size(dirs, d), 1
  {
    var children := GetTree(dirs, prompts, d, level + 1);
    children := AppendPromptEntries(prompts, PromptsIn(prompts, d), d, level + 1, children);
    entry := DirEntry(dirs[d].display, level, d, children);
  }

  /** The inner loop of `get_tree`: append an entry for each prompt of `ps`
      (the prompts filed in `d`) to the entry list of `d`. */
  method AppendPromptEntries(prompts: map<Id, Prompt>, ps: seq<Id>, d: Id, level: nat, children: seq<Entry>)
    returns (r: seq<Entry>)
    requires forall k :: 0 <= k < |ps| ==> ps[k] in prompts
    ensures r == children + PromptEntries(prompts, ps, d, level)
  {
    ghost var spec := PromptEntries(prompts, ps, d, level);
    r := children;
    var j := 0;
    while j < |ps|
      invariant 0 <= j <= |ps|
      invariant r == children + spec[..j]
    {
      TakeSnoc(spec, j);
      r := r + [PromptEntry(prompts[ps[j]].display, d, level)];
      j := j + 1;
    }
    assert spec[..j] == spec;
  }

  /** `get_filesystem()`. */
  method GetFilesystem(db: Db) returns (tree: seq<Entry>)
    requires Acyclic(db.dirs)
    ensures tree == Filesystem(db.dirs, db.prompts)
  {
    var dirs, prompts := db.dirs, db.prompts;
    tree := [];
    var roots := Children(dirs, None);
    ghost var spec := Filesystem(dirs, prompts);
    var i := 0;
    while i < |roots|
      invariant 0 <= i <= |roots| && |spec| == |roots|
      invariant tree == spec[..i]
    {
      var r := roots[i];
      var children := GetTree(dirs, prompts, r, 1);
      TakeSnoc(spec, i);
      tree := tree + [DirEntry(dirs[r].display, 0, r, children)];
      i := i + 1;
    }
    assert spec[..i] == spec;
  }
}
