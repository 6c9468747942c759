/** The plan of a copy: what `copy_directory` reads of a subtree before it
    writes, and the keys its rows will take. */
module CopyPlan {
  import opened Wrappers
  import opened Models
  import opened Forest
  import opened Store
  import Ordering

  /** The three tables at one moment, and the counter the next key is
      drawn from. */
  datatype Tables = Tables(dirs: map<Id, Dir>, prompts: map<Id, Prompt>, aimodels: map<Id, AIModel>, next: nat)

  function TablesOf(db: Db): Tables
    reads db
  {
    Tables(db.dirs, db.prompts, db.aimodels, db.next)
  }

  /** `Dir.objects.create(...)`, `Prompt.objects.create(...)` and
      `AIModel.objects.create(...)` on the tables: the row takes the next
      key. */
  function AddDir(t: Tables, row: Dir): Tables {
    t.(dirs := t.dirs[t.next := row], next := t.next + 1)
  }

  function AddPrompt(t: Tables, row: Prompt): Tables {
    t.(prompts := t.prompts[t.next := row], next := t.next + 1)
  }

  function AddAIModel(t: Tables, row: AIModel): Tables {
    t.(aimodels := t.aimodels[t.next := row], next := t.next + 1)
  }

  /** What `copy_directory` reads about one Dir before it writes anything
      for it: the Dir's key, the keys of its prompts and of its AI models in
      the order the queries list them, and the same for each child, in
      order. */
  datatype Plan = Plan(dir: Id, prompts: seq<Id>, aimodels: seq<Id>, kids: seq<Plan>)

  /** The row at key `k`, or a blank row when there is none. The copy only
      reads keys the queries returned, so the blank row never matters. */
  function DirAt(src: Tables, k: Id): Dir {
    if k in src.dirs then src.dirs[k] else Dir(None, "")
  }

  function PromptAt(src: Tables, k: Id): Prompt {
    if k in src.prompts then src.prompts[k] else Prompt("", "", None, {}, {})
  }

  function AIModelAt(src: Tables, k: Id): AIModel {
    if k in src.aimodels then src.aimodels[k] else AIModel("", None, "", None)
  }

  /** The first `j` elements of `s`, as a set. */
  ghost function Prefix(s: seq<Id>, j: nat): set<Id>
    requires j <= |s|
  {
    if j == 0 then {} else Prefix(s, j - 1) + {s[j - 1]}
  }

  lemma {:induction false} PrefixMembers(s: seq<Id>, j: nat, x: Id)
    requires j <= |s|
    ensures x in Prefix(s, j) <==> exists i :: 0 <= i < j && s[i] == x
  {
    if j > 0 {
      PrefixMembers(s, j - 1, x);
      if x == s[j - 1] {
        assert exists i :: 0 <= i < j && s[i] == x;
      }
    }
  }

  /** In an increasing list, the next element is not among those before it. */
  lemma PrefixFresh(s: seq<Id>, j: nat)
    requires j < |s| && Ordering.Increasing(s)
    ensures s[j] !in Prefix(s, j)
  {
    PrefixMembers(s, j, s[j]);
  }

  /** Every key of the tables `t` was drawn from the counter. */
  ghost predicate Below(t: Tables) {
    && (forall k :: k in t.dirs ==> k < t.next)
    && (forall k :: k in t.prompts ==> k < t.next)
    && (forall k :: k in t.aimodels ==> k < t.next)
  }

  // ---------------------------------------------------------------------
  // What a plan covers

  /** How many rows the copy creates, so how many keys it draws. */
  ghost function Count(p: Plan): nat
    decreases p, 1
  {
    1 + |p.prompts| + |p.aimodels| + KidsCount(p, |p.kids|)
  }

  ghost function KidsCount(p: Plan, i: nat): nat
    requires i <= |p.kids|
    decreases p, 0, i
  {
    if i == 0 then 0 else KidsCount(p, i - 1) + Count(p.kids[i - 1])
  }

  /** The Dirs the plan visits. */
  ghost function Dirs(p: Plan): set<Id>
    decreases p, 1
  {
    {p.dir} + KidsDirs(p, |p.kids|)
  }

  ghost function KidsDirs(p: Plan, i: nat): set<Id>
    requires i <= |p.kids|
    decreases p, 0, i
  {
    if i == 0 then {} else KidsDirs(p, i - 1) + Dirs(p.kids[i - 1])
  }

  /** The prompts the plan copies. */
  ghost function Prompts(p: Plan): set<Id>
    decreases p, 1
  {
    Prefix(p.prompts, |p.prompts|) + KidsPrompts(p, |p.kids|)
  }

  ghost function KidsPrompts(p: Plan, i: nat): set<Id>
    requires i <= |p.kids|
    decreases p, 0, i
  {
    if i == 0 then {} else KidsPrompts(p, i - 1) + Prompts(p.kids[i - 1])
  }

  /** The AI models the plan copies. */
  ghost function AIModels(p: Plan): set<Id>
    decreases p, 1
  {
    Prefix(p.aimodels, |p.aimodels|) + KidsAIModels(p, |p.kids|)
  }

  ghost function KidsAIModels(p: Plan, i: nat): set<Id>
    requires i <= |p.kids|
    decreases p, 0, i
  {
    if i == 0 then {} else KidsAIModels(p, i - 1) + AIModels(p.kids[i - 1])
  }

  /** No row occurs twice in the plan: each query lists keys in increasing
      order, and different parts of the plan share no row. */
  ghost predicate Apart(p: Plan)
    decreases p, 1
  {
    && Ordering.Increasing(p.prompts) && Ordering.Increasing(p.aimodels)
    && p.dir !in KidsDirs(p, |p.kids|)
    && Prefix(p.prompts, |p.prompts|) * KidsPrompts(p, |p.kids|) == {}
    && Prefix(p.aimodels, |p.aimodels|) * KidsAIModels(p, |p.kids|) == {}
    && KidsApart(p, |p.kids|)
  }

  ghost predicate KidsApart(p: Plan, i: nat)
    requires i <= |p.kids|
    decreases p, 0, i
  {
    i == 0 ||
    (&& KidsApart(p, i - 1) && Apart(p.kids[i - 1])
     && KidsDirs(p, i - 1) * Dirs(p.kids[i - 1]) == {}
     && KidsPrompts(p, i - 1) * Prompts(p.kids[i - 1]) == {}
     && KidsAIModels(p, i - 1) * AIModels(p.kids[i - 1]) == {})
  }

  /** One more child that is apart from those before it keeps the
      children apart. */
  lemma KidsApartStep(p: Plan, i: nat)
    requires i < |p.kids| && KidsApart(p, i) && Apart(p.kids[i])
    requires KidsDirs(p, i) * Dirs(p.kids[i]) == {}
    requires KidsPrompts(p, i) * Prompts(p.kids[i]) == {}
    requires KidsAIModels(p, i) * AIModels(p.kids[i]) == {}
    ensures KidsApart(p, i + 1)
  {
  }

  /** The Dirs of the first `i + 1` children number those of the first
      `i` and those of child `i` together, when the two share none. */
  lemma KidsDirsCount(p: Plan, i: nat)
    requires i < |p.kids| && KidsDirs(p, i) * Dirs(p.kids[i]) == {}
    ensures |KidsDirs(p, i + 1)| == |KidsDirs(p, i)| + |Dirs(p.kids[i])|
  {
  }

  /** A plan visits its own Dir and those of its children. */
  lemma DirsCount(p: Plan)
    requires p.dir !in KidsDirs(p, |p.kids|)
    ensures |Dirs(p)| == 1 + |KidsDirs(p, |p.kids|)|
  {
  }

  /** The plan agrees with the tables `src`: its Dir exists, its prompts
      and AI models are filed in it, and each child's Dir has it as parent. */
  ghost predicate Matches(src: Tables, p: Plan)
    decreases p, 1
  {
    && p.dir in src.dirs
    && (forall k :: k in p.prompts ==> k in src.prompts && src.prompts[k].dir == Some(p.dir))
    && (forall k :: k in p.aimodels ==> k in src.aimodels && src.aimodels[k].dir == Some(p.dir))
    && KidsMatch(src, p, |p.kids|)
  }

  ghost predicate KidsMatch(src: Tables, p: Plan, i: nat)
    requires i <= |p.kids|
    decreases p, 0, i
  {
    i == 0 ||
    (&& KidsMatch(src, p, i - 1) && Matches(src, p.kids[i - 1])
     && src.dirs[p.kids[i - 1].dir].parent == Some(p.dir))
  }

  // ---------------------------------------------------------------------
  // Which original row each new row is copied from

  /** `m` gives each key of `keys` its own new key, drawn from `lo` up to
      `hi`. */
  ghost predicate FreshKeys(m: map<Id, Id>, keys: set<Id>, lo: nat, hi: nat) {
    && m.Keys == keys
    && (forall x :: x in m ==> lo <= m[x] < hi)
  }

  /** The keys `ks[..j]` renamed to `base`, `base + 1`, ... in order. */
  ghost function OwnRenamed(ks: seq<Id>, j: nat, base: nat): map<Id, Id>
    requires j <= |ks|
  {
    if j == 0 then map[] else OwnRenamed(ks, j - 1, base)[ks[j - 1] := base + (j - 1)]
  }

  lemma OwnRenamedNext(ks: seq<Id>, j: nat, base: nat, key: nat)
    requires j < |ks| && key == base + j
    ensures OwnRenamed(ks, j + 1, base) == OwnRenamed(ks, j, base)[ks[j] := key]
  {
  }

  /** The key of the copy of each Dir of the plan, when the copy starts
      drawing keys at `base`. */
  ghost function DirsRenamed(p: Plan, base: nat): map<Id, Id>
    decreases p, 1
  {
    map[p.dir := base] + KidsDirsRenamed(p, |p.kids|, base + 1 + |p.prompts| + |p.aimodels|)
  }

  ghost function KidsDirsRenamed(p: Plan, i: nat, base: nat): map<Id, Id>
    requires i <= |p.kids|
    decreases p, 0, i
  {
    if i == 0 then map[]
    else KidsDirsRenamed(p, i - 1, base) + DirsRenamed(p.kids[i - 1], base + KidsCount(p, i - 1))
  }

  /** The key of the copy of each prompt of the plan. */
  ghost function PromptsRenamed(p: Plan, base: nat): map<Id, Id>
    decreases p, 1
  {
    OwnRenamed(p.prompts, |p.prompts|, base + 1)
      + KidsPromptsRenamed(p, |p.kids|, base + 1 + |p.prompts| + |p.aimodels|)
  }

  ghost function KidsPromptsRenamed(p: Plan, i: nat, base: nat): map<Id, Id>
    requires i <= |p.kids|
    decreases p, 0, i
  {
    if i == 0 then map[]
    else KidsPromptsRenamed(p, i - 1, base) + PromptsRenamed(p.kids[i - 1], base + KidsCount(p, i - 1))
  }

  /** The key of the copy of each AI model of the plan. */
  ghost function AIModelsRenamed(p: Plan, base: nat): map<Id, Id>
    decreases p, 1
  {
    OwnRenamed(p.aimodels, |p.aimodels|, base + 1 + |p.prompts|)
      + KidsAIModelsRenamed(p, |p.kids|, base + 1 + |p.prompts| + |p.aimodels|)
  }

  ghost function KidsAIModelsRenamed(p: Plan, i: nat, base: nat): map<Id, Id>
    requires i <= |p.kids|
    decreases p, 0, i
  {
    if i == 0 then map[]
    else KidsAIModelsRenamed(p, i - 1, base) + AIModelsRenamed(p.kids[i - 1], base + KidsCount(p, i - 1))
  }

  lemma SingleFresh(d: Id, base: nat, hi: nat)
    requires base < hi
    ensures FreshKeys(map[d := base], {d}, base, hi)
  {
  }

  lemma FreshKeysAdd(m: map<Id, Id>, keys: set<Id>, lo: nat, hi: nat, k: Id)
    requires FreshKeys(m, keys, lo, hi) && lo <= hi
    ensures FreshKeys(m[k := hi], keys + {k}, lo, hi + 1)
  {
  }

  lemma FreshKeysWithin(m: map<Id, Id>, keys: set<Id>, lo: nat, hi: nat, lo': nat, hi': nat)
    requires FreshKeys(m, keys, lo, hi) && lo' <= lo && hi <= hi'
    ensures FreshKeys(m, keys, lo', hi')
  {
  }

  /** Two renamings into consecutive ranges of keys together rename the
      union of their keys. */
  lemma FreshKeysUnion(m1: map<Id, Id>, k1: set<Id>, m2: map<Id, Id>, k2: set<Id>, lo: nat, mid: nat, hi: nat)
    requires FreshKeys(m1, k1, lo, mid) && FreshKeys(m2, k2, mid, hi) && lo <= mid <= hi
    ensures FreshKeys(m1 + m2, k1 + k2, lo, hi)
  {
  }

  lemma {:induction false} OwnRenamedFresh(ks: seq<Id>, j: nat, base: nat)
    requires j <= |ks|
    ensures FreshKeys(OwnRenamed(ks, j, base), Prefix(ks, j), base, base + j)
  {
    if j > 0 {
      OwnRenamedFresh(ks, j - 1, base);
      FreshKeysAdd(OwnRenamed(ks, j - 1, base), Prefix(ks, j - 1), base, base + (j - 1), ks[j - 1]);
    }
  }

  /** Each Dir of the plan gets its own key, drawn from the `Count(p)` keys
      from `base` on. */
  lemma {:induction false} TreeDirsFresh(p: Plan, base: nat)
    ensures FreshKeys(DirsRenamed(p, base), Dirs(p), base, base + Count(p))
    decreases p, 1
  {
    var b1 := base + 1 + |p.prompts| + |p.aimodels|;
    KidsDirsFresh(p, |p.kids|, b1);
    SingleFresh(p.dir, base, b1);
    FreshKeysUnion(map[p.dir := base], {p.dir}, KidsDirsRenamed(p, |p.kids|, b1), KidsDirs(p, |p.kids|),
      base, b1, base + Count(p));
  }

  lemma {:induction false} KidsDirsFresh(p: Plan, i: nat, base: nat)
    requires i <= |p.kids|
    ensures FreshKeys(KidsDirsRenamed(p, i, base), KidsDirs(p, i), base, base + KidsCount(p, i))
    decreases p, 0, i
  {
    if i > 0 {
      KidsDirsFresh(p, i - 1, base);
      TreeDirsFresh(p.kids[i - 1], base + KidsCount(p, i - 1));
      FreshKeysUnion(KidsDirsRenamed(p, i - 1, base), KidsDirs(p, i - 1),
        DirsRenamed(p.kids[i - 1], base + KidsCount(p, i - 1)), Dirs(p.kids[i - 1]),
        base, base + KidsCount(p, i - 1), base + KidsCount(p, i));
    }
  }

  /** Each prompt of the plan gets its own key, drawn from the keys of the
      copy. */
  lemma {:induction false} TreePromptsFresh(p: Plan, base: nat)
    ensures FreshKeys(PromptsRenamed(p, base), Prompts(p), base, base + Count(p))
    decreases p, 1
  {
    var b1 := base + 1 + |p.prompts| + |p.aimodels|;
    OwnRenamedFresh(p.prompts, |p.prompts|, base + 1);
    FreshKeysWithin(OwnRenamed(p.prompts, |p.prompts|, base + 1), Prefix(p.prompts, |p.prompts|),
      base + 1, base + 1 + |p.prompts|, base, b1);
    KidsPromptsFresh(p, |p.kids|, b1);
    FreshKeysUnion(OwnRenamed(p.prompts, |p.prompts|, base + 1), Prefix(p.prompts, |p.prompts|),
      KidsPromptsRenamed(p, |p.kids|, b1), KidsPrompts(p, |p.kids|), base, b1, base + Count(p));
  }

  lemma {:induction false} KidsPromptsFresh(p: Plan, i: nat, base: nat)
    requires i <= |p.kids|
    ensures FreshKeys(KidsPromptsRenamed(p, i, base), KidsPrompts(p, i), base, base + KidsCount(p, i))
    decreases p, 0, i
  {
    if i > 0 {
      KidsPromptsFresh(p, i - 1, base);
      TreePromptsFresh(p.kids[i - 1], base + KidsCount(p, i - 1));
      FreshKeysUnion(KidsPromptsRenamed(p, i - 1, base), KidsPrompts(p, i - 1),
        PromptsRenamed(p.kids[i - 1], base + KidsCount(p, i - 1)), Prompts(p.kids[i - 1]),
        base, base + KidsCount(p, i - 1), base + KidsCount(p, i));
    }
  }

  /** Each AI model of the plan gets its own key, drawn from the keys of
      the copy. */
  lemma {:induction false} TreeAIModelsFresh(p: Plan, base: nat)
    ensures FreshKeys(AIModelsRenamed(p, base), AIModels(p), base, base + Count(p))
    decreases p, 1
  {
    var b0 := base + 1 + |p.prompts|;
    var b1 := b0 + |p.aimodels|;
    OwnRenamedFresh(p.aimodels, |p.aimodels|, b0);
    FreshKeysWithin(OwnRenamed(p.aimodels, |p.aimodels|, b0), Prefix(p.aimodels, |p.aimodels|), b0, b1, base, b1);
    KidsAIModelsFresh(p, |p.kids|, b1);
    FreshKeysUnion(OwnRenamed(p.aimodels, |p.aimodels|, b0), Prefix(p.aimodels, |p.aimodels|),
      KidsAIModelsRenamed(p, |p.kids|, b1), KidsAIModels(p, |p.kids|), base, b1, base + Count(p));
  }

  lemma {:induction false} KidsAIModelsFresh(p: Plan, i: nat, base: nat)
    requires i <= |p.kids|
    ensures FreshKeys(KidsAIModelsRenamed(p, i, base), KidsAIModels(p, i), base, base + KidsCount(p, i))
    decreases p, 0, i
  {
    if i > 0 {
      KidsAIModelsFresh(p, i - 1, base);
      TreeAIModelsFresh(p.kids[i - 1], base + KidsCount(p, i - 1));
      FreshKeysUnion(KidsAIModelsRenamed(p, i - 1, base), KidsAIModels(p, i - 1),
        AIModelsRenamed(p.kids[i - 1], base + KidsCount(p, i - 1)), AIModels(p.kids[i - 1]),
        base, base + KidsCount(p, i - 1), base + KidsCount(p, i));
    }
  }


  /** No two keys are renamed to the same key. */
  ghost predicate Distinct(m: map<Id, Id>) {
    forall x, y :: x in m && y in m && x != y ==> m[x] != m[y]
  }

  lemma ValuesAdd(m: map<Id, Id>, k: Id, v: Id)
    requires k !in m
    ensures m[k := v].Values == m.Values + {v}
  {
    forall w | w in m.Values
      ensures w in m[k := v].Values
    {
      var x :| x in m && m[x] == w;
      assert m[k := v][x] == w;
    }
    assert m[k := v][k] == v;
  }

  /** A renaming that keeps keys apart hands out as many keys as it
      renames. */
  lemma {:induction false} DistinctCount(m: map<Id, Id>)
    requires Distinct(m)
    ensures |m.Values| == |m.Keys|
    decreases |m.Keys|
  {
    if m.Keys != {} {
      var k :| k in m.Keys;
      var rest := m - {k};
      assert rest.Keys == m.Keys - {k};
      DistinctCount(rest);
      assert m == rest[k := m[k]];
      ValuesAdd(rest, k, m[k]);
      assert m[k] !in rest.Values;
    }
  }

  /** Old keys and the fresh keys of a renaming that keeps keys apart
      number as many as the old keys and the renamed ones. */
  lemma AddedCount(before: set<Id>, m: map<Id, Id>)
    requires Distinct(m) && forall x :: x in m ==> m[x] !in before
    ensures |before + m.Values| == |before| + |m.Keys|
  {
    DistinctCount(m);
    assert before * m.Values == {};
  }

  /** A subset as large as its superset is the superset. */
  lemma SubsetSameSize(a: set<Id>, b: set<Id>)
    requires a <= b && |a| == |b|
    ensures a == b
  {
    assert |b - a| == 0;
  }

  /** The keys from `lo` up to (not including) `hi`. */
  ghost function KeyRange(lo: nat, hi: nat): (r: set<Id>)
    ensures forall k :: k in r <==> lo <= k < hi
    ensures lo <= hi ==> |r| == hi - lo
    decreases hi
  {
    if hi <= lo then {} else KeyRange(lo, hi - 1) + {hi - 1}
  }

  /** Three disjoint sets of keys from a range, as many keys together as
      the range holds, fill it. */
  lemma FillRange(a: set<Id>, b: set<Id>, c: set<Id>, lo: nat, hi: nat)
    requires lo <= hi && a + b + c <= KeyRange(lo, hi)
    requires a * b == {} && a * c == {} && b * c == {}
    requires |a| + |b| + |c| == hi - lo
    ensures a + b + c == KeyRange(lo, hi)
  {
    assert |a + b| == |a| + |b|;
    assert (a + b) * c == {};
    SubsetSameSize(a + b + c, KeyRange(lo, hi));
  }

  lemma DistinctUnion(m1: map<Id, Id>, m2: map<Id, Id>, lo: nat, mid: nat, hi: nat)
    requires Distinct(m1) && Distinct(m2)
    requires FreshKeys(m1, m1.Keys, lo, mid) && FreshKeys(m2, m2.Keys, mid, hi)
    ensures Distinct(m1 + m2)
  {
  }

  lemma {:induction false} OwnRenamedDistinct(ks: seq<Id>, j: nat, base: nat)
    requires j <= |ks|
    ensures Distinct(OwnRenamed(ks, j, base))
  {
    if j > 0 {
      OwnRenamedDistinct(ks, j - 1, base);
      OwnRenamedFresh(ks, j - 1, base);
    }
  }

  /** The copies of different Dirs of the plan are different Dirs. */
  lemma {:induction false} TreeDirsDistinct(p: Plan, base: nat)
    ensures Distinct(DirsRenamed(p, base))
    decreases p, 1
  {
    var b1 := base + 1 + |p.prompts| + |p.aimodels|;
    KidsDirsDistinct(p, |p.kids|, b1);
    KidsDirsFresh(p, |p.kids|, b1);
    DistinctUnion(map[p.dir := base], KidsDirsRenamed(p, |p.kids|, b1), base, b1, b1 + KidsCount(p, |p.kids|));
  }

  lemma {:induction false} KidsDirsDistinct(p: Plan, i: nat, base: nat)
    requires i <= |p.kids|
    ensures Distinct(KidsDirsRenamed(p, i, base))
    decreases p, 0, i
  {
    if i > 0 {
      var mid := base + KidsCount(p, i - 1);
      KidsDirsDistinct(p, i - 1, base);
      KidsDirsFresh(p, i - 1, base);
      TreeDirsDistinct(p.kids[i - 1], mid);
      TreeDirsFresh(p.kids[i - 1], mid);
      DistinctUnion(KidsDirsRenamed(p, i - 1, base), DirsRenamed(p.kids[i - 1], mid), base, mid, mid + Count(p.kids[i - 1]));
    }
  }

  /** The copies of different prompts of the plan are different rows. */
  lemma {:induction false} TreePromptsDistinct(p: Plan, base: nat)
    ensures Distinct(PromptsRenamed(p, base))
    decreases p, 1
  {
    var b1 := base + 1 + |p.prompts| + |p.aimodels|;
    var own := OwnRenamed(p.prompts, |p.prompts|, base + 1);
    OwnRenamedDistinct(p.prompts, |p.prompts|, base + 1);
    OwnRenamedFresh(p.prompts, |p.prompts|, base + 1);
    FreshKeysWithin(own, Prefix(p.prompts, |p.prompts|), base + 1, base + 1 + |p.prompts|, base + 1, b1);
    KidsPromptsDistinct(p, |p.kids|, b1);
    KidsPromptsFresh(p, |p.kids|, b1);
    DistinctUnion(own, KidsPromptsRenamed(p, |p.kids|, b1), base + 1, b1, b1 + KidsCount(p, |p.kids|));
  }

  lemma {:induction false} KidsPromptsDistinct(p: Plan, i: nat, base: nat)
    requires i <= |p.kids|
    ensures Distinct(KidsPromptsRenamed(p, i, base))
    decreases p, 0, i
  {
    if i > 0 {
      var mid := base + KidsCount(p, i - 1);
      KidsPromptsDistinct(p, i - 1, base);
      KidsPromptsFresh(p, i - 1, base);
      TreePromptsDistinct(p.kids[i - 1], mid);
      TreePromptsFresh(p.kids[i - 1], mid);
      DistinctUnion(KidsPromptsRenamed(p, i - 1, base), PromptsRenamed(p.kids[i - 1], mid), base, mid, mid + Count(p.kids[i - 1]));
    }
  }

  /** The copies of different AI models of the plan are different rows. */
  lemma {:induction false} TreeAIModelsDistinct(p: Plan, base: nat)
    ensures Distinct(AIModelsRenamed(p, base))
    decreases p, 1
  {
    var b0 := base + 1 + |p.prompts|;
    var b1 := b0 + |p.aimodels|;
    var own := OwnRenamed(p.aimodels, |p.aimodels|, b0);
    OwnRenamedDistinct(p.aimodels, |p.aimodels|, b0);
    OwnRenamedFresh(p.aimodels, |p.aimodels|, b0);
    KidsAIModelsDistinct(p, |p.kids|, b1);
    KidsAIModelsFresh(p, |p.kids|, b1);
    DistinctUnion(own, KidsAIModelsRenamed(p, |p.kids|, b1), b0, b1, b1 + KidsCount(p, |p.kids|));
  }

  lemma {:induction false} KidsAIModelsDistinct(p: Plan, i: nat, base: nat)
    requires i <= |p.kids|
    ensures Distinct(KidsAIModelsRenamed(p, i, base))
    decreases p, 0, i
  {
    if i > 0 {
      var mid := base + KidsCount(p, i - 1);
      KidsAIModelsDistinct(p, i - 1, base);
      KidsAIModelsFresh(p, i - 1, base);
      TreeAIModelsDistinct(p.kids[i - 1], mid);
      TreeAIModelsFresh(p.kids[i - 1], mid);
      DistinctUnion(KidsAIModelsRenamed(p, i - 1, base), AIModelsRenamed(p.kids[i - 1], mid), base, mid, mid + Count(p.kids[i - 1]));
    }
  }

  // ---------------------------------------------------------------------
  // How many keys the copy draws

  lemma {:induction false} PrefixCount(s: seq<Id>, j: nat)
    requires j <= |s| && Ordering.Increasing(s)
    ensures |Prefix(s, j)| == j
  {
    if j > 0 {
      PrefixCount(s, j - 1);
      PrefixFresh(s, j - 1);
    }
  }

  /** A plan with no row twice draws one key per Dir, prompt and AI model
      it covers. */
  lemma {:induction false} TreeCount(p: Plan)
    requires Apart(p)
    ensures Count(p) == |Dirs(p)| + |Prompts(p)| + |AIModels(p)|
    decreases p, 1
  {
    KidsCountRows(p, |p.kids|);
    DirsCount(p);
    PrefixCount(p.prompts, |p.prompts|);
    PrefixCount(p.aimodels, |p.aimodels|);
  }

  lemma {:induction false} KidsCountRows(p: Plan, i: nat)
    requires i <= |p.kids| && KidsApart(p, i)
    ensures KidsCount(p, i) == |KidsDirs(p, i)| + |KidsPrompts(p, i)| + |KidsAIModels(p, i)|
    decreases p, 0, i
  {
    if i > 0 {
      KidsCountRows(p, i - 1);
      TreeCount(p.kids[i - 1]);
      KidsDirsCount(p, i - 1);
    }
  }

  // ---------------------------------------------------------------------
  // Plans read off the tables

  /** The plan lists what the queries of `copy_directory` return on `src`:
      the prompts and AI models of its Dir, and its children, each with a
      plan of its own. */
  ghost predicate Fits(src: Tables, p: Plan)
    decreases p, 1
  {
    && p.prompts == PromptsIn(src.prompts, p.dir)
    && p.aimodels == AIModelsIn(src.aimodels, p.dir)
    && |p.kids| == |Children(src.dirs, Some(p.dir))|
    && KidsFit(src, p, |p.kids|)
  }

  ghost predicate KidsFit(src: Tables, p: Plan, i: nat)
    requires i <= |p.kids|
    decreases p, 0, i
  {
    i == 0 ||
    (&& KidsFit(src, p, i - 1) && Fits(src, p.kids[i - 1])
     && i - 1 < |Children(src.dirs, Some(p.dir))| && p.kids[i - 1].dir == Children(src.dirs, Some(p.dir))[i - 1])
  }

  /** The conditions on a plan's children hold for every first `i` of them. */
  lemma {:induction false} KidsPrefix(src: Tables, p: Plan, i: nat)
    requires i <= |p.kids|
    requires KidsApart(p, |p.kids|) && KidsMatch(src, p, |p.kids|) && KidsFit(src, p, |p.kids|)
    ensures KidsApart(p, i) && KidsMatch(src, p, i) && KidsFit(src, p, i)
    ensures KidsDirs(p, i) <= KidsDirs(p, |p.kids|)
    decreases |p.kids| - i
  {
    if i < |p.kids| {
      KidsPrefix(src, p, i + 1);
    }
  }

  /** The renamings of a plan: its own Dir at `base`, its prompts from
      `lo1`, its AI models from `lo2` and its children from `b1`. */
  lemma TreeUnfold(p: Plan, base: nat, lo1: nat, lo2: nat, b1: nat)
    requires lo1 == base + 1 && lo2 == lo1 + |p.prompts| && b1 == lo2 + |p.aimodels|
    ensures DirsRenamed(p, base) == map[p.dir := base] + KidsDirsRenamed(p, |p.kids|, b1)
    ensures PromptsRenamed(p, base) == OwnRenamed(p.prompts, |p.prompts|, lo1) + KidsPromptsRenamed(p, |p.kids|, b1)
    ensures AIModelsRenamed(p, base) == OwnRenamed(p.aimodels, |p.aimodels|, lo2) + KidsAIModelsRenamed(p, |p.kids|, b1)
  {
  }

  /** The renamings of the first `i + 1` children extend those of the
      first `i` by the renaming of child `i`, placed after them. */
  lemma KidsUnfold(p: Plan, i: nat, base: nat, mid: nat)
    requires i < |p.kids| && mid == base + KidsCount(p, i)
    ensures && KidsCount(p, i + 1) == KidsCount(p, i) + Count(p.kids[i])
            && KidsDirsRenamed(p, i + 1, base) == KidsDirsRenamed(p, i, base) + DirsRenamed(p.kids[i], mid)
            && KidsPromptsRenamed(p, i + 1, base) == KidsPromptsRenamed(p, i, base) + PromptsRenamed(p.kids[i], mid)
            && KidsAIModelsRenamed(p, i + 1, base) == KidsAIModelsRenamed(p, i, base) + AIModelsRenamed(p.kids[i], mid)
  {
  }

  /** The plan's `i`-th child, counting from 0, is the `i`-th child the
      query lists, and fits, matches and is apart like the plan. */
  lemma ChildPlan(src: Tables, p: Plan, i: nat)
    requires i < |p.kids| && Apart(p) && Matches(src, p) && Fits(src, p)
    ensures var kid := p.kids[i];
      && Apart(kid) && Matches(src, kid) && Fits(src, kid)
      && kid.dir == Children(src.dirs, Some(p.dir))[i]
  {
    KidsPrefix(src, p, i + 1);
  }

  /** The plan's `i`-th child hangs under the plan's Dir, and its Dirs are
      among the plan's, apart from the plan's own Dir and from those of
      the children before it. */
  lemma ChildPlace(src: Tables, p: Plan, i: nat)
    requires i < |p.kids| && Apart(p) && Matches(src, p) && Fits(src, p)
    ensures var kid := p.kids[i];
      && DirAt(src, kid.dir).parent == Some(p.dir)
      && Dirs(kid) <= Dirs(p) && p.dir !in Dirs(kid)
      && KidsDirs(p, i) * Dirs(kid) == {}
  {
    KidsPrefix(src, p, i + 1);
  }

  /** The renaming of child `i`'s subtree shares no key with those of the
      children before it, nor with the plan's own Dir. */
  lemma ChildRenamedApart(p: Plan, i: nat, base: nat, mid: nat)
    requires i < |p.kids| && mid == base + KidsCount(p, i)
    requires p.dir !in Dirs(p.kids[i]) && KidsDirs(p, i) * Dirs(p.kids[i]) == {}
    ensures p.dir !in DirsRenamed(p.kids[i], mid)
    ensures KidsDirsRenamed(p, i, base).Keys * DirsRenamed(p.kids[i], mid).Keys == {}
  {
    KidsDirsFresh(p, i, base);
    TreeDirsFresh(p.kids[i], mid);
  }
}
