# yesand: the directory forest, in Dafny

yesand is a Django application that keeps prompts and AI model settings in
a tree of directories. The store has three tables:

- `Dir` rows, each with an optional parent `Dir` (none makes it a root) and a display name;
- `Prompt` rows, each with a display, a text, an optional directory, and many-to-many links to AI models and to fields;
- `AIModel` rows, each with a display and an optional directory.

Every foreign key to `Dir` is `ON DELETE CASCADE`.

This project models that store and the code that reads and changes it:

- the parent-pointer walk of `Dir.get_ancestors`;
- the nested listing `get_filesystem`/`get_tree`;
- the subtree walk `load_prompts`/`collect_prompts`;
- the views `add_dir`, `delete_dir`, `rename_dir`, `copy_dir`/`copy_directory` and `move_dir`;
- the `save` rules of the forms;
- the `add_default_dir` management command.

It then proves, about that model, what the code promises.

The modules follow the program:

- `Models`: the three record types and the error kinds.
- `Forest`: the forest itself. `HopsToRoot`/`Acyclic` give the meaning: from every Dir, some number of parent hops reaches a root. The module also defines `Ancestors`, `Subtree` and `Children`, and proves how these behave when the table grows, shrinks or is re-parented.
- `Store`: the database. Class `Db` holds one map per table and the key counter, and its `Valid()` is the store invariant: referential integrity plus an acyclic forest. It also holds the ORM queries `filter(dir=d)` and `d.aimodels.all()`, and the `objects.create` inserts.
- `Listing`: `get_filesystem`/`get_tree`. `Collect`: `load_prompts`/`collect_prompts`. Both are loops and recursion proved against specification functions.
- `CopyPlan`, `CopyTree`, `CopyRows`, `CopySteps` and `Copy`: `copy_dir`. Several facts are read off the tables before the copy:
  - the *plan*: the Dir, its prompts, its AI models and the plans of its children;
  - the keys the copy will draw;
  - the rows it will create.

  The copy methods are then proved against them, and `Copy.Copied` states the outcome.
- `Views`: `add_dir`, `delete_dir`, `rename_dir` and `move_dir`. `Post`: the text of a POSTed key.
- `Forms`: the form `save` rules. `Commands`: `add_default_dir`.

Where the code departs from what it evidently intends, the model follows the
code:

- `move_dir` does not refuse a move under the moved Dir's own subtree. `Views.MoveDir` models it as written, and `Views.MoveDirChecked` adds the refusal.
- `copy_dir` copies a prompt's AI model links unchanged, without checking them against the new place.
- The copy always lands next to the original, under the original's parent.
- Queries have no ordering. The model lists rows in ascending key order, which is the database's insertion order.
- The record shapes are those of the migration `yesand/migrations/0001_initial.py`. There `Prompt.dir` may be null, and the forms do create unattached prompts. The non-null rule of the model class is kept as `Store.PromptsFiled`, which the views preserve.

## Model

| member | source | states |
|---|---|---|
| Forest.Ancestors | yesand/models.py:13-19 | The walk's result is root first. It is empty iff the Dir has no parent, its last element is the Dir's parent, its first has no parent, and its length is the number of parent hops to the root. |
| Forest.AncestorsChain | yesand/models.py:15-18 | Each ancestor is the parent of the next one. |
| Forest.AncestorsPrefix | yesand/models.py:15-18 | The ancestors of the i-th ancestor are exactly the first i ancestors. |
| Forest.AncestorsDistinct | yesand/models.py:15-18 | A Dir is never among its own ancestors, and no ancestor occurs twice. |
| Store.Db.GetAncestors | yesand/models.py:13-19 | The `while` loop that puts each parent in front ends on an acyclic store and returns exactly `Ancestors`. |
| Store.Db.constructor | yesand/migrations/0001_initial.py:14-59 | The empty database is valid, and its keys start at 1. |
| Store.Db.CreateDir | yesand/views.py:100 | `Dir.objects.create` stores the row at a fresh key, changes no other table and keeps the store valid. |
| Store.Db.CreatePrompt | yesand/views.py:169-174 | Creating a prompt and setting its links stores it at a fresh key and keeps the store valid. |
| Store.Db.CreateAIModel | yesand/views.py:178 | Creating an AI model stores it at a fresh key and keeps the store valid. |
| Store.PromptsIn | yesand/views.py:22 | `Prompt.objects.filter(dir=d)` lists only prompts filed in `d`. |
| Store.PromptsInComplete | yesand/views.py:74 | Every prompt filed in `d` is listed. |
| Store.PromptsInOrder | yesand/views.py:74 | The prompts are listed in ascending key order. |
| Store.PromptsAgree | yesand/views.py:168 | Two tables with the same prompts in `d` list them identically. |
| Store.AIModelsIn | yesand/views.py:177 | `original.aimodels.all()` lists only AI models filed in `d`. |
| Store.AIModelsInComplete | yesand/views.py:177 | Every AI model filed in `d` is listed. |
| Store.AIModelsInOrder | yesand/views.py:177 | The AI models are listed in ascending key order. |
| Forest.Children | yesand/views.py:13 | `Dir.objects.filter(dir=parent)` lists only Dirs whose parent is `parent`. |
| Forest.ChildrenComplete | yesand/views.py:71 | Every child of `parent` is listed. |
| Forest.ChildrenInOrder | yesand/views.py:181 | The children are listed in ascending key order. |
| Forest.SubtreeOfChild | yesand/views.py:20 | A child's subtree is strictly smaller than its parent's and does not contain the parent, so the downward recursions end. |
| Forest.SiblingSubtreesDisjoint | yesand/views.py:72-73 | The subtrees of two different children of one Dir share no Dir. |
| Forest.InsertKeepsAcyclic | yesand/views.py:99-100 | Creating a Dir as a root or under an existing Dir keeps the forest acyclic. |
| Forest.AncestorsExtend | yesand/views.py:100 | Adding Dirs leaves the ancestors of existing Dirs unchanged. |
| Forest.GrowKeepsAcyclic | yesand/views.py:164-184 | Dirs created each under a Dir of smaller key keep the forest acyclic. |
| Forest.RestrictKeepsAcyclic | yesand/views.py:119-120 | Removing Dirs so that no remaining Dir points at a removed one keeps the forest acyclic. |
| Forest.SameParentsShape | yesand/views.py:139-142 | Changing only display names leaves every Dir's ancestors and subtree unchanged. |
| Listing.TreeOfShape | yesand/views.py:11-20 | `get_tree(parent, level)` has one directory entry per child, in order, at `level`, with the child's id and display. |
| Listing.DirEntrySubdirs | yesand/views.py:14-20 | A sub-directory entry first holds its sub-directories' entries, one level deeper. |
| Listing.DirEntryPrompts | yesand/views.py:22-31 | After the sub-directories come one entry per prompt of that Dir, one level deeper. Each shows the prompt's display but the Dir's id. |
| Listing.TreeWellFormed | yesand/views.py:11-33 | Every nested entry is one level below its directory entry, and every prompt entry carries its directory's id. |
| Listing.FilesystemShape | yesand/views.py:35-46 | There is one top-level entry per root, in order, at level 0. Prompts filed directly in a root are not listed. |
| Listing.FilesystemWellFormed | yesand/views.py:35-46 | The whole listing is levelled, and its prompt entries carry directory ids. |
| Listing.GetTree | yesand/views.py:11-33 | The loop builds exactly `TreeOf`. |
| Listing.GetDirEntry | yesand/views.py:15-31 | One turn of the loop builds exactly the Dir's entry. |
| Listing.AppendPromptEntries | yesand/views.py:22-31 | The inner loop appends exactly one entry per prompt. |
| Listing.GetFilesystem | yesand/views.py:8-47 | `get_filesystem` builds exactly `Filesystem`. |
| Collect.CollectedMembers | yesand/views.py:70-77 | `collect_prompts(d)` gathers a prompt iff it is filed in `d` or below `d`. |
| Collect.CollectedDistinct | yesand/views.py:70-77 | Every prompt is gathered at most once. |
| Collect.CollectedOrder | yesand/views.py:70-75 | The descendants' prompts come first and `d`'s own prompts come last, in order. |
| Collect.CollectPrompts | yesand/views.py:70-75 | The recursion extends the closed-over list by exactly `Collected(d)`. |
| Collect.CollectChildren | yesand/views.py:71-73 | The loop over the children extends the list by what each child collects, in order. |
| Collect.CollectChild | yesand/views.py:72-73 | One child's recursive call extends the list by what that child collects. |
| Collect.LoadPrompts | yesand/views.py:65-77 | An unknown id gives not found. Otherwise the result is the subtree's prompts and the Dir's display. |
| CopyTree.PlanDirs | yesand/views.py:164-182 | The Dirs the copy visits are exactly the original's subtree. |
| CopyTree.PlanPrompts | yesand/views.py:168 | The prompts it copies are exactly those filed in that subtree. |
| CopyTree.PlanAIModels | yesand/views.py:177 | The AI models it copies are exactly those filed in that subtree. |
| CopyTree.PlanApart | yesand/views.py:181-182 | The recursive calls cover disjoint parts, so no Dir, prompt or AI model is copied twice. |
| CopyPlan.TreeDirsFresh | yesand/views.py:165 | Each Dir's copy gets a key from the block the copy draws, so no copy shares a key with a row that existed before. |
| CopyPlan.TreeDirsDistinct | yesand/views.py:165 | Different Dirs get different copies. |
| CopyPlan.TreePromptsFresh | yesand/views.py:169-171 | Each copied prompt gets a fresh key. |
| CopyPlan.TreeAIModelsFresh | yesand/views.py:178 | Each copied AI model gets a fresh key. |
| Copy.CopyDirectory | yesand/views.py:164-184 | `copy_directory(original, parent)` creates the copy of `original` under `parent`, then its prompts, AI models and children's copies, as the plan lays out. Rows are only added, outside the original subtree. |
| Copy.CopyPrompts | yesand/views.py:168-174 | Each prompt of the Dir gets a copy in the new Dir with the same display, text, AI models and fields. |
| Copy.CopyAIModels | yesand/views.py:177-178 | Each AI model of the Dir gets a copy in the new Dir with the same display only. |
| Copy.CopyChildren | yesand/views.py:181-182 | Each child's subtree gets a copy under the new Dir, in order. |
| Copy.CopyChild | yesand/views.py:182 | One more child's subtree is copied under the new Dir, after the copies of the children before it. |
| Copy.CopyStart | yesand/views.py:161-162 | The copy starts from the original's parent, which lies outside the subtree being copied. |
| Copy.CopyKeepsIntegrity | yesand/views.py:164-184 | Rows added by the copy keep referential integrity and an acyclic forest. |
| Copy.CopyOutcome | yesand/views.py:158-186 | The finished copy is `Copied`: the copies are made (`CopiesMade`) and no other row is added (`OnlyCopies`). The store stays valid. |
| Copy.CopyOnly | yesand/views.py:164-184 | After the copy, each table holds exactly its old rows and the copies. The renamings of prompts and AI models are one to one and onto fresh keys. Each table grows by the number of its rows in the subtree, and the counter moves past one key per row added. |
| CopySteps.CopyExact | yesand/views.py:164-184 | The keys of each table after copying a plan are its keys before, together with the keys the plan's renaming hands out. |
| CopySteps.CopyCounts | yesand/views.py:165-178 | Copying a plan adds one row per Dir, prompt and AI model of the plan. |
| CopyPlan.TreeCount | yesand/views.py:165-178 | The keys the copy of a plan draws are as many as its Dirs, prompts and AI models together. |
| CopyPlan.TreePromptsDistinct | yesand/views.py:169-171 | Different prompts get different copies. |
| CopyPlan.TreeAIModelsDistinct | yesand/views.py:178 | Different AI models get different copies. |
| Copy.CopyTables | yesand/views.py:161-186 | From the tables before the copy, it builds the tables that are `Copied`: the copies and nothing else. They are valid, and every prompt that was filed stays filed. |
| Copy.CopyDir | yesand/views.py:158-186 | An unknown id gives not found and no change. Otherwise: the original rows are unchanged, and the new root is a sibling of the original with the same display. New Dirs number the subtree's size, map one to one onto it, and keep displays and shape. Prompts keep display, text, AI models and fields; AI models keep only their display. No other row is added: each table gains exactly one new row per row of the subtree, at distinct fresh keys, and the counter moves past one key per row added. The store stays valid. |
| Post.ParseId | yesand/views.py:99 | A POSTed key is read iff it is a non-empty string of decimal digits. |
| Post.ParseShowId | yesand/views.py:205-209 | Every key written into the page reads back as itself. |
| Views.ParentOf | yesand/views.py:97-99 | A missing or empty `parent_dir_id` gives a root. Text that is no number fails one way, an unknown key another, and otherwise it names a stored Dir. |
| Views.AddDir | yesand/views.py:94-100 | A failed parent lookup or a missing name changes nothing. Otherwise exactly one Dir is added, under the named parent or as a root, and the store stays valid. |
| Views.AddedDirPlace | yesand/views.py:99-100 | The new Dir is a leaf. Its ancestors are its parent's followed by the parent, and every other Dir keeps its ancestors. |
| Views.DeleteDir | yesand/views.py:116-120 | An unknown id gives not found and no change. Otherwise the Dir's subtree goes, with every prompt and AI model filed in it and the links to those AI models. The store stays valid, and filed prompts stay filed. |
| Views.DeleteCascade | yesand/views.py:119-120 | The cascade is complete and touches nothing else. A Dir remains iff it is neither the Dir nor below it, and unchanged if so. A prompt or AI model remains iff it was not filed below. What remains is sound. |
| Views.RenameDir | yesand/views.py:136-142 | Only the Dir's display changes. A missing Dir or a missing name changes nothing. |
| Views.RenameKeepsShape | yesand/views.py:139-142 | After a rename, every Dir has the same ancestors and subtree. |
| Views.NewParentOf | yesand/views.py:205-210 | The text `None` gives a root, a missing field gives not found, non-numeric text fails, and otherwise the text names a stored Dir. |
| Views.MoveDir | yesand/views.py:202-214 | As written: only the moved Dir's parent changes, and every other Dir keeps its parent. The store stays valid iff the new parent is not within the moved subtree. |
| Views.MoveAcyclic | yesand/views.py:212-214 | A move keeps the forest acyclic iff the new parent is none, or is neither the Dir nor a descendant of it. |
| Views.MoveOntoItself | yesand/views.py:205-214 | A single root moved under itself leaves a store that is no longer acyclic. |
| Views.MoveDirChecked | yesand/views.py:202-214 | Like `move_dir`, but a move into the moved subtree is refused with no change, so the store stays valid. |
| Forms.CleanTargetId | yesand/forms.py:32-37 | The empty choice becomes none, and any other value is returned unchanged. |
| Forms.CleanTargetRoundTrip | yesand/forms.py:32-37 | Cleaning loses nothing the widget posts. Every target except the empty text survives the trip back. |
| Forms.Placement | yesand/forms.py:48 | `parent_id` counts iff it is filled in and not zero. |
| Forms.FiledIn | yesand/forms.py:68-69 | The saved row is filed in the Dir a truthy `parent_id` names, and nowhere otherwise. |
| Forms.AddDirNodeSave | yesand/forms.py:47-51 | A truthy `parent_id` adds a child of that Dir, which must exist. Otherwise a new root is added. |
| Forms.AddDirNodePlace | yesand/forms.py:48-51 | The new node is a root iff `parent_id` is empty or zero. Otherwise it is a child of the Dir `parent_id` names. |
| Forms.NewAIModel | yesand/forms.py:64-69 | The AI model gets the form's display and endpoint. The key is set iff `api_key` is not empty. |
| Forms.AddAIModelSave | yesand/forms.py:64-71 | Exactly that AI model is stored at a fresh key. A truthy `parent_id` that names no Dir breaks the foreign key and changes nothing. |
| Forms.NewPrompt | yesand/forms.py:91-94 | The prompt gets the form's display and text, and no links yet. |
| Forms.AddPromptSave | yesand/forms.py:91-96 | Exactly that prompt is stored, attached only under a truthy `parent_id`. |
| Forms.EditedAIModel | yesand/forms.py:150-153 | Display and endpoint are overwritten. The key is replaced only by a non-empty `api_key` and is otherwise left untouched, and the directory is kept. |
| Forms.EditedAIModelIdempotent | yesand/forms.py:150-156 | Saving the same form twice gives what saving it once gives. |
| Forms.EditAIModelSave | yesand/forms.py:150-156 | The edited instance is returned. It is written back iff `commit` is set; otherwise nothing is stored. |
| Forms.AIModelChoices | yesand/forms.py:179-183 | For a saved prompt the choices are the ancestor AI models. For an unsaved one they are left as they were. |
| Forms.AIModelChoicesNarrow | yesand/forms.py:181-183 | The restriction only narrows the choices. |
| Commands.Bootstrapped | yesand/management/commands/add_default_dir.py:10-11 | The result always has a Dir. An empty table gets exactly one root `Project 1`, and a non-empty one is left unchanged. |
| Commands.BootstrappedIdempotent | yesand/management/commands/add_default_dir.py:9-18 | Running the command on its own result changes nothing. |
| Commands.Handle | yesand/management/commands/add_default_dir.py:9-18 | It creates the default root iff no Dir exists, and otherwise leaves the store unchanged. |
| Commands.HandleTwice | yesand/management/commands/add_default_dir.py:9-18 | Two runs store what one run stores. The second run never creates anything. |

## Left out

- Rendering, templates and URL routing. Each view's page is replaced by its effect on the store, plus the key it creates where there is one.
- The check of `request.method`: each view is modelled on a POST.
- The `index` view, which only renders.
- `api/schema.py`, `api/api.py`, `yesand/admin.py`, `yesand/tests.py` and the template filters. They are not part of this model.
- Forms.FiledIn: `AddAIModelForm.save` (yesand/forms.py:68-69) and `AddPromptForm.save` (yesand/forms.py:93-94) write the parent key to `instance.dirnode_id`. The forms import a `DirNode` model that `yesand/models.py` does not define, and there `AIModel` has a `name` and no directory. The model files the new row through the migration's `dir` column instead, which is the column the views read.
- The tree API of the forms' `DirNode` model: materialised paths, `add_child`, `add_root`, and `get_ancestor_aimodels`. That code is not part of the repository's shown sources.
  - `Forms.AddDirNodeSave` files the new node in the `Dir` table.
  - `Forms.AIModelChoices` takes the ancestor AI models as a parameter.
- Parts of the AI model record: the `parameters` JSON field, URL validation of `endpoint`, and encryption of the key. The endpoint and key are plain strings. A copied AI model gets an empty endpoint and no key, standing for the column defaults.
- The `Field` table. A prompt's fields are a set of keys that nothing else checks.
- Errors the framework raises rather than answers are modelled as error results that change nothing: `DoesNotExist` from `Dir.objects.get` (`NotFound`), `ValueError` for non-numeric text (`BadValue`), and a broken NOT NULL or foreign key constraint (`IntegrityError`). Views that return `None` for a GET are left out.
- Post.ParseId: reads only plain ASCII decimal digits. Python's `int()` also accepts surrounding blanks, a sign and digit separators, and non-ASCII Unicode decimal digits (Arabic-Indic "١٢" reads as 12). The model answers all of those with `BadValue`.
- Key allocation: one counter serves all three tables, where the database keeps one sequence per table. The returned keys are therefore the model's own.
- Integer widths: 64-bit keys are unbounded naturals.
- `max_length=255` on displays, which SQLite does not enforce.
- Transactions and concurrency: no view runs in a transaction, and the model runs each one alone.
- Copy.CopyDir: the copy is built on a value of the tables and written to the `Db` in one step, so the intermediate states of the rows `copy_directory` writes one by one are not modelled. Nothing in the view reads them except the copy's own queries, and the model proves that those queries see the original subtree unchanged.
- The copy methods take the plan of the original subtree as a ghost parameter: a snapshot read before the copy starts.

## Findings

| source | as written | input that shows it | evidently intended | confidence | as-written member | corrected member |
|---|---|---|---|---|---|---|
| yesand/views.py:205-214 | `move_dir` sets the new parent without checking that it lies outside the moved Dir's subtree. | A store with one root Dir 1: POST `new_parent_dir_id=1` to `move_dir(1)`. Dir 1 becomes its own parent, and `get_ancestors` on it never returns. | Refuse a move onto the Dir itself or one of its descendants. The code's own walks over the tree rely on parent links ending at a root: `Dir.get_ancestors` (yesand/models.py:13-19) follows parents until there are none, and `collect_prompts` (yesand/views.py:70-75) follows children until there are none, so neither ends once a Dir is its own ancestor. | not executed; high that the store breaks, medium that the authors meant to forbid it | Views.MoveDir | Views.MoveDirChecked |
