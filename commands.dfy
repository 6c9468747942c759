/** The `add_default_dir` management command: a fresh installation gets
    one root directory to start from. */
module Commands {
  import opened Models
  import opened Wrappers
  import opened Forest
  import opened Store

  /** The display of the Dir the command creates. */
  const DefaultDisplay: string := "Project 1"

  /** The Dirs and the key counter after the command, from those before: a
      single root `Project 1` in an empty table, nothing new otherwise. */
  function Bootstrapped(dirs: map<Id, Dir>, next: Id): (r: (map<Id, Dir>, Id))
    ensures |r.0| >= 1
    ensures dirs != map[] ==> r == (dirs, next)
    ensures dirs == map[] ==> r.0 == map[next := Dir(None, DefaultDisplay)] && r.1 == next + 1
  {
    if dirs == map[] then (map[next := Dir(None, DefaultDisplay)], next + 1) else (dirs, next)
  }

  /** Running the command again changes nothing. */
  lemma BootstrappedIdempotent(dirs: map<Id, Dir>, next: Id)
    ensures Bootstrapped(Bootstrapped(dirs, next).0, Bootstrapped(dirs, next).1) == Bootstrapped(dirs, next)
  {
  }

  /** `Command.handle`: creates the default root when `Dir.objects.exists()`
      is false; `created` tells which message the command writes. */
  method Handle(db: Db) returns (created: bool)
    requires db.Valid()
    modifies db
    ensures db.Valid()
    ensures created <==> old(db.dirs) == map[]
    ensures (db.dirs, db.next) == Bootstrapped(old(db.dirs), old(db.next))
    ensures db.prompts == old(db.prompts) && db.aimodels == old(db.aimodels)
    ensures !created ==> unchanged(db)
  {
    if db.dirs == map[] {
      var _ := db.CreateDir(None, DefaultDisplay);
      created := true;
    } else {
      created := false;
    }
  }

  /** Two runs leave the store as one run does. */
  method HandleTwice(db: Db) returns (first: bool, second: bool)
    requires db.Valid()
    modifies db
    ensures db.Valid() && !second
    ensures (db.dirs, db.next) == Bootstrapped(old(db.dirs), old(db.next))
    ensures db.prompts == old(db.prompts) && db.aimodels == old(db.aimodels)
  {
    first := Handle(db);
    second := Handle(db);
  }
}
