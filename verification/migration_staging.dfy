/** The transaction of a migration up to the staged copies: `MigrationTransaction` and the copying of `apply.rs`. */
module MigrationStaging {
  import opened FileTree
  import opened FsPaths
  import opened MigrationConfig
  import opened MigrationPlan
  import opened Wrappers
  import Forwarding
  import MigrationApply

  const BACKUP_ROOT_DIR: string := "bk"
  const STAGING_DIR_PREFIX: string := ".fungi-migrate-staging-"

  /** The live directory, and the two names the transaction allocates. */
  datatype Env = Env(live: Path, backupName: string, stagingName: string) {
    function BackupRoot(): Path { live + [BACKUP_ROOT_DIR] }

    function Backup(): Path { live + [BACKUP_ROOT_DIR, backupName] }

    function Staging(): Path { live + [stagingName] }

    function Staged(x: Item): Path { live + [stagingName] + x.Path() }

    function Live(x: Item): Path { live + x.Path() }

    function Rollback(): Path { live + [stagingName, MigrationApply.APPLY_ROLLBACK_DIR_NAME] }

    predicate Valid() { STAGING_DIR_PREFIX <= stagingName }
  }

  function Scratch(env: Env): set<Path> {
    {env.BackupRoot(), env.Staging()}
  }

  predicate BelongsInBackup(name: string) {
    name != BACKUP_ROOT_DIR && !(STAGING_DIR_PREFIX <= name)
  }

  // ---------- nothing is lost ----------

  ghost predicate Holds(t: Tree<Content>, p: Path, u: Tree<Content>, q: Path) {
    Sub(t, p) == Sub(u, q)
  }

  /** The backup holds everything of the directory, but for older backups and staging directories. */
  ghost predicate BackedUp(first: Tree<Content>, t: Tree<Content>, env: Env) {
    forall name: string :: BelongsInBackup(name) && env.live + [name] in first ==>
      Holds(t, env.Backup() + [name], first, env.live + [name])
  }

  /** Every file and directory but those of backups and staging directories is in the backup, below its own path. */
  lemma BackedUpFields(first: Tree<Content>, t: Tree<Content>, env: Env)
    requires BackedUp(first, t, env) && Rooted(first)
    ensures forall q <- first ::
              |q| > |env.live| && env.live <= q && q[|env.live|] != "bk" && !(".fungi-migrate-staging-" <= q[|env.live|]) ==>
                env.Backup() + q[|env.live|..] in t && t[env.Backup() + q[|env.live|..]] == first[q]
  {
    hide BackedUp, Rooted;
    forall q | q in first && |q| > |env.live| && env.live <= q && q[|env.live|] != "bk"
               && !(".fungi-migrate-staging-" <= q[|env.live|])
      ensures env.Backup() + q[|env.live|..] in t && t[env.Backup() + q[|env.live|..]] == first[q]
    {
      var k := |env.live| + 1;
      assert q == env.live + [q[k - 1]] + q[k..] && q[k - 1..] == [q[k - 1]] + q[k..];
      BackedUpAt(first, t, env, q[k - 1], q[k..]);
      assert env.Backup() + q[k - 1..] == env.Backup() + [q[k - 1]] + q[k..];
    }
  }

  lemma BackedUpAt(first: Tree<Content>, t: Tree<Content>, env: Env, name: string, r: Path)
    requires BackedUp(first, t, env) && Rooted(first) && BelongsInBackup(name) && env.live + [name] + r in first
    ensures env.Backup() + [name] + r in t && t[env.Backup() + [name] + r] == first[env.live + [name] + r]
  {
    hide Sub, Rooted;
    PrefixIsThere(first, env.live + [name], r);
    assert Holds(t, env.Backup() + [name], first, env.live + [name]);
    SubAt(t, env.Backup() + [name], r);
    SubAt(first, env.live + [name], r);
  }

  lemma PrefixIsThere(t: Tree<Content>, p: Path, r: Path)
    requires Rooted(t) && p + r in t
    ensures p in t
  {
    if r == [] {
      assert p + r == p;
    } else {
      PrefixIsDirectory(t, p + r, |p|);
      assert (p + r)[..|p|] == p;
    }
  }

  /** Either nothing has changed but the scratch directories, or the backup is complete. */
  ghost predicate Intact(first: Tree<Content>, t: Tree<Content>, env: Env) {
    Confined(first, t, Scratch(env)) || BackedUp(first, t, env)
  }

  /** The trace goes on from `past` with intact states only. */
  ghost predicate IntactSince(first: Tree<Content>, trace: seq<Tree<Content>>, env: Env, past: seq<Tree<Content>>) {
    trace == past
    || (trace != [] && Intact(first, trace[|trace| - 1], env) && IntactSince(first, trace[..|trace| - 1], env, past))
  }

  lemma StaysIntact(first: Tree<Content>, trace: seq<Tree<Content>>, t: Tree<Content>, env: Env, past: seq<Tree<Content>>)
    requires IntactSince(first, trace, env, past) && Intact(first, t, env)
    ensures IntactSince(first, trace + [t], env, past)
  {
    assert (trace + [t])[..|trace|] == trace;
  }

  lemma {:induction false} IntactSoFar(first: Tree<Content>, trace: seq<Tree<Content>>, env: Env, past: seq<Tree<Content>>)
    requires IntactSince(first, trace, env, past)
    ensures past <= trace
    ensures forall k :: |past| <= k < |trace| ==> Intact(first, trace[k], env)
  {
    if trace != past {
      var init := trace[..|trace| - 1];
      IntactSoFar(first, init, env, past);
      assert trace == init + [trace[|trace| - 1]];
      forall k | |past| <= k < |trace| ensures Intact(first, trace[k], env) {
        assert k < |init| ==> trace[k] == init[k];
      }
    }
  }

  lemma {:induction false} IntactOn(first: Tree<Content>, before: seq<Tree<Content>>, trace: seq<Tree<Content>>, env: Env, past: seq<Tree<Content>>)
    requires IntactSince(first, before, env, past) && before <= trace
    requires forall k :: |before| <= k < |trace| ==> Intact(first, trace[k], env)
    ensures IntactSince(first, trace, env, past)
    decreases |trace|
  {
    if trace != before {
      var init := trace[..|trace| - 1];
      assert before <= init;
      IntactOn(first, before, init, env, past);
      assert trace == init + [trace[|trace| - 1]];
      StaysIntact(first, init, trace[|trace| - 1], env, past);
    }
  }

  /** Any number of states that differ below the roots only, where that cannot do harm. */
  lemma {:induction false} IntactThrough(first: Tree<Content>, t: Tree<Content>, before: seq<Tree<Content>>, trace: seq<Tree<Content>>,
                                         env: Env, roots: set<Path>, past: seq<Tree<Content>>)
    requires IntactSince(first, before, env, past) && WithinSince(t, trace, roots, before)
    requires forall u: Tree<Content> :: Confined(t, u, roots) ==> Intact(first, u, env)
    ensures IntactSince(first, trace, env, past)
    decreases |trace|
  {
    if trace != before {
      var init := trace[..|trace| - 1];
      IntactThrough(first, t, before, init, env, roots, past);
      assert trace == init + [trace[|trace| - 1]];
      StaysIntact(first, init, trace[|trace| - 1], env, past);
    }
  }

  /** A change outside the backup keeps it complete. */
  lemma BackupStays(first: Tree<Content>, t: Tree<Content>, u: Tree<Content>, env: Env, roots: set<Path>)
    requires BackedUp(first, t, env) && Confined(t, u, roots) && forall root <- roots :: Apart(root, env.Backup())
    ensures BackedUp(first, u, env)
  {
    forall name: string | BelongsInBackup(name) && env.live + [name] in first
      ensures Holds(u, env.Backup() + [name], first, env.live + [name])
    {
      var p := env.Backup() + [name];
      assert Holds(t, p, first, env.live + [name]);
      forall root <- roots ensures Apart(root, p) {
        ApartBelowOne(root, env.Backup(), name);
      }
      ConfinedSub(t, u, roots, p);
    }
  }

  lemma StagingIsScratch(env: Env)
    requires env.Valid()
    ensures Apart(env.Staging(), env.Backup()) && env.stagingName != BACKUP_ROOT_DIR
    ensures env.stagingName != "" && env.stagingName[0] == '.' && env.stagingName != MigrationApply.APPLY_ROLLBACK_DIR_NAME
  {
    assert STAGING_DIR_PREFIX[0] == '.' && STAGING_DIR_PREFIX[1] == 'f';
    assert env.stagingName[0] == STAGING_DIR_PREFIX[0] && env.stagingName[1] == STAGING_DIR_PREFIX[1];
    ApartAt(env.Staging(), env.Backup(), |env.live|);
  }

  // ---------- preparing the transaction ----------

  lemma {:induction false} WithinBackupRoot(first: Tree<Content>, t: Tree<Content>, trace: seq<Tree<Content>>, env: Env, past: seq<Tree<Content>>)
    requires Within(first, t, trace, {env.BackupRoot()}, past)
    ensures Confined(first, t, Scratch(env)) && IntactSince(first, trace, env, past)
    decreases |trace|
  {
    BackupRootIsScratch(first, t, env);
    if trace != past {
      WithinBackupRoot(first, trace[|trace| - 1], trace[..|trace| - 1], env, past);
    }
  }

  lemma BackupRootIsScratch(first: Tree<Content>, t: Tree<Content>, env: Env)
    requires Confined(first, t, {env.BackupRoot()})
    ensures Confined(first, t, Scratch(env))
  {
    assert env.BackupRoot() in Scratch(env) && env.BackupRoot() <= env.BackupRoot();
    ConfinedWiden(first, t, {env.BackupRoot()}, Scratch(env));
  }

  function Suffix(attempt: nat): string {
    if attempt == 0 then "" else "-" + Forwarding.Decimal(attempt)
  }

  /** No two attempts try the same names. */
  lemma SuffixesDiffer(a: nat, b: nat)
    ensures Suffix(0) == "" && (Suffix(a) == Suffix(b) ==> a == b)
  {
    Forwarding.DecimalReads(a);
    Forwarding.DecimalReads(b);
    if a != 0 && b != 0 {
      assert Suffix(a)[1..] == Forwarding.Decimal(a) && Suffix(b)[1..] == Forwarding.Decimal(b);
    }
  }

  ghost predicate EmptyDirectory(t: Tree<Content>, p: Path) {
    Sub(t, p) == map[[] := Directory]
  }

  /** Every pair of names is taken, in one of its two places. */
  ghost predicate NoNameLeft(t: Tree<Content>, live: Path, timestamp: string, source: string) {
    forall attempt: nat :: attempt < 1000 ==> NameTaken(t, live, timestamp, source, attempt)
  }

  predicate NameTaken(t: Tree<Content>, live: Path, timestamp: string, source: string, attempt: nat) {
    live + ["bk", timestamp + "-from-" + source + "-to-v3" + Suffix(attempt)] in t
    || live + [".fungi-migrate-staging-" + timestamp + "-v3" + Suffix(attempt)] in t
  }

  lemma TakenAfter(t: Tree<Content>, live: Path, timestamp: string, source: string, attempt: nat)
    ensures NameTaken(MakeDirs(t, live + [BACKUP_ROOT_DIR]), live, timestamp, source, attempt) <==> NameTaken(t, live, timestamp, source, attempt)
  {
    var root := live + [BACKUP_ROOT_DIR];
    var backup := live + ["bk", timestamp + "-from-" + source + "-to-v3" + Suffix(attempt)];
    var staging := live + [".fungi-migrate-staging-" + timestamp + "-v3" + Suffix(attempt)];
    assert |backup| > |root|;
    assert staging[|live|][0] == '.' && root[|live|][0] == 'b';
    MadeDirsAdd(t, root, backup);
    MadeDirsAdd(t, root, staging);
  }

  /**
   * `MigrationTransaction::prepare`: both directories are new. The states it goes through differ from
   * the first one below the backup root and, once it is done, in the staging directory.
   */
  method Prepare(fs: FileSystem<Content>, live: Path, timestamp: string, source: string) returns (ok: bool, env: Env)
    requires fs.Valid()
    modifies fs
    ensures fs.Valid() && Counts(old(fs.failures), fs.failures, ok) && env.live == live && env.Valid()
    ensures !ok && fs.failures == old(fs.failures) ==> NoNameLeft(old(fs.tree), live, timestamp, source)
    ensures NoNameLeft(old(fs.tree), live, timestamp, source) ==> !ok
    ensures timestamp + "-from-" + source + "-to-v3" <= env.backupName && STAGING_DIR_PREFIX + timestamp + "-v3" <= env.stagingName
    ensures Confined(old(fs.tree), fs.tree, Scratch(env)) && IntactSince(old(fs.tree), fs.trace, env, old(fs.trace))
    ensures ok ==> env.Staging() !in old(fs.tree)
                   && EmptyDirectory(fs.tree, env.Staging()) && EmptyDirectory(fs.tree, env.Backup())
  {
    hide Confined, IntactSince, EmptyDirectory, Suffix;
    ghost var first, past := fs.tree, fs.trace;
    var root := live + [BACKUP_ROOT_DIR];
    var backupName := timestamp + "-from-" + source + "-to-v3";
    var stagingName := STAGING_DIR_PREFIX + timestamp + "-v3";
    env := Env(live, backupName, stagingName);
    assert WithinSince(first, past, {root}, past);
    ok := fs.CreateDirAll(root);
    BackupRootMade(first, fs.tree, root, past);
    WithinBackupRoot(first, fs.tree, fs.trace, env, past);
    if !ok {
      return;
    }
    ok := false;
    for attempt := 0 to 1000
      invariant fs.Valid() && fs.failures == old(fs.failures) && !ok && env.live == live && env.Valid()
      invariant Within(first, fs.tree, fs.trace, {root}, past) && fs.tree == MakeDirs(first, root)
      invariant backupName <= env.backupName && stagingName <= env.stagingName
      invariant forall k: nat :: k < attempt ==> NameTaken(first, live, timestamp, source, k)
    {
      env := Env(live, backupName + Suffix(attempt), stagingName + Suffix(attempt));
      TakenAfter(first, live, timestamp, source, attempt);
      if env.Backup() !in fs.tree && env.Staging() !in fs.tree {
        ok := Allocate(fs, env, first, past);
        return;
      }
    }
    WithinBackupRoot(first, fs.tree, fs.trace, env, past);
  }

  lemma BackupRootMade(first: Tree<Content>, t: Tree<Content>, root: Path, past: seq<Tree<Content>>)
    requires t == MakeDirs(first, root) || exists k :: 0 <= k <= |root| && t == MakeDirs(first, root[..k])
    ensures Within(first, t, past + [t], {root}, past)
  {
    if t == MakeDirs(first, root) {
      MadeDirsConfined(first, root, root);
    } else {
      var k :| 0 <= k <= |root| && t == MakeDirs(first, root[..k]);
      MadeDirsConfined(first, root[..k], root);
    }
    assert (past + [t])[..|past|] == past;
  }

  /** The body of the loop that finds two unused names. */
  method Allocate(fs: FileSystem<Content>, env: Env, ghost first: Tree<Content>, ghost past: seq<Tree<Content>>) returns (ok: bool)
    requires fs.Valid() && env.Valid() && Within(first, fs.tree, fs.trace, {env.BackupRoot()}, past)
    requires env.Backup() !in fs.tree && env.Staging() !in fs.tree
    modifies fs
    ensures fs.Valid() && CountsExactly(old(fs.failures), fs.failures, ok) && Confined(first, fs.tree, Scratch(env)) && IntactSince(first, fs.trace, env, past)
    ensures ok ==> env.Staging() !in first && EmptyDirectory(fs.tree, env.Staging()) && EmptyDirectory(fs.tree, env.Backup())
  {
    ghost var t, trace := fs.tree, fs.trace;
    ok := fs.CreateDir(env.Backup());
    assert env.BackupRoot() <= env.Backup();
    StaysWithin(first, t, trace, fs.tree, {env.BackupRoot()}, {env.Backup()}, past);
    WithinBackupRoot(first, fs.tree, fs.trace, env, past);
    if !ok {
      return;
    }
    NewDirectory(t, env.Backup());
    StagingIsScratch(env);
    StagingWasAbsent(first, t, env);
    ghost var u, trace' := fs.tree, fs.trace;
    ok := fs.CreateDir(env.Staging());
    if ok {
      NewDirectory(u, env.Staging());
      ConfinedSub(u, fs.tree, {env.Staging()}, env.Backup());
      StagingMade(first, u, fs.tree, env);
      StaysIntact(first, trace', fs.tree, env, past);
    } else {
      StaysIntact(first, trace', fs.tree, env, past);
      RemoveBackupDir(fs, env, first, past);
    }
  }

  lemma NewDirectory(t: Tree<Content>, p: Path)
    requires Rooted(t) && p !in t
    ensures EmptyDirectory(t[p := Directory], p)
  {
    AbsentIsEmpty(t, p);
    assert p + [] == p;
    SubOfWrite(t, p, [], Directory);
  }

  lemma StagingWasAbsent(first: Tree<Content>, t: Tree<Content>, env: Env)
    requires env.Valid() && Confined(first, t, {env.BackupRoot()}) && env.Staging() !in t
    ensures env.Staging() !in first
  {
    StagingIsScratch(env);
    ApartAt(env.Staging(), env.BackupRoot(), |env.live|);
    assert !Covered(env.Staging(), {env.BackupRoot()});
  }

  lemma StagingMade(first: Tree<Content>, t: Tree<Content>, u: Tree<Content>, env: Env)
    requires Confined(first, t, Scratch(env)) && Confined(t, u, {env.Staging()})
    ensures Confined(first, u, Scratch(env))
  {
    assert env.Staging() in Scratch(env) && env.Staging() <= env.Staging();
    ConfinedWiden(t, u, {env.Staging()}, Scratch(env));
    ConfinedTrans(first, t, u, Scratch(env));
  }

  method RemoveBackupDir(fs: FileSystem<Content>, env: Env, ghost first: Tree<Content>, ghost past: seq<Tree<Content>>)
    requires fs.Valid() && Confined(first, fs.tree, Scratch(env)) && IntactSince(first, fs.trace, env, past)
    modifies fs
    ensures fs.Valid() && old(fs.failures) <= fs.failures && Confined(first, fs.tree, Scratch(env)) && IntactSince(first, fs.trace, env, past)
  {
    ghost var t, trace := fs.tree, fs.trace;
    var removed := fs.RemoveIfExists(env.Backup());
    assert Confined(t, fs.tree, {env.Backup()});
    assert env.BackupRoot() in Scratch(env) && env.BackupRoot() <= env.Backup();
    ConfinedWiden(t, fs.tree, {env.Backup()}, Scratch(env));
    ConfinedTrans(first, t, fs.tree, Scratch(env));
    StaysIntact(first, trace, fs.tree, env, past);
  }

  // ---------- copying ----------

  /** The backup is complete, and only scratch directories have changed. */
  ghost predicate InStaging(first: Tree<Content>, t: Tree<Content>, env: Env) {
    BackedUp(first, t, env) && Confined(first, t, Scratch(env))
  }

  lemma InStagingStays(first: Tree<Content>, t: Tree<Content>, u: Tree<Content>, env: Env, roots: set<Path>)
    requires env.Valid() && InStaging(first, t, env) && Confined(t, u, roots) && forall root <- roots :: env.Staging() <= root
    ensures InStaging(first, u, env)
  {
    StagingIsScratch(env);
    forall root <- roots ensures Covered(root, {env.Staging()}) && Apart(root, env.Backup()) {
      assert root[|env.live|] == env.stagingName;
      ApartAt(root, env.Backup(), |env.live|);
    }
    BackupStays(first, t, u, env, roots);
    ConfinedWiden(t, u, roots, {env.Staging()});
    StagingMade(first, t, u, env);
  }

  /** Steps below the staging directory. */
  lemma StagingSteps(first: Tree<Content>, t: Tree<Content>, before: seq<Tree<Content>>, u: Tree<Content>, trace: seq<Tree<Content>>,
                     env: Env, roots: set<Path>, past: seq<Tree<Content>>)
    requires env.Valid() && InStaging(first, t, env) && IntactSince(first, before, env, past)
    requires Within(t, u, trace, roots, before) && forall root <- roots :: env.Staging() <= root
    ensures InStaging(first, u, env) && IntactSince(first, trace, env, past)
  {
    forall v: Tree<Content> | Confined(t, v, roots) ensures InStaging(first, v, env) && Intact(first, v, env) {
      InStagingStays(first, t, v, env, roots);
    }
    IntactThrough(first, t, before, trace, env, roots, past);
  }

  /** What only scratch changes leave alone: everything else in the directory. */
  lemma LiveStays(first: Tree<Content>, t: Tree<Content>, env: Env, name: string, p: Path)
    requires Confined(first, t, Scratch(env)) && name != BACKUP_ROOT_DIR && name != env.stagingName
    ensures Holds(t, env.live + [name] + p, first, env.live + [name] + p)
  {
    var q := env.live + [name] + p;
    ApartAt(env.BackupRoot(), q, |env.live|);
    ApartAt(env.Staging(), q, |env.live|);
    ConfinedSub(first, t, Scratch(env), q);
  }

  function EntryNames(t: Tree<Content>, live: Path): (names: set<string>)
    ensures forall name :: name in names <==> live + [name] in t
  {
    var names := set q | q in t && |q| == |live| + 1 && live <= q :: q[|live|];
    assert forall q | q in t && |q| == |live| + 1 && live <= q :: q == live + [q[|live|]];
    assert forall name :: (live + [name])[|live|] == name;
    names
  }

  /** The entries `names` are still missing from the backup; the other ones are there. */
  ghost predicate BackedUpBut(first: Tree<Content>, t: Tree<Content>, env: Env, names: set<string>) {
    (forall name <- names :: Sub(t, env.Backup() + [name]) == map[])
    && (forall name :: BelongsInBackup(name) && name !in names && env.live + [name] in first ==>
          Holds(t, env.Backup() + [name], first, env.live + [name]))
  }

  /** `copy_backup_snapshot`. */
  method CopyBackup(fs: FileSystem<Content>, env: Env, ghost first: Tree<Content>, ghost past: seq<Tree<Content>>) returns (ok: bool)
    requires fs.Valid() && env.Valid() && Rooted(first) && EmptyDirectory(fs.tree, env.Backup())
    requires Confined(first, fs.tree, Scratch(env)) && IntactSince(first, fs.trace, env, past)
    modifies fs
    ensures fs.Valid() && CountsExactly(old(fs.failures), fs.failures, ok) && Confined(first, fs.tree, Scratch(env)) && IntactSince(first, fs.trace, env, past)
    ensures Holds(fs.tree, env.Staging(), old(fs.tree), env.Staging())
    ensures ok ==> BackedUp(first, fs.tree, env)
  {
    ok := fs.CanList();
    if !ok {
      return;
    }
    var names := set name <- EntryNames(fs.tree, env.live) | BelongsInBackup(name);
    NothingBackedUp(first, fs.tree, env, names);
    while names != {}
      invariant fs.Valid() && fs.failures == old(fs.failures)
      invariant Confined(first, fs.tree, Scratch(env)) && IntactSince(first, fs.trace, env, past)
      invariant Holds(fs.tree, env.Staging(), old(fs.tree), env.Staging())
      invariant BackedUpBut(first, fs.tree, env, names) && forall name <- names :: BelongsInBackup(name)
      decreases |names|
    {
      var name :| name in names;
      ok := CopyEntry(fs, env, name, names, first, past);
      if !ok {
        return;
      }
      names := names - {name};
    }
  }

  lemma NothingBackedUp(first: Tree<Content>, t: Tree<Content>, env: Env, names: set<string>)
    requires env.Valid() && Rooted(first) && Rooted(t) && EmptyDirectory(t, env.Backup()) && Confined(first, t, Scratch(env))
    requires forall name :: name in names <==> BelongsInBackup(name) && env.live + [name] in t
    ensures BackedUpBut(first, t, env, names)
  {
    forall name <- names ensures Sub(t, env.Backup() + [name]) == map[] {
      EmptyInside(t, env.Backup(), [name]);
    }
    forall name: string | BelongsInBackup(name) && env.live + [name] in first ensures name in names {
      LiveStays(first, t, env, name, []);
      assert env.live + [name] + [] == env.live + [name];
      AbsentIsEmpty(t, env.live + [name]);
      AbsentIsEmpty(first, env.live + [name]);
    }
  }

  lemma EmptyInside(t: Tree<Content>, p: Path, inner: Path)
    requires EmptyDirectory(t, p) && inner != []
    ensures Sub(t, p + inner) == map[]
  {
    var inside := Sub(t, p);
    SubOfSub(t, p, inner);
    forall r ensures r !in Sub(inside, inner) {
      SubAt(inside, inner, r);
      assert inner + r != [];
    }
    assert Sub(inside, inner) == map[];
  }

  /** One entry of the directory is copied into the backup. */
  method CopyEntry(fs: FileSystem<Content>, env: Env, name: string, ghost names: set<string>,
                   ghost first: Tree<Content>, ghost past: seq<Tree<Content>>)
    returns (ok: bool)
    requires fs.Valid() && env.Valid() && name in names && BelongsInBackup(name) && BackedUpBut(first, fs.tree, env, names)
    requires Confined(first, fs.tree, Scratch(env)) && IntactSince(first, fs.trace, env, past)
    modifies fs
    ensures fs.Valid() && CountsExactly(old(fs.failures), fs.failures, ok) && Confined(first, fs.tree, Scratch(env)) && IntactSince(first, fs.trace, env, past)
    ensures Holds(fs.tree, env.Staging(), old(fs.tree), env.Staging())
    ensures ok ==> BackedUpBut(first, fs.tree, env, names - {name})
  {
    ghost var t, trace := fs.tree, fs.trace;
    var source, target := env.live + [name], env.Backup() + [name];
    StagingIsScratch(env);
    AbsentIsEmpty(t, target);
    ApartAt(source, target, |env.live|);
    ok := fs.CopyTree(source, target);
    forall u: Tree<Content> | Confined(t, u, {target}) ensures Confined(first, u, Scratch(env)) && Intact(first, u, env) {
      BackupStep(first, t, u, env, target);
    }
    IntactThrough(first, t, trace, fs.trace, env, {target}, past);
    ApartAt(target, env.Staging(), |env.live|);
    ConfinedSub(t, fs.tree, {target}, env.Staging());
    if ok {
      EntryCopied(first, t, fs.tree, env, name, names);
    }
  }

  lemma BackupStep(first: Tree<Content>, t: Tree<Content>, u: Tree<Content>, env: Env, target: Path)
    requires Confined(first, t, Scratch(env)) && Confined(t, u, {target}) && env.BackupRoot() <= target
    ensures Confined(first, u, Scratch(env))
  {
    assert env.BackupRoot() in Scratch(env);
    ConfinedWiden(t, u, {target}, Scratch(env));
    ConfinedTrans(first, t, u, Scratch(env));
  }

  lemma EntryCopied(first: Tree<Content>, t: Tree<Content>, u: Tree<Content>, env: Env, name: string, names: set<string>)
    requires env.Valid() && BackedUpBut(first, t, env, names) && BelongsInBackup(name) && Confined(first, t, Scratch(env))
    requires Confined(t, u, {env.Backup() + [name]}) && Holds(u, env.Backup() + [name], t, env.live + [name])
    ensures BackedUpBut(first, u, env, names - {name})
  {
    forall other: string | other != name ensures Holds(u, env.Backup() + [other], t, env.Backup() + [other]) {
      ApartAt(env.Backup() + [name], env.Backup() + [other], |env.Backup()|);
      ConfinedSub(t, u, {env.Backup() + [name]}, env.Backup() + [other]);
    }
    LiveStays(first, t, env, name, []);
    assert env.live + [name] + [] == env.live + [name];
    forall other <- names - {name} ensures Sub(u, env.Backup() + [other]) == map[] {
      assert Holds(u, env.Backup() + [other], t, env.Backup() + [other]);
    }
    forall other: string | BelongsInBackup(other) && other !in names - {name} && env.live + [other] in first
      ensures Holds(u, env.Backup() + [other], first, env.live + [other])
    {
      if other != name {
        assert Holds(u, env.Backup() + [other], t, env.Backup() + [other]);
      }
    }
  }

  /** The first `n` items are staged as they are in the directory, the rest of the staging directory is empty. */
  ghost predicate StagedSoFar(first: Tree<Content>, t: Tree<Content>, env: Env, items: seq<Item>, n: nat)
    requires n <= |items|
  {
    (forall x <- items[..n] :: Holds(t, env.Staged(x), first, env.Live(x)))
    && (forall x: Item :: x !in items[..n] ==> Sub(t, env.Staged(x)) == map[])
    && Sub(t, env.Rollback()) == map[]
  }

  lemma Heads(env: Env, x: Item)
    ensures x.Path() != [] && x.Path()[0] != BACKUP_ROOT_DIR && x.Path()[0] != MigrationApply.APPLY_ROLLBACK_DIR_NAME
    ensures env.Valid() ==> x.Path()[0] != env.stagingName
  {
    Lengths(x);
    assert MigrationApply.APPLY_ROLLBACK_DIR_NAME[0] == '.';
    if env.Valid() {
      StagingIsScratch(env);
    }
  }

  lemma StagedPlaces(env: Env, x: Item, y: Item)
    ensures Apart(env.Staged(x), env.Rollback()) && (x != y ==> Apart(env.Staged(x), env.Staged(y)))
    ensures env.Staging() <= env.Staged(x) && env.Staging() <= env.Rollback() && env.Staged(x) != []
  {
    Heads(env, x);
    var n := |env.live|;
    assert env.Staged(x)[n + 1] == x.Path()[0] && env.Rollback()[n + 1] == MigrationApply.APPLY_ROLLBACK_DIR_NAME;
    ApartAt(env.Staged(x), env.Rollback(), n + 1);
    if x != y {
      ItemsApart(x, y);
      ApartBelow(env.Staging(), x.Path(), y.Path());
    }
  }

  lemma LivePlace(env: Env, x: Item, y: Item)
    requires env.Valid()
    ensures Apart(env.Live(x), env.Staged(y)) && Apart(env.Live(x), env.Staging()) && Apart(env.Live(x), env.BackupRoot())
  {
    Heads(env, x);
    var n := |env.live|;
    assert env.Live(x)[n] == x.Path()[0];
    ApartAt(env.Live(x), env.Staged(y), n);
    ApartAt(env.Live(x), env.Staging(), n);
    ApartAt(env.Live(x), env.BackupRoot(), n);
  }

  lemma LivePlacesApart(env: Env, x: Item, y: Item)
    requires x != y
    ensures Apart(env.Live(x), env.Live(y))
  {
    ItemsApart(x, y);
    ApartBelow(env.live, x.Path(), y.Path());
  }

  lemma ItemStays(first: Tree<Content>, t: Tree<Content>, env: Env, x: Item)
    requires env.Valid() && Confined(first, t, Scratch(env))
    ensures Holds(t, env.Live(x), first, env.Live(x))
  {
    LivePlace(env, x, x);
    ConfinedSub(first, t, Scratch(env), env.Live(x));
  }

  /** `copy_selected_paths` into the empty staging directory. */
  method CopySelected(fs: FileSystem<Content>, env: Env, items: seq<Item>, ghost first: Tree<Content>, ghost past: seq<Tree<Content>>)
    returns (ok: bool)
    requires fs.Valid() && env.Valid() && Rooted(first) && Distinct(items) && EmptyDirectory(fs.tree, env.Staging())
    requires InStaging(first, fs.tree, env) && IntactSince(first, fs.trace, env, past)
    modifies fs
    ensures fs.Valid() && CountsExactly(old(fs.failures), fs.failures, ok) && InStaging(first, fs.tree, env) && IntactSince(first, fs.trace, env, past)
    ensures ok ==> StagedSoFar(first, fs.tree, env, items, |items|)
  {
    NothingStaged(first, fs.tree, env, items);
    for i := 0 to |items|
      invariant fs.Valid() && fs.failures == old(fs.failures)
      invariant InStaging(first, fs.tree, env) && IntactSince(first, fs.trace, env, past)
      invariant StagedSoFar(first, fs.tree, env, items, i)
    {
      ok := CopyItem(fs, env, items, i, first, past);
      if !ok {
        return;
      }
    }
    ok := true;
  }

  lemma NothingStaged(first: Tree<Content>, t: Tree<Content>, env: Env, items: seq<Item>)
    requires EmptyDirectory(t, env.Staging())
    ensures StagedSoFar(first, t, env, items, 0)
  {
    forall x: Item ensures Sub(t, env.Staged(x)) == map[] {
      Heads(env, x);
      EmptyInside(t, env.Staging(), x.Path());
    }
    EmptyInside(t, env.Staging(), [MigrationApply.APPLY_ROLLBACK_DIR_NAME]);
    assert env.Staging() + [MigrationApply.APPLY_ROLLBACK_DIR_NAME] == env.Rollback();
  }

  method CopyItem(fs: FileSystem<Content>, env: Env, items: seq<Item>, i: nat, ghost first: Tree<Content>, ghost past: seq<Tree<Content>>)
    returns (ok: bool)
    requires fs.Valid() && env.Valid() && Rooted(first) && Distinct(items) && i < |items|
    requires InStaging(first, fs.tree, env) && IntactSince(first, fs.trace, env, past) && StagedSoFar(first, fs.tree, env, items, i)
    modifies fs
    ensures fs.Valid() && CountsExactly(old(fs.failures), fs.failures, ok) && InStaging(first, fs.tree, env) && IntactSince(first, fs.trace, env, past)
    ensures ok ==> StagedSoFar(first, fs.tree, env, items, i + 1)
  {
    ghost var t, trace := fs.tree, fs.trace;
    var x := items[i];
    ItemStays(first, t, env, x);
    assert items[..i + 1] == items[..i] + [x];
    assert x !in items[..i];
    if env.Live(x) !in fs.tree {
      AbsentIsEmpty(t, env.Live(x));
      NothingToStage(first, t, env, items, i);
      return true;
    }
    ok := StageItem(fs, env, x, first, past);
    if ok {
      ItemStaged(first, t, fs.tree, env, items, i);
    }
  }

  method StageItem(fs: FileSystem<Content>, env: Env, x: Item, ghost first: Tree<Content>, ghost past: seq<Tree<Content>>)
    returns (ok: bool)
    requires fs.Valid() && env.Valid() && InStaging(first, fs.tree, env) && IntactSince(first, fs.trace, env, past)
    requires Sub(fs.tree, env.Staged(x)) == map[] && Holds(fs.tree, env.Live(x), first, env.Live(x))
    modifies fs
    ensures fs.Valid() && CountsExactly(old(fs.failures), fs.failures, ok) && InStaging(first, fs.tree, env) && IntactSince(first, fs.trace, env, past)
    ensures Confined(old(fs.tree), fs.tree, {env.Staged(x)})
    ensures ok ==> Holds(fs.tree, env.Staged(x), first, env.Live(x))
  {
    ghost var t, trace := fs.tree, fs.trace;
    StagedPlaces(env, x, x);
    LivePlace(env, x, x);
    AbsentIsEmpty(t, env.Staged(x));
    ok := fs.CopyTree(env.Live(x), env.Staged(x));
    StagingSteps(first, t, trace, fs.tree, fs.trace, env, {env.Staged(x)}, past);
  }

  lemma NothingToStage(first: Tree<Content>, t: Tree<Content>, env: Env, items: seq<Item>, i: nat)
    requires i < |items| && StagedSoFar(first, t, env, items, i) && items[i] !in items[..i] && Sub(first, env.Live(items[i])) == map[]
    ensures StagedSoFar(first, t, env, items, i + 1)
  {
    assert items[..i + 1] == items[..i] + [items[i]];
  }

  lemma ItemStaged(first: Tree<Content>, t: Tree<Content>, u: Tree<Content>, env: Env, items: seq<Item>, i: nat)
    requires i < |items| && StagedSoFar(first, t, env, items, i) && Confined(t, u, {env.Staged(items[i])})
    requires Holds(u, env.Staged(items[i]), first, env.Live(items[i]))
    ensures StagedSoFar(first, u, env, items, i + 1)
  {
    var x := items[i];
    assert items[..i + 1] == items[..i] + [x];
    forall y: Item | y != x ensures Holds(u, env.Staged(y), t, env.Staged(y)) {
      StagedPlaces(env, x, y);
      ConfinedSub(t, u, {env.Staged(x)}, env.Staged(y));
    }
    StagedPlaces(env, x, x);
    ConfinedSub(t, u, {env.Staged(x)}, env.Rollback());
    forall y <- items[..i + 1] ensures Holds(u, env.Staged(y), first, env.Live(y)) {
      if y != x {
        assert Holds(u, env.Staged(y), t, env.Staged(y)) && Holds(t, env.Staged(y), first, env.Live(y));
      }
    }
    forall y: Item | y !in items[..i + 1] ensures Sub(u, env.Staged(y)) == map[] {
      assert Holds(u, env.Staged(y), t, env.Staged(y));
    }
  }
}
