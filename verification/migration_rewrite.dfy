/** The rewriting steps of a migration, all of them in the staging directory. */
module MigrationRewrite {
  import opened FileTree
  import opened FsPaths
  import opened MigrationConfig
  import opened MigrationPlan
  import opened MigrationStaging
  import opened Wrappers
  import MigrationAccess
  import MigrationFiles
  import MigrationServices

  // ---------- what a step may change ----------

  /** The backup is complete, only scratch directories have changed, and nothing has been applied. */
  ghost predicate Rewriting(first: Tree<Content>, t: Tree<Content>, env: Env) {
    InStaging(first, t, env) && Sub(t, env.Rollback()) == map[]
  }

  /** Of the staged items, only these may differ. */
  ghost predicate Only(t: Tree<Content>, u: Tree<Content>, env: Env, items: set<Item>) {
    forall x: Item :: x !in items ==> Holds(u, env.Staged(x), t, env.Staged(x))
  }

  lemma OnlyTrans(t: Tree<Content>, u: Tree<Content>, v: Tree<Content>, env: Env, some: set<Item>, more: set<Item>)
    requires Only(t, u, env, some) && Only(u, v, env, more)
    ensures Only(t, v, env, some + more)
  {
    forall x: Item | x !in some + more ensures Holds(v, env.Staged(x), t, env.Staged(x)) {
      assert Holds(u, env.Staged(x), t, env.Staged(x)) && Holds(v, env.Staged(x), u, env.Staged(x));
    }
  }

  lemma OnlyWider(t: Tree<Content>, u: Tree<Content>, env: Env, some: set<Item>, more: set<Item>)
    requires Only(t, u, env, some) && some <= more
    ensures Only(t, u, env, more)
  {
  }

  lemma OnlyReflexive(t: Tree<Content>, env: Env, items: set<Item>)
    ensures Only(t, t, env, items)
  {
  }

  function StagedPlacesOf(env: Env, items: set<Item>): set<Path> {
    set x | x in items :: env.Staged(x)
  }

  /** Changes below some staged items leave the others, and the transaction, as they were. */
  lemma ItemsChange(first: Tree<Content>, t: Tree<Content>, u: Tree<Content>, env: Env, items: set<Item>)
    requires env.Valid() && Rewriting(first, t, env) && Confined(t, u, StagedPlacesOf(env, items))
    ensures Rewriting(first, u, env) && Only(t, u, env, items)
  {
    var roots := StagedPlacesOf(env, items);
    forall root <- roots ensures env.Staging() <= root && Apart(root, env.Rollback()) {
      var x :| x in items && root == env.Staged(x);
      StagedPlaces(env, x, x);
    }
    InStagingStays(first, t, u, env, roots);
    ConfinedSub(t, u, roots, env.Rollback());
    forall y: Item | y !in items ensures Holds(u, env.Staged(y), t, env.Staged(y)) {
      forall root <- roots ensures Apart(root, env.Staged(y)) {
        var x :| x in items && root == env.Staged(x);
        StagedPlaces(env, x, y);
      }
      ConfinedSub(t, u, roots, env.Staged(y));
    }
  }

  lemma ItemStep(first: Tree<Content>, t: Tree<Content>, trace: seq<Tree<Content>>, u: Tree<Content>, env: Env, x: Item,
                 past: seq<Tree<Content>>)
    requires env.Valid() && Rewriting(first, t, env) && IntactSince(first, trace, env, past) && Confined(t, u, {env.Staged(x)})
    ensures Rewriting(first, u, env) && IntactSince(first, trace + [u], env, past) && Only(t, u, env, {x})
  {
    assert StagedPlacesOf(env, {x}) == {env.Staged(x)};
    ItemsChange(first, t, u, env, {x});
    StaysIntact(first, trace, u, env, past);
  }

  lemma RootEntry(t: Tree<Content>, p: Path)
    ensures p in t <==> [] in Sub(t, p)
    ensures p in t ==> t[p] == Sub(t, p)[[]]
  {
    SubAt(t, p, []);
    assert p + [] == p;
  }

  lemma SameEntry(t: Tree<Content>, p: Path, u: Tree<Content>, q: Path)
    requires Holds(t, p, u, q)
    ensures (p in t <==> q in u) && (p in t ==> t[p] == u[q])
  {
    RootEntry(t, p);
    RootEntry(u, q);
  }

  // ---------- what the steps do, for any place of the directory ----------

  /** A file that may be missing; what is there has to be TOML. */
  function ReadOptional(t: Tree<Content>, p: Path): Result<Option<Toml>> {
    if p !in t then Ok(None)
    else
      match ReadToml(t, p)
      case Err => Err
      case Ok(root) => Ok(Some(root))
  }

  function ReadAccess(t: Tree<Content>, p: Path): Result<seq<MigrationAccess.Preference>> {
    if p in t && t[p].File? && t[p].data.LegacyAccess? then Ok(t[p].data.access) else Err
  }

  function ReadPreferences(t: Tree<Content>, p: Path): Result<seq<MigrationAccess.Preference>> {
    if p !in t then Ok([])
    else if t[p].File? && t[p].data.Preferences? then Ok(t[p].data.preferences)
    else Err
  }

  /** The trusted devices of `u` are those of `t` with the peers its configuration lets in. */
  ghost predicate TrustedDone(t: Tree<Content>, root: Path, u: Tree<Content>, newRoot: Path) {
    var config, trusted := ReadToml(t, root + ConfigFile.Path()), ReadOptional(t, root + TrustedDevices.Path());
    var result := ReadToml(u, newRoot + TrustedDevices.Path());
    config.Ok? && trusted.Ok? && result.Ok? && MigrationFiles.TrustedMerged(config.value, trusted.value, result.value)
  }

  /** The devices of `u` are those of `t` with the peers of its address book. */
  ghost predicate DevicesDone(t: Tree<Content>, root: Path, u: Tree<Content>, newRoot: Path) {
    var book, devices := ReadToml(t, root + LegacyAddressBook.Path()), ReadOptional(t, root + DevicesFile.Path());
    var result := ReadToml(u, newRoot + DevicesFile.Path());
    book.Ok? && devices.Ok? && result.Ok? && MigrationFiles.DevicesMerged(book.value, devices.value, result.value)
  }

  /** The preferences of `u` are those of `t`, filled up from its legacy file. */
  ghost predicate PreferencesDone(t: Tree<Content>, root: Path, u: Tree<Content>, newRoot: Path) {
    var legacy, existing := ReadAccess(t, root + LegacyLocalAccess.Path()), ReadPreferences(t, root + LocalPreferences.Path());
    var result := ReadPreferences(u, newRoot + LocalPreferences.Path());
    legacy.Ok? && existing.Ok? && result.Ok? && MigrationAccess.PreferencesMerged(existing.value, legacy.value, result.value)
  }

  /** The configuration of `u` is that of `t`, rewritten. */
  ghost predicate ConfigDone(t: Tree<Content>, root: Path, u: Tree<Content>, newRoot: Path, legacyPath: PathBuf) {
    var before, after := ReadToml(t, root + ConfigFile.Path()), ReadToml(u, newRoot + ConfigFile.Path());
    before.Ok? && before.value.Table? && after == Ok(Table(Current(before.value.entries, legacyPath)))
  }

  lemma ConfigElsewhere(t: Tree<Content>, root: Path, u: Tree<Content>, newRoot: Path,
                        t': Tree<Content>, root': Path, u': Tree<Content>, newRoot': Path, items: set<Item>, legacyPath: PathBuf)
    requires Agree(t, root, t', root', items) && Agree(u, newRoot, u', newRoot', items) && ConfigFile in items
    ensures ConfigDone(t, root, u, newRoot, legacyPath) ==> ConfigDone(t', root', u', newRoot', legacyPath)
  {
    hide Agree, ReadToml, Current;
    AgreeingReads(t, root, t', root', items, ConfigFile);
    AgreeingReads(u, newRoot, u', newRoot', items, ConfigFile);
  }

  /** The configuration is the current form of one, with nothing left to normalize. */
  predicate CurrentConfig(t: Tree<Content>, p: Path, legacyPath: PathBuf) {
    var current := Version(CURRENT_FUNGI_DIR_VERSION);
    ReadToml(t, p).Ok? && Detect(ReadToml(t, p).value) == Ok(current)
    && !RequiresNormalization(ReadToml(t, p).value.entries, current, legacyPath)
    && !HasLegacyPeers(ReadToml(t, p).value.entries)
  }

  /** The items of one directory are those of another. */
  ghost predicate Agree(t: Tree<Content>, root: Path, u: Tree<Content>, newRoot: Path, items: set<Item>) {
    forall x <- items :: Holds(t, root + x.Path(), u, newRoot + x.Path())
  }

  lemma AgreeingReads(t: Tree<Content>, root: Path, u: Tree<Content>, newRoot: Path, items: set<Item>, x: Item)
    requires Agree(t, root, u, newRoot, items) && x in items
    ensures ReadToml(t, root + x.Path()) == ReadToml(u, newRoot + x.Path())
    ensures ReadOptional(t, root + x.Path()) == ReadOptional(u, newRoot + x.Path())
    ensures ReadAccess(t, root + x.Path()) == ReadAccess(u, newRoot + x.Path())
    ensures ReadPreferences(t, root + x.Path()) == ReadPreferences(u, newRoot + x.Path())
  {
    SameEntry(t, root + x.Path(), u, newRoot + x.Path());
  }

  /** What was done to one directory was done to any other that agrees before and after. */
  lemma DoneElsewhere(t: Tree<Content>, root: Path, u: Tree<Content>, newRoot: Path,
                      t': Tree<Content>, root': Path, u': Tree<Content>, newRoot': Path, items: set<Item>)
    requires Agree(t, root, t', root', items) && Agree(u, newRoot, u', newRoot', items)
    ensures {ConfigFile, TrustedDevices} <= items && TrustedDone(t, root, u, newRoot) ==> TrustedDone(t', root', u', newRoot')
    ensures {LegacyAddressBook, DevicesFile} <= items && DevicesDone(t, root, u, newRoot) ==> DevicesDone(t', root', u', newRoot')
    ensures {LegacyLocalAccess, LocalPreferences} <= items && PreferencesDone(t, root, u, newRoot) ==>
              PreferencesDone(t', root', u', newRoot')
  {
    hide Agree, ReadToml, ReadOptional, ReadAccess, ReadPreferences, MigrationFiles.TrustedMerged, MigrationFiles.DevicesMerged,
         MigrationAccess.PreferencesMerged;
    if {ConfigFile, TrustedDevices} <= items {
      AgreeingReads(t, root, t', root', items, ConfigFile);
      AgreeingReads(t, root, t', root', items, TrustedDevices);
      AgreeingReads(u, newRoot, u', newRoot', items, TrustedDevices);
    }
    if {LegacyAddressBook, DevicesFile} <= items {
      AgreeingReads(t, root, t', root', items, LegacyAddressBook);
      AgreeingReads(t, root, t', root', items, DevicesFile);
      AgreeingReads(u, newRoot, u', newRoot', items, DevicesFile);
    }
    if {LegacyLocalAccess, LocalPreferences} <= items {
      AgreeingReads(t, root, t', root', items, LegacyLocalAccess);
      AgreeingReads(t, root, t', root', items, LocalPreferences);
      AgreeingReads(u, newRoot, u', newRoot', items, LocalPreferences);
    }
  }

  // ---------- what can be converted ----------

  ghost predicate CanMergeTrusted(t: Tree<Content>, root: Path) {
    var config, trusted := ReadToml(t, root + ConfigFile.Path()), ReadOptional(t, root + TrustedDevices.Path());
    config.Ok? && trusted.Ok? && MigrationFiles.CanMergePeers(config.value, trusted.value)
  }

  ghost predicate CanMergeDevices(t: Tree<Content>, root: Path) {
    var book, devices := ReadToml(t, root + LegacyAddressBook.Path()), ReadOptional(t, root + DevicesFile.Path());
    book.Ok? && devices.Ok? && MigrationFiles.CanMergeBook(book.value, devices.value)
  }

  ghost predicate CanFillPreferences(t: Tree<Content>, root: Path) {
    ReadAccess(t, root + LegacyLocalAccess.Path()).Ok? && ReadPreferences(t, root + LocalPreferences.Path()).Ok?
  }

  ghost predicate CanRewriteConfig(t: Tree<Content>, root: Path) {
    ReadToml(t, root + ConfigFile.Path()).Ok? && ReadToml(t, root + ConfigFile.Path()).value.Table?
  }

  /** Which files have to be readable, and what has to be in them, for the parts of the plan that come before the services. */
  ghost predicate CanConvertFiles(t: Tree<Content>, root: Path, plan: Plan) {
    (plan.migrateIncomingAllowedPeers ==> CanMergeTrusted(t, root))
    && (plan.migrateLegacyLocalAccess ==> CanFillPreferences(t, root))
    && (plan.updateConfig ==> CanRewriteConfig(t, root))
    && (plan.migrateAddressBook ==> CanMergeDevices(t, root))
  }

  ghost predicate CanConvertEarly(t: Tree<Content>, root: Path, plan: Plan) {
    (plan.migrateIncomingAllowedPeers ==> CanMergeTrusted(t, root)) && (plan.migrateLegacyLocalAccess ==> CanFillPreferences(t, root))
  }

  ghost predicate CanConvertLate(t: Tree<Content>, root: Path, plan: Plan) {
    (plan.updateConfig ==> CanRewriteConfig(t, root))
    && (plan.migrateAddressBook && root + LegacyAddressBook.Path() in t ==> CanMergeDevices(t, root))
  }

  lemma ConvertibleElsewhere(t: Tree<Content>, root: Path, u: Tree<Content>, newRoot: Path, items: set<Item>)
    requires Agree(t, root, u, newRoot, items)
    ensures {ConfigFile, TrustedDevices} <= items ==> (CanMergeTrusted(t, root) <==> CanMergeTrusted(u, newRoot))
    ensures {LegacyAddressBook, DevicesFile} <= items ==> (CanMergeDevices(t, root) <==> CanMergeDevices(u, newRoot))
    ensures {LegacyLocalAccess, LocalPreferences} <= items ==> (CanFillPreferences(t, root) <==> CanFillPreferences(u, newRoot))
    ensures ConfigFile in items ==> (CanRewriteConfig(t, root) <==> CanRewriteConfig(u, newRoot))
  {
    hide Agree, ReadToml, ReadOptional, ReadAccess, ReadPreferences, MigrationFiles.CanMergePeers, MigrationFiles.CanMergeBook;
    forall x | x in items
      ensures ReadToml(t, root + x.Path()) == ReadToml(u, newRoot + x.Path())
      ensures ReadOptional(t, root + x.Path()) == ReadOptional(u, newRoot + x.Path())
      ensures ReadAccess(t, root + x.Path()) == ReadAccess(u, newRoot + x.Path())
      ensures ReadPreferences(t, root + x.Path()) == ReadPreferences(u, newRoot + x.Path())
    {
      AgreeingReads(t, root, u, newRoot, items, x);
    }
  }

  // ---------- the small steps ----------

  ghost predicate Underway(fs: FileSystem<Content>, env: Env, first: Tree<Content>, past: seq<Tree<Content>>)
    reads fs
  {
    fs.Valid() && env.Valid() && Rewriting(first, fs.tree, env) && IntactSince(first, fs.trace, env, past)
  }

  method WriteStaged(fs: FileSystem<Content>, env: Env, x: Item, data: Content, ghost first: Tree<Content>, ghost past: seq<Tree<Content>>)
    returns (ok: bool)
    requires Underway(fs, env, first, past)
    modifies fs
    ensures Underway(fs, env, first, past) && CountsExactly(old(fs.failures), fs.failures, ok) && Only(old(fs.tree), fs.tree, env, {x})
    ensures ok ==> env.Staged(x) in fs.tree && fs.tree[env.Staged(x)] == Entry.File(data)
  {
    ghost var t, trace := fs.tree, fs.trace;
    StagedPlaces(env, x, x);
    ok := fs.WriteFile(env.Staged(x), data);
    ItemStep(first, t, trace, fs.tree, env, x, past);
  }

  method RemoveStagedFile(fs: FileSystem<Content>, env: Env, x: Item, ghost first: Tree<Content>, ghost past: seq<Tree<Content>>)
    returns (ok: bool)
    requires Underway(fs, env, first, past)
    modifies fs
    ensures Underway(fs, env, first, past) && CountsExactly(old(fs.failures), fs.failures, ok) && Only(old(fs.tree), fs.tree, env, {x})
    ensures ok ==> env.Staged(x) !in fs.tree
  {
    ghost var t, trace := fs.tree, fs.trace;
    StagedPlaces(env, x, x);
    ok := fs.RemoveFile(env.Staged(x));
    ItemStep(first, t, trace, fs.tree, env, x, past);
  }

  method RemoveStaged(fs: FileSystem<Content>, env: Env, x: Item, ghost first: Tree<Content>, ghost past: seq<Tree<Content>>)
    returns (ok: bool)
    requires Underway(fs, env, first, past)
    modifies fs
    ensures Underway(fs, env, first, past) && CountsExactly(old(fs.failures), fs.failures, ok) && Only(old(fs.tree), fs.tree, env, {x})
    ensures ok ==> env.Staged(x) !in fs.tree
  {
    ghost var t, trace := fs.tree, fs.trace;
    StagedPlaces(env, x, x);
    ok := fs.RemoveIfExists(env.Staged(x));
    assert Confined(t, fs.tree, {env.Staged(x)});
    ItemStep(first, t, trace, fs.tree, env, x, past);
  }

  method MakeStagedParent(fs: FileSystem<Content>, env: Env, x: Item, ghost first: Tree<Content>, ghost past: seq<Tree<Content>>)
    returns (ok: bool)
    requires Underway(fs, env, first, past)
    modifies fs
    ensures Underway(fs, env, first, past) && CountsExactly(old(fs.failures), fs.failures, ok) && Only(old(fs.tree), fs.tree, env, {})
  {
    ghost var t, trace := fs.tree, fs.trace;
    StagedPlaces(env, x, x);
    var parent := Parent(env.Staged(x));
    ok := fs.CreateDirAll(parent);
    ParentMade(first, t, trace, fs.tree, env, x, past);
  }

  /** New directories above an item are in none. */
  lemma ParentMade(first: Tree<Content>, t: Tree<Content>, trace: seq<Tree<Content>>, u: Tree<Content>, env: Env, x: Item,
                   past: seq<Tree<Content>>)
    requires env.Valid() && Rewriting(first, t, env) && IntactSince(first, trace, env, past) && env.Staged(x) != []
    requires var p := Parent(env.Staged(x)); u == MakeDirs(t, p) || exists k :: 0 <= k <= |p| && u == MakeDirs(t, p[..k])
    ensures Rewriting(first, u, env) && IntactSince(first, trace + [u], env, past) && Only(t, u, env, {})
  {
    var p := Parent(env.Staged(x));
    var k :| 0 <= k <= |p| && u == MakeDirs(t, p[..k]) by {
      if u == MakeDirs(t, p) {
        assert p[..|p|] == p;
      }
    }
    assert p[..k] <= env.Staged(x);
    MadeDirsConfined(t, p[..k], env.Staged(x));
    ItemStep(first, t, trace, u, env, x, past);
    assert !(env.Staged(x) <= p[..k]);
    SubOfMadeDirs(t, p[..k], env.Staged(x));
    assert Holds(u, env.Staged(x), t, env.Staged(x));
  }

  // ---------- the conversions ----------

  /** `migrate_legacy_incoming_allowed_peers`. */
  method RewriteTrustedDevices(fs: FileSystem<Content>, env: Env, ghost first: Tree<Content>, ghost past: seq<Tree<Content>>)
    returns (ok: bool)
    requires Underway(fs, env, first, past)
    modifies fs
    ensures Underway(fs, env, first, past) && Counts(old(fs.failures), fs.failures, ok) && Only(old(fs.tree), fs.tree, env, {TrustedDevices})
    ensures ok ==> TrustedDone(old(fs.tree), env.Staging(), fs.tree, env.Staging())
    ensures ok ==> CanMergeTrusted(old(fs.tree), env.Staging())
    ensures !ok && fs.failures == old(fs.failures) ==> !CanMergeTrusted(old(fs.tree), env.Staging())
  {
    hide MigrationFiles.CanMergePeers;
    var config := ReadToml(fs.tree, env.Staged(ConfigFile));
    var trusted := ReadOptional(fs.tree, env.Staged(TrustedDevices));
    OnlyReflexive(fs.tree, env, {TrustedDevices});
    if config.Err? || trusted.Err? {
      return false;
    }
    var merged := MigrationFiles.MigrateIncomingAllowedPeers(config.value, trusted.value);
    if merged.Err? {
      return false;
    }
    ok := WriteStaged(fs, env, TrustedDevices, MigrationServices.Toml(merged.value), first, past);
  }

  /** `migrate_legacy_local_access`. */
  method RewriteLocalAccess(fs: FileSystem<Content>, env: Env, ghost first: Tree<Content>, ghost past: seq<Tree<Content>>)
    returns (ok: bool)
    requires Underway(fs, env, first, past)
    modifies fs
    ensures Underway(fs, env, first, past) && Counts(old(fs.failures), fs.failures, ok)
    ensures Only(old(fs.tree), fs.tree, env, {LegacyLocalAccess, LocalPreferences})
    ensures ok ==> PreferencesDone(old(fs.tree), env.Staging(), fs.tree, env.Staging())
    ensures ok ==> CanFillPreferences(old(fs.tree), env.Staging())
    ensures !ok && fs.failures == old(fs.failures) ==> !CanFillPreferences(old(fs.tree), env.Staging())
    ensures ok ==> env.Staged(LegacyLocalAccess) !in fs.tree && env.Staged(LocalPreferences) in fs.tree
  {
    hide Underway, Only, MigrationAccess.PreferencesMerged;
    ghost var t, both := fs.tree, {LegacyLocalAccess, LocalPreferences};
    var legacy := ReadAccess(fs.tree, env.Staged(LegacyLocalAccess));
    var existing := ReadPreferences(fs.tree, env.Staged(LocalPreferences));
    OnlyReflexive(fs.tree, env, both);
    if legacy.Err? || existing.Err? {
      return false;
    }
    var merged := MigrationAccess.FillPreferences(existing.value, legacy.value);
    MigrationAccess.FilledIsMerged(existing.value, legacy.value);
    ok := MakeStagedParent(fs, env, LocalPreferences, first, past);
    ghost var u := fs.tree;
    OnlyWider(t, u, env, {}, both);
    if !ok {
      return;
    }
    ok := WriteStaged(fs, env, LocalPreferences, MigrationServices.Preferences(merged), first, past);
    ghost var v := fs.tree;
    OnlyWider(u, v, env, {LocalPreferences}, both);
    OnlyTrans(t, u, v, env, both, both);
    assert both + both == both;
    if !ok {
      return;
    }
    ok := RemoveStagedFile(fs, env, LegacyLocalAccess, first, past);
    OnlyWider(v, fs.tree, env, {LegacyLocalAccess}, both);
    OnlyTrans(t, v, fs.tree, env, both, both);
    EntryStays(v, fs.tree, env, {LegacyLocalAccess}, LocalPreferences);
  }

  lemma EntryStays(t: Tree<Content>, u: Tree<Content>, env: Env, items: set<Item>, x: Item)
    requires Only(t, u, env, items) && x !in items
    ensures (env.Staged(x) in u <==> env.Staged(x) in t) && (env.Staged(x) in t ==> u[env.Staged(x)] == t[env.Staged(x)])
  {
    assert Holds(u, env.Staged(x), t, env.Staged(x));
    SameEntry(u, env.Staged(x), t, env.Staged(x));
  }

  /** `remove_legacy_service_caches`. */
  method RemoveCaches(fs: FileSystem<Content>, env: Env, ghost first: Tree<Content>, ghost past: seq<Tree<Content>>) returns (ok: bool)
    requires Underway(fs, env, first, past)
    modifies fs
    ensures Underway(fs, env, first, past) && CountsExactly(old(fs.failures), fs.failures, ok)
    ensures Only(old(fs.tree), fs.tree, env, {LegacyRemoteCache, LegacyManagedCache})
    ensures ok ==> env.Staged(LegacyRemoteCache) !in fs.tree && env.Staged(LegacyManagedCache) !in fs.tree
  {
    hide Underway, Only;
    ghost var t, both := fs.tree, {LegacyRemoteCache, LegacyManagedCache};
    ok := RemoveStaged(fs, env, LegacyRemoteCache, first, past);
    ghost var u := fs.tree;
    OnlyWider(t, u, env, {LegacyRemoteCache}, both);
    if ok {
      ok := RemoveStaged(fs, env, LegacyManagedCache, first, past);
      OnlyTrans(t, u, fs.tree, env, {LegacyRemoteCache}, {LegacyManagedCache});
      EntryStays(u, fs.tree, env, {LegacyManagedCache}, LegacyRemoteCache);
      assert {LegacyRemoteCache} + {LegacyManagedCache} == both;
    }
  }

  /** `migrate_config_toml_to_current`. */
  method RewriteConfig(fs: FileSystem<Content>, env: Env, fungiDir: seq<Component>, ghost first: Tree<Content>, ghost past: seq<Tree<Content>>)
    returns (ok: bool)
    requires Underway(fs, env, first, past)
    modifies fs
    ensures Underway(fs, env, first, past) && Counts(old(fs.failures), fs.failures, ok) && Only(old(fs.tree), fs.tree, env, {ConfigFile})
    ensures ok ==> CurrentConfig(fs.tree, env.Staged(ConfigFile), LegacyServicesPath(fungiDir))
    ensures ok ==> ConfigDone(old(fs.tree), env.Staging(), fs.tree, env.Staging(), LegacyServicesPath(fungiDir))
    ensures ok ==> CanRewriteConfig(old(fs.tree), env.Staging())
    ensures !ok && fs.failures == old(fs.failures) ==> !CanRewriteConfig(old(fs.tree), env.Staging())
  {
    OnlyReflexive(fs.tree, env, {ConfigFile});
    var root := ReadToml(fs.tree, env.Staged(ConfigFile));
    if root.Err? {
      return false;
    }
    var rewritten := MigrateConfigToml(root.value, fungiDir);
    if rewritten.Err? {
      return false;
    }
    ok := WriteStaged(fs, env, ConfigFile, MigrationServices.Toml(rewritten.value), first, past);
    if ok {
      CurrentNeedsNothing(root.value.entries, LegacyServicesPath(fungiDir));
    }
  }

  /** `migrate_legacy_address_book`. */
  method RewriteDevices(fs: FileSystem<Content>, env: Env, ghost first: Tree<Content>, ghost past: seq<Tree<Content>>)
    returns (ok: bool)
    requires Underway(fs, env, first, past)
    modifies fs
    ensures Underway(fs, env, first, past) && Counts(old(fs.failures), fs.failures, ok)
    ensures Only(old(fs.tree), fs.tree, env, {LegacyAddressBook, DevicesFile})
    ensures ok && env.Staged(LegacyAddressBook) in old(fs.tree) ==> DevicesDone(old(fs.tree), env.Staging(), fs.tree, env.Staging())
    ensures ok && env.Staged(LegacyAddressBook) in old(fs.tree) ==> CanMergeDevices(old(fs.tree), env.Staging())
    ensures !ok && fs.failures == old(fs.failures) ==>
              env.Staged(LegacyAddressBook) in old(fs.tree) && !CanMergeDevices(old(fs.tree), env.Staging())
    ensures ok ==> env.Staged(LegacyAddressBook) !in fs.tree
  {
    hide Underway, Only, MigrationFiles.DevicesMerged, MigrationFiles.CanMergeBook;
    ghost var t, both := fs.tree, {LegacyAddressBook, DevicesFile};
    OnlyReflexive(fs.tree, env, both);
    if env.Staged(LegacyAddressBook) !in fs.tree {
      return true;
    }
    var book := ReadToml(fs.tree, env.Staged(LegacyAddressBook));
    var devices := ReadOptional(fs.tree, env.Staged(DevicesFile));
    if book.Err? || devices.Err? {
      return false;
    }
    var merged := MigrationFiles.MigrateAddressBook(book.value, devices.value);
    if merged.Err? {
      return false;
    }
    ok := WriteStaged(fs, env, DevicesFile, MigrationServices.Toml(merged.value), first, past);
    ghost var u := fs.tree;
    OnlyWider(t, u, env, {DevicesFile}, both);
    if !ok {
      return;
    }
    ok := RemoveStagedFile(fs, env, LegacyAddressBook, first, past);
    OnlyTrans(t, u, fs.tree, env, {DevicesFile}, {LegacyAddressBook});
    assert {DevicesFile} + {LegacyAddressBook} == both;
    EntryStays(u, fs.tree, env, {LegacyAddressBook}, DevicesFile);
  }

  // ---------- the steps before the services ----------

  const EARLY_ITEMS: set<Item> := {TrustedDevices, LegacyLocalAccess, LocalPreferences, LegacyRemoteCache, LegacyManagedCache}

  const LATE_ITEMS: set<Item> := {ConfigFile, LegacyAddressBook, DevicesFile}

  const SERVICE_ITEMS: set<Item> := {ServicesRoot, AppdataServices, ArtifactsServices, LegacyServiceState}

  ghost predicate EarlyDone(t: Tree<Content>, u: Tree<Content>, env: Env, plan: Plan) {
    (plan.migrateIncomingAllowedPeers ==> TrustedDone(t, env.Staging(), u, env.Staging()))
    && (plan.migrateLegacyLocalAccess ==> PreferencesDone(t, env.Staging(), u, env.Staging()))
  }

  ghost predicate LateDone(t: Tree<Content>, u: Tree<Content>, env: Env, plan: Plan, legacyPath: PathBuf) {
    (plan.updateConfig ==> CurrentConfig(u, env.Staged(ConfigFile), legacyPath)
                           && ConfigDone(t, env.Staging(), u, env.Staging(), legacyPath))
    && (plan.migrateAddressBook && env.Staged(LegacyAddressBook) in t ==> DevicesDone(t, env.Staging(), u, env.Staging()))
  }

  /** What a step does not touch agrees before and after. */
  lemma OnlyAgrees(t: Tree<Content>, u: Tree<Content>, env: Env, some: set<Item>, others: set<Item>)
    requires Only(t, u, env, some) && some !! others
    ensures Agree(t, env.Staging(), u, env.Staging(), others) && Agree(u, env.Staging(), t, env.Staging(), others)
  {
    forall x <- others ensures Holds(t, env.Staging() + x.Path(), u, env.Staging() + x.Path()) {
      assert env.Staged(x) == env.Staging() + x.Path();
      assert Holds(u, env.Staged(x), t, env.Staged(x));
    }
  }

  lemma AgreeReflexive(t: Tree<Content>, root: Path, items: set<Item>)
    ensures Agree(t, root, t, root, items)
  {
  }

  lemma AgreeTrans(t: Tree<Content>, a: Path, u: Tree<Content>, b: Path, v: Tree<Content>, c: Path, items: set<Item>)
    requires Agree(t, a, u, b, items) && Agree(u, b, v, c, items)
    ensures Agree(t, a, v, c, items)
  {
    forall x <- items ensures Holds(t, a + x.Path(), v, c + x.Path()) {
      assert Holds(t, a + x.Path(), u, b + x.Path()) && Holds(u, b + x.Path(), v, c + x.Path());
    }
  }

  lemma AgreeOnFewer(t: Tree<Content>, a: Path, u: Tree<Content>, b: Path, items: set<Item>, fewer: set<Item>)
    requires Agree(t, a, u, b, items) && fewer <= items
    ensures Agree(t, a, u, b, fewer)
  {
  }

  method RewriteEarly(fs: FileSystem<Content>, env: Env, plan: Plan, ghost first: Tree<Content>, ghost past: seq<Tree<Content>>)
    returns (ok: bool)
    requires Underway(fs, env, first, past)
    modifies fs
    ensures Underway(fs, env, first, past) && Counts(old(fs.failures), fs.failures, ok) && Only(old(fs.tree), fs.tree, env, EARLY_ITEMS)
    ensures ok ==> EarlyDone(old(fs.tree), fs.tree, env, plan) && EarlyGone(fs.tree, env, plan)
    ensures ok ==> CanConvertEarly(old(fs.tree), env.Staging(), plan)
    ensures !ok && fs.failures == old(fs.failures) ==> !CanConvertEarly(old(fs.tree), env.Staging(), plan)
  {
    hide Underway, Only, TrustedDone, PreferencesDone, Agree, CanMergeTrusted, CanFillPreferences;
    ghost var t := fs.tree;
    ok := true;
    OnlyReflexive(t, env, {TrustedDevices});
    if plan.migrateIncomingAllowedPeers {
      ok := RewriteTrustedDevices(fs, env, first, past);
    }
    ghost var u := fs.tree;
    OnlyWider(t, u, env, {TrustedDevices}, EARLY_ITEMS);
    OnlyReflexive(u, env, {LegacyLocalAccess, LocalPreferences});
    SameAccess(t, u, env);
    if ok && plan.migrateLegacyLocalAccess {
      ok := RewriteLocalAccess(fs, env, first, past);
    }
    ghost var v := fs.tree;
    OnlyReflexive(v, env, {LegacyRemoteCache, LegacyManagedCache});
    if ok && plan.removeLegacyServiceCaches {
      ok := RemoveCaches(fs, env, first, past);
    }
    EarlyTogether(t, u, v, fs.tree, env, plan);
    EntryStays(v, fs.tree, env, {LegacyRemoteCache, LegacyManagedCache}, LegacyLocalAccess);
    EntryStays(v, fs.tree, env, {LegacyRemoteCache, LegacyManagedCache}, LocalPreferences);
  }

  lemma SameAccess(t: Tree<Content>, u: Tree<Content>, env: Env)
    requires Only(t, u, env, {TrustedDevices})
    ensures CanFillPreferences(t, env.Staging()) <==> CanFillPreferences(u, env.Staging())
  {
    hide Only, Agree, CanFillPreferences, CanMergeTrusted, CanMergeDevices, CanRewriteConfig;
    OnlyAgrees(t, u, env, {TrustedDevices}, {LegacyLocalAccess, LocalPreferences});
    ConvertibleElsewhere(t, env.Staging(), u, env.Staging(), {LegacyLocalAccess, LocalPreferences});
  }

  /** The converted files are gone, and the preferences are there. */
  predicate EarlyGone(t: Tree<Content>, env: Env, plan: Plan) {
    (plan.migrateLegacyLocalAccess ==> env.Staged(LegacyLocalAccess) !in t && env.Staged(LocalPreferences) in t)
    && (plan.removeLegacyServiceCaches ==> env.Staged(LegacyRemoteCache) !in t && env.Staged(LegacyManagedCache) !in t)
  }

  lemma EarlyTogether(t: Tree<Content>, u: Tree<Content>, v: Tree<Content>, w: Tree<Content>, env: Env, plan: Plan)
    requires Only(t, u, env, {TrustedDevices}) && Only(u, v, env, {LegacyLocalAccess, LocalPreferences})
    requires Only(v, w, env, {LegacyRemoteCache, LegacyManagedCache})
    ensures Only(t, w, env, EARLY_ITEMS)
    ensures TrustedDone(t, env.Staging(), u, env.Staging()) ==> TrustedDone(t, env.Staging(), w, env.Staging())
    ensures PreferencesDone(u, env.Staging(), v, env.Staging()) ==> PreferencesDone(t, env.Staging(), w, env.Staging())
  {
    hide Only, TrustedDone, PreferencesDone, Agree, DevicesDone;
    var s := env.Staging();
    OnlyTrans(t, u, v, env, {TrustedDevices}, {LegacyLocalAccess, LocalPreferences});
    OnlyTrans(t, v, w, env, {TrustedDevices} + {LegacyLocalAccess, LocalPreferences}, {LegacyRemoteCache, LegacyManagedCache});
    OnlyWider(t, w, env, {TrustedDevices} + {LegacyLocalAccess, LocalPreferences} + {LegacyRemoteCache, LegacyManagedCache}, EARLY_ITEMS);
    OnlyTrans(u, v, w, env, {LegacyLocalAccess, LocalPreferences}, {LegacyRemoteCache, LegacyManagedCache});
    var trusted, access := {ConfigFile, TrustedDevices}, {LegacyLocalAccess, LocalPreferences};
    OnlyAgrees(u, w, env, {LegacyLocalAccess, LocalPreferences} + {LegacyRemoteCache, LegacyManagedCache}, trusted);
    AgreeReflexive(t, s, trusted);
    DoneElsewhere(t, s, u, s, t, s, w, s, trusted);
    OnlyAgrees(t, u, env, {TrustedDevices}, access);
    OnlyAgrees(v, w, env, {LegacyRemoteCache, LegacyManagedCache}, access);
    DoneElsewhere(u, s, v, s, t, s, w, s, access);
  }

  method RewriteLate(fs: FileSystem<Content>, env: Env, plan: Plan, fungiDir: seq<Component>, ghost first: Tree<Content>, ghost past: seq<Tree<Content>>)
    returns (ok: bool)
    requires Underway(fs, env, first, past)
    modifies fs
    ensures Underway(fs, env, first, past) && Counts(old(fs.failures), fs.failures, ok) && Only(old(fs.tree), fs.tree, env, LATE_ITEMS)
    ensures ok ==> LateDone(old(fs.tree), fs.tree, env, plan, LegacyServicesPath(fungiDir))
    ensures ok && plan.migrateAddressBook ==> env.Staged(LegacyAddressBook) !in fs.tree
    ensures ok ==> CanConvertLate(old(fs.tree), env.Staging(), plan)
    ensures !ok && fs.failures == old(fs.failures) ==> !CanConvertLate(old(fs.tree), env.Staging(), plan)
  {
    hide Underway, Only, DevicesDone, CurrentConfig, ConfigDone, Agree, CanMergeDevices, CanRewriteConfig;
    ghost var t := fs.tree;
    ok := true;
    OnlyReflexive(t, env, {ConfigFile});
    if plan.updateConfig {
      ok := RewriteConfig(fs, env, fungiDir, first, past);
    }
    ghost var u := fs.tree;
    OnlyReflexive(u, env, {LegacyAddressBook, DevicesFile});
    SameBook(t, u, env);
    if ok && plan.migrateAddressBook {
      ok := RewriteDevices(fs, env, first, past);
    }
    LateTogether(t, u, fs.tree, env, LegacyServicesPath(fungiDir));
  }

  lemma SameBook(t: Tree<Content>, u: Tree<Content>, env: Env)
    requires Only(t, u, env, {ConfigFile})
    ensures CanMergeDevices(t, env.Staging()) <==> CanMergeDevices(u, env.Staging())
    ensures env.Staging() + LegacyAddressBook.Path() in t <==> env.Staged(LegacyAddressBook) in u
  {
    hide Only, Agree, CanFillPreferences, CanMergeTrusted, CanMergeDevices, CanRewriteConfig;
    assert env.Staged(LegacyAddressBook) == env.Staging() + LegacyAddressBook.Path();
    EntryStays(t, u, env, {ConfigFile}, LegacyAddressBook);
    OnlyAgrees(t, u, env, {ConfigFile}, {LegacyAddressBook, DevicesFile});
    ConvertibleElsewhere(t, env.Staging(), u, env.Staging(), {LegacyAddressBook, DevicesFile});
  }

  lemma LateTogether(t: Tree<Content>, u: Tree<Content>, v: Tree<Content>, env: Env, legacyPath: PathBuf)
    requires Only(t, u, env, {ConfigFile}) && Only(u, v, env, {LegacyAddressBook, DevicesFile})
    ensures Only(t, v, env, LATE_ITEMS) && (env.Staged(LegacyAddressBook) in t <==> env.Staged(LegacyAddressBook) in u)
    ensures CurrentConfig(u, env.Staged(ConfigFile), legacyPath) ==> CurrentConfig(v, env.Staged(ConfigFile), legacyPath)
    ensures ConfigDone(t, env.Staging(), u, env.Staging(), legacyPath) ==> ConfigDone(t, env.Staging(), v, env.Staging(), legacyPath)
    ensures DevicesDone(u, env.Staging(), v, env.Staging()) ==> DevicesDone(t, env.Staging(), v, env.Staging())
  {
    hide Only, TrustedDone, PreferencesDone, ConfigDone, Agree, DevicesDone;
    var s, devices := env.Staging(), {LegacyAddressBook, DevicesFile};
    OnlyTrans(t, u, v, env, {ConfigFile}, devices);
    OnlyWider(t, v, env, {ConfigFile} + devices, LATE_ITEMS);
    EntryStays(t, u, env, {ConfigFile}, LegacyAddressBook);
    EntryStays(u, v, env, devices, ConfigFile);
    OnlyAgrees(u, v, env, devices, {ConfigFile});
    AgreeReflexive(t, s, {ConfigFile});
    ConfigElsewhere(t, s, u, s, t, s, v, s, {ConfigFile}, legacyPath);
    OnlyAgrees(t, u, env, {ConfigFile}, devices);
    AgreeReflexive(v, s, devices);
    DoneElsewhere(u, s, v, s, t, s, v, s, devices);
  }

  // ---------- the services ----------

  /** The services of `u` are moved, seen from a tree that held the same ones. */
  ghost predicate ServicesDone(t: Tree<Content>, u: Tree<Content>, env: Env, fungiDir: seq<Component>, ids: seq<string>, now: string) {
    env.Staged(LegacyServiceState) in t ==> exists v :: ServicesDoneFrom(t, v, u, env, fungiDir, ids, now)
  }

  ghost predicate ServicesDoneFrom(t: Tree<Content>, v: Tree<Content>, u: Tree<Content>, env: Env, fungiDir: seq<Component>, ids: seq<string>, now: string) {
    var state := MigrationServices.ReadState(v, env.Staging());
    Rooted(v) && Agree(t, env.Staging(), v, env.Staging(), SERVICE_ITEMS)
    && state.Some? && |ids| == |state.value.services|
    && MigrationServices.IsDone(v, u, MigrationServices.JobOf(state.value, env.Staging(), fungiDir, ids, now))
  }

  /** The names of the legacy state are tame, and then the transaction is still whole. */
  ghost predicate StillUnderway(fs: FileSystem<Content>, env: Env, first: Tree<Content>, past: seq<Tree<Content>>, tame: bool)
    reads fs
  {
    fs.Valid() && env.Valid() && Sub(fs.tree, env.Rollback()) == map[] && (tame ==> Underway(fs, env, first, past))
  }

  lemma ServicePlaces(env: Env)
    ensures MigrationServices.Places(env.Staging()) == StagedPlacesOf(env, SERVICE_ITEMS)
  {
    var s, places := env.Staging(), StagedPlacesOf(env, SERVICE_ITEMS);
    assert env.Staged(ServicesRoot) == s + ["services"] && env.Staged(AppdataServices) == s + ["appdata", "services"];
    assert env.Staged(ArtifactsServices) == s + ["artifacts", "services"];
    assert env.Staged(LegacyServiceState) == s + [MigrationServices.LEGACY_SERVICE_STATE_FILE];
    assert forall x <- SERVICE_ITEMS :: env.Staged(x) in MigrationServices.Places(s);
    assert env.Staged(ServicesRoot) in places && env.Staged(AppdataServices) in places;
    assert env.Staged(ArtifactsServices) in places && env.Staged(LegacyServiceState) in places;
  }

  /** The step adds nothing outside its places. */
  lemma NothingToRollBack(t: Tree<Content>, u: Tree<Content>, env: Env)
    requires Thinned(t, u, MigrationServices.Places(env.Staging())) && Sub(t, env.Rollback()) == map[]
    ensures Sub(u, env.Rollback()) == map[]
  {
    var places := MigrationServices.Places(env.Staging());
    ServicePlaces(env);
    forall r ensures r !in Sub(u, env.Rollback()) {
      var q := env.Rollback() + r;
      forall root <- places ensures Apart(root, q) {
        var x :| x in SERVICE_ITEMS && root == env.Staged(x);
        StagedPlaces(env, x, x);
        RollbackApart(root, env.Rollback(), r);
      }
      SubAt(u, env.Rollback(), r);
      SubAt(t, env.Rollback(), r);
      assert !Covered(q, places) && !AboveSome(q, places);
    }
  }

  lemma RollbackApart(root: Path, rollback: Path, r: Path)
    requires Apart(root, rollback)
    ensures Apart(root, rollback + r)
  {
  }

  /** The ids drawn are in use nowhere. */
  predicate IdsAreNew(t: Tree<Content>, root: Path, ids: seq<string>) {
    MigrationServices.Apiece(ids) && forall id <- ids :: root + ["appdata", "services", id] !in t
  }

  /** The state file can be read, and every service in it has the name of its key, and ports, all of them TCP. */
  predicate CanMoveServices(t: Tree<Content>, root: Path) {
    MigrationServices.ReadState(t, root).Some?
    && forall service <- MigrationServices.ReadState(t, root).value.services :: MigrationServices.IsAcceptable(service)
  }

  lemma MovableIff(t: Tree<Content>, u: Tree<Content>, env: Env, fungiDir: seq<Component>, ids: seq<string>, now: string)
    requires IdsAreNew(t, env.Staging(), ids) && MigrationServices.ReadState(t, env.Staging()).Some?
    requires |ids| == |MigrationServices.ReadState(t, env.Staging()).value.services|
    ensures var job := MigrationServices.JobOf(MigrationServices.ReadState(t, env.Staging()).value, env.Staging(), fungiDir, ids, now);
            && (MigrationServices.IsGivenUp(t, u, job) ==> !CanMoveServices(t, env.Staging()))
            && (MigrationServices.IsDone(t, u, job) ==> CanMoveServices(t, env.Staging()))
  {
    hide MigrationServices.IsDone, MigrationServices.IsGivenUp, MigrationServices.ReadState, MigrationServices.IsAcceptable;
    var job := MigrationServices.JobOf(MigrationServices.ReadState(t, env.Staging()).value, env.Staging(), fungiDir, ids, now);
    forall i | 0 <= i < |job.ids| ensures job.DataDir(i) !in t {
      assert job.ids[i] in ids;
    }
    MigrationServices.RefusedIffUnacceptable(t, u, job);
    AcceptableMeans(t, job);
  }

  lemma AcceptableMeans(t: Tree<Content>, job: MigrationServices.Job)
    requires |job.services| == |job.ids| && forall i :: 0 <= i < |job.ids| ==> job.DataDir(i) !in t
    ensures MigrationServices.AllAcceptable(t, job) <==>
              forall service <- job.services :: MigrationServices.IsAcceptable(service)
  {
    hide MigrationServices.IsAcceptable;
    if MigrationServices.AllAcceptable(t, job) {
      forall service | service in job.services ensures MigrationServices.IsAcceptable(service) {
        var i :| 0 <= i < |job.services| && job.services[i] == service;
        assert !MigrationServices.Refuses(t, job, i);
      }
    }
    if forall service <- job.services :: MigrationServices.IsAcceptable(service) {
      forall i | 0 <= i < |job.services| ensures !MigrationServices.Refuses(t, job, i) {
        assert job.services[i] in job.services;
        assert job.DataDir(i) == job.staging + ["appdata", "services", job.ids[i]];
      }
    }
  }

  lemma StateIsGone(t: Tree<Content>, u: Tree<Content>, env: Env, fungiDir: seq<Component>, ids: seq<string>, now: string)
    requires MigrationServices.ReadState(t, env.Staging()).Some? && |ids| == |MigrationServices.ReadState(t, env.Staging()).value.services|
    requires MigrationServices.IsDone(t, u, MigrationServices.JobOf(MigrationServices.ReadState(t, env.Staging()).value, env.Staging(), fungiDir, ids, now))
    ensures env.Staged(LegacyServiceState) !in u
  {
    hide MigrationServices.AfterServices, MigrationServices.ReadState;
    assert env.Staged(LegacyServiceState) == env.Staging() + [MigrationServices.LEGACY_SERVICE_STATE_FILE];
  }

  /** `migrate_legacy_services_state`. */
  method RewriteServices(fs: FileSystem<Content>, env: Env, fungiDir: seq<Component>, ids: seq<string>, now: string,
                         ghost first: Tree<Content>, ghost past: seq<Tree<Content>>)
    returns (ok: bool)
    requires Underway(fs, env, first, past)
    requires var state := MigrationServices.ReadState(fs.tree, env.Staging()); state.Some? ==> |ids| == |state.value.services|
    modifies fs
    ensures Counts(old(fs.failures), fs.failures, ok)
    ensures var tame := MigrationServices.TameState(old(fs.tree), env.Staging(), fungiDir);
            StillUnderway(fs, env, first, past, tame) && (tame ==> Only(old(fs.tree), fs.tree, env, SERVICE_ITEMS))
    ensures ok ==> ServicesDone(old(fs.tree), fs.tree, env, fungiDir, ids, now)
    ensures ok ==> env.Staged(LegacyServiceState) !in fs.tree
    ensures IdsAreNew(old(fs.tree), env.Staging(), ids) && env.Staged(LegacyServiceState) in old(fs.tree) ==>
              (ok ==> CanMoveServices(old(fs.tree), env.Staging()))
              && (!ok && fs.failures == old(fs.failures) ==> !CanMoveServices(old(fs.tree), env.Staging()))
  {
    hide MigrationServices.IsDone, MigrationServices.IsGivenUp, Agree, MigrationServices.NamesOnly, MigrationServices.Places, Within, Thinned,
         InStaging, IntactSince, Only;
    ghost var t, trace := fs.tree, fs.trace;
    assert env.Staged(LegacyServiceState) == env.Staging() + [MigrationServices.LEGACY_SERVICE_STATE_FILE];
    ok := MigrationServices.MigrateLegacyServicesState(fs, env.Staging(), fungiDir, ids, now);
    NothingToRollBack(t, fs.tree, env);
    var state := MigrationServices.ReadState(t, env.Staging());
    if state.Some? && IdsAreNew(t, env.Staging(), ids) {
      MovableIff(t, fs.tree, env, fungiDir, ids, now);
    }
    if ok && state.Some? {
      StateIsGone(t, fs.tree, env, fungiDir, ids, now);
    }
    if MigrationServices.TameState(t, env.Staging(), fungiDir) {
      TameServices(first, t, trace, fs.tree, fs.trace, env, past);
    }
    AgreeReflexive(t, env.Staging(), SERVICE_ITEMS);
    if ok && env.Staged(LegacyServiceState) in t {
      assert ServicesDoneFrom(t, t, fs.tree, env, fungiDir, ids, now);
    }
  }

  lemma TameServices(first: Tree<Content>, t: Tree<Content>, before: seq<Tree<Content>>, u: Tree<Content>, trace: seq<Tree<Content>>,
                     env: Env, past: seq<Tree<Content>>)
    requires env.Valid() && Rewriting(first, t, env) && IntactSince(first, before, env, past)
    requires Within(t, u, trace, MigrationServices.Places(env.Staging()), before)
    ensures Rewriting(first, u, env) && IntactSince(first, trace, env, past) && Only(t, u, env, SERVICE_ITEMS)
  {
    ServicePlaces(env);
    ItemsChange(first, t, u, env, SERVICE_ITEMS);
    forall root <- MigrationServices.Places(env.Staging()) ensures env.Staging() <= root {
      var x :| x in SERVICE_ITEMS && root == env.Staged(x);
      StagedPlaces(env, x, x);
    }
    StagingSteps(first, t, before, u, trace, env, MigrationServices.Places(env.Staging()), past);
  }

  // ---------- all of them ----------

  ghost predicate Rewritten(t: Tree<Content>, u: Tree<Content>, env: Env, plan: Plan, fungiDir: seq<Component>, ids: seq<string>, now: string) {
    EarlyDone(t, u, env, plan) && LateDone(t, u, env, plan, LegacyServicesPath(fungiDir))
    && (plan.migrateLegacyManagedServices ==> ServicesDone(t, u, env, fungiDir, ids, now))
  }

  /** The names of the staged legacy state are tame, as far as the services are to be migrated. */
  predicate TamePlan(t: Tree<Content>, root: Path, plan: Plan, fungiDir: seq<Component>) {
    plan.migrateLegacyManagedServices ==> MigrationServices.TameState(t, root, fungiDir)
  }

  predicate EnoughIds(t: Tree<Content>, root: Path, ids: seq<string>) {
    var state := MigrationServices.ReadState(t, root);
    state.Some? ==> |ids| == |state.value.services|
  }

  lemma SameState(t: Tree<Content>, root: Path, u: Tree<Content>, newRoot: Path, items: set<Item>)
    requires Agree(t, root, u, newRoot, items) && LegacyServiceState in items
    ensures MigrationServices.ReadState(t, root) == MigrationServices.ReadState(u, newRoot)
    ensures root + LegacyServiceState.Path() in t <==> newRoot + LegacyServiceState.Path() in u
  {
    SameEntry(t, root + LegacyServiceState.Path(), u, newRoot + LegacyServiceState.Path());
  }

  /** The files that the plan is for are there, and the ids are new. */
  predicate IsReady(t: Tree<Content>, root: Path, plan: Plan, ids: seq<string>) {
    (plan.migrateAddressBook ==> root + LegacyAddressBook.Path() in t)
    && (plan.migrateLegacyManagedServices ==> root + LegacyServiceState.Path() in t && IdsAreNew(t, root, ids))
  }

  /** Every file that the plan is for can be converted. */
  ghost predicate CanConvert(t: Tree<Content>, root: Path, plan: Plan) {
    CanConvertFiles(t, root, plan) && (plan.migrateLegacyManagedServices ==> CanMoveServices(t, root))
  }

  /** The legacy files are gone. */
  predicate AllGone(t: Tree<Content>, env: Env, plan: Plan) {
    EarlyGone(t, env, plan) && (plan.migrateAddressBook ==> env.Staged(LegacyAddressBook) !in t)
    && (plan.migrateLegacyManagedServices ==> env.Staged(LegacyServiceState) !in t)
  }

  /** Neither the early nor the late steps touch what the later ones start from. */
  lemma LaterSteps(t: Tree<Content>, u: Tree<Content>, env: Env, plan: Plan)
    requires Only(t, u, env, EARLY_ITEMS)
    ensures CanConvertLate(u, env.Staging(), plan) <==> CanConvertLate(t, env.Staging(), plan)
    ensures env.Staging() + LegacyAddressBook.Path() in u <==> env.Staging() + LegacyAddressBook.Path() in t
  {
    hide Only, Agree, CanFillPreferences, CanMergeTrusted, CanMergeDevices, CanRewriteConfig;
    assert env.Staged(LegacyAddressBook) == env.Staging() + LegacyAddressBook.Path();
    EntryStays(t, u, env, EARLY_ITEMS, LegacyAddressBook);
    OnlyAgrees(t, u, env, EARLY_ITEMS, LATE_ITEMS);
    ConvertibleElsewhere(t, env.Staging(), u, env.Staging(), LATE_ITEMS);
  }

  lemma IdsElsewhere(t: Tree<Content>, root: Path, u: Tree<Content>, newRoot: Path, ids: seq<string>)
    requires Holds(t, root + AppdataServices.Path(), u, newRoot + AppdataServices.Path())
    ensures IdsAreNew(t, root, ids) <==> IdsAreNew(u, newRoot, ids)
  {
    hide Sub, MigrationServices.Apiece;
    forall id ensures root + ["appdata", "services", id] in t <==> newRoot + ["appdata", "services", id] in u {
      assert root + ["appdata", "services", id] == root + AppdataServices.Path() + [id];
      assert newRoot + ["appdata", "services", id] == newRoot + AppdataServices.Path() + [id];
      SubAt(t, root + AppdataServices.Path(), [id]);
      SubAt(u, newRoot + AppdataServices.Path(), [id]);
    }
  }

  lemma ReadyForServices(t: Tree<Content>, v: Tree<Content>, env: Env, ids: seq<string>)
    requires Agree(t, env.Staging(), v, env.Staging(), SERVICE_ITEMS)
    ensures CanMoveServices(v, env.Staging()) <==> CanMoveServices(t, env.Staging())
    ensures IdsAreNew(v, env.Staging(), ids) <==> IdsAreNew(t, env.Staging(), ids)
    ensures env.Staging() + LegacyServiceState.Path() in t <==> env.Staged(LegacyServiceState) in v
  {
    hide MigrationServices.ReadState, MigrationServices.IsAcceptable, MigrationServices.Apiece, IdsAreNew, Holds;
    var s := env.Staging();
    SameState(t, s, v, s, SERVICE_ITEMS);
    assert env.Staged(LegacyServiceState) == s + LegacyServiceState.Path();
    assert AppdataServices in SERVICE_ITEMS;
    assert Holds(t, s + AppdataServices.Path(), v, s + AppdataServices.Path());
    IdsElsewhere(t, s, v, s, ids);
  }

  lemma GoneStays(v: Tree<Content>, w: Tree<Content>, env: Env, plan: Plan)
    requires Only(v, w, env, SERVICE_ITEMS) && EarlyGone(v, env, plan)
    ensures EarlyGone(w, env, plan) && (env.Staged(LegacyAddressBook) in w <==> env.Staged(LegacyAddressBook) in v)
  {
    hide Only;
    EntryStays(v, w, env, SERVICE_ITEMS, LegacyLocalAccess);
    EntryStays(v, w, env, SERVICE_ITEMS, LocalPreferences);
    EntryStays(v, w, env, SERVICE_ITEMS, LegacyRemoteCache);
    EntryStays(v, w, env, SERVICE_ITEMS, LegacyManagedCache);
    EntryStays(v, w, env, SERVICE_ITEMS, LegacyAddressBook);
  }

  lemma GoneStaysLate(u: Tree<Content>, v: Tree<Content>, env: Env, plan: Plan)
    requires Only(u, v, env, LATE_ITEMS) && EarlyGone(u, env, plan)
    ensures EarlyGone(v, env, plan)
  {
    hide Only;
    EntryStays(u, v, env, LATE_ITEMS, LegacyLocalAccess);
    EntryStays(u, v, env, LATE_ITEMS, LocalPreferences);
    EntryStays(u, v, env, LATE_ITEMS, LegacyRemoteCache);
    EntryStays(u, v, env, LATE_ITEMS, LegacyManagedCache);
  }

  /** The rewriting steps of `migrate_with_plan`, in its order. */
  method Rewrite(fs: FileSystem<Content>, env: Env, plan: Plan, fungiDir: seq<Component>, ids: seq<string>, now: string,
                 ghost first: Tree<Content>, ghost past: seq<Tree<Content>>)
    returns (ok: bool)
    requires Underway(fs, env, first, past) && (plan.migrateLegacyManagedServices ==> EnoughIds(fs.tree, env.Staging(), ids))
    modifies fs
    ensures Counts(old(fs.failures), fs.failures, ok)
    ensures StillUnderway(fs, env, first, past, TamePlan(old(fs.tree), env.Staging(), plan, fungiDir))
    ensures TamePlan(old(fs.tree), env.Staging(), plan, fungiDir) && ok ==>
              Rewritten(old(fs.tree), fs.tree, env, plan, fungiDir, ids, now)
    ensures IsReady(old(fs.tree), env.Staging(), plan, ids) ==>
              (ok ==> CanConvert(old(fs.tree), env.Staging(), plan))
              && (!ok && fs.failures == old(fs.failures) ==> !CanConvert(old(fs.tree), env.Staging(), plan))
    ensures IsReady(old(fs.tree), env.Staging(), plan, ids) && TamePlan(old(fs.tree), env.Staging(), plan, fungiDir) && ok ==>
              AllGone(fs.tree, env, plan)
  {
    hide Rewriting, IntactSince, Only, Agree, EarlyDone, LateDone, ServicesDone, MigrationServices.ReadState, MigrationServices.NamesOnly,
         EarlyGone, CanMergeTrusted, CanMergeDevices, CanFillPreferences, CanRewriteConfig, CanMoveServices, IdsAreNew;
    ghost var t := fs.tree;
    ok := RewriteEarly(fs, env, plan, first, past);
    ghost var u := fs.tree;
    LaterSteps(t, u, env, plan);
    if ok {
      ok := RewriteLate(fs, env, plan, fungiDir, first, past);
    }
    if !ok {
      UnderwayStill(fs, env, first, past, TamePlan(t, env.Staging(), plan, fungiDir));
      return;
    }
    ghost var v := fs.tree;
    SameServices(t, u, v, env);
    OnlyReflexive(v, env, SERVICE_ITEMS);
    UnderwayStill(fs, env, first, past, true);
    ReadyForServices(t, v, env, ids);
    GoneStaysLate(u, v, env, plan);
    if plan.migrateLegacyManagedServices {
      ok := RewriteServices(fs, env, fungiDir, ids, now, first, past);
    }
    if TamePlan(t, env.Staging(), plan, fungiDir) {
      AllTogether(t, u, v, fs.tree, env, plan, LegacyServicesPath(fungiDir), fungiDir, ids, now);
      GoneStays(v, fs.tree, env, plan);
    }
  }

  lemma UnderwayStill(fs: FileSystem<Content>, env: Env, first: Tree<Content>, past: seq<Tree<Content>>, tame: bool)
    requires Underway(fs, env, first, past)
    ensures StillUnderway(fs, env, first, past, tame)
  {
  }

  /** The files are rewritten without touching the services. */
  lemma SameServices(t: Tree<Content>, u: Tree<Content>, v: Tree<Content>, env: Env)
    requires Only(t, u, env, EARLY_ITEMS) && Only(u, v, env, LATE_ITEMS)
    ensures Agree(t, env.Staging(), v, env.Staging(), SERVICE_ITEMS)
    ensures MigrationServices.ReadState(t, env.Staging()) == MigrationServices.ReadState(v, env.Staging())
  {
    hide Only, Agree;
    OnlyTrans(t, u, v, env, EARLY_ITEMS, LATE_ITEMS);
    OnlyAgrees(t, v, env, EARLY_ITEMS + LATE_ITEMS, SERVICE_ITEMS);
    SameState(t, env.Staging(), v, env.Staging(), SERVICE_ITEMS);
  }

  lemma AllTogether(t: Tree<Content>, u: Tree<Content>, v: Tree<Content>, w: Tree<Content>, env: Env, plan: Plan, legacyPath: PathBuf,
                    fungiDir: seq<Component>, ids: seq<string>, now: string)
    requires Only(t, u, env, EARLY_ITEMS) && Only(u, v, env, LATE_ITEMS) && Only(v, w, env, SERVICE_ITEMS)
    ensures EarlyDone(t, u, env, plan) ==> EarlyDone(t, w, env, plan)
    ensures LateDone(u, v, env, plan, legacyPath) ==> LateDone(t, w, env, plan, legacyPath)
    ensures ServicesDone(v, w, env, fungiDir, ids, now) ==> ServicesDone(t, w, env, fungiDir, ids, now)
  {
    EarlyStays(t, u, v, w, env, plan);
    LateStays(t, u, v, w, env, plan, legacyPath);
    SameServices(t, u, v, env);
    ServicesStay(t, v, w, env, fungiDir, ids, now);
  }

  lemma EarlyStays(t: Tree<Content>, u: Tree<Content>, v: Tree<Content>, w: Tree<Content>, env: Env, plan: Plan)
    requires Only(u, v, env, LATE_ITEMS) && Only(v, w, env, SERVICE_ITEMS)
    ensures EarlyDone(t, u, env, plan) ==> EarlyDone(t, w, env, plan)
  {
    hide Only, Agree, TrustedDone, PreferencesDone, DevicesDone;
    var s := env.Staging();
    OnlyTrans(u, v, w, env, LATE_ITEMS, SERVICE_ITEMS);
    TrustedStays(t, u, w, env, LATE_ITEMS + SERVICE_ITEMS);
    var access := {LegacyLocalAccess, LocalPreferences};
    OnlyAgrees(u, w, env, LATE_ITEMS + SERVICE_ITEMS, access);
    AgreeReflexive(t, s, access);
    DoneElsewhere(t, s, u, s, t, s, w, s, access);
  }

  /** The list of trusted devices is read once and never written again. */
  lemma TrustedStays(t: Tree<Content>, u: Tree<Content>, w: Tree<Content>, env: Env, items: set<Item>)
    requires Only(u, w, env, items) && TrustedDevices !in items
    ensures TrustedDone(t, env.Staging(), u, env.Staging()) ==> TrustedDone(t, env.Staging(), w, env.Staging())
  {
    hide MigrationFiles.TrustedMerged;
    EntryStays(u, w, env, items, TrustedDevices);
    assert env.Staged(TrustedDevices) == env.Staging() + TrustedDevices.Path();
  }

  lemma LateStays(t: Tree<Content>, u: Tree<Content>, v: Tree<Content>, w: Tree<Content>, env: Env, plan: Plan, legacyPath: PathBuf)
    requires Only(t, u, env, EARLY_ITEMS) && Only(v, w, env, SERVICE_ITEMS)
    ensures LateDone(u, v, env, plan, legacyPath) ==> LateDone(t, w, env, plan, legacyPath)
  {
    hide Only, Agree, TrustedDone, PreferencesDone, ConfigDone, DevicesDone;
    var s, devices := env.Staging(), {LegacyAddressBook, DevicesFile};
    OnlyAgrees(t, u, env, EARLY_ITEMS, {ConfigFile});
    OnlyAgrees(v, w, env, SERVICE_ITEMS, {ConfigFile});
    ConfigElsewhere(u, s, v, s, t, s, w, s, {ConfigFile}, legacyPath);
    EntryStays(t, u, env, EARLY_ITEMS, LegacyAddressBook);
    EntryStays(v, w, env, SERVICE_ITEMS, ConfigFile);
    OnlyAgrees(t, u, env, EARLY_ITEMS, devices);
    OnlyAgrees(v, w, env, SERVICE_ITEMS, devices);
    DoneElsewhere(u, s, v, s, t, s, w, s, devices);
  }

  lemma ServicesStay(t: Tree<Content>, v: Tree<Content>, w: Tree<Content>, env: Env, fungiDir: seq<Component>, ids: seq<string>, now: string)
    requires Agree(t, env.Staging(), v, env.Staging(), SERVICE_ITEMS)
    ensures ServicesDone(v, w, env, fungiDir, ids, now) ==> ServicesDone(t, w, env, fungiDir, ids, now)
  {
    hide Agree, MigrationServices.IsDone, MigrationServices.ReadState;
    var s := env.Staging();
    SameState(t, s, v, s, SERVICE_ITEMS);
    assert env.Staged(LegacyServiceState) == s + LegacyServiceState.Path();
    if ServicesDone(v, w, env, fungiDir, ids, now) && env.Staged(LegacyServiceState) in t {
      var x :| ServicesDoneFrom(v, x, w, env, fungiDir, ids, now);
      AgreeTrans(t, s, v, s, x, s, SERVICE_ITEMS);
      assert ServicesDoneFrom(t, x, w, env, fungiDir, ids, now);
    }
  }
}
