/** The whole migration: `migrate_if_needed` and the transaction around the rewriting steps. */
module Migration {
  import opened FileTree
  import opened FsPaths
  import opened MigrationConfig
  import opened MigrationPlan
  import opened MigrationRewrite
  import opened MigrationStaging
  import opened Wrappers
  import Forwarding
  import MigrationApply
  import MigrationServices
  import MigrationServicesData

  /** `validate_migrated_dir`. */
  predicate ValidatedDir(t: Tree<Content>, env: Env, plan: Plan) {
    && (plan.updateConfig ==> DetectSourceVersion(t, env.Staging()) == Ok(Version(CURRENT_FUNGI_DIR_VERSION)))
    && (plan.migrateAddressBook ==> env.Staged(LegacyAddressBook) !in t && env.Staged(DevicesFile) in t)
    && (plan.migrateIncomingAllowedPeers ==> env.Staged(TrustedDevices) in t)
    && (plan.migrateLegacyLocalAccess ==> env.Staged(LegacyLocalAccess) !in t && env.Staged(LocalPreferences) in t)
    && (plan.removeLegacyServiceCaches ==> env.Staged(LegacyRemoteCache) !in t && env.Staged(LegacyManagedCache) !in t)
    && (plan.migrateLegacyManagedServices ==> env.Staged(LegacyServiceState) !in t)
  }

  // ---------- putting the staged items in place ----------

  function Paths(items: seq<Item>): seq<Path> {
    seq(|items|, i requires 0 <= i < |items| => items[i].Path())
  }

  function LayoutOf(env: Env, items: seq<Item>): MigrationApply.Layout {
    MigrationApply.Layout(env.live, env.stagingName, Paths(items))
  }

  lemma LayoutIsWellPlaced(env: Env, items: seq<Item>)
    requires env.Valid() && Distinct(items)
    ensures MigrationApply.WellPlaced(LayoutOf(env, items))
    ensures LayoutOf(env, items).Rollback() == env.Rollback() && LayoutOf(env, items).Staging() == env.Staging()
    ensures forall i :: 0 <= i < |items| ==>
              LayoutOf(env, items).LiveAt(i) == env.Live(items[i]) && LayoutOf(env, items).StagedAt(i) == env.Staged(items[i])
  {
    forall i | 0 <= i < |items|
      ensures items[i].Path() != [] && items[i].Path()[0] != env.stagingName
              && items[i].Path()[0] != MigrationApply.APPLY_ROLLBACK_DIR_NAME
    {
      Heads(env, items[i]);
    }
    forall i, j | 0 <= i < j < |items| ensures Apart(items[i].Path(), items[j].Path()) {
      ItemsApart(items[i], items[j]);
    }
  }

  function LivePlaces(env: Env, items: seq<Item>): set<Path> {
    set x | x in items :: env.Live(x)
  }

  function ApplyRoots(env: Env, items: seq<Item>): set<Path> {
    LivePlaces(env, items) + {env.Staging()}
  }

  /** What `apply_staged_paths` keeps, in terms of the roots. */
  lemma KeptIsConfined(t: Tree<Content>, u: Tree<Content>, env: Env, items: seq<Item>)
    requires env.Valid() && Distinct(items) && MigrationApply.KeepsOutside(t, u, LayoutOf(env, items))
    ensures Confined(t, u, ApplyRoots(env, items))
  {
    var l, roots := LayoutOf(env, items), ApplyRoots(env, items);
    LayoutIsWellPlaced(env, items);
    forall q | !Covered(q, roots) ensures MigrationApply.Outside(l, q) {
      assert env.Staging() in roots;
      forall i | 0 <= i < |l.paths| ensures !(l.LiveAt(i) <= q) {
        assert env.Live(items[i]) in roots;
      }
    }
    forall q | MigrationApply.AboveSome(l, q) ensures AboveSome(q, roots) {
      var i :| 0 <= i < |l.paths| && q < l.LiveAt(i);
      assert env.Live(items[i]) in roots;
    }
  }

  lemma ApplyKeepsBackup(first: Tree<Content>, t: Tree<Content>, u: Tree<Content>, env: Env, items: seq<Item>)
    requires env.Valid() && Distinct(items) && BackedUp(first, t, env) && MigrationApply.KeepsOutside(t, u, LayoutOf(env, items))
    ensures BackedUp(first, u, env)
  {
    KeptIsConfined(t, u, env, items);
    ApplyRootsApart(env, items);
    BackupStays(first, t, u, env, ApplyRoots(env, items));
  }

  lemma ApplyRootsApart(env: Env, items: seq<Item>)
    requires env.Valid()
    ensures forall root <- ApplyRoots(env, items) :: Apart(root, env.Backup())
  {
    StagingIsScratch(env);
    assert env.BackupRoot() + [env.backupName] == env.Backup();
    forall root <- LivePlaces(env, items) ensures Apart(root, env.Backup()) {
      var x :| x in items && root == env.Live(x);
      LivePlace(env, x, x);
      ApartBelowOne(root, env.BackupRoot(), env.backupName);
    }
  }

  /** Each item is live as it was staged, and nothing else has changed. */
  ghost predicate InPlace(first: Tree<Content>, staged: Tree<Content>, t: Tree<Content>, env: Env, items: seq<Item>) {
    (forall x <- items :: Holds(t, env.Live(x), staged, env.Staged(x)))
    && Confined(first, t, Scratch(env) + LivePlaces(env, items))
  }

  /** Outside the scratch directories nothing has changed, but for new directories above the items. */
  ghost predicate Unharmed(first: Tree<Content>, t: Tree<Content>, env: Env, items: seq<Item>) {
    Confined(first, t, Scratch(env) + LivePlaces(env, items)) && forall x <- items :: Holds(t, env.Live(x), first, env.Live(x))
  }

  lemma ScratchOnly(first: Tree<Content>, t: Tree<Content>, env: Env, items: seq<Item>)
    requires env.Valid() && Confined(first, t, Scratch(env))
    ensures Unharmed(first, t, env, items)
  {
    forall x <- items ensures Holds(t, env.Live(x), first, env.Live(x)) {
      ItemStays(first, t, env, x);
    }
    WiderScratch(first, t, env, items);
  }

  lemma WiderScratch(first: Tree<Content>, t: Tree<Content>, env: Env, items: seq<Item>)
    requires Confined(first, t, Scratch(env))
    ensures Confined(first, t, Scratch(env) + LivePlaces(env, items))
  {
    forall root <- Scratch(env) ensures Covered(root, Scratch(env) + LivePlaces(env, items)) {
      assert root <= root && root in Scratch(env) + LivePlaces(env, items);
    }
    ConfinedWiden(first, t, Scratch(env), Scratch(env) + LivePlaces(env, items));
  }

  lemma AppliedConfined(first: Tree<Content>, t: Tree<Content>, u: Tree<Content>, env: Env, items: seq<Item>)
    requires env.Valid() && Distinct(items) && Confined(first, t, Scratch(env)) && MigrationApply.KeepsOutside(t, u, LayoutOf(env, items))
    ensures Confined(first, u, Scratch(env) + LivePlaces(env, items))
  {
    var wide := Scratch(env) + LivePlaces(env, items);
    WiderScratch(first, t, env, items);
    KeptIsConfined(t, u, env, items);
    forall root <- ApplyRoots(env, items) ensures Covered(root, wide) {
      assert root <= root && root in wide;
    }
    ConfinedWiden(t, u, ApplyRoots(env, items), wide);
    ConfinedTrans(first, t, u, wide);
  }

  /** `apply_staged_paths` on the touched items. */
  method Apply(fs: FileSystem<Content>, env: Env, items: seq<Item>, ghost first: Tree<Content>, ghost past: seq<Tree<Content>>, ghost tame: bool)
    returns (ok: bool)
    requires StillUnderway(fs, env, first, past, tame) && Distinct(items) && items != []
    modifies fs
    ensures fs.Valid() && old(fs.failures) <= fs.failures && (ok <==> fs.failures == old(fs.failures))
    ensures tame ==> BackedUp(first, fs.tree, env) && IntactSince(first, fs.trace, env, past)
    ensures tame && ok ==> InPlace(first, old(fs.tree), fs.tree, env, items)
    ensures tame && fs.failures == old(fs.failures) + 1 ==> Unharmed(first, fs.tree, env, items)
  {
    ghost var t, trace := fs.tree, fs.trace;
    LayoutIsWellPlaced(env, items);
    AbsentIsEmpty(t, env.Rollback());
    ok := MigrationApply.ApplyStagedPaths(fs, LayoutOf(env, items));
    if tame {
      ApplyTrace(first, t, trace, fs.trace, env, items, past);
      AfterApply(first, t, fs.tree, env, items);
    }
  }

  lemma AfterApply(first: Tree<Content>, t: Tree<Content>, u: Tree<Content>, env: Env, items: seq<Item>)
    requires env.Valid() && Distinct(items) && InStaging(first, t, env) && MigrationApply.KeepsOutside(t, u, LayoutOf(env, items))
    ensures BackedUp(first, u, env)
    ensures MigrationApply.AllStaged(t, u, LayoutOf(env, items)) ==> InPlace(first, t, u, env, items)
    ensures MigrationApply.AllLive(t, u, LayoutOf(env, items)) ==> Unharmed(first, u, env, items)
  {
    ApplyKeepsBackup(first, t, u, env, items);
    AppliedConfined(first, t, u, env, items);
    if MigrationApply.AllStaged(t, u, LayoutOf(env, items)) {
      ItemsInPlace(t, u, env, items);
    }
    if MigrationApply.AllLive(t, u, LayoutOf(env, items)) {
      ItemsRestored(first, t, u, env, items);
    }
  }

  lemma ApplyTrace(first: Tree<Content>, t: Tree<Content>, before: seq<Tree<Content>>, trace: seq<Tree<Content>>, env: Env,
                   items: seq<Item>, past: seq<Tree<Content>>)
    requires env.Valid() && Distinct(items) && BackedUp(first, t, env) && IntactSince(first, before, env, past)
    requires before <= trace && forall k :: |before| <= k < |trace| ==> MigrationApply.Safe(t, trace[k], LayoutOf(env, items))
    ensures IntactSince(first, trace, env, past)
  {
    forall k | |before| <= k < |trace| ensures Intact(first, trace[k], env) {
      assert MigrationApply.Safe(t, trace[k], LayoutOf(env, items));
      ApplyKeepsBackup(first, t, trace[k], env, items);
    }
    IntactOn(first, before, trace, env, past);
  }

  lemma ItemsInPlace(t: Tree<Content>, u: Tree<Content>, env: Env, items: seq<Item>)
    requires env.Valid() && Distinct(items) && MigrationApply.AllStaged(t, u, LayoutOf(env, items))
    ensures forall x <- items :: Holds(u, env.Live(x), t, env.Staged(x))
  {
    LayoutIsWellPlaced(env, items);
    forall x <- items ensures Holds(u, env.Live(x), t, env.Staged(x)) {
      var i :| 0 <= i < |items| && items[i] == x;
      assert MigrationApply.LiveIsStaged(t, u, LayoutOf(env, items), i);
    }
  }

  lemma ItemsRestored(first: Tree<Content>, t: Tree<Content>, u: Tree<Content>, env: Env, items: seq<Item>)
    requires env.Valid() && Distinct(items) && Confined(first, t, Scratch(env)) && MigrationApply.AllLive(t, u, LayoutOf(env, items))
    ensures forall x <- items :: Holds(u, env.Live(x), first, env.Live(x))
  {
    LayoutIsWellPlaced(env, items);
    forall x <- items ensures Holds(u, env.Live(x), first, env.Live(x)) {
      var i :| 0 <= i < |items| && items[i] == x;
      assert MigrationApply.LiveIsOriginal(t, u, LayoutOf(env, items), i);
      ItemStays(first, t, env, x);
    }
  }

  /** The last call: the staging directory is removed, or what is left of it is no longer whole. */
  ghost predicate LastRemoved(trace: seq<Tree<Content>>, staging: Path, cleaned: bool) {
    |trace| >= 2
    && var before, after := trace[|trace| - 2], trace[|trace| - 1];
    if cleaned then after == RemoveTree(before, staging) else Shrunk(before, after, staging)
  }

  /** `remove_dir_all` of the staging directory; nothing live depends on it any more. */
  method RemoveStaging(fs: FileSystem<Content>, env: Env, items: seq<Item>, ghost first: Tree<Content>, ghost staged: Tree<Content>,
                       ghost past: seq<Tree<Content>>, ghost tame: bool)
    returns (ok: bool)
    requires fs.Valid() && env.Valid()
    requires tame ==> BackedUp(first, fs.tree, env) && IntactSince(first, fs.trace, env, past) && InPlace(first, staged, fs.tree, env, items)
    modifies fs
    ensures fs.Valid() && fs.failures == old(fs.failures) + Faults(ok) && LastRemoved(fs.trace, env.Staging(), ok)
    ensures ok ==> env.Staging() !in fs.tree
    ensures tame ==> BackedUp(first, fs.tree, env) && IntactSince(first, fs.trace, env, past) && InPlace(first, staged, fs.tree, env, items)
  {
    ghost var t, trace := fs.tree, fs.trace;
    ok := fs.RemoveIfExists(env.Staging());
    assert fs.trace[|fs.trace| - 2] == trace[|trace| - 1] == t;
    if tame {
      assert Confined(t, fs.tree, {env.Staging()});
      StagingIsScratch(env);
      BackupStays(first, t, fs.tree, env, {env.Staging()});
      StaysIntact(first, trace, fs.tree, env, past);
      StagingGone(first, staged, t, fs.tree, env, items);
    }
  }

  lemma StagingGone(first: Tree<Content>, staged: Tree<Content>, t: Tree<Content>, u: Tree<Content>, env: Env, items: seq<Item>)
    requires env.Valid() && InPlace(first, staged, t, env, items) && Confined(t, u, {env.Staging()})
    ensures InPlace(first, staged, u, env, items)
  {
    var wide := Scratch(env) + LivePlaces(env, items);
    assert env.Staging() in wide && env.Staging() <= env.Staging();
    ConfinedWiden(t, u, {env.Staging()}, wide);
    ConfinedTrans(first, t, u, wide);
    forall x <- items ensures Holds(u, env.Live(x), staged, env.Staged(x)) {
      LivePlace(env, x, x);
      ConfinedSub(t, u, {env.Staging()}, env.Live(x));
      assert Holds(t, env.Live(x), staged, env.Staged(x));
    }
  }

  // ---------- the migration is a fixpoint ----------

  /** The directory is in its current form: nothing asks for a migration. */
  ghost predicate IsCurrent(t: Tree<Content>, live: Path, legacyPath: PathBuf) {
    DetectSourceVersion(t, live) == Ok(Version(CURRENT_FUNGI_DIR_VERSION))
    && ConfigNeeds(t, live, legacyPath, Version(CURRENT_FUNGI_DIR_VERSION)) == Ok((false, false))
    && forall x: Item :: x.Legacy() ==> !Has(t, live, x)
  }

  /** For such a directory the plan is empty, and planning does not fail. */
  lemma CurrentPlansNothing(t: Tree<Content>, live: Path, legacyPath: PathBuf, plan: Plan)
    requires IsCurrent(t, live, legacyPath)
    ensures !Refused(t, live, Version(CURRENT_FUNGI_DIR_VERSION))
    ensures IsPlan(t, live, legacyPath, Version(CURRENT_FUNGI_DIR_VERSION), plan) ==> plan.touched == []
  {
    if IsPlan(t, live, legacyPath, Version(CURRENT_FUNGI_DIR_VERSION), plan) {
      EmptyPlan(t, live, legacyPath, Version(CURRENT_FUNGI_DIR_VERSION), plan);
    }
  }

  lemma ReadSame(t: Tree<Content>, p: Path, u: Tree<Content>, q: Path)
    requires Holds(t, p, u, q)
    ensures (p in t <==> q in u) && ReadToml(t, p) == ReadToml(u, q)
  {
    SameEntry(t, p, u, q);
  }

  predicate CanMigrate(source: DetectedVersion) {
    source in {LegacyNoVersion, Version(PREVIOUS_FUNGI_DIR_VERSION), Version(CURRENT_FUNGI_DIR_VERSION)}
  }

  /** After the items are in place, an item that was not touched is as it was. */
  lemma UntouchedItem(first: Tree<Content>, staged: Tree<Content>, t: Tree<Content>, env: Env, items: seq<Item>, x: Item)
    requires env.Valid() && InPlace(first, staged, t, env, items) && x !in items
    ensures Holds(t, env.Live(x), first, env.Live(x))
  {
    var wide := Scratch(env) + LivePlaces(env, items);
    forall root <- wide ensures Apart(root, env.Live(x)) {
      LivePlace(env, x, x);
      if root in LivePlaces(env, items) {
        var y :| y in items && root == env.Live(y);
        LivePlacesApart(env, x, y);
      }
    }
    ConfinedSub(first, t, wide, env.Live(x));
  }

  lemma LegacyItemGone(first: Tree<Content>, staged: Tree<Content>, t: Tree<Content>, env: Env, legacyPath: PathBuf,
                       source: DetectedVersion, plan: Plan, x: Item)
    requires env.Valid() && InPlace(first, staged, t, env, plan.touched) && ValidatedDir(staged, env, plan)
    requires IsPlan(first, env.live, legacyPath, source, plan) && x.Legacy()
    ensures !Has(t, env.live, x)
  {
    if x in plan.touched {
      assert env.Staged(x) !in staged;
      ReadSame(t, env.Live(x), staged, env.Staged(x));
    } else {
      assert !Has(first, env.live, x);
      UntouchedItem(first, staged, t, env, plan.touched, x);
      ReadSame(t, env.Live(x), first, env.Live(x));
    }
  }

  lemma ConfigIsCurrent(first: Tree<Content>, staged: Tree<Content>, t: Tree<Content>, env: Env, legacyPath: PathBuf,
                        source: DetectedVersion, plan: Plan)
    requires env.Valid() && InPlace(first, staged, t, env, plan.touched)
    requires IsPlan(first, env.live, legacyPath, source, plan)
    requires DetectSourceVersion(first, env.live) == Ok(source) && CanMigrate(source)
    requires plan.updateConfig ==> CurrentConfig(staged, env.Staged(ConfigFile), legacyPath)
    ensures Has(t, env.live, ConfigFile) && CurrentConfig(t, env.Live(ConfigFile), legacyPath)
  {
    if plan.updateConfig {
      assert ConfigFile in plan.touched;
      ReadSame(t, env.Live(ConfigFile), staged, env.Staged(ConfigFile));
    } else {
      assert ConfigFile !in plan.touched;
      ConfigWasCurrent(first, env.live, legacyPath, source, plan);
      UntouchedItem(first, staged, t, env, plan.touched, ConfigFile);
      ReadSame(t, env.Live(ConfigFile), first, env.Live(ConfigFile));
    }
  }

  /** A configuration that is not rewritten is current as it is. */
  lemma ConfigWasCurrent(t: Tree<Content>, live: Path, legacyPath: PathBuf, source: DetectedVersion, plan: Plan)
    requires IsPlan(t, live, legacyPath, source, plan) && !plan.updateConfig
    requires DetectSourceVersion(t, live) == Ok(source) && CanMigrate(source)
    ensures Has(t, live, ConfigFile) && CurrentConfig(t, live + ConfigFile.Path(), legacyPath)
  {
    assert !ConfigNeeds(t, live, legacyPath, source).value.0;
  }

  /** A finished migration leaves a directory that needs none. */
  lemma MigratedIsCurrent(first: Tree<Content>, staged: Tree<Content>, t: Tree<Content>, env: Env, legacyPath: PathBuf,
                          source: DetectedVersion, plan: Plan)
    requires env.Valid() && InPlace(first, staged, t, env, plan.touched) && ValidatedDir(staged, env, plan)
    requires IsPlan(first, env.live, legacyPath, source, plan)
    requires DetectSourceVersion(first, env.live) == Ok(source) && CanMigrate(source)
    requires plan.updateConfig ==> CurrentConfig(staged, env.Staged(ConfigFile), legacyPath)
    ensures IsCurrent(t, env.live, legacyPath)
  {
    ConfigIsCurrent(first, staged, t, env, legacyPath, source, plan);
    forall x: Item | x.Legacy() ensures !Has(t, env.live, x) {
      LegacyItemGone(first, staged, t, env, legacyPath, source, plan, x);
    }
  }

  // ---------- what has arrived ----------

  /** The job of the services, with the directory itself in place of the staging one. */
  function LiveJob(first: Tree<Content>, live: Path, fungiDir: seq<Component>, ids: seq<string>, now: string): MigrationServices.Job
    requires MigrationServices.ReadState(first, live).Some?
  {
    MigrationServices.JobOf(MigrationServices.ReadState(first, live).value, live, fungiDir, ids, now)
  }

  /** Every service is in its new place. */
  ghost predicate ServicesArrived(first: Tree<Content>, t: Tree<Content>, live: Path, fungiDir: seq<Component>, ids: seq<string>, now: string) {
    MigrationServices.ReadState(first, live).Some?
    && var job := LiveJob(first, live, fungiDir, ids, now);
    |job.services| == |job.ids|
    && (MigrationServicesData.FreshIds(first, job) ==> AllSettled(first, t, job))
  }

  /**
   * Every service has, under its new id, what the ones before it left of its old directory, and so all of
   * its files just if none of them carried any off.
   */
  ghost predicate AllSettled(first: Tree<Content>, t: Tree<Content>, job: MigrationServices.Job)
    requires |job.services| == |job.ids|
  {
    forall i: nat :: i < |job.services| ==>
      MigrationServicesData.Settled(first, t, job, i) && KeepsItsFiles(first, t, job, i)
  }

  ghost predicate KeepsItsFiles(first: Tree<Content>, t: Tree<Content>, job: MigrationServices.Job, i: nat)
    requires i < |job.services| == |job.ids|
  {
    MigrationServicesData.DataKept(first, t, job, i) <==>
      forall j :: 0 <= j < i ==> !MigrationServicesData.Overruns(first, job, j, i)
  }

  /** What the parts of the plan were for is in the directory. */
  ghost predicate Arrived(first: Tree<Content>, t: Tree<Content>, live: Path, plan: Plan, fungiDir: seq<Component>, ids: seq<string>, now: string) {
    (plan.updateConfig ==> ConfigDone(first, live, t, live, LegacyServicesPath(fungiDir)))
    && (plan.migrateIncomingAllowedPeers ==> TrustedDone(first, live, t, live))
    && (plan.migrateLegacyLocalAccess ==> PreferencesDone(first, live, t, live))
    && (plan.migrateAddressBook ==> DevicesDone(first, live, t, live))
    && (plan.migrateLegacyManagedServices ==> ServicesArrived(first, t, live, fungiDir, ids, now))
  }

  /** The touched items, from before the staging to after it. */
  ghost predicate Carried(first: Tree<Content>, t: Tree<Content>, env: Env, items: seq<Item>) {
    Agree(t, env.Staging(), first, env.live, set x | x in items)
  }

  lemma StagedIsCarried(first: Tree<Content>, t: Tree<Content>, env: Env, items: seq<Item>)
    requires StagedSoFar(first, t, env, items, |items|)
    ensures Carried(first, t, env, items)
  {
    assert items[..|items|] == items;
    forall x | x in items ensures Holds(t, env.Staging() + x.Path(), first, env.live + x.Path()) {
      assert Holds(t, env.Staged(x), first, env.Live(x));
    }
  }

  lemma PlacedIsCarried(first: Tree<Content>, staged: Tree<Content>, t: Tree<Content>, env: Env, items: seq<Item>)
    requires InPlace(first, staged, t, env, items)
    ensures Agree(staged, env.Staging(), t, env.live, set x | x in items)
  {
    forall x | x in items ensures Holds(staged, env.Staging() + x.Path(), t, env.live + x.Path()) {
      assert Holds(t, env.Live(x), staged, env.Staged(x));
    }
  }

  /** What a plan does, it touches. */
  lemma PlanTouches(first: Tree<Content>, live: Path, legacyPath: PathBuf, source: DetectedVersion, plan: Plan)
    requires IsPlan(first, live, legacyPath, source, plan)
    ensures var items := set x | x in plan.touched;
            && (plan.updateConfig ==> ConfigFile in items)
            && (plan.migrateIncomingAllowedPeers ==> {ConfigFile, TrustedDevices} <= items)
            && (plan.migrateLegacyLocalAccess ==> {LegacyLocalAccess, LocalPreferences} <= items)
            && (plan.migrateAddressBook ==> {LegacyAddressBook, DevicesFile} <= items && live + LegacyAddressBook.Path() in first)
            && (plan.migrateLegacyManagedServices ==> SERVICE_ITEMS <= items && live + LegacyServiceState.Path() in first)
  {
  }

  lemma FilesArrive(first: Tree<Content>, u: Tree<Content>, staged: Tree<Content>, t: Tree<Content>, env: Env, legacyPath: PathBuf,
                    source: DetectedVersion, plan: Plan)
    requires IsPlan(first, env.live, legacyPath, source, plan) && Carried(first, u, env, plan.touched)
    requires InPlace(first, staged, t, env, plan.touched)
    requires EarlyDone(u, staged, env, plan) && LateDone(u, staged, env, plan, legacyPath)
    ensures plan.migrateIncomingAllowedPeers ==> TrustedDone(first, env.live, t, env.live)
    ensures plan.migrateLegacyLocalAccess ==> PreferencesDone(first, env.live, t, env.live)
    ensures plan.migrateAddressBook ==> DevicesDone(first, env.live, t, env.live)
    ensures plan.updateConfig ==> ConfigDone(first, env.live, t, env.live, legacyPath)
  {
    hide TrustedDone, PreferencesDone, DevicesDone, ConfigDone, IsPlan, InPlace, Agree, CurrentConfig;
    var items := set x | x in plan.touched;
    PlanTouches(first, env.live, legacyPath, source, plan);
    PlacedIsCarried(first, staged, t, env, plan.touched);
    DoneElsewhere(u, env.Staging(), staged, env.Staging(), first, env.live, t, env.live, items);
    if plan.updateConfig {
      ConfigElsewhere(u, env.Staging(), staged, env.Staging(), first, env.live, t, env.live, items, legacyPath);
    }
    if plan.migrateAddressBook {
      CarriedEntry(first, u, env, items, LegacyAddressBook);
    }
  }

  lemma CarriedEntry(first: Tree<Content>, u: Tree<Content>, env: Env, items: set<Item>, x: Item)
    requires Agree(u, env.Staging(), first, env.live, items) && x in items
    ensures env.Staged(x) in u <==> env.live + x.Path() in first
  {
    assert env.Staged(x) == env.Staging() + x.Path();
    SameEntry(u, env.Staging() + x.Path(), first, env.live + x.Path());
  }

  lemma AgreeingRoots(t: Tree<Content>, job: MigrationServices.Job, u: Tree<Content>, other: MigrationServices.Job)
    requires Agree(t, job.staging, u, other.staging, SERVICE_ITEMS)
    ensures MigrationServicesData.SameRoots(t, job, u, other)
  {
    hide Sub;
    assert ServicesRoot in SERVICE_ITEMS && AppdataServices in SERVICE_ITEMS && ArtifactsServices in SERVICE_ITEMS;
    assert Holds(t, job.staging + ServicesRoot.Path(), u, other.staging + ServicesRoot.Path());
    assert Holds(t, job.staging + AppdataServices.Path(), u, other.staging + AppdataServices.Path());
    assert Holds(t, job.staging + ArtifactsServices.Path(), u, other.staging + ArtifactsServices.Path());
  }

  lemma ServicesArrive(first: Tree<Content>, u: Tree<Content>, staged: Tree<Content>, t: Tree<Content>, env: Env,
                       fungiDir: seq<Component>, ids: seq<string>, now: string, items: set<Item>)
    requires Rooted(first) && Agree(u, env.Staging(), first, env.live, items) && Agree(staged, env.Staging(), t, env.live, items)
    requires SERVICE_ITEMS <= items && env.live + LegacyServiceState.Path() in first
    requires ServicesDone(u, staged, env, fungiDir, ids, now) && MigrationServices.TameState(first, env.live, fungiDir)
    ensures ServicesArrived(first, t, env.live, fungiDir, ids, now)
  {
    hide Agree, MigrationServices.ReadState, MigrationServices.NamesOnly, MigrationServices.IsDone, MigrationServicesData.FreshIds,
         AllSettled, Rooted;
    AgreeOnFewer(u, env.Staging(), first, env.live, items, SERVICE_ITEMS);
    AgreeOnFewer(staged, env.Staging(), t, env.live, items, SERVICE_ITEMS);
    CarriedEntry(first, u, env, items, LegacyServiceState);
    var v :| ServicesDoneFrom(u, v, staged, env, fungiDir, ids, now);
    AgreeReverse(u, env.Staging(), v, env.Staging(), SERVICE_ITEMS);
    AgreeTrans(v, env.Staging(), u, env.Staging(), first, env.live, SERVICE_ITEMS);
    SameState(v, env.Staging(), first, env.live, SERVICE_ITEMS);
    var job := MigrationServices.JobOf(MigrationServices.ReadState(v, env.Staging()).value, env.Staging(), fungiDir, ids, now);
    var liveJob := LiveJob(first, env.live, fungiDir, ids, now);
    AgreeingRoots(v, job, first, liveJob);
    AgreeingRoots(staged, job, t, liveJob);
    if MigrationServicesData.FreshIds(first, liveJob) {
      EveryoneSettles(first, v, staged, t, job, liveJob);
    }
  }

  lemma AgreeReverse(t: Tree<Content>, a: Path, u: Tree<Content>, b: Path, items: set<Item>)
    requires Agree(t, a, u, b, items)
    ensures Agree(u, b, t, a, items)
  {
    forall x <- items ensures Holds(u, b + x.Path(), t, a + x.Path()) {
      assert Holds(t, a + x.Path(), u, b + x.Path());
    }
  }

  lemma EveryoneSettles(first: Tree<Content>, v: Tree<Content>, staged: Tree<Content>, t: Tree<Content>,
                        job: MigrationServices.Job, liveJob: MigrationServices.Job)
    requires Rooted(first) && Rooted(v) && |job.services| == |job.ids| && MigrationServices.NamesOnly(job.live, job.services)
    requires liveJob == job.(staging := liveJob.staging) && MigrationServicesData.FreshIds(first, liveJob)
    requires MigrationServicesData.SameRoots(v, job, first, liveJob) && MigrationServicesData.SameRoots(staged, job, t, liveJob)
    requires MigrationServices.IsDone(v, staged, job)
    ensures AllSettled(first, t, liveJob)
  {
    hide MigrationServices.NamesOnly, MigrationServices.IsDone, MigrationServicesData.FreshIds, MigrationServicesData.SameRoots,
         MigrationServicesData.Settled, MigrationServicesData.DataKept, MigrationServicesData.Overruns;
    MigrationServicesData.FreshElsewhere(v, job, first, liveJob);
    forall i: nat | i < |liveJob.services|
      ensures MigrationServicesData.Settled(first, t, liveJob, i) && KeepsItsFiles(first, t, liveJob, i)
    {
      MigrationServicesData.EveryServiceIsSettled(v, staged, job, i);
      MigrationServicesData.SettledElsewhere(v, staged, job, first, t, liveJob, i);
      MigrationServicesData.SettledKeptIff(first, t, liveJob, i);
    }
  }

  // ---------- the migration ----------

  function BackupLabel(source: DetectedVersion): string {
    match source
    case MissingConfig => "missing-config"
    case LegacyNoVersion => "legacy-no-version"
    case Version(number) => "v" + Forwarding.Decimal(number)
  }

  /**
   * How a migration ends: applied, with the staging directory removed or not; given up before or while
   * applying, with everything in place; or given up halfway.
   */
  datatype Outcome = Migrated(cleaned: bool) | Unchanged | Halfway

  ghost predicate Ends(first: Tree<Content>, t: Tree<Content>, env: Env, legacyPath: PathBuf, items: seq<Item>, outcome: Outcome) {
    match outcome
    case Migrated(_) => IsCurrent(t, env.live, legacyPath) && Confined(first, t, Scratch(env) + LivePlaces(env, items))
    case Unchanged => Unharmed(first, t, env, items)
    case Halfway => BackedUp(first, t, env)
  }

  /** The names in the legacy services file of the directory are tame. */
  predicate TameDirectory(t: Tree<Content>, live: Path, fungiDir: seq<Component>) {
    MigrationServices.TameState(t, live, fungiDir)
  }

  lemma TouchedOnce(t: Tree<Content>, live: Path, legacyPath: PathBuf, source: DetectedVersion, plan: Plan)
    requires IsPlan(t, live, legacyPath, source, plan)
    ensures Distinct(plan.touched)
  {
  }

  lemma NothingYet(first: Tree<Content>, past: seq<Tree<Content>>, env: Env)
    ensures IntactSince(first, past, env, past)
  {
  }

  lemma GivenUpEarly(first: Tree<Content>, t: Tree<Content>, env: Env, items: seq<Item>, legacyPath: PathBuf)
    requires env.Valid() && Confined(first, t, Scratch(env))
    ensures Ends(first, t, env, legacyPath, items, Unchanged)
  {
    ScratchOnly(first, t, env, items);
  }

  lemma EndsWithoutSuccess(first: Tree<Content>, t: Tree<Content>, env: Env, legacyPath: PathBuf, items: seq<Item>, outcome: Outcome)
    requires BackedUp(first, t, env) && !outcome.Migrated? && (outcome == Unchanged ==> Unharmed(first, t, env, items))
    ensures Ends(first, t, env, legacyPath, items, outcome)
  {
  }

  lemma EndsWithSuccess(first: Tree<Content>, u: Tree<Content>, staged: Tree<Content>, t: Tree<Content>, env: Env, source: DetectedVersion,
                        plan: Plan, fungiDir: seq<Component>, ids: seq<string>, now: string, cleaned: bool)
    requires env.Valid() && Rooted(first) && InPlace(first, staged, t, env, plan.touched) && ValidatedDir(staged, env, plan)
    requires IsPlan(first, env.live, LegacyServicesPath(fungiDir), source, plan)
    requires DetectSourceVersion(first, env.live) == Ok(source) && CanMigrate(source)
    requires Carried(first, u, env, plan.touched) && Rewritten(u, staged, env, plan, fungiDir, ids, now)
    requires TameDirectory(first, env.live, fungiDir)
    ensures Ends(first, t, env, LegacyServicesPath(fungiDir), plan.touched, Migrated(cleaned))
    ensures Arrived(first, t, env.live, plan, fungiDir, ids, now)
  {
    hide ValidatedDir, IsPlan, IsCurrent, Agree, ServicesDone, ServicesArrived, TrustedDone, PreferencesDone, DevicesDone, ConfigDone, CurrentConfig,
         MigrationServices.ReadState, MigrationServices.NamesOnly, Rooted, DetectSourceVersion;
    var legacyPath := LegacyServicesPath(fungiDir);
    MigratedIsCurrent(first, staged, t, env, legacyPath, source, plan);
    FilesArrive(first, u, staged, t, env, legacyPath, source, plan);
    if plan.migrateLegacyManagedServices {
      PlanTouches(first, env.live, legacyPath, source, plan);
      PlacedIsCarried(first, staged, t, env, plan.touched);
      ServicesArrive(first, u, staged, t, env, fungiDir, ids, now, set x | x in plan.touched);
    }
  }

  /** The state file is staged as it is. */
  lemma SameNames(first: Tree<Content>, u: Tree<Content>, env: Env, legacyPath: PathBuf, source: DetectedVersion, plan: Plan,
                  fungiDir: seq<Component>, ids: seq<string>)
    requires IsPlan(first, env.live, legacyPath, source, plan) && Carried(first, u, env, plan.touched)
    ensures TameDirectory(first, env.live, fungiDir) ==> TamePlan(u, env.Staging(), plan, fungiDir)
    ensures plan.migrateLegacyManagedServices && EnoughIds(first, env.live, ids) ==> EnoughIds(u, env.Staging(), ids)
  {
    hide IsPlan, Agree, MigrationServices.ReadState, MigrationServices.NamesOnly;
    PlanTouches(first, env.live, legacyPath, source, plan);
    if plan.migrateLegacyManagedServices {
      SameState(u, env.Staging(), first, env.live, set x | x in plan.touched);
    }
  }

  /** The ids drawn are in use nowhere in the directory. */
  predicate NewIds(t: Tree<Content>, live: Path, plan: Plan, ids: seq<string>) {
    plan.migrateLegacyManagedServices ==> IdsAreNew(t, live, ids)
  }

  /** What is staged can be converted if and only if the directory can. */
  lemma ConvertibleFromLive(first: Tree<Content>, u: Tree<Content>, env: Env, legacyPath: PathBuf, source: DetectedVersion, plan: Plan,
                            ids: seq<string>)
    requires IsPlan(first, env.live, legacyPath, source, plan) && Carried(first, u, env, plan.touched)
    ensures CanConvert(u, env.Staging(), plan) <==> CanConvert(first, env.live, plan)
    ensures NewIds(first, env.live, plan, ids) ==> IsReady(u, env.Staging(), plan, ids)
  {
    hide IsPlan, Agree, CanMergeTrusted, CanMergeDevices, CanFillPreferences, CanRewriteConfig, MigrationServices.ReadState,
         MigrationServices.IsAcceptable, IdsAreNew;
    var items := set x | x in plan.touched;
    PlanTouches(first, env.live, legacyPath, source, plan);
    ConvertibleElsewhere(u, env.Staging(), first, env.live, items);
    if plan.migrateAddressBook {
      CarriedEntry(first, u, env, items, LegacyAddressBook);
      assert env.Staged(LegacyAddressBook) == env.Staging() + LegacyAddressBook.Path();
    }
    if plan.migrateLegacyManagedServices {
      SameState(u, env.Staging(), first, env.live, items);
      ServicePlaceHolds(u, env.Staging(), first, env.live, items);
      IdsElsewhere(u, env.Staging(), first, env.live, ids);
    }
  }

  lemma ServicePlaceHolds(t: Tree<Content>, root: Path, u: Tree<Content>, newRoot: Path, items: set<Item>)
    requires Agree(t, root, u, newRoot, items) && SERVICE_ITEMS <= items
    ensures Holds(t, root + AppdataServices.Path(), u, newRoot + AppdataServices.Path())
  {
    assert AppdataServices in SERVICE_ITEMS;
  }

  /** What the steps leave passes the validation. */
  lemma RewrittenIsValid(u: Tree<Content>, w: Tree<Content>, env: Env, plan: Plan, fungiDir: seq<Component>, ids: seq<string>, now: string)
    requires Rewritten(u, w, env, plan, fungiDir, ids, now) && AllGone(w, env, plan) && IsReady(u, env.Staging(), plan, ids)
    ensures ValidatedDir(w, env, plan)
  {
    hide ServicesDone, MigrationFiles.TrustedMerged, MigrationFiles.DevicesMerged, MigrationAccess.PreferencesMerged, IdsAreNew, ConfigDone;
    var s := env.Staging();
    assert env.Staged(LegacyAddressBook) == s + LegacyAddressBook.Path();
    assert env.Staged(DevicesFile) == s + DevicesFile.Path() && env.Staged(TrustedDevices) == s + TrustedDevices.Path();
    assert env.Staged(ConfigFile) == s + ConfigFile.Path() && env.Staged(LocalPreferences) == s + LocalPreferences.Path();
  }

  /** Everything up to validation: the backup, the staged copies, the rewriting. `u` is the tree of the staged copies. */
  method StageItems(fs: FileSystem<Content>, env: Env, source: DetectedVersion, plan: Plan, fungiDir: seq<Component>, ids: seq<string>,
                    now: string, ghost first: Tree<Content>, ghost past: seq<Tree<Content>>, ghost tame: bool)
    returns (ok: bool, ghost u: Tree<Content>)
    requires fs.Valid() && env.Valid() && Rooted(first) && IsPlan(first, env.live, LegacyServicesPath(fungiDir), source, plan)
    requires EmptyDirectory(fs.tree, env.Staging()) && EmptyDirectory(fs.tree, env.Backup())
    requires Confined(first, fs.tree, Scratch(env)) && IntactSince(first, fs.trace, env, past)
    requires EnoughIds(first, env.live, ids) && tame == TameDirectory(first, env.live, fungiDir)
    modifies fs
    ensures fs.Valid() && Counts(old(fs.failures), fs.failures, ok)
    ensures tame ==> Confined(first, fs.tree, Scratch(env)) && IntactSince(first, fs.trace, env, past)
    ensures ok ==> StillUnderway(fs, env, first, past, tame)
    ensures tame && ok ==> Carried(first, u, env, plan.touched) && Rewritten(u, fs.tree, env, plan, fungiDir, ids, now)
                           && ValidatedDir(fs.tree, env, plan)
    ensures tame && NewIds(first, env.live, plan, ids) ==>
              (ok ==> CanConvert(first, env.live, plan))
              && (!ok && fs.failures == old(fs.failures) ==> !CanConvert(first, env.live, plan))
  {
    hide IsPlan, BackedUp, IntactSince, Confined, EmptyDirectory, ValidatedDir, Rewritten, EnoughIds, TameDirectory, Carried, StagedSoFar,
         TamePlan, Rooted, NewIds, CanConvert, IsReady, AllGone;
    TouchedOnce(first, env.live, LegacyServicesPath(fungiDir), source, plan);
    u := fs.tree;
    ok := CopyBackup(fs, env, first, past);
    if ok {
      StagingStillEmpty(u, fs.tree, env);
      ok := CopySelected(fs, env, plan.touched, first, past);
    }
    u := fs.tree;
    if ok {
      StagedIsCarried(first, u, env, plan.touched);
      SameNames(first, u, env, LegacyServicesPath(fungiDir), source, plan, fungiDir, ids);
      NoRollbackYet(first, u, env, plan.touched);
      ConvertibleFromLive(first, u, env, LegacyServicesPath(fungiDir), source, plan, ids);
      ok := Rewrite(fs, env, plan, fungiDir, ids, now, first, past);
      if ok && tame && NewIds(first, env.live, plan, ids) {
        RewrittenIsValid(u, fs.tree, env, plan, fungiDir, ids, now);
      }
      ok := ok && ValidatedDir(fs.tree, env, plan);
    }
  }

  lemma StagingStillEmpty(t: Tree<Content>, u: Tree<Content>, env: Env)
    requires EmptyDirectory(t, env.Staging()) && Holds(u, env.Staging(), t, env.Staging())
    ensures EmptyDirectory(u, env.Staging())
  {
  }

  lemma NoRollbackYet(first: Tree<Content>, t: Tree<Content>, env: Env, items: seq<Item>)
    requires StagedSoFar(first, t, env, items, |items|)
    ensures Sub(t, env.Rollback()) == map[]
  {
  }

  /**
   * `migrate_with_plan`, with the ids it will draw. It ends in one of three ways. Applied, the directory
   * is current and holds what the plan was for. Given up, the directory is unharmed, unless a second call
   * failed while a half-applied migration was undone. In every case, and in every state in between,
   * either only scratch directories have changed so far or the backup of the whole directory is complete.
   * All this takes tame names in the legacy services file. An error of an applied migration is that of
   * the last call, the removal of the staging directory.
   */
  method MigrateWithPlan(fs: FileSystem<Content>, live: Path, fungiDir: seq<Component>, source: DetectedVersion, plan: Plan,
                         timestamp: string, ids: seq<string>, now: string)
    returns (r: Result<bool>, ghost outcome: Outcome, ghost env: Env)
    requires fs.Valid() && IsPlan(fs.tree, live, LegacyServicesPath(fungiDir), source, plan)
    requires DetectSourceVersion(fs.tree, live) == Ok(source) && CanMigrate(source) && EnoughIds(fs.tree, live, ids)
    modifies fs
    ensures fs.Valid() && old(fs.failures) <= fs.failures && env.live == live && env.Valid()
    ensures plan.touched == [] ==> r == Ok(false) && outcome == Unchanged && fs.tree == old(fs.tree)
    ensures plan.touched != [] ==> r == (if outcome == Migrated(true) then Ok(true) else Err)
    ensures r.Ok? && plan.touched != [] ==> env.Staging() !in fs.tree
    ensures outcome.Migrated? ==> LastRemoved(fs.trace, env.Staging(), outcome.cleaned)
                                  && fs.failures == old(fs.failures) + Faults(outcome.cleaned)
    ensures outcome == Halfway ==> fs.failures >= old(fs.failures) + 2
    ensures TameDirectory(old(fs.tree), live, fungiDir) ==>
              IntactSince(old(fs.tree), fs.trace, env, old(fs.trace))
              && (plan.touched != [] ==> Ends(old(fs.tree), fs.tree, env, LegacyServicesPath(fungiDir), plan.touched, outcome))
              && (outcome.Migrated? ==> Arrived(old(fs.tree), fs.tree, live, plan, fungiDir, ids, now))
    ensures TameDirectory(old(fs.tree), live, fungiDir) && NewIds(old(fs.tree), live, plan, ids) && plan.touched != [] ==>
              (r.Ok? ==> CanConvert(old(fs.tree), live, plan))
              && (fs.failures == old(fs.failures) ==>
                    (r.Ok? <==> CanConvert(old(fs.tree), live, plan)
                                && !NoNameLeft(old(fs.tree), live, timestamp, BackupLabel(source))))
  {
    hide Arrived, Ends, InPlace, Unharmed, IsCurrent, IsPlan, TameDirectory, BackedUp, IntactSince, Rewriting, Rewritten, LastRemoved,
         StillUnderway, ValidatedDir, EnoughIds, Confined, Carried, EmptyDirectory, DetectSourceVersion, NewIds, CanConvert, NoNameLeft;
    ghost var first, past := fs.tree, fs.trace;
    ghost var tame := TameDirectory(first, live, fungiDir);
    outcome := Unchanged;
    TouchedOnce(first, live, LegacyServicesPath(fungiDir), source, plan);
    if plan.touched == [] {
      env := Env(live, "", STAGING_DIR_PREFIX);
      NothingYet(first, past, env);
      return Ok(false), outcome, env;
    }
    var ok, names := Prepare(fs, live, timestamp, BackupLabel(source));
    env := names;
    ghost var u := fs.tree;
    if ok {
      ok, u := StageItems(fs, names, source, plan, fungiDir, ids, now, first, past, tame);
    }
    if !ok {
      if tame {
        GivenUpEarly(first, fs.tree, env, plan.touched, LegacyServicesPath(fungiDir));
      }
      return Err, outcome, env;
    }
    ghost var staged, failures := fs.tree, fs.failures;
    ok := Apply(fs, names, plan.touched, first, past, tame);
    if !ok {
      outcome := if fs.failures == failures + 1 then Unchanged else Halfway;
      if tame {
        EndsWithoutSuccess(first, fs.tree, env, LegacyServicesPath(fungiDir), plan.touched, outcome);
      }
      return Err, outcome, env;
    }
    ok := RemoveStaging(fs, names, plan.touched, first, staged, past, tame);
    outcome := Migrated(ok);
    if tame {
      EndsWithSuccess(first, u, staged, fs.tree, env, source, plan, fungiDir, ids, now, ok);
    }
    r := if ok then Ok(true) else Err;
  }

  /** What is left of the staging directory does not matter: the directory is as current as before its removal. */
  lemma CurrentWithoutStaging(t: Tree<Content>, u: Tree<Content>, env: Env, legacyPath: PathBuf)
    requires env.Valid() && Shrunk(t, u, env.Staging()) && IsCurrent(t, env.live, legacyPath)
    ensures IsCurrent(u, env.live, legacyPath)
  {
    forall x: Item ensures Holds(u, env.Live(x), t, env.Live(x)) {
      LivePlace(env, x, x);
      SubOfShrunk(t, u, env.Staging(), env.Live(x));
    }
    ReadSame(u, env.Live(ConfigFile), t, env.Live(ConfigFile));
    forall x: Item | x.Legacy() ensures !Has(u, env.live, x) {
      ReadSame(u, env.Live(x), t, env.Live(x));
    }
  }

  /** A removal may fail at once, with everything still there: an error after which the directory is current. */
  lemma ErrorThoughCurrent(t: Tree<Content>, env: Env, legacyPath: PathBuf)
    requires env.Valid() && IsCurrent(t, env.live, legacyPath) && env.Staging() in t
    ensures exists u :: Shrunk(t, u, env.Staging()) && env.Staging() in u && IsCurrent(u, env.live, legacyPath)
  {
    assert Shrunk(t, t, env.Staging());
  }

  /**
   * The migration a plan asks for cannot be made: there is no configuration, or one of a version without a
   * way from it; or a file cannot be converted, or there is no name left for the backup.
   */
  ghost predicate DeclinesPlan(t: Tree<Content>, live: Path, source: DetectedVersion, plan: Plan, timestamp: string) {
    if source == MissingConfig then plan.touched != []
    else !CanMigrate(source)
         || (plan.touched != [] && (!CanConvert(t, live, plan) || NoNameLeft(t, live, timestamp, BackupLabel(source))))
  }

  /** The version cannot be told, the plan is refused, or the migration cannot be made. */
  ghost predicate Declines(t: Tree<Content>, live: Path, legacyPath: PathBuf, timestamp: string) {
    var source := DetectSourceVersion(t, live);
    source.Err? || Refused(t, live, source.value) || ConfigNeeds(t, live, legacyPath, source.value).Err?
    || exists plan :: IsItsPlan(t, live, legacyPath, plan) && DeclinesPlan(t, live, source.value, plan, timestamp)
  }

  /** The plans for a directory differ in the order of their items only. */
  lemma DeclinedByAnyPlan(t: Tree<Content>, live: Path, legacyPath: PathBuf, plan: Plan, timestamp: string)
    requires IsItsPlan(t, live, legacyPath, plan)
    requires var source := DetectSourceVersion(t, live).value;
             !Refused(t, live, source) && ConfigNeeds(t, live, legacyPath, source).Ok?
    ensures Declines(t, live, legacyPath, timestamp)
            <==> DeclinesPlan(t, live, DetectSourceVersion(t, live).value, plan, timestamp)
  {
    hide IsPlan, Refused, ConfigNeeds, DeclinesPlan;
    var source := DetectSourceVersion(t, live).value;
    if other :| IsItsPlan(t, live, legacyPath, other) && DeclinesPlan(t, live, source, other, timestamp) {
      DeclinedAlike(t, live, legacyPath, source, plan, other, timestamp);
    }
  }

  lemma DeclinedAlike(t: Tree<Content>, live: Path, legacyPath: PathBuf, source: DetectedVersion, plan: Plan, other: Plan,
                      timestamp: string)
    requires IsPlan(t, live, legacyPath, source, plan) && IsPlan(t, live, legacyPath, source, other)
    ensures DeclinesPlan(t, live, source, plan, timestamp) <==> DeclinesPlan(t, live, source, other, timestamp)
  {
    hide IsPlan, CanConvert, NoNameLeft;
    PlansAgree(t, live, legacyPath, source, plan, other);
  }

  lemma PlansAgree(t: Tree<Content>, live: Path, legacyPath: PathBuf, source: DetectedVersion, plan: Plan, other: Plan)
    requires IsPlan(t, live, legacyPath, source, plan) && IsPlan(t, live, legacyPath, source, other)
    ensures plan.touched == [] <==> other.touched == []
    ensures CanConvert(t, live, plan) <==> CanConvert(t, live, other)
  {
    hide CanMergeTrusted, CanMergeDevices, CanFillPreferences, CanRewriteConfig, CanMoveServices, ConfigNeeds;
    assert plan.touched != [] ==> plan.touched[0] in other.touched;
    assert other.touched != [] ==> other.touched[0] in plan.touched;
  }

  /** A version to migrate was found, and a plan made. */
  method MigrateFound(fs: FileSystem<Content>, live: Path, fungiDir: seq<Component>, source: DetectedVersion, plan: Plan,
                      timestamp: string, ids: seq<string>, now: string)
    returns (r: Result<bool>, ghost outcome: Outcome, ghost env: Env)
    requires fs.Valid() && IsPlan(fs.tree, live, LegacyServicesPath(fungiDir), source, plan)
    requires DetectSourceVersion(fs.tree, live) == Ok(source) && CanMigrate(source) && EnoughIds(fs.tree, live, ids)
    modifies fs
    ensures fs.Valid() && old(fs.failures) <= fs.failures && env.live == live
    ensures r == Ok(false) ==> fs.tree == old(fs.tree)
    ensures r == Ok(false) <==> plan.touched == []
    ensures r == Ok(true) ==> outcome == Migrated(true)
    ensures outcome == Halfway ==> fs.failures >= old(fs.failures) + 2
    ensures TameDirectory(old(fs.tree), live, fungiDir) ==>
              IntactSince(old(fs.tree), fs.trace, env, old(fs.trace))
              && (r.Ok? ==> IsCurrent(fs.tree, live, LegacyServicesPath(fungiDir)))
              && (r == Ok(true) ==> HasArrived(old(fs.tree), fs.tree, live, fungiDir, ids, now))
              && EndsSomehow(old(fs.tree), fs.tree, env, LegacyServicesPath(fungiDir), outcome)
    ensures TameDirectory(old(fs.tree), live, fungiDir) && NewIds(old(fs.tree), live, plan, ids) && fs.failures == old(fs.failures) ==>
              (r.Err? <==> DeclinesPlan(old(fs.tree), live, source, plan, timestamp))
  {
    hide CanConvert, NoNameLeft, NewIds;
    hide IntactSince, EnoughIds, TameDirectory, Arrived, LastRemoved, Ends, IsPlan, IsCurrent, DetectSourceVersion;
    ghost var first := fs.tree;
    NeedsMigration(first, live, LegacyServicesPath(fungiDir), source, plan);
    r, outcome, env := MigrateWithPlan(fs, live, fungiDir, source, plan, timestamp, ids, now);
    assert IsItsPlan(first, live, LegacyServicesPath(fungiDir), plan);
    if outcome.Migrated? && TameDirectory(first, live, fungiDir) {
      MigratedEnds(first, fs.tree, env, LegacyServicesPath(fungiDir), plan.touched, outcome);
    }
  }

  lemma PlanOfCurrent(t: Tree<Content>, live: Path, legacyPath: PathBuf, source: DetectedVersion, plan: Plan)
    requires IsPlan(t, live, legacyPath, source, plan) && DetectSourceVersion(t, live) == Ok(source)
    ensures IsCurrent(t, live, legacyPath) ==> plan.touched == [] && CanMigrate(source)
  {
    EmptyPlan(t, live, legacyPath, source, plan);
  }

  lemma MigratedEnds(first: Tree<Content>, t: Tree<Content>, env: Env, legacyPath: PathBuf, items: seq<Item>, outcome: Outcome)
    requires Ends(first, t, env, legacyPath, items, outcome) && outcome.Migrated?
    ensures IsCurrent(t, env.live, legacyPath)
  {
  }

  /**
   * `migrate_if_needed`. A current directory is left alone, and so is one without a configuration that
   * has nothing to migrate; a version it does not know is refused with nothing changed. A success with
   * tame names leaves a current directory, so that a second run finds nothing to do.
   */
  method MigrateIfNeeded(fs: FileSystem<Content>, live: Path, fungiDir: seq<Component>, timestamp: string, ids: seq<string>, now: string)
    returns (r: Result<bool>, ghost outcome: Outcome, ghost env: Env)
    requires fs.Valid() && EnoughIds(fs.tree, live, ids)
    modifies fs
    ensures fs.Valid() && old(fs.failures) <= fs.failures && env.live == live
    ensures r == Ok(false) ==> fs.tree == old(fs.tree) && NothingToDo(old(fs.tree), live, LegacyServicesPath(fungiDir))
    ensures DetectSourceVersion(old(fs.tree), live) == Ok(MissingConfig) ==> outcome == Unchanged && fs.tree == old(fs.tree)
    ensures IsCurrent(old(fs.tree), live, LegacyServicesPath(fungiDir)) ==> r == Ok(false)
    ensures r == Ok(true) ==> outcome == Migrated(true)
    ensures outcome == Halfway ==> fs.failures >= old(fs.failures) + 2
    ensures TameDirectory(old(fs.tree), live, fungiDir) ==>
              IntactSince(old(fs.tree), fs.trace, env, old(fs.trace))
              && (r.Ok? ==> DetectSourceVersion(fs.tree, live) == Ok(MissingConfig) || IsCurrent(fs.tree, live, LegacyServicesPath(fungiDir)))
              && (r == Ok(true) ==> HasArrived(old(fs.tree), fs.tree, live, fungiDir, ids, now))
              && EndsSomehow(old(fs.tree), fs.tree, env, LegacyServicesPath(fungiDir), outcome)
    ensures TameDirectory(old(fs.tree), live, fungiDir) && IdsAreNew(old(fs.tree), live, ids) && fs.failures == old(fs.failures) ==>
              (r.Err? <==> Declines(old(fs.tree), live, LegacyServicesPath(fungiDir), timestamp))
    ensures var source := DetectSourceVersion(old(fs.tree), live);
            source.Err? || !(CanMigrate(source.value) || source.value == MissingConfig) ==> r.Err? && fs.tree == old(fs.tree)
  {
    hide IntactSince, EnoughIds, TameDirectory, HasArrived, Ends, IsCurrent, CanConvert, NoNameLeft, IdsAreNew, IsPlan, Refused, ConfigNeeds;
    ghost var first := fs.tree;
    outcome := Unchanged;
    env := Env(live, "", STAGING_DIR_PREFIX);
    NothingYet(first, fs.trace, env);
    if IsCurrent(first, live, LegacyServicesPath(fungiDir)) {
      CurrentIsPlain(first, live, LegacyServicesPath(fungiDir));
    }
    var source := DetectSourceVersion(fs.tree, live);
    if source.Err? {
      assert Declines(first, live, LegacyServicesPath(fungiDir), timestamp);
      return Err, outcome, env;
    }
    var legacyPath := NormalizeFsPath(fungiDir + [Normal(SERVICES_ROOT_DIR)]);
    var plan := BuildPlan(fs, live, legacyPath, source.value);
    if plan.Err? {
      assert fs.failures == old(fs.failures) ==> Declines(first, live, legacyPath, timestamp);
      return Err, outcome, env;
    }
    PlanOfCurrent(fs.tree, live, legacyPath, source.value, plan.value);
    assert IsItsPlan(first, live, legacyPath, plan.value);
    DeclinedByAnyPlan(first, live, legacyPath, plan.value, timestamp);
    if source.value == MissingConfig {
      r := if plan.value.touched == [] then Ok(false) else Err;
    } else if CanMigrate(source.value) {
      r, outcome, env := MigrateFound(fs, live, fungiDir, source.value, plan.value, timestamp, ids, now);
    } else {
      r := Err;
    }
  }

  /** A plan for the directory with the version that is detected in it: its flags and touched items are settled by the tree. */
  ghost predicate IsItsPlan(t: Tree<Content>, live: Path, legacyPath: PathBuf, plan: Plan) {
    DetectSourceVersion(t, live).Ok? && IsPlan(t, live, legacyPath, DetectSourceVersion(t, live).value, plan)
  }

  ghost predicate NothingToDo(t: Tree<Content>, live: Path, legacyPath: PathBuf) {
    exists plan :: IsItsPlan(t, live, legacyPath, plan) && plan.touched == []
  }

  /** Nothing is done at all, or the directory ends in one of the three ways, for the items its plan touches. */
  ghost predicate EndsSomehow(first: Tree<Content>, t: Tree<Content>, env: Env, legacyPath: PathBuf, outcome: Outcome) {
    (outcome == Unchanged && t == first)
    || exists plan :: IsItsPlan(first, env.live, legacyPath, plan) && Ends(first, t, env, legacyPath, plan.touched, outcome)
  }

  /** What the plan for the directory was for is there. */
  ghost predicate HasArrived(first: Tree<Content>, t: Tree<Content>, live: Path, fungiDir: seq<Component>, ids: seq<string>, now: string) {
    exists plan :: IsItsPlan(first, live, LegacyServicesPath(fungiDir), plan) && Arrived(first, t, live, plan, fungiDir, ids, now)
  }

  lemma CurrentIsPlain(t: Tree<Content>, live: Path, legacyPath: PathBuf)
    requires IsCurrent(t, live, legacyPath)
    ensures DetectSourceVersion(t, live) == Ok(Version(CURRENT_FUNGI_DIR_VERSION)) && !Has(t, live, LegacyServiceState)
    ensures !Refused(t, live, Version(CURRENT_FUNGI_DIR_VERSION))
    ensures ConfigNeeds(t, live, legacyPath, Version(CURRENT_FUNGI_DIR_VERSION)).Ok?
  {
  }

  /** With a version to migrate, an empty plan means that the directory is current already. */
  lemma NeedsMigration(t: Tree<Content>, live: Path, legacyPath: PathBuf, source: DetectedVersion, plan: Plan)
    requires IsPlan(t, live, legacyPath, source, plan) && DetectSourceVersion(t, live) == Ok(source) && CanMigrate(source)
    ensures plan.touched == [] <==> IsCurrent(t, live, legacyPath)
  {
    EmptyPlan(t, live, legacyPath, source, plan);
    if plan.touched == [] {
      ConfigWasCurrent(t, live, legacyPath, source, plan);
    }
  }
}
