/** Which parts of a fungi directory need migrating: `detection.rs`. */
module MigrationPlan {
  import opened FileTree
  import opened FsPaths
  import opened MigrationConfig
  import opened Wrappers
  import MigrationServices

  type Content = MigrationServices.Content

  /** Everything a plan can touch, in the order in which a `BTreeSet` of the paths goes through them. */
  datatype Item =
    | LegacyLocalAccess | LegacyAddressBook | AppdataServices | ArtifactsServices | LegacyManagedCache
    | LocalPreferences | LegacyRemoteCache | ConfigFile | DevicesFile | ServicesRoot | LegacyServiceState
    | TrustedDevices
  {
    function Path(): Path {
      match this
      case LegacyLocalAccess => ["access", "local_access.json"]
      case LegacyAddressBook => ["address_book.toml"]
      case AppdataServices => ["appdata", "services"]
      case ArtifactsServices => ["artifacts", "services"]
      case LegacyManagedCache => ["cache", "device_managed_services"]
      case LocalPreferences => ["cache", "local_preferences.json"]
      case LegacyRemoteCache => ["cache", "remote_services"]
      case ConfigFile => ["config.toml"]
      case DevicesFile => ["devices.toml"]
      case ServicesRoot => [SERVICES_ROOT_DIR]
      case LegacyServiceState => ["services-state.json"]
      case TrustedDevices => ["trusted_devices.toml"]
    }

    /** Items that only an old fungi directory has. */
    predicate Legacy() {
      LegacyLocalAccess? || LegacyAddressBook? || LegacyManagedCache? || LegacyRemoteCache? || LegacyServiceState?
    }
  }

  const ITEMS: seq<Item> := [
    LegacyLocalAccess, LegacyAddressBook, AppdataServices, ArtifactsServices, LegacyManagedCache, LocalPreferences,
    LegacyRemoteCache, ConfigFile, DevicesFile, ServicesRoot, LegacyServiceState, TrustedDevices]

  datatype Plan = Plan(
    updateConfig: bool, migrateIncomingAllowedPeers: bool, migrateLegacyLocalAccess: bool,
    removeLegacyServiceCaches: bool, migrateAddressBook: bool, migrateLegacyManagedServices: bool,
    touched: seq<Item>)

  /** The set as a list without repetition, in the order of `ITEMS`. */
  function InOrder(touched: set<Item>, n: nat): (items: seq<Item>)
    requires n <= |ITEMS|
    ensures forall x :: x in items <==> x in ITEMS[..n] && x in touched
  {
    if n == 0 then []
    else
      assert ITEMS[..n] == ITEMS[..n - 1] + [ITEMS[n - 1]];
      var before := InOrder(touched, n - 1);
      if ITEMS[n - 1] in touched then before + [ITEMS[n - 1]] else before
  }

  predicate Has(t: Tree<Content>, live: Path, x: Item) {
    live + x.Path() in t
  }

  // ---------- reading the directory ----------

  function ReadToml(t: Tree<Content>, p: Path): Result<Toml> {
    if p in t && t[p].File? && t[p].data.Toml? then Ok(t[p].data.root) else Err
  }

  /** `detect_source_version`. */
  function DetectSourceVersion(t: Tree<Content>, live: Path): Result<DetectedVersion> {
    if !Has(t, live, ConfigFile) then Ok(MissingConfig)
    else
      match ReadToml(t, live + ConfigFile.Path())
      case Err => Err
      case Ok(root) => Detect(root)
  }

  /** `read_config_table`. */
  function ReadConfigTable(t: Tree<Content>, live: Path): Result<TomlTable> {
    match ReadToml(t, live + ConfigFile.Path())
    case Err => Err
    case Ok(root) => if root.Table? then Ok(root.entries) else Err
  }

  /** What `ensure_no_mixed_managed_service_layout` refuses: a current service, or no directory at all. */
  predicate HasMixedLayout(t: Tree<Content>, live: Path) {
    var root := live + ServicesRoot.Path();
    root in t
    && (t[root].File?
        || exists q <- t :: |q| == |root| + 1 && root <= q && t[q].Directory?
                            && (q + ["service.yaml"] in t || q + ["state.json"] in t))
  }

  // ---------- the plan ----------

  /** The parts of the plan that the configuration decides: whether to rewrite it, and whether it lists peers. */
  function ConfigNeeds(t: Tree<Content>, live: Path, legacyPath: PathBuf, source: DetectedVersion): Result<(bool, bool)> {
    if source == MissingConfig then Ok((false, false))
    else
      match ReadConfigTable(t, live)
      case Err => Err
      case Ok(table) =>
        Ok((RequiresNormalization(table, source, legacyPath) || HasLegacyPeers(table), HasLegacyPeers(table)))
  }

  /** What the plan depends on. */
  datatype Findings = Findings(
    updateConfig: bool, incomingPeers: bool, localAccess: bool, remoteCache: bool, managedCache: bool,
    addressBook: bool, serviceState: bool)
  {
    /** Item `x` is touched by the migration. */
    predicate Touches(x: Item) {
      match x
      case ConfigFile => updateConfig
      case TrustedDevices => incomingPeers
      case LegacyLocalAccess | LocalPreferences => localAccess
      case LegacyRemoteCache => remoteCache
      case LegacyManagedCache => managedCache
      case LegacyAddressBook | DevicesFile => addressBook
      case LegacyServiceState | ServicesRoot | AppdataServices | ArtifactsServices => serviceState
    }
  }

  function Find(t: Tree<Content>, live: Path, needs: (bool, bool)): Findings {
    Findings(needs.0, needs.1, Has(t, live, LegacyLocalAccess), Has(t, live, LegacyRemoteCache), Has(t, live, LegacyManagedCache),
             Has(t, live, LegacyAddressBook), Has(t, live, LegacyServiceState))
  }

  /** `touched_paths` is filled step by step. */
  method FillTouched(f: Findings) returns (touched: set<Item>)
    ensures forall x :: x in touched <==> f.Touches(x)
  {
    touched := {};
    if f.updateConfig { touched := touched + {ConfigFile}; }
    if f.incomingPeers { touched := touched + {TrustedDevices}; }
    if f.localAccess { touched := touched + {LegacyLocalAccess} + {LocalPreferences}; }
    if f.remoteCache { touched := touched + {LegacyRemoteCache}; }
    if f.managedCache { touched := touched + {LegacyManagedCache}; }
    if f.addressBook { touched := touched + {LegacyAddressBook} + {DevicesFile}; }
    if f.serviceState {
      touched := touched + {LegacyServiceState} + {ServicesRoot} + {AppdataServices} + {ArtifactsServices};
    }
  }

  predicate Refused(t: Tree<Content>, live: Path, source: DetectedVersion) {
    (source == MissingConfig && (Has(t, live, LegacyAddressBook) || Has(t, live, LegacyServiceState)))
    || (Has(t, live, LegacyServiceState) && HasMixedLayout(t, live))
  }

  /** A service of the current layout is there, by any name, or something that is no directory where the services should be. */
  ghost predicate IsMixed(t: Tree<Content>, live: Path) {
    live + ["services"] in t
    && (t[live + ["services"]].File?
        || exists name: string ::
             var dir := live + ["services", name];
             dir in t && t[dir].Directory? && (dir + ["service.yaml"] in t || dir + ["state.json"] in t))
  }

  lemma MixedFields(t: Tree<Content>, live: Path)
    ensures HasMixedLayout(t, live) <==> IsMixed(t, live)
  {
    var root := live + ["services"];
    forall name: string ensures |live + ["services", name]| == |root| + 1 && root <= live + ["services", name] {
    }
    forall q: Path | |q| == |root| + 1 && root <= q ensures q == live + ["services", q[|root|]] {
    }
  }

  /** `ensure_no_mixed_managed_service_layout`; the services directory may not be readable. */
  method EnsureNoMixedLayout(fs: FileSystem<Content>, live: Path) returns (ok: bool)
    requires fs.Valid()
    modifies fs
    ensures fs.Valid() && fs.tree == old(fs.tree) && fs.trace == old(fs.trace) && old(fs.failures) <= fs.failures
    ensures ok <==> !HasMixedLayout(fs.tree, live) && fs.failures == old(fs.failures)
  {
    var root := live + ServicesRoot.Path();
    if root !in fs.tree {
      return true;
    }
    if fs.tree[root].File? {
      return false;
    }
    ok := fs.CanList();
    ok := ok && !HasMixedLayout(fs.tree, live);
  }

  /**
   * `build_migration_plan`: the set of touched paths is filled step by step. The services directory is
   * looked into only beside a legacy state file.
   */
  method BuildPlan(fs: FileSystem<Content>, live: Path, legacyPath: PathBuf, source: DetectedVersion) returns (r: Result<Plan>)
    requires fs.Valid()
    modifies fs
    ensures fs.Valid() && fs.tree == old(fs.tree) && fs.trace == old(fs.trace) && old(fs.failures) <= fs.failures
    ensures !Has(fs.tree, live, LegacyServiceState) ==> fs.failures == old(fs.failures)
    ensures r.Ok? <==> !Refused(fs.tree, live, source) && ConfigNeeds(fs.tree, live, legacyPath, source).Ok?
                       && fs.failures == old(fs.failures)
    ensures r.Ok? ==> IsPlan(fs.tree, live, legacyPath, source, r.value)
  {
    if source == MissingConfig && (Has(fs.tree, live, LegacyAddressBook) || Has(fs.tree, live, LegacyServiceState)) {
      return Err;
    }
    if Has(fs.tree, live, LegacyServiceState) {
      var unmixed := EnsureNoMixedLayout(fs, live);
      if !unmixed {
        return Err;
      }
    }
    var needs := ConfigNeeds(fs.tree, live, legacyPath, source);
    if needs.Err? {
      return Err;
    }
    var f := Find(fs.tree, live, needs.value);
    var touched := FillTouched(f);
    AllItems();
    assert ITEMS[..|ITEMS|] == ITEMS;
    r := Ok(Plan(f.updateConfig, f.incomingPeers, f.localAccess, f.remoteCache || f.managedCache, f.addressBook, f.serviceState,
                 InOrder(touched, |ITEMS|)));
  }

  ghost predicate IsPlan(t: Tree<Content>, live: Path, legacyPath: PathBuf, source: DetectedVersion, plan: Plan) {
    && ConfigNeeds(t, live, legacyPath, source).Ok?
    && var f := Find(t, live, ConfigNeeds(t, live, legacyPath, source).value);
    && plan.updateConfig == f.updateConfig && plan.migrateIncomingAllowedPeers == f.incomingPeers
    && plan.migrateLegacyLocalAccess == f.localAccess && plan.removeLegacyServiceCaches == (f.remoteCache || f.managedCache)
    && plan.migrateAddressBook == f.addressBook && plan.migrateLegacyManagedServices == f.serviceState
    && Distinct(plan.touched)
    && forall x :: x in plan.touched <==> f.Touches(x)
  }

  predicate Distinct(items: seq<Item>) {
    forall i, j :: 0 <= i < j < |items| ==> items[i] != items[j]
  }

  // ---------- what a plan is worth ----------

  lemma AllItems()
    ensures forall x: Item :: x in ITEMS
    ensures Distinct(ITEMS)
    ensures forall touched :: Distinct(InOrder(touched, |ITEMS|))
  {
    forall x: Item ensures x in ITEMS {
      assert x == ITEMS[Position(x)];
    }
    forall touched ensures Distinct(InOrder(touched, |ITEMS|)) {
      InOrderDistinct(touched, |ITEMS|);
    }
  }

  function Position(x: Item): (i: nat)
    ensures i < |ITEMS| && ITEMS[i] == x
  {
    match x
    case LegacyLocalAccess => 0
    case LegacyAddressBook => 1
    case AppdataServices => 2
    case ArtifactsServices => 3
    case LegacyManagedCache => 4
    case LocalPreferences => 5
    case LegacyRemoteCache => 6
    case ConfigFile => 7
    case DevicesFile => 8
    case ServicesRoot => 9
    case LegacyServiceState => 10
    case TrustedDevices => 11
  }

  lemma {:induction false} InOrderDistinct(touched: set<Item>, n: nat)
    requires n <= |ITEMS|
    ensures Distinct(InOrder(touched, n))
    ensures forall x <- InOrder(touched, n) :: Position(x) < n
  {
    if n > 0 {
      InOrderDistinct(touched, n - 1);
      assert Position(ITEMS[n - 1]) == n - 1;
    }
  }

  /** No migrated path lies in another. */
  lemma ItemsApart(x: Item, y: Item)
    requires x != y
    ensures Apart(x.Path(), y.Path())
  {
    Lengths(x);
    Lengths(y);
    if |x.Path()[0]| != |y.Path()[0]| {
      ApartAt(x.Path(), y.Path(), 0);
    } else {
      ApartAt(x.Path(), y.Path(), 1);
    }
  }

  /** The first names have different lengths, except in `cache`, where the second ones have. */
  lemma Lengths(x: Item)
    ensures x.Path() != [] && |x.Path()[0]| == [6, 17, 7, 9, 5, 5, 5, 11, 12, 8, 19, 20][Position(x)]
    ensures |x.Path()[0]| == 5 ==> |x.Path()| == 2 && |x.Path()[1]| == if x == LegacyManagedCache then 23 else if x == LocalPreferences then 22 else 15
    ensures x.Path()[0] != "" && 'a' <= x.Path()[0][0] <= 't' && x.Path()[0] != "bk"
  {
  }

  /** Nothing is left to do exactly when nothing legacy is there and the configuration is current. */
  lemma EmptyPlan(t: Tree<Content>, live: Path, legacyPath: PathBuf, source: DetectedVersion, plan: Plan)
    requires IsPlan(t, live, legacyPath, source, plan)
    ensures plan.touched == [] <==>
            ConfigNeeds(t, live, legacyPath, source) == Ok((false, false)) && forall x: Item :: x.Legacy() ==> !Has(t, live, x)
  {
    var f := Find(t, live, ConfigNeeds(t, live, legacyPath, source).value);
    if plan.touched == [] {
      forall x: Item | x.Legacy() ensures !Has(t, live, x) {
        assert x !in plan.touched;
      }
      assert ConfigFile !in plan.touched && TrustedDevices !in plan.touched;
    } else {
      assert plan.touched[0] in plan.touched;
      assert f.Touches(plan.touched[0]);
    }
  }
}
