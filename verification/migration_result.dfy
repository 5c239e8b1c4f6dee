/** What a finished migration has made of a fungi directory, file by file. */
module MigrationResult {
  import opened FileTree
  import opened FsPaths
  import opened Migration
  import opened MigrationConfig
  import opened MigrationPlan
  import opened MigrationRewrite
  import opened Wrappers
  import MigrationAccess
  import MigrationFiles
  import MigrationServices
  import MigrationServicesData
  import Text

  predicate IsToml(t: Tree<Content>, p: Path, root: Toml) {
    p in t && t[p] == Entry.File(MigrationServices.Content.Toml(root))
  }

  predicate IsTomlOrNone(t: Tree<Content>, p: Path, root: Option<Toml>) {
    match root
    case None => p !in t
    case Some(root) => IsToml(t, p, root)
  }

  /** A saved list of preferences; none at all is an empty one. */
  predicate IsPreferences(t: Tree<Content>, p: Path, preferences: seq<MigrationAccess.Preference>) {
    if p in t then t[p] == Entry.File(MigrationServices.Preferences(preferences)) else preferences == []
  }

  predicate IsLegacyAccess(t: Tree<Content>, p: Path, preferences: seq<MigrationAccess.Preference>) {
    p in t && t[p] == Entry.File(MigrationServices.LegacyAccess(preferences))
  }

  /** A state file of the one version there is. */
  predicate IsLegacyState(t: Tree<Content>, p: Path, state: MigrationServices.LegacyState) {
    p in t && t[p] == Entry.File(MigrationServices.LegacyServices(state)) && state.schemaVersion == 1
  }

  predicate ListsPeers(config: TomlTable) {
    "incoming_allowed_peers" in config
    || ("network" in config && config["network"].Table? && "incoming_allowed_peers" in config["network"].entries)
  }

  /** What the plan goes by: which files are there, and what the configuration says. */
  lemma PlanFields(t: Tree<Content>, live: Path, legacyPath: PathBuf, source: DetectedVersion, plan: Plan)
    requires IsPlan(t, live, legacyPath, source, plan)
    ensures plan.migrateLegacyLocalAccess <==> live + ["access", "local_access.json"] in t
    ensures plan.migrateAddressBook <==> live + ["address_book.toml"] in t
    ensures plan.migrateLegacyManagedServices <==> live + ["services-state.json"] in t
    ensures plan.removeLegacyServiceCaches <==>
              live + ["cache", "remote_services"] in t || live + ["cache", "device_managed_services"] in t
    ensures source == MissingConfig ==> !plan.updateConfig && !plan.migrateIncomingAllowedPeers
    ensures source != MissingConfig ==>
              exists config: TomlTable :: IsToml(t, live + ["config.toml"], Table(config)) && (plan.migrateIncomingAllowedPeers <==> ListsPeers(config))
                               && (plan.updateConfig <==> ListsPeers(config) || RequiresNormalization(config, source, legacyPath))
  {
    if source != MissingConfig {
      var config := t[live + ["config.toml"]].data.root.entries;
      assert IsToml(t, live + ["config.toml"], Table(config));
    }
  }

  /** The version of a directory is the one in its configuration; without a configuration it has none. */
  lemma VersionFields(t: Tree<Content>, live: Path)
    ensures DetectSourceVersion(t, live) == Ok(MissingConfig) <==> live + ["config.toml"] !in t
    ensures forall config: TomlTable :: IsToml(t, live + ["config.toml"], Table(config)) ==>
              DetectSourceVersion(t, live) ==
                if "version" !in config then Ok(LegacyNoVersion)
                else if config["version"].Integer? && config["version"].value >= 0 then Ok(Version(config["version"].value % 0x1_0000_0000))
                else Err
  {
  }

  /** What is no longer there in a current directory, and what its configuration no longer asks for. */
  lemma CurrentDirectoryFields(t: Tree<Content>, live: Path, legacyPath: PathBuf)
    requires IsCurrent(t, live, legacyPath)
    ensures live + ["access", "local_access.json"] !in t && live + ["address_book.toml"] !in t && live + ["services-state.json"] !in t
            && live + ["cache", "remote_services"] !in t && live + ["cache", "device_managed_services"] !in t
    ensures exists config: TomlTable ::
              && IsToml(t, live + ["config.toml"], Table(config))
              && "version" in config && config["version"].Integer? && config["version"].value % 0x1_0000_0000 == 3
              && !ListsPeers(config) && !RequiresNormalization(config, Version(3), legacyPath)
  {
    assert !Has(t, live, LegacyLocalAccess) && !Has(t, live, LegacyAddressBook) && !Has(t, live, LegacyServiceState);
    assert !Has(t, live, LegacyRemoteCache) && !Has(t, live, LegacyManagedCache);
    var config := t[live + ["config.toml"]].data.root.entries;
    assert IsToml(t, live + ["config.toml"], Table(config));
  }

  /** Without a configuration there is nothing in it to ask for; one that is there has to be a table. */
  lemma NeedsFields(t: Tree<Content>, live: Path, legacyPath: PathBuf, source: DetectedVersion)
    ensures ConfigNeeds(t, live, legacyPath, source).Ok? <==>
              source == MissingConfig || exists config :: IsToml(t, live + ["config.toml"], Table(config))
  {
    if source != MissingConfig && ConfigNeeds(t, live, legacyPath, source).Ok? {
      assert IsToml(t, live + ["config.toml"], Table(ReadConfigTable(t, live).value));
    }
  }

  /** When no plan is made: old files without a configuration, or the old state file beside services of the current layout. */
  lemma RefusedFields(t: Tree<Content>, live: Path, source: DetectedVersion)
    ensures Refused(t, live, source) <==>
              (source == MissingConfig && (live + ["address_book.toml"] in t || live + ["services-state.json"] in t))
              || (live + ["services-state.json"] in t && IsMixed(t, live))
  {
    MixedFields(t, live);
  }

  /** What it takes for everything a plan is for to be converted, unless a call fails. */
  lemma ConvertibleFields(t: Tree<Content>, live: Path, plan: Plan)
    ensures CanConvert(t, live, plan) <==>
              (plan.migrateIncomingAllowedPeers ==>
                 exists config, trusted ::
                   && IsToml(t, live + ["config.toml"], config) && IsTomlOrNone(t, live + ["trusted_devices.toml"], trusted)
                   && MigrationFiles.CanMergePeers(config, trusted))
              && (plan.migrateLegacyLocalAccess ==>
                    exists legacy, existing ::
                      && IsLegacyAccess(t, live + ["access", "local_access.json"], legacy)
                      && IsPreferences(t, live + ["cache", "local_preferences.json"], existing))
              && (plan.updateConfig ==> exists config :: IsToml(t, live + ["config.toml"], Table(config)))
              && (plan.migrateAddressBook ==>
                    exists book, devices ::
                      && IsToml(t, live + ["address_book.toml"], book) && IsTomlOrNone(t, live + ["devices.toml"], devices)
                      && MigrationFiles.CanMergeBook(book, devices))
              && (plan.migrateLegacyManagedServices ==>
                    exists state ::
                      IsLegacyState(t, live + ["services-state.json"], state)
                      && forall service <- state.services :: MigrationServices.IsAcceptable(service))
  {
    hide MigrationFiles.CanMergePeers, MigrationFiles.CanMergeBook, MigrationServices.IsAcceptable;
    MergeableFields(t, live);
    FillableFields(t, live);
    MovableFields(t, live);
  }

  lemma MergeableFields(t: Tree<Content>, live: Path)
    ensures CanMergeTrusted(t, live) <==>
              exists config, trusted ::
                && IsToml(t, live + ["config.toml"], config) && IsTomlOrNone(t, live + ["trusted_devices.toml"], trusted)
                && MigrationFiles.CanMergePeers(config, trusted)
    ensures CanMergeDevices(t, live) <==>
              exists book, devices ::
                && IsToml(t, live + ["address_book.toml"], book) && IsTomlOrNone(t, live + ["devices.toml"], devices)
                && MigrationFiles.CanMergeBook(book, devices)
    ensures CanRewriteConfig(t, live) <==> exists config :: IsToml(t, live + ["config.toml"], Table(config))
  {
    hide MigrationFiles.CanMergePeers, MigrationFiles.CanMergeBook;
    var config, trusted, book, devices :=
      live + ["config.toml"], live + ["trusted_devices.toml"], live + ["address_book.toml"], live + ["devices.toml"];
    TomlFields(t, config);
    TomlFields(t, trusted);
    TomlFields(t, book);
    TomlFields(t, devices);
    if CanRewriteConfig(t, live) {
      assert IsToml(t, config, Table(ReadToml(t, config).value.entries));
    }
  }

  lemma TomlFields(t: Tree<Content>, p: Path)
    ensures forall root :: ReadToml(t, p) == Ok(root) <==> IsToml(t, p, root)
    ensures forall root :: ReadOptional(t, p) == Ok(root) <==> IsTomlOrNone(t, p, root)
  {
  }

  lemma FillableFields(t: Tree<Content>, live: Path)
    ensures CanFillPreferences(t, live) <==>
              exists legacy, existing ::
                && IsLegacyAccess(t, live + ["access", "local_access.json"], legacy)
                && IsPreferences(t, live + ["cache", "local_preferences.json"], existing)
  {
    var from, p := live + ["access", "local_access.json"], live + ["cache", "local_preferences.json"];
    if CanFillPreferences(t, live) {
      assert IsLegacyAccess(t, from, t[from].data.access) && IsPreferences(t, p, ReadPreferences(t, p).value);
    }
  }

  lemma MovableFields(t: Tree<Content>, live: Path)
    ensures CanMoveServices(t, live) <==>
              exists state ::
                IsLegacyState(t, live + ["services-state.json"], state)
                && forall service <- state.services :: MigrationServices.IsAcceptable(service)
  {
    hide MigrationServices.IsAcceptable;
    if CanMoveServices(t, live) {
      assert IsLegacyState(t, live + ["services-state.json"], t[live + ["services-state.json"]].data.state);
    }
  }

  // ---------- what is asked of the ids and the names ----------

  /** The ids: one for each service, all different, and none with a data directory. */
  lemma IdsFields(t: Tree<Content>, live: Path, ids: seq<string>)
    ensures IdsAreNew(t, live, ids) <==>
              (forall i, j :: 0 <= i < j < |ids| ==> ids[i] != ids[j])
              && forall i :: 0 <= i < |ids| ==> live + ["appdata", "services", ids[i]] !in t
    ensures EnoughIds(t, live, ids) <==>
              forall state :: IsLegacyState(t, live + ["services-state.json"], state) ==> |ids| == |state.services|
  {
    if MigrationServices.ReadState(t, live).Some? {
      assert IsLegacyState(t, live + ["services-state.json"], MigrationServices.ReadState(t, live).value);
    }
  }

  predicate NoneButNames(cs: seq<Component>) {
    forall i :: 0 <= i < |cs| ==> cs[i].Normal?
  }

  /** The names are tame: keys are made of names, and so is the rest of a component path below the directory of its service. */
  lemma TameFields(t: Tree<Content>, live: Path, fungiDir: seq<Component>)
    ensures TameDirectory(t, live, fungiDir) <==>
              forall state :: IsLegacyState(t, live + ["services-state.json"], state) ==>
                forall service <- state.services ::
                  var key, from := ComponentsOf(service.key), service.manifest.source;
                  var oldDir := fungiDir + [Normal("services")] + key;
                  key != [] && NoneButNames(key)
                  && (from.WasmtimeFile? && oldDir <= ComponentsOf(from.component) ==> NoneButNames(ComponentsOf(from.component)[|oldDir|..]))
  {
    hide ComponentsOf;
    if MigrationServices.ReadState(t, live).Some? {
      assert IsLegacyState(t, live + ["services-state.json"], MigrationServices.ReadState(t, live).value);
    }
  }

  // ---------- the files that are merged ----------

  lemma ConfigArrives(first: Tree<Content>, t: Tree<Content>, live: Path, fungiDir: seq<Component>, ids: seq<string>, now: string,
                      config: TomlTable)
    requires HasArrived(first, t, live, fungiDir, ids, now) && IsToml(first, live + ["config.toml"], Table(config))
    requires ListsPeers(config) || RequiresNormalization(config, DetectSourceVersion(first, live).value, LegacyServicesPath(fungiDir))
    ensures IsToml(t, live + ["config.toml"], Table(Current(config, LegacyServicesPath(fungiDir))))
  {
    hide Current, ServicesArrived, IsPlan, RequiresNormalization;
    var plan :| IsItsPlan(first, live, LegacyServicesPath(fungiDir), plan) && Arrived(first, t, live, plan, fungiDir, ids, now);
    PlanFields(first, live, LegacyServicesPath(fungiDir), DetectSourceVersion(first, live).value, plan);
  }

  lemma PeersArrive(first: Tree<Content>, t: Tree<Content>, live: Path, fungiDir: seq<Component>, ids: seq<string>, now: string,
                    config: TomlTable)
    requires HasArrived(first, t, live, fungiDir, ids, now) && IsToml(first, live + ["config.toml"], Table(config)) && ListsPeers(config)
    ensures exists trusted, result ::
              && IsTomlOrNone(first, live + ["trusted_devices.toml"], trusted) && IsToml(t, live + ["trusted_devices.toml"], result)
              && MigrationFiles.TrustedMerged(Table(config), trusted, result)
  {
    hide ServicesArrived, IsPlan, RequiresNormalization, MigrationFiles.TrustedMerged;
    var plan :| IsItsPlan(first, live, LegacyServicesPath(fungiDir), plan) && Arrived(first, t, live, plan, fungiDir, ids, now);
    PlanFields(first, live, LegacyServicesPath(fungiDir), DetectSourceVersion(first, live).value, plan);
    var p := live + ["trusted_devices.toml"];
    var trusted := if p in first then Some(first[p].data.root) else None;
    assert IsTomlOrNone(first, p, trusted) && IsToml(t, p, t[p].data.root);
  }

  lemma AddressBookArrives(first: Tree<Content>, t: Tree<Content>, live: Path, fungiDir: seq<Component>, ids: seq<string>, now: string)
    requires HasArrived(first, t, live, fungiDir, ids, now) && live + ["address_book.toml"] in first
    ensures exists book, devices, result ::
              && IsToml(first, live + ["address_book.toml"], book) && IsTomlOrNone(first, live + ["devices.toml"], devices)
              && IsToml(t, live + ["devices.toml"], result) && MigrationFiles.DevicesMerged(book, devices, result)
  {
    hide ServicesArrived, IsPlan, RequiresNormalization, MigrationFiles.DevicesMerged;
    var plan :| IsItsPlan(first, live, LegacyServicesPath(fungiDir), plan) && Arrived(first, t, live, plan, fungiDir, ids, now);
    PlanFields(first, live, LegacyServicesPath(fungiDir), DetectSourceVersion(first, live).value, plan);
    var p, from := live + ["devices.toml"], live + ["address_book.toml"];
    var devices := if p in first then Some(first[p].data.root) else None;
    assert IsToml(first, from, first[from].data.root) && IsTomlOrNone(first, p, devices) && IsToml(t, p, t[p].data.root);
  }

  lemma PreferencesArrive(first: Tree<Content>, t: Tree<Content>, live: Path, fungiDir: seq<Component>, ids: seq<string>, now: string)
    requires HasArrived(first, t, live, fungiDir, ids, now) && live + ["access", "local_access.json"] in first
    ensures exists legacy, existing, result ::
              && IsLegacyAccess(first, live + ["access", "local_access.json"], legacy)
              && IsPreferences(first, live + ["cache", "local_preferences.json"], existing)
              && IsPreferences(t, live + ["cache", "local_preferences.json"], result)
              && MigrationAccess.PreferencesMerged(existing, legacy, result)
  {
    hide ServicesArrived, IsPlan, RequiresNormalization, MigrationAccess.PreferencesMerged;
    var plan :| IsItsPlan(first, live, LegacyServicesPath(fungiDir), plan) && Arrived(first, t, live, plan, fungiDir, ids, now);
    PlanFields(first, live, LegacyServicesPath(fungiDir), DetectSourceVersion(first, live).value, plan);
    var p, from := live + ["cache", "local_preferences.json"], live + ["access", "local_access.json"];
    var existing := if p in first then first[p].data.preferences else [];
    var result := if p in t then t[p].data.preferences else [];
    assert IsPreferences(first, p, existing) && IsPreferences(t, p, result);
    assert IsLegacyAccess(first, from, first[from].data.access);
  }

  // ---------- the services ----------

  /** The services under their new ids: as their legacy manifests say, and with all their files if no earlier one carried any off. */
  lemma ServicesArrive(first: Tree<Content>, t: Tree<Content>, live: Path, fungiDir: seq<Component>, ids: seq<string>, now: string)
    requires HasArrived(first, t, live, fungiDir, ids, now) && live + ["services-state.json"] in first
    ensures exists state ::
              && IsLegacyState(first, live + ["services-state.json"], state)
              && |ids| == |state.services|
              && var time := if Text.Trim(state.updatedAt) != "" then Text.Trim(state.updatedAt) else now;
              && var job := MigrationServices.Job(live, fungiDir, state.services, ids, time);
              MigrationServicesData.FreshIds(first, job) ==>
                forall i: nat :: i < |ids| ==>
                  MigrationServices.IsDescribedIn(t, live + ["services", ids[i]], state.services[i],
                                                  fungiDir + [Normal("services")] + ComponentsOf(state.services[i].key), ids[i], time)
                  && KeepsItsFiles(first, t, job, i)
  {
    hide IsPlan, MigrationServicesData.FreshIds, MigrationServicesData.Settled, MigrationServices.IsDescribedIn, KeepsItsFiles, ComponentsOf;
    var plan :| IsItsPlan(first, live, LegacyServicesPath(fungiDir), plan) && Arrived(first, t, live, plan, fungiDir, ids, now);
    PlanFields(first, live, LegacyServicesPath(fungiDir), DetectSourceVersion(first, live).value, plan);
    var state := first[live + ["services-state.json"]].data.state;
    assert IsLegacyState(first, live + ["services-state.json"], state);
    var job := LiveJob(first, live, fungiDir, ids, now);
    if MigrationServicesData.FreshIds(first, job) {
      forall i: nat | i < |ids|
        ensures MigrationServices.IsDescribedIn(t, live + ["services", ids[i]], state.services[i],
                                                fungiDir + [Normal("services")] + ComponentsOf(state.services[i].key), ids[i], job.updatedAt)
      {
        MigrationServicesData.SettledFields(first, t, job, i);
      }
    }
  }
}
