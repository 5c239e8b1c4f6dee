/** TOML values, and the rewrite of `config.toml` to the current version. */
module MigrationConfig {
  import opened FsPaths
  import opened Wrappers
  import opened Widths

  datatype Toml =
    | Table(entries: TomlTable)
    | Array(items: seq<Toml>)
    | Str(text: string)
    | Integer(value: I64)
    | Scalar(literal: string)

  type TomlTable = map<string, Toml>

  type I64 = n: int | -0x8000_0000_0000_0000 <= n < 0x8000_0000_0000_0000

  const CURRENT_FUNGI_DIR_VERSION := 3
  const PREVIOUS_FUNGI_DIR_VERSION := 2
  const SERVICES_ROOT_DIR := "services"

  datatype DetectedVersion = MissingConfig | LegacyNoVersion | Version(number: nat)

  // ---------- lookups ----------

  function GetTable(t: TomlTable, key: string): Option<TomlTable> {
    if key in t && t[key].Table? then Some(t[key].entries) else None
  }

  function GetArray(t: TomlTable, key: string): Option<seq<Toml>> {
    if key in t && t[key].Array? then Some(t[key].items) else None
  }

  function GetStr(t: TomlTable, key: string): Option<string> {
    if key in t && t[key].Str? then Some(t[key].text) else None
  }

  // ---------- detection ----------

  /** `detect_source_version_from_toml_str` on the parsed root; the `as u32` cast truncates. */
  function Detect(root: Toml): Result<DetectedVersion> {
    if !root.Table? then Err
    else if "version" !in root.entries then Ok(LegacyNoVersion)
    else
      match root.entries["version"]
      case Integer(n) => if n < 0 then Err else Ok(Version(n % U32_LIMIT))
      case _ => Err
  }

  /** `config_has_legacy_incoming_allowed_peers`. */
  predicate HasLegacyPeers(t: TomlTable) {
    "incoming_allowed_peers" in t
    || (GetTable(t, "network").Some? && "incoming_allowed_peers" in GetTable(t, "network").value)
  }

  predicate IsLegacyAddress(address: Option<string>) {
    address in {Some("127.0.0.1:5405"), Some("127.0.0.1:5406")}
  }

  function LegacyServicesPath(fungiDir: seq<Component>): PathBuf {
    Normalized(fungiDir + [Normal(SERVICES_ROOT_DIR)])
  }

  predicate IsLegacyHostPath(value: Toml, legacyPath: PathBuf) {
    value.Str? && Normalized(ComponentsOf(value.text)) == legacyPath
  }

  predicate RuntimeRequiresNormalization(runtime: TomlTable, legacyPath: PathBuf) {
    || "allowed_ports" in runtime
    || "allowed_port_ranges" in runtime
    || (GetArray(runtime, "allowed_host_paths").Some?
        && exists value <- GetArray(runtime, "allowed_host_paths").value :: IsLegacyHostPath(value, legacyPath))
  }

  /** `config_requires_current_normalization`, for a configuration that is there. */
  predicate RequiresNormalization(t: TomlTable, source: DetectedVersion, legacyPath: PathBuf) {
    || source == Version(PREVIOUS_FUNGI_DIR_VERSION)
    || "version" !in t
    || "tcp_tunneling" in t
    || "file_transfer" in t
    || (GetTable(t, "rpc").Some? && IsLegacyAddress(GetStr(GetTable(t, "rpc").value, "listen_address")))
    || (GetTable(t, "runtime").Some? && RuntimeRequiresNormalization(GetTable(t, "runtime").value, legacyPath))
  }

  // ---------- the current form of a configuration ----------

  const REMOVED_KEYS: set<string> := {"incoming_allowed_peers", "tcp_tunneling", "file_transfer"}

  function CurrentRpc(rpc: TomlTable): TomlTable {
    if IsLegacyAddress(GetStr(rpc, "listen_address")) then rpc["listen_address" := Str("127.0.0.1:0")] else rpc
  }

  /** The values that do not name the legacy services directory, in order. */
  function OtherHostPaths(paths: seq<Toml>, legacyPath: PathBuf): (kept: seq<Toml>)
    ensures forall value :: value in kept <==> value in paths && !IsLegacyHostPath(value, legacyPath)
  {
    if paths == [] then []
    else
      var rest := OtherHostPaths(paths[1..], legacyPath);
      if IsLegacyHostPath(paths[0], legacyPath) then rest else [paths[0]] + rest
  }

  function CurrentRuntime(runtime: TomlTable, legacyPath: PathBuf): TomlTable {
    var r := runtime - {"allowed_ports", "allowed_port_ranges"};
    match GetArray(r, "allowed_host_paths")
    case None => r
    case Some(paths) =>
      var kept := OtherHostPaths(paths, legacyPath);
      if kept == [] then r - {"allowed_host_paths"} else r["allowed_host_paths" := Array(kept)]
  }

  /** What a top-level entry becomes. */
  function CurrentEntry(key: string, value: Toml, legacyPath: PathBuf): Toml {
    if !value.Table? then value
    else if key == "rpc" then Table(CurrentRpc(value.entries))
    else if key == "network" then Table(value.entries - {"incoming_allowed_peers"})
    else if key == "runtime" then Table(CurrentRuntime(value.entries, legacyPath))
    else value
  }

  function Current(t: TomlTable, legacyPath: PathBuf): TomlTable {
    (map key | key in t.Keys - REMOVED_KEYS - {"version"} :: CurrentEntry(key, t[key], legacyPath))
    ["version" := Integer(CURRENT_FUNGI_DIR_VERSION)]
  }

  // ---------- the rewrite ----------

  /** `paths.retain(..)` and what follows it in `remove_legacy_services_allowlist`. */
  method RemoveLegacyServicesAllowlist(runtime: TomlTable, fungiDir: seq<Component>) returns (r: TomlTable)
    requires "allowed_ports" !in runtime && "allowed_port_ranges" !in runtime
    ensures r == CurrentRuntime(runtime, LegacyServicesPath(fungiDir))
  {
    r := runtime;
    assert runtime - {"allowed_ports", "allowed_port_ranges"} == runtime;
    var legacyPath := NormalizeFsPath(fungiDir + [Normal(SERVICES_ROOT_DIR)]);
    if GetArray(runtime, "allowed_host_paths").None? {
      return;
    }
    var paths := runtime["allowed_host_paths"].items;
    var kept := [];
    for i := 0 to |paths|
      invariant kept + OtherHostPaths(paths[i..], legacyPath) == OtherHostPaths(paths, legacyPath)
    {
      assert paths[i..][0] == paths[i] && paths[i..][1..] == paths[i + 1..];
      if !IsLegacyHostPath(paths[i], legacyPath) {
        kept := kept + [paths[i]];
      }
    }
    assert kept == OtherHostPaths(paths, legacyPath);
    r := if kept == [] then r - {"allowed_host_paths"} else r["allowed_host_paths" := Array(kept)];
  }

  /** `migrate_config_toml_to_current` on the parsed root: entry by entry, in the order of the source. */
  method MigrateConfigToml(root: Toml, fungiDir: seq<Component>) returns (r: Result<Toml>)
    ensures r == if root.Table? then Ok(Table(Current(root.entries, LegacyServicesPath(fungiDir)))) else Err
  {
    if !root.Table? {
      return Err;
    }
    ghost var legacyPath := LegacyServicesPath(fungiDir);
    var table := root.entries["version" := Integer(CURRENT_FUNGI_DIR_VERSION)];
    table := table - {"incoming_allowed_peers"};
    table := table - {"tcp_tunneling"};
    table := table - {"file_transfer"};
    ghost var bare := table;
    if "rpc" in table && table["rpc"].Table? {
      var rpc := table["rpc"].entries;
      if IsLegacyAddress(GetStr(rpc, "listen_address")) {
        table := table["rpc" := Table(rpc["listen_address" := Str("127.0.0.1:0")])];
      }
    }
    assert table == WithSection(bare, "rpc", legacyPath);
    if "network" in table && table["network"].Table? {
      table := table["network" := Table(table["network"].entries - {"incoming_allowed_peers"})];
    }
    assert table == WithSection(WithSection(bare, "rpc", legacyPath), "network", legacyPath);
    ghost var before := table;
    if "runtime" in table && table["runtime"].Table? {
      var runtime := RewriteRuntime(table["runtime"].entries, fungiDir);
      table := table["runtime" := Table(runtime)];
    }
    assert table == WithSection(before, "runtime", legacyPath);
    SectionsMakeCurrent(root.entries, bare, legacyPath);
    r := Ok(Table(table));
  }

  method RewriteRuntime(section: TomlTable, fungiDir: seq<Component>) returns (runtime: TomlTable)
    ensures runtime == CurrentRuntime(section, LegacyServicesPath(fungiDir))
  {
    runtime := section - {"allowed_ports"};
    runtime := runtime - {"allowed_port_ranges"};
    var bare := section - {"allowed_ports", "allowed_port_ranges"};
    assert runtime == bare && bare - {"allowed_ports", "allowed_port_ranges"} == bare;
    runtime := RemoveLegacyServicesAllowlist(runtime, fungiDir);
  }

  /** One section brought up to date. */
  function WithSection(t: TomlTable, key: string, legacyPath: PathBuf): TomlTable {
    if key in t then t[key := CurrentEntry(key, t[key], legacyPath)] else t
  }

  lemma SectionsMakeCurrent(t: TomlTable, bare: TomlTable, legacyPath: PathBuf)
    requires bare == t["version" := Integer(CURRENT_FUNGI_DIR_VERSION)] - REMOVED_KEYS
    ensures WithSection(WithSection(WithSection(bare, "rpc", legacyPath), "network", legacyPath), "runtime", legacyPath)
            == Current(t, legacyPath)
  {
  }

  // ---------- properties ----------

  lemma OtherHostPathsOfKept(paths: seq<Toml>, legacyPath: PathBuf)
    ensures OtherHostPaths(paths, legacyPath) == paths <==> forall value <- paths :: !IsLegacyHostPath(value, legacyPath)
  {
    if (forall value <- paths :: !IsLegacyHostPath(value, legacyPath)) && paths != [] {
      OtherHostPathsOfKept(paths[1..], legacyPath);
      assert paths == [paths[0]] + paths[1..];
    } else if paths != [] {
      var value :| value in paths && IsLegacyHostPath(value, legacyPath);
      assert value !in OtherHostPaths(paths, legacyPath);
    }
  }

  lemma RuntimeIsCurrent(runtime: TomlTable, legacyPath: PathBuf)
    ensures !RuntimeRequiresNormalization(CurrentRuntime(runtime, legacyPath), legacyPath)
    ensures CurrentRuntime(CurrentRuntime(runtime, legacyPath), legacyPath) == CurrentRuntime(runtime, legacyPath)
  {
    var r := CurrentRuntime(runtime, legacyPath);
    assert r - {"allowed_ports", "allowed_port_ranges"} == r;
    if GetArray(r, "allowed_host_paths").Some? {
      OtherHostPathsOfKept(GetArray(r, "allowed_host_paths").value, legacyPath);
      assert r["allowed_host_paths" := r["allowed_host_paths"]] == r;
    }
  }

  /** The rewritten configuration is detected as current, and asks for no further rewriting. */
  lemma CurrentNeedsNothing(t: TomlTable, legacyPath: PathBuf)
    ensures Detect(Table(Current(t, legacyPath))) == Ok(Version(CURRENT_FUNGI_DIR_VERSION))
    ensures !RequiresNormalization(Current(t, legacyPath), Version(CURRENT_FUNGI_DIR_VERSION), legacyPath)
    ensures !HasLegacyPeers(Current(t, legacyPath))
  {
    var c := Current(t, legacyPath);
    assert c["version"] == Integer(CURRENT_FUNGI_DIR_VERSION);
    if GetTable(t, "runtime").Some? {
      RuntimeIsCurrent(GetTable(t, "runtime").value, legacyPath);
    }
  }

  predicate IsText(t: TomlTable, key: string, text: string) {
    key in t && t[key] == Str(text)
  }

  /** What the rewrite changes, setting by setting. */
  lemma CurrentFields(t: TomlTable, legacyPath: PathBuf)
    ensures var c := Current(t, legacyPath);
            && "version" in c && c["version"] == Integer(3)
            && "incoming_allowed_peers" !in c && "tcp_tunneling" !in c && "file_transfer" !in c
    ensures var c := Current(t, legacyPath);
            GetTable(t, "rpc").Some? ==>
              var before, after := GetTable(t, "rpc").value, GetTable(c, "rpc").value;
              if IsText(before, "listen_address", "127.0.0.1:5405") || IsText(before, "listen_address", "127.0.0.1:5406")
              then IsText(after, "listen_address", "127.0.0.1:0")
              else after == before
    ensures GetTable(t, "network").Some? ==> "incoming_allowed_peers" !in GetTable(Current(t, legacyPath), "network").value
    ensures GetTable(t, "runtime").Some? ==>
              var before, after := GetTable(t, "runtime").value, GetTable(Current(t, legacyPath), "runtime").value;
              && "allowed_ports" !in after && "allowed_port_ranges" !in after
              && if "allowed_host_paths" in before && before["allowed_host_paths"].Array?
                 then HostPathsKept(before["allowed_host_paths"].items, after, legacyPath)
                 else "allowed_host_paths" in after <==> "allowed_host_paths" in before
  {
    CurrentKeepsTheRest(t, legacyPath, "");
    hide CurrentRuntime, HostPathsKept, OtherHostPaths, RuntimeRequiresNormalization;
    if GetTable(t, "runtime").Some? {
      RuntimeFields(GetTable(t, "runtime").value, legacyPath);
    }
  }

  /** The allowed paths are those that do not lead to the legacy services directory; without any the setting goes. */
  ghost predicate HostPathsKept(paths: seq<Toml>, after: TomlTable, legacyPath: PathBuf) {
    if exists v <- paths :: !(v.Str? && Normalized(ComponentsOf(v.text)) == legacyPath)
    then "allowed_host_paths" in after && after["allowed_host_paths"].Array?
         && forall v :: multiset(after["allowed_host_paths"].items)[v] ==
              if v.Str? && Normalized(ComponentsOf(v.text)) == legacyPath then 0 else multiset(paths)[v]
    else "allowed_host_paths" !in after
  }

  lemma {:induction false} HostPathsInOrder(before: seq<Toml>, after: seq<Toml>, legacyPath: PathBuf)
    ensures OtherHostPaths(before + after, legacyPath) == OtherHostPaths(before, legacyPath) + OtherHostPaths(after, legacyPath)
  {
    hide IsLegacyHostPath;
    if before == [] {
      assert before + after == after;
    } else {
      HostPathsInOrder(before[1..], after, legacyPath);
      assert (before + after)[1..] == before[1..] + after;
    }
  }

  /** The paths that stay are there as often as they were. */
  lemma {:induction false} HostPathsCount(paths: seq<Toml>, legacyPath: PathBuf)
    ensures forall v :: multiset(OtherHostPaths(paths, legacyPath))[v] ==
              if v.Str? && Normalized(ComponentsOf(v.text)) == legacyPath then 0 else multiset(paths)[v]
  {
    hide ComponentsOf, Normalized;
    if paths != [] {
      HostPathsCount(paths[1..], legacyPath);
      assert paths == [paths[0]] + paths[1..];
    }
  }

  lemma RuntimeFields(runtime: TomlTable, legacyPath: PathBuf)
    ensures var after := CurrentRuntime(runtime, legacyPath);
            && "allowed_ports" !in after && "allowed_port_ranges" !in after
            && if "allowed_host_paths" in runtime && runtime["allowed_host_paths"].Array?
               then HostPathsKept(runtime["allowed_host_paths"].items, after, legacyPath)
               else "allowed_host_paths" in after <==> "allowed_host_paths" in runtime
  {
    hide ComponentsOf, Normalized;
    if "allowed_host_paths" in runtime && runtime["allowed_host_paths"].Array? {
      var kept := OtherHostPaths(runtime["allowed_host_paths"].items, legacyPath);
      HostPathsCount(runtime["allowed_host_paths"].items, legacyPath);
      assert kept == [] || kept[0] in kept;
    }
  }

  lemma CurrentEntryIdempotent(key: string, value: Toml, legacyPath: PathBuf)
    ensures CurrentEntry(key, CurrentEntry(key, value, legacyPath), legacyPath) == CurrentEntry(key, value, legacyPath)
  {
    if value.Table? && key == "runtime" {
      RuntimeIsCurrent(value.entries, legacyPath);
    } else if value.Table? && key == "network" {
      var n := value.entries - {"incoming_allowed_peers"};
      assert n - {"incoming_allowed_peers"} == n;
    }
  }

  lemma CurrentIdempotent(t: TomlTable, legacyPath: PathBuf)
    ensures Current(Current(t, legacyPath), legacyPath) == Current(t, legacyPath)
  {
    forall key | key in t && key !in REMOVED_KEYS
      ensures CurrentEntry(key, CurrentEntry(key, t[key], legacyPath), legacyPath) == CurrentEntry(key, t[key], legacyPath)
    {
      CurrentEntryIdempotent(key, t[key], legacyPath);
    }
  }

  /** Settings the rewrite has no business with come through unchanged, inside the rewritten tables too. */
  lemma CurrentKeepsTheRest(t: TomlTable, legacyPath: PathBuf, key: string)
    ensures key !in REMOVED_KEYS + {"version", "rpc", "network", "runtime"} ==>
              (key in Current(t, legacyPath) <==> key in t) && (key in t ==> Current(t, legacyPath)[key] == t[key])
    ensures forall section <- {"rpc", "network", "runtime"} ::
              var before, after := GetTable(t, section), GetTable(Current(t, legacyPath), section);
              (before.Some? <==> after.Some?)
              && (before.Some? && key !in {"listen_address", "incoming_allowed_peers", "allowed_ports", "allowed_port_ranges", "allowed_host_paths"} ==>
                    (key in before.value <==> key in after.value) && (key in before.value ==> before.value[key] == after.value[key]))
  {
  }

  /** The one setting the rewrite drops though detection does not ask for a rewrite. */
  predicate HasEmptyAllowlist(t: TomlTable) {
    GetTable(t, "runtime").Some? && GetArray(GetTable(t, "runtime").value, "allowed_host_paths") == Some([])
  }

  lemma RuntimeUnchanged(runtime: TomlTable, legacyPath: PathBuf)
    ensures CurrentRuntime(runtime, legacyPath) == runtime <==>
            !RuntimeRequiresNormalization(runtime, legacyPath) && GetArray(runtime, "allowed_host_paths") != Some([])
  {
    var r := runtime - {"allowed_ports", "allowed_port_ranges"};
    var c := CurrentRuntime(runtime, legacyPath);
    assert "allowed_ports" !in c && "allowed_port_ranges" !in c;
    if "allowed_ports" !in runtime && "allowed_port_ranges" !in runtime {
      assert r == runtime;
      match GetArray(r, "allowed_host_paths") {
        case None =>
        case Some(paths) =>
          OtherHostPathsOfKept(paths, legacyPath);
          assert r["allowed_host_paths" := Array(paths)] == r;
          if c == runtime {
            assert "allowed_host_paths" in c;
            assert c["allowed_host_paths"] == Array(OtherHostPaths(paths, legacyPath));
          }
      }
    }
  }

  /**
   * The rewrite changes nothing exactly for a configuration whose version is the integer 3, that needs
   * no normalization, and whose host path allowlist, if any, is not empty.
   */
  lemma CurrentChangesNothing(t: TomlTable, legacyPath: PathBuf)
    ensures Current(t, legacyPath) == t <==>
            "version" in t && t["version"] == Integer(CURRENT_FUNGI_DIR_VERSION)
            && !RequiresNormalization(t, Version(CURRENT_FUNGI_DIR_VERSION), legacyPath) && !HasLegacyPeers(t)
            && !HasEmptyAllowlist(t)
  {
    var c := Current(t, legacyPath);
    assert c["version"] == Integer(CURRENT_FUNGI_DIR_VERSION);
    forall section <- {"rpc", "network", "runtime"} | section in t
      ensures c[section] == CurrentEntry(section, t[section], legacyPath)
      ensures c[section] == t[section] <==> SectionIsCurrent(section, t[section], legacyPath)
    {
      SectionUnchanged(section, t[section], legacyPath);
    }
    if "version" in t && t["version"] == Integer(CURRENT_FUNGI_DIR_VERSION) && REMOVED_KEYS !! t.Keys
       && forall section <- {"rpc", "network", "runtime"} :: section in t ==> c[section] == t[section] {
      assert forall key <- t :: key in c && c[key] == t[key];
      assert c == t;
    }
  }

  predicate SectionIsCurrent(section: string, value: Toml, legacyPath: PathBuf) {
    !value.Table?
    || (if section == "rpc" then !IsLegacyAddress(GetStr(value.entries, "listen_address"))
        else if section == "network" then "incoming_allowed_peers" !in value.entries
        else !RuntimeRequiresNormalization(value.entries, legacyPath) && GetArray(value.entries, "allowed_host_paths") != Some([]))
  }

  lemma SectionUnchanged(section: string, value: Toml, legacyPath: PathBuf)
    requires section in {"rpc", "network", "runtime"}
    ensures CurrentEntry(section, value, legacyPath) == value <==> SectionIsCurrent(section, value, legacyPath)
  {
    if value.Table? && section == "runtime" {
      RuntimeUnchanged(value.entries, legacyPath);
    } else if value.Table? && section == "network" {
      var n := value.entries - {"incoming_allowed_peers"};
      assert "incoming_allowed_peers" !in n;
      assert "incoming_allowed_peers" !in value.entries ==> n == value.entries;
    }
  }

  /** A version is detected as current when its low 32 bits say 3, so 2^32 + 3 passes for 3. */
  lemma DetectedAsCurrent(t: TomlTable)
    ensures Detect(Table(t)) == Ok(Version(CURRENT_FUNGI_DIR_VERSION)) <==>
            "version" in t && t["version"].Integer? && t["version"].value >= 0
            && t["version"].value % U32_LIMIT == CURRENT_FUNGI_DIR_VERSION
    ensures Detect(Table(t["version" := Integer(U32_LIMIT + 3)])) == Ok(Version(CURRENT_FUNGI_DIR_VERSION))
  {
  }
}
