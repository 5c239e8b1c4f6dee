/** Moving legacy services to the current layout: `services.rs` of the migration. */
module MigrationServices {
  import opened FileTree
  import opened FsPaths
  import opened Widths
  import opened Wrappers
  import Forwarding
  import MigrationAccess
  import MigrationConfig
  import Text

  const SERVICE_DATA_VARIABLE := "$fungi.service.data"

  const LEGACY_SERVICE_STATE_FILE := "services-state.json"

  const LEGACY_SERVICE_STATE_SCHEMA_VERSION := 1

  datatype RuntimeKind = Docker | Wasmtime

  datatype DesiredState = Running | Stopped

  datatype LegacySource = DockerImage(image: string) | WasmtimeFile(component: string) | WasmtimeUrl(url: string)

  datatype LegacyPort = LegacyPort(name: Option<string>, hostPort: U16, servicePort: U16, tcp: bool)

  datatype Mount = Mount(host: string, inside: string)

  datatype LegacyManifest = LegacyManifest(
    name: string, runtime: RuntimeKind, source: LegacySource, mounts: seq<Mount>, ports: seq<LegacyPort>)

  datatype LegacyService = LegacyService(key: string, manifest: LegacyManifest, desired: DesiredState)

  /** The services are in the order of their keys, as in a `BTreeMap`. */
  datatype LegacyState = LegacyState(schemaVersion: nat, updatedAt: string, services: seq<LegacyService>)

  datatype Source = File(file: string) | Url(url: string) | Image(image: string)

  datatype Document = Document(
    id: string, provider: RuntimeKind, http: bool, source: Source, mounts: seq<Mount>, publish: map<string, U16>)

  datatype ServiceState = ServiceState(schemaVersion: nat, id: string, updatedAt: string, desired: DesiredState)

  /** What a file holds, once parsed. */
  datatype Content =
    | Toml(root: MigrationConfig.Toml)
    | LegacyServices(state: LegacyState)
    | Manifest(document: Document)
    | State(service: ServiceState)
    | LegacyAccess(access: seq<MigrationAccess.Preference>)
    | Preferences(preferences: seq<MigrationAccess.Preference>)
    | Other(text: string)

  // ---------- the manifest ----------

  /** `rewrite_legacy_managed_manifest_path`. */
  function RewritePath(raw: string, oldRoot: seq<Component>): string {
    var cs := ComponentsOf(raw);
    if cs == oldRoot then SERVICE_DATA_VARIABLE
    else if oldRoot <= cs then SERVICE_DATA_VARIABLE + "/" + JoinParts(cs[|oldRoot|..])
    else raw
  }

  /** How a manifest path that starts with the data variable is resolved for a service. */
  function Expand(path: string, dataDir: string): string {
    if SERVICE_DATA_VARIABLE <= path then dataDir + path[|SERVICE_DATA_VARIABLE|..] else path
  }

  /** A mount of something in the old directory mounts the same thing in the new one, and any other stays. */
  lemma MountsFollowTheData(raw: string, oldRoot: seq<Component>, dataDir: string)
    requires dataDir != "" && oldRoot != []
    ensures oldRoot <= ComponentsOf(raw) ==>
              ComponentsOf(Expand(RewritePath(raw, oldRoot), dataDir)) == ComponentsOf(dataDir) + ComponentsOf(raw)[|oldRoot|..]
    ensures !(oldRoot <= ComponentsOf(raw)) ==> RewritePath(raw, oldRoot) == raw
    ensures !(oldRoot <= ComponentsOf(raw)) && !(SERVICE_DATA_VARIABLE <= raw) ==> Expand(RewritePath(raw, oldRoot), dataDir) == raw
  {
    var cs := ComponentsOf(raw);
    if cs == oldRoot {
      assert Expand(SERVICE_DATA_VARIABLE, dataDir) == dataDir + "" == dataDir;
      assert ComponentsOf(dataDir) + cs[|oldRoot|..] == ComponentsOf(dataDir);
    } else if oldRoot <= cs {
      var suffix := cs[|oldRoot|..];
      LaterComponents(raw);
      forall c <- suffix ensures IsPart(c) {
        assert c in cs[1..];
      }
      ExpandBelow(suffix, dataDir);
      ComponentsBelow(dataDir, suffix);
    }
  }

  lemma ExpandBelow(suffix: seq<Component>, dataDir: string)
    ensures Expand(SERVICE_DATA_VARIABLE + "/" + JoinParts(suffix), dataDir) == dataDir + "/" + JoinParts(suffix)
  {
    var path := SERVICE_DATA_VARIABLE + "/" + JoinParts(suffix);
    assert path[|SERVICE_DATA_VARIABLE|..] == "/" + JoinParts(suffix);
  }

  function PortName(port: LegacyPort, index: nat): string {
    if port.name.Some? then port.name.value
    else if index == 0 then "main"
    else "main-" + Forwarding.Decimal(index)
  }

  function PublishedPort(runtime: RuntimeKind, port: LegacyPort): U16 {
    if runtime == Docker || port.hostPort == 0 then port.servicePort else port.hostPort
  }

  /** The `publish` table; of ports with the same name the last one stays. */
  method ConvertPorts(m: LegacyManifest) returns (r: Result<map<string, U16>>)
    ensures r.Ok? <==> m.ports != [] && forall port <- m.ports :: port.tcp
    ensures r.Ok? ==> r.value == PublishOf(m, |m.ports|)
  {
    var publish: map<string, U16> := map[];
    for i := 0 to |m.ports|
      invariant publish == PublishOf(m, i) && forall port <- m.ports[..i] :: port.tcp
      invariant i > 0 ==> publish != map[]
    {
      assert m.ports[..i + 1] == m.ports[..i] + [m.ports[i]];
      if !m.ports[i].tcp {
        return Err;
      }
      publish := publish[PortName(m.ports[i], i) := PublishedPort(m.runtime, m.ports[i])];
      assert PortName(m.ports[i], i) in publish;
    }
    assert m.ports[..|m.ports|] == m.ports;
    return if publish == map[] then Err else Ok(publish);
  }

  function PublishOf(m: LegacyManifest, n: nat): map<string, U16>
    requires n <= |m.ports|
  {
    if n == 0 then map[]
    else PublishOf(m, n - 1)[PortName(m.ports[n - 1], n - 1) := PublishedPort(m.runtime, m.ports[n - 1])]
  }

  /** Among the first `n` ports, `i` is the last one called `name`. */
  predicate LastNamed(m: LegacyManifest, n: nat, name: string, i: nat)
    requires i < n <= |m.ports|
  {
    PortName(m.ports[i], i) == name && forall j :: i < j < n ==> PortName(m.ports[j], j) != name
  }

  /** The table holds exactly the ports that no later port of the same name replaces. */
  lemma {:induction false} PublishIsLast(m: LegacyManifest, n: nat, name: string)
    requires n <= |m.ports|
    ensures name in PublishOf(m, n) <==> exists i :: 0 <= i < n && LastNamed(m, n, name, i)
    ensures forall i :: 0 <= i < n && LastNamed(m, n, name, i) ==> PublishOf(m, n)[name] == PublishedPort(m.runtime, m.ports[i])
  {
    if n > 0 {
      var before := n - 1;
      PublishIsLast(m, before, name);
      OnePortMore(m, before, n, name);
    }
  }

  lemma OnePortMore(m: LegacyManifest, before: nat, n: nat, name: string)
    requires before + 1 == n <= |m.ports|
    ensures PortName(m.ports[before], before) == name ==>
              LastNamed(m, n, name, before) && forall i :: 0 <= i < before ==> !LastNamed(m, n, name, i)
    ensures PortName(m.ports[before], before) != name ==> !LastNamed(m, n, name, before)
    ensures PortName(m.ports[before], before) != name ==>
              forall i :: 0 <= i < before && LastNamed(m, n, name, i) ==> LastNamed(m, before, name, i)
    ensures PortName(m.ports[before], before) != name ==>
              forall i :: 0 <= i < before && LastNamed(m, before, name, i) ==> LastNamed(m, n, name, i)
  {
  }

  // ---------- where a service is ----------

  /** Where the components lead from `base`, read as text: `base.join(..)`. */
  function Target(base: Path, cs: seq<Component>): Path {
    Walk(PathBuf(true, base), cs).names
  }

  /** Every component is looked up in a directory that is there. */
  predicate Reaches(t: Tree<Content>, at: Path, cs: seq<Component>)
    decreases |cs|
  {
    ((at in t && t[at].Directory?) || (cs != [] && cs[0].RootDir?))
    && (|cs| > 1 ==> Reaches(t, PathBuf(true, at).Push(cs[0]).names, cs[1..]))
  }

  predicate Exists(t: Tree<Content>, base: Path, cs: seq<Component>) {
    Reaches(t, base, cs) && Target(base, cs) in t
  }

  /** No path leads through what is no directory, not even one that goes back up from there. */
  lemma NothingBeyond(t: Tree<Content>, base: Path, name: string, rest: seq<Component>)
    requires rest != [] && !rest[0].RootDir? && !(base + [name] in t && t[base + [name]].Directory?)
    ensures !Exists(t, base, [Normal(name)] + rest)
  {
    var cs := [Normal(name)] + rest;
    assert cs[1..] == rest && PathBuf(true, base).Push(cs[0]).names == base + [name];
    assert Reaches(t, base, cs) ==> Reaches(t, base + [name], rest);
  }

  /** What the migration works on: service `i` gets the id `ids[i]`. */
  datatype Job = Job(staging: Path, live: seq<Component>, services: seq<LegacyService>, ids: seq<string>, updatedAt: string) {
    function ServicesRoot(): Path {
      staging + ["services"]
    }

    function KeyOf(i: nat): seq<Component>
      requires i < |services|
    {
      ComponentsOf(services[i].key)
    }

    function OldDir(i: nat): Path
      requires i < |services|
    {
      Target(ServicesRoot(), KeyOf(i))
    }

    function DataDir(i: nat): Path
      requires i < |ids|
    {
      staging + ["appdata", "services", ids[i]]
    }

    function ArtifactsDir(i: nat): Path
      requires i < |ids|
    {
      staging + ["artifacts", "services", ids[i]]
    }

    function ServiceDir(i: nat): Path
      requires i < |ids|
    {
      staging + ["services", ids[i]]
    }

    function StateFile(): Path {
      staging + [LEGACY_SERVICE_STATE_FILE]
    }

    /** The old directory as the manifests name it. */
    function LiveDir(i: nat): seq<Component>
      requires i < |services|
    {
      LiveDirOf(live, services[i])
    }

    /** The path of the managed component inside the old directory, if that is where it is. */
    function ComponentSuffix(i: nat): Option<seq<Component>>
      requires i < |services|
    {
      SuffixOf(live, services[i])
    }

    /** Where the component is once the data has moved. */
    function ComponentPath(i: nat): Path
      requires i < |services| == |ids| && ComponentSuffix(i).Some?
    {
      Target(DataDir(i), ComponentSuffix(i).value)
    }

    function StateOf(i: nat): ServiceState
      requires i < |services| == |ids|
    {
      ServiceState(2, ids[i], updatedAt, services[i].desired)
    }

    function DocumentOf(i: nat): Document
      requires i < |services|
    {
      var m := services[i].manifest;
      Document(m.name, m.runtime, m.runtime == Wasmtime, SourceOf(i), MountsOf(m.mounts, LiveDir(i)), PublishOf(m, |m.ports|))
    }

    function SourceOf(i: nat): Source
      requires i < |services|
    {
      match services[i].manifest.source
      case DockerImage(image) => Source.Image(image)
      case WasmtimeUrl(url) => Source.Url(url)
      case WasmtimeFile(component) =>
        Source.File(if ComponentSuffix(i).Some? then "$fungi.service.artifacts/component.wasm" else component)
    }
  }

  // ---------- the manifest and the state, field by field ----------

  /** How port `k` is called: by its name, or by its place. */
  predicate IsCalled(ports: seq<LegacyPort>, k: nat, name: string)
    requires k < |ports|
  {
    match ports[k].name
    case Some(own) => name == own
    case None => if k > 0 then name == "main-" + Forwarding.Decimal(k) else name == "main"
  }

  /** Each name stands for the last port of that name: what a Docker service listens on, or the port of the host if it has one. */
  ghost predicate Publishes(publish: map<string, U16>, m: LegacyManifest) {
    (forall name :: name in publish <==> exists k: nat :: k < |m.ports| && IsCalled(m.ports, k, name))
    && (forall name, k: nat ::
          k < |m.ports| && IsCalled(m.ports, k, name) && (forall later :: k < later < |m.ports| ==> !IsCalled(m.ports, later, name)) ==>
            name in publish
            && publish[name] == if m.runtime == Wasmtime && m.ports[k].hostPort != 0 then m.ports[k].hostPort else m.ports[k].servicePort)
  }

  /** The document says of the service what its legacy manifest does; what lay in its old directory is named by the variables. */
  ghost predicate Describes(d: Document, service: LegacyService, oldDir: seq<Component>) {
    var m := service.manifest;
    && d.id == m.name && d.provider == m.runtime && (d.http <==> m.runtime.Wasmtime?)
    && (match m.source
        case DockerImage(image) => d.source == Source.Image(image)
        case WasmtimeUrl(url) => d.source == Source.Url(url)
        case WasmtimeFile(component) =>
          d.source == Source.File(if oldDir <= ComponentsOf(component) then "$fungi.service.artifacts/component.wasm" else component))
    && |d.mounts| == |m.mounts|
    && (forall k :: 0 <= k < |m.mounts| ==>
          d.mounts[k].inside == m.mounts[k].inside && d.mounts[k].host == RewritePath(m.mounts[k].host, oldDir))
    && Publishes(d.publish, m)
  }

  /** The manifest and the state of a service are in the directory: the service as it was, with the id, the time and the state given. */
  ghost predicate IsDescribedIn(t: Tree<Content>, dir: Path, service: LegacyService, oldDir: seq<Component>, id: string, time: string) {
    var manifest, status := dir + ["service.yaml"], dir + ["state.json"];
    && manifest in t && t[manifest].File? && t[manifest].data.Manifest? && Describes(t[manifest].data.document, service, oldDir)
    && status in t && t[status] == Entry.File(State(ServiceState(2, id, time, service.desired)))
  }

  lemma CalledIsNamed(m: LegacyManifest, name: string)
    ensures forall k: nat :: k < |m.ports| ==> (PortName(m.ports[k], k) == name <==> IsCalled(m.ports, k, name))
  {
  }

  lemma PublishFields(m: LegacyManifest)
    ensures Publishes(PublishOf(m, |m.ports|), m)
  {
    forall name {
      PublishedName(m, name);
    }
  }

  lemma PublishedName(m: LegacyManifest, name: string)
    ensures name in PublishOf(m, |m.ports|) <==> exists k: nat :: k < |m.ports| && IsCalled(m.ports, k, name)
    ensures forall k: nat ::
              k < |m.ports| && IsCalled(m.ports, k, name) && (forall later :: k < later < |m.ports| ==> !IsCalled(m.ports, later, name)) ==>
                name in PublishOf(m, |m.ports|)
                && PublishOf(m, |m.ports|)[name] ==
                   if m.runtime == Wasmtime && m.ports[k].hostPort != 0 then m.ports[k].hostPort else m.ports[k].servicePort
  {
    hide PortName, IsCalled, PublishOf;
    var n := |m.ports|;
    PublishIsLast(m, n, name);
    CalledIsNamed(m, name);
    if k: nat :| k < n && IsCalled(m.ports, k, name) {
      LastOfName(m, k, name);
    }
    forall k: nat | k < n && IsCalled(m.ports, k, name) && forall later :: k < later < n ==> !IsCalled(m.ports, later, name)
      ensures LastNamed(m, n, name, k)
    {
      forall later: nat | k < later < n ensures PortName(m.ports[later], later) != name {
      }
    }
  }

  /** If a port has the name, some port is the last that has it. */
  lemma LastOfName(m: LegacyManifest, k: nat, name: string)
    requires k < |m.ports| && PortName(m.ports[k], k) == name
    ensures exists i :: 0 <= i < |m.ports| && LastNamed(m, |m.ports|, name, i)
    decreases |m.ports| - k
  {
    if later: nat :| k < later < |m.ports| && PortName(m.ports[later], later) == name {
      LastOfName(m, later, name);
    } else {
      assert LastNamed(m, |m.ports|, name, k);
    }
  }

  lemma DocumentFields(job: Job, i: nat)
    requires i < |job.services| == |job.ids|
    ensures Describes(job.DocumentOf(i), job.services[i], job.live + [Normal("services")] + ComponentsOf(job.services[i].key))
    ensures job.StateOf(i) == ServiceState(2, job.ids[i], job.updatedAt, job.services[i].desired)
  {
    hide Publishes, PublishOf, RewritePath, ComponentsOf;
    PublishFields(job.services[i].manifest);
  }

  /** What one service that is done has below its id. */
  lemma AfterServiceFields(t: Tree<Content>, u: Tree<Content>, job: Job, i: nat)
    requires i < |job.services| == |job.ids| && AfterService(t, job, i) == Some(u)
    ensures IsDescribedIn(u, job.staging + ["services", job.ids[i]], job.services[i],
                          job.live + [Normal("services")] + ComponentsOf(job.services[i].key), job.ids[i], job.updatedAt)
  {
    hide Describes, WithData, ComponentsOf;
    DocumentFields(job, i);
    var dir := job.staging + ["services", job.ids[i]];
    assert dir == job.ServiceDir(i);
    assert (dir + ["service.yaml"])[|dir|] == "service.yaml" && (dir + ["state.json"])[|dir|] == "state.json";
  }

  function MountsOf(mounts: seq<Mount>, oldRoot: seq<Component>): seq<Mount> {
    seq(|mounts|, k requires 0 <= k < |mounts| => Mount(RewritePath(mounts[k].host, oldRoot), mounts[k].inside))
  }

  function LiveDirOf(live: seq<Component>, service: LegacyService): seq<Component> {
    live + [Normal("services")] + ComponentsOf(service.key)
  }

  function SuffixOf(live: seq<Component>, service: LegacyService): Option<seq<Component>> {
    var dir, source := LiveDirOf(live, service), service.manifest.source;
    if source.WasmtimeFile? && dir <= ComponentsOf(source.component)
    then Some(ComponentsOf(source.component)[|dir|..])
    else None
  }

  predicate AllNames(cs: seq<Component>) {
    forall c <- cs :: c.Normal?
  }

  /**
   * The keys and the component paths below the old directories are made of names only: no `..`, nothing
   * absolute. The program does not ask for it.
   */
  predicate NamesOnly(live: seq<Component>, services: seq<LegacyService>) {
    forall service <- services ::
      AllNames(ComponentsOf(service.key)) && ComponentsOf(service.key) != []
      && (SuffixOf(live, service).Some? ==> AllNames(SuffixOf(live, service).value))
  }

  /** The four places below staging that the step is meant to work in. */
  function Places(staging: Path): set<Path> {
    {staging + ["services"], staging + ["appdata", "services"], staging + ["artifacts", "services"],
     staging + [LEGACY_SERVICE_STATE_FILE]}
  }

  /** `service_name_key` is the trimmed, nonempty name of the manifest. */
  predicate NameMatches(service: LegacyService) {
    Text.Trim(service.manifest.name) != "" && Text.Trim(service.manifest.name) == service.key
  }

  // ---------- what the steps make of the tree, when they succeed ----------

  /** `move_or_create_service_data_dir`; the last part of a path to rename has to be a name. */
  ghost function Relocated(t: Tree<Content>, job: Job, i: nat): Option<Tree<Content>>
    requires i < |job.services| == |job.ids|
  {
    var from, to := job.OldDir(i), job.DataDir(i);
    if to in t then None
    else if Exists(t, job.ServicesRoot(), job.KeyOf(i)) then
      var made := MakeDirs(t, Parent(to));
      if CanHoldDirs(t, Parent(to)) && EndsInName(job.KeyOf(i)) && CanRename(made, from, to) then Some(MoveTree(made, from, to)) else None
    else if CanHoldDirs(t, to) then Some(MakeDirs(t, to))
    else None
  }

  predicate EndsInName(cs: seq<Component>) {
    cs != [] && cs[|cs| - 1].Normal?
  }

  /** A key that leads to a directory through its last `..`, or nowhere at all, moves nothing. */
  lemma NoNameNoMove(t: Tree<Content>, job: Job, i: nat)
    requires i < |job.services| == |job.ids| && Exists(t, job.ServicesRoot(), job.KeyOf(i))
    requires job.KeyOf(i) == [] || job.KeyOf(i)[|job.KeyOf(i)| - 1] in {RootDir, CurDir, ParentDir}
    ensures Relocated(t, job, i).None?
  {
  }

  function ComponentFile(artifacts: Path): Path {
    artifacts + ["component.wasm"]
  }

  /** `migrate_wasmtime_component`: the managed component goes to the artifacts. */
  ghost function WithComponent(t: Tree<Content>, job: Job, i: nat): Option<Tree<Content>>
    requires i < |job.services| == |job.ids|
  {
    if job.ComponentSuffix(i).None? then Some(t)
    else
      var from, to := job.ComponentPath(i), ComponentFile(job.ArtifactsDir(i));
      var made := MakeDirs(t, job.ArtifactsDir(i));
      if CanHoldDirs(t, job.ArtifactsDir(i)) && Exists(made, job.DataDir(i), job.ComponentSuffix(i).value)
         && made[from].File? && CanWrite(made, to)
      then Some(RemoveTree(made[to := made[from]], from))
      else None
  }

  predicate CanPublish(m: LegacyManifest) {
    m.ports != [] && forall port <- m.ports :: port.tcp
  }

  /** The manifest and the state file in the directory of the id. */
  function WithDescription(t: Tree<Content>, dir: Path, document: Document, state: ServiceState): Option<Tree<Content>> {
    var made := MakeDirs(t, dir);
    var manifest, status := dir + ["service.yaml"], dir + ["state.json"];
    if !CanHoldDirs(t, dir) || !CanWrite(made, manifest) then None
    else
      var written := made[manifest := Entry.File(Manifest(document))];
      if CanWrite(written, status) then Some(written[status := Entry.File(State(state))]) else None
  }

  ghost function WithData(t: Tree<Content>, job: Job, i: nat): Option<Tree<Content>>
    requires i < |job.services| == |job.ids|
  {
    match Relocated(t, job, i)
    case None => None
    case Some(u) => WithComponent(u, job, i)
  }

  /** One service. */
  ghost function AfterService(t: Tree<Content>, job: Job, i: nat): Option<Tree<Content>>
    requires i < |job.services| == |job.ids|
  {
    if !NameMatches(job.services[i]) || !CanPublish(job.services[i].manifest) then None
    else
      match WithData(t, job, i)
      case None => None
      case Some(u) => WithDescription(u, job.ServiceDir(i), job.DocumentOf(i), job.StateOf(i))
  }

  /** The first `n` services, one after another. */
  ghost function AfterServices(first: Tree<Content>, job: Job, n: nat): Option<Tree<Content>>
    requires n <= |job.services| == |job.ids|
  {
    if n == 0 then Some(first)
    else
      match AfterServices(first, job, n - 1)
      case None => None
      case Some(t) => AfterService(t, job, n - 1)
  }

  /** Every service, and the state file is removed. */
  ghost predicate IsDone(first: Tree<Content>, t: Tree<Content>, job: Job)
    requires |job.services| == |job.ids|
  {
    AfterServices(first, job, |job.services|).Some?
    && t == RemoveTree(AfterServices(first, job, |job.services|).value, job.StateFile())
  }

  /** What is left when service `i` is refused though no call failed: its data has moved, unless its name or its place is refused. */
  ghost function GivenUp(t: Tree<Content>, job: Job, i: nat): Tree<Content>
    requires i < |job.services| == |job.ids|
  {
    if !NameMatches(job.services[i]) || job.DataDir(i) in t || WithData(t, job, i).None? then t
    else WithData(t, job, i).value
  }

  // ---------- what the steps touch ----------

  /** Where the step began, and the states since. */
  datatype Watch = Watch(base: Tree<Content>, staging: Path, past: seq<Tree<Content>>)

  /**
   * Nothing is new but in the four places. If the names are tame, nothing else has changed either, in
   * no state since the beginning.
   */
  ghost predicate Guarded(t: Tree<Content>, trace: seq<Tree<Content>>, w: Watch, tame: bool) {
    Thinned(w.base, t, Places(w.staging)) && (tame ==> Within(w.base, t, trace, Places(w.staging), w.past))
  }

  lemma StaysGuarded(t: Tree<Content>, trace: seq<Tree<Content>>, u: Tree<Content>, w: Watch, tame: bool, changed: set<Path>)
    requires Guarded(t, trace, w, tame) && Thinned(t, u, Places(w.staging))
    requires tame ==> Confined(t, u, changed) && forall root <- changed :: Covered(root, Places(w.staging))
    ensures Guarded(u, trace + [u], w, tame)
  {
    ThinnedTrans(w.base, t, u, Places(w.staging));
    if tame {
      StaysWithin(w.base, t, trace, u, Places(w.staging), changed, w.past);
    }
  }

  lemma ThinnedTrans(t: Tree<Content>, u: Tree<Content>, v: Tree<Content>, roots: set<Path>)
    requires Thinned(t, u, roots) && Thinned(u, v, roots)
    ensures Thinned(t, v, roots)
  {
  }

  lemma ConfinedThins(t: Tree<Content>, u: Tree<Content>, changed: set<Path>, roots: set<Path>)
    requires Confined(t, u, changed) && forall root <- changed :: Covered(root, roots)
    ensures Thinned(t, u, roots)
  {
    ConfinedWiden(t, u, changed, roots);
  }

  lemma MovedThins(t: Tree<Content>, from: Path, to: Path, roots: set<Path>)
    requires Covered(to, roots)
    ensures Thinned(t, MoveTree(t, from, to), roots)
  {
    var root :| root in roots && root <= to;
    forall q <- MoveTree(t, from, to) | !Covered(q, roots) ensures q in t && MoveTree(t, from, to)[q] == t[q] {
      assert !(to <= q);
      GraftAt(to, Sub(t, from), q);
    }
  }

  /** The id's directories lie in the places. */
  lemma NewPlaces(job: Job, i: nat)
    requires i < |job.ids|
    ensures Covered(job.DataDir(i), Places(job.staging)) && Covered(Parent(job.DataDir(i)), Places(job.staging))
    ensures Covered(job.ArtifactsDir(i), Places(job.staging)) && Covered(job.ServiceDir(i), Places(job.staging))
    ensures Covered(job.StateFile(), Places(job.staging)) && job.ArtifactsDir(i) != [] && job.ServiceDir(i) != []
  {
    var s := job.staging;
    assert s + ["appdata", "services"] in Places(s) && s + ["appdata", "services"] <= job.DataDir(i);
    assert Parent(job.DataDir(i)) == s + ["appdata", "services"];
    assert s + ["artifacts", "services"] in Places(s) && s + ["artifacts", "services"] <= job.ArtifactsDir(i);
    assert s + ["services"] in Places(s) && s + ["services"] <= job.ServiceDir(i);
    assert job.StateFile() in Places(s) && job.StateFile() <= job.StateFile();
  }

  lemma BelowCovered(p: Path, more: Path, roots: set<Path>)
    requires Covered(p, roots)
    ensures Covered(p + more, roots)
  {
    var root :| root in roots && root <= p;
    assert root <= p + more;
  }

  /** The names among the components. */
  function NamesIn(cs: seq<Component>): Path {
    if cs == [] then []
    else if cs[0].Normal? then [cs[0].name] + NamesIn(cs[1..])
    else NamesIn(cs[1..])
  }

  function KeyPath(key: string): Path {
    NamesIn(ComponentsOf(key))
  }

  lemma {:induction false} TargetOfNames(base: Path, cs: seq<Component>)
    requires AllNames(cs)
    ensures Target(base, cs) == base + NamesIn(cs)
    decreases |cs|
  {
    if cs == [] {
      assert base + [] == base;
    } else {
      TargetOfNames(base + [cs[0].name], cs[1..]);
      assert Walk(PathBuf(true, base), cs) == Walk(PathBuf(true, base + [cs[0].name]), cs[1..]);
      assert base + [cs[0].name] + NamesIn(cs[1..]) == base + NamesIn(cs);
    }
  }

  /** With names only, the old directory and the component lie in the places. */
  lemma TamePlaces(job: Job, i: nat)
    requires i < |job.services| == |job.ids| && NamesOnly(job.live, job.services)
    ensures job.OldDir(i) == job.ServicesRoot() + KeyPath(job.services[i].key) && Covered(job.OldDir(i), Places(job.staging))
    ensures job.ComponentSuffix(i).Some? ==>
              job.ComponentPath(i) == job.DataDir(i) + NamesIn(job.ComponentSuffix(i).value)
              && Covered(job.ComponentPath(i), Places(job.staging))
  {
    var service := job.services[i];
    assert service in job.services;
    TargetOfNames(job.ServicesRoot(), job.KeyOf(i));
    assert job.ServicesRoot() in Places(job.staging) && job.ServicesRoot() <= job.OldDir(i);
    NewPlaces(job, i);
    if job.ComponentSuffix(i).Some? {
      TargetOfNames(job.DataDir(i), job.ComponentSuffix(i).value);
      BelowCovered(job.DataDir(i), NamesIn(job.ComponentSuffix(i).value), Places(job.staging));
    }
  }

  // ---------- the steps ----------

  ghost predicate Watched(fs: FileSystem<Content>, job: Job, w: Watch)
    reads fs
  {
    fs.Valid() && w.staging == job.staging && Guarded(fs.tree, fs.trace, w, NamesOnly(job.live, job.services))
  }

  method CreateDir(fs: FileSystem<Content>, p: Path, ghost job: Job, ghost w: Watch) returns (ok: bool)
    requires Watched(fs, job, w) && Covered(p, Places(job.staging))
    modifies fs
    ensures Watched(fs, job, w) && fs.failures == old(fs.failures) + Faults(ok)
    ensures ok ==> CanHoldDirs(old(fs.tree), p) && fs.tree == MakeDirs(old(fs.tree), p)
  {
    ghost var t, trace := fs.tree, fs.trace;
    ok := fs.CreateDirAll(p);
    if ok {
      MadeDirsConfined(t, p, p);
    } else {
      ghost var k :| 0 <= k <= |p| && fs.tree == MakeDirs(t, p[..k]);
      MadeDirsConfined(t, p[..k], p);
    }
    ConfinedThins(t, fs.tree, {p}, Places(job.staging));
    StaysGuarded(t, trace, fs.tree, w, NamesOnly(job.live, job.services), {p});
  }

  /** `move_or_create_service_data_dir`. */
  method MoveOrCreate(fs: FileSystem<Content>, job: Job, i: nat, ghost w: Watch) returns (ok: bool)
    requires Watched(fs, job, w) && i < |job.services| == |job.ids|
    modifies fs
    ensures Watched(fs, job, w) && old(fs.failures) <= fs.failures
    ensures ok ==> Relocated(old(fs.tree), job, i) == Some(fs.tree) && fs.failures == old(fs.failures)
    ensures !ok && fs.failures == old(fs.failures) ==> job.DataDir(i) in old(fs.tree) && fs.tree == old(fs.tree)
  {
    var from, to := job.OldDir(i), job.DataDir(i);
    NewPlaces(job, i);
    if to in fs.tree {
      return false;
    }
    if !Exists(fs.tree, job.ServicesRoot(), job.KeyOf(i)) {
      ok := CreateDir(fs, to, job, w);
      return;
    }
    ok := CreateDir(fs, Parent(to), job, w);
    if ok {
      ok := MoveDir(fs, job, i, w);
    }
  }

  method MoveDir(fs: FileSystem<Content>, job: Job, i: nat, ghost w: Watch) returns (ok: bool)
    requires Watched(fs, job, w) && i < |job.services| == |job.ids| && job.OldDir(i) != job.DataDir(i)
    modifies fs
    ensures Watched(fs, job, w) && fs.failures == old(fs.failures) + Faults(ok)
    ensures ok ==> EndsInName(job.KeyOf(i)) && CanRename(old(fs.tree), job.OldDir(i), job.DataDir(i))
                   && fs.tree == MoveTree(old(fs.tree), job.OldDir(i), job.DataDir(i))
  {
    ghost var u, trace := fs.tree, fs.trace;
    if EndsInName(job.KeyOf(i)) {
      ok := fs.Rename(job.OldDir(i), job.DataDir(i));
    } else {
      fs.Refuse();
      ok := false;
    }
    DirMoved(job, i, u, trace, fs.tree, w);
  }

  lemma DirMoved(job: Job, i: nat, t: Tree<Content>, trace: seq<Tree<Content>>, u: Tree<Content>, w: Watch)
    requires i < |job.services| == |job.ids| && w.staging == job.staging
    requires Guarded(t, trace, w, NamesOnly(job.live, job.services))
    requires u == t || u == MoveTree(t, job.OldDir(i), job.DataDir(i))
    ensures Guarded(u, trace + [u], w, NamesOnly(job.live, job.services))
  {
    NewPlaces(job, i);
    if NamesOnly(job.live, job.services) {
      TamePlaces(job, i);
    }
    if u == t {
      ConfinedReflexive(t, {job.OldDir(i), job.DataDir(i)});
    } else {
      MovedThins(t, job.OldDir(i), job.DataDir(i), Places(job.staging));
      MovedConfined(t, job.OldDir(i), job.DataDir(i));
    }
    StaysGuarded(t, trace, u, w, NamesOnly(job.live, job.services), {job.OldDir(i), job.DataDir(i)});
  }

  /** `migrate_wasmtime_component`, for a component that lies in the old directory. */
  method MoveComponent(fs: FileSystem<Content>, job: Job, i: nat, ghost w: Watch) returns (ok: bool)
    requires Watched(fs, job, w) && i < |job.services| == |job.ids|
    modifies fs
    ensures Watched(fs, job, w) && old(fs.failures) <= fs.failures
    ensures ok ==> WithComponent(old(fs.tree), job, i) == Some(fs.tree) && fs.failures == old(fs.failures)
    ensures !ok ==> fs.failures > old(fs.failures)
  {
    if job.ComponentSuffix(i).None? {
      return true;
    }
    NewPlaces(job, i);
    ok := CreateDir(fs, job.ArtifactsDir(i), job, w);
    if !ok {
      return;
    }
    ghost var made := fs.tree;
    if !Exists(fs.tree, job.DataDir(i), job.ComponentSuffix(i).value) {
      ghost var trace := fs.trace;
      fs.Refuse();
      NothingChanged(made, trace, w, NamesOnly(job.live, job.services));
      return false;
    }
    ok := CopyComponent(fs, job, i, w);
    if ok {
      ok := RemoveComponent(fs, job, i, w);
    }
  }

  lemma NothingChanged(t: Tree<Content>, trace: seq<Tree<Content>>, w: Watch, tame: bool)
    requires Guarded(t, trace, w, tame)
    ensures Guarded(t, trace + [t], w, tame)
  {
    ConfinedReflexive(t, {});
    StaysGuarded(t, trace, t, w, tame, {});
  }

  method CopyComponent(fs: FileSystem<Content>, job: Job, i: nat, ghost w: Watch) returns (ok: bool)
    requires Watched(fs, job, w) && i < |job.services| == |job.ids| && job.ComponentSuffix(i).Some?
    modifies fs
    ensures Watched(fs, job, w) && fs.failures == old(fs.failures) + Faults(ok)
    ensures ok ==>
              var from, to := job.ComponentPath(i), ComponentFile(job.ArtifactsDir(i));
              from in old(fs.tree) && old(fs.tree)[from].File? && CanWrite(old(fs.tree), to)
              && fs.tree == old(fs.tree)[to := old(fs.tree)[from]]
  {
    ghost var t, trace := fs.tree, fs.trace;
    NewPlaces(job, i);
    var to := ComponentFile(job.ArtifactsDir(i));
    BelowCovered(job.ArtifactsDir(i), ["component.wasm"], Places(job.staging));
    ok := fs.CopyFile(job.ComponentPath(i), to);
    ConfinedThins(t, fs.tree, {to}, Places(job.staging));
    StaysGuarded(t, trace, fs.tree, w, NamesOnly(job.live, job.services), {to});
  }

  method RemoveComponent(fs: FileSystem<Content>, job: Job, i: nat, ghost w: Watch) returns (ok: bool)
    requires Watched(fs, job, w) && i < |job.services| == |job.ids| && job.ComponentSuffix(i).Some?
    requires job.ComponentPath(i) in fs.tree && fs.tree[job.ComponentPath(i)].File?
    modifies fs
    ensures Watched(fs, job, w) && fs.failures == old(fs.failures) + Faults(ok)
    ensures ok ==> fs.tree == RemoveTree(old(fs.tree), job.ComponentPath(i))
  {
    ghost var t, trace := fs.tree, fs.trace;
    var from := job.ComponentPath(i);
    ok := fs.RemoveFile(from);
    if NamesOnly(job.live, job.services) {
      TamePlaces(job, i);
    }
    StaysGuarded(t, trace, fs.tree, w, NamesOnly(job.live, job.services), {from});
  }

  /** `service.yaml` and `state.json` under the new id. */
  method WriteService(fs: FileSystem<Content>, job: Job, i: nat, document: Document, ghost w: Watch) returns (ok: bool)
    requires Watched(fs, job, w) && i < |job.services| == |job.ids|
    modifies fs
    ensures Watched(fs, job, w) && old(fs.failures) <= fs.failures
    ensures ok ==> WithDescription(old(fs.tree), job.ServiceDir(i), document, job.StateOf(i)) == Some(fs.tree)
                   && fs.failures == old(fs.failures)
    ensures !ok ==> fs.failures > old(fs.failures)
  {
    NewPlaces(job, i);
    var dir := job.ServiceDir(i);
    ok := CreateDir(fs, dir, job, w);
    if ok {
      ok := WriteIn(fs, job, dir, "service.yaml", Manifest(document), w);
    }
    if ok {
      ok := WriteIn(fs, job, dir, "state.json", State(job.StateOf(i)), w);
    }
  }

  method WriteIn(fs: FileSystem<Content>, ghost job: Job, dir: Path, name: string, data: Content, ghost w: Watch) returns (ok: bool)
    requires Watched(fs, job, w) && Covered(dir, Places(job.staging))
    modifies fs
    ensures Watched(fs, job, w) && fs.failures == old(fs.failures) + Faults(ok)
    ensures ok ==> CanWrite(old(fs.tree), dir + [name]) && fs.tree == old(fs.tree)[dir + [name] := Entry.File(data)]
  {
    ghost var t, trace := fs.tree, fs.trace;
    BelowCovered(dir, [name], Places(job.staging));
    ok := fs.WriteFile(dir + [name], data);
    ConfinedThins(t, fs.tree, {dir + [name]}, Places(job.staging));
    StaysGuarded(t, trace, fs.tree, w, NamesOnly(job.live, job.services), {dir + [name]});
  }

  lemma TakenPlace(t: Tree<Content>, job: Job, i: nat)
    requires i < |job.services| == |job.ids| && job.DataDir(i) in t
    ensures Relocated(t, job, i).None?
  {
  }

  /** Why a service is refused though no call fails: its name, its ports, or its new place, which is taken. */
  predicate Refuses(t: Tree<Content>, job: Job, i: nat)
    requires i < |job.services| == |job.ids|
  {
    !IsAcceptable(job.services[i]) || job.staging + ["appdata", "services", job.ids[i]] in t
  }

  /** The service has the name of its key, and ports, all of them TCP. */
  predicate IsAcceptable(service: LegacyService) {
    Text.Trim(service.manifest.name) != "" && Text.Trim(service.manifest.name) == service.key
    && service.manifest.ports != [] && forall port <- service.manifest.ports :: port.tcp
  }

  lemma RefusesMeans(t: Tree<Content>, job: Job, i: nat)
    requires i < |job.services| == |job.ids|
    ensures Refuses(t, job, i) <==> !NameMatches(job.services[i]) || !CanPublish(job.services[i].manifest) || job.DataDir(i) in t
  {
    hide Text.Trim;
  }

  /** One service, as the loop of `migrate_legacy_services_state` treats it. */
  method MigrateOne(fs: FileSystem<Content>, job: Job, i: nat, ghost w: Watch) returns (ok: bool)
    requires Watched(fs, job, w) && i < |job.services| == |job.ids|
    modifies fs
    ensures Watched(fs, job, w) && old(fs.failures) <= fs.failures
    ensures ok ==> AfterService(old(fs.tree), job, i) == Some(fs.tree) && fs.failures == old(fs.failures)
    ensures ok ==> IsDescribedIn(fs.tree, job.staging + ["services", job.ids[i]], job.services[i],
                                 job.live + [Normal("services")] + ComponentsOf(job.services[i].key), job.ids[i], job.updatedAt)
    ensures !ok && fs.failures == old(fs.failures) ==> AfterService(old(fs.tree), job, i).None? && fs.tree == GivenUp(old(fs.tree), job, i)
    ensures ok ==> !Refuses(old(fs.tree), job, i)
    ensures !ok && fs.failures == old(fs.failures) ==> Refuses(old(fs.tree), job, i)
  {
    hide Relocated, WithComponent, WithDescription, NameMatches, Watched, Guarded, IsDescribedIn, ComponentsOf, Refuses;
    RefusesMeans(fs.tree, job, i);
    if !NameMatches(job.services[i]) {
      return false;
    }
    if job.DataDir(i) in fs.tree {
      TakenPlace(fs.tree, job, i);
    }
    ok := MoveOrCreate(fs, job, i, w);
    if ok {
      ok := MoveComponent(fs, job, i, w);
    }
    if !ok {
      return;
    }
    var m := job.services[i].manifest;
    var publish := ConvertPorts(m);
    if publish.Err? {
      return false;
    }
    var document := Document(m.name, m.runtime, m.runtime == Wasmtime, job.SourceOf(i),
                             MountsOf(m.mounts, job.LiveDir(i)), publish.value);
    ghost var t := old(fs.tree);
    ok := WriteService(fs, job, i, document, w);
    if ok {
      AfterServiceFields(t, fs.tree, job, i);
    }
  }

  /** The trees before and after each of the first services. */
  ghost predicate Chain(states: seq<Tree<Content>>, job: Job) {
    |job.services| == |job.ids| && 0 < |states| <= |job.services| + 1
    && forall k: nat :: k < |states| - 1 ==> Links(states, job, k)
  }

  ghost predicate Links(states: seq<Tree<Content>>, job: Job, k: nat)
    requires k < |states| - 1 && k < |job.services| == |job.ids|
  {
    AfterService(states[k], job, k) == Some(states[k + 1])
  }

  lemma {:induction false} ChainIsAfter(states: seq<Tree<Content>>, job: Job)
    requires Chain(states, job)
    ensures AfterServices(states[0], job, |states| - 1) == Some(states[|states| - 1])
    decreases |states|
  {
    var n := |states| - 1;
    if n > 0 {
      forall k: nat | k < n - 1 ensures Links(states[..n], job, k) {
        assert Links(states, job, k);
      }
      ChainIsAfter(states[..n], job);
      assert Links(states, job, n - 1);
    }
  }

  lemma ChainGrows(states: seq<Tree<Content>>, t: Tree<Content>, job: Job)
    requires Chain(states, job) && |states| <= |job.services|
    requires AfterService(states[|states| - 1], job, |states| - 1) == Some(t)
    ensures Chain(states + [t], job)
  {
    forall k: nat | k < |states| ensures Links(states + [t], job, k) {
      if k < |states| - 1 {
        assert Links(states, job, k);
      }
    }
  }

  /** The loop of `migrate_legacy_services_state`. */
  method MigrateEach(fs: FileSystem<Content>, job: Job, ghost w: Watch) returns (ok: bool, ghost states: seq<Tree<Content>>)
    requires Watched(fs, job, w) && |job.services| == |job.ids|
    modifies fs
    ensures Watched(fs, job, w) && old(fs.failures) <= fs.failures
    ensures Chain(states, job) && states[0] == old(fs.tree)
    ensures ok ==> states[|states| - 1] == fs.tree && |states| == |job.services| + 1 && fs.failures == old(fs.failures)
    ensures !ok && fs.failures == old(fs.failures) ==> |states| <= |job.services| && LeftAt(states, fs.tree, job)
  {
    states := [fs.tree];
    for i := 0 to |job.services|
      invariant Watched(fs, job, w) && fs.failures == old(fs.failures)
      invariant Chain(states, job) && states[0] == old(fs.tree) && |states| == i + 1 && states[i] == fs.tree
    {
      ok := MigrateNext(fs, job, i, w, states);
      if !ok {
        return;
      }
      states := states + [fs.tree];
    }
    ok := true;
  }

  ghost predicate LeftAt(states: seq<Tree<Content>>, t: Tree<Content>, job: Job)
    requires 0 < |states| <= |job.services| == |job.ids|
  {
    AfterService(states[|states| - 1], job, |states| - 1).None? && t == GivenUp(states[|states| - 1], job, |states| - 1)
    && Refuses(states[|states| - 1], job, |states| - 1)
  }

  method MigrateNext(fs: FileSystem<Content>, job: Job, i: nat, ghost w: Watch, ghost states: seq<Tree<Content>>) returns (ok: bool)
    requires Watched(fs, job, w) && Chain(states, job) && i < |job.services| && |states| == i + 1 && states[i] == fs.tree
    modifies fs
    ensures Watched(fs, job, w) && old(fs.failures) <= fs.failures
    ensures ok ==> Chain(states + [fs.tree], job) && fs.failures == old(fs.failures)
    ensures !ok && fs.failures == old(fs.failures) ==> LeftAt(states, fs.tree, job)
  {
    hide AfterService, GivenUp;
    ok := MigrateOne(fs, job, i, w);
    if ok {
      ChainGrows(states, fs.tree, job);
    }
  }

  /**
   * Done, the tree is what the services, one after another, make of it. Refused though no call failed,
   * it is left as the refused service found it or with that service's data moved.
   */
  method MigrateServices(fs: FileSystem<Content>, job: Job, ghost w: Watch) returns (ok: bool)
    requires Watched(fs, job, w) && |job.services| == |job.ids|
    modifies fs
    ensures Watched(fs, job, w) && old(fs.failures) <= fs.failures
    ensures ok ==> IsDone(old(fs.tree), fs.tree, job) && fs.failures == old(fs.failures)
    ensures !ok && fs.failures == old(fs.failures) ==> IsGivenUp(old(fs.tree), fs.tree, job)
  {
    hide AfterService, AfterServices, GivenUp;
    ghost var states;
    ok, states := MigrateEach(fs, job, w);
    ChainIsAfter(states, job);
    assert !ok && fs.failures == old(fs.failures) ==> RefusedAt(old(fs.tree), fs.tree, job, |states| - 1);
    if ok {
      ghost var t, trace := fs.tree, fs.trace;
      ok := fs.RemoveFile(job.StateFile());
      StateFileGone(t, trace, fs.tree, job, w);
    }
  }

  /** The first `i` services are done, the next is refused, and `t` is what it leaves: there is at most one such `i`. */
  ghost predicate RefusedAt(first: Tree<Content>, t: Tree<Content>, job: Job, i: nat)
    requires i < |job.services| == |job.ids|
  {
    AfterServices(first, job, i).Some?
    && AfterService(AfterServices(first, job, i).value, job, i).None? && Refuses(AfterServices(first, job, i).value, job, i)
    && t == GivenUp(AfterServices(first, job, i).value, job, i)
  }

  ghost predicate IsGivenUp(first: Tree<Content>, t: Tree<Content>, job: Job)
    requires |job.services| == |job.ids|
  {
    exists i: nat :: i < |job.services| && RefusedAt(first, t, job, i)
  }

  lemma StateFileGone(t: Tree<Content>, trace: seq<Tree<Content>>, u: Tree<Content>, job: Job, w: Watch)
    requires Guarded(t, trace, w, NamesOnly(job.live, job.services)) && Confined(t, u, {job.StateFile()}) && w.staging == job.staging
    ensures Guarded(u, trace + [u], w, NamesOnly(job.live, job.services))
  {
    assert job.StateFile() in Places(job.staging) && job.StateFile() <= job.StateFile();
    ConfinedThins(t, u, {job.StateFile()}, Places(job.staging));
    StaysGuarded(t, trace, u, w, NamesOnly(job.live, job.services), {job.StateFile()});
  }

  // ---------- when the step succeeds ----------

  /** No service is refused, and the ids are new. */
  ghost predicate AllAcceptable(t: Tree<Content>, job: Job) {
    |job.services| == |job.ids| && forall i :: 0 <= i < |job.services| ==> !Refuses(t, job, i)
  }

  predicate Apiece(ids: seq<string>) {
    forall i, j :: 0 <= i < j < |ids| ==> ids[i] != ids[j]
  }

  /** A service adds nothing but below its id, and directories above. */
  lemma ServiceAdds(t: Tree<Content>, u: Tree<Content>, job: Job, i: nat)
    requires i < |job.services| == |job.ids| && AfterService(t, job, i) == Some(u)
    ensures Thinned(t, u, {job.DataDir(i), job.ArtifactsDir(i), job.ServiceDir(i)})
  {
    hide Relocated, WithComponent, WithDescription, Thinned, NameMatches, CanPublish;
    var moved := Relocated(t, job, i).value;
    var data := WithComponent(moved, job, i).value;
    var roots := {job.DataDir(i), job.ArtifactsDir(i), job.ServiceDir(i)};
    DataAdds(t, moved, job, i, roots);
    ComponentAdds(moved, data, job, i, roots);
    DescriptionAdds(data, u, job.ServiceDir(i), job.DocumentOf(i), job.StateOf(i), roots);
    ThinnedTrans(t, moved, data, roots);
    ThinnedTrans(t, data, u, roots);
  }

  lemma DirsAdd(t: Tree<Content>, p: Path, root: Path, roots: set<Path>)
    requires (p <= root || root <= p) && root in roots
    ensures Thinned(t, MakeDirs(t, p), roots)
  {
    MadeDirsConfined(t, p, root);
    assert root <= root;
    ConfinedThins(t, MakeDirs(t, p), {root}, roots);
  }

  lemma DataAdds(t: Tree<Content>, u: Tree<Content>, job: Job, i: nat, roots: set<Path>)
    requires i < |job.services| == |job.ids| && Relocated(t, job, i) == Some(u) && job.DataDir(i) in roots
    ensures Thinned(t, u, roots)
  {
    hide Thinned, CanRename, Exists, MoveTree, MakeDirs;
    var to := job.DataDir(i);
    if Exists(t, job.ServicesRoot(), job.KeyOf(i)) {
      DirsAdd(t, Parent(to), to, roots);
      assert to <= to;
      MovedThins(MakeDirs(t, Parent(to)), job.OldDir(i), to, roots);
      ThinnedTrans(t, MakeDirs(t, Parent(to)), u, roots);
    } else {
      DirsAdd(t, to, to, roots);
    }
  }

  lemma FileAdds(t: Tree<Content>, p: Path, entry: Entry<Content>, root: Path, roots: set<Path>)
    requires root <= p && root in roots
    ensures Thinned(t, t[p := entry], roots)
  {
  }

  lemma RemovalAdds(t: Tree<Content>, p: Path, roots: set<Path>)
    ensures Thinned(t, RemoveTree(t, p), roots)
  {
  }

  lemma ComponentAdds(t: Tree<Content>, u: Tree<Content>, job: Job, i: nat, roots: set<Path>)
    requires i < |job.services| == |job.ids| && WithComponent(t, job, i) == Some(u) && job.ArtifactsDir(i) in roots
    ensures Thinned(t, u, roots)
  {
    if job.ComponentSuffix(i).Some? {
      hide Thinned, Exists, MakeDirs, RemoveTree;
      var from, to := job.ComponentPath(i), ComponentFile(job.ArtifactsDir(i));
      var made := MakeDirs(t, job.ArtifactsDir(i));
      DirsAdd(t, job.ArtifactsDir(i), job.ArtifactsDir(i), roots);
      FileAdds(made, to, made[from], job.ArtifactsDir(i), roots);
      RemovalAdds(made[to := made[from]], from, roots);
      ThinnedTrans(t, made, made[to := made[from]], roots);
      ThinnedTrans(t, made[to := made[from]], u, roots);
    }
  }

  lemma DescriptionAdds(t: Tree<Content>, u: Tree<Content>, dir: Path, document: Document, state: ServiceState, roots: set<Path>)
    requires WithDescription(t, dir, document, state) == Some(u) && dir in roots
    ensures Thinned(t, u, roots)
  {
    hide Thinned, MakeDirs, CanHoldDirs, CanWrite;
    var made := MakeDirs(t, dir);
    var manifest, status := dir + ["service.yaml"], dir + ["state.json"];
    var written := made[manifest := Entry.File(Manifest(document))];
    DirsAdd(t, dir, dir, roots);
    FileAdds(made, manifest, Entry.File(Manifest(document)), dir, roots);
    FileAdds(written, status, Entry.File(State(state)), dir, roots);
    ThinnedTrans(t, made, written, roots);
    ThinnedTrans(t, written, u, roots);
  }

  /** An id that is new stays new until its service is reached. */
  lemma {:induction false} IdsStayFree(first: Tree<Content>, t: Tree<Content>, job: Job, n: nat, i: nat)
    requires n <= i < |job.services| == |job.ids| && AfterServices(first, job, n) == Some(t)
    requires Apiece(job.ids) && job.DataDir(i) !in first
    ensures job.DataDir(i) !in t
    decreases n
  {
    hide AfterService, Thinned, Apiece;
    if n > 0 {
      var before := AfterServices(first, job, n - 1).value;
      IdsStayFree(first, before, job, n - 1, i);
      ServiceAdds(before, t, job, n - 1);
      IdsApart(job, n - 1, i);
      NotAdded(before, t, {job.DataDir(n - 1), job.ArtifactsDir(n - 1), job.ServiceDir(n - 1)}, job.DataDir(i));
    }
  }

  lemma NotAdded(t: Tree<Content>, u: Tree<Content>, roots: set<Path>, q: Path)
    requires Thinned(t, u, roots) && q !in t && !Covered(q, roots) && !AboveSome(q, roots)
    ensures q !in u
  {
  }

  lemma IdsApart(job: Job, j: nat, i: nat)
    requires j < i < |job.ids| && Apiece(job.ids)
    ensures !Covered(job.DataDir(i), {job.DataDir(j), job.ArtifactsDir(j), job.ServiceDir(j)})
    ensures !AboveSome(job.DataDir(i), {job.DataDir(j), job.ArtifactsDir(j), job.ServiceDir(j)})
  {
    var n := |job.staging|;
    assert job.DataDir(i)[n] == "appdata" && job.DataDir(i)[n + 2] == job.ids[i];
    assert job.DataDir(j)[n + 2] == job.ids[j] && job.ArtifactsDir(j)[n] == "artifacts" && job.ServiceDir(j)[n] == "services";
  }

  /** With new ids, the step ends without a failed call in one of two ways: done, or refused because a service is. */
  lemma RefusedIffUnacceptable(first: Tree<Content>, u: Tree<Content>, job: Job)
    requires |job.services| == |job.ids| && Apiece(job.ids) && forall i :: 0 <= i < |job.ids| ==> job.DataDir(i) !in first
    ensures IsGivenUp(first, u, job) ==> !AllAcceptable(first, job)
    ensures IsDone(first, u, job) ==> AllAcceptable(first, job)
  {
    hide Refuses, GivenUp, AfterService, AfterServices, NameMatches, CanPublish;
    if IsGivenUp(first, u, job) {
      var i: nat :| i < |job.services| && RefusedAt(first, u, job, i);
      var t := AfterServices(first, job, i).value;
      IdsStayFree(first, t, job, i, i);
      RefusesMeans(t, job, i);
      RefusesMeans(first, job, i);
    }
    if IsDone(first, u, job) {
      forall i | 0 <= i < |job.services| ensures !Refuses(first, job, i) {
        AllWereAccepted(first, job, |job.services|, i);
        RefusesMeans(first, job, i);
      }
    }
  }

  lemma {:induction false} AllWereAccepted(first: Tree<Content>, job: Job, n: nat, i: nat)
    requires i < n <= |job.services| == |job.ids| && AfterServices(first, job, n).Some?
    ensures NameMatches(job.services[i]) && CanPublish(job.services[i].manifest)
    decreases n
  {
    hide AfterService, NameMatches, CanPublish;
    if i < n - 1 {
      AllWereAccepted(first, job, n - 1, i);
    } else {
      WasAccepted(AfterServices(first, job, n - 1).value, job, i);
    }
  }

  lemma WasAccepted(t: Tree<Content>, job: Job, i: nat)
    requires i < |job.services| == |job.ids| && AfterService(t, job, i).Some?
    ensures NameMatches(job.services[i]) && CanPublish(job.services[i].manifest)
  {
  }

  /** The job that a state file stands for. */
  function JobOf(state: LegacyState, staging: Path, live: seq<Component>, ids: seq<string>, now: string): Job {
    Job(staging, live, state.services, ids, if Text.Trim(state.updatedAt) == "" then now else Text.Trim(state.updatedAt))
  }

  /** The state file of a directory, if it is there and can be read. */
  function ReadState(t: Tree<Content>, root: Path): Option<LegacyState> {
    var p := root + [LEGACY_SERVICE_STATE_FILE];
    if p in t && t[p].File? && t[p].data.LegacyServices? && t[p].data.state.schemaVersion == LEGACY_SERVICE_STATE_SCHEMA_VERSION
    then Some(t[p].data.state)
    else None
  }

  /** `migrate_legacy_services_state`, with the ids it will draw. */
  method MigrateLegacyServicesState(fs: FileSystem<Content>, staging: Path, live: seq<Component>, ids: seq<string>, now: string)
    returns (ok: bool)
    requires fs.Valid() && (ReadState(fs.tree, staging).Some? ==> |ids| == |ReadState(fs.tree, staging).value.services|)
    modifies fs
    ensures fs.Valid() && Counts(old(fs.failures), fs.failures, ok)
    ensures Guarded(fs.tree, fs.trace, Watch(old(fs.tree), staging, old(fs.trace)), TameState(old(fs.tree), staging, live))
    ensures var p := staging + [LEGACY_SERVICE_STATE_FILE];
            var state := ReadState(old(fs.tree), staging);
            && (p !in old(fs.tree) ==> ok && fs.tree == old(fs.tree))
            && (p in old(fs.tree) && state.None? ==> !ok && fs.tree == old(fs.tree))
            && (state.Some? && ok ==> IsDone(old(fs.tree), fs.tree, JobOf(state.value, staging, live, ids, now)))
            && (state.Some? && !ok && fs.failures == old(fs.failures) ==>
                  IsGivenUp(old(fs.tree), fs.tree, JobOf(state.value, staging, live, ids, now)))
  {
    var p := staging + [LEGACY_SERVICE_STATE_FILE];
    var state := ReadState(fs.tree, staging);
    ghost var w := Watch(fs.tree, staging, fs.trace);
    ConfinedReflexive(fs.tree, Places(staging));
    if p !in fs.tree {
      return true;
    }
    if state.None? {
      return false;
    }
    ok := MigrateServices(fs, JobOf(state.value, staging, live, ids, now), w);
  }

  /** The names in the state file, if it can be read, are tame. */
  predicate TameState(t: Tree<Content>, root: Path, live: seq<Component>) {
    ReadState(t, root).Some? ==> NamesOnly(live, ReadState(t, root).value.services)
  }
}
