/** The store of managed services, in memory and on disk: `service_state.rs`. */
module ServiceState {
  import opened Wrappers
  import Text

  const SERVICE_STATE_SCHEMA_VERSION := 2

  datatype DesiredState = Running | Stopped

  datatype Manifest = Manifest(name: string, body: string)

  datatype Persisted = Persisted(id: string, manifest: Manifest, desired: DesiredState)

  datatype StateFile = StateFile(schemaVersion: nat, id: string, desired: DesiredState)

  /** A file as its parser sees it. */
  datatype Parsed<+T> = Good(value: T) | Bad

  /** A directory below the services root: `service.yaml` and `state.json`, if they are there. */
  datatype Dir = Dir(manifest: Option<Parsed<Manifest>>, state: Option<Parsed<StateFile>>)

  type Disk = map<string, Dir>

  datatype Memory = Memory(state: map<string, Persisted>, names: map<string, string>)

  // ---------- reading a directory ----------

  predicate IsIdChar(c: char) {
    '0' <= c <= '9' || 'a' <= c <= 'z' || 'A' <= c <= 'Z' || c == '-' || c == '_'
  }

  /** `normalize_local_service_id`. */
  function NormalizeId(value: string): Result<string> {
    var trimmed := Text.Trim(value);
    if trimmed != "" && forall c <- trimmed :: IsIdChar(c) then Ok(trimmed) else Err
  }

  /** `load_service_state_file`: the id and the desired state of the directory `name`. */
  function StateOf(name: string, dir: Dir): Result<(string, DesiredState)> {
    match NormalizeId(name)
    case Err => Err
    case Ok(id) =>
      match dir.state
      case None => Ok((id, Stopped))
      case Some(Bad) => Err
      case Some(Good(file)) =>
        if file.schemaVersion == SERVICE_STATE_SCHEMA_VERSION && NormalizeId(file.id) == Ok(id) then Ok((id, file.desired)) else Err
  }

  predicate IsService(disk: Disk, name: string) {
    name in disk && disk[name].manifest.Some?
  }

  /** The service that a directory with a manifest describes. */
  function ServiceOf(name: string, dir: Dir): Option<Persisted> {
    match StateOf(name, dir)
    case Err => None
    case Ok((id, desired)) =>
      match dir.manifest
      case Some(Good(manifest)) => Some(Persisted(id, manifest, desired))
      case _ => None
  }

  /** What each service directory holds; `None` where it cannot be read. */
  type View = map<string, Option<Persisted>>

  function ViewOf(disk: Disk): View {
    map d | d in disk && disk[d].manifest.Some? :: ServiceOf(d, disk[d])
  }

  predicate Clash(a: Option<Persisted>, b: Option<Persisted>) {
    a.Some? && b.Some? && (a.value.id == b.value.id || a.value.manifest.name == b.value.manifest.name)
  }

  /** Every service directory can be read, and no two of them share an id or a name. */
  ghost predicate Readable(view: View) {
    (forall d <- view :: view[d].Some?) && (forall a <- view, b <- view :: a != b ==> !Clash(view[a], view[b]))
  }

  ghost predicate Loadable(disk: Disk) {
    Readable(ViewOf(disk))
  }

  // ---------- the two indexes ----------

  /** `name_index` and `state` are each other's inverse. */
  ghost predicate Inverse(m: Memory) {
    (forall name <- m.names :: m.names[name] in m.state && m.state[m.names[name]].manifest.name == name)
    && (forall id <- m.state ::
          m.state[id].id == id && m.state[id].manifest.name in m.names && m.names[m.state[id].manifest.name] == id)
  }

  ghost predicate Holds(m: Memory, p: Option<Persisted>) {
    p.Some? && p.value.id in m.state && m.state[p.value.id] == p.value
  }

  ghost predicate Comes(view: View, done: set<string>, p: Persisted) {
    exists d :: d in done && d in view && view[d] == Some(p)
  }

  /** The memory holds exactly the services of the directories in `done`. */
  ghost predicate LoadedFrom(view: View, done: set<string>, m: Memory) {
    && Inverse(m)
    && (forall d <- done :: d in view ==> Holds(m, view[d]))
    && (forall id <- m.state :: Comes(view, done, m.state[id]))
  }

  ghost predicate Loads(disk: Disk, m: Memory) {
    LoadedFrom(ViewOf(disk), disk.Keys, m) && Loadable(disk)
  }

  lemma LoadsOne(disk: Disk, a: Memory, b: Memory)
    requires Loads(disk, a) && Loads(disk, b)
    ensures a == b
  {
    SameServices(ViewOf(disk), disk.Keys, a, b);
    SameServices(ViewOf(disk), disk.Keys, b, a);
    assert a.state == b.state;
    forall name ensures name in a.names <==> name in b.names
      ensures name in a.names ==> a.names[name] == b.names[name]
    {
      if name in a.names { assert a.names[name] in b.state; }
      if name in b.names { assert b.names[name] in a.state; }
    }
    assert a.names == b.names;
  }

  lemma SameServices(view: View, done: set<string>, a: Memory, b: Memory)
    requires LoadedFrom(view, done, a) && LoadedFrom(view, done, b)
    ensures forall id <- a.state :: id in b.state && b.state[id] == a.state[id]
  {
    forall id <- a.state ensures id in b.state && b.state[id] == a.state[id] {
      var d :| d in done && d in view && view[d] == Some(a.state[id]);
      assert Holds(b, view[d]);
    }
  }

  /** `ServiceStateStore::load`: it succeeds exactly for a loadable directory, in whatever order that is read. */
  method Load(disk: Disk) returns (r: Result<Memory>)
    ensures r.Ok? <==> Loadable(disk)
    ensures r.Ok? ==> Loads(disk, r.value)
  {
    var m := Memory(map[], map[]);
    var left := disk.Keys;
    ghost var view := ViewOf(disk);
    ghost var done: set<string> := {};
    while left != {}
      invariant left !! done && left + done == disk.Keys && LoadedFrom(view, done, m) && NoClash(view, done)
      decreases |left|
    {
      var d :| d in left;
      left := left - {d};
      if disk[d].manifest.Some? {
        var service := ServiceOf(d, disk[d]);
        assert view[d] == service;
        if service.None? {
          return Err;
        }
        var p := service.value;
        if p.manifest.name in m.names || p.id in m.state {
          DuplicateFound(view, done, m, d, p);
          return Err;
        }
        Added(view, done, m, d, p);
        m := Memory(m.state[p.id := p], m.names[p.manifest.name := p.id]);
      } else {
        Skipped(view, done, m, d);
      }
      done := done + {d};
    }
    assert done == disk.Keys;
    r := Ok(m);
  }

  ghost predicate NoClash(view: View, done: set<string>) {
    forall a <- done, b <- done :: a in view && b in view && a != b ==> view[a].Some? && !Clash(view[a], view[b])
  }

  // ---------- what is loaded, field by field ----------

  /** The directory bears an id, its manifest can be read, and its state file, if it has one, is one of that id. */
  predicate IsReadable(d: string, dir: Dir) {
    && IsId(Text.Trim(d)) && dir.manifest.Some? && dir.manifest.value.Good?
    && (dir.state.Some? ==>
          dir.state.value.Good? && dir.state.value.value.schemaVersion == 2 && Text.Trim(dir.state.value.value.id) == Text.Trim(d))
  }

  /** What it describes; a service without a state file is stopped. */
  function Described(d: string, dir: Dir): Persisted
    requires IsReadable(d, dir)
  {
    Persisted(Text.Trim(d), dir.manifest.value.value, match dir.state case Some(Good(file)) => file.desired case None => Stopped)
  }

  lemma ServiceFields(d: string, dir: Dir)
    requires dir.manifest.Some?
    ensures ServiceOf(d, dir) == if IsReadable(d, dir) then Some(Described(d, dir)) else None
  {
    hide IsId, Text.Trim, NormalizeId;
    NormalizeFields(d);
    if dir.state.Some? && dir.state.value.Good? {
      NormalizeFields(dir.state.value.value.id);
    }
  }

  /** A disk can be loaded if and only if every directory with a manifest can be read, and no two have one id or one name. */
  lemma LoadableFields(disk: Disk)
    ensures Loadable(disk) <==>
              (forall d <- disk :: disk[d].manifest.Some? ==> IsReadable(d, disk[d]))
              && forall a <- disk, b <- disk ::
                   a != b && disk[a].manifest.Some? && disk[b].manifest.Some? && IsReadable(a, disk[a]) && IsReadable(b, disk[b]) ==>
                     Text.Trim(a) != Text.Trim(b) && disk[a].manifest.value.value.name != disk[b].manifest.value.value.name
  {
    hide IsReadable, ServiceOf, Text.Trim;
    var view := ViewOf(disk);
    forall d | d in disk && disk[d].manifest.Some? ensures d in view && view[d] == ServiceOf(d, disk[d])
      ensures view[d].Some? <==> IsReadable(d, disk[d])
      ensures view[d].Some? ==>
                disk[d].manifest.value.Good? && view[d].value.id == Text.Trim(d) && view[d].value.manifest == disk[d].manifest.value.value
    {
      ServiceFields(d, disk[d]);
      ReadableManifest(d, disk[d]);
    }
  }

  lemma ReadableManifest(d: string, dir: Dir)
    ensures IsReadable(d, dir) ==> dir.manifest.Some? && dir.manifest.value.Good?
  {
  }

  /** The memory holds just the services of those directories, each under its id and its name. */
  lemma LoadedFields(disk: Disk, m: Memory)
    requires Loads(disk, m)
    ensures forall d <- disk :: disk[d].manifest.Some? ==>
              IsReadable(d, disk[d]) && Text.Trim(d) in m.state && m.state[Text.Trim(d)] == Described(d, disk[d])
    ensures forall id <- m.state :: exists d <- disk :: disk[d].manifest.Some? && Text.Trim(d) == id
    ensures forall name, id :: name in m.names && m.names[name] == id <==> id in m.state && m.state[id].manifest.name == name
  {
    hide IsReadable, ServiceOf, Text.Trim;
    var view := ViewOf(disk);
    forall d | d in disk && disk[d].manifest.Some?
      ensures IsReadable(d, disk[d]) && Text.Trim(d) in m.state && m.state[Text.Trim(d)] == Described(d, disk[d])
    {
      ServiceFields(d, disk[d]);
      assert d in view && view[d] == ServiceOf(d, disk[d]);
      assert Holds(m, view[d]);
    }
    forall id <- m.state ensures exists d <- disk :: disk[d].manifest.Some? && Text.Trim(d) == id {
      assert Comes(view, disk.Keys, m.state[id]);
      var d :| d in disk.Keys && d in view && view[d] == Some(m.state[id]);
      ServiceFields(d, disk[d]);
    }
  }

  lemma DuplicateFound(view: View, done: set<string>, m: Memory, d: string, p: Persisted)
    requires LoadedFrom(view, done, m) && d in view && d !in done && view[d] == Some(p)
    requires p.manifest.name in m.names || p.id in m.state
    ensures !Readable(view)
  {
    var id := if p.id in m.state then p.id else m.names[p.manifest.name];
    var other :| other in done && other in view && view[other] == Some(m.state[id]);
    assert Clash(view[d], view[other]);
  }

  lemma Added(view: View, done: set<string>, m: Memory, d: string, p: Persisted)
    requires LoadedFrom(view, done, m) && NoClash(view, done) && d in view && d !in done && view[d] == Some(p)
    requires p.manifest.name !in m.names && p.id !in m.state
    ensures LoadedFrom(view, done + {d}, Memory(m.state[p.id := p], m.names[p.manifest.name := p.id]))
    ensures NoClash(view, done + {d})
  {
    var n := Memory(m.state[p.id := p], m.names[p.manifest.name := p.id]);
    forall id <- n.state ensures Comes(view, done + {d}, n.state[id]) {
      if id == p.id {
        assert d in done + {d};
      } else {
        MoreDone(view, done, d, m.state[id]);
      }
    }
    forall e <- done | e in view ensures view[e].Some? && !Clash(view[e], view[d]) && !Clash(view[d], view[e]) {
      assert Holds(m, view[e]);
    }
  }

  lemma MoreDone(view: View, done: set<string>, d: string, p: Persisted)
    requires Comes(view, done, p)
    ensures Comes(view, done + {d}, p)
  {
    var e :| e in done && e in view && view[e] == Some(p);
    assert e in done + {d};
  }

  lemma Skipped(view: View, done: set<string>, m: Memory, d: string)
    requires LoadedFrom(view, done, m) && NoClash(view, done) && d !in view
    ensures LoadedFrom(view, done + {d}, m) && NoClash(view, done + {d})
  {
    forall id <- m.state ensures Comes(view, done + {d}, m.state[id]) {
      MoreDone(view, done, d, m.state[id]);
    }
  }

  // ---------- what the operations do ----------

  function DirAt(disk: Disk, id: string): Dir {
    if id in disk then disk[id] else Dir(None, None)
  }

  /** The disk after each of the three steps of `save_service`. */
  function WithDir(disk: Disk, id: string): Disk {
    disk[id := DirAt(disk, id)]
  }

  function WithManifest(disk: Disk, p: Persisted): Disk {
    disk[p.id := DirAt(disk, p.id).(manifest := Some(Good(p.manifest)))]
  }

  function SavedDisk(disk: Disk, p: Persisted): Disk {
    disk[p.id := Dir(Some(Good(p.manifest)), Some(Good(StateFile(SERVICE_STATE_SCHEMA_VERSION, p.id, p.desired))))]
  }

  function Upserted(m: Memory, p: Persisted): Memory {
    Memory(m.state[p.id := p], m.names[p.manifest.name := p.id])
  }

  function Removed(m: Memory, name: string): Memory {
    if name in m.names then Memory(m.state - {m.names[name]}, m.names - {name}) else m
  }

  /** `resolve_upsert_local_service_id`, up to the drawing of a new id. */
  function Resolve(m: Memory, name: string, requested: Option<string>): Result<Option<string>> {
    if requested.Some? && NormalizeId(requested.value).Err? then Err
    else
      var wanted := if requested.Some? then Some(NormalizeId(requested.value).value) else None;
      if name in m.names then
        if wanted.Some? && wanted.value != m.names[name] then Err else Ok(Some(m.names[name]))
      else if wanted.Some? then
        if wanted.value in m.state && m.state[wanted.value].manifest.name != name then Err else Ok(wanted)
      else Ok(None)
  }

  /** An id for the service `name` that fits the store. */
  predicate Fits(m: Memory, name: string, id: string) {
    if name in m.names then id == m.names[name] else id !in m.state && NormalizeId(id) == Ok(id)
  }

  /** A word of letters, digits, `-` and `_`. */
  predicate IsId(text: string) {
    text != "" && forall c <- text :: c in "-_" || ('a' <= c && c <= 'z') || ('A' <= c && c <= 'Z') || ('0' <= c && c <= '9')
  }

  lemma NormalizeFields(value: string)
    ensures NormalizeId(value) == if IsId(Text.Trim(value)) then Ok(Text.Trim(value)) else Err
  {
    hide Text.Trim;
  }

  /** The id asked for is none, is not that of the name, or is that of another name. */
  predicate Declined(state: map<string, Persisted>, names: map<string, string>, name: string, requested: Option<string>) {
    requested.Some?
    && var id := Text.Trim(requested.value);
    !IsId(id) || (name in names && names[name] != id) || (name !in names && id in state)
  }

  lemma ResolvedFields(m: Memory, name: string, requested: Option<string>)
    requires Inverse(m)
    ensures Resolve(m, name, requested) ==
              if Declined(m.state, m.names, name, requested) then Err
              else if name in m.names then Ok(Some(m.names[name]))
              else if requested.Some? then Ok(Some(Text.Trim(requested.value)))
              else Ok(None)
  {
    hide NormalizeId, IsId, Text.Trim;
    if requested.Some? {
      NormalizeFields(requested.value);
    }
  }

  lemma NormalizedIsNormal(value: string)
    requires NormalizeId(value).Ok?
    ensures NormalizeId(NormalizeId(value).value) == NormalizeId(value)
  {
    Text.TrimIsCanonical(value);
    Text.TrimIsCanonical(Text.Trim(value));
  }

  lemma ResolvedFits(m: Memory, name: string, requested: Option<string>)
    requires Inverse(m)
    ensures var r := Resolve(m, name, requested); r.Ok? && r.value.Some? ==> Fits(m, name, r.value.value)
  {
    if requested.Some? && NormalizeId(requested.value).Ok? {
      NormalizedIsNormal(requested.value);
    }
  }

  class ServiceStateStore {
    var state: map<string, Persisted>
    var names: map<string, string>
    var disk: Disk
    /** Every state the disk has been in: where a crash may stop the process. */
    ghost var crashes: seq<Disk>
    /** How many uses of the disk have failed. */
    ghost var failures: nat

    constructor (m: Memory, disk: Disk)
      ensures state == m.state && names == m.names && this.disk == disk && crashes == [disk] && failures == 0
    {
      state, names, this.disk, crashes, failures := m.state, m.names, disk, [disk], 0;
    }

    ghost function Mem(): Memory
      reads this`state, this`names
    {
      Memory(state, names)
    }

    /** `save_service`: directory, manifest, state; an error leaves what was written before it. */
    method SaveService(id: string) returns (ok: bool)
      requires id in state && state[id].id == id
      modifies this`disk, this`crashes, this`failures
      ensures failures == old(failures) + (if ok then 0 else 1)
      ensures ok ==> disk == SavedDisk(old(disk), state[id])
      ensures !ok ==> disk in {old(disk), WithDir(old(disk), id), WithManifest(old(disk), state[id])}
      ensures ok ==> crashes == old(crashes) + [WithDir(old(disk), id), WithManifest(old(disk), state[id]), disk]
    {
      var p := state[id];
      ghost var was := disk;
      var made, encoded, written, stored := *, *, *, *;
      if !made {
        failures := failures + 1;
        return false;
      }
      disk := disk[id := DirAt(disk, id)];
      crashes := crashes + [disk];
      if !encoded || !written {
        failures := failures + 1;
        return false;
      }
      disk := disk[id := disk[id].(manifest := Some(Good(p.manifest)))];
      assert disk == WithManifest(was, p);
      crashes := crashes + [disk];
      if !stored {
        failures := failures + 1;
        return false;
      }
      disk := disk[id := disk[id].(state := Some(Good(StateFile(SERVICE_STATE_SCHEMA_VERSION, id, p.desired))))];
      assert disk == SavedDisk(was, p);
      crashes := crashes + [disk];
      ok := true;
    }

    /** Sixteen draws of `svc_` and a ULID in lower case. */
    method GenerateUniqueId() returns (r: Result<string>)
      ensures r.Ok? ==> r.value !in state && NormalizeId(r.value) == Ok(r.value) && IsId(r.value) && "svc_" <= r.value
    {
      for attempt := 0 to 16 {
        var ulid: string := *;
        var candidate := "svc_" + ulid;
        if IsUlid(ulid) && candidate !in state {
          CandidateIsNormal(ulid);
          return Ok(candidate);
        }
      }
      r := Err;
    }

    /**
     * A request is refused for an id that is none, for another id than that of the name, and for one that
     * belongs to another name; otherwise the id is that of the name, else the one asked for, else a new one.
     */
    method ResolveUpsertId(name: string, requested: Option<string>) returns (r: Result<string>)
      requires Inverse(Mem())
      ensures Declined(state, names, name, requested) ==> r.Err?
      ensures !Declined(state, names, name, requested) && name in names ==> r == Ok(names[name])
      ensures !Declined(state, names, name, requested) && name !in names && requested.Some? ==> r == Ok(Text.Trim(requested.value))
      ensures r.Ok? && name !in names ==> r.value !in state && IsId(r.value) && (requested.None? ==> "svc_" <= r.value)
      ensures r.Ok? ==> Fits(Mem(), name, r.value)
    {
      var resolved := Resolve(Memory(state, names), name, requested);
      ResolvedFits(Memory(state, names), name, requested);
      ResolvedFields(Memory(state, names), name, requested);
      if resolved.Err? {
        return Err;
      }
      if resolved.value.Some? {
        return Ok(resolved.value.value);
      }
      r := GenerateUniqueId();
    }

    /**
     * A refused request changes nothing. Otherwise the service is bound in memory to its id, with what is
     * asked for, and every other service is as it was; without a failed use of the disk that is also what
     * is on the disk.
     */
    method UpsertService(manifest: Manifest, desired: DesiredState, requested: Option<string>) returns (r: Result<string>, ghost id: Option<string>)
      requires Inverse(Mem())
      modifies this
      ensures Inverse(Mem())
      ensures Declined(old(state), old(names), manifest.name, requested) ==> id.None?
      ensures id.None? ==> r.Err? && state == old(state) && names == old(names) && disk == old(disk) && failures == old(failures)
      ensures id.None? ==>
                Declined(old(state), old(names), manifest.name, requested) || (manifest.name !in old(names) && requested.None?)
      ensures id.Some? && manifest.name in old(names) ==> id == Some(old(names)[manifest.name])
      ensures id.Some? && manifest.name !in old(names) ==>
                id.value !in old(state) && IsId(id.value) && (requested.Some? ==> id.value == Text.Trim(requested.value))
      ensures id.Some? ==> state == old(state)[id.value := Persisted(id.value, manifest, desired)]
      ensures id.Some? ==> names == old(names)[manifest.name := id.value]
      ensures id.Some? ==> failures == old(failures) + (if r.Ok? then 0 else 1)
      ensures r.Ok? ==> id == Some(r.value)
      ensures r.Ok? ==> disk == old(disk)[r.value := Dir(Some(Good(manifest)), Some(Good(StateFile(2, r.value, desired))))]
      ensures r.Ok? ==> (Mem(), disk) == Applied(old(Mem()), old(disk), Upsert(manifest, desired, requested, r.value))
    {
      hide IsId, Text.Trim, NormalizeId, Declined, Applied, Resolve;
      ghost var before := Mem();
      var resolved := ResolveUpsertId(manifest.name, requested);
      if resolved.Err? {
        return Err, None;
      }
      ResolvedFields(before, manifest.name, requested);
      UpsertApplied(before, disk, manifest, desired, requested, resolved.value);
      var serviceId := resolved.value;
      id := Some(serviceId);
      UpsertKeepsInverse(Mem(), Persisted(serviceId, manifest, desired));
      names := names[manifest.name := serviceId];
      state := state[serviceId := Persisted(serviceId, manifest, desired)];
      var ok := SaveService(serviceId);
      r := if ok then Ok(serviceId) else Err;
    }

    /** The desired state of the one service changes, in memory and, without a failed use of the disk, there. */
    method SetDesiredState(name: string, desired: DesiredState) returns (ok: bool)
      requires Inverse(Mem())
      modifies this
      ensures Inverse(Mem()) && names == old(names)
      ensures name !in old(names) ==> !ok && state == old(state) && disk == old(disk) && failures == old(failures)
      ensures name in old(names) ==>
                var id := old(names)[name];
                && state == old(state)[id := Persisted(id, old(state)[id].manifest, desired)]
                && failures == old(failures) + (if ok then 0 else 1)
                && (ok ==> disk == old(disk)[id := Dir(Some(Good(old(state)[id].manifest)), Some(Good(StateFile(2, id, desired))))])
      ensures ok ==> (Mem(), disk) == Applied(old(Mem()), old(disk), SetDesired(name, desired))
    {
      if name !in names {
        return false;
      }
      var id := names[name];
      UpsertKeepsInverse(Mem(), state[id].(desired := desired));
      assert names[name := id] == names;
      state := state[id := state[id].(desired := desired)];
      ok := SaveService(id);
    }

    /** An error while removing the directory may leave any part of it, and nothing else changes. */
    method RemoveService(name: string) returns (ok: bool)
      requires Inverse(Mem())
      modifies this
      ensures Inverse(Mem())
      ensures name !in old(names) ==> ok && state == old(state) && names == old(names) && disk == old(disk)
      ensures name in old(names) ==> state == old(state) - {old(names)[name]} && names == old(names) - {name}
      ensures failures == old(failures) + (if ok then 0 else 1)
      ensures name in old(names) && ok ==> disk == old(disk) - {old(names)[name]}
      ensures ok ==> (Mem(), disk) == Applied(old(Mem()), old(disk), Remove(name))
      ensures name in old(names) && !ok ==> PartLeft(old(disk), disk, old(names)[name])
    {
      RemoveKeepsInverse(Mem(), name);
      if name !in names {
        return true;
      }
      var id := names[name];
      names := names - {name};
      state := state - {id};
      if id !in disk {
        assert disk - {id} == disk;
        return true;
      }
      ok := *;
      var manifestLeft, stateLeft := *, *;
      if ok {
        disk := disk - {id};
      } else {
        failures := failures + 1;
        disk := disk[id := Dir(if manifestLeft then disk[id].manifest else None, if stateLeft then disk[id].state else None)];
      }
      crashes := crashes + [disk];
    }
  }

  lemma UpsertApplied(m: Memory, disk: Disk, manifest: Manifest, desired: DesiredState, requested: Option<string>, id: string)
    requires Inverse(m) && Fits(m, manifest.name, id)
    requires match Resolve(m, manifest.name, requested)
             case Err => false
             case Ok(Some(resolved)) => id == resolved
             case Ok(None) => true
    ensures var p := Persisted(id, manifest, desired);
            Applied(m, disk, Upsert(manifest, desired, requested, id)) == (Upserted(m, p), SavedDisk(disk, p))
  {
    hide NormalizeId;
  }

  /** The directory of one id is still there, less some of its files; the others are as they were. */
  predicate PartLeft(before: Disk, after: Disk, id: string) {
    && id in before && id in after && after - {id} == before - {id}
    && (after[id].manifest.Some? ==> after[id].manifest == before[id].manifest)
    && (after[id].state.Some? ==> after[id].state == before[id].state)
  }

  predicate IsUlid(text: string) {
    forall c <- text :: '0' <= c <= '9' || 'a' <= c <= 'z'
  }

  lemma CandidateIsNormal(ulid: string)
    requires IsUlid(ulid)
    ensures NormalizeId("svc_" + ulid) == Ok("svc_" + ulid)
  {
    var id := "svc_" + ulid;
    forall c <- id ensures IsIdChar(c) {
      assert c in "svc_" || c in ulid;
    }
    assert id[0] == 's' && IsIdChar(id[|id| - 1]);
    Text.TrimIsCanonical(id);
  }

  lemma UpsertKeepsInverse(m: Memory, p: Persisted)
    requires Inverse(m) && (if p.manifest.name in m.names then p.id == m.names[p.manifest.name] else p.id !in m.state)
    ensures Inverse(Upserted(m, p))
  {
  }

  lemma RemoveKeepsInverse(m: Memory, name: string)
    requires Inverse(m)
    ensures Inverse(Removed(m, name))
  {
  }

  // ---------- loading again ----------

  /** Every service directory is called by the id itself. */
  predicate Canonical(disk: Disk) {
    forall d <- disk :: IsService(disk, d) ==> NormalizeId(d) == Ok(d)
  }

  ghost predicate Synced(m: Memory, disk: Disk) {
    Loads(disk, m) && Canonical(disk)
  }

  /** In step, directory by directory: service `id` is what the directory of that name says. */
  ghost predicate Mirrors(m: Memory, view: View) {
    Inverse(m) && view.Keys == m.state.Keys && forall id <- view :: view[id] == Some(m.state[id])
  }

  lemma MirrorsIffLoads(m: Memory, view: View, done: set<string>)
    requires view.Keys <= done && Inverse(m)
    ensures Mirrors(m, view) <==>
            LoadedFrom(view, done, m) && Readable(view) && forall d <- view :: view[d].Some? ==> view[d].value.id == d
  {
    if Mirrors(m, view) {
      forall id <- m.state ensures Comes(view, done, m.state[id]) {
        assert id in done && id in view && view[id] == Some(m.state[id]);
      }
      forall a <- view, b <- view | a != b ensures !Clash(view[a], view[b]) {
        assert m.state[a].id == a && m.state[b].id == b;
      }
    }
    if LoadedFrom(view, done, m) && Readable(view) && forall d <- view :: view[d].Some? ==> view[d].value.id == d {
      forall id <- m.state ensures id in view {
        var d :| d in done && d in view && view[d] == Some(m.state[id]);
      }
      forall d <- view ensures d in m.state && view[d] == Some(m.state[d]) {
        assert Holds(m, view[d]);
      }
      assert view.Keys == m.state.Keys;
    }
  }

  lemma IdOfDirectory(name: string, dir: Dir)
    requires ServiceOf(name, dir).Some?
    ensures NormalizeId(name) == Ok(ServiceOf(name, dir).value.id)
    ensures NormalizeId(ServiceOf(name, dir).value.id) == Ok(ServiceOf(name, dir).value.id)
  {
    NormalizedIsNormal(name);
  }

  lemma SyncedMirrors(m: Memory, disk: Disk)
    ensures Synced(m, disk) <==> Mirrors(m, ViewOf(disk))
  {
    var view := ViewOf(disk);
    forall d <- view ensures view[d].Some? ==> NormalizeId(d) == Ok(view[d].value.id) {
      if view[d].Some? { IdOfDirectory(d, disk[d]); }
    }
    if Inverse(m) {
      MirrorsIffLoads(m, view, disk.Keys);
    }
    if Mirrors(m, view) {
      forall d <- disk | IsService(disk, d) ensures NormalizeId(d) == Ok(d) {
        assert d in view && view[d].value.id == d;
      }
    }
  }

  /** A saved service is read back as it was saved. */
  lemma ViewOfSaved(disk: Disk, p: Persisted)
    requires NormalizeId(p.id) == Ok(p.id)
    ensures ViewOf(SavedDisk(disk, p)) == ViewOf(disk)[p.id := Some(p)]
  {
  }

  lemma MirroredUpsert(m: Memory, view: View, p: Persisted)
    requires Mirrors(m, view) && Fits(m, p.manifest.name, p.id)
    ensures Mirrors(Upserted(m, p), view[p.id := Some(p)])
  {
    UpsertKeepsInverse(m, p);
  }

  /** Ids in a store that is in step with the disk are normal. */
  lemma FittingIsNormal(m: Memory, disk: Disk, name: string, id: string)
    requires Mirrors(m, ViewOf(disk)) && Fits(m, name, id)
    ensures NormalizeId(id) == Ok(id)
  {
    if name in m.names {
      assert id in ViewOf(disk) && ViewOf(disk)[id] == Some(m.state[id]);
      IdOfDirectory(id, disk[id]);
    }
  }

  /** A saved service is read back as it was saved, and every other one as before. */
  lemma SaveStaysSynced(m: Memory, disk: Disk, p: Persisted)
    requires Synced(m, disk) && Fits(m, p.manifest.name, p.id)
    ensures Synced(Upserted(m, p), SavedDisk(disk, p))
  {
    SyncedMirrors(m, disk);
    FittingIsNormal(m, disk, p.manifest.name, p.id);
    ViewOfSaved(disk, p);
    MirroredUpsert(m, ViewOf(disk), p);
    SyncedMirrors(Upserted(m, p), SavedDisk(disk, p));
  }

  lemma ViewOfRemoved(disk: Disk, id: string)
    ensures ViewOf(disk - {id}) == ViewOf(disk) - {id}
  {
  }

  lemma MirroredRemoval(m: Memory, view: View, name: string)
    requires Mirrors(m, view) && name in m.names
    ensures Mirrors(Removed(m, name), view - {m.names[name]})
  {
    RemoveKeepsInverse(m, name);
  }

  lemma RemoveStaysSynced(m: Memory, disk: Disk, name: string)
    requires Synced(m, disk)
    ensures Synced(Removed(m, name), if name in m.names then disk - {m.names[name]} else disk)
  {
    if name in m.names {
      var id := m.names[name];
      SyncedMirrors(m, disk);
      ViewOfRemoved(disk, id);
      MirroredRemoval(m, ViewOf(disk), name);
      SyncedMirrors(Removed(m, name), disk - {id});
    }
  }

  datatype Operation =
    | Upsert(manifest: Manifest, desired: DesiredState, requested: Option<string>, drawn: string)
    | SetDesired(name: string, wanted: DesiredState)
    | Remove(removed: string)

  /** The id an upsert ends up with; `drawn` is the id drawn when one is needed. */
  function IdFor(m: Memory, op: Operation): Option<string>
    requires op.Upsert?
  {
    match Resolve(m, op.manifest.name, op.requested)
    case Err => None
    case Ok(Some(id)) => Some(id)
    case Ok(None) => if op.drawn !in m.state && NormalizeId(op.drawn) == Ok(op.drawn) then Some(op.drawn) else None
  }

  /** What is saved, if the operation is not refused. */
  function ToSave(m: Memory, op: Operation): Option<Persisted>
    requires !op.Remove?
  {
    match op
    case Upsert(manifest, desired, _, _) =>
      if IdFor(m, op).Some? then Some(Persisted(IdFor(m, op).value, manifest, desired)) else None
    case SetDesired(name, wanted) =>
      if name in m.names && m.names[name] in m.state then Some(m.state[m.names[name]].(desired := wanted)) else None
  }

  function Applied(m: Memory, disk: Disk, op: Operation): (Memory, Disk) {
    if op.Remove? then (Removed(m, op.removed), if op.removed in m.names then disk - {m.names[op.removed]} else disk)
    else if ToSave(m, op).Some? then (Upserted(m, ToSave(m, op).value), SavedDisk(disk, ToSave(m, op).value))
    else (m, disk)
  }

  function Run(m: Memory, disk: Disk, ops: seq<Operation>): (Memory, Disk) {
    if ops == [] then (m, disk)
    else
      var (n, left) := Run(m, disk, ops[..|ops| - 1]);
      Applied(n, left, ops[|ops| - 1])
  }

  lemma SavedFits(m: Memory, op: Operation)
    requires Inverse(m) && !op.Remove? && ToSave(m, op).Some?
    ensures Fits(m, ToSave(m, op).value.manifest.name, ToSave(m, op).value.id)
  {
    if op.Upsert? {
      ResolvedFits(m, op.manifest.name, op.requested);
    }
  }

  /** After any operations, refused or not, the two indexes are inverse to each other. */
  lemma {:induction false} EveryStoreIsIndexed(m: Memory, disk: Disk, ops: seq<Operation>)
    requires Inverse(m)
    ensures Inverse(Run(m, disk, ops).0)
  {
    if ops != [] {
      var op, n := ops[|ops| - 1], Run(m, disk, ops[..|ops| - 1]).0;
      EveryStoreIsIndexed(m, disk, ops[..|ops| - 1]);
      if op.Remove? {
        RemoveKeepsInverse(n, op.removed);
      } else if ToSave(n, op).Some? {
        SavedFits(n, op);
        UpsertKeepsInverse(n, ToSave(n, op).value);
      }
    }
  }

  /** After any successful operations, loading the directory again gives what is in memory. */
  lemma {:induction false} EveryStoreReloads(m: Memory, disk: Disk, ops: seq<Operation>)
    requires Synced(m, disk)
    ensures Synced(Run(m, disk, ops).0, Run(m, disk, ops).1)
  {
    if ops != [] {
      var op := ops[|ops| - 1];
      var (n, left) := Run(m, disk, ops[..|ops| - 1]);
      EveryStoreReloads(m, disk, ops[..|ops| - 1]);
      if op.Remove? {
        RemoveStaysSynced(n, left, op.removed);
      } else if ToSave(n, op).Some? {
        SavedFits(n, op);
        SaveStaysSynced(n, left, ToSave(n, op).value);
      }
    }
  }

  // ---------- crashes ----------

  /** Before the manifest is written, a crash leaves the services as they were. */
  lemma CrashBeforeManifest(m: Memory, disk: Disk, id: string)
    requires Synced(m, disk)
    ensures Synced(m, WithDir(disk, id))
  {
    SyncedMirrors(m, disk);
    ViewOfDir(disk, id);
    SyncedMirrors(m, WithDir(disk, id));
  }

  lemma ViewOfDir(disk: Disk, id: string)
    ensures ViewOf(WithDir(disk, id)) == ViewOf(disk)
  {
  }

  lemma ViewOfManifest(disk: Disk, p: Persisted)
    requires NormalizeId(p.id) == Ok(p.id)
    ensures var left := StateOf(p.id, DirAt(disk, p.id));
            ViewOf(WithManifest(disk, p)) ==
            ViewOf(disk)[p.id := if left.Ok? then Some(p.(desired := left.value.1)) else None]
  {
  }

  /**
   * Between the two writes, a crash leaves the new manifest and the old desired state. Loading fails
   * exactly when a `state.json` without a manifest was left in that directory and cannot be used.
   */
  lemma CrashAfterManifest(m: Memory, disk: Disk, p: Persisted)
    requires Synced(m, disk) && Fits(m, p.manifest.name, p.id)
    ensures var left := StateOf(p.id, DirAt(disk, p.id));
            && (Loadable(WithManifest(disk, p)) <==> left.Ok?)
            && (left.Ok? ==> Synced(Upserted(m, p.(desired := left.value.1)), WithManifest(disk, p)))
            && (p.id in m.state ==> left == Ok((p.id, m.state[p.id].desired)))
            && (p.id !in m.state && DirAt(disk, p.id).state.None? ==> left == Ok((p.id, Stopped)))
  {
    SyncedMirrors(m, disk);
    FittingIsNormal(m, disk, p.manifest.name, p.id);
    ViewOfManifest(disk, p);
    var left := StateOf(p.id, DirAt(disk, p.id));
    if left.Ok? {
      MirroredUpsert(m, ViewOf(disk), p.(desired := left.value.1));
      SyncedMirrors(Upserted(m, p.(desired := left.value.1)), WithManifest(disk, p));
    } else {
      assert p.id in ViewOf(WithManifest(disk, p));
    }
    if p.id in m.state {
      assert ViewOf(disk)[p.id] == Some(m.state[p.id]);
    }
  }

  /** A damaged `state.json` without a manifest is no service; writing a manifest beside it makes the store unloadable. */
  lemma DamagedStateBreaksTheStore(p: Persisted)
    requires p.id == "svc"
    ensures var disk := map["svc" := Dir(None, Some(Bad))]; var empty := Memory(map[], map[]);
            Synced(empty, disk) && Fits(empty, p.manifest.name, p.id) && !Loadable(WithManifest(disk, p))
  {
    var disk: Disk := map["svc" := Dir(None, Some(Bad))];
    var empty := Memory(map[], map[]);
    Text.TrimIsCanonical("svc");
    assert ViewOf(disk) == map[];
    SyncedMirrors(empty, disk);
    CrashAfterManifest(empty, disk, p);
  }

  // ---------- directories not called by the id ----------

  /**
   * Saving a service that was loaded keeps the directory loadable exactly when it was loaded from the
   * directory that bears its id. From any other one (`" svc"`, say) the save makes a second directory
   * for the same service.
   */
  lemma SaveReloads(m: Memory, disk: Disk, p: Persisted)
    requires Loads(disk, m) && p.id in m.state && m.state[p.id].manifest.name == p.manifest.name
    ensures Loadable(SavedDisk(disk, p)) <==> IsService(disk, p.id)
  {
    var view := ViewOf(disk);
    var d :| d in disk.Keys && d in view && view[d] == Some(m.state[p.id]);
    IdOfDirectory(d, disk[d]);
    ViewOfSaved(disk, p);
    if p.id in view && view[p.id].Some? {
      IdOfDirectory(p.id, disk[p.id]);
    }
    SavedOverLoaded(view, d, p, m.state[p.id]);
  }

  lemma SavedOverLoaded(view: View, d: string, p: Persisted, was: Persisted)
    requires Readable(view) && d in view && view[d] == Some(was) && was.id == p.id && was.manifest.name == p.manifest.name
    requires p.id in view ==> view[p.id].Some? && view[p.id].value.id == p.id
    ensures Readable(view[p.id := Some(p)]) <==> p.id in view
  {
    var after := view[p.id := Some(p)];
    if p.id in view {
      assert d == p.id by {
        assert d != p.id ==> Clash(view[d], view[p.id]);
      }
      forall a <- after, b <- after | a != b ensures !Clash(after[a], after[b]) {
        assert !Clash(view[a], view[b]);
      }
    } else {
      assert Clash(after[d], after[p.id]);
    }
  }

  /** The directory `" svc"` is read as the service `svc`. One save later the store can no longer be loaded. */
  lemma SpacedDirectoryDoesNotReload(manifest: Manifest, desired: DesiredState)
    ensures var loaded := Persisted("svc", manifest, Stopped);
            var disk := map[" svc" := Dir(Some(Good(manifest)), None)];
            Loads(disk, Memory(map["svc" := loaded], map[manifest.name := "svc"]))
            && !Loadable(SavedDisk(disk, loaded.(desired := desired)))
  {
    var loaded := Persisted("svc", manifest, Stopped);
    var disk: Disk := map[" svc" := Dir(Some(Good(manifest)), None)];
    var m := Memory(map["svc" := loaded], map[manifest.name := "svc"]);
    assert " svc"[1..] == "svc";
    Text.TrimIsCanonical("svc");
    assert NormalizeId(" svc") == Ok("svc");
    assert ViewOf(disk) == map[" svc" := Some(loaded)];
    assert Comes(ViewOf(disk), disk.Keys, loaded) by {
      assert " svc" in disk.Keys;
    }
    SaveReloads(m, disk, loaded.(desired := desired));
  }
}
