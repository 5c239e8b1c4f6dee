/** Where the files of the legacy services are when every service has been moved. */
module MigrationServicesData {
  import opened FileTree
  import opened FsPaths
  import opened MigrationServices
  import opened Wrappers
  import MigrationServicesReach

  // ---------- what is to be kept ----------

  ghost predicate IsAt(t: Tree<Content>, p: Path, sub: Tree<Content>) {
    Sub(t, p) == sub
  }

  const EMPTY_DIRECTORY: Tree<Content> := map[[] := Directory]

  /** The files of the service; a directory without files if there were none. */
  ghost function DataOf(first: Tree<Content>, job: Job, i: nat): Tree<Content>
    requires i < |job.services|
  {
    if job.OldDir(i) in first then Sub(first, job.OldDir(i)) else EMPTY_DIRECTORY
  }

  ghost predicate HasData(first: Tree<Content>, job: Job, i: nat)
    requires i < |job.services|
  {
    DataOf(first, job, i) != EMPTY_DIRECTORY
  }

  /** Every file of the service is in its data directory, but for the managed component. */
  ghost predicate DataKept(first: Tree<Content>, t: Tree<Content>, job: Job, i: nat)
    requires i < |job.services| == |job.ids|
  {
    var data := DataOf(first, job, i);
    match job.ComponentSuffix(i)
    case None => IsAt(t, job.DataDir(i), data)
    case Some(suffix) =>
      var p := NamesIn(suffix);
      p in data && data[p].File?
      && IsAt(t, job.DataDir(i), RemoveTree(data, p))
      && IsAt(t, job.ArtifactsDir(i), map[[] := Directory, ["component.wasm"] := data[p]])
  }

  ghost predicate DescribedAt(t: Tree<Content>, job: Job, i: nat)
    requires i < |job.services| == |job.ids|
  {
    IsAt(t, job.ServiceDir(i), map[
      [] := Directory,
      ["service.yaml"] := Entry.File(Manifest(job.DocumentOf(i))),
      ["state.json"] := Entry.File(State(job.StateOf(i)))])
  }

  /** The tree without the old directories of the first `n` services. */
  function Remaining(first: Tree<Content>, job: Job, n: nat): Tree<Content>
    requires n <= |job.services|
  {
    if n == 0 then first else RemoveTree(Remaining(first, job, n - 1), job.OldDir(n - 1))
  }

  // ---------- the ids, and where things are ----------

  /** No two ids are the same, none is in use, and no key begins with one. */
  ghost predicate FreshIds(t: Tree<Content>, job: Job) {
    && |job.ids| == |job.services|
    && (forall i, j :: 0 <= i < j < |job.ids| ==> job.ids[i] != job.ids[j])
    && (forall i :: 0 <= i < |job.ids| ==> job.ServiceDir(i) !in t && job.ArtifactsDir(i) !in t)
    && (forall i, j :: 0 <= i < |job.services| && 0 <= j < |job.ids| ==> KeyHead(job, i) != Some(job.ids[j]))
  }

  function KeyHead(job: Job, i: nat): Option<string>
    requires i < |job.services|
  {
    var path := KeyPath(job.services[i].key);
    if path == [] then None else Some(path[0])
  }

  ghost predicate Tame(first: Tree<Content>, job: Job) {
    Rooted(first) && |job.services| == |job.ids| && NamesOnly(job.live, job.services) && FreshIds(first, job)
  }

  lemma KeysHaveNames(job: Job, i: nat)
    requires i < |job.services| == |job.ids| && NamesOnly(job.live, job.services)
    ensures KeyPath(job.services[i].key) != [] && job.OldDir(i) == job.ServicesRoot() + KeyPath(job.services[i].key)
  {
    assert job.services[i] in job.services;
    TamePlaces(job, i);
  }

  lemma PlacesApart(first: Tree<Content>, job: Job, i: nat, j: nat)
    requires Tame(first, job) && i < |job.services| && j < |job.services|
    ensures Apart(job.OldDir(i), job.DataDir(j)) && Apart(job.OldDir(i), job.ArtifactsDir(j)) && Apart(job.OldDir(i), job.ServiceDir(j))
    ensures Apart(job.DataDir(i), job.ArtifactsDir(j)) && Apart(job.DataDir(i), job.ServiceDir(j))
    ensures Apart(job.ArtifactsDir(i), job.ServiceDir(j))
    ensures i != j ==> Apart(job.DataDir(i), job.DataDir(j)) && Apart(job.ArtifactsDir(i), job.ArtifactsDir(j))
                       && Apart(job.ServiceDir(i), job.ServiceDir(j))
  {
    var n := |job.staging|;
    KeysHaveNames(job, i);
    assert job.OldDir(i)[n] == "services" && job.OldDir(i)[n + 1] == KeyPath(job.services[i].key)[0];
    assert KeyHead(job, i) != Some(job.ids[j]);
    ApartAt(job.OldDir(i), job.DataDir(j), n);
    ApartAt(job.OldDir(i), job.ArtifactsDir(j), n);
    ApartAt(job.OldDir(i), job.ServiceDir(j), n + 1);
    ApartAt(job.DataDir(i), job.ArtifactsDir(j), n);
    ApartAt(job.DataDir(i), job.ServiceDir(j), n);
    ApartAt(job.ArtifactsDir(i), job.ServiceDir(j), n);
    if i != j {
      ApartAt(job.DataDir(i), job.DataDir(j), n + 2);
      ApartAt(job.ArtifactsDir(i), job.ArtifactsDir(j), n + 2);
      ApartAt(job.ServiceDir(i), job.ServiceDir(j), n + 1);
    }
  }

  lemma {:induction false} NamesReach(t: Tree<Content>, base: Path, cs: seq<Component>)
    requires Rooted(t) && AllNames(cs) && cs != []
    ensures Exists(t, base, cs) <==> Target(base, cs) in t
    decreases |cs|
  {
    TargetOfNames(base, cs);
    var p := Target(base, cs);
    if p in t {
      assert p[..|base|] == base;
      PrefixIsDirectory(t, p, |base|);
      if |cs| > 1 {
        NamesReach(t, base + [cs[0].name], cs[1..]);
        assert Target(base + [cs[0].name], cs[1..]) == p;
      }
    }
  }

  // ---------- one service ----------

  /** Service `i` has not been touched, and the old directories of the first `n` are gone. */
  ghost predicate Waiting(first: Tree<Content>, t: Tree<Content>, job: Job, n: nat, i: nat)
    requires i < |job.services| == |job.ids| && n <= |job.services|
  {
    IsAt(t, job.OldDir(i), Sub(Remaining(first, job, n), job.OldDir(i)))
    && IsAt(t, job.ServiceDir(i), map[]) && IsAt(t, job.ArtifactsDir(i), map[])
  }

  ghost predicate Settled(first: Tree<Content>, t: Tree<Content>, job: Job, i: nat)
    requires i < |job.services| == |job.ids|
  {
    DataKept(Remaining(first, job, i), t, job, i) && DescribedAt(t, job, i) && IsAt(t, job.OldDir(i), map[])
  }

  function NewRoots(job: Job, i: nat): set<Path>
    requires i < |job.ids|
  {
    {job.DataDir(i), job.ArtifactsDir(i), job.ServiceDir(i)}
  }

  /** A step of service `i`: its old directory may lose entries, and its new places change. */
  ghost predicate Works(t: Tree<Content>, u: Tree<Content>, job: Job, i: nat)
    requires i < |job.services| == |job.ids|
  {
    Thinned(t, u, NewRoots(job, i)) && Confined(t, u, NewRoots(job, i) + {job.OldDir(i)})
  }

  lemma WorksTrans(t: Tree<Content>, u: Tree<Content>, v: Tree<Content>, job: Job, i: nat)
    requires i < |job.services| == |job.ids| && Works(t, u, job, i) && Works(u, v, job, i)
    ensures Works(t, v, job, i)
  {
    ThinnedTrans(t, u, v, NewRoots(job, i));
    ConfinedTrans(t, u, v, NewRoots(job, i) + {job.OldDir(i)});
  }

  /** A change below the new places only. */
  lemma WorksBelow(t: Tree<Content>, u: Tree<Content>, job: Job, i: nat, roots: set<Path>)
    requires i < |job.services| == |job.ids| && Confined(t, u, roots) && forall root <- roots :: Covered(root, NewRoots(job, i))
    ensures Works(t, u, job, i)
  {
    ConfinedThins(t, u, roots, NewRoots(job, i));
    forall root <- roots ensures Covered(root, NewRoots(job, i) + {job.OldDir(i)}) {
      var r :| r in NewRoots(job, i) && r <= root;
      assert r in NewRoots(job, i) + {job.OldDir(i)};
    }
    ConfinedWiden(t, u, roots, NewRoots(job, i) + {job.OldDir(i)});
  }

  lemma StaysAt(t: Tree<Content>, u: Tree<Content>, job: Job, i: nat, p: Path)
    requires i < |job.services| == |job.ids| && Works(t, u, job, i)
    requires Apart(job.OldDir(i), p) && Apart(job.DataDir(i), p) && Apart(job.ArtifactsDir(i), p) && Apart(job.ServiceDir(i), p)
    ensures IsAt(u, p, Sub(t, p))
  {
    ConfinedSub(t, u, NewRoots(job, i) + {job.OldDir(i)}, p);
  }

  lemma NewRootsCovered(job: Job, i: nat)
    requires i < |job.ids|
    ensures Covered(job.DataDir(i), NewRoots(job, i)) && Covered(job.ArtifactsDir(i), NewRoots(job, i))
    ensures Covered(job.ServiceDir(i), NewRoots(job, i))
  {
    assert job.DataDir(i) in NewRoots(job, i) && job.DataDir(i) <= job.DataDir(i);
    assert job.ArtifactsDir(i) in NewRoots(job, i) && job.ArtifactsDir(i) <= job.ArtifactsDir(i);
    assert job.ServiceDir(i) in NewRoots(job, i) && job.ServiceDir(i) <= job.ServiceDir(i);
  }

  lemma RootEntry(t: Tree<Content>, p: Path)
    ensures p in t <==> [] in Sub(t, p)
  {
    SubAt(t, p, []);
    assert p + [] == p;
  }

  /** What the move of the data directory leaves. */
  ghost predicate MovedData(t: Tree<Content>, u: Tree<Content>, job: Job, i: nat, data: Tree<Content>)
    requires i < |job.services| == |job.ids|
  {
    Rooted(u) && Works(t, u, job, i) && Confined(t, u, {job.OldDir(i), job.DataDir(i)})
    && IsAt(u, job.DataDir(i), data) && IsAt(u, job.OldDir(i), map[])
  }

  lemma MoveMoves(t: Tree<Content>, made: Tree<Content>, job: Job, i: nat)
    requires i < |job.services| == |job.ids| && Rooted(t) && made == MakeDirs(t, Parent(job.DataDir(i))) && CanHoldDirs(t, Parent(job.DataDir(i)))
    requires Apart(job.OldDir(i), job.DataDir(i)) && CanRename(made, job.OldDir(i), job.DataDir(i))
    ensures MovedData(t, MoveTree(made, job.OldDir(i), job.DataDir(i)), job, i, Sub(t, job.OldDir(i)))
  {
    var from, to := job.OldDir(i), job.DataDir(i);
    var u := MoveTree(made, from, to);
    NewRootsCovered(job, i);
    MadeDirsRooted(t, Parent(to));
    MovedRooted(made, from, to);
    MadeDirsConfined(t, Parent(to), to);
    WorksBelow(t, made, job, i, {to});
    MovedWorks(made, job, i);
    WorksTrans(t, made, u, job, i);
    assert to in {from, to} && to <= to;
    ConfinedBelow(t, made, to, {from, to});
    MovedConfined(made, from, to);
    ConfinedTrans(t, made, u, {from, to});
    MovedArrives(made, from, to);
    MovedLeaves(made, from, to);
    assert Parent(to) <= to;
    SubOfMadeDirs(t, Parent(to), from);
  }

  lemma MovedWorks(t: Tree<Content>, job: Job, i: nat)
    requires i < |job.services| == |job.ids|
    ensures Works(t, MoveTree(t, job.OldDir(i), job.DataDir(i)), job, i)
  {
    var from, to := job.OldDir(i), job.DataDir(i);
    NewRootsCovered(job, i);
    MovedThins(t, from, to, NewRoots(job, i));
    MovedConfined(t, from, to);
    var wide := NewRoots(job, i) + {from};
    assert from in wide && from <= from && to in wide && to <= to;
    ConfinedWiden(t, MoveTree(t, from, to), {from, to}, wide);
  }

  lemma CreateMoves(t: Tree<Content>, job: Job, i: nat)
    requires i < |job.services| == |job.ids| && Rooted(t) && job.DataDir(i) !in t && job.OldDir(i) !in t
    requires CanHoldDirs(t, job.DataDir(i)) && Apart(job.OldDir(i), job.DataDir(i))
    ensures MovedData(t, MakeDirs(t, job.DataDir(i)), job, i, EMPTY_DIRECTORY)
  {
    var from, to := job.OldDir(i), job.DataDir(i);
    NewRootsCovered(job, i);
    MadeDirsRooted(t, to);
    MadeDirsConfined(t, to, to);
    WorksBelow(t, MakeDirs(t, to), job, i, {to});
    assert to in {from, to} && to <= to;
    ConfinedBelow(t, MakeDirs(t, to), to, {from, to});
    SubOfNewDir(t, to);
    AbsentIsEmpty(t, from);
    SubOfMadeDirs(t, to, from);
  }

  lemma RelocationKeeps(first: Tree<Content>, t: Tree<Content>, u: Tree<Content>, job: Job, i: nat)
    requires Tame(first, job) && i < |job.services| && Rooted(t) && Waiting(first, t, job, i, i)
    requires Relocated(t, job, i) == Some(u)
    ensures MovedData(t, u, job, i, DataOf(Remaining(first, job, i), job, i))
  {
    hide MoveTree, MakeDirs, MovedData, Remaining, CanReplace;
    var from := job.OldDir(i);
    assert job.services[i] in job.services;
    PlacesApart(first, job, i, i);
    NamesReach(t, job.ServicesRoot(), job.KeyOf(i));
    RootEntry(t, from);
    RootEntry(Remaining(first, job, i), from);
    if from in t {
      MoveMoves(t, MakeDirs(t, Parent(job.DataDir(i))), job, i);
    } else {
      CreateMoves(t, job, i);
    }
  }

  /** The old directory is gone, the files are in place, and the id is still free. */
  ghost predicate Halfway(first: Tree<Content>, t: Tree<Content>, job: Job, i: nat)
    requires i < |job.services| == |job.ids|
  {
    Rooted(t) && DataKept(Remaining(first, job, i), t, job, i) && IsAt(t, job.OldDir(i), map[]) && IsAt(t, job.ServiceDir(i), map[])
  }

  lemma EmptyStaysAway(t: Tree<Content>, u: Tree<Content>, job: Job, i: nat)
    requires i < |job.services| == |job.ids| && Confined(t, u, {job.DataDir(i), job.ArtifactsDir(i)})
    requires Apart(job.DataDir(i), job.ServiceDir(i)) && Apart(job.ArtifactsDir(i), job.ServiceDir(i))
    requires Apart(job.DataDir(i), job.OldDir(i)) && Apart(job.ArtifactsDir(i), job.OldDir(i))
    ensures IsAt(u, job.ServiceDir(i), Sub(t, job.ServiceDir(i))) && IsAt(u, job.OldDir(i), Sub(t, job.OldDir(i)))
  {
    ConfinedSub(t, u, {job.DataDir(i), job.ArtifactsDir(i)}, job.ServiceDir(i));
    ConfinedSub(t, u, {job.DataDir(i), job.ArtifactsDir(i)}, job.OldDir(i));
  }

  lemma WriteConfined(t: Tree<Content>, p: Path, e: Entry<Content>)
    ensures Confined(t, t[p := e], {p})
  {
  }

  lemma RemovalConfined(t: Tree<Content>, p: Path)
    ensures Confined(t, RemoveTree(t, p), {p})
  {
  }

  /** The component among the artifacts, in a directory that is new. */
  lemma ComponentCopied(made: Tree<Content>, data: Path, artifacts: Path, p: Path)
    requires Apart(data, artifacts) && IsAt(made, artifacts, EMPTY_DIRECTORY)
    requires data + p in made
    ensures var copied := made[ComponentFile(artifacts) := made[data + p]];
            && p in Sub(made, data) && Sub(made, data)[p] == made[data + p] && IsAt(copied, data, Sub(made, data))
            && IsAt(copied, artifacts, map[[] := Directory, ["component.wasm"] := made[data + p]])
            && Confined(made, copied, {data, artifacts})
  {
    var to := ComponentFile(artifacts);
    var copied := made[to := made[data + p]];
    SubAt(made, data, p);
    WriteConfined(made, to, made[data + p]);
    assert artifacts in {data, artifacts} && artifacts <= to;
    ConfinedBelow(made, copied, to, {data, artifacts});
    SubOfWrite(made, artifacts, ["component.wasm"], made[data + p]);
    ApartBelowOne(data, artifacts, "component.wasm");
    ConfinedSub(made, copied, {to}, data);
  }

  lemma ComponentRemoved(t: Tree<Content>, data: Path, artifacts: Path, p: Path)
    requires Apart(data, artifacts)
    ensures var u := RemoveTree(t, data + p);
            IsAt(u, data, RemoveTree(Sub(t, data), p)) && IsAt(u, artifacts, Sub(t, artifacts)) && Confined(t, u, {data, artifacts})
  {
    var u := RemoveTree(t, data + p);
    SubOfRemoval(t, data, p);
    RemovalConfined(t, data + p);
    assert data in {data, artifacts} && data <= data + p;
    ConfinedBelow(t, u, data + p, {data, artifacts});
    ConfinedBelow(t, u, data + p, {data});
    ConfinedSub(t, u, {data}, artifacts);
  }

  /** What the move of a component leaves in the two directories. */
  lemma ComponentArrives(t: Tree<Content>, data: Path, artifacts: Path, p: Path)
    requires Rooted(t) && Apart(data, artifacts) && artifacts !in t
    requires var made := MakeDirs(t, artifacts); data + p in made && made[data + p].File?
    ensures var made := MakeDirs(t, artifacts);
            var u := RemoveTree(made[ComponentFile(artifacts) := made[data + p]], data + p);
            && p in Sub(t, data) && Sub(t, data)[p].File? && IsAt(u, data, RemoveTree(Sub(t, data), p))
            && IsAt(u, artifacts, map[[] := Directory, ["component.wasm"] := Sub(t, data)[p]])
            && Confined(t, u, {data, artifacts})
  {
    hide MakeDirs, RemoveTree, Sub, Confined, ComponentFile;
    var made := MakeDirs(t, artifacts);
    var copied := made[ComponentFile(artifacts) := made[data + p]];
    SubOfNewDir(t, artifacts);
    SubOfMadeDirs(t, artifacts, data);
    MadeDirsConfined(t, artifacts, artifacts);
    assert artifacts in {data, artifacts} && artifacts <= artifacts;
    ConfinedBelow(t, made, artifacts, {data, artifacts});
    ComponentCopied(made, data, artifacts, p);
    ComponentRemoved(copied, data, artifacts, p);
    ConfinedTrans(t, made, copied, {data, artifacts});
    ConfinedTrans(t, copied, RemoveTree(copied, data + p), {data, artifacts});
  }

  lemma ConfinedBelow(t: Tree<Content>, u: Tree<Content>, p: Path, roots: set<Path>)
    requires Confined(t, u, {p}) && Covered(p, roots)
    ensures Confined(t, u, roots)
  {
    ConfinedWiden(t, u, {p}, roots);
  }

  /** The move of the data leaves the other two places of the service empty. */
  lemma NotTouchedYet(first: Tree<Content>, t: Tree<Content>, u: Tree<Content>, job: Job, i: nat)
    requires Tame(first, job) && i < |job.services| && Waiting(first, t, job, i, i) && Confined(t, u, {job.OldDir(i), job.DataDir(i)})
    ensures IsAt(u, job.ServiceDir(i), map[]) && IsAt(u, job.ArtifactsDir(i), map[])
  {
    hide Remaining, Confined;
    PlacesApart(first, job, i, i);
    ConfinedSub(t, u, {job.OldDir(i), job.DataDir(i)}, job.ServiceDir(i));
    ConfinedSub(t, u, {job.OldDir(i), job.DataDir(i)}, job.ArtifactsDir(i));
  }

  lemma ComponentSettles(first: Tree<Content>, u: Tree<Content>, v: Tree<Content>, job: Job, i: nat)
    requires Tame(first, job) && i < |job.services| && Rooted(u) && job.ComponentSuffix(i).Some? && WithComponent(u, job, i) == Some(v)
    requires IsAt(u, job.DataDir(i), DataOf(Remaining(first, job, i), job, i)) && IsAt(u, job.ArtifactsDir(i), map[])
    ensures DataKept(Remaining(first, job, i), v, job, i) && Confined(u, v, {job.DataDir(i), job.ArtifactsDir(i)})
  {
    hide Remaining, RemoveTree, Confined, Thinned, MakeDirs, Reaches, SuffixOf, DataOf, Sub, ComponentFile;
    PlacesApart(first, job, i, i);
    TamePlaces(job, i);
    AbsentIsEmpty(u, job.ArtifactsDir(i));
    ComponentArrives(u, job.DataDir(i), job.ArtifactsDir(i), NamesIn(job.ComponentSuffix(i).value));
  }

  lemma ComponentKeeps(first: Tree<Content>, t: Tree<Content>, u: Tree<Content>, v: Tree<Content>, job: Job, i: nat)
    requires Tame(first, job) && i < |job.services| && Waiting(first, t, job, i, i)
    requires MovedData(t, u, job, i, DataOf(Remaining(first, job, i), job, i)) && WithComponent(u, job, i) == Some(v)
    ensures Halfway(first, v, job, i) && Works(t, v, job, i)
  {
    hide Remaining, RemoveTree, Confined, Thinned, MakeDirs, Reaches, SuffixOf, DataOf, Waiting, Works;
    PlacesApart(first, job, i, i);
    NotTouchedYet(first, t, u, job, i);
    MigrationServicesReach.ComponentRooted(u, v, job, i);
    if job.ComponentSuffix(i).Some? {
      ComponentSettles(first, u, v, job, i);
      EmptyStaysAway(u, v, job, i);
      NewRootsCovered(job, i);
      WorksBelow(u, v, job, i, {job.DataDir(i), job.ArtifactsDir(i)});
      WorksTrans(t, u, v, job, i);
    }
  }

  /** The two files under the new id. */
  lemma DescriptionSettles(t: Tree<Content>, u: Tree<Content>, job: Job, i: nat)
    requires i < |job.services| == |job.ids| && Rooted(t) && IsAt(t, job.ServiceDir(i), map[])
    requires WithDescription(t, job.ServiceDir(i), job.DocumentOf(i), job.StateOf(i)) == Some(u)
    ensures Rooted(u) && DescribedAt(u, job, i) && Confined(t, u, {job.ServiceDir(i)})
  {
    hide Sub, MakeDirs, Confined, CanHoldDirs;
    var dir := job.ServiceDir(i);
    var made := MakeDirs(t, dir);
    var manifest, status := dir + ["service.yaml"], dir + ["state.json"];
    var written := made[manifest := Entry.File(Manifest(job.DocumentOf(i)))];
    MigrationServicesReach.DescriptionRooted(t, u, dir, job.DocumentOf(i), job.StateOf(i));
    AbsentIsEmpty(t, dir);
    SubOfNewDir(t, dir);
    SubOfWrite(made, dir, ["service.yaml"], Entry.File(Manifest(job.DocumentOf(i))));
    SubOfWrite(written, dir, ["state.json"], Entry.File(State(job.StateOf(i))));
    MadeDirsConfined(t, dir, dir);
    WriteConfined(made, manifest, Entry.File(Manifest(job.DocumentOf(i))));
    WriteConfined(written, status, Entry.File(State(job.StateOf(i))));
    assert dir in {dir} && dir <= manifest && dir <= status;
    ConfinedBelow(made, written, manifest, {dir});
    ConfinedBelow(written, u, status, {dir});
    ConfinedTrans(t, made, written, {dir});
    ConfinedTrans(t, written, u, {dir});
  }

  lemma DataStaysKept(first: Tree<Content>, t: Tree<Content>, u: Tree<Content>, job: Job, i: nat)
    requires i < |job.services| == |job.ids| && DataKept(first, t, job, i)
    requires IsAt(u, job.DataDir(i), Sub(t, job.DataDir(i))) && IsAt(u, job.ArtifactsDir(i), Sub(t, job.ArtifactsDir(i)))
    ensures DataKept(first, u, job, i)
  {
    hide Sub, RemoveTree, DataOf, SuffixOf;
  }

  lemma DescriptionKeeps(first: Tree<Content>, t: Tree<Content>, u: Tree<Content>, job: Job, i: nat)
    requires Tame(first, job) && i < |job.services| && Halfway(first, t, job, i)
    requires WithDescription(t, job.ServiceDir(i), job.DocumentOf(i), job.StateOf(i)) == Some(u)
    ensures Rooted(u) && Settled(first, u, job, i) && Works(t, u, job, i)
  {
    hide Remaining, DataKept, Confined, WithDescription, Works, Sub;
    DescriptionSettles(t, u, job, i);
    PlacesApart(first, job, i, i);
    ConfinedSub(t, u, {job.ServiceDir(i)}, job.DataDir(i));
    ConfinedSub(t, u, {job.ServiceDir(i)}, job.ArtifactsDir(i));
    ConfinedSub(t, u, {job.ServiceDir(i)}, job.OldDir(i));
    DataStaysKept(Remaining(first, job, i), t, u, job, i);
    NewRootsCovered(job, i);
    WorksBelow(t, u, job, i, {job.ServiceDir(i)});
  }

  /** One service: it is settled, and has touched no more than it may. */
  lemma ServiceSettles(first: Tree<Content>, t: Tree<Content>, u: Tree<Content>, job: Job, i: nat)
    requires Tame(first, job) && i < |job.services| && Rooted(t) && Waiting(first, t, job, i, i)
    requires AfterService(t, job, i) == Some(u)
    ensures Rooted(u) && Settled(first, u, job, i) && Works(t, u, job, i)
  {
    hide Waiting, Settled, Works, MovedData, Halfway, Relocated, WithComponent, WithDescription, Remaining, DataOf;
    var moved := Relocated(t, job, i).value;
    var data := WithComponent(moved, job, i).value;
    RelocationKeeps(first, t, moved, job, i);
    ComponentKeeps(first, t, moved, data, job, i);
    DescriptionKeeps(first, data, u, job, i);
    WorksTrans(t, data, u, job, i);
  }

  // ---------- the other services ----------

  lemma EntryStays(t: Tree<Content>, u: Tree<Content>, job: Job, i: nat, q: Path)
    requires i < |job.services| == |job.ids| && Works(t, u, job, i)
    requires !(job.OldDir(i) <= q) && Apart(q, job.DataDir(i)) && Apart(q, job.ArtifactsDir(i)) && Apart(q, job.ServiceDir(i))
    ensures (q in u <==> q in t) && (q in t ==> u[q] == t[q])
  {
    assert !Covered(q, NewRoots(job, i)) && !AboveSome(q, NewRoots(job, i));
    assert !Covered(q, NewRoots(job, i) + {job.OldDir(i)});
  }

  lemma ApartInside(a: Path, b: Path, q: Path)
    requires Apart(a, b) && a <= q
    ensures Apart(q, b)
  {
  }

  /** What the old directory of another service loses: what lay in that of service `i`. */
  lemma OldDirLosesIts(first: Tree<Content>, t: Tree<Content>, u: Tree<Content>, job: Job, i: nat, j: nat)
    requires Tame(first, job) && i < |job.services| && j < |job.services| && Works(t, u, job, i) && IsAt(u, job.OldDir(i), map[])
    ensures IsAt(u, job.OldDir(j), Sub(RemoveTree(t, job.OldDir(i)), job.OldDir(j)))
  {
    hide Works, NamesOnly, FreshIds, Apart;
    var p, less := job.OldDir(j), RemoveTree(t, job.OldDir(i));
    PlacesApart(first, job, j, i);
    forall q | p <= q ensures (q in u <==> q in less) && (q in u ==> u[q] == less[q]) {
      if job.OldDir(i) <= q {
        SubAt(u, job.OldDir(i), q[|job.OldDir(i)|..]);
        assert job.OldDir(i) + q[|job.OldDir(i)|..] == q;
      } else {
        ApartInside(p, job.DataDir(i), q);
        ApartInside(p, job.ArtifactsDir(i), q);
        ApartInside(p, job.ServiceDir(i), q);
        EntryStays(t, u, job, i, q);
      }
    }
    SameBelow(u, less, p);
  }

  lemma WaitsOn(first: Tree<Content>, t: Tree<Content>, u: Tree<Content>, job: Job, i: nat, j: nat)
    requires Tame(first, job) && i < j < |job.services| && Works(t, u, job, i) && IsAt(u, job.OldDir(i), map[])
    requires Waiting(first, t, job, i, j)
    ensures Waiting(first, u, job, i + 1, j)
  {
    hide Works, Sub, RemoveTree, NamesOnly, FreshIds, Rooted;
    var left := Remaining(first, job, i);
    OldDirLosesIts(first, t, u, job, i, j);
    AgreeAfterRemoval(t, left, job.OldDir(i), job.OldDir(j));
    assert Remaining(first, job, i + 1) == RemoveTree(left, job.OldDir(i));
    PlacesApart(first, job, i, j);
    PlacesApart(first, job, j, i);
    StaysAt(t, u, job, i, job.ServiceDir(j));
    StaysAt(t, u, job, i, job.ArtifactsDir(j));
  }

  lemma AgreeAfterRemoval(t: Tree<Content>, u: Tree<Content>, gone: Path, p: Path)
    requires IsAt(t, p, Sub(u, p))
    ensures Sub(RemoveTree(t, gone), p) == Sub(RemoveTree(u, gone), p)
  {
    var less, fewer := RemoveTree(t, gone), RemoveTree(u, gone);
    forall q | p <= q ensures (q in less <==> q in fewer) && (q in less ==> less[q] == fewer[q]) {
      var r := q[|p|..];
      assert p + r == q;
      SubAt(t, p, r);
      SubAt(u, p, r);
    }
    SameBelow(less, fewer, p);
  }

  lemma SettledOn(first: Tree<Content>, t: Tree<Content>, u: Tree<Content>, job: Job, i: nat, j: nat)
    requires Tame(first, job) && j < i < |job.services| && Works(t, u, job, i) && IsAt(u, job.OldDir(i), map[])
    requires Settled(first, t, job, j)
    ensures Settled(first, u, job, j)
  {
    hide Works, Sub, DataKept, NamesOnly, FreshIds, Rooted, Remaining;
    PlacesApart(first, job, i, j);
    PlacesApart(first, job, j, i);
    StaysAt(t, u, job, i, job.DataDir(j));
    StaysAt(t, u, job, i, job.ArtifactsDir(j));
    StaysAt(t, u, job, i, job.ServiceDir(j));
    DataStaysKept(Remaining(first, job, j), t, u, job, j);
    OldDirLosesIts(first, t, u, job, i, j);
    NothingLeft(t, job.OldDir(i), job.OldDir(j));
  }

  lemma NothingLeft(t: Tree<Content>, gone: Path, p: Path)
    requires IsAt(t, p, map[])
    ensures Sub(RemoveTree(t, gone), p) == map[]
  {
    forall r ensures r !in Sub(RemoveTree(t, gone), p) {
      SubAt(RemoveTree(t, gone), p, r);
      SubAt(t, p, r);
    }
  }

  /** The first `n` services are settled, and the others wait. */
  ghost predicate InPhase(first: Tree<Content>, t: Tree<Content>, job: Job, n: nat)
    requires n <= |job.services| == |job.ids|
  {
    Rooted(t) && (forall i :: 0 <= i < n ==> Settled(first, t, job, i))
    && (forall i :: n <= i < |job.services| ==> Waiting(first, t, job, n, i))
  }

  lemma StartsWaiting(first: Tree<Content>, job: Job)
    requires Tame(first, job)
    ensures InPhase(first, first, job, 0)
  {
    forall i | 0 <= i < |job.services| ensures Waiting(first, first, job, 0, i) {
      AbsentIsEmpty(first, job.ServiceDir(i));
      AbsentIsEmpty(first, job.ArtifactsDir(i));
    }
  }

  lemma NextPhase(first: Tree<Content>, t: Tree<Content>, u: Tree<Content>, job: Job, i: nat)
    requires Tame(first, job) && i < |job.services| && InPhase(first, t, job, i) && AfterService(t, job, i) == Some(u)
    ensures InPhase(first, u, job, i + 1)
  {
    hide AfterService, Waiting, Works, NamesOnly, FreshIds, DataKept, DescribedAt, Sub, Remaining;
    assert Waiting(first, t, job, i, i);
    ServiceSettles(first, t, u, job, i);
    var n := i + 1;
    forall j | 0 <= j < n ensures Settled(first, u, job, j) {
      if j < i {
        SettledOn(first, t, u, job, i, j);
      }
    }
    forall j | n <= j < |job.services| ensures Waiting(first, u, job, n, j) {
      WaitsOn(first, t, u, job, i, j);
    }
  }

  lemma {:induction false} EveryPhase(first: Tree<Content>, t: Tree<Content>, job: Job, n: nat)
    requires Tame(first, job) && n <= |job.services| && AfterServices(first, job, n) == Some(t)
    ensures InPhase(first, t, job, n)
    decreases n
  {
    hide AfterService, InPhase, NamesOnly, FreshIds, Rooted;
    if n > 0 {
      var before := AfterServices(first, job, n - 1).value;
      EveryPhase(first, before, job, n - 1);
      NextPhase(first, before, t, job, n - 1);
    } else {
      StartsWaiting(first, job);
    }
  }

  lemma StateFileApart(job: Job, i: nat)
    requires i < |job.services| == |job.ids| && NamesOnly(job.live, job.services)
    ensures Apart(job.StateFile(), job.OldDir(i)) && Apart(job.StateFile(), job.DataDir(i))
    ensures Apart(job.StateFile(), job.ArtifactsDir(i)) && Apart(job.StateFile(), job.ServiceDir(i))
  {
    var n := |job.staging|;
    KeysHaveNames(job, i);
    assert job.OldDir(i)[n] == "services" && job.StateFile()[n] == LEGACY_SERVICE_STATE_FILE;
    ApartAt(job.StateFile(), job.OldDir(i), n);
    ApartAt(job.StateFile(), job.DataDir(i), n);
    ApartAt(job.StateFile(), job.ArtifactsDir(i), n);
    ApartAt(job.StateFile(), job.ServiceDir(i), n);
  }

  /**
   * Done, every service has the files that earlier services left of its old directory under its new id,
   * with the same relative paths and contents (the managed component is among the artifacts), is
   * described by its new manifest and state file, and its old directory is gone.
   */
  lemma EveryServiceIsSettled(first: Tree<Content>, t: Tree<Content>, job: Job, i: nat)
    requires Tame(first, job) && IsDone(first, t, job) && i < |job.services|
    ensures Settled(first, t, job, i)
    ensures IsDescribedIn(t, job.staging + ["services", job.ids[i]], job.services[i],
                          job.live + [Normal("services")] + ComponentsOf(job.services[i].key), job.ids[i], job.updatedAt)
  {
    hide AfterServices, NamesOnly, FreshIds, Rooted, Waiting, DataKept, Sub, Remaining, IsDescribedIn, ComponentsOf;
    var u := AfterServices(first, job, |job.services|).value;
    EveryPhase(first, u, job, |job.services|);
    assert Settled(first, u, job, i);
    StateFileApart(job, i);
    SubOfRemoved(u, job.StateFile(), job.OldDir(i));
    SubOfRemoved(u, job.StateFile(), job.DataDir(i));
    SubOfRemoved(u, job.StateFile(), job.ArtifactsDir(i));
    SubOfRemoved(u, job.StateFile(), job.ServiceDir(i));
    DataStaysKept(Remaining(first, job, i), u, t, job, i);
    SettledFields(first, t, job, i);
  }

  /** A service that is settled is described by its manifest and its state, field by field. */
  lemma SettledFields(first: Tree<Content>, t: Tree<Content>, job: Job, i: nat)
    requires i < |job.services| == |job.ids| && Settled(first, t, job, i)
    ensures IsDescribedIn(t, job.staging + ["services", job.ids[i]], job.services[i],
                          job.live + [Normal("services")] + ComponentsOf(job.services[i].key), job.ids[i], job.updatedAt)
  {
    hide DataKept, Remaining, Describes, ComponentsOf;
    var dir := job.staging + ["services", job.ids[i]];
    assert dir == job.ServiceDir(i);
    DocumentFields(job, i);
    SubAt(t, dir, ["service.yaml"]);
    SubAt(t, dir, ["state.json"]);
  }

  /**
   * What it is for the files of a service to be kept: each is below its id in the data directory, with the
   * same path as in the old directory, but for the managed component, which is in the artifacts directory.
   */
  lemma KeptFields(first: Tree<Content>, t: Tree<Content>, job: Job, i: nat, r: Path)
    requires i < |job.services| == |job.ids| && NamesOnly(job.live, job.services) && DataKept(first, t, job, i)
    ensures var service := job.services[i];
            var before := job.staging + ["services"] + NamesIn(ComponentsOf(service.key));
            var data := job.staging + ["appdata", "services", job.ids[i]];
            var oldDir := job.live + [Normal("services")] + ComponentsOf(service.key);
            if service.manifest.source.WasmtimeFile? && oldDir <= ComponentsOf(service.manifest.source.component)
            then
              var part := NamesIn(ComponentsOf(service.manifest.source.component)[|oldDir|..]);
              var component := job.staging + ["artifacts", "services", job.ids[i], "component.wasm"];
              && before + part in first && first[before + part].File?
              && component in t && t[component] == first[before + part]
              && (data + r in t <==> before + r in first && !(part <= r))
              && (data + r in t ==> t[data + r] == first[before + r])
            else before in first ==>
              (data + r in t <==> before + r in first) && (data + r in t ==> t[data + r] == first[before + r])
  {
    hide Sub, ComponentsOf, NamesIn, AllNames;
    KeysHaveNames(job, i);
    var before, data := job.OldDir(i), job.DataDir(i);
    SubAt(first, before, r);
    SubAt(t, data, r);
    if job.ComponentSuffix(i).Some? {
      var part := NamesIn(job.ComponentSuffix(i).value);
      SubAt(first, before, part);
      SubAt(t, job.ArtifactsDir(i), ["component.wasm"]);
      assert job.ArtifactsDir(i) + ["component.wasm"] == job.staging + ["artifacts", "services", job.ids[i], "component.wasm"];
    }
  }

  // ---------- when nothing is lost ----------

  /**
   * Service `i`, which comes first, carries off files of service `j`: its old directory is that of `j` or
   * above it and `j` has files, or it lies in that of `j` and is there.
   */
  ghost predicate Overruns(first: Tree<Content>, job: Job, i: nat, j: nat)
    requires i < |job.services| && j < |job.services|
  {
    if job.OldDir(i) <= job.OldDir(j) then HasData(first, job, j)
    else job.OldDir(j) <= job.OldDir(i) && job.OldDir(i) in first
  }

  lemma {:induction false} RemainingEntry(first: Tree<Content>, job: Job, n: nat, q: Path)
    requires n <= |job.services|
    ensures q in Remaining(first, job, n) <==> q in first && forall i :: 0 <= i < n ==> !(job.OldDir(i) <= q)
    ensures q in Remaining(first, job, n) ==> Remaining(first, job, n)[q] == first[q]
  {
    if n > 0 {
      RemainingEntry(first, job, n - 1, q);
    }
  }

  lemma Untouched(first: Tree<Content>, job: Job, j: nat)
    requires Rooted(first) && j < |job.services| && forall i :: 0 <= i < j ==> !Overruns(first, job, i, j)
    ensures DataOf(Remaining(first, job, j), job, j) == DataOf(first, job, j)
  {
    var p, left := job.OldDir(j), Remaining(first, job, j);
    RemainingEntry(first, job, j, p);
    if i :| 0 <= i < j && job.OldDir(i) <= p {
      assert !Overruns(first, job, i, j);
    } else {
      forall q | p <= q ensures (q in left <==> q in first) && (q in left ==> left[q] == first[q]) {
        RemainingEntry(first, job, j, q);
        forall i | 0 <= i < j && job.OldDir(i) <= q ensures q !in first {
          assert !Overruns(first, job, i, j);
          Prefixes(job.OldDir(i), p, q);
          NothingBelow(first, job.OldDir(i), q[|job.OldDir(i)|..]);
          assert job.OldDir(i) + q[|job.OldDir(i)|..] == q;
        }
      }
      SameBelow(left, first, p);
    }
  }

  lemma Prefixes(a: Path, b: Path, q: Path)
    requires a <= q && b <= q
    ensures a <= b || b <= a
  {
  }

  lemma Touched(first: Tree<Content>, job: Job, i: nat, j: nat)
    requires Rooted(first) && i < j < |job.services| && Overruns(first, job, i, j)
    ensures DataOf(Remaining(first, job, j), job, j) != DataOf(first, job, j)
  {
    var p, q, left := job.OldDir(j), job.OldDir(i), Remaining(first, job, j);
    RemainingEntry(first, job, j, p);
    if !(q <= p) {
      RemainingEntry(first, job, j, q);
      var r := q[|p|..];
      assert p + r == q && r != [] && q[..|p|] == p;
      PrefixIsDirectory(first, q, |p|);
      SubAt(first, p, r);
      SubAt(left, p, r);
    }
  }

  predicate IsLeaf(t: Tree<Content>, p: Path) {
    p in t && forall q <- t :: p <= q ==> q == p
  }

  lemma LeafDecides(c: Tree<Content>, d: Tree<Content>, p: Path)
    requires IsLeaf(c, p) && IsLeaf(d, p) && RemoveTree(c, p) == RemoveTree(d, p) && c[p] == d[p]
    ensures c == d
  {
    forall q ensures q in c <==> q in d
      ensures q in c ==> c[q] == d[q]
    {
      assert q in RemoveTree(c, p) <==> q in RemoveTree(d, p);
      if q in RemoveTree(c, p) {
        assert RemoveTree(c, p)[q] == c[q] && RemoveTree(d, p)[q] == d[q];
      }
    }
  }

  lemma SameArtifact(a: Entry<Content>, b: Entry<Content>)
    requires map[[] := Directory, ["component.wasm"] := a] == map[[] := Directory, ["component.wasm"] := b]
    ensures a == b
  {
    assert map[[] := Directory, ["component.wasm"] := a][["component.wasm"]] == a;
    assert map[[] := Directory, ["component.wasm"] := b][["component.wasm"]] == b;
  }

  /** What keeps the data determines it. */
  lemma KeptDecides(a: Tree<Content>, b: Tree<Content>, t: Tree<Content>, job: Job, j: nat)
    requires j < |job.services| == |job.ids| && Rooted(a) && Rooted(b)
    requires DataKept(a, t, job, j) && DataKept(b, t, job, j)
    ensures DataOf(a, job, j) == DataOf(b, job, j)
  {
    hide SuffixOf, NamesIn, DataOf, Sub, RemoveTree, Rooted;
    if job.ComponentSuffix(j).Some? {
      var p := NamesIn(job.ComponentSuffix(j).value);
      FileIsALeaf(a, job, j, p);
      FileIsALeaf(b, job, j, p);
      SameArtifact(DataOf(a, job, j)[p], DataOf(b, job, j)[p]);
      LeafDecides(DataOf(a, job, j), DataOf(b, job, j), p);
    }
  }

  lemma FileIsALeaf(t: Tree<Content>, job: Job, j: nat, p: Path)
    requires Rooted(t) && j < |job.services| && p in DataOf(t, job, j) && DataOf(t, job, j)[p].File?
    ensures IsLeaf(DataOf(t, job, j), p)
  {
    var root := job.OldDir(j);
    SubAt(t, root, p);
    forall q <- DataOf(t, job, j) | p <= q ensures q == p {
      SubAt(t, root, q);
      if q != p {
        PrefixBelow(root, p, q);
        assert (root + q)[..|root + p|] == root + p;
        PrefixIsDirectory(t, root + q, |root + p|);
      }
    }
  }

  lemma {:induction false} RemainingRooted(first: Tree<Content>, job: Job, n: nat)
    requires Rooted(first) && n <= |job.services| == |job.ids| && NamesOnly(job.live, job.services)
    ensures Rooted(Remaining(first, job, n))
  {
    hide Rooted, RemoveTree, NamesOnly;
    if n > 0 {
      RemainingRooted(first, job, n - 1);
      KeysHaveNames(job, n - 1);
      RemovedRooted(Remaining(first, job, n - 1), job.OldDir(n - 1));
    }
  }

  lemma SettledKeptIff(first: Tree<Content>, t: Tree<Content>, job: Job, j: nat)
    requires Rooted(first) && j < |job.services| == |job.ids| && NamesOnly(job.live, job.services) && Settled(first, t, job, j)
    ensures DataKept(first, t, job, j) <==> forall i :: 0 <= i < j ==> !Overruns(first, job, i, j)
  {
    hide NamesOnly, Rooted, DataOf, Overruns, Remaining;
    var left := Remaining(first, job, j);
    RemainingRooted(first, job, j);
    if i :| 0 <= i < j && Overruns(first, job, i, j) {
      Touched(first, job, i, j);
      if DataKept(first, t, job, j) {
        KeptDecides(first, left, t, job, j);
      }
    } else {
      Untouched(first, job, j);
      SameDataKept(left, first, t, job, j);
    }
  }

  /**
   * The law of the step, exactly: done, service `j` has every file it had, if and only if no earlier
   * service carries off any of them.
   */
  lemma KeptIff(first: Tree<Content>, t: Tree<Content>, job: Job, j: nat)
    requires Tame(first, job) && IsDone(first, t, job) && j < |job.services|
    ensures DataKept(first, t, job, j) <==> forall i :: 0 <= i < j ==> !Overruns(first, job, i, j)
  {
    EveryServiceIsSettled(first, t, job, j);
    SettledKeptIff(first, t, job, j);
  }

  lemma SameDataKept(a: Tree<Content>, b: Tree<Content>, t: Tree<Content>, job: Job, j: nat)
    requires j < |job.services| == |job.ids| && DataOf(a, job, j) == DataOf(b, job, j) && DataKept(a, t, job, j)
    ensures DataKept(b, t, job, j)
  {
  }

  // ---------- a key below another ----------

  lemma CarriesOff(first: Tree<Content>, job: Job, i: nat, j: nat)
    requires i < |job.services| && j < |job.services| && job.OldDir(i) <= job.OldDir(j) && HasData(first, job, j)
    ensures Overruns(first, job, i, j)
  {
  }

  /** `a` and `a/b`, as keys. */
  lemma NestedKeys(job: Job)
    requires |job.services| >= 2 && job.services[0].key == "a" && job.services[1].key == "a/b"
    ensures job.KeyOf(0) == [Normal("a")] && job.KeyOf(1) == [Normal("a"), Normal("b")]
    ensures job.OldDir(0) == job.ServicesRoot() + ["a"] && job.OldDir(1) == job.OldDir(0) + ["b"]
  {
    var a, b := [Normal("a")], [Normal("a"), Normal("b")];
    assert "a" == JoinParts(a);
    assert b[1..] == [Normal("b")] && JoinParts(b) == "a" + "/" + "b" == "a/b";
    JoinedParts(a);
    JoinedParts(b);
    SplitOfPart("a");
    SplitJoins("a", "b");
    StartMatters(Split("a"));
    StartMatters(Split("a/b"));
    TargetOfNames(job.ServicesRoot(), a);
    TargetOfNames(job.ServicesRoot(), b);
    assert NamesIn(a[1..]) == [] && NamesIn(b[1..]) == ["b"] by {
      assert b[1..][1..] == [];
    }
    assert job.ServicesRoot() + ["a", "b"] == job.ServicesRoot() + ["a"] + ["b"];
  }

  /**
   * Of two services called `a` and `a/b`, the second one with files, the migration takes the directory of
   * `a` to its new place with that of `a/b` in it. Service `a/b` ends up without its files.
   */
  lemma NestedServiceLosesItsFiles(first: Tree<Content>, t: Tree<Content>, job: Job)
    requires Tame(first, job) && IsDone(first, t, job)
    requires |job.services| == 2 && job.services[0].key == "a" && job.services[1].key == "a/b"
    requires job.ComponentSuffix(0).None? && HasData(first, job, 1)
    ensures !DataKept(first, t, job, 1)
    ensures IsAt(t, job.DataDir(0) + ["b"], DataOf(first, job, 1))
  {
    hide AfterServices, NamesOnly, FreshIds, Overruns, SuffixOf;
    NestedKeys(job);
    CarriesOff(first, job, 0, 1);
    KeptIff(first, t, job, 1);
    EveryServiceIsSettled(first, t, job, 0);
    var a := job.OldDir(0);
    assert (a + ["b"])[..|a|] == a;
    PrefixIsDirectory(first, a + ["b"], |a|);
    AgreeInside(t, job.DataDir(0), first, a, ["b"]);
  }

  // ---------- the same step, seen from another directory ----------

  /** The three directories of the services hold the same. */
  ghost predicate SameRoots(t: Tree<Content>, job: Job, u: Tree<Content>, other: Job) {
    SubsAgree(t, job.ServicesRoot(), u, other.ServicesRoot())
    && SubsAgree(t, job.staging + ["appdata", "services"], u, other.staging + ["appdata", "services"])
    && SubsAgree(t, job.staging + ["artifacts", "services"], u, other.staging + ["artifacts", "services"])
  }

  lemma PlacesAgree(t: Tree<Content>, job: Job, u: Tree<Content>, other: Job, i: nat)
    requires i < |job.services| == |job.ids| && NamesOnly(job.live, job.services) && other == job.(staging := other.staging)
    requires SameRoots(t, job, u, other)
    ensures SubsAgree(t, job.OldDir(i), u, other.OldDir(i)) && SubsAgree(t, job.ServiceDir(i), u, other.ServiceDir(i))
    ensures SubsAgree(t, job.DataDir(i), u, other.DataDir(i)) && SubsAgree(t, job.ArtifactsDir(i), u, other.ArtifactsDir(i))
  {
    hide NamesOnly, Sub;
    KeysHaveNames(job, i);
    KeysHaveNames(other, i);
    AgreeInside(t, job.ServicesRoot(), u, other.ServicesRoot(), KeyPath(job.services[i].key));
    AgreeInside(t, job.ServicesRoot(), u, other.ServicesRoot(), [job.ids[i]]);
    AgreeInside(t, job.staging + ["appdata", "services"], u, other.staging + ["appdata", "services"], [job.ids[i]]);
    AgreeInside(t, job.staging + ["artifacts", "services"], u, other.staging + ["artifacts", "services"], [job.ids[i]]);
    NewDirs(job, i);
    NewDirs(other, i);
  }

  lemma NewDirs(job: Job, i: nat)
    requires i < |job.ids|
    ensures job.DataDir(i) == job.staging + ["appdata", "services"] + [job.ids[i]]
    ensures job.ArtifactsDir(i) == job.staging + ["artifacts", "services"] + [job.ids[i]]
    ensures job.ServiceDir(i) == job.ServicesRoot() + [job.ids[i]]
  {
  }

  lemma {:induction false} RemainingAgrees(t: Tree<Content>, job: Job, u: Tree<Content>, other: Job, n: nat)
    requires n <= |job.services| == |job.ids| && NamesOnly(job.live, job.services) && other == job.(staging := other.staging)
    requires SubsAgree(t, job.ServicesRoot(), u, other.ServicesRoot())
    ensures SubsAgree(Remaining(t, job, n), job.ServicesRoot(), Remaining(u, other, n), other.ServicesRoot())
  {
    hide NamesOnly, Sub, RemoveTree, SubsAgree, ComponentsOf, NamesIn, Target;
    if n > 0 {
      RemainingAgrees(t, job, u, other, n - 1);
      KeysHaveNames(job, n - 1);
      KeysHaveNames(other, n - 1);
      var key := KeyPath(job.services[n - 1].key);
      RemovalAgrees(Remaining(t, job, n - 1), job.ServicesRoot(), Remaining(u, other, n - 1), other.ServicesRoot(), key);
    }
  }

  lemma RemovalAgrees(t: Tree<Content>, p: Path, u: Tree<Content>, q: Path, key: Path)
    requires SubsAgree(t, p, u, q)
    ensures SubsAgree(RemoveTree(t, p + key), p, RemoveTree(u, q + key), q)
  {
    hide Sub, RemoveTree;
    SubOfRemoval(t, p, key);
    SubOfRemoval(u, q, key);
  }

  lemma DataAgrees(t: Tree<Content>, job: Job, u: Tree<Content>, other: Job, i: nat)
    requires i < |job.services| == |job.ids| && NamesOnly(job.live, job.services) && other == job.(staging := other.staging)
    requires SubsAgree(t, job.ServicesRoot(), u, other.ServicesRoot())
    ensures DataOf(t, job, i) == DataOf(u, other, i)
  {
    hide NamesOnly, Sub;
    KeysHaveNames(job, i);
    KeysHaveNames(other, i);
    AgreeInside(t, job.ServicesRoot(), u, other.ServicesRoot(), KeyPath(job.services[i].key));
    MigrationServicesReach.RootAgrees(t, job.OldDir(i), u, other.OldDir(i));
  }

  /** What is settled in one directory is settled in one that holds the same. */
  lemma SettledElsewhere(first: Tree<Content>, t: Tree<Content>, job: Job, first': Tree<Content>, t': Tree<Content>, other: Job, i: nat)
    requires i < |job.services| == |job.ids| && NamesOnly(job.live, job.services) && other == job.(staging := other.staging)
    requires SameRoots(first, job, first', other) && SameRoots(t, job, t', other) && Settled(first, t, job, i)
    ensures Settled(first', t', other, i)
  {
    hide NamesOnly, Sub, Remaining, DataOf, SuffixOf, RemoveTree;
    PlacesAgree(t, job, t', other, i);
    RemainingAgrees(first, job, first', other, i);
    DataAgrees(Remaining(first, job, i), job, Remaining(first', other, i), other, i);
  }

  lemma FreshElsewhere(t: Tree<Content>, job: Job, u: Tree<Content>, other: Job)
    requires |job.services| == |job.ids| && NamesOnly(job.live, job.services) && other == job.(staging := other.staging)
    requires SameRoots(t, job, u, other) && FreshIds(u, other)
    ensures FreshIds(t, job)
  {
    hide NamesOnly, Sub;
    forall i | 0 <= i < |job.ids| ensures job.ServiceDir(i) !in t && job.ArtifactsDir(i) !in t {
      PlacesAgree(t, job, u, other, i);
      MigrationServicesReach.RootAgrees(t, job.ServiceDir(i), u, other.ServiceDir(i));
      MigrationServicesReach.RootAgrees(t, job.ArtifactsDir(i), u, other.ArtifactsDir(i));
    }
    assert forall i :: 0 <= i < |job.services| ==> KeyHead(job, i) == KeyHead(other, i);
  }
}
