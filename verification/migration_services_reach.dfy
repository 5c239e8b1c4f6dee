/** How far the step that moves the legacy services reaches. */
module MigrationServicesReach {
  import opened FileTree
  import opened FsPaths
  import opened MigrationServices
  import opened Wrappers
  import Text

  // ---------- the step may leave the staging directory ----------

  /** The old directory that is found, or the component, does not lie in the staging directory. */
  predicate Escapes(t: Tree<Content>, job: Job, i: nat)
    requires i < |job.services| == |job.ids|
  {
    (Exists(t, job.ServicesRoot(), job.KeyOf(i)) && !(job.staging <= job.OldDir(i)))
    || (job.ComponentSuffix(i).Some? && !(job.staging <= job.ComponentPath(i)))
  }

  /** Something apart from the staging directory is gone. */
  ghost predicate Robbed(t: Tree<Content>, u: Tree<Content>, staging: Path) {
    exists q :: q in t && Apart(staging, q) && q !in u
  }

  lemma NamesNeverEscape(t: Tree<Content>, job: Job, i: nat)
    requires i < |job.services| == |job.ids| && NamesOnly(job.live, job.services)
    ensures !Escapes(t, job, i)
  {
    TamePlaces(job, i);
  }

  lemma RobbedIsOutside(t: Tree<Content>, u: Tree<Content>, staging: Path)
    requires Robbed(t, u, staging)
    ensures !Confined(t, u, {staging})
  {
    var q :| q in t && Apart(staging, q) && q !in u;
    assert !Covered(q, {staging});
  }

  /** What is gone from outside stays gone, and was there from the beginning. */
  lemma RobbedStays(t: Tree<Content>, u: Tree<Content>, v: Tree<Content>, w: Tree<Content>, staging: Path)
    requires Confined(t, u, {staging}) && Robbed(u, v, staging) && Thinned(v, w, {staging})
    ensures Robbed(t, w, staging)
  {
    var q :| q in u && Apart(staging, q) && q !in v;
    assert !Covered(q, {staging}) && !AboveSome(q, {staging});
    assert q in t && q !in w;
  }

  /** The four places lie in the staging directory. */
  lemma InStagingDir(job: Job, i: nat)
    requires i < |job.ids|
    ensures job.staging <= job.DataDir(i) && job.staging <= Parent(job.DataDir(i)) && job.DataDir(i) != []
    ensures job.staging <= job.ArtifactsDir(i) && job.staging <= job.ServiceDir(i)
  {
    assert Parent(job.DataDir(i)) == job.staging + ["appdata", "services"];
  }

  lemma UnderStaging(t: Tree<Content>, u: Tree<Content>, changed: set<Path>, staging: Path)
    requires Confined(t, u, changed) && forall root <- changed :: staging <= root
    ensures Confined(t, u, {staging}) && Thinned(t, u, {staging})
  {
    ConfinedWiden(t, u, changed, {staging});
  }

  lemma RelocatedRooted(t: Tree<Content>, u: Tree<Content>, job: Job, i: nat)
    requires Rooted(t) && i < |job.services| == |job.ids| && Relocated(t, job, i) == Some(u)
    ensures Rooted(u) && job.DataDir(i) in u
  {
    var from, to := job.OldDir(i), job.DataDir(i);
    InStagingDir(job, i);
    if Exists(t, job.ServicesRoot(), job.KeyOf(i)) {
      var made := MakeDirs(t, Parent(to));
      MadeDirsRooted(t, Parent(to));
      MovedRooted(made, from, to);
      MovedArrives(made, from, to);
      SubAt(made, from, []);
      SubAt(u, to, []);
      assert from + [] == from && to + [] == to;
    } else {
      MadeDirsRooted(t, to);
      MadeDirsReach(t, to);
    }
  }

  lemma RenameReach(t: Tree<Content>, from: Path, to: Path, staging: Path)
    requires Rooted(t) && from in t && Apart(from, to) && staging <= to
    ensures var u := MoveTree(t, from, to);
            Thinned(t, u, {staging}) && if staging <= from then Confined(t, u, {staging}) else Robbed(t, u, staging)
  {
    hide MoveTree, Confined, Thinned, Rooted;
    var u := MoveTree(t, from, to);
    assert Covered(to, {staging});
    MovedThins(t, from, to, {staging});
    if staging <= from {
      MovedConfined(t, from, to);
      UnderStaging(t, u, {from, to}, staging);
    } else {
      MovedAway(t, from, to);
      assert Apart(staging, from);
    }
  }

  lemma MadeInStaging(t: Tree<Content>, p: Path, staging: Path)
    requires staging <= p
    ensures Confined(t, MakeDirs(t, p), {staging}) && Thinned(t, MakeDirs(t, p), {staging})
  {
    MadeDirsConfined(t, p, staging);
  }

  lemma RelocatedReach(t: Tree<Content>, u: Tree<Content>, job: Job, i: nat)
    requires Rooted(t) && i < |job.services| == |job.ids| && Relocated(t, job, i) == Some(u)
    ensures Thinned(t, u, {job.staging})
    ensures if Exists(t, job.ServicesRoot(), job.KeyOf(i)) && !(job.staging <= job.OldDir(i))
            then Robbed(t, u, job.staging) else Confined(t, u, {job.staging})
  {
    hide MoveTree, MakeDirs, Thinned, Confined, Robbed, Exists, CanReplace;
    var from, to, s := job.OldDir(i), job.DataDir(i), job.staging;
    InStagingDir(job, i);
    if Exists(t, job.ServicesRoot(), job.KeyOf(i)) {
      var made := MakeDirs(t, Parent(to));
      MadeInStaging(t, Parent(to), s);
      MadeDirsRooted(t, Parent(to));
      RenameReach(made, from, to, s);
      ThinnedTrans(t, made, u, {s});
      if s <= from {
        ConfinedTrans(t, made, u, {s});
      } else {
        ConfinedReflexive(u, {s});
        ThinnedReflexive(u, {s});
        RobbedStays(t, made, u, u, s);
      }
    } else {
      MadeInStaging(t, to, s);
    }
  }

  lemma ThinnedReflexive(t: Tree<Content>, roots: set<Path>)
    ensures Thinned(t, t, roots)
  {
  }

  /** A file is copied into the staging directory and removed where it was. */
  lemma CopyReach(t: Tree<Content>, from: Path, to: Path, staging: Path)
    requires from in t && staging <= to && !(from <= staging)
    ensures var u := RemoveTree(t[to := t[from]], from);
            Thinned(t, u, {staging}) && if staging <= from then Confined(t, u, {staging}) else Robbed(t, u, staging)
  {
    var copied := t[to := t[from]];
    var u := RemoveTree(copied, from);
    assert Covered(to, {staging});
    assert Thinned(t, u, {staging});
    if staging <= from {
      assert Confined(t, u, {from, to});
      UnderStaging(t, u, {from, to}, staging);
    } else {
      assert from in t && Apart(staging, from) && from !in u;
    }
  }

  lemma FileIsNotAbove(t: Tree<Content>, p: Path, q: Path, staging: Path)
    requires Rooted(t) && p in t && staging <= p && staging != p && q in t && t[q].File?
    ensures !(q <= staging)
  {
    if q <= staging {
      assert p[..|q|] == q;
      PrefixIsDirectory(t, p, |q|);
      assert false;
    }
  }

  lemma ComponentReach(t: Tree<Content>, u: Tree<Content>, job: Job, i: nat)
    requires Rooted(t) && i < |job.services| == |job.ids| && job.DataDir(i) in t && WithComponent(t, job, i) == Some(u)
    ensures Thinned(t, u, {job.staging})
    ensures if job.ComponentSuffix(i).Some? && !(job.staging <= job.ComponentPath(i))
            then Robbed(t, u, job.staging) else Confined(t, u, {job.staging})
  {
    hide MakeDirs, RemoveTree, Thinned, Confined, Robbed, Reaches, SuffixOf;
    var s := job.staging;
    if job.ComponentSuffix(i).Some? {
      var from, to := job.ComponentPath(i), ComponentFile(job.ArtifactsDir(i));
      var made := MakeDirs(t, job.ArtifactsDir(i));
      InStagingDir(job, i);
      MadeInStaging(t, job.ArtifactsDir(i), s);
      MadeDirsRooted(t, job.ArtifactsDir(i));
      MadeDirsAdd(t, job.ArtifactsDir(i), job.DataDir(i));
      FileIsNotAbove(made, job.DataDir(i), from, s);
      CopyReach(made, from, to, s);
      ThinnedTrans(t, made, u, {s});
      if s <= from {
        ConfinedTrans(t, made, u, {s});
      } else {
        ThinnedReflexive(u, {s});
        RobbedStays(t, made, u, u, s);
      }
    } else {
      ConfinedReflexive(t, {s});
      ThinnedReflexive(t, {s});
    }
  }

  lemma WriteReach(t: Tree<Content>, p: Path, data: Content, staging: Path)
    requires staging <= p
    ensures Confined(t, t[p := Entry.File(data)], {staging}) && Thinned(t, t[p := Entry.File(data)], {staging})
  {
    assert Confined(t, t[p := Entry.File(data)], {p});
    UnderStaging(t, t[p := Entry.File(data)], {p}, staging);
  }

  lemma DescriptionReach(t: Tree<Content>, u: Tree<Content>, dir: Path, document: Document, state: ServiceState, staging: Path)
    requires WithDescription(t, dir, document, state) == Some(u) && staging <= dir
    ensures Confined(t, u, {staging}) && Thinned(t, u, {staging})
  {
    hide MakeDirs, Confined, Thinned, CanHoldDirs, CanWrite;
    var made := MakeDirs(t, dir);
    var manifest, status := dir + ["service.yaml"], dir + ["state.json"];
    var written := made[manifest := Entry.File(Manifest(document))];
    MadeInStaging(t, dir, staging);
    WriteReach(made, manifest, Manifest(document), staging);
    WriteReach(written, status, State(state), staging);
    ConfinedTrans(t, made, written, {staging});
    ConfinedTrans(t, written, u, {staging});
    ThinnedTrans(t, made, written, {staging});
    ThinnedTrans(t, written, u, {staging});
  }

  /** One service changes the staging directory only, if and only if neither its old directory nor its component escapes. */
  lemma EscapeIff(t: Tree<Content>, u: Tree<Content>, job: Job, i: nat)
    requires Rooted(t) && i < |job.services| == |job.ids| && AfterService(t, job, i) == Some(u)
    ensures Confined(t, u, {job.staging}) <==> !Escapes(t, job, i)
    ensures Escapes(t, job, i) ==> Robbed(t, u, job.staging)
    ensures Thinned(t, u, {job.staging}) && Rooted(u)
  {
    var moved := Relocated(t, job, i).value;
    var data := WithComponent(moved, job, i).value;
    var s := job.staging;
    RelocatedRooted(t, moved, job, i);
    RelocatedReach(t, moved, job, i);
    ComponentReach(moved, data, job, i);
    ComponentRooted(moved, data, job, i);
    InStagingDir(job, i);
    DescriptionReach(data, u, job.ServiceDir(i), job.DocumentOf(i), job.StateOf(i), s);
    DescriptionRooted(data, u, job.ServiceDir(i), job.DocumentOf(i), job.StateOf(i));
    ThinnedTrans(moved, data, u, {s});
    ThinnedTrans(t, moved, u, {s});
    ReachAdds(t, moved, data, u, job, i);
    if Robbed(t, u, s) {
      RobbedIsOutside(t, u, s);
    }
  }

  /** What a refused service may have carried out by then: the name is compared before anything moves. */
  ghost predicate CarriesOut(t: Tree<Content>, job: Job, i: nat)
    requires i < |job.services| == |job.ids|
  {
    NameMatches(job.services[i]) && job.DataDir(i) !in t && WithData(t, job, i).Some? && Escapes(t, job, i)
  }

  /** A refused service too: it changes nothing outside, if and only if it is refused by name or place, or does not escape. */
  lemma GivenUpEscapeIff(t: Tree<Content>, u: Tree<Content>, job: Job, i: nat)
    requires Rooted(t) && i < |job.services| == |job.ids| && u == GivenUp(t, job, i)
    ensures Confined(t, u, {job.staging}) <==> !CarriesOut(t, job, i)
    ensures CarriesOut(t, job, i) ==> Robbed(t, u, job.staging)
    ensures Thinned(t, u, {job.staging}) && Rooted(u)
  {
    hide Relocated, WithComponent, Confined, Thinned, Robbed, Escapes, NameMatches, Rooted;
    var s := job.staging;
    ConfinedReflexive(t, {s});
    ConfinedReflexive(u, {s});
    ThinnedReflexive(t, {s});
    if NameMatches(job.services[i]) && job.DataDir(i) !in t && WithData(t, job, i).Some? {
      var moved := Relocated(t, job, i).value;
      RelocatedRooted(t, moved, job, i);
      RelocatedReach(t, moved, job, i);
      ComponentReach(moved, u, job, i);
      ComponentRooted(moved, u, job, i);
      ThinnedTrans(t, moved, u, {s});
      ReachAdds(t, moved, u, u, job, i);
    }
    if Robbed(t, u, s) {
      RobbedIsOutside(t, u, s);
    }
  }

  lemma ReachAdds(t: Tree<Content>, moved: Tree<Content>, data: Tree<Content>, u: Tree<Content>, job: Job, i: nat)
    requires i < |job.services| == |job.ids| && Thinned(moved, u, {job.staging}) && Confined(data, u, {job.staging})
    requires if Exists(t, job.ServicesRoot(), job.KeyOf(i)) && !(job.staging <= job.OldDir(i))
             then Robbed(t, moved, job.staging) else Confined(t, moved, {job.staging})
    requires if job.ComponentSuffix(i).Some? && !(job.staging <= job.ComponentPath(i))
             then Robbed(moved, data, job.staging) else Confined(moved, data, {job.staging})
    ensures if Escapes(t, job, i) then Robbed(t, u, job.staging) else Confined(t, u, {job.staging})
  {
    var s := job.staging;
    ConfinedReflexive(t, {s});
    if Robbed(t, moved, s) {
      RobbedStays(t, t, moved, u, s);
    } else if Robbed(moved, data, s) {
      RobbedStays(t, moved, data, u, s);
    } else {
      ConfinedTrans(t, moved, data, {s});
      ConfinedTrans(t, data, u, {s});
    }
  }

  lemma ComponentRooted(t: Tree<Content>, u: Tree<Content>, job: Job, i: nat)
    requires Rooted(t) && i < |job.services| == |job.ids| && WithComponent(t, job, i) == Some(u)
    ensures Rooted(u)
  {
    if job.ComponentSuffix(i).Some? {
      var made := MakeDirs(t, job.ArtifactsDir(i));
      MadeDirsRooted(t, job.ArtifactsDir(i));
      var from, to := job.ComponentPath(i), ComponentFile(job.ArtifactsDir(i));
      FileWritten(made, to, made[from].data);
      assert from != [];
      RemovedRooted(made[to := made[from]], from);
    }
  }

  lemma FileWritten(t: Tree<Content>, p: Path, data: Content)
    requires Rooted(t) && CanWrite(t, p)
    ensures Rooted(t[p := Entry.File(data)])
  {
  }

  lemma DescriptionRooted(t: Tree<Content>, u: Tree<Content>, dir: Path, document: Document, state: ServiceState)
    requires Rooted(t) && WithDescription(t, dir, document, state) == Some(u)
    ensures Rooted(u)
  {
    var made := MakeDirs(t, dir);
    MadeDirsRooted(t, dir);
    FileWritten(made, dir + ["service.yaml"], Manifest(document));
    FileWritten(made[dir + ["service.yaml"] := Entry.File(Manifest(document))], dir + ["state.json"], State(state));
  }

  /** No service of the first `n` escapes, each seen from the tree it finds. */
  ghost predicate NoneEscapes(first: Tree<Content>, job: Job, n: nat)
    requires n <= |job.services| == |job.ids|
  {
    forall i: nat :: i < n ==> StaysInside(first, job, i)
  }

  ghost predicate StaysInside(first: Tree<Content>, job: Job, i: nat)
    requires i < |job.services| == |job.ids|
  {
    AfterServices(first, job, i).Some? ==> !Escapes(AfterServices(first, job, i).value, job, i)
  }

  ghost predicate ReachesNoFurther(first: Tree<Content>, t: Tree<Content>, job: Job, n: nat)
    requires n <= |job.services| == |job.ids|
  {
    Rooted(t) && if NoneEscapes(first, job, n) then Confined(first, t, {job.staging}) else Robbed(first, t, job.staging)
  }

  lemma OneMoreEscape(first: Tree<Content>, t: Tree<Content>, u: Tree<Content>, job: Job, i: nat)
    requires i < |job.services| == |job.ids| && AfterServices(first, job, i) == Some(t) && AfterService(t, job, i) == Some(u)
    requires ReachesNoFurther(first, t, job, i)
    ensures ReachesNoFurther(first, u, job, i + 1)
  {
    hide Escapes, Confined, Robbed, AfterService, AfterServices, NoneEscapes;
    var s := job.staging;
    EscapeIff(t, u, job, i);
    MoreEscapes(first, t, job, i);
    ConfinedReflexive(first, {s});
    ThinnedReflexive(u, {s});
    if !NoneEscapes(first, job, i) {
      RobbedStays(first, first, t, u, s);
    } else if Escapes(t, job, i) {
      RobbedStays(first, t, u, u, s);
    } else {
      ConfinedTrans(first, t, u, {s});
    }
  }

  lemma MoreEscapes(first: Tree<Content>, t: Tree<Content>, job: Job, i: nat)
    requires i < |job.services| == |job.ids| && AfterServices(first, job, i) == Some(t)
    ensures NoneEscapes(first, job, i + 1) <==> NoneEscapes(first, job, i) && !Escapes(t, job, i)
  {
    hide Escapes, AfterServices;
    assert StaysInside(first, job, i) <==> !Escapes(t, job, i);
  }

  lemma NoneReaches(first: Tree<Content>, job: Job)
    requires Rooted(first) && |job.services| == |job.ids|
    ensures ReachesNoFurther(first, first, job, 0)
  {
    ConfinedReflexive(first, {job.staging});
  }

  lemma {:induction false} LoopReach(first: Tree<Content>, t: Tree<Content>, job: Job, n: nat)
    requires Rooted(first) && n <= |job.services| == |job.ids| && AfterServices(first, job, n) == Some(t)
    ensures ReachesNoFurther(first, t, job, n)
    decreases n
  {
    hide AfterService, ReachesNoFurther;
    if n > 0 {
      var before := AfterServices(first, job, n - 1).value;
      LoopReach(first, before, job, n - 1);
      OneMoreEscape(first, before, t, job, n - 1);
    } else {
      NoneReaches(first, job);
    }
  }

  /** The whole loop changes the staging directory only, if and only if no service escapes. */
  lemma RunEscapeIff(first: Tree<Content>, t: Tree<Content>, job: Job, n: nat)
    requires Rooted(first) && n <= |job.services| == |job.ids| && AfterServices(first, job, n) == Some(t)
    ensures Confined(first, t, {job.staging}) <==> NoneEscapes(first, job, n)
    ensures !NoneEscapes(first, job, n) ==> Robbed(first, t, job.staging)
  {
    hide AfterServices, NoneEscapes, Confined, Robbed;
    LoopReach(first, t, job, n);
    if Robbed(first, t, job.staging) {
      RobbedIsOutside(first, t, job.staging);
    }
  }

  /** A run that ends in a refused service, no call having failed: neither the services before it nor its own data escaped. */
  lemma RefusedRunEscapeIff(first: Tree<Content>, u: Tree<Content>, job: Job, n: nat)
    requires Rooted(first) && n < |job.services| == |job.ids| && RefusedAt(first, u, job, n)
    ensures var t := AfterServices(first, job, n).value;
            Confined(first, u, {job.staging}) <==> NoneEscapes(first, job, n) && !CarriesOut(t, job, n)
    ensures Confined(first, u, {job.staging}) || Robbed(first, u, job.staging)
  {
    hide AfterService, AfterServices, GivenUp, NoneEscapes, CarriesOut, Confined, Thinned, Robbed, Rooted;
    var s := job.staging;
    var t := AfterServices(first, job, n).value;
    LoopReach(first, t, job, n);
    GivenUpEscapeIff(t, u, job, n);
    ConfinedReflexive(first, {s});
    ThinnedReflexive(u, {s});
    if !NoneEscapes(first, job, n) {
      RobbedStays(first, first, t, u, s);
    } else if CarriesOut(t, job, n) {
      RobbedStays(first, t, u, u, s);
    } else {
      ConfinedTrans(first, t, u, {s});
    }
    if Robbed(first, u, s) {
      RobbedIsOutside(first, u, s);
    }
  }

  /** A run that is done, the state file removed as well. */
  lemma DoneEscapeIff(first: Tree<Content>, u: Tree<Content>, job: Job)
    requires Rooted(first) && |job.services| == |job.ids| && IsDone(first, u, job)
    ensures Confined(first, u, {job.staging}) <==> NoneEscapes(first, job, |job.services|)
    ensures Confined(first, u, {job.staging}) || Robbed(first, u, job.staging)
  {
    hide AfterServices, NoneEscapes, Confined, Thinned, Robbed, Rooted;
    var s := job.staging;
    var t := AfterServices(first, job, |job.services|).value;
    LoopReach(first, t, job, |job.services|);
    StateFileReach(t, job);
    ConfinedReflexive(first, {s});
    if NoneEscapes(first, job, |job.services|) {
      ConfinedTrans(first, t, u, {s});
    } else {
      RobbedStays(first, first, t, u, s);
    }
    if Robbed(first, u, s) {
      RobbedIsOutside(first, u, s);
    }
  }

  lemma StateFileReach(t: Tree<Content>, job: Job)
    ensures Confined(t, RemoveTree(t, job.StateFile()), {job.staging}) && Thinned(t, RemoveTree(t, job.StateFile()), {job.staging})
  {
    assert Confined(t, RemoveTree(t, job.StateFile()), {job.StateFile()});
    UnderStaging(t, RemoveTree(t, job.StateFile()), {job.StateFile()}, job.staging);
  }

  // ---------- a key that climbs ----------

  /** `../../name`: from the services of the staging directory, an entry of the fungi directory itself. */
  function Climbing(name: string): string {
    ".." + "/" + (".." + "/" + name)
  }

  /** The name of an entry, as `config.toml` is. */
  predicate IsEntryName(name: string) {
    IsPart(Normal(name)) && Text.Trimmed(name)
  }

  lemma ConfigIsAnEntry()
    ensures IsEntryName("config.toml")
  {
  }

  function ClimbingPath(name: string): seq<Component> {
    [ParentDir, ParentDir, Normal(name)]
  }

  lemma ClimbingComponents(name: string)
    requires IsEntryName(name)
    ensures ComponentsOf(Climbing(name)) == ClimbingPath(name)
  {
    hide Split, PartComponents, Text.Trimmed;
    var cs := ClimbingPath(name);
    assert cs[1..] == [ParentDir, Normal(name)] && cs[1..][1..] == [Normal(name)];
    assert JoinParts(cs[1..][1..]) == name;
    assert JoinParts(cs[1..]) == ".." + "/" + name;
    assert JoinParts(cs) == Climbing(name);
    JoinedParts(cs);
    SplitOfPart("..");
    SplitJoins("..", ".." + "/" + name);
    assert Split(Climbing(name))[0] == "..";
    StartMatters(Split(Climbing(name)));
    assert Climbing(name)[0] == '.';
  }

  lemma ClimbingIsTrimmed(name: string)
    requires IsEntryName(name)
    ensures Text.Trim(Climbing(name)) == Climbing(name)
  {
    hide Text.Trim;
    var key := Climbing(name);
    assert key[0] == '.' && key[|key| - 1] == name[|name| - 1];
    Text.TrimIsCanonical(key);
  }

  /** Two steps up and one down. */
  lemma ClimbingTarget(live: Path, stagingName: string, name: string)
    ensures Target(live + [stagingName] + ["services"], ClimbingPath(name)) == live + [name]
  {
    var cs := ClimbingPath(name);
    var base := live + [stagingName] + ["services"];
    assert base[..|base| - 1] == live + [stagingName];
    assert (live + [stagingName])[..|live|] == live;
    assert cs[1..] == [ParentDir, Normal(name)] && cs[1..][1..] == [Normal(name)] && cs[1..][1..][1..] == [];
    assert Walk(PathBuf(true, live), [Normal(name)]) == PathBuf(true, live + [name]);
    assert Walk(PathBuf(true, live + [stagingName]), cs[1..]) == PathBuf(true, live + [name]);
  }

  /** Every step is looked up in a directory that is there: the services, staging, and the directory itself. */
  lemma ClimbingReaches(t: Tree<Content>, live: Path, stagingName: string, name: string)
    requires Rooted(t) && live + [stagingName] + ["services"] in t && t[live + [stagingName] + ["services"]].Directory?
    ensures Reaches(t, live + [stagingName] + ["services"], ClimbingPath(name))
  {
    hide Rooted;
    var cs := ClimbingPath(name);
    var base, staging := live + [stagingName] + ["services"], live + [stagingName];
    PrefixIsDirectory(t, base, |live| + 1);
    PrefixIsDirectory(t, base, |live|);
    assert base[..|base| - 1] == staging == base[..|live| + 1];
    assert staging[..|live|] == live == base[..|live|];
    assert cs[1..] == [ParentDir, Normal(name)] && cs[1..][1..] == [Normal(name)];
    assert Reaches(t, live, cs[1..][1..]);
    assert Reaches(t, staging, cs[1..]);
  }

  /** The job has one service, with such a key, an image for its source, and no ports. */
  ghost predicate ClimbingJob(job: Job, live: Path, stagingName: string, name: string) {
    |job.services| == |job.ids| == 1 && job.staging == live + [stagingName]
    && var service := job.services[0];
    service.key == Climbing(name) == service.manifest.name && service.manifest.source.DockerImage? && service.manifest.ports == []
  }

  /** The entry is there, the services are staged, and the new places are free. */
  ghost predicate ClimbingScene(t: Tree<Content>, live: Path, stagingName: string, name: string, id: string) {
    var staging := live + [stagingName];
    Rooted(t) && live + [name] in t && stagingName != name && IsEntryName(name)
    && staging + ["services"] in t && t[staging + ["services"]].Directory?
    && staging + ["appdata", "services", id] !in t && CanHoldDirs(t, staging + ["appdata", "services"])
  }

  lemma MovedAway(t: Tree<Content>, from: Path, to: Path)
    requires from in t && Apart(from, to)
    ensures from !in MoveTree(t, from, to)
    ensures to in MoveTree(t, from, to) && MoveTree(t, from, to)[to] == t[from]
  {
    hide MoveTree, Sub;
    MovedLeaves(t, from, to);
    MovedArrives(t, from, to);
    RootAgrees(MoveTree(t, from, to), to, t, from);
    RootAgrees(MoveTree(t, from, to), from, map[], from);
    SubOfNothing(from);
  }

  lemma SubOfNothing(p: Path)
    ensures Sub<Content>(map[], p) == map[]
  {
    forall r ensures r !in Sub<Content>(map[], p) {
      SubAt<Content>(map[], p, r);
    }
  }

  /** Trees that agree below two places agree there. */
  lemma RootAgrees(t: Tree<Content>, p: Path, u: Tree<Content>, q: Path)
    ensures Sub(t, p) == Sub(u, q) ==> (p in t <==> q in u) && (p in t ==> t[p] == u[q])
  {
    SubAt(t, p, []);
    SubAt(u, q, []);
    assert p + [] == p && q + [] == q;
  }

  /** What the move of the data makes of the scene. */
  lemma ClimbingMoves(t: Tree<Content>, job: Job, live: Path, stagingName: string, name: string)
    requires ClimbingJob(job, live, stagingName, name) && ClimbingScene(t, live, stagingName, name, job.ids[0])
    ensures job.OldDir(0) == live + [name] && Escapes(t, job, 0)
    ensures var u := Relocated(t, job, 0);
            u.Some? && live + [name] !in u.value && job.DataDir(0) in u.value && u.value[job.DataDir(0)] == t[live + [name]]
  {
    hide MoveTree, Rooted, MakeDirs, Reaches, IsEntryName, Climbing, IsPart, Split, PartComponents, JoinParts, Walk, CanReplace;
    var from, to := live + [name], job.DataDir(0);
    ClimbingComponents(name);
    ClimbingTarget(live, stagingName, name);
    ClimbingReaches(t, live, stagingName, name);
    assert from[|live|] == name && to[|live|] == stagingName && job.staging[|live|] == stagingName;
    ApartAt(from, to, |live|);
    assert Parent(to) == job.staging + ["appdata", "services"];
    var made := MakeDirs(t, Parent(to));
    CanRenameInto(t, from, to);
    MovedAway(made, from, to);
    MadeDirsAdd(t, Parent(to), from);
  }

  lemma CanRenameInto(t: Tree<Content>, from: Path, to: Path)
    requires from in t && Apart(from, to) && to != [] && to !in t && CanHoldDirs(t, Parent(to))
    ensures CanRename(MakeDirs(t, Parent(to)), from, to)
  {
    MadeDirsReach(t, Parent(to));
    MadeDirsAdd(t, Parent(to), to);
    MadeDirsAdd(t, Parent(to), from);
  }

  lemma ClimbingIsRefused(t: Tree<Content>, u: Tree<Content>, job: Job, live: Path, stagingName: string, name: string)
    requires ClimbingJob(job, live, stagingName, name) && IsEntryName(name) && Relocated(t, job, 0).Some? && job.DataDir(0) !in t
    ensures !IsDone(t, u, job)
    ensures IsGivenUp(t, u, job) ==> u == Relocated(t, job, 0).value
  {
    hide Relocated, IsEntryName, Climbing, Text.Trim;
    ClimbingIsTrimmed(name);
    ClimbingIsNonempty(name);
    assert AfterServices(t, job, 0) == Some(t);
    assert AfterService(t, job, 0) == None;
    assert AfterServices(t, job, 1) == None;
    assert WithData(t, job, 0) == Relocated(t, job, 0);
  }

  lemma ClimbingIsNonempty(name: string)
    ensures Climbing(name) != ""
  {
  }

  /**
   * The step at that input, with `config.toml` for the name: it is refused, for want of a port, but no
   * longer without a trace. Unless a call fails before, the live configuration is by then gone, moved
   * into the staging directory.
   */
  method LiveEntryIsCarriedOff(fs: FileSystem<Content>, live: Path, stagingName: string, name: string,
                               fungiDir: seq<Component>, id: string, now: string)
    returns (ok: bool)
    requires fs.Valid() && ClimbingScene(fs.tree, live, stagingName, name, id)
    requires ReadState(fs.tree, live + [stagingName]).Some?
             && ClimbingJob(JobOf(ReadState(fs.tree, live + [stagingName]).value, live + [stagingName], fungiDir, [id], now),
                            live, stagingName, name)
    modifies fs
    ensures !ok
    ensures fs.failures == old(fs.failures) ==>
              live + [name] !in fs.tree
              && live + [stagingName, "appdata", "services", id] in fs.tree
              && fs.tree[live + [stagingName, "appdata", "services", id]] == old(fs.tree)[live + [name]]
  {
    hide Relocated, GivenUp, Escapes, AfterServices, IsDone, IsGivenUp, ReadState, ClimbingScene, Climbing, Guarded;
    var staging := live + [stagingName];
    ghost var t := fs.tree;
    ghost var job := JobOf(ReadState(t, staging).value, staging, fungiDir, [id], now);
    FreeInTheScene(t, live, stagingName, name, id);
    ok := MigrateLegacyServicesState(fs, staging, fungiDir, [id], now);
    ClimbingMoves(t, job, live, stagingName, name);
    ClimbingIsRefused(t, fs.tree, job, live, stagingName, name);
    assert job.DataDir(0) == live + [stagingName, "appdata", "services", id];
    StateIsThere(t, staging);
  }

  lemma FreeInTheScene(t: Tree<Content>, live: Path, stagingName: string, name: string, id: string)
    requires ClimbingScene(t, live, stagingName, name, id)
    ensures live + [stagingName] + ["appdata", "services", id] !in t && IsEntryName(name)
  {
  }

  lemma StateIsThere(t: Tree<Content>, staging: Path)
    requires ReadState(t, staging).Some?
    ensures staging + [LEGACY_SERVICE_STATE_FILE] in t
  {
  }
}
