/** Putting staged paths in place of live ones, with rollback: `apply.rs`. */
module MigrationApply {
  import opened Wrappers
  import opened FileTree

  const APPLY_ROLLBACK_DIR_NAME: string := ".apply-rollback"

  /** The live root, the staging directory inside it, and the migrated relative paths. */
  datatype Layout = Layout(live: Path, stagingName: string, paths: seq<Path>) {
    function Staging(): Path {
      live + [stagingName]
    }

    function Rollback(): Path {
      live + [stagingName, APPLY_ROLLBACK_DIR_NAME]
    }

    function LiveAt(i: nat): Path
      requires i < |paths|
    {
      live + paths[i]
    }

    function StagedAt(i: nat): Path
      requires i < |paths|
    {
      live + [stagingName] + paths[i]
    }

    function RollbackAt(i: nat): Path
      requires i < |paths|
    {
      live + [stagingName, APPLY_ROLLBACK_DIR_NAME] + paths[i]
    }
  }

  /** No migrated path lies in another, in the staging directory, or where the rollback copies go. */
  ghost predicate WellPlaced(l: Layout) {
    (forall i :: 0 <= i < |l.paths| ==>
       l.paths[i] != [] && l.paths[i][0] != l.stagingName && l.paths[i][0] != APPLY_ROLLBACK_DIR_NAME)
    && (forall i, j :: 0 <= i < j < |l.paths| ==> Apart(l.paths[i], l.paths[j]))
  }

  datatype AppliedPath = AppliedPath(path: Path, movedLiveToRollback: bool, movedStagedToLive: bool)

  // ---------- where things are ----------

  ghost predicate Original<D(!new)>(first: Tree<D>, t: Tree<D>, l: Layout, i: nat)
    requires i < |l.paths|
  {
    Sub(t, l.LiveAt(i)) == Sub(first, l.LiveAt(i)) && Sub(t, l.RollbackAt(i)) == map[]
  }

  /** Not touched yet. */
  ghost predicate Fresh<D(!new)>(first: Tree<D>, t: Tree<D>, l: Layout, i: nat)
    requires i < |l.paths|
  {
    Original(first, t, l, i) && Sub(t, l.StagedAt(i)) == Sub(first, l.StagedAt(i))
  }

  /** The staged subtree is live (or nothing, if nothing was staged), the live one set aside. */
  ghost predicate Applied<D(!new)>(first: Tree<D>, t: Tree<D>, l: Layout, i: nat)
    requires i < |l.paths|
  {
    Sub(t, l.LiveAt(i)) == Sub(first, l.StagedAt(i)) && Sub(t, l.RollbackAt(i)) == Sub(first, l.LiveAt(i))
  }

  /** The original subtree is whole, at its live path or at its rollback path. */
  ghost predicate Survives<D(!new)>(first: Tree<D>, t: Tree<D>, l: Layout, i: nat)
    requires i < |l.paths|
  {
    Sub(t, l.LiveAt(i)) == Sub(first, l.LiveAt(i)) || Sub(t, l.RollbackAt(i)) == Sub(first, l.LiveAt(i))
  }

  ghost predicate LiveIsOriginal<D(!new)>(first: Tree<D>, t: Tree<D>, l: Layout, i: nat)
    requires i < |l.paths|
  {
    Sub(t, l.LiveAt(i)) == Sub(first, l.LiveAt(i))
  }

  ghost predicate LiveIsStaged<D(!new)>(first: Tree<D>, t: Tree<D>, l: Layout, i: nat)
    requires i < |l.paths|
  {
    Sub(t, l.LiveAt(i)) == Sub(first, l.StagedAt(i))
  }

  predicate Outside(l: Layout, q: Path) {
    !(l.Staging() <= q) && forall i :: 0 <= i < |l.paths| ==> !(l.LiveAt(i) <= q)
  }

  predicate AboveSome(l: Layout, q: Path) {
    exists i :: 0 <= i < |l.paths| && q < l.LiveAt(i)
  }

  /** Every other entry is as it was, but for new directories above the migrated paths. */
  ghost predicate KeepsOutside<D(!new)>(first: Tree<D>, t: Tree<D>, l: Layout) {
    (forall q <- first :: Outside(l, q) ==> q in t && t[q] == first[q])
    && (forall q <- t :: Outside(l, q) ==> q in first || (t[q] == Directory && AboveSome(l, q)))
  }

  ghost predicate AllSurvive<D(!new)>(first: Tree<D>, t: Tree<D>, l: Layout) {
    forall i :: 0 <= i < |l.paths| ==> Survives(first, t, l, i)
  }

  /** Nothing original has been lost. */
  ghost predicate Safe<D(!new)>(first: Tree<D>, t: Tree<D>, l: Layout) {
    KeepsOutside(first, t, l) && AllSurvive(first, t, l)
  }

  /** The trace goes on from `past` with safe states only. */
  ghost predicate SafeSince<D(!new)>(first: Tree<D>, trace: seq<Tree<D>>, l: Layout, past: seq<Tree<D>>) {
    trace == past
    || (trace != [] && Safe(first, trace[|trace| - 1], l) && SafeSince(first, trace[..|trace| - 1], l, past))
  }

  lemma {:induction false} SafeSoFar<D(!new)>(first: Tree<D>, trace: seq<Tree<D>>, l: Layout, past: seq<Tree<D>>)
    requires SafeSince(first, trace, l, past)
    ensures past <= trace
    ensures forall k :: |past| <= k < |trace| ==> Safe(first, trace[k], l)
  {
    if trace != past {
      SafeSoFar(first, trace[..|trace| - 1], l, past);
    }
  }

  lemma StaysSafe<D(!new)>(first: Tree<D>, trace: seq<Tree<D>>, t: Tree<D>, l: Layout, past: seq<Tree<D>>)
    requires SafeSince(first, trace, l, past) && Safe(first, t, l)
    ensures SafeSince(first, trace + [t], l, past)
  {
    assert (trace + [t])[..|trace|] == trace;
  }

  /** The paths before `k` are applied, the others not touched. */
  ghost predicate Phase<D(!new)>(first: Tree<D>, t: Tree<D>, l: Layout, k: nat) {
    k <= |l.paths| && KeepsOutside(first, t, l)
    && (forall i :: 0 <= i < k ==> Applied(first, t, l, i))
    && (forall i :: k <= i < |l.paths| ==> Fresh(first, t, l, i))
  }

  /** The places of path `i` are as they were. */
  ghost predicate SamePlaces<D(!new)>(t: Tree<D>, u: Tree<D>, l: Layout, i: nat)
    requires i < |l.paths|
  {
    Sub(t, l.LiveAt(i)) == Sub(u, l.LiveAt(i)) && Sub(t, l.StagedAt(i)) == Sub(u, l.StagedAt(i))
    && Sub(t, l.RollbackAt(i)) == Sub(u, l.RollbackAt(i))
  }

  ghost predicate SameOthers<D(!new)>(t: Tree<D>, u: Tree<D>, l: Layout, i: nat) {
    forall j :: 0 <= j < |l.paths| && j != i ==> SamePlaces(t, u, l, j)
  }

  // ---------- the places do not overlap ----------

  lemma PlacesApart(l: Layout, i: nat, j: nat)
    requires WellPlaced(l) && i < |l.paths| && j < |l.paths|
    ensures i != j ==> Apart(l.LiveAt(i), l.LiveAt(j))
    ensures i != j ==> Apart(l.StagedAt(i), l.StagedAt(j))
    ensures i != j ==> Apart(l.RollbackAt(i), l.RollbackAt(j))
    ensures Apart(l.LiveAt(i), l.StagedAt(j)) && Apart(l.LiveAt(i), l.RollbackAt(j)) && Apart(l.StagedAt(i), l.RollbackAt(j))
    ensures l.LiveAt(i) != [] && l.StagedAt(i) != [] && l.RollbackAt(i) != []
  {
    if i != j {
      ApartBelow(l.live, l.paths[i], l.paths[j]);
      ApartBelow(l.live + [l.stagingName], l.paths[i], l.paths[j]);
      ApartBelow(l.live + [l.stagingName, APPLY_ROLLBACK_DIR_NAME], l.paths[i], l.paths[j]);
    }
    var n := |l.live|;
    assert l.LiveAt(i)[n] == l.paths[i][0] && l.StagedAt(j)[n] == l.stagingName && l.RollbackAt(j)[n] == l.stagingName;
    assert l.StagedAt(i)[n + 1] == l.paths[i][0] && l.RollbackAt(j)[n + 1] == APPLY_ROLLBACK_DIR_NAME;
  }

  /** New directories strictly above a live or a rollback path disturb nothing. */
  lemma DirsDisturbNothing<D(!new)>(first: Tree<D>, t: Tree<D>, l: Layout, i: nat, p: Path)
    requires WellPlaced(l) && i < |l.paths| && (p < l.LiveAt(i) || p < l.RollbackAt(i)) && KeepsOutside(first, t, l)
    ensures KeepsOutside(first, MakeDirs(t, p), l)
    ensures forall j :: 0 <= j < |l.paths| ==> SamePlaces(t, MakeDirs(t, p), l, j)
  {
    forall j | 0 <= j < |l.paths| ensures SamePlaces(t, MakeDirs(t, p), l, j) {
      PlacesApart(l, i, j);
      PlacesApart(l, j, i);
      SubOfMadeDirs(t, p, l.LiveAt(j));
      SubOfMadeDirs(t, p, l.StagedAt(j));
      SubOfMadeDirs(t, p, l.RollbackAt(j));
    }
    var made := MakeDirs(t, p);
    forall q | q in made && q !in t && Outside(l, q) ensures made[q] == Directory && AboveSome(l, q) {
      MadeDirsAdd(t, p, q);
      assert q < l.LiveAt(i) by {
        if p < l.RollbackAt(i) {
          assert q < l.Staging();
          assert q <= l.live;
        }
      }
    }
  }

  /** Moving between two places of path `i` disturbs no other path and nothing outside. */
  lemma MoveDisturbsNothing<D(!new)>(first: Tree<D>, t: Tree<D>, l: Layout, i: nat, from: Path, to: Path)
    requires WellPlaced(l) && i < |l.paths| && KeepsOutside(first, t, l)
    requires from in {l.LiveAt(i), l.StagedAt(i), l.RollbackAt(i)} && to in {l.LiveAt(i), l.StagedAt(i), l.RollbackAt(i)}
    ensures KeepsOutside(first, MoveTree(t, from, to), l) && SameOthers(t, MoveTree(t, from, to), l, i)
  {
    forall j | 0 <= j < |l.paths| && j != i ensures SamePlaces(t, MoveTree(t, from, to), l, j) {
      PlacesApart(l, i, j);
      PlacesApart(l, j, i);
      MovedElsewhere(t, from, to, l.LiveAt(j));
      MovedElsewhere(t, from, to, l.StagedAt(j));
      MovedElsewhere(t, from, to, l.RollbackAt(j));
    }
    forall q | Outside(l, q)
      ensures (q in MoveTree(t, from, to) <==> q in t) && (q in t ==> MoveTree(t, from, to)[q] == t[q])
    {
      assert l.Staging() <= l.StagedAt(i) && l.Staging() <= l.RollbackAt(i);
      MovedOutside(t, from, to, q);
    }
  }

  /** Removing what is live at path `i`, wholly or in part, disturbs nothing else. */
  lemma RemovalDisturbsNothing<D(!new)>(first: Tree<D>, t: Tree<D>, u: Tree<D>, l: Layout, i: nat)
    requires WellPlaced(l) && i < |l.paths| && KeepsOutside(first, t, l)
    requires Shrunk(t, u, l.LiveAt(i))
    ensures KeepsOutside(first, u, l) && SameOthers(t, u, l, i)
    ensures Sub(u, l.RollbackAt(i)) == Sub(t, l.RollbackAt(i))
  {
    PlacesApart(l, i, i);
    SubOfShrunk(t, u, l.LiveAt(i), l.RollbackAt(i));
    forall j | 0 <= j < |l.paths| && j != i ensures SamePlaces(t, u, l, j) {
      PlacesApart(l, i, j);
      SubOfShrunk(t, u, l.LiveAt(i), l.LiveAt(j));
      SubOfShrunk(t, u, l.LiveAt(i), l.StagedAt(j));
      SubOfShrunk(t, u, l.LiveAt(i), l.RollbackAt(j));
    }
  }

  /** With the other paths undisturbed, it is enough that path `i` survives. */
  lemma OthersSurvive<D(!new)>(first: Tree<D>, t: Tree<D>, u: Tree<D>, l: Layout, i: nat)
    requires i < |l.paths| && AllSurvive(first, t, l) && SameOthers(t, u, l, i) && Survives(first, u, l, i)
    ensures AllSurvive(first, u, l)
  {
    forall j | 0 <= j < |l.paths| ensures Survives(first, u, l, j) {
      assert j != i ==> SamePlaces(t, u, l, j) && Survives(first, t, l, j);
    }
  }

  lemma PhaseIsSafe<D(!new)>(first: Tree<D>, t: Tree<D>, l: Layout, k: nat)
    requires Phase(first, t, l, k)
    ensures Safe(first, t, l)
  {
    forall i | 0 <= i < |l.paths| ensures Survives(first, t, l, i) {
      if i < k { assert Applied(first, t, l, i); } else { assert Fresh(first, t, l, i); }
    }
  }

  ghost predicate OthersInPhase<D(!new)>(first: Tree<D>, t: Tree<D>, l: Layout, i: nat) {
    (forall j :: 0 <= j < i && j < |l.paths| ==> Applied(first, t, l, j))
    && (forall j :: i < j < |l.paths| ==> Fresh(first, t, l, j))
  }

  lemma OthersStayInPhase<D(!new)>(first: Tree<D>, t: Tree<D>, u: Tree<D>, l: Layout, i: nat)
    requires OthersInPhase(first, t, l, i) && SameOthers(t, u, l, i)
    ensures OthersInPhase(first, u, l, i)
  {
    forall j | 0 <= j < i && j < |l.paths| ensures Applied(first, u, l, j) {
      assert SamePlaces(t, u, l, j) && Applied(first, t, l, j);
    }
    forall j | i < j < |l.paths| ensures Fresh(first, u, l, j) {
      assert SamePlaces(t, u, l, j) && Fresh(first, t, l, j);
    }
  }

  // ---------- the operations ----------

  method EnsureParentDir<D(0, ==, !new)>(fs: FileSystem<D>, p: Path, l: Layout, i: nat, ghost first: Tree<D>, ghost past: seq<Tree<D>>)
    returns (ok: bool)
    requires fs.Valid() && WellPlaced(l) && i < |l.paths| && p in {l.LiveAt(i), l.RollbackAt(i)} && p != []
    requires Safe(first, fs.tree, l) && SafeSince(first, fs.trace, l, past)
    modifies fs
    ensures fs.failures == old(fs.failures) + Faults(ok)
    ensures fs.Valid() && Safe(first, fs.tree, l) && SafeSince(first, fs.trace, l, past)
    ensures forall j :: 0 <= j < |l.paths| ==> SamePlaces(old(fs.tree), fs.tree, l, j)
    ensures Parent(p) in old(fs.tree) && old(fs.tree)[Parent(p)] == Directory ==> ok
  {
    ghost var t := fs.tree;
    var parent := Parent(p);
    ok := fs.CreateDirAll(parent);
    ghost var made: Path;
    if ok {
      made := parent;
    } else {
      ghost var k :| 0 <= k <= |parent| && fs.tree == MakeDirs(t, parent[..k]);
      made := parent[..k];
    }
    assert made < p;
    DirsDisturbNothing(first, t, l, i, made);
    PlacesSurvive(first, t, fs.tree, l);
    StaysSafe(first, old(fs.trace), fs.tree, l, past);
  }

  lemma PlacesSurvive<D(!new)>(first: Tree<D>, t: Tree<D>, u: Tree<D>, l: Layout)
    requires AllSurvive(first, t, l) && forall j :: 0 <= j < |l.paths| ==> SamePlaces(t, u, l, j)
    ensures AllSurvive(first, u, l)
  {
    forall j | 0 <= j < |l.paths| ensures Survives(first, u, l, j) {
      assert SamePlaces(t, u, l, j) && Survives(first, t, l, j);
    }
  }

  /** First half of `apply_one_staged_path`: what is live goes to the rollback directory. */
  method SetLiveAside<D(0, ==, !new)>(fs: FileSystem<D>, l: Layout, i: nat, ghost first: Tree<D>, ghost past: seq<Tree<D>>)
    returns (ok: bool)
    requires fs.Valid() && WellPlaced(l) && i < |l.paths|
    requires Phase(first, fs.tree, l, i) && SafeSince(first, fs.trace, l, past) && l.LiveAt(i) in fs.tree
    modifies fs
    ensures fs.failures == old(fs.failures) + Faults(ok)
    ensures fs.Valid() && Safe(first, fs.tree, l) && SafeSince(first, fs.trace, l, past)
    ensures if ok then Midway(first, fs.tree, l, i)
            else OthersInPhase(first, fs.tree, l, i) && Original(first, fs.tree, l, i)
  {
    ghost var t := fs.tree;
    PhaseIsSafe(first, t, l, i);
    PlacesApart(l, i, i);
    ok := EnsureParentDir(fs, l.RollbackAt(i), l, i, first, past);
    Unmoved(first, t, fs.tree, l, i);
    if !ok {
      return;
    }
    ghost var u, trace := fs.tree, fs.trace;
    ok := fs.Rename(l.LiveAt(i), l.RollbackAt(i));
    if ok {
      SetAside(first, u, l, i);
    }
    StaysSafe(first, trace, fs.tree, l, past);
  }

  /** Second half: what is staged goes live; a failure takes the live subtree back if it can. */
  method PutStagedInPlace<D(0, ==, !new)>(fs: FileSystem<D>, l: Layout, i: nat, movedLive: bool, ghost first: Tree<D>, ghost past: seq<Tree<D>>)
    returns (ok: bool)
    requires fs.Valid() && WellPlaced(l) && i < |l.paths| && Rooted(first)
    requires Midway(first, fs.tree, l, i) && SafeSince(first, fs.trace, l, past) && movedLive == (l.LiveAt(i) in first)
    modifies fs
    ensures ok <==> fs.failures == old(fs.failures)
    ensures old(fs.failures) <= fs.failures
    ensures fs.Valid() && Safe(first, fs.tree, l) && SafeSince(first, fs.trace, l, past)
    ensures OthersInPhase(first, fs.tree, l, i)
    ensures ok ==> Phase(first, fs.tree, l, i + 1)
    ensures fs.failures == old(fs.failures) + 1 ==> Original(first, fs.tree, l, i)
  {
    ghost var t := fs.tree;
    PlacesApart(l, i, i);
    AbsentIsEmpty(first, l.LiveAt(i));
    if movedLive {
      ParentOutlives(first, t, l, i);
    }
    ok := EnsureParentDir(fs, l.LiveAt(i), l, i, first, past);
    StaysMidway(first, t, fs.tree, l, i);
    if !ok {
      // next to a path that was live the parent exists, so nothing was moved
      return;
    }
    ghost var u, trace := fs.tree, fs.trace;
    ok := fs.Rename(l.StagedAt(i), l.LiveAt(i));
    if ok {
      PutInPlace(first, u, l, i);
    }
    StaysSafe(first, trace, fs.tree, l, past);
    if !ok && movedLive {
      var back := TakeLiveBack(fs, l, i, first, past);
    }
  }

  /** The compensating rename; the source ignores whether it succeeds. */
  method TakeLiveBack<D(0, ==, !new)>(fs: FileSystem<D>, l: Layout, i: nat, ghost first: Tree<D>, ghost past: seq<Tree<D>>)
    returns (back: bool)
    requires fs.Valid() && WellPlaced(l) && i < |l.paths| && Midway(first, fs.tree, l, i) && SafeSince(first, fs.trace, l, past)
    modifies fs
    ensures fs.failures == old(fs.failures) + Faults(back)
    ensures fs.Valid() && Safe(first, fs.tree, l) && SafeSince(first, fs.trace, l, past)
    ensures OthersInPhase(first, fs.tree, l, i) && (back ==> Original(first, fs.tree, l, i))
  {
    ghost var t, trace := fs.tree, fs.trace;
    PlacesApart(l, i, i);
    back := fs.Rename(l.RollbackAt(i), l.LiveAt(i));
    if back {
      TakenBack(first, t, l, i);
    }
    StaysSafe(first, trace, fs.tree, l, past);
  }

  /** `apply_one_staged_path`: a single failure leaves the path as it was. */
  method ApplyOneStagedPath<D(0, ==, !new)>(fs: FileSystem<D>, l: Layout, i: nat, ghost first: Tree<D>, ghost past: seq<Tree<D>>)
    returns (r: Result<AppliedPath>)
    requires fs.Valid() && WellPlaced(l) && i < |l.paths| && Rooted(first)
    requires Phase(first, fs.tree, l, i) && SafeSince(first, fs.trace, l, past)
    modifies fs
    ensures r.Ok? <==> fs.failures == old(fs.failures)
    ensures old(fs.failures) <= fs.failures
    ensures fs.Valid() && Safe(first, fs.tree, l) && SafeSince(first, fs.trace, l, past)
    ensures OthersInPhase(first, fs.tree, l, i)
    ensures r.Ok? ==> Phase(first, fs.tree, l, i + 1)
                      && r.value == AppliedPath(l.paths[i], l.LiveAt(i) in first, l.StagedAt(i) in first)
    ensures fs.failures == old(fs.failures) + 1 ==> Original(first, fs.tree, l, i)
  {
    WhatExists(first, fs.tree, l, i);
    PhaseIsSafe(first, fs.tree, l, i);
    var liveExists := l.LiveAt(i) in fs.tree;
    var stagedExists := l.StagedAt(i) in fs.tree;
    if liveExists {
      var aside := SetLiveAside(fs, l, i, first, past);
      if !aside {
        return Err;
      }
    }
    assert Midway(first, fs.tree, l, i);
    if stagedExists {
      var placed := PutStagedInPlace(fs, l, i, liveExists, first, past);
      if !placed {
        return Err;
      }
    } else {
      NothingStaged(first, fs.tree, l, i);
    }
    return Ok(AppliedPath(l.paths[i], liveExists, stagedExists));
  }

  lemma WhatExists<D(!new)>(first: Tree<D>, t: Tree<D>, l: Layout, i: nat)
    requires Rooted(first) && Rooted(t) && i < |l.paths| && Phase(first, t, l, i)
    ensures l.LiveAt(i) in t <==> l.LiveAt(i) in first
    ensures l.StagedAt(i) in t <==> l.StagedAt(i) in first
    ensures l.LiveAt(i) !in first ==> Midway(first, t, l, i)
    ensures l.StagedAt(i) !in first ==> Sub(first, l.StagedAt(i)) == map[]
  {
    assert Fresh(first, t, l, i);
    PhaseIsSafe(first, t, l, i);
    AbsentIsEmpty(t, l.LiveAt(i));
    AbsentIsEmpty(first, l.LiveAt(i));
    AbsentIsEmpty(t, l.StagedAt(i));
    AbsentIsEmpty(first, l.StagedAt(i));
  }

  lemma NothingStaged<D(!new)>(first: Tree<D>, t: Tree<D>, l: Layout, i: nat)
    requires i < |l.paths| && Midway(first, t, l, i) && Sub(first, l.StagedAt(i)) == map[]
    ensures Phase(first, t, l, i + 1)
  {
    assert Applied(first, t, l, i);
  }

  /** Nothing is live at path `i`, and what was live is set aside. */
  ghost predicate Cleared<D(!new)>(first: Tree<D>, t: Tree<D>, l: Layout, i: nat)
    requires i < |l.paths|
  {
    Sub(t, l.LiveAt(i)) == map[] && Sub(t, l.RollbackAt(i)) == Sub(first, l.LiveAt(i))
  }

  ghost predicate Midway<D(!new)>(first: Tree<D>, t: Tree<D>, l: Layout, i: nat)
    requires i < |l.paths|
  {
    Safe(first, t, l) && OthersInPhase(first, t, l, i) && Cleared(first, t, l, i)
    && Sub(t, l.StagedAt(i)) == Sub(first, l.StagedAt(i))
  }

  lemma Unmoved<D(!new)>(first: Tree<D>, t: Tree<D>, u: Tree<D>, l: Layout, i: nat)
    requires i < |l.paths| && Phase(first, t, l, i) && Safe(first, u, l)
    requires forall j :: 0 <= j < |l.paths| ==> SamePlaces(t, u, l, j)
    ensures Phase(first, u, l, i) && OthersInPhase(first, u, l, i) && Original(first, u, l, i)
  {
    OthersStayInPhase(first, t, u, l, i);
    assert SamePlaces(t, u, l, i) && Fresh(first, t, l, i);
  }

  lemma StaysMidway<D(!new)>(first: Tree<D>, t: Tree<D>, u: Tree<D>, l: Layout, i: nat)
    requires i < |l.paths| && Midway(first, t, l, i) && Safe(first, u, l)
    requires forall j :: 0 <= j < |l.paths| ==> SamePlaces(t, u, l, j)
    ensures Midway(first, u, l, i)
  {
    OthersStayInPhase(first, t, u, l, i);
    assert SamePlaces(t, u, l, i);
  }

  lemma SetAside<D(!new)>(first: Tree<D>, t: Tree<D>, l: Layout, i: nat)
    requires WellPlaced(l) && i < |l.paths| && Phase(first, t, l, i)
    ensures Midway(first, MoveTree(t, l.LiveAt(i), l.RollbackAt(i)), l, i)
  {
    var u := MoveTree(t, l.LiveAt(i), l.RollbackAt(i));
    assert Fresh(first, t, l, i);
    PhaseIsSafe(first, t, l, i);
    PlacesApart(l, i, i);
    MoveDisturbsNothing(first, t, l, i, l.LiveAt(i), l.RollbackAt(i));
    MovedArrives(t, l.LiveAt(i), l.RollbackAt(i));
    MovedLeaves(t, l.LiveAt(i), l.RollbackAt(i));
    MovedElsewhere(t, l.LiveAt(i), l.RollbackAt(i), l.StagedAt(i));
    OthersStayInPhase(first, t, u, l, i);
    OthersSurvive(first, t, u, l, i);
  }

  lemma PutInPlace<D(!new)>(first: Tree<D>, t: Tree<D>, l: Layout, i: nat)
    requires WellPlaced(l) && i < |l.paths| && Midway(first, t, l, i)
    ensures Phase(first, MoveTree(t, l.StagedAt(i), l.LiveAt(i)), l, i + 1)
    ensures OthersInPhase(first, MoveTree(t, l.StagedAt(i), l.LiveAt(i)), l, i)
    ensures Safe(first, MoveTree(t, l.StagedAt(i), l.LiveAt(i)), l)
  {
    var u := MoveTree(t, l.StagedAt(i), l.LiveAt(i));
    PlacesApart(l, i, i);
    MoveDisturbsNothing(first, t, l, i, l.StagedAt(i), l.LiveAt(i));
    MovedArrives(t, l.StagedAt(i), l.LiveAt(i));
    MovedElsewhere(t, l.StagedAt(i), l.LiveAt(i), l.RollbackAt(i));
    OthersStayInPhase(first, t, u, l, i);
    assert Applied(first, u, l, i);
    PhaseIsSafe(first, u, l, i + 1);
  }

  lemma StaysCleared<D(!new)>(first: Tree<D>, t: Tree<D>, u: Tree<D>, l: Layout, i: nat)
    requires i < |l.paths| && Cleared(first, t, l, i) && SamePlaces(t, u, l, i)
    ensures Cleared(first, u, l, i)
  {
  }

  lemma BroughtBack<D(!new)>(first: Tree<D>, t: Tree<D>, l: Layout, i: nat)
    requires WellPlaced(l) && i < |l.paths| && Safe(first, t, l) && Cleared(first, t, l, i)
    ensures var u := MoveTree(t, l.RollbackAt(i), l.LiveAt(i));
            Original(first, u, l, i) && SameOthers(t, u, l, i) && Safe(first, u, l)
  {
    var u := MoveTree(t, l.RollbackAt(i), l.LiveAt(i));
    PlacesApart(l, i, i);
    MoveDisturbsNothing(first, t, l, i, l.RollbackAt(i), l.LiveAt(i));
    MovedArrives(t, l.RollbackAt(i), l.LiveAt(i));
    MovedLeaves(t, l.RollbackAt(i), l.LiveAt(i));
    OthersSurvive(first, t, u, l, i);
  }

  lemma TakenBack<D(!new)>(first: Tree<D>, t: Tree<D>, l: Layout, i: nat)
    requires WellPlaced(l) && i < |l.paths| && Midway(first, t, l, i)
    ensures var u := MoveTree(t, l.RollbackAt(i), l.LiveAt(i));
            Original(first, u, l, i) && OthersInPhase(first, u, l, i) && Safe(first, u, l)
  {
    BroughtBack(first, t, l, i);
    OthersStayInPhase(first, t, MoveTree(t, l.RollbackAt(i), l.LiveAt(i)), l, i);
  }

  /** The parent of a path that was live is still a directory: it is outside every migrated path. */
  lemma ParentOutlives<D(!new)>(first: Tree<D>, t: Tree<D>, l: Layout, i: nat)
    requires WellPlaced(l) && i < |l.paths| && Rooted(first) && l.LiveAt(i) in first && KeepsOutside(first, t, l)
    ensures l.LiveAt(i) != [] && Parent(l.LiveAt(i)) in t && t[Parent(l.LiveAt(i))] == Directory
  {
    PlacesApart(l, i, i);
    var parent := Parent(l.LiveAt(i));
    assert parent <= l.LiveAt(i);
    forall j | 0 <= j < |l.paths| ensures !(l.LiveAt(j) <= parent) {
      PlacesApart(l, i, j);
    }
    assert !(l.Staging() <= parent) by {
      assert l.LiveAt(i)[|l.live|] == l.paths[i][0] && l.Staging()[|l.live|] == l.stagingName;
    }
    assert Outside(l, parent);
  }

  /** `rollback_applied_paths`: last applied, first undone. */
  method RollbackAppliedPaths<D(0, ==, !new)>(fs: FileSystem<D>, l: Layout, applied: seq<AppliedPath>, ghost first: Tree<D>, ghost past: seq<Tree<D>>)
    returns (ok: bool)
    requires fs.Valid() && WellPlaced(l) && Rooted(first) && |applied| <= |l.paths|
    requires Safe(first, fs.tree, l) && SafeSince(first, fs.trace, l, past)
    requires forall j :: 0 <= j < |applied| ==>
               Applied(first, fs.tree, l, j)
               && applied[j] == AppliedPath(l.paths[j], l.LiveAt(j) in first, l.StagedAt(j) in first)
    modifies fs
    ensures fs.failures == old(fs.failures) + Faults(ok)
    ensures fs.Valid() && Safe(first, fs.tree, l) && SafeSince(first, fs.trace, l, past)
    ensures ok ==> forall j :: 0 <= j < |applied| ==> Original(first, fs.tree, l, j)
    ensures ok ==> forall j :: |applied| <= j < |l.paths| ==> SamePlaces(old(fs.tree), fs.tree, l, j)
  {
    var i := |applied|;
    while i > 0
      invariant 0 <= i <= |applied| && fs.Valid() && fs.failures == old(fs.failures) && Safe(first, fs.tree, l) && SafeSince(first, fs.trace, l, past)
      invariant forall j :: 0 <= j < i ==> Applied(first, fs.tree, l, j)
      invariant forall j :: i <= j < |applied| ==> Original(first, fs.tree, l, j)
      invariant forall j :: |applied| <= j < |l.paths| ==> SamePlaces(old(fs.tree), fs.tree, l, j)
    {
      i := i - 1;
      ghost var t := fs.tree;
      ok := UndoOne(fs, l, i, applied[i], first, past);
      if !ok {
        return false;
      }
      forall j | 0 <= j < |l.paths| && j != i
        ensures (Applied(first, t, l, j) ==> Applied(first, fs.tree, l, j))
             && (Original(first, t, l, j) ==> Original(first, fs.tree, l, j))
             && (SamePlaces(old(fs.tree), t, l, j) ==> SamePlaces(old(fs.tree), fs.tree, l, j))
      {
        assert SamePlaces(t, fs.tree, l, j);
      }
    }
    return true;
  }

  lemma LiveRemoved<D(!new)>(first: Tree<D>, t: Tree<D>, u: Tree<D>, l: Layout, i: nat)
    requires WellPlaced(l) && i < |l.paths| && Safe(first, t, l) && Applied(first, t, l, i)
    requires Shrunk(t, u, l.LiveAt(i))
    ensures Safe(first, u, l) && SameOthers(t, u, l, i)
    ensures u == RemoveTree(t, l.LiveAt(i)) ==> Cleared(first, u, l, i)
  {
    RemovalDisturbsNothing(first, t, u, l, i);
    assert Survives(first, u, l, i);
    OthersSurvive(first, t, u, l, i);
    SubOfRemoved(t, l.LiveAt(i), l.LiveAt(i));
  }

  lemma NothingWasStaged<D(!new)>(first: Tree<D>, t: Tree<D>, l: Layout, i: nat)
    requires Rooted(first) && i < |l.paths| && Applied(first, t, l, i) && l.StagedAt(i) !in first
    ensures Cleared(first, t, l, i)
  {
    AbsentIsEmpty(first, l.StagedAt(i));
  }

  lemma NothingWasLive<D(!new)>(first: Tree<D>, t: Tree<D>, l: Layout, i: nat)
    requires Rooted(first) && i < |l.paths| && Cleared(first, t, l, i) && l.LiveAt(i) !in first
    ensures Original(first, t, l, i)
  {
    AbsentIsEmpty(first, l.LiveAt(i));
  }

  method UndoOne<D(0, ==, !new)>(fs: FileSystem<D>, l: Layout, i: nat, applied: AppliedPath, ghost first: Tree<D>, ghost past: seq<Tree<D>>)
    returns (ok: bool)
    requires fs.Valid() && WellPlaced(l) && Rooted(first) && i < |l.paths|
    requires Safe(first, fs.tree, l) && SafeSince(first, fs.trace, l, past) && Applied(first, fs.tree, l, i)
    requires applied == AppliedPath(l.paths[i], l.LiveAt(i) in first, l.StagedAt(i) in first)
    modifies fs
    ensures fs.failures == old(fs.failures) + Faults(ok)
    ensures fs.Valid() && Safe(first, fs.tree, l) && SafeSince(first, fs.trace, l, past)
    ensures ok ==> Original(first, fs.tree, l, i) && SameOthers(old(fs.tree), fs.tree, l, i)
  {
    PlacesApart(l, i, i);
    if applied.movedStagedToLive {
      ghost var t, trace := fs.tree, fs.trace;
      ok := fs.RemoveIfExists(l.LiveAt(i));
      LiveRemoved(first, t, fs.tree, l, i);
      StaysSafe(first, trace, fs.tree, l, past);
      if !ok {
        return;
      }
    } else {
      NothingWasStaged(first, fs.tree, l, i);
    }
    if applied.movedLiveToRollback {
      ghost var u := fs.tree;
      ok := BringBack(fs, l, i, first, past);
      if ok {
        SameOthersTrans(old(fs.tree), u, fs.tree, l, i);
      }
    } else {
      ok := true;
      NothingWasLive(first, fs.tree, l, i);
    }
  }

  method BringBack<D(0, ==, !new)>(fs: FileSystem<D>, l: Layout, i: nat, ghost first: Tree<D>, ghost past: seq<Tree<D>>) returns (ok: bool)
    requires fs.Valid() && WellPlaced(l) && i < |l.paths|
    requires Safe(first, fs.tree, l) && SafeSince(first, fs.trace, l, past)
    requires Cleared(first, fs.tree, l, i)
    modifies fs
    ensures fs.failures == old(fs.failures) + Faults(ok)
    ensures fs.Valid() && Safe(first, fs.tree, l) && SafeSince(first, fs.trace, l, past)
    ensures ok ==> Original(first, fs.tree, l, i) && SameOthers(old(fs.tree), fs.tree, l, i)
  {
    PlacesApart(l, i, i);
    ok := EnsureParentDir(fs, l.LiveAt(i), l, i, first, past);
    if !ok {
      return;
    }
    ghost var u, trace := fs.tree, fs.trace;
    StaysCleared(first, old(fs.tree), u, l, i);
    ok := fs.Rename(l.RollbackAt(i), l.LiveAt(i));
    if ok {
      BroughtBack(first, u, l, i);
      SameOthersTrans(old(fs.tree), u, fs.tree, l, i);
    }
    StaysSafe(first, trace, fs.tree, l, past);
  }

  lemma SameOthersTrans<D(!new)>(t: Tree<D>, u: Tree<D>, v: Tree<D>, l: Layout, i: nat)
    requires SameOthers(t, u, l, i) && SameOthers(u, v, l, i)
    ensures SameOthers(t, v, l, i)
  {
    forall j | 0 <= j < |l.paths| && j != i ensures SamePlaces(t, v, l, j) {
      assert SamePlaces(t, u, l, j) && SamePlaces(u, v, l, j);
    }
  }

  /**
   * `apply_staged_paths`. Without a failing call it succeeds, and then at each migrated path the live
   * subtree is what was staged. When a call fails and no other one fails while undoing, every live
   * subtree is the original. In any case, and at every step in between, nothing else changes and every
   * original subtree is whole, at its live or at its rollback path.
   */
  method ApplyStagedPaths<D(0, ==, !new)>(fs: FileSystem<D>, l: Layout) returns (ok: bool)
    requires fs.Valid() && WellPlaced(l) && l.paths != [] && l.Rollback() !in fs.tree
    modifies fs
    ensures fs.Valid()
    ensures old(fs.failures) <= fs.failures && (ok <==> fs.failures == old(fs.failures))
    ensures ok ==> AllStaged(old(fs.tree), fs.tree, l)
    ensures fs.failures == old(fs.failures) + 1 ==> AllLive(old(fs.tree), fs.tree, l)
    ensures KeepsOutside(old(fs.tree), fs.tree, l)
    ensures old(fs.trace) <= fs.trace
    ensures forall k :: |old(fs.trace)| <= k < |fs.trace| ==> Safe(old(fs.tree), fs.trace[k], l)
  {
    ghost var first, past := fs.tree, fs.trace;
    ok := CreateRollbackDir(fs, l);
    if ok {
      ok := ApplyAll(fs, l, first, past);
    } else {
      PhaseIsSafe(first, fs.tree, l, 0);
      forall i | 0 <= i < |l.paths| ensures LiveIsOriginal(first, fs.tree, l, i) {
        assert Fresh(first, fs.tree, l, i);
      }
    }
    SafeSoFar(first, fs.trace, l, past);
  }

  method CreateRollbackDir<D(0, ==, !new)>(fs: FileSystem<D>, l: Layout) returns (ok: bool)
    requires fs.Valid() && WellPlaced(l) && l.paths != [] && l.Rollback() !in fs.tree
    modifies fs
    ensures fs.failures == old(fs.failures) + Faults(ok)
    ensures fs.Valid() && Phase(old(fs.tree), fs.tree, l, 0)
    ensures SafeSince(old(fs.tree), fs.trace, l, old(fs.trace))
  {
    ghost var first := fs.tree;
    StartsFresh(first, l);
    ok := fs.CreateDirAll(l.Rollback());
    ghost var made: Path;
    if ok {
      made := l.Rollback();
    } else {
      ghost var k :| 0 <= k <= |l.Rollback()| && fs.tree == MakeDirs(first, l.Rollback()[..k]);
      made := l.Rollback()[..k];
    }
    assert l.RollbackAt(0) == l.Rollback() + l.paths[0];
    assert made <= l.Rollback() && |made| < |l.RollbackAt(0)|;
    DirsDisturbNothing(first, first, l, 0, made);
    forall i | 0 <= i < |l.paths| ensures Fresh(first, fs.tree, l, i) {
      assert SamePlaces(first, fs.tree, l, i) && Fresh(first, first, l, i);
    }
    PhaseIsSafe(first, fs.tree, l, 0);
    StaysSafe(first, old(fs.trace), fs.tree, l, old(fs.trace));
  }

  /** What each applied path records. */
  ghost predicate Recorded<D(!new)>(first: Tree<D>, l: Layout, applied: seq<AppliedPath>) {
    |applied| <= |l.paths|
    && forall j :: 0 <= j < |applied| ==> applied[j] == AppliedPath(l.paths[j], l.LiveAt(j) in first, l.StagedAt(j) in first)
  }

  ghost predicate AllStaged<D(!new)>(first: Tree<D>, t: Tree<D>, l: Layout) {
    forall i :: 0 <= i < |l.paths| ==> LiveIsStaged(first, t, l, i)
  }

  ghost predicate AllLive<D(!new)>(first: Tree<D>, t: Tree<D>, l: Layout) {
    forall i :: 0 <= i < |l.paths| ==> LiveIsOriginal(first, t, l, i)
  }

  method ApplyAll<D(0, ==, !new)>(fs: FileSystem<D>, l: Layout, ghost first: Tree<D>, ghost past: seq<Tree<D>>)
    returns (ok: bool)
    requires fs.Valid() && WellPlaced(l) && Rooted(first)
    requires Phase(first, fs.tree, l, 0) && SafeSince(first, fs.trace, l, past)
    modifies fs
    ensures fs.Valid()
    ensures ok ==> AllStaged(first, fs.tree, l)
    ensures old(fs.failures) <= fs.failures && (ok <==> fs.failures == old(fs.failures))
    ensures fs.failures == old(fs.failures) + 1 ==> AllLive(first, fs.tree, l)
    ensures Safe(first, fs.tree, l) && SafeSince(first, fs.trace, l, past)
  {
    var applied: seq<AppliedPath> := [];
    PhaseIsSafe(first, fs.tree, l, 0);
    while |applied| < |l.paths|
      invariant Recorded(first, l, applied) && fs.Valid() && fs.failures == old(fs.failures)
      invariant Phase(first, fs.tree, l, |applied|) && Safe(first, fs.tree, l) && SafeSince(first, fs.trace, l, past)
    {
      var one := ApplyOneStagedPath(fs, l, |applied|, first, past);
      if one.Err? {
        var back := Abandon(fs, l, applied, fs.failures == old(fs.failures) + 1, first, past);
        return false;
      }
      applied := applied + [one.value];
    }
    AllApplied(first, fs.tree, l);
    return true;
  }

  lemma AllApplied<D(!new)>(first: Tree<D>, t: Tree<D>, l: Layout)
    requires Phase(first, t, l, |l.paths|)
    ensures AllStaged(first, t, l)
  {
    forall i | 0 <= i < |l.paths| ensures LiveIsStaged(first, t, l, i) {
      assert Applied(first, t, l, i);
    }
  }

  /** The error branch: the paths applied so far are rolled back. */
  method Abandon<D(0, ==, !new)>(fs: FileSystem<D>, l: Layout, applied: seq<AppliedPath>, ghost oneUndone: bool,
                                 ghost first: Tree<D>, ghost past: seq<Tree<D>>)
    returns (back: bool)
    requires fs.Valid() && WellPlaced(l) && Rooted(first) && Recorded(first, l, applied) && |applied| < |l.paths|
    requires Safe(first, fs.tree, l) && SafeSince(first, fs.trace, l, past) && OthersInPhase(first, fs.tree, l, |applied|)
    requires oneUndone ==> Original(first, fs.tree, l, |applied|)
    modifies fs
    ensures fs.failures == old(fs.failures) + Faults(back)
    ensures fs.Valid() && Safe(first, fs.tree, l) && SafeSince(first, fs.trace, l, past)
    ensures back && oneUndone ==> AllLive(first, fs.tree, l)
  {
    ghost var t := fs.tree;
    back := RollbackAppliedPaths(fs, l, applied, first, past);
    if back && oneUndone {
      AllOriginal(first, t, fs.tree, l, |applied|);
    }
  }

  lemma OneOriginal<D(!new)>(first: Tree<D>, t: Tree<D>, u: Tree<D>, l: Layout, j: nat)
    requires j < |l.paths| && Original(first, t, l, j) && SamePlaces(t, u, l, j)
    ensures LiveIsOriginal(first, u, l, j)
  {
  }

  lemma AllOriginal<D(!new)>(first: Tree<D>, t: Tree<D>, u: Tree<D>, l: Layout, i: nat)
    requires i < |l.paths| && OthersInPhase(first, t, l, i) && Original(first, t, l, i)
    requires forall j :: 0 <= j < i ==> Original(first, u, l, j)
    requires forall j :: i <= j < |l.paths| ==> SamePlaces(t, u, l, j)
    ensures AllLive(first, u, l)
  {
    hide Original, SamePlaces, LiveIsOriginal, Fresh;
    forall j | 0 <= j < |l.paths| ensures LiveIsOriginal(first, u, l, j) {
      if j < i {
        OriginalIsLive(first, u, l, j);
      } else {
        if j > i {
          FreshIsOriginal(first, t, l, j);
        }
        OneOriginal(first, t, u, l, j);
      }
    }
  }

  lemma OriginalIsLive<D(!new)>(first: Tree<D>, t: Tree<D>, l: Layout, j: nat)
    requires j < |l.paths| && Original(first, t, l, j)
    ensures LiveIsOriginal(first, t, l, j)
  {
  }

  lemma FreshIsOriginal<D(!new)>(first: Tree<D>, t: Tree<D>, l: Layout, j: nat)
    requires j < |l.paths| && Fresh(first, t, l, j)
    ensures Original(first, t, l, j)
  {
  }

  lemma StartsFresh<D(!new)>(first: Tree<D>, l: Layout)
    requires Rooted(first) && WellPlaced(l) && l.Rollback() !in first
    ensures Phase(first, first, l, 0)
  {
    forall i | 0 <= i < |l.paths| ensures Fresh(first, first, l, i) {
      NothingBelow(first, l.Rollback(), l.paths[i]);
      assert l.RollbackAt(i) == l.Rollback() + l.paths[i];
      AbsentIsEmpty(first, l.RollbackAt(i));
    }
  }
}
