/** A file system as a map from paths to entries, with calls that may fail. */
module FileTree {
  type Path = seq<string>

  datatype Entry<+D> = Directory | File(data: D)

  type Tree<D> = map<Path, Entry<D>>

  predicate Apart(a: Path, b: Path) {
    !(a <= b) && !(b <= a)
  }

  function Parent(p: Path): Path
    requires p != []
  {
    p[..|p| - 1]
  }

  ghost predicate AreBelow<D(!new)>(t: Tree<D>, root: Path, rels: set<Path>) {
    forall r {:trigger r in rels} :: r in rels <==> root + r in t
  }

  /** The relative paths of the entries at and below `root`. */
  ghost function Below<D(!new)>(t: Tree<D>, root: Path): (rels: set<Path>)
    ensures AreBelow(t, root, rels)
  {
    BelowExists(t, root);
    var rels :| AreBelow(t, root, rels);
    rels
  }

  lemma BelowExists<D(!new)>(t: Tree<D>, root: Path)
    ensures exists rels :: AreBelow(t, root, rels)
  {
    var rels := set q | q in t && root <= q :: q[|root|..];
    assert forall q | q in t && root <= q :: q == root + q[|root|..];
    assert forall r :: root <= root + r && (root + r)[|root|..] == r;
    assert AreBelow(t, root, rels);
  }

  /** The subtree at `root`, by relative path; empty when nothing is there. */
  ghost function Sub<D(!new)>(t: Tree<D>, root: Path): Tree<D> {
    map r | r in Below(t, root) :: t[root + r]
  }

  function RemoveTree<D(!new)>(t: Tree<D>, p: Path): Tree<D> {
    map q | q in t && !(p <= q) :: t[q]
  }

  ghost predicate ArePlaced(at: Path, rels: set<Path>, paths: set<Path>) {
    forall q {:trigger q in paths} :: q in paths <==> at <= q && q[|at|..] in rels
  }

  /** The paths at and below `at` whose relative parts are in `rels`. */
  ghost function Placed(at: Path, rels: set<Path>): (paths: set<Path>)
    ensures ArePlaced(at, rels, paths)
  {
    PlacedExists(at, rels);
    var paths :| ArePlaced(at, rels, paths);
    paths
  }

  lemma PlacedExists(at: Path, rels: set<Path>)
    ensures exists paths :: ArePlaced(at, rels, paths)
  {
    var paths := set r | r in rels :: at + r;
    assert forall q: Path :: at <= q ==> q == at + q[|at|..];
    assert ArePlaced(at, rels, paths);
  }

  ghost function Graft<D(!new)>(at: Path, sub: Tree<D>): Tree<D> {
    map q | q in Placed(at, sub.Keys) :: sub[q[|at|..]]
  }

  /** `rename`: the subtree at `from` appears at `to`, and nowhere else. */
  ghost function MoveTree<D(!new)>(t: Tree<D>, from: Path, to: Path): Tree<D> {
    RemoveTree(RemoveTree(t, from), to) + Graft(to, Sub(t, from))
  }

  /** `create_dir_all`: every missing prefix of `p` becomes a directory. */
  function MakeDirs<D(!new)>(t: Tree<D>, p: Path): Tree<D> {
    t + map k | 0 <= k <= |p| && p[..k] !in t :: p[..k] := Directory
  }

  /** Every entry has a parent directory. */
  predicate Rooted<D(!new)>(t: Tree<D>) {
    [] in t && t[[]].Directory? && forall q <- t :: q != [] ==> Parent(q) in t && t[Parent(q)].Directory?
  }

  predicate CanHoldDirs<D(!new)>(t: Tree<D>, p: Path) {
    forall k :: 0 <= k <= |p| && p[..k] in t ==> t[p[..k]].Directory?
  }

  lemma PrefixBelow(root: Path, a: Path, b: Path)
    ensures root + a <= root + b <==> a <= b
  {
    if root + a <= root + b {
      forall k | 0 <= k < |a| ensures k < |b| && a[k] == b[k] {
        assert (root + a)[|root| + k] == a[k] && (root + b)[|root| + k] == b[k];
      }
    }
  }

  lemma ApartBelow(root: Path, a: Path, b: Path)
    requires Apart(a, b)
    ensures Apart(root + a, root + b)
  {
    PrefixBelow(root, a, b);
    PrefixBelow(root, b, a);
  }

  lemma ApartAt(a: Path, b: Path, n: nat)
    requires n < |a| && n < |b| && a[n] != b[n]
    ensures Apart(a, b)
  {
  }

  // ---------- subtrees under the operations ----------

  lemma SubAt<D(!new)>(t: Tree<D>, root: Path, r: Path)
    ensures r in Sub(t, root) <==> root + r in t
    ensures r in Sub(t, root) ==> Sub(t, root)[r] == t[root + r]
  {
  }

  /** Two trees with the same entries below `root` have the same subtree there. */
  lemma SameBelow<D(!new)>(t: Tree<D>, u: Tree<D>, root: Path)
    requires forall q :: root <= q ==> (q in t <==> q in u) && (q in t ==> t[q] == u[q])
    ensures Sub(t, root) == Sub(u, root)
  {
    forall r ensures r in Sub(t, root) <==> r in Sub(u, root)
      ensures r in Sub(t, root) ==> Sub(t, root)[r] == Sub(u, root)[r]
    {
      SubAt(t, root, r);
      SubAt(u, root, r);
      assert root <= root + r;
    }
  }

  lemma SubOfRemoved<D(!new)>(t: Tree<D>, p: Path, root: Path)
    ensures p <= root ==> Sub(RemoveTree(t, p), root) == map[]
    ensures Apart(p, root) ==> Sub(RemoveTree(t, p), root) == Sub(t, root)
  {
    if Apart(p, root) {
      SameBelow(RemoveTree(t, p), t, root);
    }
  }

  lemma GraftAt<D(!new)>(at: Path, sub: Tree<D>, q: Path)
    ensures q in Graft(at, sub) <==> at <= q && q[|at|..] in sub
    ensures q in Graft(at, sub) ==> Graft(at, sub)[q] == sub[q[|at|..]]
  {
  }

  lemma MovedArrives<D(!new)>(t: Tree<D>, from: Path, to: Path)
    ensures Sub(MoveTree(t, from, to), to) == Sub(t, from)
  {
    var moved := MoveTree(t, from, to);
    forall r ensures r in Sub(moved, to) <==> r in Sub(t, from)
      ensures r in Sub(moved, to) ==> Sub(moved, to)[r] == Sub(t, from)[r]
    {
      SubAt(moved, to, r);
      GraftAt(to, Sub(t, from), to + r);
      assert (to + r)[|to|..] == r;
    }
  }

  lemma MovedLeaves<D(!new)>(t: Tree<D>, from: Path, to: Path)
    requires Apart(from, to)
    ensures Sub(MoveTree(t, from, to), from) == map[]
  {
    var moved := MoveTree(t, from, to);
    forall r ensures r !in Sub(moved, from) {
      SubAt(moved, from, r);
      GraftAt(to, Sub(t, from), from + r);
    }
  }

  lemma MovedElsewhere<D(!new)>(t: Tree<D>, from: Path, to: Path, root: Path)
    requires Apart(from, root) && Apart(to, root)
    ensures Sub(MoveTree(t, from, to), root) == Sub(t, root)
  {
    var moved := MoveTree(t, from, to);
    forall q | root <= q ensures (q in moved <==> q in t) && (q in t ==> moved[q] == t[q]) {
      GraftAt(to, Sub(t, from), q);
    }
    SameBelow(moved, t, root);
  }

  /** A path under neither end is not touched by a move. */
  lemma MovedOutside<D(!new)>(t: Tree<D>, from: Path, to: Path, q: Path)
    requires !(from <= q) && !(to <= q)
    ensures q in MoveTree(t, from, to) <==> q in t
    ensures q in t ==> MoveTree(t, from, to)[q] == t[q]
  {
    GraftAt(to, Sub(t, from), q);
  }

  /** New directories lie strictly above whatever is not above them. */
  lemma SubOfMadeDirs<D(!new)>(t: Tree<D>, p: Path, root: Path)
    requires !(root <= p)
    ensures Sub(MakeDirs(t, p), root) == Sub(t, root)
  {
    var made := MakeDirs(t, p);
    SameBelow(made, t, root);
  }

  lemma MadeDirsAdd<D(!new)>(t: Tree<D>, p: Path, q: Path)
    ensures q in t ==> q in MakeDirs(t, p) && MakeDirs(t, p)[q] == t[q]
    ensures q in MakeDirs(t, p) && q !in t ==> q <= p && MakeDirs(t, p)[q] == Directory
  {
  }

  lemma AbsentIsEmpty<D(!new)>(t: Tree<D>, p: Path)
    requires Rooted(t)
    ensures p in t <==> Sub(t, p) != map[]
    ensures p in t <==> [] in Sub(t, p)
  {
    SubAt(t, p, []);
    assert p + [] == p;
    if p !in t {
      forall r ensures r !in Sub(t, p) {
        SubAt(t, p, r);
        NothingBelow(t, p, r);
      }
    }
  }

  lemma {:induction false} NothingBelow<D(!new)>(t: Tree<D>, p: Path, r: Path)
    requires Rooted(t) && p !in t
    ensures p + r !in t
  {
    if r == [] {
      assert p + r == p;
    } else {
      NothingBelow(t, p, Parent(r));
      assert p + r != [] && Parent(p + r) == p + Parent(r);
    }
  }

  lemma NothingToRemove<D(!new)>(t: Tree<D>, p: Path)
    requires Rooted(t) && p !in t
    ensures RemoveTree(t, p) == t
  {
    forall q | p <= q ensures q !in t {
      NothingBelow(t, p, q[|p|..]);
      assert q == p + q[|p|..];
    }
  }

  lemma {:induction false} PrefixIsDirectory<D(!new)>(t: Tree<D>, p: Path, k: nat)
    requires Rooted(t) && p in t && k < |p|
    ensures p[..k] in t && t[p[..k]] == Directory
    decreases |p| - k
  {
    if k == |p| - 1 {
      assert p[..k] == Parent(p);
    } else {
      PrefixIsDirectory(t, p, k + 1);
      assert Parent(p[..k + 1]) == p[..k];
    }
  }

  lemma MadeDirsRooted<D(!new)>(t: Tree<D>, p: Path)
    requires Rooted(t) && CanHoldDirs(t, p)
    ensures Rooted(MakeDirs(t, p))
  {
    var made := MakeDirs(t, p);
    forall q | q in made && q != [] ensures Parent(q) in made && made[Parent(q)] == Directory {
      if q !in t {
        var k :| 0 <= k <= |p| && q == p[..k];
        assert Parent(q) == p[..k - 1];
      }
    }
  }

  lemma MadeDirsReach<D(!new)>(t: Tree<D>, p: Path)
    requires CanHoldDirs(t, p)
    ensures p in MakeDirs(t, p) && MakeDirs(t, p)[p] == Directory
  {
    assert p[..|p|] == p;
  }

  lemma RemovedRooted<D(!new)>(t: Tree<D>, p: Path)
    requires Rooted(t) && p != []
    ensures Rooted(RemoveTree(t, p))
  {
  }

  lemma MovedRooted<D(!new)>(t: Tree<D>, from: Path, to: Path)
    requires Rooted(t) && Apart(from, to) && Parent(to) in t && t[Parent(to)] == Directory
    requires to != [] && from != []
    ensures Rooted(MoveTree(t, from, to))
  {
    var moved := MoveTree(t, from, to);
    MovedOutside(t, from, to, []);
    forall q | q in moved && q != [] ensures Parent(q) in moved && moved[Parent(q)] == Directory {
      MovedParent(t, from, to, q);
    }
  }

  lemma MovedParent<D(!new)>(t: Tree<D>, from: Path, to: Path, q: Path)
    requires Rooted(t) && Apart(from, to) && to != [] && from != [] && Parent(to) in t && t[Parent(to)] == Directory
    requires q in MoveTree(t, from, to) && q != []
    ensures Parent(q) in MoveTree(t, from, to) && MoveTree(t, from, to)[Parent(q)] == Directory
  {
    GraftAt(to, Sub(t, from), q);
    if to <= q {
      if q == to {
        MovedOutside(t, from, to, Parent(to));
      } else {
        MovedInner(t, from, to, q);
      }
    } else {
      MovedOutside(t, from, to, Parent(q));
    }
  }

  lemma MovedInner<D(!new)>(t: Tree<D>, from: Path, to: Path, q: Path)
    requires Rooted(t) && to <= q && q != to && q[|to|..] in Sub(t, from)
    ensures Parent(q) in MoveTree(t, from, to) && MoveTree(t, from, to)[Parent(q)] == Directory
  {
    var r := q[|to|..];
    assert to <= Parent(q) && Parent(q)[|to|..] == Parent(r);
    SubAt(t, from, r);
    assert Parent(from + r) == from + Parent(r);
    SubAt(t, from, Parent(r));
    GraftAt(to, Sub(t, from), Parent(q));
  }

  /** Part of the subtree at `p` is gone, and nothing else has changed. */
  ghost predicate Shrunk<D(!new)>(before: Tree<D>, after: Tree<D>, p: Path) {
    (forall q <- after :: q in before && after[q] == before[q])
    && (forall q <- before :: !(p <= q) ==> q in after)
  }

  lemma SubOfShrunk<D(!new)>(before: Tree<D>, after: Tree<D>, p: Path, root: Path)
    requires Shrunk(before, after, p) && Apart(p, root)
    ensures Sub(after, root) == Sub(before, root)
  {
    forall q | root <= q ensures q in before <==> q in after {
    }
    SameBelow(after, before, root);
  }

  lemma SubOfWrite<D(!new)>(t: Tree<D>, root: Path, r: Path, e: Entry<D>)
    ensures Sub(t[root + r := e], root) == Sub(t, root)[r := e]
  {
    var u := t[root + r := e];
    forall q ensures q in Sub(u, root) <==> q in Sub(t, root)[r := e]
      ensures q in Sub(u, root) ==> Sub(u, root)[q] == Sub(t, root)[r := e][q]
    {
      SubAt(u, root, q);
      SubAt(t, root, q);
      if root + q == root + r {
        assert q == (root + q)[|root|..] && r == (root + r)[|root|..];
      }
    }
  }

  lemma SubOfRemoval<D(!new)>(t: Tree<D>, root: Path, r: Path)
    ensures Sub(RemoveTree(t, root + r), root) == RemoveTree(Sub(t, root), r)
  {
    var u := RemoveTree(t, root + r);
    forall q ensures q in Sub(u, root) <==> q in RemoveTree(Sub(t, root), r)
      ensures q in Sub(u, root) ==> Sub(u, root)[q] == RemoveTree(Sub(t, root), r)[q]
    {
      SubAt(u, root, q);
      SubAt(t, root, q);
      PrefixBelow(root, r, q);
    }
  }

  lemma SubOfNewDir<D(!new)>(t: Tree<D>, p: Path)
    requires Rooted(t) && p !in t
    ensures Sub(MakeDirs(t, p), p) == map[[] := Directory]
  {
    var made := MakeDirs(t, p);
    forall q ensures q in Sub(made, p) <==> q == []
      ensures q in Sub(made, p) ==> Sub(made, p)[q] == Directory
    {
      SubAt(made, p, q);
      MadeDirsAdd(t, p, p + q);
      NothingBelow(t, p, q);
      assert p + [] == p && p[..|p|] == p;
    }
  }

  lemma ApartBelowOne(a: Path, b: Path, name: string)
    requires Apart(a, b)
    ensures Apart(a, b + [name]) && Apart(b + [name], a)
  {
  }

  ghost predicate SubsAgree<D(!new)>(t: Tree<D>, p: Path, u: Tree<D>, q: Path) {
    Sub(t, p) == Sub(u, q)
  }

  lemma SubOfSub<D(!new)>(t: Tree<D>, p: Path, inner: Path)
    ensures SubsAgree(t, p + inner, Sub(t, p), inner)
  {
    var s := Sub(t, p);
    forall r ensures r in Sub(t, p + inner) <==> r in Sub(s, inner)
      ensures r in Sub(t, p + inner) ==> Sub(t, p + inner)[r] == Sub(s, inner)[r]
    {
      SubAt(t, p, inner + r);
      SameInner(t, p, s, inner, r);
    }
    assert Sub(t, p + inner) == Sub(s, inner);
  }

  lemma SameInner<D(!new)>(t: Tree<D>, p: Path, s: Tree<D>, inner: Path, r: Path)
    requires inner + r in s <==> p + (inner + r) in t
    requires inner + r in s ==> s[inner + r] == t[p + (inner + r)]
    ensures r in Sub(t, p + inner) <==> r in Sub(s, inner)
    ensures r in Sub(t, p + inner) ==> Sub(t, p + inner)[r] == Sub(s, inner)[r]
  {
    assert p + (inner + r) == p + inner + r;
    SubAt(t, p + inner, r);
    SubAt(s, inner, r);
  }

  /** Where two trees have the same subtree, they have the same subtrees inside it. */
  lemma AgreeInside<D(!new)>(t: Tree<D>, p: Path, u: Tree<D>, q: Path, inner: Path)
    requires SubsAgree(t, p, u, q)
    ensures SubsAgree(t, p + inner, u, q + inner)
  {
    SubOfSub(t, p, inner);
    SubOfSub(u, q, inner);
  }

  // ---------- what an operation may touch ----------

  /** Entries are changed at or below the roots only, but for new directories above them. */
  predicate Confined<D(==, !new)>(t: Tree<D>, u: Tree<D>, roots: set<Path>) {
    (forall q <- t :: !Covered(q, roots) ==> q in u && u[q] == t[q])
    && (forall q <- u :: !Covered(q, roots) ==> q in t || (u[q] == Directory && AboveSome(q, roots)))
  }

  predicate Covered(q: Path, roots: set<Path>) {
    exists root <- roots :: root <= q
  }

  predicate AboveSome(q: Path, roots: set<Path>) {
    exists root <- roots :: q < root
  }

  lemma ConfinedReflexive<D(!new)>(t: Tree<D>, roots: set<Path>)
    ensures Confined(t, t, roots)
  {
  }

  lemma ConfinedTrans<D(!new)>(t: Tree<D>, u: Tree<D>, v: Tree<D>, roots: set<Path>)
    requires Confined(t, u, roots) && Confined(u, v, roots)
    ensures Confined(t, v, roots)
  {
  }

  /** A change below smaller roots is a change below larger ones. */
  lemma ConfinedWiden<D(!new)>(t: Tree<D>, u: Tree<D>, roots: set<Path>, wider: set<Path>)
    requires Confined(t, u, roots) && forall root <- roots :: Covered(root, wider)
    ensures Confined(t, u, wider)
  {
    forall q | Covered(q, roots) ensures Covered(q, wider) {
      var root :| root in roots && root <= q;
      var wide :| wide in wider && wide <= root;
      assert wide <= q;
    }
    forall q | AboveSome(q, roots) && !Covered(q, wider) ensures AboveSome(q, wider) {
      var root :| root in roots && q < root;
      var wide :| wide in wider && wide <= root;
      assert q < wide;
    }
  }

  /** What is apart from every root has the same subtree. */
  lemma ConfinedSub<D(!new)>(t: Tree<D>, u: Tree<D>, roots: set<Path>, p: Path)
    requires Confined(t, u, roots) && forall root <- roots :: Apart(root, p)
    ensures Sub(u, p) == Sub(t, p)
  {
    forall q | p <= q ensures (q in u <==> q in t) && (q in t ==> u[q] == t[q]) {
      assert !Covered(q, roots) && !AboveSome(q, roots);
    }
    SameBelow(u, t, p);
  }

  lemma MadeDirsConfined<D(!new)>(t: Tree<D>, p: Path, root: Path)
    requires p <= root || root <= p
    ensures Confined(t, MakeDirs(t, p), {root})
  {
    forall q | q in MakeDirs(t, p) && q !in t && !Covered(q, {root}) ensures q < root {
      MadeDirsAdd(t, p, q);
    }
  }

  lemma MovedConfined<D(!new)>(t: Tree<D>, from: Path, to: Path)
    ensures Confined(t, MoveTree(t, from, to), {from, to})
  {
    forall q | !Covered(q, {from, to}) ensures !(from <= q) && !(to <= q) {
      assert from in {from, to} && to in {from, to};
    }
    forall q | !(from <= q) && !(to <= q)
      ensures (q in MoveTree(t, from, to) <==> q in t) && (q in t ==> MoveTree(t, from, to)[q] == t[q])
    {
      MovedOutside(t, from, to, q);
    }
  }

  /** A copy of the subtree at `from` appears at `to`. */
  ghost function CopyOver<D(!new)>(t: Tree<D>, from: Path, to: Path): Tree<D> {
    t + Graft(to, Sub(t, from))
  }

  lemma CopiedEntry<D(!new)>(t: Tree<D>, from: Path, to: Path, q: Path)
    requires Rooted(t) && to !in t
    ensures q in CopyOver(t, from, to) <==> if to <= q then from + q[|to|..] in t else q in t
    ensures q in CopyOver(t, from, to) ==> CopyOver(t, from, to)[q] == if to <= q then t[from + q[|to|..]] else t[q]
  {
    GraftAt(to, Sub(t, from), q);
    if to <= q {
      SubAt(t, from, q[|to|..]);
      NothingBelow(t, to, q[|to|..]);
      assert to + q[|to|..] == q;
    }
  }

  lemma CopiedArrives<D(!new)>(t: Tree<D>, from: Path, to: Path)
    requires Rooted(t) && to !in t
    ensures Sub(CopyOver(t, from, to), to) == Sub(t, from)
    ensures Confined(t, CopyOver(t, from, to), {to})
  {
    var copied := CopyOver(t, from, to);
    forall r ensures r in Sub(copied, to) <==> r in Sub(t, from)
      ensures r in Sub(copied, to) ==> Sub(copied, to)[r] == Sub(t, from)[r]
    {
      CopiedEntry(t, from, to, to + r);
      assert (to + r)[|to|..] == r;
      SubAt(copied, to, r);
      SubAt(t, from, r);
    }
    forall q | !Covered(q, {to}) ensures q in copied <==> q in t {
      CopiedEntry(t, from, to, q);
    }
  }

  lemma CopiedRooted<D(!new)>(t: Tree<D>, from: Path, to: Path)
    requires Rooted(t) && to !in t && to != [] && Parent(to) in t && t[Parent(to)] == Directory
    ensures Rooted(CopyOver(t, from, to))
  {
    var copied := CopyOver(t, from, to);
    CopiedEntry(t, from, to, []);
    forall q | q in copied && q != [] ensures Parent(q) in copied && copied[Parent(q)] == Directory {
      if to <= q && q != to {
        CopiedInner(t, from, to, q);
      } else {
        CopiedEntry(t, from, to, q);
        CopiedEntry(t, from, to, Parent(q));
      }
    }
  }

  lemma CopiedInner<D(!new)>(t: Tree<D>, from: Path, to: Path, q: Path)
    requires Rooted(t) && to !in t && to <= q && q != to && q in CopyOver(t, from, to)
    ensures Parent(q) in CopyOver(t, from, to) && CopyOver(t, from, to)[Parent(q)] == Directory
  {
    var r := q[|to|..];
    CopiedEntry(t, from, to, q);
    assert to <= Parent(q) && Parent(q)[|to|..] == Parent(r);
    assert Parent(from + r) == from + Parent(r);
    CopiedEntry(t, from, to, Parent(q));
  }

  lemma CopyPrepared<D(!new)>(t: Tree<D>, from: Path, to: Path)
    requires Rooted(t) && to != [] && to !in t && Apart(from, to) && CanHoldDirs(t, Parent(to))
    ensures var made := MakeDirs(t, Parent(to));
            && Rooted(made) && to !in made && Parent(to) in made && made[Parent(to)] == Directory
            && Confined(t, made, {to}) && Sub(made, from) == Sub(t, from)
  {
    MadeDirsRooted(t, Parent(to));
    MadeDirsReach(t, Parent(to));
    MadeDirsConfined(t, Parent(to), to);
    MadeDirsAdd(t, Parent(to), to);
    SubOfMadeDirs(t, Parent(to), from);
  }

  lemma CopyPlaced<D(!new)>(t: Tree<D>, made: Tree<D>, from: Path, to: Path)
    requires to != [] && Rooted(made) && to !in made && Parent(to) in made && made[Parent(to)] == Directory
    requires Confined(t, made, {to}) && Sub(made, from) == Sub(t, from)
    ensures var u := CopyOver(made, from, to);
            Rooted(u) && Confined(t, u, {to}) && Sub(u, to) == Sub(t, from)
  {
    CopiedRooted(made, from, to);
    CopiedArrives(made, from, to);
    ConfinedTrans(t, made, CopyOver(made, from, to), {to});
  }

  /** What is there was there already, or is at or below a root, or is a new directory above one. */
  predicate Thinned<D(==, !new)>(t: Tree<D>, u: Tree<D>, roots: set<Path>) {
    forall q <- u :: !Covered(q, roots) ==> (q in t && u[q] == t[q]) || (u[q] == Directory && AboveSome(q, roots))
  }

  /** The trace goes on from `past` with changes below the roots only. */
  ghost predicate WithinSince<D(!new)>(first: Tree<D>, trace: seq<Tree<D>>, roots: set<Path>, past: seq<Tree<D>>) {
    trace == past
    || (trace != [] && Confined(first, trace[|trace| - 1], roots) && WithinSince(first, trace[..|trace| - 1], roots, past))
  }

  ghost predicate Within<D(!new)>(first: Tree<D>, t: Tree<D>, trace: seq<Tree<D>>, roots: set<Path>, past: seq<Tree<D>>) {
    Confined(first, t, roots) && WithinSince(first, trace, roots, past)
  }

  /** One more state, changed below `changed`. */
  lemma StaysWithin<D(!new)>(first: Tree<D>, t: Tree<D>, trace: seq<Tree<D>>, u: Tree<D>, roots: set<Path>,
                             changed: set<Path>, past: seq<Tree<D>>)
    requires Within(first, t, trace, roots, past) && Confined(t, u, changed) && forall root <- changed :: Covered(root, roots)
    ensures Within(first, u, trace + [u], roots, past)
  {
    ConfinedWiden(t, u, changed, roots);
    ConfinedTrans(first, t, u, roots);
    assert (trace + [u])[..|trace|] == trace;
  }

  // ---------- the live file system ----------

  /** What a call adds to the count of failures. */
  function Faults(ok: bool): nat {
    if ok then 0 else 1
  }

  /** Whether it succeeds depends on the calls alone. */
  predicate CountsExactly(before: nat, after: nat, ok: bool) {
    before <= after && (ok <==> after == before)
  }

  /** A success is without failures. */
  predicate Counts(before: nat, after: nat, ok: bool) {
    before <= after && (ok ==> after == before)
  }

  predicate CanReplace<D(==, !new)>(t: Tree<D>, from: Path, to: Path)
    requires from in t
  {
    to !in t || (t[from].File? && t[to].File?)
    || (t[from].Directory? && t[to].Directory? && forall q <- t :: to <= q ==> q == to)
  }

  /** `rename` can work: the target is not inside what is moved, or the other way round, and has a parent. */
  predicate CanRename<D(==, !new)>(t: Tree<D>, from: Path, to: Path) {
    from in t && Apart(from, to) && Parent(to) in t && t[Parent(to)].Directory? && CanReplace(t, from, to)
  }

  predicate CanWrite<D(!new)>(t: Tree<D>, p: Path) {
    p != [] && Parent(p) in t && t[Parent(p)].Directory? && (p in t ==> t[p].File?)
  }

  /** A file can be written where a directory is to hold it and no directory is in the way. */
  lemma WritableFields<D(!new)>(t: Tree<D>, p: Path)
    ensures CanWrite(t, p) <==>
              |p| > 0 && p[..|p| - 1] in t && t[p[..|p| - 1]].Directory? && !(p in t && t[p].Directory?)
  {
  }

  /** A file may replace a file, a directory an empty one. */
  lemma RenamableFields<D(!new)>(t: Tree<D>, from: Path, to: Path)
    ensures CanRename(t, from, to) <==>
              && from in t && !(from <= to) && !(to <= from) && to[..|to| - 1] in t && t[to[..|to| - 1]].Directory?
              && (to in t ==>
                    if t[from].File? then t[to].File?
                    else t[to].Directory? && forall q <- t :: to <= q ==> |q| == |to|)
  {
    if to in t && t[to].Directory? {
      forall q <- t | to <= q && |q| == |to| ensures q == to {
      }
    }
  }

  /** Everything lies in a directory, and that in one, up to the root. */
  lemma RootedFields<D(!new)>(t: Tree<D>)
    ensures Rooted(t) <==>
              [] in t && t[[]].Directory?
              && forall q: Path, k: nat :: q in t && k < |q| ==> q[..k] in t && t[q[..k]].Directory?
  {
    if Rooted(t) {
      forall q: Path, k: nat | q in t && k < |q| ensures q[..k] in t && t[q[..k]].Directory? {
        PrefixIsDirectory(t, q, k);
      }
    }
  }

  method Grafted<D(!new)>(t: Tree<D>, from: Path, to: Path) returns (arrived: Tree<D>)
    ensures arrived == Graft(to, Sub(t, from))
  {
    var arriving := set q | q in t && from <= q :: to + q[|from|..];
    forall q ensures q in arriving <==> q in Placed(to, Sub(t, from).Keys) {
      IsArriving(t, from, to, q);
      if to <= q {
        SubAt(t, from, q[|to|..]);
      }
    }
    assert arriving == Placed(to, Sub(t, from).Keys);
    assert forall q <- arriving :: from + q[|to|..] in t by {
      forall q <- arriving ensures from + q[|to|..] in t {
        IsArriving(t, from, to, q);
      }
    }
    arrived := map q | q in arriving :: t[from + q[|to|..]];
  }

  method Moved<D(!new)>(t: Tree<D>, from: Path, to: Path) returns (moved: Tree<D>)
    ensures moved == MoveTree(t, from, to)
  {
    var arrived := Grafted(t, from, to);
    moved := RemoveTree(RemoveTree(t, from), to) + arrived;
  }

  lemma IsArriving<D(!new)>(t: Tree<D>, from: Path, to: Path, q: Path)
    ensures q in (set x | x in t && from <= x :: to + x[|from|..]) <==> to <= q && from + q[|to|..] in t
  {
    if to <= q && from + q[|to|..] in t {
      var x := from + q[|to|..];
      assert x in t && from <= x && to + x[|from|..] == q;
    }
    if q in (set x | x in t && from <= x :: to + x[|from|..]) {
      var x :| x in t && from <= x && q == to + x[|from|..];
      assert q[|to|..] == x[|from|..] && x == from + q[|to|..];
    }
  }

  class FileSystem<D(0, ==, !new)> {
    var tree: Tree<D>
    /** Every state so far, one for each call; a call that fails halfway leaves its halfway state. */
    ghost var trace: seq<Tree<D>>
    /** How many calls have failed. */
    ghost var failures: nat

    ghost predicate Valid()
      reads this`tree, this`trace
    {
      Rooted(tree) && trace != [] && trace[|trace| - 1] == tree
    }

    constructor (tree: Tree<D>)
      requires Rooted(tree)
      ensures Valid() && this.tree == tree && trace == [tree] && failures == 0
    {
      this.tree := tree;
      trace := [tree];
      failures := 0;
    }

    /** An already existing directory is taken to succeed. A failure may leave some of the parents. */
    method CreateDirAll(p: Path) returns (ok: bool)
      requires Valid()
      modifies this
      ensures Valid() && failures == old(failures) + Faults(ok) && trace == old(trace) + [tree]
      ensures ok ==> CanHoldDirs(old(tree), p) && tree == MakeDirs(old(tree), p)
      ensures !ok ==> exists k :: 0 <= k <= |p| && tree == MakeDirs(old(tree), p[..k])
      ensures p in old(tree) && old(tree)[p] == Directory ==> ok && tree == old(tree)
    {
      if p in tree && tree[p].Directory? {
        ok := true;
        forall k | 0 <= k <= |p| ensures p[..k] in tree && tree[p[..k]].Directory? {
          if k == |p| { assert p[..k] == p; } else { PrefixIsDirectory(tree, p, k); }
        }
        assert MakeDirs(tree, p) == tree;
      } else if !CanHoldDirs(tree, p) {
        ok := false;
        assert p[..0] == [];
        assert MakeDirs(tree, p[..0]) == tree;
      } else {
        ok := *;
        var k: nat :| k <= |p|;
        var made := if ok then p else p[..k];
        assert CanHoldDirs(tree, made) by {
          forall i | 0 <= i <= |made| ensures made[..i] == p[..i] {
          }
        }
        MadeDirsRooted(tree, made);
        tree := MakeDirs(tree, made);
      }
      trace := trace + [tree];
      failures := failures + Faults(ok);
    }

    /** All or nothing, as on a POSIX file system; of two paths that are not apart it fails. */
    method Rename(from: Path, to: Path) returns (ok: bool)
      requires Valid() && from != to
      modifies this
      ensures Valid() && failures == old(failures) + Faults(ok) && trace == old(trace) + [tree]
      ensures ok ==> CanRename(old(tree), from, to) && tree == MoveTree(old(tree), from, to)
      ensures !ok ==> tree == old(tree)
    {
      if !CanRename(tree, from, to) {
        ok := false;
      } else {
        ok := *;
        if ok {
          MovedRooted(tree, from, to);
          tree := Moved(tree, from, to);
        }
      }
      trace := trace + [tree];
      failures := failures + Faults(ok);
    }

    /** `remove_path_if_exists`; a failure may leave any part of the subtree that is closed upwards. */
    method RemoveIfExists(p: Path) returns (ok: bool)
      requires Valid() && p != []
      modifies this
      ensures Valid() && failures == old(failures) + Faults(ok) && trace == old(trace) + [tree]
      ensures ok ==> tree == RemoveTree(old(tree), p)
      ensures !ok ==> Shrunk(old(tree), tree, p)
    {
      if p !in tree {
        ok := true;
        NothingToRemove(tree, p);
      } else {
        ok := *;
        RemovedRooted(tree, p);
        if ok {
          tree := RemoveTree(tree, p);
        } else {
          var kept: set<Path> := *;
          var left := map q | q in tree && (q in kept || !(p <= q)) :: tree[q];
          if Rooted(left) {
            tree := left;
          }
        }
      }
      trace := trace + [tree];
      failures := failures + Faults(ok);
    }

    /** A write that fails may leave any text in the file. */
    method WriteFile(p: Path, data: D) returns (ok: bool)
      requires Valid() && p != []
      modifies this
      ensures Valid() && failures == old(failures) + Faults(ok) && trace == old(trace) + [tree] && Confined(old(tree), tree, {p})
      ensures ok ==> CanWrite(old(tree), p) && tree == old(tree)[p := File(data)]
    {
      if !CanWrite(tree, p) {
        ok := false;
      } else {
        ok := *;
        var left: D := *;
        assert forall q <- tree :: q != p || tree[q].File?;
        tree := tree[p := File(if ok then data else left)];
      }
      trace := trace + [tree];
      failures := failures + Faults(ok);
    }

    /** `fs::copy` of one file. */
    method CopyFile(from: Path, to: Path) returns (ok: bool)
      requires Valid() && to != []
      modifies this
      ensures Valid() && failures == old(failures) + Faults(ok) && trace == old(trace) + [tree] && Confined(old(tree), tree, {to})
      ensures ok ==> from in old(tree) && old(tree)[from].File? && CanWrite(old(tree), to) && tree == old(tree)[to := old(tree)[from]]
    {
      if from !in tree || tree[from].Directory? {
        ok := false;
        trace := trace + [tree];
        failures := failures + 1;
      } else {
        ok := WriteFile(to, tree[from].data);
      }
    }

    method RemoveFile(p: Path) returns (ok: bool)
      requires Valid() && p != []
      modifies this
      ensures Valid() && failures == old(failures) + Faults(ok) && trace == old(trace) + [tree] && Confined(old(tree), tree, {p})
      ensures ok ==> p in old(tree) && old(tree)[p].File? && tree == RemoveTree(old(tree), p)
      ensures !ok ==> tree == old(tree)
    {
      if p !in tree || tree[p].Directory? {
        ok := false;
      } else {
        ok := *;
        if ok {
          RemovedRooted(tree, p);
          tree := RemoveTree(tree, p);
        }
      }
      trace := trace + [tree];
      failures := failures + Faults(ok);
    }

    /**
     * `copy_path_recursively` to a place where nothing is yet. It takes any number of steps, and each of
     * them, and a failure, may leave anything there and nothing elsewhere.
     */
    method CopyTree(from: Path, to: Path) returns (ok: bool)
      requires Valid() && to != [] && to !in tree && Apart(from, to)
      modifies this
      ensures Valid() && failures == old(failures) + Faults(ok)
      ensures Within(old(tree), tree, trace, {to}, old(trace))
      ensures ok ==> from in old(tree) && Sub(tree, to) == Sub(old(tree), from)
    {
      var t := tree;
      ghost var past := trace;
      ConfinedReflexive(t, {to});
      ChangesBelow(to, t, past);
      ok := *;
      if from !in t || !CanHoldDirs(t, Parent(to)) {
        ok := false;
      }
      if ok {
        FinishCopy(t, from, to, past);
      }
      failures := failures + Faults(ok);
    }

    method FinishCopy(t: Tree<D>, from: Path, to: Path, ghost past: seq<Tree<D>>)
      requires Valid() && Within(t, tree, trace, {to}, past)
      requires Rooted(t) && to != [] && to !in t && Apart(from, to) && CanHoldDirs(t, Parent(to))
      modifies this`tree, this`trace
      ensures Valid() && Within(t, tree, trace, {to}, past) && Sub(tree, to) == Sub(t, from)
    {
      CopyPrepared(t, from, to);
      var made := MakeDirs(t, Parent(to));
      CopyPlaced(t, made, from, to);
      var copied := Grafted(made, from, to);
      tree := made + copied;
      ghost var so := trace;
      trace := trace + [tree];
      assert trace[..|so|] == so;
    }

    method ChangesBelow(p: Path, ghost first: Tree<D>, ghost past: seq<Tree<D>>)
      requires Valid() && Within(first, tree, trace, {p}, past)
      modifies this`tree, this`trace
      ensures Valid() && Within(first, tree, trace, {p}, past)
    {
      var steps: nat := *;
      while steps > 0
        invariant Valid() && Within(first, tree, trace, {p}, past)
      {
        ChangeBelow(p, first, past);
        steps := steps - 1;
      }
    }

    /** Any change at or below one path: a step of the copy. */
    method ChangeBelow(p: Path, ghost first: Tree<D>, ghost past: seq<Tree<D>>)
      requires Valid() && Within(first, tree, trace, {p}, past)
      modifies this`tree, this`trace
      ensures Valid() && Within(first, tree, trace, {p}, past)
    {
      ghost var t, so := tree, trace;
      var next: Tree<D> := *;
      if Rooted(next) && Confined(tree, next, {p}) {
        tree := next;
      }
      ConfinedReflexive(t, {p});
      trace := trace + [tree];
      assert p <= p;
      StaysWithin(first, t, so, tree, {p}, {p}, past);
    }

    /** `fs::create_dir`: fails when something is there already. */
    method CreateDir(p: Path) returns (ok: bool)
      requires Valid() && p != []
      modifies this
      ensures Valid() && failures == old(failures) + Faults(ok) && trace == old(trace) + [tree] && Confined(old(tree), tree, {p})
      ensures ok ==> p !in old(tree) && tree == old(tree)[p := Directory]
      ensures !ok ==> tree == old(tree)
    {
      if p in tree || Parent(p) !in tree || !tree[Parent(p)].Directory? {
        ok := false;
      } else {
        ok := *;
        if ok {
          tree := tree[p := Directory];
        }
      }
      trace := trace + [tree];
      failures := failures + Faults(ok);
    }

    /** A call the operating system always refuses. */
    method Refuse()
      requires Valid()
      modifies this
      ensures Valid() && failures == old(failures) + 1 && trace == old(trace) + [tree] && tree == old(tree)
    {
      trace := trace + [tree];
      failures := failures + 1;
    }

    /** Reading a directory may fail too. */
    method CanList() returns (ok: bool)
      requires Valid()
      modifies this
      ensures Valid() && failures == old(failures) + Faults(ok) && trace == old(trace) && tree == old(tree)
    {
      ok := *;
      failures := failures + Faults(ok);
    }
  }
}
