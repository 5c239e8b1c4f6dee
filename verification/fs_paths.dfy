/** Lexical paths: `normalize_fs_path`. */
module FsPaths {
  datatype Component = RootDir | CurDir | ParentDir | Normal(name: string)

  /** A path built by pushing and popping components. */
  datatype PathBuf = PathBuf(rooted: bool, names: seq<string>) {
    /** One step of `normalize_fs_path`; popping an empty path or the root does nothing. */
    function Push(c: Component): PathBuf {
      match c
      case RootDir => PathBuf(true, [])
      case CurDir => this
      case ParentDir => if names == [] then this else PathBuf(rooted, names[..|names| - 1])
      case Normal(name) => PathBuf(rooted, names + [name])
    }

    function Components(): seq<Component> {
      (if rooted then [RootDir] else []) + NamesOf(names)
    }
  }

  function NamesOf(names: seq<string>): seq<Component> {
    seq(|names|, i requires 0 <= i < |names| => Normal(names[i]))
  }

  /** Where walking the components from `from` leads. */
  function Walk(from: PathBuf, cs: seq<Component>): PathBuf
    decreases |cs|
  {
    if cs == [] then from else Walk(from.Push(cs[0]), cs[1..])
  }

  function Normalized(cs: seq<Component>): PathBuf {
    Walk(PathBuf(false, []), cs)
  }

  lemma {:induction false} WalkAppend(from: PathBuf, a: seq<Component>, b: seq<Component>)
    ensures Walk(from, a + b) == Walk(Walk(from, a), b)
    decreases |a|
  {
    if a == [] {
      assert a + b == b;
    } else {
      WalkAppend(from.Push(a[0]), a[1..], b);
      assert (a + b)[1..] == a[1..] + b;
    }
  }

  method NormalizeFsPath(cs: seq<Component>) returns (p: PathBuf)
    ensures p == Normalized(cs)
  {
    p := PathBuf(false, []);
    for i := 0 to |cs|
      invariant Walk(p, cs[i..]) == Normalized(cs)
    {
      assert cs[i..][0] == cs[i] && cs[i..][1..] == cs[i + 1..];
      p := p.Push(cs[i]);
    }
  }

  lemma {:induction false} WalkNames(from: PathBuf, names: seq<string>)
    ensures Walk(from, NamesOf(names)) == PathBuf(from.rooted, from.names + names)
    decreases |names|
  {
    if names == [] {
      assert from.names + names == from.names;
    } else {
      var next := from.Push(Normal(names[0]));
      WalkNames(next, names[1..]);
      assert NamesOf(names)[1..] == NamesOf(names[1..]);
      assert Walk(from, NamesOf(names)) == Walk(next, NamesOf(names[1..]));
      assert next.names + names[1..] == from.names + names;
    }
  }

  /** A normalized path is its own normal form, so normalizing twice is normalizing once. */
  lemma NormalizedIsNormal(p: PathBuf)
    ensures Normalized(p.Components()) == p
  {
    var start := PathBuf(false, []);
    var root := if p.rooted then [RootDir] else [];
    WalkAppend(start, root, NamesOf(p.names));
    if p.rooted {
      assert root[1..] == [];
      assert Walk(start, root) == start.Push(RootDir);
    }
    WalkNames(Walk(start, root), p.names);
    assert [] + p.names == p.names;
  }

  /** `.` never matters, and a name followed by `..` cancels, wherever they stand. */
  lemma DotsCancel(a: seq<Component>, name: string, b: seq<Component>)
    ensures Normalized(a + [CurDir] + b) == Normalized(a + b)
    ensures Normalized(a + [Normal(name), ParentDir] + b) == Normalized(a + b)
  {
    var at := Walk(PathBuf(false, []), a);
    SkipsNothing(a, [CurDir], b);
    SkipsNothing(a, [Normal(name), ParentDir], b);
    assert Walk(at, [CurDir]) == at;
    assert [Normal(name), ParentDir][1..] == [ParentDir];
    var there := at.Push(Normal(name));
    assert there.names[..|there.names| - 1] == at.names;
    assert Walk(at, [Normal(name), ParentDir]) == Walk(there, [ParentDir]) == at;
  }

  lemma SkipsNothing(a: seq<Component>, detour: seq<Component>, b: seq<Component>)
    ensures var at := Walk(PathBuf(false, []), a);
            Walk(at, detour) == at ==> Normalized(a + detour + b) == Normalized(a + b)
  {
    WalkAppend(PathBuf(false, []), a, b);
    WalkAppend(PathBuf(false, []), a + detour, b);
    WalkAppend(PathBuf(false, []), a, detour);
  }

  // ---------- `Path::components` ----------

  /** The text between slashes. */
  function Split(raw: string): (parts: seq<string>)
    ensures parts != []
  {
    if raw == "" then [""] else Prepend(raw[0], Split(raw[1..]))
  }

  function Prepend(c: char, parts: seq<string>): (r: seq<string>)
    requires parts != []
    ensures r != []
  {
    if c == '/' then [""] + parts else [[c] + parts[0]] + parts[1..]
  }

  /** Empty parts vanish; `.` counts only at the very start of a relative path. */
  function PartComponents(parts: seq<string>, start: bool): seq<Component> {
    if parts == [] then []
    else
      var rest := PartComponents(parts[1..], false);
      match parts[0]
      case "" => rest
      case "." => if start then [CurDir] + rest else rest
      case ".." => [ParentDir] + rest
      case name => [Normal(name)] + rest
  }

  function ComponentsOf(raw: string): seq<Component> {
    if raw != "" && raw[0] == '/' then [RootDir] + PartComponents(Split(raw), false)
    else PartComponents(Split(raw), true)
  }

  /** A component as the text of one part. */
  function ComponentText(c: Component): string {
    match c
    case RootDir => "/"
    case CurDir => "."
    case ParentDir => ".."
    case Normal(name) => name
  }

  function JoinParts(cs: seq<Component>): string {
    if cs == [] then ""
    else if |cs| == 1 then ComponentText(cs[0])
    else ComponentText(cs[0]) + "/" + JoinParts(cs[1..])
  }

  /** A component that stands for one nonempty part of a path. */
  predicate IsPart(c: Component) {
    c == ParentDir || (c.Normal? && c.name !in {"", ".", ".."} && '/' !in c.name)
  }

  lemma PrependAppend(c: char, a: seq<string>, b: seq<string>)
    requires a != []
    ensures Prepend(c, a + b) == Prepend(c, a) + b
  {
    assert (a + b)[1..] == a[1..] + b;
  }

  lemma {:induction false} SplitJoins(a: string, b: string)
    ensures Split(a + "/" + b) == Split(a) + Split(b)
  {
    if a == "" {
      assert a + "/" + b == "/" + b;
      assert ("/" + b)[1..] == b;
    } else {
      var whole, rest := a + "/" + b, a[1..] + "/" + b;
      assert whole[0] == a[0] && whole[1..] == rest;
      assert Split(whole) == Prepend(a[0], Split(rest));
      SplitJoins(a[1..], b);
      PrependAppend(a[0], Split(a[1..]), Split(b));
    }
  }

  lemma {:induction false} SplitOfPart(a: string)
    requires '/' !in a
    ensures Split(a) == [a]
  {
    if a != "" {
      SplitOfPart(a[1..]);
      assert a == [a[0]] + a[1..];
    }
  }

  lemma {:induction false} SplitHasNoSlash(raw: string)
    ensures forall part <- Split(raw) :: '/' !in part
  {
    if raw != "" {
      SplitHasNoSlash(raw[1..]);
    }
  }

  lemma {:induction false} PartsAppend(a: seq<string>, b: seq<string>, start: bool)
    requires a != []
    ensures PartComponents(a + b, start) == PartComponents(a, start) + PartComponents(b, false)
  {
    assert (a + b)[1..] == a[1..] + b;
    if |a| > 1 {
      PartsAppend(a[1..], b, false);
    } else {
      assert a[1..] + b == b;
    }
  }

  lemma {:induction false} PartComponentsAreParts(parts: seq<string>)
    requires forall part <- parts :: '/' !in part
    ensures forall c <- PartComponents(parts, false) :: IsPart(c)
  {
    if parts != [] {
      PartComponentsAreParts(parts[1..]);
    }
  }

  /** After the first one, every component of a path is a part. */
  lemma LaterComponents(raw: string)
    ensures forall k :: 1 <= k < |ComponentsOf(raw)| ==> IsPart(ComponentsOf(raw)[k])
  {
    SplitHasNoSlash(raw);
    PartComponentsAreParts(Split(raw));
    StartMatters(Split(raw));
  }

  /** At the start of a path only a leading `.` is read differently. */
  lemma StartMatters(parts: seq<string>)
    requires parts != []
    ensures PartComponents(parts, true) == (if parts[0] == "." then [CurDir] else []) + PartComponents(parts, false)
  {
  }

  lemma {:induction false} JoinedParts(cs: seq<Component>)
    requires cs != [] && forall c <- cs :: IsPart(c)
    ensures PartComponents(Split(JoinParts(cs)), false) == cs
  {
    var first := ComponentText(cs[0]);
    assert IsPart(cs[0]);
    assert '/' !in "..";
    SplitOfPart(first);
    assert PartComponents([first][1..], false) == [];
    assert PartComponents([first], false) == [cs[0]];
    if |cs| > 1 {
      JoinedParts(cs[1..]);
      SplitJoins(first, JoinParts(cs[1..]));
      PartsAppend([first], Split(JoinParts(cs[1..])), false);
    }
  }

  /** Parts written below a path are read back as they were. */
  lemma ComponentsBelow(base: string, cs: seq<Component>)
    requires base != "" && cs != [] && forall c <- cs :: IsPart(c)
    ensures ComponentsOf(base + "/" + JoinParts(cs)) == ComponentsOf(base) + cs
  {
    var start := base[0] != '/';
    SplitJoins(base, JoinParts(cs));
    PartsAppend(Split(base), Split(JoinParts(cs)), start);
    JoinedParts(cs);
    if !start {
      assert [RootDir] + PartComponents(Split(base), false) + cs == [RootDir] + (PartComponents(Split(base), false) + cs);
    }
  }
}
