/**
 The files the core fingerprint is folded over (`main` and `collect_rs_files`
 in `crates/core/build.rs`): a directory tree is listed in whatever order the
 file system gives, its sources are collected, sorted, and hashed in turn.
 */
module CoreSources {
  import opened Options
  import opened Fingerprint

  type Name = seq<Byte>

  /** A path by its components, as paths are compared. */
  type Path = seq<Name>

  /** A file with the contents that could be read of it, or a directory. */
  datatype Node = File(contents: Option<seq<Byte>>) | Dir(entries: map<Name, Node>)

  const SEPARATOR: Byte := 47

  /** The extension is `rs`: a name that is all extension has none. */
  predicate IsRust(name: Name) {
    |name| > 3 && name[|name| - 3..] == [46, 114, 115]
  }

  // ---- The order of paths ----

  predicate NameBefore(a: Name, b: Name) {
    if b == [] then false
    else if a == [] then true
    else if a[0] != b[0] then a[0] < b[0]
    else NameBefore(a[1..], b[1..])
  }

  predicate PathBefore(a: Path, b: Path) {
    if b == [] then false
    else if a == [] then true
    else if a[0] != b[0] then NameBefore(a[0], b[0])
    else PathBefore(a[1..], b[1..])
  }

  lemma {:induction false} NamesOrdered(a: Name, b: Name, c: Name)
    ensures !NameBefore(a, a) && (a != b ==> NameBefore(a, b) || NameBefore(b, a))
    ensures NameBefore(a, b) && NameBefore(b, c) ==> NameBefore(a, c)
    decreases |a| + |b| + |c|
  {
    if a != [] && b != [] && c != [] {
      assert a == [a[0]] + a[1..] && b == [b[0]] + b[1..];
      NamesOrdered(a[1..], b[1..], c[1..]);
    } else if a != [] && b != [] {
      assert a == [a[0]] + a[1..] && b == [b[0]] + b[1..];
      NamesOrdered(a[1..], b[1..], c);
    } else if a != [] {
      NamesOrdered(a[1..], b, c);
    }
  }

  lemma {:induction false} PathsOrdered(a: Path, b: Path, c: Path)
    ensures !PathBefore(a, a) && (a != b ==> PathBefore(a, b) || PathBefore(b, a))
    ensures PathBefore(a, b) && PathBefore(b, c) ==> PathBefore(a, c)
    decreases |a| + |b| + |c|
  {
    hide NameBefore;
    if a != [] && b != [] && c != [] {
      assert a == [a[0]] + a[1..] && b == [b[0]] + b[1..];
      NamesOrdered(a[0], b[0], c[0]);
      NamesOrdered(b[0], a[0], b[0]);
      PathsOrdered(a[1..], b[1..], c[1..]);
    } else if a != [] && b != [] {
      assert a == [a[0]] + a[1..] && b == [b[0]] + b[1..];
      NamesOrdered(a[0], b[0], b[0]);
      PathsOrdered(a[1..], b[1..], c);
    } else if a != [] {
      PathsOrdered(a[1..], b, c);
    }
  }

  ghost predicate Ascending(paths: seq<Path>) {
    forall i, j :: 0 <= i < j < |paths| ==> PathBefore(paths[i], paths[j])
  }

  /** The sort, of paths that are all different. */
  function Inserted(paths: seq<Path>, path: Path): seq<Path>
    decreases |paths|
  {
    if paths == [] || PathBefore(path, paths[0]) then [path] + paths else [paths[0]] + Inserted(paths[1..], path)
  }

  function Sorted(paths: seq<Path>): seq<Path>
    decreases |paths|
  {
    if paths == [] then [] else Inserted(Sorted(paths[..|paths| - 1]), paths[|paths| - 1])
  }

  ghost predicate Distinct(paths: seq<Path>) {
    forall i, j :: 0 <= i < j < |paths| ==> paths[i] != paths[j]
  }

  lemma {:induction false} InsertedAscends(paths: seq<Path>, path: Path)
    requires Ascending(paths) && path !in paths
    ensures Ascending(Inserted(paths, path))
    ensures forall p :: p in Inserted(paths, path) <==> p == path || p in paths
    decreases |paths|
  {
    hide PathBefore;
    var r := Inserted(paths, path);
    if paths == [] || PathBefore(path, paths[0]) {
      forall i, j | 0 <= i < j < |r| ensures PathBefore(r[i], r[j]) {
        if i == 0 {
          if j > 1 { PathsOrdered(path, paths[0], paths[j - 1]); }
        } else {
          assert PathBefore(paths[i - 1], paths[j - 1]);
        }
      }
    } else {
      assert paths == [paths[0]] + paths[1..];
      InsertedAscends(paths[1..], path);
      PathsOrdered(path, paths[0], path);
      var rest := Inserted(paths[1..], path);
      forall j | 0 < j < |r| ensures PathBefore(r[0], r[j]) {
        assert rest[j - 1] in rest;
      }
    }
  }

  lemma {:induction false} SortedAscends(paths: seq<Path>)
    requires Distinct(paths)
    ensures Ascending(Sorted(paths))
    ensures forall p :: p in Sorted(paths) <==> p in paths
    decreases |paths|
  {
    if paths != [] {
      var n := |paths| - 1;
      SortedAscends(paths[..n]);
      assert paths == paths[..n] + [paths[n]];
      assert paths[n] !in paths[..n];
      InsertedAscends(Sorted(paths[..n]), paths[n]);
    }
  }

  /** Two ascending lists of the same paths are one list. */
  lemma {:induction false} AscendingOnce(a: seq<Path>, b: seq<Path>)
    requires Ascending(a) && Ascending(b) && forall p :: p in a <==> p in b
    ensures a == b
    decreases |a|
  {
    hide PathBefore;
    if a == [] {
      if b != [] { FirstsAgree(b, a); }
    } else {
      assert a[0] in a;
      FirstsAgree(a, b);
      var x, y := a[1..], b[1..];
      assert a == [a[0]] + x && b == [b[0]] + y;
      forall p ensures p in x <==> p in y {
        PathsOrdered(a[0], a[0], a[0]);
        if p == a[0] {
          assert p !in x && p !in y by { FirstOnlyOnce(a); FirstOnlyOnce(b); }
        } else {
          assert (p in a <==> p in x) && (p in b <==> p in y);
        }
      }
      AscendingOnce(x, y);
    }
  }

  lemma FirstOnlyOnce(a: seq<Path>)
    requires a != [] && Ascending(a)
    ensures a[0] !in a[1..]
  {
    hide PathBefore;
    if a[0] in a[1..] {
      var i :| 0 <= i < |a| - 1 && a[1..][i] == a[0];
      assert PathBefore(a[0], a[i + 1]);
      PathsOrdered(a[0], a[0], a[0]);
      assert false;
    }
  }

  lemma FirstsAgree(a: seq<Path>, b: seq<Path>)
    requires a != [] && Ascending(a) && Ascending(b) && forall p :: p in a <==> p in b
    ensures b != [] && a[0] == b[0]
  {
    hide PathBefore;
    assert a[0] in b;
    assert b[0] in a;
    HeadFirst(a, b[0]);
    HeadFirst(b, a[0]);
    PathsOrdered(a[0], b[0], a[0]);
  }

  lemma HeadFirst(a: seq<Path>, p: Path)
    requires Ascending(a) && p in a
    ensures p == a[0] || PathBefore(a[0], p)
  {
    hide PathBefore;
    var i :| 0 <= i < |a| && a[i] == p;
  }

  // ---- Collecting ----

  /** `collect_rs_files`, the directory at `base` listed in the order `order` gives. */
  function Collected(base: Path, node: Node, order: Path -> seq<Name>): seq<Path>
    decreases node, 1, 0
  {
    if node.File? then [] else CollectedNames(base, node, order(base), order)
  }

  function CollectedNames(base: Path, node: Node, names: seq<Name>, order: Path -> seq<Name>): seq<Path>
    requires node.Dir?
    decreases node, 0, |names|
  {
    if names == [] then []
    else CollectedOne(base, node, names[0], order) + CollectedNames(base, node, names[1..], order)
  }

  function CollectedOne(base: Path, node: Node, name: Name, order: Path -> seq<Name>): seq<Path>
    requires node.Dir?
    decreases node, 0, 0
  {
    if name !in node.entries then []
    else if node.entries[name].Dir? then Collected(base + [name], node.entries[name], order)
    else if IsRust(name) then [base + [name]] else []
  }

  /** A source of the tree, by its path from `node`. */
  predicate IsSource(node: Node, path: Path)
    decreases |path|
  {
    && path != [] && node.Dir? && path[0] in node.entries
    && if |path| == 1 then node.entries[path[0]].File? && IsRust(path[0]) else IsSource(node.entries[path[0]], path[1..])
  }

  ghost predicate NoRepeats(names: seq<Name>) {
    forall i, j :: 0 <= i < j < |names| ==> names[i] != names[j]
  }

  /** `order` lists each directory: every entry, once, in some order. */
  ghost predicate Lists(order: Path -> seq<Name>, base: Path, node: Node)
    decreases node
  {
    node.Dir? ==>
      && NoRepeats(order(base))
      && (forall name :: name in order(base) <==> name in node.entries)
      && forall name <- node.entries :: Lists(order, base + [name], node.entries[name])
  }

  predicate Under(base: Path, path: Path) {
    |base| <= |path| && path[..|base|] == base
  }

  /** Exactly the sources are collected, each once. */
  lemma {:induction false} CollectedAreSources(base: Path, node: Node, order: Path -> seq<Name>)
    requires Lists(order, base, node)
    ensures forall p :: p in Collected(base, node, order) <==> Under(base, p) && IsSource(node, p[|base|..])
    ensures Distinct(Collected(base, node, order))
    decreases node, 1, 0
  {
    if node.Dir? {
      NamesAreSources(base, node, order(base), order);
      forall p ensures p in Collected(base, node, order) <==> Under(base, p) && IsSource(node, p[|base|..]) {
        if Under(base, p) && IsSource(node, p[|base|..]) {
          assert p[|base|..][0] == p[|base|];
        }
      }
    }
  }

  lemma {:induction false} NamesAreSources(base: Path, node: Node, names: seq<Name>, order: Path -> seq<Name>)
    requires node.Dir? && Lists(order, base, node) && NoRepeats(names)
    ensures forall p :: p in CollectedNames(base, node, names, order) <==>
              |p| > |base| && Under(base, p) && p[|base|] in names && IsSource(node, p[|base|..])
    ensures Distinct(CollectedNames(base, node, names, order))
    decreases node, 0, |names|
  {
    if names != [] {
      assert names == [names[0]] + names[1..];
      assert names[0] !in names[1..];
      NamesAreSources(base, node, names[1..], order);
      OneIsSources(base, node, names[0], order);
      hide IsSource, Lists, Under, CollectedOne;
      var one, rest := CollectedOne(base, node, names[0], order), CollectedNames(base, node, names[1..], order);
      var both := one + rest;
      forall i, j | 0 <= i < j < |both| ensures both[i] != both[j] {
        if i < |one| <= j {
          assert one[i] in one && rest[j - |one|] in rest;
        }
      }
    }
  }

  lemma {:induction false} OneIsSources(base: Path, node: Node, name: Name, order: Path -> seq<Name>)
    requires node.Dir? && Lists(order, base, node)
    ensures forall p :: p in CollectedOne(base, node, name, order) <==>
              |p| > |base| && Under(base, p) && p[|base|] == name && IsSource(node, p[|base|..])
    ensures Distinct(CollectedOne(base, node, name, order))
    decreases node, 0, 0
  {
    if name in node.entries {
      var child := node.entries[name];
      if child.Dir? { CollectedAreSources(base + [name], child, order); }
      forall p ensures p in CollectedOne(base, node, name, order) <==>
                         |p| > |base| && Under(base, p) && p[|base|] == name && IsSource(node, p[|base|..])
      {
        if |p| > |base| && Under(base, p) && p[|base|] == name {
          assert p[..|base| + 1] == base + [name];
          assert p[|base|..][1..] == p[|base| + 1..];
          assert |p| == |base| + 1 ==> p == base + [name];
        }
        if Under(base + [name], p) {
          assert p[..|base|] == (base + [name])[..|base|];
          assert p[|base|] == (base + [name])[|base|];
        }
      }
    }
  }

  // ---- The digest ----

  /** The path as text, its components joined. */
  function Text(path: Path): seq<Byte>
    decreases |path|
  {
    if path == [] then []
    else if |path| == 1 then path[0]
    else Text(path[..|path| - 1]) + [SEPARATOR] + path[|path| - 1]
  }

  /** What can be read of the file at `path`; an unreadable one reads as empty. */
  function ContentsOf(node: Node, path: Path): seq<Byte>
    decreases |path|
  {
    if node.File? then if path == [] && node.contents.Some? then node.contents.value else []
    else if path != [] && path[0] in node.entries then ContentsOf(node.entries[path[0]], path[1..])
    else []
  }

  /** The bytes hashed for one file: its path, then its contents, nothing between. */
  function Hashed(base: Path, node: Node, path: Path): seq<Byte> {
    Text(path) + if Under(base, path) then ContentsOf(node, path[|base|..]) else []
  }

  function Stream(base: Path, node: Node, paths: seq<Path>): seq<Byte>
    decreases |paths|
  {
    if paths == [] then [] else Stream(base, node, paths[..|paths| - 1]) + Hashed(base, node, paths[|paths| - 1])
  }

  /** `main`: the version, then every source in the order of its path. */
  function CoreFingerprint(version: seq<Byte>, base: Path, node: Node, order: Path -> seq<Name>): U64 {
    Update(OFFSET, version + Stream(base, node, Sorted(Collected(base, node, order))))
  }

  /** The fingerprint does not depend on the order directories are listed in. */
  lemma FingerprintIgnoresListingOrder(version: seq<Byte>, base: Path, node: Node, order: Path -> seq<Name>, other: Path -> seq<Name>)
    requires Lists(order, base, node) && Lists(other, base, node)
    ensures CoreFingerprint(version, base, node, order) == CoreFingerprint(version, base, node, other)
  {
    SameSortedSources(base, node, node, order, other);
  }

  /** Two trees with the same sources are hashed over the same list of paths. */
  lemma SameSortedSources(base: Path, node: Node, changed: Node, order: Path -> seq<Name>, other: Path -> seq<Name>)
    requires Lists(order, base, node) && Lists(other, base, changed)
    requires forall p :: IsSource(node, p) <==> IsSource(changed, p)
    ensures Sorted(Collected(base, node, order)) == Sorted(Collected(base, changed, other))
  {
    CollectedAreSources(base, node, order);
    CollectedAreSources(base, changed, other);
    hide IsSource, Lists, Collected;
    SortedAscends(Collected(base, node, order));
    SortedAscends(Collected(base, changed, other));
    AscendingOnce(Sorted(Collected(base, node, order)), Sorted(Collected(base, changed, other)));
  }

  /** A change within one source: the bytes `here` of the one tree are `there` in the other, and nothing
      else differs. */
  ghost predicate Apart(node: Node, changed: Node, path: Path,
                        before: seq<Byte>, here: seq<Byte>, there: seq<Byte>, after: seq<Byte>) {
    && IsSource(node, path)
    && (forall p :: IsSource(node, p) <==> IsSource(changed, p))
    && (forall p :: IsSource(node, p) && p != path ==> ContentsOf(changed, p) == ContentsOf(node, p))
    && ContentsOf(node, path) == before + here + after && ContentsOf(changed, path) == before + there + after
  }

  lemma HashedApart(base: Path, node: Node, changed: Node, path: Path, p: Path,
                    before: seq<Byte>, here: seq<Byte>, there: seq<Byte>, after: seq<Byte>)
    requires Apart(node, changed, path, before, here, there, after)
    requires Under(base, p) && IsSource(node, p[|base|..])
    ensures p != base + path ==> Hashed(base, node, p) == Hashed(base, changed, p)
    ensures p == base + path ==>
              && Hashed(base, node, p) == (Text(p) + before) + here + after
              && Hashed(base, changed, p) == (Text(p) + before) + there + after
  {
    assert p == base + p[|base|..];
    assert (base + path)[|base|..] == path;
  }

  lemma Regrouped(first: seq<Byte>, left: seq<Byte>, mid: seq<Byte>, right: seq<Byte>, more: seq<Byte>)
    ensures first + (left + mid + right) == (first + left) + mid + right
    ensures (left + mid + right) + more == left + mid + (right + more)
  {
  }

  /** The streams of two such trees differ as the sources do, with something before and something after. */
  lemma {:induction false} StreamAround(base: Path, node: Node, changed: Node, path: Path, paths: seq<Path>,
                                        before: seq<Byte>, here: seq<Byte>, there: seq<Byte>, after: seq<Byte>)
    returns (left: seq<Byte>, right: seq<Byte>)
    requires Apart(node, changed, path, before, here, there, after)
    requires Distinct(paths) && (forall p <- paths :: Under(base, p) && IsSource(node, p[|base|..]))
    ensures base + path in paths ==>
              Stream(base, node, paths) == left + here + right && Stream(base, changed, paths) == left + there + right
    ensures base + path !in paths ==> Stream(base, node, paths) == Stream(base, changed, paths)
    decreases |paths|
  {
    left, right := [], [];
    if paths != [] {
      var n := |paths| - 1;
      var last := paths[n];
      assert paths == paths[..n] + [last] && last in paths && last !in paths[..n];
      HashedApart(base, node, changed, path, last, before, here, there, after);
      hide IsSource, Under, Apart, Hashed, Text, Distinct;
      left, right := StreamAround(base, node, changed, path, paths[..n], before, here, there, after);
      var earlier, same := Stream(base, node, paths[..n]), Stream(base, changed, paths[..n]);
      if last == base + path {
        Regrouped(earlier, Text(last) + before, here, after, []);
        Regrouped(same, Text(last) + before, there, after, []);
        left, right := earlier + (Text(last) + before), after;
      } else if base + path in paths[..n] {
        var more := Hashed(base, node, last);
        Regrouped([], left, here, right, more);
        Regrouped([], left, there, right, more);
        right := right + more;
      }
    }
  }

  /** So do the bytes the two fingerprints are folded over. */
  lemma FoldedAround(version: seq<Byte>, base: Path, node: Node, changed: Node, path: Path,
                     before: seq<Byte>, here: seq<Byte>, there: seq<Byte>, after: seq<Byte>,
                     order: Path -> seq<Name>, other: Path -> seq<Name>)
    returns (left: seq<Byte>, right: seq<Byte>)
    requires Lists(order, base, node) && Lists(other, base, changed)
    requires Apart(node, changed, path, before, here, there, after)
    ensures CoreFingerprint(version, base, node, order) == Update(OFFSET, left + here + right)
    ensures CoreFingerprint(version, base, changed, other) == Update(OFFSET, left + there + right)
  {
    hide Collected, IsSource, Lists, Stream, Update;
    var paths := Sorted(Collected(base, node, order));
    SameSortedSources(base, node, changed, order, other) by { assert Apart(node, changed, path, before, here, there, after); }
    ChangedIsHashed(base, node, path, order);
    hide Sorted;
    var lead, tail := StreamAround(base, node, changed, path, paths, before, here, there, after);
    hide Apart;
    assert version + (lead + here + tail) == version + lead + here + tail;
    assert version + (lead + there + tail) == version + lead + there + tail;
    left, right := version + lead, tail;
  }

  /** Any change of one byte in one source is detected, however each tree is listed. */
  lemma ByteChangeIsDetected(version: seq<Byte>, base: Path, node: Node, changed: Node, path: Path,
                             before: seq<Byte>, b: Byte, c: Byte, after: seq<Byte>,
                             order: Path -> seq<Name>, other: Path -> seq<Name>)
    requires Lists(order, base, node) && Lists(other, base, changed)
    requires Apart(node, changed, path, before, [b], [c], after)
    ensures CoreFingerprint(version, base, node, order) == CoreFingerprint(version, base, changed, other) <==> b == c
  {
    hide CoreFingerprint, Apart, Lists, Update;
    var left, right := FoldedAround(version, base, node, changed, path, before, [b], [c], after, order, other);
    OneByteChanges(OFFSET, left, b, c, right);
  }

  /** So is any change of two neighbouring bytes. */
  lemma TwoByteChangeIsDetected(version: seq<Byte>, base: Path, node: Node, changed: Node, path: Path,
                                before: seq<Byte>, b: Byte, b': Byte, c: Byte, c': Byte, after: seq<Byte>,
                                order: Path -> seq<Name>, other: Path -> seq<Name>)
    requires Lists(order, base, node) && Lists(other, base, changed)
    requires Apart(node, changed, path, before, [b, b'], [c, c'], after)
    ensures CoreFingerprint(version, base, node, order) == CoreFingerprint(version, base, changed, other) <==> b == c && b' == c'
  {
    hide CoreFingerprint, Apart, Lists, Update;
    var left, right := FoldedAround(version, base, node, changed, path, before, [b, b'], [c, c'], after, order, other);
    TwoBytesChange(OFFSET, left, b, b', c, c', right);
  }

  /** The version is hashed too: of one tree, however it is listed each time, two versions that are the same but
      for one byte have one fingerprint only if they are one version. */
  lemma VersionChangeIsDetected(before: seq<Byte>, b: Byte, c: Byte, after: seq<Byte>, base: Path, node: Node,
                                order: Path -> seq<Name>, other: Path -> seq<Name>)
    requires Lists(order, base, node) && Lists(other, base, node)
    ensures CoreFingerprint(before + [b] + after, base, node, order) == CoreFingerprint(before + [c] + after, base, node, other)
            <==> b == c
  {
    var more := VersionFolded(before, [b], [c], after, base, node, order, other);
    hide CoreFingerprint, Lists, Update;
    OneByteChanges(OFFSET, before, b, c, more);
  }

  /** And so is any change of two neighbouring bytes of it. */
  lemma TwoByteVersionChangeIsDetected(before: seq<Byte>, b: Byte, b': Byte, c: Byte, c': Byte, after: seq<Byte>,
                                       base: Path, node: Node, order: Path -> seq<Name>, other: Path -> seq<Name>)
    requires Lists(order, base, node) && Lists(other, base, node)
    ensures CoreFingerprint(before + [b, b'] + after, base, node, order) == CoreFingerprint(before + [c, c'] + after, base, node, other)
            <==> b == c && b' == c'
  {
    var more := VersionFolded(before, [b, b'], [c, c'], after, base, node, order, other);
    hide CoreFingerprint, Lists, Update;
    TwoBytesChange(OFFSET, before, b, b', c, c', more);
  }

  /** What the two fingerprints are folded over differs in the version alone. */
  lemma VersionFolded(before: seq<Byte>, here: seq<Byte>, there: seq<Byte>, after: seq<Byte>, base: Path, node: Node,
                      order: Path -> seq<Name>, other: Path -> seq<Name>)
    returns (more: seq<Byte>)
    requires Lists(order, base, node) && Lists(other, base, node)
    ensures CoreFingerprint(before + here + after, base, node, order) == Update(OFFSET, before + here + more)
    ensures CoreFingerprint(before + there + after, base, node, other) == Update(OFFSET, before + there + more)
  {
    SameSortedSources(base, node, node, order, other);
    hide Collected, Lists, Stream, Update, Sorted;
    var hashed := Stream(base, node, Sorted(Collected(base, node, order)));
    more := after + hashed;
    assert (before + here + after) + hashed == before + here + more;
    assert (before + there + after) + hashed == before + there + more;
  }

  lemma ChangedIsHashed(base: Path, node: Node, path: Path, order: Path -> seq<Name>)
    requires Lists(order, base, node) && IsSource(node, path)
    ensures var paths := Sorted(Collected(base, node, order));
            && base + path in paths && Distinct(paths)
            && forall p <- paths :: Under(base, p) && IsSource(node, p[|base|..])
  {
    CollectedAreSources(base, node, order);
    hide Collected, IsSource, Lists;
    SortedAscends(Collected(base, node, order));
    AscendingDistinct(Sorted(Collected(base, node, order)));
    assert (base + path)[|base|..] == path && (base + path)[..|base|] == base;
  }

  lemma AscendingDistinct(paths: seq<Path>)
    requires Ascending(paths)
    ensures Distinct(paths)
  {
    hide PathBefore;
    forall i, j | 0 <= i < j < |paths| ensures paths[i] != paths[j] {
      PathsOrdered(paths[i], paths[i], paths[i]);
    }
  }

  /** `src/a.rs` reading `x.rs`, and an empty `src/a.rsx.rs`. */
  const SRC: Path := [[115, 114, 99]]
  const A_RS: Name := [97, 46, 114, 115]
  const AX_RS: Name := [97, 46, 114, 115, 120, 46, 114, 115]
  const X_RS: seq<Byte> := [120, 46, 114, 115]

  /** What cannot be detected: the path and the contents are hashed with nothing between them, so a file
      can give its first bytes to its name. */
  lemma BoundaryIsNotHashed(version: seq<Byte>, order: Path -> seq<Name>, other: Path -> seq<Name>)
    requires order(SRC) == [A_RS] && other(SRC) == [AX_RS]
    ensures var one, two := Dir(map[A_RS := File(Some(X_RS))]), Dir(map[AX_RS := File(Some([]))]);
            && Collected(SRC, one, order) != Collected(SRC, two, other)
            && CoreFingerprint(version, SRC, one, order) == CoreFingerprint(version, SRC, two, other)
  {
    var one, two := Dir(map[A_RS := File(Some(X_RS))]), Dir(map[AX_RS := File(Some([]))]);
    OneFile(one, A_RS, X_RS, order);
    OneFile(two, AX_RS, [], other);
    assert A_RS + X_RS == AX_RS + [];
    assert Text(SRC + [A_RS]) + X_RS == SRC[0] + [SEPARATOR] + (A_RS + X_RS) by { TextOfTwo(A_RS); }
    assert Text(SRC + [AX_RS]) + [] == SRC[0] + [SEPARATOR] + (AX_RS + []) by { TextOfTwo(AX_RS); }
  }

  lemma TextOfTwo(name: Name)
    ensures Text(SRC + [name]) == SRC[0] + [SEPARATOR] + name
  {
    assert (SRC + [name])[..|SRC + [name]| - 1] == SRC;
  }

  lemma OneFile(node: Node, name: Name, contents: seq<Byte>, order: Path -> seq<Name>)
    requires node == Dir(map[name := File(Some(contents))]) && order(SRC) == [name] && IsRust(name)
    ensures Collected(SRC, node, order) == [SRC + [name]]
    ensures Stream(SRC, node, Sorted(Collected(SRC, node, order))) == Text(SRC + [name]) + contents
  {
    var path := SRC + [name];
    var names := [name];
    assert names[1..] == [];
    assert CollectedNames(SRC, node, names[1..], order) == [];
    assert CollectedOne(SRC, node, name, order) == [path];
    assert CollectedNames(SRC, node, names, order) == [path] + [];
    assert order(SRC) == names;
    assert Collected(SRC, node, order) == [path];
    var paths := [path];
    assert paths[..0] == [];
    assert Sorted(paths) == Inserted(Sorted(paths[..0]), path) == paths;
    assert path[..|SRC|] == SRC && path[|SRC|..] == [name];
    assert ContentsOf(node, [name]) == contents;
    assert Stream(SRC, node, paths[..0]) == [];
  }

  // ---- The build script as it runs ----

  /** `collect_rs_files`: each source is pushed onto `out` as it is met. */
  method CollectRsFiles(base: Path, node: Node, order: Path -> seq<Name>, out: seq<Path>) returns (files: seq<Path>)
    ensures files == out + Collected(base, node, order)
    decreases node
  {
    files := out;
    if node.Dir? {
      var names := order(base);
      var i := 0;
      while i < |names|
        invariant i <= |names|
        invariant files + CollectedNames(base, node, names[i..], order) == out + Collected(base, node, order)
      {
        var name := names[i];
        assert names[i..][1..] == names[i + 1..];
        ghost var was := files;
        if name in node.entries {
          if node.entries[name].Dir? {
            files := CollectRsFiles(base + [name], node.entries[name], order, files);
          } else if IsRust(name) {
            files := files + [base + [name]];
          }
        }
        assert files == was + CollectedOne(base, node, name, order);
        assert was + (CollectedOne(base, node, name, order) + CollectedNames(base, node, names[i + 1..], order))
            == files + CollectedNames(base, node, names[i + 1..], order);
        i := i + 1;
      }
    }
  }

  method HashFile(hash: Fnv1a, base: Path, node: Node, path: Path, ghost before: seq<Byte>)
    requires hash.state == Update(OFFSET, before)
    modifies hash
    ensures hash.state == Update(OFFSET, before + Hashed(base, node, path))
  {
    hide Update;
    var text := Text(path);
    var contents := if Under(base, path) then ContentsOf(node, path[|base|..]) else [];
    UpdateConcat(OFFSET, before, text);
    hash.UpdateWith(text);
    UpdateConcat(OFFSET, before + text, contents);
    hash.UpdateWith(contents);
    assert before + text + contents == before + Hashed(base, node, path);
  }

  method HashFiles(hash: Fnv1a, base: Path, node: Node, files: seq<Path>, ghost before: seq<Byte>)
    requires hash.state == Update(OFFSET, before)
    modifies hash
    ensures hash.state == Update(OFFSET, before + Stream(base, node, files))
  {
    hide Update, Hashed;
    var i := 0;
    assert before + Stream(base, node, files[..0]) == before;
    while i < |files|
      invariant i <= |files|
      invariant hash.state == Update(OFFSET, before + Stream(base, node, files[..i]))
    {
      assert files[..i + 1][..i] == files[..i];
      HashFile(hash, base, node, files[i], before + Stream(base, node, files[..i]));
      assert before + Stream(base, node, files[..i]) + Hashed(base, node, files[i]) == before + Stream(base, node, files[..i + 1]);
      i := i + 1;
    }
    assert files[..i] == files;
  }

  /** `main`. */
  method Digest(version: seq<Byte>, base: Path, node: Node, order: Path -> seq<Name>) returns (digest: U64)
    ensures digest == CoreFingerprint(version, base, node, order)
  {
    hide Update, Stream, Sorted, Collected;
    var files := CollectRsFiles(base, node, order, []);
    assert files == Collected(base, node, order);
    files := Sorted(files);
    var hash := new Fnv1a();
    UpdateNothing();
    hash.UpdateWith(version);
    HashFiles(hash, base, node, files, version);
    digest := hash.state;
  }

  lemma UpdateNothing()
    ensures Update(OFFSET, []) == OFFSET
  {
  }
}
