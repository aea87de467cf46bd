/**
 What the definitions the core fingerprint rests on come to, said another way:
 which files are sources, what is read of them, and how their paths are told
 apart and ordered.
 */
module CoreTree {
  import opened Options
  import opened Fingerprint
  import opened CoreSources

  // ---- Reaching a file ----

  /** Going down `path` from `node`, a directory at a time, leads through these nodes. */
  ghost predicate Leads(node: Node, path: Path, nodes: seq<Node>) {
    && |nodes| == |path| + 1 && nodes[0] == node
    && forall i :: 0 <= i < |path| ==> nodes[i].Dir? && path[i] in nodes[i].entries && nodes[i + 1] == nodes[i].entries[path[i]]
  }

  lemma LeadsOn(node: Node, path: Path, nodes: seq<Node>)
    requires Leads(node, path, nodes) && path != []
    ensures node.Dir? && path[0] in node.entries && Leads(node.entries[path[0]], path[1..], nodes[1..])
  {
  }

  lemma LeadsFrom(node: Node, path: Path, nodes: seq<Node>)
    requires path != [] && node.Dir? && path[0] in node.entries && Leads(node.entries[path[0]], path[1..], nodes)
    ensures Leads(node, path, [node] + nodes)
  {
    var more := [node] + nodes;
    forall i | 0 <= i < |path|
      ensures more[i].Dir? && path[i] in more[i].entries && more[i + 1] == more[i].entries[path[i]]
    {
      if i > 0 { assert path[i] == path[1..][i - 1]; }
    }
  }

  /** `path` reaches a file, with what can be read of it. */
  ghost predicate Reaches(node: Node, path: Path, contents: Option<seq<Byte>>) {
    exists nodes :: Leads(node, path, nodes) && nodes[|path|] == File(contents)
  }

  /** The extension of a file name: what follows its last dot, if anything precedes that. */
  function Extension(name: Name): Option<Name> {
    AfterLastDot(name, [])
  }

  function AfterLastDot(front: Name, back: Name): Option<Name>
    decreases |front|
  {
    if front == [] then None
    else if front[|front| - 1] == 46 then if |front| == 1 then None else Some(back)
    else AfterLastDot(front[..|front| - 1], [front[|front| - 1]] + back)
  }

  /** A name's files are collected exactly for the extension `rs`. */
  lemma RustIffExtension(name: Name)
    ensures IsRust(name) <==> Extension(name) == Some([114, 115])
  {
    DotIsWhereItWas(name, []);
    assert name + [] == name && [46] + [114, 115] == [46, 114, 115];
    if IsRust(name) {
      var n := |name|;
      assert name[n - 3..] == [name[n - 3], name[n - 2], name[n - 1]];
      var one, two := name[..n - 1], name[..n - 1][..n - 2];
      assert name[n - 3] == name[n - 3..][0] == 46 && name[n - 2] == name[n - 3..][1] == 114 && name[n - 1] == name[n - 3..][2] == 115;
      assert AfterLastDot(name, []) == AfterLastDot(one, [115] + []);
      assert [115] + [] == [115] && [114] + [115] == [114, 115];
      assert AfterLastDot(one, [115]) == AfterLastDot(two, [114] + [115]);
    }
  }

  lemma {:induction false} DotIsWhereItWas(front: Name, back: Name)
    ensures AfterLastDot(front, back).Some? ==>
              var after, whole := AfterLastDot(front, back).value, front + back;
              |after| < |whole| - 1 && whole[|whole| - |after| - 1..] == [46] + after
    decreases |front|
  {
    if front != [] && front[|front| - 1] != 46 {
      DotIsWhereItWas(front[..|front| - 1], [front[|front| - 1]] + back);
      assert front[..|front| - 1] + ([front[|front| - 1]] + back) == front + back;
    }
  }

  /** The sources of a tree are the files with that extension, at whatever depth; and what is hashed of one is
      what can be read of it, or nothing. */
  lemma {:induction false} SourcesAreReachedFiles(node: Node, path: Path)
    ensures IsSource(node, path) <==>
            path != [] && (exists contents :: Reaches(node, path, contents)) && Extension(path[|path| - 1]) == Some([114, 115])
    decreases |path|
  {
    if path != [] && node.Dir? && path[0] in node.entries {
      var next := node.entries[path[0]];
      if |path| == 1 {
        RustIffExtension(path[0]);
        if next.File? {
          var nodes := [node, next];
          assert Leads(node, path, nodes) && nodes[|path|] == File(next.contents);
          assert Reaches(node, path, next.contents);
        }
      } else {
        SourcesAreReachedFiles(next, path[1..]);
        assert path[1..][|path| - 2] == path[|path| - 1];
      }
      if contents :| Reaches(node, path, contents) {
        var nodes :| Leads(node, path, nodes) && nodes[|path|] == File(contents);
        LeadsOn(node, path, nodes);
        assert nodes[1..][|path| - 1] == File(contents);
        assert Reaches(next, path[1..], contents);
      }
      if contents :| Reaches(next, path[1..], contents) {
        var nodes :| Leads(next, path[1..], nodes) && nodes[|path| - 1] == File(contents);
        LeadsFrom(node, path, nodes);
        assert Reaches(node, path, contents);
      }
    }
  }

  lemma {:induction false} ReachedIsRead(node: Node, path: Path, contents: Option<seq<Byte>>)
    requires Reaches(node, path, contents)
    ensures ContentsOf(node, path) == if contents.Some? then contents.value else []
    decreases |path|
  {
    var nodes :| Leads(node, path, nodes) && nodes[|path|] == File(contents);
    if path != [] {
      LeadsOn(node, path, nodes);
      assert nodes[1..][|path| - 1] == File(contents);
      ReachedIsRead(node.entries[path[0]], path[1..], contents);
    }
  }

  // ---- Telling paths apart ----

  /** A component of a path: not empty, and without a separator. */
  predicate IsComponent(name: Name) {
    name != [] && SEPARATOR !in name
  }

  lemma LastPartsMatch(x: seq<Byte>, a: Name, y: seq<Byte>, b: Name)
    requires SEPARATOR !in a && SEPARATOR !in b && x + [SEPARATOR] + a == y + [SEPARATOR] + b
    ensures x == y && a == b
  {
    var s := x + [SEPARATOR] + a;
    assert s[|x|] == SEPARATOR && s[|y|] == SEPARATOR;
    assert forall i :: |x| < i < |s| ==> s[i] == a[i - |x| - 1] != SEPARATOR;
    assert forall i :: |y| < i < |s| ==> s[i] == b[i - |y| - 1] != SEPARATOR;
    assert |x| == |y|;
    assert x == s[..|x|] && y == s[..|x|] && a == s[|x| + 1..] && b == s[|x| + 1..];
  }

  /** Two paths hashed as the same text are the same path. */
  lemma {:induction false} TextIsInjective(p: Path, q: Path)
    requires (forall name <- p :: IsComponent(name)) && (forall name <- q :: IsComponent(name))
    ensures Text(p) == Text(q) <==> p == q
    decreases |p|
  {
    if Text(p) == Text(q) {
      if |p| >= 1 { assert IsComponent(p[|p| - 1]); }
      if |q| >= 1 { assert IsComponent(q[|q| - 1]); }
      if |p| > 1 && |q| > 1 {
        LastPartsMatch(Text(p[..|p| - 1]), p[|p| - 1], Text(q[..|q| - 1]), q[|q| - 1]);
        TextIsInjective(p[..|p| - 1], q[..|q| - 1]);
        assert p == p[..|p| - 1] + [p[|p| - 1]] && q == q[..|q| - 1] + [q[|q| - 1]];
      } else if |p| > 1 {
        LongTextSeparates(p);
      } else if |q| > 1 {
        LongTextSeparates(q);
      }
    }
  }

  lemma LongTextSeparates(p: Path)
    requires |p| > 1
    ensures SEPARATOR in Text(p)
  {
    var front := Text(p[..|p| - 1]);
    assert Text(p)[|front|] == SEPARATOR;
  }

  /** The first place two names differ decides, by its byte; with none, the shorter comes first. */
  lemma {:induction false} NameBeforeIff(a: Name, b: Name)
    ensures NameBefore(a, b) <==>
            exists k :: 0 <= k <= |a| && k < |b| && a[..k] == b[..k] && (k == |a| || a[k] < b[k])
    decreases |a|
  {
    if a == [] || b == [] {
      if b != [] { assert a[..0] == b[..0]; }
    } else if a[0] != b[0] {
      assert a[..0] == b[..0];
      forall k | 0 < k <= |a| && k < |b| ensures a[..k] != b[..k] {
        assert a[..k][0] != b[..k][0];
      }
    } else {
      NameBeforeIff(a[1..], b[1..]);
      if k :| 0 <= k <= |a| && k < |b| && a[..k] == b[..k] && (k == |a| || a[k] < b[k]) {
        assert a[1..][..k - 1] == a[..k][1..] && b[1..][..k - 1] == b[..k][1..];
        assert 0 <= k - 1 <= |a[1..]|;
      }
      if k :| 0 <= k <= |a[1..]| && k < |b[1..]| && a[1..][..k] == b[1..][..k] && (k == |a[1..]| || a[1..][k] < b[1..][k]) {
        assert a[..k + 1] == [a[0]] + a[1..][..k] && b[..k + 1] == [b[0]] + b[1..][..k];
        assert 0 <= k + 1 <= |a|;
      }
    }
  }

  /** And so for paths, component by component. */
  lemma {:induction false} PathBeforeIff(a: Path, b: Path)
    ensures PathBefore(a, b) <==>
            exists k :: 0 <= k <= |a| && k < |b| && a[..k] == b[..k] && (k == |a| || NameBefore(a[k], b[k]))
    decreases |a|
  {
    hide NameBefore;
    if a == [] || b == [] {
      if b != [] { assert a[..0] == b[..0]; }
    } else if a[0] != b[0] {
      assert a[..0] == b[..0];
      forall k | 0 < k <= |a| && k < |b| ensures a[..k] != b[..k] {
        assert a[..k][0] != b[..k][0];
      }
    } else {
      PathBeforeIff(a[1..], b[1..]);
      if k :| 0 <= k <= |a| && k < |b| && a[..k] == b[..k] && (k == |a| || NameBefore(a[k], b[k])) {
        if k == 0 { NamesOrdered(a[0], b[0], b[0]); }
        assert a[1..][..k - 1] == a[..k][1..] && b[1..][..k - 1] == b[..k][1..];
        assert 0 <= k - 1 <= |a[1..]|;
      }
      if k :| 0 <= k <= |a[1..]| && k < |b[1..]| && a[1..][..k] == b[1..][..k] && (k == |a[1..]| || NameBefore(a[1..][k], b[1..][k])) {
        assert a[..k + 1] == [a[0]] + a[1..][..k] && b[..k + 1] == [b[0]] + b[1..][..k];
        assert 0 <= k + 1 <= |a|;
      }
    }
  }
}
