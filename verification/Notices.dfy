/**
 What the Overview says when parts of a reading are missing (`mergeNotices` in
 `src/lib/activityGaps.ts`): gaps with one cause and one remedy become one
 notice.
 */
module Notices {
  datatype Kind = Retry | Diagnostics | Dashboard | ApiKeys | Docs

  datatype Action = Action(kind: Kind, text: string)

  datatype Notice = Notice(subject: string, cause: string, actions: seq<Action>)

  function KindText(k: Kind): string {
    match k
    case Retry => "retry"
    case Diagnostics => "diagnostics"
    case Dashboard => "dashboard"
    case ApiKeys => "api-keys"
    case Docs => "docs"
  }

  function Kinds(actions: seq<Action>): seq<Kind> {
    seq(|actions|, i requires 0 <= i < |actions| => actions[i].kind)
  }

  /** `join(",")`. */
  function Joined(kinds: seq<Kind>): string {
    if kinds == [] then ""
    else if |kinds| == 1 then KindText(kinds[0])
    else KindText(kinds[0]) + "," + Joined(kinds[1..])
  }

  /** The text a notice is grouped under. */
  function KeyText(n: Notice): string {
    n.cause + "|" + Joined(Kinds(n.actions))
  }

  /** One cause and one remedy: what may be said in one notice. */
  predicate Alike(a: Notice, b: Notice) {
    a.cause == b.cause && Kinds(a.actions) == Kinds(b.actions)
  }

  // ---- The key ----

  predicate Free(s: string, c: char) {
    c !in s
  }

  lemma KindFree(k: Kind)
    ensures Free(KindText(k), '|') && Free(KindText(k), ',') && KindText(k) != ""
  {
  }

  lemma {:induction false} JoinedFree(kinds: seq<Kind>)
    ensures Free(Joined(kinds), '|')
  {
    if kinds != [] {
      KindFree(kinds[0]);
      JoinedFree(kinds[1..]);
    }
  }

  function First(s: string, c: char): nat {
    if s == "" || s[0] == c then 0 else 1 + First(s[1..], c)
  }

  function Last(s: string, c: char): nat
    decreases |s|
  {
    if s == "" then 0 else if s[|s| - 1] == c then |s| - 1 else Last(s[..|s| - 1], c)
  }

  lemma {:induction false} FirstIs(a: string, x: string, c: char)
    requires Free(a, c)
    ensures First(a + [c] + x, c) == |a|
  {
    if a != "" {
      assert (a + [c] + x)[1..] == a[1..] + [c] + x;
      FirstIs(a[1..], x, c);
    }
  }

  lemma {:induction false} LastIs(a: string, x: string, c: char)
    requires Free(x, c)
    ensures Last(a + [c] + x, c) == |a|
    decreases |x|
  {
    var s := a + [c] + x;
    if x != "" {
      assert s[..|s| - 1] == a + [c] + x[..|x| - 1];
      assert s[|s| - 1] == x[|x| - 1] && x[|x| - 1] in x;
      LastIs(a, x[..|x| - 1], c);
    }
  }

  lemma SplitAt(a: string, b: string, x: string, y: string, c: char)
    requires a + [c] + x == b + [c] + y && |a| == |b|
    ensures a == b && x == y
  {
    var s := a + [c] + x;
    assert a == s[..|a|] && b == s[..|a|];
    assert x == s[|a| + 1..] && y == s[|a| + 1..];
  }

  /** A text splits at a mark in one way, when what comes before it holds no other. */
  lemma SplitBefore(a: string, b: string, x: string, y: string, c: char)
    requires Free(a, c) && Free(b, c) && a + [c] + x == b + [c] + y
    ensures a == b && x == y
  {
    FirstIs(a, x, c);
    FirstIs(b, y, c);
    SplitAt(a, b, x, y, c);
  }

  /** And at the last mark, when what comes after it holds no other. */
  lemma SplitAfter(a: string, b: string, x: string, y: string, c: char)
    requires Free(x, c) && Free(y, c) && a + [c] + x == b + [c] + y
    ensures a == b && x == y
  {
    LastIs(a, x, c);
    LastIs(b, y, c);
    SplitAt(a, b, x, y, c);
  }

  lemma KindsTexts(a: Kind, b: Kind)
    ensures KindText(a) == KindText(b) <==> a == b
  {
    assert "retry"[0] == 'r' && "diagnostics"[1] == 'i' && "dashboard"[1] == 'a' && "api-keys"[0] == 'a' && "docs"[1] == 'o';
    assert "diagnostics"[0] == 'd' && "dashboard"[0] == 'd' && "docs"[0] == 'd';
  }

  lemma Marked(kinds: seq<Kind>)
    requires kinds != []
    ensures ',' in Joined(kinds) <==> |kinds| > 1
  {
    KindFree(kinds[0]);
    if |kinds| > 1 { assert Joined(kinds)[|KindText(kinds[0])|] == ','; }
  }

  lemma {:induction false} JoinedOnce(a: seq<Kind>, b: seq<Kind>)
    requires Joined(a) == Joined(b)
    ensures a == b
    decreases |a|
  {
    if a == [] || b == [] {
      if a != [] { JoinedSome(a); }
      if b != [] { JoinedSome(b); }
    } else {
      KindFree(a[0]);
      KindFree(b[0]);
      KindsTexts(a[0], b[0]);
      Marked(a);
      Marked(b);
      if |a| == 1 {
        assert a == [a[0]] && b == [b[0]];
      } else {
        SplitBefore(KindText(a[0]), KindText(b[0]), Joined(a[1..]), Joined(b[1..]), ',');
        JoinedOnce(a[1..], b[1..]);
        assert a == [a[0]] + a[1..] && b == [b[0]] + b[1..];
      }
    }
  }

  lemma JoinedSome(kinds: seq<Kind>)
    requires kinds != []
    ensures Joined(kinds) != ""
  {
    KindFree(kinds[0]);
  }

  /** Whatever the causes say, marks of the key's own included: notices share a key exactly when they
      share their cause and the kinds of their actions. */
  lemma KeySeparates(a: Notice, b: Notice)
    ensures KeyText(a) == KeyText(b) <==> Alike(a, b)
  {
    if KeyText(a) == KeyText(b) {
      JoinedFree(Kinds(a.actions));
      JoinedFree(Kinds(b.actions));
      SplitAfter(a.cause, b.cause, Joined(Kinds(a.actions)), Joined(Kinds(b.actions)), '|');
      JoinedOnce(Kinds(a.actions), Kinds(b.actions));
    }
  }

  // ---- Grouping ----

  /** The group a notice belongs to, of those in hand; their number when it belongs to none. */
  function Place(groups: seq<seq<Notice>>, n: Notice): (k: nat)
    ensures k <= |groups|
  {
    if groups == [] then 0
    else if groups[0] != [] && Alike(groups[0][0], n) then 0
    else 1 + Place(groups[1..], n)
  }

  function Placed(groups: seq<seq<Notice>>, n: Notice): seq<seq<Notice>> {
    var k := Place(groups, n);
    if k == |groups| then groups + [[n]] else groups[k := groups[k] + [n]]
  }

  function Groups(notices: seq<Notice>): seq<seq<Notice>>
    decreases |notices|
  {
    if notices == [] then [] else Placed(Groups(notices[..|notices| - 1]), notices[|notices| - 1])
  }

  /** The notices like `n`, in order. */
  function Like(notices: seq<Notice>, n: Notice): seq<Notice>
    decreases |notices|
  {
    if notices == [] then []
    else Like(notices[..|notices| - 1], n) + if Alike(n, notices[|notices| - 1]) then [notices[|notices| - 1]] else []
  }

  predicate SomeLike(heads: seq<Notice>, n: Notice) {
    exists f <- heads :: Alike(f, n)
  }

  /** The first notice of each kind, as they are first seen. */
  function FirstSeen(notices: seq<Notice>): seq<Notice>
    decreases |notices|
  {
    if notices == [] then []
    else
      var earlier, last := FirstSeen(notices[..|notices| - 1]), notices[|notices| - 1];
      if SomeLike(earlier, last) then earlier else earlier + [last]
  }

  ghost predicate AllFilled(groups: seq<seq<Notice>>) {
    forall i :: 0 <= i < |groups| ==> groups[i] != []
  }

  lemma {:induction false} PlaceIs(groups: seq<seq<Notice>>, n: Notice)
    requires AllFilled(groups)
    ensures var k := Place(groups, n);
            && (k < |groups| ==> Alike(groups[k][0], n))
            && (forall j :: 0 <= j < k ==> !Alike(groups[j][0], n))
  {
    if groups != [] {
      PlaceIs(groups[1..], n);
      forall j | 0 <= j < Place(groups, n) ensures !Alike(groups[j][0], n) {
        if j > 0 { assert groups[j] == groups[1..][j - 1]; }
      }
    }
  }

  ghost predicate HeadsAre(groups: seq<seq<Notice>>, heads: seq<Notice>) {
    |groups| == |heads| && forall i :: 0 <= i < |groups| ==> groups[i] != [] && groups[i][0] == heads[i]
  }

  ghost predicate AllUnlike(heads: seq<Notice>) {
    forall i, j :: 0 <= i < j < |heads| ==> !Alike(heads[i], heads[j])
  }

  ghost predicate GroupsAre(groups: seq<seq<Notice>>, heads: seq<Notice>, notices: seq<Notice>)
  {
    |groups| == |heads| && forall i :: 0 <= i < |groups| ==> groups[i] == Like(notices, heads[i])
  }

  lemma AlikeBoth(a: Notice, b: Notice, c: Notice)
    ensures Alike(a, c) && Alike(b, c) ==> Alike(a, b) && Alike(b, a)
    ensures Alike(a, b) <==> Alike(b, a)
  {
  }

  lemma OneMoreLike(notices: seq<Notice>, n: Notice, last: Notice)
    ensures Like(notices + [last], n) == Like(notices, n) + if Alike(n, last) then [last] else []
  {
    assert (notices + [last])[..|notices + [last]| - 1] == notices;
  }

  lemma {:induction false} NoneLike(notices: seq<Notice>, heads: seq<Notice>, last: Notice)
    requires (forall n <- notices :: SomeLike(heads, n)) && !SomeLike(heads, last)
    ensures Like(notices, last) == []
    decreases |notices|
  {
    if notices != [] {
      var n := notices[|notices| - 1];
      assert n in notices;
      var f :| f in heads && Alike(f, n);
      AlikeBoth(f, last, n);
      NoneLike(notices[..|notices| - 1], heads, last);
    }
  }

  /** The groups: their first notices are the first of each kind in the order they are first seen, and
      each group is every notice like its first. */
  lemma {:induction false} GroupsPartition(notices: seq<Notice>)
    ensures HeadsAre(Groups(notices), FirstSeen(notices)) && AllUnlike(FirstSeen(notices))
    ensures GroupsAre(Groups(notices), FirstSeen(notices), notices)
    ensures forall n <- notices :: SomeLike(FirstSeen(notices), n)
    decreases |notices|
  {
    if notices != [] {
      var earlier, last := notices[..|notices| - 1], notices[|notices| - 1];
      GroupsPartition(earlier);
      var groups, heads := Groups(earlier), FirstSeen(earlier);
      PlaceIs(groups, last);
      assert notices == earlier + [last];
      var k := Place(groups, last);
      if k < |groups| {
        assert Alike(heads[k], last) && heads[k] in heads;
        JoinsGroup(groups, heads, earlier, last, k);
      } else {
        assert !SomeLike(heads, last) by {
          forall f <- heads ensures !Alike(f, last) {
            var i :| 0 <= i < |heads| && heads[i] == f;
          }
        }
        StartsGroup(groups, heads, earlier, last);
      }
    }
  }

  lemma JoinsGroup(groups: seq<seq<Notice>>, heads: seq<Notice>, earlier: seq<Notice>, last: Notice, k: nat)
    requires HeadsAre(groups, heads) && AllUnlike(heads) && GroupsAre(groups, heads, earlier)
    requires k < |groups| && Alike(heads[k], last)
    ensures HeadsAre(groups[k := groups[k] + [last]], heads)
    ensures GroupsAre(groups[k := groups[k] + [last]], heads, earlier + [last])
  {
    forall i | 0 <= i < |groups| ensures groups[k := groups[k] + [last]][i] == Like(earlier + [last], heads[i]) {
      OneMoreLike(earlier, heads[i], last);
      AlikeBoth(heads[i], heads[k], last);
    }
  }

  lemma StartsGroup(groups: seq<seq<Notice>>, heads: seq<Notice>, earlier: seq<Notice>, last: Notice)
    requires HeadsAre(groups, heads) && AllUnlike(heads) && GroupsAre(groups, heads, earlier)
    requires (forall n <- earlier :: SomeLike(heads, n)) && !SomeLike(heads, last)
    ensures HeadsAre(groups + [[last]], heads + [last]) && AllUnlike(heads + [last])
    ensures GroupsAre(groups + [[last]], heads + [last], earlier + [last])
    ensures forall n <- earlier + [last] :: SomeLike(heads + [last], n)
  {
    NoneLike(earlier, heads, last);
    forall i | 0 <= i <= |groups| ensures (groups + [[last]])[i] == Like(earlier + [last], (heads + [last])[i]) {
      OneMoreLike(earlier, (heads + [last])[i], last);
      assert i < |groups| ==> heads[i] in heads;
    }
    forall n <- earlier + [last] ensures SomeLike(heads + [last], n) {
      if n in earlier {
        var f :| f in heads && Alike(f, n);
        assert f in heads + [last];
      } else {
        assert last in heads + [last];
      }
    }
    forall i | 0 <= i < |heads| ensures !Alike(heads[i], last) { assert heads[i] in heads; }
  }

  // ---- Merging ----

  function Subjects(group: seq<Notice>): string {
    if group == [] then ""
    else if |group| == 1 then group[0].subject
    else group[0].subject + ", " + Subjects(group[1..])
  }

  /** `listSubjects`. */
  function ListSubjects(group: seq<Notice>): string
    requires |group| >= 2
  {
    Subjects(group[..|group| - 1]) + " and " + group[|group| - 1].subject
  }

  function Merged(group: seq<Notice>, total: nat): Notice
    requires group != []
  {
    if |group| == 1 then group[0]
    else group[0].(subject := if |group| == total then "Activity" else ListSubjects(group))
  }

  /** `mergeNotices`. */
  function Merge(notices: seq<Notice>): seq<Notice> {
    GroupsPartition(notices);
    seq(|Groups(notices)|, i requires 0 <= i < |Groups(notices)| => Merged(Groups(notices)[i], |notices|))
  }

  /** One notice for each cause and remedy, in the order they are first seen, saying that cause and
      offering those actions. */
  lemma OneNoticePerCause(notices: seq<Notice>)
    ensures |Merge(notices)| == |FirstSeen(notices)| && AllUnlike(Merge(notices))
    ensures forall i :: 0 <= i < |Merge(notices)| ==>
              && Merge(notices)[i].cause == FirstSeen(notices)[i].cause
              && Merge(notices)[i].actions == FirstSeen(notices)[i].actions
    ensures forall n <- notices :: SomeLike(Merge(notices), n)
  {
    GroupsPartition(notices);
    forall n <- notices ensures SomeLike(Merge(notices), n) {
      var f :| f in FirstSeen(notices) && Alike(f, n);
      var i :| 0 <= i < |FirstSeen(notices)| && FirstSeen(notices)[i] == f;
      assert Merge(notices)[i] in Merge(notices) && Alike(Merge(notices)[i], n);
    }
  }

  function Flat(groups: seq<seq<Notice>>): seq<Notice> {
    if groups == [] then [] else groups[0] + Flat(groups[1..])
  }

  lemma {:induction false} PlacedCounts(groups: seq<seq<Notice>>, n: Notice)
    ensures multiset(Flat(Placed(groups, n))) == multiset(Flat(groups)) + multiset{n}
    decreases |groups|
  {
    hide Alike;
    var k := Place(groups, n);
    if groups == [] {
      assert Placed(groups, n) == [[n]] && Flat([[n]]) == [n] + Flat([[n]][1..]);
    } else if k == 0 {
      assert Placed(groups, n)[1..] == groups[1..];
    } else {
      PlacedCounts(groups[1..], n);
      assert Placed(groups, n)[1..] == Placed(groups[1..], n);
      assert Placed(groups, n)[0] == groups[0];
    }
  }

  /** Every gap is covered once: the groups behind the merged notices hold the notices between them. */
  lemma {:induction false} EveryGapCoveredOnce(notices: seq<Notice>)
    ensures multiset(Flat(Groups(notices))) == multiset(notices)
    decreases |notices|
  {
    if notices != [] {
      EveryGapCoveredOnce(notices[..|notices| - 1]);
      PlacedCounts(Groups(notices[..|notices| - 1]), notices[|notices| - 1]);
      assert notices == notices[..|notices| - 1] + [notices[|notices| - 1]];
    }
  }

  lemma {:induction false} LikeCounts(notices: seq<Notice>, n: Notice)
    ensures |Like(notices, n)| <= |notices|
    ensures |Like(notices, n)| == |notices| <==> forall m <- notices :: Alike(n, m)
    decreases |notices|
  {
    if notices != [] {
      var last := notices[|notices| - 1];
      LikeCounts(notices[..|notices| - 1], n);
      assert notices == notices[..|notices| - 1] + [last];
    }
  }

  lemma ListedHasSpace(group: seq<Notice>)
    requires |group| >= 2
    ensures ListSubjects(group) != "Activity"
  {
    var names := Subjects(group[..|group| - 1]);
    assert ListSubjects(group)[|names|] == ' ';
    assert forall c <- "Activity" :: c != ' ';
  }

  /** A merged notice claims the whole reading exactly when every gap in it has that one cause and remedy;
      a gap with a cause of its own keeps its subject; and a group that covers only some names them. */
  lemma ActivityIffAllAlike(notices: seq<Notice>, i: nat)
    requires i < |FirstSeen(notices)|
    ensures |Merge(notices)| == |FirstSeen(notices)|
    ensures var group := Like(notices, FirstSeen(notices)[i]);
            && group != []
            && (|group| == 1 ==> Merge(notices)[i] == group[0])
            && (|group| >= 2 ==>
                  && (Merge(notices)[i].subject == "Activity" <==> forall n <- notices :: Alike(FirstSeen(notices)[i], n))
                  && (Merge(notices)[i].subject != "Activity" ==> Merge(notices)[i].subject == ListSubjects(group)))
  {
    GroupsPartition(notices);
    LikeCounts(notices, FirstSeen(notices)[i]);
    var group := Groups(notices)[i];
    if |group| >= 2 { ListedHasSpace(group); }
  }

  /** The subjects are listed one after another: two joined by "and", and each more in front, with a comma. */
  lemma SubjectsAreListed(first: Notice, rest: seq<Notice>)
    requires rest != []
    ensures ListSubjects([first] + rest) ==
            if |rest| == 1 then first.subject + " and " + rest[0].subject else first.subject + ", " + ListSubjects(rest)
  {
    var group := [first] + rest;
    var names := group[..|group| - 1];
    if |rest| == 1 {
      assert names == [first];
    } else {
      assert names[1..] == rest[..|rest| - 1];
      assert first.subject + ", " + Subjects(rest[..|rest| - 1]) + " and " + rest[|rest| - 1].subject
          == first.subject + ", " + (Subjects(rest[..|rest| - 1]) + " and " + rest[|rest| - 1].subject);
    }
  }

  ghost predicate Names(text: string, name: string) {
    exists front: string, back: string :: text == front + name + back
  }

  lemma NamesIn(front: string, name: string, back: string)
    ensures Names(front + name + back, name)
  {
  }

  lemma NamesAfter(more: string, text: string, name: string)
    requires Names(text, name)
    ensures Names(more + text, name)
  {
    var front: string, back: string :| text == front + name + back;
    assert more + (front + name + back) == (more + front) + name + back;
  }

  lemma {:induction false} EachIsListed(group: seq<Notice>, n: Notice)
    requires |group| >= 2 && n in group
    ensures Names(ListSubjects(group), n.subject)
    decreases |group|
  {
    var first, rest := group[0], group[1..];
    assert group == [first] + rest;
    SubjectsAreListed(first, rest);
    hide ListSubjects, Names;
    if n == first {
      var back := if |rest| == 1 then " and " + rest[0].subject else ", " + ListSubjects(rest);
      NamesIn("", n.subject, back);
      assert "" + n.subject + back == ListSubjects(group);
    } else if |rest| == 1 {
      NamesIn(first.subject + " and ", n.subject, "");
      assert (first.subject + " and ") + n.subject + "" == ListSubjects(group);
    } else {
      EachIsListed(rest, n);
      NamesAfter(first.subject + ", ", ListSubjects(rest), n.subject);
    }
  }

  lemma {:induction false} LikeHolds(notices: seq<Notice>, f: Notice, n: Notice)
    requires n in notices && Alike(f, n)
    ensures n in Like(notices, f)
    decreases |notices|
  {
    var last := notices[|notices| - 1];
    assert notices == notices[..|notices| - 1] + [last];
    if n != last { LikeHolds(notices[..|notices| - 1], f, n); }
  }

  /** Every gap is named: the notice with its cause and remedy names its subject, unless it speaks for all of
      the reading. */
  lemma EverySubjectIsNamed(notices: seq<Notice>, n: Notice)
    requires n in notices
    ensures exists i :: 0 <= i < |Merge(notices)| && Alike(Merge(notices)[i], n)
              && (Names(Merge(notices)[i].subject, n.subject)
                  || (Merge(notices)[i].subject == "Activity" && forall m <- notices :: Alike(n, m)))
  {
    GroupsPartition(notices);
    var f :| f in FirstSeen(notices) && Alike(f, n);
    var i :| 0 <= i < |FirstSeen(notices)| && FirstSeen(notices)[i] == f;
    ActivityIffAllAlike(notices, i);
    LikeHolds(notices, f, n);
    var group := Like(notices, f);
    OneNoticePerCause(notices);
    assert Alike(Merge(notices)[i], n);
    hide Merge, FirstSeen;
    if |group| == 1 {
      assert group[0] == n && n.subject == "" + n.subject + "";
    } else if Merge(notices)[i].subject == "Activity" {
      forall m <- notices ensures Alike(n, m) { AlikeBoth(f, n, m); }
    } else {
      EachIsListed(group, n);
    }
  }

  lemma {:induction false} UnlikeAreAlone(notices: seq<Notice>)
    requires AllUnlike(notices)
    ensures |Groups(notices)| == |notices| && forall i :: 0 <= i < |notices| ==> Groups(notices)[i] == [notices[i]]
    decreases |notices|
  {
    hide Alike, Place;
    if notices != [] {
      var earlier, last := notices[..|notices| - 1], notices[|notices| - 1];
      UnlikeAreAlone(earlier);
      var groups := Groups(earlier);
      forall i | 0 <= i < |groups| ensures !Alike(groups[i][0], last) { assert !Alike(notices[i], last); }
      PlaceNone(groups, last);
    }
  }

  lemma {:induction false} PlaceNone(groups: seq<seq<Notice>>, n: Notice)
    requires AllFilled(groups) && forall i :: 0 <= i < |groups| ==> !Alike(groups[i][0], n)
    ensures Place(groups, n) == |groups|
  {
    if groups != [] {
      forall i | 0 <= i < |groups[1..]| ensures !Alike(groups[1..][i][0], n) { assert groups[1..][i] == groups[i + 1]; }
      PlaceNone(groups[1..], n);
    }
  }

  /** Merging again changes nothing. */
  lemma MergeIsIdempotent(notices: seq<Notice>)
    ensures Merge(Merge(notices)) == Merge(notices)
  {
    OneNoticePerCause(notices);
    UnlikeAreAlone(Merge(notices));
  }

  // ---- The merge as it runs ----

  /** A map in insertion order: the groups, each under the text it was first stored with. */
  class GroupMap {
    var keys: seq<string>
    var groups: seq<seq<Notice>>

    ghost predicate Valid()
      reads this
    {
      |keys| == |groups| && forall i :: 0 <= i < |keys| ==> groups[i] != [] && keys[i] == KeyText(groups[i][0])
    }

    constructor ()
      ensures Valid() && groups == []
    {
      keys, groups := [], [];
    }

    method Add(n: Notice)
      requires Valid()
      modifies this
      ensures Valid() && groups == Placed(old(groups), n)
    {
      var key := KeyText(n);
      PlaceIs(groups, n);
      var i := 0;
      while i < |keys| && keys[i] != key
        invariant i <= |keys| && Valid() && groups == old(groups) && keys == old(keys)
        invariant forall j :: 0 <= j < i ==> !Alike(groups[j][0], n)
      {
        KeySeparates(groups[i][0], n);
        i := i + 1;
      }
      if i < |keys| {
        KeySeparates(groups[i][0], n);
        groups := groups[i := groups[i] + [n]];
      } else {
        keys := keys + [key];
        groups := groups + [[n]];
      }
    }
  }

  method MergeNotices(notices: seq<Notice>) returns (merged: seq<Notice>)
    ensures merged == Merge(notices)
  {
    hide FirstSeen, Like, Merged, Placed;
    var byKey := new GroupMap();
    var i := 0;
    while i < |notices|
      invariant i <= |notices| && byKey.Valid() && byKey.groups == Groups(notices[..i])
    {
      assert notices[..i + 1][..i] == notices[..i];
      byKey.Add(notices[i]);
      i := i + 1;
    }
    assert notices[..i] == notices;
    GroupsPartition(notices);
    merged := MergeGroups(byKey.groups, |notices|);
  }

  method MergeGroups(groups: seq<seq<Notice>>, total: nat) returns (merged: seq<Notice>)
    requires AllFilled(groups)
    ensures |merged| == |groups| && forall j :: 0 <= j < |groups| ==> merged[j] == Merged(groups[j], total)
  {
    merged := [];
    var i := 0;
    while i < |groups|
      invariant i <= |groups| && |merged| == i
      invariant forall j :: 0 <= j < i ==> merged[j] == Merged(groups[j], total)
    {
      merged := merged + [Merged(groups[i], total)];
      i := i + 1;
    }
  }
}
