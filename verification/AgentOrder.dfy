/**
 The report of running agents (`running_agents` in `src-tauri/src/commands.rs`):
 the process walk comes out of a hash map in any order, and the report is read
 row by row, the first row of an app speaking for it.
 */
module AgentOrder {
  datatype Agent = Agent(slug: nat, pid: nat, started: nat, canReopen: bool)

  /** The sort key's order: start second, then what can be relaunched first, then pid. */
  predicate Before(a: Agent, b: Agent) {
    if a.started != b.started then a.started < b.started
    else if a.canReopen != b.canReopen then a.canReopen
    else a.pid <= b.pid
  }

  ghost predicate Sorted(rows: seq<Agent>) {
    forall i, j :: 0 <= i < j < |rows| ==> Before(rows[i], rows[j])
  }

  ghost predicate DistinctPids(rows: seq<Agent>) {
    forall i, j :: 0 <= i < j < |rows| ==> rows[i].pid != rows[j].pid
  }

  function Inserted(rows: seq<Agent>, agent: Agent): seq<Agent>
    decreases |rows|
  {
    if rows == [] || !Before(rows[0], agent) then [agent] + rows else [rows[0]] + Inserted(rows[1..], agent)
  }

  /** The stable sort: equal keys keep the order of the walk. */
  function SortedRows(walk: seq<Agent>): seq<Agent>
    decreases |walk|
  {
    if walk == [] then [] else Inserted(SortedRows(walk[..|walk| - 1]), walk[|walk| - 1])
  }

  lemma BeforeOrders(a: Agent, b: Agent, c: Agent)
    ensures Before(a, b) || Before(b, a)
    ensures Before(a, b) && Before(b, c) ==> Before(a, c)
    ensures Before(a, b) && Before(b, a) ==> a.pid == b.pid
  {
  }

  lemma {:induction false} InsertedSorted(rows: seq<Agent>, agent: Agent)
    requires Sorted(rows)
    ensures multiset(Inserted(rows, agent)) == multiset(rows) + multiset{agent}
    ensures Sorted(Inserted(rows, agent))
    decreases |rows|
  {
    hide Before;
    var r := Inserted(rows, agent);
    if rows == [] || !Before(rows[0], agent) {
      forall i, j | 0 <= i < j < |r| ensures Before(r[i], r[j]) {
        if i == 0 {
          BeforeOrders(agent, rows[0], rows[j - 1]);
          if j > 1 { assert Before(rows[0], rows[j - 1]); }
        } else {
          assert Before(rows[i - 1], rows[j - 1]);
        }
      }
    } else {
      assert rows == [rows[0]] + rows[1..];
      InsertedSorted(rows[1..], agent);
      var rest := Inserted(rows[1..], agent);
      forall j | 0 < j < |r| ensures Before(r[0], r[j]) {
        assert rest[j - 1] in multiset(rest);
        if rest[j - 1] != agent {
          assert rest[j - 1] in rows[1..];
        }
      }
    }
  }

  /** The report is a sorted permutation of the walk. */
  lemma {:induction false} ReportIsSortedWalk(walk: seq<Agent>)
    ensures Sorted(SortedRows(walk))
    ensures multiset(SortedRows(walk)) == multiset(walk)
    decreases |walk|
  {
    if walk != [] {
      ReportIsSortedWalk(walk[..|walk| - 1]);
      InsertedSorted(SortedRows(walk[..|walk| - 1]), walk[|walk| - 1]);
      assert walk == walk[..|walk| - 1] + [walk[|walk| - 1]];
    }
  }

  /** A process cannot share its pid, so no two rows compare equal, and a sorted list of the same rows
      is the same list. */
  lemma {:induction false} SortedOnce(a: seq<Agent>, b: seq<Agent>)
    requires Sorted(a) && Sorted(b) && multiset(a) == multiset(b) && DistinctPids(a)
    ensures a == b
    decreases |a|
  {
    hide Before;
    assert |multiset(a)| == |a| && |multiset(b)| == |b|;
    if a == [] {
      assert b == [];
    } else {
      SameFirst(a, b);
      RestSorted(a);
      RestSorted(b);
      hide Sorted, DistinctPids;
      RestCounted(a);
      RestCounted(b);
      SortedOnce(a[1..], b[1..]);
      assert a == [a[0]] + a[1..] && b == [b[0]] + b[1..];
    }
  }

  lemma RestSorted(a: seq<Agent>)
    requires Sorted(a) && a != []
    ensures Sorted(a[1..]) && (DistinctPids(a) ==> DistinctPids(a[1..]))
  {
    hide Before;
  }

  lemma RestCounted(a: seq<Agent>)
    requires a != []
    ensures multiset(a[1..]) == multiset(a) - multiset{a[0]}
  {
    assert a == [a[0]] + a[1..];
  }

  lemma SameFirst(a: seq<Agent>, b: seq<Agent>)
    requires Sorted(a) && Sorted(b) && multiset(a) == multiset(b) && DistinctPids(a) && a != [] && b != []
    ensures a[0] == b[0]
  {
    hide Before;
    assert a[0] in multiset(b) && b[0] in multiset(a);
    var i :| 0 <= i < |a| && a[i] == b[0];
    var j :| 0 <= j < |b| && b[j] == a[0];
    if i > 0 && j > 0 {
      assert Before(a[0], a[i]) && Before(b[0], b[j]);
      BeforeOrders(a[0], b[0], a[0]);
      assert false;
    }
  }

  /** Two walks of the same processes, in whatever order, give the same report. */
  lemma ReportIgnoresWalkOrder(walk: seq<Agent>, other: seq<Agent>)
    requires multiset(walk) == multiset(other) && DistinctPids(walk)
    ensures SortedRows(walk) == SortedRows(other)
  {
    ReportIsSortedWalk(walk);
    ReportIsSortedWalk(other);
    PidsStayDistinct(walk, SortedRows(walk));
    SortedOnce(SortedRows(walk), SortedRows(other));
  }

  lemma PidsStayDistinct(a: seq<Agent>, b: seq<Agent>)
    requires multiset(a) == multiset(b) && DistinctPids(a)
    ensures DistinctPids(b)
  {
    forall i, j | 0 <= i < j < |b| ensures b[i].pid != b[j].pid {
      var x, y := b[i], b[j];
      assert b == b[..i] + [x] + b[i + 1..j] + [y] + b[j + 1..];
      assert x in multiset(a) && y in multiset(a);
      var p :| 0 <= p < |a| && a[p] == x;
      if x == y {
        assert multiset(b)[x] >= 2;
        TwiceMeansTwo(a, x);
      } else {
        var q :| 0 <= q < |a| && a[q] == y;
        assert p != q;
      }
    }
  }

  lemma {:induction false} TwiceMeansTwo(a: seq<Agent>, x: Agent)
    requires multiset(a)[x] >= 2
    ensures exists i, j :: 0 <= i < j < |a| && a[i] == x && a[j] == x
    decreases |a|
  {
    var n := |a| - 1;
    assert a == a[..n] + [a[n]];
    if a[n] == x {
      assert x in multiset(a[..n]);
      var i :| 0 <= i < n && a[..n][i] == x;
      assert a[i] == x && a[n] == x;
    } else {
      TwiceMeansTwo(a[..n], x);
      var i, j :| 0 <= i < j < n && a[..n][i] == x && a[..n][j] == x;
      assert a[i] == x && a[j] == x;
    }
  }

  /** The row that speaks for an app: the first with its slug. */
  ghost predicate SpeaksFor(rows: seq<Agent>, k: nat, slug: nat) {
    k < |rows| && rows[k].slug == slug && forall j :: 0 <= j < k ==> rows[j].slug != slug
  }

  /** Of all the processes of an app, the one that speaks for it is the oldest, and among those started
      in the same second one that can be relaunched, if any can. */
  lemma FirstRowSpeaksBest(walk: seq<Agent>, k: nat, agent: Agent)
    requires SpeaksFor(SortedRows(walk), k, agent.slug) && agent in walk
    ensures var first := SortedRows(walk)[k];
            && first.started <= agent.started
            && (first.started == agent.started && agent.canReopen ==> first.canReopen)
  {
    ReportIsSortedWalk(walk);
    assert agent in multiset(SortedRows(walk));
    var i :| 0 <= i < |SortedRows(walk)| && SortedRows(walk)[i] == agent;
  }

  /** `running_agents`: the walk sorted in place. */
  method RunningAgents(agents: array<Agent>)
    modifies agents
    ensures agents[..] == SortedRows(old(agents[..]))
  {
    var n := 0;
    while n < agents.Length
      invariant n <= agents.Length
      invariant agents[..n] == SortedRows(old(agents[..])[..n])
      invariant agents[n..] == old(agents[..])[n..]
    {
      ReportIsSortedWalk(old(agents[..])[..n]);
      InsertAt(agents, n);
      assert old(agents[..])[..n + 1][..n] == old(agents[..])[..n];
      n := n + 1;
    }
    assert agents[..n] == agents[..] && old(agents[..])[..n] == old(agents[..]);
  }

  /** One step of the sort: row `n` moves back past the rows it belongs before. */
  method InsertAt(agents: array<Agent>, n: nat)
    requires n < agents.Length
    requires Sorted(agents[..n])
    modifies agents
    ensures agents[..n + 1] == Inserted(old(agents[..n]), old(agents[n]))
    ensures agents[n + 1..] == old(agents[n + 1..])
  {
    hide Before, Sorted, Inserted;
    ghost var rows := agents[..n];
    var agent := agents[n];
    var k := n;
    while k > 0 && !Before(agents[k - 1], agent)
      invariant k <= n && agents[n + 1..] == old(agents[n + 1..])
      invariant agents[..k] == rows[..k] && agents[k + 1..n + 1] == rows[k..]
      invariant k < n ==> !Before(rows[k], agent)
    {
      agents[k] := agents[k - 1];
      k := k - 1;
    }
    agents[k] := agent;
    assert agents[..n + 1] == rows[..k] + [agent] + rows[k..];
    InsertPoint(rows, agent, k);
  }

  lemma InsertPoint(rows: seq<Agent>, agent: Agent, k: nat)
    requires Sorted(rows) && k <= |rows|
    requires (k > 0 ==> Before(rows[k - 1], agent)) && (k < |rows| ==> !Before(rows[k], agent))
    ensures Inserted(rows, agent) == rows[..k] + [agent] + rows[k..]
  {
    hide Before;
    forall j | 0 <= j < k ensures Before(rows[j], agent) {
      if j < k - 1 { BeforeOrders(rows[j], rows[k - 1], agent); }
    }
    InsertedAtIs(rows, agent, k);
  }

  lemma {:induction false} InsertedAtIs(rows: seq<Agent>, agent: Agent, k: nat)
    requires k <= |rows| && (forall j :: 0 <= j < k ==> Before(rows[j], agent))
    requires k < |rows| ==> !Before(rows[k], agent)
    ensures Inserted(rows, agent) == rows[..k] + [agent] + rows[k..]
    decreases k
  {
    if k > 0 {
      InsertedAtIs(rows[1..], agent, k - 1);
      assert rows[1..][..k - 1] == rows[1..k] && rows[1..][k - 1..] == rows[k..];
      assert rows[..k] == [rows[0]] + rows[1..k];
    }
  }
}
