/**
 Closing the agent processes a routing change left behind, and putting back the
 apps among them (`src-tauri/src/commands.rs`): a queue of launches, one per
 app, shared by every close and every reopen of the process.
 */
module Reopen {
  import opened Options

  type Slug = nat

  /** How one app is launched again; two closes of an app may find two ways. */
  type Relaunch = nat

  /** A process that was closed: the app it belongs to, and how to put it back, where there is one. */
  datatype Closed = Closed(slug: Option<Slug>, relaunch: Option<Relaunch>)

  datatype Entry = Entry(slug: Slug, relaunch: Relaunch)

  predicate Named(only: Option<seq<Slug>>, slug: Slug) {
    only.None? || slug in only.value
  }

  predicate Queued(queue: seq<Entry>, slug: Slug) {
    exists e <- queue :: e.slug == slug
  }

  /** The launches a close asks for: of each app, the first of its processes that can be put back. */
  function Asked(closed: seq<Closed>): seq<Entry>
    decreases |closed|
  {
    if closed == [] then []
    else
      var earlier := Asked(closed[..|closed| - 1]);
      var c := closed[|closed| - 1];
      if c.slug.Some? && c.relaunch.Some? && !Queued(earlier, c.slug.value)
      then earlier + [Entry(c.slug.value, c.relaunch.value)]
      else earlier
  }

  /** The entries whose app is not among `slugs`. */
  function Without(queue: seq<Entry>, others: seq<Entry>): seq<Entry>
    decreases |queue|
  {
    if queue == [] then []
    else
      var earlier := Without(queue[..|queue| - 1], others);
      if Queued(others, queue[|queue| - 1].slug) then earlier else earlier + [queue[|queue| - 1]]
  }

  /** The two halves of a partition by what a reopen names. */
  function Half(queue: seq<Entry>, only: Option<seq<Slug>>, named: bool): seq<Entry>
    decreases |queue|
  {
    if queue == [] then []
    else
      var earlier := Half(queue[..|queue| - 1], only, named);
      if Named(only, queue[|queue| - 1].slug) == named then earlier + [queue[|queue| - 1]] else earlier
  }

  function Taken(queue: seq<Entry>, only: Option<seq<Slug>>): seq<Entry> {
    Half(queue, only, true)
  }

  function Kept(queue: seq<Entry>, only: Option<seq<Slug>>): seq<Entry> {
    Half(queue, only, false)
  }

  // ---- The queue ----

  ghost predicate OnePerApp(queue: seq<Entry>) {
    forall i, j :: 0 <= i < j < |queue| ==> queue[i].slug != queue[j].slug
  }

  /** `e` is the launch of its app's first process that can be put back. */
  ghost predicate FirstOf(closed: seq<Closed>, e: Entry) {
    exists i :: 0 <= i < |closed| && closed[i] == Closed(Some(e.slug), Some(e.relaunch)) && NoneBefore(closed, i, e.slug)
  }

  ghost predicate NoneBefore(closed: seq<Closed>, i: nat, slug: Slug)
    requires i <= |closed|
  {
    forall j :: 0 <= j < i && closed[j].slug == Some(slug) ==> closed[j].relaunch.None?
  }

  predicate CanReopen(c: Closed) {
    c.slug.Some? && c.relaunch.Some?
  }

  lemma FirstOfMore(closed: seq<Closed>, c: Closed, e: Entry)
    requires FirstOf(closed, e)
    ensures FirstOf(closed + [c], e)
  {
    var i :| 0 <= i < |closed| && closed[i] == Closed(Some(e.slug), Some(e.relaunch)) && NoneBefore(closed, i, e.slug);
    assert (closed + [c])[i] == closed[i] && NoneBefore(closed + [c], i, e.slug);
  }

  lemma FirstOfLast(closed: seq<Closed>, e: Entry)
    requires NoneBefore(closed, |closed|, e.slug)
    ensures FirstOf(closed + [Closed(Some(e.slug), Some(e.relaunch))], e)
  {
    var more := closed + [Closed(Some(e.slug), Some(e.relaunch))];
    assert more[|closed|] == Closed(Some(e.slug), Some(e.relaunch)) && NoneBefore(more, |closed|, e.slug);
  }

  lemma QueuedMore(entries: seq<Entry>, e: Entry, slug: Slug)
    ensures Queued(entries + [e], slug) <==> Queued(entries, slug) || e.slug == slug
  {
    if Queued(entries, slug) {
      var q :| q in entries && q.slug == slug;
      assert q in entries + [e];
    }
    assert e in entries + [e];
  }

  /** Of each app that has a process to put back, one launch, of the first such process. */
  lemma {:induction false} AskedOncePerApp(closed: seq<Closed>)
    ensures OnePerApp(Asked(closed))
    ensures forall e <- Asked(closed) :: FirstOf(closed, e)
    ensures forall c <- closed :: CanReopen(c) ==> Queued(Asked(closed), c.slug.value)
    decreases |closed|
  {
    if closed != [] {
      var before, c := closed[..|closed| - 1], closed[|closed| - 1];
      AskedOncePerApp(before);
      assert closed == before + [c];
      hide FirstOf, Queued;
      forall e <- Asked(before) ensures FirstOf(closed, e) { FirstOfMore(before, c, e); }
      if CanReopen(c) {
        var e := Entry(c.slug.value, c.relaunch.value);
        forall d <- closed | CanReopen(d) ensures Queued(Asked(closed), d.slug.value) {
          QueuedMore(Asked(before), e, d.slug.value);
          assert d in before || d == c;
        }
        if !Queued(Asked(before), e.slug) {
          assert NoneBefore(before, |before|, e.slug) by {
            forall j | 0 <= j < |before| && before[j].slug == Some(e.slug) ensures before[j].relaunch.None? {
              assert before[j] in before;
            }
          }
          FirstOfLast(before, e);
          assert OnePerApp(Asked(closed)) by { NotQueuedApart(Asked(before), e); }
        }
      } else {
        forall d <- closed | CanReopen(d) ensures Queued(Asked(closed), d.slug.value) { assert d in before; }
      }
    }
  }

  lemma NotQueuedApart(entries: seq<Entry>, e: Entry)
    requires OnePerApp(entries) && !Queued(entries, e.slug)
    ensures OnePerApp(entries + [e])
  {
    forall i | 0 <= i < |entries| ensures entries[i].slug != e.slug { assert entries[i] in entries; }
  }

  lemma {:induction false} WithoutKeeps(queue: seq<Entry>, others: seq<Entry>)
    ensures forall e :: e in Without(queue, others) <==> e in queue && !Queued(others, e.slug)
    ensures OnePerApp(queue) ==> OnePerApp(Without(queue, others))
    decreases |queue|
  {
    if queue != [] {
      WithoutKeeps(queue[..|queue| - 1], others);
      assert queue == queue[..|queue| - 1] + [queue[|queue| - 1]];
    }
  }

  lemma {:induction false} HalfIs(queue: seq<Entry>, only: Option<seq<Slug>>, named: bool)
    ensures forall e :: e in Half(queue, only, named) <==> e in queue && Named(only, e.slug) == named
    ensures OnePerApp(queue) ==> OnePerApp(Half(queue, only, named))
    decreases |queue|
  {
    hide Named;
    if queue != [] {
      HalfIs(queue[..|queue| - 1], only, named);
      assert queue == queue[..|queue| - 1] + [queue[|queue| - 1]];
    }
  }

  // ---- Runs ----

  datatype Act = Close(closed: seq<Closed>) | Reopen(only: Option<seq<Slug>>)

  function Next(queue: seq<Entry>, act: Act): seq<Entry> {
    match act
    case Close(closed) => Without(queue, Asked(closed)) + Asked(closed)
    case Reopen(only) => Kept(queue, only)
  }

  /** The launches an act attempts. */
  function Attempts(queue: seq<Entry>, act: Act): seq<Entry> {
    if act.Reopen? then Taken(queue, act.only) else []
  }

  function Asks(act: Act): seq<Entry> {
    if act.Close? then Asked(act.closed) else []
  }

  ghost predicate IsRun(queues: seq<seq<Entry>>, acts: seq<Act>) {
    && |queues| == |acts| + 1 && queues[0] == []
    && forall n :: 0 <= n < |acts| ==> queues[n + 1] == Next(queues[n], acts[n])
  }

  lemma NextOnePerApp(queue: seq<Entry>, act: Act)
    requires OnePerApp(queue)
    ensures OnePerApp(Next(queue, act))
  {
    match act
    case Close(closed) =>
      AskedOncePerApp(closed);
      WithoutKeeps(queue, Asked(closed));
    case Reopen(only) => HalfIs(queue, only, false);
  }

  /** Over every run of closes and reopens, the queue never holds two launches of one app. */
  lemma {:induction false} QueueHoldsOnePerApp(queues: seq<seq<Entry>>, acts: seq<Act>, n: nat)
    requires IsRun(queues, acts) && n < |queues|
    ensures OnePerApp(queues[n])
    decreases n
  {
    if n > 0 {
      QueueHoldsOnePerApp(queues, acts, n - 1);
      NextOnePerApp(queues[n - 1], acts[n - 1]);
    }
  }

  /** An entry leaves the queue only by a later close of the same app, whose launch replaces it, or by
      a reopen that names it, which attempts it. */
  lemma EntryLeavesOnlyFor(queues: seq<seq<Entry>>, acts: seq<Act>, n: nat, e: Entry)
    requires IsRun(queues, acts) && n < |acts| && e in queues[n]
    ensures e !in queues[n + 1] ==>
              || (acts[n].Close? && Queued(Asked(acts[n].closed), e.slug) && Queued(queues[n + 1], e.slug))
              || (acts[n].Reopen? && Named(acts[n].only, e.slug) && e in Attempts(queues[n], acts[n]))
    ensures acts[n].Reopen? ==> (e in queues[n + 1] <==> !Named(acts[n].only, e.slug))
  {
    match acts[n]
    case Close(closed) =>
      WithoutKeeps(queues[n], Asked(closed));
      if Queued(Asked(closed), e.slug) {
        var a :| a in Asked(closed) && a.slug == e.slug;
        assert a in queues[n + 1];
      }
    case Reopen(only) =>
      HalfIs(queues[n], only, false);
      HalfIs(queues[n], only, true);
  }

  /** `e` comes before `f`. */
  ghost predicate Before(queue: seq<Entry>, e: Entry, f: Entry) {
    exists i, j :: 0 <= i < j < |queue| && queue[i] == e && queue[j] == f
  }

  lemma BeforeMore(queue: seq<Entry>, e: Entry, f: Entry, more: seq<Entry>)
    ensures Before(queue, e, f) ==> Before(queue + more, e, f)
    ensures e in queue && f in more ==> Before(queue + more, e, f)
  {
    if Before(queue, e, f) {
      var i, j :| 0 <= i < j < |queue| && queue[i] == e && queue[j] == f;
      assert (queue + more)[i] == e && (queue + more)[j] == f;
    }
    if e in queue && f in more {
      var i :| 0 <= i < |queue| && queue[i] == e;
      var j :| 0 <= j < |more| && more[j] == f;
      assert (queue + more)[i] == e && (queue + more)[|queue| + j] == f;
    }
  }

  lemma BeforeLast(queue: seq<Entry>, e: Entry, f: Entry)
    requires queue != [] && Before(queue, e, f)
    ensures Before(queue[..|queue| - 1], e, f) || (e in queue[..|queue| - 1] && f == queue[|queue| - 1])
  {
    var i, j :| 0 <= i < j < |queue| && queue[i] == e && queue[j] == f;
    assert queue[..|queue| - 1][i] == e;
    if j < |queue| - 1 { assert queue[..|queue| - 1][j] == f; }
  }

  lemma {:induction false} WithoutKeepsOrder(queue: seq<Entry>, others: seq<Entry>, e: Entry, f: Entry)
    requires Before(queue, e, f) && !Queued(others, e.slug) && !Queued(others, f.slug)
    ensures Before(Without(queue, others), e, f)
    decreases |queue|
  {
    var earlier, last := queue[..|queue| - 1], queue[|queue| - 1];
    BeforeLast(queue, e, f);
    WithoutKeeps(earlier, others);
    BeforeMore(Without(earlier, others), e, f, [last]);
    if Before(earlier, e, f) { WithoutKeepsOrder(earlier, others, e, f); }
    hide Queued, Before;
  }

  lemma {:induction false} HalfKeepsOrder(queue: seq<Entry>, only: Option<seq<Slug>>, named: bool, e: Entry, f: Entry)
    requires Before(queue, e, f) && Named(only, e.slug) == named && Named(only, f.slug) == named
    ensures Before(Half(queue, only, named), e, f)
    decreases |queue|
  {
    var earlier, last := queue[..|queue| - 1], queue[|queue| - 1];
    BeforeLast(queue, e, f);
    HalfIs(earlier, only, named);
    BeforeMore(Half(earlier, only, named), e, f, [last]);
    if Before(earlier, e, f) { HalfKeepsOrder(earlier, only, named, e, f); }
    hide Named, Before;
  }

  /** In every run the queue is in the order its launches were asked for: a close keeps what it does not replace in
      order, and puts its own behind; and a reopen attempts what it takes, and keeps the rest, in order. */
  lemma QueueKeepsOrder(queues: seq<seq<Entry>>, acts: seq<Act>, n: nat, e: Entry, f: Entry)
    requires IsRun(queues, acts) && n < |acts| && e in queues[n] && !Queued(Asks(acts[n]), e.slug)
    ensures f in Asks(acts[n]) ==> Before(queues[n + 1], e, f)
    ensures Before(queues[n], e, f) && !Queued(Asks(acts[n]), f.slug) ==>
              if acts[n].Close? then Before(queues[n + 1], e, f)
              else if Named(acts[n].only, e.slug) != Named(acts[n].only, f.slug) then true
              else if Named(acts[n].only, e.slug) then Before(Attempts(queues[n], acts[n]), e, f)
              else Before(queues[n + 1], e, f)
  {
    var queue := queues[n];
    match acts[n]
    case Close(closed) =>
      var asked := Asked(closed);
      WithoutKeeps(queue, asked);
      if Before(queue, e, f) && !Queued(asked, f.slug) { WithoutKeepsOrder(queue, asked, e, f); }
      BeforeMore(Without(queue, asked), e, f, asked);
      hide Before;
    case Reopen(only) =>
      if Before(queue, e, f) && Named(only, e.slug) == Named(only, f.slug) {
        HalfKeepsOrder(queue, only, Named(only, e.slug), e, f);
      }
      hide Before, Named;
  }

  function Count(entries: seq<Entry>, slug: Slug): nat
    decreases |entries|
  {
    if entries == [] then 0
    else Count(entries[..|entries| - 1], slug) + if entries[|entries| - 1].slug == slug then 1 else 0
  }

  function CountAll(acts: seq<Act>, queues: seq<seq<Entry>>, n: nat, slug: Slug, attempts: bool): nat
    requires n <= |acts| && n < |queues|
    decreases n
  {
    if n == 0 then 0
    else CountAll(acts, queues, n - 1, slug, attempts)
         + Count(if attempts then Attempts(queues[n - 1], acts[n - 1]) else Asks(acts[n - 1]), slug)
  }

  lemma {:induction false} CountAdds(a: seq<Entry>, b: seq<Entry>, slug: Slug)
    ensures Count(a + b, slug) == Count(a, slug) + Count(b, slug)
    decreases |b|
  {
    if b == [] {
      assert a + b == a;
    } else {
      assert (a + b)[..|a + b| - 1] == a + b[..|b| - 1];
      CountAdds(a, b[..|b| - 1], slug);
    }
  }

  lemma {:induction false} WithoutCounts(queue: seq<Entry>, others: seq<Entry>, slug: Slug)
    ensures Count(Without(queue, others), slug) == if Queued(others, slug) then 0 else Count(queue, slug)
    decreases |queue|
  {
    if queue != [] {
      WithoutCounts(queue[..|queue| - 1], others, slug);
      CountOne(Without(queue[..|queue| - 1], others), queue[|queue| - 1], slug);
    }
  }

  lemma CountOne(earlier: seq<Entry>, e: Entry, slug: Slug)
    ensures Count(earlier + [e], slug) == Count(earlier, slug) + if e.slug == slug then 1 else 0
  {
    assert (earlier + [e])[..|earlier + [e]| - 1] == earlier;
  }

  lemma {:induction false} PartitionCounts(queue: seq<Entry>, only: Option<seq<Slug>>, slug: Slug)
    ensures Count(Half(queue, only, true), slug) + Count(Half(queue, only, false), slug) == Count(queue, slug)
    decreases |queue|
  {
    if queue != [] {
      var earlier, last := queue[..|queue| - 1], queue[|queue| - 1];
      PartitionCounts(earlier, only, slug);
      CountOne(earlier, last, slug);
      CountOne(Half(earlier, only, Named(only, last.slug)), last, slug);
      assert queue == earlier + [last];
    }
  }

  lemma {:induction false} NotQueuedCounts(entries: seq<Entry>, slug: Slug)
    ensures Queued(entries, slug) <==> Count(entries, slug) > 0
    ensures OnePerApp(entries) ==> Count(entries, slug) <= 1
    decreases |entries|
  {
    if entries != [] {
      var n := |entries| - 1;
      NotQueuedCounts(entries[..n], slug);
      assert entries == entries[..n] + [entries[n]];
      if Queued(entries[..n], slug) {
        var e :| e in entries[..n] && e.slug == slug;
        assert e in entries;
      }
      if Queued(entries, slug) && entries[n].slug != slug {
        var e :| e in entries && e.slug == slug;
        assert e in entries[..n];
      }
    }
  }

  /** Every launch a close asked for is attempted, still queued, or was replaced by a later close's:
      launches of an app, attempted and queued, never exceed the closes that asked for one. */
  lemma {:induction false} LaunchesNeverExceedCloses(queues: seq<seq<Entry>>, acts: seq<Act>, n: nat, slug: Slug)
    requires IsRun(queues, acts) && n < |queues|
    ensures CountAll(acts, queues, n, slug, true) + Count(queues[n], slug) <= CountAll(acts, queues, n, slug, false)
    ensures CountAll(acts, queues, n, slug, false) > 0 ==> CountAll(acts, queues, n, slug, true) + Count(queues[n], slug) > 0
    decreases n
  {
    hide Next, Attempts, Asks, Count;
    if n > 0 {
      LaunchesNeverExceedCloses(queues, acts, n - 1, slug);
      OneActCounts(queues[n - 1], acts[n - 1], slug);
    } else {
      assert Count([], slug) == 0 by { NotQueuedCounts([], slug); }
    }
  }

  /** One act: a close that asks for the app replaces what was queued of it. */
  lemma OneActCounts(queue: seq<Entry>, act: Act, slug: Slug)
    ensures Count(Next(queue, act), slug) + Count(Attempts(queue, act), slug) ==
            Count(Asks(act), slug) + if Count(Asks(act), slug) > 0 then 0 else Count(queue, slug)
  {
    match act
    case Close(closed) =>
      WithoutCounts(queue, Asked(closed), slug);
      CountAdds(Without(queue, Asked(closed)), Asked(closed), slug);
      NotQueuedCounts(Asked(closed), slug);
    case Reopen(only) => PartitionCounts(queue, only, slug);
  }

  /** How many of these launches the system carries out. */
  function CarriedOut(entries: seq<Entry>, launches: Entry -> bool): nat
    decreases |entries|
  {
    if entries == [] then 0
    else CarriedOut(entries[..|entries| - 1], launches) + if launches(entries[|entries| - 1]) then 1 else 0
  }

  // ---- The commands as they run ----

  class Platform {
    var pendingReopen: seq<Entry>
    /** Every launch attempted so far. */
    ghost var attempted: seq<Entry>

    constructor ()
      ensures pendingReopen == [] && attempted == []
    {
      pendingReopen, attempted := [], [];
    }

    /** `close_running_agents`, the processes `close_agents` closed in hand. */
    method CloseRunningAgents(closed: seq<Closed>) returns (count: nat)
      modifies this`pendingReopen
      ensures count == |closed|
      ensures pendingReopen == Next(old(pendingReopen), Close(closed))
    {
      var reopen: seq<Entry> := [];
      var i := 0;
      while i < |closed|
        invariant i <= |closed| && reopen == Asked(closed[..i]) && pendingReopen == old(pendingReopen)
      {
        assert closed[..i + 1][..i] == closed[..i];
        if closed[i].slug.Some? && closed[i].relaunch.Some? {
          var known := Find(reopen, closed[i].slug.value);
          if !known { reopen := reopen + [Entry(closed[i].slug.value, closed[i].relaunch.value)]; }
        }
        i := i + 1;
      }
      assert closed[..i] == closed;
      count := |closed|;
      if reopen != [] {
        var kept: seq<Entry> := [];
        i := 0;
        while i < |pendingReopen|
          invariant i <= |pendingReopen| && kept == Without(pendingReopen[..i], reopen)
          invariant pendingReopen == old(pendingReopen)
        {
          assert pendingReopen[..i + 1][..i] == pendingReopen[..i];
          var replaced := Find(reopen, pendingReopen[i].slug);
          if !replaced { kept := kept + [pendingReopen[i]]; }
          i := i + 1;
        }
        assert pendingReopen[..i] == pendingReopen;
        pendingReopen := kept + reopen;
      } else {
        NothingReplaced(pendingReopen);
      }
    }

    static method Find(entries: seq<Entry>, slug: Slug) returns (found: bool)
      ensures found == Queued(entries, slug)
    {
      var i := 0;
      while i < |entries|
        invariant i <= |entries|
        invariant forall j :: 0 <= j < i ==> entries[j].slug != slug
      {
        if entries[i].slug == slug {
          assert entries[i] in entries;
          return true;
        }
        i := i + 1;
      }
      return false;
    }

    /** `reopen_running_agents`; `launches` says which attempts the system carries out. */
    method ReopenRunningAgents(only: Option<seq<Slug>>, launches: Entry -> bool) returns (count: nat)
      modifies this
      ensures pendingReopen == Next(old(pendingReopen), Reopen(only))
      ensures attempted == old(attempted) + Attempts(old(pendingReopen), Reopen(only))
      ensures count == CarriedOut(Attempts(old(pendingReopen), Reopen(only)), launches)
    {
      var take: seq<Entry>, keep: seq<Entry> := [], [];
      var i := 0;
      while i < |pendingReopen|
        invariant i <= |pendingReopen| && pendingReopen == old(pendingReopen) && attempted == old(attempted)
        invariant take == Taken(pendingReopen[..i], only) && keep == Kept(pendingReopen[..i], only)
      {
        assert pendingReopen[..i + 1][..i] == pendingReopen[..i];
        if Named(only, pendingReopen[i].slug) {
          take := take + [pendingReopen[i]];
        } else {
          keep := keep + [pendingReopen[i]];
        }
        i := i + 1;
      }
      assert pendingReopen[..i] == pendingReopen;
      pendingReopen := keep;
      count := 0;
      i := 0;
      while i < |take|
        invariant i <= |take| && count == CarriedOut(take[..i], launches)
        invariant pendingReopen == keep && attempted == old(attempted) + take[..i]
      {
        assert take[..i + 1][..i] == take[..i];
        attempted := attempted + [take[i]];
        if launches(take[i]) { count := count + 1; }
        i := i + 1;
      }
      assert take[..i] == take;
    }
  }

  lemma {:induction false} NothingReplaced(queue: seq<Entry>)
    ensures Without(queue, []) == queue
    decreases |queue|
  {
    if queue != [] {
      NothingReplaced(queue[..|queue| - 1]);
      assert queue == queue[..|queue| - 1] + [queue[|queue| - 1]];
    }
  }
}
