/**
 What the seam promises over every run of one window: captures only behind the
 gate, a bounded queue settled exactly once, and no two accounts ever merged.
 */
module AnalyticsTheorems {
  import opened Options
  import opened AnalyticsState
  import opened AnalyticsInvariant
  import opened AnalyticsSteps

  /** `states` is the run that `events` drive, each when it can happen. */
  ghost predicate IsRun(states: seq<SeamState>, events: seq<Event>) {
    && |states| == |events| + 1
    && forall i :: 0 <= i < |events| ==>
         Enabled(states[i], events[i]) && WellFormed(events[i]) && states[i + 1] == Step(states[i], events[i])
  }

  /** A launch: posthog-js may hold any client from before, but no id this window has yet to draw. */
  ghost predicate Launch(w: SeamState) {
    exists window, hasKey, persisted: Client :: !Drawn(window, persisted.id) && w == Loaded(window, hasKey, persisted)
  }

  lemma LoadedInv(window: nat, hasKey: bool, persisted: Client)
    requires !Drawn(window, persisted.id)
    ensures Inv(Loaded(window, hasKey, persisted))
  {
  }

  lemma {:induction false} RunKeepsInv(states: seq<SeamState>, events: seq<Event>, i: nat)
    requires IsRun(states, events) && Launch(states[0]) && i < |states|
    ensures Inv(states[i])
    decreases i
  {
    hide Inv, Step, Enabled, StepGrows;
    if i == 0 {
      var window, hasKey, persisted: Client :|
        !Drawn(window, persisted.id) && states[0] == Loaded(window, hasKey, persisted);
      LoadedInv(window, hasKey, persisted);
    } else {
      RunKeepsInv(states, events, i - 1);
      StepKeeps(states[i - 1], events[i - 1]);
    }
  }

  // ---- The consent gate ----

  /** Whatever the interleaving, a capture was made with sharing on and the client delivering, and
      anything but a base event with the question answered too; and base events pass at all only
      while sharing is on and the client is up. */
  lemma CapturesAreGated(states: seq<SeamState>, events: seq<Event>, i: nat)
    requires IsRun(states, events) && Launch(states[0]) && i < |states|
    ensures forall entry <- states[i].log :: entry.Sent? ==>
              && entry.consent == Some(true) && !entry.optedOut
              && (!entry.what.Base? ==> entry.answered == Some(true))
    ensures states[i].enabled ==> states[i].started && states[i].consent == Some(true)
    ensures states[i].started && states[i].consent != Some(true) ==> states[i].client.optedOut
  {
    hide IsRun, Launch, HeldOk, ClaimsOk, IdentityInv;
    RunKeepsInv(states, events, i);
  }

  // ---- The held queue ----

  lemma HeldQueueIsBounded(states: seq<SeamState>, events: seq<Event>, i: nat)
    requires IsRun(states, events) && Launch(states[0]) && i < |states|
    ensures var w := states[i];
            && |w.held| <= 100
            && w.heldFailures == Failures(w.held) <= 20
            && (forall j, k :: 0 <= j < k < |w.held| && w.held[j].MilestoneItem? && w.held[k].MilestoneItem? ==>
                  w.held[j].milestone != w.held[k].milestone)
  {
    hide IsRun, Launch, GateInv, ClaimsOk, IdentityInv;
    RunKeepsInv(states, events, i);
  }

  /** What a full queue turns away, at any point of any run: a milestone only when 80 items that are
      not failures are held; a failure when 20 are, or the queue is full. Anything else is held. */
  lemma TurnedAwayOnlyWhenFull(states: seq<SeamState>, events: seq<Event>, i: nat, item: Item)
    requires IsRun(states, events) && Launch(states[0]) && i < |states| && Funnel(states[i]) == Held
    ensures var w := states[i];
            && (Offer(w, item).held == w.held + [item] || Offer(w, item) == w)
            && (Offer(w, item) == w <==> |w.held| == 100 || (item.FailureItem? && Failures(w.held) == 20))
            && (Offer(w, item) == w && !item.FailureItem? ==> |w.held| - Failures(w.held) >= 80)
  {
    hide IsRun, Launch, GateInv, ClaimsOk, IdentityInv, Offer, Funnel;
    RunKeepsInv(states, events, i);
    OfferedOrTurnedAway(states[i], item);
  }

  lemma OfferedOrTurnedAway(w: SeamState, item: Item)
    requires HeldOk(w.held, w.heldFailures, w.heldMarkers) && Funnel(w) == Held
    ensures Offer(w, item).held == w.held + [item] || Offer(w, item) == w
    ensures Offer(w, item) == w <==> |w.held| == 100 || (item.FailureItem? && Failures(w.held) == 20)
    ensures Offer(w, item) == w && !item.FailureItem? ==> |w.held| - Failures(w.held) >= 80
  {
    hide Funnel, Run, Spend;
    assert Offer(w, item) != w ==> Offer(w, item).held != w.held by {
      assert |w.held + [item]| != |w.held|;
    }
  }

  /** The asynchronous half a released item starts, if it has one. */
  function StartedBy(w: SeamState, item: Item): seq<Task> {
    match item
    case MilestoneItem(m) => if m in w.asked then [] else [OrgWait(m, CurrentOrg(w).Some?)]
    case FailureItem(_) => []
    case CoworkItem => [Checking]
  }

  /** What a released item sends at once. */
  function ReportedBy(w: SeamState, item: Item): seq<Entry> {
    match item
    case FailureItem(report) =>
      [Sent(FailureSent(report), w.client.id, w.client.group, w.consent, w.answered, w.client.optedOut)]
    case _ => []
  }

  function Started(w: SeamState, items: seq<Item>): seq<Task>
    decreases |items|
  {
    if items == [] then [] else StartedBy(w, items[0]) + Started(w, items[1..])
  }

  function Reported(w: SeamState, items: seq<Item>): seq<Entry>
    decreases |items|
  {
    if items == [] then [] else ReportedBy(w, items[0]) + Reported(w, items[1..])
  }

  /** `tasks` appended from `next` on. */
  function Appended(tasks: map<nat, Task>, next: nat, more: seq<Task>): map<nat, Task>
    decreases |more|
  {
    if more == [] then tasks else Appended(tasks[next := more[0]], next + 1, more[1..])
  }

  /** What a release does not move. */
  predicate SameSeam(w: SeamState, r: SeamState) {
    (r.asked, r.client, r.consent, r.answered, r.started, r.session, r.storedOrg)
    == (w.asked, w.client, w.consent, w.answered, w.started, w.session, w.storedOrg)
  }

  /** A release runs every held item exactly once, in the order they were held, and moves nothing else. */
  lemma {:induction false} ReleaseRunsEachOnce(w: SeamState, items: seq<Item>)
    requires Capturing(w)
    ensures var r := RunAll(w, items);
            && SameSeam(w, r)
            && r.tasks == Appended(w.tasks, w.nextTask, Started(w, items))
            && r.nextTask == w.nextTask + |Started(w, items)|
            && r.log == w.log + Reported(w, items)
    decreases |items|
  {
    hide Run, StartedBy, ReportedBy, SameSeam, Capturing;
    SameAsItself(w);
    if items != [] {
      var ran := Run(w, items[0]);
      RunOnce(w, items[0]);
      SameTransitive(w, ran, RunAll(w, items));
      ReleaseRunsEachOnce(ran, items[1..]);
      SameStarts(w, ran, items[1..]);
      AppendedInTurn(w.tasks, w.nextTask, StartedBy(w, items[0]), Started(w, items[1..]));
      assert (w.log + ReportedBy(w, items[0])) + Reported(w, items[1..]) == w.log + Reported(w, items);
    }
  }

  lemma SameTransitive(a: SeamState, b: SeamState, c: SeamState)
    ensures SameSeam(a, b) && SameSeam(b, c) ==> SameSeam(a, c)
    ensures SameSeam(a, b) ==> Capturing(a) == Capturing(b)
  {
  }

  /** `first`, at most one task, is added under `next`. */
  function AppendedOne(tasks: map<nat, Task>, next: nat, first: seq<Task>): map<nat, Task> {
    if first == [] then tasks else tasks[next := first[0]]
  }

  lemma SpawnSame(w: SeamState, task: Task)
    ensures SameSeam(w, Spawn(w, task)) && Spawn(w, task).log == w.log
    ensures Spawn(w, task).tasks == w.tasks[w.nextTask := task] && Spawn(w, task).nextTask == w.nextTask + 1
  {
  }

  lemma CaptureSame(w: SeamState, what: What)
    ensures SameSeam(w, Capture(w, what))
    ensures Capture(w, what).tasks == w.tasks && Capture(w, what).nextTask == w.nextTask
    ensures Capture(w, what).log ==
            w.log + [Sent(what, w.client.id, w.client.group, w.consent, w.answered, w.client.optedOut)]
  {
  }

  lemma SameAsItself(w: SeamState)
    ensures SameSeam(w, w)
  {
  }

  lemma RunOnce(w: SeamState, item: Item)
    requires Capturing(w)
    ensures |StartedBy(w, item)| <= 1
    ensures var r := Run(w, item);
            && SameSeam(w, r)
            && r.tasks == AppendedOne(w.tasks, w.nextTask, StartedBy(w, item))
            && r.nextTask == w.nextTask + |StartedBy(w, item)|
            && r.log == w.log + ReportedBy(w, item)
  {
    hide Spawn, Capture, Capturing, CurrentOrg, SameSeam;
    SameAsItself(w);
    match item
    case MilestoneItem(m) => SpawnSame(w, OrgWait(m, CurrentOrg(w).Some?));
    case FailureItem(report) => CaptureSame(w, FailureSent(report));
    case CoworkItem => SpawnSame(w, Checking);
  }

  lemma AppendedInTurn(tasks: map<nat, Task>, next: nat, first: seq<Task>, rest: seq<Task>)
    requires |first| <= 1
    ensures Appended(tasks, next, first + rest) == Appended(AppendedOne(tasks, next, first), next + |first|, rest)
  {
    if first == [] {
      assert first + rest == rest;
    } else {
      assert (first + rest)[1..] == rest;
    }
  }

  lemma {:induction false} SameStarts(w: SeamState, r: SeamState, items: seq<Item>)
    requires SameSeam(w, r)
    ensures Started(r, items) == Started(w, items) && Reported(r, items) == Reported(w, items)
    decreases |items|
  {
    if items != [] {
      SameStarts(w, r, items[1..]);
    }
  }

  /** The milestones of `items` not asked about yet. */
  function Unasked(asked: set<Milestone>, items: seq<Item>): seq<Task>
    decreases |items|
  {
    if items == [] then []
    else if items[0].MilestoneItem? && items[0].milestone !in asked
    then [SpendClaim(items[0].milestone)] + Unasked(asked + {items[0].milestone}, items[1..])
    else Unasked(asked, items[1..])
  }

  /** A refusal spends each held milestone exactly once and sends nothing at all. */
  lemma {:induction false} RefusalSpendsEachOnce(w: SeamState, items: seq<Item>)
    ensures var r := SpendAll(w, items);
            && r.log == w.log && r.client == w.client
            && r.asked == w.asked + (set item | item in items && item.MilestoneItem? :: item.milestone)
            && r.tasks == Appended(w.tasks, w.nextTask, Unasked(w.asked, items))
    decreases |items|
  {
    if items != [] {
      RefusalSpendsEachOnce(Spend(w, items[0]), items[1..]);
      assert forall item :: item in items <==> item == items[0] || item in items[1..];
      if items[0].MilestoneItem? && items[0].milestone !in w.asked {
        var rest := Unasked(w.asked + {items[0].milestone}, items[1..]);
        assert Unasked(w.asked, items)[1..] == rest;
      }
    }
  }

  /** Settling does exactly one thing to everything held: keeps it, drops it, releases it after
      the session's own effects, or spends it. */
  lemma SettlesOnce(w: SeamState)
    requires Inv(w)
    ensures Funnel(w) == Held ==> Settle(w) == w
    ensures Funnel(w) == Closed ==> Settle(w) == Unheld(w)
    ensures Funnel(w) == Open ==>
              var ready := ApplySession(Unheld(w));
              && Settle(w).tasks == Appended(ready.tasks, ready.nextTask, Started(ready, w.held))
              && Settle(w).log == ready.log + Reported(ready, w.held)
    ensures Funnel(w) == Refused ==>
              var ready := SpendSession(Unheld(w));
              && Settle(w).tasks == Appended(ready.tasks, ready.nextTask, Unasked(ready.asked, w.held))
              && Settle(w).log == w.log
    ensures Funnel(w) != Held ==> Settle(w).held == [] && Settle(w).heldFailures == 0 && Settle(w).heldMarkers == {}
  {
    hide Inv, Funnel, Advances, ApplySession, SpendSession, RunAll, SpendAll, Unheld, Started, Reported, Unasked, Appended;
    UnheldKeeps(w);
    EmptyHeld(w);
    var empty := Unheld(w);
    match Funnel(w)
    case Held =>
    case Closed =>
    case Open =>
      OpenMeansStarted(w);
      ApplySessionKeeps(empty);
      OpenMeansCapturing(ApplySession(empty));
      ReleaseRunsEachOnce(ApplySession(empty), w.held);
      RunAllKeeps(ApplySession(empty), w.held);
    case Refused =>
      SpendSessionKeeps(empty);
      SpendSessionSilent(empty);
      RefusalSpendsEachOnce(SpendSession(empty), w.held);
      SpendAllKeeps(SpendSession(empty), w.held);
  }

  lemma EmptyHeld(w: SeamState)
    ensures Unheld(w).held == [] && Unheld(w).heldFailures == 0 && Unheld(w).heldMarkers == {}
    ensures Unheld(w).log == w.log
  {
  }

  lemma OpenMeansCapturing(w: SeamState)
    ensures Funnel(w) == Open ==> Capturing(w)
  {
  }

  lemma SpendSessionSilent(w: SeamState)
    ensures SpendSession(w).log == w.log
  {
  }
}
