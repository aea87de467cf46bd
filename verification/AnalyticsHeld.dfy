/**
 The gate's other side: what an answer does to everything held, and where every
 signal goes as the gate stands.
 */
module AnalyticsHeld {
  import opened Options
  import opened AnalyticsState
  import opened AnalyticsInvariant
  import opened AnalyticsSteps
  import opened AnalyticsTheorems
  import opened AnalyticsProgress

  /** `what` was sent since `w`, as `r` stands. */
  ghost predicate SentSince(w: SeamState, r: SeamState, what: What) {
    exists k :: |w.log| <= k < |r.log| && r.log[k] == Capturable(r, what)
  }

  /** Everything held is let go: the session's account and organization are on the client first, each
      failure is sent under them, each milestone not asked about starts its wait for the organization, and
      a pairing the session shows is on its way. */
  ghost predicate Released(w: SeamState, r: SeamState) {
    && r.held == [] && r.client.group == CurrentOrg(r)
    && (LiveSub(w).Some? ==> r.identifiedAs == LiveSub(w))
    && (forall report :: FailureItem(report) in w.held ==> SentSince(w, r, FailureSent(report)))
    && (forall m :: MilestoneItem(m) in w.held && m !in w.asked ==> Starts(w, r, OrgWait(m, CurrentOrg(r).Some?)))
    && (CoworkItem in w.held ==> Starts(w, r, Checking))
    && (PairedFacts(w) && PairingCompleted !in w.asked ==> Waits(w, r, PairingCompleted))
  }

  /** Everything held is spent: nothing is sent, each milestone not asked about is claimed for nothing. */
  ghost predicate SpentAll(w: SeamState, r: SeamState) {
    && r.held == []
    && (forall m :: MilestoneItem(m) in w.held ==> m in r.asked && (m in w.asked || Starts(w, r, SpendClaim(m))))
    && (PairedFacts(w) && PairingCompleted !in w.asked ==> Waits(w, r, PairingCompleted))
  }

  /** The milestone has set out. */
  ghost predicate Waits(w: SeamState, r: SeamState, m: Milestone) {
    Starts(w, r, Waiting(MilestoneItem(m), w.boot != NotBooted))
  }

  /** What became of what `w` held, by where the gate stands in `r`. */
  ghost predicate Settled(w: SeamState, r: SeamState) {
    match Funnel(r)
    case Open => Released(w, r)
    case Refused => SpentAll(w, r)
    case Held => r.held == w.held
    case Closed => r.held == []
  }

  // ---- Finding one task or entry in what a release adds ----

  lemma {:induction false} AppendedKeepsEarlier(tasks: map<nat, Task>, next: nat, more: seq<Task>, id: nat)
    requires id in tasks && id < next
    ensures id in Appended(tasks, next, more) && Appended(tasks, next, more)[id] == tasks[id]
    decreases |more|
  {
    if more != [] { AppendedKeepsEarlier(tasks[next := more[0]], next + 1, more[1..], id); }
  }

  lemma {:induction false} AppendedHas(tasks: map<nat, Task>, next: nat, more: seq<Task>, task: Task)
    requires task in more
    ensures exists id: nat :: next <= id && id in Appended(tasks, next, more) && Appended(tasks, next, more)[id] == task
    decreases |more|
  {
    if more[0] == task {
      AppendedKeepsEarlier(tasks[next := more[0]], next + 1, more[1..], next);
      assert next in Appended(tasks, next, more);
    } else {
      assert task in more[1..];
      assert Appended(tasks, next, more) == Appended(tasks[next := more[0]], next + 1, more[1..]);
      AppendedHas(tasks[next := more[0]], next + 1, more[1..], task);
    }
  }

  lemma {:induction false} StartedHas(w: SeamState, items: seq<Item>, item: Item)
    requires item in items
    ensures item.MilestoneItem? && item.milestone !in w.asked ==> OrgWait(item.milestone, CurrentOrg(w).Some?) in Started(w, items)
    ensures item.CoworkItem? ==> Checking in Started(w, items)
    ensures item.FailureItem? ==> Capturable(w, FailureSent(item.report)) in Reported(w, items)
    decreases |items|
  {
    hide CurrentOrg;
    if items[0] != item { StartedHas(w, items[1..], item); }
  }

  lemma {:induction false} UnaskedHas(asked: set<Milestone>, items: seq<Item>, m: Milestone)
    requires MilestoneItem(m) in items && m !in asked
    ensures SpendClaim(m) in Unasked(asked, items)
    decreases |items|
  {
    if items[0] == MilestoneItem(m) {
      assert Unasked(asked, items)[0] == SpendClaim(m);
    } else if items[0].MilestoneItem? && items[0].milestone !in asked {
      UnaskedHas(asked + {items[0].milestone}, items[1..], m);
    } else {
      UnaskedHas(asked, items[1..], m);
    }
  }

  // ---- Settling ----

  /** What a stretch leaves of what was asked, of the boot and of the session. */
  predicate SameAsked(w: SeamState, r: SeamState) {
    (r.asked, r.boot, r.session) == (w.asked, w.boot, w.session)
  }

  lemma PersistAsks(w: SeamState)
    ensures SameAsked(w, Persist(w)) && Persist(w).identifiedAs == w.identifiedAs
  {
  }

  lemma GroupAsks(w: SeamState)
    ensures SameAsked(w, ApplyGroup(w)) && ApplyGroup(w).identifiedAs == w.identifiedAs
    ensures ApplyGroup(w).tasks == w.tasks && ApplyGroup(w).nextTask == w.nextTask && CurrentOrg(ApplyGroup(w)) == CurrentOrg(w)
    ensures Funnel(w) == Open ==> ApplyGroup(w).client.group == CurrentOrg(w)
  {
    hide Funnel;
  }

  lemma SyncAsks(w: SeamState)
    ensures SameAsked(w, SyncToStored(w))
  {
    hide ApplyGroup, Funnel, CurrentOrg;
    if w.started && w.storedSub != w.identifiedAs {
      var blank := ResetClient(w);
      var moved := if w.storedSub.Some? then Identify(blank, w.storedSub.value) else blank;
      GroupAsks(moved.(identifiedAs := w.storedSub));
    }
  }

  lemma ApplyIdentityAsks(w: SeamState, sub: Sub)
    ensures SameAsked(w, ApplyIdentity(w, sub)) && ApplyIdentity(w, sub).identifiedAs == Some(sub)
  {
    hide Persist;
    if w.identifiedAs != Some(sub) {
      var clean := if w.everIdentified then ResetClient(w) else w;
      PersistAsks(Identify(clean, sub).(
                    identifiedAs := Some(sub), storedSub := Some(sub), everIdentified := true, lastPersisted := None));
    }
  }

  /** A pairing the session shows sets out, once. */
  lemma SpendSessionStarts(w: SeamState)
    requires w.hasKey
    ensures var r := SpendSession(w);
            && SameAsked(w, r) && r.client == w.client && r.identifiedAs == w.identifiedAs && CurrentOrg(r) == CurrentOrg(w)
            && (PairedFacts(w) && PairingCompleted !in w.asked ==> Waits(w, r, PairingCompleted))
  {
    hide CurrentOrg;
    if PairedFacts(w) && PairingCompleted !in w.asked {
      SpawnStarts(w, Waiting(MilestoneItem(PairingCompleted), w.boot != NotBooted));
      hide Spawn;
    }
  }

  lemma SpawnStarts(w: SeamState, task: Task)
    ensures var r := Spawn(w, task);
            && Starts(w, r, task) && SameAsked(w, r) && r.client == w.client && r.identifiedAs == w.identifiedAs
            && CurrentOrg(r) == CurrentOrg(w) && r.log == w.log && r.held == w.held
  {
    assert w.nextTask in Spawn(w, task).tasks;
  }

  /** The session's account, then its organization, then its pairing. */
  lemma ApplySessionGoesFirst(w: SeamState)
    requires Inv(w) && Funnel(w) == Open
    ensures var r := ApplySession(w);
            && SameAsked(w, r) && r.client.group == CurrentOrg(r) && (LiveSub(w).Some? ==> r.identifiedAs == LiveSub(w))
            && (PairedFacts(w) && PairingCompleted !in w.asked ==> Waits(w, r, PairingCompleted))
  {
    OpenIsDecided(w);
    hide Inv, Funnel, ApplyIdentity, SyncToStored, ApplyGroup, SpendSession, Advances, CurrentOrg, Starts;
    var moved := if LiveSub(w).Some? then ApplyIdentity(w, LiveSub(w).value) else SyncToStored(w);
    if LiveSub(w).Some? {
      ApplyIdentityKeeps(w, LiveSub(w).value);
      ApplyIdentityAsks(w, LiveSub(w).value);
    } else {
      SyncToStoredKeeps(w);
      SyncAsks(w);
    }
    assert Kept(w, moved);
    GroupAsks(moved);
    var grouped := ApplyGroup(moved);
    assert grouped.hasKey by { ApplyGroupKeeps(moved); OpenHasKey(grouped); }
    SpendSessionStarts(grouped);
    assert w.nextTask <= moved.nextTask by { AdvancesTasks(w, moved); }
    if PairedFacts(w) && PairingCompleted !in w.asked {
      StartsLater(w, grouped, SpendSession(grouped), Waiting(MilestoneItem(PairingCompleted), w.boot != NotBooted));
    }
  }

  lemma OpenHasKey(w: SeamState)
    requires Funnel(w) == Open
    ensures w.hasKey
  {
  }

  lemma AdvancesTasks(w: SeamState, r: SeamState)
    requires Advances(w, r)
    ensures w.nextTask <= r.nextTask && |w.log| <= |r.log| && r.hasKey == w.hasKey
  {
  }

  lemma StartsLater(w: SeamState, x: SeamState, r: SeamState, task: Task)
    requires Starts(x, r, task) && w.nextTask <= x.nextTask
    ensures Starts(w, r, task)
  {
  }

  lemma UnheldAsks(w: SeamState)
    ensures var r := Unheld(w);
            && SameAsked(w, r) && r.held == [] && r.nextTask == w.nextTask && r.log == w.log && r.hasKey == w.hasKey
            && LiveSub(r) == LiveSub(w) && PairedFacts(r) == PairedFacts(w)
  {
  }

  /** Each item run once, from `ready` on. */
  lemma RunLetsGo(w: SeamState, ready: SeamState, items: seq<Item>)
    requires Capturing(ready) && ready.asked == w.asked && w.nextTask <= ready.nextTask && |w.log| <= |ready.log|
    ensures var r := RunAll(ready, items);
            && r.client == ready.client && CurrentOrg(r) == CurrentOrg(ready)
            && r.tasks == Appended(ready.tasks, ready.nextTask, Started(ready, items))
            && (forall report :: FailureItem(report) in items ==> SentSince(w, r, FailureSent(report)))
            && (forall m :: MilestoneItem(m) in items && m !in w.asked ==> Starts(w, r, OrgWait(m, CurrentOrg(r).Some?)))
            && (CoworkItem in items ==> Starts(w, r, Checking))
  {
    hide RunAll, Started, Reported, Appended, CurrentOrg, Starts, Capturable;
    ReleaseRunsEachOnce(ready, items);
    var r := RunAll(ready, items);
    SameSeamStands(ready, r);
    hide SameSeam;
    forall report | FailureItem(report) in items ensures SentSince(w, r, FailureSent(report)) {
      StartedHas(ready, items, FailureItem(report));
      assert Capturable(ready, FailureSent(report)) == Capturable(r, FailureSent(report));
      InLog(w, ready, r, Reported(ready, items), FailureSent(report));
    }
    forall m | MilestoneItem(m) in items && m !in w.asked ensures Starts(w, r, OrgWait(m, CurrentOrg(r).Some?)) {
      StartedHas(ready, items, MilestoneItem(m));
      InTasks(w, ready, r, Started(ready, items), OrgWait(m, CurrentOrg(r).Some?));
    }
    if CoworkItem in items {
      StartedHas(ready, items, CoworkItem);
      InTasks(w, ready, r, Started(ready, items), Checking);
    }
  }

  lemma OpenSettles(w: SeamState)
    requires Funnel(w) == Open
    ensures Settle(w) == RunAll(ApplySession(Unheld(w)), w.held)
  {
    hide Funnel, RunAll, ApplySession, Unheld;
  }

  /** An open gate lets go of everything held. */
  lemma OpenReleases(w: SeamState)
    requires Inv(w) && Funnel(w) == Open
    ensures Released(w, Settle(w)) && Funnel(Settle(w)) == Open
  {
    hide Inv, Funnel, Unheld, ApplySession, RunAll, Started, Appended, CurrentOrg, Starts, Advances, SentSince, Settle, Capturing,
      LiveSub, PairedFacts, Waits;
    OpenSettles(w);
    var empty, r := Unheld(w), Settle(w);
    UnheldKeeps(w);
    UnheldAsks(w);
    OpenMeansStarted(w);
    ApplySessionKeeps(empty);
    ApplySessionGoesFirst(empty);
    var ready := ApplySession(empty);
    AdvancesTasks(empty, ready);
    OpenMeansCapturing(ready);
    RunLetsGo(w, ready, w.held);
    RunAllKeeps(ready, w.held);
    assert r.identifiedAs == ready.identifiedAs by { RunAllNames(ready, w.held); }
    if PairedFacts(w) && PairingCompleted !in w.asked {
      WaitsStays(empty, ready, r, Started(ready, w.held));
      WaitsSame(w, empty, r);
    }
  }

  lemma {:induction false} RunAllNames(w: SeamState, items: seq<Item>)
    ensures RunAll(w, items).identifiedAs == w.identifiedAs && RunAll(w, items).boot == w.boot
    decreases |items|
  {
    hide Run;
    if items != [] {
      RunNames(w, items[0]);
      RunAllNames(Run(w, items[0]), items[1..]);
    }
  }

  lemma RunNames(w: SeamState, item: Item)
    ensures Run(w, item).identifiedAs == w.identifiedAs && Run(w, item).boot == w.boot
  {
    hide CurrentOrg, Capturing, Spawn, Capture;
    match item
    case MilestoneItem(m) => SpawnNames(w, OrgWait(m, CurrentOrg(w).Some?));
    case FailureItem(report) => CaptureNames(w, FailureSent(report));
    case CoworkItem => SpawnNames(w, Checking);
  }

  lemma SpawnNames(w: SeamState, task: Task)
    ensures Spawn(w, task).identifiedAs == w.identifiedAs && Spawn(w, task).boot == w.boot
  {
  }

  lemma CaptureNames(w: SeamState, what: What)
    ensures Capture(w, what).identifiedAs == w.identifiedAs && Capture(w, what).boot == w.boot
  {
  }

  lemma WaitsStays(w: SeamState, x: SeamState, r: SeamState, more: seq<Task>)
    requires Inv(x) && Waits(w, x, PairingCompleted) && r.tasks == Appended(x.tasks, x.nextTask, more)
    ensures Waits(w, r, PairingCompleted)
  {
    StartsStays(w, x, r, more, Waiting(MilestoneItem(PairingCompleted), w.boot != NotBooted));
  }

  lemma WaitsSame(w: SeamState, x: SeamState, r: SeamState)
    requires Waits(x, r, PairingCompleted) && x.boot == w.boot && w.nextTask <= x.nextTask
    ensures Waits(w, r, PairingCompleted)
  {
  }

  lemma SameSeamStands(w: SeamState, r: SeamState)
    requires SameSeam(w, r)
    ensures r.asked == w.asked && r.client == w.client && CurrentOrg(r) == CurrentOrg(w)
    ensures forall what :: Capturable(r, what) == Capturable(w, what)
  {
  }

  lemma InLog(w: SeamState, x: SeamState, r: SeamState, more: seq<Entry>, what: What)
    requires r.log == x.log + more && |w.log| <= |x.log| && Capturable(r, what) in more
    ensures SentSince(w, r, what)
  {
    var k :| 0 <= k < |more| && more[k] == Capturable(r, what);
    assert r.log[|x.log| + k] == more[k];
  }

  lemma InTasks(w: SeamState, x: SeamState, r: SeamState, more: seq<Task>, task: Task)
    requires r.tasks == Appended(x.tasks, x.nextTask, more) && w.nextTask <= x.nextTask && task in more
    ensures Starts(w, r, task)
  {
    AppendedHas(x.tasks, x.nextTask, more, task);
  }

  lemma StartsStays(w: SeamState, x: SeamState, r: SeamState, more: seq<Task>, task: Task)
    requires Inv(x) && Starts(w, x, task) && r.tasks == Appended(x.tasks, x.nextTask, more)
    ensures Starts(w, r, task)
  {
    var id: nat :| w.nextTask <= id && id in x.tasks && x.tasks[id] == task;
    AppendedKeepsEarlier(x.tasks, x.nextTask, more, id);
  }

  /** A refusal spends it. */
  lemma RefusalSpends(w: SeamState)
    requires Inv(w) && Funnel(w) == Refused
    ensures SpentAll(w, Settle(w)) && Funnel(Settle(w)) == Refused
  {
    var empty, r := Unheld(w), Settle(w);
    SettlesOnce(w);
    UnheldKeeps(w);
    UnheldAsks(w);
    RefusedHasKey(w);
    hide Inv, Funnel, Unheld, SpendSession, SpendAll, Unasked, Appended, CurrentOrg, Starts, Advances;
    SpendSessionKeeps(empty);
    SpendSessionStarts(empty);
    var ready := SpendSession(empty);
    AdvancesTasks(empty, ready);
    RefusalSpendsEachOnce(ready, w.held);
    SpendAllKeeps(ready, w.held);
    assert r == SpendAll(ready, w.held);
    forall m | MilestoneItem(m) in w.held ensures m in r.asked && (m in w.asked || Starts(w, r, SpendClaim(m))) {
      assert MilestoneItem(m).milestone in r.asked;
      if m !in w.asked {
        UnaskedHas(ready.asked, w.held, m);
        InTasks(w, ready, r, Unasked(ready.asked, w.held), SpendClaim(m));
      }
    }
    if PairedFacts(w) && PairingCompleted !in w.asked {
      StartsStays(empty, ready, r, Unasked(ready.asked, w.held), Waiting(MilestoneItem(PairingCompleted), w.boot != NotBooted));
    }
  }

  lemma RefusedHasKey(w: SeamState)
    requires Funnel(w) == Refused
    ensures w.hasKey
  {
  }

  lemma SettleSettles(w: SeamState)
    requires Inv(w)
    ensures Settled(w, Settle(w))
  {
    match Funnel(w)
    case Open => OpenReleases(w); hide Released, Funnel, Settle;
    case Refused => RefusalSpends(w); hide SpentAll, Funnel, Settle;
    case Held => SettlesOnce(w); hide Funnel, Settle, Inv;
    case Closed => ClosedDrops(w);
  }

  lemma ClosedDrops(w: SeamState)
    requires Funnel(w) == Closed
    ensures Funnel(Settle(w)) == Closed && Settle(w).held == []
  {
  }

  /** `x` is `w` with an answer in: what it holds, has asked and was told is the same. */
  predicate StandsFor(w: SeamState, x: SeamState) {
    && x.asked == w.asked && x.session == w.session && x.held == w.held && (x.boot == NotBooted <==> w.boot == NotBooted)
    && w.nextTask <= x.nextTask && |w.log| <= |x.log|
  }

  lemma SettledFrom(w: SeamState, x: SeamState, r: SeamState)
    requires StandsFor(w, x) && Settled(x, r)
    ensures Settled(w, r)
  {
    hide Funnel, CurrentOrg;
  }

  // ---- The events that decide the question ----

  lemma StepDecides(w: SeamState, e: Event)
    requires Enabled(w, e)
    ensures e.PreferencesReply? ==> Step(w, e) == PreferencesRead(w, e.prefs)
    ensures e.BootResumes? ==> Step(w, e) == FinishBoot(w)
    ensures e.ConsentSet? ==> Step(w, e) == ApplyConsent(w, e.on, e.recorded, e.here)
    ensures e.ConsentResumes? ==> e.id in w.tasks && w.tasks[e.id].Consenting? &&
                                  Step(w, e) == ConsentOn(Finish(w, e.id), w.tasks[e.id].here, w.tasks[e.id].was)
  {
    hide PreferencesRead, FinishBoot, ApplyConsent, ConsentOn, Finish;
  }

  lemma ConsentOnSettles(w: SeamState, here: bool, was: Option<bool>)
    requires Inv(w)
    ensures Settled(w, ConsentOn(w, here, was))
  {
    hide Inv, Funnel, Advances, Settle, Capture, Settled;
    if w.answered == Some(true) && Capturing(w) {
      CaptureKeeps(w, OptIn);
      CaptureStands(w, OptIn);
    }
    var told := if here && was == Some(false) && w.answered == Some(true) then AnnounceOptIn(w) else w;
    SettleSettles(told);
    SettledFrom(w, told, Settle(told));
  }

  lemma CaptureStands(w: SeamState, what: What)
    ensures StandsFor(w, Capture(w, what))
  {
  }

  lemma TurnOffSettles(w: SeamState, record: bool)
    requires Inv(w)
    ensures Settled(w, TurnOff(w, record))
  {
    hide Inv, Funnel, Advances, Settle, Spawn, OptOutClient, Settled;
    var off := OptOutClient(w.(consent := Some(false), enabled := false, pending := []));
    OffMoves(w);
    OffStands(w);
    SpawnKeeps(off, OptOutClaim);
    SpawnStands(off, OptOutClaim);
    var last := if record then Spawn(off, OptOutClaim) else off;
    SettleSettles(last);
    SettledFrom(w, last, Settle(last));
  }

  lemma OffStands(w: SeamState)
    ensures StandsFor(w, OptOutClient(w.(consent := Some(false), enabled := false, pending := [])))
  {
  }

  lemma SpawnStands(w: SeamState, task: Task)
    ensures StandsFor(w, Spawn(w, task))
  {
  }

  lemma TurnOnSettles(w: SeamState, here: bool)
    requires Inv(w) && w.started
    ensures Settled(w, TurnOn(w, here))
  {
    hide Inv, Funnel, Advances, ConsentOn, Settled;
    var told := w.(consent := Some(true));
    if w.enabled {
      OnMoves(w);
      ConsentOnSettles(told, here, w.consent);
      SettledFrom(w, told, ConsentOn(told, here, w.consent));
    } else {
      OptInMoves(w);
      var up := told.(client := told.client.(optedOut := false), enabled := true);
      ConsentOnSettles(up, here, w.consent);
      SettledFrom(w, up, ConsentOn(up, here, w.consent));
    }
  }

  lemma AnswerSettles(w: SeamState, on: bool, recorded: bool, here: bool)
    requires Inv(w) && (on ==> w.started)
    ensures Settled(w, ApplyConsent(w, on, recorded, here))
  {
    hide Inv, Funnel, Advances, TurnOn, TurnOff, Settled;
    var told := if recorded then w.(answered := Some(true)) else w;
    RecordedMoves(w);
    if on { TurnOnSettles(told, here); } else { TurnOffSettles(told, here && w.consent == Some(true) && w.hasKey); }
    SettledFrom(w, told, ApplyConsent(w, on, recorded, here));
  }

  lemma {:induction false} SpendAllBoots(w: SeamState, items: seq<Item>)
    ensures SpendAll(w, items).boot == w.boot
    decreases |items|
  {
    if items != [] { SpendAllBoots(Spend(w, items[0]), items[1..]); }
  }

  lemma SettleBoots(w: SeamState)
    requires Inv(w)
    ensures Settle(w).boot == w.boot
  {
    hide Inv, Funnel, Unheld, ApplySession, SpendSession, RunAll, SpendAll, Advances;
    UnheldAsks(w);
    UnheldKeeps(w);
    match Funnel(w)
    case Open =>
      ApplySessionGoesFirst(Unheld(w));
      RunAllNames(ApplySession(Unheld(w)), w.held);
    case Refused =>
      RefusedHasKey(w);
      SpendSessionStarts(Unheld(w));
      SpendAllBoots(SpendSession(Unheld(w)), w.held);
    case _ =>
  }

  lemma TrackStarts(w: SeamState, m: Milestone)
    requires w.hasKey && w.boot != NotBooted
    ensures m !in Track(w, m).asked ==> Starts(w, Track(w, m), Waiting(MilestoneItem(m), true))
  {
    if m !in w.asked { SpawnStarts(w, Waiting(MilestoneItem(m), true)); }
    hide Spawn, Starts;
  }

  lemma TrackSettles(w: SeamState, x: SeamState, m: Milestone)
    requires Inv(x) && Settled(w, x)
    ensures Settled(w, Track(x, m))
  {
    hide Inv, Advances, Settled;
    TrackKeeps(x, m);
    TrackLeaves(w, x, m);
  }

  lemma TrackLeaves(w: SeamState, x: SeamState, m: Milestone)
    requires Inv(x) && Funnel(Track(x, m)) == Funnel(x) && Settled(w, x)
    ensures Settled(w, Track(x, m))
  {
    var r := Track(x, m);
    assert forall id <- x.tasks :: id in r.tasks && r.tasks[id] == x.tasks[id];
    hide Inv;
    assert forall task: Task :: Starts(w, x, task) ==> Starts(w, r, task);
    assert (r.log, r.held, r.asked, r.client, r.identifiedAs, r.session, r.storedOrg)
        == (x.log, x.held, x.asked, x.client, x.identifiedAs, x.session, x.storedOrg);
    assert forall what :: Capturable(r, what) == Capturable(x, what);
    assert forall what :: SentSince(w, x, what) ==> SentSince(w, r, what);
    hide Funnel, Track, Starts, SentSince, Capturable, LiveSub, PairedFacts;
  }

  /** A boot that finishes settles what is held, and the first launch sets out. */
  lemma BootSettles(w: SeamState)
    requires Inv(w) && w.hasKey && w.boot != NotBooted
    ensures Settled(w, FinishBoot(w))
    ensures FirstLaunched !in FinishBoot(w).asked ==> Starts(w, FinishBoot(w), Waiting(MilestoneItem(FirstLaunched), true))
  {
    hide Inv, Funnel, Advances, Settle, Track, Settled, Starts;
    var booted := w.(boot := Booted);
    BootedMoves(w, w.pending);
    SettleKeeps(booted);
    SettleSettles(booted);
    SettledFrom(w, booted, Settle(booted));
    TrackSettles(w, Settle(booted), FirstLaunched);
    SettleBoots(booted);
    AdvancesTasks(booted, Settle(booted));
    TrackStarts(Settle(booted), FirstLaunched);
    if FirstLaunched !in FinishBoot(w).asked {
      StartsLater(w, Settle(booted), FinishBoot(w), Waiting(MilestoneItem(FirstLaunched), true));
    }
  }

  /** A boot that reads no "yes" settles what is held at once. */
  lemma ReadSettles(w: SeamState, prefs: Option<Preferences>)
    requires Inv(w) && w.boot == ReadingPreferences && PreferencesRead(w, prefs).consent != Some(true)
    ensures Settled(w, PreferencesRead(w, prefs))
  {
    var consent := w.consent.OrElse(if prefs.Some? then Some(prefs.value.share) else None);
    var answered := w.answered.OrElse(if prefs.Some? then Some(prefs.value.recorded) else None);
    AnsweredMoves(w, consent, answered);
    var known := w.(consent := consent, answered := answered);
    hide Inv, Advances, Settled, BootDecides;
    DecidesNo(known);
    SettledFrom(w, known, BootDecides(known));
  }

  lemma DecidesNo(w: SeamState)
    requires Inv(w) && BootDecides(w).consent != Some(true) && w.boot != NotBooted
    ensures Settled(w, BootDecides(w))
  {
    hide Inv, Advances, Settled, Settle, StartClient, Funnel;
    if w.consent == Some(true) {
      StartKeepsConsent(w.(boot := StartingClient));
    } else {
      var booted := w.(pending := [], boot := Booted);
      BootedMoves(w, []);
      SettleSettles(booted);
      SettledFrom(w, booted, Settle(booted));
    }
  }

  lemma StartKeepsConsent(w: SeamState)
    ensures StartClient(w).consent == w.consent
  {
  }

  /** The events that decide what becomes of what is held: an answer to sharing (a "yes" once the client is
      up, and otherwise as soon as it is), and the end of the boot. */
  predicate Decides(w: SeamState, e: Event, r: SeamState) {
    match e
    case ConsentSet(on, _, _) => on ==> w.started
    case ConsentResumes(_) => true
    case BootResumes => true
    case PreferencesReply(_) => r.consent != Some(true)
    case _ => false
  }

  /** In every run, each of those events does to everything held exactly what the gate now says: it lets
      all of it go once open, spends all of it once refused, keeps all of it while the question is open, and
      drops it when nothing can be sent. */
  lemma DecisionsSettle(states: seq<SeamState>, events: seq<Event>, i: nat)
    requires IsRun(states, events) && Launch(states[0]) && i < |events| && Decides(states[i], events[i], states[i + 1])
    ensures Settled(states[i], states[i + 1])
  {
    hide Inv, Launch, Step, Settled, PreferencesRead, FinishBoot, ApplyConsent, ConsentOn, Finish, Advances;
    RunKeepsInv(states, events, i);
    var w, e := states[i], events[i];
    StepDecides(w, e);
    match e
    case ConsentSet(on, recorded, here) => AnswerSettles(w, on, recorded, here);
    case ConsentResumes(id) =>
      FinishInv(w, id);
      ConsentOnSettles(Finish(w, id), w.tasks[id].here, w.tasks[id].was);
      FinishStands(w, id);
      SettledFrom(w, Finish(w, id), Step(w, e));
    case BootResumes => BootHasKey(w); BootSettles(w);
    case PreferencesReply(prefs) => ReadSettles(w, prefs);
  }

  lemma FinishStands(w: SeamState, id: nat)
    ensures StandsFor(w, Finish(w, id))
  {
  }

  lemma BootHasKey(w: SeamState)
    requires Inv(w) && w.boot == StartingClient
    ensures w.hasKey
  {
  }

  /** A window's boot ends in its first launch being told, unless it was settled before. */
  lemma FirstLaunchSetsOut(states: seq<SeamState>, events: seq<Event>, i: nat)
    requires IsRun(states, events) && Launch(states[0]) && i < |events| && events[i].BootResumes?
    requires FirstLaunched !in states[i + 1].asked
    ensures Starts(states[i], states[i + 1], Waiting(MilestoneItem(FirstLaunched), true))
  {
    hide Inv, Launch, Step, Starts, FinishBoot;
    RunKeepsInv(states, events, i);
    StepDecides(states[i], events[i]);
    BootHasKey(states[i]);
    BootSettles(states[i]);
  }
}
