/**
 Where each signal goes, at every point of every run: a milestone from gate to
 claim, a Cowork check from gate to report, and what a "yes" and a "no" set off.
 */
module AnalyticsSignals {
  import opened Options
  import opened AnalyticsState
  import opened AnalyticsInvariant
  import opened AnalyticsSteps
  import opened AnalyticsTheorems
  import opened AnalyticsProgress
  import opened AnalyticsHeld
  import AnalyticsConsent
  import AnalyticsIdentity

  lemma StepSignals(w: SeamState, e: Event)
    requires Enabled(w, e)
    ensures e.MilestoneReached? ==> Step(w, e) == Track(w, e.milestone)
    ensures e.CoworkToolConnected? ==> Step(w, e) == if w.hasKey then Spawn(w, Waiting(CoworkItem, w.boot != NotBooted)) else w
    ensures e.WaitOver? ==> e.id in w.tasks && w.tasks[e.id].Waiting? && Step(w, e) == Enter(Finish(w, e.id), w.tasks[e.id].item)
    ensures e.OrgResumes? ==> e.id in w.tasks && w.tasks[e.id].OrgWait? &&
                              Step(w, e) == OrgWaited(Finish(w, e.id), w.tasks[e.id].milestone)
    ensures e.CoworkReply? ==>
              Step(w, e) == if e.detail.Some? && Capturing(w) then Spawn(Finish(w, e.id), CoworkClaim(e.detail.value)) else Finish(w, e.id)
    ensures e.SaveReply? ==> e.id in w.tasks && w.tasks[e.id].Saving? &&
                             Step(w, e) == SaveAnswered(Finish(w, e.id), w.tasks[e.id].next, e.saved)
    ensures e.RetryTimer? ==> w.retryArmed && Step(w, e) == Persist(w.(retryArmed := false))
    ensures e.IdentityReply? ==> Step(w, e) == IdentityRead(w, e.answer)
  {
    hide Track, Spawn, Enter, Finish, OrgWaited, Capturing, SaveAnswered, Persist, IdentityRead;
  }

  /** Nothing was sent, asked or started. */
  predicate Nothing(w: SeamState, r: SeamState) {
    r.log == w.log && r.asked == w.asked && r.nextTask == w.nextTask && r.held == w.held
  }

  /** What was suspended is over, and nothing else of the window has moved. */
  predicate Ended(w: SeamState, x: SeamState, id: nat) {
    && Nothing(w, x) && id !in x.tasks && Funnel(x) == Funnel(w) && x.heldMarkers == w.heldMarkers && x.heldFailures == w.heldFailures
    && CurrentOrg(x) == CurrentOrg(w) && x.client == w.client && x.consent == w.consent && x.hasKey == w.hasKey
    && x.started == w.started && Capturing(x) == Capturing(w) && x.answered == w.answered && x.enabled == w.enabled
  }

  lemma FinishEnds(w: SeamState, id: nat)
    ensures Ended(w, Finish(w, id), id)
  {
  }

  // ---- Milestones ----

  /** A milestone reached sets out, unless there is no key or this window has settled it. */
  lemma MilestoneSetsOut(states: seq<SeamState>, events: seq<Event>, i: nat, m: Milestone)
    requires IsRun(states, events) && i < |events| && events[i] == MilestoneReached(m)
    ensures if states[i].hasKey && m !in states[i].asked then Waits(states[i], states[i + 1], m) else states[i + 1] == states[i]
  {
    StepSignals(states[i], events[i]);
    hide Step, Enabled;
    if states[i].hasKey && m !in states[i].asked {
      SpawnStarts(states[i], Waiting(MilestoneItem(m), states[i].boot != NotBooted));
      hide Spawn;
    }
  }

  /** Where a milestone goes once its waits are over. */
  ghost predicate GoesOn(w: SeamState, r: SeamState, m: Milestone) {
    match Funnel(w)
    case Open => r.log == w.log && r.asked == w.asked && (m in w.asked || Starts(w, r, OrgWait(m, CurrentOrg(w).Some?)))
    case Refused => r.log == w.log && m in r.asked && (m in w.asked || Starts(w, r, SpendClaim(m)))
    case Held =>
      && r.log == w.log && r.asked == w.asked && m in r.heldMarkers
      && r.held == if m !in w.heldMarkers && |w.held| < 100 then w.held + [MilestoneItem(m)] else w.held
    case Closed => Nothing(w, r)
  }

  lemma EnterGoesOn(w: SeamState, m: Milestone)
    ensures GoesOn(w, Enter(w, MilestoneItem(m)), m)
  {
    hide Enter, GoesOn;
    match Funnel(w)
    case Open => OpenWaitsForOrg(w, m);
    case Refused => RefusedIsSpent(w, m);
    case Held => HeldIsHeld(w, m);
    case Closed => ClosedIsLeft(w, m);
  }

  lemma OpenWaitsForOrg(w: SeamState, m: Milestone)
    requires Funnel(w) == Open
    ensures GoesOn(w, Enter(w, MilestoneItem(m)), m)
  {
    hide Funnel, Spawn, CurrentOrg, Starts;
    SpawnStarts(w, OrgWait(m, CurrentOrg(w).Some?));
  }

  lemma RefusedIsSpent(w: SeamState, m: Milestone)
    requires Funnel(w) == Refused
    ensures GoesOn(w, Enter(w, MilestoneItem(m)), m)
  {
    hide Funnel, Spawn, CurrentOrg;
    SpawnStarts(w.(asked := w.asked + {m}), SpendClaim(m));
  }

  lemma HeldIsHeld(w: SeamState, m: Milestone)
    requires Funnel(w) == Held
    ensures GoesOn(w, Enter(w, MilestoneItem(m)), m)
  {
    var noted := w.(heldMarkers := w.heldMarkers + {m});
    assert Funnel(noted) == Held;
    hide Funnel, CurrentOrg, Run, Spend;
    if m in w.heldMarkers {
    } else if Offered(noted, MilestoneItem(m)) {
    } else {
    }
  }

  lemma ClosedIsLeft(w: SeamState, m: Milestone)
    requires Funnel(w) == Closed
    ensures GoesOn(w, Enter(w, MilestoneItem(m)), m)
  {
    hide Funnel, CurrentOrg, Run, Spend;
  }

  /** In every run, a milestone whose waits for the boot and the client are over: waits for the organization
      behind an open gate; is spent once sharing is off; is held, once and while there is room, as long as
      the question is open; and is let be when nothing can be sent. */
  lemma MilestoneGoesOn(states: seq<SeamState>, events: seq<Event>, i: nat, m: Milestone)
    requires IsRun(states, events) && i < |events| && events[i].WaitOver?
    requires events[i].id in states[i].tasks && states[i].tasks[events[i].id].Waiting?
    requires states[i].tasks[events[i].id].item == MilestoneItem(m)
    ensures GoesOn(states[i], states[i + 1], m)
  {
    hide Enter, Finish, GoesOn, Funnel, CurrentOrg;
    var w, id := states[i], events[i].id;
    StepSignals(w, events[i]);
    FinishEnds(w, id);
    EnterGoesOn(Finish(w, id), m);
    hide Step, Enabled;
    GoesOnFrom(w, Finish(w, id), states[i + 1], id, m);
  }

  lemma GoesOnFrom(w: SeamState, x: SeamState, r: SeamState, id: nat, m: Milestone)
    requires Ended(w, x, id) && GoesOn(x, r, m)
    ensures GoesOn(w, r, m)
  {
    hide Funnel, CurrentOrg, Capturing;
  }

  /** What the wait for the organization leads to. */
  ghost predicate Asks(w: SeamState, r: SeamState, m: Milestone) {
    if m in w.asked then Nothing(w, r)
    else if w.consent == Some(false) then r.log == w.log && r.asked == w.asked + {m} && Starts(w, r, SpendClaim(m))
    else if !Capturing(w) then Nothing(w, r)
    else r.log == w.log && r.asked == w.asked + {m} && Starts(w, r, SendClaim(m))
         && (Funnel(w) == Open ==> r.client.group == CurrentOrg(w))
  }

  lemma OrgWaitedAsks(w: SeamState, m: Milestone)
    ensures Asks(w, OrgWaited(w, m), m)
  {
    GroupAsks(w);
    GroupLogs(w);
    hide Funnel, CurrentOrg, ApplyGroup, Capturing;
    if m in w.asked {
    } else if w.consent == Some(false) {
      SpawnStarts(w.(asked := w.asked + {m}), SpendClaim(m));
      hide Spawn;
    } else if Capturing(w) {
      var grouped := ApplyGroup(w);
      SpawnStarts(grouped.(asked := grouped.asked + {m}), SendClaim(m));
      hide Spawn;
    }
  }

  lemma GroupLogs(w: SeamState)
    ensures ApplyGroup(w).log == w.log && ApplyGroup(w).held == w.held
  {
    hide Funnel;
  }

  /** In every run, a milestone whose wait for the organization is over is claimed to be sent, under the
      organization the install routes for, while the client delivers; is spent if sharing went off
      meanwhile; and is let be if this window has settled it or nothing can be sent. */
  lemma MilestoneAsks(states: seq<SeamState>, events: seq<Event>, i: nat, m: Milestone)
    requires IsRun(states, events) && i < |events| && events[i].OrgResumes?
    requires events[i].id in states[i].tasks && states[i].tasks[events[i].id].OrgWait? && states[i].tasks[events[i].id].milestone == m
    ensures Asks(states[i], states[i + 1], m)
  {
    hide OrgWaited, Finish, Asks, Funnel, CurrentOrg;
    var w, id := states[i], events[i].id;
    StepSignals(w, events[i]);
    FinishEnds(w, id);
    OrgWaitedAsks(Finish(w, id), m);
    hide Step, Enabled;
    AsksFrom(w, Finish(w, id), states[i + 1], id, m);
  }

  lemma AsksFrom(w: SeamState, x: SeamState, r: SeamState, id: nat, m: Milestone)
    requires Ended(w, x, id) && Asks(x, r, m)
    ensures Asks(w, r, m)
  {
    hide Funnel, CurrentOrg, Capturing;
  }

  // ---- The Cowork check ----

  /** Where a failure report goes as the gate stands. */
  predicate Reports(w: SeamState, r: SeamState, report: nat) {
    match Funnel(w)
    case Open => r.log == w.log + [Capturable(w, FailureSent(report))] && r.held == w.held
    case Held => r.log == w.log &&
                 r.held == if |w.held| < 100 && w.heldFailures < 20 then w.held + [FailureItem(report)] else w.held
    case _ => r.log == w.log && r.held == w.held
  }

  lemma OfferReports(w: SeamState, report: nat)
    ensures Reports(w, Offer(w, FailureItem(report)), report)
  {
    OpenMeansCapturing(w);
    hide Funnel, Deciding, Capturing;
  }

  /** In every run, a connection failure is sent behind an open gate, held within its share of the queue
      while the question is open, and dropped otherwise. */
  lemma FailureIsReported(states: seq<SeamState>, events: seq<Event>, i: nat)
    requires IsRun(states, events) && i < |events| && events[i].ConnectionFailed?
    ensures Reports(states[i], states[i + 1], events[i].failure)
  {
    OfferReports(states[i], events[i].failure);
    hide Reports, Offer;
    assert states[i + 1] == Step(states[i], events[i]);
  }

  /** The Cowork check, step by step in every run: a tool connected sets it out; past its waits an open gate
      starts it, and an open question holds it; a setting found missing is claimed, while the client delivers;
      and a won claim is reported as a failure is, if the quiet window lets it through. */
  lemma CoworkIsReported(states: seq<SeamState>, events: seq<Event>, i: nat)
    requires IsRun(states, events) && i < |events|
    ensures var w, r, e := states[i], states[i + 1], events[i];
            && (e.CoworkToolConnected? && w.hasKey ==> Starts(w, r, Waiting(CoworkItem, w.boot != NotBooted)))
            && (e.WaitOver? && e.id in w.tasks && w.tasks[e.id] in {Waiting(CoworkItem, true), Waiting(CoworkItem, false)} ==>
                  (Funnel(w) == Open ==> Starts(w, r, Checking)) &&
                  r.held == if Funnel(w) == Held && |w.held| < 100 then w.held + [CoworkItem] else w.held)
            && (e.CoworkReply? && Capturing(w) && e.detail.Some? ==> Starts(w, r, CoworkClaim(e.detail.value)))
            && (e.CoworkReply? && !(Capturing(w) && e.detail.Some?) ==> Nothing(w, r))
            && (e.ClaimReply? && e.id in w.tasks && w.tasks[e.id].CoworkClaim? ==>
                  if e.claimed == Won && e.report.Some? then Reports(w, r, e.report.value) else Nothing(w, r))
  {
    var w, e := states[i], events[i];
    hide Step, Enabled, Funnel, Capturing, Starts, Reports, Nothing;
    match e
    case CoworkToolConnected => CoworkSetsOut(w, e);
    case WaitOver(_) => CoworkChecks(w, e);
    case CoworkReply(_, _) => CoworkClaims(w, e);
    case ClaimReply(_, _, _) => CoworkWins(w, e);
    case _ =>
  }

  lemma CoworkSetsOut(w: SeamState, e: Event)
    requires Enabled(w, e) && e.CoworkToolConnected?
    ensures w.hasKey ==> Starts(w, Step(w, e), Waiting(CoworkItem, w.boot != NotBooted))
  {
    hide Spawn;
    StepSignals(w, e);
    hide Step, Enabled;
    SpawnStarts(w, Waiting(CoworkItem, w.boot != NotBooted));
  }

  lemma CoworkChecks(w: SeamState, e: Event)
    requires Enabled(w, e) && e.WaitOver?
    ensures e.id in w.tasks && w.tasks[e.id].Waiting? && w.tasks[e.id].item == CoworkItem ==>
              (Funnel(w) == Open ==> Starts(w, Step(w, e), Checking)) &&
              Step(w, e).held == if Funnel(w) == Held && |w.held| < 100 then w.held + [CoworkItem] else w.held
  {
    hide Enter, Finish, Funnel, Starts;
    StepSignals(w, e);
    hide Step, Enabled;
    FinishEnds(w, e.id);
    if w.tasks[e.id].item == CoworkItem {
      EnterHolds(Finish(w, e.id));
      if Funnel(w) == Open { EnterChecks(w, Finish(w, e.id), e.id); }
    }
  }

  lemma CoworkClaims(w: SeamState, e: Event)
    requires Enabled(w, e) && e.CoworkReply?
    ensures if Capturing(w) && e.detail.Some? then Starts(w, Step(w, e), CoworkClaim(e.detail.value)) else Nothing(w, Step(w, e))
  {
    hide Finish, Spawn, Starts, Capturing;
    StepSignals(w, e);
    hide Step, Enabled, Funnel, CurrentOrg;
    FinishEnds(w, e.id);
    if e.detail.Some? {
      SpawnStarts(Finish(w, e.id), CoworkClaim(e.detail.value));
      StartsLater(w, Finish(w, e.id), Spawn(Finish(w, e.id), CoworkClaim(e.detail.value)), CoworkClaim(e.detail.value));
    }
  }

  lemma CoworkWins(w: SeamState, e: Event)
    requires Enabled(w, e) && e.ClaimReply?
    ensures e.id in w.tasks
    ensures w.tasks[e.id].CoworkClaim? ==>
              if e.claimed == Won && e.report.Some? then Reports(w, Step(w, e), e.report.value) else Nothing(w, Step(w, e))
  {
    hide Finish, Claimed, Reports, Nothing;
    StepClaims(w, e);
    hide Step, Enabled;
    FinishEnds(w, e.id);
    if w.tasks[e.id].CoworkClaim? {
      CoworkClaimReports(w, Finish(w, e.id), e.id, w.tasks[e.id].detail, e.claimed, e.report);
    }
  }

  lemma EnterChecks(w: SeamState, x: SeamState, id: nat)
    requires Ended(w, x, id) && Funnel(w) == Open
    ensures Starts(w, Enter(x, CoworkItem), Checking)
  {
    assert Enter(x, CoworkItem) == Spawn(x, Checking) by { hide Spawn, CurrentOrg, Deciding, Capturing; }
    SpawnStarts(x, Checking);
    StartsLater(w, x, Spawn(x, Checking), Checking);
    hide *;
  }

  lemma EnterHolds(w: SeamState)
    ensures Enter(w, CoworkItem).held == if Funnel(w) == Held && |w.held| < 100 then w.held + [CoworkItem] else w.held
  {
    hide Funnel;
  }

  lemma CoworkClaimReports(w: SeamState, x: SeamState, id: nat, detail: string, answer: ClaimAnswer, report: Option<nat>)
    requires Ended(w, x, id)
    ensures var r := Claimed(x, id, CoworkClaim(detail), answer, report);
            if answer == Won && report.Some? then Reports(w, r, report.value) else Nothing(w, r)
  {
    hide Funnel, CurrentOrg, Capturing, Offer;
    if answer == Won && report.Some? { OfferReports(x, report.value); }
  }

  // ---- What a "yes" and a "no" set off ----

  /** `what` went out since `w`. */
  ghost predicate WentOut(w: SeamState, r: SeamState, what: What) {
    exists k :: |w.log| <= k < |r.log| && r.log[k].Sent? && r.log[k].what == what
  }

  /** Nothing is sent, but for one merge at most. */
  predicate MergesAtMost(w: SeamState, r: SeamState) {
    r.log == w.log || (|r.log| == |w.log| + 1 && r.log[..|w.log|] == w.log && r.log[|w.log|].Merged?)
  }

  lemma ApplySessionOnlyMerges(w: SeamState)
    ensures var r := ApplySession(w); MergesAtMost(w, r)
  {
    hide ApplyIdentity, SyncToStored, ApplyGroup, SpendSession, LiveSub;
    var moved := if LiveSub(w).Some? then ApplyIdentity(w, LiveSub(w).value) else SyncToStored(w);
    if LiveSub(w).Some? { NameOnlyMerges(w, LiveSub(w).value); } else { SyncOnlyMerges(w); }
    GroupLogs(moved);
    SpendSessionSilent(ApplyGroup(moved));
  }

  lemma NameOnlyMerges(w: SeamState, sub: Sub)
    ensures var r := ApplyIdentity(w, sub); MergesAtMost(w, r)
  {
    hide Persist;
    if w.identifiedAs != Some(sub) {
      var clean := if w.everIdentified then ResetClient(w) else w;
      var named := Identify(clean, sub).(
        identifiedAs := Some(sub), storedSub := Some(sub), everIdentified := true, lastPersisted := None);
      PersistLogs(named);
      assert clean.log == w.log;
    }
  }

  lemma PersistLogs(w: SeamState)
    ensures Persist(w).log == w.log
  {
  }

  lemma SyncOnlyMerges(w: SeamState)
    ensures var r := SyncToStored(w); MergesAtMost(w, r)
  {
    hide ApplyGroup;
    if w.started && w.storedSub != w.identifiedAs {
      var blank := ResetClient(w);
      var moved := if w.storedSub.Some? then Identify(blank, w.storedSub.value) else blank;
      GroupLogs(moved.(identifiedAs := w.storedSub));
      assert blank.log == w.log;
    }
  }

  lemma {:induction false} ReportedAre(w: SeamState, items: seq<Item>)
    ensures forall entry <- Reported(w, items) :: entry.Sent? && entry.what.FailureSent?
    decreases |items|
  {
    if items != [] { ReportedAre(w, items[1..]); }
  }

  /** Settling announces nothing of its own. */
  lemma SettleAnnouncesNothing(w: SeamState)
    requires Inv(w)
    ensures !WentOut(w, Settle(w), OptIn) && w.log <= Settle(w).log
  {
    hide Inv, Funnel, Unheld, ApplySession, SpendSession, RunAll, SpendAll, Started, Reported, Appended, Unasked;
    SettlesOnce(w);
    UnheldAsks(w);
    var empty := Unheld(w);
    if Funnel(w) == Open {
      ApplySessionOnlyMerges(empty);
      ReportedAre(ApplySession(empty), w.held);
      var r, ready, more := Settle(w), ApplySession(empty), Reported(ApplySession(empty), w.held);
      forall k | |w.log| <= k < |r.log| && r.log[k].Sent? ensures r.log[k].what != OptIn {
        if k >= |ready.log| { assert r.log[k] == more[k - |ready.log|]; }
      }
      assert w.log <= ready.log;
    }
    hide Settle;
  }

  lemma ConsentOnAnnounces(w: SeamState, here: bool, was: Option<bool>)
    requires Inv(w)
    ensures WentOut(w, ConsentOn(w, here, was), OptIn) <==> here && was == Some(false) && w.answered == Some(true) && Capturing(w)
  {
    hide Inv, Funnel, Advances, Settle, Capturing;
    if here && was == Some(false) && w.answered == Some(true) && Capturing(w) {
      CaptureKeeps(w, OptIn);
      var told := Capture(w, OptIn);
      SettleAnnouncesNothing(told);
      assert Settle(told).log[|w.log|] == told.log[|w.log|];
    } else {
      SettleAnnouncesNothing(w);
    }
  }

  /** In every run: PostHog's own opt-in event goes out, when the rest of a "yes" runs, exactly if it was
      given in this window, to a question answered, for a change from off, to a client that delivers. */
  lemma OptInIsAnnouncedIff(states: seq<SeamState>, events: seq<Event>, i: nat)
    requires IsRun(states, events) && Launch(states[0]) && i < |events| && events[i].ConsentResumes?
    requires events[i].id in states[i].tasks && states[i].tasks[events[i].id].Consenting?
    ensures var w, task := states[i], states[i].tasks[events[i].id];
            WentOut(w, states[i + 1], OptIn) <==> task.here && task.was == Some(false) && w.answered == Some(true) && Capturing(w)
  {
    hide Inv, Launch, ConsentOn, Finish, Capturing, Advances;
    RunKeepsInv(states, events, i);
    var w, id := states[i], events[i].id;
    StepDecides(w, events[i]);
    FinishInv(w, id);
    FinishEnds(w, id);
    ConsentOnAnnounces(Finish(w, id), w.tasks[id].here, w.tasks[id].was);
    hide Step, Enabled;
  }

  /** And at once when the client is up already. */
  lemma OptInIsAnnouncedAtOnceIff(states: seq<SeamState>, events: seq<Event>, i: nat)
    requires IsRun(states, events) && Launch(states[0]) && i < |events| && events[i].ConsentSet? && events[i].on && states[i].started
    ensures var w, e := states[i], events[i];
            WentOut(w, states[i + 1], OptIn) <==> e.here && w.consent == Some(false) && (e.recorded || w.answered == Some(true))
  {
    hide Inv, Launch, ApplyConsent;
    RunKeepsInv(states, events, i);
    StepDecides(states[i], events[i]);
    AnswerAnnounces(states[i], events[i].recorded, events[i].here);
    hide Step, Enabled;
  }

  lemma AnswerAnnounces(w: SeamState, recorded: bool, here: bool)
    requires Inv(w) && w.started
    ensures WentOut(w, ApplyConsent(w, true, recorded, here), OptIn) <==>
            here && w.consent == Some(false) && (recorded || w.answered == Some(true))
  {
    var told := if recorded then w.(answered := Some(true)) else w;
    RecordedMoves(w);
    var on := told.(consent := Some(true));
    var up := on.(client := on.client.(optedOut := false), enabled := true);
    if w.enabled { OnMoves(told); } else { OptInMoves(told); }
    EnabledIsOn(w);
    hide Inv, Advances, ConsentOn;
    ConsentOnAnnounces(if w.enabled then on else up, here, w.consent);
  }

  lemma EnabledIsOn(w: SeamState)
    requires Inv(w) && w.started
    ensures w.enabled <==> w.consent == Some(true)
    ensures w.client.optedOut <==> w.consent != Some(true)
  {
  }

  // ---- What a "no" files ----

  /** No opt-out is claimed in what `r` adds. */
  ghost predicate ClaimsNoOptOut(w: SeamState, r: SeamState) {
    forall id <- r.tasks :: r.tasks[id] == OptOutClaim ==> id in w.tasks && w.tasks[id] == OptOutClaim
  }

  lemma {:induction false} AppendedOnly(tasks: map<nat, Task>, next: nat, more: seq<Task>)
    ensures var r := Appended(tasks, next, more); forall id <- r :: r[id] in more || (id in tasks && r[id] == tasks[id])
    decreases |more|
  {
    if more != [] { AppendedOnly(tasks[next := more[0]], next + 1, more[1..]); }
  }

  lemma {:induction false} UnaskedAre(asked: set<Milestone>, items: seq<Item>)
    ensures forall task <- Unasked(asked, items) :: task.SpendClaim?
    decreases |items|
  {
    if items != [] {
      UnaskedAre(if items[0].MilestoneItem? then asked + {items[0].milestone} else asked, items[1..]);
      UnaskedAre(asked, items[1..]);
    }
  }

  lemma RefusalClaimsNoOptOut(w: SeamState)
    requires Inv(w) && w.consent == Some(false)
    ensures ClaimsNoOptOut(w, Settle(w))
  {
    hide Inv, Unheld, SpendSession, SpendAll, Unasked, Appended;
    SettlesOnce(w);
    var empty := Unheld(w);
    assert empty.tasks == w.tasks by { UnheldTasks(w); }
    SpendSessionClaimsNoOptOut(empty);
    var ready := SpendSession(empty);
    UnaskedAre(ready.asked, w.held);
    AppendedOnly(ready.tasks, ready.nextTask, Unasked(ready.asked, w.held));
    NoLeavesOnlyRefusal(w);
    hide Funnel, Settle;
    if Funnel(w) == Closed { assert Settle(w) == empty; }
  }

  lemma NoLeavesOnlyRefusal(w: SeamState)
    requires w.consent == Some(false)
    ensures Funnel(w) == Refused || Funnel(w) == Closed
  {
  }

  lemma UnheldTasks(w: SeamState)
    ensures Unheld(w).tasks == w.tasks
  {
  }

  lemma SpendSessionClaimsNoOptOut(w: SeamState)
    ensures ClaimsNoOptOut(w, SpendSession(w))
  {
  }

  lemma TurnOffClaims(w: SeamState, record: bool)
    requires Inv(w)
    ensures Starts(w, TurnOff(w, record), OptOutClaim) <==> record
  {
    hide Inv, Funnel, Advances, Settle, OptOutClient, ClaimsNoOptOut;
    var off := OptOutClient(w.(consent := Some(false), enabled := false, pending := []));
    OffMoves(w);
    OffTasks(w);
    SpawnKeeps(off, OptOutClaim);
    var last := if record then Spawn(off, OptOutClaim) else off;
    RefusalClaimsNoOptOut(last);
    SettleKeeps(last);
    ClaimsStayOn(last, Settle(last), w.nextTask, record);
    NoneBefore(w);
    hide Spawn;
  }

  lemma OffTasks(w: SeamState)
    ensures var off := OptOutClient(w.(consent := Some(false), enabled := false, pending := []));
            off.tasks == w.tasks && off.nextTask == w.nextTask && off.consent == Some(false)
  {
  }

  lemma NoneBefore(w: SeamState)
    requires Inv(w)
    ensures forall id <- w.tasks :: id < w.nextTask
  {
  }

  lemma ClaimsStayOn(w: SeamState, r: SeamState, id: nat, there: bool)
    requires Advances(w, r) && ClaimsNoOptOut(w, r)
    ensures there && id in w.tasks && w.tasks[id] == OptOutClaim ==> id in r.tasks && r.tasks[id] == OptOutClaim
    ensures forall k <- r.tasks :: r.tasks[k] == OptOutClaim ==> k in w.tasks && w.tasks[k] == OptOutClaim
  {
  }

  /** In every run: a "no" claims the opt-out's marker exactly if it was given in this window and turned
      sharing off that was on, in a build that could post it. */
  lemma OptOutIsClaimedIff(states: seq<SeamState>, events: seq<Event>, i: nat)
    requires IsRun(states, events) && Launch(states[0]) && i < |events| && events[i].ConsentSet? && !events[i].on
    ensures Starts(states[i], states[i + 1], OptOutClaim) <==>
            events[i].here && states[i].consent == Some(true) && states[i].hasKey
  {
    hide Inv, Launch, ApplyConsent, Starts;
    RunKeepsInv(states, events, i);
    var w, e := states[i], events[i];
    StepDecides(w, e);
    hide Step, Enabled;
    NoClaims(w, e.recorded, e.here);
  }

  lemma NoClaims(w: SeamState, recorded: bool, here: bool)
    requires Inv(w)
    ensures Starts(w, ApplyConsent(w, false, recorded, here), OptOutClaim) <==> here && w.consent == Some(true) && w.hasKey
  {
    var told := if recorded then w.(answered := Some(true)) else w;
    RecordedMoves(w);
    assert told.nextTask == w.nextTask;
    hide Inv, Advances, TurnOff;
    TurnOffClaims(told, here && w.consent == Some(true) && w.hasKey);
  }

  // ---- Coming up ----

  /** One step of a window on its way up. */
  ghost predicate ComesUp(w: SeamState, e: Event, r: SeamState) {
    && (e.InitAnalytics? ==> r.boot == ReadingPreferences && r.loading)
    && (e.IdentityReply? ==> r.adopted)
    && (e.PreferencesReply? && r.consent == Some(true) ==> r.boot == StartingClient && r.starting)
    && (e.PreferencesReply? && r.consent != Some(true) ==> r.boot == Booted && r.pending == [])
    && (e.ConsentSet? && e.on && !w.started ==> r.starting && Starts(w, r, Consenting(e.here, w.consent)))
    && (e.StartReply? ==> r.started)
    && (e.BootResumes? ==> r.boot == Booted)
  }

  /** How a window with a key comes up, step by step in every run: its script starts reading the preferences
      and the record; a "yes" read, or given before any client, starts the client, and one given keeps the
      rest of its work for when the client is up; the client's own reads bring it up. */
  lemma WindowComesUp(states: seq<SeamState>, events: seq<Event>, i: nat)
    requires IsRun(states, events) && Launch(states[0]) && i < |events| && states[i].hasKey
    ensures ComesUp(states[i], events[i], states[i + 1])
  {
    hide Inv, Launch, Step, Enabled, Starts;
    RunKeepsInv(states, events, i);
    var w, e := states[i], events[i];
    match e
    case InitAnalytics => BootReads(w, e);
    case IdentityReply(_) => ReadLands(w, e);
    case PreferencesReply(_) => BootStarts(w, e);
    case ConsentSet(on, _, _) => if on && !w.started { YesStarts(w, e); }
    case StartReply(_) => StartBringsUp(w, e);
    case BootResumes => BootEnds(w, e);
    case _ =>
  }

  lemma BootReads(w: SeamState, e: Event)
    requires Enabled(w, e) && e.InitAnalytics? && w.hasKey
    ensures Step(w, e).boot == ReadingPreferences && Step(w, e).loading
  {
  }

  lemma ReadLands(w: SeamState, e: Event)
    requires Inv(w) && Enabled(w, e) && e.IdentityReply? && WellFormed(e)
    ensures Step(w, e).adopted
  {
    hide Inv, Advances;
    QuietStepMoves(w, e);
    AdvancesAdopted(Heard(w, e), Step(w, e));
    hide Step;
  }

  lemma AdvancesAdopted(w: SeamState, r: SeamState)
    requires Advances(w, r)
    ensures r.adopted == w.adopted && (w.started ==> r.started)
  {
  }

  lemma BootStarts(w: SeamState, e: Event)
    requires Inv(w) && Enabled(w, e) && e.PreferencesReply? && w.hasKey
    ensures var r := Step(w, e);
            if r.consent == Some(true) then r.boot == StartingClient && r.starting else r.boot == Booted && r.pending == []
  {
    hide Inv, BootDecides;
    StepDecides(w, e);
    hide Step;
    var consent := w.consent.OrElse(if e.prefs.Some? then Some(e.prefs.value.share) else None);
    var answered := w.answered.OrElse(if e.prefs.Some? then Some(e.prefs.value.recorded) else None);
    AnsweredMoves(w, consent, answered);
    hide Advances;
    var known := w.(consent := consent, answered := answered);
    DecidedBoots(known);
  }

  lemma DecidedBoots(w: SeamState)
    requires Inv(w) && w.hasKey
    ensures var r := BootDecides(w);
            if r.consent == Some(true) then r.boot == StartingClient && r.starting else r.boot == Booted && r.pending == []
  {
    hide Inv, Settle, Advances, StartClient;
    if w.consent != Some(true) {
      var booted := w.(pending := [], boot := Booted);
      BootedMoves(w, []);
      SettleBoots(booted);
      SettleKeepsNoLine(booted);
      AnalyticsConsent.SettleHush(booted);
      AnalyticsConsent.HushAnswers(booted, Settle(booted));
    } else {
      StartsClient(w.(boot := StartingClient));
    }
  }

  /** An empty line stays empty while nobody has said yes. */
  lemma SettleKeepsNoLine(w: SeamState)
    requires Inv(w) && w.consent != Some(true) && w.pending == []
    ensures Settle(w).pending == []
  {
    if w.consent.None? {
      UnansweredIsClosed(w);
      UnheldLine(w);
      hide Unheld, Funnel;
    } else {
      assert w.consent == Some(w.consent.value) && !w.consent.value;
      NoIsOff(w);
      AnalyticsConsent.SettleHush(w);
      OffLine(w, Settle(w));
      hide Settle;
    }
  }

  lemma UnansweredIsClosed(w: SeamState)
    requires Inv(w) && w.consent.None?
    ensures Funnel(w) == Held || Funnel(w) == Closed
  {
  }

  lemma UnheldLine(w: SeamState)
    ensures Unheld(w).pending == w.pending
  {
  }

  lemma NoIsOff(w: SeamState)
    requires Inv(w) && w.consent == Some(false) && w.pending == []
    ensures AnalyticsConsent.Off(w)
  {
  }

  lemma OffLine(w: SeamState, r: SeamState)
    requires AnalyticsConsent.Off(w) && AnalyticsConsent.Hush(w, r)
    ensures r.pending == []
  {
  }

  lemma StartsClient(w: SeamState)
    requires w.hasKey
    ensures var r := StartClient(w); r.starting && r.boot == w.boot && r.consent == w.consent && r.nextTask == w.nextTask
  {
  }

  lemma YesStarts(w: SeamState, e: Event)
    requires Enabled(w, e) && e.ConsentSet? && e.on && !w.started && w.hasKey
    ensures Step(w, e).starting && Starts(w, Step(w, e), Consenting(e.here, w.consent))
  {
    hide ApplyConsent, Starts;
    StepDecides(w, e);
    hide Step, Enabled;
    AnswerStarts(w, e.recorded, e.here);
  }

  lemma AnswerStarts(w: SeamState, recorded: bool, here: bool)
    requires !w.started && w.hasKey
    ensures var r := ApplyConsent(w, true, recorded, here); r.starting && Starts(w, r, Consenting(here, w.consent))
  {
    YesSpawns(w, recorded, here);
    hide ApplyConsent, StartClient, Starts, Spawn;
    if recorded {
      StartsConsenting(w, w.(answered := Some(true)).(consent := Some(true)), here, w.consent);
    } else {
      StartsConsenting(w, w.(consent := Some(true)), here, w.consent);
    }
  }

  lemma StartsConsenting(w: SeamState, on: SeamState, here: bool, was: Option<bool>)
    requires on.hasKey && on.nextTask == w.nextTask
    ensures var r := Spawn(StartClient(on), Consenting(here, was)); r.starting && Starts(w, r, Consenting(here, was))
  {
    StartsClient(on);
    hide StartClient, Starts, Spawn;
    SpawnStarts(StartClient(on), Consenting(here, was));
    SpawnStaysStarting(StartClient(on), Consenting(here, was));
    StartsLater(w, StartClient(on), Spawn(StartClient(on), Consenting(here, was)), Consenting(here, was));
  }

  lemma SpawnStaysStarting(w: SeamState, task: Task)
    ensures Spawn(w, task).starting == w.starting
  {
  }

  lemma YesSpawns(w: SeamState, recorded: bool, here: bool)
    requires !w.started
    ensures var told := if recorded then w.(answered := Some(true)) else w;
            ApplyConsent(w, true, recorded, here) == Spawn(StartClient(told.(consent := Some(true))), Consenting(here, w.consent))
  {
    hide StartClient, Spawn, ConsentOn, TurnOff;
  }

  lemma StartBringsUp(w: SeamState, e: Event)
    requires Inv(w) && Enabled(w, e) && e.StartReply?
    ensures Step(w, e).started
  {
    ClientUpMoves(w, e.installKnown);
    UpIsStarted(w, e.installKnown);
    AnalyticsIdentity.StepsHandle(w, e);
    hide Inv, Advances, Flush, Step, Constructed;
    var up := ClientUp(w, e.installKnown);
    if w.consent == Some(true) {
      FlushMoves(up, w.pending);
      AdvancesAdopted(up, Flush(up, w.pending));
    }
  }

  lemma UpIsStarted(w: SeamState, installKnown: bool)
    ensures var own := Constructed(w, installKnown); own.started && own.consent == w.consent && own.pending == w.pending
    ensures ClientUp(w, installKnown).started
  {
    hide BootstrapId, PersistedAsSomeone;
    var up := Bootstrapped(w, installKnown);
    assert ResetClient(up).started && ResetClient(up).consent == w.consent && ResetClient(up).pending == w.pending;
  }

  lemma BootEnds(w: SeamState, e: Event)
    requires Inv(w) && Enabled(w, e) && e.BootResumes?
    ensures Step(w, e).boot == Booted
  {
    hide Inv, Settle, Track, Advances;
    StepDecides(w, e);
    hide Step, Enabled;
    var booted := w.(boot := Booted);
    BootedMoves(w, w.pending);
    SettleBoots(booted);
    TrackBoots(Settle(booted));
  }

  lemma TrackBoots(w: SeamState)
    ensures Track(w, FirstLaunched).boot == w.boot
  {
  }
}
