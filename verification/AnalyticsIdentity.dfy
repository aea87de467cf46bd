/**
 Who a window's events are filed under: no two accounts are ever merged into
 one person, a sign-out takes the account's id off the client, and a session
 that could not be read takes nothing off.
 */
module AnalyticsIdentity {
  import opened Options
  import opened AnalyticsState
  import opened AnalyticsInvariant
  import opened AnalyticsSteps
  import opened AnalyticsTheorems

  /** Over a whole launch of a window: no id is merged twice, so into one account at most; every merge
      after the first is of an id drawn by a reset; none is of an account's id; and a drawn id that is
      merged files no event, ever. */
  lemma NoTwoAccountsMerged(states: seq<SeamState>, events: seq<Event>, i: nat)
    requires IsRun(states, events) && Launch(states[0]) && i < |states|
    ensures var log := states[i].log;
            && (forall j, k :: 0 <= j < k < |log| && log[j].Merged? && log[k].Merged? ==>
                  log[j].from != log[k].from && Drawn(states[i].window, log[k].from))
            && (forall j :: 0 <= j < |log| && log[j].Merged? ==>
                  && !log[j].from.Account?
                  && (Drawn(states[i].window, log[j].from) ==>
                        forall k :: 0 <= k < |log| ==> FiledAs(log[k]) != Some(log[j].from)))
  {
    hide IsRun, Launch, GateInv, HeldOk, ClaimsOk;
    RunKeepsInv(states, events, i);
  }

  // ---- Where a window stands ----

  /** The client's id, and everything that decides it. */
  datatype Standing = Standing(
    window: nat, started: bool, adopted: bool, id: Id, draws: nat,
    identifiedAs: Option<Sub>, storedSub: Option<Sub>, ever: bool, installKnown: bool, session: Option<Facts>)

  function Stands(w: SeamState): Standing {
    Standing(w.window, w.started, w.adopted, w.client.id, w.draws,
             w.identifiedAs, w.storedSub, w.everIdentified, w.installKnown, w.session)
  }

  lemma SpawnStands(w: SeamState, task: Task)
    ensures Stands(Spawn(w, task)) == Stands(w)
  {
  }

  lemma CaptureStands(w: SeamState, what: What)
    ensures Stands(Capture(w, what)) == Stands(w)
  {
  }

  lemma ApplyGroupStands(w: SeamState)
    ensures Stands(ApplyGroup(w)) == Stands(w)
  {
  }

  lemma TrackStands(w: SeamState, m: Milestone)
    ensures Stands(Track(w, m)) == Stands(w)
  {
  }

  lemma SpendSessionStands(w: SeamState)
    ensures Stands(SpendSession(w)) == Stands(w)
  {
  }

  lemma PersistStands(w: SeamState)
    ensures Stands(Persist(w)) == Stands(w)
  {
  }

  lemma OrgArrivedStands(w: SeamState)
    ensures Stands(OrgArrived(w)) == Stands(w)
  {
    hide ApplyGroup;
    ApplyGroupStands(w);
  }

  lemma SpendMarkerStands(w: SeamState, m: Milestone)
    ensures Stands(SpendMarker(w, m)) == Stands(w)
  {
  }

  lemma RunStands(w: SeamState, item: Item)
    ensures Stands(Run(w, item)) == Stands(w)
  {
    hide Spawn, Capture;
    match item
    case MilestoneItem(m) => SpawnStands(w, OrgWait(m, CurrentOrg(w).Some?));
    case FailureItem(report) => CaptureStands(w, FailureSent(report));
    case CoworkItem => SpawnStands(w, Checking);
  }

  lemma SpendStands(w: SeamState, item: Item)
    ensures Stands(Spend(w, item)) == Stands(w)
  {
    hide SpendMarker;
    if item.MilestoneItem? { SpendMarkerStands(w, item.milestone); }
  }

  lemma RunAllStands(w: SeamState, items: seq<Item>)
    ensures Stands(RunAll(w, items)) == Stands(w)
    decreases |items|
  {
    hide Run, Stands;
    if items != [] {
      RunStands(w, items[0]);
      RunAllStands(Run(w, items[0]), items[1..]);
    }
  }

  lemma SpendAllStands(w: SeamState, items: seq<Item>)
    ensures Stands(SpendAll(w, items)) == Stands(w)
    decreases |items|
  {
    hide Spend, Stands;
    if items != [] {
      SpendStands(w, items[0]);
      SpendAllStands(Spend(w, items[0]), items[1..]);
    }
  }

  /** Synced: the client moves to the stored account, or to a fresh id when there is none. */
  function Synced(s: Standing): Standing {
    if !s.started || s.storedSub == s.identifiedAs then s
    else s.(id := if s.storedSub.Some? then Account(s.storedSub.value) else Fresh(s.window, s.draws),
            draws := s.draws + 1, identifiedAs := s.storedSub)
  }

  lemma SyncToStoredStands(w: SeamState)
    ensures Stands(SyncToStored(w)) == Synced(Stands(w))
  {
    hide ApplyGroup, Funnel;
    if w.started && w.storedSub != w.identifiedAs {
      var blank := ResetClient(w);
      var moved := if w.storedSub.Some? then Identify(blank, w.storedSub.value) else blank;
      ApplyGroupStands(moved.(identifiedAs := w.storedSub));
    }
  }

  // ---- Leaving an account ----

  /** What a broadcast naming no account does to a client that is up. */
  lemma SignOutBroadcast(w: SeamState, next: Identity)
    requires Inv(w) && w.started && next.sub.None?
    ensures var r := FollowIdentity(w, next);
            && r.client.id == (if w.identifiedAs.Some? || (r.everIdentified && PersistedAsSomeone(w))
                               then Fresh(w.window, w.draws) else w.client.id)
            && r.identifiedAs.None? && r.storedSub.None?
            && r.everIdentified == (w.everIdentified || next.ever)
  {
    hide Inv, Funnel, SyncToStored, ApplyGroup, OrgArrived;
    var told := w.(storedSub := next.sub, storedOrg := next.org, storedMode := next.mode,
                   everIdentified := w.everIdentified || next.ever);
    SyncToStoredStands(told);
    var synced := SyncToStored(told);
    var moved :=
      if synced.storedSub.None? && synced.identifiedAs.None? && synced.everIdentified && synced.started && PersistedAsSomeone(synced)
      then ResetClient(synced) else synced;
    SubsImplyEver(w);
    ApplyGroupStands(moved);
    OrgArrivedStands(ApplyGroup(moved));
  }

  /** A client still files under an account, or under an install id that is somebody's. */
  predicate OnSomebody(w: SeamState) {
    w.client.id.Account? || (w.everIdentified && w.client.id == Install)
  }

  lemma BroadcastLeavesSomebodyIff(w: SeamState, next: Identity)
    requires Inv(w) && w.started && next.sub.None?
    ensures OnSomebody(FollowIdentity(w, next)) <==>
            && w.identifiedAs.None? && !w.installKnown
            && (if w.everIdentified || next.ever then w.client.id == Install else w.client.id.Account?)
  {
    SignOutBroadcast(w, next);
    UnnamedAccount(w);
    hide Inv, FollowIdentity;
  }

  /** The promise of a sign-out broadcast, at any point of any run, and exactly when it is kept: the one
      client it leaves on somebody is one that never was identified by this launch, could not read its
      install id, and came up on what posthog-js had stored. */
  lemma SignOutLeavesSomebodyIff(states: seq<SeamState>, events: seq<Event>, i: nat)
    requires IsRun(states, events) && Launch(states[0]) && i < |events| && states[i].started
    requires events[i].IdentityBroadcast? && events[i].next.sub.None?
    ensures var w := states[i];
            OnSomebody(states[i + 1]) <==>
            && w.identifiedAs.None? && !w.installKnown
            && (if w.everIdentified || events[i].next.ever then w.client.id == Install else w.client.id.Account?)
  {
    hide Step, Inv, FollowIdentity, OnSomebody;
    RunKeepsInv(states, events, i);
    StepsHandle(states[i], events[i]);
    BroadcastLeavesSomebodyIff(states[i], events[i].next);
  }

  lemma UnnamedAccount(w: SeamState)
    requires Inv(w)
    ensures w.started && w.identifiedAs.None? && w.client.id.Account? ==> !w.installKnown
  {
  }

  /** A known end of the session, or an API key taking over, noted at any point of any run, moves an
      identified client to a fresh id, on the spot. */
  lemma SignOutNoted(states: seq<SeamState>, events: seq<Event>, i: nat)
    requires IsRun(states, events) && Launch(states[0]) && i < |events| && events[i].SessionNoted?
    requires states[i].started && states[i].identifiedAs.Some?
    requires !events[i].facts.unknown && (!events[i].facts.signedIn || events[i].facts.mode == Some(ApiKey))
    ensures states[i + 1].client.id == Fresh(states[i].window, states[i].draws)
    ensures states[i + 1].identifiedAs.None?
  {
    hide Step, Inv, NoteSession;
    RunKeepsInv(states, events, i);
    StepsHandle(states[i], events[i]);
    NoteLeavesAccount(states[i], events[i].facts);
  }

  lemma NoteLeavesAccount(w: SeamState, f: Facts)
    requires Inv(w) && w.started && w.identifiedAs.Some?
    requires !f.unknown && (!f.signedIn || f.mode == Some(ApiKey))
    ensures NoteSession(w, f).client.id == Fresh(w.window, w.draws)
    ensures NoteSession(w, f).identifiedAs.None?
  {
    StartedAdopted(w);
    hide Inv, Funnel, SyncToStored, Persist, ApplySession, SpendSession, OrgArrived;
    var noted := w.(session := Some(f));
    var synced := SyncToStored(noted.(storedSub := None));
    SyncToStoredStands(noted.(storedSub := None));
    var left := synced.(identifiedAs := None, lastPersisted := None);
    SettlesWhereItStands(left, Persist(left));
  }

  /** What a session note does after it has left an account moves a steady client no further. */
  lemma SettlesWhereItStands(left: SeamState, saved: SeamState)
    requires saved == Persist(left) && Steady(left)
    ensures Stands(OrgArrived(match Funnel(saved)
                              case Open => ApplySession(saved)
                              case Refused => SpendSession(saved)
                              case _ => saved)) == Stands(left)
  {
    hide Funnel, Persist, ApplySession, SpendSession, OrgArrived;
    PersistStands(left);
    OpenIsStarted(saved);
    if saved.started { ApplySessionStands(saved); }
    SpendSessionStands(saved);
    OrgArrivedStands(ApplySession(saved));
    OrgArrivedStands(SpendSession(saved));
    OrgArrivedStands(saved);
  }

  lemma StartedAdopted(w: SeamState)
    requires Inv(w)
    ensures w.started ==> w.adopted
  {
  }

  lemma ApplySessionStands(w: SeamState)
    requires LiveSub(w).None? || LiveSub(w) == w.identifiedAs
    ensures LiveSub(w).Some? ==> Stands(ApplySession(w)) == Stands(w)
    ensures LiveSub(w).None? ==> Stands(ApplySession(w)) == Synced(Stands(w))
  {
    hide SyncToStored, ApplyGroup, SpendSession;
    SyncToStoredStands(w);
    var moved := if LiveSub(w).Some? then w else SyncToStored(w);
    ApplyGroupStands(moved);
    SpendSessionStands(ApplyGroup(moved));
  }

  // ---- Staying on an account ----

  /** Nothing the session or the record says would move this client. */
  predicate Steady(w: SeamState) {
    !w.started || (w.storedSub == w.identifiedAs && (LiveSub(w).None? || LiveSub(w) == w.identifiedAs))
  }

  lemma SteadySame(w: SeamState, r: SeamState)
    ensures Steady(w) && Stands(r) == Stands(w) ==> Steady(r)
  {
  }

  lemma OpenIsStarted(w: SeamState)
    ensures Funnel(w) == Open ==> w.started
  {
  }

  lemma UnheldStands(w: SeamState)
    ensures Stands(Unheld(w)) == Stands(w)
  {
  }

  lemma SettleStands(w: SeamState)
    requires Steady(w)
    ensures Stands(Settle(w)) == Stands(w)
  {
    hide Funnel, ApplySession, SpendSession, RunAll, SpendAll, Unheld;
    OpenIsStarted(w);
    UnheldStands(w);
    SteadySame(w, Unheld(w));
    var empty := Unheld(w);
    if Funnel(w) == Open { ApplySessionStands(empty); }
    RunAllStands(ApplySession(empty), w.held);
    SpendSessionStands(empty);
    SpendAllStands(SpendSession(empty), w.held);
  }

  lemma ConsentOnStands(w: SeamState, here: bool, was: Option<bool>)
    requires Steady(w)
    ensures Stands(ConsentOn(w, here, was)) == Stands(w)
  {
    hide Settle, Stands, Steady, Capture, Capturing;
    CaptureStands(w, OptIn);
    SteadySame(w, AnnounceOptIn(w));
    SettleStands(if here && was == Some(false) && w.answered == Some(true) then AnnounceOptIn(w) else w);
  }

  lemma StartClientStands(w: SeamState)
    ensures Stands(StartClient(w)) == Stands(w)
  {
  }

  lemma OptOutClientStands(w: SeamState)
    ensures Stands(OptOutClient(w)) == Stands(w)
  {
  }

  lemma TurnOffStands(w: SeamState, record: bool)
    requires Steady(w)
    ensures Stands(TurnOff(w, record)) == Stands(w)
  {
    hide Settle, Spawn, OptOutClient, Steady;
    var quiet := w.(consent := Some(false), enabled := false, pending := []);
    var off := OptOutClient(quiet);
    OptOutClientStands(quiet);
    SpawnStands(off, OptOutClaim);
    var last := if record then Spawn(off, OptOutClaim) else off;
    SteadySame(w, last);
    SettleStands(last);
  }

  lemma TurnOnStands(w: SeamState, here: bool)
    requires Steady(w)
    ensures Stands(TurnOn(w, here)) == Stands(w)
  {
    hide ConsentOn, Spawn, StartClient, Steady;
    var told := w.(consent := Some(true));
    var up := told.(client := told.client.(optedOut := false), enabled := true);
    if !w.started {
      StartClientStands(told);
      SpawnStands(StartClient(told), Consenting(here, w.consent));
    } else if w.enabled {
      SteadySame(w, told);
      ConsentOnStands(told, here, w.consent);
    } else {
      SteadySame(w, up);
      ConsentOnStands(up, here, w.consent);
    }
  }

  lemma ApplyConsentStands(w: SeamState, on: bool, recorded: bool, here: bool)
    requires Steady(w)
    ensures Stands(ApplyConsent(w, on, recorded, here)) == Stands(w)
  {
    hide TurnOn, TurnOff, Steady;
    var told := if recorded then w.(answered := Some(true)) else w;
    SteadySame(w, told);
    TurnOnStands(told, here);
    TurnOffStands(told, here && w.consent == Some(true) && w.hasKey);
  }

  lemma BootDecidesStands(w: SeamState)
    requires Steady(w)
    ensures Stands(BootDecides(w)) == Stands(w)
  {
    hide Settle, StartClient, Steady;
    SteadySame(w, w.(pending := [], boot := Booted));
    if w.consent != Some(true) { SettleStands(w.(pending := [], boot := Booted)); }
    StartClientStands(w.(boot := StartingClient));
  }

  lemma PreferencesReadStands(w: SeamState, prefs: Option<Preferences>)
    requires Steady(w)
    ensures Stands(PreferencesRead(w, prefs)) == Stands(w)
  {
    hide BootDecides, Steady;
    var consent := w.consent.OrElse(if prefs.Some? then Some(prefs.value.share) else None);
    var answered := w.answered.OrElse(if prefs.Some? then Some(prefs.value.recorded) else None);
    SteadySame(w, w.(consent := consent, answered := answered));
    BootDecidesStands(w.(consent := consent, answered := answered));
  }

  lemma FinishBootStands(w: SeamState)
    requires Steady(w)
    ensures Stands(FinishBoot(w)) == Stands(w)
  {
    hide Settle, Track, Steady;
    SteadySame(w, w.(boot := Booted));
    SettleStands(w.(boot := Booted));
    TrackStands(Settle(w.(boot := Booted)), FirstLaunched);
  }

  lemma OfferStands(w: SeamState, item: Item)
    ensures Stands(Offer(w, item)) == Stands(w)
  {
    hide Run, Spend, Funnel;
    RunStands(w, item);
    SpendStands(w, item);
  }

  lemma EnterStands(w: SeamState, item: Item)
    ensures Stands(Enter(w, item)) == Stands(w)
  {
    hide Offer, Funnel;
    OfferStands(w, item);
    if item.MilestoneItem? { OfferStands(w.(heldMarkers := w.heldMarkers + {item.milestone}), item); }
  }

  lemma OrgWaitedStands(w: SeamState, m: Milestone)
    ensures Stands(OrgWaited(w, m)) == Stands(w)
  {
    hide ApplyGroup, Spawn, SpendMarker;
    SpendMarkerStands(w, m);
    ApplyGroupStands(w);
    SpawnStands(ApplyGroup(w).(asked := ApplyGroup(w).asked + {m}), SendClaim(m));
  }

  lemma ClaimedStands(w: SeamState, id: nat, task: Task, answer: ClaimAnswer, report: Option<nat>)
    ensures Stands(Claimed(w, id, task, answer, report)) == Stands(w)
  {
    hide Offer, Capture;
    if task.SendClaim? { CaptureStands(w, MilestoneSent(task.milestone, id)); }
    if report.Some? { OfferStands(w, FailureItem(report.value)); }
  }

  lemma FinishStands(w: SeamState, id: nat)
    ensures Stands(Finish(w, id)) == Stands(w)
  {
  }

  lemma BaseEventStands(w: SeamState, event: nat)
    ensures Stands(BaseEvent(w, event)) == Stands(w)
  {
    CaptureStands(w, Base(event));
    hide Capture, Deciding;
    if w.enabled {
    } else if Deciding(w) && w.consent != Some(false) && |w.pending| < PENDING_CAP {
      QueuedStands(w, w.pending + [event]);
    } else {
    }
  }

  lemma QueuedStands(w: SeamState, pending: seq<nat>)
    ensures Stands(w.(pending := pending)) == Stands(w)
  {
  }

  lemma BeginBootStands(w: SeamState)
    ensures Stands(BeginBoot(w)) == Stands(w)
  {
    if w.hasKey {
    } else {
    }
  }

  lemma SaveAnsweredStands(w: SeamState, next: Identity, answer: SaveAnswer)
    ensures Stands(SaveAnswered(w, next, answer)) == Stands(w)
  {
    hide Forgotten;
    if answer == Saved {
    } else if answer == NotLive || w.retryArmed || w.retries >= PERSIST_RETRY_MAX {
    } else {
    }
  }

  lemma DisarmedStands(w: SeamState)
    ensures Stands(w.(retryArmed := false)) == Stands(w)
  {
  }

  lemma TimedOutStands(w: SeamState, tasks: map<nat, Task>)
    ensures Stands(w.(tasks := tasks)) == Stands(w)
  {
  }

  /** Apart from a session note, a broadcast, and the two reads of a start, no step moves a steady client. */
  lemma StepStands(w: SeamState, e: Event)
    requires Enabled(w, e) && Steady(w)
    requires !e.SessionNoted? && !e.IdentityBroadcast? && !e.IdentityReply? && !e.StartReply?
    ensures Stands(Step(w, e)) == Stands(w)
  {
    hide Stands, Steady, BeginBoot, SaveAnswered, PreferencesRead, FinishBoot, ApplyConsent, ConsentOn, Track, Persist, Spawn,
      Enter, OrgWaited, Claimed, BaseEvent, Offer, Finish;
    match e
    case InitAnalytics => BeginBootStands(w);
    case PreferencesReply(prefs) => PreferencesReadStands(w, prefs);
    case BootResumes => FinishBootStands(w);
    case ConsentSet(on, recorded, here) => ApplyConsentStands(w, on, recorded, here);
    case ConsentResumes(id) =>
      FinishStands(w, id);
      SteadySame(w, Finish(w, id));
      ConsentOnStands(Finish(w, id), w.tasks[id].here, w.tasks[id].was);
    case SaveReply(id, answer) => FinishStands(w, id); SaveAnsweredStands(Finish(w, id), w.tasks[id].next, answer);
    case RetryTimer => DisarmedStands(w); PersistStands(w.(retryArmed := false));
    case MilestoneReached(m) => TrackStands(w, m);
    case CoworkToolConnected => SpawnStands(w, Waiting(CoworkItem, w.boot != NotBooted));
    case WaitOver(id) => FinishStands(w, id); EnterStands(Finish(w, id), w.tasks[id].item);
    case OrgTimer(id) => TimedOutStands(w, w.tasks[id := OrgWait(w.tasks[id].milestone, true)]);
    case OrgResumes(id) => FinishStands(w, id); OrgWaitedStands(Finish(w, id), w.tasks[id].milestone);
    case CoworkReply(id, detail) =>
      FinishStands(w, id);
      if detail.Some? { SpawnStands(Finish(w, id), CoworkClaim(detail.value)); }
    case ClaimReply(id, answer, report) =>
      FinishStands(w, id);
      ClaimedStands(Finish(w, id), id, w.tasks[id], answer, report);
    case Tracked(event) => BaseEventStands(w, event);
    case ConnectionFailed(failure) => OfferStands(w, FailureItem(failure));
  }

  /** A session note that says nothing against account `a`: unreadable, or signed in and not as another. */
  predicate Agrees(f: Facts, a: Sub) {
    if f.unknown then !f.signedIn
    else f.signedIn && f.mode != Some(ApiKey) && (f.mode == Some(OAuth) && f.sub.Some? ==> f.sub == Some(a))
  }

  /** The client is up, on account `a`, and neither the record nor the session says otherwise. */
  predicate OnAccount(w: SeamState, a: Sub) {
    && w.started && w.adopted && w.client.id == Account(a)
    && w.identifiedAs == Some(a) && w.storedSub == Some(a)
    && (w.session.Some? ==> Agrees(w.session.value, a))
  }

  /** An event that is no reason to leave account `a`. */
  predicate NoReasonToLeave(e: Event, a: Sub) {
    && (e.SessionNoted? ==> Agrees(e.facts, a))
    && (e.IdentityBroadcast? ==> e.next.sub == Some(a))
  }

  lemma OnAccountSteady(w: SeamState, a: Sub)
    requires OnAccount(w, a)
    ensures Steady(w)
  {
  }

  lemma NoteSessionStays(w: SeamState, f: Facts, a: Sub)
    requires OnAccount(w, a) && Agrees(f, a)
    ensures Stands(NoteSession(w, f)) == Stands(w).(session := Some(f))
  {
    hide Funnel, Persist, ApplySession, SpendSession, OrgArrived;
    var noted := w.(session := Some(f));
    PersistStands(noted);
    var saved := Persist(noted);
    if !f.unknown {
      ApplySessionStands(saved);
      SpendSessionStands(saved);
      OrgArrivedStands(ApplySession(saved));
      OrgArrivedStands(SpendSession(saved));
      OrgArrivedStands(saved);
    }
  }

  lemma FollowIdentityStays(w: SeamState, next: Identity, a: Sub)
    requires OnAccount(w, a) && next.sub == Some(a)
    ensures Stands(FollowIdentity(w, next)) == Stands(w).(ever := w.everIdentified || next.ever)
  {
    hide Funnel, SyncToStored, ApplyGroup, OrgArrived;
    var told := w.(storedSub := next.sub, storedOrg := next.org, storedMode := next.mode,
                   everIdentified := w.everIdentified || next.ever);
    SyncToStoredStands(told);
    var synced := if next.sub.None? || Funnel(told) == Open then SyncToStored(told) else told;
    assert Stands(synced) == Stands(told);
    ApplyGroupStands(synced);
    OrgArrivedStands(ApplyGroup(synced));
  }

  lemma StepStays(w: SeamState, e: Event, a: Sub)
    requires Enabled(w, e) && OnAccount(w, a) && NoReasonToLeave(e, a)
    ensures OnAccount(Step(w, e), a) && Step(w, e).draws == w.draws
  {
    hide Step;
    OnAccountSteady(w, a);
    if e.SessionNoted? {
      NoteSessionStays(w, e.facts, a);
      assert Step(w, e) == NoteSession(w, e.facts) by { StepsHandle(w, e); }
    } else if e.IdentityBroadcast? {
      FollowIdentityStays(w, e.next, a);
      assert Step(w, e) == FollowIdentity(w, e.next) by { StepsHandle(w, e); }
    } else {
      StepStands(w, e);
    }
    hide NoteSession, FollowIdentity;
  }

  lemma StepsHandle(w: SeamState, e: Event)
    requires Enabled(w, e)
    ensures e.SessionNoted? ==> Step(w, e) == NoteSession(w, e.facts)
    ensures e.IdentityBroadcast? ==> Step(w, e) == FollowIdentity(w, e.next)
    ensures e.StartReply? ==> Step(w, e) == ClientStarted(w, e.installKnown)
  {
    hide NoteSession, FollowIdentity, ClientStarted;
  }

  /** An identified client is never moved off its account by sessions that could not be read, nor
      by anything else short of a known sign-out, an API key, or a different live or stored account. */
  lemma {:induction false} UnreadableSessionsMoveNothing(states: seq<SeamState>, events: seq<Event>, a: Sub)
    requires IsRun(states, events) && OnAccount(states[0], a)
    requires forall e <- events :: NoReasonToLeave(e, a)
    ensures forall i :: 0 <= i < |states| ==>
              states[i].client.id == Account(a) && states[i].identifiedAs == Some(a) && states[i].draws == states[0].draws
  {
    hide Step, Enabled;
    var i := 0;
    while i < |events|
      invariant 0 <= i <= |events|
      invariant OnAccount(states[i], a)
      invariant forall j :: 0 <= j <= i ==>
                  states[j].client.id == Account(a) && states[j].identifiedAs == Some(a) && states[j].draws == states[0].draws
    {
      StepStays(states[i], events[i], a);
      i := i + 1;
    }
  }

  /** `e` can happen at `w` and takes it to `r`. */
  ghost predicate Follows(w: SeamState, e: Event, r: SeamState) {
    Enabled(w, e) && WellFormed(e) && r == Step(w, e)
  }

  // ---- What a sign-in merges ----

  lemma PersistSends(w: SeamState)
    ensures Persist(w).log == w.log && Funnel(Persist(w)) == Funnel(w) && Persist(w).session == w.session
  {
  }

  lemma TailSends(w: SeamState)
    ensures OrgArrived(SpendSession(ApplyGroup(w))).log == w.log
  {
    GroupSends(w);
    SpendSessionSilent(ApplyGroup(w));
    GroupSends(SpendSession(ApplyGroup(w)));
    hide ApplyGroup, SpendSession, CurrentOrg;
  }

  lemma GroupSends(w: SeamState)
    ensures ApplyGroup(w).log == w.log
  {
    hide Funnel;
  }

  /** What a sign-in as `sub` is due to merge: a drawn id if the install was identified before, otherwise
      the id the client is on, when that is nobody's. */
  function Due(w: SeamState, sub: Sub): seq<Entry> {
    if w.everIdentified then [Merged(Fresh(w.window, w.draws), sub)]
    else if w.client.id.Account? then []
    else [Merged(w.client.id, sub)]
  }

  /** A sign-in noted behind an open gate, at any point of any run, merges what is due and nothing else,
      and puts the client on the account. */
  lemma SignInMerges(states: seq<SeamState>, events: seq<Event>, i: nat)
    requires IsRun(states, events) && Launch(states[0]) && i < |events| && events[i].SessionNoted?
    requires Funnel(states[i]) == Open && states[i].adopted
    requires var f := events[i].facts;
             !f.unknown && f.signedIn && f.mode == Some(OAuth) && f.sub.Some? && states[i].identifiedAs != f.sub
    ensures states[i + 1].log == states[i].log + Due(states[i], events[i].facts.sub.value)
    ensures states[i + 1].client.id == Account(events[i].facts.sub.value)
  {
    hide Step, NoteSession, Funnel, Launch;
    StepsHandle(states[i], events[i]);
    NoteMerges(states[i], events[i].facts);
  }

  lemma NoteMerges(w: SeamState, f: Facts)
    requires w.adopted && Funnel(w) == Open && !f.unknown && f.signedIn && f.mode == Some(OAuth) && f.sub.Some?
    requires w.identifiedAs != f.sub
    ensures NoteSession(w, f).log == w.log + Due(w, f.sub.value)
    ensures NoteSession(w, f).client.id == Account(f.sub.value) && NoteSession(w, f).identifiedAs == f.sub
  {
    hide Funnel, Persist, ApplyGroup, SpendSession, OrgArrived;
    var noted := w.(session := Some(f));
    NotedFunnel(w, f);
    var saved := Persist(noted);
    PersistSends(noted);
    PersistStands(noted);
    var clean := if saved.everIdentified then ResetClient(saved) else saved;
    var named := Identify(clean, f.sub.value).(
      identifiedAs := f.sub, storedSub := f.sub, everIdentified := true, lastPersisted := None);
    PersistSends(named);
    PersistStands(named);
    var moved := Persist(named);
    TailSends(moved);
    ApplyGroupStands(moved);
    SpendSessionStands(ApplyGroup(moved));
    OrgArrivedStands(SpendSession(ApplyGroup(moved)));
    assert NoteSession(w, f) == OrgArrived(SpendSession(ApplyGroup(moved)));
  }

  lemma NotedFunnel(w: SeamState, f: Facts)
    ensures Funnel(w.(session := Some(f))) == Funnel(w)
  {
  }
}
