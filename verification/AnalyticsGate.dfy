/**
 What the gate holds back besides captures: no account, no merge and no
 organization is put on the client while the funnel is not open.
 */
module AnalyticsGate {
  import opened Options
  import opened AnalyticsState
  import opened AnalyticsInvariant
  import opened AnalyticsSteps
  import opened AnalyticsTheorems
  import opened AnalyticsIdentity
  import opened AnalyticsStart

  /** Nothing new is said of who the client is: no merge is asked for, no organization is put on it, and it
      is moved to no account. */
  ghost predicate Unmarked(w: SeamState, r: SeamState) {
    && w.log <= r.log && (forall k :: |w.log| <= k < |r.log| ==> !r.log[k].Merged?)
    && (r.client.group == w.client.group || r.client.group.None?)
    && (r.client.id == w.client.id || !r.client.id.Account?)
  }

  lemma UnmarkedTransitive(a: SeamState, b: SeamState, c: SeamState)
    requires Unmarked(a, b) && Unmarked(b, c)
    ensures Unmarked(a, c)
  {
    forall k | |a.log| <= k < |c.log| ensures !c.log[k].Merged? {
      if k < |b.log| { assert c.log[k] == b.log[k]; }
    }
  }

  lemma Untouched(w: SeamState, r: SeamState)
    requires r.log == w.log && r.client.id == w.client.id && r.client.group == w.client.group
    ensures Unmarked(w, r)
  {
  }

  // ---- Small stretches ----

  predicate SameName(w: SeamState, r: SeamState) {
    r.log == w.log && r.client == w.client
  }

  lemma SpawnNames(w: SeamState, task: Task)
    ensures SameName(w, Spawn(w, task))
  {
  }

  lemma TrackNames(w: SeamState, m: Milestone)
    ensures SameName(w, Track(w, m))
  {
  }

  lemma SpendSessionNames(w: SeamState)
    ensures SameName(w, SpendSession(w)) && Funnel(SpendSession(w)) == Funnel(w)
  {
  }

  lemma SpendNames(w: SeamState, item: Item)
    ensures SameName(w, Spend(w, item))
  {
  }

  lemma {:induction false} SpendAllNames(w: SeamState, items: seq<Item>)
    ensures SameName(w, SpendAll(w, items))
    decreases |items|
  {
    hide Spend;
    if items != [] {
      SpendNames(w, items[0]);
      SpendAllNames(Spend(w, items[0]), items[1..]);
    }
  }

  lemma CaptureUnmarked(w: SeamState, what: What)
    ensures Unmarked(w, Capture(w, what)) && Funnel(Capture(w, what)) == Funnel(w)
  {
  }

  lemma PersistNames(w: SeamState)
    ensures SameName(w, Persist(w)) && Funnel(Persist(w)) == Funnel(w)
  {
  }

  lemma ClosedGroup(w: SeamState)
    requires Funnel(w) != Open
    ensures ApplyGroup(w) == w && SameName(w, OrgArrived(w))
  {
    hide Funnel;
    assert ApplyGroup(w) == w;
    hide ApplyGroup;
    if CurrentOrg(w).Some? {
    } else {
    }
  }

  lemma OrgArrivedGate(w: SeamState)
    ensures Funnel(OrgArrived(w)) == Funnel(w)
  {
    GroupGate(w);
    WokenGate(ApplyGroup(w));
    hide Funnel, ApplyGroup, WakeOrgWaiters;
  }

  lemma GroupGate(w: SeamState)
    ensures Funnel(ApplyGroup(w)) == Funnel(w)
  {
  }

  lemma WokenGate(w: SeamState)
    ensures Funnel(WakeOrgWaiters(w)) == Funnel(w)
  {
  }

  lemma ResetUnmarked(w: SeamState)
    ensures Unmarked(w, ResetClient(w))
  {
  }

  /** Following a record that names nobody, behind a closed gate, only resets. */
  lemma ClosedSync(w: SeamState)
    requires Funnel(w) != Open && w.storedSub.None? && Inv(w)
    ensures Unmarked(w, SyncToStored(w)) && Funnel(SyncToStored(w)) == Funnel(w)
  {
    SyncToStoredKeeps(w);
    hide Inv, ApplyGroup, Funnel, Advances;
    if w.started && w.identifiedAs.Some? {
      var moved := ResetClient(w).(identifiedAs := None);
      ResetUnmarked(w);
      assert SyncToStored(w) == ApplyGroup(moved);
      GroupGate(moved);
      ClosedGroup(moved);
    } else {
      Untouched(w, w);
    }
  }

  // ---- The handlers ----

  lemma SettleGate(w: SeamState)
    requires Inv(w)
    ensures Funnel(Settle(w)) == Funnel(w)
    ensures Funnel(w) != Open ==> SameName(w, Settle(w))
  {
    hide Funnel, Inv, Advances, ApplySession, RunAll, SpendAll, SpendSession, Unheld;
    UnheldKeeps(w);
    UnheldNames(w);
    var empty := Unheld(w);
    match Funnel(w)
    case Held =>
    case Closed =>
    case Open =>
      OpenMeansStarted(w);
      ApplySessionKeeps(empty);
      RunAllKeeps(ApplySession(empty), w.held);
    case Refused =>
      SpendSessionKeeps(empty);
      SpendSessionNames(empty);
      SpendAllKeeps(SpendSession(empty), w.held);
      SpendAllNames(SpendSession(empty), w.held);
  }

  lemma UnheldNames(w: SeamState)
    ensures SameName(w, Unheld(w))
  {
  }

  /** The outcome each handler is shown to have: it says nothing new, or the gate is open behind it. */
  ghost predicate Gated(w: SeamState, r: SeamState) {
    Unmarked(w, r) || Funnel(r) == Open
  }

  lemma SettleGated(w: SeamState, before: SeamState)
    requires Inv(w) && Unmarked(before, w)
    ensures Gated(before, Settle(w))
  {
    hide Funnel, Inv, Settle, Unmarked;
    SettleGate(w);
    if Funnel(w) != Open {
      Untouched(w, Settle(w));
      UnmarkedTransitive(before, w, Settle(w));
    }
  }

  lemma NoteGated(w: SeamState, f: Facts)
    requires Inv(w)
    ensures Funnel(NoteSession(w, f)) == Funnel(w)
    ensures Gated(w, NoteSession(w, f))
  {
    var noted := w.(session := Some(f));
    NotedInv(w, f);
    NotedFunnel(w, f);
    Untouched(w, noted);
    if w.adopted && !f.unknown {
      LeaveGate(noted);
      var left := if LeftAccount(noted, f)
                  then SyncToStored(noted.(storedSub := None)).(identifiedAs := None, lastPersisted := None)
                  else noted;
      Untouched(noted, noted);
      LeaveMoves(noted);
      hide Inv, Funnel, SyncToStored, Persist, ApplySession, SpendSession, OrgArrived, LeftAccount, Advances, Unmarked;
      PersistNames(left);
      var saved := Persist(left);
      PersistKeeps(left);
      var settled := match Funnel(saved)
                     case Open => ApplySession(saved)
                     case Refused => SpendSession(saved)
                     case _ => saved;
      SpendSessionNames(saved);
      if Funnel(saved) == Open {
        OpenMeansStarted(saved);
        ApplySessionKeeps(saved);
      }
      OrgArrivedGate(settled);
      if Funnel(saved) != Open {
        Untouched(left, saved);
        Untouched(saved, settled);
        ClosedGroup(settled);
        Untouched(settled, OrgArrived(settled));
        UnmarkedTransitive(w, noted, left);
        UnmarkedTransitive(w, left, saved);
        UnmarkedTransitive(w, saved, settled);
        UnmarkedTransitive(w, settled, OrgArrived(settled));
      }
    }
    hide Inv, Funnel, Unmarked;
  }

  lemma LeaveGate(w: SeamState)
    requires Inv(w)
    ensures var r := SyncToStored(w.(storedSub := None)).(identifiedAs := None, lastPersisted := None);
            Funnel(r) == Funnel(w) && (Funnel(w) != Open ==> Unmarked(w, r))
  {
    var forgot := w.(storedSub := None);
    ForgetSubMoves(w);
    ForgottenGate(w);
    SyncToStoredKeeps(forgot);
    hide Inv, SyncToStored, Advances;
    if Funnel(w) != Open { ClosedSync(forgot); }
    UnnamedGate(SyncToStored(forgot));
    hide Funnel;
  }

  lemma ForgottenGate(w: SeamState)
    ensures Funnel(w.(storedSub := None)) == Funnel(w)
  {
  }

  lemma UnnamedGate(w: SeamState)
    ensures var r := w.(identifiedAs := None, lastPersisted := None); Funnel(r) == Funnel(w) && SameName(w, r)
  {
  }

  lemma ToldGate(w: SeamState, next: Identity)
    ensures var told := w.(storedSub := next.sub, storedOrg := next.org, storedMode := next.mode,
                           everIdentified := w.everIdentified || next.ever);
            Funnel(told) == Funnel(w) && SameName(w, told)
  {
  }

  lemma ResetGate(w: SeamState)
    requires Inv(w) && w.started && w.everIdentified
    ensures Funnel(ResetClient(w)) == Funnel(w)
  {
    ResetClientKeeps(w);
    ResetKeepsName(w);
    hide Inv, Advances, Mergeable;
    assert ResetClient(w).(identifiedAs := None).client == ResetClient(w).client;
  }

  lemma SyncedGate(told: SeamState, next: Identity)
    requires Inv(told) && told.storedSub == next.sub
    ensures var synced := if next.sub.None? || Funnel(told) == Open then SyncToStored(told) else told;
            Inv(synced) && Funnel(synced) == Funnel(told) && (Funnel(told) != Open ==> Unmarked(told, synced))
  {
    SyncToStoredKeeps(told);
    if Funnel(told) != Open && next.sub.None? { ClosedSync(told); }
    Untouched(told, told);
    hide Inv, Funnel, Advances, SyncToStored, Unmarked;
  }

  /** What a broadcast that names nobody makes of a client left on somebody's id. */
  function OffSomebody(w: SeamState): SeamState {
    if w.storedSub.None? && w.identifiedAs.None? && w.everIdentified && w.started && PersistedAsSomeone(w)
    then ResetClient(w) else w
  }

  lemma OffSomebodyGate(w: SeamState)
    requires Inv(w)
    ensures Funnel(OffSomebody(w)) == Funnel(w) && Unmarked(w, OffSomebody(w))
  {
    if w.started && w.everIdentified { ResetGate(w); }
    ResetUnmarked(w);
    Untouched(w, w);
    hide Inv, Funnel, ResetClient, PersistedAsSomeone, Unmarked;
  }

  lemma RegroupGate(w: SeamState)
    ensures var r := OrgArrived(ApplyGroup(w)); Funnel(r) == Funnel(w) && (Funnel(w) != Open ==> Unmarked(w, r))
  {
    GroupGate(w);
    OrgArrivedGate(ApplyGroup(w));
    if Funnel(w) != Open {
      ClosedGroup(w);
      Untouched(w, OrgArrived(w));
    }
    hide Funnel, ApplyGroup, OrgArrived, Unmarked;
  }

  lemma FollowGated(w: SeamState, next: Identity)
    requires Inv(w) && (next.sub.Some? ==> next.ever)
    ensures Gated(w, FollowIdentity(w, next))
  {
    hide Inv, Funnel, Advances, SyncToStored, ResetClient, PersistedAsSomeone, OrgArrived, ApplyGroup, Unmarked;
    var told := w.(storedSub := next.sub, storedOrg := next.org, storedMode := next.mode,
                   everIdentified := w.everIdentified || next.ever);
    ToldMoves(w, next);
    ToldGate(w, next);
    Untouched(w, told);
    var synced := if next.sub.None? || Funnel(told) == Open then SyncToStored(told) else told;
    SyncedGate(told, next);
    OffSomebodyGate(synced);
    var moved := OffSomebody(synced);
    RegroupGate(moved);
    assert FollowIdentity(w, next) == OrgArrived(ApplyGroup(moved));
    hide FollowIdentity, OffSomebody;
    if Funnel(w) != Open {
      UnmarkedTransitive(w, told, synced);
      UnmarkedTransitive(w, synced, moved);
      UnmarkedTransitive(w, moved, FollowIdentity(w, next));
    }
  }

  lemma ReadGated(w: SeamState, answer: Option<Identity>)
    requires Inv(w) && !w.adopted
    requires answer.Some? && answer.value.sub.Some? ==> answer.value.ever
    ensures Gated(w, IdentityRead(w, answer))
  {
    var known := (if answer.Some? then Adopt(w, answer.value) else w).(adopted := true);
    AdoptedInv(w, answer);
    StartedAdopted(w);
    AdoptedNames(w, answer);
    Untouched(w, known);
    if known.session.Some? {
      NoteGated(known, known.session.value);
      OpenIsStarted(known);
      hide Inv, NoteSession, Unmarked;
      UnmarkedTransitive(w, known, NoteSession(known, known.session.value));
    }
    hide Inv, NoteSession, Unmarked;
  }

  lemma AdoptedNames(w: SeamState, answer: Option<Identity>)
    ensures var known := (if answer.Some? then Adopt(w, answer.value) else w).(adopted := true);
            SameName(w, known) && known.started == w.started
  {
    if answer.Some? {
    } else {
    }
  }

  lemma ConsentOnGated(before: SeamState, w: SeamState, here: bool, was: Option<bool>)
    requires Inv(w) && Unmarked(before, w)
    ensures Gated(before, ConsentOn(w, here, was))
  {
    hide Inv, Settle, Unmarked, Capture, Capturing, Funnel, Advances;
    if w.answered == Some(true) && Capturing(w) { CaptureKeeps(w, OptIn); }
    CaptureUnmarked(w, OptIn);
    Untouched(w, w);
    var told := if here && was == Some(false) && w.answered == Some(true) then AnnounceOptIn(w) else w;
    UnmarkedTransitive(before, w, told);
    SettleGated(told, before);
  }

  lemma StartNames(w: SeamState)
    ensures SameName(w, StartClient(w))
  {
  }

  lemma TurnOnGated(before: SeamState, w: SeamState, here: bool)
    requires Inv(w) && Unmarked(before, w)
    ensures Gated(before, TurnOn(w, here))
  {
    hide Inv, ConsentOn, Spawn, StartClient, Unmarked, Funnel, Advances;
    var told := w.(consent := Some(true));
    var up := told.(client := told.client.(optedOut := false), enabled := true);
    Untouched(w, told);
    Untouched(w, up);
    UnmarkedTransitive(before, w, told);
    UnmarkedTransitive(before, w, up);
    if !w.started {
      StartNames(told);
      SpawnNames(StartClient(told), Consenting(here, w.consent));
      Untouched(told, Spawn(StartClient(told), Consenting(here, w.consent)));
      UnmarkedTransitive(before, told, TurnOn(w, here));
    } else if w.enabled {
      OnMoves(w);
      ConsentOnGated(before, told, here, w.consent);
    } else {
      OptInMoves(w);
      ConsentOnGated(before, up, here, w.consent);
    }
  }

  lemma TurnOffGated(before: SeamState, w: SeamState, record: bool)
    requires Inv(w) && Unmarked(before, w)
    ensures Gated(before, TurnOff(w, record))
  {
    hide Inv, Settle, Spawn, OptOutClient, Unmarked, Funnel, Advances;
    var quiet := w.(consent := Some(false), enabled := false, pending := []);
    var off := OptOutClient(quiet);
    OffMoves(w);
    OptOutNames(quiet);
    Untouched(w, off);
    SpawnKeeps(off, OptOutClaim);
    SpawnNames(off, OptOutClaim);
    var last := if record then Spawn(off, OptOutClaim) else off;
    Untouched(off, last);
    UnmarkedTransitive(before, w, off);
    UnmarkedTransitive(before, off, last);
    SettleGated(last, before);
  }

  lemma OptOutNames(w: SeamState)
    ensures var r := OptOutClient(w); r.log == w.log && r.client.id == w.client.id && r.client.group == w.client.group
  {
  }

  lemma ApplyConsentGated(w: SeamState, on: bool, recorded: bool, here: bool)
    requires Inv(w)
    ensures Gated(w, ApplyConsent(w, on, recorded, here))
  {
    hide Inv, TurnOn, TurnOff, Gated, Unmarked, Advances;
    var told := if recorded then w.(answered := Some(true)) else w;
    RecordedMoves(w);
    Untouched(w, told);
    TurnOnGated(w, told, here);
    TurnOffGated(w, told, here && w.consent == Some(true) && w.hasKey);
  }

  lemma BootDecidesGated(before: SeamState, w: SeamState)
    requires Inv(w) && Unmarked(before, w)
    ensures Gated(before, BootDecides(w))
  {
    hide Inv, Settle, StartClient, Unmarked, Funnel, Advances;
    if w.consent != Some(true) {
      var booted := w.(pending := [], boot := Booted);
      BootedMoves(w, []);
      Untouched(w, booted);
      UnmarkedTransitive(before, w, booted);
      SettleGated(booted, before);
    } else {
      StartNames(w.(boot := StartingClient));
      Untouched(w, StartClient(w.(boot := StartingClient)));
      UnmarkedTransitive(before, w, BootDecides(w));
    }
  }

  lemma PreferencesGated(w: SeamState, prefs: Option<Preferences>)
    requires Inv(w)
    ensures Gated(w, PreferencesRead(w, prefs))
  {
    hide BootDecides, Gated, Inv, Advances;
    var consent := w.consent.OrElse(if prefs.Some? then Some(prefs.value.share) else None);
    var answered := w.answered.OrElse(if prefs.Some? then Some(prefs.value.recorded) else None);
    AnsweredMoves(w, consent, answered);
    Untouched(w, w.(consent := consent, answered := answered));
    BootDecidesGated(w, w.(consent := consent, answered := answered));
  }

  lemma FinishBootGated(w: SeamState)
    requires Inv(w)
    ensures Gated(w, FinishBoot(w))
  {
    hide Inv, Settle, Track, Unmarked, Funnel, Advances;
    var booted := w.(boot := Booted);
    BootedMoves(w, w.pending);
    Untouched(w, booted);
    SettleGated(booted, w);
    SettleKeeps(booted);
    TrackKeeps(Settle(booted), FirstLaunched);
    TrackNames(Settle(booted), FirstLaunched);
    Untouched(Settle(booted), FinishBoot(w));
    if Unmarked(w, Settle(booted)) {
      UnmarkedTransitive(w, Settle(booted), FinishBoot(w));
    }
  }

  lemma OrgWaitedGated(w: SeamState, m: Milestone)
    ensures Gated(w, OrgWaited(w, m))
  {
    Untouched(w, w);
    SpendNames(w, MilestoneItem(m));
    if m in w.asked || w.consent == Some(false) || !Capturing(w) {
      Untouched(w, OrgWaited(w, m));
    } else {
      GroupGate(w);
      AskGate(ApplyGroup(w), m);
      if Funnel(w) != Open {
        ClosedGroup(w);
        Untouched(w, OrgWaited(w, m));
      }
    }
    hide Funnel, Unmarked;
  }

  lemma AskGate(w: SeamState, m: Milestone)
    ensures var r := Spawn(w.(asked := w.asked + {m}), SendClaim(m)); Funnel(r) == Funnel(w) && SameName(w, r)
  {
  }

  lemma RunUnmarked(w: SeamState, item: Item)
    ensures Unmarked(w, Run(w, item))
  {
    hide Unmarked, Spawn, Capture;
    Untouched(w, w);
    match item
    case MilestoneItem(m) =>
      SpawnNames(w, OrgWait(m, CurrentOrg(w).Some?));
      Untouched(w, Spawn(w, OrgWait(m, CurrentOrg(w).Some?)));
    case FailureItem(report) => CaptureUnmarked(w, FailureSent(report));
    case CoworkItem =>
      SpawnNames(w, Checking);
      Untouched(w, Spawn(w, Checking));
  }

  lemma HoldNames(w: SeamState, item: Item)
    ensures SameName(w, Hold(w, item))
  {
    if Offered(w, item) {
      var failures := w.heldFailures + if item.FailureItem? then 1 else 0;
      assert SameName(w, w.(held := w.held + [item], heldFailures := failures));
    }
  }

  lemma OfferUnmarked(w: SeamState, item: Item)
    ensures Unmarked(w, Offer(w, item))
  {
    hide Run, Spend, Hold, Funnel, Unmarked;
    RunUnmarked(w, item);
    SpendNames(w, item);
    HoldNames(w, item);
    Untouched(w, Spend(w, item));
    Untouched(w, Hold(w, item));
    Untouched(w, w);
  }

  lemma EnterUnmarked(w: SeamState, item: Item)
    ensures Unmarked(w, Enter(w, item))
  {
    hide Offer, Funnel, Unmarked;
    OfferUnmarked(w, item);
    Untouched(w, w);
    if item.MilestoneItem? {
      var noted := w.(heldMarkers := w.heldMarkers + {item.milestone});
      Untouched(w, noted);
      OfferUnmarked(noted, item);
      UnmarkedTransitive(w, noted, Offer(noted, item));
    }
  }

  lemma ClaimedUnmarked(w: SeamState, id: nat, task: Task, answer: ClaimAnswer, report: Option<nat>)
    ensures Unmarked(w, Claimed(w, id, task, answer, report))
  {
    hide Offer, Capture;
    if task.SendClaim? { CaptureUnmarked(w, MilestoneSent(task.milestone, id)); }
    if report.Some? { OfferUnmarked(w, FailureItem(report.value)); }
  }

  lemma BaseEventUnmarked(w: SeamState, event: nat)
    ensures Unmarked(w, BaseEvent(w, event))
  {
    CaptureUnmarked(w, Base(event));
    hide Capture, Deciding;
  }

  lemma SaveNames(w: SeamState, next: Identity, answer: SaveAnswer)
    ensures SameName(w, SaveAnswered(w, next, answer))
  {
    hide Forgotten;
    var last := Forgotten(w, next);
    if answer == Saved {
      assert SameName(w, w.(retries := 0));
    } else if answer == NotLive || w.retryArmed || w.retries >= PERSIST_RETRY_MAX {
      assert SameName(w, w.(lastPersisted := last));
    } else {
      assert SameName(w, w.(lastPersisted := last, retries := w.retries + 1, retryArmed := true));
    }
  }

  lemma FinishNames(w: SeamState, id: nat)
    ensures SameName(w, Finish(w, id))
  {
  }

  lemma BeginBootNames(w: SeamState)
    ensures SameName(w, BeginBoot(w))
  {
  }

  // ---- One step, any run ----

  lemma TaskGated(w: SeamState, e: Event)
    requires Enabled(w, e) && (e.WaitOver? || e.ClaimReply? || e.OrgResumes? || e.SaveReply? || e.CoworkReply?)
    ensures Gated(w, Step(w, e))
  {
    hide Unmarked, SaveAnswered, Spawn, Enter, OrgWaited, Claimed, Finish, Funnel;
    var base := Finish(w, e.id);
    FinishNames(w, e.id);
    Untouched(w, base);
    match e {
    case WaitOver(id) => EnterUnmarked(base, w.tasks[id].item);
    case ClaimReply(id, answer, report) => ClaimedUnmarked(base, id, w.tasks[id], answer, report);
    case OrgResumes(id) => OrgWaitedGated(base, w.tasks[id].milestone);
    case SaveReply(id, answer) =>
      SaveNames(base, w.tasks[id].next, answer);
      Untouched(base, SaveAnswered(base, w.tasks[id].next, answer));
    case CoworkReply(id, detail) =>
      Untouched(base, base);
      if detail.Some? {
        SpawnNames(base, CoworkClaim(detail.value));
        Untouched(base, Spawn(base, CoworkClaim(detail.value)));
      }
    }
    if Unmarked(base, Step(w, e)) { UnmarkedTransitive(w, base, Step(w, e)); }
  }

  /** Events that settle no promise and read neither record nor session. */
  predicate IsQuiet(e: Event) {
    || e.InitAnalytics? || e.RetryTimer? || e.MilestoneReached? || e.CoworkToolConnected?
    || e.OrgTimer? || e.Tracked? || e.ConnectionFailed?
  }

  lemma QuietGated(w: SeamState, e: Event)
    requires Enabled(w, e)
    requires IsQuiet(e)
    ensures Unmarked(w, Step(w, e))
  {
    hide Unmarked, BeginBoot, Persist, Track, Spawn, BaseEvent, Offer;
    match e
    case InitAnalytics => BeginBootNames(w); Untouched(w, BeginBoot(w));
    case RetryTimer => PersistNames(w.(retryArmed := false)); Untouched(w, Step(w, e));
    case MilestoneReached(m) => TrackNames(w, m); Untouched(w, Track(w, m));
    case CoworkToolConnected => SpawnNames(w, Waiting(CoworkItem, w.boot != NotBooted)); Untouched(w, Step(w, e));
    case OrgTimer(id) => Untouched(w, Step(w, e));
    case Tracked(event) => BaseEventUnmarked(w, event);
    case ConnectionFailed(failure) => OfferUnmarked(w, FailureItem(failure));
  }

  lemma StepGated(w: SeamState, e: Event)
    requires Inv(w) && Enabled(w, e) && WellFormed(e) && !e.StartReply?
    ensures Gated(w, Step(w, e))
  {
    hide Inv, Unmarked, Funnel, PreferencesRead, IdentityRead, FinishBoot, ApplyConsent, ConsentOn, NoteSession, FollowIdentity, Finish;
    if e.WaitOver? || e.ClaimReply? || e.OrgResumes? || e.SaveReply? || e.CoworkReply? {
      TaskGated(w, e);
    } else if IsQuiet(e) {
      QuietGated(w, e);
    } else {
      match e
      case PreferencesReply(prefs) => PreferencesGated(w, prefs);
      case IdentityReply(answer) => ReadGated(w, answer);
      case BootResumes => FinishBootGated(w);
      case ConsentSet(on, recorded, here) => ApplyConsentGated(w, on, recorded, here);
      case ConsentResumes(id) =>
        FinishInv(w, id);
        FinishNames(w, id);
        Untouched(w, Finish(w, id));
        ConsentOnGated(w, Finish(w, id), w.tasks[id].here, w.tasks[id].was);
      case SessionNoted(facts) => NoteGated(w, facts);
      case IdentityBroadcast(next) => FollowGated(w, next);
    }
  }

  lemma {:induction false} FlushNames(w: SeamState, queued: seq<nat>)
    ensures Flush(w, queued).client == w.client
    decreases |queued|
  {
    if queued != [] {
      CaptureKeepsClient(w, Base(queued[0]));
      FlushNames(Capture(w, Base(queued[0])), queued[1..]);
      hide Capture;
    }
  }

  lemma ConstructedGroup(w: SeamState, installKnown: bool)
    ensures var r := Constructed(w, installKnown); r.client.group == w.client.group || r.client.group.None?
  {
    ResetUnmarked(Bootstrapped(w, installKnown));
    hide PersistedAsSomeone, BootstrapId;
  }

  /** The start asks for no merge and groups the client under nothing. */
  lemma StartMarks(w: SeamState, installKnown: bool)
    ensures var r := ClientStarted(w, installKnown);
            && w.log <= r.log && (forall k :: |w.log| <= k < |r.log| ==> !r.log[k].Merged?)
            && (r.client.group == w.client.group || r.client.group.None?)
  {
    ConstructedStands(w, installKnown);
    StartSends(w, installKnown);
    ConstructedGroup(w, installKnown);
    StartKeepsGroup(w, installKnown);
    hide Constructed, ClientStarted;
    var r := ClientStarted(w, installKnown);
    forall k | |w.log| <= k < |r.log| ensures !r.log[k].Merged? {
      assert FiledAs(r.log[k]).Some?;
    }
  }

  lemma StartKeepsGroup(w: SeamState, installKnown: bool)
    ensures ClientStarted(w, installKnown).client.group == Constructed(w, installKnown).client.group
  {
    hide Flush, Constructed;
    var own := Constructed(w, installKnown);
    if own.consent == Some(true) {
      FlushNames(own.(client := own.client.(optedOut := false), enabled := true, pending := []), own.pending);
    } else {
    }
  }

  /** In every run, whatever puts an organization on the client, moves it to an account or asks for a merge
      leaves the funnel open, so the question answered, sharing on and the client delivering; except that
      the start of a client bootstraps a stored account, for which no merge is asked. */
  lemma IdentityIsGated(states: seq<SeamState>, events: seq<Event>, i: nat)
    requires IsRun(states, events) && Launch(states[0]) && i < |events|
    ensures var w, r := states[i], states[i + 1];
            && w.log <= r.log
            && ((exists k :: |w.log| <= k < |r.log| && r.log[k].Merged?) ==> Funnel(r) == Open)
            && (r.client.group.Some? && r.client.group != w.client.group ==> Funnel(r) == Open)
            && (!events[i].StartReply? && r.client.id.Account? && r.client.id != w.client.id ==> Funnel(r) == Open)
  {
    hide Step, Inv, Funnel, Enabled, Launch, StepGrows;
    RunKeepsInv(states, events, i);
    StepKeeps(states[i], events[i]);
    GrowsOn(states[i], events[i], states[i + 1]);
    if events[i].StartReply? {
      StepsHandle(states[i], events[i]);
      StartMarks(states[i], events[i].installKnown);
    } else {
      StepGated(states[i], events[i]);
    }
    hide ClientStarted;
  }

  lemma GrowsOn(w: SeamState, e: Event, r: SeamState)
    requires StepGrows(w, e, r)
    ensures w.log <= r.log
  {
  }
}
