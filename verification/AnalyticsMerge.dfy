/**
 When a window merges the install id into an account, exactly: which event
 does it, from which states. The history of an install builds on it.
 */
module AnalyticsMerge {
  import opened Options
  import opened AnalyticsState
  import opened AnalyticsInvariant
  import opened AnalyticsSteps
  import opened AnalyticsTheorems
  import opened AnalyticsIdentity
  import opened AnalyticsStart

  predicate FromInstall(entry: Entry) {
    entry.Merged? && entry.from == Install
  }

  /** `later`, which extends `log`, merges the install id in what it adds. */
  ghost predicate NewMerge(log: seq<Entry>, later: seq<Entry>) {
    exists k :: |log| <= k < |later| && FromInstall(later[k])
  }

  /** A stretch that adds to the log, but no merge of the install id. */
  ghost predicate Silent(w: SeamState, r: SeamState) {
    w.log <= r.log && !NewMerge(w.log, r.log)
  }

  lemma SilentTransitive(a: SeamState, b: SeamState, c: SeamState)
    requires Silent(a, b) && Silent(b, c)
    ensures Silent(a, c)
  {
    forall k | |a.log| <= k < |c.log| ensures !FromInstall(c.log[k]) {
      if k < |b.log| { assert c.log[k] == b.log[k]; }
    }
  }

  /** What follows silently, or comes before silently, does not decide whether a merge is new. */
  lemma ThenSilent(log: seq<Entry>, b: SeamState, c: SeamState)
    requires log <= b.log && Silent(b, c)
    ensures log <= c.log && (NewMerge(log, c.log) <==> NewMerge(log, b.log))
  {
    if NewMerge(log, b.log) {
      var k :| |log| <= k < |b.log| && FromInstall(b.log[k]);
      assert FromInstall(c.log[k]);
    }
    if NewMerge(log, c.log) {
      var k :| |log| <= k < |c.log| && FromInstall(c.log[k]);
      assert k < |b.log| && c.log[k] == b.log[k];
    }
  }

  lemma AfterSilent(a: SeamState, b: SeamState, later: seq<Entry>)
    requires Silent(a, b) && b.log <= later
    ensures a.log <= later && (NewMerge(a.log, later) <==> NewMerge(b.log, later))
  {
    forall k | |a.log| <= k < |b.log| ensures !FromInstall(later[k]) {
      assert later[k] == b.log[k];
    }
  }

  // ---- The handlers that merge nothing, or only ids they draw ----

  lemma SpawnSilent(w: SeamState, task: Task)
    ensures Spawn(w, task).log == w.log && Spawn(w, task).consent == w.consent
  {
  }

  lemma CaptureSilent(w: SeamState, what: What)
    ensures Silent(w, Capture(w, what))
  {
  }

  lemma TrackSends(w: SeamState, m: Milestone)
    ensures Track(w, m).log == w.log
  {
  }

  lemma OrgArrivedSends(w: SeamState)
    ensures OrgArrived(w).log == w.log
  {
    hide ApplyGroup;
    GroupSends(w);
  }

  lemma SpendSessionSends(w: SeamState)
    ensures SpendSession(w).log == w.log
  {
    hide Track;
    TrackSends(w, PairingCompleted);
  }

  lemma SyncSilent(w: SeamState)
    ensures Silent(w, SyncToStored(w))
  {
    hide ApplyGroup;
    if w.started && w.storedSub != w.identifiedAs {
      var blank := ResetClient(w);
      var moved := if w.storedSub.Some? then Identify(blank, w.storedSub.value) else blank;
      GroupSends(moved.(identifiedAs := w.storedSub));
    }
  }

  lemma RunSilent(w: SeamState, item: Item)
    ensures Silent(w, Run(w, item))
  {
    hide Spawn, Capture, Silent;
    assert Silent(w, w) by { SameSilent(w, w); }
    match item
    case MilestoneItem(m) =>
      SpawnSilent(w, OrgWait(m, CurrentOrg(w).Some?));
      SameSilent(w, Spawn(w, OrgWait(m, CurrentOrg(w).Some?)));
    case FailureItem(report) => CaptureSilent(w, FailureSent(report));
    case CoworkItem =>
      SpawnSilent(w, Checking);
      SameSilent(w, Spawn(w, Checking));
  }

  lemma SameSilent(w: SeamState, r: SeamState)
    requires r.log == w.log
    ensures Silent(w, r)
  {
  }

  lemma SpendSends(w: SeamState, item: Item)
    ensures Spend(w, item).log == w.log
  {
  }

  lemma {:induction false} RunAllSilent(w: SeamState, items: seq<Item>)
    ensures Silent(w, RunAll(w, items))
    decreases |items|
  {
    hide Run, Silent;
    if items == [] {
      SameSilent(w, w);
    } else {
      RunSilent(w, items[0]);
      RunAllSilent(Run(w, items[0]), items[1..]);
      SilentTransitive(w, Run(w, items[0]), RunAll(w, items));
    }
  }

  lemma {:induction false} SpendAllSends(w: SeamState, items: seq<Item>)
    ensures SpendAll(w, items).log == w.log
    decreases |items|
  {
    hide Spend;
    if items != [] {
      SpendSends(w, items[0]);
      SpendAllSends(Spend(w, items[0]), items[1..]);
    }
  }

  // ---- The one that merges ----

  /** A session that names an account the install may be merged into: nothing says the install was
      identified before, and the client is on the install id. */
  predicate InstallIsDue(w: SeamState) {
    !w.everIdentified && w.client.id == Install && LiveSub(w).Some? && LiveSub(w) != w.identifiedAs
  }

  lemma ApplyIdentityMergesIff(w: SeamState, sub: Sub)
    ensures var r := ApplyIdentity(w, sub);
            w.log <= r.log
            && (NewMerge(w.log, r.log) <==> w.identifiedAs != Some(sub) && !w.everIdentified && w.client.id == Install)
  {
    hide Persist;
    if w.identifiedAs != Some(sub) {
      var clean := if w.everIdentified then ResetClient(w) else w;
      var named := Identify(clean, sub).(
              identifiedAs := Some(sub), storedSub := Some(sub), everIdentified := true, lastPersisted := None);
      PersistSends(named);
      if !w.everIdentified && w.client.id == Install {
        assert named.log == w.log + [Merged(Install, sub)];
        assert FromInstall(named.log[|w.log|]);
      }
    }
  }

  lemma ApplySessionMergesIff(w: SeamState)
    ensures var r := ApplySession(w); w.log <= r.log && (NewMerge(w.log, r.log) <==> InstallIsDue(w))
  {
    var moved := if LiveSub(w).Some? then ApplyIdentity(w, LiveSub(w).value) else SyncToStored(w);
    if LiveSub(w).Some? {
      ApplyIdentityMergesIff(w, LiveSub(w).value);
    } else {
      SyncSilent(w);
    }
    GroupSends(moved);
    SpendSessionSends(ApplyGroup(moved));
    hide ApplyIdentity, SyncToStored, ApplyGroup, SpendSession, LiveSub;
  }

  /** What is due is done when the gate is open. */
  predicate SettlesDue(w: SeamState) {
    Funnel(w) == Open && InstallIsDue(w)
  }

  lemma SettleMergesIff(w: SeamState)
    ensures var r := Settle(w); w.log <= r.log && (NewMerge(w.log, r.log) <==> SettlesDue(w))
  {
    hide Funnel, ApplySession, SpendSession, RunAll, SpendAll;
    var empty := Unheld(w);
    ApplySessionMergesIff(empty);
    RunAllSilent(ApplySession(empty), w.held);
    ThenSilent(w.log, ApplySession(empty), RunAll(ApplySession(empty), w.held));
    SpendSessionSends(empty);
    SpendAllSends(SpendSession(empty), w.held);
    hide NewMerge;
    NothingNew(w);
  }

  lemma NothingNew(w: SeamState)
    ensures !NewMerge(w.log, w.log)
  {
  }

  lemma AnnounceKeepsGate(w: SeamState)
    ensures var r := AnnounceOptIn(w); Silent(w, r) && (SettlesDue(r) <==> SettlesDue(w))
  {
    CaptureSilent(w, OptIn);
    SameSilent(w, w);
    hide Silent;
  }

  lemma ConsentOnMergesIff(w: SeamState, here: bool, was: Option<bool>)
    ensures var r := ConsentOn(w, here, was); w.log <= r.log && (NewMerge(w.log, r.log) <==> SettlesDue(w))
  {
    hide Settle, AnnounceOptIn, SettlesDue;
    AnnounceKeepsGate(w);
    SameSilent(w, w);
    var told := if here && was == Some(false) && w.answered == Some(true) then AnnounceOptIn(w) else w;
    SettleMergesIff(told);
    AfterSilent(w, told, Settle(told).log);
  }

  /** A client that is up, as a "yes" leaves it before anything is settled. */
  function SwitchedOn(w: SeamState, recorded: bool): SeamState {
    w.(answered := if recorded then Some(true) else w.answered, consent := Some(true), enabled := true,
       client := if w.enabled then w.client else w.client.(optedOut := false))
  }

  lemma ApplyConsentMergesIff(w: SeamState, on: bool, recorded: bool, here: bool)
    ensures var r := ApplyConsent(w, on, recorded, here);
            w.log <= r.log && (NewMerge(w.log, r.log) <==> on && w.started && SettlesDue(SwitchedOn(w, recorded)))
  {
    hide TurnOn, TurnOff, SettlesDue;
    var told := if recorded then w.(answered := Some(true)) else w;
    if on {
      TurnOnMergesIff(told, here);
      SwitchesAlike(w, recorded);
    } else {
      TurnOffSilent(told, here && w.consent == Some(true) && w.hasKey);
    }
  }

  lemma SwitchesAlike(w: SeamState, recorded: bool)
    ensures var told := if recorded then w.(answered := Some(true)) else w;
            SwitchedOn(told, false) == SwitchedOn(w, recorded)
  {
    if recorded {
    } else {
    }
  }

  lemma TurnOnMergesIff(w: SeamState, here: bool)
    ensures var r := TurnOn(w, here);
            w.log <= r.log && (NewMerge(w.log, r.log) <==> w.started && SettlesDue(SwitchedOn(w, false)))
  {
    hide ConsentOn, Spawn, StartClient, SettlesDue;
    var told := w.(consent := Some(true));
    if !w.started {
      StartClientSends(told);
      SpawnSilent(StartClient(told), Consenting(here, w.consent));
      NothingNew(w);
    } else if w.enabled {
      OnAlready(w);
      ConsentOnMergesIff(told, here, w.consent);
    } else {
      ConsentOnMergesIff(told.(client := told.client.(optedOut := false), enabled := true), here, w.consent);
    }
  }

  lemma OnAlready(w: SeamState)
    requires w.enabled
    ensures SwitchedOn(w, false) == w.(consent := Some(true))
  {
  }

  lemma StartClientSends(w: SeamState)
    ensures StartClient(w).log == w.log
  {
  }

  lemma TurnOffSilent(w: SeamState, record: bool)
    ensures Silent(w, TurnOff(w, record))
  {
    hide Settle, Spawn;
    var off := OptOutClient(w.(consent := Some(false), enabled := false, pending := []));
    var last := if record then Spawn(off, OptOutClaim) else off;
    assert last.log == w.log && !SettlesDue(last) by { OffIsClosed(w, record); }
    SettleMergesIff(last);
  }

  lemma OffIsClosed(w: SeamState, record: bool)
    ensures var off := OptOutClient(w.(consent := Some(false), enabled := false, pending := []));
            var last := if record then Spawn(off, OptOutClaim) else off;
            last.log == w.log && Funnel(last) != Open
  {
    hide OptOutClient, Spawn;
    var told := w.(consent := Some(false), enabled := false, pending := []);
    OptOutKeeps(told);
    SpawnSilent(OptOutClient(told), OptOutClaim);
  }

  lemma OptOutKeeps(w: SeamState)
    ensures OptOutClient(w).log == w.log && OptOutClient(w).consent == w.consent
  {
  }

  lemma NoteMergesIff(w: SeamState, f: Facts)
    requires Inv(w)
    ensures var r := NoteSession(w, f);
            w.log <= r.log
            && (NewMerge(w.log, r.log) <==> w.adopted && !f.unknown && SettlesDue(w.(session := Some(f))))
  {
    var noted := w.(session := Some(f));
    NotedFunnel(w, f);
    if w.everIdentified {
      NoteSessionMoves(w, f);
      DrawnOnly(noted, NoteSession(w, f));
      hide NoteSession, Inv;
    } else if w.adopted && !f.unknown {
      FirstNoteMergesIff(w, f);
      hide NoteSession, Inv;
    } else {
      NothingNew(w);
      hide Inv;
    }
  }

  /** A window that knows the install was identified merges only ids it draws. */
  lemma DrawnOnly(w: SeamState, r: SeamState)
    requires Advances(w, r) && w.everIdentified
    ensures Silent(w, r)
  {
    forall k | |w.log| <= k < |r.log| ensures !FromInstall(r.log[k]) {
      assert FirstOrDrawn(w, r.log[k]);
    }
  }

  lemma FirstNoteMergesIff(w: SeamState, f: Facts)
    requires Inv(w) && !w.everIdentified && w.adopted && !f.unknown
    ensures var r := NoteSession(w, f);
            w.log <= r.log && (NewMerge(w.log, r.log) <==> SettlesDue(w.(session := Some(f))))
  {
    SubsImplyEver(w);
    hide Inv, Funnel, Persist, ApplySession, SpendSession, OrgArrived, SettlesDue;
    var noted := w.(session := Some(f));
    var saved := Persist(noted);
    PersistSends(noted);
    DueWhenSaved(noted);
    var settled := match Funnel(saved)
                   case Open => ApplySession(saved)
                   case Refused => SpendSession(saved)
                   case _ => saved;
    assert NoteSession(w, f) == OrgArrived(settled);
    ApplySessionMergesIff(saved);
    SpendSessionSends(saved);
    OrgArrivedSends(settled);
    NothingNew(saved);
    assert SettlesDue(saved) <==> Funnel(saved) == Open && InstallIsDue(saved) by { SettlesMeans(saved); }
  }

  lemma SettlesMeans(w: SeamState)
    ensures SettlesDue(w) <==> Funnel(w) == Open && InstallIsDue(w)
  {
  }

  lemma DueWhenSaved(w: SeamState)
    ensures SettlesDue(Persist(w)) <==> SettlesDue(w)
  {
    PersistSends(w);
    PersistStands(w);
    hide Persist, Funnel;
  }

  lemma FollowSilent(w: SeamState, next: Identity)
    ensures Silent(w, FollowIdentity(w, next))
  {
    hide Funnel, SyncToStored, ResetClient, PersistedAsSomeone, ApplyGroup, OrgArrived, Silent;
    var told := w.(storedSub := next.sub, storedOrg := next.org, storedMode := next.mode,
                   everIdentified := w.everIdentified || next.ever);
    var synced := if next.sub.None? || Funnel(told) == Open then SyncToStored(told) else told;
    SyncSilent(told);
    SameSilent(w, told);
    SilentTransitive(w, told, SyncToStored(told));
    ResetSends(synced);
    var moved :=
      if synced.storedSub.None? && synced.identifiedAs.None? && synced.everIdentified && synced.started && PersistedAsSomeone(synced)
      then ResetClient(synced) else synced;
    GroupSends(moved);
    OrgArrivedSends(ApplyGroup(moved));
    SameSilent(synced, FollowIdentity(w, next));
    SilentTransitive(w, synced, FollowIdentity(w, next));
  }

  lemma ResetSends(w: SeamState)
    ensures ResetClient(w).log == w.log
  {
  }

  lemma ReadSilent(w: SeamState, answer: Option<Identity>)
    requires Inv(w) && !w.adopted
    requires answer.Some? && answer.value.sub.Some? ==> answer.value.ever
    ensures Silent(w, IdentityRead(w, answer))
  {
    var known := (if answer.Some? then Adopt(w, answer.value) else w).(adopted := true);
    AdoptedInv(w, answer);
    StartedAdopted(w);
    assert known.log == w.log && !known.started by { AdoptedSends(w, answer); }
    if known.session.Some? {
      NoteMergesIff(known, known.session.value);
      OpenIsStarted(known.(session := known.session));
    }
    NothingNew(w);
    hide Inv, NoteSession;
  }

  lemma AdoptedSends(w: SeamState, answer: Option<Identity>)
    ensures var known := (if answer.Some? then Adopt(w, answer.value) else w).(adopted := true);
            known.log == w.log && known.started == w.started
  {
    if answer.Some? {
    } else {
    }
  }

  lemma StartSilent(w: SeamState, installKnown: bool)
    ensures Silent(w, ClientStarted(w, installKnown))
  {
    ConstructedStands(w, installKnown);
    StartSends(w, installKnown);
    hide Constructed, ClientStarted;
    var r := ClientStarted(w, installKnown);
    forall k | |w.log| <= k < |r.log| ensures !FromInstall(r.log[k]) {
      assert FiledAs(r.log[k]).Some?;
    }
  }

  lemma OfferSilent(w: SeamState, item: Item)
    ensures Silent(w, Offer(w, item))
  {
    hide Run, Spend, Funnel, Silent;
    RunSilent(w, item);
    SpendSends(w, item);
    SameSilent(w, Spend(w, item));
    SameSilent(w, Hold(w, item));
    SameSilent(w, w);
  }

  lemma EnterSilent(w: SeamState, item: Item)
    ensures Silent(w, Enter(w, item))
  {
    hide Offer, Funnel, Silent;
    OfferSilent(w, item);
    SameSilent(w, w);
    if item.MilestoneItem? {
      var noted := w.(heldMarkers := w.heldMarkers + {item.milestone});
      SameSilent(w, noted);
      OfferSilent(noted, item);
      SilentTransitive(w, noted, Offer(noted, item));
    }
  }

  lemma OrgWaitedSends(w: SeamState, m: Milestone)
    ensures OrgWaited(w, m).log == w.log
  {
    hide ApplyGroup;
    GroupSends(w);
  }

  lemma ClaimedSilent(w: SeamState, id: nat, task: Task, answer: ClaimAnswer, report: Option<nat>)
    ensures Silent(w, Claimed(w, id, task, answer, report))
  {
    SameSilent(w, w);
    if task.SendClaim? {
      CaptureSilent(w, MilestoneSent(task.milestone, id));
      SameSilent(w, w.(asked := w.asked - {task.milestone}));
    } else if task.OptOutClaim? {
      if OptOutId(w).Some? { PostedSilent(w, Posted(id, OptOutId(w).value, CurrentOrg(w))); }
    } else if report.Some? {
      OfferSilent(w, FailureItem(report.value));
    }
    hide Offer, Capture, Silent, OptOutId, CurrentOrg, Capturing;
  }

  lemma PostedSilent(w: SeamState, entry: Entry)
    requires entry.Posted?
    ensures Silent(w, w.(log := w.log + [entry]))
  {
  }

  lemma BaseEventSilent(w: SeamState, event: nat)
    ensures Silent(w, BaseEvent(w, event))
  {
    CaptureSilent(w, Base(event));
    hide Capture, Deciding;
  }

  lemma BootDecidesSilent(w: SeamState)
    ensures Silent(w, BootDecides(w))
  {
    hide Settle, StartClient;
    if w.consent != Some(true) {
      var booted := w.(pending := [], boot := Booted);
      SettleMergesIff(booted);
      assert !SettlesDue(booted);
    } else {
      StartClientSends(w.(boot := StartingClient));
    }
  }

  lemma PreferencesSilent(w: SeamState, prefs: Option<Preferences>)
    ensures Silent(w, PreferencesRead(w, prefs))
  {
    hide BootDecides;
    BootDecidesSilent(w.(
      consent := w.consent.OrElse(if prefs.Some? then Some(prefs.value.share) else None),
      answered := w.answered.OrElse(if prefs.Some? then Some(prefs.value.recorded) else None)));
  }

  lemma FinishBootMergesIff(w: SeamState)
    ensures var r := FinishBoot(w); w.log <= r.log && (NewMerge(w.log, r.log) <==> SettlesDue(w.(boot := Booted)))
  {
    hide Settle, Track, SettlesDue;
    SettleMergesIff(w.(boot := Booted));
    TrackSends(Settle(w.(boot := Booted)), FirstLaunched);
  }

  // ---- One event ----

  /** The events behind an open gate that put a due merge through: a session noted, the boot ending, and
      a "yes" once its client is up. */
  predicate MergesInstallNow(w: SeamState, e: Event) {
    match e
    case SessionNoted(f) => w.adopted && !f.unknown && SettlesDue(w.(session := Some(f)))
    case BootResumes => SettlesDue(w.(boot := Booted))
    case ConsentSet(on, recorded, _) => on && w.started && SettlesDue(SwitchedOn(w, recorded))
    case ConsentResumes(_) => SettlesDue(w)
    case _ => false
  }

  /** Of everything that can happen to a window, exactly these merge the install id. */
  lemma StepMergesIff(w: SeamState, e: Event)
    requires Inv(w) && Enabled(w, e) && WellFormed(e)
    ensures w.log <= Step(w, e).log && (NewMerge(w.log, Step(w, e).log) <==> MergesInstallNow(w, e))
  {
    hide Inv, SettlesDue, FinishBoot, ApplyConsent, ConsentOn, NoteSession, Finish;
    match e
    case BootResumes => FinishBootMergesIff(w);
    case ConsentSet(on, recorded, here) => ApplyConsentMergesIff(w, on, recorded, here);
    case ConsentResumes(id) =>
      ConsentOnMergesIff(Finish(w, id), w.tasks[id].here, w.tasks[id].was);
      FinishDue(w, id);
    case SessionNoted(facts) => NoteMergesIff(w, facts);
    case _ =>
      QuietSilent(w, e);
      hide Step, Enabled;
  }

  lemma QuietSilent(w: SeamState, e: Event)
    requires Inv(w) && Enabled(w, e) && WellFormed(e)
    requires !e.SessionNoted? && !e.BootResumes? && !e.ConsentSet? && !e.ConsentResumes?
    ensures Silent(w, Step(w, e))
  {
    hide Inv, Silent, BeginBoot, PreferencesRead, IdentityRead, ClientStarted, FollowIdentity, SaveAnswered, Persist, Track,
      Spawn, Enter, OrgWaited, Claimed, BaseEvent, Offer, Finish;
    if e.IdentityReply? || e.IdentityBroadcast? || e.StartReply? {
      match e
      case IdentityReply(answer) => ReadSilent(w, answer);
      case StartReply(installKnown) => StartSilent(w, installKnown);
      case IdentityBroadcast(next) => FollowSilent(w, next);
    } else if e.WaitOver? || e.ClaimReply? || e.OrgResumes? || e.SaveReply? || e.CoworkReply? {
      FinishDue(w, e.id);
      SameSilent(w, Finish(w, e.id));
      TaskSilent(w, e);
    } else {
      match e
      case InitAnalytics => BeginBootSends(w); SameSilent(w, BeginBoot(w));
      case PreferencesReply(prefs) => PreferencesSilent(w, prefs);
      case RetryTimer => PersistSends(w.(retryArmed := false)); SameSilent(w, Step(w, e));
      case MilestoneReached(m) => TrackSends(w, m); SameSilent(w, Track(w, m));
      case CoworkToolConnected => SpawnSilent(w, Waiting(CoworkItem, w.boot != NotBooted)); SameSilent(w, Step(w, e));
      case OrgTimer(id) => SameSilent(w, Step(w, e));
      case Tracked(event) => BaseEventSilent(w, event);
      case ConnectionFailed(failure) => OfferSilent(w, FailureItem(failure));
    }
  }

  lemma TaskSilent(w: SeamState, e: Event)
    requires Enabled(w, e) && (e.WaitOver? || e.ClaimReply? || e.OrgResumes? || e.SaveReply? || e.CoworkReply?)
    requires Silent(w, Finish(w, e.id))
    ensures Silent(w, Step(w, e))
  {
    hide Silent, SaveAnswered, Spawn, Enter, OrgWaited, Claimed, Finish;
    var base := Finish(w, e.id);
    match e {
    case WaitOver(id) => EnterSilent(base, w.tasks[id].item);
    case ClaimReply(id, answer, report) => ClaimedSilent(base, id, w.tasks[id], answer, report);
    case OrgResumes(id) =>
      OrgWaitedSends(base, w.tasks[id].milestone);
      SameSilent(base, OrgWaited(base, w.tasks[id].milestone));
    case SaveReply(id, answer) =>
      SaveAnsweredSends(base, w.tasks[id].next, answer);
      SameSilent(base, SaveAnswered(base, w.tasks[id].next, answer));
    case CoworkReply(id, detail) =>
      SameSilent(base, base);
      if detail.Some? {
        SpawnSilent(base, CoworkClaim(detail.value));
        SameSilent(base, Spawn(base, CoworkClaim(detail.value)));
      }
    }
    SilentTransitive(w, base, Step(w, e));
  }

  lemma BeginBootSends(w: SeamState)
    ensures BeginBoot(w).log == w.log
  {
  }

  lemma SaveAnsweredSends(w: SeamState, next: Identity, answer: SaveAnswer)
    ensures SaveAnswered(w, next, answer).log == w.log
  {
    hide Forgotten;
    var last := Forgotten(w, next);
    if answer == Saved {
      assert w.(retries := 0).log == w.log;
    } else if answer == NotLive || w.retryArmed || w.retries >= PERSIST_RETRY_MAX {
      assert w.(lastPersisted := last).log == w.log;
    } else {
      assert w.(lastPersisted := last, retries := w.retries + 1, retryArmed := true).log == w.log;
    }
  }

  lemma FinishDue(w: SeamState, id: nat)
    ensures SettlesDue(Finish(w, id)) <==> SettlesDue(w)
    ensures Finish(w, id).log == w.log
  {
  }
}
