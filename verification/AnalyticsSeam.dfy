/**
 The seam as the source writes it: module-level variables, here the parts of
 `vars`, updated one after another by the handlers of `src/lib/analytics.ts`.
 Each handler is proved to do to them exactly what its function in
 `AnalyticsState` does to a `SeamState`; and `Handle`, which takes anything that
 can happen to the window, to do what its step does and to keep the invariant.
 So what the other modules prove of every run holds of these updates.
 */
module AnalyticsSeam {
  import opened Options
  import opened AnalyticsState
  import opened AnalyticsInvariant
  import opened AnalyticsSteps
  import opened AnalyticsTheorems

  lemma AlreadyGrouped(w: SeamState, org: Option<Org>)
    requires w.groupedAs == org && w.client.group == org
    ensures w.(client := w.client.(group := org), groupedAs := org) == w
  {
  }

  class Seam {
    var vars: SeamState

    constructor (window: nat, hasKey: bool, persisted: Client)
      ensures vars == Loaded(window, hasKey, persisted)
      ensures !Drawn(window, persisted.id) ==> Inv(vars)
    {
      vars := Loaded(window, hasKey, persisted);
      if !Drawn(window, persisted.id) { LoadedInv(window, hasKey, persisted); }
    }

    // ---- Suspending, sending ----

    method Suspend(task: Task)
      modifies this
      ensures vars == Spawn(old(vars), task)
    {
      vars := vars.(tasks := vars.tasks[vars.nextTask := task]);
      vars := vars.(nextTask := vars.nextTask + 1);
    }

    method Send(what: What)
      modifies this
      ensures vars == Capture(old(vars), what)
    {
      vars := vars.(log := vars.log + [Sent(what, vars.client.id, vars.client.group, vars.consent, vars.answered, vars.client.optedOut)]);
    }

    // ---- The client's identity ----

    method ApplyGroupNow()
      modifies this
      ensures vars == ApplyGroup(old(vars))
    {
      if Funnel(vars) != Open { return; }
      hide Funnel;
      var org := CurrentOrg(vars);
      hide CurrentOrg;
      if vars.groupedAs == org && vars.client.group == org {
        AlreadyGrouped(vars, org);
        return;
      }
      vars := vars.(client := vars.client.(group := org));
      vars := vars.(groupedAs := org);
    }

    method ResetClientNow()
      modifies this
      ensures vars == ResetClient(old(vars))
    {
      var client := Client(Fresh(vars.window, vars.draws), false, None);
      if vars.consent != Some(true) {
        client := client.(optedOut := true);
      }
      vars := vars.(client := client, draws := vars.draws + 1, groupedAs := None);
    }

    method IdentifyAs(sub: Sub)
      modifies this
      ensures vars == Identify(old(vars), sub)
    {
      if !vars.client.id.Account? {
        vars := vars.(log := vars.log + [Merged(vars.client.id, sub)]);
      }
      vars := vars.(client := vars.client.(id := Account(sub)));
    }

    method SyncToStoredIdentity()
      modifies this
      ensures vars == SyncToStored(old(vars))
    {
      if !vars.started || vars.storedSub == vars.identifiedAs { return; }
      ResetClientNow();
      if vars.storedSub.Some? {
        IdentifyAs(vars.storedSub.value);
      }
      vars := vars.(identifiedAs := vars.storedSub);
      ApplyGroupNow();
    }

    method PersistIdentity()
      modifies this
      ensures vars == Persist(old(vars))
    {
      if vars.session.None? || !vars.hasKey || !vars.adopted || vars.session.value.unknown { return; }
      var next := NextRecord(vars, vars.session.value);
      if vars.lastPersisted == Some(next) { return; }
      vars := vars.(lastPersisted := Some(next));
      vars := vars.(storedOrg := next.org);
      vars := vars.(storedMode := next.mode);
      Suspend(Saving(next));
    }

    method ApplyIdentityNow(sub: Sub)
      modifies this
      ensures vars == ApplyIdentity(old(vars), sub)
    {
      if vars.identifiedAs == Some(sub) { return; }
      if vars.everIdentified {
        ResetClientNow();
      }
      IdentifyAs(sub);
      vars := vars.(identifiedAs := Some(sub));
      vars := vars.(storedSub := Some(sub));
      vars := vars.(everIdentified := true);
      vars := vars.(lastPersisted := None);
      PersistIdentity();
    }

    // ---- Milestones and the gate ----

    method TrackMilestone(m: Milestone)
      modifies this
      ensures vars == Track(old(vars), m)
    {
      if !vars.hasKey || m in vars.asked { return; }
      Suspend(Waiting(MilestoneItem(m), vars.boot != NotBooted));
    }

    method SpendMarkerNow(m: Milestone)
      modifies this
      ensures vars == SpendMarker(old(vars), m)
    {
      vars := vars.(asked := vars.asked + {m});
      Suspend(SpendClaim(m));
    }

    method RunItem(item: Item)
      modifies this
      ensures vars == Run(old(vars), item)
    {
      match item
      case MilestoneItem(m) =>
        if m in vars.asked { return; }
        Suspend(OrgWait(m, CurrentOrg(vars).Some?));
      case FailureItem(report) =>
        if !Capturing(vars) { return; }
        Send(FailureSent(report));
      case CoworkItem =>
        Suspend(Checking);
    }

    method SpendItem(item: Item)
      modifies this
      ensures vars == Spend(old(vars), item)
    {
      if item.MilestoneItem? && item.milestone !in vars.asked {
        SpendMarkerNow(item.milestone);
      }
    }

    method FunnelItem(item: Item)
      modifies this
      ensures vars == Offer(old(vars), item)
    {
      match Funnel(vars)
      case Open => RunItem(item);
      case Held =>
        if |vars.held| >= HELD_CAP { return; }
        if item.FailureItem? {
          if vars.heldFailures >= HELD_FAILURE_CAP { return; }
          vars := vars.(heldFailures := vars.heldFailures + 1);
        }
        vars := vars.(held := vars.held + [item]);
      case Refused => SpendItem(item);
      case Closed =>
    }

    method SpendSessionNow()
      modifies this
      ensures vars == SpendSession(old(vars))
    {
      if vars.session.Some? && vars.session.value.signedIn && vars.session.value.org.Some? {
        TrackMilestone(PairingCompleted);
      }
    }

    method ApplySessionNow()
      modifies this
      ensures vars == ApplySession(old(vars))
    {
      if vars.session.Some? && vars.session.value.signedIn && vars.session.value.mode == Some(OAuth) && vars.session.value.sub.Some? {
        ApplyIdentityNow(vars.session.value.sub.value);
      } else {
        SyncToStoredIdentity();
      }
      ApplyGroupNow();
      SpendSessionNow();
    }

    method SettleHeld()
      modifies this
      ensures vars == Settle(old(vars))
    {
      var state := Funnel(vars);
      if state == Held { return; }
      var items := vars.held;
      vars := vars.(held := []);
      vars := vars.(heldFailures := 0);
      vars := vars.(heldMarkers := {});
      if state == Closed { return; }
      if state == Open {
        ApplySessionNow();
        ghost var ready := vars;
        var i := 0;
        while i < |items|
          invariant i <= |items|
          invariant RunAll(vars, items[i..]) == RunAll(ready, items)
        {
          RunItem(items[i]);
          i := i + 1;
        }
      } else {
        SpendSessionNow();
        ghost var ready := vars;
        var i := 0;
        while i < |items|
          invariant i <= |items|
          invariant SpendAll(vars, items[i..]) == SpendAll(ready, items)
        {
          SpendItem(items[i]);
          i := i + 1;
        }
      }
    }

    method OrgArrives()
      modifies this
      ensures vars == OrgArrived(old(vars))
    {
      if CurrentOrg(vars).None? { return; }
      ApplyGroupNow();
      var woken := map id | id in vars.tasks ::
                     if vars.tasks[id].OrgWait? then vars.tasks[id].(ready := true) else vars.tasks[id];
      vars := vars.(tasks := woken);
    }

    // ---- Session ----

    /** The account's id comes off the client, and off the record the other windows follow. */
    method LeaveAccount(f: Facts)
      modifies this
      ensures vars == if LeftAccount(old(vars), f)
                      then SyncToStored(old(vars).(storedSub := None)).(identifiedAs := None, lastPersisted := None)
                      else old(vars)
    {
      hide SyncToStored;
      var leftAccount := !f.signedIn || (f.mode == Some(ApiKey) && vars.identifiedAs.Some?);
      if leftAccount && (vars.identifiedAs.Some? || vars.storedSub.Some?) {
        vars := vars.(storedSub := None);
        SyncToStoredIdentity();
        vars := vars.(identifiedAs := None);
        vars := vars.(lastPersisted := None);
      }
    }

    method NoteSessionNow(f: Facts)
      modifies this
      ensures vars == NoteSession(old(vars), f)
    {
      hide Funnel, LeftAccount, SyncToStored, Persist, ApplySession, SpendSession, OrgArrived;
      vars := vars.(session := Some(f));
      if !vars.adopted || f.unknown { return; }
      LeaveAccount(f);
      PersistIdentity();
      hide Persist;
      var state := Funnel(vars);
      if state == Open {
        ApplySessionNow();
      } else if state == Refused {
        SpendSessionNow();
      }
      OrgArrives();
    }

    method HearIdentity(next: Identity)
      modifies this
      ensures vars == old(vars).(storedSub := next.sub, storedOrg := next.org, storedMode := next.mode,
                                 everIdentified := old(vars).everIdentified || next.ever)
    {
      vars := vars.(storedSub := next.sub);
      vars := vars.(storedOrg := next.org);
      vars := vars.(storedMode := next.mode);
      vars := vars.(everIdentified := vars.everIdentified || next.ever);
    }

    method FollowIdentityNow(next: Identity)
      modifies this
      ensures vars == FollowIdentity(old(vars), next)
    {
      hide Funnel, SyncToStored, ResetClient, PersistedAsSomeone, ApplyGroup, OrgArrived;
      HearIdentity(next);
      if next.sub.None? || Funnel(vars) == Open {
        SyncToStoredIdentity();
      }
      if vars.storedSub.None? && vars.identifiedAs.None? && vars.everIdentified && vars.started && PersistedAsSomeone(vars) {
        ResetClientNow();
      }
      ApplyGroupNow();
      OrgArrives();
    }

    // ---- Start and consent ----

    method Bootstrap(installId: bool)
      modifies this
      ensures vars == old(vars).(installKnown := installId, started := true,
                                 client := old(vars).client.(id := BootstrapId(old(vars), installId)))
    {
      vars := vars.(installKnown := installId);
      if vars.identifiedAs.Some? {
        vars := vars.(client := vars.client.(id := Account(vars.identifiedAs.value)));
      } else if installId && !vars.everIdentified {
        vars := vars.(client := vars.client.(id := Install));
      }
      vars := vars.(started := true);
    }

    method FlushQueued(queued: seq<nat>)
      modifies this
      ensures vars == Flush(old(vars), queued)
    {
      var i := 0;
      while i < |queued|
        invariant i <= |queued|
        invariant Flush(vars, queued[i..]) == Flush(old(vars), queued)
      {
        Send(Base(queued[i]));
        i := i + 1;
      }
    }

    /** `startPosthog` once its reads are in. */
    method ClientComesUp(installId: bool)
      modifies this
      ensures vars == ClientStarted(old(vars), installId)
    {
      hide BootstrapId, PersistedAsSomeone, ResetClient, Flush;
      Bootstrap(installId);
      if vars.identifiedAs.None? && vars.everIdentified && PersistedAsSomeone(vars) {
        ResetClientNow();
      }
      if vars.consent != Some(true) {
        vars := vars.(client := vars.client.(optedOut := true), pending := []);
        return;
      }
      var queued := vars.pending;
      vars := vars.(client := vars.client.(optedOut := false), enabled := true, pending := []);
      FlushQueued(queued);
    }

    method StartPosthog()
      modifies this
      ensures vars == StartClient(old(vars))
    {
      if !vars.hasKey || vars.starting { return; }
      vars := vars.(starting := true);
      vars := vars.(loading := true);
    }

    /** `applyConsent` up to its first `await`, or to its end when it needs none. */
    method ApplyConsentNow(on: bool, recorded: bool, here: bool)
      modifies this
      ensures vars == ApplyConsent(old(vars), on, recorded, here)
    {
      hide TurnOn, TurnOff;
      var was := vars.consent;
      if recorded { vars := vars.(answered := Some(true)); }
      if on {
        SharingOn(here);
      } else {
        SharingOff(here && was == Some(true) && vars.hasKey);
      }
    }

    method SharingOff(record: bool)
      modifies this
      ensures vars == TurnOff(old(vars), record)
    {
      hide Settle, Spawn;
      hide OptOutClient;
      vars := vars.(consent := Some(false), enabled := false, pending := []);
      OptClientOut();
      if record { Suspend(OptOutClaim); }
      SettleHeld();
    }

    method OptClientOut()
      modifies this
      ensures vars == OptOutClient(old(vars))
    {
      if vars.started { vars := vars.(client := vars.client.(optedOut := true)); }
    }

    method SharingOn(here: bool)
      modifies this
      ensures vars == TurnOn(old(vars), here)
    {
      hide ConsentOn, StartClient, Spawn;
      var was := vars.consent;
      vars := vars.(consent := Some(true));
      if !vars.started {
        StartPosthog();
        Suspend(Consenting(here, was));
        return;
      }
      if !vars.enabled {
        vars := vars.(client := vars.client.(optedOut := false));
        vars := vars.(enabled := true);
      }
      ConsentApplied(here, was);
    }

    method ConsentApplied(here: bool, was: Option<bool>)
      modifies this
      ensures vars == ConsentOn(old(vars), here, was)
    {
      hide Settle, Capture;
      if here && was == Some(false) && vars.answered == Some(true) && Capturing(vars) {
        Send(OptIn);
      }
      SettleHeld();
    }

    // ---- The stretches between the awaits of `boot` and `trackMilestone` ----

    method PreferencesArrive(prefs: Option<Preferences>)
      modifies this
      ensures vars == PreferencesRead(old(vars), prefs)
    {
      hide BootDecides;
      var share := if prefs.Some? then Some(prefs.value.share) else None;
      var recorded := if prefs.Some? then Some(prefs.value.recorded) else None;
      vars := vars.(consent := vars.consent.OrElse(share), answered := vars.answered.OrElse(recorded));
      DecideBoot();
    }

    method DecideBoot()
      modifies this
      ensures vars == BootDecides(old(vars))
    {
      hide Settle, StartClient;
      if vars.consent != Some(true) {
        vars := vars.(pending := [], boot := Booted);
        SettleHeld();
        return;
      }
      vars := vars.(boot := StartingClient);
      StartPosthog();
    }

    method BootFinishes()
      modifies this
      ensures vars == FinishBoot(old(vars))
    {
      hide Settle, Track;
      vars := vars.(boot := Booted);
      SettleHeld();
      TrackMilestone(FirstLaunched);
    }

    method WaitsOver(item: Item)
      modifies this
      ensures vars == Enter(old(vars), item)
    {
      hide Funnel, Offer;
      if item.MilestoneItem? && Funnel(vars) == Held {
        if item.milestone in vars.heldMarkers { return; }
        vars := vars.(heldMarkers := vars.heldMarkers + {item.milestone});
      }
      FunnelItem(item);
    }

    method OrgWaitOver(m: Milestone)
      modifies this
      ensures vars == OrgWaited(old(vars), m)
    {
      hide ApplyGroup, Spawn, SpendMarker;
      if m in vars.asked { return; }
      if vars.consent == Some(false) {
        SpendMarkerNow(m);
        return;
      }
      if !Capturing(vars) { return; }
      ApplyGroupNow();
      vars := vars.(asked := vars.asked + {m});
      Suspend(SendClaim(m));
    }

    method SendBase(event: nat)
      modifies this
      ensures vars == BaseEvent(old(vars), event)
    {
      hide Capture;
      if vars.enabled {
        Send(Base(event));
        return;
      }
      if Deciding(vars) && vars.consent != Some(false) && |vars.pending| < PENDING_CAP {
        vars := vars.(pending := vars.pending + [event]);
      }
    }

    // ---- What the backend answers ----

    /** `loadIdentity` once its read settles, answered or rejected. */
    method IdentityArrives(answer: Option<Identity>)
      modifies this
      ensures vars == IdentityRead(old(vars), answer)
    {
      hide NoteSession;
      if answer.Some? {
        AdoptStored(answer.value);
      }
      vars := vars.(adopted := true);
      if vars.session.Some? {
        NoteSessionNow(vars.session.value);
      }
    }

    method AdoptStored(stored: Identity)
      modifies this
      ensures vars == Adopt(old(vars), stored)
    {
      vars := vars.(identifiedAs := stored.sub);
      vars := vars.(storedSub := stored.sub);
      vars := vars.(everIdentified := stored.ever);
      vars := vars.(storedOrg := stored.org);
      vars := vars.(storedMode := stored.mode);
    }

    method SaveAnswers(next: Identity, answer: SaveAnswer)
      modifies this
      ensures vars == SaveAnswered(old(vars), next, answer)
    {
      if answer == Saved {
        vars := vars.(retries := 0);
        return;
      }
      ForgetSent(next);
      hide Forgotten;
      if answer == NotLive { return; }
      if vars.retryArmed || vars.retries >= PERSIST_RETRY_MAX { return; }
      vars := vars.(retries := vars.retries + 1);
      vars := vars.(retryArmed := true);
    }

    method ForgetSent(next: Identity)
      modifies this
      ensures vars == old(vars).(lastPersisted := Forgotten(old(vars), next))
    {
      if vars.lastPersisted == Some(next) {
        vars := vars.(lastPersisted := None);
      }
    }

    /** The claim `id` of `task` is answered. */
    method ClaimAnswers(id: nat, task: Task, answer: ClaimAnswer, report: Option<nat>)
      modifies this
      ensures vars == Claimed(old(vars), id, task, answer, report)
    {
      hide Offer, Capture, OptOutId, CurrentOrg;
      match task
      case SendClaim(m) =>
        if answer == ClaimFailed {
          vars := vars.(asked := vars.asked - {m});
          return;
        }
        if answer == Won && Capturing(vars) {
          Send(MilestoneSent(m, id));
        }
      case OptOutClaim =>
        if answer != Won { return; }
        var filedAs := OptOutId(vars);
        if filedAs.None? { return; }
        vars := vars.(log := vars.log + [Posted(id, filedAs.value, CurrentOrg(vars))]);
      case CoworkClaim(_) =>
        if answer == Won && report.Some? {
          FunnelItem(FailureItem(report.value));
        }
      case _ =>
    }

    // ---- Every event ----

    method Settled(id: nat)
      modifies this
      ensures vars == Finish(old(vars), id)
    {
      vars := vars.(tasks := vars.tasks - {id});
    }

    method Boot()
      modifies this
      ensures vars == BeginBoot(old(vars))
    {
      if !vars.hasKey {
        vars := vars.(boot := Booted);
        return;
      }
      vars := vars.(boot := ReadingPreferences);
      vars := vars.(loading := true);
    }

    /** What a settled promise goes on to do. */
    method Resume(e: Event)
      requires Enabled(vars, e)
      requires e.ConsentResumes? || e.SaveReply? || e.WaitOver? || e.OrgTimer? || e.OrgResumes? || e.CoworkReply? || e.ClaimReply?
      modifies this
      ensures vars == Step(old(vars), e)
    {
      hide Finish, ConsentOn, SaveAnswered, Enter, OrgWaited, Claimed, Spawn;
      var task := vars.tasks[e.id];
      if e.OrgTimer? {
        vars := vars.(tasks := vars.tasks[e.id := OrgWait(task.milestone, true)]);
        return;
      }
      var capturing := Capturing(vars);
      Settled(e.id);
      match e
      case ConsentResumes(_) => ConsentApplied(task.here, task.was);
      case SaveReply(_, answer) => SaveAnswers(task.next, answer);
      case WaitOver(_) => WaitsOver(task.item);
      case OrgResumes(_) => OrgWaitOver(task.milestone);
      case ClaimReply(_, answer, report) => ClaimAnswers(e.id, task, answer, report);
      case CoworkReply(_, detail) =>
        if detail.Some? && capturing { Suspend(CoworkClaim(detail.value)); }
    }

    /** Anything that can happen to the window: its handler does what the step does, and keeps the invariant. */
    method Handle(e: Event)
      requires Inv(vars) && Enabled(vars, e) && WellFormed(e)
      modifies this
      ensures vars == Step(old(vars), e) && Inv(vars)
    {
      StepKeeps(vars, e);
      hide Inv, BeginBoot, PreferencesRead, IdentityRead, ClientStarted, FinishBoot, ApplyConsent, NoteSession, FollowIdentity,
        Persist, Track, Spawn, BaseEvent, Offer, StepGrows;
      match e
      case InitAnalytics => Boot();
      case PreferencesReply(prefs) => PreferencesArrive(prefs);
      case IdentityReply(answer) => IdentityArrives(answer);
      case StartReply(installKnown) => ClientComesUp(installKnown);
      case BootResumes => BootFinishes();
      case ConsentSet(on, recorded, here) => ApplyConsentNow(on, recorded, here);
      case SessionNoted(facts) => NoteSessionNow(facts);
      case IdentityBroadcast(next) => FollowIdentityNow(next);
      case RetryTimer =>
        vars := vars.(retryArmed := false);
        PersistIdentity();
      case MilestoneReached(m) => TrackMilestone(m);
      case CoworkToolConnected =>
        if vars.hasKey { Suspend(Waiting(CoworkItem, vars.boot != NotBooted)); }
      case Tracked(event) => SendBase(event);
      case ConnectionFailed(failure) => FunnelItem(FailureItem(failure));
      case _ => Resume(e);
    }
  }
}
