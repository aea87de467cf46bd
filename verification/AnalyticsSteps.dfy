/**
 The invariant over whole steps, and so over whole runs: every handler of the
 seam keeps it, whatever order they run in.
 */
module AnalyticsSteps {
  import opened Options
  import opened AnalyticsState
  import opened AnalyticsInvariant

  /** A backend record that names a sub says so in `ever` too (`save_identity_in` writes no other). */
  predicate WellFormed(e: Event) {
    match e
    case IdentityReply(Some(stored)) => stored.sub.Some? ==> stored.ever
    case IdentityBroadcast(next) => next.sub.Some? ==> next.ever
    case _ => true
  }

  /** A stretch that may move the gates. */
  ghost predicate Moves(w: SeamState, r: SeamState) {
    Inv(r) && Advances(w, r)
  }

  lemma ThenMoves(a: SeamState, b: SeamState, c: SeamState)
    requires Advances(a, b) && Moves(b, c)
    ensures Moves(a, c)
  {
    hide Inv, Advances;
    AdvancesTransitive(a, b, c);
  }

  lemma ApplySessionKeeps(w: SeamState)
    requires Inv(w) && w.started
    ensures Kept(w, ApplySession(w))
  {
    hide Inv, Funnel, Advances, SyncToStored, ApplyIdentity, ApplyGroup, Track;
    if LiveSub(w).Some? {
      ApplyIdentityKeeps(w, LiveSub(w).value);
    } else {
      SyncToStoredKeeps(w);
    }
    var moved := if LiveSub(w).Some? then ApplyIdentity(w, LiveSub(w).value) else SyncToStored(w);
    ApplyGroupKeeps(moved);
    SpendSessionKeeps(ApplyGroup(moved));
    KeptTransitive(w, moved, ApplyGroup(moved));
    KeptTransitive(w, ApplyGroup(moved), ApplySession(w));
  }

  lemma SpendSessionKeeps(w: SeamState)
    requires Inv(w)
    ensures Kept(w, SpendSession(w))
  {
    hide Inv, Funnel, Advances, Track;
    Unmoved(w);
    TrackKeeps(w, PairingCompleted);
  }

  lemma UnheldKeeps(w: SeamState)
    requires Inv(w)
    ensures Moves(w, Unheld(w)) && Funnel(Unheld(w)) == Funnel(w)
  {
    hide Inv, Advances;
    HeldChangedKeeps(w, [], 0, {});
  }

  lemma SettleKeeps(w: SeamState)
    requires Inv(w)
    ensures Moves(w, Settle(w))
  {
    hide Inv, Funnel, Advances, ApplySession, RunAll, SpendAll, SpendSession, Unheld;
    UnheldKeeps(w);
    var empty := Unheld(w);
    match Funnel(w)
    case Held => Unmoved(w);
    case Closed =>
    case Open =>
      OpenMeansStarted(w);
      ApplySessionKeeps(empty);
      RunAllKeeps(ApplySession(empty), w.held);
      AdvancesTransitive(empty, ApplySession(empty), Settle(w));
      AdvancesTransitive(w, empty, Settle(w));
    case Refused =>
      SpendSessionKeeps(empty);
      SpendAllKeeps(SpendSession(empty), w.held);
      AdvancesTransitive(empty, SpendSession(empty), Settle(w));
      AdvancesTransitive(w, empty, Settle(w));
  }

  lemma OpenMeansStarted(w: SeamState)
    requires Funnel(w) == Open
    ensures w.started && Unheld(w).started && w.consent == Some(true) && w.answered == Some(true)
  {
  }

  /** Fields the invariant does not read. */
  lemma InertMoves(w: SeamState, pending: seq<nat>, last: Option<Identity>, retries: nat, armed: bool)
    requires Inv(w)
    ensures Moves(w, w.(pending := pending, lastPersisted := last, retries := retries, retryArmed := armed))
  {
    hide AllAllowed, NonePastGate, HeldOk, ClaimsOk, MergesOk, Unmerged, NoMerge, LogGrows, ClaimsStay;
    NothingSent(w);
  }

  lemma ForgetSubMoves(w: SeamState)
    requires Inv(w)
    ensures Moves(w, w.(storedSub := None))
  {
    hide AllAllowed, NonePastGate, HeldOk, ClaimsOk, MergesOk, Unmerged, NoMerge, LogGrows, ClaimsStay;
    NothingSent(w);
  }

  /** Off the account: once synced to no sub, naming nobody changes nothing more. */
  lemma UnnamedMoves(w: SeamState)
    requires Inv(w) && (w.started ==> w.identifiedAs.None?)
    ensures Moves(w, w.(identifiedAs := None, lastPersisted := None))
  {
    hide AllAllowed, NonePastGate, HeldOk, ClaimsOk, MergesOk, Unmerged, NoMerge, LogGrows, ClaimsStay;
    NothingSent(w);
  }

  lemma WakeMoves(w: SeamState)
    requires Inv(w)
    ensures Moves(w, WakeOrgWaiters(w))
  {
    hide AllAllowed, HeldOk, MergesOk, Unmerged, NoMerge;
  }

  lemma OrgArrivedMoves(w: SeamState)
    requires Inv(w)
    ensures Moves(w, OrgArrived(w))
  {
    hide Inv, Funnel, Advances, ApplyGroup, WakeOrgWaiters;
    Unmoved(w);
    ApplyGroupKeeps(w);
    WakeMoves(ApplyGroup(w));
    AdvancesTransitive(w, ApplyGroup(w), WakeOrgWaiters(ApplyGroup(w)));
  }

  lemma LeaveMoves(w: SeamState)
    requires Inv(w)
    ensures Moves(w, SyncToStored(w.(storedSub := None)).(identifiedAs := None, lastPersisted := None))
  {
    hide Inv, Funnel, Advances, SyncToStored;
    ForgetSubMoves(w);
    var forgot := w.(storedSub := None);
    SyncToStoredKeeps(forgot);
    UnnamedMoves(SyncToStored(forgot));
    ThenMoves(w, forgot, SyncToStored(forgot));
    ThenMoves(w, SyncToStored(forgot), SyncToStored(forgot).(identifiedAs := None, lastPersisted := None));
  }

  lemma NotedInv(w: SeamState, f: Facts)
    requires Inv(w)
    ensures Inv(w.(session := Some(f)))
  {
    hide AllAllowed, NonePastGate, HeldOk, ClaimsOk, MergesOk, Unmerged, NoMerge;
  }

  lemma NoteSessionMoves(w: SeamState, f: Facts)
    requires Inv(w)
    ensures Moves(w.(session := Some(f)), NoteSession(w, f))
  {
    hide Inv, Funnel, Advances, SyncToStored, Persist, ApplySession, SpendSession, OrgArrived, LeftAccount;
    var noted := w.(session := Some(f));
    NotedInv(w, f);
    Unmoved(noted);
    if w.adopted && !f.unknown {
      var left := if LeftAccount(noted, f)
                  then SyncToStored(noted.(storedSub := None)).(identifiedAs := None, lastPersisted := None)
                  else noted;
      LeaveMoves(noted);
      ThenMoves(noted, noted, left);
      var saved := Persist(left);
      PersistKeeps(left);
      ThenMoves(noted, left, saved);
      var settled := match Funnel(saved)
                     case Open => ApplySession(saved)
                     case Refused => SpendSession(saved)
                     case _ => saved;
      if Funnel(saved) == Open {
        OpenMeansStarted(saved);
        ApplySessionKeeps(saved);
      }
      SpendSessionKeeps(saved);
      Unmoved(saved);
      ThenMoves(noted, saved, settled);
      OrgArrivedMoves(settled);
      ThenMoves(noted, settled, OrgArrived(settled));
    }
  }

  lemma ToldMoves(w: SeamState, next: Identity)
    requires Inv(w) && (next.sub.Some? ==> next.ever)
    ensures Moves(w, w.(storedSub := next.sub, storedOrg := next.org, storedMode := next.mode,
                        everIdentified := w.everIdentified || next.ever))
  {
    hide AllAllowed, NonePastGate, HeldOk, ClaimsOk, MergesOk, Unmerged, NoMerge, LogGrows, ClaimsStay;
    NothingSent(w);
  }

  lemma FollowIdentityMoves(w: SeamState, next: Identity)
    requires Inv(w) && (next.sub.Some? ==> next.ever)
    ensures Moves(w, FollowIdentity(w, next))
  {
    hide Inv, Funnel, Advances, SyncToStored, ResetClient, PersistedAsSomeone, OrgArrived, ApplyGroup, Mergeable;
    var told := w.(storedSub := next.sub, storedOrg := next.org, storedMode := next.mode,
                   everIdentified := w.everIdentified || next.ever);
    ToldMoves(w, next);
    var synced := if next.sub.None? || Funnel(told) == Open then SyncToStored(told) else told;
    SyncToStoredKeeps(told);
    ThenMoves(w, told, synced) by { Unmoved(told); }
    var moved :=
      if synced.storedSub.None? && synced.identifiedAs.None? && synced.everIdentified && synced.started && PersistedAsSomeone(synced)
      then ResetClient(synced) else synced;
    if moved != synced {
      ResetClientKeeps(synced);
      assert ResetClient(synced) == ResetClient(synced).(identifiedAs := None) by { ResetKeepsName(synced); }
    } else {
      Unmoved(synced);
    }
    ThenMoves(w, synced, moved);
    ApplyGroupKeeps(moved);
    ThenMoves(w, moved, ApplyGroup(moved));
    OrgArrivedMoves(ApplyGroup(moved));
    ThenMoves(w, ApplyGroup(moved), FollowIdentity(w, next));
  }

  lemma ResetKeepsName(w: SeamState)
    ensures ResetClient(w).identifiedAs == w.identifiedAs
  {
  }

  /** A session note or the identity read is on record before anything is made of it. */
  function Heard(w: SeamState, e: Event): SeamState {
    match e
    case SessionNoted(facts) => w.(session := Some(facts))
    case IdentityReply(answer) => (if answer.Some? then Adopt(w, answer.value) else w).(adopted := true)
    case _ => w
  }

  lemma IdentityReadMoves(w: SeamState, e: Event)
    requires Inv(w) && !w.adopted && w.loading && e.IdentityReply? && WellFormed(e)
    ensures Moves(Heard(w, e), IdentityRead(w, e.answer))
  {
    hide NoteSession;
    var known := Heard(w, e);
    AdoptedInv(w, e.answer);
    Unmoved(known);
    if known.session.Some? {
      SessionOn(known);
      hide Inv, Advances;
      NoteSessionMoves(known, known.session.value);
    }
  }

  lemma SessionOn(w: SeamState)
    requires w.session.Some?
    ensures w.(session := Some(w.session.value)) == w
  {
  }

  lemma AdoptedInv(w: SeamState, answer: Option<Identity>)
    requires Inv(w) && !w.adopted
    requires answer.Some? && answer.value.sub.Some? ==> answer.value.ever
    ensures Inv((if answer.Some? then Adopt(w, answer.value) else w).(adopted := true))
  {
    hide AllAllowed, NonePastGate, HeldOk, ClaimsOk, MergesOk, Unmerged;
  }

  // ---- Starting, consent, captures ----

  /** `startPosthog` up to the flush of what was queued. */
  function ClientUp(w: SeamState, installKnown: bool): SeamState {
    var own := Constructed(w, installKnown);
    own.(client := own.client.(optedOut := own.consent != Some(true)), enabled := own.consent == Some(true), pending := [])
  }

  lemma ClientUpMoves(w: SeamState, installKnown: bool)
    requires Inv(w) && w.starting && !w.started && w.adopted
    ensures Moves(w, ClientUp(w, installKnown))
  {
    assert w.draws == 0 && NoMerge(w.log) && !w.enabled;
    NextDraw(w.window, w.draws, w.log);
    NothingSent(w);
    hide AllAllowed, NonePastGate, HeldOk, ClaimsOk, MergesOk, LogGrows, ClaimsStay;
  }

  lemma FlushMoves(w: SeamState, queued: seq<nat>)
    requires Inv(w) && Capturing(w)
    ensures Moves(w, Flush(w, queued))
    decreases |queued|
  {
    hide Inv, Funnel, Advances, Capture;
    if queued == [] {
      Unmoved(w);
    } else {
      CaptureKeeps(w, Base(queued[0]));
      var sent := Capture(w, Base(queued[0]));
      assert Capturing(sent) by { CaptureKeepsClient(w, Base(queued[0])); }
      FlushMoves(sent, queued[1..]);
      ThenMoves(w, sent, Flush(w, queued));
    }
  }

  lemma CaptureKeepsClient(w: SeamState, what: What)
    ensures Capture(w, what).started == w.started && Capture(w, what).client == w.client
  {
  }

  lemma ClientStartedMoves(w: SeamState, installKnown: bool)
    requires Inv(w) && w.starting && !w.started && w.adopted
    ensures Moves(w, ClientStarted(w, installKnown))
  {
    ClientUpMoves(w, installKnown);
    hide Inv, Advances, Flush;
    var up := ClientUp(w, installKnown);
    if w.consent == Some(true) {
      FlushMoves(up, w.pending);
      ThenMoves(w, up, Flush(up, w.pending));
    }
  }

  lemma StartClientMoves(w: SeamState)
    requires Inv(w) && w.consent.Some?
    ensures Moves(w, StartClient(w))
  {
    hide AllAllowed, NonePastGate, HeldOk, ClaimsOk, MergesOk, Unmerged, NoMerge, LogGrows, ClaimsStay;
    NothingSent(w);
  }

  lemma BootedMoves(w: SeamState, pending: seq<nat>)
    requires Inv(w)
    ensures Moves(w, w.(pending := pending, boot := Booted))
  {
    hide AllAllowed, NonePastGate, HeldOk, ClaimsOk, MergesOk, Unmerged, NoMerge, LogGrows, ClaimsStay;
    NothingSent(w);
  }

  lemma BeginBootMoves(w: SeamState)
    requires Inv(w)
    ensures Moves(w, BeginBoot(w))
  {
    hide AllAllowed, NonePastGate, HeldOk, ClaimsOk, MergesOk, Unmerged, NoMerge, LogGrows, ClaimsStay;
    NothingSent(w);
  }

  lemma BootStartsMoves(w: SeamState)
    requires Inv(w) && w.consent.Some? && w.hasKey
    ensures Moves(w, StartClient(w.(boot := StartingClient)))
  {
    hide AllAllowed, NonePastGate, HeldOk, ClaimsOk, MergesOk, Unmerged, NoMerge, LogGrows, ClaimsStay;
    NothingSent(w);
  }

  lemma BootDecidesMoves(w: SeamState)
    requires Inv(w) && w.hasKey
    ensures Moves(w, BootDecides(w))
  {
    hide Inv, Advances, Settle, StartClient;
    if w.consent != Some(true) {
      BootedMoves(w, []);
      SettleKeeps(w.(pending := [], boot := Booted));
      ThenMoves(w, w.(pending := [], boot := Booted), BootDecides(w));
    } else {
      BootStartsMoves(w);
    }
  }

  lemma PreferencesReadMoves(w: SeamState, prefs: Option<Preferences>)
    requires Inv(w) && w.boot == ReadingPreferences
    ensures Moves(w, PreferencesRead(w, prefs))
  {
    var consent := w.consent.OrElse(if prefs.Some? then Some(prefs.value.share) else None);
    var answered := w.answered.OrElse(if prefs.Some? then Some(prefs.value.recorded) else None);
    ReadingHasKey(w);
    AnsweredMoves(w, consent, answered);
    hide Inv, Advances, BootDecides;
    var known := w.(consent := consent, answered := answered);
    BootDecidesMoves(known);
    ThenMoves(w, known, BootDecides(known));
  }

  lemma ReadingHasKey(w: SeamState)
    requires Inv(w) && w.boot == ReadingPreferences
    ensures w.hasKey
  {
  }

  /** A first reading of consent and of the answer, before any client is up. */
  lemma AnsweredMoves(w: SeamState, consent: Option<bool>, answered: Option<bool>)
    requires Inv(w)
    requires w.consent.Some? ==> consent == w.consent
    requires w.answered.Some? ==> answered == w.answered
    ensures Moves(w, w.(consent := consent, answered := answered))
  {
    hide AllAllowed, NonePastGate, HeldOk, ClaimsOk, MergesOk, Unmerged, NoMerge, LogGrows, ClaimsStay;
    NothingSent(w);
  }

  lemma FinishBootMoves(w: SeamState)
    requires Inv(w)
    ensures Moves(w, FinishBoot(w))
  {
    hide Inv, Funnel, Advances, Settle, Track;
    var booted := w.(boot := Booted);
    BootedMoves(w, w.pending);
    SettleKeeps(booted);
    ThenMoves(w, booted, Settle(booted));
    TrackKeeps(Settle(booted), FirstLaunched);
    ThenMoves(w, Settle(booted), FinishBoot(w));
  }

  /** The whole answer "no", taken at once: base events stop and the client opts out. */
  lemma OffMoves(w: SeamState)
    requires Inv(w)
    ensures Moves(w, OptOutClient(w.(consent := Some(false), enabled := false, pending := [])))
  {
    hide AllAllowed, NonePastGate, HeldOk, ClaimsOk, MergesOk, Unmerged, NoMerge, LogGrows, ClaimsStay;
    NothingSent(w);
  }

  /** The answer "yes" before the client is up, or while sharing is on already. */
  lemma OnMoves(w: SeamState)
    requires Inv(w) && (!w.started || w.enabled)
    ensures Moves(w, w.(consent := Some(true)))
  {
    hide AllAllowed, NonePastGate, HeldOk, ClaimsOk, MergesOk, Unmerged, NoMerge, LogGrows, ClaimsStay;
    NothingSent(w);
  }

  lemma OptInMoves(w: SeamState)
    requires Inv(w) && w.started
    ensures Moves(w, w.(consent := Some(true), client := w.client.(optedOut := false), enabled := true))
  {
    hide AllAllowed, NonePastGate, HeldOk, ClaimsOk, MergesOk, Unmerged, NoMerge, LogGrows, ClaimsStay;
    NothingSent(w);
  }

  lemma RecordedMoves(w: SeamState)
    requires Inv(w)
    ensures Moves(w, w.(answered := Some(true)))
  {
    hide AllAllowed, NonePastGate, HeldOk, ClaimsOk, MergesOk, Unmerged, NoMerge, LogGrows, ClaimsStay;
    NothingSent(w);
  }

  lemma ConsentOnMoves(w: SeamState, here: bool, was: Option<bool>)
    requires Inv(w)
    ensures Moves(w, ConsentOn(w, here, was))
  {
    hide Inv, Funnel, Advances, Settle, Capture;
    Unmoved(w);
    if w.answered == Some(true) && Capturing(w) { CaptureKeeps(w, OptIn); }
    var told := if here && was == Some(false) && w.answered == Some(true) then AnnounceOptIn(w) else w;
    SettleKeeps(told);
    ThenMoves(w, told, Settle(told));
  }

  lemma TurnOffMoves(w: SeamState, record: bool)
    requires Inv(w)
    ensures Moves(w, TurnOff(w, record))
  {
    hide Inv, Funnel, Advances, Settle, Spawn, OptOutClient;
    var off := OptOutClient(w.(consent := Some(false), enabled := false, pending := []));
    OffMoves(w);
    Unmoved(off);
    SpawnKeeps(off, OptOutClaim);
    var last := if record then Spawn(off, OptOutClaim) else off;
    ThenMoves(w, off, last);
    SettleKeeps(last);
    ThenMoves(w, last, Settle(last));
  }

  lemma TurnOnMoves(w: SeamState, here: bool)
    requires Inv(w)
    ensures Moves(w, TurnOn(w, here))
  {
    hide Inv, Funnel, Advances, ConsentOn, StartClient, Spawn;
    var told := w.(consent := Some(true));
    if !w.started {
      OnMoves(w);
      StartClientMoves(told);
      ThenMoves(w, told, StartClient(told));
      SpawnKeeps(StartClient(told), Consenting(here, w.consent));
      ThenMoves(w, StartClient(told), Spawn(StartClient(told), Consenting(here, w.consent)));
    } else if w.enabled {
      OnMoves(w);
      ConsentOnMoves(told, here, w.consent);
      ThenMoves(w, told, ConsentOn(told, here, w.consent));
    } else {
      OptInMoves(w);
      var up := told.(client := told.client.(optedOut := false), enabled := true);
      ConsentOnMoves(up, here, w.consent);
      ThenMoves(w, up, ConsentOn(up, here, w.consent));
    }
  }

  lemma ApplyConsentMoves(w: SeamState, on: bool, recorded: bool, here: bool)
    requires Inv(w)
    ensures Moves(w, ApplyConsent(w, on, recorded, here))
  {
    hide Inv, Funnel, Advances, TurnOn, TurnOff;
    var told := if recorded then w.(answered := Some(true)) else w;
    RecordedMoves(w);
    Unmoved(w);
    TurnOnMoves(told, here);
    TurnOffMoves(told, here && w.consent == Some(true) && w.hasKey);
    ThenMoves(w, told, ApplyConsent(w, on, recorded, here));
  }

  lemma EnterMoves(w: SeamState, item: Item)
    requires Inv(w)
    ensures Moves(w, Enter(w, item))
  {
    hide Inv, Advances, Offer, Hold, HeldOk;
    Unmoved(w);
    if item.MilestoneItem? && Funnel(w) == Held {
      if item.milestone !in w.heldMarkers {
        var more := w.heldMarkers + {item.milestone};
        var noted := w.(heldMarkers := more);
        assert Offer(noted, item) == Hold(noted, item) by { OfferHolds(noted, item); }
        if Offered(w, item) {
          HoldKeeps(w, item, more);
        } else {
          DropKeeps(w, more);
          assert Hold(noted, item) == noted by { HoldDrops(noted, item); }
        }
      }
    } else {
      OfferKeeps(w, item);
    }
  }

  lemma OfferHolds(w: SeamState, item: Item)
    requires Funnel(w) == Held
    ensures Offer(w, item) == Hold(w, item)
  {
  }

  lemma HoldDrops(w: SeamState, item: Item)
    requires !Offered(w, item)
    ensures Hold(w, item) == w
  {
  }

  lemma BaseEventMoves(w: SeamState, event: nat)
    requires Inv(w)
    ensures Moves(w, BaseEvent(w, event))
  {
    hide Advances, Capture;
    Unmoved(w);
    InertMoves(w, w.pending + [event], w.lastPersisted, w.retries, w.retryArmed);
    if w.enabled { CaptureKeeps(w, Base(event)); }
  }

  lemma OrgWaitedMoves(w: SeamState, m: Milestone)
    requires Inv(w) && w.answered == Some(true)
    ensures Moves(w, OrgWaited(w, m))
  {
    hide Inv, Funnel, Advances, ApplyGroup, Spawn, SpendMarker;
    Unmoved(w);
    SpendMarkerKeeps(w, m);
    var grouped := ApplyGroup(w);
    ApplyGroupKeeps(w);
    AskedKeeps(grouped, grouped.asked + {m});
    var asking := grouped.(asked := grouped.asked + {m});
    ThenMoves(w, grouped, asking);
    SpawnKeeps(asking, SendClaim(m)) by { assert grouped.answered == w.answered by { ApplyGroupAnswered(w); } }
    ThenMoves(w, asking, Spawn(asking, SendClaim(m)));
  }

  lemma ApplyGroupAnswered(w: SeamState)
    ensures ApplyGroup(w).answered == w.answered
  {
  }

  // ---- Whole steps ----

  /** The entry a won claim is spent on. */
  predicate SentOn(task: Task, id: nat, entry: Entry) {
    match task
    case SendClaim(m) => entry.Sent? && entry.what == MilestoneSent(m, id)
    case OptOutClaim => entry.Posted? && entry.claim == id
    case _ => false
  }

  /** A step adds to the log only; an entry on a claim is added only by that claim's own won
      reply; every other claim in flight stays as it is, and new claims have new ids. */
  ghost predicate StepGrows(w: SeamState, e: Event, r: SeamState) {
    && r.window == w.window && r.hasKey == w.hasKey && w.nextTask <= r.nextTask
    && |w.log| <= |r.log| && r.log[..|w.log|] == w.log
    && (forall k :: |w.log| <= k < |r.log| && ClaimOf(r.log[k]).Some? ==>
          e.ClaimReply? && e.claimed == Won && e.id in w.tasks && SentOn(w.tasks[e.id], e.id, r.log[k]))
    && (forall id <- w.tasks :: IsClaim(w.tasks[id]) && !(e.ClaimReply? && e.id == id) ==>
          id in r.tasks && r.tasks[id] == w.tasks[id])
    && (forall id <- r.tasks :: IsClaim(r.tasks[id]) ==> id >= w.nextTask || (id in w.tasks && w.tasks[id] == r.tasks[id]))
    && (e.ClaimReply? ==> e.id in r.tasks ==> !IsClaim(r.tasks[e.id]))
    && Remembers(Heard(w, e), r) && MergesFresh(Heard(w, e), r.log)
  }

  lemma MovesGrows(w: SeamState, e: Event, r: SeamState)
    requires Advances(Heard(w, e), r) && !e.ClaimReply?
    ensures StepGrows(w, e, r)
  {
    HeardOnly(w, e);
    hide Heard, Remembers, MergesFresh;
  }

  predicate SameTrail(w: SeamState, h: SeamState) {
    h.window == w.window && h.hasKey == w.hasKey && h.log == w.log && h.tasks == w.tasks && h.nextTask == w.nextTask
  }

  lemma HeardOnly(w: SeamState, e: Event)
    ensures SameTrail(w, Heard(w, e))
  {
    if e.SessionNoted? {
      NotedOnly(w, e.facts);
    } else if e.IdentityReply? {
      AdoptedOnly(w, e.answer);
    }
    hide Adopt, SameTrail;
    assert !e.SessionNoted? && !e.IdentityReply? ==> SameTrail(w, w) by { SameAsItself(w); }
  }

  lemma SameAsItself(w: SeamState)
    ensures SameTrail(w, w)
  {
  }

  lemma NotedOnly(w: SeamState, f: Facts)
    ensures SameTrail(w, w.(session := Some(f)))
  {
  }

  lemma AdoptedOnly(w: SeamState, answer: Option<Identity>)
    ensures SameTrail(w, (if answer.Some? then Adopt(w, answer.value) else w).(adopted := true))
  {
    if answer.Some? {
    } else {
    }
  }

  lemma FinishInv(w: SeamState, id: nat)
    requires Inv(w)
    ensures Inv(Finish(w, id))
    ensures id in w.tasks && !IsClaim(w.tasks[id]) ==> Advances(w, Finish(w, id))
  {
    hide AllAllowed, HeldOk, MergesOk, Unmerged, NoMerge;
  }

  lemma MilestoneSentInv(w: SeamState, m: Milestone, id: nat)
    requires Inv(w) && Capturing(w) && w.answered == Some(true)
    requires id !in w.tasks && id < w.nextTask && forall entry <- w.log :: ClaimOf(entry) != Some(id)
    ensures Inv(Capture(w, MilestoneSent(m, id)))
  {
    var entry := Sent(MilestoneSent(m, id), w.client.id, w.client.group, w.consent, w.answered, w.client.optedOut);
    AppendAllowed(w.log, entry);
    AppendClaimed(w.log, entry, w.tasks, w.nextTask);
    AppendFiled(w.window, w.draws, w.log, entry, w.client.id);
    hide AllAllowed, HeldOk, ClaimsOk, MergesOk, Unmerged, NoMerge;
  }

  lemma AppendClaimed(log: seq<Entry>, entry: Entry, tasks: map<nat, Task>, nextTask: nat)
    requires ClaimsOk(log, tasks, nextTask) && ClaimOf(entry).Some?
    requires ClaimOf(entry).value < nextTask && ClaimOf(entry).value !in tasks
    requires forall earlier <- log :: ClaimOf(earlier) != ClaimOf(entry)
    ensures ClaimsOk(log + [entry], tasks, nextTask)
  {
  }

  lemma PostedInv(w: SeamState, id: nat)
    requires Inv(w) && OptOutId(w).Some?
    requires id !in w.tasks && id < w.nextTask && forall entry <- w.log :: ClaimOf(entry) != Some(id)
    ensures Inv(w.(log := w.log + [Posted(id, OptOutId(w).value, CurrentOrg(w))]))
  {
    var entry := Posted(id, OptOutId(w).value, CurrentOrg(w));
    AppendAllowed(w.log, entry);
    AppendClaimed(w.log, entry, w.tasks, w.nextTask);
    AppendFiled(w.window, w.draws, w.log, entry, w.client.id);
    hide AllAllowed, HeldOk, ClaimsOk, MergesOk, Unmerged, NoMerge;
  }

  lemma UnclaimedYet(w: SeamState, id: nat)
    requires Inv(w) && id in w.tasks
    ensures id < w.nextTask && forall entry <- w.log :: ClaimOf(entry) != Some(id)
    ensures PastGate(w.tasks[id]) ==> w.answered == Some(true)
  {
  }

  lemma FinishGrows(w: SeamState, e: Event)
    requires Inv(w) && e.ClaimReply? && e.id in w.tasks
    ensures StepGrows(w, e, Finish(w, e.id))
  {
  }

  lemma AppendGrows(w: SeamState, e: Event, base: SeamState, entry: Entry)
    requires StepGrows(w, e, base) && e.ClaimReply? && e.claimed == Won
    requires e.id in w.tasks && SentOn(w.tasks[e.id], e.id, entry)
    ensures StepGrows(w, e, base.(log := base.log + [entry]))
  {
    assert (base.log + [entry])[..|w.log|] == base.log[..|w.log|];
  }

  lemma RemembersOn(w: SeamState, base: SeamState, r: SeamState)
    requires base.window == w.window && Remembers(w, base) && Remembers(base, r)
    requires w.log <= base.log <= r.log && MergesFresh(w, base.log) && MergesFresh(base, r.log)
    ensures Remembers(w, r) && MergesFresh(w, r.log)
  {
    MergesFreshTransitive(w, base, r.log);
  }

  lemma GrowsThen(w: SeamState, e: Event, base: SeamState, r: SeamState)
    requires StepGrows(w, e, base) && Advances(base, r)
    requires e.ClaimReply? && e.id < base.nextTask
    ensures StepGrows(w, e, r)
  {
    hide Remembers, MergesFresh;
    RemembersOn(w, base, r);
    forall k | |w.log| <= k < |r.log| && ClaimOf(r.log[k]).Some?
      ensures e.claimed == Won && e.id in w.tasks && SentOn(w.tasks[e.id], e.id, r.log[k])
    {
      assert r.log[k] == r.log[..|base.log|][k];
    }
    assert r.log[..|w.log|] == base.log[..|w.log|];
  }

  lemma SendClaimKeeps(w: SeamState, e: Event)
    requires Inv(w) && e.ClaimReply? && e.id in w.tasks && w.tasks[e.id].SendClaim?
    ensures Inv(Step(w, e)) && StepGrows(w, e, Step(w, e))
  {
    hide Inv, StepGrows, Advances;
    var id, m, base := e.id, w.tasks[e.id].milestone, Finish(w, e.id);
    UnclaimedYet(w, id);
    FinishInv(w, id);
    FinishGrows(w, e);
    if e.claimed == ClaimFailed {
      AskedKeeps(base, base.asked - {m});
      GrowsThen(w, e, base, base.(asked := base.asked - {m}));
    } else if e.claimed == Won && Capturing(base) {
      MilestoneSentInv(base, m, id);
      AppendGrows(w, e, base,
                  Sent(MilestoneSent(m, id), base.client.id, base.client.group, base.consent, base.answered, base.client.optedOut));
    }
  }

  lemma OptOutClaimKeeps(w: SeamState, e: Event)
    requires Inv(w) && e.ClaimReply? && e.id in w.tasks && w.tasks[e.id].OptOutClaim?
    ensures Inv(Step(w, e)) && StepGrows(w, e, Step(w, e))
  {
    hide Inv, StepGrows, Advances;
    var id, base := e.id, Finish(w, e.id);
    UnclaimedYet(w, id);
    FinishInv(w, id);
    FinishGrows(w, e);
    if e.claimed == Won && OptOutId(base).Some? {
      PostedInv(base, id);
      AppendGrows(w, e, base, Posted(id, OptOutId(base).value, CurrentOrg(base)));
    }
  }

  lemma CoworkClaimKeeps(w: SeamState, e: Event)
    requires Inv(w) && e.ClaimReply? && e.id in w.tasks && w.tasks[e.id].CoworkClaim?
    ensures Inv(Step(w, e)) && StepGrows(w, e, Step(w, e))
  {
    hide Inv, StepGrows, Advances, Offer;
    var id, base := e.id, Finish(w, e.id);
    UnclaimedYet(w, id);
    FinishInv(w, id);
    FinishGrows(w, e);
    if e.claimed == Won && e.report.Some? {
      OfferKeeps(base, FailureItem(e.report.value));
      GrowsThen(w, e, base, Offer(base, FailureItem(e.report.value)));
    }
  }

  lemma ClaimedKeeps(w: SeamState, e: Event)
    requires Inv(w) && e.ClaimReply? && Enabled(w, e)
    ensures Inv(Step(w, e)) && StepGrows(w, e, Step(w, e))
  {
    hide Inv, StepGrows, Step;
    match w.tasks[e.id]
    case SendClaim(_) => SendClaimKeeps(w, e);
    case OptOutClaim => OptOutClaimKeeps(w, e);
    case CoworkClaim(_) => CoworkClaimKeeps(w, e);
    case SpendClaim(_) => SpendClaimKeeps(w, e);
  }

  lemma SpendClaimKeeps(w: SeamState, e: Event)
    requires Inv(w) && e.ClaimReply? && e.id in w.tasks && w.tasks[e.id].SpendClaim?
    ensures Inv(Step(w, e)) && StepGrows(w, e, Step(w, e))
  {
    hide Inv, StepGrows;
    FinishInv(w, e.id);
    FinishGrows(w, e);
  }

  lemma SaveAnsweredMoves(w: SeamState, next: Identity, answer: SaveAnswer)
    requires Inv(w)
    ensures Moves(w, SaveAnswered(w, next, answer))
  {
    hide Inv, Moves, Forgotten;
    var last := Forgotten(w, next);
    if answer == Saved {
      InertMoves(w, w.pending, w.lastPersisted, 0, w.retryArmed);
    } else if answer == NotLive || w.retryArmed || w.retries >= PERSIST_RETRY_MAX {
      InertMoves(w, w.pending, last, w.retries, w.retryArmed);
    } else {
      InertMoves(w, w.pending, last, w.retries + 1, true);
    }
  }

  lemma OrgTimerMoves(w: SeamState, id: nat)
    requires Inv(w) && id in w.tasks && w.tasks[id].OrgWait?
    ensures Moves(w, w.(tasks := w.tasks[id := OrgWait(w.tasks[id].milestone, true)]))
  {
    hide AllAllowed, HeldOk, MergesOk, Unmerged, NoMerge;
  }

  /** The invariant of one step, whatever it is. */
  lemma StepKeeps(w: SeamState, e: Event)
    requires Inv(w) && Enabled(w, e) && WellFormed(e)
    ensures Inv(Step(w, e)) && StepGrows(w, e, Step(w, e))
  {
    if e.ClaimReply? {
      ClaimedKeeps(w, e);
    } else {
      QuietStepMoves(w, e);
      MovesGrows(w, e, Step(w, e)) by { hide Inv, Step; }
      hide Inv, Step, Advances, StepGrows;
    }
  }

  lemma QuietStepMoves(w: SeamState, e: Event)
    requires Inv(w) && Enabled(w, e) && WellFormed(e) && !e.ClaimReply?
    ensures Moves(Heard(w, e), Step(w, e))
  {
    hide Inv, Funnel, Advances, BeginBoot, PreferencesRead, IdentityRead, ClientStarted, FinishBoot, ApplyConsent,
      ConsentOn, NoteSession, FollowIdentity, SaveAnswered, Persist, Track, Spawn, Finish, Enter, OrgWaited,
      BaseEvent, Offer;
    match e
    case InitAnalytics => BeginBootMoves(w);
    case PreferencesReply(prefs) => PreferencesReadMoves(w, prefs);
    case IdentityReply(_) => IdentityReadMoves(w, e);
    case StartReply(installKnown) => ClientStartedMoves(w, installKnown);
    case BootResumes => FinishBootMoves(w);
    case ConsentSet(on, recorded, here) => ApplyConsentMoves(w, on, recorded, here);
    case ConsentResumes(id) =>
      FinishInv(w, id);
      ConsentOnMoves(Finish(w, id), w.tasks[id].here, w.tasks[id].was);
      ThenMoves(w, Finish(w, id), Step(w, e));
    case SessionNoted(facts) => NoteSessionMoves(w, facts);
    case IdentityBroadcast(next) => FollowIdentityMoves(w, next);
    case SaveReply(id, answer) =>
      FinishInv(w, id);
      SaveAnsweredMoves(Finish(w, id), w.tasks[id].next, answer);
      ThenMoves(w, Finish(w, id), Step(w, e));
    case RetryTimer =>
      InertMoves(w, w.pending, w.lastPersisted, w.retries, false);
      PersistKeeps(w.(retryArmed := false));
      ThenMoves(w, w.(retryArmed := false), Step(w, e));
    case MilestoneReached(m) => TrackKeeps(w, m);
    case CoworkToolConnected =>
      Unmoved(w);
      SpawnKeeps(w, Waiting(CoworkItem, w.boot != NotBooted));
    case WaitOver(id) =>
      FinishInv(w, id);
      EnterMoves(Finish(w, id), w.tasks[id].item);
      ThenMoves(w, Finish(w, id), Step(w, e));
    case OrgTimer(id) => OrgTimerMoves(w, id);
    case OrgResumes(id) =>
      UnclaimedYet(w, id);
      FinishInv(w, id);
      assert Finish(w, id).answered == w.answered by { FinishAnswered(w, id); }
      OrgWaitedMoves(Finish(w, id), w.tasks[id].milestone);
      ThenMoves(w, Finish(w, id), Step(w, e));
    case CoworkReply(id, detail) =>
      UnclaimedYet(w, id);
      FinishInv(w, id);
      assert Finish(w, id).answered == w.answered by { FinishAnswered(w, id); }
      if detail.Some? {
        SpawnKeeps(Finish(w, id), CoworkClaim(detail.value));
        ThenMoves(w, Finish(w, id), Spawn(Finish(w, id), CoworkClaim(detail.value)));
      }
    case Tracked(event) => BaseEventMoves(w, event);
    case ConnectionFailed(failure) => OfferKeeps(w, FailureItem(failure));
  }

  lemma FinishAnswered(w: SeamState, id: nat)
    ensures Finish(w, id).answered == w.answered
  {
  }
}
