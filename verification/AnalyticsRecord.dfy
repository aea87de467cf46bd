/**
 The record of who the install is, as one window keeps it: what a session note
 saves, what a failed save leads to, and what a read or a broadcast is taken for.
 */
module AnalyticsRecord {
  import opened Options
  import opened AnalyticsState
  import opened AnalyticsInvariant
  import opened AnalyticsSteps
  import opened AnalyticsTheorems
  import opened AnalyticsProgress
  import opened AnalyticsHeld
  import opened AnalyticsSignals
  import Standings = AnalyticsIdentity

  // ---- Saves ----

  /** In every run: a save that did not land is not taken for saved. One that failed is tried again on a
      timer, up to three times in a row; one refused is not; and one that landed starts the count over. */
  lemma FailedSaveIsRetried(states: seq<SeamState>, events: seq<Event>, i: nat)
    requires IsRun(states, events) && i < |events| && events[i].SaveReply?
    requires events[i].id in states[i].tasks && states[i].tasks[events[i].id].Saving?
    ensures var w, r, next, saved := states[i], states[i + 1], states[i].tasks[events[i].id].next, events[i].saved;
            && (saved == Saved ==> r.lastPersisted == w.lastPersisted && r.retries == 0 && r.retryArmed == w.retryArmed)
            && (saved != Saved ==> r.lastPersisted == if w.lastPersisted == Some(next) then None else w.lastPersisted)
            && (saved == NotLive ==> r.retryArmed == w.retryArmed && r.retries == w.retries)
            && (saved == SaveFailed ==> (r.retryArmed <==> w.retryArmed || w.retries < 3)
                                        && r.retries == if !w.retryArmed && w.retries < 3 then w.retries + 1 else w.retries)
  {
    hide Finish, SaveAnswered;
    var w, e := states[i], events[i];
    StepSignals(w, e);
    hide Step, Enabled;
    FinishRetries(w, e.id);
    SaveRetries(Finish(w, e.id), w.tasks[e.id].next, e.saved);
  }

  lemma FinishRetries(w: SeamState, id: nat)
    ensures var x := Finish(w, id); (x.lastPersisted, x.retries, x.retryArmed) == (w.lastPersisted, w.retries, w.retryArmed)
  {
  }

  lemma SaveRetries(w: SeamState, next: Identity, saved: SaveAnswer)
    ensures var r := SaveAnswered(w, next, saved);
            && (saved == Saved ==> r.lastPersisted == w.lastPersisted && r.retries == 0 && r.retryArmed == w.retryArmed)
            && (saved != Saved ==> r.lastPersisted == if w.lastPersisted == Some(next) then None else w.lastPersisted)
            && (saved == NotLive ==> r.retryArmed == w.retryArmed && r.retries == w.retries)
            && (saved == SaveFailed ==> (r.retryArmed <==> w.retryArmed || w.retries < 3)
                                        && r.retries == if !w.retryArmed && w.retries < 3 then w.retries + 1 else w.retries)
  {
    Forgets(w, next);
    hide SaveAnswered, Forgotten;
    if saved == Saved {
      SaveLands(w, next);
    } else if saved == NotLive || w.retryArmed || w.retries >= 3 {
      SaveGivesUp(w, next, saved);
    } else {
      SaveArms(w, next);
    }
  }

  lemma SaveLands(w: SeamState, next: Identity)
    ensures var r := SaveAnswered(w, next, Saved);
            r.lastPersisted == w.lastPersisted && r.retries == 0 && r.retryArmed == w.retryArmed
  {
  }

  lemma SaveGivesUp(w: SeamState, next: Identity, saved: SaveAnswer)
    requires saved == NotLive || (saved == SaveFailed && (w.retryArmed || w.retries >= 3))
    ensures var r := SaveAnswered(w, next, saved);
            r.lastPersisted == Forgotten(w, next) && r.retries == w.retries && r.retryArmed == w.retryArmed
  {
    hide Forgotten;
    assert SaveAnswered(w, next, saved) == w.(lastPersisted := Forgotten(w, next));
    hide SaveAnswered;
  }

  lemma SaveArms(w: SeamState, next: Identity)
    requires !w.retryArmed && w.retries < 3
    ensures var r := SaveAnswered(w, next, SaveFailed);
            r.lastPersisted == Forgotten(w, next) && r.retries == w.retries + 1 && r.retryArmed
  {
    hide Forgotten;
    assert SaveAnswered(w, next, SaveFailed) ==
           w.(lastPersisted := Forgotten(w, next), retries := w.retries + 1, retryArmed := true);
    hide SaveAnswered;
  }

  lemma Forgets(w: SeamState, next: Identity)
    ensures Forgotten(w, next) == if w.lastPersisted == Some(next) then None else w.lastPersisted
  {
  }

  /** The record of an install on account `who`, by a session `f` known here: no organization once signed
      out, and an API key's kept until its own is known. */
  function RecordOf(w: SeamState, f: Facts, who: Option<Sub>): Identity {
    Identity(who,
             w.everIdentified,
             if !f.signedIn then None
             else if f.org.Some? then f.org
             else if f.mode == Some(ApiKey) && w.storedMode == Some(ApiKey) then w.storedOrg
             else None,
             f.mode)
  }

  /** `next` is being saved, or is what was saved last. */
  ghost predicate Saves(w: SeamState, r: SeamState, next: Identity) {
    w.lastPersisted == Some(next) || Starts(w, r, Saving(next))
  }

  lemma PersistSaves(w: SeamState, f: Facts)
    requires w.session == Some(f) && w.hasKey && w.adopted && !f.unknown
    ensures var next := RecordOf(w, f, w.identifiedAs);
            && Saves(w, Persist(w), next) && Persist(w).lastPersisted == Some(next)
            && (w.lastPersisted != Some(next) ==> Persist(w).storedOrg == next.org && Persist(w).storedMode == f.mode)
  {
    var next := NextRecord(w, f);
    assert next == RecordOf(w, f, w.identifiedAs);
    if w.lastPersisted != Some(next) {
      SpawnStarts(w.(lastPersisted := Some(next), storedOrg := next.org, storedMode := next.mode), Saving(next));
    }
  }

  /** And when the timer fires, the record of the session known by then is saved, unless it was meanwhile. */
  lemma RetrySaves(states: seq<SeamState>, events: seq<Event>, i: nat)
    requires IsRun(states, events) && i < |events| && events[i].RetryTimer?
    requires var w := states[i]; w.session.Some? && w.hasKey && w.adopted && !w.session.value.unknown
    ensures !states[i + 1].retryArmed
    ensures Saves(states[i], states[i + 1], RecordOf(states[i], states[i].session.value, states[i].identifiedAs))
  {
    var w := states[i];
    hide Persist, Starts;
    StepSignals(w, events[i]);
    hide Step, Enabled;
    var off := w.(retryArmed := false);
    PersistSaves(off, w.session.value);
    PersistDisarmed(off);
    SavesFrom(w, off, Persist(off), RecordOf(w, w.session.value, w.identifiedAs));
  }

  lemma PersistDisarmed(w: SeamState)
    ensures Persist(w).retryArmed == w.retryArmed
  {
  }

  lemma SavesFrom(w: SeamState, x: SeamState, r: SeamState, next: Identity)
    requires Saves(x, r, next) && x.lastPersisted == w.lastPersisted && w.nextTask <= x.nextTask
    ensures Saves(w, r, next)
  {
  }

  // ---- What a session note saves ----

  /** Whatever is in flight, but for a wait for the organization, stays in flight. */
  ghost predicate TasksStay(w: SeamState, r: SeamState) {
    w.nextTask <= r.nextTask && forall id <- w.tasks :: !w.tasks[id].OrgWait? ==> id in r.tasks && r.tasks[id] == w.tasks[id]
  }

  lemma SpawnTasksStay(w: SeamState, task: Task)
    requires Inv(w)
    ensures TasksStay(w, Spawn(w, task))
  {
  }

  lemma SameTasksStay(w: SeamState, r: SeamState)
    requires r.tasks == w.tasks && r.nextTask == w.nextTask
    ensures TasksStay(w, r)
  {
  }

  lemma GroupTasksStay(w: SeamState)
    ensures TasksStay(w, ApplyGroup(w))
  {
    GroupAsks(w);
    hide ApplyGroup;
    SameTasksStay(w, ApplyGroup(w));
  }

  /** What moving the client leaves of the record and of what is suspended. */
  predicate SameRecord(w: SeamState, r: SeamState) {
    (r.session, r.hasKey, r.adopted, r.everIdentified, r.storedOrg, r.storedMode, r.tasks, r.nextTask) ==
    (w.session, w.hasKey, w.adopted, w.everIdentified, w.storedOrg, w.storedMode, w.tasks, w.nextTask)
  }

  lemma ResetLeaves(w: SeamState)
    ensures SameRecord(w, ResetClient(w))
  {
  }

  lemma IdentifyLeaves(w: SeamState, sub: Sub)
    ensures SameRecord(w, Identify(w, sub))
  {
  }

  lemma GroupedLeaves(w: SeamState, org: Option<Org>)
    ensures SameRecord(w, w.(client := w.client.(group := org), groupedAs := org))
  {
  }

  lemma SameRecordItself(w: SeamState)
    ensures SameRecord(w, w)
  {
  }

  lemma GroupLeaves(w: SeamState)
    ensures SameRecord(w, ApplyGroup(w))
  {
    GroupedLeaves(w, CurrentOrg(w));
    SameRecordItself(w);
    hide Funnel, CurrentOrg, SameRecord;
  }

  lemma NamedLeaves(w: SeamState, a: Option<Sub>)
    ensures SameRecord(w, w.(identifiedAs := a))
  {
  }

  lemma SyncLeaves(w: SeamState)
    ensures SameRecord(w, SyncToStored(w))
  {
    hide ResetClient, Identify, ApplyGroup;
    if w.started && w.storedSub != w.identifiedAs {
      var blank := ResetClient(w);
      ResetLeaves(w);
      if w.storedSub.Some? { IdentifyLeaves(blank, w.storedSub.value); }
      var moved := if w.storedSub.Some? then Identify(blank, w.storedSub.value) else blank;
      NamedLeaves(moved, w.storedSub);
      GroupLeaves(moved.(identifiedAs := w.storedSub));
    }
  }

  lemma PersistTasksStay(w: SeamState)
    requires forall id <- w.tasks :: id < w.nextTask
    ensures TasksStay(w, Persist(w))
  {
  }

  lemma NameTasksStay(w: SeamState, sub: Sub)
    requires Inv(w)
    ensures TasksStay(w, ApplyIdentity(w, sub))
  {
    NextTaskIsFree(w);
    hide Inv, Persist;
    if w.identifiedAs != Some(sub) {
      var clean := if w.everIdentified then ResetClient(w) else w;
      var named := Identify(clean, sub).(
        identifiedAs := Some(sub), storedSub := Some(sub), everIdentified := true, lastPersisted := None);
      assert named.tasks == w.tasks && named.nextTask == w.nextTask;
      PersistTasksStay(named);
    }
  }

  lemma SpendSessionTasksStay(w: SeamState)
    requires Inv(w)
    ensures TasksStay(w, SpendSession(w))
  {
    hide Inv, Spawn;
    SpawnTasksStay(w, Waiting(MilestoneItem(PairingCompleted), w.boot != NotBooted));
    SameTasksStay(w, w);
  }

  lemma ApplySessionTasksStay(w: SeamState)
    requires Inv(w) && w.started
    ensures TasksStay(w, ApplySession(w))
  {
    hide Inv, ApplyIdentity, SyncToStored, ApplyGroup, SpendSession, Advances, Funnel, TasksStay;
    var moved := if LiveSub(w).Some? then ApplyIdentity(w, LiveSub(w).value) else SyncToStored(w);
    if LiveSub(w).Some? {
      NameTasksStay(w, LiveSub(w).value);
      ApplyIdentityKeeps(w, LiveSub(w).value);
    } else {
      SyncLeaves(w);
      SameTasksStay(w, SyncToStored(w));
      SyncToStoredKeeps(w);
    }
    GroupTasksStay(moved);
    ApplyGroupKeeps(moved);
    SpendSessionTasksStay(ApplyGroup(moved));
    TasksStayTransitive(w, moved, ApplyGroup(moved));
    TasksStayTransitive(w, ApplyGroup(moved), ApplySession(w));
  }

  lemma TasksStayTransitive(a: SeamState, b: SeamState, c: SeamState)
    requires TasksStay(a, b) && TasksStay(b, c)
    ensures TasksStay(a, c)
  {
  }

  lemma OrgArrivedTasksStay(w: SeamState)
    ensures TasksStay(w, OrgArrived(w))
  {
    GroupTasksStay(w);
    WakeTasksStay(ApplyGroup(w));
    SameTasksStay(w, w);
    hide ApplyGroup, WakeOrgWaiters, TasksStay, CurrentOrg;
    if CurrentOrg(w).Some? { TasksStayTransitive(w, ApplyGroup(w), WakeOrgWaiters(ApplyGroup(w))); }
  }

  lemma WakeTasksStay(w: SeamState)
    ensures TasksStay(w, WakeOrgWaiters(w))
  {
  }

  lemma StartsOn(w: SeamState, x: SeamState, r: SeamState, next: Identity)
    requires Saves(w, x, next) && TasksStay(x, r)
    ensures Saves(w, r, next)
  {
  }

  /** A note once it has left the account it had to leave. */
  function LeftBehind(w: SeamState, f: Facts): SeamState {
    var noted := w.(session := Some(f));
    if LeftAccount(noted, f) then SyncToStored(noted.(storedSub := None)).(identifiedAs := None, lastPersisted := None) else noted
  }

  /** What follows the save of a note. */
  function NoteGoesOn(saved: SeamState): SeamState {
    match Funnel(saved)
    case Open => ApplySession(saved)
    case Refused => SpendSession(saved)
    case _ => saved
  }

  lemma NoteRunsOn(w: SeamState, f: Facts)
    requires w.adopted && !f.unknown
    ensures NoteSession(w, f) == OrgArrived(NoteGoesOn(Persist(LeftBehind(w, f))))
  {
    hide OrgArrived, Persist, ApplySession, SpendSession, SyncToStored, Funnel, LeftAccount;
  }

  lemma LeftBehindStands(w: SeamState, f: Facts)
    requires Inv(w)
    ensures var left := LeftBehind(w, f);
            && Inv(left) && SameRecord(w.(session := Some(f)), left)
            && left.identifiedAs == (if LeftAccount(w, f) then None else w.identifiedAs)
            && left.lastPersisted == (if LeftAccount(w, f) then None else w.lastPersisted)
  {
    hide Inv, SyncToStored, Advances;
    var noted := w.(session := Some(f));
    NotedInv(w, f);
    assert LeftAccount(noted, f) == LeftAccount(w, f);
    if LeftAccount(noted, f) {
      LeaveMoves(noted);
      var forgot := noted.(storedSub := None);
      SyncLeaves(forgot);
      assert SameRecord(noted, forgot);
    }
    hide LeftAccount;
  }

  lemma NoteGoesOnKeeps(w: SeamState)
    requires Inv(w)
    ensures TasksStay(w, OrgArrived(NoteGoesOn(w)))
  {
    hide Inv, ApplySession, SpendSession, OrgArrived, Advances, TasksStay;
    OpenMeansCapturing(w);
    hide Funnel;
    match Funnel(w) {
    case Open => ApplySessionTasksStay(w);
    case Refused => SpendSessionTasksStay(w);
    case _ => SameTasksStay(w, w);
    }
    OrgArrivedTasksStay(NoteGoesOn(w));
    TasksStayTransitive(w, NoteGoesOn(w), OrgArrived(NoteGoesOn(w)));
  }

  /** The window's own copy of the organization and mode on record is what session `f` says. */
  predicate OnRecord(w: SeamState, f: Facts) {
    w.session == Some(f) && w.storedOrg == RecordOf(w, f, None).org && w.storedMode == f.mode
  }

  lemma PersistOnRecord(w: SeamState, f: Facts)
    requires OnRecord(w, f)
    ensures var r := Persist(w); OnRecord(r, f) && r.storedOrg == w.storedOrg
  {
  }

  lemma SameOnRecord(w: SeamState, r: SeamState, f: Facts)
    requires OnRecord(w, f) && r.session == w.session && r.storedOrg == w.storedOrg && r.storedMode == w.storedMode
    ensures OnRecord(r, f)
  {
  }

  lemma NameOnRecord(w: SeamState, f: Facts, sub: Sub)
    requires OnRecord(w, f)
    ensures var r := ApplyIdentity(w, sub); OnRecord(r, f) && r.storedOrg == w.storedOrg
  {
    hide Persist, ResetClient, Identify, OnRecord;
    if w.identifiedAs != Some(sub) {
      var clean := if w.everIdentified then ResetClient(w) else w;
      ResetLeaves(w);
      IdentifyLeaves(clean, sub);
      var named := Identify(clean, sub).(
        identifiedAs := Some(sub), storedSub := Some(sub), everIdentified := true, lastPersisted := None);
      SameOnRecord(w, named, f);
      PersistOnRecord(named, f);
    }
  }

  lemma SpendSessionLeaves(w: SeamState)
    ensures var r := SpendSession(w); (r.session, r.storedOrg, r.storedMode) == (w.session, w.storedOrg, w.storedMode)
  {
  }

  lemma OrgArrivedLeaves(w: SeamState)
    ensures var r := OrgArrived(w); (r.session, r.storedOrg, r.storedMode) == (w.session, w.storedOrg, w.storedMode)
  {
    GroupLeaves(w);
    hide ApplyGroup, CurrentOrg;
  }

  lemma NoteGoesOnRecord(w: SeamState, f: Facts)
    requires OnRecord(w, f)
    ensures var r := OrgArrived(NoteGoesOn(w)); r.storedOrg == w.storedOrg && r.storedMode == f.mode
  {
    hide ApplyIdentity, SyncToStored, ApplyGroup, SpendSession, OrgArrived, LiveSub, OnRecord, Funnel;
    var moved := if LiveSub(w).Some? then ApplyIdentity(w, LiveSub(w).value) else SyncToStored(w);
    if LiveSub(w).Some? {
      NameOnRecord(w, f, LiveSub(w).value);
    } else {
      SyncLeaves(w);
      SameOnRecord(w, SyncToStored(w), f);
    }
    GroupLeaves(moved);
    SpendSessionLeaves(ApplyGroup(moved));
    SpendSessionLeaves(w);
    OrgArrivedLeaves(NoteGoesOn(w));
    assert OnRecord(w, f) && OnRecord(moved, f);
    ModeOnRecord(w, f);
    ModeOnRecord(moved, f);
  }

  lemma ModeOnRecord(w: SeamState, f: Facts)
    requires OnRecord(w, f)
    ensures w.storedMode == f.mode
  {
  }

  /** What a note of a known session saves. */
  ghost predicate NoteSaved(w: SeamState, r: SeamState, f: Facts) {
    && (if LeftAccount(w, f) then Starts(w, r, Saving(RecordOf(w, f, None))) else Saves(w, r, RecordOf(w, f, w.identifiedAs)))
    && (LeftAccount(w, f) || w.lastPersisted != Some(RecordOf(w, f, w.identifiedAs)) ==>
          r.storedOrg == RecordOf(w, f, None).org && r.storedMode == f.mode)
  }

  lemma NoteSaves(w: SeamState, f: Facts)
    requires Inv(w) && w.hasKey && w.adopted && !f.unknown
    ensures NoteSaved(w, NoteSession(w, f), f)
  {
    hide Inv, NoteSession, LeftBehind, NoteGoesOn, OrgArrived, Persist, LeftAccount;
    NoteRunsOn(w, f);
    LeftBehindStands(w, f);
    var left := LeftBehind(w, f);
    PersistSaves(left, f);
    assert RecordOf(left, f, left.identifiedAs) == RecordOf(w, f, left.identifiedAs);
    assert Inv(Persist(left)) by { PersistKeeps(left); }
    NoteGoesOnKeeps(Persist(left));
    StartsOn(left, Persist(left), NoteSession(w, f), RecordOf(w, f, left.identifiedAs));
    if LeftAccount(w, f) || w.lastPersisted != Some(RecordOf(w, f, w.identifiedAs)) {
      PersistAsks(left);
      RecordStands(w, Persist(left), f);
      NoteGoesOnRecord(Persist(left), f);
    }
  }

  lemma RecordStands(w: SeamState, r: SeamState, f: Facts)
    requires r.session == Some(f) && r.storedOrg == RecordOf(w, f, None).org && r.storedMode == f.mode
    ensures OnRecord(r, f)
  {
  }

  /** In every run, a note of a session that is known saves the record of it: under nobody, whatever was saved
      before, once it says the account was left; else under the account the window was on. The window goes by
      what it saves. */
  lemma NoteIsSaved(states: seq<SeamState>, events: seq<Event>, i: nat)
    requires IsRun(states, events) && Launch(states[0]) && i < |events| && events[i].SessionNoted?
    requires states[i].hasKey && states[i].adopted && !events[i].facts.unknown
    ensures NoteSaved(states[i], states[i + 1], events[i].facts)
  {
    hide Inv, Launch, NoteSession, NoteSaved;
    RunKeepsInv(states, events, i);
    Standings.StepsHandle(states[i], events[i]);
    NoteSaves(states[i], events[i].facts);
    hide Step, Enabled;
  }

  /** A session noted before the record was read is taken up as soon as it is, by what the read says. */
  lemma EarlyNoteIsSaved(states: seq<SeamState>, events: seq<Event>, i: nat)
    requires IsRun(states, events) && Launch(states[0]) && i < |events| && events[i].IdentityReply?
    requires states[i].hasKey && states[i].session.Some? && !states[i].session.value.unknown
    ensures NoteSaved(Heard(states[i], events[i]), states[i + 1], states[i].session.value)
  {
    hide Inv, Launch, NoteSession, NoteSaved, IdentityRead;
    RunKeepsInv(states, events, i);
    var w, e := states[i], events[i];
    StepSignals(w, e);
    assert WellFormed(e) && w.loading && !w.adopted by { hide Step; assert Enabled(w, e); }
    AdoptedInv(w, e.answer);
    var known := Heard(w, e);
    assert Inv(known) && known.hasKey && known.adopted && known.session == w.session;
    ReadNotes(w, e);
    NoteSaves(known, w.session.value);
    hide Step, Enabled;
  }

  lemma ReadNotes(w: SeamState, e: Event)
    requires e.IdentityReply? && w.session.Some?
    ensures IdentityRead(w, e.answer) == NoteSession(Heard(w, e), w.session.value)
  {
    hide NoteSession;
  }

  /** And a sign-in to another account behind an open gate saves that account's record, on top. */
  lemma SignInIsSaved(states: seq<SeamState>, events: seq<Event>, i: nat)
    requires IsRun(states, events) && Launch(states[0]) && i < |events| && events[i].SessionNoted?
    requires Funnel(states[i]) == Open && states[i].adopted
    requires var f := events[i].facts;
             !f.unknown && f.signedIn && f.mode == Some(OAuth) && f.sub.Some? && states[i].identifiedAs != f.sub
    ensures var f := events[i].facts;
            Starts(states[i], states[i + 1], Saving(Identity(f.sub, true, f.org, Some(OAuth))))
  {
    hide Inv, Launch, NoteSession, LeftBehind, NoteGoesOn, OrgArrived, Persist, LeftAccount, Funnel, Starts, ApplyIdentity, TasksStay,
      Advances;
    RunKeepsInv(states, events, i);
    var w, f := states[i], events[i].facts;
    OpenIsDecided(w);
    Standings.StepsHandle(w, events[i]);
    hide Step, Enabled, IsRun;
    NoteRunsOn(w, f);
    SignedInStays(w, f);
    var noted := w.(session := Some(f));
    NotedInv(w, f);
    Standings.NotedFunnel(w, f);
    var saved := Persist(noted);
    PersistKeeps(noted);
    PersistAsks(noted);
    AdvancesTasks(noted, saved);
    NameSaves(saved, f);
    StartsLater(w, saved, ApplyIdentity(saved, f.sub.value), Saving(Identity(f.sub, true, f.org, Some(OAuth))));
    GoesOnNamed(saved, f);
    SaveStarted(w, ApplyIdentity(saved, f.sub.value), NoteSession(w, f), Identity(f.sub, true, f.org, Some(OAuth)));
  }

  lemma SignedInStays(w: SeamState, f: Facts)
    requires f.signedIn && f.mode == Some(OAuth)
    ensures LeftBehind(w, f) == w.(session := Some(f))
  {
    hide SyncToStored;
  }

  lemma NameSaves(w: SeamState, f: Facts)
    requires w.session == Some(f) && w.hasKey && w.adopted && !f.unknown
    requires f.signedIn && f.mode == Some(OAuth) && f.sub.Some? && w.identifiedAs != f.sub
    ensures Starts(w, ApplyIdentity(w, f.sub.value), Saving(Identity(f.sub, true, f.org, Some(OAuth))))
  {
    hide Persist, Starts;
    var clean := if w.everIdentified then ResetClient(w) else w;
    ResetLeaves(w);
    IdentifyLeaves(clean, f.sub.value);
    hide ResetClient, Identify;
    var named := Identify(clean, f.sub.value).(
      identifiedAs := f.sub, storedSub := f.sub, everIdentified := true, lastPersisted := None);
    PersistSaves(named, f);
    assert RecordOf(named, f, f.sub) == Identity(f.sub, true, f.org, Some(OAuth));
    StartsLater(w, named, Persist(named), Saving(Identity(f.sub, true, f.org, Some(OAuth))));
  }

  lemma GoesOnNamed(saved: SeamState, f: Facts)
    requires Inv(saved) && Funnel(saved) == Open
    requires saved.session == Some(f) && f.signedIn && f.mode == Some(OAuth) && f.sub.Some?
    ensures TasksStay(ApplyIdentity(saved, f.sub.value), OrgArrived(NoteGoesOn(saved)))
  {
    OpenIsDecided(saved);
    hide Inv, Funnel, ApplyIdentity, ApplyGroup, SpendSession, OrgArrived, TasksStay, Advances, SyncToStored;
    var named := ApplyIdentity(saved, f.sub.value);
    assert ApplySession(saved) == SpendSession(ApplyGroup(named));
    ApplyIdentityKeeps(saved, f.sub.value);
    ApplyGroupKeeps(named);
    GroupTasksStay(named);
    SpendSessionTasksStay(ApplyGroup(named));
    OrgArrivedTasksStay(ApplySession(saved));
    TasksStayTransitive(named, ApplyGroup(named), ApplySession(saved));
    TasksStayTransitive(named, ApplySession(saved), OrgArrived(ApplySession(saved)));
  }

  lemma SaveStarted(w: SeamState, x: SeamState, r: SeamState, next: Identity)
    requires Starts(w, x, Saving(next)) && TasksStay(x, r)
    ensures Starts(w, r, Saving(next))
  {
  }

  /** In every run, a pairing noted behind an open gate sets out to be told, and one noted while sharing is
      off sets out to be spent, unless this window has settled it. */
  lemma PairingSetsOut(states: seq<SeamState>, events: seq<Event>, i: nat)
    requires IsRun(states, events) && Launch(states[0]) && i < |events| && events[i].SessionNoted? && states[i].adopted
    requires var f := events[i].facts; !f.unknown && f.signedIn && f.org.Some?
    requires Funnel(states[i]) in {Open, Refused} && PairingCompleted !in states[i].asked
    ensures Waits(states[i], states[i + 1], PairingCompleted)
  {
    hide Inv, Launch, NoteSession, LeftBehind, NoteGoesOn, OrgArrived, Persist, LeftAccount, Funnel, Waits, Advances;
    RunKeepsInv(states, events, i);
    var w, f := states[i], events[i].facts;
    Standings.StepsHandle(w, events[i]);
    hide Step, Enabled, IsRun;
    NoteRunsOn(w, f);
    LeftBehindStands(w, f);
    LeftBehindAsks(w, f);
    var left := LeftBehind(w, f);
    var saved := Persist(left);
    PersistAsks(left);
    PersistKeeps(left);
    AdvancesTasks(left, saved);
    NotePairs(saved, f);
    WaitsFrom(w, saved, NoteSession(w, f));
  }

  lemma LeftBehindAsks(w: SeamState, f: Facts)
    requires Inv(w)
    ensures var left := LeftBehind(w, f);
            Funnel(left) == Funnel(w) && SameAsked(w.(session := Some(f)), left)
  {
    hide Inv, SyncToStored, Advances, Funnel;
    var noted := w.(session := Some(f));
    NotedInv(w, f);
    Standings.NotedFunnel(w, f);
    if LeftAccount(noted, f) {
      var forgot := noted.(storedSub := None);
      ForgetSubMoves(noted);
      SyncToStoredKeeps(forgot);
      SyncAsks(forgot);
      ForgetsOnly(noted, SyncToStored(forgot));
    }
  }

  lemma ForgetsOnly(w: SeamState, x: SeamState)
    ensures Funnel(w.(storedSub := None)) == Funnel(w)
    ensures Funnel(x.(identifiedAs := None, lastPersisted := None)) == Funnel(x)
  {
  }

  lemma NotePairs(saved: SeamState, f: Facts)
    requires Inv(saved) && saved.session == Some(f) && f.signedIn && f.org.Some?
    requires Funnel(saved) in {Open, Refused} && PairingCompleted !in saved.asked
    ensures Waits(saved, OrgArrived(NoteGoesOn(saved)), PairingCompleted)
  {
    hide Inv, Funnel, ApplySession, SpendSession, OrgArrived, Waits, TasksStay, Advances;
    if Funnel(saved) == Open {
      ApplySessionGoesFirst(saved);
    } else {
      RefusedHasKey(saved);
      SpendSessionStarts(saved);
    }
    var settled := NoteGoesOn(saved);
    OrgArrivedTasksStay(settled);
    WaitsStayOn(saved, settled, OrgArrived(settled));
  }

  lemma WaitsStayOn(w: SeamState, x: SeamState, r: SeamState)
    requires Waits(w, x, PairingCompleted) && TasksStay(x, r)
    ensures Waits(w, r, PairingCompleted)
  {
  }

  lemma WaitsFrom(w: SeamState, x: SeamState, r: SeamState)
    requires Waits(x, r, PairingCompleted) && x.boot == w.boot && w.nextTask <= x.nextTask
    ensures Waits(w, r, PairingCompleted)
  {
  }

  // ---- What a read and a broadcast are taken for ----

  /** In every run: what the record's read answers is what the window goes by until a session is noted, and a
      read that fails leaves it knowing nothing. */
  lemma ReadIsAdopted(states: seq<SeamState>, events: seq<Event>, i: nat)
    requires IsRun(states, events) && i < |events| && events[i].IdentityReply? && states[i].session.None?
    ensures var r := states[i + 1];
            && r.adopted
            && (events[i].answer.None? ==> r == states[i].(adopted := true))
            && (events[i].answer.Some? ==>
                  Identity(r.storedSub, r.everIdentified, r.storedOrg, r.storedMode) == events[i].answer.value &&
                  r.identifiedAs == r.storedSub && CurrentOrg(r) == events[i].answer.value.org && r.client == states[i].client)
  {
    var w, e := states[i], events[i];
    hide IdentityRead, NoteSession;
    StepSignals(w, e);
    hide Step, Enabled;
    ReadAdopts(w, e.answer);
  }

  lemma ReadAdopts(w: SeamState, answer: Option<Identity>)
    requires w.session.None?
    ensures IdentityRead(w, answer) == (if answer.Some? then Adopt(w, answer.value) else w).(adopted := true)
  {
  }

  /** Every wait for the organization is over. */
  predicate AllReady(w: SeamState) {
    forall id <- w.tasks :: w.tasks[id].OrgWait? ==> w.tasks[id].ready
  }

  lemma OrgWakes(w: SeamState)
    ensures var r := OrgArrived(w); CurrentOrg(r) == CurrentOrg(w) && (CurrentOrg(r).Some? ==> AllReady(r))
    ensures Funnel(w) == Open && CurrentOrg(w).Some? ==> OrgArrived(w).client.group == CurrentOrg(w)
  {
    GroupAsks(w);
    hide ApplyGroup, CurrentOrg, Funnel;
    if CurrentOrg(w).Some? { WakesAll(ApplyGroup(w)); }
    hide WakeOrgWaiters;
  }

  lemma WakesAll(w: SeamState)
    ensures var r := WakeOrgWaiters(w); AllReady(r) && CurrentOrg(r) == CurrentOrg(w) && r.client == w.client
  {
  }

  /** In every run: a known note, or a broadcast, that leaves the organization known ends every wait for it. */
  lemma OrgEndsEveryWait(states: seq<SeamState>, events: seq<Event>, i: nat)
    requires IsRun(states, events) && i < |events|
    requires (events[i].SessionNoted? && states[i].adopted && !events[i].facts.unknown) || events[i].IdentityBroadcast?
    requires CurrentOrg(states[i + 1]).Some?
    ensures AllReady(states[i + 1])
  {
    var w, e := states[i], events[i];
    hide NoteSession, FollowIdentity, OrgArrived, CurrentOrg, AllReady;
    Standings.StepsHandle(w, e);
    hide Step, Enabled;
    if e.SessionNoted? {
      NoteRunsOn(w, e.facts);
      hide NoteGoesOn, LeftBehind, Persist;
      OrgWakes(NoteGoesOn(Persist(LeftBehind(w, e.facts))));
    } else {
      FollowEndsSo(w, e.next);
    }
  }

  lemma FollowEndsSo(w: SeamState, next: Identity)
    requires CurrentOrg(FollowIdentity(w, next)).Some?
    ensures AllReady(FollowIdentity(w, next))
  {
    hide SyncToStored, ResetClient, PersistedAsSomeone, OrgArrived, ApplyGroup, CurrentOrg, Funnel, AllReady;
    var told := w.(storedSub := next.sub, storedOrg := next.org, storedMode := next.mode,
                   everIdentified := w.everIdentified || next.ever);
    var synced := if next.sub.None? || Funnel(told) == Open then SyncToStored(told) else told;
    var moved :=
      if synced.storedSub.None? && synced.identifiedAs.None? && synced.everIdentified && synced.started && PersistedAsSomeone(synced)
      then ResetClient(synced) else synced;
    OrgWakes(ApplyGroup(moved));
  }

  /** The window has the record a broadcast told it, under `sub`. */
  predicate Told(w: SeamState, r: SeamState, next: Identity) {
    && r.storedSub == next.sub && r.storedOrg == next.org && r.storedMode == next.mode
    && r.everIdentified == (w.everIdentified || next.ever)
  }

  /** In every run, a broadcast that names an account: every window has the record; one behind an open gate is
      on the account, under the organization it routes for, and has merged a fresh id into it, unless it was on
      it before, when it has merged nothing; any other leaves its client as it was. */
  lemma BroadcastIsFollowed(states: seq<SeamState>, events: seq<Event>, i: nat)
    requires IsRun(states, events) && Launch(states[0]) && i < |events| && events[i].IdentityBroadcast? && events[i].next.sub.Some?
    ensures var w, r, a := states[i], states[i + 1], events[i].next.sub.value;
            && Told(w, r, events[i].next)
            && (Funnel(w) == Open ==>
                  && r.identifiedAs == Some(a) && r.client.id == Account(a) && r.client.group == CurrentOrg(r)
                  && r.log == if w.identifiedAs == Some(a) then w.log else w.log + [Merged(Fresh(w.window, w.draws), a)])
            && (Funnel(w) != Open ==> r.identifiedAs == w.identifiedAs && r.client == w.client && r.log == w.log)
  {
    hide Inv, Launch, FollowIdentity, Funnel, CurrentOrg;
    RunKeepsInv(states, events, i);
    var w, next := states[i], events[i].next;
    Standings.StepsHandle(w, events[i]);
    assert WellFormed(events[i]);
    hide Step, Enabled, IsRun;
    if Funnel(w) == Open { OpenFollows(w, next); } else { ClosedOnlyHears(w, next); }
  }

  function Hears(w: SeamState, next: Identity): SeamState {
    w.(storedSub := next.sub, storedOrg := next.org, storedMode := next.mode, everIdentified := w.everIdentified || next.ever)
  }

  lemma NamedFollows(w: SeamState, next: Identity)
    requires next.sub.Some?
    ensures var told := Hears(w, next);
            FollowIdentity(w, next) == OrgArrived(ApplyGroup(if Funnel(told) == Open then SyncToStored(told) else told))
  {
    var told := Hears(w, next);
    assert told == w.(storedSub := next.sub, storedOrg := next.org, storedMode := next.mode,
                      everIdentified := w.everIdentified || next.ever);
    SyncNames(told);
    hide Hears, SyncToStored, ApplyGroup, OrgArrived, Funnel, ResetClient, PersistedAsSomeone;
  }

  lemma SyncNames(w: SeamState)
    ensures SyncToStored(w).storedSub == w.storedSub
  {
    Standings.SyncToStoredStands(w);
    hide SyncToStored;
  }

  lemma HearsOnly(w: SeamState, next: Identity)
    ensures var told := Hears(w, next);
            && Told(w, told, next) && Funnel(told) == Funnel(w) && told.identifiedAs == w.identifiedAs && told.client == w.client
            && told.log == w.log && told.window == w.window && told.draws == w.draws && told.started == w.started
  {
  }

  lemma ClosedOnlyHears(w: SeamState, next: Identity)
    requires Funnel(w) != Open && next.sub.Some?
    ensures var r := FollowIdentity(w, next);
            Told(w, r, next) && r.identifiedAs == w.identifiedAs && r.client == w.client && r.log == w.log
  {
    NamedFollows(w, next);
    HearsOnly(w, next);
    hide Hears, FollowIdentity, Funnel, CurrentOrg;
    var told := Hears(w, next);
    assert ApplyGroup(told) == told;
    hide ApplyGroup;
    ClosedArrives(told);
    hide OrgArrived;
  }

  lemma ClosedArrives(w: SeamState)
    requires Funnel(w) != Open
    ensures var r := OrgArrived(w);
            (r.storedSub, r.storedOrg, r.storedMode, r.everIdentified, r.identifiedAs, r.client, r.log) ==
            (w.storedSub, w.storedOrg, w.storedMode, w.everIdentified, w.identifiedAs, w.client, w.log)
  {
    hide Funnel, CurrentOrg;
  }

  lemma OpenFollows(w: SeamState, next: Identity)
    requires Inv(w) && Funnel(w) == Open && next.sub.Some? && next.ever
    ensures var r, a := FollowIdentity(w, next), next.sub.value;
            && Told(w, r, next)
            && r.identifiedAs == Some(a) && r.client.id == Account(a) && r.client.group == CurrentOrg(r)
            && r.log == if w.identifiedAs == Some(a) then w.log else w.log + [Merged(Fresh(w.window, w.draws), a)]
  {
    OpenIsDecided(w);
    NamedFollows(w, next);
    HearsOnly(w, next);
    ToldMoves(w, next);
    var told := Hears(w, next);
    assert Inv(told);
    AccountIsClients(w);
    hide Inv, Hears, FollowIdentity, Funnel, CurrentOrg, Advances;
    SyncToStoredKeeps(told);
    SyncFollows(told);
    SyncLeaves(told);
    Standings.SyncToStoredStands(told);
    hide SyncToStored;
    var synced := SyncToStored(told);
    GroupArrives(synced);
    hide OrgArrived, ApplyGroup;
  }

  lemma AccountIsClients(w: SeamState)
    requires Inv(w) && w.started
    ensures w.identifiedAs.Some? ==> w.client.id == Account(w.identifiedAs.value)
  {
  }

  lemma SyncFollows(w: SeamState)
    requires w.started && w.storedSub.Some?
    ensures SyncToStored(w).log ==
            if w.identifiedAs == w.storedSub then w.log else w.log + [Merged(Fresh(w.window, w.draws), w.storedSub.value)]
  {
    hide ApplyGroup;
    if w.identifiedAs != w.storedSub {
      GroupLogs(Identify(ResetClient(w), w.storedSub.value).(identifiedAs := w.storedSub));
    }
  }

  /** Who the client is, by what record, and what it sent. */
  predicate SameWho(w: SeamState, r: SeamState) {
    (r.storedSub, r.storedOrg, r.storedMode, r.everIdentified, r.identifiedAs, r.client.id, r.log, r.session) ==
    (w.storedSub, w.storedOrg, w.storedMode, w.everIdentified, w.identifiedAs, w.client.id, w.log, w.session)
  }

  lemma GroupArrives(w: SeamState)
    requires Funnel(w) == Open
    ensures var r := OrgArrived(ApplyGroup(w)); SameWho(w, r) && r.client.group == CurrentOrg(r)
  {
    GroupIs(w);
    hide ApplyGroup;
    GroupIs(ApplyGroup(w));
    hide Funnel;
    WakeIs(ApplyGroup(ApplyGroup(w)));
    hide WakeOrgWaiters;
  }

  lemma WakeIs(w: SeamState)
    ensures var r := WakeOrgWaiters(w); SameWho(w, r) && r.client == w.client
  {
  }

  lemma GroupIs(w: SeamState)
    requires Funnel(w) == Open
    ensures var r := ApplyGroup(w); SameWho(w, r) && r.client.group == CurrentOrg(w) && Funnel(r) == Open
  {
    hide CurrentOrg;
  }
}
