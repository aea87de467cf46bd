/**
 Whose answer a window goes by: the last one given, before what its boot read;
 and that a "no" is silence.
 */
module AnalyticsConsent {
  import opened Options
  import opened AnalyticsState
  import opened AnalyticsInvariant
  import opened AnalyticsSteps
  import opened AnalyticsTheorems
  import opened AnalyticsIdentity

  /** Sharing is off, neither the window nor its client would send, and nothing waits in line to be sent. */
  predicate Off(w: SeamState) {
    w.consent == Some(false) && !w.enabled && !Capturing(w) && w.pending == []
  }

  /** A stretch that changes no answer and, while sharing is off, sends nothing. */
  ghost predicate Hush(w: SeamState, r: SeamState) {
    r.consent == w.consent && r.answered == w.answered && (Off(w) ==> StaysSilent(w, r))
  }

  /** Off still, with nothing sent in between. */
  ghost predicate StaysSilent(w: SeamState, r: SeamState) {
    Off(r) && w.log <= r.log && forall k :: |w.log| <= k < |r.log| ==> !r.log[k].Sent?
  }

  lemma HushTransitive(a: SeamState, b: SeamState, c: SeamState)
    requires Hush(a, b) && Hush(b, c)
    ensures Hush(a, c)
  {
    hide Off;
    if Off(a) {
      forall k | |a.log| <= k < |c.log| ensures !c.log[k].Sent? {
        if k < |b.log| { assert c.log[k] == b.log[k]; }
      }
    }
  }

  /** What decides whether the window may send, and what it has sent. */
  predicate SameVoice(w: SeamState, r: SeamState) {
    && r.consent == w.consent && r.answered == w.answered && r.enabled == w.enabled && r.started == w.started
    && r.client.optedOut == w.client.optedOut && r.log == w.log && r.pending == w.pending
  }

  lemma SameVoiceHush(w: SeamState, r: SeamState)
    requires SameVoice(w, r)
    ensures Hush(w, r)
  {
  }

  // ---- Stretches that send nothing ----

  lemma SpawnVoice(w: SeamState, task: Task)
    ensures SameVoice(w, Spawn(w, task))
  {
  }

  lemma FinishVoice(w: SeamState, id: nat)
    ensures SameVoice(w, Finish(w, id))
  {
  }

  lemma GroupVoice(w: SeamState)
    ensures SameVoice(w, ApplyGroup(w))
  {
    GroupedVoice(w, CurrentOrg(w));
    SameVoiceItself(w);
    hide Funnel, CurrentOrg, SameVoice;
  }

  lemma GroupedVoice(w: SeamState, org: Option<Org>)
    ensures SameVoice(w, w.(client := w.client.(group := org), groupedAs := org))
  {
  }

  lemma SameVoiceItself(w: SeamState)
    ensures SameVoice(w, w)
  {
  }

  lemma TrackVoice(w: SeamState, m: Milestone)
    ensures SameVoice(w, Track(w, m))
  {
    hide Spawn;
    SpawnVoice(w, Waiting(MilestoneItem(m), w.boot != NotBooted));
  }

  lemma SpendSessionVoice(w: SeamState)
    ensures SameVoice(w, SpendSession(w))
  {
    hide Track;
    TrackVoice(w, PairingCompleted);
  }

  lemma PersistVoice(w: SeamState)
    ensures SameVoice(w, Persist(w))
  {
  }

  lemma WakeVoice(w: SeamState)
    ensures SameVoice(w, WakeOrgWaiters(w))
  {
  }

  lemma OrgArrivedVoice(w: SeamState)
    ensures SameVoice(w, OrgArrived(w))
  {
    GroupVoice(w);
    WakeVoice(ApplyGroup(w));
    hide ApplyGroup, WakeOrgWaiters;
  }

  lemma UnheldVoice(w: SeamState)
    ensures SameVoice(w, Unheld(w))
  {
  }

  lemma SpendVoice(w: SeamState, item: Item)
    ensures SameVoice(w, Spend(w, item))
  {
  }

  lemma {:induction false} SpendAllVoice(w: SeamState, items: seq<Item>)
    ensures SameVoice(w, SpendAll(w, items))
    decreases |items|
  {
    hide Spend;
    if items != [] {
      SpendVoice(w, items[0]);
      SpendAllVoice(Spend(w, items[0]), items[1..]);
    }
  }

  lemma StartVoice(w: SeamState)
    ensures SameVoice(w, StartClient(w))
  {
  }

  // ---- Stretches that may ----

  lemma CaptureHush(w: SeamState, what: What)
    requires !Off(w)
    ensures Hush(w, Capture(w, what))
  {
  }

  lemma ResetHush(w: SeamState)
    ensures Hush(w, ResetClient(w))
  {
  }

  lemma IdentifyHush(w: SeamState, sub: Sub)
    ensures Hush(w, Identify(w, sub))
  {
  }

  lemma NamedVoice(w: SeamState, a: Option<Sub>, b: Option<Sub>, ever: bool, last: Option<Identity>)
    ensures SameVoice(w, w.(identifiedAs := a, storedSub := b, everIdentified := ever, lastPersisted := last))
  {
  }

  lemma SyncHush(w: SeamState)
    ensures Hush(w, SyncToStored(w))
  {
    hide ApplyGroup, ResetClient, Identify, Hush;
    SameVoiceHush(w, w);
    if w.started && w.storedSub != w.identifiedAs {
      var blank := ResetClient(w);
      ResetHush(w);
      var moved := if w.storedSub.Some? then Identify(blank, w.storedSub.value) else blank;
      SameVoiceHush(blank, blank);
      if w.storedSub.Some? { IdentifyHush(blank, w.storedSub.value); }
      var named := moved.(identifiedAs := w.storedSub);
      NamedVoice(moved, w.storedSub, moved.storedSub, moved.everIdentified, moved.lastPersisted);
      SameVoiceHush(moved, named);
      GroupVoice(named);
      SameVoiceHush(named, ApplyGroup(named));
      HushTransitive(w, blank, moved);
      HushTransitive(w, moved, named);
      HushTransitive(w, named, ApplyGroup(named));
    }
  }

  lemma ApplyIdentityHush(w: SeamState, sub: Sub)
    ensures Hush(w, ApplyIdentity(w, sub))
  {
    hide Persist, ResetClient, Identify, Hush;
    SameVoiceHush(w, w);
    if w.identifiedAs != Some(sub) {
      var clean := if w.everIdentified then ResetClient(w) else w;
      ResetHush(w);
      var moved := Identify(clean, sub);
      IdentifyHush(clean, sub);
      var named := moved.(identifiedAs := Some(sub), storedSub := Some(sub), everIdentified := true, lastPersisted := None);
      NamedVoice(moved, Some(sub), Some(sub), true, None);
      SameVoiceHush(moved, named);
      PersistVoice(named);
      SameVoiceHush(named, Persist(named));
      HushTransitive(w, clean, moved);
      HushTransitive(w, moved, named);
      HushTransitive(w, named, Persist(named));
    }
  }

  lemma ApplySessionHush(w: SeamState)
    ensures Hush(w, ApplySession(w))
  {
    hide ApplyIdentity, SyncToStored, ApplyGroup, SpendSession, Hush, LiveSub;
    var moved := if LiveSub(w).Some? then ApplyIdentity(w, LiveSub(w).value) else SyncToStored(w);
    if LiveSub(w).Some? { ApplyIdentityHush(w, LiveSub(w).value); } else { SyncHush(w); }
    GroupVoice(moved);
    SpendSessionVoice(ApplyGroup(moved));
    SameVoiceHush(moved, ApplyGroup(moved));
    SameVoiceHush(ApplyGroup(moved), ApplySession(w));
    HushTransitive(w, moved, ApplyGroup(moved));
    HushTransitive(w, ApplyGroup(moved), ApplySession(w));
  }

  lemma RunHush(w: SeamState, item: Item)
    ensures Hush(w, Run(w, item))
  {
    hide Spawn, Capture, Hush;
    SameVoiceHush(w, w);
    match item
    case MilestoneItem(m) =>
      SpawnVoice(w, OrgWait(m, CurrentOrg(w).Some?));
      SameVoiceHush(w, Spawn(w, OrgWait(m, CurrentOrg(w).Some?)));
    case FailureItem(report) => if Capturing(w) { CaptureHush(w, FailureSent(report)); }
    case CoworkItem =>
      SpawnVoice(w, Checking);
      SameVoiceHush(w, Spawn(w, Checking));
  }

  lemma {:induction false} RunAllHush(w: SeamState, items: seq<Item>)
    ensures Hush(w, RunAll(w, items))
    decreases |items|
  {
    hide Run, Hush;
    if items == [] {
      SameVoiceHush(w, w);
    } else {
      RunHush(w, items[0]);
      RunAllHush(Run(w, items[0]), items[1..]);
      HushTransitive(w, Run(w, items[0]), RunAll(w, items));
    }
  }

  lemma SettleHush(w: SeamState)
    ensures Hush(w, Settle(w))
  {
    hide Funnel, ApplySession, SpendSession, RunAll, SpendAll, Unheld, Hush;
    SameVoiceHush(w, w);
    var empty := Unheld(w);
    UnheldVoice(w);
    SameVoiceHush(w, empty);
    ApplySessionHush(empty);
    RunAllHush(ApplySession(empty), w.held);
    HushTransitive(w, empty, ApplySession(empty));
    HushTransitive(w, ApplySession(empty), RunAll(ApplySession(empty), w.held));
    SpendSessionVoice(empty);
    SpendAllVoice(SpendSession(empty), w.held);
    SameVoiceHush(empty, SpendSession(empty));
    SameVoiceHush(SpendSession(empty), SpendAll(SpendSession(empty), w.held));
    HushTransitive(w, empty, SpendSession(empty));
    HushTransitive(w, SpendSession(empty), SpendAll(SpendSession(empty), w.held));
  }

  lemma AnnounceHush(w: SeamState)
    ensures Hush(w, AnnounceOptIn(w))
  {
    hide Capture, Hush;
    SameVoiceHush(w, w);
    if Capturing(w) { CaptureHush(w, OptIn); }
  }

  lemma ConsentOnHush(w: SeamState, here: bool, was: Option<bool>)
    ensures Hush(w, ConsentOn(w, here, was))
  {
    hide Settle, AnnounceOptIn, Hush;
    AnnounceHush(w);
    SameVoiceHush(w, w);
    var told := if here && was == Some(false) && w.answered == Some(true) then AnnounceOptIn(w) else w;
    SettleHush(told);
    HushTransitive(w, told, Settle(told));
  }

  lemma NoteHush(w: SeamState, f: Facts)
    ensures Hush(w, NoteSession(w, f))
  {
    hide Funnel, SyncToStored, Persist, ApplySession, SpendSession, OrgArrived, LeftAccount, Hush;
    var noted := w.(session := Some(f));
    NotedVoice(w, f);
    SameVoiceHush(w, noted);
    if w.adopted && !f.unknown {
      var forgot := noted.(storedSub := None);
      NamedVoice(noted, noted.identifiedAs, None, noted.everIdentified, noted.lastPersisted);
      SameVoiceHush(noted, forgot);
      SyncHush(forgot);
      var synced := SyncToStored(forgot);
      NamedVoice(synced, None, synced.storedSub, synced.everIdentified, None);
      SameVoiceHush(synced, synced.(identifiedAs := None, lastPersisted := None));
      HushTransitive(noted, forgot, synced);
      HushTransitive(noted, synced, synced.(identifiedAs := None, lastPersisted := None));
      SameVoiceHush(noted, noted);
      var left := if LeftAccount(noted, f) then synced.(identifiedAs := None, lastPersisted := None) else noted;
      HushTransitive(w, noted, left);
      NoteSettlesHush(w, left);
    }
  }

  lemma NotedVoice(w: SeamState, f: Facts)
    ensures SameVoice(w, w.(session := Some(f)))
  {
  }

  lemma NoteSettlesHush(w: SeamState, left: SeamState)
    requires Hush(w, left)
    ensures var saved := Persist(left);
            Hush(w, OrgArrived(match Funnel(saved)
                               case Open => ApplySession(saved)
                               case Refused => SpendSession(saved)
                               case _ => saved))
  {
    hide Funnel, Persist, ApplySession, SpendSession, OrgArrived, Hush;
    var saved := Persist(left);
    PersistVoice(left);
    SameVoiceHush(left, saved);
    HushTransitive(w, left, saved);
    var settled := match Funnel(saved)
                   case Open => ApplySession(saved)
                   case Refused => SpendSession(saved)
                   case _ => saved;
    ApplySessionHush(saved);
    SpendSessionVoice(saved);
    SameVoiceHush(saved, SpendSession(saved));
    SameVoiceHush(saved, saved);
    HushTransitive(w, saved, settled);
    OrgArrivedVoice(settled);
    SameVoiceHush(settled, OrgArrived(settled));
    HushTransitive(w, settled, OrgArrived(settled));
  }

  lemma ToldVoice(w: SeamState, next: Identity)
    ensures SameVoice(w, w.(storedSub := next.sub, storedOrg := next.org, storedMode := next.mode,
                            everIdentified := w.everIdentified || next.ever))
  {
  }

  lemma FollowHush(w: SeamState, next: Identity)
    ensures Hush(w, FollowIdentity(w, next))
  {
    hide Funnel, SyncToStored, ResetClient, PersistedAsSomeone, ApplyGroup, OrgArrived, Hush;
    var told := w.(storedSub := next.sub, storedOrg := next.org, storedMode := next.mode,
                   everIdentified := w.everIdentified || next.ever);
    ToldVoice(w, next);
    SameVoiceHush(w, told);
    SameVoiceHush(told, told);
    SyncHush(told);
    var synced := if next.sub.None? || Funnel(told) == Open then SyncToStored(told) else told;
    var moved :=
      if synced.storedSub.None? && synced.identifiedAs.None? && synced.everIdentified && synced.started && PersistedAsSomeone(synced)
      then ResetClient(synced) else synced;
    SameVoiceHush(synced, synced);
    ResetHush(synced);
    GroupVoice(moved);
    OrgArrivedVoice(ApplyGroup(moved));
    SameVoiceHush(moved, ApplyGroup(moved));
    SameVoiceHush(ApplyGroup(moved), FollowIdentity(w, next));
    HushTransitive(w, told, synced);
    HushTransitive(w, synced, moved);
    HushTransitive(w, moved, ApplyGroup(moved));
    HushTransitive(w, ApplyGroup(moved), FollowIdentity(w, next));
  }

  lemma ReadHush(w: SeamState, answer: Option<Identity>)
    ensures Hush(w, IdentityRead(w, answer))
  {
    hide NoteSession, Hush;
    var known := (if answer.Some? then Adopt(w, answer.value) else w).(adopted := true);
    AdoptedVoice(w, answer);
    SameVoiceHush(w, known);
    if known.session.Some? {
      NoteHush(known, known.session.value);
      HushTransitive(w, known, NoteSession(known, known.session.value));
    }
  }

  lemma AdoptedVoice(w: SeamState, answer: Option<Identity>)
    ensures SameVoice(w, (if answer.Some? then Adopt(w, answer.value) else w).(adopted := true))
  {
    if answer.Some? {
    } else {
    }
  }

  lemma OfferHush(w: SeamState, item: Item)
    ensures Hush(w, Offer(w, item))
  {
    hide Run, Spend, Hold, Funnel, Hush;
    RunHush(w, item);
    SpendVoice(w, item);
    SameVoiceHush(w, Spend(w, item));
    HoldVoice(w, item);
    SameVoiceHush(w, Hold(w, item));
    SameVoiceHush(w, w);
  }

  lemma HoldVoice(w: SeamState, item: Item)
    ensures SameVoice(w, Hold(w, item))
  {
    if Offered(w, item) {
      var failures := w.heldFailures + if item.FailureItem? then 1 else 0;
      assert SameVoice(w, w.(held := w.held + [item], heldFailures := failures));
    }
  }

  lemma EnterHush(w: SeamState, item: Item)
    ensures Hush(w, Enter(w, item))
  {
    hide Offer, Funnel, Hush;
    OfferHush(w, item);
    SameVoiceHush(w, w);
    if item.MilestoneItem? {
      var noted := w.(heldMarkers := w.heldMarkers + {item.milestone});
      SameVoiceHush(w, noted);
      OfferHush(noted, item);
      HushTransitive(w, noted, Offer(noted, item));
    }
  }

  lemma OrgWaitedVoice(w: SeamState, m: Milestone)
    ensures SameVoice(w, OrgWaited(w, m))
  {
    hide ApplyGroup, SpendMarker, Spawn, SameVoice, Capturing;
    if m in w.asked {
      SameVoiceItself(w);
    } else if w.consent == Some(false) {
      SpendMarkerVoice(w, m);
    } else if !Capturing(w) {
      SameVoiceItself(w);
    } else {
      GroupVoice(w);
      AskingVoice(w, ApplyGroup(w), m);
    }
  }

  lemma SpendMarkerVoice(w: SeamState, m: Milestone)
    ensures SameVoice(w, SpendMarker(w, m))
  {
  }

  lemma AskingVoice(w: SeamState, grouped: SeamState, m: Milestone)
    requires SameVoice(w, grouped)
    ensures SameVoice(w, Spawn(grouped.(asked := grouped.asked + {m}), SendClaim(m)))
  {
  }

  lemma ClaimedHush(w: SeamState, id: nat, task: Task, answer: ClaimAnswer, report: Option<nat>)
    ensures Hush(w, Claimed(w, id, task, answer, report))
  {
    SameVoiceItself(w);
    SameVoiceHush(w, w);
    if task.SendClaim? {
      if Capturing(w) { CaptureHush(w, MilestoneSent(task.milestone, id)); }
      AskedHush(w, w.asked - {task.milestone});
    } else if task.OptOutClaim? {
      if OptOutId(w).Some? { PostedHush(w, Posted(id, OptOutId(w).value, CurrentOrg(w))); }
    } else if report.Some? {
      OfferHush(w, FailureItem(report.value));
    }
    hide Offer, Capture, Hush, OptOutId, CurrentOrg, Capturing, SameVoice;
  }

  lemma AskedHush(w: SeamState, asked: set<Milestone>)
    ensures Hush(w, w.(asked := asked))
  {
    assert SameVoice(w, w.(asked := asked));
  }

  lemma PostedHush(w: SeamState, entry: Entry)
    requires entry.Posted?
    ensures Hush(w, w.(log := w.log + [entry]))
  {
  }

  lemma BaseEventHush(w: SeamState, event: nat)
    ensures Hush(w, BaseEvent(w, event))
  {
    if w.enabled { CaptureHush(w, Base(event)); }
    SameVoiceItself(w);
    hide Capture, Deciding, Hush, SameVoice;
    if !w.enabled {
      if w.consent != Some(false) { LineHush(w, w.pending + [event]); }
      SameVoiceHush(w, w);
    }
  }

  /** The line changes while sharing is not off, or is emptied. */
  lemma LineHush(w: SeamState, pending: seq<nat>)
    requires w.consent != Some(false) || pending == []
    ensures Hush(w, w.(pending := pending))
  {
  }

  lemma SaveVoice(w: SeamState, next: Identity, answer: SaveAnswer)
    ensures SameVoice(w, SaveAnswered(w, next, answer))
  {
    hide Forgotten, SameVoice;
    if answer == Saved {
      StartedOverVoice(w);
    } else if answer == NotLive || w.retryArmed || w.retries >= PERSIST_RETRY_MAX {
      ForgottenVoice(w, Forgotten(w, next));
    } else {
      ArmedVoice(w, Forgotten(w, next));
    }
  }

  lemma StartedOverVoice(w: SeamState)
    ensures SameVoice(w, w.(retries := 0))
  {
  }

  lemma ForgottenVoice(w: SeamState, last: Option<Identity>)
    ensures SameVoice(w, w.(lastPersisted := last))
  {
  }

  lemma ArmedVoice(w: SeamState, last: Option<Identity>)
    ensures SameVoice(w, w.(lastPersisted := last, retries := w.retries + 1, retryArmed := true))
  {
  }

  lemma {:induction false} FlushHush(w: SeamState, queued: seq<nat>)
    requires !Off(w)
    ensures Hush(w, Flush(w, queued)) && !Off(Flush(w, queued))
    decreases |queued|
  {
    hide Hush, Off;
    if queued == [] {
      SameVoiceHush(w, w);
    } else {
      var sent := Capture(w, Base(queued[0]));
      CaptureHush(w, Base(queued[0]));
      CaptureNotOff(w, Base(queued[0]));
      FlushHush(sent, queued[1..]);
      HushTransitive(w, sent, Flush(w, queued));
    }
  }

  lemma CaptureNotOff(w: SeamState, what: What)
    ensures Off(Capture(w, what)) == Off(w)
  {
  }

  /** `startPosthog` leaves both answers alone, and a window that is off stays silent. */
  lemma ClientStartedHush(w: SeamState, installKnown: bool)
    ensures Hush(w, ClientStarted(w, installKnown))
  {
    hide Flush, Constructed;
    ConstructedKeeps(w, installKnown);
    var own := Constructed(w, installKnown);
    if own.consent == Some(true) {
      var ready := own.(client := own.client.(optedOut := false), enabled := true, pending := []);
      FlushHush(ready, own.pending);
    } else {
    }
  }

  lemma ConstructedKeeps(w: SeamState, installKnown: bool)
    ensures var r := Constructed(w, installKnown);
            r.consent == w.consent && r.answered == w.answered && r.enabled == w.enabled && r.log == w.log
  {
    hide BootstrapId, PersistedAsSomeone;
    var up := Bootstrapped(w, installKnown);
    assert ResetClient(up).enabled == up.enabled && ResetClient(up).answered == up.answered;
  }

  // ---- The two events that carry an answer ----

  lemma TurnOnAnswers(w: SeamState, here: bool)
    ensures TurnOn(w, here).consent == Some(true) && TurnOn(w, here).answered == w.answered
  {
    hide ConsentOn, Spawn, StartClient, Hush;
    var told := w.(consent := Some(true));
    var up := told.(client := told.client.(optedOut := false), enabled := true);
    StartVoice(told);
    SpawnVoice(StartClient(told), Consenting(here, w.consent));
    ConsentOnHush(told, here, w.consent);
    ConsentOnHush(up, here, w.consent);
    HushAnswers(told, ConsentOn(told, here, w.consent));
    HushAnswers(up, ConsentOn(up, here, w.consent));
  }

  lemma HushAnswers(w: SeamState, r: SeamState)
    requires Hush(w, r)
    ensures r.consent == w.consent && r.answered == w.answered
  {
  }

  /** Turning sharing off leaves it off, and sends nothing on the way. */
  lemma TurnOffHush(w: SeamState, record: bool)
    ensures var quiet := OptOutClient(w.(consent := Some(false), enabled := false, pending := []));
            Off(quiet) && quiet.answered == w.answered && quiet.log == w.log && Hush(quiet, TurnOff(w, record))
  {
    hide Settle, Spawn, Hush;
    var quiet := OptOutClient(w.(consent := Some(false), enabled := false, pending := []));
    SpawnVoice(quiet, OptOutClaim);
    SameVoiceHush(quiet, quiet);
    SameVoiceHush(quiet, Spawn(quiet, OptOutClaim));
    var last := if record then Spawn(quiet, OptOutClaim) else quiet;
    SettleHush(last);
    HushTransitive(quiet, last, Settle(last));
  }

  lemma ConsentSetAnswers(w: SeamState, on: bool, recorded: bool, here: bool)
    ensures var r := ApplyConsent(w, on, recorded, here);
            && r.consent == Some(on) && r.answered == (if recorded then Some(true) else w.answered)
            && (!on ==> StaysSilent(w, r))
  {
    hide TurnOn, TurnOff;
    var told := if recorded then w.(answered := Some(true)) else w;
    assert told.log == w.log && told.answered == (if recorded then Some(true) else w.answered) by {
      if recorded {
      } else {
      }
    }
    if on {
      TurnOnAnswers(told, here);
    } else {
      TurnOffHush(told, here && w.consent == Some(true) && w.hasKey);
    }
  }

  lemma BootDecidesHush(w: SeamState)
    ensures Hush(w, BootDecides(w))
  {
    hide Settle, StartClient, Hush;
    if w.consent != Some(true) {
      var dropped := w.(pending := []);
      var booted := dropped.(boot := Booted);
      assert booted == w.(pending := [], boot := Booted);
      LineHush(w, []);
      SameVoiceHush(dropped, booted);
      SettleHush(booted);
      HushTransitive(w, dropped, booted);
      HushTransitive(w, booted, Settle(booted));
    } else {
      StartVoice(w.(boot := StartingClient));
      SameVoiceHush(w, StartClient(w.(boot := StartingClient)));
    }
  }

  function ShareOf(prefs: Option<Preferences>): Option<bool> {
    if prefs.Some? then Some(prefs.value.share) else None
  }

  function RecordedOf(prefs: Option<Preferences>): Option<bool> {
    if prefs.Some? then Some(prefs.value.recorded) else None
  }

  /** A read fills in what nobody has answered, and only that. */
  lemma PreferencesAnswer(w: SeamState, prefs: Option<Preferences>)
    ensures var r := PreferencesRead(w, prefs);
            && (w.consent.Some? ==> r.consent == w.consent) && (w.consent.None? ==> r.consent == ShareOf(prefs))
            && (w.answered.Some? ==> r.answered == w.answered) && (w.answered.None? ==> r.answered == RecordedOf(prefs))
            && (Off(w) ==> StaysSilent(w, r))
  {
    hide BootDecides, Hush;
    var consent := w.consent.OrElse(if prefs.Some? then Some(prefs.value.share) else None);
    var answered := w.answered.OrElse(if prefs.Some? then Some(prefs.value.recorded) else None);
    var known := w.(consent := consent, answered := answered);
    BootDecidesHush(known);
    HushAnswers(known, BootDecides(known));
    if Off(w) { KnownHush(w, known, BootDecides(known)); }
  }

  lemma KnownHush(w: SeamState, known: SeamState, r: SeamState)
    requires Off(w) && Hush(known, r) && known.log == w.log && known.enabled == w.enabled && known.started == w.started
    requires known.client == w.client && known.consent == w.consent && known.pending == w.pending
    ensures StaysSilent(w, r)
  {
  }

  // ---- One step ----

  predicate Answers(e: Event) {
    e.ConsentSet? || e.PreferencesReply?
  }

  lemma TaskHush(w: SeamState, e: Event)
    requires Enabled(w, e)
    requires e.ConsentResumes? || e.WaitOver? || e.ClaimReply? || e.OrgResumes? || e.SaveReply? || e.CoworkReply?
    ensures Hush(w, Step(w, e))
  {
    hide Hush, ConsentOn, SaveAnswered, Spawn, Enter, OrgWaited, Claimed, Finish;
    var base := Finish(w, e.id);
    FinishVoice(w, e.id);
    SameVoiceHush(w, base);
    match e {
    case ConsentResumes(id) => ConsentOnHush(base, w.tasks[id].here, w.tasks[id].was);
    case WaitOver(id) => EnterHush(base, w.tasks[id].item);
    case ClaimReply(id, answer, report) => ClaimedHush(base, id, w.tasks[id], answer, report);
    case OrgResumes(id) =>
      OrgWaitedVoice(base, w.tasks[id].milestone);
      SameVoiceHush(base, OrgWaited(base, w.tasks[id].milestone));
    case SaveReply(id, answer) =>
      SaveVoice(base, w.tasks[id].next, answer);
      SameVoiceHush(base, SaveAnswered(base, w.tasks[id].next, answer));
    case CoworkReply(id, detail) =>
      SameVoiceHush(base, base);
      if detail.Some? {
        SpawnVoice(base, CoworkClaim(detail.value));
        SameVoiceHush(base, Spawn(base, CoworkClaim(detail.value)));
      }
    }
    HushTransitive(w, base, Step(w, e));
  }

  lemma QuietHush(w: SeamState, e: Event)
    requires Enabled(w, e)
    requires e.InitAnalytics? || e.RetryTimer? || e.MilestoneReached? || e.CoworkToolConnected? || e.OrgTimer?
    ensures Hush(w, Step(w, e))
  {
    hide Hush, BeginBoot, Persist, Track, Spawn;
    match e
    case InitAnalytics => BeginBootVoice(w); SameVoiceHush(w, BeginBoot(w));
    case RetryTimer => PersistVoice(w.(retryArmed := false)); SameVoiceHush(w, Step(w, e));
    case MilestoneReached(m) => TrackVoice(w, m); SameVoiceHush(w, Track(w, m));
    case CoworkToolConnected => SpawnVoice(w, Waiting(CoworkItem, w.boot != NotBooted)); SameVoiceHush(w, Step(w, e));
    case OrgTimer(id) => SameVoiceHush(w, Step(w, e));
  }

  lemma BeginBootVoice(w: SeamState)
    ensures SameVoice(w, BeginBoot(w))
  {
    if w.hasKey {
      assert SameVoice(w, w.(boot := ReadingPreferences, loading := true));
    } else {
      assert SameVoice(w, w.(boot := Booted));
    }
  }

  lemma FinishBootHush(w: SeamState)
    ensures Hush(w, FinishBoot(w))
  {
    hide Settle, Track, Hush;
    var booted := w.(boot := Booted);
    SameVoiceHush(w, booted);
    SettleHush(booted);
    TrackVoice(Settle(booted), FirstLaunched);
    SameVoiceHush(Settle(booted), FinishBoot(w));
    HushTransitive(w, booted, Settle(booted));
    HushTransitive(w, Settle(booted), FinishBoot(w));
  }

  /** Only an answer given, or the boot's read, changes an answer; and a window that is off stays silent. */
  lemma StepHush(w: SeamState, e: Event)
    requires Enabled(w, e) && !Answers(e)
    ensures Hush(w, Step(w, e))
  {
    hide Hush, IdentityRead, ClientStarted, FinishBoot, NoteSession, FollowIdentity, BaseEvent, Offer, ConsentOn, Finish;
    match e
    case IdentityReply(answer) => ReadHush(w, answer);
    case StartReply(installKnown) => ClientStartedHush(w, installKnown);
    case BootResumes => FinishBootHush(w);
    case SessionNoted(facts) => NoteHush(w, facts);
    case IdentityBroadcast(next) => FollowHush(w, next);
    case Tracked(event) => BaseEventHush(w, event);
    case ConnectionFailed(failure) => OfferHush(w, FailureItem(failure));
    case InitAnalytics => QuietHush(w, e);
    case RetryTimer => QuietHush(w, e);
    case MilestoneReached(_) => QuietHush(w, e);
    case CoworkToolConnected => QuietHush(w, e);
    case OrgTimer(_) => QuietHush(w, e);
    case _ => TaskHush(w, e);
  }

  // ---- Whole runs ----

  /** The last answer given before event `n`, in this window or told by another. */
  function LastGiven(events: seq<Event>, n: nat): Option<bool>
    requires n <= |events|
    decreases n
  {
    if n == 0 then None
    else if events[n - 1].ConsentSet? then Some(events[n - 1].on)
    else LastGiven(events, n - 1)
  }

  /** What the preferences said of sharing when they were first read before event `n`, and readable. */
  function FirstRead(events: seq<Event>, n: nat): Option<bool>
    requires n <= |events|
    decreases n
  {
    if n == 0 then None
    else if events[n - 1].PreferencesReply? && FirstRead(events, n - 1).None? then ShareOf(events[n - 1].prefs)
    else FirstRead(events, n - 1)
  }

  function FirstReadRecorded(events: seq<Event>, n: nat): Option<bool>
    requires n <= |events|
    decreases n
  {
    if n == 0 then None
    else if events[n - 1].PreferencesReply? && FirstReadRecorded(events, n - 1).None? then RecordedOf(events[n - 1].prefs)
    else FirstReadRecorded(events, n - 1)
  }

  /** Some answer before event `n` was recorded as one. */
  ghost predicate Recorded(events: seq<Event>, n: nat)
    requires n <= |events|
  {
    exists k :: 0 <= k < n && events[k].ConsentSet? && events[k].recorded
  }

  /** At every point of every run: sharing is what was last answered, whenever the preferences were read;
      what they said, if nobody has answered; and unknown before. The question counts as answered from the
      first recorded answer on, and by what the preferences said before that. */
  lemma {:induction false} AnswersAreKept(states: seq<SeamState>, events: seq<Event>, n: nat)
    requires IsRun(states, events) && Launch(states[0]) && n < |states|
    ensures states[n].consent == if LastGiven(events, n).Some? then LastGiven(events, n) else FirstRead(events, n)
    ensures states[n].answered == if Recorded(events, n) then Some(true) else FirstReadRecorded(events, n)
    decreases n
  {
    hide Step, Enabled, Launch, Hush, ShareOf, RecordedOf;
    if n == 0 {
      NothingAnswered(states[0]);
    } else {
      AnswersAreKept(states, events, n - 1);
      var w, e := states[n - 1], events[n - 1];
      assert Recorded(events, n) <==> Recorded(events, n - 1) || (e.ConsentSet? && e.recorded);
      match e
      case ConsentSet(on, recorded, here) =>
        ConsentSetAnswers(w, on, recorded, here);
        AnswerSteps(w, e);
      case PreferencesReply(prefs) =>
        PreferencesAnswer(w, prefs);
        AnswerSteps(w, e);
      case _ =>
        StepHush(w, e);
        HushAnswers(w, Step(w, e));
    }
    hide ApplyConsent, PreferencesRead;
  }

  lemma AnswerSteps(w: SeamState, e: Event)
    requires Enabled(w, e)
    ensures e.ConsentSet? ==> Step(w, e) == ApplyConsent(w, e.on, e.recorded, e.here)
    ensures e.PreferencesReply? ==> Step(w, e) == PreferencesRead(w, e.prefs)
  {
    hide ApplyConsent, PreferencesRead;
  }

  lemma NothingAnswered(w: SeamState)
    requires Launch(w)
    ensures w.consent.None? && w.answered.None?
  {
  }

  /** The answer given in event `i` stands until another is given. */
  lemma {:induction false} LastGivenIs(events: seq<Event>, i: nat, n: nat)
    requires i < n <= |events| && events[i].ConsentSet? && forall j :: i < j < n ==> !events[j].ConsentSet?
    ensures LastGiven(events, n) == Some(events[i].on)
    decreases n
  {
    if n > i + 1 { LastGivenIs(events, i, n - 1); }
  }

  /** After a "no", and until a "yes", nothing is sent and nothing waits to be: not by what was in flight when it was given, nor by
      a read of the preferences that answers later, nor by a client that comes up. */
  lemma {:induction false} NoIsSilence(states: seq<SeamState>, events: seq<Event>, i: nat, n: nat)
    requires IsRun(states, events) && Launch(states[0]) && i < n < |states|
    requires events[i].ConsentSet? && !events[i].on
    requires forall j :: i < j < n ==> !(events[j].ConsentSet? && events[j].on)
    ensures states[n].consent == Some(false) && !states[n].enabled && states[n].pending == []
    ensures states[i].log <= states[n].log
    ensures forall k :: |states[i].log| <= k < |states[n].log| ==> !states[n].log[k].Sent?
    decreases n
  {
    hide Step, Enabled, Launch;
    SilentAlong(states, events, i, n);
    hide Capturing;
  }

  lemma {:induction false} SilentAlong(states: seq<SeamState>, events: seq<Event>, i: nat, n: nat)
    requires IsRun(states, events) && i < n < |states|
    requires events[i].ConsentSet? && !events[i].on
    requires forall j :: i < j < n ==> !(events[j].ConsentSet? && events[j].on)
    ensures StaysSilent(states[i], states[n])
    decreases n
  {
    hide Step, Enabled, StaysSilent, Off, Hush;
    var w, e := states[n - 1], events[n - 1];
    AnswerSteps(w, e);
    if n == i + 1 {
      ConsentSetAnswers(w, e.on, e.recorded, e.here);
    } else {
      SilentAlong(states, events, i, n - 1);
      assert Off(w) by { SilentIsOff(states[i], w); }
      SilentStep(w, e);
      SilentTransitive(states[i], w, Step(w, e));
    }
    hide ApplyConsent, PreferencesRead;
  }

  lemma SilentIsOff(w: SeamState, r: SeamState)
    requires StaysSilent(w, r)
    ensures Off(r)
  {
  }

  lemma SilentStep(w: SeamState, e: Event)
    requires Enabled(w, e) && Off(w) && !(e.ConsentSet? && e.on)
    ensures StaysSilent(w, Step(w, e))
  {
    hide Step, Enabled, StaysSilent, Off;
    AnswerSteps(w, e);
    match e
    case ConsentSet(on, recorded, here) => ConsentSetAnswers(w, on, recorded, here);
    case PreferencesReply(prefs) => PreferencesAnswer(w, prefs);
    case _ => StepHush(w, e);
    hide ApplyConsent, PreferencesRead;
  }

  lemma SilentTransitive(a: SeamState, b: SeamState, c: SeamState)
    requires StaysSilent(a, b) && StaysSilent(b, c)
    ensures StaysSilent(a, c)
  {
    hide Off;
    forall k | |a.log| <= k < |c.log| ensures !c.log[k].Sent? {
      if k < |b.log| { assert c.log[k] == b.log[k]; }
    }
  }
}
