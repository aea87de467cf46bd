/**
 A window's client as it starts: it comes up on the name the identity read
 gave, and what was queued goes out under it. When that name has left by then.
 */
module AnalyticsStart {
  import opened Options
  import opened AnalyticsState
  import opened AnalyticsInvariant
  import opened AnalyticsSteps
  import opened AnalyticsTheorems
  import opened AnalyticsIdentity

  // ---- What a window does before its client is up ----

  /** A session note that is a known end of any account: signed out, or an API key. */
  predicate Ends(f: Facts) {
    !f.unknown && (!f.signedIn || f.mode == Some(ApiKey))
  }

  /** Noted before the start: a known end takes the name off, and off what the window has of the record. */
  lemma NoteBeforeStart(w: SeamState, f: Facts)
    requires !w.started && w.adopted
    ensures Stands(NoteSession(w, f)) ==
            (if !f.unknown && LeftAccount(w, f) then Stands(w).(session := Some(f), storedSub := None, identifiedAs := None)
             else Stands(w).(session := Some(f)))
  {
    hide Funnel, SyncToStored, Persist, ApplySession, SpendSession, OrgArrived;
    var noted := w.(session := Some(f));
    SyncToStoredStands(noted.(storedSub := None));
    var left := if LeftAccount(noted, f)
                then SyncToStored(noted.(storedSub := None)).(identifiedAs := None, lastPersisted := None)
                else noted;
    var saved := Persist(left);
    PersistStands(left);
    OpenIsStarted(saved);
    SpendSessionStands(saved);
    OrgArrivedStands(SpendSession(saved));
    OrgArrivedStands(saved);
  }

  /** Heard before the start: the record follows, the name does not. */
  lemma HearBeforeStart(w: SeamState, next: Identity)
    requires !w.started
    ensures Stands(FollowIdentity(w, next)) == Stands(w).(storedSub := next.sub, ever := w.everIdentified || next.ever)
  {
    hide Funnel, SyncToStored, ApplyGroup, OrgArrived, PersistedAsSomeone;
    var told := w.(storedSub := next.sub, storedOrg := next.org, storedMode := next.mode,
                   everIdentified := w.everIdentified || next.ever);
    SyncToStoredStands(told);
    var synced := if next.sub.None? || Funnel(told) == Open then SyncToStored(told) else told;
    ApplyGroupStands(synced);
    OrgArrivedStands(ApplyGroup(synced));
  }

  lemma ReadBeforeStart(w: SeamState, stored: Identity)
    requires !w.started
    ensures var r := IdentityRead(w, Some(stored));
            && !r.started && r.adopted && r.everIdentified == stored.ever
            && (stored.sub.Some? ==>
                  if w.session.Some? && Ends(w.session.value) then r.identifiedAs.None?
                  else r.identifiedAs == r.storedSub == stored.sub)
  {
    hide NoteSession;
    var known := Adopt(w, stored).(adopted := true);
    if known.session.Some? {
      NoteBeforeStart(known, known.session.value);
    }
  }

  /** The base events queued before the start, as the client that came up sends them. */
  function Flushed(w: SeamState, queued: seq<nat>): seq<Entry> {
    seq(|queued|, i requires 0 <= i < |queued| =>
      Sent(Base(queued[i]), w.client.id, w.client.group, w.consent, w.answered, w.client.optedOut))
  }

  lemma {:induction false} FlushSends(w: SeamState, queued: seq<nat>)
    ensures Flush(w, queued).log == w.log + Flushed(w, queued)
    ensures Stands(Flush(w, queued)) == Stands(w)
    decreases |queued|
  {
    if queued == [] {
      assert w.log + Flushed(w, queued) == w.log;
    } else {
      var sent := Capture(w, Base(queued[0]));
      FlushSends(sent, queued[1..]);
      assert Flushed(w, queued) == [Flushed(w, queued)[0]] + Flushed(sent, queued[1..]);
    }
  }

  /** Neither what is queued, nor sharing, nor the record, is moved. */
  predicate SameQueue(w: SeamState, r: SeamState) {
    r.storedSub == w.storedSub && r.log == w.log && r.consent == w.consent && r.pending == w.pending
  }

  lemma BootstrappedStands(w: SeamState, installKnown: bool)
    ensures var up := Bootstrapped(w, installKnown);
            && SameQueue(w, up) && up.started && up.identifiedAs == w.identifiedAs && up.everIdentified == w.everIdentified
            && up.client.id == BootstrapId(w, installKnown)
  {
    hide BootstrapId;
  }

  lemma ResetStands(w: SeamState)
    ensures SameQueue(w, ResetClient(w)) && ResetClient(w).started == w.started && !ResetClient(w).client.id.Account?
  {
  }

  lemma ConstructedStands(w: SeamState, installKnown: bool)
    ensures var up := Constructed(w, installKnown);
            && SameQueue(w, up) && up.started
            && (w.identifiedAs.Some? ==> up.client.id == Account(w.identifiedAs.value))
            && (w.identifiedAs.None? && w.everIdentified ==> !up.client.id.Account?)
  {
    BootstrappedStands(w, installKnown);
    ResetStands(Bootstrapped(w, installKnown));
    hide Bootstrapped, ResetClient;
  }

  /** A start sends what was queued, under the id the client came up on, if sharing is on. */
  lemma StartSends(w: SeamState, installKnown: bool)
    ensures var own, r := Constructed(w, installKnown), ClientStarted(w, installKnown);
            && r.started == own.started && r.client.id == own.client.id && r.storedSub == own.storedSub
            && |r.log| == |own.log| + (if own.consent == Some(true) then |own.pending| else 0)
            && own.log <= r.log && (forall k :: |own.log| <= k < |r.log| ==> FiledAs(r.log[k]) == Some(r.client.id))
  {
    hide Flush, Constructed;
    var own := Constructed(w, installKnown);
    if own.consent == Some(true) {
      var ready := own.(client := own.client.(optedOut := false), enabled := true, pending := []);
      assert ClientStarted(w, installKnown) == Flush(ready, own.pending);
      FlushSends(ready, own.pending);
    } else {
    }
  }

  lemma ClientStartedIsUp(w: SeamState, installKnown: bool)
    ensures ClientStarted(w, installKnown).started
  {
    ConstructedStands(w, installKnown);
    StartSends(w, installKnown);
    hide Constructed, ClientStarted;
  }

  lemma StartedStays(w: SeamState, e: Event)
    requires Inv(w) && Enabled(w, e) && WellFormed(e)
    ensures w.started || e.StartReply? ==> Step(w, e).started
  {
    StepKeeps(w, e);
    if e.StartReply? {
      StepsHandle(w, e);
      ClientStartedIsUp(w, e.installKnown);
    }
    hide Inv, Enabled, Step, ClientStarted;
  }

  // ---- From the identity read to the start ----

  /** The last record broadcast after event `r` and before event `n`. */
  function LastHeard(events: seq<Event>, r: nat, n: nat): Option<Identity>
    requires n <= |events|
    decreases n
  {
    if n <= r + 1 then None
    else if events[n - 1].IdentityBroadcast? then Some(events[n - 1].next)
    else LastHeard(events, r, n - 1)
  }

  /** A known end of the account stands noted when event `r` reads the identity, or is noted after it. */
  ghost predicate Ended(states: seq<SeamState>, events: seq<Event>, r: nat, n: nat)
    requires r < |states| && n <= |events|
  {
    || (states[r].session.Some? && Ends(states[r].session.value))
    || exists k :: r < k < n && events[k].SessionNoted? && Ends(events[k].facts)
  }

  /** Where a window that read account `a` stands until its client is up. */
  ghost predicate Awaits(w: SeamState, a: Sub, ended: bool, heard: Option<Identity>) {
    && !w.started && w.adopted && w.everIdentified
    && if ended then w.identifiedAs.None?
       else w.identifiedAs == Some(a) && w.storedSub == if heard.Some? then heard.value.sub else Some(a)
  }

  lemma AwaitStep(w: SeamState, e: Event, a: Sub, ended: bool, heard: Option<Identity>)
    requires Awaits(w, a, ended, heard) && Enabled(w, e) && !Step(w, e).started
    requires e.StartReply? ==> Step(w, e).started
    ensures Awaits(Step(w, e), a, ended || (e.SessionNoted? && Ends(e.facts)),
                   if e.IdentityBroadcast? then Some(e.next) else heard)
  {
    hide Step;
    if e.SessionNoted? {
      NoteBeforeStart(w, e.facts);
      assert Step(w, e) == NoteSession(w, e.facts) by { StepsHandle(w, e); }
    } else if e.IdentityBroadcast? {
      HearBeforeStart(w, e.next);
      assert Step(w, e) == FollowIdentity(w, e.next) by { StepsHandle(w, e); }
    } else {
      StepStands(w, e);
    }
    hide NoteSession, FollowIdentity;
  }

  lemma {:induction false} UntilStart(states: seq<SeamState>, events: seq<Event>, r: nat, n: nat, a: Sub)
    requires IsRun(states, events) && Launch(states[0]) && r < n < |states| && !states[n].started
    requires events[r].IdentityReply? && events[r].answer.Some? && events[r].answer.value.sub == Some(a)
    ensures Awaits(states[n], a, Ended(states, events, r, n), LastHeard(events, r, n))
    decreases n
  {
    hide Step, Enabled, Launch, Inv, Awaits, Ends;
    RunKeepsInv(states, events, n - 1);
    var w, e := states[n - 1], events[n - 1];
    StartedStays(w, e);
    if n == r + 1 {
      ReadAwaits(w, e, a);
    } else {
      UntilStart(states, events, r, n - 1, a);
      AwaitStep(w, e, a, Ended(states, events, r, n - 1), LastHeard(events, r, n - 1));
      assert Ended(states, events, r, n) <==> Ended(states, events, r, n - 1) || (e.SessionNoted? && Ends(e.facts));
    }
  }

  lemma ReadAwaits(w: SeamState, e: Event, a: Sub)
    requires Enabled(w, e) && WellFormed(e) && !w.started
    requires e.IdentityReply? && e.answer.Some? && e.answer.value.sub == Some(a)
    ensures Awaits(Step(w, e), a, w.session.Some? && Ends(w.session.value), None)
  {
    ReadBeforeStart(w, e.answer.value);
    hide IdentityRead;
  }

  /** The id a client that read account `a` comes up on, and what it then sends. */
  lemma ComesUp(w: SeamState, installKnown: bool, a: Sub, ended: bool, heard: Option<Identity>)
    requires Awaits(w, a, ended, heard)
    ensures var up := ClientStarted(w, installKnown);
            && up.storedSub == w.storedSub
            && (if ended then !up.client.id.Account? else up.client.id == Account(a))
            && |up.log| == |w.log| + (if w.consent == Some(true) then |w.pending| else 0)
            && (forall k :: |w.log| <= k < |up.log| ==> FiledAs(up.log[k]) == Some(up.client.id))
  {
    ConstructedStands(w, installKnown);
    StartSends(w, installKnown);
    hide Constructed, ClientStarted;
  }

  /** The client has come up on an account that the record, as this window last heard it, does not name. */
  predicate UpOnTheDeparted(w: SeamState) {
    w.client.id.Account? && w.storedSub != Some(w.client.id.sub)
  }

  /** Event `i` files an event under such an account. */
  ghost predicate FilesUnderTheDeparted(w: SeamState, r: SeamState) {
    UpOnTheDeparted(r) && exists k :: |w.log| <= k < |r.log| && FiledAs(r.log[k]) == Some(r.client.id)
  }

  /** In every run, a client whose identity read named an account comes up on an account the record no
      longer names exactly when no known end of the session was noted by then, and the last broadcast
      since the read names another or nobody. It then files an event there, at once, exactly when sharing
      is on and something was queued. */
  lemma StartsOnTheDepartedIff(states: seq<SeamState>, events: seq<Event>, r: nat, i: nat, a: Sub)
    requires IsRun(states, events) && Launch(states[0]) && r < i < |events| && events[i].StartReply?
    requires events[r].IdentityReply? && events[r].answer.Some? && events[r].answer.value.sub == Some(a)
    ensures UpOnTheDeparted(states[i + 1]) <==>
              !Ended(states, events, r, i) && LastHeard(events, r, i).Some? && LastHeard(events, r, i).value.sub != Some(a)
    ensures FilesUnderTheDeparted(states[i], states[i + 1]) <==>
              UpOnTheDeparted(states[i + 1]) && states[i].consent == Some(true) && states[i].pending != []
    ensures UpOnTheDeparted(states[i + 1]) ==> states[i + 1].client.id == Account(a)
  {
    hide Step, Launch, Ended, LastHeard, ClientStarted;
    var w, up := states[i], states[i + 1];
    StartWaits(w, events[i]);
    UntilStart(states, events, r, i, a);
    StepsHandle(w, events[i]);
    hide Enabled;
    ComesUp(w, events[i].installKnown, a, Ended(states, events, r, i), LastHeard(events, r, i));
    if w.consent == Some(true) && w.pending != [] {
      assert FiledAs(up.log[|w.log|]) == Some(up.client.id);
    }
  }

  // ---- A start without a name ----

  predicate Names(e: Event) {
    e.IdentityReply? && e.answer.Some? && e.answer.value.sub.Some?
  }

  lemma NamelessStep(w: SeamState, e: Event)
    requires Inv(w) && Enabled(w, e) && !w.started && w.identifiedAs.None? && !Names(e) && !e.StartReply?
    ensures Step(w, e).identifiedAs.None?
  {
    hide Step;
    if e.SessionNoted? {
      if w.adopted { NoteBeforeStart(w, e.facts); }
      assert Step(w, e) == NoteSession(w, e.facts) by { StepsHandle(w, e); }
    } else if e.IdentityBroadcast? {
      HearBeforeStart(w, e.next);
      assert Step(w, e) == FollowIdentity(w, e.next) by { StepsHandle(w, e); }
    } else if e.IdentityReply? {
      ReadsNoName(w, e);
    } else {
      StepStands(w, e);
    }
    hide NoteSession, FollowIdentity, Inv;
  }

  lemma ReadsNoName(w: SeamState, e: Event)
    requires Enabled(w, e) && e.IdentityReply? && !Names(e) && !w.started && w.identifiedAs.None?
    ensures Step(w, e).identifiedAs.None?
  {
    hide NoteSession;
    var known := (if e.answer.Some? then Adopt(w, e.answer.value) else w).(adopted := true);
    if known.session.Some? { NoteBeforeStart(known, known.session.value); }
  }

  lemma {:induction false} NamelessUntilStart(states: seq<SeamState>, events: seq<Event>, n: nat)
    requires IsRun(states, events) && Launch(states[0]) && n < |states| && !states[n].started
    requires forall k :: 0 <= k < n ==> !Names(events[k])
    ensures states[n].identifiedAs.None?
    decreases n
  {
    hide Step, Enabled, Inv;
    if n > 0 {
      RunKeepsInv(states, events, n - 1);
      StartedStays(states[n - 1], events[n - 1]);
      NamelessUntilStart(states, events, n - 1);
      NamelessStep(states[n - 1], events[n - 1]);
    }
  }

  lemma ComesUpNameless(w: SeamState, installKnown: bool)
    requires Inv(w) && !w.started && w.identifiedAs.None?
    ensures UpOnTheDeparted(ClientStarted(w, installKnown)) <==> !w.everIdentified && !installKnown && w.client.id.Account?
  {
    ConstructedStands(w, installKnown);
    StartSends(w, installKnown);
    if !w.everIdentified {
      assert Constructed(w, installKnown).client.id == BootstrapId(w, installKnown);
    }
    hide Constructed, ClientStarted;
  }

  /** And one whose identity read named nobody, or was not answered, comes up on an account exactly when
      the install id could not be read, nothing says the install was ever identified, and posthog-js had
      stored an account. */
  lemma StartsOnTheStoredAccountIff(states: seq<SeamState>, events: seq<Event>, i: nat)
    requires IsRun(states, events) && Launch(states[0]) && i < |events| && events[i].StartReply?
    requires forall k :: 0 <= k < i ==> !Names(events[k])
    ensures UpOnTheDeparted(states[i + 1]) <==>
              !states[i].everIdentified && !events[i].installKnown && states[i].client.id.Account?
  {
    hide Step, Launch, Inv, ClientStarted, UpOnTheDeparted;
    StartWaits(states[i], events[i]);
    RunKeepsInv(states, events, i);
    NamelessUntilStart(states, events, i);
    StepsHandle(states[i], events[i]);
    hide Enabled;
    ComesUpNameless(states[i], events[i].installKnown);
  }

  lemma StartWaits(w: SeamState, e: Event)
    requires Enabled(w, e) && e.StartReply?
    ensures !w.started
  {
  }

  /** A sign-out broadcast heard by the launch at `heard`, and a base event filed under the account
      that had left, in what the launch sent after it. */
  ghost predicate FiledAfterLeaving(states: seq<SeamState>, events: seq<Event>, heard: nat, a: Sub) {
    && IsRun(states, events) && Launch(states[0]) && heard < |events|
    && events[heard].IdentityBroadcast? && events[heard].next.sub.None?
    && (forall i :: heard < i < |events| ==> !events[i].IdentityBroadcast? && !events[i].SessionNoted?)
    && var last := states[|events|].log;
    && |states[heard].log| < |last| && last[|states[heard].log|].Sent?
    && last[|states[heard].log|].filedAs == Account(a)
  }

  // The run: a window boots, queues one event, reads that the install is account 1's, starts its
  // client, hears a sign-out, and the client comes up.

  const SIGNED_IN := Identity(Some(1), true, None, Some(OAuth))
  const SIGNED_OUT := Identity(None, true, None, None)

  function ScriptLoaded(): SeamState {
    Loaded(0, true, Client(Install, false, None))
  }

  function BootReading(): SeamState {
    ScriptLoaded().(boot := ReadingPreferences, loading := true)
  }

  function EventQueued(): SeamState {
    BootReading().(pending := [7])
  }

  function NameRead(): SeamState {
    Adopt(EventQueued(), SIGNED_IN).(adopted := true)
  }

  function ClientStarting(): SeamState {
    NameRead().(consent := Some(true), answered := Some(true), boot := StartingClient, starting := true)
  }

  function SignOutHeard(): SeamState {
    ClientStarting().(storedSub := None, storedMode := None)
  }

  function CameUp(): SeamState {
    SignOutHeard().(installKnown := true, started := true, client := Client(Account(1), false, None),
                    enabled := true, pending := [],
                    log := [Sent(Base(7), Account(1), None, Some(true), Some(true), false)])
  }

  lemma BootBegins()
    ensures Follows(ScriptLoaded(), InitAnalytics, BootReading())
    ensures Follows(BootReading(), Tracked(7), EventQueued())
  {
  }

  lemma NameIsRead()
    ensures Follows(EventQueued(), IdentityReply(Some(SIGNED_IN)), NameRead())
  {
  }

  lemma ClientStarts()
    ensures Follows(NameRead(), PreferencesReply(Some(Preferences(true, true))), ClientStarting())
  {
  }

  lemma SignOutIsHeard()
    ensures Follows(ClientStarting(), IdentityBroadcast(SIGNED_OUT), SignOutHeard())
  {
  }

  lemma ClientComesUp()
    ensures Follows(SignOutHeard(), StartReply(true), CameUp())
  {
    var up := SignOutHeard().(installKnown := true, started := true, client := Client(Account(1), false, None),
                              enabled := true, pending := []);
    assert Flush(up, [7]) == Flush(Capture(up, Base(7)), []);
  }

  lemma SentUnderTheDeparted()
    ensures Launch(ScriptLoaded()) && ClientStarting().log == []
    ensures CameUp().log == [Sent(Base(7), Account(1), None, Some(true), Some(true), false)]
  {
    assert !Drawn(0, Client(Install, false, None).id);
  }

  /** It happens: a sign-out that lands while the client is starting does not reach the queue. */
  lemma SignOutWhileStarting()
    ensures exists states, events :: FiledAfterLeaving(states, events, 4, 1)
  {
    hide Step, Enabled, Launch, ScriptLoaded, BootReading, EventQueued, NameRead, ClientStarting, SignOutHeard, CameUp;
    var events := [InitAnalytics, Tracked(7), IdentityReply(Some(SIGNED_IN)),
                   PreferencesReply(Some(Preferences(true, true))), IdentityBroadcast(SIGNED_OUT), StartReply(true)];
    var states := [ScriptLoaded(), BootReading(), EventQueued(), NameRead(), ClientStarting(), SignOutHeard(), CameUp()];
    BootBegins();
    NameIsRead();
    ClientStarts();
    SignOutIsHeard();
    ClientComesUp();
    SentUnderTheDeparted();
    assert FiledAfterLeaving(states, events, 4, 1);
  }
}
