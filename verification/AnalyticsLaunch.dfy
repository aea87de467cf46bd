/**
 Launches of a window, event by event, and the runs in which what is promised of
 a sign-out fails.
 */
module AnalyticsLaunch {
  import opened Options
  import opened AnalyticsState
  import opened AnalyticsInvariant
  import opened AnalyticsSteps
  import opened AnalyticsTheorems
  import opened AnalyticsIdentity
  import opened AnalyticsStart
  import opened AnalyticsGate
  import Session = AnalyticsSession

  // ---- Runs, one event at a time ----

  ghost predicate RunTo(w: SeamState) {
    exists states, events :: IsRun(states, events) && Launch(states[0]) && states[|events|] == w
  }

  lemma RunOn(w: SeamState, e: Event, r: SeamState)
    requires RunTo(w) && Follows(w, e, r)
    ensures RunTo(r)
  {
    hide Step, Enabled, Launch;
    var states, events :| IsRun(states, events) && Launch(states[0]) && states[|events|] == w;
    assert IsRun(states + [r], events + [e]);
  }

  lemma RunLoads(window: nat, persisted: Client)
    requires !Drawn(window, persisted.id)
    ensures RunTo(Loaded(window, true, persisted))
  {
    var states, events: seq<Event> := [Loaded(window, true, persisted)], [];
    assert Launch(states[0]);
    assert IsRun(states, events) && states[|events|] == Loaded(window, true, persisted);
  }

  // ---- A launch, event by event ----

  const NOBODY := Identity(None, false, None, None)

  function Reading(window: nat, persisted: Client): SeamState {
    Loaded(window, true, persisted).(boot := ReadingPreferences, loading := true)
  }

  function Read(window: nat, persisted: Client): SeamState {
    Reading(window, persisted).(adopted := true)
  }

  function Starting(window: nat, persisted: Client): SeamState {
    Read(window, persisted).(consent := Some(true), answered := Some(true), boot := StartingClient, starting := true)
  }

  function Up(window: nat, persisted: Client): SeamState {
    Starting(window, persisted).(installKnown := true, started := true, enabled := true,
                                 client := persisted.(id := Install, optedOut := false))
  }

  lemma ReadFollows(window: nat, persisted: Client, answer: Option<Identity>)
    requires answer == None || answer == Some(NOBODY)
    ensures Follows(Loaded(window, true, persisted), InitAnalytics, Reading(window, persisted))
    ensures Follows(Reading(window, persisted), IdentityReply(answer), Read(window, persisted))
  {
    match answer
    case None =>
    case Some(_) =>
  }

  lemma StartFollows(window: nat, persisted: Client)
    ensures Follows(Read(window, persisted), PreferencesReply(Some(Preferences(true, true))), Starting(window, persisted))
    ensures Follows(Starting(window, persisted), StartReply(true), Up(window, persisted))
  {
    assert Flush(Up(window, persisted), []) == Up(window, persisted);
  }

  lemma BootFollows(window: nat, persisted: Client)
    ensures Follows(Up(window, persisted), BootResumes, FinishBoot(Up(window, persisted)))
  {
    hide FinishBoot;
  }

  /** Up, nobody signed in, nothing held: the end of the boot leaves the client where it is. */
  lemma BootEnds(window: nat, persisted: Client)
    ensures var w := FinishBoot(Up(window, persisted));
            && w.adopted && Funnel(w) == Open && w.identifiedAs.None? && !w.everIdentified && w.client.id == Install && w.log == []
  {
    var booted := Up(window, persisted).(boot := Booted);
    assert Settle(booted) == RunAll(ApplySession(Unheld(booted)), []);
  }

  lemma NoteFollows(w: SeamState, f: Facts)
    ensures Follows(w, SessionNoted(f), NoteSession(w, f))
  {
    hide NoteSession;
  }

  // ---- A client that resumes as an account ----

  function StoredAccount(a: Sub): Client {
    Client(Account(a), false, None)
  }

  /** Up without an install id, on what posthog-js had stored. */
  function Resumed(window: nat, a: Sub): SeamState {
    Starting(window, StoredAccount(a)).(started := true, enabled := true)
  }

  lemma ResumeFollows(window: nat, a: Sub)
    ensures Follows(Starting(window, StoredAccount(a)), StartReply(false), Resumed(window, a))
    ensures Follows(Resumed(window, a), IdentityBroadcast(NOBODY), Resumed(window, a))
    ensures UpOnTheDeparted(Resumed(window, a)) && OnSomebody(Resumed(window, a))
  {
    assert Flush(Resumed(window, a), []) == Resumed(window, a);
  }

  lemma StartingRuns(window: nat, persisted: Client)
    requires !Drawn(window, persisted.id)
    ensures RunTo(Starting(window, persisted))
  {
    hide Follows, Loaded, Reading, Read, Starting, RunTo;
    RunLoads(window, persisted);
    ReadFollows(window, persisted, None);
    StartFollows(window, persisted);
    RunOn(Loaded(window, true, persisted), InitAnalytics, Reading(window, persisted));
    RunOn(Reading(window, persisted), IdentityReply(None), Read(window, persisted));
    RunOn(Read(window, persisted), PreferencesReply(Some(Preferences(true, true))), Starting(window, persisted));
  }

  /** The last two events are a start that comes up on an account the record does not name, and a broadcast
      that names nobody and leaves it there. */
  ghost predicate ResumesAndStays(states: seq<SeamState>, events: seq<Event>, a: Sub) {
    && IsRun(states, events) && Launch(states[0]) && |events| >= 2
    && var i := |events| - 2;
    && events[i] == StartReply(false) && UpOnTheDeparted(states[i + 1])
    && events[i + 1] == IdentityBroadcast(NOBODY)
    && states[i + 2].client.id == Account(a) && OnSomebody(states[i + 2])
  }

  /** It happens, in any window, for any account: the client comes up on the account posthog-js had stored,
      and a broadcast that names nobody leaves it there. */
  lemma StoredAccountOutlivesSignOut(window: nat, a: Sub)
    ensures exists states, events :: ResumesAndStays(states, events, a)
  {
    hide Follows, Starting, Launch, UpOnTheDeparted, OnSomebody, Step, Enabled;
    StartingRuns(window, StoredAccount(a));
    ResumeFollows(window, a);
    ResumedId(window, a);
    hide Resumed, StoredAccount;
    var states, events :| IsRun(states, events) && Launch(states[0]) && states[|events|] == Starting(window, StoredAccount(a));
    var up := Resumed(window, a);
    TwoMore(states, events, up, up, StartReply(false), IdentityBroadcast(NOBODY));
    hide IsRun;
    RunIndices(states, events, up, StartReply(false), IdentityBroadcast(NOBODY));
    assert ResumesAndStays(states + [up, up], events + [StartReply(false), IdentityBroadcast(NOBODY)], a);
  }

  lemma ResumedId(window: nat, a: Sub)
    ensures Resumed(window, a).client.id == Account(a)
  {
  }

  lemma RunIndices(states: seq<SeamState>, events: seq<Event>, up: SeamState, e: Event, f: Event)
    requires IsRun(states, events)
    ensures var more, later := states + [up, up], events + [e, f];
            && |more| == |later| + 1 && |later| == |events| + 2
            && later[|later| - 2] == e && later[|later| - 1] == f && more[|later| - 1] == up && more[|later|] == up
  {
    hide Step, Enabled;
  }

  lemma TwoMore(states: seq<SeamState>, events: seq<Event>, r: SeamState, s: SeamState, e: Event, f: Event)
    requires IsRun(states, events) && Follows(states[|events|], e, r) && Follows(r, f, s)
    ensures IsRun(states + [r, s], events + [e, f])
    ensures (states + [r, s])[0] == states[0]
  {
    hide Step, Enabled;
  }

  // ---- A sign-out that leaves its organization ----

  function MemberFacts(a: Sub, org: Org): Facts {
    Facts(true, false, Some(OAuth), Some(a), Some(org))
  }

  /** What the main window says when that account's session is dead and its file is still there. */
  function LeftFacts(a: Sub, org: Org): Facts {
    Session.SessionFacts(Some(Session.Account(OAuth, false, Some(org))), false,
                         Some(Session.OAuthStatus(false, Session.Dead, Some(a))), None)
  }

  lemma UpRuns(window: nat, persisted: Client)
    requires !Drawn(window, persisted.id)
    ensures RunTo(FinishBoot(Up(window, persisted)))
  {
    hide Follows, Starting, Up, RunTo, FinishBoot;
    StartingRuns(window, persisted);
    StartFollows(window, persisted);
    BootFollows(window, persisted);
    RunOn(Starting(window, persisted), StartReply(true), Up(window, persisted));
    RunOn(Up(window, persisted), BootResumes, FinishBoot(Up(window, persisted)));
  }

  /** It happens: a client signed in as `a`, whose session then ends, is moved to a fresh id and grouped
      under the organization it left. */
  lemma SignOutRegroupsRun(a: Sub, org: Org)
    ensures exists states: seq<SeamState>, events: seq<Event>, i: nat ::
              && IsRun(states, events) && Launch(states[0]) && i + 1 == |events|
              && states[i].client.id == Account(a) && events[i] == SessionNoted(LeftFacts(a, org))
              && states[i + 1].client.id.Fresh? && states[i + 1].client.group == Some(org)
  {
    var persisted := Client(Install, false, None);
    var up := FinishBoot(Up(0, persisted));
    var member := NoteSession(up, MemberFacts(a, org));
    var left := NoteSession(member, LeftFacts(a, org));
    hide Follows, Up, Launch, FinishBoot, NoteSession, Funnel, LeftFacts, Inv, RunTo;
    UpRuns(0, persisted);
    BootEnds(0, persisted);
    NoteMerges(up, MemberFacts(a, org));
    NoteFollows(up, MemberFacts(a, org));
    RunToInv(up);
    NoteGated(up, MemberFacts(a, org));
    RunOn(up, SessionNoted(MemberFacts(a, org)), member);
    NoteFollows(member, LeftFacts(a, org));
    LeavesGrouped(member, left, a, org);
  }

  lemma RunToInv(w: SeamState)
    requires RunTo(w)
    ensures Inv(w)
  {
    hide Step, Enabled, Launch, Inv;
    var states, events :| IsRun(states, events) && Launch(states[0]) && states[|events|] == w;
    RunKeepsInv(states, events, |events|);
  }

  lemma LeavesGrouped(member: SeamState, left: SeamState, a: Sub, org: Org)
    requires RunTo(member) && Funnel(member) == Open && member.identifiedAs == Some(a) && member.client.id == Account(a)
    requires Follows(member, SessionNoted(LeftFacts(a, org)), left)
    ensures exists states: seq<SeamState>, events: seq<Event>, i: nat ::
              && IsRun(states, events) && Launch(states[0]) && i + 1 == |events|
              && states[i].client.id == Account(a) && events[i] == SessionNoted(LeftFacts(a, org))
              && states[i + 1].client.id.Fresh? && states[i + 1].client.group == Some(org)
  {
    hide Step, Enabled, Launch, Funnel;
    var states, events :| IsRun(states, events) && Launch(states[0]) && states[|events|] == member;
    var e := SessionNoted(LeftFacts(a, org));
    var more, later := states + [left], events + [e];
    assert IsRun(more, later) && more[0] == states[0] && more[|events|] == member && later[|events|] == e;
    Session.SignOutRegroups(more, later, |events|, Session.Account(OAuth, false, Some(org)),
                    Session.OAuthStatus(false, Session.Dead, Some(a)), None);
  }
}
