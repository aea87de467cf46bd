/**
 The organization a client's events are grouped under, and what a sign-out
 does to it.
 */
module AnalyticsGroup {
  import opened Options
  import opened AnalyticsState
  import opened AnalyticsInvariant
  import opened AnalyticsSteps
  import opened AnalyticsTheorems
  import opened AnalyticsIdentity

  /** What decides the client's group, behind an open gate. */
  predicate SameOrg(w: SeamState, r: SeamState) {
    r.session == w.session && r.storedOrg == w.storedOrg && Funnel(r) == Funnel(w)
  }

  lemma GroupIsOrg(w: SeamState)
    requires Funnel(w) == Open
    ensures SameOrg(w, ApplyGroup(w)) && ApplyGroup(w).client.group == CurrentOrg(w)
  {
  }

  lemma ResetSameOrg(w: SeamState)
    requires Funnel(w) == Open
    ensures SameOrg(w, ResetClient(w))
  {
  }

  lemma NamedSameOrg(w: SeamState, sub: Option<Sub>)
    ensures SameOrg(w, w.(identifiedAs := sub))
  {
  }

  lemma UnnamedSameOrg(w: SeamState)
    ensures SameOrg(w, w.(identifiedAs := None, lastPersisted := None))
  {
  }

  lemma ForgottenSameOrg(w: SeamState)
    ensures SameOrg(w, w.(storedSub := None))
  {
  }

  lemma IdentifySameOrg(w: SeamState, sub: Sub)
    ensures SameOrg(w, Identify(w, sub))
  {
  }

  lemma SyncSameOrg(w: SeamState)
    requires Funnel(w) == Open
    ensures SameOrg(w, SyncToStored(w))
  {
    hide Funnel, ApplyGroup, ResetClient, Identify;
    if w.started && w.storedSub != w.identifiedAs {
      ResetSameOrg(w);
      var blank := ResetClient(w);
      if w.storedSub.Some? { IdentifySameOrg(blank, w.storedSub.value); }
      var moved := if w.storedSub.Some? then Identify(blank, w.storedSub.value) else blank;
      NamedSameOrg(moved, w.storedSub);
      GroupIsOrg(moved.(identifiedAs := w.storedSub));
    }
  }

  lemma TrackSameOrg(w: SeamState)
    ensures SameOrg(w, SpendSession(w)) && SpendSession(w).client == w.client
  {
  }

  lemma WokenSameOrg(w: SeamState)
    ensures SameOrg(w, WakeOrgWaiters(w)) && WakeOrgWaiters(w).client == w.client
  {
  }

  lemma OrgArrivedGroups(w: SeamState)
    requires Funnel(w) == Open && w.client.group == CurrentOrg(w)
    ensures SameOrg(w, OrgArrived(w)) && OrgArrived(w).client.group == CurrentOrg(w)
  {
    hide Funnel, ApplyGroup, WakeOrgWaiters;
    GroupIsOrg(w);
    WokenSameOrg(ApplyGroup(w));
  }

  /** The record a sign-out would save, were no account left by it. */
  function SignedOutRecord(w: SeamState, f: Facts): Identity {
    Identity(w.identifiedAs, w.everIdentified, None, f.mode)
  }

  /** The stored org a sign-out finds in place when it groups the client: none, if the note is saved; the
      one before, if no account was left and what the note says has been saved already. */
  function OrgLeftStored(w: SeamState, f: Facts): Option<Org> {
    if !LeftAccount(w, f) && w.lastPersisted == Some(SignedOutRecord(w, f)) then w.storedOrg else None
  }

  lemma SavingForgetsOrg(w: SeamState, f: Facts)
    requires w.session == Some(f) && w.hasKey && w.adopted && !f.unknown && !f.signedIn
    ensures Persist(w).storedOrg == if w.lastPersisted == Some(SignedOutRecord(w, f)) then w.storedOrg else None
  {
  }

  lemma SignedOutGroup(w: SeamState, f: Facts)
    requires w.adopted && Funnel(w) == Open && !f.unknown && !f.signedIn
    ensures NoteSession(w, f).client.group == f.org.OrElse(OrgLeftStored(w, f))
  {
    hide Funnel, SyncToStored, Persist, ApplyGroup, SpendSession, OrgArrived, LeftAccount;
    var noted := w.(session := Some(f));
    NotedFunnel(w, f);
    LeavesAlike(w, f);
    ForgottenSameOrg(noted);
    SyncSameOrg(noted.(storedSub := None));
    var synced := SyncToStored(noted.(storedSub := None));
    SyncToStoredStands(noted.(storedSub := None));
    UnnamedSameOrg(synced);
    var left := if LeftAccount(noted, f) then synced.(identifiedAs := None, lastPersisted := None) else noted;
    OpenHasKey(left);
    SavingForgetsOrg(left, f);
    var saved := Persist(left);
    PersistSends(left);
    SyncSameOrg(saved);
    GroupIsOrg(SyncToStored(saved));
    TrackSameOrg(ApplyGroup(SyncToStored(saved)));
    OrgArrivedGroups(SpendSession(ApplyGroup(SyncToStored(saved))));
  }

  lemma OpenHasKey(w: SeamState)
    requires Funnel(w) == Open
    ensures w.hasKey
  {
  }

  lemma LeavesAlike(w: SeamState, f: Facts)
    ensures LeftAccount(w.(session := Some(f)), f) == LeftAccount(w, f)
  {
  }

  /** A sign-out noted behind an open gate, at any point of any run, in terms of what is known before it.
      If it leaves an account, the client is still grouped exactly if the note names an organization, and
      under that one. If there was no account to leave, it is grouped under the note's organization, or,
      when it names none, under the stored one if the record the note would save was the last one saved. */
  lemma SignOutKeepsTheNotedOrg(states: seq<SeamState>, events: seq<Event>, i: nat)
    requires IsRun(states, events) && Launch(states[0]) && i < |events| && Funnel(states[i]) == Open
    requires events[i].SessionNoted? && !events[i].facts.unknown && !events[i].facts.signedIn
    ensures var w, org := states[i], events[i].facts.org;
            states[i + 1].client.group ==
              if w.identifiedAs.Some? || w.storedSub.Some? then org
              else if org.Some? then org
              else if w.lastPersisted == Some(Identity(None, w.everIdentified, None, events[i].facts.mode)) then w.storedOrg
              else None
  {
    hide Step, NoteSession, Inv;
    RunKeepsInv(states, events, i);
    StartedAdopted(states[i]);
    OpenIsStarted(states[i]);
    StepsHandle(states[i], events[i]);
    SignedOutGroup(states[i], events[i].facts);
  }
}
