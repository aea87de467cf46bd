/**
 What the main window tells the seam about the session
 (`src/lib/analyticsSession.ts`, `src/lib/session.ts`), and what that means for
 the client it is told to.
 */
module AnalyticsSession {
  import opened Options
  import opened AnalyticsState
  import opened AnalyticsInvariant
  import opened AnalyticsTheorems
  import opened AnalyticsIdentity
  import opened AnalyticsGroup

  datatype SessionState = Live | Dead | Unavailable

  /** The account file as far as the seam reads it. */
  datatype Account = Account(mode: Mode, hasApiKey: bool, org: Option<Org>)

  datatype OAuthStatus = OAuthStatus(signedIn: bool, session: SessionState, sub: Option<Sub>)

  /** `isSignedIn`. */
  predicate IsSignedIn(account: Option<Account>, oauth: Option<OAuthStatus>) {
    account.Some? &&
    (if account.value.mode == OAuth
     then oauth.Some? && oauth.value.signedIn && account.value.org.Some?
     else account.value.hasApiKey)
  }

  /** `sessionFacts`. */
  function SessionFacts(account: Option<Account>, unread: bool, oauth: Option<OAuthStatus>, keyOrg: Option<Org>): Facts {
    var mode := if account.Some? then Some(account.value.mode) else None;
    Facts(
      IsSignedIn(account, oauth),
      unread || (mode == Some(OAuth) && (oauth.None? || oauth.value.session == Unavailable)),
      mode,
      if oauth.Some? then oauth.value.sub else None,
      if mode == Some(ApiKey) then keyOrg else if account.Some? then account.value.org else None)
  }

  /** Readings the backend gives: a rejected account read has no account, and a session it could not
      read is not signed in (`OAuthStatus.session`, `readAccount`). */
  predicate Reading(account: Option<Account>, unread: bool, oauth: Option<OAuthStatus>) {
    && (unread ==> account.None?)
    && (oauth.Some? && oauth.value.session == Unavailable ==> !oauth.value.signedIn)
  }

  /** A reading that could not tell never says "signed in", so it is never a reason to leave an
      account: the facts are unknown exactly when the account could not be read, or an OAuth account's
      session could not. An API-key account with a key is signed in, an OAuth account with a session that is and an
      organization chosen; and an API key's org is the gateway's answer, whatever the account file keeps. */
  lemma UnknownIsNoSignOut(account: Option<Account>, unread: bool, oauth: Option<OAuthStatus>, keyOrg: Option<Org>, a: Sub)
    requires Reading(account, unread, oauth)
    ensures var f := SessionFacts(account, unread, oauth, keyOrg);
            && (f.unknown ==> !f.signedIn && Agrees(f, a))
            && (f.unknown <==>
                  unread || (account.Some? && account.value.mode == OAuth && (oauth.None? || oauth.value.session == Unavailable)))
            && (f.mode == Some(ApiKey) ==> f.org == keyOrg && (f.signedIn <==> account.value.hasApiKey))
            && (f.mode == Some(OAuth) ==>
                  f.org == account.value.org && (f.signedIn <==> oauth.Some? && oauth.value.signedIn && account.value.org.Some?))
            && (f.mode.None? ==> !f.signedIn && account.None?)
            && (oauth.Some? ==> f.sub == oauth.value.sub)
            && (!f.unknown && f.signedIn && f.mode == Some(OAuth) ==> f.org.Some?)
  {
  }

  /** What each reading in a run of them says to a client on account `a`. */
  ghost predicate NoneLeaves(events: seq<Event>, a: Sub) {
    forall e <- events ::
      && (e.IdentityBroadcast? ==> e.next.sub == Some(a))
      && (e.SessionNoted? ==>
            exists account, unread, oauth, keyOrg ::
              && Reading(account, unread, oauth) && e.facts == SessionFacts(account, unread, oauth, keyOrg)
              && (unread || (account.Some? && account.value.mode == OAuth &&
                             (oauth.None? || oauth.value.session == Unavailable ||
                              (IsSignedIn(account, oauth) && oauth.value.sub == Some(a))))))
  }

  /** Offline, with the account file unreadable, or with the identity provider silent, for any number
      of reads in any order with everything else: the client stays on its account. */
  lemma OfflineKeepsTheAccount(states: seq<SeamState>, events: seq<Event>, a: Sub)
    requires IsRun(states, events) && OnAccount(states[0], a) && NoneLeaves(events, a)
    ensures forall i :: 0 <= i < |states| ==> states[i].client.id == Id.Account(a) && states[i].draws == states[0].draws
  {
    forall e <- events ensures NoReasonToLeave(e, a) {
      if e.SessionNoted? {
        var account, unread, oauth, keyOrg :|
          && Reading(account, unread, oauth) && e.facts == SessionFacts(account, unread, oauth, keyOrg)
          && (unread || (account.Some? && account.value.mode == OAuth &&
                         (oauth.None? || oauth.value.session == Unavailable ||
                          (IsSignedIn(account, oauth) && oauth.value.sub == Some(a)))));
        UnknownIsNoSignOut(account, unread, oauth, keyOrg, a);
      }
    }
    hide IsRun, OnAccount, NoReasonToLeave;
    UnreadableSessionsMoveNothing(states, events, a);
  }

  /** Signing out of an OAuth account leaves its organization in the account file, so the facts still
      name it, and the client, off the account's id, is grouped under it again. */
  lemma SignOutRegroups(states: seq<SeamState>, events: seq<Event>, i: nat, account: Account, oauth: OAuthStatus, keyOrg: Option<Org>)
    requires IsRun(states, events) && Launch(states[0]) && i < |events| && Funnel(states[i]) == Open
    requires account.mode == OAuth && account.org.Some? && !oauth.signedIn && oauth.session == Dead
    requires events[i] == SessionNoted(SessionFacts(Some(account), false, Some(oauth), keyOrg))
    ensures states[i + 1].client.group == account.org
    ensures states[i].identifiedAs.Some? ==> states[i + 1].client.id == Fresh(states[i].window, states[i].draws)
  {
    hide Funnel;
    OpenIsStarted(states[i]);
    hide IsRun, Launch;
    SignOutKeepsTheNotedOrg(states, events, i);
    if states[i].identifiedAs.Some? { SignOutNoted(states, events, i); }
  }

  /** A row of the gateway's installations answer; `requests` is absent when the row does not say. */
  datatype Row = Row(current: bool, requests: Option<int>)

  /** `gatewaySawTrafficFromThisMachine`: `some` over the rows. */
  method GatewaySawTraffic(rows: seq<Row>) returns (saw: bool)
    ensures saw <==> exists i :: 0 <= i < |rows| && rows[i].current && (rows[i].requests.Some? ==> rows[i].requests.value > 0)
  {
    var i := 0;
    while i < |rows|
      invariant i <= |rows|
      invariant forall j :: 0 <= j < i ==> !(rows[j].current && (rows[j].requests.Some? ==> rows[j].requests.value > 0))
    {
      if rows[i].current && (rows[i].requests.Some? ==> rows[i].requests.value > 0) { return true; }
      i := i + 1;
    }
    return false;
  }
}
