/**
 The install id is to be merged into a person at most once per install. Exactly
 which histories keep that, and one that does not.
 */
module AnalyticsOnce {
  import opened Options
  import opened AnalyticsState
  import opened AnalyticsInvariant
  import opened AnalyticsSteps
  import opened AnalyticsIdentity
  import opened AnalyticsMerge
  import opened AnalyticsLaunch
  import opened AnalyticsInstall

  ghost predicate InstallMergeAt(m: Machine, i: nat, k: nat) {
    i < |m.windows| && k < |m.windows[i].log| && FromInstall(m.windows[i].log[k])
  }

  ghost predicate MergedAtMostOnce(m: Machine) {
    forall i: nat, j: nat, a: nat, b: nat :: InstallMergeAt(m, i, a) && InstallMergeAt(m, j, b) ==> i == j && a == b
  }

  /** A window whose merge of the install id is due goes through with it, though some window, of this
      launch or an earlier one, has merged the install id already. */
  ghost predicate SecondSignIn(m: Machine, act: Act) {
    && act.Handled? && act.window < |m.windows| && MergesInstallNow(m.windows[act.window], act.event)
    && exists j :: 0 <= j < |m.windows| && MergedInstall(m.windows[j])
  }

  /** Only a handled event adds to a log, its window's, and merges the install id there exactly when due. */
  lemma ActMergesIff(m: Machine, act: Act)
    requires MachineInv(m) && CanAct(m, act)
    ensures var r := Acted(m, act);
            && |m.windows| <= |r.windows|
            && (forall i :: 0 <= i < |m.windows| && !(act.Handled? && act.window == i) ==> r.windows[i].log == m.windows[i].log)
            && (forall i :: |m.windows| <= i < |r.windows| ==> r.windows[i].log == [])
            && (act.Handled? ==>
                  && act.window < |m.windows| && m.windows[act.window].log <= r.windows[act.window].log
                  && (NewMerge(m.windows[act.window].log, r.windows[act.window].log) <==>
                      MergesInstallNow(m.windows[act.window], act.event)))
  {
    hide Inv, Step, Enabled, Loaded, NewMerge, MergesInstallNow;
    if act.Handled? {
      assert WindowOk(m, act.window, m.windows[act.window]);
      StepMergesIff(m.windows[act.window], act.event);
    }
    if act.Opened? {
      LoadedIdentity(|m.windows|, act.hasKey, act.persisted);
    }
  }

  lemma MergesStay(m: Machine, act: Act)
    requires MachineInv(m) && CanAct(m, act)
    ensures forall i: nat, k: nat :: InstallMergeAt(m, i, k) ==> InstallMergeAt(Acted(m, act), i, k)
  {
    ActMergesIff(m, act);
    var r := Acted(m, act);
    hide MachineInv, CanAct, Acted, FromInstall, NewMerge, MergesInstallNow;
    forall i: nat, k: nat | InstallMergeAt(m, i, k) ensures InstallMergeAt(r, i, k) {
      if act.Handled? && act.window == i { assert r.windows[i].log[k] == m.windows[i].log[k]; }
    }
  }

  /** A merge of the install id that was not there before is one that was due. */
  lemma NewMergesAreDue(m: Machine, act: Act, i: nat, k: nat)
    requires MachineInv(m) && CanAct(m, act) && InstallMergeAt(Acted(m, act), i, k) && !InstallMergeAt(m, i, k)
    ensures act.Handled? && act.window == i < |m.windows| && MergesInstallNow(m.windows[i], act.event)
  {
    ActMergesIff(m, act);
    var r := Acted(m, act);
    hide MachineInv, CanAct, Acted, FromInstall, MergesInstallNow;
    if act.Handled? && act.window == i {
      PrefixSame(m.windows[i].log, r.windows[i].log);
      assert NewMerge(m.windows[i].log, r.windows[i].log);
    }
  }

  lemma PrefixSame(log: seq<Entry>, later: seq<Entry>)
    requires log <= later
    ensures forall k :: 0 <= k < |log| ==> log[k] == later[k]
  {
  }

  lemma StaysOnce(m: Machine, act: Act)
    requires MachineInv(m) && CanAct(m, act) && MergedAtMostOnce(m) && !SecondSignIn(m, act)
    ensures MergedAtMostOnce(Acted(m, act))
  {
    var r := Acted(m, act);
    ActKeeps(m, act);
    hide MachineInv, CanAct, Acted, MergesInstallNow;
    forall i: nat, j: nat, a: nat, b: nat | InstallMergeAt(r, i, a) && InstallMergeAt(r, j, b) ensures i == j && a == b {
      if !InstallMergeAt(m, i, a) {
        NewMergesAreDue(m, act, i, a);
        OldMergeIsElsewhere(m, act, i, j, b);
        OnceInWindow(r, i, a, b);
      } else if !InstallMergeAt(m, j, b) {
        NewMergesAreDue(m, act, j, b);
        OldMergeIsElsewhere(m, act, j, i, a);
        OnceInWindow(r, j, a, b);
      }
    }
  }

  /** Beside a due merge that is not a second one, nothing was merged before. */
  lemma OldMergeIsElsewhere(m: Machine, act: Act, i: nat, j: nat, b: nat)
    requires MachineInv(m) && CanAct(m, act) && !SecondSignIn(m, act)
    requires act.Handled? && act.window == i < |m.windows| && MergesInstallNow(m.windows[i], act.event)
    requires InstallMergeAt(Acted(m, act), j, b)
    ensures j == i
  {
    if j < |m.windows| { MergedWhere(m, j, b); }
    NewMergesAreDue(m, act, j, b);
    hide MachineInv, CanAct, Acted, MergesInstallNow;
  }

  lemma MergedWhere(m: Machine, j: nat, b: nat)
    requires j < |m.windows|
    ensures InstallMergeAt(m, j, b) ==> MergedInstall(m.windows[j])
  {
  }

  lemma OnceInWindow(m: Machine, i: nat, a: nat, b: nat)
    requires MachineInv(m) && i < |m.windows|
    ensures InstallMergeAt(m, i, a) && InstallMergeAt(m, i, b) ==> a == b
  {
    OneInstallMerge(m, i);
    hide MachineInv;
  }

  /** A second sign-in leaves two merges of the install id behind. */
  lemma SecondMerges(m: Machine, act: Act)
    requires MachineInv(m) && CanAct(m, act) && SecondSignIn(m, act)
    ensures !MergedAtMostOnce(Acted(m, act))
  {
    ActMergesIff(m, act);
    MergesStay(m, act);
    var r := Acted(m, act);
    hide MachineInv, CanAct, Acted, MergesInstallNow, FromInstall;
    var i := act.window;
    var j :| 0 <= j < |m.windows| && MergedInstall(m.windows[j]);
    MergedSomewhere(m, j);
    var b :| InstallMergeAt(m, j, b);
    var k :| |m.windows[i].log| <= k < |r.windows[i].log| && FromInstall(r.windows[i].log[k]);
    assert InstallMergeAt(r, i, k) && InstallMergeAt(r, j, b);
  }

  lemma MergedSomewhere(m: Machine, j: nat)
    requires j < |m.windows| && MergedInstall(m.windows[j])
    ensures exists k: nat :: InstallMergeAt(m, j, k)
  {
    var k :| 0 <= k < |m.windows[j].log| && m.windows[j].log[k].Merged? && m.windows[j].log[k].from == Install;
    assert InstallMergeAt(m, j, k);
  }

  lemma {:induction false} OnceAlong(machines: seq<Machine>, acts: seq<Act>, n: nat)
    requires IsHistory(machines, acts) && n < |machines|
    requires forall t :: 0 <= t < n ==> !SecondSignIn(machines[t], acts[t])
    ensures MergedAtMostOnce(machines[n])
    decreases n
  {
    hide CanAct, Acted, SecondSignIn, MergedAtMostOnce;
    if n == 0 {
      assert MergedAtMostOnce(machines[0]) by { NothingInstalled(machines[0].legacy); }
    } else {
      OnceAlong(machines, acts, n - 1);
      HistoryKeepsInv(machines, acts, n - 1);
      StaysOnce(machines[n - 1], acts[n - 1]);
    }
  }

  lemma NothingInstalled(legacy: bool)
    ensures MergedAtMostOnce(Installed(legacy))
  {
  }

  lemma {:induction false} TwiceStays(machines: seq<Machine>, acts: seq<Act>, t: nat, n: nat)
    requires IsHistory(machines, acts) && t <= n < |machines| && !MergedAtMostOnce(machines[t])
    ensures !MergedAtMostOnce(machines[n])
    decreases n
  {
    hide CanAct, Acted, InstallMergeAt;
    if t < n {
      TwiceStays(machines, acts, t, n - 1);
      HistoryKeepsInv(machines, acts, n - 1);
      MergesStay(machines[n - 1], acts[n - 1]);
    }
  }

  /** Over every history of an install, any number of windows and launches: the install id is merged at
      most once exactly when no window goes through with a merge that is due once another has. */
  lemma InstallMergedOnceIff(machines: seq<Machine>, acts: seq<Act>)
    requires IsHistory(machines, acts)
    ensures MergedAtMostOnce(machines[|acts|]) <==> forall n :: 0 <= n < |acts| ==> !SecondSignIn(machines[n], acts[n])
  {
    hide CanAct, Acted, SecondSignIn, MergedAtMostOnce;
    if n :| 0 <= n < |acts| && SecondSignIn(machines[n], acts[n]) {
      HistoryKeepsInv(machines, acts, n);
      SecondMerges(machines[n], acts[n]);
      TwiceStays(machines, acts, n + 1, |acts|);
    } else {
      OnceAlong(machines, acts, |acts|);
    }
  }

  // ---- A history that merges it twice ----

  ghost predicate Reached(m: Machine) {
    exists machines, acts :: IsHistory(machines, acts) && machines[|acts|] == m
  }

  lemma Reach(m: Machine, act: Act)
    requires Reached(m) && CanAct(m, act)
    ensures Reached(Acted(m, act))
  {
    hide CanAct, Acted, Installed;
    var machines, acts :| IsHistory(machines, acts) && machines[|acts|] == m;
    assert IsHistory(machines + [Acted(m, act)], acts + [act]);
  }

  /** `m` has been reached from `m0` by one window's events: its last window, which owns sign-in, is `w`. */
  ghost predicate Stage(m0: Machine, m: Machine, w: SeamState) {
    && Reached(m) && m.launch <= |m0.windows|
    && m.windows == m0.windows + [w] && m.owns == m0.owns + [true] && m.openedAt == m0.openedAt + [|m0.records| - 1]
    && m.records == m0.records && |m0.records| > 0 && |m0.owns| == |m0.windows| == |m0.openedAt|
    && forall i :: 0 <= i < |m0.openedAt| ==> m0.openedAt[i] < |m0.records|
  }

  ghost predicate Staged(m0: Machine, w: SeamState) {
    exists m :: Stage(m0, m, w)
  }

  /** An event that needs no answer of the backend but the record. */
  predicate OwnEvent(m0: Machine, e: Event) {
    && !e.ClaimReply? && !e.IdentityBroadcast?
    && (e.IdentityReply? && e.answer.Some? ==> m0.records != [] && e.answer.value == m0.records[|m0.records| - 1])
  }

  lemma StageOn(m0: Machine, w: SeamState, e: Event, r: SeamState)
    requires Staged(m0, w) && Follows(w, e, r) && OwnEvent(m0, e)
    ensures Staged(m0, r)
  {
    hide Step, Enabled, Reached;
    var m :| Stage(m0, m, w);
    var i := |m0.windows|;
    var act := Handled(i, e, |m0.records| - 1);
    assert m.windows[i] == w;
    assert CanAct(m, act);
    Reach(m, act);
    assert Stage(m0, Acted(m, act), r);
  }

  lemma WindowOpens(m0: Machine, persisted: Client)
    requires Reached(m0) && m0.launch == |m0.windows| && !Drawn(|m0.windows|, persisted.id)
    ensures Staged(m0, Loaded(|m0.windows|, true, persisted))
  {
    hide Loaded;
    ReachedIsShaped(m0);
    hide Reached;
    var act := Opened(true, true, persisted);
    assert CanAct(m0, act);
    Reach(m0, act);
    assert Stage(m0, Acted(m0, act), Loaded(|m0.windows|, true, persisted));
  }

  lemma ReachedIsShaped(m: Machine)
    requires Reached(m)
    ensures Shaped(m)
  {
    var machines, acts :| IsHistory(machines, acts) && machines[|acts|] == m;
    HistoryKeepsInv(machines, acts, |acts|);
    ShapedStays(m);
    hide MachineInv, IsHistory;
  }

  function SignedInAs(a: Sub): Facts {
    Facts(true, false, Some(OAuth), Some(a), None)
  }

  /** The window after it has signed in as `a`. */
  function Merging(window: nat, persisted: Client, a: Sub): SeamState {
    NoteSession(FinishBoot(Up(window, persisted)), SignedInAs(a))
  }

  lemma LaunchStarts(m0: Machine, persisted: Client, answer: Option<Identity>)
    requires Reached(m0) && m0.launch == |m0.windows| && !Drawn(|m0.windows|, persisted.id)
    requires answer == None || (answer == Some(NOBODY) && m0.records != [] && m0.records[|m0.records| - 1] == NOBODY)
    ensures Staged(m0, Starting(|m0.windows|, persisted))
  {
    var window := |m0.windows|;
    hide Follows, Loaded, Reading, Read, Starting, Step, Enabled, Staged, Reached;
    WindowOpens(m0, persisted);
    ReadFollows(window, persisted, answer);
    StartFollows(window, persisted);
    StageOn(m0, Loaded(window, true, persisted), InitAnalytics, Reading(window, persisted));
    StageOn(m0, Reading(window, persisted), IdentityReply(answer), Read(window, persisted));
    StageOn(m0, Read(window, persisted), PreferencesReply(Some(Preferences(true, true))), Starting(window, persisted));
  }

  /** A launch whose read says nobody was identified, or is not answered, is up on the install id. */
  lemma LaunchIsUp(m0: Machine, persisted: Client, answer: Option<Identity>)
    requires Reached(m0) && m0.launch == |m0.windows| && !Drawn(|m0.windows|, persisted.id)
    requires answer == None || (answer == Some(NOBODY) && m0.records != [] && m0.records[|m0.records| - 1] == NOBODY)
    ensures Staged(m0, FinishBoot(Up(|m0.windows|, persisted)))
  {
    var window := |m0.windows|;
    var up := Up(window, persisted);
    hide Follows, FinishBoot, Starting, Up, Funnel, Step, Enabled, Staged, Reached;
    LaunchStarts(m0, persisted, answer);
    StartFollows(window, persisted);
    BootFollows(window, persisted);
    StageOn(m0, Starting(window, persisted), StartReply(true), up);
    StageOn(m0, up, BootResumes, FinishBoot(up));
  }

  /** And merges it into whoever signs in. */
  lemma LaunchMerges(m0: Machine, persisted: Client, answer: Option<Identity>, a: Sub)
    requires Reached(m0) && m0.launch == |m0.windows| && !Drawn(|m0.windows|, persisted.id)
    requires answer == None || (answer == Some(NOBODY) && m0.records != [] && m0.records[|m0.records| - 1] == NOBODY)
    ensures Staged(m0, Merging(|m0.windows|, persisted, a))
    ensures Merging(|m0.windows|, persisted, a).log == [Merged(Install, a)]
  {
    var window := |m0.windows|;
    hide Follows, FinishBoot, NoteSession, Up, Funnel, Step, Enabled, Staged, Reached;
    LaunchIsUp(m0, persisted, answer);
    BootEnds(window, persisted);
    NoteMerges(FinishBoot(Up(window, persisted)), SignedInAs(a));
    NoteFollows(FinishBoot(Up(window, persisted)), SignedInAs(a));
    StageOn(m0, FinishBoot(Up(window, persisted)), SessionNoted(SignedInAs(a)), Merging(window, persisted, a));
  }

  /** The save that says so is on its way. */
  ghost predicate SavesEver(w: SeamState, id: nat) {
    id in w.tasks && w.tasks[id].Saving? && w.tasks[id].next.ever
  }

  lemma SignInSaves(w: SeamState, a: Sub)
    requires w.adopted && w.hasKey && Funnel(w) == Open && !w.everIdentified && w.identifiedAs.None?
    ensures exists id: nat :: SavesEver(NoteSession(w, SignedInAs(a)), id)
  {
    hide Funnel, ApplyGroup, SpendSession, OrgArrived;
    var noted := w.(session := Some(SignedInAs(a)));
    NotedFunnel(w, SignedInAs(a));
    var saved := Persist(noted);
    PersistSends(noted);
    PersistStands(noted);
    var named := Identify(saved, a).(
      identifiedAs := Some(a), storedSub := Some(a), everIdentified := true, lastPersisted := None);
    PersistSpawns(named);
    PersistStands(named);
    hide Persist;
    var moved := Persist(named);
    TailKeeps(moved, named.nextTask);
    assert NoteSession(w, SignedInAs(a)) == OrgArrived(SpendSession(ApplyGroup(moved)));
  }

  lemma PersistSpawns(w: SeamState)
    requires w.session.Some? && w.hasKey && w.adopted && !w.session.value.unknown && w.lastPersisted.None? && w.everIdentified
    ensures SavesEver(Persist(w), w.nextTask) && Persist(w).nextTask == w.nextTask + 1
  {
  }

  lemma TailKeeps(w: SeamState, id: nat)
    requires SavesEver(w, id) && id < w.nextTask
    ensures SavesEver(OrgArrived(SpendSession(ApplyGroup(w))), id)
  {
    hide ApplyGroup, SpendSession, OrgArrived, SavesEver;
    GroupKeepsTasks(w, id);
    SpendKeepsTasks(ApplyGroup(w), id);
    ArrivalKeepsTasks(SpendSession(ApplyGroup(w)), id);
  }

  lemma GroupKeepsTasks(w: SeamState, id: nat)
    requires SavesEver(w, id) && id < w.nextTask
    ensures SavesEver(ApplyGroup(w), id) && id < ApplyGroup(w).nextTask
  {
    hide Funnel;
  }

  lemma SpendKeepsTasks(w: SeamState, id: nat)
    requires SavesEver(w, id) && id < w.nextTask
    ensures SavesEver(SpendSession(w), id) && id < SpendSession(w).nextTask
  {
  }

  lemma ArrivalKeepsTasks(w: SeamState, id: nat)
    requires SavesEver(w, id) && id < w.nextTask
    ensures SavesEver(OrgArrived(w), id)
  {
    hide ApplyGroup;
    GroupKeepsTasks(w, id);
    WakeKeepsTasks(ApplyGroup(w), id);
    hide WakeOrgWaiters;
  }

  lemma WakeKeepsTasks(w: SeamState, id: nat)
    requires SavesEver(w, id)
    ensures SavesEver(WakeOrgWaiters(w), id)
  {
  }

  /** The same windows, with the record now saying the install was identified. */
  ghost predicate Recorded(m: Machine, r: Machine) {
    Reached(r) && r.windows == m.windows && r.launch == m.launch && r.records != [] && Record(r).ever
  }

  lemma SaveIsRecorded(m: Machine, i: nat, id: nat)
    requires Reached(m) && i < |m.windows| && SavesEver(m.windows[i], id)
    ensures exists r :: Recorded(m, r)
  {
    ReachedIsShaped(m);
    hide Reached;
    assert CanAct(m, SaveLands(i, id, Stored));
    Reach(m, SaveLands(i, id, Stored));
    assert Recorded(m, Acted(m, SaveLands(i, id, Stored)));
  }

  lemma RelaunchIsReached(m: Machine)
    requires Reached(m)
    ensures Reached(m.(launch := |m.windows|))
  {
    ReachedIsShaped(m);
    hide Reached;
    Reach(m, Relaunched);
  }

  /** Two launches have merged the install id into two accounts, though the record said it had been
      identified when the second window opened. */
  ghost predicate MergedTwice(m: Machine, a: Sub, b: Sub) {
    && Shaped(m) && |m.windows| == 2 && m.records[m.openedAt[1]].ever
    && m.windows[0].log == [Merged(Install, a)] && m.windows[1].log == [Merged(Install, b)]
  }

  lemma FirstLaunch(persisted: Client, a: Sub)
    requires !Drawn(0, persisted.id)
    ensures exists m :: Reached(m) && m.launch == |m.windows| == 1 && m.windows[0].log == [Merged(Install, a)]
                        && m.records != [] && Record(m).ever
  {
    hide Follows, FinishBoot, NoteSession, Up, Funnel, Step, Enabled, Reached, SavesEver, CanAct, Acted, Merging;
    InstalledIsReached();
    LaunchMerges(Installed(false), persisted, Some(NOBODY), a);
    MergingSaves(0, persisted, a);
    var m1 :| Stage(Installed(false), m1, Merging(0, persisted, a));
    assert m1.windows[0] == Merging(0, persisted, a) && |m1.windows| == 1;
    var id: nat :| SavesEver(Merging(0, persisted, a), id);
    SaveIsRecorded(m1, 0, id);
    var m2 :| Recorded(m1, m2);
    RelaunchIsReached(m2);
    var m := m2.(launch := |m2.windows|);
    assert Reached(m) && Record(m).ever;
  }

  lemma InstalledIsReached()
    ensures Reached(Installed(false)) && Installed(false).launch == |Installed(false).windows| == 0 && Installed(false).records == [NOBODY]
  {
    var machines, acts: seq<Act> := [Installed(false)], [];
    assert IsHistory(machines, acts) && machines[|acts|] == Installed(false);
  }

  lemma MergingSaves(window: nat, persisted: Client, a: Sub)
    ensures exists id: nat :: SavesEver(Merging(window, persisted, a), id)
  {
    BootEnds(window, persisted);
    BootKeepsKey(window, persisted);
    hide FinishBoot, NoteSession, Up, Funnel, SavesEver;
    SignInSaves(FinishBoot(Up(window, persisted)), a);
    var id: nat :| SavesEver(NoteSession(FinishBoot(Up(window, persisted)), SignedInAs(a)), id);
    assert SavesEver(Merging(window, persisted, a), id);
  }

  lemma BootKeepsKey(window: nat, persisted: Client)
    ensures FinishBoot(Up(window, persisted)).hasKey
  {
    var booted := Up(window, persisted).(boot := Booted);
    assert Settle(booted) == RunAll(ApplySession(Unheld(booted)), []);
  }

  /** So the promise fails: an install merged into account `a`, and recorded as identified, is merged into
      `b` by the next launch, whose identity read was not answered. */
  lemma InstallMergedTwice(first: Client, second: Client, a: Sub, b: Sub)
    requires !Drawn(0, first.id) && !Drawn(1, second.id)
    ensures exists m :: Reached(m) && MergedTwice(m, a, b)
  {
    hide Follows, FinishBoot, NoteSession, Up, Funnel, Step, Enabled, Reached, CanAct, Acted, Merging;
    FirstLaunch(first, a);
    var m1 :| Reached(m1) && m1.launch == |m1.windows| == 1 && m1.windows[0].log == [Merged(Install, a)]
              && m1.records != [] && Record(m1).ever;
    LaunchMerges(m1, second, None, b);
    var m :| Stage(m1, m, Merging(1, second, b));
    ReachedIsShaped(m);
    assert m.windows[0] == m1.windows[0] && m.windows[1] == Merging(1, second, b);
    assert m.openedAt[1] == |m1.records| - 1;
    assert MergedTwice(m, a, b);
  }
}
