/**
 What a window does send: at each point of a run what an event must lead to, and
 the whole way of a milestone from the moment it is reached.
 */
module AnalyticsProgress {
  import opened Options
  import opened AnalyticsState
  import opened AnalyticsInvariant
  import opened AnalyticsSteps
  import opened AnalyticsTheorems
  import opened AnalyticsIdentity
  import opened AnalyticsStart

  /** A capture as the window stands. */
  function Capturable(w: SeamState, what: What): Entry {
    Sent(what, w.client.id, w.client.group, w.consent, w.answered, w.client.optedOut)
  }

  /** The client is up and sharing is on, so that it delivers. */
  predicate Delivering(w: SeamState) {
    w.started && w.consent == Some(true)
  }

  lemma DeliveringCaptures(w: SeamState)
    requires Inv(w)
    ensures Delivering(w) <==> Capturing(w)
  {
  }

  // ---- Claims ----

  /** In every run, the answer to a milestone's claim: a win with the client delivering sends it then and
      there, as the client stands; anything else sends nothing. A claim that failed may be asked again; one
      that was answered may not. */
  lemma WonMilestoneIsSent(states: seq<SeamState>, events: seq<Event>, i: nat, m: Milestone)
    requires IsRun(states, events) && Launch(states[0]) && i < |events| && events[i].ClaimReply?
    requires events[i].id in states[i].tasks && states[i].tasks[events[i].id] == SendClaim(m)
    ensures var w, r, id := states[i], states[i + 1], events[i].id;
            && r.log == (if events[i].claimed == Won && Delivering(w) then w.log + [Capturable(w, MilestoneSent(m, id))] else w.log)
            && r.asked == (if events[i].claimed == ClaimFailed then w.asked - {m} else w.asked)
            && id !in r.tasks
  {
    hide Inv, Launch;
    RunKeepsInv(states, events, i);
    DeliveringCaptures(states[i]);
    SendClaimSettles(states[i], events[i], m);
    hide Step, Enabled;
  }

  lemma StepClaims(w: SeamState, e: Event)
    requires Enabled(w, e) && e.ClaimReply?
    ensures e.id in w.tasks && IsClaim(w.tasks[e.id])
    ensures Step(w, e) == Claimed(Finish(w, e.id), e.id, w.tasks[e.id], e.claimed, e.report)
  {
    hide Claimed, Finish;
  }

  lemma SendClaimSettles(w: SeamState, e: Event, m: Milestone)
    requires Enabled(w, e) && e.ClaimReply? && e.id in w.tasks && w.tasks[e.id] == SendClaim(m)
    ensures var r := Step(w, e);
            && r.log == (if e.claimed == Won && Capturing(w) then w.log + [Capturable(w, MilestoneSent(m, e.id))] else w.log)
            && r.asked == (if e.claimed == ClaimFailed then w.asked - {m} else w.asked)
            && e.id !in r.tasks
  {
    StepClaims(w, e);
    hide Step, Enabled;
    var base := Finish(w, e.id);
    FinishLeaves(w, e.id);
    hide Finish;
    MilestoneSettles(base, e.id, m, e.claimed, e.report);
    hide Claimed;
  }

  lemma FinishLeaves(w: SeamState, id: nat)
    ensures var base := Finish(w, id);
            && id !in base.tasks && base.log == w.log && base.asked == w.asked && Capturing(base) == Capturing(w)
            && (forall what :: Capturable(base, what) == Capturable(w, what))
            && base.identifiedAs == w.identifiedAs && base.session == w.session && base.everIdentified == w.everIdentified
            && base.started == w.started && base.client == w.client && base.installKnown == w.installKnown
            && CurrentOrg(base) == CurrentOrg(w)
  {
  }

  lemma MilestoneSettles(w: SeamState, id: nat, m: Milestone, answer: ClaimAnswer, report: Option<nat>)
    ensures var r := Claimed(w, id, SendClaim(m), answer, report);
            && r.log == (if answer == Won && Capturing(w) then w.log + [Capturable(w, MilestoneSent(m, id))] else w.log)
            && r.asked == (if answer == ClaimFailed then w.asked - {m} else w.asked)
            && r.tasks == w.tasks
  {
    CaptureAdds(w, MilestoneSent(m, id));
    hide Capture, Capturing;
    if answer == ClaimFailed {
      assert Claimed(w, id, SendClaim(m), answer, report) == w.(asked := w.asked - {m});
    } else if answer == Won && Capturing(w) {
      assert Claimed(w, id, SendClaim(m), answer, report) == Capture(w, MilestoneSent(m, id));
    } else {
      assert Claimed(w, id, SendClaim(m), answer, report) == w;
    }
    hide Claimed;
  }

  lemma CaptureAdds(w: SeamState, what: What)
    ensures var r := Capture(w, what); r.log == w.log + [Capturable(w, what)] && r.asked == w.asked && r.tasks == w.tasks
  {
  }

  /** And the answer to the opt-out's: a win is posted, once, under the account the client is on; else under
      the account a Constellation session names; else, on an install never identified, under its id, if it
      is known; else under the client's own id, if one is up. With none of these, nothing is posted. */
  lemma WonOptOutIsPosted(states: seq<SeamState>, events: seq<Event>, i: nat)
    requires IsRun(states, events) && i < |events| && events[i].ClaimReply?
    requires events[i].id in states[i].tasks && states[i].tasks[events[i].id] == OptOutClaim
    ensures var w, r, id := states[i], states[i + 1], events[i].id;
            && (events[i].claimed != Won ==> r.log == w.log)
            && (events[i].claimed == Won ==>
                  if w.identifiedAs.Some? then PostedAs(w, r, id, Account(w.identifiedAs.value))
                  else if SessionSub(w).Some? then PostedAs(w, r, id, Account(SessionSub(w).value))
                  else if !w.everIdentified && w.installKnown then PostedAs(w, r, id, Install)
                  else if w.everIdentified && w.started then PostedAs(w, r, id, w.client.id)
                  else r.log == w.log)
  {
    var w, e := states[i], events[i];
    StepClaims(w, e);
    hide Step, Enabled;
    var base := Finish(w, e.id);
    FinishLeaves(w, e.id);
    hide Finish;
    OptOutSettles(base, e.id, e.claimed, e.report);
    hide Claimed, CurrentOrg;
  }

  lemma OptOutSettles(w: SeamState, id: nat, answer: ClaimAnswer, report: Option<nat>)
    ensures var r := Claimed(w, id, OptOutClaim, answer, report);
            && (answer != Won ==> r.log == w.log)
            && (answer == Won ==>
                  if w.identifiedAs.Some? then PostedAs(w, r, id, Account(w.identifiedAs.value))
                  else if SessionSub(w).Some? then PostedAs(w, r, id, Account(SessionSub(w).value))
                  else if !w.everIdentified && w.installKnown then PostedAs(w, r, id, Install)
                  else if w.everIdentified && w.started then PostedAs(w, r, id, w.client.id)
                  else r.log == w.log)
  {
    hide CurrentOrg;
    OptOutIsFiled(w);
    PostsUnder(w, id, answer, report);
    hide Claimed, OptOutId;
  }

  lemma OptOutIsFiled(w: SeamState)
    ensures OptOutId(w) ==
            if w.identifiedAs.Some? then Some(Account(w.identifiedAs.value))
            else if SessionSub(w).Some? then Some(Account(SessionSub(w).value))
            else if !w.everIdentified && w.installKnown then Some(Install)
            else if w.everIdentified && w.started then Some(w.client.id)
            else None
  {
  }

  lemma PostsUnder(w: SeamState, id: nat, answer: ClaimAnswer, report: Option<nat>)
    ensures Claimed(w, id, OptOutClaim, answer, report).log ==
            if answer == Won && OptOutId(w).Some? then w.log + [Posted(id, OptOutId(w).value, CurrentOrg(w))] else w.log
  {
    hide OptOutId, CurrentOrg;
  }

  /** The account a Constellation session names, signed in or not. */
  function SessionSub(w: SeamState): Option<Sub> {
    if w.session.Some? && w.session.value.mode == Some(OAuth) then w.session.value.sub else None
  }

  predicate PostedAs(w: SeamState, r: SeamState, id: nat, who: Id) {
    r.log == w.log + [Posted(id, who, CurrentOrg(w))]
  }

  // ---- Base events ----

  /** In every run, a base event goes out at once while the client delivers; waits in line, up to fifty,
      while sharing is being decided and nobody has said no; and is dropped otherwise. */
  lemma BaseEventGoesOut(states: seq<SeamState>, events: seq<Event>, i: nat)
    requires IsRun(states, events) && Launch(states[0]) && i < |events| && events[i].Tracked?
    ensures var w, r, event := states[i], states[i + 1], events[i].event;
            if Delivering(w) then r.log == w.log + [Capturable(w, Base(event))] && r.pending == w.pending
            else r.log == w.log && r.pending ==
                 if Deciding(w) && w.consent != Some(false) && |w.pending| < 50 then w.pending + [event] else w.pending
  {
    hide Launch;
    RunKeepsInv(states, events, i);
    TrackedGoesOut(states[i], events[i]);
    hide Step, Enabled, Inv;
  }

  lemma TrackedGoesOut(w: SeamState, e: Event)
    requires Inv(w) && e.Tracked?
    ensures var r := Step(w, e);
            if Delivering(w) then r.log == w.log + [Capturable(w, Base(e.event))] && r.pending == w.pending
            else r.log == w.log && r.pending ==
                 if Deciding(w) && w.consent != Some(false) && |w.pending| < 50 then w.pending + [e.event] else w.pending
  {
    assert w.enabled == Delivering(w);
    hide Inv, Deciding;
    if w.enabled {
    } else if Deciding(w) && w.consent != Some(false) && |w.pending| < PENDING_CAP {
    } else {
    }
  }

  /** What waited in line was sent, in order, as the client stands. */
  ghost predicate InLine(w: SeamState, r: SeamState) {
    |r.log| == |w.log| + |w.pending| && w.log <= r.log &&
    forall k :: 0 <= k < |w.pending| ==>
      r.log[|w.log| + k].Sent? && r.log[|w.log| + k].what == Base(w.pending[k]) && r.log[|w.log| + k].filedAs == r.client.id
  }

  /** A start that finds sharing on sends everything in line, in order, and leaves the line empty. */
  lemma StartSendsTheLine(states: seq<SeamState>, events: seq<Event>, i: nat)
    requires IsRun(states, events) && i < |events| && events[i].StartReply? && states[i].consent == Some(true)
    ensures var w, r := states[i], states[i + 1];
            && r.pending == []
            && InLine(w, r)
            && r.enabled
  {
    hide Step, Enabled, ClientStarted;
    assert Enabled(states[i], events[i]) && states[i + 1] == Step(states[i], events[i]);
    StepsHandle(states[i], events[i]);
    StartFlushes(states[i], events[i].installKnown);
  }

  lemma StartFlushes(w: SeamState, installKnown: bool)
    requires w.consent == Some(true)
    ensures var r := ClientStarted(w, installKnown);
            && r.pending == [] && r.enabled
            && InLine(w, r)
  {
    hide Constructed, Flush;
    ConstructedStands(w, installKnown);
    var own := Constructed(w, installKnown);
    var ready := own.(client := own.client.(optedOut := false), enabled := true, pending := []);
    assert ClientStarted(w, installKnown) == Flush(ready, own.pending);
    FlushSends(ready, own.pending);
    FlushKeepsLine(ready, own.pending);
  }

  lemma {:induction false} FlushKeepsLine(w: SeamState, queued: seq<nat>)
    ensures Flush(w, queued).pending == w.pending && Flush(w, queued).enabled == w.enabled
    decreases |queued|
  {
    if queued != [] { FlushKeepsLine(Capture(w, Base(queued[0])), queued[1..]); }
  }

  /** Some task of this kind was started in between. */
  ghost predicate Starts(w: SeamState, r: SeamState, task: Task) {
    exists id: nat :: w.nextTask <= id && id in r.tasks && r.tasks[id] == task
  }

  // ---- The way of a milestone ----

  lemma Reached(w: SeamState, m: Milestone)
    requires w.hasKey && m !in w.asked
    ensures Follows(w, MilestoneReached(m), Spawn(w, Waiting(MilestoneItem(m), w.boot != NotBooted)))
  {
    hide Spawn;
  }

  lemma OpenIsDecided(w: SeamState)
    requires Funnel(w) == Open && Inv(w)
    ensures w.hasKey && w.started && w.consent == Some(true) && w.answered == Some(true) && Capturing(w) && !w.client.optedOut
    ensures w.boot == NotBooted || w.boot == Booted
  {
  }

  /** Past the gate: the half that waits for the organization. */
  function PastTheGate(w: SeamState, m: Milestone): SeamState {
    Spawn(w.(nextTask := w.nextTask + 1), OrgWait(m, CurrentOrg(w).Some?))
  }

  lemma WaitIsOver(w: SeamState, m: Milestone)
    requires Inv(w) && Funnel(w) == Open && m !in w.asked && w.nextTask !in w.tasks
    ensures var waiting := Spawn(w, Waiting(MilestoneItem(m), w.boot != NotBooted));
            Follows(waiting, WaitOver(w.nextTask), PastTheGate(w, m))
  {
    OpenIsDecided(w);
    hide Inv;
    var waiting := Spawn(w, Waiting(MilestoneItem(m), w.boot != NotBooted));
    assert Finish(waiting, w.nextTask) == w.(nextTask := w.nextTask + 1) by {
      assert w.tasks[w.nextTask := Waiting(MilestoneItem(m), w.boot != NotBooted)] - {w.nextTask} == w.tasks;
    }
    assert Funnel(w.(nextTask := w.nextTask + 1)) == Open;
    hide Funnel;
  }

  function OrgIsIn(w: SeamState, m: Milestone): SeamState {
    w.(tasks := w.tasks[w.nextTask + 1 := OrgWait(m, true)], nextTask := w.nextTask + 2)
  }

  lemma OrgTimesOut(w: SeamState, m: Milestone)
    ensures Follows(PastTheGate(w, m), OrgTimer(w.nextTask + 1), OrgIsIn(w, m))
  {
    hide CurrentOrg;
    assert w.tasks[w.nextTask + 1 := OrgWait(m, CurrentOrg(w).Some?)][w.nextTask + 1 := OrgWait(m, true)]
        == w.tasks[w.nextTask + 1 := OrgWait(m, true)];
  }

  function Claiming(w: SeamState, m: Milestone): SeamState {
    w.(client := w.client.(group := CurrentOrg(w)), groupedAs := CurrentOrg(w), asked := w.asked + {m},
       tasks := w.tasks[w.nextTask + 2 := SendClaim(m)], nextTask := w.nextTask + 3)
  }

  lemma OrgWaitIsOver(w: SeamState, m: Milestone)
    requires Inv(w) && Funnel(w) == Open && m !in w.asked && w.nextTask + 1 !in w.tasks
    ensures Follows(OrgIsIn(w, m), OrgResumes(w.nextTask + 1), Claiming(w, m))
  {
    OpenIsDecided(w);
    hide Inv;
    var base := w.(nextTask := w.nextTask + 2);
    OrgWaitEnds(OrgIsIn(w, m), w.nextTask + 1, m);
    FinishesBack(w, m);
    assert Funnel(base) == Open && CurrentOrg(base) == CurrentOrg(w);
    ClaimsBehindTheGate(base, m);
    hide Funnel, CurrentOrg, Step, Enabled, OrgWaited, OrgIsIn;
  }

  lemma OrgWaitEnds(w: SeamState, id: nat, m: Milestone)
    requires id in w.tasks && w.tasks[id] == OrgWait(m, true)
    ensures Follows(w, OrgResumes(id), OrgWaited(Finish(w, id), m))
  {
    hide OrgWaited, Finish;
  }

  lemma FinishesBack(w: SeamState, m: Milestone)
    requires w.nextTask + 1 !in w.tasks
    ensures Finish(OrgIsIn(w, m), w.nextTask + 1) == w.(nextTask := w.nextTask + 2)
  {
    assert w.tasks[w.nextTask + 1 := OrgWait(m, true)] - {w.nextTask + 1} == w.tasks;
    Retasked(w, w.tasks[w.nextTask + 1 := OrgWait(m, true)], w.tasks, w.nextTask + 2);
    SameTasked(w, w.nextTask + 2);
  }

  lemma Retasked(w: SeamState, a: map<nat, Task>, b: map<nat, Task>, next: nat)
    ensures w.(tasks := a, nextTask := next).(tasks := b) == w.(tasks := b, nextTask := next)
  {
  }

  lemma SameTasked(w: SeamState, next: nat)
    ensures w.(tasks := w.tasks, nextTask := next) == w.(nextTask := next)
  {
  }

  lemma ClaimsBehindTheGate(w: SeamState, m: Milestone)
    requires Funnel(w) == Open && m !in w.asked
    ensures OrgWaited(w, m) ==
            w.(client := w.client.(group := CurrentOrg(w)), groupedAs := CurrentOrg(w), asked := w.asked + {m},
               tasks := w.tasks[w.nextTask := SendClaim(m)], nextTask := w.nextTask + 1)
  {
    hide CurrentOrg;
  }

  lemma ClaimIsWon(w: SeamState, m: Milestone)
    requires Inv(w) && Funnel(w) == Open
    ensures var claiming := Claiming(w, m);
            && Enabled(claiming, ClaimReply(w.nextTask + 2, Won, None))
            && Step(claiming, ClaimReply(w.nextTask + 2, Won, None)).log ==
               w.log + [Sent(MilestoneSent(m, w.nextTask + 2), w.client.id, CurrentOrg(w), Some(true), Some(true), false)]
  {
    OpenIsDecided(w);
    hide Inv, Funnel, CurrentOrg;
    SendClaimSettles(Claiming(w, m), ClaimReply(w.nextTask + 2, Won, None), m);
    hide Step;
  }

  lemma NextTaskIsFree(w: SeamState)
    requires Inv(w)
    ensures forall id <- w.tasks :: id < w.nextTask
  {
  }

  /** From any point of any run with the gate open: a milestone not asked about yet, whose waits end and
      whose claim is won with nothing else happening meanwhile, is captured, under the organization the
      install routes for. */
  lemma OpenMilestoneIsSent(states: seq<SeamState>, events: seq<Event>, i: nat, m: Milestone)
    requires IsRun(states, events) && Launch(states[0]) && i < |states| && Funnel(states[i]) == Open && m !in states[i].asked
    ensures var w := states[i];
            exists more: seq<SeamState>, later: seq<Event> ::
              && IsRun(more, later) && more[0] == w && |later| == 5 && later[0] == MilestoneReached(m)
              && more[5].log ==
                 w.log + [Sent(MilestoneSent(m, w.nextTask + 2), w.client.id, CurrentOrg(w), Some(true), Some(true), false)]
  {
    hide Step, Enabled, Inv, Launch, Funnel, CurrentOrg, PastTheGate, OrgIsIn, Claiming, Spawn;
    RunKeepsInv(states, events, i);
    var w := states[i];
    NextTaskIsFree(w);
    OpenIsDecided(w);
    Reached(w, m);
    WaitIsOver(w, m);
    OrgTimesOut(w, m);
    OrgWaitIsOver(w, m);
    ClaimIsWon(w, m);
    hide IsRun;
    FiveSteps(w, Spawn(w, Waiting(MilestoneItem(m), w.boot != NotBooted)), PastTheGate(w, m), OrgIsIn(w, m), Claiming(w, m), m);
  }

  lemma FiveSteps(s0: SeamState, s1: SeamState, s2: SeamState, s3: SeamState, s4: SeamState, m: Milestone)
    requires Follows(s0, MilestoneReached(m), s1) && Follows(s1, WaitOver(s0.nextTask), s2)
    requires Follows(s2, OrgTimer(s0.nextTask + 1), s3) && Follows(s3, OrgResumes(s0.nextTask + 1), s4)
    requires Enabled(s4, ClaimReply(s0.nextTask + 2, Won, None))
    ensures exists more: seq<SeamState>, later: seq<Event> ::
              && IsRun(more, later) && more[0] == s0 && |later| == 5 && later[0] == MilestoneReached(m)
              && more[5] == Step(s4, ClaimReply(s0.nextTask + 2, Won, None))
  {
    hide Step, Enabled;
    var s5 := Step(s4, ClaimReply(s0.nextTask + 2, Won, None));
    var more, later := [s0, s1, s2, s3, s4, s5],
                       [MilestoneReached(m), WaitOver(s0.nextTask), OrgTimer(s0.nextTask + 1), OrgResumes(s0.nextTask + 1),
                        ClaimReply(s0.nextTask + 2, Won, None)];
    assert IsRun(more, later);
  }
}
