/**
 Milestones over a whole install: what is captured is what was won on a claim to
 send and answered to a window that delivers, no more and no less.
 */
module AnalyticsMilestones {
  import opened Options
  import opened AnalyticsState
  import opened AnalyticsInvariant
  import opened AnalyticsSteps
  import opened AnalyticsProgress
  import opened Install = AnalyticsInstall

  /** At act `t` window `i` hears that its claim to send milestone `m` won, while its client delivers. */
  predicate WinReaches(machine: Machine, act: Act, i: nat, m: Milestone) {
    && act.Handled? && act.window == i && act.event.ClaimReply? && act.event.claimed == Won
    && i < |machine.windows| && act.event.id in machine.windows[i].tasks
    && machine.windows[i].tasks[act.event.id] == SendClaim(m) && Delivering(machine.windows[i])
  }

  ghost predicate HasSent(w: SeamState, m: Milestone) {
    exists k :: 0 <= k < |w.log| && w.log[k].Sent? && w.log[k].what.MilestoneSent? && w.log[k].what.milestone == m
  }

  /** Whatever happens, a window has sent a milestone after a step just when it had before, or the step is
      the answer of a won claim to send it. */
  lemma StepSendsIff(w: SeamState, e: Event, m: Milestone)
    requires Inv(w) && Enabled(w, e) && WellFormed(e)
    ensures HasSent(Step(w, e), m) <==>
            HasSent(w, m) || (e.ClaimReply? && e.claimed == Won && w.tasks[e.id] == SendClaim(m) && Delivering(w))
  {
    hide Inv, Step, Enabled;
    var r := Step(w, e);
    StepKeeps(w, e);
    assert forall k :: 0 <= k < |w.log| ==> r.log[k] == r.log[..|w.log|][k] == w.log[k];
    if HasSent(w, m) {
      var k :| 0 <= k < |w.log| && w.log[k].Sent? && w.log[k].what.MilestoneSent? && w.log[k].what.milestone == m;
      assert r.log[k] == w.log[k];
    }
    if e.ClaimReply? {
      StepClaims(w, e);
      if w.tasks[e.id].SendClaim? {
        SendClaimSettles(w, e, w.tasks[e.id].milestone);
        DeliveringCaptures(w);
        SentThen(w, r, w.tasks[e.id].milestone, e.id, e.claimed == Won && Delivering(w), m);
      } else {
        NothingSentOf(w, e, r, m);
      }
    } else {
      NothingSentOf(w, e, r, m);
    }
  }

  lemma SentThen(w: SeamState, r: SeamState, sent: Milestone, id: nat, won: bool, m: Milestone)
    requires r.log == if won then w.log + [Capturable(w, MilestoneSent(sent, id))] else w.log
    ensures HasSent(r, m) <==> HasSent(w, m) || (won && sent == m)
  {
    if won {
      assert r.log[|w.log|].what == MilestoneSent(sent, id);
      assert forall k :: 0 <= k < |w.log| ==> r.log[k] == w.log[k];
    }
  }

  lemma NothingSentOf(w: SeamState, e: Event, r: SeamState, m: Milestone)
    requires StepGrows(w, e, r)
    requires !(e.ClaimReply? && e.id in w.tasks && w.tasks[e.id].SendClaim?)
    ensures HasSent(r, m) ==> HasSent(w, m)
  {
    if k :| 0 <= k < |r.log| && r.log[k].Sent? && r.log[k].what.MilestoneSent? && r.log[k].what.milestone == m {
      if k < |w.log| {
        assert r.log[k] == r.log[..|w.log|][k];
      } else {
        assert false;
      }
    }
  }

  /** Over every history of an install, however many windows and launches: a window has captured a milestone
      exactly when it was answered, while it delivered, that its claim to send it had won. With
      MilestoneCapturedOnce, one such answer is one capture, on the whole install. */
  lemma {:induction false} CapturedIffWon(machines: seq<Machine>, acts: seq<Act>, n: nat, i: nat, m: Milestone)
    requires IsHistory(machines, acts) && n < |machines|
    ensures (exists k: nat :: Captured(machines[n], i, k, m)) <==>
            exists t :: 0 <= t < n && WinReaches(machines[t], acts[t], i, m)
    decreases n
  {
    hide CanAct, Acted, HasSent, Delivering;
    if n > 0 {
      CapturedIffWon(machines, acts, n - 1, i, m);
      HistoryKeepsInv(machines, acts, n - 1);
      ActCapturesIff(machines[n - 1], acts[n - 1], i, m);
      CapturedMeans(machines[n - 1], i, m);
      CapturedMeans(machines[n], i, m);
      assert (exists t :: 0 <= t < n && WinReaches(machines[t], acts[t], i, m)) <==>
             (exists t :: 0 <= t < n - 1 && WinReaches(machines[t], acts[t], i, m)) || WinReaches(machines[n - 1], acts[n - 1], i, m);
    }
  }

  lemma CapturedMeans(machine: Machine, i: nat, m: Milestone)
    ensures (exists k: nat :: Captured(machine, i, k, m)) <==> i < |machine.windows| && HasSent(machine.windows[i], m)
  {
    if i < |machine.windows| && HasSent(machine.windows[i], m) {
      var w := machine.windows[i];
      var k :| 0 <= k < |w.log| && w.log[k].Sent? && w.log[k].what.MilestoneSent? && w.log[k].what.milestone == m;
      assert Captured(machine, i, k, m);
    }
  }

  lemma ActCapturesIff(machine: Machine, act: Act, i: nat, m: Milestone)
    requires MachineInv(machine) && CanAct(machine, act)
    ensures var r := Acted(machine, act);
            (i < |r.windows| && HasSent(r.windows[i], m)) <==>
            (i < |machine.windows| && HasSent(machine.windows[i], m)) || WinReaches(machine, act, i, m)
  {
    hide Inv, Step, Enabled, HasSent, Delivering, AllBacked, WinsOk;
    if act.Handled? && act.window == i {
      assert WindowOk(machine, i, machine.windows[i]);
      StepSendsIff(machine.windows[i], act.event, m);
      if act.event.ClaimReply? { Replied(machine.windows[i], act.event); }
    } else if act.Opened? {
      NothingSentYet(|machine.windows|, act.hasKey, act.persisted, m);
    }
  }

  lemma NothingSentYet(window: nat, hasKey: bool, persisted: Client, m: Milestone)
    ensures !HasSent(Loaded(window, hasKey, persisted), m)
  {
  }

  /** And what reaches a delivering window was won: the install's marker is that claim's, for good. */
  lemma WinIsTheMarkers(machines: seq<Machine>, acts: seq<Act>, t: nat, n: nat, i: nat, m: Milestone)
    requires IsHistory(machines, acts) && t < n < |machines| && WinReaches(machines[t], acts[t], i, m)
    ensures MilestoneMarker(m) in machines[n].markers
    ensures machines[n].markers[MilestoneMarker(m)] == Claim(i, acts[t].event.id, SendClaim(m))
  {
    hide Inv, Step, Enabled, AllBacked, Delivering;
    HistoryKeepsInv(machines, acts, t);
    MarkersStay(machines, acts, t, n);
    assert CanAct(machines[t], acts[t]);
    assert WindowOk(machines[t], i, machines[t].windows[i]);
  }
}
