/**
 How the app goes away, and what launches it again: the quit command, the two
 exit events, the updater's mark, and the login item a deferred opt-out keeps
 (`src-tauri/src/commands.rs`; the login item's safe points in
 `src-tauri/src/lib.rs`). macOS and Windows.
 */
module Exit {
  datatype Teardown = Clean | SomeFailed | Errored | Panicked

  /** How a platform call ends. */
  datatype Ending = Fine | Failing | Panicking

  datatype Effect =
    | TeardownBegun
    | TornDown(outcome: Teardown)
    | Notified
    | ExitAsked
    | CleanExitRecorded(recorded: Ending)
    | ProxyReverted(reverted: Ending)
    | RelayForgotten

  /** Removing the login item: it may fail and be gone all the same. */
  datatype Removal = Removed | FailedGone | FailedStill

  /** What the once-per-routing-on safety net meets. */
  datatype Net = ProbeFailed | ArmFailed | RegisterFailed(cleared: bool) | NetUp

  datatype Process = Process(
    claimed: bool,
    quitting: bool,
    updaterMark: bool,
    restartNoted: bool,
    exited: bool,
    routed: bool,
    registered: bool,
    pending: bool,
    effects: seq<Effect>)

  datatype Step =
    | QuitAsked
    | QuitTornDown(outcome: Teardown, notice: bool)
    | MarkSet(on: bool)
    | ExitRequested(restart: bool)
    | Exiting(torn: Teardown, recorded: Ending, reverted: Ending, removal: Removal, cleared: bool)
    | LaunchAtLoginSet(on: bool, markerFails: bool, itemFails: bool)
    | RoutingOn(enableFails: bool, statusFails: bool, net: Net)
    | RoutingOff(disableFails: bool, removal: Removal, cleared: bool)

  predicate Relaunching(p: Process) {
    p.updaterMark && p.restartNoted
  }

  /** The Settings switch (`launch_at_login_status`). */
  predicate ShownOn(p: Process) {
    p.registered && !p.pending
  }

  predicate CanStep(p: Process, s: Step) {
    !p.exited && (s.QuitTornDown? ==> p.quitting)
  }

  function With(p: Process, effects: seq<Effect>): Process {
    p.(effects := p.effects + effects)
  }

  /** `complete_pending_autostart_disable`. */
  function OptOutCompleted(p: Process, removal: Removal, cleared: bool): Process {
    if !p.pending || removal == FailedStill then p
    else p.(registered := false, pending := !cleared)
  }

  /** A handler part way through: where it has got to, and whether it is unwinding from a panic. */
  datatype Flow = Flow(at: Process, unwinding: bool)

  /** The next call of a handler, which is not reached while it unwinds. */
  function Then(f: Flow, effect: Effect, ending: Ending): Flow {
    if f.unwinding then f else Flow(With(f.at, [effect]), ending == Panicking)
  }

  predicate TearsDown(p: Process) {
    !Relaunching(p) && !p.claimed
  }

  /** The claim and the sweep behind it. One that panics never says how it ended. */
  function Swept(p: Process, outcome: Teardown): Flow {
    if !TearsDown(p) then Flow(p, false)
    else
      var begun := With(p.(claimed := true), [TeardownBegun]);
      if outcome == Panicked then Flow(begun, true) else Flow(With(begun, [TornDown(outcome)]), false)
  }

  /** `catch_unwind` around the sweep, with the arm that logs the panic. */
  function Caught(f: Flow): Flow {
    if f.unwinding then Flow(With(f.at, [TornDown(Panicked)]), false) else f
  }

  function Reverted(f: Flow, reverted: Ending): Flow {
    var tried := Then(f, ProxyReverted(reverted), reverted);
    if f.unwinding || reverted != Fine then tried else tried.(at := tried.at.(routed := false))
  }

  /** What is below the catch. */
  function Left(f: Flow, recorded: Ending, reverted: Ending): Flow {
    Then(Reverted(Then(f, CleanExitRecorded(recorded), recorded), reverted), RelayForgotten, Fine)
  }

  function CaughtIf(guarded: bool, f: Flow): Flow {
    if guarded then Caught(f) else f
  }

  /** `exit`, `guarded` by its `catch_unwind` or without it. */
  function ExitBody(p: Process, guarded: bool, outcome: Teardown, recorded: Ending, reverted: Ending,
      removal: Removal, cleared: bool): Process
  {
    var down := Left(CaughtIf(guarded, Swept(p, outcome)), recorded, reverted);
    (if Relaunching(p) || down.unwinding then down.at else OptOutCompleted(down.at, removal, cleared)).(exited := true)
  }

  function Exited(p: Process, outcome: Teardown, recorded: Ending, reverted: Ending, removal: Removal, cleared: bool): Process {
    ExitBody(p, true, outcome, recorded, reverted, removal, cleared)
  }

  /** `set_launch_at_login`. */
  function LaunchSet(p: Process, on: bool, markerFails: bool, itemFails: bool): (Process, bool) {
    if markerFails then (p, false)
    else if on then
      var unmarked := p.(pending := false);
      if itemFails then (unmarked, false) else (unmarked.(registered := true), true)
    else
      var marked := p.(pending := p.routed);
      if p.routed then (marked, true)
      else if itemFails then (marked, false)
      else (marked.(registered := false), true)
  }

  /** `arm_crash_safety_net`. */
  function NetArmed(p: Process, net: Net): Process {
    if p.registered then p
    else match net
      case ProbeFailed => p
      case ArmFailed => p
      case RegisterFailed(cleared) => p.(pending := !cleared)
      case NetUp => p.(pending := true, registered := true)
  }

  function Stepped(p: Process, s: Step): Process {
    match s
    case QuitAsked => if p.claimed then p else With(p.(claimed := true, quitting := true), [TeardownBegun])
    case QuitTornDown(outcome, notice) =>
      With(p.(quitting := false), if notice then [TornDown(outcome), Notified, ExitAsked] else [TornDown(outcome), ExitAsked])
    case MarkSet(on) => p.(updaterMark := on)
    case ExitRequested(restart) => if restart then p.(restartNoted := true) else p
    case Exiting(torn, recorded, reverted, removal, cleared) => Exited(p, torn, recorded, reverted, removal, cleared)
    case LaunchAtLoginSet(on, markerFails, itemFails) => LaunchSet(p, on, markerFails, itemFails).0
    case RoutingOn(enableFails, statusFails, net) =>
      if enableFails then p
      else if statusFails then p.(routed := true)
      else NetArmed(p.(routed := true), net)
    case RoutingOff(disableFails, removal, cleared) =>
      if disableFails then p else OptOutCompleted(p.(routed := false), removal, cleared)
  }

  /** A process as it starts; routing and the login item are what the last one left. */
  predicate Starts(p: Process) {
    !p.claimed && !p.quitting && !p.updaterMark && !p.restartNoted && !p.exited && p.effects == []
  }

  ghost predicate IsRun(states: seq<Process>, steps: seq<Step>) {
    && |states| == |steps| + 1 && Starts(states[0])
    && forall n :: 0 <= n < |steps| ==> CanStep(states[n], steps[n]) && states[n + 1] == Stepped(states[n], steps[n])
  }

  function Count(effects: seq<Effect>, e: Effect): nat {
    multiset(effects)[e]
  }

  function Teardowns(effects: seq<Effect>): nat {
    Count(effects, TeardownBegun)
  }

  /** Every teardown begun so far, in this process, was the one claimed. */
  predicate ClaimKept(p: Process) {
    Teardowns(p.effects) == (if p.claimed then 1 else 0) && (p.quitting ==> p.claimed)
  }

  /** The claim, and what has been done, as they were. */
  predicate SameClaim(p: Process, r: Process) {
    r.effects == p.effects && r.claimed == p.claimed && r.quitting == p.quitting
  }

  lemma SameClaimKept(p: Process, r: Process)
    requires ClaimKept(p) && SameClaim(p, r)
    ensures ClaimKept(r)
  {
  }

  lemma MoreDone(p: Process, more: seq<Effect>)
    requires ClaimKept(p) && TeardownBegun !in more
    ensures ClaimKept(With(p, more))
  {
    assert multiset(more)[TeardownBegun] == 0;
  }

  lemma Claims(p: Process)
    requires ClaimKept(p) && !p.claimed
    ensures ClaimKept(With(p.(claimed := true), [TeardownBegun]))
    ensures ClaimKept(With(p.(claimed := true, quitting := true), [TeardownBegun]))
  {
  }

  lemma OptOutSilent(p: Process, removal: Removal, cleared: bool)
    ensures SameClaim(p, OptOutCompleted(p, removal, cleared))
  {
  }

  lemma ThenKeepsClaim(f: Flow, effect: Effect, ending: Ending)
    requires ClaimKept(f.at) && effect != TeardownBegun
    ensures ClaimKept(Then(f, effect, ending).at)
  {
    MoreDone(f.at, [effect]);
    hide ClaimKept, With;
  }

  lemma SweepKeepsClaim(p: Process, outcome: Teardown)
    requires ClaimKept(p)
    ensures ClaimKept(Swept(p, outcome).at)
  {
    hide ClaimKept, With;
    if TearsDown(p) {
      Claims(p);
      var begun := With(p.(claimed := true), [TeardownBegun]);
      MoreDone(begun, [TornDown(outcome)]);
    }
  }

  lemma RevertKeepsClaim(f: Flow, reverted: Ending)
    requires ClaimKept(f.at)
    ensures ClaimKept(Reverted(f, reverted).at)
  {
    ThenKeepsClaim(f, ProxyReverted(reverted), reverted);
    var tried := Then(f, ProxyReverted(reverted), reverted);
    SameClaimKept(tried.at, tried.at.(routed := false));
    hide ClaimKept, Then;
  }

  lemma ExitKeepsClaim(p: Process, outcome: Teardown, recorded: Ending, reverted: Ending, removal: Removal, cleared: bool)
    requires ClaimKept(p)
    ensures ClaimKept(Exited(p, outcome, recorded, reverted, removal, cleared))
  {
    hide ClaimKept, OptOutCompleted, Swept, Left, With;
    SweepKeepsClaim(p, outcome);
    var swept := Swept(p, outcome);
    MoreDone(swept.at, [TornDown(Panicked)]);
    LeavingKeepsClaim(Caught(swept), recorded, reverted);
    var down := Left(Caught(swept), recorded, reverted);
    OptOutSilent(down.at, removal, cleared);
    SameClaimKept(down.at, OptOutCompleted(down.at, removal, cleared));
    var left := if Relaunching(p) || down.unwinding then down.at else OptOutCompleted(down.at, removal, cleared);
    SameClaimKept(left, left.(exited := true));
  }

  lemma LeavingKeepsClaim(f: Flow, recorded: Ending, reverted: Ending)
    requires ClaimKept(f.at)
    ensures ClaimKept(Left(f, recorded, reverted).at)
  {
    hide ClaimKept, Then, Reverted;
    var noted := Then(f, CleanExitRecorded(recorded), recorded);
    ThenKeepsClaim(f, CleanExitRecorded(recorded), recorded);
    RevertKeepsClaim(noted, reverted);
    ThenKeepsClaim(Reverted(noted, reverted), RelayForgotten, Fine);
  }

  lemma QuietStep(p: Process, s: Step)
    requires s.MarkSet? || s.ExitRequested? || s.LaunchAtLoginSet? || s.RoutingOn? || s.RoutingOff?
    ensures SameClaim(p, Stepped(p, s))
  {
    hide Exited, With, LaunchSet, NetArmed, OptOutCompleted;
    match s
    case MarkSet(_) =>
    case ExitRequested(_) =>
    case LaunchAtLoginSet(on, markerFails, itemFails) => SettingSilent(p, on, markerFails, itemFails);
    case RoutingOn(_, _, net) => NetSilent(p.(routed := true), net);
    case RoutingOff(_, removal, cleared) => OptOutSilent(p.(routed := false), removal, cleared);
  }

  lemma SettingSilent(p: Process, on: bool, markerFails: bool, itemFails: bool)
    ensures SameClaim(p, LaunchSet(p, on, markerFails, itemFails).0)
  {
  }

  lemma NetSilent(p: Process, net: Net)
    ensures SameClaim(p, NetArmed(p, net))
  {
  }

  lemma ClaimKeptStep(p: Process, s: Step)
    requires ClaimKept(p) && CanStep(p, s)
    ensures ClaimKept(Stepped(p, s))
  {
    hide ClaimKept, Exited;
    match s
    case QuitAsked => if !p.claimed { Claims(p); }
    case QuitTornDown(outcome, notice) => QuitEnds(p, outcome, notice);
    case Exiting(torn, recorded, reverted, removal, cleared) => ExitKeepsClaim(p, torn, recorded, reverted, removal, cleared);
    case _ =>
      QuietStep(p, s);
      SameClaimKept(p, Stepped(p, s));
  }

  lemma QuitEnds(p: Process, outcome: Teardown, notice: bool)
    requires ClaimKept(p)
    ensures ClaimKept(Stepped(p, QuitTornDown(outcome, notice)))
  {
    MoreDone(p, if notice then [TornDown(outcome), Notified, ExitAsked] else [TornDown(outcome), ExitAsked]);
    hide Teardowns;
  }

  /** However a process goes (its own quit, Cmd+Q or a logout on top of it, a second quit, a restart),
      the tool teardown runs at most once. */
  lemma {:induction false} TeardownAtMostOnce(states: seq<Process>, steps: seq<Step>, n: nat)
    requires IsRun(states, steps) && n < |states|
    ensures Teardowns(states[n].effects) <= 1
    ensures ClaimKept(states[n])
    decreases n
  {
    hide Stepped, ClaimKept, Teardowns;
    if n == 0 {
      assert ClaimKept(states[0]) by { NothingTornYet(states[0]); }
    } else {
      TeardownAtMostOnce(states, steps, n - 1);
      ClaimKeptStep(states[n - 1], steps[n - 1]);
    }
    assert Teardowns(states[n].effects) <= 1 by { ClaimedOnce(states[n]); }
  }

  lemma NothingTornYet(p: Process)
    requires Starts(p)
    ensures ClaimKept(p)
  {
  }

  lemma ClaimedOnce(p: Process)
    requires ClaimKept(p)
    ensures Teardowns(p.effects) <= 1
    ensures p.claimed ==> TeardownBegun in p.effects
  {
  }

  /** The revert is attempted at `k`, by when the teardown has been begun, if it is to run at all. */
  ghost predicate RevertsAt(p: Process, effects: seq<Effect>, k: nat) {
    && |p.effects| <= k < |effects| && effects[k].ProxyReverted?
    && (!Relaunching(p) ==> TeardownBegun in effects[..k])
  }

  ghost predicate Reverts(p: Process, r: Process) {
    exists k :: RevertsAt(p, r.effects, k)
  }

  /** Whether the exit reaches its revert: past the record of a clean exit, which is outside the catch, and
      past a teardown, which only the catch gets it past when it panics. */
  predicate ReachesRevert(p: Process, guarded: bool, outcome: Teardown, recorded: Ending) {
    recorded != Panicking && (guarded || !TearsDown(p) || outcome != Panicked)
  }

  /** Everything but the claim and what was done is as it was. */
  predicate SameItem(p: Process, r: Process) {
    r.pending == p.pending && r.registered == p.registered
  }

  function SweepEffects(p: Process, guarded: bool, outcome: Teardown): seq<Effect> {
    if !TearsDown(p) then [] else if outcome == Panicked && !guarded then [TeardownBegun] else [TeardownBegun, TornDown(outcome)]
  }

  lemma SweepDoes(p: Process, guarded: bool, outcome: Teardown)
    ensures var swept := CaughtIf(guarded, Swept(p, outcome));
            && swept.unwinding == (TearsDown(p) && outcome == Panicked && !guarded)
            && swept.at.effects == p.effects + SweepEffects(p, guarded, outcome)
            && SameItem(p, swept.at) && swept.at.routed == p.routed
            && (Relaunching(p) ==> swept.at.claimed == p.claimed)
  {
    if TearsDown(p) {
      var begun := With(p.(claimed := true), [TeardownBegun]);
      assert begun.effects + [TornDown(outcome)] == p.effects + [TeardownBegun, TornDown(outcome)];
      assert SameItem(p, begun) && begun.routed == p.routed;
      if outcome == Panicked {
        assert Swept(p, outcome) == Flow(begun, true);
      } else {
        assert Swept(p, outcome) == Flow(With(begun, [TornDown(outcome)]), false);
      }
    }
  }

  function LeaveEffects(recorded: Ending, reverted: Ending): seq<Effect> {
    [CleanExitRecorded(recorded)]
    + if recorded == Panicking then []
      else [ProxyReverted(reverted)] + if reverted == Panicking then [] else [RelayForgotten]
  }

  lemma LeavingDoes(f: Flow, recorded: Ending, reverted: Ending)
    ensures var r := Left(f, recorded, reverted);
            && r.at.effects == f.at.effects + (if f.unwinding then [] else LeaveEffects(recorded, reverted))
            && r.unwinding == (f.unwinding || recorded == Panicking || reverted == Panicking)
            && SameItem(f.at, r.at) && r.at.claimed == f.at.claimed
            && r.at.routed == (f.at.routed && (r.unwinding || reverted != Fine))
  {
    if f.unwinding {
    } else {
      var noted := With(f.at, [CleanExitRecorded(recorded)]);
      assert Then(f, CleanExitRecorded(recorded), recorded) == Flow(noted, recorded == Panicking);
      if recorded != Panicking {
        RevertingDoes(noted, reverted);
        assert f.at.effects + [CleanExitRecorded(recorded)] + LeaveEffects(recorded, reverted)[1..] ==
               f.at.effects + LeaveEffects(recorded, reverted);
      }
    }
  }

  lemma ThenDoes(p: Process, effect: Effect, ending: Ending)
    ensures var r := Then(Flow(p, false), effect, ending);
            && r.at.effects == p.effects + [effect] && r.unwinding == (ending == Panicking)
            && SameItem(p, r.at) && r.at.claimed == p.claimed && r.at.routed == p.routed
  {
  }

  lemma RevertedDoes(p: Process, reverted: Ending)
    ensures var r := Reverted(Flow(p, false), reverted);
            && r.at.effects == p.effects + [ProxyReverted(reverted)] && r.unwinding == (reverted == Panicking)
            && SameItem(p, r.at) && r.at.claimed == p.claimed && r.at.routed == (p.routed && reverted != Fine)
  {
    ThenDoes(p, ProxyReverted(reverted), reverted);
    hide Then;
  }

  lemma RevertingDoes(p: Process, reverted: Ending)
    ensures var r := Then(Reverted(Flow(p, false), reverted), RelayForgotten, Fine);
            && r.at.effects == p.effects + ([ProxyReverted(reverted)] + if reverted == Panicking then [] else [RelayForgotten])
            && r.unwinding == (reverted == Panicking)
            && SameItem(p, r.at) && r.at.claimed == p.claimed && r.at.routed == (p.routed && reverted != Fine)
  {
    hide Reverted, With;
    var tried := Reverted(Flow(p, false), reverted);
    RevertedDoes(p, reverted);
    if tried.unwinding {
    } else {
      ThenDoes(tried.at, RelayForgotten, Fine);
      hide Then;
      assert tried == Flow(tried.at, false);
      assert p.effects + [ProxyReverted(reverted)] + [RelayForgotten] == p.effects + ([ProxyReverted(reverted)] + [RelayForgotten]);
    }
  }

  /** What an exit does, as one list. */
  function ExitEffects(p: Process, guarded: bool, outcome: Teardown, recorded: Ending, reverted: Ending): seq<Effect> {
    SweepEffects(p, guarded, outcome)
    + if TearsDown(p) && outcome == Panicked && !guarded then [] else LeaveEffects(recorded, reverted)
  }

  lemma ExitDoes(p: Process, guarded: bool, outcome: Teardown, recorded: Ending, reverted: Ending, removal: Removal, cleared: bool)
    ensures var r := ExitBody(p, guarded, outcome, recorded, reverted, removal, cleared);
            && r.effects == p.effects + ExitEffects(p, guarded, outcome, recorded, reverted) && r.exited
            && (Relaunching(p) ==> r.claimed == p.claimed && SameItem(p, r))
  {
    hide Swept, CaughtIf, Left, SweepEffects, LeaveEffects, OptOutCompleted;
    var swept := CaughtIf(guarded, Swept(p, outcome));
    SweepDoes(p, guarded, outcome);
    LeavingDoes(swept, recorded, reverted);
    OptOutSilent(Left(swept, recorded, reverted).at, removal, cleared);
    assert p.effects + SweepEffects(p, guarded, outcome) + LeaveEffects(recorded, reverted)
        == p.effects + (SweepEffects(p, guarded, outcome) + LeaveEffects(recorded, reverted));
  }

  lemma RevertsIff(p: Process, guarded: bool, outcome: Teardown, recorded: Ending, reverted: Ending, removal: Removal, cleared: bool)
    requires p.claimed ==> TeardownBegun in p.effects
    ensures Reverts(p, ExitBody(p, guarded, outcome, recorded, reverted, removal, cleared))
       <==> ReachesRevert(p, guarded, outcome, recorded)
  {
    ExitDoes(p, guarded, outcome, recorded, reverted, removal, cleared);
    var done := ExitEffects(p, guarded, outcome, recorded, reverted);
    var r := ExitBody(p, guarded, outcome, recorded, reverted, removal, cleared);
    hide ExitBody;
    if ReachesRevert(p, guarded, outcome, recorded) {
      var k := if TearsDown(p) then 3 else 1;
      assert done[k] == ProxyReverted(reverted) && r.effects[|p.effects| + k] == done[k];
      if TearsDown(p) {
        assert r.effects[..|p.effects| + k][|p.effects|] == TeardownBegun;
      } else if p.claimed {
        assert r.effects[..|p.effects| + k][..|p.effects|] == p.effects;
      }
      assert RevertsAt(p, r.effects, |p.effects| + k);
    } else {
      forall k: nat ensures !RevertsAt(p, r.effects, k) {
        if |p.effects| <= k < |r.effects| {
          assert r.effects[k] == done[k - |p.effects|];
        }
      }
    }
  }

  /** In every run an exit attempts the proxy revert, after the teardown was begun unless this is the
      updater's own restart (the mark and the restart both), exactly when the record of a clean exit does
      not panic: a teardown that failed, or panicked, is behind its catch. A relaunch begins no teardown,
      and leaves a pending opt-out and its login item as they are. */
  lemma EveryExitReverts(states: seq<Process>, steps: seq<Step>, n: nat)
    requires IsRun(states, steps) && n < |steps| && steps[n].Exiting?
    ensures Reverts(states[n], states[n + 1]) <==> steps[n].recorded != Panicking
    ensures Relaunching(states[n]) ==>
              && states[n + 1].claimed == states[n].claimed
              && states[n + 1].pending == states[n].pending && states[n + 1].registered == states[n].registered
    ensures states[n + 1].exited
  {
    var p, e := states[n], steps[n];
    TeardownAtMostOnce(states, steps, n);
    ClaimedOnce(p);
    hide ExitBody;
    assert states[n + 1] == ExitBody(p, true, e.torn, e.recorded, e.reverted, e.removal, e.cleared);
    RevertsIff(p, true, e.torn, e.recorded, e.reverted, e.removal, e.cleared);
    ExitDoes(p, true, e.torn, e.recorded, e.reverted, e.removal, e.cleared);
  }

  /** And what it does, in order, in every run: the teardown, if it is this exit's to begin; the record of a clean
      exit; and, past each of these that does not panic, the revert and the relay's record. Routing is off
      after a revert that went through, and only then. */
  lemma ExitDoesInOrder(states: seq<Process>, steps: seq<Step>, n: nat)
    requires IsRun(states, steps) && n < |steps| && steps[n].Exiting?
    ensures var p, r, e := states[n], states[n + 1], steps[n];
            && r.effects == p.effects
                 + (if Relaunching(p) || p.claimed then [] else [TeardownBegun, TornDown(e.torn)])
                 + [CleanExitRecorded(e.recorded)]
                 + (if e.recorded == Panicking then [] else [ProxyReverted(e.reverted)])
                 + (if e.recorded == Panicking || e.reverted == Panicking then [] else [RelayForgotten])
            && r.routed == (p.routed && (e.recorded == Panicking || e.reverted != Fine))
  {
    var p, e := states[n], steps[n];
    assert states[n + 1] == ExitBody(p, true, e.torn, e.recorded, e.reverted, e.removal, e.cleared) by { hide ExitBody; }
    ExitDoes(p, true, e.torn, e.recorded, e.reverted, e.removal, e.cleared);
    ExitRoutes(p, e.torn, e.recorded, e.reverted, e.removal, e.cleared);
    hide ExitBody, IsRun;
    ExitListed(p, e.torn, e.recorded, e.reverted);
  }

  lemma ExitListed(p: Process, torn: Teardown, recorded: Ending, reverted: Ending)
    ensures p.effects + ExitEffects(p, true, torn, recorded, reverted) ==
            p.effects
            + (if Relaunching(p) || p.claimed then [] else [TeardownBegun, TornDown(torn)])
            + [CleanExitRecorded(recorded)]
            + (if recorded == Panicking then [] else [ProxyReverted(reverted)])
            + (if recorded == Panicking || reverted == Panicking then [] else [RelayForgotten])
  {
  }

  lemma ExitRoutes(p: Process, torn: Teardown, recorded: Ending, reverted: Ending, removal: Removal, cleared: bool)
    ensures Exited(p, torn, recorded, reverted, removal, cleared).routed == (p.routed && (recorded == Panicking || reverted != Fine))
  {
    hide Swept, CaughtIf, Left, OptOutCompleted;
    SweepDoes(p, true, torn);
    LeavingDoes(CaughtIf(true, Swept(p, torn)), recorded, reverted);
    OptOutRoutes(Left(CaughtIf(true, Swept(p, torn)), recorded, reverted).at, removal, cleared);
  }

  lemma OptOutRoutes(p: Process, removal: Removal, cleared: bool)
    ensures OptOutCompleted(p, removal, cleared).routed == p.routed
  {
  }

  // ---- Quits and relaunches ----

  /** Among the first `n` steps, the quits whose teardown came back. */
  function Quits(steps: seq<Step>, n: nat): nat
    requires n <= |steps|
    decreases n
  {
    if n == 0 then 0 else Quits(steps, n - 1) + if steps[n - 1].QuitTornDown? then 1 else 0
  }

  function NoticedQuits(steps: seq<Step>, n: nat): nat
    requires n <= |steps|
    decreases n
  {
    if n == 0 then 0
    else NoticedQuits(steps, n - 1) + if steps[n - 1].QuitTornDown? && steps[n - 1].notice then 1 else 0
  }

  lemma CountsMore(effects: seq<Effect>, more: seq<Effect>, e: Effect)
    ensures Count(effects + more, e) == Count(effects, e) + Count(more, e)
  {
    assert multiset(effects + more) == multiset(effects) + multiset(more);
  }

  lemma CountsNone(effects: seq<Effect>, more: seq<Effect>, e: Effect)
    requires e !in more
    ensures Count(effects + more, e) == Count(effects, e)
  {
    CountsMore(effects, more, e);
  }

  /** The step asks the app to exit so many times, and notes a quit so many times. */
  predicate AsksAndNotes(p: Process, r: Process, asks: nat, notes: nat) {
    Count(r.effects, ExitAsked) == Count(p.effects, ExitAsked) + asks && Count(r.effects, Notified) == Count(p.effects, Notified) + notes
  }

  lemma QuitSteps(p: Process, s: Step)
    requires CanStep(p, s)
    ensures AsksAndNotes(p, Stepped(p, s), if s.QuitTornDown? then 1 else 0, if s.QuitTornDown? && s.notice then 1 else 0)
  {
    hide AsksAndNotes, Stepped;
    match s
    case QuitAsked => QuitBegins(p);
    case QuitTornDown(outcome, notice) => QuitComesBack(p, outcome, notice);
    case Exiting(torn, recorded, reverted, removal, cleared) => ExitCounts(p, torn, recorded, reverted, removal, cleared);
    case _ =>
      QuietStep(p, s);
      SameCounts(p, Stepped(p, s));
  }

  lemma SameCounts(p: Process, r: Process)
    requires SameClaim(p, r)
    ensures AsksAndNotes(p, r, 0, 0)
  {
  }

  lemma QuitBegins(p: Process)
    ensures AsksAndNotes(p, Stepped(p, QuitAsked), 0, 0)
  {
    CountsNone(p.effects, [TeardownBegun], ExitAsked);
    CountsNone(p.effects, [TeardownBegun], Notified);
    hide Count;
  }

  lemma QuitComesBack(p: Process, outcome: Teardown, notice: bool)
    ensures AsksAndNotes(p, Stepped(p, QuitTornDown(outcome, notice)), 1, if notice then 1 else 0)
  {
    var more := if notice then [TornDown(outcome), Notified, ExitAsked] else [TornDown(outcome), ExitAsked];
    CountsMore(p.effects, more, ExitAsked);
    CountsMore(p.effects, more, Notified);
    assert Count(more, ExitAsked) == 1 && Count(more, Notified) == if notice then 1 else 0;
    hide Count;
  }

  lemma ExitCounts(p: Process, torn: Teardown, recorded: Ending, reverted: Ending, removal: Removal, cleared: bool)
    ensures AsksAndNotes(p, Stepped(p, Exiting(torn, recorded, reverted, removal, cleared)), 0, 0)
  {
    ExitDoes(p, true, torn, recorded, reverted, removal, cleared);
    hide ExitBody, Count;
    var more := ExitEffects(p, true, torn, recorded, reverted);
    assert ExitAsked !in more && Notified !in more;
    hide ExitEffects;
    CountsNone(p.effects, more, ExitAsked);
    CountsNone(p.effects, more, Notified);
  }

  /** In every run: a first quit begins the teardown and is left to come back from it; one that comes back asks
      the app to exit, as the last thing it does, and is noted if it was to be; and nothing else asks or notes. */
  lemma {:induction false} QuitAsksToExit(states: seq<Process>, steps: seq<Step>, n: nat)
    requires IsRun(states, steps) && n < |states|
    ensures Count(states[n].effects, ExitAsked) == Quits(steps, n) && Count(states[n].effects, Notified) == NoticedQuits(steps, n)
    ensures n > 0 && steps[n - 1].QuitTornDown? ==>
              states[n].effects != [] && states[n].effects[|states[n].effects| - 1] == ExitAsked && !states[n].quitting
    ensures n > 0 && steps[n - 1].QuitAsked? && !states[n - 1].claimed ==>
              states[n].claimed && states[n].quitting && TeardownBegun in states[n].effects
    decreases n
  {
    if n > 0 {
      hide Quits, NoticedQuits;
      QuitAsksToExit(states, steps, n - 1);
      assert CanStep(states[n - 1], steps[n - 1]) && states[n] == Stepped(states[n - 1], steps[n - 1]);
      LastQuit(states[n - 1], steps[n - 1]);
      QuitSteps(states[n - 1], steps[n - 1]);
      hide Stepped, IsRun;
      assert Quits(steps, n) == Quits(steps, n - 1) + (if steps[n - 1].QuitTornDown? then 1 else 0) by { QuitsOn(steps, n); }
      assert NoticedQuits(steps, n) == NoticedQuits(steps, n - 1)
             + (if steps[n - 1].QuitTornDown? && steps[n - 1].notice then 1 else 0) by { QuitsOn(steps, n); }
    }
  }

  lemma QuitsOn(steps: seq<Step>, n: nat)
    requires 0 < n <= |steps|
    ensures Quits(steps, n) == Quits(steps, n - 1) + (if steps[n - 1].QuitTornDown? then 1 else 0)
    ensures NoticedQuits(steps, n) == NoticedQuits(steps, n - 1)
             + (if steps[n - 1].QuitTornDown? && steps[n - 1].notice then 1 else 0)
  {
  }

  lemma LastQuit(p: Process, s: Step)
    ensures var r := Stepped(p, s);
            && (s.QuitTornDown? ==> r.effects != [] && r.effects[|r.effects| - 1] == ExitAsked && !r.quitting)
            && (s.QuitAsked? && !p.claimed ==> r.claimed && r.quitting && TeardownBegun in r.effects)
  {
    hide Exited, LaunchSet, NetArmed, OptOutCompleted;
    match s
    case QuitTornDown(_, _) =>
    case QuitAsked => if !p.claimed { assert Stepped(p, s).effects[|p.effects|] == TeardownBegun; }
    case _ =>
  }

  /** What the updater last said of its mark, before step `n`. */
  function LastMark(steps: seq<Step>, n: nat): bool
    requires n <= |steps|
    decreases n
  {
    if n == 0 then false else if steps[n - 1].MarkSet? then steps[n - 1].on else LastMark(steps, n - 1)
  }

  /** In every run, the app takes an exit for the updater's relaunch exactly while the updater's mark stands and a
      restart has been asked for. */
  lemma {:induction false} RelaunchIsMarkAndRestart(states: seq<Process>, steps: seq<Step>, n: nat)
    requires IsRun(states, steps) && n < |states|
    ensures states[n].updaterMark == LastMark(steps, n)
    ensures states[n].restartNoted <==> exists k :: 0 <= k < n && steps[k] == ExitRequested(true)
    ensures Relaunching(states[n]) <==> LastMark(steps, n) && exists k :: 0 <= k < n && steps[k] == ExitRequested(true)
    decreases n
  {
    if n > 0 {
      hide Stepped;
      RelaunchIsMarkAndRestart(states, steps, n - 1);
      MarkSteps(states[n - 1], steps[n - 1]);
      assert (exists k :: 0 <= k < n && steps[k] == ExitRequested(true)) <==>
             (exists k :: 0 <= k < n - 1 && steps[k] == ExitRequested(true)) || steps[n - 1] == ExitRequested(true);
    }
  }

  predicate SameMarks(p: Process, r: Process) {
    r.updaterMark == p.updaterMark && r.restartNoted == p.restartNoted
  }

  lemma MarkSteps(p: Process, s: Step)
    ensures var r := Stepped(p, s);
            && r.updaterMark == (if s.MarkSet? then s.on else p.updaterMark)
            && r.restartNoted == (p.restartNoted || s == ExitRequested(true))
  {
    hide Exited, LaunchSet, NetArmed, OptOutCompleted;
    match s
    case Exiting(torn, recorded, reverted, removal, cleared) => ExitMarks(p, torn, recorded, reverted, removal, cleared);
    case LaunchAtLoginSet(on, markerFails, itemFails) => SettingMarks(p, on, markerFails, itemFails);
    case RoutingOn(_, _, net) => NetMarks(p.(routed := true), net);
    case RoutingOff(_, removal, cleared) => OptOutMarks(p.(routed := false), removal, cleared);
    case _ =>
  }

  lemma SettingMarks(p: Process, on: bool, markerFails: bool, itemFails: bool)
    ensures SameMarks(p, LaunchSet(p, on, markerFails, itemFails).0)
  {
  }

  lemma NetMarks(p: Process, net: Net)
    ensures SameMarks(p, NetArmed(p, net))
  {
  }

  lemma OptOutMarks(p: Process, removal: Removal, cleared: bool)
    ensures SameMarks(p, OptOutCompleted(p, removal, cleared))
  {
  }

  lemma ExitMarks(p: Process, torn: Teardown, recorded: Ending, reverted: Ending, removal: Removal, cleared: bool)
    ensures SameMarks(p, Exited(p, torn, recorded, reverted, removal, cleared))
  {
    hide Swept, Left, OptOutCompleted;
    SweepMarks(p, torn);
    LeaveMarks(Caught(Swept(p, torn)), recorded, reverted);
    OptOutMarks(Left(Caught(Swept(p, torn)), recorded, reverted).at, removal, cleared);
  }

  lemma SweepMarks(p: Process, outcome: Teardown)
    ensures SameMarks(p, Caught(Swept(p, outcome)).at)
  {
  }

  lemma LeaveMarks(f: Flow, recorded: Ending, reverted: Ending)
    ensures SameMarks(f.at, Left(f, recorded, reverted).at)
  {
  }

  /** What the catch is for: without it, the exits that reach the record and lose the revert are those
      whose own teardown panics. */
  lemma CatchSavesTheRevert(states: seq<Process>, steps: seq<Step>, n: nat)
    requires IsRun(states, steps) && n < |steps| && steps[n].Exiting? && steps[n].recorded != Panicking
    ensures var e := steps[n];
            !Reverts(states[n], ExitBody(states[n], false, e.torn, e.recorded, e.reverted, e.removal, e.cleared))
            <==> TearsDown(states[n]) && e.torn == Panicked
  {
    var p, e := states[n], steps[n];
    TeardownAtMostOnce(states, steps, n);
    ClaimedOnce(p);
    hide ExitBody;
    RevertsIff(p, false, e.torn, e.recorded, e.reverted, e.removal, e.cleared);
  }

  // ---- The login item ----

  /** Nothing but the setting itself moves the switch: a deferred opt-out completing, at any safe
      point, and the crash safety net all leave it saying what the user said. */
  lemma OnlyTheSettingMovesTheSwitch(p: Process, s: Step)
    requires !s.LaunchAtLoginSet?
    ensures ShownOn(Stepped(p, s)) == ShownOn(p)
  {
    if s.Exiting? {
      ExitKeepsSwitch(p, s.torn, s.recorded, s.reverted, s.removal, s.cleared);
    }
    hide Exited;
  }

  lemma ExitKeepsSwitch(p: Process, torn: Teardown, recorded: Ending, reverted: Ending, removal: Removal, cleared: bool)
    ensures ShownOn(Exited(p, torn, recorded, reverted, removal, cleared)) == ShownOn(p)
  {
    hide Swept, CaughtIf, Left;
    SweepDoes(p, true, torn);
    LeavingDoes(CaughtIf(true, Swept(p, torn)), recorded, reverted);
  }

  /** A setting that reports success shows what was asked. One that fails leaves the switch alone,
      except: an "off" clears a deferred opt-out's marker and then cannot remove the item, or an "on"
      clears it and then cannot register over it. Either turns the switch on. */
  lemma SettingShowsWhatWasAsked(p: Process, on: bool, markerFails: bool, itemFails: bool)
    ensures var (r, ok) := LaunchSet(p, on, markerFails, itemFails);
            && (ok ==> ShownOn(r) == on)
            && (!ok ==> (ShownOn(r) != ShownOn(p) <==> !markerFails && p.registered && p.pending))
            && (!ok && !on && !markerFails ==> !p.routed)
  {
  }

  /** The last setting that was tried before `n` and reported success. */
  ghost predicate LastAsked(states: seq<Process>, steps: seq<Step>, k: nat, n: nat)
    requires IsRun(states, steps) && k < n < |states|
  {
    && steps[k].LaunchAtLoginSet? && LaunchSet(states[k], steps[k].on, steps[k].markerFails, steps[k].itemFails).1
    && forall j :: k < j < n ==> !steps[j].LaunchAtLoginSet?
  }

  lemma SettingSteps(p: Process, s: Step)
    requires s.LaunchAtLoginSet?
    ensures Stepped(p, s) == LaunchSet(p, s.on, s.markerFails, s.itemFails).0
  {
  }

  /** The login item and the mark of a deferred opt-out, after a removal: gone, and so is the mark if it could be
      cleared, unless nothing was deferred or the item is still there. */
  predicate OptOutDone(p: Process, r: Process, removal: Removal, cleared: bool) {
    if p.pending && removal != FailedStill then !r.registered && r.pending == !cleared else SameItem(p, r)
  }

  /** The login item and the mark after routing came on: as they were with the item there already, or when the net
      was not tried or not armed; both in place once it is up; and, where the item could not be registered, the
      mark gone if it could be cleared. */
  predicate NetDone(p: Process, r: Process, statusFails: bool, net: Net) {
    if statusFails || p.registered || net.ProbeFailed? || net.ArmFailed? then SameItem(p, r)
    else if net.NetUp? then r.registered && r.pending
    else !r.registered && r.pending == !net.cleared
  }

  /** In every run: switching routing on arms its safety net, once, and leaves everything where it fails;
      switching it off, or an exit that is no relaunch and gets past its calls, completes a deferred opt-out;
      and an exit that does not leaves it be. */
  lemma NetComesAndGoes(states: seq<Process>, steps: seq<Step>, n: nat)
    requires IsRun(states, steps) && n < |steps|
    ensures var p, r, s := states[n], states[n + 1], steps[n];
            && (s.RoutingOn? && !s.enableFails ==> r.routed && NetDone(p, r, s.statusFails, s.net))
            && (s.RoutingOn? && s.enableFails ==> r == p)
            && (s.RoutingOff? && !s.disableFails ==> !r.routed && OptOutDone(p, r, s.removal, s.cleared))
            && (s.RoutingOff? && s.disableFails ==> r == p)
            && (s.Exiting? ==>
                  if Relaunching(p) || s.recorded == Panicking || s.reverted == Panicking then SameItem(p, r)
                  else OptOutDone(p, r, s.removal, s.cleared))
  {
    var p, s := states[n], steps[n];
    assert states[n + 1] == Stepped(p, s);
    hide Exited, LaunchSet, IsRun;
    match s
    case Exiting(torn, recorded, reverted, removal, cleared) => ExitCompletes(p, torn, recorded, reverted, removal, cleared);
    case _ =>
  }

  lemma ExitCompletes(p: Process, torn: Teardown, recorded: Ending, reverted: Ending, removal: Removal, cleared: bool)
    ensures var r := Exited(p, torn, recorded, reverted, removal, cleared);
            if Relaunching(p) || recorded == Panicking || reverted == Panicking then SameItem(p, r)
            else OptOutDone(p, r, removal, cleared)
  {
    hide Swept, CaughtIf, Left;
    SweepDoes(p, true, torn);
    LeavingDoes(CaughtIf(true, Swept(p, torn)), recorded, reverted);
  }

  /** So, with routing going on and off, opt-outs deferred and completed, and the process exiting or
      relaunching, the switch always shows the last answer that was accepted. */
  lemma {:induction false} SwitchShowsLastAnswer(states: seq<Process>, steps: seq<Step>, k: nat, n: nat)
    requires IsRun(states, steps) && k < n < |states| && LastAsked(states, steps, k, n)
    ensures ShownOn(states[n]) == steps[k].on
    decreases n
  {
    hide Stepped, ShownOn;
    assert steps[k].LaunchAtLoginSet? ==> states[k + 1] == LaunchSet(states[k], steps[k].on, steps[k].markerFails, steps[k].itemFails).0
      by { SettingSteps(states[k], steps[k]); }
    hide LaunchSet;
    if n == k + 1 {
      SettingShowsWhatWasAsked(states[k], steps[k].on, steps[k].markerFails, steps[k].itemFails);
    } else {
      assert LastAsked(states, steps, k, n - 1);
      SwitchShowsLastAnswer(states, steps, k, n - 1);
      OnlyTheSettingMovesTheSwitch(states[n - 1], steps[n - 1]);
    }
  }

  /** The item that would heal a stranded proxy at the next boot goes while the proxy is still routed
      in one case only: an exit whose revert failed completes a deferred opt-out all the same. */
  lemma NetLostWhileRoutedIff(p: Process, s: Step)
    requires CanStep(p, s) && p.registered
    ensures !Stepped(p, s).registered && Stepped(p, s).routed <==>
              s.Exiting? && s.recorded != Panicking && s.reverted == Failing
              && p.routed && p.pending && !Relaunching(p) && s.removal != FailedStill
  {
    if s.Exiting? {
      ExitLosesNetIff(p, s.torn, s.recorded, s.reverted, s.removal, s.cleared);
      hide Exited;
    } else {
      hide Exited;
      match s
      case LaunchAtLoginSet(on, _, _) =>
      case RoutingOn(_, _, _) =>
      case RoutingOff(_, _, _) =>
      case _ =>
    }
  }

  lemma ExitLosesNetIff(p: Process, torn: Teardown, recorded: Ending, reverted: Ending, removal: Removal, cleared: bool)
    requires p.registered
    ensures var r := Exited(p, torn, recorded, reverted, removal, cleared);
            !r.registered && r.routed <==>
              recorded != Panicking && reverted == Failing && p.routed && p.pending && !Relaunching(p) && removal != FailedStill
  {
    hide Swept, CaughtIf, Left;
    SweepDoes(p, true, torn);
    LeavingDoes(CaughtIf(true, Swept(p, torn)), recorded, reverted);
  }

  /** A process that leaves with the proxy routed and an opt-out pending, and nothing else going on. */
  function Leaving(recorded: Ending, reverted: Ending): Step {
    Exiting(Clean, recorded, reverted, Removed, true)
  }

  function Routed(): Process {
    Process(false, false, false, false, false, true, true, true, [])
  }

  lemma LeavingRuns(recorded: Ending, reverted: Ending)
    ensures var states, steps := [Routed(), Stepped(Routed(), Leaving(recorded, reverted))], [Leaving(recorded, reverted)];
            IsRun(states, steps)
  {
    hide Exited;
  }

  /** Both losses happen: a run whose clean-exit record panics never attempts the revert, and one whose
      revert fails loses the login item with the proxy still routed. */
  lemma ExitsThatStrand()
    ensures exists states: seq<Process>, steps: seq<Step> :: IsRun(states, steps) && |steps| == 1 && steps[0].Exiting?
                                                            && !Reverts(states[0], states[1])
    ensures exists states: seq<Process>, steps: seq<Step> :: IsRun(states, steps) && states[0].registered && |steps| == 1
                                    && !states[1].registered && states[1].routed
  {
    hide Exited, Reverts;
    var panics, fails := Leaving(Panicking, Fine), Leaving(Fine, Failing);
    LeavingRuns(Panicking, Fine);
    LeavingRuns(Fine, Failing);
    var lost, stranded := [Routed(), Stepped(Routed(), panics)], [Routed(), Stepped(Routed(), fails)];
    EveryExitReverts(lost, [panics], 0);
    NetLostWhileRoutedIff(Routed(), fails);
    assert !Reverts(lost[0], lost[1]);
    assert !stranded[1].registered && stranded[1].routed;
  }

  /** And so does a change that turns the switch on by failing: an "off" over an opt-out that was deferred. */
  lemma FailedOffTurnsOn()
    ensures exists states: seq<Process>, steps: seq<Step> :: IsRun(states, steps) && !ShownOn(states[0])
              && steps == [LaunchAtLoginSet(false, false, true)] && ShownOn(states[1])
  {
    var p := Routed().(routed := false);
    var states, steps := [p, Stepped(p, LaunchAtLoginSet(false, false, true))], [LaunchAtLoginSet(false, false, true)];
    assert IsRun(states, steps) && !ShownOn(states[0]) && ShownOn(states[1]);
  }

  // ---- The handlers as they run ----

  class App {
    var claimed: bool
    var quitting: bool
    var updaterMark: bool
    var restartNoted: bool
    var exited: bool
    var routed: bool
    var registered: bool
    var pending: bool
    var effects: seq<Effect>

    function Now(): Process
      reads this
    {
      Process(claimed, quitting, updaterMark, restartNoted, exited, routed, registered, pending, effects)
    }

    constructor (routed: bool, registered: bool, pending: bool)
      ensures Starts(Now()) && (Now().routed, Now().registered, Now().pending) == (routed, registered, pending)
    {
      claimed, quitting, updaterMark, restartNoted, exited := false, false, false, false, false;
      this.routed, this.registered, this.pending := routed, registered, pending;
      effects := [];
    }

    /** True exactly once per process. */
    method ClaimQuitTeardown() returns (won: bool)
      modifies this`claimed
      ensures claimed && won == !old(claimed)
    {
      won := !claimed;
      claimed := true;
    }

    /** `quit_app` up to its `await`. */
    method QuitApp()
      modifies this
      ensures Now() == Stepped(old(Now()), QuitAsked)
    {
      var won := ClaimQuitTeardown();
      if !won { return; }
      quitting := true;
      effects := effects + [TeardownBegun];
    }

    method QuitAppResumes(outcome: Teardown, notice: bool)
      requires quitting
      modifies this
      ensures Now() == Stepped(old(Now()), QuitTornDown(outcome, notice))
    {
      quitting := false;
      ghost var before := effects;
      effects := effects + [TornDown(outcome)];
      if notice { effects := effects + [Notified]; }
      effects := effects + [ExitAsked];
      assert effects == before + if notice then [TornDown(outcome), Notified, ExitAsked] else [TornDown(outcome), ExitAsked];
    }

    method CompleteOptOut(removal: Removal, cleared: bool)
      modifies this`registered, this`pending
      ensures Now() == OptOutCompleted(old(Now()), removal, cleared)
    {
      if !pending || removal == FailedStill { return; }
      registered := false;
      if cleared { pending := false; }
    }

    /** The claim and the sweep; the answer is whether it panicked. */
    method TearDownTools(outcome: Teardown) returns (panicked: bool)
      requires !(updaterMark && restartNoted)
      modifies this`claimed, this`effects
      ensures Flow(Now(), panicked) == Swept(old(Now()), outcome)
    {
      var won := ClaimQuitTeardown();
      if !won { return false; }
      effects := effects + [TeardownBegun];
      if outcome == Panicked { return true; }
      effects := effects + [TornDown(outcome)];
      return false;
    }

    /** The sweep inside its catch. */
    method GuardedSweep(outcome: Teardown)
      modifies this`claimed, this`effects
      ensures Flow(Now(), false) == CaughtIf(true, Swept(old(Now()), outcome))
    {
      if !(updaterMark && restartNoted) {
        var panicked := TearDownTools(outcome);
        if panicked { effects := effects + [TornDown(Panicked)]; }
      }
    }

    /** `exit`. A call that panics past the catch ends the handler. */
    method OnExit(torn: Teardown, recorded: Ending, reverted: Ending, removal: Removal, cleared: bool)
      modifies this
      ensures Now() == Exited(old(Now()), torn, recorded, reverted, removal, cleared)
    {
      hide OptOutCompleted, Left, Swept, CaughtIf;
      var relaunching := updaterMark && restartNoted;
      GuardedSweep(torn);
      var through := LeaveProxy(recorded, reverted);
      if through && !relaunching { CompleteOptOut(removal, cleared); }
      exited := true;
    }

    /** The calls below the catch, up to the first that panics. */
    method LeaveProxy(recorded: Ending, reverted: Ending) returns (through: bool)
      modifies this`effects, this`routed
      ensures Flow(Now(), !through) ==
              Left(Flow(old(Now()), false), recorded, reverted)
    {
      effects := effects + [CleanExitRecorded(recorded)];
      if recorded == Panicking { return false; }
      effects := effects + [ProxyReverted(reverted)];
      if reverted == Panicking { return false; }
      if reverted == Fine { routed := false; }
      effects := effects + [RelayForgotten];
      return true;
    }

    method SetLaunchAtLogin(on: bool, markerFails: bool, itemFails: bool) returns (ok: bool)
      modifies this`registered, this`pending
      ensures (Now(), ok) == LaunchSet(old(Now()), on, markerFails, itemFails)
    {
      if markerFails { return false; }
      if on {
        pending := false;
        if itemFails { return false; }
        registered := true;
        return true;
      }
      pending := routed;
      if routed { return true; }
      if itemFails { return false; }
      registered := false;
      return true;
    }

    method ProxyDisable(disableFails: bool, removal: Removal, cleared: bool) returns (ok: bool)
      modifies this
      ensures ok == !disableFails && Now() == Stepped(old(Now()), RoutingOff(disableFails, removal, cleared))
    {
      if disableFails { return false; }
      routed := false;
      CompleteOptOut(removal, cleared);
      return true;
    }
  }
}
