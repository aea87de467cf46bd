/**
 One install: every window of every launch, the marker store they claim
 milestones in, and the record of who the install is identified as. Windows
 meet only here, so a run of the install is any interleaving of their steps
 with the landings of what they asked the backend.
 */
module AnalyticsInstall {
  import opened Options
  import opened AnalyticsState
  import opened AnalyticsInvariant
  import opened AnalyticsSteps
  import opened AnalyticsIdentity

  /** A claim some window has made. */
  datatype Claim = Claim(window: nat, id: nat, task: Task)

  /** How a claim lands: answered, rejected untouched, or rejected with the marker written. */
  datatype Landing = Answered | Rejected | WroteButRejected

  /** How a save lands: `Refused` is a sub that is not the live session's, or a session unread. */
  datatype Save = Stored | Refused | Failed

  /** `windows` keeps closed windows too; those from `launch` on are the running process's.
      `records` is every value the identity record has had, the last being the one on disk. `legacy` says
      the machine ran Gate Connect before there was a marker store. */
  datatype Machine = Machine(
    windows: seq<SeamState>,
    owns: seq<bool>,
    openedAt: seq<nat>,
    deaf: set<nat>,
    launch: nat,
    markers: map<Marker, Claim>,
    landed: map<(nat, nat), ClaimAnswer>,
    records: seq<Identity>,
    legacy: bool)

  datatype Act =
    | Relaunched
    | Opened(owner: bool, hasKey: bool, persisted: Client)
    | ClaimLands(claimer: nat, claim: nat, landing: Landing)
    | SaveLands(saver: nat, saving: nat, save: Save)
    | SignedOutInCore
    | RecordGarbled
    | Handled(window: nat, event: Event, asOf: nat)

  function Installed(legacy: bool): Machine {
    Machine([], [], [], {}, 0, map[], map[], [Identity(None, false, None, None)], legacy)
  }

  /** What a record that is there but cannot be read is taken for: identified, as nobody known. */
  const FAIL_CLOSED := Identity(None, true, None, None)

  function MarkerOf(task: Task): Marker
    requires IsClaim(task)
  {
    match task
    case SendClaim(m) => MilestoneMarker(m)
    case SpendClaim(m) => MilestoneMarker(m)
    case OptOutClaim => OptedOutMarker
    case CoworkClaim(detail) => CoworkMarker(detail)
  }

  /** A milestone that only a first launch, pairing, request or connection can be: a machine that had all of
      that before the store existed has missed them. */
  predicate FirstOccurrence(marker: Marker) {
    marker.MilestoneMarker?
  }

  /** Whether the store would write the marker. */
  predicate Claimable(m: Machine, marker: Marker) {
    marker !in m.markers && !(m.legacy && FirstOccurrence(marker))
  }

  function Record(m: Machine): Identity
    requires m.records != []
  {
    m.records[|m.records| - 1]
  }

  ghost predicate Shaped(m: Machine) {
    && |m.owns| == |m.windows| == |m.openedAt| && m.launch <= |m.windows|
    && m.records != [] && (forall i :: 0 <= i < |m.openedAt| ==> m.openedAt[i] < |m.records|)
  }

  /** `answer` is what the record was at `asOf`, or what stands in for a record the core could not read. */
  predicate Answers(m: Machine, answer: Identity, asOf: nat) {
    (asOf < |m.records| && answer == m.records[asOf]) || answer == FAIL_CLOSED
  }

  /** What the backend and the shell allow. A window hears only what the record has been, or that it
      could not be read: its own read no older than its opening, a broadcast as old as it likes; and only
      the window that owns sign-in notes sessions. */
  ghost predicate CanAct(m: Machine, act: Act) {
    Shaped(m) &&
    match act
    case Relaunched => true
    case Opened(owner, _, persisted) =>
      !Drawn(|m.windows|, persisted.id) && (owner ==> forall i :: m.launch <= i < |m.windows| ==> !m.owns[i])
    case ClaimLands(i, id, _) =>
      i < |m.windows| && id in m.windows[i].tasks && IsClaim(m.windows[i].tasks[id]) && (i, id) !in m.landed
    case SaveLands(i, id, _) => i < |m.windows| && id in m.windows[i].tasks && m.windows[i].tasks[id].Saving?
    case SignedOutInCore => true
    case RecordGarbled => true
    case Handled(i, e, asOf) =>
      && m.launch <= i < |m.windows| && Enabled(m.windows[i], e) && WellFormed(e)
      && (e.SessionNoted? ==> m.owns[i])
      && (e.IdentityReply? && e.answer.Some? ==> m.openedAt[i] <= asOf && Answers(m, e.answer.value, asOf))
      && (e.IdentityBroadcast? ==> Answers(m, e.next, asOf))
      && (e.ClaimReply? ==> (i, e.id) in m.landed && e.claimed == m.landed[(i, e.id)])
  }

  /** The store writes a marker at most once, and only that claim is told so, if the answer gets out. */
  function Claimed(m: Machine, i: nat, id: nat, task: Task, landing: Landing): Machine
    requires IsClaim(task)
  {
    var won := landing != Rejected && Claimable(m, MarkerOf(task));
    m.(markers := if won then m.markers[MarkerOf(task) := Claim(i, id, task)] else m.markers,
       landed := m.landed[(i, id) := if landing != Answered then ClaimFailed else if won then Won else Lost])
  }

  /** A save that is refused still stores that the install has been identified. */
  function Landed(record: Identity, next: Identity, save: Save): Identity {
    match save
    case Stored => next.(ever := record.ever || next.ever)
    case Refused => record.(ever := record.ever || next.ever)
    case Failed => record
  }

  function Acted(m: Machine, act: Act): Machine
    requires CanAct(m, act)
  {
    match act
    case Relaunched => m.(launch := |m.windows|)
    case Opened(owner, hasKey, persisted) =>
      m.(windows := m.windows + [Loaded(|m.windows|, hasKey, persisted)], owns := m.owns + [owner],
         openedAt := m.openedAt + [|m.records| - 1])
    case ClaimLands(i, id, landing) => Claimed(m, i, id, m.windows[i].tasks[id], landing)
    case SaveLands(i, id, save) => m.(records := m.records + [Landed(Record(m), m.windows[i].tasks[id].next, save)])
    case SignedOutInCore => m.(records := m.records + [Identity(None, Record(m).ever, None, None)])
    case RecordGarbled => m.(records := m.records + [FAIL_CLOSED])
    case Handled(i, e, _) =>
      m.(windows := m.windows[i := Step(m.windows[i], e)],
         deaf := if e.IdentityReply? && e.answer.None? then m.deaf + {i} else m.deaf)
  }

  ghost predicate IsHistory(machines: seq<Machine>, acts: seq<Act>) {
    && |machines| == |acts| + 1 && machines[0] == Installed(machines[0].legacy)
    && forall n :: 0 <= n < |acts| ==> CanAct(machines[n], acts[n]) && machines[n + 1] == Acted(machines[n], acts[n])
  }

  // ---- Markers ----

  /** The marker behind an entry that needed one was won by the very claim it was sent on. */
  ghost predicate Backed(markers: map<Marker, Claim>, i: nat, entry: Entry) {
    match entry
    case Sent(MilestoneSent(m, c), _, _, _, _, _) =>
      MilestoneMarker(m) in markers && markers[MilestoneMarker(m)] == Claim(i, c, SendClaim(m))
    case Posted(c, _, _) => OptedOutMarker in markers && markers[OptedOutMarker] == Claim(i, c, OptOutClaim)
    case _ => true
  }

  ghost predicate AllBacked(markers: map<Marker, Claim>, i: nat, log: seq<Entry>) {
    forall k :: 0 <= k < |log| ==> Backed(markers, i, log[k])
  }

  /** A claim told it won is the marker's owner; no claim landed before it was made. */
  ghost predicate WinsOk(m: Machine, i: nat, tasks: map<nat, Task>, nextTask: nat) {
    && (forall id <- tasks :: IsClaim(tasks[id]) && (i, id) in m.landed && m.landed[(i, id)] == Won ==>
          MarkerOf(tasks[id]) in m.markers && m.markers[MarkerOf(tasks[id])] == Claim(i, id, tasks[id]))
    && (forall id :: (i, id) in m.landed ==> id < nextTask)
  }

  ghost predicate WindowOk(m: Machine, i: nat, w: SeamState) {
    w.window == i && Inv(w) && AllBacked(m.markers, i, w.log) && WinsOk(m, i, w.tasks, w.nextTask)
  }

  ghost predicate MachineInv(m: Machine) {
    && Shaped(m)
    && (forall i :: 0 <= i < |m.windows| ==> WindowOk(m, i, m.windows[i]))
    && (forall t <- m.landed :: t.0 < |m.windows|)
  }

  lemma HandledWindow(m: Machine, i: nat, e: Event, asOf: nat)
    requires MachineInv(m) && CanAct(m, Handled(i, e, asOf))
    ensures WindowOk(m, i, Step(m.windows[i], e))
    ensures StepGrows(m.windows[i], e, Step(m.windows[i], e))
  {
    hide Inv, Step, Enabled;
    var w, r := m.windows[i], Step(m.windows[i], e);
    assert WindowOk(m, i, w);
    StepKeeps(w, e);
    assert AllBacked(m.markers, i, r.log) by {
      forall k | 0 <= k < |r.log| ensures Backed(m.markers, i, r.log[k]) {
        if k < |w.log| {
          assert r.log[k] == r.log[..|w.log|][k];
        } else {
          if e.ClaimReply? { Replied(w, e); }
          NewEntryBacked(m, i, w, e, r.log[k]);
        }
      }
    }
  }

  lemma Replied(w: SeamState, e: Event)
    requires Enabled(w, e) && e.ClaimReply?
    ensures e.id in w.tasks && IsClaim(w.tasks[e.id])
  {
  }

  lemma NewEntryBacked(m: Machine, i: nat, w: SeamState, e: Event, entry: Entry)
    requires WinsOk(m, i, w.tasks, w.nextTask)
    requires e.ClaimReply? ==> e.id in w.tasks && IsClaim(w.tasks[e.id]) && (i, e.id) in m.landed && e.claimed == m.landed[(i, e.id)]
    requires ClaimOf(entry).Some? ==>
               e.ClaimReply? && e.claimed == Won && e.id in w.tasks && SentOn(w.tasks[e.id], e.id, entry)
    ensures Backed(m.markers, i, entry)
  {
  }

  /** More markers and more answers leave every window as it was. */
  lemma ClaimLandsOk(m: Machine, i: nat, id: nat, task: Task, landing: Landing, j: nat)
    requires MachineInv(m) && i < |m.windows| && id in m.windows[i].tasks && m.windows[i].tasks[id] == task && IsClaim(task)
    requires (i, id) !in m.landed && j < |m.windows|
    ensures WindowOk(Claimed(m, i, id, task, landing), j, m.windows[j])
  {
    var r := Claimed(m, i, id, task, landing);
    assert WindowOk(m, j, m.windows[j]) && WindowOk(m, i, m.windows[i]);
    assert id < m.windows[i].nextTask by { TaskKnown(m.windows[i], id); }
    hide Inv;
    forall k | 0 <= k < |m.windows[j].log| ensures Backed(r.markers, j, m.windows[j].log[k]) {
      assert Backed(m.markers, j, m.windows[j].log[k]);
    }
  }

  lemma TaskKnown(w: SeamState, id: nat)
    requires Inv(w) && id in w.tasks
    ensures id < w.nextTask
  {
  }

  lemma ActKeeps(m: Machine, act: Act)
    requires MachineInv(m) && CanAct(m, act)
    ensures MachineInv(Acted(m, act))
  {
    hide Inv, Step, Enabled, StepGrows, AllBacked, WinsOk;
    var r := Acted(m, act);
    match act
    case Opened(owner, hasKey, persisted) => OpenedOk(m, Loaded(|m.windows|, hasKey, persisted), hasKey, persisted);
    case ClaimLands(i, id, landing) =>
      forall j | 0 <= j < |r.windows| ensures WindowOk(r, j, r.windows[j]) {
        ClaimLandsOk(m, i, id, m.windows[i].tasks[id], landing, j);
      }
    case Handled(i, e, asOf) =>
      HandledWindow(m, i, e, asOf);
      forall j | 0 <= j < |r.windows| ensures WindowOk(r, j, r.windows[j]) {
        SameStore(m, r, j, r.windows[j]);
      }
    case _ =>
      forall j | 0 <= j < |r.windows| ensures WindowOk(r, j, r.windows[j]) {
        SameStore(m, r, j, r.windows[j]);
      }
  }

  lemma SameStore(m: Machine, r: Machine, j: nat, w: SeamState)
    requires WindowOk(m, j, w) && r.markers == m.markers && r.landed == m.landed
    ensures WindowOk(r, j, w)
  {
    hide Inv;
  }

  lemma OpenedOk(m: Machine, w: SeamState, hasKey: bool, persisted: Client)
    requires MachineInv(m) && !Drawn(|m.windows|, persisted.id) && w == Loaded(|m.windows|, hasKey, persisted)
    ensures forall owner: bool ::
              MachineInv(m.(windows := m.windows + [w], owns := m.owns + [owner], openedAt := m.openedAt + [|m.records| - 1]))
  {
    var i := |m.windows|;
    LoadedOk(m, i, hasKey, persisted);
    hide Inv, AllBacked, WinsOk, Loaded;
    forall owner: bool
      ensures MachineInv(m.(windows := m.windows + [w], owns := m.owns + [owner], openedAt := m.openedAt + [|m.records| - 1]))
    {
      var r := m.(windows := m.windows + [w], owns := m.owns + [owner], openedAt := m.openedAt + [|m.records| - 1]);
      forall j | 0 <= j < |r.windows| ensures WindowOk(r, j, r.windows[j]) {
        SameStore(m, r, j, r.windows[j]);
      }
    }
  }

  lemma LoadedOk(m: Machine, i: nat, hasKey: bool, persisted: Client)
    requires !Drawn(i, persisted.id) && forall t <- m.landed :: t.0 < i
    ensures WindowOk(m, i, Loaded(i, hasKey, persisted))
  {
    hide Inv;
    assert Inv(Loaded(i, hasKey, persisted)) by { AnalyticsTheorems.LoadedInv(i, hasKey, persisted); }
  }

  lemma {:induction false} HistoryKeepsInv(machines: seq<Machine>, acts: seq<Act>, n: nat)
    requires IsHistory(machines, acts) && n < |machines|
    ensures MachineInv(machines[n])
    decreases n
  {
    hide MachineInv, CanAct, Acted;
    if n == 0 {
      assert MachineInv(machines[0]) by { InstalledOk(machines[0].legacy); }
    } else {
      HistoryKeepsInv(machines, acts, n - 1);
      ActKeeps(machines[n - 1], acts[n - 1]);
    }
  }

  lemma InstalledOk(legacy: bool)
    ensures MachineInv(Installed(legacy))
  {
  }

  /** Window `i` has captured milestone `m` at position `k` of what it sent. */
  ghost predicate Captured(machine: Machine, i: nat, k: nat, m: Milestone) {
    && i < |machine.windows| && k < |machine.windows[i].log|
    && machine.windows[i].log[k].Sent? && machine.windows[i].log[k].what.MilestoneSent?
    && machine.windows[i].log[k].what.milestone == m
  }

  /** Across any number of windows and relaunches, a milestone is captured at most once. */
  lemma MilestoneCapturedOnce(machines: seq<Machine>, acts: seq<Act>, n: nat, m: Milestone)
    requires IsHistory(machines, acts) && n < |machines|
    ensures forall i: nat, j: nat, a: nat, b: nat :: Captured(machines[n], i, a, m) && Captured(machines[n], j, b, m) ==> i == j && a == b
  {
    hide IsHistory;
    HistoryKeepsInv(machines, acts, n);
    forall i: nat, j: nat, a: nat, b: nat | Captured(machines[n], i, a, m) && Captured(machines[n], j, b, m) ensures i == j && a == b {
      CapturedByWinner(machines[n], i, a, m);
      CapturedByWinner(machines[n], j, b, m);
      ClaimsAreDistinct(machines[n].windows[i]) by { hide Inv; assert WindowOk(machines[n], i, machines[n].windows[i]); }
    }
  }

  lemma CapturedByWinner(machine: Machine, i: nat, k: nat, m: Milestone)
    requires MachineInv(machine) && Captured(machine, i, k, m)
    ensures MilestoneMarker(m) in machine.markers
    ensures machine.markers[MilestoneMarker(m)] == Claim(i, machine.windows[i].log[k].what.claim, SendClaim(m))
  {
    hide Inv, WinsOk;
    assert WindowOk(machine, i, machine.windows[i]);
    assert Backed(machine.markers, i, machine.windows[i].log[k]);
  }

  lemma ClaimsAreDistinct(w: SeamState)
    requires Inv(w)
    ensures forall i, j :: 0 <= i < |w.log| && 0 <= j < |w.log| && ClaimOf(w.log[i]).Some? && ClaimOf(w.log[i]) == ClaimOf(w.log[j])
              ==> i == j
  {
  }

  /** `diagnostics_opted_out` is posted at most once per install. */
  lemma OptOutPostedOnce(machines: seq<Machine>, acts: seq<Act>, n: nat, i: nat, a: nat, j: nat, b: nat)
    requires IsHistory(machines, acts) && n < |machines|
    requires i < |machines[n].windows| && a < |machines[n].windows[i].log| && machines[n].windows[i].log[a].Posted?
    requires j < |machines[n].windows| && b < |machines[n].windows[j].log| && machines[n].windows[j].log[b].Posted?
    ensures i == j && a == b
  {
    var machine := machines[n];
    HistoryKeepsInv(machines, acts, n);
    hide IsHistory, Inv, WinsOk;
    assert WindowOk(machine, i, machine.windows[i]) && WindowOk(machine, j, machine.windows[j]);
    assert Backed(machine.markers, i, machine.windows[i].log[a]) && Backed(machine.markers, j, machine.windows[j].log[b]);
    ClaimsAreDistinct(machine.windows[i]);
  }

  lemma {:induction false} MarkersStay(machines: seq<Machine>, acts: seq<Act>, t: nat, n: nat)
    requires IsHistory(machines, acts) && t <= n < |machines|
    ensures forall k <- machines[t].markers :: k in machines[n].markers && machines[n].markers[k] == machines[t].markers[k]
    decreases n
  {
    hide Step, Enabled, Shaped;
    if t < n {
      MarkersStay(machines, acts, t, n - 1);
      assert machines[n] == Acted(machines[n - 1], acts[n - 1]);
    }
  }

  /** A claim of this marker reaches the store, is not rejected untouched, and is one this install may win. */
  predicate ReachesStore(m: Machine, act: Act, marker: Marker) {
    && act.ClaimLands? && act.landing != Rejected && !(m.legacy && FirstOccurrence(marker))
    && act.claimer < |m.windows| && act.claim in m.windows[act.claimer].tasks
    && IsClaim(m.windows[act.claimer].tasks[act.claim]) && MarkerOf(m.windows[act.claimer].tasks[act.claim]) == marker
  }

  /** Over every history: a marker is written exactly once a claim of it has reached the store, and the first
      that does owns it. */
  lemma {:induction false} FirstClaimOwns(machines: seq<Machine>, acts: seq<Act>, n: nat, marker: Marker)
    requires IsHistory(machines, acts) && n < |machines|
    ensures marker in machines[n].markers <==> exists t :: 0 <= t < n && ReachesStore(machines[t], acts[t], marker)
    ensures forall t :: (0 <= t < n && ReachesStore(machines[t], acts[t], marker)
                         && forall u :: 0 <= u < t ==> !ReachesStore(machines[u], acts[u], marker)) ==>
              machines[n].markers[marker] ==
                Claim(acts[t].claimer, acts[t].claim, machines[t].windows[acts[t].claimer].tasks[acts[t].claim])
    decreases n
  {
    hide Step, Enabled, Shaped, ReachesStore, CanAct, Acted;
    if n > 0 {
      FirstClaimOwns(machines, acts, n - 1, marker);
      StoreMoves(machines[n - 1], acts[n - 1], marker);
      assert (exists t :: 0 <= t < n && ReachesStore(machines[t], acts[t], marker)) <==>
             (exists t :: 0 <= t < n - 1 && ReachesStore(machines[t], acts[t], marker))
             || ReachesStore(machines[n - 1], acts[n - 1], marker);
    }
  }

  lemma StoreMoves(m: Machine, act: Act, marker: Marker)
    requires CanAct(m, act)
    ensures var r := Acted(m, act);
            && (marker in r.markers <==> marker in m.markers || ReachesStore(m, act, marker))
            && (marker in m.markers ==> r.markers[marker] == m.markers[marker])
            && (marker !in m.markers && ReachesStore(m, act, marker) ==>
                  r.markers[marker] == Claim(act.claimer, act.claim, m.windows[act.claimer].tasks[act.claim]))
  {
    hide Step, Enabled, Shaped;
  }

  lemma {:induction false} LegacyStays(machines: seq<Machine>, acts: seq<Act>, n: nat)
    requires IsHistory(machines, acts) && n < |machines|
    ensures machines[n].legacy == machines[0].legacy
    decreases n
  {
    hide Step, Enabled, Shaped;
    if n > 0 { LegacyStays(machines, acts, n - 1); }
  }

  /** In every history, what a claim is told: that it won, if its answer gets out and no claim of its marker had
      reached the store before; that it lost, if one had, or if it is of a first occurrence on a machine that had
      its own before there was a store; and that it failed, if its answer does not get out. */
  lemma FirstClaimWins(machines: seq<Machine>, acts: seq<Act>, n: nat, marker: Marker)
    requires IsHistory(machines, acts) && n < |acts| && acts[n].ClaimLands?
    requires var a := acts[n];
             && a.claimer < |machines[n].windows| && a.claim in machines[n].windows[a.claimer].tasks
             && IsClaim(machines[n].windows[a.claimer].tasks[a.claim])
             && MarkerOf(machines[n].windows[a.claimer].tasks[a.claim]) == marker
    ensures var a, landed := acts[n], machines[n + 1].landed;
            && (a.claimer, a.claim) in landed
            && landed[(a.claimer, a.claim)] ==
               if a.landing != Answered then ClaimFailed
               else if (machines[0].legacy && FirstOccurrence(marker))
                       || exists t :: 0 <= t < n && ReachesStore(machines[t], acts[t], marker) then Lost
               else Won
  {
    FirstClaimOwns(machines, acts, n, marker);
    LegacyStays(machines, acts, n);
    assert CanAct(machines[n], acts[n]) && machines[n + 1] == Acted(machines[n], acts[n]);
    hide Step, Enabled, Shaped, ReachesStore, IsHistory;
  }

  /** A milestone whose marker was spent, because it happened while sharing was off, is captured by
      no window of any later launch, whatever consent becomes; nor had it been captured before. */
  lemma SpentIsNeverCaptured(machines: seq<Machine>, acts: seq<Act>, t: nat, n: nat, m: Milestone)
    requires IsHistory(machines, acts) && t < |machines| && n < |machines|
    requires MilestoneMarker(m) in machines[t].markers && machines[t].markers[MilestoneMarker(m)].task == SpendClaim(m)
    ensures forall i: nat, k: nat :: !Captured(machines[n], i, k, m)
  {
    forall i: nat, k: nat ensures !Captured(machines[n], i, k, m) {
      if Captured(machines[n], i, k, m) {
        HistoryKeepsInv(machines, acts, n);
        CapturedByWinner(machines[n], i, k, m);
        if t <= n { MarkersStay(machines, acts, t, n); } else { MarkersStay(machines, acts, n, t); }
        assert false;
      }
    }
  }

  // ---- What the record says ----

  /** A save that is stored, or refused: either way it says whether the install has been identified. */
  predicate SaysEver(m: Machine, act: Act) {
    act.RecordGarbled? ||
    (act.SaveLands? && act.save != Failed && act.saver < |m.windows| && act.saving in m.windows[act.saver].tasks
     && m.windows[act.saver].tasks[act.saving].Saving? && m.windows[act.saver].tasks[act.saving].next.ever)
  }

  /** The account on record before act `n`: the last one stored, until the core signs out or the record is lost. */
  function LastStored(machines: seq<Machine>, acts: seq<Act>, n: nat): Option<Sub>
    requires n <= |acts| && n < |machines|
    decreases n
  {
    if n == 0 then None
    else
      var m, act := machines[n - 1], acts[n - 1];
      if act.SignedOutInCore? || act.RecordGarbled? then None
      else if act.SaveLands? && act.save == Stored && act.saver < |m.windows| && act.saving in m.windows[act.saver].tasks
              && m.windows[act.saver].tasks[act.saving].Saving?
      then m.windows[act.saver].tasks[act.saving].next.sub
      else LastStored(machines, acts, n - 1)
  }

  /** Over every history: the record names the account last stored, and nobody from a sign-out in the core, or a
      loss of the record, until the next is; and it says the install was identified exactly when some save that
      reached the disk, refused or not, has said so, or it could not be read once. */
  lemma {:induction false} RecordSays(machines: seq<Machine>, acts: seq<Act>, n: nat)
    requires IsHistory(machines, acts) && n < |machines|
    ensures machines[n].records != []
    ensures Record(machines[n]).sub == LastStored(machines, acts, n)
    ensures Record(machines[n]).ever <==> exists t :: 0 <= t < n && SaysEver(machines[t], acts[t])
    decreases n
  {
    hide Step, Enabled, Shaped, LastStored, CanAct, Acted, SaysEver;
    if n == 0 {
      assert LastStored(machines, acts, 0).None? by { NobodyStored(machines, acts); }
    } else {
      RecordSays(machines, acts, n - 1);
      LastStoredMoves(machines, acts, n);
      RecordMoves(machines[n - 1], acts[n - 1]);
      assert (exists t :: 0 <= t < n && SaysEver(machines[t], acts[t])) <==>
             (exists t :: 0 <= t < n - 1 && SaysEver(machines[t], acts[t])) || SaysEver(machines[n - 1], acts[n - 1]);
    }
  }

  lemma NobodyStored(machines: seq<Machine>, acts: seq<Act>)
    requires |machines| > 0
    ensures LastStored(machines, acts, 0).None?
  {
  }

  lemma LastStoredMoves(machines: seq<Machine>, acts: seq<Act>, n: nat)
    requires 0 < n <= |acts| && n < |machines| && CanAct(machines[n - 1], acts[n - 1])
    ensures var m, act := machines[n - 1], acts[n - 1];
            LastStored(machines, acts, n) ==
            if act.SignedOutInCore? || act.RecordGarbled? then None
            else if act.SaveLands? && act.save == Stored then Record(Acted(m, act)).sub
            else LastStored(machines, acts, n - 1)
  {
    hide Step, Enabled, Shaped;
  }

  lemma RecordMoves(m: Machine, act: Act)
    requires CanAct(m, act) && m.records != []
    ensures var r := Acted(m, act);
            && r.records != []
            && (Record(r).ever <==> Record(m).ever || SaysEver(m, act))
            && (!(act.SignedOutInCore? || act.RecordGarbled? || (act.SaveLands? && act.save == Stored)) ==> Record(r).sub == Record(m).sub)
            && (act.SignedOutInCore? || act.RecordGarbled? ==> Record(r).sub.None?)
  {
    hide Step, Enabled;
  }

  // ---- One merge of the install id ----

  ghost predicate MergedInstall(w: SeamState) {
    exists k :: 0 <= k < |w.log| && w.log[k].Merged? && w.log[k].from == Install
  }

  /** The read of a window that opened on an identified record says so, unless it fails. */
  predicate Told(m: Machine, i: nat)
    requires Shaped(m) && i < |m.windows|
  {
    i !in m.deaf && m.records[m.openedAt[i]].ever
  }

  /** A window that opened on an identified record and read it merges only ids it drew; so does a
      window that does not own sign-in. */
  ghost predicate IdentityOk(m: Machine, i: nat, w: SeamState)
    requires Shaped(m) && i < |m.windows|
  {
    && (!m.owns[i] ==> w.session.None?)
    && (Told(m, i) && w.adopted ==> w.everIdentified)
    && (MergedInstall(w) ==> m.owns[i] && !Told(m, i))
  }

  ghost predicate EverSticks(records: seq<Identity>) {
    forall a, b :: 0 <= a < b < |records| && records[a].ever ==> records[b].ever
  }

  ghost predicate IdentityMachineInv(m: Machine) {
    && MachineInv(m) && EverSticks(m.records) && (forall d <- m.deaf :: d < |m.windows|)
    && (forall i :: 0 <= i < |m.windows| ==> IdentityOk(m, i, m.windows[i]))
    && (forall i :: m.launch <= i < |m.windows| && m.owns[i] ==> forall j :: i < j < |m.windows| ==> !m.owns[j])
  }

  /** Once its read is in, a window that was told knows the install has been identified. */
  lemma ReadSaysEver(m: Machine, i: nat, e: Event, asOf: nat)
    requires IdentityMachineInv(m) && CanAct(m, Handled(i, e, asOf))
    requires Told(m, i) && !(e.IdentityReply? && e.answer.None?)
    ensures Heard(m.windows[i], e).adopted ==> Heard(m.windows[i], e).everIdentified
  {
    hide MachineInv;
    assert IdentityOk(m, i, m.windows[i]);
    if e.IdentityReply? {
      assert m.openedAt[i] < asOf < |m.records| ==> m.records[asOf].ever;
    }
  }

  lemma HandledIdentity(m: Machine, i: nat, e: Event, asOf: nat)
    requires IdentityMachineInv(m) && CanAct(m, Handled(i, e, asOf))
    ensures var r := Acted(m, Handled(i, e, asOf)); IdentityOk(r, i, r.windows[i])
  {
    HandledWindow(m, i, e, asOf);
    assert IdentityOk(m, i, m.windows[i]);
    var r := Acted(m, Handled(i, e, asOf));
    hide Inv, Step, Enabled, MachineInv;
    var w, next := m.windows[i], r.windows[i];
    if Told(r, i) { ReadSaysEver(m, i, e, asOf); }
    if k :| 0 <= k < |next.log| && next.log[k].Merged? && next.log[k].from == Install {
      if k < |w.log| {
        assert next.log[k] == next.log[..|w.log|][k];
      } else {
        assert FirstOrDrawn(Heard(w, e), next.log[k]);
      }
    }
  }

  lemma IdentityElsewhere(m: Machine, r: Machine, j: nat, w: SeamState)
    requires Shaped(m) && Shaped(r) && j < |m.windows| <= |r.windows| && IdentityOk(m, j, w)
    requires r.owns[j] == m.owns[j] && r.openedAt[j] == m.openedAt[j] && m.deaf <= r.deaf
    requires r.deaf <= m.deaf || j !in r.deaf - m.deaf
    requires |m.records| <= |r.records| && r.records[..|m.records|] == m.records
    ensures IdentityOk(r, j, w)
  {
    assert r.records[m.openedAt[j]] == r.records[..|m.records|][m.openedAt[j]];
  }

  lemma ActKeepsIdentity(m: Machine, act: Act)
    requires IdentityMachineInv(m) && CanAct(m, act)
    ensures IdentityMachineInv(Acted(m, act))
  {
    hide Inv, Step, Enabled, MachineInv, Loaded, IdentityOk;
    ActKeeps(m, act);
    var r := Acted(m, act);
    assert Shaped(m) && Shaped(r) by { ShapedStays(m); ShapedStays(r); }
    if act.Handled? { HandledIdentity(m, act.window, act.event, act.asOf); }
    if act.Opened? { LoadedIdentity(|m.windows|, act.hasKey, act.persisted); }
    forall j | 0 <= j < |r.windows| ensures IdentityOk(r, j, r.windows[j]) {
      if j < |m.windows| && !(act.Handled? && act.window == j) {
        IdentityElsewhere(m, r, j, m.windows[j]);
      } else if act.Opened? {
        LoadedIdentityOk(r, j, r.windows[j]);
      }
    }
  }

  lemma LoadedIdentity(window: nat, hasKey: bool, persisted: Client)
    ensures var w := Loaded(window, hasKey, persisted); w.session.None? && !w.adopted && w.log == []
  {
  }

  lemma LoadedIdentityOk(m: Machine, i: nat, w: SeamState)
    requires Shaped(m) && i < |m.windows| && w.session.None? && !w.adopted && w.log == []
    ensures IdentityOk(m, i, w)
  {
  }

  lemma {:induction false} HistoryKeepsIdentity(machines: seq<Machine>, acts: seq<Act>, n: nat)
    requires IsHistory(machines, acts) && n < |machines|
    ensures IdentityMachineInv(machines[n])
    decreases n
  {
    hide IdentityMachineInv, CanAct, Acted;
    if n == 0 {
      assert IdentityMachineInv(machines[0]) by { InstalledIdentity(machines[0].legacy); }
    } else {
      HistoryKeepsIdentity(machines, acts, n - 1);
      ActKeepsIdentity(machines[n - 1], acts[n - 1]);
    }
  }

  lemma InstalledIdentity(legacy: bool)
    ensures IdentityMachineInv(Installed(legacy))
  {
    InstalledOk(legacy);
  }

  /** A window that does not own sign-in merges only fresh ids; and so does the one that does, once
      it opened on a record that says the install was identified and its read answered. */
  lemma OnlyAnUntoldOwnerMergesTheInstall(machines: seq<Machine>, acts: seq<Act>, n: nat, i: nat)
    requires IsHistory(machines, acts) && n < |machines| && i < |machines[n].windows|
    ensures Shaped(machines[n])
    ensures MergedInstall(machines[n].windows[i]) ==> machines[n].owns[i] && !Told(machines[n], i)
  {
    HistoryKeepsIdentity(machines, acts, n);
    hide IsHistory, MachineInv;
    assert Shaped(machines[n]) by { ShapedStays(machines[n]); }
    assert IdentityOk(machines[n], i, machines[n].windows[i]);
  }

  lemma ShapedStays(m: Machine)
    requires MachineInv(m)
    ensures Shaped(m)
  {
  }

  /** What the docs count on: by the time a later launch opens its main window, the save that says
      the install has been identified has landed, and that window's read answers. */
  ghost predicate RecordReaches(machines: seq<Machine>, acts: seq<Act>) {
    && IsHistory(machines, acts)
    && forall n, i :: 0 <= n < |acts| && 0 <= i < |machines[n].windows| && MergedInstall(machines[n].windows[i]) ==>
         && (acts[n].Opened? && acts[n].owner ==> machines[n].records != [] && Record(machines[n]).ever)
         && (acts[n].Handled? && acts[n].window > i && acts[n].event.IdentityReply? ==> acts[n].event.answer.Some?)
  }

  /** Every owner after the window that merged the install id was told. */
  ghost predicate LaterOwnersTold(m: Machine)
    requires Shaped(m)
  {
    forall i, j :: 0 <= i < j < |m.windows| && MergedInstall(m.windows[i]) && m.owns[j] ==> Told(m, j)
  }

  lemma ToldStays(m: Machine, act: Act, j: nat)
    requires Shaped(m) && CanAct(m, act) && j < |m.windows| && Told(m, j)
    requires !(act.Handled? && act.window == j && act.event.IdentityReply? && act.event.answer.None?)
    ensures Shaped(Acted(m, act)) && Told(Acted(m, act), j)
  {
    hide Step, Enabled;
    assert Acted(m, act).records[m.openedAt[j]] == m.records[m.openedAt[j]];
  }

  lemma OpenedTold(m: Machine, act: Act)
    requires CanAct(m, act) && act.Opened? && Record(m).ever && |m.windows| !in m.deaf
    ensures Shaped(Acted(m, act)) && Told(Acted(m, act), |m.windows|)
  {
    hide Step, Enabled;
  }

  lemma ActTellsLaterOwners(m: Machine, act: Act)
    requires IdentityMachineInv(m) && LaterOwnersTold(m) && CanAct(m, act)
    requires forall i :: 0 <= i < |m.windows| && MergedInstall(m.windows[i]) ==>
               && (act.Opened? && act.owner ==> Record(m).ever)
               && (act.Handled? && act.window > i && act.event.IdentityReply? ==> act.event.answer.Some?)
    ensures IdentityMachineInv(Acted(m, act)) && LaterOwnersTold(Acted(m, act))
  {
    hide Inv, Step, Enabled, MachineInv, Loaded, MergedInstall, EverSticks;
    ActKeepsIdentity(m, act);
    var r := Acted(m, act);
    assert Shaped(m) && Shaped(r) by { ShapedStays(m); ShapedStays(r); }
    forall i, j | 0 <= i < j < |r.windows| && MergedInstall(r.windows[i]) && r.owns[j] ensures Told(r, j) {
      if !(act.Handled? && act.window == i) {
        assert r.windows[i] == m.windows[i];
        if j < |m.windows| {
          assert Told(m, j);
          ToldStays(m, act, j);
        } else {
          OpenedTold(m, act);
        }
      }
    }
  }

  lemma {:induction false} HistoryTellsLaterOwners(machines: seq<Machine>, acts: seq<Act>, n: nat)
    requires RecordReaches(machines, acts) && n < |machines|
    ensures IdentityMachineInv(machines[n]) && LaterOwnersTold(machines[n])
    decreases n
  {
    hide IdentityMachineInv, CanAct, Acted;
    if n == 0 {
      InstalledIdentity(machines[0].legacy);
      assert LaterOwnersTold(machines[0]) by { InstalledOk(machines[0].legacy); }
    } else {
      HistoryTellsLaterOwners(machines, acts, n - 1);
      ActTellsLaterOwners(machines[n - 1], acts[n - 1]);
    }
  }

  /** The install id is merged into a person at most once per install, over any number of windows
      and launches, as long as the record reaches the next launch. */
  lemma InstallMergedOnce(machines: seq<Machine>, acts: seq<Act>, n: nat, i: nat, a: nat, j: nat, b: nat)
    requires RecordReaches(machines, acts) && n < |machines|
    requires i < |machines[n].windows| && a < |machines[n].windows[i].log|
    requires j < |machines[n].windows| && b < |machines[n].windows[j].log|
    requires machines[n].windows[i].log[a].Merged? && machines[n].windows[i].log[a].from == Install
    requires machines[n].windows[j].log[b].Merged? && machines[n].windows[j].log[b].from == Install
    ensures i == j && a == b
  {
    var m := machines[n];
    HistoryTellsLaterOwners(machines, acts, n);
    hide RecordReaches, Inv, MachineInv;
    assert Shaped(m) by { ShapedStays(m); }
    assert MergedInstall(m.windows[i]) && MergedInstall(m.windows[j]);
    assert IdentityOk(m, i, m.windows[i]) && IdentityOk(m, j, m.windows[j]);
    OneInstallMerge(m, i);
  }

  lemma OneInstallMerge(m: Machine, i: nat)
    requires MachineInv(m) && i < |m.windows|
    ensures forall a, b :: 0 <= a < b < |m.windows[i].log| && m.windows[i].log[a].Merged? && m.windows[i].log[b].Merged? ==>
              m.windows[i].log[b].from != Install
  {
    assert WindowOk(m, i, m.windows[i]);
    hide GateInv, HeldOk, ClaimsOk, AllBacked, WinsOk;
  }
}
