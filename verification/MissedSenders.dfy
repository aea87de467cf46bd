/**
 Which senders' activity a window reads (`src/NewUiApp.tsx`): traffic reported
 while it was hidden is remembered, and read for on the way back.
 */
module MissedSenders {
  import opened Options

  type Sender = nat

  const ACTIVITY_REOPEN_MIN_MS := 30_000

  datatype Cause = Traffic | Visible | Focus | Hour

  /** A refresh: for whom (`None` is everything), when, and on what edge. */
  datatype Refresh = Refresh(who: Option<seq<Sender>>, at: nat, cause: Cause)

  datatype Window = Window(
    hidden: bool,
    missed: Option<seq<Sender>>,
    readAt: nat,
    refreshes: seq<Refresh>,
    reported: seq<Sender>)

  /** Hiding and showing are the document's; the event that says so comes after, and so may traffic. */
  datatype Event =
    | HiddenChanges(hidden: bool)
    | TrafficObserved(payload: seq<Sender>)
    | VisibilityEvent
    | FocusEdge
    | HourTimer

  function Refreshed(w: Window, who: Option<seq<Sender>>, now: nat, cause: Cause): Window {
    w.(refreshes := w.refreshes + [Refresh(who, now, cause)], readAt := now)
  }

  function Step(w: Window, e: Event, now: nat): Window {
    match e
    case HiddenChanges(hidden) => w.(hidden := hidden)
    case TrafficObserved(payload) =>
      var told := w.(reported := w.reported + payload);
      if w.hidden then told.(missed := Some((if w.missed.Some? then w.missed.value else []) + payload))
      else Refreshed(told, Some(payload), now, Traffic)
    case VisibilityEvent =>
      if w.hidden || w.missed.None? then w else Refreshed(w.(missed := None), w.missed, now, Visible)
    case FocusEdge =>
      if w.missed.Some? then Refreshed(w.(missed := None), w.missed, now, Focus)
      else if now >= w.readAt + ACTIVITY_REOPEN_MIN_MS then Refreshed(w, None, now, Focus) else w
    case HourTimer => if w.hidden then w else Refreshed(w, None, now, Hour)
  }

  /** A run: what happens, and a clock that does not go back. */
  ghost predicate IsRun(windows: seq<Window>, events: seq<Event>, times: seq<nat>) {
    && |windows| == |events| + 1 == |times| && windows[0].missed.None?
    && windows[0].refreshes == [] && windows[0].reported == [] && windows[0].readAt <= times[0]
    && (forall n :: 0 <= n < |events| ==> times[n] <= times[n + 1] && windows[n + 1] == Step(windows[n], events[n], times[n]))
  }

  /** The senders a list of refreshes was for, in order. */
  function Handed(refreshes: seq<Refresh>): seq<Sender>
    decreases |refreshes|
  {
    if refreshes == [] then []
    else
      var last := refreshes[|refreshes| - 1];
      Handed(refreshes[..|refreshes| - 1]) + if last.who.Some? then last.who.value else []
  }

  function Missed(w: Window): seq<Sender> {
    if w.missed.Some? then w.missed.value else []
  }

  lemma HandedMore(refreshes: seq<Refresh>, last: Refresh)
    ensures Handed(refreshes + [last]) == Handed(refreshes) + if last.who.Some? then last.who.value else []
  {
    assert (refreshes + [last])[..|refreshes + [last]| - 1] == refreshes;
  }

  ghost predicate Conserved(w: Window) {
    multiset(Handed(w.refreshes)) + multiset(Missed(w)) == multiset(w.reported)
  }

  lemma RefreshConserves(w: Window, who: Option<seq<Sender>>, now: nat, cause: Cause)
    ensures multiset(Handed(Refreshed(w, who, now, cause).refreshes)) ==
            multiset(Handed(w.refreshes)) + multiset(if who.Some? then who.value else [])
  {
    HandedMore(w.refreshes, Refresh(who, now, cause));
  }

  lemma StepConserves(w: Window, e: Event, now: nat)
    requires Conserved(w)
    ensures Conserved(Step(w, e, now))
  {
    hide Handed;
    match e
    case HiddenChanges(_) =>
    case TrafficObserved(payload) => RefreshConserves(w.(reported := w.reported + payload), Some(payload), now, Traffic);
    case VisibilityEvent => RefreshConserves(w.(missed := None), w.missed, now, Visible);
    case FocusEdge =>
      RefreshConserves(w.(missed := None), w.missed, now, Focus);
      RefreshConserves(w, None, now, Focus);
    case HourTimer => RefreshConserves(w, None, now, Hour);
  }

  /** Every sender the relay reported has been handed to a refresh exactly once, or is still in the
      missed list: over every order of traffic, hiding, showing, focus and the hour. */
  lemma {:induction false} SendersConserved(windows: seq<Window>, events: seq<Event>, times: seq<nat>, n: nat)
    requires IsRun(windows, events, times) && n < |windows|
    ensures multiset(Handed(windows[n].refreshes)) + multiset(Missed(windows[n])) == multiset(windows[n].reported)
    decreases n
  {
    hide Step;
    if n > 0 {
      SendersConserved(windows, events, times, n - 1);
      StepConserves(windows[n - 1], events[n - 1], times[n - 1]);
    }
  }

  /** In every run, a way back on screen, by the visibility event or by a focus, leaves nobody missed: every
      sender reported by then has been handed to a refresh exactly once. */
  lemma BackOnScreenMissesNobody(windows: seq<Window>, events: seq<Event>, times: seq<nat>, n: nat)
    requires IsRun(windows, events, times) && n < |events|
    requires (events[n].VisibilityEvent? && !windows[n].hidden) || events[n].FocusEdge?
    ensures windows[n + 1].missed.None? && windows[n + 1].hidden == windows[n].hidden
    ensures multiset(Handed(windows[n + 1].refreshes)) == multiset(windows[n + 1].reported)
  {
    SendersConserved(windows, events, times, n + 1);
    hide Handed;
    assert windows[n + 1] == Step(windows[n], events[n], times[n]);
  }

  /** One more refresh was made, now. */
  predicate ReadsFor(w: Window, r: Window, who: Option<seq<Sender>>, now: nat) {
    && r.readAt == now && |r.refreshes| == |w.refreshes| + 1 && r.refreshes[..|w.refreshes|] == w.refreshes
    && r.refreshes[|w.refreshes|].who == who && r.refreshes[|w.refreshes|].at == now
  }

  /** In every run, when a refresh is made and for whom. Traffic seen: for its senders, at once. Traffic missed:
      for all of them, at the next way back on screen. A focus with nothing missed, half a minute or more after
      the last read, and an hour turning over a visible window: for everything. Nothing else reads. */
  lemma ReadsExactlyWhen(windows: seq<Window>, events: seq<Event>, times: seq<nat>, n: nat)
    requires IsRun(windows, events, times) && n < |events|
    ensures var w, r, e, now := windows[n], windows[n + 1], events[n], times[n];
            var missed := (e.VisibilityEvent? && !w.hidden) || e.FocusEdge?;
            if e.TrafficObserved? && !w.hidden then ReadsFor(w, r, Some(e.payload), now)
            else if missed && w.missed.Some? then ReadsFor(w, r, w.missed, now)
            else if (e.FocusEdge? && now >= w.readAt + 30_000) || (e.HourTimer? && !w.hidden) then ReadsFor(w, r, None, now)
            else r.refreshes == w.refreshes && r.readAt == w.readAt
    ensures var w, r, e := windows[n], windows[n + 1], events[n];
            e.TrafficObserved? ==>
              r.reported == w.reported + e.payload && (w.hidden ==> Missed(r) == Missed(w) + e.payload && r.missed.Some?)
  {
    assert windows[n + 1] == Step(windows[n], events[n], times[n]);
  }

  /** When the read before the `k`-th was, or the mount. */
  function ReadBefore(refreshes: seq<Refresh>, k: nat, mounted: nat): nat
    requires k <= |refreshes|
  {
    if k == 0 then mounted else refreshes[k - 1].at
  }

  predicate SpacedAt(refreshes: seq<Refresh>, k: nat, mounted: nat)
    requires k < |refreshes|
  {
    refreshes[k].cause == Focus && refreshes[k].who.None? ==>
      refreshes[k].at >= ReadBefore(refreshes, k, mounted) + ACTIVITY_REOPEN_MIN_MS
  }

  ghost predicate Spaced(refreshes: seq<Refresh>, readAt: nat, mounted: nat) {
    && readAt == ReadBefore(refreshes, |refreshes|, mounted)
    && forall k :: 0 <= k < |refreshes| ==> SpacedAt(refreshes, k, mounted)
  }

  lemma MoreReads(refreshes: seq<Refresh>, readAt: nat, last: Refresh, mounted: nat)
    requires Spaced(refreshes, readAt, mounted)
    requires last.cause == Focus && last.who.None? ==> last.at >= readAt + ACTIVITY_REOPEN_MIN_MS
    ensures Spaced(refreshes + [last], last.at, mounted)
  {
    var more := refreshes + [last];
    forall k | 0 <= k < |more| ensures SpacedAt(more, k, mounted) {
      if k < |refreshes| {
        assert SpacedAt(refreshes, k, mounted);
        assert ReadBefore(more, k, mounted) == ReadBefore(refreshes, k, mounted);
      }
    }
  }

  lemma StepKeepsSpaced(w: Window, e: Event, now: nat, mounted: nat)
    requires Spaced(w.refreshes, w.readAt, mounted)
    ensures Spaced(Step(w, e, now).refreshes, Step(w, e, now).readAt, mounted)
  {
    hide Spaced;
    match e
    case HiddenChanges(hidden) =>
    case TrafficObserved(payload) => MoreReads(w.refreshes, w.readAt, Refresh(Some(payload), now, Traffic), mounted);
    case VisibilityEvent =>
      if w.missed.Some? { MoreReads(w.refreshes, w.readAt, Refresh(w.missed, now, Visible), mounted); }
    case FocusEdge =>
      if w.missed.Some? || now >= w.readAt + ACTIVITY_REOPEN_MIN_MS {
        MoreReads(w.refreshes, w.readAt, Refresh(w.missed, now, Focus), mounted);
      }
    case HourTimer => MoreReads(w.refreshes, w.readAt, Refresh(None, now, Hour), mounted);
  }

  /** A focus that has nothing missed to read for is guarded by age: its read comes at least half a
      minute after whatever read came before it. */
  lemma {:induction false} FocusReadsAreSpaced(windows: seq<Window>, events: seq<Event>, times: seq<nat>, n: nat)
    requires IsRun(windows, events, times) && n < |windows|
    ensures Spaced(windows[n].refreshes, windows[n].readAt, windows[0].readAt)
    decreases n
  {
    hide Step;
    if n > 0 {
      FocusReadsAreSpaced(windows, events, times, n - 1);
      StepKeepsSpaced(windows[n - 1], events[n - 1], times[n - 1], windows[0].readAt);
    }
  }

  /** The listeners as they run. */
  class AppWindow {
    var hidden: bool
    var missedWhileHidden: Option<seq<Sender>>
    var activityReadAt: nat
    ghost var refreshes: seq<Refresh>
    ghost var reported: seq<Sender>

    ghost function Now(): Window
      reads this
    {
      Window(hidden, missedWhileHidden, activityReadAt, refreshes, reported)
    }

    constructor (now: nat)
      ensures Now() == Window(false, None, now, [], [])
    {
      hidden, missedWhileHidden, activityReadAt, refreshes, reported := false, None, now, [], [];
    }

    method RefreshActivity(who: Option<seq<Sender>>, now: nat, ghost cause: Cause)
      modifies this`activityReadAt, this`refreshes
      ensures Now() == Refreshed(old(Now()), who, now, cause)
    {
      activityReadAt := now;
      refreshes := refreshes + [Refresh(who, now, cause)];
    }

    method OnTraffic(payload: seq<Sender>, now: nat)
      modifies this
      ensures Now() == Step(old(Now()), TrafficObserved(payload), now)
    {
      reported := reported + payload;
      if hidden {
        missedWhileHidden := Some((if missedWhileHidden.Some? then missedWhileHidden.value else []) + payload);
        return;
      }
      RefreshActivity(Some(payload), now, Traffic);
    }

    method OnVisible(now: nat)
      modifies this
      ensures Now() == Step(old(Now()), VisibilityEvent, now)
    {
      var missed := missedWhileHidden;
      if hidden || missed.None? { return; }
      missedWhileHidden := None;
      RefreshActivity(missed, now, Visible);
    }

    method OnFocus(now: nat)
      modifies this
      ensures Now() == Step(old(Now()), FocusEdge, now)
    {
      var missed := missedWhileHidden;
      if missed.Some? {
        missedWhileHidden := None;
        RefreshActivity(missed, now, Focus);
      } else if now >= activityReadAt + ACTIVITY_REOPEN_MIN_MS {
        RefreshActivity(None, now, Focus);
      }
    }

    method OnHour(now: nat)
      modifies this
      ensures Now() == Step(old(Now()), HourTimer, now)
    {
      if !hidden { RefreshActivity(None, now, Hour); }
    }
  }
}
