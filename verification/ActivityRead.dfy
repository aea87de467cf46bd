/**
 The activity reading a pane shows (`useActivity` in `src/lib/activity.ts`).
 Every reload starts a read of the cache and a read of the network; their
 replies land in any order, across any changes of what is being asked for.
 */
module ActivityRead {
  import opened Options

  /** What a reading is of: the credential, the installation, the senders. */
  type Scope = nat

  /** A reading, and the scope it was read for. */
  datatype View = View(scope: Scope, body: nat)

  /** The network read: unanswered; its answer would not parse; settled; over (`finally` has run). */
  datatype Net = Asked | Unparsed | Settled | Over

  /** One reload: what it asked for, its `answered` flag, and which replies are still to come. */
  datatype Attempt = Attempt(scope: Scope, answered: bool, cachePending: bool, net: Net)

  /** `enabled` and `scope` are those of the last commit, `ranEnabled` and `ranScope` of the last commit
      whose effects have run: React runs them some time after it, and always before the next. */
  datatype Hook = Hook(
    enabled: bool,
    scope: Scope,
    generation: nat,
    attempts: map<nat, Attempt>,
    view: Option<View>,
    failure: Option<nat>,
    loading: bool,
    ranEnabled: bool,
    ranScope: Scope)

  /** A reply's text: none, one that parses, or one that does not. */
  datatype Text = Absent | Parses(body: nat) | Garbled

  datatype Event =
    | Committed(enabled: bool, scope: Scope)
    | EffectsRun
    | Retried
    | CacheReplies(id: nat, text: Text)
    | CacheFails(id: nat)
    | NetReplies(id: nat, text: Text)
    | NetFails(id: nat, code: nat)
    | NetEnds(id: nat)

  /** `reload`. */
  function Reload(h: Hook): Hook {
    if !h.enabled then h
    else h.(generation := h.generation + 1,
            attempts := h.attempts[h.generation + 1 := Attempt(h.scope, false, true, Asked)],
            loading := true, failure := None)
  }

  /** The effect of a change of scope. */
  function Rescoped(h: Hook): Hook {
    h.(generation := h.generation + 1, view := None, failure := None, loading := false)
  }

  /** The effect of a change of `enabled`. */
  function Toggled(h: Hook): Hook {
    if h.enabled then h else h.(generation := h.generation + 1, loading := false)
  }

  /** The effects of the last commit that changed something are still to run. */
  predicate Due(h: Hook) {
    h.enabled != h.ranEnabled || h.scope != h.ranScope
  }

  /** A commit's effects, in order, each only if what it depends on changed. */
  function Effects(h: Hook): Hook {
    var h1 := h.(ranEnabled := h.enabled, ranScope := h.scope);
    var h2 := if h.scope != h.ranScope then Rescoped(h1) else h1;
    var h3 := if h.enabled != h.ranEnabled then Toggled(h2) else h2;
    if Due(h) then Reload(h3) else h3
  }

  /** The first render runs every effect. */
  function Mounted(enabled: bool, scope: Scope): Hook {
    Reload(Toggled(Rescoped(Hook(enabled, scope, 0, map[], None, None, false, enabled, scope))))
  }

  function CacheLands(h: Hook, id: nat, text: Text): Hook
    requires id in h.attempts
  {
    var a := h.attempts[id];
    var noted := h.(attempts := h.attempts[id := a.(cachePending := false)]);
    if id != h.generation || a.answered || !text.Parses? then noted
    else noted.(view := Some(View(a.scope, text.body)))
  }

  /** The network's `then`: an answer that will not parse is left to `catch`. */
  function NetLands(h: Hook, id: nat, text: Text): Hook
    requires id in h.attempts
  {
    var a := h.attempts[id];
    if id != h.generation then h.(attempts := h.attempts[id := a.(answered := true, net := Settled)])
    else if !text.Parses? then h.(attempts := h.attempts[id := a.(answered := true, net := Unparsed)])
    else h.(attempts := h.attempts[id := a.(answered := true, net := Settled)],
            view := Some(View(a.scope, text.body)), failure := None)
  }

  function NetFailed(h: Hook, id: nat, code: nat): Hook
    requires id in h.attempts
  {
    var noted := h.(attempts := h.attempts[id := h.attempts[id].(answered := true, net := Settled)]);
    if id != h.generation then noted else noted.(failure := Some(code))
  }

  function NetOver(h: Hook, id: nat): Hook
    requires id in h.attempts
  {
    var noted := h.(attempts := h.attempts[id := h.attempts[id].(net := Over)]);
    if id != h.generation then noted else noted.(loading := false)
  }

  predicate Enabled(h: Hook, e: Event) {
    match e
    case Committed(_, _) => !Due(h)
    case EffectsRun => Due(h)
    case Retried => true
    case CacheReplies(id, _) => id in h.attempts && h.attempts[id].cachePending
    case CacheFails(id) => id in h.attempts && h.attempts[id].cachePending
    case NetReplies(id, _) => id in h.attempts && h.attempts[id].net == Asked
    case NetFails(id, _) => id in h.attempts && (h.attempts[id].net == Asked || h.attempts[id].net == Unparsed)
    case NetEnds(id) => id in h.attempts && h.attempts[id].net == Settled
  }

  function Step(h: Hook, e: Event): Hook
    requires Enabled(h, e)
  {
    match e
    case Committed(enabled, scope) => h.(enabled := enabled, scope := scope)
    case EffectsRun => Effects(h)
    case Retried => Reload(h)
    case CacheReplies(id, text) => CacheLands(h, id, text)
    case CacheFails(id) => h.(attempts := h.attempts[id := h.attempts[id].(cachePending := false)])
    case NetReplies(id, text) => NetLands(h, id, text)
    case NetFails(id, code) => NetFailed(h, id, code)
    case NetEnds(id) => NetOver(h, id)
  }

  ghost predicate IsRun(hooks: seq<Hook>, events: seq<Event>) {
    && |hooks| == |events| + 1
    && (exists enabled, scope :: hooks[0] == Mounted(enabled, scope))
    && forall n :: 0 <= n < |events| ==> Enabled(hooks[n], events[n]) && hooks[n + 1] == Step(hooks[n], events[n])
  }

  /** The current attempt's network read is still to be over. */
  predicate Outstanding(h: Hook) {
    h.generation in h.attempts && h.attempts[h.generation].net != Over
  }

  ghost predicate Inv(h: Hook) {
    && (h.view.Some? ==> h.view.value.scope == h.scope || h.view.value.scope == h.ranScope)
    && (forall id <- h.attempts :: id <= h.generation && (h.attempts[id].answered <==> h.attempts[id].net != Asked))
    && (h.generation in h.attempts ==>
          && (h.attempts[h.generation].scope == h.scope || h.attempts[h.generation].scope == h.ranScope)
          && (h.enabled || h.ranEnabled))
    && (h.loading <==> Outstanding(h))
  }

  lemma EffectsKeepInv(h: Hook)
    requires Inv(h) && Due(h)
    ensures Inv(Effects(h))
  {
    var h1 := h.(ranEnabled := h.enabled, ranScope := h.scope);
    var h2 := if h.scope != h.ranScope then Rescoped(h1) else h1;
    var h3 := if h.enabled != h.ranEnabled then Toggled(h2) else h2;
    if h.scope != h.ranScope {
      assert h2.generation !in h2.attempts;
    }
    if !h.enabled {
      assert h3.generation !in h3.attempts || h.scope != h.ranScope;
    }
  }

  lemma ReloadKeepsInv(h: Hook)
    requires Inv(h)
    ensures Inv(Reload(h))
  {
  }

  lemma CacheKeepsInv(h: Hook, id: nat, text: Text)
    requires Inv(h) && id in h.attempts
    ensures Inv(CacheLands(h, id, text)) && Inv(h.(attempts := h.attempts[id := h.attempts[id].(cachePending := false)]))
  {
  }

  lemma NetKeepsInv(h: Hook, id: nat, text: Text, code: nat)
    requires Inv(h) && id in h.attempts && h.attempts[id].net != Over
    ensures h.attempts[id].net == Asked ==> Inv(NetLands(h, id, text))
    ensures Inv(NetFailed(h, id, code))
  {
  }

  lemma OverKeepsInv(h: Hook, id: nat)
    requires Inv(h) && id in h.attempts && h.attempts[id].net == Settled
    ensures Inv(NetOver(h, id))
  {
  }

  lemma StepKeepsInv(h: Hook, e: Event)
    requires Inv(h) && Enabled(h, e)
    ensures Inv(Step(h, e))
  {
    hide Effects, Reload, CacheLands, NetLands, NetFailed, NetOver;
    match e
    case Committed(enabled, scope) =>
    case EffectsRun => EffectsKeepInv(h);
    case Retried => ReloadKeepsInv(h);
    case CacheReplies(id, text) => CacheKeepsInv(h, id, text);
    case CacheFails(id) => CacheKeepsInv(h, id, Absent);
    case NetReplies(id, text) => NetKeepsInv(h, id, text, 0);
    case NetFails(id, code) => NetKeepsInv(h, id, Absent, code);
    case NetEnds(id) => OverKeepsInv(h, id);
  }

  lemma {:induction false} RunKeepsInv(hooks: seq<Hook>, events: seq<Event>, n: nat)
    requires IsRun(hooks, events) && n < |hooks|
    ensures Inv(hooks[n])
    decreases n
  {
    hide Inv, Step, Enabled;
    if n == 0 {
      var enabled, scope :| hooks[0] == Mounted(enabled, scope);
      MountedInv(enabled, scope);
    } else {
      RunKeepsInv(hooks, events, n - 1);
      StepKeepsInv(hooks[n - 1], events[n - 1]);
    }
  }

  lemma MountedInv(enabled: bool, scope: Scope)
    ensures Inv(Mounted(enabled, scope))
  {
  }

  /** For every order of replies, commits, effects, disables and reloads: what is on screen was read for
      the scope on screen, except that between a commit that changed the scope and its effects it may still
      be of the scope before; and the pane is loading exactly while the current attempt's network read is
      not over, so it never sticks. */
  lemma ScreenIsOfScope(hooks: seq<Hook>, events: seq<Event>, n: nat)
    requires IsRun(hooks, events) && n < |hooks|
    ensures hooks[n].view.Some? && hooks[n].view.value.scope != hooks[n].scope ==>
              hooks[n].view.value.scope == hooks[n].ranScope != hooks[n].scope
    ensures hooks[n].view.Some? && !Due(hooks[n]) ==> hooks[n].view.value.scope == hooks[n].scope
    ensures hooks[n].loading <==> Outstanding(hooks[n])
    ensures hooks[n].loading ==> hooks[n].enabled || Due(hooks[n])
  {
    RunKeepsInv(hooks, events, n);
    hide IsRun;
  }

  /** That exception happens at every commit of a new scope over a view, and the effects end it. */
  lemma OldViewUntilTheEffects(hooks: seq<Hook>, events: seq<Event>, n: nat)
    requires IsRun(hooks, events) && n < |events| && hooks[n].view.Some?
    requires events[n].Committed? && events[n].scope != hooks[n].scope
    ensures hooks[n + 1].view.Some? && hooks[n + 1].view.value.scope != hooks[n + 1].scope
    ensures Due(hooks[n + 1]) && Effects(hooks[n + 1]).view.None? && !Due(Effects(hooks[n + 1]))
  {
    ScreenIsOfScope(hooks, events, n);
  }

  // ---- An answer is final ----

  /** The current attempt's network read has answered. */
  predicate Answered(h: Hook) {
    h.generation in h.attempts && h.attempts[h.generation].answered
  }

  lemma AnswerStays(h: Hook, e: Event)
    requires Inv(h) && Enabled(h, e) && Answered(h) && Step(h, e).generation == h.generation
    ensures Answered(Step(h, e)) && Step(h, e).view == h.view
  {
    hide Effects;
    if e.EffectsRun? { EffectsSupersede(h); }
  }

  lemma EffectsSupersede(h: Hook)
    requires Due(h)
    ensures h.generation < Effects(h).generation
  {
  }

  lemma GenerationGrows(h: Hook, e: Event)
    requires Enabled(h, e)
    ensures h.generation <= Step(h, e).generation
  {
    hide Effects;
    if e.EffectsRun? { EffectsSupersede(h); }
  }

  lemma {:induction false} GenerationsGrow(hooks: seq<Hook>, events: seq<Event>, m: nat, n: nat)
    requires IsRun(hooks, events) && m <= n < |hooks|
    ensures hooks[m].generation <= hooks[n].generation
    decreases n
  {
    hide Step, Enabled;
    if m < n {
      GenerationsGrow(hooks, events, m, n - 1);
      GenerationGrows(hooks[n - 1], events[n - 1]);
    }
  }

  /** Once the network has answered an attempt, nothing that attempt still has in flight changes the
      view: no cached body lands late. Only a newer attempt, or a change of scope, does. */
  lemma {:induction false} AnswerIsFinal(hooks: seq<Hook>, events: seq<Event>, m: nat, n: nat)
    requires IsRun(hooks, events) && m <= n < |hooks|
    requires Answered(hooks[m]) && hooks[n].generation == hooks[m].generation
    ensures hooks[n].view == hooks[m].view && Answered(hooks[n])
    decreases n
  {
    hide Step, Enabled, Answered, Inv;
    if m < n {
      GenerationsGrow(hooks, events, m, n - 1);
      GenerationsGrow(hooks, events, n - 1, n);
      AnswerIsFinal(hooks, events, m, n - 1);
      RunKeepsInv(hooks, events, n - 1);
      AnswerStays(hooks[n - 1], events[n - 1]);
    }
  }

  // ---- What reaches the screen ----

  /** The current attempt is settled: its answer, or its failure, is what it came to. */
  predicate IsSettled(h: Hook) {
    h.generation in h.attempts && (h.attempts[h.generation].net == Settled || h.attempts[h.generation].net == Over)
  }

  lemma SettledStep(h: Hook, e: Event)
    requires Inv(h) && Enabled(h, e) && IsSettled(h) && Step(h, e).generation == h.generation
    ensures IsSettled(Step(h, e)) && Step(h, e).view == h.view && Step(h, e).failure == h.failure
  {
    hide Effects;
    if e.EffectsRun? { EffectsSupersede(h); }
  }

  lemma {:induction false} SettledStays(hooks: seq<Hook>, events: seq<Event>, m: nat, n: nat)
    requires IsRun(hooks, events) && m <= n < |hooks|
    requires IsSettled(hooks[m]) && hooks[n].generation == hooks[m].generation
    ensures IsSettled(hooks[n]) && hooks[n].view == hooks[m].view && hooks[n].failure == hooks[m].failure
    decreases n
  {
    hide Step, Enabled, IsSettled, Inv;
    if m < n {
      GenerationsGrow(hooks, events, m, n - 1);
      GenerationsGrow(hooks, events, n - 1, n);
      SettledStays(hooks, events, m, n - 1);
      RunKeepsInv(hooks, events, n - 1);
      SettledStep(hooks[n - 1], events[n - 1]);
    }
  }

  /** In every run, the network's answer to the current attempt goes on screen, for the scope it was asked for,
      with no failure beside it, and that is what the pane shows for as long as the attempt is current. */
  lemma AnswerIsShown(hooks: seq<Hook>, events: seq<Event>, m: nat, n: nat, body: nat)
    requires IsRun(hooks, events) && m < n < |hooks|
    requires events[m].NetReplies? && events[m].text == Parses(body) && events[m].id == hooks[m].generation
    requires hooks[n].generation == hooks[m].generation
    ensures events[m].id in hooks[m].attempts
    ensures hooks[n].view == Some(View(hooks[m].attempts[events[m].id].scope, body)) && hooks[n].failure.None?
  {
    AnswerLands(hooks[m], events[m], body);
    hide Step, Enabled, IsSettled;
    SettledStays(hooks, events, m + 1, n);
  }

  lemma AnswerLands(h: Hook, e: Event, body: nat)
    requires Enabled(h, e) && e.NetReplies? && e.text == Parses(body) && e.id == h.generation
    ensures e.id in h.attempts
    ensures var r := Step(h, e);
            && r.view == Some(View(h.attempts[e.id].scope, body)) && r.failure.None?
            && IsSettled(r) && r.generation == h.generation
  {
  }

  /** A failure of the current attempt's network read, its answer unreadable included, is shown beside what was
      on screen before, and both stay for as long as the attempt is current. */
  lemma FailureIsShown(hooks: seq<Hook>, events: seq<Event>, m: nat, n: nat)
    requires IsRun(hooks, events) && m < n < |hooks|
    requires events[m].NetFails? && events[m].id == hooks[m].generation && hooks[n].generation == hooks[m].generation
    ensures hooks[n].failure == Some(events[m].code) && hooks[n].view == hooks[m].view
  {
    FailureLands(hooks[m], events[m]);
    hide Step, Enabled, IsSettled;
    SettledStays(hooks, events, m + 1, n);
  }

  lemma FailureLands(h: Hook, e: Event)
    requires Enabled(h, e) && e.NetFails? && e.id == h.generation
    ensures var r := Step(h, e);
            r.failure == Some(e.code) && r.view == h.view && IsSettled(r) && r.generation == h.generation
  {
  }

  /** The cache's body goes on screen exactly if it is the current attempt's, it parses, and the network has not
      answered that attempt; it says nothing of failures, and what it does not show it leaves. */
  lemma CacheIsShownIff(hooks: seq<Hook>, events: seq<Event>, m: nat)
    requires IsRun(hooks, events) && m < |events| && events[m].CacheReplies?
    ensures var h, r, id, text := hooks[m], hooks[m + 1], events[m].id, events[m].text;
            && id in h.attempts && r.failure == h.failure && r.generation == h.generation
            && r.view == if id == h.generation && h.attempts[id].net == Asked && text.Parses?
                         then Some(View(h.attempts[id].scope, text.body)) else h.view
  {
    RunKeepsInv(hooks, events, m);
    assert Enabled(hooks[m], events[m]) && hooks[m + 1] == Step(hooks[m], events[m]);
    hide IsRun;
  }

  /** A reply of any attempt but the current one changes nothing on screen. */
  lemma LateIsDropped(hooks: seq<Hook>, events: seq<Event>, m: nat)
    requires IsRun(hooks, events) && m < |events|
    requires events[m].NetReplies? || events[m].NetFails? || events[m].NetEnds? || events[m].CacheReplies?
    requires events[m].id != hooks[m].generation
    ensures (hooks[m + 1].view, hooks[m + 1].failure, hooks[m + 1].loading) == (hooks[m].view, hooks[m].failure, hooks[m].loading)
  {
    assert Enabled(hooks[m], events[m]) && hooks[m + 1] == Step(hooks[m], events[m]);
  }

  /** An answer that will not parse shows nothing itself, and leaves the attempt to fail. */
  lemma UnreadableIsNotShown(hooks: seq<Hook>, events: seq<Event>, m: nat, code: nat)
    requires IsRun(hooks, events) && m < |events| && events[m].NetReplies? && !events[m].text.Parses?
    requires events[m].id == hooks[m].generation
    ensures hooks[m + 1].view == hooks[m].view && hooks[m + 1].failure == hooks[m].failure
    ensures Enabled(hooks[m + 1], NetFails(events[m].id, code)) && !Enabled(hooks[m + 1], NetEnds(events[m].id))
  {
    assert Enabled(hooks[m], events[m]) && hooks[m + 1] == Step(hooks[m], events[m]);
  }

  // ---- What is read ----

  /** The current attempt is for the scope on screen. */
  predicate Reading(h: Hook) {
    h.generation in h.attempts && h.attempts[h.generation].scope == h.scope
  }

  /** A new attempt, with both its reads on their way. */
  predicate Begun(h: Hook, r: Hook) {
    && h.generation < r.generation && r.generation in r.attempts
    && r.attempts[r.generation] == Attempt(r.scope, false, true, Asked) && r.loading && r.failure.None?
  }

  /** In every run: a retry reads again without clearing the screen, if the pane is switched on; the effects of a
      change read again if it is, clearing the screen exactly of another scope's reading; and while it is
      switched off neither asks for anything. */
  lemma ReadsAgain(hooks: seq<Hook>, events: seq<Event>, m: nat)
    requires IsRun(hooks, events) && m < |events| && (events[m].Retried? || events[m].EffectsRun?)
    ensures var h, r := hooks[m], hooks[m + 1];
            && (h.enabled ==> Begun(h, r))
            && (!h.enabled ==> r.attempts == h.attempts && (events[m].EffectsRun? ==> !r.loading))
            && (!h.enabled ==> r.failure == if events[m].EffectsRun? && h.scope != h.ranScope then None else h.failure)
            && r.view == if events[m].EffectsRun? && h.scope != h.ranScope then None else h.view
  {
    var h := hooks[m];
    assert Enabled(h, events[m]) && hooks[m + 1] == Step(h, events[m]);
    if events[m].EffectsRun? {
      RunKeepsInv(hooks, events, m);
      EffectsRead(h);
    }
    hide IsRun, Effects;
  }

  lemma EffectsRead(h: Hook)
    requires Inv(h) && Due(h)
    ensures var r := Effects(h);
            && (h.enabled ==> Begun(h, r))
            && (!h.enabled ==> r.attempts == h.attempts && !r.loading)
            && (!h.enabled ==> r.failure == if h.scope != h.ranScope then None else h.failure)
            && r.view == (if h.scope != h.ranScope then None else h.view)
            && !Due(r)
  {
  }

  /** So a pane that is switched on, its effects run, always has an attempt going, or gone, for the scope on
      screen: what the network answers it is what the pane will show. */
  lemma {:induction false} EnabledIsReading(hooks: seq<Hook>, events: seq<Event>, n: nat)
    requires IsRun(hooks, events) && n < |hooks|
    ensures hooks[n].enabled && !Due(hooks[n]) ==> Reading(hooks[n])
    decreases n
  {
    hide Step, Enabled, Due, Reading, Inv;
    if n == 0 {
      var enabled, scope :| hooks[0] == Mounted(enabled, scope);
      MountedReads(enabled, scope);
    } else {
      EnabledIsReading(hooks, events, n - 1);
      RunKeepsInv(hooks, events, n - 1);
      StepReads(hooks[n - 1], events[n - 1]);
    }
  }

  lemma MountedReads(enabled: bool, scope: Scope)
    ensures enabled ==> Reading(Mounted(enabled, scope))
    ensures Mounted(enabled, scope).enabled == enabled
  {
  }

  lemma StepReads(h: Hook, e: Event)
    requires Inv(h) && Enabled(h, e) && (h.enabled && !Due(h) ==> Reading(h))
    ensures var r := Step(h, e); r.enabled && !Due(r) ==> Reading(r)
  {
    hide Effects;
    if e.EffectsRun? {
      EffectsRead(h);
      EffectsKeepAsked(h);
    }
  }

  lemma EffectsKeepAsked(h: Hook)
    requires Due(h)
    ensures Effects(h).enabled == h.enabled && Effects(h).scope == h.scope
  {
  }

  // ---- Switched off ----

  lemma OffStep(h: Hook, e: Event)
    requires Inv(h) && Enabled(h, e) && !h.enabled && !Due(h) && !e.Committed?
    ensures var r := Step(h, e);
            (r.view, r.failure, r.loading, r.enabled) == (h.view, h.failure, h.loading, h.enabled) && !Due(r)
  {
  }

  /** Once the effects of switching it off have run, and while it stays off, the pane keeps its last
      reading: no reply still in flight, and no retry, changes what it shows. */
  lemma {:induction false} OffKeepsTheReading(hooks: seq<Hook>, events: seq<Event>, m: nat, n: nat)
    requires IsRun(hooks, events) && m <= n < |hooks| && !hooks[m].enabled && !Due(hooks[m])
    requires forall k :: m <= k < n ==> !events[k].Committed?
    ensures hooks[n].view == hooks[m].view && hooks[n].failure == hooks[m].failure
    ensures !hooks[n].loading && !hooks[n].enabled && !Due(hooks[n])
    decreases n
  {
    hide Step, Enabled, Inv, Due;
    if m < n {
      OffKeepsTheReading(hooks, events, m, n - 1);
      RunKeepsInv(hooks, events, n - 1);
      OffStep(hooks[n - 1], events[n - 1]);
    } else {
      ScreenIsOfScope(hooks, events, n);
    }
  }

  // ---- The hook as it runs ----

  class Activity {
    var enabled: bool
    var scope: Scope
    /** `attempt.current`. */
    var attempt: nat
    var attempts: map<nat, Attempt>
    var view: Option<View>
    var failure: Option<nat>
    var loading: bool
    /** What the effects last ran with. */
    var ranEnabled: bool
    var ranScope: Scope

    function Now(): Hook
      reads this
    {
      Hook(enabled, scope, attempt, attempts, view, failure, loading, ranEnabled, ranScope)
    }

    constructor (enabled: bool, scope: Scope)
      ensures Now() == Mounted(enabled, scope)
    {
      this.enabled, this.scope := enabled, scope;
      attempt, attempts, view, failure, loading := 0, map[], None, None, false;
      ranEnabled, ranScope := enabled, scope;
      new;
      ScopeEffect();
      EnabledEffect();
      ReloadNow();
    }

    method ReloadNow()
      modifies this
      ensures Now() == Reload(old(Now()))
    {
      if !enabled { return; }
      attempt := attempt + 1;
      loading := true;
      failure := None;
      attempts := attempts[attempt := Attempt(scope, false, true, Asked)];
    }

    method ScopeEffect()
      modifies this
      ensures Now() == Rescoped(old(Now()))
    {
      attempt := attempt + 1;
      view := None;
      failure := None;
      loading := false;
    }

    method EnabledEffect()
      modifies this
      ensures Now() == Toggled(old(Now()))
    {
      if enabled { return; }
      attempt := attempt + 1;
      loading := false;
    }

    method Render(nowEnabled: bool, nowScope: Scope)
      requires !Due(Now())
      modifies this`enabled, this`scope
      ensures Now() == Step(old(Now()), Committed(nowEnabled, nowScope))
    {
      enabled, scope := nowEnabled, nowScope;
    }

    method RunEffects()
      requires Due(Now())
      modifies this
      ensures Now() == Step(old(Now()), EffectsRun)
    {
      var rescoped, toggled := scope != ranScope, enabled != ranEnabled;
      ranEnabled, ranScope := enabled, scope;
      if rescoped { ScopeEffect(); }
      if toggled { EnabledEffect(); }
      ReloadNow();
    }

    method CacheReply(mine: nat, text: Text)
      requires Enabled(Now(), CacheReplies(mine, text))
      modifies this
      ensures Now() == Step(old(Now()), CacheReplies(mine, text))
    {
      var answered := attempts[mine].answered;
      attempts := attempts[mine := attempts[mine].(cachePending := false)];
      if mine != attempt || answered || !text.Parses? { return; }
      view := Some(View(attempts[mine].scope, text.body));
    }

    method NetReply(mine: nat, text: Text)
      requires Enabled(Now(), NetReplies(mine, text))
      modifies this
      ensures Now() == Step(old(Now()), NetReplies(mine, text))
    {
      attempts := attempts[mine := attempts[mine].(answered := true, net := Settled)];
      if mine != attempt { return; }
      if !text.Parses? {
        attempts := attempts[mine := attempts[mine].(net := Unparsed)];
        return;
      }
      view := Some(View(attempts[mine].scope, text.body));
      failure := None;
    }

    method NetRejection(mine: nat, code: nat)
      requires Enabled(Now(), NetFails(mine, code))
      modifies this
      ensures Now() == Step(old(Now()), NetFails(mine, code))
    {
      attempts := attempts[mine := attempts[mine].(answered := true, net := Settled)];
      if mine != attempt { return; }
      failure := Some(code);
    }

    method NetFinally(mine: nat)
      requires Enabled(Now(), NetEnds(mine))
      modifies this
      ensures Now() == Step(old(Now()), NetEnds(mine))
    {
      attempts := attempts[mine := attempts[mine].(net := Over)];
      if mine == attempt { loading := false; }
    }
  }
}
