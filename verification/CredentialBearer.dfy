/**
 The bearer that a pasted key is to get rid of: when an accepted paste is through
 without one in the engine, and when the engine stays without one.
 */
module CredentialBearer {
  import opened Options
  import opened Credentials
  import opened CredentialRuns
  import opened CredentialSession

  // ---- When a paste is through ----

  /** The paste's own call that takes the bearer out of the engine. */
  ghost predicate DropsBearer(worlds: seq<World>, events: seq<Event>, p: nat, k: Key) {
    p < |worlds| && p < |events| && events[p] == Calls && worlds[p].todo == [BearerPushed(None), KeyPushed(Some(k))]
  }

  /** A running engine is handed a live reading that was taken under the current sign-in epoch. */
  predicate LivePush(w: World, e: Event) {
    e.TurnPushes? && CanTurn(w, e) && w.engine.Some? && WouldPush(w, w.turns[e.id])
  }

  /** Such a push falls after the paste's own `BearerPushed(None)`, and nothing has cleared it by `m`. */
  ghost predicate PushedSince(worlds: seq<World>, events: seq<Event>, b: nat, m: nat, k: Key)
    requires IsRun(worlds, events) && m < |worlds|
  {
    exists p: nat, c: nat :: b < p < c < m && DropsBearer(worlds, events, p, k)
                             && LivePush(worlds[c], events[c]) && Uncleared(worlds, events, c, m)
  }

  lemma StepShortens(w: World, e: Event)
    requires CanHappen(w, e) && w.todo != []
    ensures e == Calls ==> |Step(w, e).todo| == |w.todo| - 1
    ensures e != Calls ==> Step(w, e).todo == w.todo && Step(w, e).file == w.file
  {
    hide Turned, CanTurn, Exec;
    match e
    case Begins(_) =>
    case Calls =>
    case _ => TurnsLeaveAccount(w, e);
  }

  /** A command that is through has made each of its calls. */
  lemma EachCallIsMade(worlds: seq<World>, events: seq<Event>, b: nat, m: nat, left: nat) returns (p: nat)
    requires IsRun(worlds, events) && Through(worlds, events, b, m)
    requires 0 < left <= |PlanOf(worlds[b], events[b].command).calls|
    ensures b < p < m && events[p] == Calls && |worlds[p].todo| == left
  {
    hide PlanOf, CanHappen, Step;
    p := b + 1;
    BeginPlans(worlds[b], events[b]);
    while events[p] != Calls || |worlds[p].todo| > left
      invariant b < p < m && |worlds[p].todo| >= left
      decreases m - p
    {
      StepShortens(worlds[p], events[p]);
      p := p + 1;
    }
  }

  lemma BeginPlans(w: World, e: Event)
    requires CanHappen(w, e) && e.Begins?
    ensures Step(w, e).todo == PlanOf(w, e.command).calls
  {
  }

  /** From the call that drops the bearer on, the account is an API-key account. */
  lemma PastedMode(worlds: seq<World>, events: seq<Event>, b: nat, m: nat, n: nat, k: Key)
    requires IsRun(worlds, events) && Through(worlds, events, b, m) && AcceptedPaste(worlds[b], events[b], k)
    requires b < n <= m && |worlds[n].todo| <= 2
    ensures ModeOf(worlds[n]) == ApiKey
    ensures |worlds[n].todo| == 2 ==> worlds[n].todo == [BearerPushed(None), KeyPushed(Some(k))]
    ensures |worlds[n].todo| == 1 ==> worlds[n].todo == [KeyPushed(Some(k))]
  {
    hide Turned, CanTurn, EndFile, EndStoredKey;
    CommandAlong(worlds, events, b, n);
    PastedEnd(worlds[b], events[b].command.url, k);
    LeavesFile(worlds[n].file, worlds[n].todo, k);
  }

  lemma LeavesFile(file: Option<AccountFile>, todo: seq<Call>, k: Key)
    requires todo == [] || todo == [KeyPushed(Some(k))] || todo == [BearerPushed(None), KeyPushed(Some(k))]
    ensures EndFile(file, todo) == file
  {
    if |todo| == 2 { assert todo[1..] == [KeyPushed(Some(k))]; }
  }

  predicate AcceptedPaste(w: World, e: Event, k: Key) {
    e.Begins? && e.command.SaveAccount? && e.command.pasted == Some(k) && PlanOf(w, e.command).ok
  }

  lemma PastePlan(w: World, e: Event, k: Key)
    requires AcceptedPaste(w, e, k)
    ensures |PlanOf(w, e.command).calls| == 5
  {
  }

  lemma {:induction false} TodoOnlyShrinks(worlds: seq<World>, events: seq<Event>, b: nat, m: nat, i: nat, n: nat)
    requires IsRun(worlds, events) && Through(worlds, events, b, m) && b < i <= n <= m
    ensures |worlds[n].todo| <= |worlds[i].todo|
    decreases n
  {
    hide CanHappen, Step;
    if i < n {
      TodoOnlyShrinks(worlds, events, b, m, i, n - 1);
      StepShortens(worlds[n - 1], events[n - 1]);
    }
  }

  /** In every run, an accepted paste is through with a bearer in a running engine exactly when the loop
      pushed a live reading, taken under the current sign-in epoch, after the paste's own call dropped the
      bearer, and nothing has cleared it since. */
  lemma PastedOverBearerIff(worlds: seq<World>, events: seq<Event>, b: nat, m: nat, k: Key)
    requires IsRun(worlds, events) && Starts(worlds[0]) && !BearerOffOAuth(worlds[0])
    requires Through(worlds, events, b, m) && AcceptedPaste(worlds[b], events[b], k)
    ensures worlds[m].engine.Some? && worlds[m].engine.value.bearer.Some? <==> PushedSince(worlds, events, b, m, k)
  {
    hide Step, CanHappen, PlanOf, LivePush, AcceptedPaste, Causes, Clears, DropsBearer;
    PastePlan(worlds[b], events[b], k);
    var p := EachCallIsMade(worlds, events, b, m, 2);
    PastedMode(worlds, events, b, m, p, k);
    PastedMode(worlds, events, b, m, m, k);
    BearerOffOAuthIff(worlds, events, m);
    DropIs(worlds, events, p, k);
    if HasCause(worlds, events, m) {
      var c :| 0 <= c < m && Causes(worlds[c], events[c]) && Uncleared(worlds, events, c, m);
      DropClears(worlds, events, p, k);
      CauseIsLater(worlds, events, p, c, m);
      AfterTheDrop(worlds, events, b, m, p, c, k);
      CauseIsPush(worlds[c], events[c], k);
    }
    if PushedSince(worlds, events, b, m, k) {
      var q: nat, c: nat :| b < q < c < m && DropsBearer(worlds, events, q, k)
                            && LivePush(worlds[c], events[c]) && Uncleared(worlds, events, c, m);
      DropIs(worlds, events, q, k);
      AfterTheDrop(worlds, events, b, m, q, c, k);
      PushIsCause(worlds[c], events[c]);
    }
  }

  lemma DropIs(worlds: seq<World>, events: seq<Event>, p: nat, k: Key)
    requires p < |worlds| && p < |events|
    ensures DropsBearer(worlds, events, p, k) <==> events[p] == Calls && worlds[p].todo == [BearerPushed(None), KeyPushed(Some(k))]
  {
  }

  lemma CauseIsLater(worlds: seq<World>, events: seq<Event>, p: nat, c: nat, m: nat)
    requires IsRun(worlds, events) && p < m < |worlds| && c < m
    requires Clears(worlds[p], events[p]) && !Causes(worlds[p], events[p])
    requires Causes(worlds[c], events[c]) && Uncleared(worlds, events, c, m)
    ensures p < c
  {
  }

  lemma DropClears(worlds: seq<World>, events: seq<Event>, p: nat, k: Key)
    requires DropsBearer(worlds, events, p, k)
    ensures Clears(worlds[p], events[p])
    ensures ModeOf(worlds[p]) == ApiKey ==> !Causes(worlds[p], events[p])
  {
  }

  lemma AfterTheDrop(worlds: seq<World>, events: seq<Event>, b: nat, m: nat, p: nat, c: nat, k: Key)
    requires IsRun(worlds, events) && Through(worlds, events, b, m) && AcceptedPaste(worlds[b], events[b], k)
    requires b < p < c <= m && |worlds[p].todo| == 2
    ensures ModeOf(worlds[c]) == ApiKey
  {
    hide Step, CanHappen, PlanOf, AcceptedPaste;
    TodoOnlyShrinks(worlds, events, b, m, p, c);
    PastedMode(worlds, events, b, m, c, k);
  }

  lemma CauseIsPush(w: World, e: Event, k: Key)
    requires ModeOf(w) == ApiKey && Causes(w, e)
    ensures LivePush(w, e)
  {
  }

  lemma PushIsCause(w: World, e: Event)
    requires ModeOf(w) == ApiKey && LivePush(w, e)
    ensures Causes(w, e)
  {
  }

  // ---- From an idle moment on ----

  /** A turn on OAuth that can still come to push a live reading: it has not noted the sign-in epoch yet,
      or it noted the current one and has not come to a reading of no session. */
  predicate CanStillPush(w: World, turn: Turn) {
    match turn
    case Reading => true
    case Noted(epoch) => epoch == w.epoch
    case Based(epoch, _) => epoch == w.epoch
    case Minting(epoch, _) => epoch == w.epoch
    case Storing(epoch, _, _) => epoch == w.epoch
    case InHand(epoch, reading) => epoch == w.epoch && reading.Live?
    case Loading => false
    case KeyInHand(_) => false
  }

  predicate NoneCanPush(w: World) {
    forall id <- w.turns :: !CanStillPush(w, w.turns[id])
  }

  /** The engine, if one is up, holds no bearer, under an API-key account. */
  predicate Bare(w: World) {
    ModeOf(w) == ApiKey && (w.engine.Some? ==> w.engine.value.bearer.None?)
  }

  ghost predicate StaysOff(worlds: seq<World>, events: seq<Event>) {
    IsRun(worlds, events) && forall n :: 0 <= n < |worlds| ==> ModeOf(worlds[n]) == ApiKey
  }

  /** Whatever happens next, as long as the account stays off OAuth: no engine, up then or later, holds a
      bearer. */
  ghost predicate StaysBare(w: World) {
    forall worlds, events :: StaysOff(worlds, events) && worlds[0] == w ==> forall n :: 0 <= n < |worlds| ==> Bare(worlds[n])
  }

  predicate NoBearerComing(w: World) {
    Bare(w) && NoneCanPush(w) && TurnsAreOld(w) && BearersFit(w.file, w.todo)
  }

  lemma TurnKeepsBare(w: World, e: Event)
    requires NoBearerComing(w) && CanTurn(w, e)
    ensures NoBearerComing(Turned(w, e))
  {
    TurnsLeaveAccount(w, e);
    TurnMoves(w, e);
    if e.id in Turned(w, e).turns {
      NewTurn(w, e);
      NewTurnCannotPush(w, e);
    }
    if w.engine.Some? { TurnsPushBearers(w, e); }
    hide Turned, CanTurn, TurnEpoch, TurnBasis, BearersFit;
  }

  lemma NewTurnCannotPush(w: World, e: Event)
    requires Bare(w) && NoneCanPush(w) && CanTurn(w, e) && e.id in Turned(w, e).turns
    ensures !CanStillPush(w, Turned(w, e).turns[e.id])
  {
    match e
    case TurnPushes(id) =>
    case _ =>
  }

  lemma CallKeepsBare(w: World)
    requires NoBearerComing(w) && w.todo != [] && ModeOf(Called(w)) == ApiKey
    ensures NoBearerComing(Called(w))
  {
    CallBearer(w);
    OnlyMoves(w, w.todo[0]);
    ExecAccount(w, w.todo[0]);
    ExecKeepsTodo(w, w.todo[0], w.todo);
    OffCausesNothing(w);
    var r := Called(w);
    hide Called, Exec, CanStillPush;
    assert BearersFit(r.file, r.todo);
    forall id <- r.turns ensures !CanStillPush(r, r.turns[id]) {
      OlderCannotPush(w, r, r.turns[id]);
    }
  }

  lemma OffCausesNothing(w: World)
    requires ModeOf(w) == ApiKey
    ensures !Causes(w, Calls)
  {
  }

  lemma OlderCannotPush(w: World, r: World, turn: Turn)
    requires !CanStillPush(w, turn) && TurnEpoch(turn) <= w.epoch <= r.epoch
    ensures !CanStillPush(r, turn)
  {
  }

  lemma {:induction false} BareAlong(worlds: seq<World>, events: seq<Event>, n: nat)
    requires StaysOff(worlds, events) && NoBearerComing(worlds[0]) && n < |worlds|
    ensures NoBearerComing(worlds[n])
    decreases n
  {
    hide NoBearerComing, Called, Turned, CanTurn, Begun;
    if n > 0 {
      BareAlong(worlds, events, n - 1);
      var w, e := worlds[n - 1], events[n - 1];
      match e
      case Begins(c) => BeginKeepsBare(w, c);
      case Calls => CallKeepsBare(w);
      case _ => TurnKeepsBare(w, e);
    }
  }

  lemma BeginKeepsBare(w: World, c: Command)
    requires NoBearerComing(w)
    ensures NoBearerComing(Begun(w, c))
  {
    PlansFit(w, c);
    hide PlanOf, BearersFit;
  }

  // The other way: a turn that can still push is driven to its push, under an engine that is up, with a
  // sign-in that is recorded only as far as its session.

  ghost predicate ReachesOff(a: World, b: World) {
    exists worlds, events :: StaysOff(worlds, events) && worlds[0] == a && worlds[|events|] == b
  }

  lemma HappensOff(a: World, b: World, e: Event)
    requires ReachesOff(a, b) && CanHappen(b, e) && ModeOf(Step(b, e)) == ApiKey
    ensures ReachesOff(a, Step(b, e))
  {
    hide CanHappen, Step;
    var worlds, events :| StaysOff(worlds, events) && worlds[0] == a && worlds[|events|] == b;
    assert StaysOff(worlds + [Step(b, e)], events + [e]);
    assert (worlds + [Step(b, e)])[0] == a;
  }

  lemma ItselfOff(w: World)
    requires ModeOf(w) == ApiKey
    ensures ReachesOff(w, w)
  {
    assert StaysOff([w], []);
  }

  lemma ReachedIsNotBare(a: World, b: World)
    requires ReachesOff(a, b) && !Bare(b)
    ensures !StaysBare(a)
  {
    var worlds, events :| StaysOff(worlds, events) && worlds[0] == a && worlds[|events|] == b;
  }

  /** Ready to be pushed into: an engine is up, and a session is stored. */
  predicate Primed(w: World) {
    ModeOf(w) == ApiKey && w.engine.Some? && w.session.Some?
  }

  lemma InHandLands(a: World, w: World, id: nat)
    requires ReachesOff(a, w) && Primed(w) && id in w.turns && WouldPush(w, w.turns[id])
    ensures !StaysBare(a)
  {
    TurnsLeaveAccount(w, TurnPushes(id));
    TurnsPushBearers(w, TurnPushes(id));
    hide Turned, ReachesOff;
    HappensOff(a, w, TurnPushes(id));
    ReachedIsNotBare(a, Step(w, TurnPushes(id)));
  }

  /** One turn of its own brings it nearer. */
  lemma Nearer(a: World, w: World, e: Event, turn: Turn)
    requires !e.Begins? && !e.Calls? && ReachesOff(a, w) && Primed(w) && CanHappen(w, e)
    requires e.id in Step(w, e).turns && Step(w, e).turns[e.id] == turn
    requires Step(w, e).epoch == w.epoch && Step(w, e).session.Some?
    ensures ReachesOff(a, Step(w, e)) && Primed(Step(w, e))
  {
    TurnsLeaveAccount(w, e);
    hide Turned, CanTurn, ReachesOff;
    HappensOff(a, w, e);
  }

  function StagesLeft(turn: Turn): nat {
    match turn
    case Reading => 5
    case Noted(_) => 4
    case Based(_, _) => 3
    case Minting(_, _) => 2
    case Storing(_, _, _) => 1
    case _ => 0
  }

  lemma TurnLands(a: World, w: World, id: nat)
    requires ReachesOff(a, w) && Primed(w) && id in w.turns && CanStillPush(w, w.turns[id])
    ensures !StaysBare(a)
    decreases StagesLeft(w.turns[id])
  {
    hide ReachesOff, StaysBare;
    match w.turns[id]
    case Reading =>
      Nearer(a, w, TurnNotes(id), Noted(w.epoch));
      TurnLands(a, Step(w, TurnNotes(id)), id);
    case Noted(epoch) =>
      Nearer(a, w, TurnBases(id), Based(epoch, w.generation));
      TurnLands(a, Step(w, TurnBases(id)), id);
    case Based(epoch, basis) =>
      Nearer(a, w, TurnReads(id, Usable), InHand(epoch, Live(w.session.value)));
      TurnLands(a, Step(w, TurnReads(id, Usable)), id);
    case Minting(epoch, basis) =>
      var e := TurnMints(id, Granted(w.session.value), true);
      Nearer(a, w, e, Step(w, e).turns[id]);
      TurnLands(a, Step(w, e), id);
    case Storing(epoch, basis, token) =>
      Nearer(a, w, TurnStores(id, true), InHand(epoch, Live(token)));
      TurnLands(a, Step(w, TurnStores(id, true)), id);
    case InHand(epoch, reading) => InHandLands(a, w, id);
  }

  /** From an idle world an engine is started, if none is up, and a sign-in begins that stores its session
      and will fail to record its mode. */
  lemma PrimesOff(w: World, t: Token)
    requires w.todo == [] && ModeOf(w) == ApiKey && w.file.Some? && w.key.Some?
    ensures exists r :: ReachesOff(w, r) && Primed(r) && r.turns == w.turns && r.epoch == w.epoch
  {
    ItselfOff(w);
    hide ReachesOff;
    var up := Step(Step(w, Begins(ConnectTool(false, false, true))), Calls);
    HappensOff(w, w, Begins(ConnectTool(false, false, true)));
    assert Step(w, Begins(ConnectTool(false, false, true))).todo == [EngineStarted(true)];
    HappensOff(w, Step(w, Begins(ConnectTool(false, false, true))), Calls);
    assert up.todo == [] && up.engine.Some?;
    var login := Begins(BeginLogin(Some(t), true));
    HappensOff(w, up, login);
    assert Step(up, login).todo[0] == SessionStored(t);
    HappensOff(w, Step(up, login), Calls);
    assert Primed(Step(Step(up, login), Calls));
  }

  /** In any run, at an idle moment with an API-key account, its key, and no bearer in any engine: none
      appears in any continuation that stays off OAuth exactly when no turn of the loop that found the
      account on OAuth can still push a live reading. */
  lemma BareStaysIff(worlds: seq<World>, events: seq<Event>, m: nat)
    requires IsRun(worlds, events) && Starts(worlds[0]) && m < |worlds| && worlds[m].todo == []
    requires Bare(worlds[m]) && worlds[m].file.Some? && worlds[m].key.Some?
    ensures StaysBare(worlds[m]) <==> NoneCanPush(worlds[m])
  {
    hide Bare, CanStillPush, Outdated, Primed, ReachesOff;
    var w := worlds[m];
    if NoneCanPush(w) {
      OutdatedAlong(worlds, events, m);
      NothingComing(w);
      forall later, acts, n | StaysOff(later, acts) && later[0] == w && 0 <= n < |later| ensures Bare(later[n]) {
        BareAlong(later, acts, n);
        ComingIsBare(later[n]);
      }
    } else {
      var id :| id in w.turns && CanStillPush(w, w.turns[id]);
      assert ModeOf(w) == ApiKey by { BareIsOff(w); }
      PrimesOff(w, 0);
      var r :| ReachesOff(w, r) && Primed(r) && r.turns == w.turns && r.epoch == w.epoch;
      SameEpochPush(w, r, w.turns[id]);
      TurnLands(w, r, id);
    }
  }

  lemma NothingComing(w: World)
    requires Outdated(w) && Bare(w) && NoneCanPush(w) && w.todo == []
    ensures NoBearerComing(w)
  {
  }

  lemma ComingIsBare(w: World)
    requires NoBearerComing(w)
    ensures Bare(w)
  {
  }

  lemma BareIsOff(w: World)
    requires Bare(w)
    ensures ModeOf(w) == ApiKey
  {
  }

  lemma SameEpochPush(w: World, r: World, turn: Turn)
    requires r.epoch == w.epoch && CanStillPush(w, turn)
    ensures CanStillPush(r, turn)
  {
  }
}
