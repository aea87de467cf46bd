/**
 The bearer of a running engine over every run: what a sign-out leaves behind,
 and where a bearer off OAuth comes from.
 */
module CredentialSession {
  import opened Options
  import opened Credentials
  import opened CredentialRuns

  // ---- What is known of the turns in flight ----

  function TurnEpoch(turn: Turn): nat {
    match turn
    case Noted(epoch) => epoch
    case Based(epoch, _) => epoch
    case Minting(epoch, _) => epoch
    case Storing(epoch, _, _) => epoch
    case InHand(epoch, _) => epoch
    case _ => 0
  }

  function TurnBasis(turn: Turn): nat {
    match turn
    case Based(_, basis) => basis
    case Minting(_, basis) => basis
    case Storing(_, basis, _) => basis
    case _ => 0
  }

  /** A renewal asked for whose answer would be stored if it came now. */
  predicate WouldStore(w: World, turn: Turn) {
    turn.Minting? && turn.basis == w.generation
  }

  /** A token in hand whose push would not be dropped. */
  predicate WouldPush(w: World, turn: Turn) {
    turn.InHand? && turn.reading.Live? && turn.epoch == w.epoch
  }

  predicate TurnsAreOld(w: World) {
    forall id <- w.turns :: TurnEpoch(w.turns[id]) <= w.epoch && TurnBasis(w.turns[id]) <= w.generation
  }

  predicate NoneWouldStore(w: World) {
    forall id <- w.turns :: !WouldStore(w, w.turns[id])
  }

  predicate NoneWouldPush(w: World) {
    forall id <- w.turns :: !WouldPush(w, w.turns[id])
  }

  /** The session is deleted, the generation moves and the epoch moves in one command, in this order. */
  predicate ClearsInOrder(todo: seq<Call>) {
    forall i :: 0 <= i < |todo| && todo[i] == SessionDeleted ==>
      i + 2 < |todo| && todo[i + 1] == GenerationBumped && todo[i + 2] == EpochAdvanced
  }

  /** Once a cleared session's generation has moved no renewal of it would be stored, and once its epoch
      has moved no token of it would be pushed. */
  predicate Outdated(w: World) {
    && TurnsAreOld(w) && ClearsInOrder(w.todo)
    && (w.session.None? && GenerationBumped !in w.todo ==> NoneWouldStore(w))
    && (w.session.None? && EpochAdvanced !in w.todo ==> NoneWouldPush(w))
  }

  predicate DeletesNothing(calls: seq<Call>) {
    forall i :: 0 <= i < |calls| ==> calls[i] != SessionDeleted
  }

  lemma ClearingInOrder(front: seq<Call>, back: seq<Call>)
    requires DeletesNothing(front) && DeletesNothing(back)
    ensures ClearsInOrder(front + CLEAR + back)
  {
  }

  lemma PlansClearInOrder(w: World, c: Command)
    ensures ClearsInOrder(PlanOf(w, c).calls)
  {
    hide ClearsInOrder;
    var calls := PlanOf(w, c).calls;
    if DeletesNothing(calls) {
      NothingToOrder(calls);
    } else {
      match c
      case SwitchGateway(url, _, _, _, _) =>
        ClearingInOrder([EngineDown, FileStored(url), KeyDeleted], []);
        assert calls == [EngineDown, FileStored(url), KeyDeleted] + CLEAR + [];
      case SignOut(_) =>
        ClearingInOrder([], [BearerPushed(None)]);
        assert calls == [] + CLEAR + [BearerPushed(None)];
      case ClearAccount(_, _) =>
        ClearingInOrder([FileRemoved, KeyDeleted], []);
        assert calls == [FileRemoved, KeyDeleted] + CLEAR + [];
      case _ => NothingDeleted(w, c);
    }
  }

  lemma NothingToOrder(calls: seq<Call>)
    requires DeletesNothing(calls)
    ensures ClearsInOrder(calls)
  {
  }

  lemma NothingDeleted(w: World, c: Command)
    requires !c.SwitchGateway? && !c.SignOut? && !c.ClearAccount?
    ensures DeletesNothing(PlanOf(w, c).calls)
  {
  }

  lemma CallKeepsOutdated(w: World)
    requires Outdated(w) && w.todo != []
    ensures Outdated(Called(w))
  {
    var call, r := w.todo[0], Called(w);
    assert w.todo == [call] + r.todo;
    assert ClearsInOrder(r.todo) by {
      forall i | 0 <= i < |r.todo| && r.todo[i] == SessionDeleted
        ensures i + 2 < |r.todo| && r.todo[i + 1] == GenerationBumped && r.todo[i + 2] == EpochAdvanced
      {
        assert w.todo[i + 1] == SessionDeleted;
      }
    }
    if call == SessionDeleted {
      assert w.todo[1] == r.todo[0] && w.todo[2] == r.todo[1];
    }
    ExecKeepsTodo(w, call, w.todo);
    OnlyMoves(w, call);
  }

  /** What a call does to the session and the two counters. */
  lemma OnlyMoves(w: World, call: Call)
    ensures var r := Exec(w, call);
            && r.turns == w.turns
            && r.generation == w.generation + (if call.GenerationBumped? then 1 else 0)
            && r.epoch == w.epoch + (if call.EpochAdvanced? then 1 else 0)
            && r.session == if call.SessionStored? then Some(call.session) else if call.SessionDeleted? then None else w.session
  {
  }

  /** What a turn of the loop does: to the session and the generation, and to itself. */
  lemma TurnMoves(w: World, e: Event)
    requires CanTurn(w, e)
    ensures var r := Turned(w, e);
            && r.epoch == w.epoch && r.generation >= w.generation
            && ((r.session == w.session && r.generation == w.generation)
                || (r.session.Some? && e.id in w.turns && w.turns[e.id].Storing?))
            && forall id <- r.turns :: id == e.id || (id in w.turns && r.turns[id] == w.turns[id])
  {
    match e
    case TurnStores(id, written) =>
    case TurnPushes(id) => PushLeaves(w, id);
    case _ =>
  }

  lemma NewTurn(w: World, e: Event)
    requires CanTurn(w, e) && e.id in Turned(w, e).turns
    ensures var t := Turned(w, e).turns[e.id];
            && (TurnEpoch(t) <= w.epoch || (e.id in w.turns && TurnEpoch(t) <= TurnEpoch(w.turns[e.id])))
            && (TurnBasis(t) <= w.generation || (e.id in w.turns && TurnBasis(t) <= TurnBasis(w.turns[e.id])))
            && (t.Minting? ==> w.session.Some?)
            && (t.Storing? ==> e.id in w.turns && WouldStore(w, w.turns[e.id]))
            && (t.InHand? && t.reading.Live? ==> Turned(w, e).session.Some?)
  {
    match e
    case TurnPushes(id) => assert false;
    case _ =>
  }

  lemma TurnKeepsOutdated(w: World, e: Event)
    requires Outdated(w) && CanTurn(w, e)
    ensures Outdated(Turned(w, e))
  {
    TurnsLeaveAccount(w, e);
    TurnMoves(w, e);
    if e.id in Turned(w, e).turns { NewTurn(w, e); }
    hide Turned, CanTurn, ClearsInOrder, TurnEpoch, TurnBasis;
    assert TurnsAreOld(Turned(w, e));
  }

  lemma {:induction false} OutdatedAlong(worlds: seq<World>, events: seq<Event>, n: nat)
    requires IsRun(worlds, events) && Starts(worlds[0]) && n < |worlds|
    ensures Outdated(worlds[n])
    decreases n
  {
    hide Outdated, Called, Turned, CanTurn, PlanOf;
    if n == 0 {
      StartsOutdated(worlds[0]);
    } else {
      OutdatedAlong(worlds, events, n - 1);
      var w, e := worlds[n - 1], events[n - 1];
      match e
      case Begins(c) => BeginKeepsOutdated(w, c);
      case Calls => CallKeepsOutdated(w);
      case _ => TurnKeepsOutdated(w, e);
    }
  }

  lemma StartsOutdated(w: World)
    requires Starts(w)
    ensures Outdated(w)
  {
  }

  lemma BeginKeepsOutdated(w: World, c: Command)
    requires Outdated(w) && w.todo == []
    ensures Outdated(Begun(w, c))
  {
    PlansClearInOrder(w, c);
    hide PlanOf, ClearsInOrder;
  }

  // ---- After a sign-out ----

  /** Signed out: no bundle is stored, and no engine holds a bearer. */
  predicate Out(w: World) {
    w.session.None? && (w.engine.Some? ==> w.engine.value.bearer.None?)
  }

  /** The run signs nobody in. */
  ghost predicate NoSignIn(worlds: seq<World>, events: seq<Event>) {
    && IsRun(worlds, events)
    && forall n :: 0 <= n < |events| && events[n].Begins? && events[n].command.BeginLogin? ==> events[n].command.login.None?
  }

  ghost predicate StaysOut(w: World) {
    forall worlds, events :: NoSignIn(worlds, events) && worlds[0] == w ==> forall n :: 0 <= n < |worlds| ==> Out(worlds[n])
  }

  /** A renewal past its check, about to store what it minted. */
  predicate NoneStoring(w: World) {
    forall id <- w.turns :: !w.turns[id].Storing?
  }

  predicate SignsNobodyIn(todo: seq<Call>) {
    forall i :: 0 <= i < |todo| ==> !todo[i].SessionStored? && (todo[i].BearerPushed? ==> todo[i].engineBearer.None?)
  }

  /** Nothing in flight can bring a session back. */
  predicate Gone(w: World) {
    Out(w) && SignsNobodyIn(w.todo) && TurnsAreOld(w) && NoneStoring(w) && NoneWouldStore(w) && NoneWouldPush(w)
  }

  lemma TurnKeepsGone(w: World, e: Event)
    requires Gone(w) && CanTurn(w, e)
    ensures Gone(Turned(w, e))
  {
    TurnsLeaveAccount(w, e);
    TurnMoves(w, e);
    if e.id in Turned(w, e).turns { NewTurn(w, e); }
    if w.engine.Some? { TurnsPushBearers(w, e); }
    hide Turned, CanTurn, SignsNobodyIn, TurnEpoch, TurnBasis;
  }

  /** A turn gives an engine a bearer only by the push of a live reading under the current epoch. */
  lemma TurnsPushBearers(w: World, e: Event)
    requires CanTurn(w, e) && w.engine.Some?
    ensures var r := Turned(w, e);
            r.engine.Some? && r.engine.value.bearer ==
            if !e.TurnPushes? then w.engine.value.bearer
            else match w.turns[e.id]
              case InHand(epoch, Live(token)) => if epoch == w.epoch then Some(token) else w.engine.value.bearer
              case InHand(epoch, SignedOut) => if epoch == w.epoch then None else w.engine.value.bearer
              case InHand(_, Unavailable) => w.engine.value.bearer
              case _ => None
  {
    match e
    case TurnStores(id, written) =>
    case TurnPushes(id) =>
    case _ =>
  }

  lemma CallKeepsGone(w: World)
    requires Gone(w) && w.todo != []
    ensures Gone(Called(w))
  {
    OnlyMoves(w, w.todo[0]);
    assert Out(Called(w));
  }

  lemma BeginKeepsGone(w: World, c: Command)
    requires Gone(w) && (c.BeginLogin? ==> c.login.None?)
    ensures Gone(Begun(w, c))
  {
  }

  lemma {:induction false} GoneAlong(worlds: seq<World>, events: seq<Event>, n: nat)
    requires NoSignIn(worlds, events) && Gone(worlds[0]) && n < |worlds|
    ensures Gone(worlds[n])
    decreases n
  {
    hide Gone, Called, Turned, CanTurn, Begun;
    if n > 0 {
      GoneAlong(worlds, events, n - 1);
      var w, e := worlds[n - 1], events[n - 1];
      match e
      case Begins(c) => BeginKeepsGone(w, c);
      case Calls => CallKeepsGone(w);
      case _ => TurnKeepsGone(w, e);
    }
  }

  lemma StoringComesBack(w: World, id: nat)
    requires id in w.turns && w.turns[id].Storing?
    ensures !StaysOut(w)
  {
    var worlds, events := [w, Step(w, TurnStores(id, true))], [TurnStores(id, true)];
    assert NoSignIn(worlds, events);
    assert !Out(worlds[1]);
  }

  lemma OutNow(w: World)
    requires StaysOut(w)
    ensures Out(w)
  {
    assert NoSignIn([w], []);
    assert [w][0] == w;
  }

  /** In any run, once a sign-out that reports success is through: everybody stays signed out in every
      continuation that signs nobody in, whatever was in flight, exactly when the session is gone from
      the store and no renewal is past its check with a bundle to store. */
  lemma SignedOutStaysOutIff(worlds: seq<World>, events: seq<Event>, b: nat, m: nat)
    requires IsRun(worlds, events) && Starts(worlds[0]) && Through(worlds, events, b, m)
    requires events[b].command == SignOut(false)
    ensures StaysOut(worlds[m]) <==> worlds[m].session.None? && NoneStoring(worlds[m])
  {
    hide StaysOut, Gone, Outdated;
    var w := worlds[m];
    if StaysOut(w) {
      OutNow(w);
      if id :| id in w.turns && w.turns[id].Storing? {
        StoringComesBack(w, id);
      }
    }
    if w.session.None? && NoneStoring(w) {
      SignOutTakesTheBearer(worlds, events, b, m);
      OutdatedAlong(worlds, events, m);
      OutdatedIsGone(w);
      GoneStaysOut(w);
    }
  }

  lemma OutdatedIsGone(w: World)
    requires Outdated(w) && w.todo == [] && Out(w) && NoneStoring(w)
    ensures Gone(w)
  {
  }

  lemma GoneStaysOut(w: World)
    requires Gone(w)
    ensures StaysOut(w)
  {
    forall worlds, events, n | NoSignIn(worlds, events) && worlds[0] == w && 0 <= n < |worlds| ensures Out(worlds[n]) {
      GoneAlong(worlds, events, n);
    }
  }

  lemma SignOutTakesTheBearer(worlds: seq<World>, events: seq<Event>, b: nat, m: nat)
    requires IsRun(worlds, events) && Through(worlds, events, b, m) && events[b].command == SignOut(false)
    ensures worlds[m].engine.Some? ==> worlds[m].engine.value.bearer.None?
  {
    hide Turned, CanTurn;
    LastCall(worlds, events, b, m);
    var calls := PlanOf(worlds[b], events[b].command).calls;
    assert calls == CLEAR + [BearerPushed(None)] && calls[|calls| - 1] == BearerPushed(None);
    assert worlds[m] == Step(worlds[m - 1], events[m - 1]);
  }

  /** A turn that meets nothing on its way reads the session of an OAuth account, or asks to renew it. */
  lemma TurnHasRead(w: World, id: nat, bundle: Bundle)
    requires id !in w.turns && w.session.Some? && w.file.Some? && w.file.value.mode == OAuth
    requires bundle.Usable? || bundle.Expired?
    ensures Reaches(w, w.(turns := w.turns[id := if bundle.Usable? then InHand(w.epoch, Live(w.session.value))
                                                 else Minting(w.epoch, w.generation)]))
  {
    ReachesItself(w);
    hide Reaches;
    Happens(w, w, TurnBegins(id, false));
    TurnGoesOn(w, w.(turns := w.turns[id := Reading]), TurnNotes(id), Noted(w.epoch));
    TurnGoesOn(w, w.(turns := w.turns[id := Noted(w.epoch)]), TurnBases(id), Based(w.epoch, w.generation));
    TurnGoesOn(w, w.(turns := w.turns[id := Based(w.epoch, w.generation)]), TurnReads(id, bundle),
               if bundle.Usable? then InHand(w.epoch, Live(w.session.value)) else Minting(w.epoch, w.generation));
  }

  lemma TurnGoesOn(a: World, w: World, e: Event, turn: Turn)
    requires !e.Begins? && !e.Calls? && e.id in w.turns
    requires Reaches(a, w) && CanHappen(w, e) && Step(w, e) == w.(turns := w.turns[e.id := turn])
    requires a.turns[e.id := w.turns[e.id]] == w.turns
    ensures Reaches(a, w.(turns := a.turns[e.id := turn]))
  {
    hide CanHappen, Step, Reaches;
    Happens(a, w, e);
    assert a.turns[e.id := turn] == w.turns[e.id := turn];
  }

  /** The exception can happen. From any idle world with an OAuth account, a session and no engine: a turn's
      renewal passes its check, the sign-out completes, the renewal is stored, and connecting a tool starts
      an engine that holds the renewed token. */
  lemma RenewalOutlivesSignOut(w: World, id: nat, t: Token)
    requires w.todo == [] && id !in w.turns && w.engine.None? && w.session.Some?
    requires w.file.Some? && w.file.value.mode == OAuth
    ensures exists checked ::
              && Reaches(w, checked) && checked.todo == [] && id in checked.turns && checked.turns[id].Storing?
              && var out := Done(checked, SignOut(false));
              && Out(out) && CanHappen(out, TurnStores(id, true))
              && var engine := Done(Step(out, TurnStores(id, true)), ConnectTool(false, false, false)).engine;
              && engine.Some? && engine.value.bearer == Some(t)
  {
    TurnHasRead(w, id, Expired);
    hide Reaches;
    var read := w.(turns := w.turns[id := Minting(w.epoch, w.generation)]);
    var checked := Step(read, TurnMints(id, Granted(t), true));
    Happens(w, read, TurnMints(id, Granted(t), true));
    assert checked.turns[id] == Storing(w.epoch, w.generation, t);
    SignOutDone(checked);
    var stored := Step(Done(checked, SignOut(false)), TurnStores(id, true));
    ExecAllStep(stored, [], EngineStarted(false));
    assert PlanOf(stored, ConnectTool(false, false, false)).calls == [] + [EngineStarted(false)];
  }

  lemma SignOutDone(w: World)
    requires w.todo == []
    ensures Done(w, SignOut(false)) ==
            EngineToken(w.(session := None, generation := w.generation + 1, epoch := w.epoch + 1), None)
  {
    ExecThree(w, SessionDeleted, GenerationBumped, EpochAdvanced);
    ExecAllStep(w, CLEAR, BearerPushed(None));
    hide ExecAll;
    assert PlanOf(w, SignOut(false)).calls == CLEAR + [BearerPushed(None)];
  }

  // ---- A bearer off OAuth ----

  /** The mode is no longer OAuth when the running command is to hand over a bearer: never. */
  predicate BearersFit(file: Option<AccountFile>, todo: seq<Call>)
    decreases |todo|
  {
    todo == [] || ((todo[0].BearerPushed? && todo[0].engineBearer.Some? ==> FileMode(file) == OAuth)
                   && BearersFit(FileAfter(file, todo[0]), todo[1..]))
  }

  lemma {:induction false} NoBearersFit(file: Option<AccountFile>, todo: seq<Call>)
    requires forall i :: 0 <= i < |todo| ==> todo[i].BearerPushed? ==> todo[i].engineBearer.None?
    ensures BearersFit(file, todo)
    decreases |todo|
  {
    if todo != [] {
      NoBearersFit(FileAfter(file, todo[0]), todo[1..]);
    }
  }

  lemma PlansFit(w: World, c: Command)
    ensures BearersFit(w.file, PlanOf(w, c).calls)
  {
    var calls := PlanOf(w, c).calls;
    if c.BeginLogin? && PlanOf(w, c).ok {
      LoginFits(w.file, c.login.value);
    } else {
      assert forall i :: 0 <= i < |calls| ==> calls[i].BearerPushed? ==> calls[i].engineBearer.None?;
      NoBearersFit(w.file, calls);
    }
  }

  lemma LoginFits(file: Option<AccountFile>, t: Token)
    requires file.Some?
    ensures BearersFit(file, [SessionStored(t), GenerationBumped, EpochAdvanced, ModeStored(OAuth), KeyPushed(None), BearerPushed(Some(t))])
  {
    var calls := [SessionStored(t), GenerationBumped, EpochAdvanced, ModeStored(OAuth), KeyPushed(None), BearerPushed(Some(t))];
    var after := FileAfter(file, ModeStored(OAuth));
    assert BearersFit(after, [BearerPushed(Some(t))]);
    assert [KeyPushed(None), BearerPushed(Some(t))][1..] == [BearerPushed(Some(t))];
    assert BearersFit(after, [KeyPushed(None), BearerPushed(Some(t))]);
    assert calls[3..][1..] == [KeyPushed(None), BearerPushed(Some(t))];
    assert BearersFit(file, calls[3..]);
    assert calls[2..][1..] == calls[3..] && calls[1..][1..] == calls[2..];
    assert BearersFit(file, calls[2..]);
    assert BearersFit(file, calls[1..]);
  }

  lemma {:induction false} FitAlong(worlds: seq<World>, events: seq<Event>, n: nat)
    requires IsRun(worlds, events) && BearersFit(worlds[0].file, worlds[0].todo) && n < |worlds|
    ensures BearersFit(worlds[n].file, worlds[n].todo)
    decreases n
  {
    hide Exec, Turned, CanTurn, PlanOf, FileAfter;
    if n > 0 {
      FitAlong(worlds, events, n - 1);
      var w, e := worlds[n - 1], events[n - 1];
      match e
      case Begins(c) => PlansFit(w, c);
      case Calls =>
        ExecAccount(w, w.todo[0]);
        ExecKeepsTodo(w, w.todo[0], w.todo);
      case _ => TurnsLeaveAccount(w, e);
    }
  }

  /** A running engine holds a bearer, which outranks the key, under an account that is not an OAuth one. */
  predicate BearerOffOAuth(w: World) {
    ModeOf(w) == ApiKey && w.engine.Some? && w.engine.value.bearer.Some?
  }

  /** The mode, or the account, goes from under the bearer; or the loop pushes a token read under the
      current epoch. */
  predicate Causes(w: World, e: Event) {
    if e == Calls then w.todo != [] && ModeOf(w) == OAuth && w.engine.Some? && w.engine.value.bearer.Some?
                       && FileMode(FileAfter(w.file, w.todo[0])) == ApiKey
    else e.TurnPushes? && CanTurn(w, e) && ModeOf(w) == ApiKey && w.engine.Some? && WouldPush(w, w.turns[e.id])
  }

  /** The engine goes, the mode goes back to OAuth, a command takes the bearer, or a turn does: one that
      found the account off OAuth, or a reading of no session under the current epoch. */
  predicate Clears(w: World, e: Event) {
    if e == Calls
    then w.todo != [] && (w.todo[0] == EngineDown || w.todo[0] == BearerPushed(None)
                          || FileMode(FileAfter(w.file, w.todo[0])) == OAuth)
    else e.TurnPushes? && CanTurn(w, e)
         && (w.turns[e.id].KeyInHand? || w.turns[e.id] == InHand(w.epoch, SignedOut))
  }

  lemma CallBearer(w: World)
    requires w.todo != [] && BearersFit(w.file, w.todo)
    ensures !BearerOffOAuth(w) ==> (BearerOffOAuth(Called(w)) <==> Causes(w, Calls))
    ensures BearerOffOAuth(w) ==> (BearerOffOAuth(Called(w)) <==> !Clears(w, Calls))
  {
  }

  lemma TurnBearer(w: World, e: Event)
    requires CanTurn(w, e)
    ensures !BearerOffOAuth(w) ==> (BearerOffOAuth(Turned(w, e)) <==> Causes(w, e))
    ensures BearerOffOAuth(w) ==> (BearerOffOAuth(Turned(w, e)) <==> !Clears(w, e))
  {
    TurnsLeaveAccount(w, e);
    if w.engine.Some? { TurnsPushBearers(w, e); }
    hide Turned;
  }

  lemma BearerStep(worlds: seq<World>, events: seq<Event>, n: nat)
    requires IsRun(worlds, events) && Starts(worlds[0]) && n < |events|
    ensures !BearerOffOAuth(worlds[n]) ==> (BearerOffOAuth(worlds[n + 1]) <==> Causes(worlds[n], events[n]))
    ensures BearerOffOAuth(worlds[n]) ==> (BearerOffOAuth(worlds[n + 1]) <==> !Clears(worlds[n], events[n]))
  {
    hide Called, Turned, CanTurn, PlanOf, BearersFit;
    var w, e := worlds[n], events[n];
    match e
    case Begins(c) =>
    case Calls =>
      FitsAtStart(worlds[0]);
      FitAlong(worlds, events, n);
      CallBearer(w);
    case _ => TurnBearer(w, e);
  }

  lemma FitsAtStart(w: World)
    requires Starts(w)
    ensures BearersFit(w.file, w.todo)
  {
  }

  /** Some event before `n` put the bearer there, and nothing has cleared it since. */
  ghost predicate HasCause(worlds: seq<World>, events: seq<Event>, n: nat)
    requires IsRun(worlds, events) && n < |worlds|
  {
    exists c :: 0 <= c < n && Causes(worlds[c], events[c]) && Uncleared(worlds, events, c, n)
  }

  ghost predicate Uncleared(worlds: seq<World>, events: seq<Event>, c: nat, n: nat)
    requires IsRun(worlds, events) && n < |worlds|
  {
    forall j :: c < j < n ==> !Clears(worlds[j], events[j])
  }

  /** Over every run, at every point of it: an engine under an account off OAuth holds a bearer exactly when
      it has a cause that nothing has cleared since. */
  lemma {:induction false} BearerOffOAuthIff(worlds: seq<World>, events: seq<Event>, n: nat)
    requires IsRun(worlds, events) && Starts(worlds[0]) && !BearerOffOAuth(worlds[0]) && n < |worlds|
    ensures BearerOffOAuth(worlds[n]) <==> HasCause(worlds, events, n)
    decreases n
  {
    hide BearerOffOAuth, Causes, Clears, CanHappen, Step;
    if n > 0 {
      BearerOffOAuthIff(worlds, events, n - 1);
      BearerStep(worlds, events, n - 1);
      if BearerOffOAuth(worlds[n]) {
        if BearerOffOAuth(worlds[n - 1]) {
          var c :| 0 <= c < n - 1 && Causes(worlds[c], events[c]) && Uncleared(worlds, events, c, n - 1);
          assert Uncleared(worlds, events, c, n);
        } else {
          assert Uncleared(worlds, events, n - 1, n);
        }
      }
      if HasCause(worlds, events, n) {
        var c :| 0 <= c < n && Causes(worlds[c], events[c]) && Uncleared(worlds, events, c, n);
        if c < n - 1 {
          assert Uncleared(worlds, events, c, n - 1);
        } else {
          BearerCaused(worlds[c], events[c]);
        }
      }
    }
  }

  lemma BearerCaused(w: World, e: Event)
    requires Causes(w, e)
    ensures !BearerOffOAuth(w) || !Clears(w, e)
  {
  }

  /** A push can be the cause right after a paste: from any idle world with an OAuth account and its engine,
      a turn reads the session, an accepted paste completes, and the turn pushes. What is left holds the
      pasted key, and the bearer that outranks it. */
  lemma PasteRacesTheRefresh(w: World, id: nat, url: Url, k: Key)
    requires w.todo == [] && id !in w.turns && w.engine.Some? && w.session.Some?
    requires w.file.Some? && w.file.value.mode == OAuth
    ensures exists r :: Reaches(w, r) && r.todo == [] && r.turns == w.turns && OnAccountKey(r, Some(k))
                        && BearerOffOAuth(r) && r.engine.value.bearer == w.session
  {
    TurnHasRead(w, id, Usable);
    hide Reaches;
    var read := w.(turns := w.turns[id := InHand(w.epoch, Live(w.session.value))]);
    assert read.turns[id] == InHand(w.epoch, Live(w.session.value));
    var c := SaveAccount(url, Some(k), true, Stored, false);
    Completes(w, read, c);
    PasteDone(read, url, k);
    var pasted := Done(read, c);
    Happens(w, pasted, TurnPushes(id));
    assert Step(pasted, TurnPushes(id)).turns == w.turns;
  }
}
