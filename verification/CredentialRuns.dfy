/**
 What a running engine may hold, over every run of commands with the turns of
 the refresh loop between any two of their calls: what is promised, and exactly
 when it is kept.
 */
module CredentialRuns {
  import opened Options
  import opened Credentials

  // ---- Runs from one world to another ----

  ghost predicate Reaches(a: World, b: World) {
    exists worlds, events :: IsRun(worlds, events) && worlds[0] == a && worlds[|events|] == b
  }

  lemma Happens(a: World, b: World, e: Event)
    requires Reaches(a, b) && CanHappen(b, e)
    ensures Reaches(a, Step(b, e))
  {
    hide CanHappen, Step;
    var worlds, events :| IsRun(worlds, events) && worlds[0] == a && worlds[|events|] == b;
    assert IsRun(worlds + [Step(b, e)], events + [e]);
    assert (worlds + [Step(b, e)])[0] == a;
  }

  lemma ReachesItself(w: World)
    ensures Reaches(w, w)
  {
    assert IsRun([w], []);
  }

  function ExecAll(w: World, calls: seq<Call>): World
    decreases |calls|
  {
    if calls == [] then w else Exec(ExecAll(w, calls[..|calls| - 1]), calls[|calls| - 1])
  }

  lemma ExecKeepsTodo(w: World, call: Call, todo: seq<Call>)
    ensures Exec(w.(todo := todo), call) == Exec(w, call).(todo := todo)
    ensures Exec(w, call).turns == w.turns
  {
  }

  /** A command with nothing between its calls. */
  function Done(w: World, c: Command): World {
    ExecAll(w, PlanOf(w, c).calls).(todo := [])
  }

  lemma {:induction false} CallsReach(a: World, w: World, c: Command, n: nat)
    requires Reaches(a, w) && w.todo == [] && n <= |PlanOf(w, c).calls|
    ensures var calls := PlanOf(w, c).calls; Reaches(a, ExecAll(w, calls[..n]).(todo := calls[n..]))
    decreases n
  {
    hide Exec, PlanOf;
    var calls := PlanOf(w, c).calls;
    if n == 0 {
      Happens(a, w, Begins(c));
      assert calls[..0] == [] && calls[0..] == calls;
    } else {
      CallsReach(a, w, c, n - 1);
      var before := ExecAll(w, calls[..n - 1]);
      Happens(a, before.(todo := calls[n - 1..]), Calls);
      assert calls[n - 1..][0] == calls[n - 1] && calls[n - 1..][1..] == calls[n..];
      assert calls[..n][..n - 1] == calls[..n - 1];
      ExecKeepsTodo(before, calls[n - 1], calls[n - 1..]);
    }
  }

  lemma Completes(a: World, w: World, c: Command)
    requires Reaches(a, w) && w.todo == []
    ensures Reaches(a, Done(w, c))
  {
    hide Exec, PlanOf, Reaches;
    var calls := PlanOf(w, c).calls;
    CallsReach(a, w, c, |calls|);
    assert calls[..|calls|] == calls && calls[|calls|..] == [];
  }

  // ---- Where the running command will leave the account ----

  function FileAfter(file: Option<AccountFile>, call: Call): Option<AccountFile> {
    match call
    case FileStored(url) => Some(AccountFile(url, if file.Some? then file.value.mode else ApiKey))
    case FileRemoved => None
    case ModeStored(mode) => if file.Some? then Some(file.value.(mode := mode)) else file
    case _ => file
  }

  function EndFile(file: Option<AccountFile>, todo: seq<Call>): Option<AccountFile>
    decreases |todo|
  {
    if todo == [] then file else EndFile(FileAfter(file, todo[0]), todo[1..])
  }

  function KeyAfter(key: Option<Key>, call: Call): Option<Key> {
    if call.KeyStored? then Some(call.pasted) else if call.KeyDeleted? then None else key
  }

  function EndStoredKey(key: Option<Key>, todo: seq<Call>): Option<Key>
    decreases |todo|
  {
    if todo == [] then key else EndStoredKey(KeyAfter(key, todo[0]), todo[1..])
  }

  function FileMode(file: Option<AccountFile>): Mode {
    if file.Some? then file.value.mode else ApiKey
  }

  /** The account's mode once the running command is through. */
  function EndMode(w: World): Mode {
    FileMode(EndFile(w.file, w.todo))
  }

  /** Whether an engine that is up, holding a key or not, will hold one once the command is through. */
  function KeyAtEnd(held: bool, todo: seq<Call>): bool
    decreases |todo|
  {
    if todo == [] then held
    else KeyAtEnd(if todo[0].KeyPushed? then todo[0].engineKey.Some? else held && !todo[0].EngineDown?, todo[1..])
  }

  lemma ExecAccount(w: World, call: Call)
    ensures Exec(w, call).file == FileAfter(w.file, call)
    ensures Exec(w, call).key == KeyAfter(w.key, call)
  {
  }

  /** `worlds[m]` is where the command begun at `b` is through. */
  ghost predicate Through(worlds: seq<World>, events: seq<Event>, b: nat, m: nat) {
    && b < m < |worlds| && b < |events| && events[b].Begins? && worlds[m].todo == []
    && forall n :: b < n < m ==> worlds[n].todo != []
  }

  /** While a command runs, what is left of it is a tail of its plan, and where it leads is fixed. */
  lemma {:induction false} CommandAlong(worlds: seq<World>, events: seq<Event>, b: nat, n: nat)
    requires IsRun(worlds, events) && b < n < |worlds| && events[b].Begins?
    requires forall j :: b < j < n ==> worlds[j].todo != []
    ensures var calls, todo := PlanOf(worlds[b], events[b].command).calls, worlds[n].todo;
            && |todo| <= |calls| && todo == calls[|calls| - |todo|..]
            && EndFile(worlds[n].file, todo) == EndFile(worlds[b].file, calls)
            && EndStoredKey(worlds[n].key, todo) == EndStoredKey(worlds[b].key, calls)
    decreases n
  {
    hide Exec, PlanOf, Turned, CanTurn, FileAfter, KeyAfter;
    var calls := PlanOf(worlds[b], events[b].command).calls;
    if n > b + 1 {
      CommandAlong(worlds, events, b, n - 1);
      var w, e := worlds[n - 1], events[n - 1];
      match e
      case Begins(_) => assert false;
      case Calls =>
        ExecAccount(w, w.todo[0]);
        ExecKeepsTodo(w, w.todo[0], w.todo);
        assert w.todo[1..] == calls[|calls| - |w.todo| + 1..];
      case _ => TurnsLeaveAccount(w, e);
    }
  }

  /** A command that makes any call at all is through with its last one. */
  lemma LastCall(worlds: seq<World>, events: seq<Event>, b: nat, m: nat)
    requires IsRun(worlds, events) && Through(worlds, events, b, m)
    requires PlanOf(worlds[b], events[b].command).calls != []
    ensures var calls := PlanOf(worlds[b], events[b].command).calls;
            b < m - 1 && events[m - 1] == Calls && worlds[m - 1].todo == [calls[|calls| - 1]]
  {
    hide Exec, PlanOf, Turned, CanTurn, EndFile, EndStoredKey;
    CommandAlong(worlds, events, b, m);
    if m - 1 > b {
      CommandAlong(worlds, events, b, m - 1);
      var w, e := worlds[m - 1], events[m - 1];
      match e
      case Begins(_) =>
      case Calls => assert |w.todo| == 1;
      case _ => TurnsLeaveAccount(w, e);
    }
  }

  /** An engine is started by a command that does nothing else. */
  predicate Tame(todo: seq<Call>) {
    forall i :: 0 <= i < |todo| && todo[i].EngineStarted? ==> |todo| == 1
  }

  lemma PlansAreTame(w: World, c: Command)
    ensures Tame(PlanOf(w, c).calls)
  {
  }

  lemma {:induction false} TameAlong(worlds: seq<World>, events: seq<Event>, n: nat)
    requires IsRun(worlds, events) && Tame(worlds[0].todo) && n < |worlds|
    ensures Tame(worlds[n].todo)
    decreases n
  {
    hide Exec, Turned, CanTurn, PlanOf;
    if n > 0 {
      TameAlong(worlds, events, n - 1);
      var w, e := worlds[n - 1], events[n - 1];
      match e
      case Begins(c) => PlansAreTame(w, c);
      case Calls =>
      case _ => TurnsLeaveAccount(w, e);
    }
  }

  // ---- No key in the engine of an OAuth account ----

  /** The running command leaves no key in the engine of an OAuth account. Between commands: none is in it. */
  predicate Keyless(w: World) {
    EndMode(w) == OAuth && w.engine.Some? ==> !KeyAtEnd(w.engine.value.key.Some?, w.todo)
  }

  /** The push of a key into a running engine is safe: the account is not an OAuth one, counting the
      command that is running, or that command takes the key out again. */
  predicate KeyPushIsSafe(w: World, e: Event) {
    e.TurnPushes? && CanTurn(w, e) && w.turns[e.id].KeyInHand? && w.turns[e.id].key.Some? && w.engine.Some? ==>
      EndMode(w) != OAuth || !KeyAtEnd(true, w.todo)
  }

  lemma CallKeepsKeyless(w: World)
    requires Keyless(w) && w.todo != [] && Tame(w.todo)
    ensures Keyless(Called(w))
  {
    ExecAccount(w, w.todo[0]);
    var r := Called(w);
    match w.todo[0]
    case EngineStarted(unreachable) => assert r.todo == [];
    case _ =>
  }

  lemma TurnKeepsKeylessIff(w: World, e: Event)
    requires Keyless(w) && CanTurn(w, e)
    ensures Keyless(Turned(w, e)) <==> KeyPushIsSafe(w, e)
  {
    TurnsLeaveAccount(w, e);
    if w.engine.Some? { TurnsPushKeys(w, e); }
    hide Turned, CanTurn, EndFile, KeyAtEnd;
  }

  /** The engine's key is changed by one turn alone. */
  lemma TurnsPushKeys(w: World, e: Event)
    requires CanTurn(w, e) && w.engine.Some?
    ensures var r := Turned(w, e);
            r.engine.Some? && r.engine.value.key ==
            if e.TurnPushes? && w.turns[e.id].KeyInHand? && w.turns[e.id].key.Some? then w.turns[e.id].key else w.engine.value.key
  {
    match e
    case TurnStores(id, written) =>
    case TurnPushes(id) =>
    case _ =>
  }

  /** What the accepted plans come to, read off their calls one at a time. */
  lemma EndStep(file: Option<AccountFile>, key: Option<Key>, held: bool, call: Call, rest: seq<Call>)
    ensures EndFile(file, [call] + rest) == EndFile(FileAfter(file, call), rest)
    ensures EndStoredKey(key, [call] + rest) == EndStoredKey(KeyAfter(key, call), rest)
    ensures KeyAtEnd(held, [call] + rest) ==
            KeyAtEnd(if call.KeyPushed? then call.engineKey.Some? else held && !call.EngineDown?, rest)
  {
    assert ([call] + rest)[1..] == rest;
  }

  lemma PastedEnd(w: World, url: Url, k: Key)
    ensures var calls := [KeyStored(k), FileStored(url), ModeStored(ApiKey), BearerPushed(None), KeyPushed(Some(k))];
            EndFile(w.file, calls) == Some(AccountFile(url, ApiKey)) && EndStoredKey(w.key, calls) == Some(k)
  {
    var last: seq<Call> := [KeyPushed(Some(k))];
    var file := FileAfter(w.file, FileStored(url));
    EndStep(w.file, w.key, false, KeyStored(k), [FileStored(url), ModeStored(ApiKey), BearerPushed(None)] + last);
    EndStep(w.file, Some(k), false, FileStored(url), [ModeStored(ApiKey), BearerPushed(None)] + last);
    EndStep(file, Some(k), false, ModeStored(ApiKey), [BearerPushed(None)] + last);
    EndStep(Some(AccountFile(url, ApiKey)), Some(k), false, BearerPushed(None), last);
    assert [KeyStored(k), FileStored(url), ModeStored(ApiKey), BearerPushed(None), KeyPushed(Some(k))]
        == [KeyStored(k)] + ([FileStored(url), ModeStored(ApiKey), BearerPushed(None)] + last);
    assert [FileStored(url), ModeStored(ApiKey), BearerPushed(None)] + last
        == [FileStored(url)] + ([ModeStored(ApiKey), BearerPushed(None)] + last);
    assert [ModeStored(ApiKey), BearerPushed(None)] + last == [ModeStored(ApiKey)] + ([BearerPushed(None)] + last);
  }

  /** Calls that leave mode and engine key alone. */
  predicate KeepsBoth(call: Call) {
    !call.FileRemoved? && !call.ModeStored? && !call.KeyPushed? && !call.EngineDown?
  }

  lemma {:induction false} BothKept(file: Option<AccountFile>, held: bool, todo: seq<Call>)
    requires forall i :: 0 <= i < |todo| ==> KeepsBoth(todo[i])
    ensures FileMode(EndFile(file, todo)) == FileMode(file) && KeyAtEnd(held, todo) == held
    decreases |todo|
  {
    if todo != [] {
      BothKept(FileAfter(file, todo[0]), held, todo[1..]);
    }
  }

  lemma {:induction false} NoKeyFromNone(todo: seq<Call>)
    requires forall i :: 0 <= i < |todo| ==> !todo[i].KeyPushed?
    ensures !KeyAtEnd(false, todo)
    decreases |todo|
  {
    if todo != [] {
      NoKeyFromNone(todo[1..]);
    }
  }

  lemma BeginKeepsKeyless(w: World, c: Command)
    requires Keyless(w) && w.todo == []
    ensures Keyless(Begun(w, c))
  {
    hide Keyless;
    match c
    case SaveAccount(url, pasted, allowed, store, modeFails) => SaveKeepsKeyless(w, url, pasted, allowed, store, modeFails);
    case SwitchGateway(url, allowed, toolsFail, halt, stages) => DownKeepsKeyless(w, c);
    case RoutingOff(halt) => DownKeepsKeyless(w, c);
    case SetAuthMode(oauth, modeFails) => ModeKeepsKeyless(w, c);
    case BeginLogin(login, _) => ModeKeepsKeyless(w, c);
    case ClearAccount(_, _) => ModeKeepsKeyless(w, c);
    case SignOut(_) => BothKeepKeyless(w, c);
    case ConnectTool(_, _, _) => BothKeepKeyless(w, c);
  }

  lemma BothKeepKeyless(w: World, c: Command)
    requires Keyless(w) && w.todo == []
    requires forall i :: 0 <= i < |PlanOf(w, c).calls| ==> KeepsBoth(PlanOf(w, c).calls[i])
    ensures Keyless(Begun(w, c))
  {
    hide PlanOf, KeepsBoth;
    BothKept(w.file, w.engine.Some? && w.engine.value.key.Some?, PlanOf(w, c).calls);
  }

  lemma SaveKeepsKeyless(w: World, url: Url, pasted: Option<Key>, allowed: bool, store: Store, modeFails: bool)
    requires Keyless(w) && w.todo == []
    ensures Keyless(Begun(w, SaveAccount(url, pasted, allowed, store, modeFails)))
  {
    hide EndFile, KeyAtEnd, Keyless;
    var c := SaveAccount(url, pasted, allowed, store, modeFails);
    if PlanOf(w, c).ok && pasted.Some? {
      PastedEnd(w, url, pasted.value);
      assert FileMode(EndFile(w.file, PlanOf(w, c).calls)) == ApiKey;
      ApiKeyIsKeyless(Begun(w, c));
    } else {
      BothKeepKeyless(w, c);
    }
  }

  lemma ApiKeyIsKeyless(w: World)
    requires EndMode(w) == ApiKey
    ensures Keyless(w)
  {
  }

  lemma DownKeepsKeyless(w: World, c: Command)
    requires Keyless(w) && w.todo == [] && (c.SwitchGateway? || c.RoutingOff?)
    ensures Keyless(Begun(w, c))
  {
    var calls := PlanOf(w, c).calls;
    if calls != [] {
      assert calls[0] == EngineDown && forall i :: 1 <= i < |calls| ==> !calls[i].KeyPushed?;
      NoKeyFromNone(calls[1..]);
    }
  }

  lemma ModeKeepsKeyless(w: World, c: Command)
    requires Keyless(w) && w.todo == [] && (c.SetAuthMode? || c.BeginLogin? || c.ClearAccount?)
    ensures Keyless(Begun(w, c))
  {
    hide EndFile, KeyAtEnd;
    var calls := PlanOf(w, c).calls;
    var held := w.engine.Some? && w.engine.value.key.Some?;
    if forall i :: 0 <= i < |calls| ==> KeepsBoth(calls[i]) {
      BothKeepKeyless(w, c);
    } else if c.SetAuthMode? {
      ModeEnds(w.file, held);
    } else if c.BeginLogin? {
      LoginEnds(w.file, held, c.login);
    } else {
      Cleared(w.file, calls);
    }
  }

  lemma ModeEnds(file: Option<AccountFile>, held: bool)
    ensures !KeyAtEnd(held, [ModeStored(OAuth), KeyPushed(None)])
    ensures FileMode(EndFile(file, [ModeStored(ApiKey)])) == ApiKey
  {
    EndPast(held, [ModeStored(OAuth)], [KeyPushed(None)]);
    assert [ModeStored(OAuth)] + [KeyPushed(None)] == [ModeStored(OAuth), KeyPushed(None)];
  }

  lemma LoginEnds(file: Option<AccountFile>, held: bool, login: Option<Token>)
    requires login.Some?
    ensures !KeyAtEnd(held, [SessionStored(login.value), GenerationBumped, EpochAdvanced,
                             ModeStored(OAuth), KeyPushed(None), BearerPushed(login)])
  {
    var front := [SessionStored(login.value), GenerationBumped, EpochAdvanced, ModeStored(OAuth)];
    var back := [KeyPushed(None), BearerPushed(login)];
    EndPast(held, front, back);
    NoKeyFromNone(back[1..]);
    assert front + back == [SessionStored(login.value), GenerationBumped, EpochAdvanced,
                            ModeStored(OAuth), KeyPushed(None), BearerPushed(login)];
  }

  lemma {:induction false} EndPast(held: bool, front: seq<Call>, back: seq<Call>)
    requires forall i :: 0 <= i < |front| ==> !front[i].KeyPushed? && !front[i].EngineDown?
    ensures KeyAtEnd(held, front + back) == KeyAtEnd(held, back)
    decreases |front|
  {
    if front == [] {
      assert front + back == back;
    } else {
      assert (front + back)[1..] == front[1..] + back;
      EndPast(held, front[1..], back);
    }
  }

  lemma Cleared(file: Option<AccountFile>, calls: seq<Call>)
    requires calls != [] && calls[0] == FileRemoved && forall i :: 1 <= i < |calls| ==> KeepsBoth(calls[i])
    ensures FileMode(EndFile(file, calls)) == ApiKey
  {
    BothKept(None, false, calls[1..]);
  }

  /** Over every run: the engine of an OAuth account is left without a key by every command, whatever of
      it fails, exactly when no turn of the loop pushes a key it loaded before the account went to OAuth. */
  lemma OAuthEngineHoldsNoKeyIff(worlds: seq<World>, events: seq<Event>)
    requires IsRun(worlds, events) && Starts(worlds[0]) && Keyless(worlds[0])
    ensures (forall n :: 0 <= n < |worlds| ==> Keyless(worlds[n]))
       <==> (forall n :: 0 <= n < |events| ==> KeyPushIsSafe(worlds[n], events[n]))
  {
    hide KeyPushIsSafe, Keyless, Step, CanHappen;
    if forall n :: 0 <= n < |worlds| ==> Keyless(worlds[n]) {
      forall n | 0 <= n < |events| ensures KeyPushIsSafe(worlds[n], events[n]) {
        KeylessStep(worlds, events, n);
      }
    }
    if forall n :: 0 <= n < |events| ==> KeyPushIsSafe(worlds[n], events[n]) {
      forall n | 0 <= n < |worlds| ensures Keyless(worlds[n]) {
        KeylessAlong(worlds, events, n);
      }
    }
  }

  lemma KeylessStep(worlds: seq<World>, events: seq<Event>, n: nat)
    requires IsRun(worlds, events) && n < |events| && Tame(worlds[0].todo) && Keyless(worlds[n])
    ensures Keyless(worlds[n + 1]) <==> KeyPushIsSafe(worlds[n], events[n])
  {
    hide Keyless, KeyPushIsSafe, Turned, CanTurn, PlanOf, Tame;
    var w, e := worlds[n], events[n];
    match e
    case Begins(c) =>
      BeginKeepsKeyless(w, c);
      OnlyTurnsPush(w, e);
    case Calls =>
      TameAlong(worlds, events, n);
      CallKeepsKeyless(w);
      OnlyTurnsPush(w, e);
    case _ => TurnKeepsKeylessIff(w, e);
  }

  lemma OnlyTurnsPush(w: World, e: Event)
    requires e.Begins? || e.Calls?
    ensures KeyPushIsSafe(w, e)
  {
  }

  lemma {:induction false} KeylessAlong(worlds: seq<World>, events: seq<Event>, n: nat)
    requires IsRun(worlds, events) && Starts(worlds[0]) && Keyless(worlds[0]) && n < |worlds|
    requires forall j :: 0 <= j < |events| ==> KeyPushIsSafe(worlds[j], events[j])
    ensures Keyless(worlds[n])
    decreases n
  {
    hide Keyless, KeyPushIsSafe, Step, CanHappen;
    if n > 0 {
      KeylessAlong(worlds, events, n - 1);
      KeylessStep(worlds, events, n - 1);
    }
  }

  /** The unsafe push can happen: from any idle world with an API-key account and its engine, a turn loads
      the key, a sign-in completes, and the turn pushes. What is left is an idle OAuth account whose engine
      holds the bearer and the old key. */
  lemma StaleKeyReachesOAuthEngine(w: World, id: nat, t: Token)
    requires w.todo == [] && id !in w.turns && w.engine.Some? && w.key.Some?
    requires w.file.Some? && w.file.value.mode == ApiKey
    ensures exists r :: Reaches(w, r) && r.todo == [] && r.turns == w.turns && ModeOf(r) == OAuth
                        && r.engine.Some? && r.engine.value.key == w.key
  {
    ReachesItself(w);
    hide Reaches;
    var begun := Step(w, TurnBegins(id, false));
    Happens(w, w, TurnBegins(id, false));
    var loaded := Step(begun, TurnLoads(id, false));
    Happens(w, begun, TurnLoads(id, false));
    assert loaded.turns[id] == KeyInHand(w.key);
    var c := BeginLogin(Some(t), false);
    Completes(w, loaded, c);
    LoginDone(loaded, t);
    var signedIn := Done(loaded, c);
    var pushed := Step(signedIn, TurnPushes(id));
    Happens(w, signedIn, TurnPushes(id));
    assert pushed.turns == w.turns;
  }

  lemma ExecAllStep(w: World, calls: seq<Call>, call: Call)
    ensures ExecAll(w, calls + [call]) == Exec(ExecAll(w, calls), call)
  {
    assert (calls + [call])[..|calls|] == calls;
  }

  lemma {:induction false} ExecAllConcat(w: World, a: seq<Call>, b: seq<Call>)
    ensures ExecAll(w, a + b) == ExecAll(ExecAll(w, a), b)
    decreases |b|
  {
    hide Exec;
    if b == [] {
      assert a + b == a;
    } else {
      var last := |b| - 1;
      assert (a + b)[..|a| + last] == a + b[..last];
      ExecAllConcat(w, a, b[..last]);
    }
  }

  lemma LoginDone(w: World, t: Token)
    requires w.todo == [] && w.file.Some? && w.engine.Some?
    ensures var r := Done(w, BeginLogin(Some(t), false));
            r == w.(session := Some(t), generation := w.generation + 1, epoch := w.epoch + 1,
                    file := Some(w.file.value.(mode := OAuth)),
                    engine := Some(w.engine.value.(key := None, bearer := Some(t))))
  {
    var calls := PlanOf(w, BeginLogin(Some(t), false)).calls;
    var a: seq<Call> := [SessionStored(t), GenerationBumped, EpochAdvanced];
    ExecThree(w, SessionStored(t), GenerationBumped, EpochAdvanced);
    var cleared := w.(session := Some(t), generation := w.generation + 1, epoch := w.epoch + 1);
    ExecAllStep(w, a, ModeStored(OAuth));
    ExecAllStep(w, a + [ModeStored(OAuth)], KeyPushed(None));
    ExecAllStep(w, a + [ModeStored(OAuth)] + [KeyPushed(None)], BearerPushed(Some(t)));
    hide ExecAll;
    assert calls == a + [ModeStored(OAuth)] + [KeyPushed(None)] + [BearerPushed(Some(t))];
  }

  lemma ExecThree(w: World, a: Call, b: Call, c: Call)
    ensures ExecAll(w, [a, b, c]) == Exec(Exec(Exec(w, a), b), c)
  {
    hide Exec;
    ExecAllStep(w, [], a);
    ExecAllStep(w, [a], b);
    ExecAllStep(w, [a, b], c);
    assert [] + [a] == [a] && [a] + [b] == [a, b] && [a, b] + [c] == [a, b, c];
  }

  // ---- The engine stays on the account's key ----

  /** The key the account gives an engine: none under OAuth. */
  function AccountKey(w: World): Option<Key> {
    if ModeOf(w) == OAuth then None else w.key
  }

  /** There is an account an engine could be started from, and an engine that is up injects its key. */
  predicate OnAccountKey(w: World, key: Option<Key>) {
    && w.file.Some? && AccountKey(w) == key && (ModeOf(w) == OAuth || key.Some?)
    && (w.engine.Some? ==> w.engine.value.key == key)
  }

  /** The call leaves the account's key, and the engine's, as they are. */
  predicate LeavesKey(w: World, call: Call) {
    && !call.FileRemoved? && FileMode(FileAfter(w.file, call)) == ModeOf(w) && KeyAfter(w.key, call) == w.key
    && (call.KeyPushed? ==> call.engineKey == AccountKey(w))
  }

  ghost predicate KeyIsLeft(worlds: seq<World>, events: seq<Event>) {
    && IsRun(worlds, events)
    && forall n :: 0 <= n < |events| && events[n] == Calls ==> LeavesKey(worlds[n], worlds[n].todo[0])
  }

  /** Whatever happens next, as long as no call changes the account's key: engines that are up, then or
      later, inject it. */
  ghost predicate StaysOnKey(w: World, key: Option<Key>) {
    forall worlds, events :: KeyIsLeft(worlds, events) && worlds[0] == w ==>
      forall n :: 0 <= n < |worlds| ==> OnAccountKey(worlds[n], key)
  }

  predicate HoldsStaleKey(turn: Turn, key: Option<Key>) {
    turn.KeyInHand? && turn.key.Some? && turn.key != key
  }

  predicate NoStaleKey(w: World, key: Option<Key>) {
    forall id <- w.turns :: !HoldsStaleKey(w.turns[id], key)
  }

  lemma TurnStaysOnKey(w: World, e: Event, key: Option<Key>)
    requires OnAccountKey(w, key) && NoStaleKey(w, key) && CanTurn(w, e)
    ensures OnAccountKey(Turned(w, e), key) && NoStaleKey(Turned(w, e), key)
  {
    TurnsLeaveAccount(w, e);
    if w.engine.Some? { TurnsPushKeys(w, e); }
    TurnsLoadTheKey(w, e, key);
    hide Turned, CanTurn;
  }

  lemma TurnsLoadTheKey(w: World, e: Event, key: Option<Key>)
    requires AccountKey(w) == key && NoStaleKey(w, key) && CanTurn(w, e)
    ensures NoStaleKey(Turned(w, e), key)
  {
    var r := Turned(w, e);
    assert forall id <- r.turns :: id == e.id || (id in w.turns && r.turns[id] == w.turns[id]);
  }

  lemma CallStaysOnKey(w: World, key: Option<Key>)
    requires OnAccountKey(w, key) && NoStaleKey(w, key) && w.todo != [] && LeavesKey(w, w.todo[0])
    ensures OnAccountKey(Called(w), key) && NoStaleKey(Called(w), key)
  {
    ExecAccount(w, w.todo[0]);
  }

  lemma {:induction false} KeyIsKept(worlds: seq<World>, events: seq<Event>, key: Option<Key>, n: nat)
    requires KeyIsLeft(worlds, events) && OnAccountKey(worlds[0], key) && NoStaleKey(worlds[0], key) && n < |worlds|
    ensures OnAccountKey(worlds[n], key) && NoStaleKey(worlds[n], key)
    decreases n
  {
    hide OnAccountKey, NoStaleKey, Called, Turned, CanTurn;
    if n > 0 {
      KeyIsKept(worlds, events, key, n - 1);
      var w, e := worlds[n - 1], events[n - 1];
      match e
      case Begins(c) => BeginLeavesKey(w, c, key);
      case Calls => CallStaysOnKey(w, key);
      case _ => TurnStaysOnKey(w, e, key);
    }
  }

  lemma BeginLeavesKey(w: World, c: Command, key: Option<Key>)
    requires OnAccountKey(w, key) && NoStaleKey(w, key)
    ensures OnAccountKey(Begun(w, c), key) && NoStaleKey(Begun(w, c), key)
  {
    hide PlanOf;
  }

  /** The push of a stale key, after an engine has been started for it if none is up. */
  lemma StaleKeyLands(w: World, id: nat, key: Option<Key>)
    requires w.todo == [] && OnAccountKey(w, key) && id in w.turns && HoldsStaleKey(w.turns[id], key)
    ensures !StaysOnKey(w, key)
  {
    if w.engine.Some? {
      var worlds, events := [w, Step(w, TurnPushes(id))], [TurnPushes(id)];
      assert KeyIsLeft(worlds, events);
      assert !OnAccountKey(worlds[1], key);
    } else {
      var begun := Step(w, Begins(ConnectTool(false, false, true)));
      assert begun.todo == [EngineStarted(true)];
      var started := Step(begun, Calls);
      assert started.engine.Some? && started.turns == w.turns;
      var worlds, events := [w, begun, started, Step(started, TurnPushes(id))],
                            [Begins(ConnectTool(false, false, true)), Calls, TurnPushes(id)];
      assert worlds[3].engine.value.key == w.turns[id].key;
      assert !OnAccountKey(worlds[3], key);
      ThreeEvents(worlds, events);
      assert LeavesKey(begun, EngineStarted(true));
      assert KeyIsLeft(worlds, events);
    }
  }

  lemma ThreeEvents(worlds: seq<World>, events: seq<Event>)
    requires |worlds| == 4 && |events| == 3
    requires CanHappen(worlds[0], events[0]) && worlds[1] == Step(worlds[0], events[0])
    requires CanHappen(worlds[1], events[1]) && worlds[2] == Step(worlds[1], events[1])
    requires CanHappen(worlds[2], events[2]) && worlds[3] == Step(worlds[2], events[2])
    ensures IsRun(worlds, events)
  {
    hide CanHappen, Step;
  }

  /** From any idle world whose engine is on the account's key (none, under OAuth): it stays there, in
      every run that leaves the account's key alone, exactly when no turn of the loop has another in hand. */
  lemma AccountKeyStaysIff(w: World, key: Option<Key>)
    requires w.todo == [] && OnAccountKey(w, key)
    ensures StaysOnKey(w, key) <==> NoStaleKey(w, key)
  {
    hide OnAccountKey, HoldsStaleKey;
    if NoStaleKey(w, key) {
      forall worlds, events, n | KeyIsLeft(worlds, events) && worlds[0] == w && 0 <= n < |worlds|
        ensures OnAccountKey(worlds[n], key)
      {
        KeyIsKept(worlds, events, key, n);
      }
    } else {
      var id :| id in w.turns && HoldsStaleKey(w.turns[id], key);
      StaleKeyLands(w, id, key);
    }
  }

  /** An accepted paste, whatever turns of the loop fall between its calls: it is through with the key
      stored, the account on it, and any engine that is up injecting it. */
  lemma PastedKeyTakesOver(worlds: seq<World>, events: seq<Event>, b: nat, m: nat, k: Key)
    requires IsRun(worlds, events) && Through(worlds, events, b, m)
    requires events[b].command.SaveAccount? && events[b].command.pasted == Some(k)
    requires PlanOf(worlds[b], events[b].command).ok
    ensures OnAccountKey(worlds[m], Some(k)) && worlds[m].file == Some(AccountFile(events[b].command.url, ApiKey))
  {
    hide EndFile, EndStoredKey;
    var w, c := worlds[b], events[b].command;
    assert PlanOf(w, c).calls == [KeyStored(k), FileStored(c.url), ModeStored(ApiKey), BearerPushed(None), KeyPushed(Some(k))];
    PastedEnd(w, c.url, k);
    CommandAlong(worlds, events, b, m);
    LastCall(worlds, events, b, m);
    EndsHere(worlds[m]);
  }

  lemma EndsHere(w: World)
    requires w.todo == []
    ensures EndFile(w.file, w.todo) == w.file && EndStoredKey(w.key, w.todo) == w.key
  {
  }

  /** What a save that is refused, or pastes no key, can have called: neither the mode nor the engine. */
  predicate OnlyStores(call: Call, pasted: Option<Key>) {
    call.FileStored? || (call.KeyStored? && pasted.Some?)
  }

  lemma RefusedPlan(w: World, c: Command)
    requires c.SaveAccount? && (!PlanOf(w, c).ok || c.pasted.None?)
    ensures forall call <- PlanOf(w, c).calls :: OnlyStores(call, c.pasted)
  {
  }

  lemma {:induction false} KeyUnstored(key: Option<Key>, todo: seq<Call>)
    requires forall call <- todo :: OnlyStores(call, None)
    ensures EndStoredKey(key, todo) == key
    decreases |todo|
  {
    if todo != [] {
      assert todo[0] in todo && forall call <- todo[1..] :: call in todo;
      KeyUnstored(key, todo[1..]);
    }
  }

  /** Whatever part of an account save fails, or with no key pasted, and whatever turns fall between its
      calls: it is through with the mode as it was, and no call of its own has touched an engine; with no
      key pasted, the stored one is as it was too. */
  lemma RefusedPasteChangesNothing(worlds: seq<World>, events: seq<Event>, b: nat, m: nat)
    requires IsRun(worlds, events) && Through(worlds, events, b, m) && events[b].command.SaveAccount?
    requires !PlanOf(worlds[b], events[b].command).ok || events[b].command.pasted.None?
    ensures ModeOf(worlds[m]) == ModeOf(worlds[b])
    ensures events[b].command.pasted.None? ==> worlds[m].key == worlds[b].key
    ensures forall n :: b < n < m && events[n] == Calls ==> worlds[n + 1].engine == worlds[n].engine
  {
    hide Turned, CanTurn, EndFile, EndStoredKey, PlanOf;
    var w, c := worlds[b], events[b].command;
    var calls := PlanOf(w, c).calls;
    RefusedPlan(w, c);
    assert forall i :: 0 <= i < |calls| ==> KeepsBoth(calls[i]) by {
      forall i | 0 <= i < |calls| ensures KeepsBoth(calls[i]) { assert calls[i] in calls; }
    }
    BothKept(w.file, false, calls);
    if c.pasted.None? { KeyUnstored(w.key, calls); }
    CommandAlong(worlds, events, b, m);
    EndsHere(worlds[m]);
    forall n | b < n < m && events[n] == Calls ensures worlds[n + 1].engine == worlds[n].engine {
      CommandAlong(worlds, events, b, n);
      assert worlds[n].todo[0] == calls[|calls| - |worlds[n].todo|];
      assert worlds[n].todo[0] in calls;
    }
  }

  /** A turn that loaded the key before a paste still has it in hand when the paste is through, from any
      idle world with an API-key account and its key. */
  lemma StaleKeyOutlivesPaste(w: World, id: nat, url: Url, k: Key)
    requires w.todo == [] && id !in w.turns && w.key.Some? && w.key.value != k
    requires w.file.Some? && w.file.value.mode == ApiKey
    ensures exists r :: Reaches(w, r) && r.todo == [] && OnAccountKey(r, Some(k)) && !NoStaleKey(r, Some(k))
  {
    ReachesItself(w);
    hide Reaches;
    var begun := Step(w, TurnBegins(id, false));
    Happens(w, w, TurnBegins(id, false));
    var loaded := Step(begun, TurnLoads(id, false));
    Happens(w, begun, TurnLoads(id, false));
    assert loaded.turns[id] == KeyInHand(w.key);
    var c := SaveAccount(url, Some(k), true, Stored, false);
    Completes(w, loaded, c);
    PasteDone(loaded, url, k);
    assert Done(loaded, c).turns == loaded.turns;
    assert HoldsStaleKey(Done(loaded, c).turns[id], Some(k));
  }

  lemma PasteDone(w: World, url: Url, k: Key)
    requires w.todo == []
    ensures Done(w, SaveAccount(url, Some(k), true, Stored, false)) ==
            EngineKey(EngineToken(w.(key := Some(k), file := Some(AccountFile(url, ApiKey))), None), Some(k))
  {
    var calls := PlanOf(w, SaveAccount(url, Some(k), true, Stored, false)).calls;
    var a: seq<Call> := [KeyStored(k), FileStored(url), ModeStored(ApiKey)];
    ExecThree(w, KeyStored(k), FileStored(url), ModeStored(ApiKey));
    ExecAllStep(w, a, BearerPushed(None));
    ExecAllStep(w, a + [BearerPushed(None)], KeyPushed(Some(k)));
    hide ExecAll;
    assert calls == a + [BearerPushed(None)] + [KeyPushed(Some(k))];
  }
}
