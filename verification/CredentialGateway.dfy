/**
 The gateway a running engine was started for, against the account's, over
 every run and at every state of every command.
 */
module CredentialGateway {
  import opened Options
  import opened Credentials
  import opened CredentialRuns

  /** An engine that is up was started from the account as it is, as far as the gateway goes. */
  predicate Pinned(w: World) {
    w.engine.Some? && w.file.Some? ==> w.engine.value.url == w.file.value.url
  }

  /** A write of the account file under a running engine names that engine's gateway. */
  predicate WritesOwnUrl(w: World, e: Event) {
    e == Calls && w.todo != [] && w.todo[0].FileStored? && w.engine.Some? ==> w.engine.value.url == w.todo[0].url
  }

  lemma CallPins(w: World)
    requires w.todo != [] && Pinned(w)
    ensures Pinned(Called(w)) <==> WritesOwnUrl(w, Calls)
  {
  }

  lemma PinnedStep(worlds: seq<World>, events: seq<Event>, n: nat)
    requires IsRun(worlds, events) && n < |events| && Pinned(worlds[n])
    ensures Pinned(worlds[n + 1]) <==> WritesOwnUrl(worlds[n], events[n])
  {
    hide Called, Turned, CanTurn, PlanOf;
    var w, e := worlds[n], events[n];
    match e
    case Begins(c) =>
    case Calls => CallPins(w);
    case _ => TurnsLeaveAccount(w, e);
  }

  lemma {:induction false} PinnedAlong(worlds: seq<World>, events: seq<Event>, n: nat)
    requires IsRun(worlds, events) && Pinned(worlds[0]) && n < |worlds|
    requires forall j :: 0 <= j < n ==> WritesOwnUrl(worlds[j], events[j])
    ensures Pinned(worlds[n])
    decreases n
  {
    hide Pinned, WritesOwnUrl, CanHappen, Step;
    if n > 0 {
      PinnedAlong(worlds, events, n - 1);
      PinnedStep(worlds, events, n - 1);
    }
  }

  /** A run keeps its engine pinned, at every state of every command, exactly when no write of the account
      file under a running engine names another gateway. */
  lemma PinnedAlongIff(worlds: seq<World>, events: seq<Event>)
    requires IsRun(worlds, events) && Pinned(worlds[0])
    ensures (forall n :: 0 <= n < |worlds| ==> Pinned(worlds[n]))
       <==> (forall n :: 0 <= n < |events| ==> WritesOwnUrl(worlds[n], events[n]))
  {
    hide Pinned, WritesOwnUrl, CanHappen, Step;
    if forall n :: 0 <= n < |worlds| ==> Pinned(worlds[n]) {
      forall n | 0 <= n < |events| ensures WritesOwnUrl(worlds[n], events[n]) {
        PinnedStep(worlds, events, n);
      }
    }
    if forall n :: 0 <= n < |events| ==> WritesOwnUrl(worlds[n], events[n]) {
      forall n | 0 <= n < |worlds| ensures Pinned(worlds[n]) {
        PinnedAlong(worlds, events, n);
      }
    }
  }

  // ---- Which commands make such a write ----

  /** An account save under a running engine sends that engine's gateway, if it comes to write the file. */
  predicate Resends(w: World, c: Command) {
    c.SaveAccount? && w.engine.Some? && (exists call <- PlanOf(w, c).calls :: call.FileStored?) ==> c.url == w.engine.value.url
  }

  /** What is left of a command takes the engine down first, or writes the file for the engine that is up. */
  predicate DownOrOwn(w: World) {
    forall i :: 0 <= i < |w.todo| && w.todo[i].FileStored? && w.engine.Some? ==>
      w.todo[0] == EngineDown || w.todo[i].url == w.engine.value.url
  }

  lemma BeginIsDownOrOwn(w: World, c: Command)
    requires Resends(w, c)
    ensures DownOrOwn(Begun(w, c))
  {
    if !c.SaveAccount? && !c.SwitchGateway? {
      WritesNoFile(w, c);
    } else if c.SwitchGateway? {
      SwitchGoesDown(w, c);
    }
  }

  lemma WritesNoFile(w: World, c: Command)
    requires !c.SaveAccount? && !c.SwitchGateway?
    ensures forall call <- PlanOf(w, c).calls :: !call.FileStored?
  {
  }

  /** A switch makes no call at all, or takes the engine down first and starts none. */
  lemma SwitchGoesDown(w: World, c: Command)
    requires c.SwitchGateway?
    ensures var calls := PlanOf(w, c).calls;
            calls != [] ==> calls[0] == EngineDown && forall i :: 1 <= i < |calls| ==> !calls[i].EngineStarted? && !calls[i].EngineDown?
  {
  }

  lemma CallIsDownOrOwn(w: World)
    requires DownOrOwn(w) && Tame(w.todo) && w.todo != []
    ensures DownOrOwn(Called(w))
  {
    var r := Called(w);
    assert forall i :: 0 <= i < |r.todo| ==> r.todo[i] == w.todo[i + 1];
  }

  lemma {:induction false} DownOrOwnAlong(worlds: seq<World>, events: seq<Event>, n: nat)
    requires IsRun(worlds, events) && Starts(worlds[0]) && n < |worlds|
    requires forall j :: 0 <= j < |events| && events[j].Begins? ==> Resends(worlds[j], events[j].command)
    ensures DownOrOwn(worlds[n])
    decreases n
  {
    hide Called, Turned, CanTurn, PlanOf, Resends, Begun;
    if n > 0 {
      DownOrOwnAlong(worlds, events, n - 1);
      var w, e := worlds[n - 1], events[n - 1];
      match e
      case Begins(c) => BeginIsDownOrOwn(w, c);
      case Calls =>
        TameAlong(worlds, events, n - 1);
        CallIsDownOrOwn(w);
      case _ => TurnsLeaveAccount(w, e);
    }
  }

  /** Over every run whose account saves send the running engine's gateway, gateway switches included
      wherever they stop, every state has the engine pinned. */
  lemma EngineStaysPinned(worlds: seq<World>, events: seq<Event>, n: nat)
    requires IsRun(worlds, events) && Starts(worlds[0]) && Pinned(worlds[0]) && n < |worlds|
    requires forall j :: 0 <= j < |events| && events[j].Begins? ==> Resends(worlds[j], events[j].command)
    ensures Pinned(worlds[n])
  {
    hide Pinned, CanHappen, Step;
    forall j | 0 <= j < n ensures WritesOwnUrl(worlds[j], events[j]) {
      DownOrOwnAlong(worlds, events, j);
    }
    PinnedAlong(worlds, events, n);
  }

  // ---- The engine while a command runs ----

  /** The engine is up, or down, as it was, and for the gateway it was started for. */
  predicate SameEngine(w: World, r: World) {
    (r.engine.Some? <==> w.engine.Some?) && (r.engine.Some? ==> r.engine.value.url == w.engine.value.url)
  }

  lemma {:induction false} EngineAlong(worlds: seq<World>, events: seq<Event>, b: nat, n: nat)
    requires IsRun(worlds, events) && b < n < |worlds| && events[b].Begins?
    requires forall j :: b < j < n ==> worlds[j].todo != []
    requires forall call <- PlanOf(worlds[b], events[b].command).calls :: !call.EngineStarted? && !call.EngineDown?
    ensures SameEngine(worlds[b], worlds[n])
    decreases n
  {
    hide PlanOf, Turned, CanTurn, EndFile, EndStoredKey;
    if n > b + 1 {
      EngineAlong(worlds, events, b, n - 1);
      CommandAlong(worlds, events, b, n - 1);
      var w, e := worlds[n - 1], events[n - 1];
      match e
      case Begins(_) => assert false;
      case Calls => assert w.todo[0] in PlanOf(worlds[b], events[b].command).calls;
      case _ => TurnsLeaveAccount(w, e);
    }
  }

  /** Once a command's first call has taken the engine down, it stays down. */
  lemma {:induction false} EngineDownAlong(worlds: seq<World>, events: seq<Event>, b: nat, n: nat)
    requires IsRun(worlds, events) && b < n < |worlds| && events[b].Begins?
    requires forall j :: b < j < n ==> worlds[j].todo != []
    requires var calls := PlanOf(worlds[b], events[b].command).calls;
             calls != [] && calls[0] == EngineDown && forall call <- calls :: !call.EngineStarted?
    ensures |worlds[n].todo| < |PlanOf(worlds[b], events[b].command).calls| ==> worlds[n].engine.None?
    decreases n
  {
    hide PlanOf, Turned, CanTurn, EndFile, EndStoredKey;
    if n > b + 1 {
      EngineDownAlong(worlds, events, b, n - 1);
      CommandAlong(worlds, events, b, n - 1);
      var w, e := worlds[n - 1], events[n - 1];
      match e
      case Begins(_) => assert false;
      case Calls => assert w.todo[0] in PlanOf(worlds[b], events[b].command).calls;
      case _ => TurnsLeaveAccount(w, e);
    }
  }

  // ---- One switch, one save ----

  /** Between the first call of a switch and its end no engine is up. */
  lemma SwitchIsDown(worlds: seq<World>, events: seq<Event>, b: nat, n: nat)
    requires IsRun(worlds, events) && b < n < |worlds| && events[b].Begins? && events[b].command.SwitchGateway?
    requires forall j :: b < j < n ==> worlds[j].todo != []
    ensures worlds[n].engine.None? || worlds[n].todo == PlanOf(worlds[b], events[b].command).calls
  {
    hide PlanOf, EndFile, EndStoredKey;
    var calls := PlanOf(worlds[b], events[b].command).calls;
    SwitchGoesDown(worlds[b], events[b].command);
    CommandAlong(worlds, events, b, n);
    if calls != [] { EngineDownAlong(worlds, events, b, n); }
    assert calls[0..] == calls;
  }

  /** A gateway switch: at every state of it, wherever it stops, the engine is pinned; and once its account
      has moved, or it has succeeded, no engine is up. */
  lemma SwitchStaysPinned(worlds: seq<World>, events: seq<Event>, b: nat, n: nat)
    requires IsRun(worlds, events) && b < n < |worlds| && events[b].Begins? && events[b].command.SwitchGateway?
    requires forall j :: b < j < n ==> worlds[j].todo != []
    requires Pinned(worlds[b])
    ensures Pinned(worlds[n])
    ensures worlds[n].file != worlds[b].file ==> worlds[n].engine.None?
    ensures worlds[n].todo == [] && PlanOf(worlds[b], events[b].command).ok ==> worlds[n].engine.None?
    decreases n
  {
    hide Turned, CanTurn, EndFile, EndStoredKey;
    var calls := PlanOf(worlds[b], events[b].command).calls;
    SwitchIsDown(worlds, events, b, n);
    if worlds[n].engine.Some? {
      NothingCalledYet(worlds, events, b, n);
    }
  }

  /** While nothing of a command has been called, the account and the engine's gateway are as they were. */
  lemma {:induction false} NothingCalledYet(worlds: seq<World>, events: seq<Event>, b: nat, n: nat)
    requires IsRun(worlds, events) && b < n < |worlds| && events[b].Begins?
    requires forall j :: b < j < n ==> worlds[j].todo != []
    requires worlds[n].todo == PlanOf(worlds[b], events[b].command).calls
    ensures worlds[n].file == worlds[b].file && worlds[n].key == worlds[b].key && SameEngine(worlds[b], worlds[n])
    decreases n
  {
    hide PlanOf, EndFile, EndStoredKey, CanHappen, Step;
    var calls := PlanOf(worlds[b], events[b].command).calls;
    if n > b + 1 {
      CommandAlong(worlds, events, b, n - 1);
      NoCallShortens(worlds[n - 1], events[n - 1]);
      assert |worlds[n - 1].todo| == |calls|;
      assert calls[0..] == calls;
      NothingCalledYet(worlds, events, b, n - 1);
    } else {
      BeginLeaves(worlds[b], events[b]);
    }
  }

  lemma BeginLeaves(w: World, e: Event)
    requires CanHappen(w, e) && e.Begins?
    ensures var r := Step(w, e); r.file == w.file && r.key == w.key && r.engine == w.engine
  {
  }

  lemma NoCallShortens(w: World, e: Event)
    requires CanHappen(w, e) && w.todo != []
    ensures var r := Step(w, e);
            && |r.todo| <= |w.todo|
            && (|r.todo| == |w.todo| ==> r.todo == w.todo && r.file == w.file && r.key == w.key && SameEngine(w, r))
  {
    hide Turned, CanTurn, Exec;
    match e
    case Begins(_) =>
    case Calls =>
    case _ => TurnsLeaveAccount(w, e);
  }

  /** An account save leaves the engine pinned exactly when no engine is up, it never came to write the
      file, or it sent that engine's gateway. */
  lemma SavePinnedIff(worlds: seq<World>, events: seq<Event>, b: nat, m: nat)
    requires IsRun(worlds, events) && Through(worlds, events, b, m)
    requires events[b].command.SaveAccount? && Pinned(worlds[b])
    ensures Pinned(worlds[m]) <==>
            worlds[b].engine.None? || events[b].command.url == worlds[b].engine.value.url
            || !events[b].command.allowed || events[b].command.store != Stored
  {
    SaveWritesIff(worlds[b], events[b].command);
    hide Turned, CanTurn, PlanOf, EndFile, EndStoredKey;
    SaveStartsNone(worlds[b], events[b].command);
    EngineAlong(worlds, events, b, m);
    CommandAlong(worlds, events, b, m);
    EndsHere(worlds[m]);
    SaveWrites(worlds[b], events[b].command);
  }

  /** The exception can happen: from any idle world with an engine, saving another gateway's URL leaves the
      engine up against it. */
  lemma SaveUnpins(w: World, url: Url)
    requires w.todo == [] && w.engine.Some? && url != w.engine.value.url
    ensures exists r :: Reaches(w, r) && r.todo == [] && r.engine == w.engine && !Pinned(r)
  {
    ReachesItself(w);
    hide Reaches;
    var c := SaveAccount(url, None, true, Stored, false);
    Completes(w, w, c);
    ExecAllStep(w, [], FileStored(url));
    assert PlanOf(w, c).calls == [] + [FileStored(url)];
  }

  lemma SaveWritesIff(w: World, c: Command)
    requires c.SaveAccount?
    ensures (exists call <- PlanOf(w, c).calls :: call.FileStored?) <==> c.allowed && c.store == Stored
  {
    var calls := PlanOf(w, c).calls;
    if c.allowed && c.store == Stored {
      assert calls[if c.pasted.None? then 0 else 1] == FileStored(c.url);
    }
  }

  lemma SaveWrites(w: World, c: Command)
    requires c.SaveAccount?
    ensures var calls := PlanOf(w, c).calls;
            if exists call <- calls :: call.FileStored?
            then EndFile(w.file, calls).Some? && EndFile(w.file, calls).value.url == c.url
            else EndFile(w.file, calls) == w.file
  {
    var calls := PlanOf(w, c).calls;
    if PlanOf(w, c).ok && c.pasted.Some? {
      assert calls[1] == FileStored(c.url);
      PastedEnd(w, c.url, c.pasted.value);
    } else if |calls| == 2 {
      assert calls[1] == FileStored(c.url) && calls[1..] == [FileStored(c.url)];
      EndStep(w.file, None, false, calls[0], calls[1..]);
      assert [calls[0]] + calls[1..] == calls;
    } else if |calls| == 1 && c.pasted.None? {
      assert calls[0] == FileStored(c.url);
    }
  }

  lemma SaveStartsNone(w: World, c: Command)
    requires c.SaveAccount?
    ensures forall call <- PlanOf(w, c).calls :: !call.EngineStarted? && !call.EngineDown?
  {
  }
}
