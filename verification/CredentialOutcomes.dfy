/**
 What each command leaves once it is through, by what was asked of it and how far
 it got, with the turns of the refresh loop anywhere between its calls: the file
 and the stored key, the stored session, and the engine.
 */
module CredentialOutcomes {
  import opened Options
  import opened Credentials
  import opened CredentialRuns
  import opened CredentialSession
  import opened CredentialBearer
  import opened CredentialGateway

  // ---- The file and the key ----

  predicate TouchesAccount(call: Call) {
    call.FileStored? || call.FileRemoved? || call.ModeStored? || call.KeyStored? || call.KeyDeleted?
  }

  lemma {:induction false} OthersEnd(file: Option<AccountFile>, key: Option<Key>, calls: seq<Call>)
    requires forall call <- calls :: !TouchesAccount(call)
    ensures EndFile(file, calls) == file && EndStoredKey(key, calls) == key
    decreases |calls|
  {
    if calls != [] {
      assert calls[0] in calls;
      OthersEnd(file, key, calls[1..]);
    }
  }

  /** Where a command leads, its first call apart. */
  lemma FirstEnds(file: Option<AccountFile>, key: Option<Key>, calls: seq<Call>)
    requires calls != []
    ensures EndFile(file, calls) == EndFile(FileAfter(file, calls[0]), calls[1..])
    ensures EndStoredKey(key, calls) == EndStoredKey(KeyAfter(key, calls[0]), calls[1..])
  {
  }

  lemma AccountEnds(worlds: seq<World>, events: seq<Event>, b: nat, m: nat)
    requires IsRun(worlds, events) && Through(worlds, events, b, m)
    ensures var calls := PlanOf(worlds[b], events[b].command).calls;
            worlds[m].file == EndFile(worlds[b].file, calls) && worlds[m].key == EndStoredKey(worlds[b].key, calls)
  {
    hide PlanOf;
    CommandAlong(worlds, events, b, m);
  }

  // ---- The session ----

  /** A turn of the loop stores what it renewed. */
  predicate Lands(w: World, e: Event) {
    e.TurnStores? && CanTurn(w, e) && (e.written || w.generation == w.turns[e.id].basis)
  }

  lemma TurnSession(w: World, e: Event)
    requires CanTurn(w, e)
    ensures Turned(w, e).session == if Lands(w, e) then Some(w.turns[e.id].token) else w.session
  {
    match e
    case TurnPushes(id) => PushLeaves(w, id);
    case _ =>
  }

  predicate TouchesSession(call: Call) {
    call.SessionStored? || call.SessionDeleted?
  }

  /** A renewal has been stored since the command's own `call`. */
  ghost predicate LandedSince(worlds: seq<World>, events: seq<Event>, b: nat, m: nat, call: Call)
    requires m < |worlds| && m <= |events|
  {
    exists n :: b < n < m && call !in worlds[n].todo && Lands(worlds[n], events[n])
  }

  /** The session is what it was when the command began, unless a renewal was stored meanwhile. */
  ghost predicate SessionStays(worlds: seq<World>, events: seq<Event>, b: nat, m: nat)
    requires b < m < |worlds| && m <= |events|
  {
    (forall n :: b < n < m ==> !Lands(worlds[n], events[n])) ==> worlds[m].session == worlds[b].session
  }

  /** One step of a command that is running. */
  lemma SessionSteps(worlds: seq<World>, events: seq<Event>, b: nat, n: nat)
    requires IsRun(worlds, events) && b < n < |events| && events[b].Begins?
    requires forall j :: b < j <= n ==> worlds[j].todo != []
    ensures var calls, w, r, e := PlanOf(worlds[b], events[b].command).calls, worlds[n], worlds[n + 1], events[n];
            && (forall call <- w.todo :: call in calls)
            && !e.Begins?
            && (e == Calls ==> r.todo == w.todo[1..] && !Lands(w, e) &&
                               r.session == if w.todo[0].SessionStored? then Some(w.todo[0].session)
                                            else if w.todo[0].SessionDeleted? then None else w.session)
            && (e != Calls ==> r.todo == w.todo && (Lands(w, e) ==> r.session.Some?) && (!Lands(w, e) ==> r.session == w.session))
  {
    hide PlanOf, Turned, CanTurn, EndFile, EndStoredKey;
    CommandAlong(worlds, events, b, n);
    var w, e := worlds[n], events[n];
    match e
    case Begins(_) => assert false;
    case Calls =>
      OnlyMoves(w, w.todo[0]);
      ExecKeepsTodo(w, w.todo[0], w.todo);
    case _ =>
      TurnsLeaveAccount(w, e);
      TurnSession(w, e);
  }

  lemma {:induction false} SessionAlong(worlds: seq<World>, events: seq<Event>, b: nat, n: nat)
    requires IsRun(worlds, events) && b < n < |worlds| && events[b].Begins?
    requires forall j :: b < j < n ==> worlds[j].todo != []
    requires forall call <- PlanOf(worlds[b], events[b].command).calls :: !TouchesSession(call)
    ensures SessionStays(worlds, events, b, n)
    decreases n
  {
    hide PlanOf, Lands, Step, CanHappen;
    if n > b + 1 {
      SessionAlong(worlds, events, b, n - 1);
      SessionSteps(worlds, events, b, n - 1);
      assert worlds[n - 1].todo[0] in worlds[n - 1].todo;
    } else {
      BeginSession(worlds, events, b);
    }
  }

  lemma BeginSession(worlds: seq<World>, events: seq<Event>, b: nat)
    requires IsRun(worlds, events) && b < |events| && events[b].Begins?
    ensures worlds[b + 1].session == worlds[b].session && worlds[b + 1].todo == PlanOf(worlds[b], events[b].command).calls
  {
    hide PlanOf;
  }

  /** What is left to do once was to do before. */
  lemma {:induction false} StillToCome(worlds: seq<World>, events: seq<Event>, b: nat, k: nat, n: nat, call: Call)
    requires IsRun(worlds, events) && b < k <= n < |worlds| && events[b].Begins? && call in worlds[n].todo
    requires forall j :: b < j < n ==> worlds[j].todo != []
    ensures call in worlds[k].todo
    decreases n
  {
    hide PlanOf, Step, CanHappen, Lands;
    if k < n {
      SessionSteps(worlds, events, b, n - 1);
      StillToCome(worlds, events, b, k, n - 1, call);
    }
  }

  /** The one call of a command that stores or deletes the session decides it, until a renewal is stored. */
  lemma {:induction false} SessionAfter(worlds: seq<World>, events: seq<Event>, b: nat, n: nat, call: Call)
    requires IsRun(worlds, events) && b < n < |worlds| && events[b].Begins?
    requires forall j :: b < j < n ==> worlds[j].todo != []
    requires TouchesSession(call) && call in PlanOf(worlds[b], events[b].command).calls
    requires forall other <- PlanOf(worlds[b], events[b].command).calls :: TouchesSession(other) ==> other == call
    ensures call !in worlds[n].todo ==>
              if LandedSince(worlds, events, b, n, call) then worlds[n].session.Some?
              else worlds[n].session == if call.SessionStored? then Some(call.session) else None
    decreases n
  {
    hide PlanOf, Step, CanHappen, Lands;
    BeginSession(worlds, events, b);
    if n > b + 1 && call !in worlds[n].todo {
      SessionAfter(worlds, events, b, n - 1, call);
      SessionSteps(worlds, events, b, n - 1);
      if call in worlds[n - 1].todo {
        forall k | b < k < n ensures call in worlds[k].todo {
          StillToCome(worlds, events, b, k, n - 1, call);
        }
      } else {
        assert worlds[n - 1].todo[0] in worlds[n - 1].todo;
        assert LandedSince(worlds, events, b, n, call) <==>
               LandedSince(worlds, events, b, n - 1, call) || Lands(worlds[n - 1], events[n - 1]);
      }
    }
  }

  // ---- One lemma a command ----

  predicate SameAccount(w: World, r: World) {
    r.file == w.file && r.key == w.key
  }

  /** A command that makes no call leaves account and engine as they were. */
  lemma NothingDone(worlds: seq<World>, events: seq<Event>, b: nat, m: nat)
    requires IsRun(worlds, events) && Through(worlds, events, b, m) && PlanOf(worlds[b], events[b].command).calls == []
    ensures SameAccount(worlds[b], worlds[m]) && SameEngine(worlds[b], worlds[m]) && SessionStays(worlds, events, b, m)
  {
    AccountEnds(worlds, events, b, m);
    EngineAlong(worlds, events, b, m);
    SessionAlong(worlds, events, b, m);
    hide IsRun;
  }

  /** In every run, what `save_account` leaves: the engine up or down as it was, and the session alone. A save
      refused, or that never came to write, leaves the account alone; a key whose file could not follow is
      stored on its own; the file keeps its mode unless a pasted key has been put on record with it. */
  lemma SaveLeaves(worlds: seq<World>, events: seq<Event>, b: nat, m: nat)
    requires IsRun(worlds, events) && Through(worlds, events, b, m) && events[b].command.SaveAccount?
    ensures var c, w, r := events[b].command, worlds[b], worlds[m];
            && SameEngine(w, r) && SessionStays(worlds, events, b, m)
            && r.file == (if !c.allowed || c.store != Stored then w.file
                          else Some(AccountFile(c.url, if c.pasted.Some? && !c.modeFails then ApiKey else ModeOf(w))))
            && r.key == (if c.allowed && c.store != NothingStored && c.pasted.Some? then c.pasted else w.key)
            && (PlanOf(w, c).ok <==> c.allowed && c.store == Stored && !(c.pasted.Some? && c.modeFails))
  {
    var c, w := events[b].command, worlds[b];
    AccountEnds(worlds, events, b, m);
    SaveStartsNone(w, c);
    EngineAlong(worlds, events, b, m);
    SaveTouchesNoSession(w, c);
    SessionAlong(worlds, events, b, m);
    SaveEnds(w, c);
    hide IsRun, PlanOf;
    assert PlanOf(w, c).ok <==> c.allowed && c.store == Stored && !(c.pasted.Some? && c.modeFails) by { SaveReports(w, c); }
  }

  lemma SaveReports(w: World, c: Command)
    requires c.SaveAccount?
    ensures PlanOf(w, c).ok <==> c.allowed && c.store == Stored && !(c.pasted.Some? && c.modeFails)
  {
  }

  lemma SaveTouchesNoSession(w: World, c: Command)
    requires c.SaveAccount?
    ensures forall call <- PlanOf(w, c).calls :: !TouchesSession(call)
  {
  }

  lemma SaveEnds(w: World, c: Command)
    requires c.SaveAccount?
    ensures var calls := PlanOf(w, c).calls;
            && EndFile(w.file, calls) == (if !c.allowed || c.store != Stored then w.file
                          else Some(AccountFile(c.url, if c.pasted.Some? && !c.modeFails then ApiKey else ModeOf(w))))
            && EndStoredKey(w.key, calls) == (if c.allowed && c.store != NothingStored && c.pasted.Some? then c.pasted else w.key)
  {
    var calls := PlanOf(w, c).calls;
    if calls != [] {
      FirstEnds(w.file, w.key, calls);
      if |calls| == 5 {
        PastedEnd(w, c.url, c.pasted.value);
      } else if |calls| == 2 {
        assert calls[1..] == [FileStored(c.url)];
      }
    }
  }

  /** In every run, what a gateway switch leaves. Refused, or with a tool that would not come out: everything
      as it was. With an engine that would not halt for certain: that engine, if it is still up, and the
      account as it was. Halted: no engine; then, by how far the account got: the file on the new gateway in
      the mode it had, the old gateway's key gone, and its session gone too, exactly unless a renewal has
      been stored since it was deleted. It reports success only once all of that is done. */
  lemma SwitchLeaves(worlds: seq<World>, events: seq<Event>, b: nat, m: nat)
    requires IsRun(worlds, events) && Through(worlds, events, b, m) && events[b].command.SwitchGateway?
    ensures var c, w, r := events[b].command, worlds[b], worlds[m];
            if !c.allowed || c.toolsFail then SameAccount(w, r) && SameEngine(w, r) && SessionStays(worlds, events, b, m)
            else if c.halt != Halted then
              SameAccount(w, r) && (if c.halt.down then r.engine.None? else SameEngine(w, r)) && SessionStays(worlds, events, b, m)
            else
              && r.engine.None?
              && r.file == (if c.stages == 0 then w.file else Some(AccountFile(c.url, ModeOf(w))))
              && r.key == (if c.stages <= 1 then w.key else None)
              && (c.stages <= 2 ==> SessionStays(worlds, events, b, m))
              && (c.stages >= 3 ==> (r.session.None? <==> !LandedSince(worlds, events, b, m, SessionDeleted)))
    ensures var c := events[b].command;
            PlanOf(worlds[b], c).ok <==> c.allowed && !c.toolsFail && c.halt == Halted && c.stages >= 4
  {
    var c, w := events[b].command, worlds[b];
    if c.allowed && !c.toolsFail && c.halt == Halted {
      SwitchGoesDown(w, c);
      hide IsRun;
      AccountEnds(worlds, events, b, m);
      EngineDownAlong(worlds, events, b, m);
      SwitchEnds(w, c);
      SessionGoes(worlds, events, b, m, c.stages);
      assert PlanOf(w, c).ok <==> c.stages >= 4;
    } else if c.allowed && !c.toolsFail && c.halt.down {
      hide IsRun;
      AccountEnds(worlds, events, b, m);
      EngineDownAlong(worlds, events, b, m);
      SessionAlong(worlds, events, b, m);
    } else {
      hide IsRun;
      NothingDone(worlds, events, b, m);
    }
  }

  lemma SwitchEnds(w: World, c: Command)
    requires c.SwitchGateway? && c.allowed && !c.toolsFail && c.halt == Halted
    ensures var calls := PlanOf(w, c).calls;
            && EndFile(w.file, calls) == (if c.stages == 0 then w.file else Some(AccountFile(c.url, ModeOf(w))))
            && EndStoredKey(w.key, calls) == (if c.stages <= 1 then w.key else None)
            && (c.stages <= 2 ==> forall call <- calls :: !TouchesSession(call))
            && (c.stages >= 3 ==> SessionDeleted in calls && forall call <- calls :: TouchesSession(call) ==> call == SessionDeleted)
  {
    SwitchTouches(w, c);
    var calls := PlanOf(w, c).calls;
    assert calls == [EngineDown] + Repointed(c.url, c.stages).calls;
    hide PlanOf, Repointed;
    FirstEnds(w.file, w.key, calls);
    assert calls[1..] == Repointed(c.url, c.stages).calls;
    RepointEnds(w, c.url, c.stages);
    hide EndFile, EndStoredKey;
  }

  lemma RepointEnds(w: World, url: Url, stages: nat)
    ensures var calls := Repointed(url, stages).calls;
            && EndFile(w.file, calls) == (if stages == 0 then w.file else Some(AccountFile(url, ModeOf(w))))
            && EndStoredKey(w.key, calls) == (if stages <= 1 then w.key else None)
  {
    var calls, file := Repointed(url, stages).calls, FileAfter(w.file, FileStored(url));
    if stages >= 2 {
      FirstEnds(w.file, w.key, calls);
      FirstEnds(file, w.key, calls[1..]);
      OthersEnd(file, None, calls[2..]);
      assert calls[1..][1..] == calls[2..];
      hide EndFile, EndStoredKey;
    }
  }

  lemma SwitchTouches(w: World, c: Command)
    requires c.SwitchGateway? && c.allowed && !c.toolsFail && c.halt == Halted
    ensures var calls := PlanOf(w, c).calls;
            && (c.stages <= 2 ==> forall call <- calls :: !TouchesSession(call))
            && (c.stages >= 3 ==> SessionDeleted in calls && forall call <- calls :: TouchesSession(call) ==> call == SessionDeleted)
  {
    var calls := PlanOf(w, c).calls;
    assert c.stages >= 3 ==> calls[3] == SessionDeleted;
  }

  /** The session of a command that deletes it, at its third stage, and does not store it. */
  lemma SessionGoes(worlds: seq<World>, events: seq<Event>, b: nat, m: nat, stages: nat)
    requires IsRun(worlds, events) && Through(worlds, events, b, m)
    requires var calls := PlanOf(worlds[b], events[b].command).calls;
             && (stages <= 2 ==> forall call <- calls :: !TouchesSession(call))
             && (stages >= 3 ==> SessionDeleted in calls && forall call <- calls :: TouchesSession(call) ==> call == SessionDeleted)
    ensures stages <= 2 ==> SessionStays(worlds, events, b, m)
    ensures stages >= 3 ==> (worlds[m].session.None? <==> !LandedSince(worlds, events, b, m, SessionDeleted))
  {
    hide PlanOf, IsRun;
    if stages <= 2 {
      SessionAlong(worlds, events, b, m);
    } else {
      SessionAfter(worlds, events, b, m, SessionDeleted);
    }
  }

  /** In every run, what disconnecting the account leaves: the engine as it was, for its caller to take down;
      and, by how far it got, no file, no key, and no session exactly unless a renewal has been stored since
      it was deleted. With a tool that would not come out, everything as it was. */
  lemma ClearLeaves(worlds: seq<World>, events: seq<Event>, b: nat, m: nat)
    requires IsRun(worlds, events) && Through(worlds, events, b, m) && events[b].command.ClearAccount?
    ensures var c, w, r := events[b].command, worlds[b], worlds[m];
            && SameEngine(w, r)
            && (c.toolsFail ==> SameAccount(w, r) && SessionStays(worlds, events, b, m))
            && (!c.toolsFail ==>
                  && r.file == (if c.stages == 0 then w.file else None)
                  && r.key == (if c.stages <= 1 then w.key else None)
                  && (c.stages <= 2 ==> SessionStays(worlds, events, b, m))
                  && (c.stages >= 3 ==> (r.session.None? <==> !LandedSince(worlds, events, b, m, SessionDeleted))))
            && (PlanOf(w, c).ok <==> !c.toolsFail && c.stages > 3)
  {
    var c, w := events[b].command, worlds[b];
    if c.toolsFail {
      hide IsRun;
      NothingDone(worlds, events, b, m);
    } else {
      ClearEnds(w, c);
      hide IsRun;
      AccountEnds(worlds, events, b, m);
      EngineAlong(worlds, events, b, m);
      SessionGoes(worlds, events, b, m, c.stages);
    }
  }

  lemma ClearEnds(w: World, c: Command)
    requires c.ClearAccount? && !c.toolsFail
    ensures var calls := PlanOf(w, c).calls;
            && EndFile(w.file, calls) == (if c.stages == 0 then w.file else None)
            && EndStoredKey(w.key, calls) == (if c.stages <= 1 then w.key else None)
            && (c.stages <= 2 ==> forall call <- calls :: !TouchesSession(call))
            && (c.stages >= 3 ==> SessionDeleted in calls && forall call <- calls :: TouchesSession(call) ==> call == SessionDeleted)
            && forall call <- calls :: !call.EngineStarted? && !call.EngineDown?
  {
    ClearTouches(w, c);
    var calls := PlanOf(w, c).calls;
    if c.stages >= 1 {
      FirstEnds(w.file, w.key, calls);
      if c.stages >= 2 {
        FirstEnds(None, w.key, calls[1..]);
        OthersEnd(None, None, calls[2..]);
        assert calls[1..][1..] == calls[2..];
        hide EndFile, EndStoredKey;
      }
    }
  }

  lemma ClearTouches(w: World, c: Command)
    requires c.ClearAccount? && !c.toolsFail
    ensures var calls := PlanOf(w, c).calls;
            && (c.stages <= 2 ==> forall call <- calls :: !TouchesSession(call))
            && (c.stages >= 3 ==> SessionDeleted in calls && forall call <- calls :: TouchesSession(call) ==> call == SessionDeleted)
            && forall call <- calls :: !call.EngineStarted? && !call.EngineDown?
  {
    var calls := PlanOf(w, c).calls;
    assert c.stages >= 3 ==> calls[2] == SessionDeleted;
  }

  /** In every run, what `set_auth_mode` leaves: no key or session touched, the engine as it was; a mode recorded
      unless it cannot be, or no account is set up; and, switched to OAuth, no key in the engine just then. */
  lemma ModeLeaves(worlds: seq<World>, events: seq<Event>, b: nat, m: nat)
    requires IsRun(worlds, events) && Through(worlds, events, b, m) && events[b].command.SetAuthMode?
    ensures var c, w, r := events[b].command, worlds[b], worlds[m];
            && r.key == w.key && SameEngine(w, r) && SessionStays(worlds, events, b, m)
            && r.file == (if c.modeFails || w.file.None? then w.file
                          else Some(AccountFile(w.file.value.url, if c.oauth then OAuth else ApiKey)))
            && (!c.modeFails && w.file.Some? && c.oauth && r.engine.Some? ==> r.engine.value.key.None?)
            && (PlanOf(w, c).ok <==> !c.modeFails && w.file.Some?)
  {
    var c, w := events[b].command, worlds[b];
    if c.modeFails || w.file.None? {
      hide IsRun;
      NothingDone(worlds, events, b, m);
    } else {
      LastCall(worlds, events, b, m);
      var calls := PlanOf(w, c).calls;
      FirstEnds(w.file, w.key, calls);
      OthersEnd(Some(AccountFile(w.file.value.url, if c.oauth then OAuth else ApiKey)), w.key, calls[1..]);
      assert worlds[m] == Called(worlds[m - 1]);
      hide IsRun, EndFile, EndStoredKey;
      AccountEnds(worlds, events, b, m);
      EngineAlong(worlds, events, b, m);
      SessionAlong(worlds, events, b, m);
    }
  }

  /** In every run, what a sign-out leaves: the file, the key and the engine as they were; no session exactly
      unless a renewal has been stored since it was deleted; and no bearer in the engine just then. One that
      could not clear the session leaves everything. */
  lemma SignOutLeaves(worlds: seq<World>, events: seq<Event>, b: nat, m: nat)
    requires IsRun(worlds, events) && Through(worlds, events, b, m) && events[b].command.SignOut?
    ensures var c, w, r := events[b].command, worlds[b], worlds[m];
            && SameAccount(w, r) && SameEngine(w, r)
            && (c.clearFails ==> SessionStays(worlds, events, b, m))
            && (!c.clearFails ==> (r.session.None? <==> !LandedSince(worlds, events, b, m, SessionDeleted)))
            && (!c.clearFails && r.engine.Some? ==> r.engine.value.bearer.None?)
            && (PlanOf(w, c).ok <==> !c.clearFails)
  {
    var c, w := events[b].command, worlds[b];
    if c.clearFails {
      hide IsRun;
      NothingDone(worlds, events, b, m);
    } else {
      SignOutTakesTheBearer(worlds, events, b, m);
      var calls := PlanOf(w, c).calls;
      assert calls[0] == SessionDeleted;
      OthersEnd(w.file, w.key, calls);
      hide IsRun;
      AccountEnds(worlds, events, b, m);
      EngineAlong(worlds, events, b, m);
      SessionAfter(worlds, events, b, m, SessionDeleted);
    }
  }

  /** In every run, what a sign-in leaves. One that was refused, everything. One that came through: the session
      it got, unless a renewal has been stored since; the key as it was; and, with the mode on record, an
      OAuth account whose engine holds the sign-in's own token just then. */
  lemma LoginLeaves(worlds: seq<World>, events: seq<Event>, b: nat, m: nat)
    requires IsRun(worlds, events) && Through(worlds, events, b, m) && events[b].command.BeginLogin?
    ensures var c, w, r := events[b].command, worlds[b], worlds[m];
            && r.key == w.key && SameEngine(w, r)
            && r.file == (if c.login.None? || c.modeFails || w.file.None? then w.file else Some(AccountFile(w.file.value.url, OAuth)))
            && (c.login.None? ==> SessionStays(worlds, events, b, m))
            && (c.login.Some? ==> r.session.Some?)
            && (c.login.Some? ==> r.session == c.login || LandedSince(worlds, events, b, m, SessionStored(c.login.value)))
            && (c.login.Some? && !c.modeFails && w.file.Some? && r.engine.Some? ==> r.engine.value.bearer == c.login)
            && (PlanOf(w, c).ok <==> c.login.Some? && !c.modeFails && w.file.Some?)
  {
    var c, w := events[b].command, worlds[b];
    if c.login.None? {
      hide IsRun;
      NothingDone(worlds, events, b, m);
    } else {
      if !c.modeFails && w.file.Some? {
        LastCall(worlds, events, b, m);
        assert worlds[m] == Called(worlds[m - 1]);
      }
      LoginEnds(w, c);
      hide IsRun, EndFile, EndStoredKey;
      AccountEnds(worlds, events, b, m);
      EngineAlong(worlds, events, b, m);
      SessionAfter(worlds, events, b, m, SessionStored(c.login.value));
    }
  }

  lemma LoginEnds(w: World, c: Command)
    requires c.BeginLogin? && c.login.Some?
    ensures var calls := PlanOf(w, c).calls;
            && EndFile(w.file, calls) == (if c.modeFails || w.file.None? then w.file else Some(AccountFile(w.file.value.url, OAuth)))
            && EndStoredKey(w.key, calls) == w.key
            && SessionStored(c.login.value) in calls
            && (forall call <- calls :: TouchesSession(call) ==> call == SessionStored(c.login.value))
  {
    var calls := PlanOf(w, c).calls;
    assert calls[0] == SessionStored(c.login.value);
    if c.modeFails || w.file.None? {
      OthersEnd(w.file, w.key, calls);
    } else {
      FrontEnds(w.file, w.key, calls, 3);
      FirstEnds(w.file, w.key, calls[3..]);
      OthersEnd(Some(AccountFile(w.file.value.url, OAuth)), w.key, calls[4..]);
      assert calls[3..][1..] == calls[4..];
      hide EndFile, EndStoredKey;
    }
  }

  lemma {:induction false} FrontEnds(file: Option<AccountFile>, key: Option<Key>, calls: seq<Call>, n: nat)
    requires n <= |calls| && forall i :: 0 <= i < n ==> !TouchesAccount(calls[i])
    ensures EndFile(file, calls) == EndFile(file, calls[n..]) && EndStoredKey(key, calls) == EndStoredKey(key, calls[n..])
    decreases n
  {
    if n == 0 {
      assert calls[0..] == calls;
    } else {
      FirstEnds(file, key, calls);
      FrontEnds(file, key, calls[1..], n - 1);
      assert calls[1..][n - 1..] == calls[n..];
    }
  }

  /** The account loads: a file there, and, off OAuth, a key. */
  predicate CanLoad(w: World) {
    w.file.Some? && (w.file.value.mode == OAuth || w.key.Some?)
  }

  /** In every run, what connecting a tool leaves: the account and the session alone. An engine that is up stays;
      else one is started exactly if the account loads and nothing fails, for the account's gateway, with its
      key off OAuth and its session's token on it. After a gateway switch there is no key, so an API-key
      account is refused. */
  lemma ConnectLeaves(worlds: seq<World>, events: seq<Event>, b: nat, m: nat)
    requires IsRun(worlds, events) && Through(worlds, events, b, m) && events[b].command.ConnectTool?
    ensures var c, w, r := events[b].command, worlds[b], worlds[m];
            && SameAccount(w, r) && SessionStays(worlds, events, b, m)
            && (w.engine.Some? ==> SameEngine(w, r))
            && (w.engine.None? ==>
                  r.engine == if c.accountUnread || c.startFails || !CanLoad(w) then None
                              else if w.file.value.mode == ApiKey then Some(Engine(w.file.value.url, w.key, None))
                              else Some(Engine(w.file.value.url, None, if c.unreachable then None else r.session)))
            && (PlanOf(w, c).ok <==> !c.accountUnread && !c.startFails && CanLoad(w))
  {
    var c, w := events[b].command, worlds[b];
    if c.accountUnread || c.startFails || !CanLoad(w) {
      hide IsRun;
      NothingDone(worlds, events, b, m);
    } else {
      var calls := PlanOf(w, c).calls;
      OthersEnd(w.file, w.key, calls);
      LastCall(worlds, events, b, m);
      assert worlds[m] == Called(worlds[m - 1]);
      hide IsRun;
      NothingCalledYet(worlds, events, b, m - 1);
      AccountEnds(worlds, events, b, m);
      SessionAlong(worlds, events, b, m);
    }
  }

  /** In every run, what switching routing off leaves: the account and the session alone, and no engine, unless
      it would not halt. */
  lemma OffLeaves(worlds: seq<World>, events: seq<Event>, b: nat, m: nat)
    requires IsRun(worlds, events) && Through(worlds, events, b, m) && events[b].command.RoutingOff?
    ensures var c, w, r := events[b].command, worlds[b], worlds[m];
            && SameAccount(w, r) && SessionStays(worlds, events, b, m)
            && (if c.halt == HaltFailed(false) then SameEngine(w, r) else r.engine.None?)
            && (PlanOf(w, c).ok <==> c.halt == Halted)
  {
    var c, w := events[b].command, worlds[b];
    if c.halt == HaltFailed(false) {
      hide IsRun;
      NothingDone(worlds, events, b, m);
    } else {
      OthersEnd(w.file, w.key, PlanOf(w, c).calls);
      hide IsRun;
      AccountEnds(worlds, events, b, m);
      EngineDownAlong(worlds, events, b, m);
      SessionAlong(worlds, events, b, m);
    }
  }

  // ---- What a turn of the loop brings ----

  /** From any world with an OAuth account's engine up and a session stored: a turn that reads it usable, with
      nothing else happening meanwhile, brings the engine that session's token. */
  lemma RefreshReachesEngine(w: World, id: nat)
    requires id !in w.turns && w.engine.Some? && w.session.Some? && w.file.Some? && w.file.value.mode == OAuth
    ensures Reaches(w, w.(engine := Some(w.engine.value.(bearer := w.session))))
  {
    TurnHasRead(w, id, Usable);
    var read := w.(turns := w.turns[id := InHand(w.epoch, Live(w.session.value))]);
    hide Reaches;
    Happens(w, read, TurnPushes(id));
    assert w.turns[id := InHand(w.epoch, Live(w.session.value))] - {id} == w.turns;
    assert Step(read, TurnPushes(id)) == w.(engine := Some(w.engine.value.(bearer := w.session)));
  }

  /** One that reads it expired and has it renewed stores what it was granted and brings that. */
  lemma RenewalReachesEngine(w: World, id: nat, t: Token)
    requires id !in w.turns && w.engine.Some? && w.session.Some? && w.file.Some? && w.file.value.mode == OAuth
    ensures Reaches(w, w.(engine := Some(w.engine.value.(bearer := Some(t))), session := Some(t), generation := w.generation + 1))
  {
    TurnHasRead(w, id, Expired);
    hide Reaches;
    var minting := w.(turns := w.turns[id := Minting(w.epoch, w.generation)]);
    Happens(w, minting, TurnMints(id, Granted(t), true));
    var storing := w.(turns := w.turns[id := Storing(w.epoch, w.generation, t)]);
    assert Step(minting, TurnMints(id, Granted(t), true)) == storing by {
      assert minting.turns[id := Storing(w.epoch, w.generation, t)] == storing.turns;
    }
    Happens(w, storing, TurnStores(id, true));
    var stored := w.(session := Some(t), generation := w.generation + 1, turns := w.turns[id := InHand(w.epoch, Live(t))]);
    assert Step(storing, TurnStores(id, true)) == stored by {
      assert storing.turns[id := InHand(w.epoch, Live(t))] == stored.turns;
    }
    Happens(w, stored, TurnPushes(id));
    assert stored.turns - {id} == w.turns;
  }

  /** Off OAuth, or with the account's mode unread, a turn that loads the account pushes its key, if it has one to
      push, and takes the bearer out either way. */
  lemma KeyReachesEngine(w: World, id: nat, modeUnread: bool, unread: bool)
    requires id !in w.turns && w.engine.Some? && (modeUnread || ModeOf(w) == ApiKey)
    ensures var pushes := !unread && CanLoad(w) && w.file.value.mode == ApiKey;
            Reaches(w, w.(engine := Some(w.engine.value.(key := if pushes then w.key else w.engine.value.key, bearer := None))))
  {
    ReachesItself(w);
    hide Reaches;
    Happens(w, w, TurnBegins(id, modeUnread));
    var loading := w.(turns := w.turns[id := Loading]);
    Happens(w, loading, TurnLoads(id, unread));
    var found := if !unread && CanLoad(w) && w.file.value.mode == ApiKey then w.key else None;
    var inHand := w.(turns := w.turns[id := KeyInHand(found)]);
    assert Step(loading, TurnLoads(id, unread)) == inHand by {
      assert loading.turns[id := KeyInHand(found)] == inHand.turns;
    }
    Happens(w, inHand, TurnPushes(id));
    assert inHand.turns - {id} == w.turns;
  }

  /** What a turn came to, and nothing of it has happened since. */
  lemma {:induction false} InHandStays(worlds: seq<World>, events: seq<Event>, n: nat, m: nat, id: nat)
    requires IsRun(worlds, events) && n <= m < |worlds| && id in worlds[n].turns && worlds[n].turns[id].InHand?
    requires forall j :: n <= j < m ==> events[j] != TurnPushes(id)
    ensures id in worlds[m].turns && worlds[m].turns[id] == worlds[n].turns[id]
    decreases m
  {
    hide Exec, PlanOf;
    if n < m {
      InHandStays(worlds, events, n, m - 1, id);
      var w, e := worlds[m - 1], events[m - 1];
      match e
      case Begins(_) =>
      case Calls => ExecKeepsTodo(w, w.todo[0], w.todo);
      case _ => OthersStay(w, e, id);
    }
  }

  lemma OthersStay(w: World, e: Event, id: nat)
    requires CanTurn(w, e) && id in w.turns && w.turns[id].InHand? && e != TurnPushes(id)
    ensures id in Turned(w, e).turns && Turned(w, e).turns[id] == w.turns[id]
  {
    match e
    case TurnPushes(other) => PushKeepsOthers(w, other, id);
    case _ =>
  }

  lemma PushKeepsOthers(w: World, other: nat, id: nat)
    requires other in w.turns && (w.turns[other].KeyInHand? || w.turns[other].InHand?) && id in w.turns && id != other
    ensures id in Pushed(w, other).turns && Pushed(w, other).turns[id] == w.turns[id]
  {
  }

  /** The push of a reading taken under `epoch`: a token, or nobody signed in, is carried out if no sign-in or
      sign-out has landed since; what could not be read changes nothing. */
  predicate Brings(w: World, r: World, epoch: nat, reading: Reading) {
    w.engine.Some? ==>
      r.engine.Some? && r.engine.value.bearer ==
      if epoch != w.epoch || reading.Unavailable? then w.engine.value.bearer
      else if reading.Live? then Some(reading.token) else None
  }

  lemma InHandBrings(worlds: seq<World>, events: seq<Event>, n: nat, m: nat, id: nat, epoch: nat, reading: Reading)
    requires IsRun(worlds, events) && n <= m < |events| && id in worlds[n].turns && worlds[n].turns[id] == InHand(epoch, reading)
    requires events[m] == TurnPushes(id) && forall j :: n <= j < m ==> events[j] != TurnPushes(id)
    ensures Brings(worlds[m], worlds[m + 1], epoch, reading)
  {
    InHandStays(worlds, events, n, m, id);
    if worlds[m].engine.Some? { TurnsPushBearers(worlds[m], events[m]); }
    hide Turned, Exec, PlanOf;
    assert CanHappen(worlds[m], events[m]) && worlds[m + 1] == Step(worlds[m], events[m]);
  }

  /** In every run, what a turn reads of the stored session is what its push brings: nobody signed in where the gateway
      has refused the session or there is none; its token where it is usable; and nothing, so that the engine
      keeps the bearer it has, where it cannot be read. One that has expired is renewed first. */
  lemma ReadingIsBrought(worlds: seq<World>, events: seq<Event>, n: nat, m: nat)
    requires IsRun(worlds, events) && n < m < |events| && events[n].TurnReads? && events[m] == TurnPushes(events[n].id)
    requires forall j :: n < j < m ==> events[j] != events[m]
    requires events[n].bundle.Expired? ==> worlds[n].session.None?
    ensures events[n].id in worlds[n].turns && worlds[n].turns[events[n].id].Based?
    ensures var w, bundle := worlds[n], events[n].bundle;
            Brings(worlds[m], worlds[m + 1], w.turns[events[n].id].epoch,
                   if bundle == Unread then Unavailable
                   else if bundle == Rejected || w.session.None? then SignedOut
                   else Live(w.session.value))
  {
    var w, id, bundle := worlds[n], events[n].id, events[n].bundle;
    ReadsInHand(w, events[n]);
    hide CanHappen, Step, Brings;
    InHandBrings(worlds, events, n + 1, m, id, w.turns[id].epoch,
                 if bundle == Unread then Unavailable
                 else if bundle == Rejected || w.session.None? then SignedOut
                 else Live(w.session.value));
  }

  lemma ReadsInHand(w: World, e: Event)
    requires CanHappen(w, e) && e.TurnReads? && (e.bundle.Expired? ==> w.session.None?)
    ensures e.id in w.turns && w.turns[e.id].Based? && e.id in Step(w, e).turns
    ensures Step(w, e).turns[e.id] ==
            InHand(w.turns[e.id].epoch,
                   if e.bundle == Unread then Unavailable
                   else if e.bundle == Rejected || w.session.None? then SignedOut
                   else Live(w.session.value))
  {
  }

  /** And what the identity provider makes of a renewal: refused, nobody is signed in; unanswered, nothing is brought;
      granted after the session has changed, what is stored now is, if it is usable. */
  lemma RenewalIsBrought(worlds: seq<World>, events: seq<Event>, n: nat, m: nat)
    requires IsRun(worlds, events) && n < m < |events| && events[n].TurnMints? && events[m] == TurnPushes(events[n].id)
    requires forall j :: n < j < m ==> events[j] != events[m]
    requires events[n].id in worlds[n].turns && worlds[n].turns[events[n].id].Minting?
    requires events[n].grant.Granted? ==> worlds[n].generation != worlds[n].turns[events[n].id].basis
    ensures var w, grant := worlds[n], events[n].grant;
            Brings(worlds[m], worlds[m + 1], w.turns[events[n].id].epoch,
                   if grant.NoAnswer? then Unavailable
                   else if grant.Refused? || w.session.None? then SignedOut
                   else if events[n].usable then Live(w.session.value) else Unavailable)
  {
    var w, id, grant := worlds[n], events[n].id, events[n].grant;
    MintsInHand(w, events[n]);
    hide CanHappen, Step, Brings;
    InHandBrings(worlds, events, n + 1, m, id, w.turns[id].epoch,
                 if grant.NoAnswer? then Unavailable
                 else if grant.Refused? || w.session.None? then SignedOut
                 else if events[n].usable then Live(w.session.value) else Unavailable);
  }

  lemma MintsInHand(w: World, e: Event)
    requires CanHappen(w, e) && e.TurnMints? && e.id in w.turns && w.turns[e.id].Minting?
    requires e.grant.Granted? ==> w.generation != w.turns[e.id].basis
    ensures e.id in Step(w, e).turns
    ensures Step(w, e).turns[e.id] ==
            InHand(w.turns[e.id].epoch,
                   if e.grant.NoAnswer? then Unavailable
                   else if e.grant.Refused? || w.session.None? then SignedOut
                   else if e.usable then Live(w.session.value) else Unavailable)
  {
  }

  /** And one that finds nobody signed in, off OAuth or on it, takes the bearer out. */
  lemma TurnTakesTheBearer(w: World, e: Event)
    requires e.TurnPushes? && CanTurn(w, e)
    requires w.turns[e.id].KeyInHand? || w.turns[e.id] == InHand(w.epoch, SignedOut)
    ensures Step(w, e).engine.Some? ==> Step(w, e).engine.value.bearer.None?
  {
    if w.engine.Some? { TurnsPushBearers(w, e); }
    hide Turned;
    TurnsLeaveAccount(w, e);
  }
}
