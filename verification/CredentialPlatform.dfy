/**
 The account commands as they run, on the platform's own variables. The loop's
 turns fall between their calls in `CredentialRuns`; here a command runs alone.
 */
module CredentialPlatform {
  import opened Options
  import opened Credentials
  import opened CredentialRuns

  class Platform {
    var file: Option<AccountFile>
    var key: Option<Key>
    var session: Option<Token>
    var generation: nat
    var epoch: nat
    var engine: Option<Engine>

    /** The world this began in, and the calls that have changed it since, in order. */
    ghost const start: World
    ghost var done: seq<Call>

    ghost function Now(): World
      reads this
    {
      World(file, key, session, generation, epoch, engine, map[], [])
    }

    ghost predicate Valid()
      reads this
    {
      Now() == ExecAll(start, done)
    }

    constructor (file: Option<AccountFile>, key: Option<Key>, session: Option<Token>)
      ensures Valid() && done == [] && Now() == World(file, key, session, 0, 0, None, map[], [])
    {
      this.file, this.key, this.session := file, key, session;
      generation, epoch, engine, done := 0, 0, None, [];
      start := World(file, key, session, 0, 0, None, map[], []);
    }

    // ---- The platform's calls ----

    method StoreKey(pasted: Key)
      requires Valid()
      modifies `key, `done
      ensures Valid() && done == old(done) + [KeyStored(pasted)]
    {
      ExecAllStep(start, done, KeyStored(pasted));
      key := Some(pasted);
      done := done + [KeyStored(pasted)];
    }

    method DeleteKey()
      requires Valid()
      modifies `key, `done
      ensures Valid() && done == old(done) + [KeyDeleted]
    {
      ExecAllStep(start, done, KeyDeleted);
      key := None;
      done := done + [KeyDeleted];
    }

    /** The file keeps its mode; a first one is an API-key account's. */
    method StoreFile(url: Url)
      requires Valid()
      modifies `file, `done
      ensures Valid() && done == old(done) + [FileStored(url)] && file.Some?
    {
      ExecAllStep(start, done, FileStored(url));
      if file.Some? {
        file := Some(file.value.(url := url));
      } else {
        file := Some(AccountFile(url, ApiKey));
      }
      done := done + [FileStored(url)];
    }

    method RemoveFile()
      requires Valid()
      modifies `file, `done
      ensures Valid() && done == old(done) + [FileRemoved]
    {
      ExecAllStep(start, done, FileRemoved);
      file := None;
      done := done + [FileRemoved];
    }

    method StoreMode(mode: Mode)
      requires Valid() && file.Some?
      modifies `file, `done
      ensures Valid() && done == old(done) + [ModeStored(mode)] && file.Some?
    {
      ExecAllStep(start, done, ModeStored(mode));
      file := Some(file.value.(mode := mode));
      done := done + [ModeStored(mode)];
    }

    /** `oauth::store`: the bundle, the generation, the epoch. */
    method StoreSession(token: Token)
      requires Valid()
      modifies `session, `generation, `epoch, `done
      ensures Valid() && done == old(done) + [SessionStored(token), GenerationBumped, EpochAdvanced]
    {
      ExecAllStep(start, done, SessionStored(token));
      session := Some(token);
      done := done + [SessionStored(token)];
      BumpGeneration();
      AdvanceEpoch();
    }

    /** `oauth::clear`. */
    method ClearSession()
      requires Valid()
      modifies `session, `generation, `epoch, `done
      ensures Valid() && done == old(done) + CLEAR
    {
      ExecAllStep(start, done, SessionDeleted);
      session := None;
      done := done + [SessionDeleted];
      BumpGeneration();
      AdvanceEpoch();
    }

    method BumpGeneration()
      requires Valid()
      modifies `generation, `done
      ensures Valid() && done == old(done) + [GenerationBumped]
    {
      ExecAllStep(start, done, GenerationBumped);
      generation := generation + 1;
      done := done + [GenerationBumped];
    }

    method AdvanceEpoch()
      requires Valid()
      modifies `epoch, `done
      ensures Valid() && done == old(done) + [EpochAdvanced]
    {
      ExecAllStep(start, done, EpochAdvanced);
      epoch := epoch + 1;
      done := done + [EpochAdvanced];
    }

    method RefreshEngineKey(pushed: Option<Key>)
      requires Valid()
      modifies `engine, `done
      ensures Valid() && done == old(done) + [KeyPushed(pushed)]
    {
      ExecAllStep(start, done, KeyPushed(pushed));
      if engine.Some? {
        engine := Some(engine.value.(key := pushed));
      }
      done := done + [KeyPushed(pushed)];
    }

    method RefreshEngineToken(pushed: Option<Token>)
      requires Valid()
      modifies `engine, `done
      ensures Valid() && done == old(done) + [BearerPushed(pushed)]
    {
      ExecAllStep(start, done, BearerPushed(pushed));
      if engine.Some? {
        engine := Some(engine.value.(bearer := pushed));
      }
      done := done + [BearerPushed(pushed)];
    }

    method ShutdownEngine(halt: Halt) returns (ok: bool)
      requires Valid()
      modifies `engine, `done
      ensures Valid() && ok == Off(halt).ok && done == old(done) + Off(halt).calls
    {
      ok := halt == Halted;
      if halt == HaltFailed(false) {
        assert done == done + Off(halt).calls;
        return;
      }
      ExecAllStep(start, done, EngineDown);
      engine := None;
      done := done + [EngineDown];
    }

    /** `enable_engine`: idempotent. */
    method EnableEngine(unreachable: bool)
      requires Valid()
      modifies `engine, `done
      ensures Valid() && done == old(done) + [EngineStarted(unreachable)]
    {
      ExecAllStep(start, done, EngineStarted(unreachable));
      if engine.None? && file.Some? {
        if file.value.mode == OAuth {
          engine := Some(Engine(file.value.url, None, if unreachable then None else session));
        } else {
          engine := Some(Engine(file.value.url, key, None));
        }
      }
      done := done + [EngineStarted(unreachable)];
    }

    // ---- The commands ----

    /** The calls of `c`, in its order and no others, and its answer. */
    twostate predicate Ran(c: Command, ok: bool)
      reads this
    {
      Valid() && done == old(done) + PlanOf(old(Now()), c).calls && ok == PlanOf(old(Now()), c).ok
    }

    /** So what a command leaves is what its plan comes to. */
    twostate lemma LeavesDone(c: Command, ok: bool)
      requires old(Valid()) && Ran(c, ok)
      ensures Now() == Done(old(Now()), c)
    {
      ExecAllConcat(start, old(done), PlanOf(old(Now()), c).calls);
    }

    method SaveAccountCommand(url: Url, pasted: Option<Key>, allowed: bool, store: Store, modeFails: bool)
      returns (ok: bool)
      requires Valid()
      modifies this
      ensures Ran(SaveAccount(url, pasted, allowed, store, modeFails), ok)
    {
      if !allowed || store == NothingStored || (pasted.None? && store == KeyStoredOnly) {
        assert done == done + [];
        return false;
      }
      if pasted.Some? {
        StoreKey(pasted.value);
        if store == KeyStoredOnly {
          return false;
        }
      }
      StoreFile(url);
      if pasted.Some? {
        if modeFails {
          return false;
        }
        StoreMode(ApiKey);
        RefreshEngineToken(None);
        RefreshEngineKey(pasted);
      }
      return true;
    }

    method SetAuthModeCommand(oauth: bool, modeFails: bool) returns (ok: bool)
      requires Valid()
      modifies this
      ensures Ran(SetAuthMode(oauth, modeFails), ok)
    {
      if modeFails || file.None? {
        assert done == done + [];
        return false;
      }
      StoreMode(if oauth then OAuth else ApiKey);
      if oauth {
        RefreshEngineKey(None);
      }
      return true;
    }

    method OAuthSignOut(clearFails: bool) returns (ok: bool)
      requires Valid()
      modifies this
      ensures Ran(SignOut(clearFails), ok)
    {
      if clearFails {
        assert done == done + [];
        return false;
      }
      ClearSession();
      RefreshEngineToken(None);
      return true;
    }

    method OAuthBeginLogin(login: Option<Token>, modeFails: bool) returns (ok: bool)
      requires Valid()
      modifies this
      ensures Ran(BeginLogin(login, modeFails), ok)
    {
      if login.None? {
        assert done == done + [];
        return false;
      }
      StoreSession(login.value);
      if modeFails || file.None? {
        return false;
      }
      StoreMode(OAuth);
      RefreshEngineKey(None);
      RefreshEngineToken(login);
      return true;
    }

    /** The core's `switch_gateway`. */
    method Repoint(url: Url, stages: nat) returns (ok: bool)
      requires Valid()
      modifies this
      ensures Valid() && done == old(done) + Repointed(url, stages).calls && ok == Repointed(url, stages).ok
    {
      if stages == 0 {
        assert done == done + [];
        return false;
      }
      StoreFile(url);
      if stages == 1 {
        return false;
      }
      DeleteKey();
      if stages == 2 {
        return false;
      }
      ClearSession();
      return stages >= 4;
    }

    method SwitchGatewayCommand(url: Url, allowed: bool, toolsFail: bool, halt: Halt, stages: nat) returns (ok: bool)
      requires Valid()
      modifies this
      ensures Ran(SwitchGateway(url, allowed, toolsFail, halt, stages), ok)
    {
      if !allowed || toolsFail {
        assert done == done + [];
        return false;
      }
      var down := ShutdownEngine(halt);
      if !down {
        return false;
      }
      ok := Repoint(url, stages);
    }

    method ConnectToolCommand(accountUnread: bool, startFails: bool, unreachable: bool) returns (ok: bool)
      requires Valid()
      modifies this
      ensures Ran(ConnectTool(accountUnread, startFails, unreachable), ok)
    {
      if accountUnread || file.None? || (file.value.mode == ApiKey && key.None?) || startFails {
        assert done == done + [];
        return false;
      }
      EnableEngine(unreachable);
      return true;
    }

    /** The core's `clear`, after the tools are out. */
    method ClearAccountCommand(toolsFail: bool, stages: nat) returns (ok: bool)
      requires Valid()
      modifies this
      ensures Ran(ClearAccount(toolsFail, stages), ok)
    {
      if toolsFail || stages == 0 {
        assert done == done + [];
        return false;
      }
      RemoveFile();
      if stages == 1 {
        return false;
      }
      DeleteKey();
      if stages == 2 {
        return false;
      }
      ClearSession();
      return stages > 3;
    }
  }
}
