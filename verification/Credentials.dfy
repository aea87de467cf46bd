/**
 The credential a running engine holds, against the account's
 (`src-tauri/src/commands.rs`, on `crates/core/src/account.rs`,
 `crates/core/src/oauth.rs` and the token-refresh loop of `src-tauri/src/lib.rs`).

 A command is a list of platform calls, any of which may fail. Beside it run the
 turns of the refresh loop, each a chain of reads and writes with nothing held
 across them, so a turn's next step can fall between any two calls of a command.
 */
module Credentials {
  import opened Options

  type Url = nat
  type Key = nat
  type Token = nat

  datatype Mode = ApiKey | OAuth

  datatype AccountFile = AccountFile(url: Url, mode: Mode)

  /** A running engine: the gateway it was started for, and what it injects (`None` is `""`). */
  datatype Engine = Engine(url: Url, key: Option<Key>, bearer: Option<Token>)

  /** `SessionReading`. */
  datatype Reading = Live(token: Token) | SignedOut | Unavailable

  /** How far a turn of the loop has come. Off OAuth it loads the account, then pushes the key it found,
      if any. On OAuth it notes the sign-in epoch, then the session generation, then reads the stored
      bundle; an expired one it has renewed, checks the generation, stores the new one; then it pushes. */
  datatype Turn =
    | Loading
    | KeyInHand(key: Option<Key>)
    | Reading
    | Noted(epoch: nat)
    | Based(epoch: nat, basis: nat)
    | Minting(epoch: nat, basis: nat)
    | Storing(epoch: nat, basis: nat, token: Token)
    | InHand(epoch: nat, reading: Reading)

  /** One call of a command on the platform. */
  datatype Call =
    | KeyStored(pasted: Key)
    | KeyDeleted
    | FileStored(url: Url)
    | FileRemoved
    | ModeStored(mode: Mode)
    | SessionStored(session: Token)
    | SessionDeleted
    | GenerationBumped
    | EpochAdvanced
    | KeyPushed(engineKey: Option<Key>)
    | BearerPushed(engineBearer: Option<Token>)
    | EngineDown
    | EngineStarted(unreachable: bool)

  /** `session` is the stored OAuth bundle, and `todo` what is left of the command that is running. */
  datatype World = World(
    file: Option<AccountFile>,
    key: Option<Key>,
    session: Option<Token>,
    generation: nat,
    epoch: nat,
    engine: Option<Engine>,
    turns: map<nat, Turn>,
    todo: seq<Call>)

  /** The key is written before the file that witnesses it. */
  datatype Store = Stored | NothingStored | KeyStoredOnly

  /** A shutdown that reports an error may have taken the engine down all the same. */
  datatype Halt = Halted | HaltFailed(down: bool)

  datatype Command =
    | SaveAccount(url: Url, pasted: Option<Key>, allowed: bool, store: Store, modeFails: bool)
    | SwitchGateway(url: Url, allowed: bool, toolsFail: bool, halt: Halt, stages: nat)
    | SetAuthMode(oauth: bool, modeFails: bool)
    | SignOut(clearFails: bool)
    | BeginLogin(login: Option<Token>, modeFails: bool)
    | ConnectTool(accountUnread: bool, startFails: bool, unreachable: bool)
    | RoutingOff(halt: Halt)
    | ClearAccount(toolsFail: bool, stages: nat)

  /** How the stored bundle reads: usable, past its expiry, unreadable, or refused by the gateway before. */
  datatype Bundle = Usable | Expired | Unread | Rejected

  /** How the identity provider answers a renewal. */
  datatype Grant = Granted(token: Token) | Refused | NoAnswer

  datatype Event =
    | Begins(command: Command)
    | Calls
    | TurnBegins(id: nat, unread: bool)
    | TurnLoads(id: nat, unread: bool)
    | TurnNotes(id: nat)
    | TurnBases(id: nat)
    | TurnReads(id: nat, bundle: Bundle)
    | TurnMints(id: nat, grant: Grant, usable: bool)
    | TurnStores(id: nat, written: bool)
    | TurnPushes(id: nat)

  // ---- Calls ----

  function ModeOf(w: World): Mode {
    if w.file.Some? then w.file.value.mode else ApiKey
  }

  /** The refreshes are no-ops when routing is off. */
  function EngineKey(w: World, key: Option<Key>): World {
    if w.engine.None? then w else w.(engine := Some(w.engine.value.(key := key)))
  }

  function EngineToken(w: World, token: Option<Token>): World {
    if w.engine.None? then w else w.(engine := Some(w.engine.value.(bearer := token)))
  }

  /** `enable`: idempotent while one runs; a new one is started from the account as it is. An OAuth
      account holds no key, and an API-key account injects no bearer. */
  function Started(w: World, unreachable: bool): World {
    if w.engine.Some? || w.file.None? then w
    else if ModeOf(w) == OAuth
    then w.(engine := Some(Engine(w.file.value.url, None, if unreachable then None else w.session)))
    else w.(engine := Some(Engine(w.file.value.url, w.key, None)))
  }

  function Exec(w: World, call: Call): World {
    match call
    case KeyStored(pasted) => w.(key := Some(pasted))
    case KeyDeleted => w.(key := None)
    case FileStored(url) => w.(file := Some(AccountFile(url, ModeOf(w))))
    case FileRemoved => w.(file := None)
    case ModeStored(mode) => if w.file.Some? then w.(file := Some(w.file.value.(mode := mode))) else w
    case SessionStored(session) => w.(session := Some(session))
    case SessionDeleted => w.(session := None)
    case GenerationBumped => w.(generation := w.generation + 1)
    case EpochAdvanced => w.(epoch := w.epoch + 1)
    case KeyPushed(key) => EngineKey(w, key)
    case BearerPushed(token) => EngineToken(w, token)
    case EngineDown => w.(engine := None)
    case EngineStarted(unreachable) => Started(w, unreachable)
  }

  // ---- Commands ----

  /** The calls a command makes, up to the first that fails, and whether it reports success. */
  datatype Plan = Plan(calls: seq<Call>, ok: bool)

  /** `oauth::clear`: the bundle, then the generation, then the epoch. */
  const CLEAR: seq<Call> := [SessionDeleted, GenerationBumped, EpochAdvanced]

  /** `save_account`. */
  function Save(url: Url, pasted: Option<Key>, allowed: bool, store: Store, modeFails: bool): Plan {
    if !allowed || store == NothingStored then Plan([], false)
    else if pasted.None? then if store == KeyStoredOnly then Plan([], false) else Plan([FileStored(url)], true)
    else if store == KeyStoredOnly then Plan([KeyStored(pasted.value)], false)
    else if modeFails then Plan([KeyStored(pasted.value), FileStored(url)], false)
    else Plan([KeyStored(pasted.value), FileStored(url), ModeStored(ApiKey), BearerPushed(None), KeyPushed(pasted)], true)
  }

  /** The core's `switch_gateway`, of which `stages` land: URL, key, session, the file once more. */
  function Repointed(url: Url, stages: nat): Plan {
    if stages == 0 then Plan([], false)
    else if stages == 1 then Plan([FileStored(url)], false)
    else if stages == 2 then Plan([FileStored(url), KeyDeleted], false)
    else Plan([FileStored(url), KeyDeleted] + CLEAR, stages >= 4)
  }

  /** `switch_gateway`: tools out, engine down, then the account. */
  function Switch(url: Url, allowed: bool, toolsFail: bool, halt: Halt, stages: nat): Plan {
    if !allowed || toolsFail then Plan([], false)
    else if halt != Halted then Plan(if halt.down then [EngineDown] else [], false)
    else Plan([EngineDown] + Repointed(url, stages).calls, Repointed(url, stages).ok)
  }

  function SetMode(w: World, oauth: bool, modeFails: bool): Plan {
    if modeFails || w.file.None? then Plan([], false)
    else if oauth then Plan([ModeStored(OAuth), KeyPushed(None)], true)
    else Plan([ModeStored(ApiKey)], true)
  }

  function Leave(clearFails: bool): Plan {
    if clearFails then Plan([], false) else Plan(CLEAR + [BearerPushed(None)], true)
  }

  /** `oauth_begin_login`; `login` is `None` when it is not configured, refused or given up. */
  function Login(w: World, login: Option<Token>, modeFails: bool): Plan {
    if login.None? then Plan([], false)
    else if modeFails || w.file.None? then Plan([SessionStored(login.value), GenerationBumped, EpochAdvanced], false)
    else Plan([SessionStored(login.value), GenerationBumped, EpochAdvanced,
               ModeStored(OAuth), KeyPushed(None), BearerPushed(login)], true)
  }

  /** `connect_tool`, as far as the engine: an account must load, which in API-key mode takes a key. */
  function Connect(w: World, accountUnread: bool, startFails: bool, unreachable: bool): Plan {
    if accountUnread || startFails || w.file.None? || (ModeOf(w) == ApiKey && w.key.None?) then Plan([], false)
    else Plan([EngineStarted(unreachable)], true)
  }

  function Off(halt: Halt): Plan {
    Plan(if halt == HaltFailed(false) then [] else [EngineDown], halt == Halted)
  }

  /** The core's `clear`: file, key, session. The engine is the caller's business. */
  function Clear(toolsFail: bool, stages: nat): Plan {
    if toolsFail || stages == 0 then Plan([], false)
    else if stages == 1 then Plan([FileRemoved], false)
    else if stages == 2 then Plan([FileRemoved, KeyDeleted], false)
    else Plan([FileRemoved, KeyDeleted] + CLEAR, stages > 3)
  }

  /** What a command does to the account and the engine: nothing but a command changes the file or the
      stored key, so its plan can be read off the world it begins in. */
  function PlanOf(w: World, c: Command): Plan {
    match c
    case SaveAccount(url, pasted, allowed, store, modeFails) => Save(url, pasted, allowed, store, modeFails)
    case SwitchGateway(url, allowed, toolsFail, halt, stages) => Switch(url, allowed, toolsFail, halt, stages)
    case SetAuthMode(oauth, modeFails) => SetMode(w, oauth, modeFails)
    case SignOut(clearFails) => Leave(clearFails)
    case BeginLogin(login, modeFails) => Login(w, login, modeFails)
    case ConnectTool(accountUnread, startFails, unreachable) => Connect(w, accountUnread, startFails, unreachable)
    case RoutingOff(halt) => Off(halt)
    case ClearAccount(toolsFail, stages) => Clear(toolsFail, stages)
  }

  // ---- Turns of the refresh loop ----

  predicate CanTurn(w: World, e: Event) {
    match e
    case Begins(_) => false
    case Calls => false
    case TurnBegins(id, _) => id !in w.turns
    case TurnLoads(id, _) => id in w.turns && w.turns[id].Loading?
    case TurnNotes(id) => id in w.turns && w.turns[id].Reading?
    case TurnBases(id) => id in w.turns && w.turns[id].Noted?
    case TurnReads(id, _) => id in w.turns && w.turns[id].Based?
    case TurnMints(id, _, _) => id in w.turns && w.turns[id].Minting?
    case TurnStores(id, _) => id in w.turns && w.turns[id].Storing?
    case TurnPushes(id) => id in w.turns && (w.turns[id].KeyInHand? || w.turns[id].InHand?)
  }

  /** Off OAuth: a key actually read from an API-key account, or nothing but a bearer to clear. */
  function Loaded(w: World, unread: bool): Turn {
    KeyInHand(if unread || w.file.None? || ModeOf(w) == OAuth then None else w.key)
  }

  function BundleRead(w: World, turn: Turn, bundle: Bundle): Turn
    requires turn.Based?
  {
    if bundle == Rejected then InHand(turn.epoch, SignedOut)
    else if bundle == Unread then InHand(turn.epoch, Unavailable)
    else if w.session.None? then InHand(turn.epoch, SignedOut)
    else if bundle == Usable then InHand(turn.epoch, Live(w.session.value))
    else Minting(turn.epoch, turn.basis)
  }

  /** A renewal answered. What it renewed is stored only if the generation has not moved; otherwise what
      is stored now is the answer, if it is `usable`. */
  function Minted(w: World, turn: Turn, grant: Grant, usable: bool): Turn
    requires turn.Minting?
  {
    match grant
    case Refused => InHand(turn.epoch, SignedOut)
    case NoAnswer => InHand(turn.epoch, Unavailable)
    case Granted(token) =>
      if w.generation == turn.basis then Storing(turn.epoch, turn.basis, token)
      else if w.session.None? then InHand(turn.epoch, SignedOut)
      else InHand(turn.epoch, if usable then Live(w.session.value) else Unavailable)
  }

  /** The renewed bundle is written, whatever has happened since the check; one the store refuses is
      kept in memory instead, if the generation still has not moved. */
  function Renewed(w: World, id: nat, written: bool): World
    requires id in w.turns && w.turns[id].Storing?
  {
    var turn := w.turns[id];
    if written || w.generation == turn.basis
    then w.(session := Some(turn.token), generation := w.generation + 1,
            turns := w.turns[id := InHand(turn.epoch, Live(turn.token))])
    else w.(turns := w.turns[id := InHand(turn.epoch, Unavailable)])
  }

  /** The push of a key asks nothing; that of a token is dropped when a sign-in or a sign-out has landed
      since the epoch was noted. */
  function Pushed(w: World, id: nat): World
    requires id in w.turns && (w.turns[id].KeyInHand? || w.turns[id].InHand?)
  {
    var rest := w.(turns := w.turns - {id});
    match w.turns[id]
    case KeyInHand(None) => EngineToken(rest, None)
    case KeyInHand(Some(k)) => EngineToken(EngineKey(rest, Some(k)), None)
    case InHand(epoch, reading) =>
      if epoch != w.epoch || reading.Unavailable? then rest
      else EngineToken(rest, if reading.Live? then Some(reading.token) else None)
  }

  function Turned(w: World, e: Event): World
    requires CanTurn(w, e)
  {
    match e
    case TurnBegins(id, unread) => w.(turns := w.turns[id := if unread || ModeOf(w) != OAuth then Loading else Reading])
    case TurnLoads(id, unread) => w.(turns := w.turns[id := Loaded(w, unread)])
    case TurnNotes(id) => w.(turns := w.turns[id := Noted(w.epoch)])
    case TurnBases(id) => w.(turns := w.turns[id := Based(w.turns[id].epoch, w.generation)])
    case TurnReads(id, bundle) => w.(turns := w.turns[id := BundleRead(w, w.turns[id], bundle)])
    case TurnMints(id, grant, usable) => w.(turns := w.turns[id := Minted(w, w.turns[id], grant, usable)])
    case TurnStores(id, written) => Renewed(w, id, written)
    case TurnPushes(id) => Pushed(w, id)
  }

  // ---- Runs ----

  predicate CanHappen(w: World, e: Event) {
    match e
    case Begins(_) => w.todo == []
    case Calls => w.todo != []
    case _ => CanTurn(w, e)
  }

  function Called(w: World): World
    requires w.todo != []
  {
    Exec(w, w.todo[0]).(todo := w.todo[1..])
  }

  function Begun(w: World, c: Command): World {
    w.(todo := PlanOf(w, c).calls)
  }

  function Step(w: World, e: Event): World
    requires CanHappen(w, e)
  {
    match e
    case Begins(c) => Begun(w, c)
    case Calls => Called(w)
    case _ => Turned(w, e)
  }

  ghost predicate IsRun(worlds: seq<World>, events: seq<Event>) {
    && |worlds| == |events| + 1
    && forall n :: 0 <= n < |events| ==> CanHappen(worlds[n], events[n]) && worlds[n + 1] == Step(worlds[n], events[n])
  }

  /** Nothing is running yet, and no reading is in flight. */
  predicate Starts(w: World) {
    w.turns == map[] && w.todo == []
  }

  /** A turn touches neither the account nor the command that is running. */
  lemma TurnsLeaveAccount(w: World, e: Event)
    requires CanTurn(w, e)
    ensures var r := Turned(w, e);
            && r.file == w.file && r.key == w.key && r.todo == w.todo && r.epoch == w.epoch
            && (r.engine.Some? <==> w.engine.Some?)
            && (w.engine.Some? ==> r.engine.value.url == w.engine.value.url)
  {
    match e
    case TurnStores(id, written) =>
    case TurnPushes(id) => PushLeaves(w, id);
    case _ =>
  }

  lemma PushLeaves(w: World, id: nat)
    requires id in w.turns && (w.turns[id].KeyInHand? || w.turns[id].InHand?)
    ensures var r := Pushed(w, id);
            && r.file == w.file && r.key == w.key && r.todo == w.todo && r.epoch == w.epoch
            && r.session == w.session && r.generation == w.generation
            && (r.engine.Some? <==> w.engine.Some?)
            && (w.engine.Some? ==> r.engine.value.url == w.engine.value.url)
  {
  }
}
