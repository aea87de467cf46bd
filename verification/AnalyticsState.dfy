/**
 The analytics seam of one window (`src/lib/analytics.ts`): its module-level
 state, and what each synchronous stretch between two `await`s makes of it.

 A suspended `async` function is a `Task`: what it will do when the promise it
 awaits settles. Everything a window sends, and every merge it asks PostHog
 for, is appended to `log`.
 */
module AnalyticsState {
  import opened Options

  /** Ids are opaque and, as the source keeps them, never empty. */
  type Sub = nat
  type Org = nat

  datatype Mode = OAuth | ApiKey

  datatype Milestone =
    | FirstLaunched
    | PairingCompleted
    | FirstRequestProxied
    | ToolConnected(tool: string)

  /** A once-per-install marker in the backend's store. */
  datatype Marker =
    | MilestoneMarker(milestone: Milestone)
    | OptedOutMarker
    | CoworkMarker(detail: string)

  /** A PostHog distinct id: this install's, one a `reset` drew, or an account's. */
  datatype Id = Install | Fresh(window: nat, draw: nat) | Account(sub: Sub)

  /** The PostHog client: where it files events, and whether it drops them. */
  datatype Client = Client(id: Id, optedOut: bool, group: Option<Org>)

  /** `SessionFacts`: what the main window knows about the session. */
  datatype Facts = Facts(signedIn: bool, unknown: bool, mode: Option<Mode>, sub: Option<Sub>, org: Option<Org>)

  /** `AnalyticsIdentity`: the record every window and every launch agree on. */
  datatype Identity = Identity(sub: Option<Sub>, ever: bool, org: Option<Org>, mode: Option<Mode>)

  /** One thing the AG-960 gate decides about. */
  datatype Item = MilestoneItem(milestone: Milestone) | FailureItem(report: nat) | CoworkItem

  datatype Task =
    | Waiting(item: Item, onBoot: bool)
    | OrgWait(milestone: Milestone, ready: bool)
    | SendClaim(milestone: Milestone)
    | SpendClaim(milestone: Milestone)
    | OptOutClaim
    | Checking
    | CoworkClaim(detail: string)
    | Consenting(here: bool, was: Option<bool>)
    | Saving(next: Identity)

  datatype What =
    | Base(event: nat)
    | OptIn
    | MilestoneSent(milestone: Milestone, claim: nat)
    | FailureSent(report: nat)

  /** `Sent` keeps the gate as it stood at the capture itself. */
  datatype Entry =
    | Sent(what: What, filedAs: Id, group: Option<Org>, consent: Option<bool>, answered: Option<bool>, optedOut: bool)
    | Posted(claim: nat, filedAs: Id, group: Option<Org>)
    | Merged(from: Id, into: Sub)

  datatype Boot = NotBooted | ReadingPreferences | StartingClient | Booted

  datatype FunnelState = Open | Held | Refused | Closed

  datatype ClaimAnswer = Won | Lost | ClaimFailed

  datatype SaveAnswer = Saved | NotLive | SaveFailed

  const PENDING_CAP := 50
  const HELD_CAP := 100
  const HELD_FAILURE_CAP := 20
  const PERSIST_RETRY_MAX := 3

  datatype SeamState = SeamState(
    window: nat,
    hasKey: bool,
    enabled: bool,
    started: bool,
    consent: Option<bool>,
    answered: Option<bool>,
    starting: bool,
    boot: Boot,
    pending: seq<nat>,
    installKnown: bool,
    held: seq<Item>,
    heldFailures: nat,
    heldMarkers: set<Milestone>,
    asked: set<Milestone>,
    session: Option<Facts>,
    identifiedAs: Option<Sub>,
    everIdentified: bool,
    storedSub: Option<Sub>,
    storedOrg: Option<Org>,
    storedMode: Option<Mode>,
    groupedAs: Option<Org>,
    loading: bool,
    adopted: bool,
    lastPersisted: Option<Identity>,
    retries: nat,
    retryArmed: bool,
    client: Client,
    draws: nat,
    tasks: map<nat, Task>,
    nextTask: nat,
    log: seq<Entry>)

  /** A window as its script loads. `persisted` is what posthog-js's own storage holds. */
  function Loaded(window: nat, hasKey: bool, persisted: Client): SeamState {
    SeamState(
      window, hasKey, false, false, None, None, false, NotBooted, [], false,
      [], 0, {}, {},
      None, None, false, None, None, None, None,
      false, false, None, 0, false,
      persisted, 0, map[], 0, [])
  }

  // ---- What the gates read ----

  predicate Capturing(w: SeamState) {
    w.started && !w.client.optedOut
  }

  /** `deciding`, or a client being started. */
  predicate Deciding(w: SeamState) {
    w.boot.ReadingPreferences? || w.boot.StartingClient? || (w.starting && !w.started)
  }

  function Funnel(w: SeamState): FunnelState {
    if !w.hasKey then Closed
    else if Deciding(w) then if w.consent == Some(false) then Refused else Held
    else if w.consent == Some(false) then Refused
    else if w.consent != Some(true) then Closed
    else if w.answered != Some(true) then Held
    else if Capturing(w) then Open else Closed
  }

  function CurrentOrg(w: SeamState): Option<Org> {
    (if w.session.Some? then w.session.value.org else None).OrElse(w.storedOrg)
  }

  // ---- Small updates ----

  function Spawn(w: SeamState, task: Task): SeamState {
    w.(tasks := w.tasks[w.nextTask := task], nextTask := w.nextTask + 1)
  }

  function Finish(w: SeamState, id: nat): SeamState {
    w.(tasks := w.tasks - {id})
  }

  function Capture(w: SeamState, what: What): SeamState {
    w.(log := w.log + [Sent(what, w.client.id, w.client.group, w.consent, w.answered, w.client.optedOut)])
  }

  function OptOutClient(w: SeamState): SeamState {
    if w.started then w.(client := w.client.(optedOut := true)) else w
  }

  // ---- Client identity ----

  /** Put the client's group on the install's org, or take it off; only while open. */
  function ApplyGroup(w: SeamState): SeamState {
    if Funnel(w) != Open then w
    else w.(client := w.client.(group := CurrentOrg(w)), groupedAs := CurrentOrg(w))
  }

  /** `reset` draws a fresh id and clears groups and opt-out; the opt-out goes back unless sharing. */
  function ResetClient(w: SeamState): SeamState {
    w.(client := Client(Fresh(w.window, w.draws), w.consent != Some(true), None),
       draws := w.draws + 1,
       groupedAs := None)
  }

  /** `posthog.identify`: merges the current id into `sub` when that id is anonymous. */
  function Identify(w: SeamState, sub: Sub): SeamState {
    w.(client := w.client.(id := Account(sub)),
       log := if w.client.id.Account? then w.log else w.log + [Merged(w.client.id, sub)])
  }

  /** posthog-js's storage has the client as somebody, or on a retired install id. */
  predicate PersistedAsSomeone(w: SeamState) {
    w.client.id.Account? || (w.installKnown && w.client.id == Install)
  }

  function SyncToStored(w: SeamState): SeamState {
    if !w.started || w.storedSub == w.identifiedAs then w
    else
      var blank := ResetClient(w);
      var moved := if w.storedSub.Some? then Identify(blank, w.storedSub.value) else blank;
      ApplyGroup(moved.(identifiedAs := w.storedSub))
  }

  // ---- The stored record ----

  function KeptApiKeyOrg(w: SeamState, f: Facts): Option<Org> {
    if f.mode == Some(ApiKey) && w.storedMode == Some(ApiKey) then w.storedOrg else None
  }

  function NextRecord(w: SeamState, f: Facts): Identity {
    Identity(w.identifiedAs, w.everIdentified,
             if f.signedIn then f.org.OrElse(KeptApiKeyOrg(w, f)) else None,
             f.mode)
  }

  function Persist(w: SeamState): SeamState {
    if w.session.None? || !w.hasKey || !w.adopted || w.session.value.unknown then w
    else
      var next := NextRecord(w, w.session.value);
      if w.lastPersisted == Some(next) then w
      else Spawn(w.(lastPersisted := Some(next), storedOrg := next.org, storedMode := next.mode), Saving(next))
  }

  function ApplyIdentity(w: SeamState, sub: Sub): SeamState {
    if w.identifiedAs == Some(sub) then w
    else
      var clean := if w.everIdentified then ResetClient(w) else w;
      Persist(Identify(clean, sub).(
              identifiedAs := Some(sub), storedSub := Some(sub), everIdentified := true, lastPersisted := None))
  }

  // ---- Milestones and the gate ----

  /** `trackMilestone` up to its first `await`. */
  function Track(w: SeamState, m: Milestone): SeamState {
    if !w.hasKey || m in w.asked then w
    else Spawn(w, Waiting(MilestoneItem(m), w.boot != NotBooted))
  }

  function SpendMarker(w: SeamState, m: Milestone): SeamState {
    Spawn(w.(asked := w.asked + {m}), SpendClaim(m))
  }

  /** An item's `run`, up to its first `await`. */
  function Run(w: SeamState, item: Item): SeamState {
    match item
    case MilestoneItem(m) =>
      if m in w.asked then w else Spawn(w, OrgWait(m, CurrentOrg(w).Some?))
    case FailureItem(report) =>
      if Capturing(w) then Capture(w, FailureSent(report)) else w
    case CoworkItem => Spawn(w, Checking)
  }

  /** An item's `spend`, up to its first `await`. Only milestones have one. */
  function Spend(w: SeamState, item: Item): SeamState {
    match item
    case MilestoneItem(m) => if m in w.asked then w else SpendMarker(w, m)
    case FailureItem(_) => w
    case CoworkItem => w
  }

  function RunAll(w: SeamState, items: seq<Item>): SeamState
    decreases |items|
  {
    if items == [] then w else RunAll(Run(w, items[0]), items[1..])
  }

  function SpendAll(w: SeamState, items: seq<Item>): SeamState
    decreases |items|
  {
    if items == [] then w else SpendAll(Spend(w, items[0]), items[1..])
  }

  predicate Offered(w: SeamState, item: Item) {
    |w.held| < HELD_CAP && (item.FailureItem? ==> w.heldFailures < HELD_FAILURE_CAP)
  }

  function Hold(w: SeamState, item: Item): SeamState {
    if !Offered(w, item) then w
    else w.(held := w.held + [item],
            heldFailures := w.heldFailures + if item.FailureItem? then 1 else 0)
  }

  /** `funnel(item)`. */
  function Offer(w: SeamState, item: Item): SeamState {
    match Funnel(w)
    case Open => Run(w, item)
    case Held => Hold(w, item)
    case Refused => Spend(w, item)
    case Closed => w
  }

  /** Past the waits of `trackMilestone` and `reportCoworkSetting`. */
  function Enter(w: SeamState, item: Item): SeamState {
    if item.MilestoneItem? && Funnel(w) == Held then
      if item.milestone in w.heldMarkers then w
      else Offer(w.(heldMarkers := w.heldMarkers + {item.milestone}), item)
    else Offer(w, item)
  }

  predicate PairedFacts(w: SeamState) {
    w.session.Some? && w.session.value.signedIn && w.session.value.org.Some?
  }

  function SpendSession(w: SeamState): SeamState {
    if PairedFacts(w) then Track(w, PairingCompleted) else w
  }

  /** The account a signed-in Constellation session names. */
  function LiveSub(w: SeamState): Option<Sub> {
    if w.session.Some? && w.session.value.signedIn && w.session.value.mode == Some(OAuth)
    then w.session.value.sub else None
  }

  function ApplySession(w: SeamState): SeamState {
    var moved := if LiveSub(w).Some? then ApplyIdentity(w, LiveSub(w).value) else SyncToStored(w);
    SpendSession(ApplyGroup(moved))
  }

  function Unheld(w: SeamState): SeamState {
    w.(held := [], heldFailures := 0, heldMarkers := {})
  }

  /** `settleHeld`. */
  function Settle(w: SeamState): SeamState {
    match Funnel(w)
    case Held => w
    case Closed => Unheld(w)
    case Open => RunAll(ApplySession(Unheld(w)), w.held)
    case Refused => SpendAll(SpendSession(Unheld(w)), w.held)
  }

  function WakeOrgWaiters(w: SeamState): SeamState {
    w.(tasks := map id | id in w.tasks ::
         if w.tasks[id].OrgWait? then w.tasks[id].(ready := true) else w.tasks[id])
  }

  function OrgArrived(w: SeamState): SeamState {
    if CurrentOrg(w).None? then w else WakeOrgWaiters(ApplyGroup(w))
  }

  // ---- Session ----

  /** A known end of the account the client or the record is on. */
  predicate LeftAccount(w: SeamState, f: Facts) {
    (!f.signedIn || (f.mode == Some(ApiKey) && w.identifiedAs.Some?)) && (w.identifiedAs.Some? || w.storedSub.Some?)
  }

  function NoteSession(w: SeamState, f: Facts): SeamState {
    var noted := w.(session := Some(f));
    if !w.adopted || f.unknown then noted
    else
      var left := if LeftAccount(noted, f)
                  then SyncToStored(noted.(storedSub := None)).(identifiedAs := None, lastPersisted := None)
                  else noted;
      var saved := Persist(left);
      OrgArrived(match Funnel(saved)
                 case Open => ApplySession(saved)
                 case Refused => SpendSession(saved)
                 case _ => saved)
  }

  function FollowIdentity(w: SeamState, next: Identity): SeamState {
    var told := w.(storedSub := next.sub, storedOrg := next.org, storedMode := next.mode,
                   everIdentified := w.everIdentified || next.ever);
    var synced := if next.sub.None? || Funnel(told) == Open then SyncToStored(told) else told;
    var moved :=
      if synced.storedSub.None? && synced.identifiedAs.None? && synced.everIdentified && synced.started && PersistedAsSomeone(synced)
      then ResetClient(synced) else synced;
    OrgArrived(ApplyGroup(moved))
  }

  function Adopt(w: SeamState, stored: Identity): SeamState {
    w.(identifiedAs := stored.sub, storedSub := stored.sub, everIdentified := stored.ever,
       storedOrg := stored.org, storedMode := stored.mode)
  }

  function IdentityRead(w: SeamState, answer: Option<Identity>): SeamState {
    var known := (if answer.Some? then Adopt(w, answer.value) else w).(adopted := true);
    if known.session.Some? then NoteSession(known, known.session.value) else known
  }

  // ---- Starting the client ----

  function LoadIdentity(w: SeamState): SeamState {
    w.(loading := true)
  }

  function StartClient(w: SeamState): SeamState {
    if !w.hasKey || w.starting then w else LoadIdentity(w.(starting := true))
  }

  function Flush(w: SeamState, queued: seq<nat>): SeamState
    decreases |queued|
  {
    if queued == [] then w else Flush(Capture(w, Base(queued[0])), queued[1..])
  }

  /** The id `posthog.init` leaves the client on. */
  function BootstrapId(w: SeamState, installKnown: bool): Id {
    if w.identifiedAs.Some? then Account(w.identifiedAs.value)
    else if installKnown && !w.everIdentified then Install
    else w.client.id
  }

  function Bootstrapped(w: SeamState, installKnown: bool): SeamState {
    w.(installKnown := installKnown, started := true, client := w.client.(id := BootstrapId(w, installKnown)))
  }

  /** `startPosthog` up to what it makes of consent. */
  function Constructed(w: SeamState, installKnown: bool): SeamState {
    var up := Bootstrapped(w, installKnown);
    if up.identifiedAs.None? && up.everIdentified && PersistedAsSomeone(up) then ResetClient(up) else up
  }

  /** `startPosthog` past its reads. */
  function ClientStarted(w: SeamState, installKnown: bool): SeamState {
    var own := Constructed(w, installKnown);
    if own.consent != Some(true) then own.(client := own.client.(optedOut := true), pending := [])
    else Flush(own.(client := own.client.(optedOut := false), enabled := true, pending := []), own.pending)
  }

  /** `boot` up to its first `await`. */
  function BeginBoot(w: SeamState): SeamState {
    if !w.hasKey then w.(boot := Booted) else LoadIdentity(w.(boot := ReadingPreferences))
  }

  /** The preferences a boot reads: `share_diagnostics` and whether it was ever answered. */
  datatype Preferences = Preferences(share: bool, recorded: bool)

  function BootDecides(w: SeamState): SeamState {
    if w.consent != Some(true) then Settle(w.(pending := [], boot := Booted))
    else StartClient(w.(boot := StartingClient))
  }

  /** A switch flipped while the read was in flight is the newer answer. */
  function PreferencesRead(w: SeamState, prefs: Option<Preferences>): SeamState {
    BootDecides(w.(
      consent := w.consent.OrElse(if prefs.Some? then Some(prefs.value.share) else None),
      answered := w.answered.OrElse(if prefs.Some? then Some(prefs.value.recorded) else None)))
  }

  function FinishBoot(w: SeamState): SeamState {
    Track(Settle(w.(boot := Booted)), FirstLaunched)
  }

  // ---- Consent ----

  function AnnounceOptIn(w: SeamState): SeamState {
    if Capturing(w) then Capture(w, OptIn) else w
  }

  /** `applyConsent` past the point where the client is up. */
  function ConsentOn(w: SeamState, here: bool, was: Option<bool>): SeamState {
    Settle(if here && was == Some(false) && w.answered == Some(true) then AnnounceOptIn(w) else w)
  }

  /** The rest of a "no": `record` is a real change made in this window. */
  function TurnOff(w: SeamState, record: bool): SeamState {
    var off := OptOutClient(w.(consent := Some(false), enabled := false, pending := []));
    Settle(if record then Spawn(off, OptOutClaim) else off)
  }

  /** The rest of a "yes". */
  function TurnOn(w: SeamState, here: bool): SeamState {
    var told := w.(consent := Some(true));
    if !w.started then Spawn(StartClient(told), Consenting(here, w.consent))
    else if w.enabled then ConsentOn(told, here, w.consent)
    else ConsentOn(told.(client := told.client.(optedOut := false), enabled := true), here, w.consent)
  }

  /** `applyConsent`; `here` is a change made in this window. */
  function ApplyConsent(w: SeamState, on: bool, recorded: bool, here: bool): SeamState {
    var told := if recorded then w.(answered := Some(true)) else w;
    if on then TurnOn(told, here) else TurnOff(told, here && w.consent == Some(true) && w.hasKey)
  }

  // ---- Captures ----

  /** `track` and `captureException`. */
  function BaseEvent(w: SeamState, event: nat): SeamState {
    if w.enabled then Capture(w, Base(event))
    else if Deciding(w) && w.consent != Some(false) && |w.pending| < PENDING_CAP then w.(pending := w.pending + [event])
    else w
  }

  /** Where `diagnostics_opted_out` is filed, if anywhere. */
  function OptOutId(w: SeamState): Option<Id> {
    if w.identifiedAs.Some? then Some(Account(w.identifiedAs.value))
    else if w.session.Some? && w.session.value.mode == Some(OAuth) && w.session.value.sub.Some?
    then Some(Account(w.session.value.sub.value))
    else if w.everIdentified then if w.started then Some(w.client.id) else None
    else if w.installKnown then Some(Install) else None
  }

  /** The rest of a milestone's `run` after `waitForOrg`. */
  function OrgWaited(w: SeamState, m: Milestone): SeamState {
    if m in w.asked then w
    else if w.consent == Some(false) then SpendMarker(w, m)
    else if !Capturing(w) then w
    else
      var grouped := ApplyGroup(w);
      Spawn(grouped.(asked := grouped.asked + {m}), SendClaim(m))
  }

  /** What the window does with the answer to claim `id`. `report` is a `connection_failed`
      that the five-minute quiet window lets through, if it does. */
  function Claimed(w: SeamState, id: nat, task: Task, answer: ClaimAnswer, report: Option<nat>): SeamState {
    match task
    case SendClaim(m) =>
      if answer == ClaimFailed then w.(asked := w.asked - {m})
      else if answer == Won && Capturing(w) then Capture(w, MilestoneSent(m, id))
      else w
    case OptOutClaim =>
      if answer == Won && OptOutId(w).Some?
      then w.(log := w.log + [Posted(id, OptOutId(w).value, CurrentOrg(w))])
      else w
    case CoworkClaim(_) =>
      if answer == Won && report.Some? then Offer(w, FailureItem(report.value)) else w
    case _ => w
  }

  /** What was sent is forgotten, unless something newer was sent since. */
  function Forgotten(w: SeamState, next: Identity): Option<Identity> {
    if w.lastPersisted == Some(next) then None else w.lastPersisted
  }

  /** A save that did not land is forgotten; one that may yet land is retried, a bounded number of times. */
  function SaveAnswered(w: SeamState, next: Identity, answer: SaveAnswer): SeamState {
    if answer == Saved then w.(retries := 0)
    else if answer == NotLive || w.retryArmed || w.retries >= PERSIST_RETRY_MAX then w.(lastPersisted := Forgotten(w, next))
    else w.(lastPersisted := Forgotten(w, next), retries := w.retries + 1, retryArmed := true)
  }

  // ---- Steps ----

  /** Everything that can happen to a window. `id` names a suspended task. */
  datatype Event =
    | InitAnalytics
    | PreferencesReply(prefs: Option<Preferences>)
    | IdentityReply(answer: Option<Identity>)
    | StartReply(installKnown: bool)
    | BootResumes
    | ConsentSet(on: bool, recorded: bool, here: bool)
    | ConsentResumes(id: nat)
    | SessionNoted(facts: Facts)
    | IdentityBroadcast(next: Identity)
    | SaveReply(id: nat, saved: SaveAnswer)
    | RetryTimer
    | MilestoneReached(milestone: Milestone)
    | CoworkToolConnected
    | WaitOver(id: nat)
    | OrgTimer(id: nat)
    | OrgResumes(id: nat)
    | CoworkReply(id: nat, detail: Option<string>)
    | ClaimReply(id: nat, claimed: ClaimAnswer, report: Option<nat>)
    | Tracked(event: nat)
    | ConnectionFailed(failure: nat)

  predicate IsClaim(task: Task) {
    task.SendClaim? || task.SpendClaim? || task.OptOutClaim? || task.CoworkClaim?
  }

  /** Whether the event can happen now: its promise is pending and what it awaits is in. */
  predicate Enabled(w: SeamState, e: Event) {
    match e
    case InitAnalytics => w.boot == NotBooted
    case PreferencesReply(_) => w.boot == ReadingPreferences && w.adopted
    case IdentityReply(_) => w.loading && !w.adopted
    case StartReply(_) => w.starting && !w.started && w.adopted
    case BootResumes => w.boot == StartingClient && w.started
    case ConsentSet(_, _, _) => true
    case ConsentResumes(id) => id in w.tasks && w.tasks[id].Consenting? && (w.hasKey ==> w.started)
    case SessionNoted(_) => true
    case IdentityBroadcast(_) => true
    case SaveReply(id, _) => id in w.tasks && w.tasks[id].Saving?
    case RetryTimer => w.retryArmed
    case MilestoneReached(_) => true
    case CoworkToolConnected => true
    case WaitOver(id) =>
      id in w.tasks && w.tasks[id].Waiting? && (w.tasks[id].onBoot ==> w.boot == Booted) && (w.starting ==> w.started)
    case OrgTimer(id) => id in w.tasks && w.tasks[id].OrgWait?
    case OrgResumes(id) => id in w.tasks && w.tasks[id].OrgWait? && w.tasks[id].ready
    case CoworkReply(id, _) => id in w.tasks && w.tasks[id].Checking?
    case ClaimReply(id, _, _) => id in w.tasks && IsClaim(w.tasks[id])
    case Tracked(_) => true
    case ConnectionFailed(_) => true
  }

  function Step(w: SeamState, e: Event): SeamState
    requires Enabled(w, e)
  {
    match e
    case InitAnalytics => BeginBoot(w)
    case PreferencesReply(prefs) => PreferencesRead(w, prefs)
    case IdentityReply(answer) => IdentityRead(w, answer)
    case StartReply(installKnown) => ClientStarted(w, installKnown)
    case BootResumes => FinishBoot(w)
    case ConsentSet(on, recorded, here) => ApplyConsent(w, on, recorded, here)
    case ConsentResumes(id) => ConsentOn(Finish(w, id), w.tasks[id].here, w.tasks[id].was)
    case SessionNoted(facts) => NoteSession(w, facts)
    case IdentityBroadcast(next) => FollowIdentity(w, next)
    case SaveReply(id, answer) => SaveAnswered(Finish(w, id), w.tasks[id].next, answer)
    case RetryTimer => Persist(w.(retryArmed := false))
    case MilestoneReached(m) => Track(w, m)
    case CoworkToolConnected => if w.hasKey then Spawn(w, Waiting(CoworkItem, w.boot != NotBooted)) else w
    case WaitOver(id) => Enter(Finish(w, id), w.tasks[id].item)
    case OrgTimer(id) => w.(tasks := w.tasks[id := OrgWait(w.tasks[id].milestone, true)])
    case OrgResumes(id) => OrgWaited(Finish(w, id), w.tasks[id].milestone)
    case CoworkReply(id, detail) =>
      if detail.Some? && Capturing(w) then Spawn(Finish(w, id), CoworkClaim(detail.value)) else Finish(w, id)
    case ClaimReply(id, answer, report) => Claimed(Finish(w, id), id, w.tasks[id], answer, report)
    case Tracked(event) => BaseEvent(w, event)
    case ConnectionFailed(report) => Offer(w, FailureItem(report))
  }
}
