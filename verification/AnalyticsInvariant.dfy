/**
 What every step of a window keeps, whatever the interleaving: the consent
 gate, the bounds of the held queue, the bookkeeping of claims, and who the
 client's ids belong to. The theorems read off it are in the modules below.
 */
module AnalyticsInvariant {
  import opened Options
  import opened AnalyticsState

  // ---- The consent gate ----

  /** Past the gate: such a task exists only because the funnel was open. */
  predicate PastGate(task: Task) {
    task.OrgWait? || task.SendClaim? || task.Checking? || task.CoworkClaim?
  }

  /** What the docs promise of a capture, judged by the gate at the capture itself. */
  predicate Allowed(entry: Entry) {
    entry.Sent? ==>
      && entry.consent == Some(true)
      && !entry.optedOut
      && (!entry.what.Base? ==> entry.answered == Some(true))
  }

  ghost predicate AllAllowed(log: seq<Entry>) {
    forall entry <- log :: Allowed(entry)
  }

  ghost predicate NonePastGate(tasks: map<nat, Task>) {
    forall id <- tasks :: !PastGate(tasks[id])
  }

  ghost predicate GateInv(w: SeamState) {
    && (w.enabled ==> w.started)
    && (w.starting ==> w.hasKey && w.consent.Some? && w.loading)
    && (w.started ==> w.starting && w.adopted)
    && (w.started ==> (w.enabled <==> w.consent == Some(true)))
    && (w.started ==> (w.client.optedOut <==> w.consent != Some(true)))
    && (w.boot == ReadingPreferences ==> w.hasKey)
    && (w.boot == StartingClient ==> w.starting)
    && (w.answered == Some(true) || NonePastGate(w.tasks))
    && AllAllowed(w.log)
  }

  // ---- The held queue ----

  function Failures(items: seq<Item>): (n: nat)
    ensures n <= |items|
  {
    if items == [] then 0 else Failures(items[..|items| - 1]) + if items[|items| - 1].FailureItem? then 1 else 0
  }

  ghost predicate HeldOk(held: seq<Item>, failures: nat, markers: set<Milestone>) {
    && |held| <= HELD_CAP
    && failures == Failures(held) <= HELD_FAILURE_CAP
    && (forall i, j :: 0 <= i < j < |held| && held[i].MilestoneItem? ==> held[i] != held[j])
    && (forall item <- held :: item.MilestoneItem? ==> item.milestone in markers)
  }

  // ---- Claims ----

  /** The claim an entry was sent on, for the entries that needed one. */
  function ClaimOf(entry: Entry): Option<nat> {
    match entry
    case Sent(MilestoneSent(_, claim), _, _, _, _, _) => Some(claim)
    case Posted(claim, _, _) => Some(claim)
    case _ => None
  }

  ghost predicate ClaimsOk(log: seq<Entry>, tasks: map<nat, Task>, nextTask: nat) {
    && (forall id <- tasks :: id < nextTask)
    && (forall entry <- log :: ClaimOf(entry).Some? ==>
          ClaimOf(entry).value < nextTask && ClaimOf(entry).value !in tasks)
    && (forall i, j :: 0 <= i < j < |log| && ClaimOf(log[i]).Some? ==> ClaimOf(log[i]) != ClaimOf(log[j]))
  }

  // ---- Identity ----

  /** An id the client of `window` drew with a reset. */
  predicate Drawn(window: nat, id: Id) {
    id.Fresh? && id.window == window
  }

  /** The id an entry files an event under. */
  function FiledAs(entry: Entry): Option<Id> {
    match entry
    case Sent(_, id, _, _, _, _) => Some(id)
    case Posted(_, id, _) => Some(id)
    case Merged(_, _) => None
  }

  ghost predicate Unmerged(log: seq<Entry>, id: Id) {
    forall entry <- log :: entry.Merged? ==> entry.from != id
  }

  ghost predicate Unfiled(log: seq<Entry>, id: Id) {
    forall entry <- log :: FiledAs(entry) != Some(id)
  }

  ghost predicate NoMerge(log: seq<Entry>) {
    forall entry <- log :: !entry.Merged?
  }

  /** Every merge but the first is of an id a reset drew; none is of an id merged before; and a
      drawn id that is merged files no event, before or after. Draws not made yet are unused. */
  ghost predicate MergesOk(window: nat, draws: nat, log: seq<Entry>) {
    && (forall i, j :: 0 <= i < j < |log| && log[i].Merged? && log[j].Merged? ==>
          Drawn(window, log[j].from) && log[i].from != log[j].from)
    && (forall entry <- log :: entry.Merged? ==>
          && !entry.from.Account?
          && (Drawn(window, entry.from) ==> entry.from.draw < draws && Unfiled(log, entry.from)))
    && (forall n :: n >= draws ==> Unfiled(log, Fresh(window, n)))
  }

  ghost predicate IdentityInv(w: SeamState) {
    && MergesOk(w.window, w.draws, w.log)
    && Unmerged(w.log, w.client.id)
    && (NoMerge(w.log) || (w.started && w.everIdentified))
    && (Drawn(w.window, w.client.id) ==> w.client.id.draw < w.draws)
    && (w.draws > 0 ==> w.started && w.everIdentified)
    && (w.identifiedAs.Some? || w.storedSub.Some? ==> w.everIdentified)
    && (w.started && w.identifiedAs.Some? ==> w.client.id == Account(w.identifiedAs.value))
    && (w.started && w.identifiedAs.None? && w.client.id.Account? ==> !w.installKnown)
  }

  ghost predicate Inv(w: SeamState) {
    && GateInv(w)
    && HeldOk(w.held, w.heldFailures, w.heldMarkers)
    && ClaimsOk(w.log, w.tasks, w.nextTask)
    && IdentityInv(w)
  }

  // ---- What a stretch of a step leaves alone ----

  /** `later` only adds entries, none of which needed a claim. */
  ghost predicate LogGrows(log: seq<Entry>, later: seq<Entry>) {
    && |log| <= |later| && later[..|log|] == log
    && (forall k :: |log| <= k < |later| ==> ClaimOf(later[k]).None?)
  }

  /** Claims in flight stay as they are, and a new one takes an id never used before. */
  ghost predicate ClaimsStay(tasks: map<nat, Task>, nextTask: nat, later: map<nat, Task>) {
    && (forall id <- tasks :: IsClaim(tasks[id]) ==> id in later && later[id] == tasks[id])
    && (forall id <- later :: IsClaim(later[id]) ==> id >= nextTask || (id in tasks && tasks[id] == later[id]))
  }

  /** A merge is of a drawn id, or it is the first: a session noted here, and a record that says
      nobody was identified before. */
  ghost predicate FirstOrDrawn(w: SeamState, entry: Entry) {
    entry.Merged? ==> Drawn(w.window, entry.from) || (w.session.Some? && w.adopted && !w.everIdentified)
  }

  ghost predicate MergesFresh(w: SeamState, later: seq<Entry>) {
    forall k :: |w.log| <= k < |later| ==> FirstOrDrawn(w, later[k])
  }

  /** The session is the one noted, a window that knows the install was identified keeps knowing it, and
      a client that is up stays up. */
  predicate Remembers(w: SeamState, r: SeamState) {
    r.session == w.session && r.adopted == w.adopted && (w.everIdentified ==> r.everIdentified) && (w.started ==> r.started)
  }

  /** No claim is touched, nothing that needs one is sent, and only a first sign-in merges an id with a past. */
  ghost predicate Advances(w: SeamState, r: SeamState) {
    && r.window == w.window && r.hasKey == w.hasKey
    && w.nextTask <= r.nextTask && LogGrows(w.log, r.log) && ClaimsStay(w.tasks, w.nextTask, r.tasks)
    && Remembers(w, r) && MergesFresh(w, r.log)
  }

  /** A stretch that keeps the invariant and moves none of the gates. */
  ghost predicate Kept(w: SeamState, r: SeamState) {
    && Inv(r) && Advances(w, r)
    && Funnel(r) == Funnel(w) && r.started == w.started && r.enabled == w.enabled
    && r.held == w.held && r.heldFailures == w.heldFailures && r.heldMarkers == w.heldMarkers
    && r.session == w.session && r.consent == w.consent && r.adopted == w.adopted
  }

  lemma LogGrowsTransitive(a: seq<Entry>, b: seq<Entry>, c: seq<Entry>)
    requires LogGrows(a, b) && LogGrows(b, c)
    ensures LogGrows(a, c)
  {
    assert c[..|a|] == b[..|a|];
    forall k | |a| <= k < |c| ensures ClaimOf(c[k]).None? {
      if k < |b| { assert c[k] == c[..|b|][k]; }
    }
  }

  lemma MergesFreshTransitive(a: SeamState, b: SeamState, later: seq<Entry>)
    requires b.window == a.window && Remembers(a, b) && a.log <= b.log <= later
    requires MergesFresh(a, b.log) && MergesFresh(b, later)
    ensures MergesFresh(a, later)
  {
    forall k | |a.log| <= k < |later| ensures FirstOrDrawn(a, later[k]) {
      if k < |b.log| {
        assert later[k] == later[..|b.log|][k];
      } else {
        assert FirstOrDrawn(b, later[k]);
      }
    }
  }

  lemma AdvancesTransitive(a: SeamState, b: SeamState, c: SeamState)
    requires Advances(a, b) && Advances(b, c)
    ensures Advances(a, c)
  {
    assert a.log <= b.log <= c.log;
    hide Inv, LogGrows, MergesFresh;
    LogGrowsTransitive(a.log, b.log, c.log);
    MergesFreshTransitive(a, b, c.log);
  }

  lemma KeptTransitive(a: SeamState, b: SeamState, c: SeamState)
    requires Kept(a, b) && Kept(b, c)
    ensures Kept(a, c)
  {
    hide Funnel, Advances;
    AdvancesTransitive(a, b, c);
  }

  lemma Unmoved(w: SeamState)
    requires Inv(w)
    ensures Kept(w, w)
  {
    hide Inv, Funnel;
  }

  // ---- One more entry, one more task ----

  lemma NothingSent(w: SeamState)
    ensures LogGrows(w.log, w.log) && ClaimsStay(w.tasks, w.nextTask, w.tasks)
  {
  }

  lemma AppendAllowed(log: seq<Entry>, entry: Entry)
    requires AllAllowed(log) && Allowed(entry)
    ensures AllAllowed(log + [entry])
  {
  }

  lemma AppendUnclaimed(log: seq<Entry>, entry: Entry, tasks: map<nat, Task>, nextTask: nat)
    requires ClaimsOk(log, tasks, nextTask) && ClaimOf(entry).None?
    ensures ClaimsOk(log + [entry], tasks, nextTask) && LogGrows(log, log + [entry])
  {
  }

  lemma AppendFiled(window: nat, draws: nat, log: seq<Entry>, entry: Entry, current: Id)
    requires MergesOk(window, draws, log) && Unmerged(log, current)
    requires FiledAs(entry) == Some(current) || (FiledAs(entry).Some? && !FiledAs(entry).value.Fresh?)
    requires Drawn(window, current) ==> current.draw < draws
    ensures MergesOk(window, draws, log + [entry]) && Unmerged(log + [entry], current)
    ensures NoMerge(log) ==> NoMerge(log + [entry])
  {
    var more := log + [entry];
    forall n | n >= draws ensures Unfiled(more, Fresh(window, n)) {}
    forall e <- more | e.Merged? && Drawn(window, e.from) ensures Unfiled(more, e.from) {
      assert e in log;
    }
  }

  /** A merge is due when nobody was merged before, or the id is a drawn one nothing was filed under. */
  ghost predicate Mergeable(window: nat, draws: nat, log: seq<Entry>, id: Id) {
    && !id.Account? && Unmerged(log, id)
    && (NoMerge(log) || Drawn(window, id))
    && (Drawn(window, id) ==> id.draw < draws && Unfiled(log, id))
  }

  lemma AppendMerge(window: nat, draws: nat, log: seq<Entry>, id: Id, sub: Sub)
    requires MergesOk(window, draws, log) && Mergeable(window, draws, log, id)
    ensures MergesOk(window, draws, log + [Merged(id, sub)])
    ensures Unmerged(log + [Merged(id, sub)], Account(sub))
  {
    var more := log + [Merged(id, sub)];
    forall n | n >= draws ensures Unfiled(more, Fresh(window, n)) {}
    forall entry <- more | entry.Merged? && Drawn(window, entry.from) ensures Unfiled(more, entry.from) {}
  }

  lemma SpawnKeeps(w: SeamState, task: Task)
    requires Inv(w) && (PastGate(task) ==> w.answered == Some(true))
    ensures Kept(w, Spawn(w, task))
  {
    hide AllAllowed, HeldOk, MergesOk, Unmerged, NoMerge;
  }

  lemma CaptureKeeps(w: SeamState, what: What)
    requires Inv(w) && Capturing(w) && !what.MilestoneSent?
    requires what.Base? || w.answered == Some(true)
    ensures Kept(w, Capture(w, what))
  {
    hide AllAllowed, HeldOk, ClaimsOk, MergesOk, Unmerged, NoMerge, LogGrows;
    var entry := Sent(what, w.client.id, w.client.group, w.consent, w.answered, w.client.optedOut);
    AppendAllowed(w.log, entry);
    AppendUnclaimed(w.log, entry, w.tasks, w.nextTask);
    AppendFiled(w.window, w.draws, w.log, entry, w.client.id);
  }

  // ---- The client's identity ----

  lemma NextDraw(window: nat, draws: nat, log: seq<Entry>)
    requires MergesOk(window, draws, log)
    ensures MergesOk(window, draws + 1, log)
    ensures Unfiled(log, Fresh(window, draws)) && Unmerged(log, Fresh(window, draws))
  {
  }

  lemma ResetClientKeeps(w: SeamState)
    requires Inv(w) && w.started && w.everIdentified
    ensures Kept(w, ResetClient(w).(identifiedAs := None))
    ensures Mergeable(w.window, ResetClient(w).draws, w.log, ResetClient(w).client.id)
    ensures Drawn(w.window, ResetClient(w).client.id)
  {
    hide AllAllowed, HeldOk, ClaimsOk, MergesOk, Unmerged, Unfiled, NoMerge;
    NextDraw(w.window, w.draws, w.log);
  }

  function Identified(w: SeamState, sub: Sub): SeamState {
    Identify(w, sub).(identifiedAs := Some(sub), storedSub := Some(sub), everIdentified := true)
  }

  lemma IdentifyKeeps(w: SeamState, sub: Sub)
    requires Inv(w) && w.started
    requires w.client.id.Account? || Mergeable(w.window, w.draws, w.log, w.client.id)
    requires w.client.id.Account? || Drawn(w.window, w.client.id) || (w.session.Some? && !w.everIdentified)
    ensures Kept(w, Identified(w, sub))
  {
    hide AllAllowed, HeldOk, ClaimsOk, MergesOk, Unfiled, NoMerge, LogGrows, Mergeable;
    var entry := Merged(w.client.id, sub);
    if w.client.id.Account? {
      NothingSent(w);
      AccountsUnmerged(w, sub);
    } else {
      AppendAllowed(w.log, entry);
      AppendUnclaimed(w.log, entry, w.tasks, w.nextTask);
      AppendMerge(w.window, w.draws, w.log, w.client.id, sub);
    }
  }

  lemma AccountsUnmerged(w: SeamState, sub: Sub)
    requires Inv(w)
    ensures Unmerged(w.log, Account(sub))
  {
  }

  lemma ApplyGroupKeeps(w: SeamState)
    requires Inv(w)
    ensures Kept(w, ApplyGroup(w))
    ensures ApplyGroup(w).storedSub == w.storedSub && ApplyGroup(w).identifiedAs == w.identifiedAs
  {
    hide AllAllowed, HeldOk, ClaimsOk, MergesOk, Unmerged, NoMerge;
  }

  lemma SyncToStoredKeeps(w: SeamState)
    requires Inv(w)
    ensures Kept(w, SyncToStored(w))
    ensures SyncToStored(w).storedSub == w.storedSub
    ensures w.started ==> SyncToStored(w).identifiedAs == w.storedSub
  {
    hide Inv, Funnel, Advances, ApplyGroup, Mergeable;
    if !w.started || w.storedSub == w.identifiedAs {
      Unmoved(w);
    } else {
      assert w.everIdentified by { SubsImplyEver(w); }
      ResetClientKeeps(w);
      var blank := ResetClient(w).(identifiedAs := None);
      if w.storedSub.Some? {
        IdentifyKeeps(blank, w.storedSub.value);
        var moved := Identified(blank, w.storedSub.value);
        KeptTransitive(w, blank, moved);
        ApplyGroupKeeps(moved);
        KeptTransitive(w, moved, ApplyGroup(moved));
      } else {
        ApplyGroupKeeps(blank);
        KeptTransitive(w, blank, ApplyGroup(blank));
      }
    }
  }

  lemma SubsImplyEver(w: SeamState)
    requires Inv(w)
    ensures w.identifiedAs.Some? || w.storedSub.Some? ==> w.everIdentified
  {
  }

  lemma PersistKeeps(w: SeamState)
    requires Inv(w)
    ensures Kept(w, Persist(w))
  {
    hide Inv, Funnel, Advances, Spawn;
    if w.session.None? || !w.hasKey || !w.adopted || w.session.value.unknown {
      Unmoved(w);
    } else {
      var next := NextRecord(w, w.session.value);
      if w.lastPersisted == Some(next) {
        Unmoved(w);
      } else {
        var noted := w.(lastPersisted := Some(next), storedOrg := next.org, storedMode := next.mode);
        RecordNotedKeeps(w, Some(next), next.org, next.mode);
        SpawnKeeps(noted, Saving(next));
        KeptTransitive(w, noted, Spawn(noted, Saving(next)));
      }
    }
  }

  lemma RecordNotedKeeps(w: SeamState, last: Option<Identity>, org: Option<Org>, mode: Option<Mode>)
    requires Inv(w)
    ensures Kept(w, w.(lastPersisted := last, storedOrg := org, storedMode := mode))
  {
    hide AllAllowed, HeldOk, ClaimsOk, MergesOk, Unmerged, NoMerge;
  }

  lemma ApplyIdentityKeeps(w: SeamState, sub: Sub)
    requires Inv(w) && w.started && w.session.Some?
    ensures Kept(w, ApplyIdentity(w, sub))
  {
    hide Inv, Funnel, Advances, Persist, Mergeable;
    if w.identifiedAs == Some(sub) {
      Unmoved(w);
    } else {
      var clean := if w.everIdentified then ResetClient(w).(identifiedAs := None) else w;
      if w.everIdentified {
        ResetClientKeeps(w);
      } else {
        Unmoved(w);
        NobodyYet(w);
      }
      IdentifyKeeps(clean, sub);
      var named := Identified(clean, sub);
      KeptTransitive(w, clean, named);
      RecordNotedKeeps(named, None, named.storedOrg, named.storedMode);
      var noted := named.(lastPersisted := None);
      KeptTransitive(w, named, noted);
      PersistKeeps(noted);
      KeptTransitive(w, noted, Persist(noted));
    }
  }

  /** Before anybody was identified, the id the client has is nobody's. */
  lemma NobodyYet(w: SeamState)
    requires Inv(w) && !w.everIdentified
    ensures w.client.id.Account? || Mergeable(w.window, w.draws, w.log, w.client.id)
  {
  }

  // ---- Items ----

  lemma TrackKeeps(w: SeamState, m: Milestone)
    requires Inv(w)
    ensures Kept(w, Track(w, m))
  {
    hide Inv, Funnel, Advances, Spawn;
    SpawnKeeps(w, Waiting(MilestoneItem(m), w.boot != NotBooted));
    Unmoved(w);
  }

  lemma AskedKeeps(w: SeamState, asked: set<Milestone>)
    requires Inv(w)
    ensures Kept(w, w.(asked := asked))
  {
    hide AllAllowed, NonePastGate, HeldOk, ClaimsOk, MergesOk, Unmerged, NoMerge, LogGrows, ClaimsStay;
    NothingSent(w);
  }

  lemma SpendMarkerKeeps(w: SeamState, m: Milestone)
    requires Inv(w)
    ensures Kept(w, SpendMarker(w, m))
  {
    hide Inv, Funnel, Advances, Spawn;
    var asking := w.(asked := w.asked + {m});
    AskedKeeps(w, asking.asked);
    SpawnKeeps(asking, SpendClaim(m));
    KeptTransitive(w, asking, SpendMarker(w, m));
  }

  lemma RunKeeps(w: SeamState, item: Item)
    requires Inv(w) && Funnel(w) == Open
    ensures Kept(w, Run(w, item))
  {
    hide Inv, Advances, Spawn, Capture;
    Unmoved(w);
    match item
    case MilestoneItem(m) => SpawnKeeps(w, OrgWait(m, CurrentOrg(w).Some?));
    case FailureItem(report) => CaptureKeeps(w, FailureSent(report));
    case CoworkItem => SpawnKeeps(w, Checking);
  }

  lemma RunAllKeeps(w: SeamState, items: seq<Item>)
    requires Inv(w) && Funnel(w) == Open
    ensures Kept(w, RunAll(w, items))
    decreases |items|
  {
    hide Inv, Funnel, Advances, Run;
    Unmoved(w);
    if items != [] {
      RunKeeps(w, items[0]);
      RunAllKeeps(Run(w, items[0]), items[1..]);
      KeptTransitive(w, Run(w, items[0]), RunAll(w, items));
    }
  }

  lemma SpendKeeps(w: SeamState, item: Item)
    requires Inv(w)
    ensures Kept(w, Spend(w, item))
  {
    hide Inv, Funnel, Advances, SpendMarker;
    Unmoved(w);
    if item.MilestoneItem? { SpendMarkerKeeps(w, item.milestone); }
  }

  lemma SpendAllKeeps(w: SeamState, items: seq<Item>)
    requires Inv(w)
    ensures Kept(w, SpendAll(w, items))
    decreases |items|
  {
    hide Inv, Funnel, Advances, Spend;
    Unmoved(w);
    if items != [] {
      SpendKeeps(w, items[0]);
      SpendAllKeeps(Spend(w, items[0]), items[1..]);
      KeptTransitive(w, Spend(w, items[0]), SpendAll(w, items));
    }
  }

  lemma HoldOk(held: seq<Item>, failures: nat, markers: set<Milestone>, item: Item, more: set<Milestone>)
    requires HeldOk(held, failures, markers) && |held| < HELD_CAP && markers <= more
    requires item.FailureItem? ==> failures < HELD_FAILURE_CAP
    requires item.MilestoneItem? ==> item.milestone !in markers && item.milestone in more
    ensures HeldOk(held + [item], failures + if item.FailureItem? then 1 else 0, more)
  {
    assert (held + [item])[..|held|] == held;
  }

  lemma MoreMarkersOk(held: seq<Item>, failures: nat, markers: set<Milestone>, more: set<Milestone>)
    requires HeldOk(held, failures, markers) && markers <= more
    ensures HeldOk(held, failures, more)
  {
  }

  lemma HeldChangedKeeps(w: SeamState, held: seq<Item>, failures: nat, markers: set<Milestone>)
    requires Inv(w) && HeldOk(held, failures, markers)
    ensures var r := w.(held := held, heldFailures := failures, heldMarkers := markers); Inv(r) && Advances(w, r)
  {
    hide AllAllowed, NonePastGate, HeldOk, ClaimsOk, MergesOk, Unmerged, NoMerge, LogGrows, ClaimsStay;
    NothingSent(w);
  }

  lemma HeldOf(w: SeamState)
    requires Inv(w)
    ensures HeldOk(w.held, w.heldFailures, w.heldMarkers)
  {
    hide GateInv, IdentityInv, HeldOk, ClaimsOk;
  }

  /** An item that fits is appended; `more` is the marker set it was noted in. */
  lemma HoldKeeps(w: SeamState, item: Item, more: set<Milestone>)
    requires Inv(w) && w.heldMarkers <= more && Offered(w, item)
    requires item.MilestoneItem? ==> item.milestone !in w.heldMarkers && item.milestone in more
    ensures Inv(Hold(w.(heldMarkers := more), item)) && Advances(w, Hold(w.(heldMarkers := more), item))
  {
    hide Inv, HeldOk, Advances;
    HeldOf(w);
    var failures := if item.FailureItem? then w.heldFailures + 1 else w.heldFailures;
    HoldOk(w.held, w.heldFailures, w.heldMarkers, item, more);
    HeldChangedKeeps(w, w.held + [item], failures, more);
    assert Hold(w.(heldMarkers := more), item) == w.(held := w.held + [item], heldFailures := failures, heldMarkers := more);
  }

  lemma DropKeeps(w: SeamState, more: set<Milestone>)
    requires Inv(w) && w.heldMarkers <= more
    ensures Inv(w.(heldMarkers := more)) && Advances(w, w.(heldMarkers := more))
  {
    hide Inv, HeldOk, Advances;
    HeldOf(w);
    MoreMarkersOk(w.held, w.heldFailures, w.heldMarkers, more);
    HeldChangedKeeps(w, w.held, w.heldFailures, more);
  }

  lemma OfferKeeps(w: SeamState, item: Item)
    requires Inv(w) && (item.MilestoneItem? ==> Funnel(w) != Held)
    ensures Inv(Offer(w, item)) && Advances(w, Offer(w, item))
  {
    hide Inv, Funnel, Advances, Run, Spend, Offered;
    match Funnel(w)
    case Open => RunKeeps(w, item);
    case Held =>
      Unmoved(w);
      if Offered(w, item) { HoldKeeps(w, item, w.heldMarkers); }
    case Refused => SpendKeeps(w, item);
    case Closed => Unmoved(w);
  }
}
