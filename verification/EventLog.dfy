/**
 The live harness's event log (`src-tauri/examples/ui-harness.rs`) and the page
 that drains it (`e2e/live/install.ts`): polls and replies get lost, the log
 grows meanwhile, and the page is reloaded at any moment, in the middle of a
 batch too.
 */
module EventLog {
  import opened Options

  type Event = nat

  const POLLS := 50

  // ---- The server ----

  /** What `/events` answers off a log: an offset past its end is answered with the end. */
  datatype Answer = Answer(next: nat, events: seq<Event>)

  function AnswerTo(log: seq<Event>, since: nat): Answer {
    if since > |log| then Answer(|log|, []) else Answer(|log|, log[since..])
  }

  function Grown(log: seq<Event>, arrivals: seq<seq<Event>>, n: nat): seq<Event>
    requires n <= |arrivals|
  {
    if n == 0 then log else Grown(log, arrivals, n - 1) + arrivals[n - 1]
  }

  /** The long poll: `arrivals[i]` is what the app emits while the server sleeps for the `i`-th time. It
      answers with the whole of the log past `since` as it stands at the first look that finds any, and
      with nothing, at the same offset, only if every look found none. */
  method Events(log: seq<Event>, since: nat, arrivals: seq<seq<Event>>) returns (answer: Answer, ghost looked: nat)
    requires |arrivals| == POLLS
    ensures looked < POLLS
    ensures since > |log| ==> answer == AnswerTo(log, since)
    ensures since <= |log| ==>
              && (forall n :: 0 <= n < looked ==> |Grown(log, arrivals, n)| <= since)
              && (if |Grown(log, arrivals, looked)| > since
                  then answer == AnswerTo(Grown(log, arrivals, looked), since) && answer.events != []
                  else looked == POLLS - 1 && answer == Answer(since, []))
  {
    looked := 0;
    if since > |log| { return Answer(|log|, []), 0; }
    var now := log;
    var i := 0;
    while i < POLLS
      invariant i <= POLLS && now == Grown(log, arrivals, i)
      invariant looked == if i == 0 then 0 else i - 1
      invariant forall n :: 0 <= n < i ==> |Grown(log, arrivals, n)| <= since
    {
      looked := i;
      if |now| > since { return Answer(since + |now[since..]|, now[since..]), looked; }
      now := now + arrivals[i];
      i := i + 1;
    }
    return Answer(since, []), looked;
  }

  // ---- The page ----

  /** A poll on its way, its answer on its way back, or a batch half delivered. */
  datatype Flight = Idle | Asked | Replied(answer: Answer) | Delivering(next: nat, rest: seq<Event>)

  /** One load of the page: where it started, its offset, what its listeners have been handed. */
  datatype Load = Load(start: nat, since: nat, handed: seq<Event>, flight: Flight)

  /** `first` is the offset the page is installed with; `saved` is session storage's, and `saves` whether
      storage has taken and given back everything so far. */
  datatype System = System(log: seq<Event>, first: nat, saved: Option<nat>, saves: bool, load: Load, past: seq<Load>)

  datatype Act =
    | Emitted(event: Event)
    | Polled
    | Served
    | TimedOut
    | Lost
    | Received
    | Handed
    | Advanced(saves: bool)
    | Reloaded(readable: bool)
    | Restarted

  function End(l: Load): nat {
    l.start + |l.handed|
  }

  function Start(first: nat, saved: Option<nat>): Load {
    Load(saved.OrElse(Some(first)).value, saved.OrElse(Some(first)).value, [], Idle)
  }

  predicate CanAct(s: System, a: Act) {
    match a
    case Emitted(_) => true
    case Polled => s.load.flight.Idle?
    case Served => s.load.flight.Asked?
    case TimedOut => s.load.flight.Asked? && s.load.since <= |s.log|
    case Lost => s.load.flight.Asked? || s.load.flight.Replied?
    case Received => s.load.flight.Replied?
    case Handed => s.load.flight.Delivering? && s.load.flight.rest != []
    case Advanced(_) => s.load.flight.Delivering? && s.load.flight.rest == []
    case Reloaded(_) => true
    case Restarted => true
  }

  function Next(s: System, a: Act): System
    requires CanAct(s, a)
  {
    var l := s.load;
    match a
    case Emitted(event) => s.(log := s.log + [event])
    case Polled => s.(load := l.(flight := Asked))
    case Served => s.(load := l.(flight := Replied(AnswerTo(s.log, l.since))))
    case TimedOut => s.(load := l.(flight := Replied(Answer(l.since, []))))
    case Lost => s.(load := l.(flight := Idle))
    case Received => s.(load := l.(flight := Delivering(l.flight.answer.next, l.flight.answer.events)))
    case Handed =>
      s.(load := l.(handed := l.handed + [l.flight.rest[0]], flight := Delivering(l.flight.next, l.flight.rest[1..])))
    case Advanced(saves) =>
      s.(load := l.(since := l.flight.next, flight := Idle),
         saved := if saves then Some(l.flight.next) else s.saved,
         saves := s.saves && saves)
    case Reloaded(readable) =>
      s.(load := Start(s.first, if readable then s.saved else None), saves := s.saves && readable, past := s.past + [l])
    case Restarted => s.(log := [])
  }

  /** A page and the harnesses it meets, one after another, each with a log of its own. */
  ghost predicate IsHistory(systems: seq<System>, acts: seq<Act>) {
    && |systems| == |acts| + 1
    && systems[0].first <= |systems[0].log| && systems[0].saved.None? && systems[0].saves
    && systems[0].past == [] && systems[0].load == Start(systems[0].first, None)
    && forall n :: 0 <= n < |acts| ==> CanAct(systems[n], acts[n]) && systems[n + 1] == Next(systems[n], acts[n])
  }

  /** A page and one harness. */
  ghost predicate IsRun(systems: seq<System>, acts: seq<Act>) {
    IsHistory(systems, acts) && Restarted !in acts
  }

  /** The segment of the log from `from` to `to`. */
  predicate IsSegment(log: seq<Event>, from: nat, to: nat, events: seq<Event>) {
    from <= to <= |log| && events == log[from..to]
  }

  predicate LoadOk(log: seq<Event>, l: Load) {
    && IsSegment(log, l.start, End(l), l.handed)
    && l.start <= l.since <= End(l)
    && match l.flight
       case Idle => l.since == End(l)
       case Asked => l.since == End(l)
       case Replied(answer) => l.since == End(l) && IsSegment(log, l.since, answer.next, answer.events)
       case Delivering(next, rest) => IsSegment(log, End(l), next, rest)
  }

  /** Some load of the page has handed the event at `k` on. */
  predicate Reached(s: System, k: nat) {
    s.load.start <= k < End(s.load) || exists p <- s.past :: p.start <= k < End(p)
  }

  ghost predicate Inv(s: System) {
    && s.first <= |s.log| && LoadOk(s.log, s.load)
    && (forall p <- s.past :: IsSegment(s.log, p.start, End(p), p.handed))
    && s.first <= s.load.start
    && (s.saved.Some? ==> s.first <= s.saved.value <= |s.log|)
    && (s.saves ==> s.saved.OrElse(Some(s.first)).value == s.load.since)
    && (forall k :: s.first <= k < End(s.load) ==> Reached(s, k))
    && (s.saved.Some? ==> forall k :: s.first <= k < s.saved.value ==> Reached(s, k))
  }

  lemma Longer(log: seq<Event>, event: Event, from: nat, to: nat, events: seq<Event>)
    requires IsSegment(log, from, to, events)
    ensures IsSegment(log + [event], from, to, events)
  {
  }

  lemma LoadLonger(log: seq<Event>, event: Event, l: Load)
    requires LoadOk(log, l)
    ensures LoadOk(log + [event], l)
  {
    Longer(log, event, l.start, End(l), l.handed);
    match l.flight
    case Idle =>
    case Asked =>
    case Replied(answer) => Longer(log, event, l.since, answer.next, answer.events);
    case Delivering(next, rest) => Longer(log, event, End(l), next, rest);
  }

  lemma EmittedKeeps(s: System, event: Event)
    requires Inv(s)
    ensures Inv(Next(s, Emitted(event)))
  {
    var r := Next(s, Emitted(event));
    LoadLonger(s.log, event, s.load);
    forall p <- r.past ensures IsSegment(r.log, p.start, End(p), p.handed) {
      Longer(s.log, event, p.start, End(p), p.handed);
    }
    forall k | Reached(s, k) ensures Reached(r, k) {}
    hide LoadOk, IsSegment;
  }

  lemma HandedKeeps(s: System)
    requires Inv(s) && CanAct(s, Handed)
    ensures Inv(Next(s, Handed))
  {
    var l, r := s.load, Next(s, Handed);
    var next, rest := l.flight.next, l.flight.rest;
    assert rest[1..] == s.log[End(l) + 1..next];
    assert r.load.handed == s.log[l.start..End(l) + 1];
    forall k | s.first <= k < End(r.load) ensures Reached(r, k) {
      if k < End(l) { assert Reached(s, k); }
    }
    if s.saved.Some? {
      forall k | s.first <= k < s.saved.value ensures Reached(r, k) { assert Reached(s, k); }
    }
  }

  lemma ReloadedKeeps(s: System, readable: bool)
    requires Inv(s)
    ensures Inv(Next(s, Reloaded(readable)))
  {
    var r := Next(s, Reloaded(readable));
    assert r.past[|s.past|] == s.load;
    forall k | s.first <= k < End(r.load) ensures Reached(r, k) {
      assert Reached(s, k);
      StillReached(s, r, k);
    }
    if s.saved.Some? {
      forall k | s.first <= k < s.saved.value ensures Reached(r, k) {
        assert Reached(s, k);
        StillReached(s, r, k);
      }
    }
  }

  lemma StillReached(s: System, r: System, k: nat)
    requires Reached(s, k) && r.past == s.past + [s.load]
    ensures Reached(r, k)
  {
    assert s.load in r.past;
    assert forall p <- s.past :: p in r.past;
  }

  /** The polls and their answers, and the advance past a batch, hand nothing on themselves. */
  lemma QuietKeeps(s: System, a: Act)
    requires Inv(s) && CanAct(s, a) && !a.Emitted? && !a.Handed? && !a.Reloaded? && !a.Restarted?
    ensures Inv(Next(s, a))
  {
    var r := Next(s, a);
    assert r.load.start == s.load.start && r.load.handed == s.load.handed && r.past == s.past;
    forall k | Reached(s, k) ensures Reached(r, k) {}
  }

  lemma NextKeepsInv(s: System, a: Act)
    requires Inv(s) && CanAct(s, a) && !a.Restarted?
    ensures Inv(Next(s, a))
  {
    hide Inv;
    match a
    case Emitted(event) => EmittedKeeps(s, event);
    case Handed => HandedKeeps(s);
    case Reloaded(readable) => ReloadedKeeps(s, readable);
    case _ => QuietKeeps(s, a);
  }

  lemma {:induction false} RunKeepsInv(systems: seq<System>, acts: seq<Act>, n: nat)
    requires IsRun(systems, acts) && n < |systems|
    ensures Inv(systems[n])
    decreases n
  {
    hide Inv, Next, CanAct;
    if n == 0 {
      assert Inv(systems[0]) by { Installed(systems[0]); }
    } else {
      RunKeepsInv(systems, acts, n - 1);
      NextKeepsInv(systems[n - 1], acts[n - 1]);
    }
  }

  lemma Installed(s: System)
    requires s.first <= |s.log| && s.saved.None? && s.past == [] && s.load == Start(s.first, None)
    ensures Inv(s)
  {
  }

  /** Each load of the page, the current one and those before it, hands on exactly the segment of the log
      from where it started, in order, without a gap or a repeat, whatever was lost or timed out; and
      between them nothing from where the page was installed is left out. */
  lemma PageHandsOnTheLog(systems: seq<System>, acts: seq<Act>, n: nat)
    requires IsRun(systems, acts) && n < |systems|
    ensures var s := systems[n];
            && IsSegment(s.log, s.load.start, End(s.load), s.load.handed)
            && (forall p <- s.past :: IsSegment(s.log, p.start, End(p), p.handed))
            && (forall k :: s.first <= k < End(s.load) ==> Reached(s, k))
  {
    RunKeepsInv(systems, acts, n);
    hide IsRun;
  }

  /** In every history a poll that is lost, or that nothing came of, leaves the page to ask again from where it was. */
  lemma LostIsAskedAgain(systems: seq<System>, acts: seq<Act>, n: nat)
    requires IsHistory(systems, acts) && n < |acts|
    ensures var s, r := systems[n], systems[n + 1];
            && (acts[n] == Lost ==> r == s.(load := s.load.(flight := Idle)) && CanAct(r, Polled))
            && (acts[n] == TimedOut ==> r.load.flight == Replied(Answer(s.load.since, [])) && r.load.since == s.load.since)
            && (acts[n] == Polled ==> r.load.flight.Asked? && CanAct(r, Served))
  {
    assert CanAct(systems[n], acts[n]) && systems[n + 1] == Next(systems[n], acts[n]);
  }

  /** A batch on its way to the listeners stays the same batch while its events are handed on and the log grows. */
  lemma {:induction false} BatchGoesOn(systems: seq<System>, acts: seq<Act>, r: nat, j: nat)
    requires IsHistory(systems, acts) && r < j < |systems| && acts[r] == Received
    requires forall i :: r < i < j ==> acts[i].Emitted? || acts[i] == Handed
    ensures systems[r].load.flight.Replied?
    ensures systems[j].load.flight.Delivering? && systems[j].load.flight.next == systems[r].load.flight.answer.next
    decreases j
  {
    assert CanAct(systems[r], acts[r]) && systems[r + 1] == Next(systems[r], acts[r]);
    if j > r + 1 {
      BatchGoesOn(systems, acts, r, j - 1);
      assert systems[j] == Next(systems[j - 1], acts[j - 1]);
    }
  }

  /** And it does hand it on: once the answer to a poll is received and its batch delivered, the page has handed on,
      from where it started, all of the log as it stood when the poll was served, and goes on from there; and so
      does the next load of it, if storage took that. */
  lemma PageCatchesUp(systems: seq<System>, acts: seq<Act>, v: nat, r: nat, d: nat)
    requires IsRun(systems, acts) && v < r < d < |acts|
    requires acts[v] == Served && acts[r] == Received && acts[d].Advanced?
    requires (forall i :: v < i < r ==> acts[i].Emitted?) && (forall i :: r < i < d ==> acts[i].Emitted? || acts[i] == Handed)
    ensures var s, log := systems[d + 1], systems[v].log;
            && s.load.since == |log| == End(s.load) && s.load.flight.Idle? && log <= s.log
            && s.load.start <= |log| && s.load.handed == log[s.load.start..]
            && (acts[d].saves ==> s.saved == Some(|log|))
  {
    RunKeepsInv(systems, acts, v);
    RunKeepsInv(systems, acts, d + 1);
    AnswerWaits(systems, acts, v, r);
    BatchGoesOn(systems, acts, r, d);
    LogGrowsOn(systems, acts, v, d + 1);
    assert CanAct(systems[d], acts[d]) && systems[d + 1] == Next(systems[d], acts[d]);
    assert CanAct(systems[v], acts[v]);
    hide IsRun;
  }

  lemma {:induction false} LogGrowsOn(systems: seq<System>, acts: seq<Act>, m: nat, n: nat)
    requires IsRun(systems, acts) && m <= n < |systems|
    ensures systems[m].log <= systems[n].log
    decreases n
  {
    if m < n {
      LogGrowsOn(systems, acts, m, n - 1);
      assert acts[n - 1] in acts;
      assert systems[n] == Next(systems[n - 1], acts[n - 1]);
    }
  }

  /** The part of the batch in flight a load has already handed on. */
  function HandedOfBatch(l: Load): nat
    requires l.since <= End(l)
  {
    End(l) - l.since
  }

  /** While session storage works, a reload starts where the last batch began: it loses nothing, and
      repeats only what had been handed on of a batch in flight; nothing, if none was. */
  lemma ReloadRepeatsOnlyTheBatch(systems: seq<System>, acts: seq<Act>, n: nat)
    requires IsRun(systems, acts) && n < |acts| && acts[n].Reloaded? && systems[n + 1].saves
    ensures var l, r := systems[n].load, systems[n + 1].load;
            && r.start == l.since <= End(l)
            && End(l) - r.start == HandedOfBatch(l)
            && (!l.flight.Delivering? ==> r.start == End(l))
            && (l.flight.Delivering? ==> r.handed == [] && End(l) + |l.flight.rest| == l.flight.next)
  {
    RunKeepsInv(systems, acts, n);
    assert systems[n + 1] == Next(systems[n], acts[n]);
    hide IsRun;
  }

  /** When storage does not work nothing is lost either: a reload never starts past what was handed on. */
  lemma ReloadNeverSkips(systems: seq<System>, acts: seq<Act>, n: nat)
    requires IsRun(systems, acts) && n < |acts| && acts[n].Reloaded?
    ensures forall k :: systems[n].first <= k < systems[n + 1].load.start ==> Reached(systems[n], k)
  {
    RunKeepsInv(systems, acts, n);
    assert systems[n + 1] == Next(systems[n], acts[n]);
    hide IsRun;
  }

  // ---- A harness that restarts ----

  /** Where a page at `since` comes into the log of a harness it did not know. */
  function Entry(log: seq<Event>, since: nat): nat {
    if since > |log| then |log| else since
  }

  /** After the restart at `t`, the poll served at `v` is the first whose answer is received, at `r`; and
      neither a restart nor a reload comes before `n`. */
  ghost predicate Resumes(systems: seq<System>, acts: seq<Act>, t: nat, v: nat, r: nat, n: nat) {
    && IsHistory(systems, acts) && t < v < r < n < |systems|
    && acts[t] == Restarted && acts[v] == Served && acts[r] == Received
    && (forall j :: t < j < n ==> acts[j] != Restarted && !acts[j].Reloaded?)
    && (forall j :: v < j < r ==> acts[j].Emitted?)
    && (forall j :: t < j < v && acts[j] == Received ==> forall u :: t < u < j ==> acts[u] != Served)
  }

  /** What a load has handed on since it had handed on `h`, seen as a load that started at `from`. */
  function Since(l: Load, from: nat, h: nat): Load
    requires h <= |l.handed|
  {
    Load(from, if l.flight.Delivering? then from else l.since, l.handed[h..], l.flight)
  }

  predicate ResumedOk(s: System, from: nat, h: nat) {
    h <= |s.load.handed| && LoadOk(s.log, Since(s.load, from, h))
  }

  lemma ResumedHanded(s: System, from: nat, h: nat)
    requires ResumedOk(s, from, h) && CanAct(s, Handed)
    ensures ResumedOk(Next(s, Handed), from, h) && Next(s, Handed).load.handed[..h] == s.load.handed[..h]
  {
    var l := Since(s.load, from, h);
    var rest, next := s.load.flight.rest, s.load.flight.next;
    assert rest[1..] == s.log[End(l) + 1..next];
    assert (s.load.handed + [rest[0]])[h..] == l.handed + [rest[0]];
    assert l.handed + [rest[0]] == s.log[from..End(l) + 1];
  }

  lemma ResumedQuiet(s: System, a: Act, from: nat, h: nat)
    requires ResumedOk(s, from, h) && CanAct(s, a) && !a.Emitted? && !a.Handed? && !a.Restarted? && !a.Reloaded?
    ensures ResumedOk(Next(s, a), from, h) && Next(s, a).load.handed == s.load.handed
  {
    assert Since(s.load, from, h).handed == Since(Next(s, a).load, from, h).handed;
  }

  lemma ResumedStep(s: System, a: Act, from: nat, h: nat)
    requires ResumedOk(s, from, h) && CanAct(s, a) && a != Restarted && !a.Reloaded?
    ensures ResumedOk(Next(s, a), from, h)
    ensures Next(s, a).load.handed[..h] == s.load.handed[..h]
  {
    match a
    case Emitted(event) => LoadLonger(s.log, event, Since(s.load, from, h));
    case Handed => ResumedHanded(s, from, h);
    case _ => ResumedQuiet(s, a, from, h);
    hide LoadOk;
  }

  /** An answer that is on its way back stays as it is while the log grows. */
  lemma {:induction false} AnswerWaits(systems: seq<System>, acts: seq<Act>, v: nat, j: nat)
    requires IsHistory(systems, acts) && v < j < |systems| && acts[v] == Served
    requires forall i :: v < i < j ==> acts[i].Emitted?
    ensures systems[j].load == Next(systems[v], Served).load && systems[v].log <= systems[j].log
    decreases j
  {
    assert systems[v + 1] == Next(systems[v], acts[v]);
    if j > v + 1 {
      AnswerWaits(systems, acts, v, j - 1);
      assert systems[j] == Next(systems[j - 1], acts[j - 1]);
    }
  }

  lemma ResumesThere(systems: seq<System>, acts: seq<Act>, v: nat, r: nat)
    requires IsHistory(systems, acts) && v < r < |acts| && acts[v] == Served && acts[r] == Received
    requires forall i :: v < i < r ==> acts[i].Emitted?
    ensures ResumedOk(systems[r + 1], Entry(systems[v].log, systems[v].load.since), |systems[r].load.handed|)
    ensures systems[r + 1].load.handed == systems[r].load.handed
  {
    AnswerWaits(systems, acts, v, r);
    assert systems[r + 1] == Next(systems[r], Received);
    var log, since := systems[v].log, systems[v].load.since;
    var from := Entry(log, since);
    assert AnswerTo(log, since).events == log[from..];
    assert log[from..] == systems[r].log[from..|log|];
  }

  /** A harness that restarted has a new log. From the first answer the page receives of it, this load hands
      on exactly the new log from `Entry` on, in order, each event once: the events before it, as many as
      the old offset or as the new log held by then, whichever is fewer, are missed; none, exactly when that
      is none. */
  lemma {:induction false} RestartMissesTheStart(systems: seq<System>, acts: seq<Act>, t: nat, v: nat, r: nat, n: nat)
    requires Resumes(systems, acts, t, v, r, n)
    ensures var from, h, s := Entry(systems[v].log, systems[v].load.since), |systems[r].load.handed|, systems[n];
            && ResumedOk(s, from, h)
            && s.load.handed[..h] == systems[r].load.handed
            && IsSegment(s.log, from, from + |s.load.handed| - h, s.load.handed[h..])
    decreases n
  {
    var from, h := Entry(systems[v].log, systems[v].load.since), |systems[r].load.handed|;
    hide ResumedOk, Next, CanAct, Entry;
    if n == r + 1 {
      ResumesThere(systems, acts, v, r);
      HandedAll(systems[r].load.handed);
    } else {
      RestartMissesTheStart(systems, acts, t, v, r, n - 1);
      ResumedStep(systems[n - 1], acts[n - 1], from, h);
    }
    ResumedSegment(systems[n], from, h);
  }

  lemma HandedAll(handed: seq<Event>)
    ensures handed[..|handed|] == handed
  {
  }

  lemma ResumedSegment(s: System, from: nat, h: nat)
    requires ResumedOk(s, from, h)
    ensures h <= |s.load.handed| && IsSegment(s.log, from, from + |s.load.handed| - h, s.load.handed[h..])
  {
  }

  /** `a` can happen at `s` and takes it to `r`. */
  predicate Follows(s: System, a: Act, r: System) {
    CanAct(s, a) && r == Next(s, a)
  }

  lemma OneHandedOn(first: Event) returns (s0: System, s1: System, s2: System, s3: System, s4: System, s5: System, s6: System)
    ensures s0 == System([], 0, None, true, Start(0, None), [])
    ensures Follows(s0, Emitted(first), s1) && Follows(s1, Polled, s2) && Follows(s2, Served, s3)
    ensures Follows(s3, Received, s4) && Follows(s4, Handed, s5) && Follows(s5, Advanced(true), s6)
    ensures s6.load == Load(0, 1, [first], Idle)
  {
    s0 := System([], 0, None, true, Start(0, None), []);
    s1 := s0.(log := [first]);
    s2 := s1.(load := s0.load.(flight := Asked));
    s3 := s1.(load := s0.load.(flight := Replied(Answer(1, [first]))));
    s4 := s1.(load := s0.load.(flight := Delivering(1, [first])));
    s5 := s1.(load := s0.load.(handed := [first], flight := Delivering(1, [])));
    s6 := s1.(load := Load(0, 1, [first], Idle), saved := Some(1));
    assert [first][0..] == [first] && [first][1..] == [];
  }

  lemma OneMissed(s6: System, first: Event, second: Event) returns (s7: System, s8: System, s9: System, s10: System, s11: System)
    requires s6.load == Load(0, 1, [first], Idle)
    ensures Follows(s6, Restarted, s7) && Follows(s7, Emitted(second), s8) && Follows(s8, Polled, s9)
    ensures Follows(s9, Served, s10) && Follows(s10, Received, s11)
    ensures s9.log == s11.log == [second] && s11.load.handed == [first] && s9.load.since == 1
  {
    s7 := s6.(log := []);
    s8 := s6.(log := [second]);
    s9 := s8.(load := Load(0, 1, [first], Asked));
    s10 := s8.(load := Load(0, 1, [first], Replied(Answer(1, []))));
    s11 := s8.(load := Load(0, 1, [first], Delivering(1, [])));
    assert [second][1..] == [];
  }

  /** It does miss events: a page that has handed on one event of a log meets a harness that has emitted one
      of its own, and moves on past it. */
  lemma RestartMissesAnEvent(first: Event, second: Event)
    ensures exists systems: seq<System>, acts :: Resumes(systems, acts, 6, 9, 10, 11)
              && systems[11].log == [second] && systems[11].load.handed == [first]
              && Entry(systems[9].log, systems[9].load.since) == 1
  {
    hide Next, CanAct;
    var s0, s1, s2, s3, s4, s5, s6 := OneHandedOn(first);
    var s7, s8, s9, s10, s11 := OneMissed(s6, first, second);
    var acts := [Emitted(first), Polled, Served, Received, Handed, Advanced(true), Restarted, Emitted(second), Polled, Served, Received];
    var systems := [s0, s1, s2, s3, s4, s5, s6, s7, s8, s9, s10, s11];
    assert IsHistory(systems, acts);
    assert Resumes(systems, acts, 6, 9, 10, 11);
  }

  // ---- The drain loop as it runs ----

  class Bridge {
    var since: nat
    var stored: Option<nat>
    ghost var handed: seq<Event>

    constructor (first: nat, saved: Option<nat>)
      ensures since == Start(first, saved).since && stored == saved && handed == []
    {
      since := if saved.Some? then saved.value else first;
      stored, handed := saved, [];
    }

    /** One turn of the loop whose answer came back: deliver first, then advance, then save. */
    method Drain(answer: Answer, saves: bool)
      modifies this
      ensures handed == old(handed) + answer.events
      ensures since == answer.next
      ensures stored == if saves then Some(answer.next) else old(stored)
    {
      var i := 0;
      while i < |answer.events|
        invariant i <= |answer.events| && handed == old(handed) + answer.events[..i]
        invariant since == old(since) && stored == old(stored)
      {
        handed := handed + [answer.events[i]];
        i := i + 1;
      }
      since := answer.next;
      if saves { stored := Some(since); }
    }
  }
}
