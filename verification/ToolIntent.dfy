/**
 A tool's switch over reads that may fail (`status_for`, `switch_on` and
 `disconnect_tool` in `src-tauri/src/commands.rs`): what the last read that
 answered said, kept in the preferences, stands in for one that does not.
 */
module ToolIntent {
  import opened Options

  type Tool = nat

  datatype Status = NotInstalled | Detected | Connected | Drifted | Overridden

  /** What the window is shown; an unreadable tool carries the switch's last known side. */
  datatype Shown = Read(status: Status) | Unreadable(intended: bool)

  /** A tool's config, as a counter of rewrites, and what the preferences record of every switch. */
  datatype Machine = Machine(rewrites: map<Tool, nat>, recorded: map<Tool, bool>)

  /** A removal that fails may have rewritten the config before it did. */
  datatype Removal = Removed | FailedUntouched | FailedRewritten

  /** What the platform does when asked: reads may fail, writes may fail. */
  datatype Act =
    | ReadStatus(tool: Tool, answer: Option<Status>, writeFails: bool)
    | Disconnect(tool: Tool, before: Option<Status>, intentFails: bool, removal: Removal, after: Option<Status>, writeFails: bool)

  datatype Reply = Showing(shown: Shown) | Refused

  /** `switch_on`. */
  function SwitchOn(status: Status): Option<bool> {
    match status
    case NotInstalled => None
    case Detected => Some(false)
    case Connected => Some(true)
    case Drifted => Some(true)
    case Overridden => Some(true)
  }

  function Recorded(m: Machine, tool: Tool, on: bool, fails: bool): Machine {
    if fails then m else m.(recorded := m.recorded[tool := on])
  }

  /** `status_for`. */
  function StatusFor(m: Machine, tool: Tool, answer: Option<Status>, writeFails: bool): (Machine, Shown) {
    match answer
    case Some(status) =>
      (if SwitchOn(status).Some? then Recorded(m, tool, SwitchOn(status).value, writeFails) else m, Read(status))
    case None => (m, Unreadable(tool in m.recorded && m.recorded[tool]))
  }

  function Rewritten(m: Machine, tool: Tool): Machine {
    m.(rewrites := m.rewrites[tool := (if tool in m.rewrites then m.rewrites[tool] else 0) + 1])
  }

  /** `disconnect_tool`: a config that cannot be read is recorded off and left alone. */
  function Disconnected(m: Machine, a: Act): (Machine, Reply)
    requires a.Disconnect?
  {
    if a.before.None? then (Recorded(m, a.tool, false, a.intentFails), Refused)
    else if a.removal == FailedUntouched then (m, Refused)
    else if a.removal == FailedRewritten then (Rewritten(m, a.tool), Refused)
    else
      var (r, shown) := StatusFor(Rewritten(m, a.tool), a.tool, a.after, a.writeFails);
      (r, Showing(shown))
  }

  function Next(m: Machine, a: Act): (Machine, Reply) {
    match a
    case ReadStatus(tool, answer, writeFails) =>
      var (r, shown) := StatusFor(m, tool, answer, writeFails);
      (r, Showing(shown))
    case Disconnect(_, _, _, _, _, _) => Disconnected(m, a)
  }

  ghost predicate IsRun(machines: seq<Machine>, acts: seq<Act>) {
    && |machines| == |acts| + 1 && machines[0] == Machine(map[], map[])
    && forall n :: 0 <= n < |acts| ==> machines[n + 1] == Next(machines[n], acts[n]).0
  }

  /** The side an act puts on record for `tool`, if it puts one. */
  function Records(a: Act, tool: Tool): Option<bool> {
    if a.tool != tool then None
    else match a
      case ReadStatus(_, answer, writeFails) =>
        if answer.Some? && !writeFails then SwitchOn(answer.value) else None
      case Disconnect(_, before, intentFails, removal, after, writeFails) =>
        if before.None? then if intentFails then None else Some(false)
        else if removal != Removed || after.None? || writeFails then None
        else SwitchOn(after.value)
  }

  /** The answer last recorded by the first `n` acts; off if none was. */
  function LastRecorded(acts: seq<Act>, n: nat, tool: Tool): bool
    requires n <= |acts|
    decreases n
  {
    if n == 0 then false
    else Records(acts[n - 1], tool).OrElse(Some(LastRecorded(acts, n - 1, tool))).value
  }

  lemma {:induction false} RecordIsLast(machines: seq<Machine>, acts: seq<Act>, n: nat, tool: Tool)
    requires IsRun(machines, acts) && n < |machines|
    ensures (tool in machines[n].recorded && machines[n].recorded[tool]) == LastRecorded(acts, n, tool)
    decreases n
  {
    if n > 0 {
      RecordIsLast(machines, acts, n - 1, tool);
    }
  }

  /** Over any history of reads that answer, fail or find no tool, of disconnects refused or not, and of
      preference writes that fail: an unreadable tool's switch says the last answer recorded for it. */
  lemma UnreadableSaysLastAnswer(machines: seq<Machine>, acts: seq<Act>, n: nat)
    requires IsRun(machines, acts) && n < |acts|
    ensures var reply := Next(machines[n], acts[n]).1;
            reply.Showing? && reply.shown.Unreadable? ==>
              reply.shown.intended == LastRecorded(acts, n + 1, acts[n].tool) == LastRecorded(acts, n, acts[n].tool)
  {
    RecordIsLast(machines, acts, n, acts[n].tool);
    RecordIsLast(machines, acts, n + 1, acts[n].tool);
  }

  /** Nothing answers for `tool` from `k` on, before `n`. */
  ghost predicate QuietSince(acts: seq<Act>, k: nat, n: nat, tool: Tool)
    requires n <= |acts|
  {
    forall j :: k <= j < n ==> acts[j].tool != tool || (acts[j].ReadStatus? && acts[j].answer.None?)
  }

  lemma {:induction false} QuietKeepsRecord(acts: seq<Act>, k: nat, n: nat, tool: Tool)
    requires k <= n <= |acts| && QuietSince(acts, k, n, tool)
    ensures LastRecorded(acts, n, tool) == LastRecorded(acts, k, tool)
    decreases n
  {
    if k < n { QuietKeepsRecord(acts, k, n - 1, tool); }
  }

  /** The side an installed tool's status is on: on once it is connected, however its config has fared since; and
      off while it is only detected. In every history, that is what its switch shows for as long as it cannot be
      read after a read whose record was written; a tool found not installed changes nothing on record. */
  lemma UnreadableShowsTheSideRead(machines: seq<Machine>, acts: seq<Act>, k: nat, n: nat)
    requires IsRun(machines, acts) && k < n < |acts| && QuietSince(acts, k + 1, n + 1, acts[k].tool)
    requires acts[k].ReadStatus? && acts[k].answer.Some? && !acts[k].writeFails && acts[n].tool == acts[k].tool
    ensures var status := acts[k].answer.value;
            Next(machines[n], acts[n]).1 ==
            Showing(Unreadable(if status == NotInstalled then LastRecorded(acts, k, acts[k].tool)
                               else status in {Connected, Drifted, Overridden}))
  {
    RecordIsLast(machines, acts, n, acts[k].tool);
    QuietKeepsRecord(acts, k + 1, n, acts[k].tool);
    match acts[k].answer.value
    case NotInstalled =>
    case Detected =>
    case Connected =>
    case Drifted =>
    case Overridden =>
  }

  function Rewrites(m: Machine, tool: Tool): nat {
    if tool in m.rewrites then m.rewrites[tool] else 0
  }

  /** The act is a disconnect of `tool` that read its config and then came to write it. */
  predicate Writes(a: Act, tool: Tool) {
    a.Disconnect? && a.tool == tool && a.before.Some? && a.removal != FailedUntouched
  }

  function Removals(acts: seq<Act>, n: nat, tool: Tool): nat
    requires n <= |acts|
    decreases n
  {
    if n == 0 then 0 else Removals(acts, n - 1, tool) + if Writes(acts[n - 1], tool) then 1 else 0
  }

  lemma WritesOnce(m: Machine, a: Act, tool: Tool)
    ensures Rewrites(Next(m, a).0, tool) == Rewrites(m, tool) + if Writes(a, tool) then 1 else 0
    ensures a.Disconnect? && Next(m, a).1 != Refused ==> Writes(a, a.tool)
  {
    match a
    case ReadStatus(_, _, _) =>
    case Disconnect(_, _, _, _, _, _) =>
  }

  /** A config is rewritten once for each disconnect of its tool that could read it and came to write it,
      through or not, and by nothing else here: no read, no refusal of a config that cannot be read, and
      no other tool's disconnect touches it. One that goes through always has. */
  lemma {:induction false} OnlyDisconnectsRewrite(machines: seq<Machine>, acts: seq<Act>, n: nat, tool: Tool)
    requires IsRun(machines, acts) && n < |machines|
    ensures Rewrites(machines[n], tool) == Removals(acts, n, tool)
    ensures n > 0 && acts[n - 1].Disconnect? && Next(machines[n - 1], acts[n - 1]).1 != Refused ==> Writes(acts[n - 1], acts[n - 1].tool)
    decreases n
  {
    hide Next, Writes;
    if n > 0 {
      OnlyDisconnectsRewrite(machines, acts, n - 1, tool);
      WritesOnce(machines[n - 1], acts[n - 1], tool);
    }
  }

  /** After a refused disconnect of an unreadable tool whose record was written, its switch reads off for
      as long as nothing answers, and its config is as it was. */
  lemma {:induction false} RefusedReadsOff(machines: seq<Machine>, acts: seq<Act>, k: nat, n: nat)
    requires IsRun(machines, acts) && k < n <= |acts|
    requires acts[k].Disconnect? && acts[k].before.None? && !acts[k].intentFails
    requires forall j :: k < j < n ==> Records(acts[j], acts[k].tool).None?
    ensures !LastRecorded(acts, n, acts[k].tool)
    ensures Rewrites(machines[k + 1], acts[k].tool) == Rewrites(machines[k], acts[k].tool)
    decreases n
  {
    if n > k + 1 { RefusedReadsOff(machines, acts, k, n - 1); }
  }

  /** The commands as they run, on one machine. */
  class Platform {
    var rewrites: map<Tool, nat>
    var recorded: map<Tool, bool>

    function Now(): Machine
      reads this
    {
      Machine(rewrites, recorded)
    }

    constructor ()
      ensures Now() == Machine(map[], map[])
    {
      rewrites, recorded := map[], map[];
    }

    method ReadOne(tool: Tool, answer: Option<Status>, writeFails: bool) returns (shown: Shown)
      modifies this`recorded
      ensures (Now(), shown) == StatusFor(old(Now()), tool, answer, writeFails)
    {
      if answer.Some? {
        var on := SwitchOn(answer.value);
        if on.Some? && !writeFails { recorded := recorded[tool := on.value]; }
        return Read(answer.value);
      }
      return Unreadable(tool in recorded && recorded[tool]);
    }

    method DisconnectTool(tool: Tool, before: Option<Status>, intentFails: bool, removal: Removal,
                          after: Option<Status>, writeFails: bool)
      returns (reply: Reply)
      modifies this
      ensures (Now(), reply) == Disconnected(old(Now()), Disconnect(tool, before, intentFails, removal, after, writeFails))
    {
      if before.None? {
        if !intentFails { recorded := recorded[tool := false]; }
        return Refused;
      }
      if removal == FailedUntouched { return Refused; }
      rewrites := rewrites[tool := (if tool in rewrites then rewrites[tool] else 0) + 1];
      if removal == FailedRewritten { return Refused; }
      var shown := ReadOne(tool, after, writeFails);
      return Showing(shown);
    }
  }
}
