/**
 The re-read when the hour turns: `msUntilHourRollover` in `src/lib/activity.ts`
 and the timer in `src/NewUiApp.tsx` that sets itself again each time it fires.
 Times are milliseconds on the reader's own clock.
 */
module HourlyRead {
  const HOUR := 3_600_000
  const SPREAD := 120_000

  function HourOf(t: nat): nat {
    t / HOUR
  }

  /** `msUntilHourRollover`, for the random part `roll` of the spread that was drawn. */
  function MsUntilHourRollover(now: nat, roll: nat): nat {
    HOUR - now % HOUR + roll
  }

  /** The same on a date taken apart and put together: minutes and seconds to zero, the hour one up. */
  method UntilRollover(now: nat, roll: nat) returns (wait: nat)
    ensures wait == MsUntilHourRollover(now, roll)
    ensures HourOf(now + wait - roll) == HourOf(now) + 1 && (now + wait - roll) % HOUR == 0
  {
    var next := now;
    next := next - next % HOUR;
    next := next + HOUR;
    HourStarts(now);
    wait := next - now + roll;
  }

  lemma HourStarts(now: nat)
    ensures now - now % HOUR == HOUR * HourOf(now)
    ensures HourOf(HOUR * HourOf(now) + HOUR) == HourOf(now) + 1
    ensures (HOUR * HourOf(now) + HOUR) % HOUR == 0
  {
  }

  /** `at[0]` is the mount and the rest are firings: each timer is set when the one before it fires,
      for a drawn part of the spread, and fires `late` milliseconds after it is due. */
  ghost predicate Fires(at: seq<nat>, rolls: seq<nat>, late: seq<nat>) {
    && |at| == |rolls| + 1 == |late| + 1
    && (forall k :: 0 <= k < |rolls| ==> rolls[k] < SPREAD)
    && forall k :: 0 <= k < |rolls| ==> at[k + 1] == at[k] + MsUntilHourRollover(at[k], rolls[k]) + late[k]
  }

  /** A firing is in the next hour, and as many later ones as the spread and the lateness fill. */
  lemma NextHour(t: nat, roll: nat, late: nat)
    ensures HourOf(t + MsUntilHourRollover(t, roll) + late) == HourOf(t) + 1 + (roll + late) / HOUR
  {
    HourStarts(t);
    var base, over := HourOf(t) + 1, roll + late;
    assert t + MsUntilHourRollover(t, roll) + late == HOUR * base + over;
    HoursAdd(base, over);
  }

  lemma HoursAdd(base: nat, over: nat)
    ensures (HOUR * base + over) / HOUR == base + over / HOUR
  {
  }

  /** One hour is skipped exactly when the spread and the lateness together fill one. */
  lemma NothingSkippedIff(at: seq<nat>, rolls: seq<nat>, late: seq<nat>, k: nat)
    requires Fires(at, rolls, late) && k < |rolls|
    ensures HourOf(at[k + 1]) == HourOf(at[k]) + 1 <==> rolls[k] + late[k] < HOUR
  {
    NextHour(at[k], rolls[k], late[k]);
  }

  predicate Prompt(rolls: seq<nat>, late: seq<nat>, n: nat)
    requires |rolls| == |late|
  {
    forall k :: 0 <= k < n && k < |rolls| ==> rolls[k] + late[k] < HOUR
  }

  lemma {:induction false} FiringHour(at: seq<nat>, rolls: seq<nat>, late: seq<nat>, n: nat)
    requires Fires(at, rolls, late) && n < |at| && Prompt(rolls, late, n)
    ensures HourOf(at[n]) == HourOf(at[0]) + n
    decreases n
  {
    if n > 0 {
      FiringHour(at, rolls, late, n - 1);
      NothingSkippedIff(at, rolls, late, n - 1);
    }
  }

  /** For every choice of the spread, as long as spread and lateness stay under an hour: the read fires
      exactly once in each hour after the mount's, the `k`-th firing in the `k`-th of them. */
  lemma OncePerHour(at: seq<nat>, rolls: seq<nat>, late: seq<nat>, h: nat)
    requires Fires(at, rolls, late) && Prompt(rolls, late, |rolls|)
    requires HourOf(at[0]) < h <= HourOf(at[|at| - 1])
    ensures exists k :: 1 <= k < |at| && HourOf(at[k]) == h
    ensures forall j, k :: 0 <= j < |at| && 0 <= k < |at| && HourOf(at[j]) == h && HourOf(at[k]) == h ==> j == k
  {
    forall k | 0 <= k < |at| ensures HourOf(at[k]) == HourOf(at[0]) + k {
      FiringHour(at, rolls, late, k);
    }
    var k := h - HourOf(at[0]);
    assert HourOf(at[k]) == h;
  }

  /** Two firings are no closer than an hour less the spread, the mount's own gap apart: the endpoint's shared
      budget is never asked twice around one boundary. */
  lemma GapAtLeast(at: seq<nat>, rolls: seq<nat>, late: seq<nat>, k: nat)
    requires Fires(at, rolls, late) && 1 <= k < |rolls| && rolls[k - 1] + late[k - 1] < HOUR
    ensures at[k + 1] - at[k] >= HOUR - (rolls[k - 1] + late[k - 1])
  {
    var over := rolls[k - 1] + late[k - 1];
    HourStarts(at[k - 1]);
    assert at[k] == HOUR * (HourOf(at[k - 1]) + 1) + over;
    Remainder(HourOf(at[k - 1]) + 1, over);
  }

  lemma Remainder(base: nat, over: nat)
    requires over < HOUR
    ensures (HOUR * base + over) % HOUR == over
  {
  }
}
