/**
 * The host's one-shot timer facility (`setTimeout` / `clearTimeout`), reduced to
 * a table from timer handles to the absolute deadline, in milliseconds, at which
 * each pending timer is due. A timer that fires, or is cleared, leaves the table.
 */
module Timers {
  import opened Wrappers

  type Handle = nat

  datatype TimerTable = TimerTable(pending: map<Handle, nat>, nextHandle: Handle)

  /** Every pending handle was issued earlier, so the next handle is a fresh one. */
  predicate Valid(t: TimerTable)
  {
    forall h :: h in t.pending ==> h < t.nextHandle
  }

  const Empty: TimerTable := TimerTable(map[], 0)

  /** The largest delay, in milliseconds, the host honours (2^31 - 1). */
  const TimeoutMax: nat := 2147483647

  /**
   * The delay the host actually applies: a requested delay below 1 ms or above
   * `TimeoutMax` is replaced by 1 ms.
   */
  function EffectiveDelay(delay: int): (d: nat)
    ensures 1 <= d <= TimeoutMax
    ensures 1 <= delay <= TimeoutMax ==> d == delay
    ensures !(1 <= delay <= TimeoutMax) ==> d == 1
  {
    if 1 <= delay <= TimeoutMax then delay else 1
  }

  /** Schedules a timer due at `deadline` and returns the table and the new timer's handle. */
  function SetTimeout(t: TimerTable, deadline: nat): (r: (TimerTable, Handle))
    requires Valid(t)
    ensures Valid(r.0)
    ensures r.1 !in t.pending
    ensures t.nextHandle <= r.1 < r.0.nextHandle
    ensures r.0.pending == t.pending[r.1 := deadline]
  {
    (TimerTable(t.pending[t.nextHandle := deadline], t.nextHandle + 1), t.nextHandle)
  }

  /** Cancels timer `h`; clearing a timer that already fired or was cleared does nothing. */
  function ClearTimeout(t: TimerTable, h: Handle): (r: TimerTable)
    requires Valid(t)
    ensures Valid(r)
    ensures h !in r.pending
    ensures forall g :: g != h ==> (g in r.pending <==> g in t.pending)
    ensures forall g :: g in r.pending ==> r.pending[g] == t.pending[g]
    ensures h !in t.pending ==> r.pending == t.pending
    ensures r.nextHandle == t.nextHandle
  {
    TimerTable(t.pending - {h}, t.nextHandle)
  }

  /** The handles an owner that keeps at most one stored handle may have pending. */
  function Held(h: Option<Handle>): set<Handle>
  {
    if h.Some? then {h.value} else {}
  }

  /**
   * Cancel-before-reschedule: if only the stored handle can be pending, clearing
   * it and then scheduling leaves exactly one pending timer, the new one.
   */
  lemma CancelThenSchedule(t: TimerTable, stored: Option<Handle>, deadline: nat)
    requires Valid(t) && t.pending.Keys <= Held(stored)
    ensures var t1 := if stored.Some? then ClearTimeout(t, stored.value) else t;
            SetTimeout(t1, deadline).0.pending == map[SetTimeout(t1, deadline).1 := deadline]
  {
  }

  /** Scheduling without cancelling a still-pending timer leaves two distinct pending timers. */
  lemma ScheduleWithoutCancel(t: TimerTable, stored: Handle, deadline: nat)
    requires Valid(t) && stored in t.pending
    ensures var (t2, h) := SetTimeout(t, deadline);
            stored in t2.pending && h in t2.pending && stored != h
  {
  }
}
