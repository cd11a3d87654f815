/** The lease lock that keeps log collection tasks apart, and runs of tasks that take, drop or lose it. */
module CollectLogsLocks {
  import opened Sums

  /** One minute, in nanoseconds. */
  const TIMEOUT: nat := 60_000_000_000

  type Cell = Option<nat>

  /** Whether the lock is handed out at time `now`. */
  predicate IsFree(cell: Cell, now: nat) {
    cell.None? || cell.value + TIMEOUT < now
  }

  function AfterDrop(cell: Cell, ts: nat): Cell {
    if cell.Some? && cell.value <= ts then None else cell
  }

  /** The global cell that holds the time of the last taking. */
  class CollectLogsLock {
    var current: Cell

    constructor ()
      ensures current == None
    {
      current := None;
    }

    /** The time stamp of a new holder, or None if the lock is taken and its lease has not run out. */
    method Take(now: nat) returns (holder: Option<nat>)
      modifies this
      ensures holder == if IsFree(old(current), now) then Some(now) else None
      ensures current == if holder.Some? then Some(now) else old(current)
    {
      if current.Some? && current.value + TIMEOUT >= now {
        return None;
      }
      current := Some(now);
      return Some(now);
    }

    method Drop(ts: nat)
      modifies this
      ensures current == AfterDrop(old(current), ts)
    {
      if current.Some? {
        if current.value <= ts {
          current := None;
        }
      }
    }
  }

  // ---- Runs of tasks ----

  /** `holders` are the times of the locks taken and not dropped, in order of taking; a crashed task's stays forever. */
  datatype State = State(cell: Cell, now: nat, holders: seq<nat>)

  datatype Step = Tick(elapsed: nat) | TakeStep | DropStep(index: nat)

  function Next(s: State, step: Step): State {
    match step
    case Tick(elapsed) => s.(now := s.now + elapsed)
    case TakeStep => if IsFree(s.cell, s.now) then State(Some(s.now), s.now, s.holders + [s.now]) else s
    case DropStep(i) =>
      if i < |s.holders| then State(AfterDrop(s.cell, s.holders[i]), s.now, s.holders[..i] + s.holders[i + 1..]) else s
  }

  function Run(s: State, steps: seq<Step>): State {
    if steps == [] then s else Next(Run(s, steps[..|steps| - 1]), steps[|steps| - 1])
  }

  const UNLOCKED: State := State(None, 0, [])

  /** Undropped holders took the lock more than a minute apart; all but the one in the cell outlived their lease. */
  ghost predicate Exclusive(s: State) {
    && (forall i, j :: 0 <= i < j < |s.holders| ==> s.holders[i] + TIMEOUT < s.holders[j])
    && (forall i :: 0 <= i < |s.holders| ==> s.holders[i] <= s.now)
    && (forall i :: 0 <= i < |s.holders| ==> s.cell == Some(s.holders[i]) || s.holders[i] + TIMEOUT < s.now)
    && (s.cell.Some? ==> s.holders != [] && s.cell.value == s.holders[|s.holders| - 1])
  }

  lemma DropKeepsExclusion(s: State, i: nat)
    requires Exclusive(s) && i < |s.holders|
    ensures Exclusive(Next(s, DropStep(i)))
  {
    var s' := Next(s, DropStep(i));
    assert forall k :: 0 <= k < |s'.holders| ==> s'.holders[k] == if k < i then s.holders[k] else s.holders[k + 1];
  }

  lemma NextKeepsExclusion(s: State, step: Step)
    requires Exclusive(s)
    ensures Exclusive(Next(s, step))
  {
    match step
    case Tick(_) =>
    case TakeStep =>
    case DropStep(i) => if i < |s.holders| { DropKeepsExclusion(s, i); }
  }

  /** In every interleaving of taking, dropping and crashing, any two undropped holders are more than a minute apart. */
  lemma {:induction false} EveryRunExclusive(steps: seq<Step>)
    ensures Exclusive(Run(UNLOCKED, steps))
    decreases |steps|
  {
    if steps != [] {
      EveryRunExclusive(steps[..|steps| - 1]);
      NextKeepsExclusion(Run(UNLOCKED, steps[..|steps| - 1]), steps[|steps| - 1]);
    }
  }

  /** So at most one holder is within its lease at any time. */
  lemma OneLeaseAtATime(steps: seq<Step>, i: nat, j: nat)
    requires var s := Run(UNLOCKED, steps);
      i < |s.holders| && j < |s.holders| && s.now <= s.holders[i] + TIMEOUT && s.now <= s.holders[j] + TIMEOUT
    ensures i == j
  {
    EveryRunExclusive(steps);
  }

  /** A drop frees the lock exactly if its holder is the newest; a late one never frees a newer holder's lock. */
  lemma LateDropIsHarmless(steps: seq<Step>, i: nat)
    requires i < |Run(UNLOCKED, steps).holders|
    ensures var s := Run(UNLOCKED, steps); var s' := Next(s, DropStep(i));
      && (i + 1 < |s.holders| ==> s'.cell == s.cell)
      && (i + 1 == |s.holders| ==> s'.cell == None)
  {
    EveryRunExclusive(steps);
  }

  /** The lock is free exactly when no undropped holder is within its lease: a crash blocks it for a minute at most. */
  lemma FreeExactlyWithoutLease(steps: seq<Step>)
    ensures var s := Run(UNLOCKED, steps);
      IsFree(s.cell, s.now) <==> forall i :: 0 <= i < |s.holders| ==> s.holders[i] + TIMEOUT < s.now
  {
    EveryRunExclusive(steps);
  }
}
