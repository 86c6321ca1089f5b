/** `calculateSmartPriority` (utils/taskHelpers.ts): the priority a task
    is displayed with, derived from its stored priority, its status, its
    due date, its creation time and the current time `now`. The rules are
    tried in order and the first that applies decides. */
module TaskHelpers {
  import opened DatabaseTypes
  import opened DateFns

  /** One step up the scale; Critical has nowhere to go and stays. */
  function Bump(p: TaskPriority): (q: TaskPriority)
    ensures Rank(q) == if p == Critical then 3 else Rank(p) + 1
  {
    match p
    case Low => Medium
    case Medium => High
    case High => Critical
    case Critical => p
  }

  /** The smart priority. The source reads the clock itself; here the
      current time is the parameter `now`, read once. */
  function SmartPriority(current: TaskPriority, status: TaskStatus,
                         dueDate: Option<Timestamp>, createdAt: Timestamp,
                         now: Timestamp): (r: TaskPriority)
    ensures r == current || r == Bump(current) || r == High || r == Critical
  {
    if status == Completed then current
    else if dueDate.Some? && IsPast(dueDate.value, now) then Critical
    else if dueDate.Some? && DifferenceInDays(dueDate.value, now) <= 2 then High
    else if status == Pending && DifferenceInDays(now, createdAt) > 3 then Bump(current)
    else current
  }

  /** The due date lies ahead of `now`, but by less than three full days. */
  predicate DueSoon(dueDate: Option<Timestamp>, now: Timestamp)
  {
    dueDate.Some? && now <= dueDate.value < now + 3 * DayMs
  }

  /** No due date, or one at least three full days ahead. */
  predicate NoDeadlinePressure(dueDate: Option<Timestamp>, now: Timestamp)
  {
    dueDate.None? || now + 3 * DayMs <= dueDate.value
  }

  // ---- Rule 1: finished work keeps its stored priority ----

  lemma CompletedKeepsStored(current: TaskPriority, dueDate: Option<Timestamp>,
                             createdAt: Timestamp, now: Timestamp)
    ensures SmartPriority(current, Completed, dueDate, createdAt, now) == current
  {
  }

  // ---- Rule 2: an overdue unfinished task is Critical ----

  lemma OverdueIsCritical(current: TaskPriority, status: TaskStatus, due: Timestamp,
                          createdAt: Timestamp, now: Timestamp)
    requires status != Completed
    requires due < now
    ensures SmartPriority(current, status, Some(due), createdAt, now) == Critical
  {
  }

  // ---- Rule 3: a deadline less than three full days away gives High ----

  /** Holds for every stored priority, so a Critical task is lowered. */
  lemma DueSoonIsHigh(current: TaskPriority, status: TaskStatus, dueDate: Option<Timestamp>,
                      createdAt: Timestamp, now: Timestamp)
    requires status != Completed
    requires DueSoon(dueDate, now)
    ensures SmartPriority(current, status, dueDate, createdAt, now) == High
  {
  }

  // ---- Rule 4: a task pending for four or more full days goes up one step ----

  lemma AgedPendingIsBumped(current: TaskPriority, dueDate: Option<Timestamp>,
                            createdAt: Timestamp, now: Timestamp)
    requires NoDeadlinePressure(dueDate, now)
    requires createdAt + 4 * DayMs <= now
    ensures SmartPriority(current, Pending, dueDate, createdAt, now) == Bump(current)
  {
  }

  // ---- Rule 5: otherwise the stored priority ----

  lemma OtherwiseStored(current: TaskPriority, status: TaskStatus, dueDate: Option<Timestamp>,
                        createdAt: Timestamp, now: Timestamp)
    requires status != Completed
    requires NoDeadlinePressure(dueDate, now)
    requires status != Pending || now < createdAt + 4 * DayMs
    ensures SmartPriority(current, status, dueDate, createdAt, now) == current
  {
  }

  /** The aging threshold is strict: three full days and any part of a
      fourth leave the priority alone; the fourth full day bumps it. */
  lemma AgingThresholdIsStrict(current: TaskPriority, createdAt: Timestamp, now: Timestamp)
    ensures createdAt + 3 * DayMs <= now < createdAt + 4 * DayMs ==>
              SmartPriority(current, Pending, None, createdAt, now) == current
    ensures now == createdAt + 4 * DayMs ==>
              SmartPriority(current, Pending, None, createdAt, now) == Bump(current)
  {
  }

  /** A task in progress or in review without a due date is never escalated. */
  lemma ActiveWithoutDueKeepsStored(current: TaskPriority, status: TaskStatus,
                                    createdAt: Timestamp, now: Timestamp)
    requires status == InProgress || status == Review
    ensures SmartPriority(current, status, None, createdAt, now) == current
  {
  }

  /** Without a due date the displayed priority is never below the stored
      one and at most one step above it. */
  lemma WithoutDueAtMostOneStep(current: TaskPriority, status: TaskStatus,
                                createdAt: Timestamp, now: Timestamp)
    ensures AtMost(current, SmartPriority(current, status, None, createdAt, now))
    ensures Rank(SmartPriority(current, status, None, createdAt, now)) <= Rank(current) + 1
  {
  }

  /** The only way the displayed priority falls below the stored one is the
      near-deadline rule turning a Critical task into a High one. */
  lemma LowersOnlyWhenDueSoon(current: TaskPriority, status: TaskStatus,
                              dueDate: Option<Timestamp>, createdAt: Timestamp,
                              now: Timestamp)
    requires Rank(SmartPriority(current, status, dueDate, createdAt, now)) < Rank(current)
    ensures current == Critical
    ensures SmartPriority(current, status, dueDate, createdAt, now) == High
    ensures status != Completed && DueSoon(dueDate, now)
  {
  }

  /** A higher stored priority never displays lower. */
  lemma MonotoneInStored(p: TaskPriority, q: TaskPriority, status: TaskStatus,
                         dueDate: Option<Timestamp>, createdAt: Timestamp, now: Timestamp)
    requires AtMost(p, q)
    ensures AtMost(SmartPriority(p, status, dueDate, createdAt, now),
                   SmartPriority(q, status, dueDate, createdAt, now))
  {
  }

  /** With the clock passed in, the result depends only on the distances
      between the three times: moving all of them together changes nothing. */
  lemma TimeShiftInvariant(current: TaskPriority, status: TaskStatus,
                           dueDate: Option<Timestamp>, createdAt: Timestamp,
                           now: Timestamp, shift: int)
    ensures SmartPriority(current, status,
                          if dueDate.Some? then Some(dueDate.value + shift) else None,
                          createdAt + shift, now + shift)
         == SmartPriority(current, status, dueDate, createdAt, now)
  {
  }

  /** Feeding the displayed priority back in as the stored one gives the
      same display, except when the aging rule fires on Low or Medium: it
      would then climb a further step on each evaluation. */
  lemma ReapplyStableUnlessAgingClimbs(current: TaskPriority, status: TaskStatus,
                                       dueDate: Option<Timestamp>, createdAt: Timestamp,
                                       now: Timestamp)
    ensures
      var r := SmartPriority(current, status, dueDate, createdAt, now);
      (SmartPriority(r, status, dueDate, createdAt, now) == r
       <==> !(status == Pending && NoDeadlinePressure(dueDate, now)
              && createdAt + 4 * DayMs <= now && Rank(current) < 2))
  {
  }
}
