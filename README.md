# Smart task priority

A model of the "smart priority" rule of a task-tracking application.
Every task row holds a stored priority (Low, Medium, High or Critical).
It also holds a status (Pending, In Progress, Review or Completed), an
optional due date and a creation time. The task list does not show the
stored priority. It shows a priority derived from these fields and the
current time. The rules are tried in order and the first that applies
decides:

1. A Completed task keeps its stored priority.
2. A task whose due date is in the past is Critical.
3. A task due within two whole days is High. This can lower a Critical task.
4. A Pending task more than three whole days old goes up one step.
   Low becomes Medium, Medium becomes High and High becomes Critical.
   Critical stays Critical.
5. Otherwise the stored priority is shown.

The model is made of four modules:

- `DatabaseTypes` holds the enumerations and the task row of the store,
  and the order on priorities.
- `DateFns` holds the two date-fns helpers the rule calls. Timestamps are
  integer milliseconds. `differenceInDays` counts whole days of 86,400,000 ms,
  truncated toward zero. `isPast(d)` means `d < now`.
- `TaskHelpers` holds the rule itself, `SmartPriority`, with the current
  time as an explicit parameter `now`. The lemmas state each rule in
  milliseconds, independently of the day-count helper. They also state the
  bounds, the order and the time-shift properties of the result.
- `TaskList` holds the task list view, lines 39-43 of
  app/(dashboard)/tasks/page.tsx, the one caller of the rule. It copies
  every fetched row and replaces its priority with the smart one, for
  display only. `TaskList.WithSmartPriority` states that the displayed list
  has the same tasks in the same order, each equal to its stored row except
  that its priority is the smart priority at `now`.

`SmartPriority` is a function, so it always gives the same result for the
same inputs. The source reads the clock inside the function. With `now`
as a parameter there is no such hidden input. `TimeShiftInvariant` shows
that the result depends only on the distances between the three times.

## Model

| member | source | states |
|---|---|---|
| `DatabaseTypes.Rank` | types/database.ts:3 | Places the four priorities on a scale from 0 to 3, with Low lowest and Critical highest |
| `DatabaseTypes.RankInjective` | types/database.ts:3 | Two priorities of the same rank are the same priority, so the scale is a total order |
| `DateFns.WholeDays` | utils/taskHelpers.ts:21 | The day count of a span has the span's sign and is the largest number of full days the span contains, truncated toward zero |
| `DateFns.DifferenceInDaysAntisymmetric` | utils/taskHelpers.ts:21-29 | Swapping the two dates of differenceInDays only negates the count, as truncation requires and flooring would not give |
| `DateFns.AtMostWholeDays` | utils/taskHelpers.ts:22 | A span counts at most n whole days exactly when it is shorter than n + 1 full days |
| `DateFns.PartialDayIsZero` | utils/taskHelpers.ts:21 | A span counts as zero days exactly when it is shorter than one day in either direction |
| `TaskHelpers.Bump` | utils/taskHelpers.ts:31-33 | The aging step raises the rank by exactly one, except that Critical stays Critical |
| `TaskHelpers.SmartPriority` | utils/taskHelpers.ts:4-38 | The displayed priority is always the stored one, the stored one bumped once, High or Critical |
| `TaskHelpers.CompletedKeepsStored` | utils/taskHelpers.ts:10 | A Completed task shows its stored priority whatever its due date, creation time and the current time |
| `TaskHelpers.OverdueIsCritical` | utils/taskHelpers.ts:15-17 | An unfinished task whose due date is strictly before now shows Critical, for every stored priority |
| `TaskHelpers.DueSoonIsHigh` | utils/taskHelpers.ts:20-25 | An unfinished task due at or after now but less than three full days ahead shows High, even when stored as Critical |
| `TaskHelpers.AgedPendingIsBumped` | utils/taskHelpers.ts:28-34 | A Pending task with no due date, or one at least three full days ahead, shows one step up once four full days have passed since creation |
| `TaskHelpers.OtherwiseStored` | utils/taskHelpers.ts:27-37 | An unfinished task with no deadline pressure that is not Pending, or is younger than four full days, shows its stored priority |
| `TaskHelpers.AgingThresholdIsStrict` | utils/taskHelpers.ts:29-30 | A Pending task without due date aged three full days and any part of a fourth is not bumped; at exactly four full days it is |
| `TaskHelpers.ActiveWithoutDueKeepsStored` | utils/taskHelpers.ts:27-37 | A task In Progress or in Review without a due date always shows its stored priority |
| `TaskHelpers.WithoutDueAtMostOneStep` | utils/taskHelpers.ts:27-37 | Without a due date the shown priority is never below the stored one and at most one step above it |
| `TaskHelpers.LowersOnlyWhenDueSoon` | utils/taskHelpers.ts:14-37 | A shown priority below the stored one occurs only for an unfinished Critical task due within three days, and it is then High |
| `TaskHelpers.MonotoneInStored` | utils/taskHelpers.ts:10-37 | For the same status and times, a higher stored priority never shows lower |
| `TaskHelpers.TimeShiftInvariant` | utils/taskHelpers.ts:12-29 | Moving the due date, the creation time and now by the same amount leaves the shown priority unchanged |
| `TaskHelpers.ReapplyStableUnlessAgingClimbs` | utils/taskHelpers.ts:27-37 | Using the shown priority as the stored one gives the same result again, if and only if the aging rule is not raising Low or Medium |
| `TaskList.DisplayedDeadlines` | utils/taskHelpers.ts:10-17 | In the displayed list an unfinished overdue task shows Critical and a Completed task shows exactly its stored row |

## Left out

- Reading the clock: the source reads the current time twice, once at utils/taskHelpers.ts:12 and once inside `isPast`. The model reads it once, as the parameter `now`. The two reads in the source can differ by a few milliseconds.
- Parsing date strings: `new Date(...)` becomes an integer timestamp. An unparseable string gives an invalid date in the source. Neither of its rules would then fire. The model has no invalid timestamps.
- An empty due-date string is falsy in the source, like null. Both become `None`.
- Time zones and daylight saving: date-fns counts full local days, and a day that spans a daylight-saving change lasts 23 or 25 hours. The model counts fixed 86,400,000 ms days.
- The approval decision in app/(dashboard)/approvals/page.tsx, the activity log and the role check before it are not part of this model. Only the `UserRole` and `ApprovalStatus` enumerations are declared.
- Task creation, status updates, comments and sign-in are remote store calls. The task list's search and status filter are display logic. The role-based menu and all rendering are also display logic. None of them is modelled.
- Joined fields: the `assignee` profile joined onto a fetched task row is not part of the `Task` record. The display overlay copies it unchanged in the source.
- The store's ordering of the fetched list (newest first) is a query option. The model takes the list in whatever order it is given.
