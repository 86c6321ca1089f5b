/** The record shapes and enumerations of the task-tracking store
    (types/database.ts). Only the fields the smart-priority rule reads
    are given their own types; identifiers and texts are strings. */
module DatabaseTypes {

  datatype Option<+T> = None | Some(value: T)

  /** Milliseconds since the epoch, the value a parsed date string denotes. */
  type Timestamp = int

  datatype UserRole = Admin | Manager | Member

  datatype TaskStatus = Pending | InProgress | Review | Completed

  datatype TaskPriority = Low | Medium | High | Critical

  datatype ApprovalStatus = ApprovalPending | Approved | Rejected

  /** Position of a priority on the scale Low < Medium < High < Critical. */
  function Rank(p: TaskPriority): (n: nat)
    ensures n <= 3
    ensures p == Low <==> n == 0
    ensures p == Medium <==> n == 1
    ensures p == High <==> n == 2
    ensures p == Critical <==> n == 3
  {
    match p
    case Low => 0
    case Medium => 1
    case High => 2
    case Critical => 3
  }

  /** `p` is no higher than `q` on the priority scale. */
  predicate AtMost(p: TaskPriority, q: TaskPriority)
  {
    Rank(p) <= Rank(q)
  }

  /** The scale is a total order: ranks identify priorities. */
  lemma RankInjective(p: TaskPriority, q: TaskPriority)
    ensures Rank(p) == Rank(q) <==> p == q
  {
  }

  /** A stored task row; `dueDate` is None both for a null and for an
      empty due-date string, which the source treats alike. The joined
      `assignee` profile is not part of the record. */
  datatype Task = Task(
    id: string,
    title: string,
    description: Option<string>,
    status: TaskStatus,
    priority: TaskPriority,
    dueDate: Option<Timestamp>,
    startDate: Timestamp,
    creatorId: Option<string>,
    assigneeId: Option<string>,
    createdAt: Timestamp,
    updatedAt: Timestamp)
}
