/** What follows when a ticket is written with an outcome: its task takes the outcome and,
    for a failure, its dependents fail. Said first in terms of the statements that do it,
    then in terms of the columns alone. */
module Outcomes {
  import opened Options
  import opened TaskStates
  import opened TicketStore
  import opened Fallout
  import opened Promises

  // ------------------------------------------ in terms of the statements

  ghost predicate CascadedThenMirrored(db: Db, id: TicketId, db': Db)
    requires id in db.tickets
  {
    exists mid :: CascadeOf(db, id, mid) && db' == LinkedMirror(mid, db.tickets[id].taskId, FAILED)
  }

  /** The part of a terminal write that a crash may have cut off, done again. */
  ghost predicate Healed(db: Db, id: TicketId, db': Db)
    requires id in db.tickets
  {
    var t := db.tickets[id];
    match t.status
    case Failed => CascadedThenMirrored(db, id, db')
    case Done => db' == LinkedMirror(db, t.taskId, COMPLETE)
    case InReview => db' == LinkedMirror(db, t.taskId, REVIEW_READY)
    case _ => db' == db
  }

  /** The consequences of a ticket having just been written with status `s`. */
  ghost predicate Settled(db: Db, id: TicketId, task: Option<TaskId>, s: Status, db': Db) {
    match s
    case Failed => CascadeOf(LinkedMirror(db, task, FAILED), id, db')
    case Done => db' == LinkedMirror(db, task, COMPLETE)
    case InReview => db' == LinkedMirror(db, task, REVIEW_READY)
    case _ => db' == db
  }

  // ------------------------------------------- in terms of the columns

  /** One row is as given, its task has taken the outcome, and nothing else has moved. */
  ghost predicate RowAndTask(db: Db, id: TicketId, row: Ticket, s: TaskState, db': Db) {
    db'.tickets == db.tickets[id := row] && db'.deps == db.deps && db'.tasks == TasksWith(db.tasks, row.taskId, s)
  }

  /** `row` is written, and what its status asks for follows: a done ticket completes its
      task, one in review readies it, a failed one fails it and drags its dependents down,
      and an open one leaves everything else alone. */
  ghost predicate Lands(db: Db, id: TicketId, row: Ticket, db': Db)
    requires id in db.tickets
  {
    && db.audit + [AuditRow(id, db.tickets[id].status, row.status)] <= db'.audit
    && match row.status
       case Failed =>
         CascadeShown(db.(tickets := db.tickets[id := row], tasks := TasksWith(db.tasks, row.taskId, FAILED)), {id}, db')
       case Done => RowAndTask(db, id, row, COMPLETE, db')
       case InReview => RowAndTask(db, id, row, REVIEW_READY, db')
       case _ => OnlyRow(db, id, row, db')
  }

  /** What a repeated report makes up for: the same consequences of a row that stands. */
  ghost predicate Repaired(db: Db, id: TicketId, db': Db)
    requires id in db.tickets
  {
    var t := db.tickets[id];
    match t.status
    case Failed =>
      exists tasks :: CascadeShown(db, {id}, db'.(tasks := tasks)) && db'.tasks == TasksWith(tasks, t.taskId, FAILED)
    case Done => RowAndTask(db, id, t, COMPLETE, db')
    case InReview => RowAndTask(db, id, t, REVIEW_READY, db')
    case _ => db' == db
  }

  lemma MirrorIsTasksWith(db: Db, task: Option<TaskId>, dst: TaskState)
    requires dst in {COMPLETE, FAILED, REVIEW_READY}
    ensures var db' := LinkedMirror(db, task, dst);
            && db'.tickets == db.tickets && db'.deps == db.deps && db'.audit == db.audit
            && db'.tasks == TasksWith(db.tasks, task, dst)
  {
    if task.Some? {
      MirrorEffect(db, task.value, dst);
    }
  }

  lemma SettledLands(db: Db, id: TicketId, row: Ticket, db': Db)
    requires id in db.tickets
    requires Settled(SetRow(db, id, db.tickets[id].status, row), id, row.taskId, row.status, db')
    ensures Lands(db, id, row, db')
  {
    var set1 := SetRow(db, id, db.tickets[id].status, row);
    match row.status {
      case Failed =>
        MirrorIsTasksWith(set1, row.taskId, FAILED);
        CascadeIsShown(LinkedMirror(set1, row.taskId, FAILED), id, db');
      case Done => MirrorIsTasksWith(set1, row.taskId, COMPLETE);
      case InReview => MirrorIsTasksWith(set1, row.taskId, REVIEW_READY);
      case _ =>
    }
  }

  lemma HealedIsRepaired(db: Db, id: TicketId, db': Db)
    requires id in db.tickets && Healed(db, id, db')
    ensures Repaired(db, id, db')
  {
    var t := db.tickets[id];
    match t.status {
      case Failed =>
        var mid :| CascadeOf(db, id, mid) && db' == LinkedMirror(mid, t.taskId, FAILED);
        MirrorIsTasksWith(mid, t.taskId, FAILED);
        CascadeIsShown(db, id, mid);
        assert CascadeShown(db, {id}, db'.(tasks := mid.tasks));
      case Done => MirrorIsTasksWith(db, t.taskId, COMPLETE);
      case InReview => MirrorIsTasksWith(db, t.taskId, REVIEW_READY);
      case _ =>
    }
  }
}
