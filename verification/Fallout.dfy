/** What a failure cascade amounts to: the set of tickets it fails, and the store it
    leaves. The worklist of the queue is proved to compute exactly this. */
module Fallout {
  import opened Options
  import opened TaskStates
  import opened DependencyGraph
  import opened TicketStore

  /** From a ticket to each of its dependents that is not terminal yet. */
  ghost function LiveEdges(db: Db): Edges {
    set e | e in db.deps && LiveRow(db, e.0) :: (e.1, e.0)
  }

  /** The live tickets that depend on the root, directly or through live tickets. */
  ghost function FalloutOf(db: Db, root: TicketId): set<TicketId> {
    set c | c in db.tickets && ReachProper(LiveEdges(db), root, c)
  }

  function CascadedTickets(tickets: map<TicketId, Ticket>, failed: set<TicketId>): map<TicketId, Ticket> {
    map k | k in tickets :: if k in failed then CascadedRow(tickets[k]) else tickets[k]
  }

  /** A task linked by one of the failed tickets ends FAILED unless it had ended already. */
  ghost function CascadedTasks(db: Db, failed: set<TicketId>): map<TaskId, TaskState> {
    map t | t in db.tasks ::
      if db.tasks[t] !in TERMINAL_STATES && (exists c :: c in failed && c in db.tickets && db.tickets[c].taskId == Some(t))
      then FAILED else db.tasks[t]
  }

  /** Exactly the tickets of `failed` were failed, each with one audit row, their tasks
      mirrored, and nothing else touched. */
  ghost predicate FailsExactly(db: Db, failed: set<TicketId>, db': Db) {
    && failed <= db.tickets.Keys
    && db'.tickets == CascadedTickets(db.tickets, failed)
    && db'.deps == db.deps
    && db'.tasks == CascadedTasks(db, failed)
    && |db'.audit| == |db.audit| + |failed|
    && db'.audit[..|db.audit|] == db.audit
    && forall c :: c in failed ==> AuditRow(c, db.tickets[c].status, Failed) in db'.audit[|db.audit|..]
  }

  /** The store a cascade from `root` leaves. */
  ghost predicate CascadeOf(db: Db, root: TicketId, db': Db) {
    FailsExactly(db, FalloutOf(db, root), db')
  }

  lemma FailsNothing(db: Db)
    ensures FailsExactly(db, {}, db)
  {
    assert CascadedTickets(db.tickets, {}) == db.tickets;
    assert CascadedTasks(db, {}) == db.tasks;
  }

  /** The mirror of an outcome: live tasks take it, missing and ended ones ignore it. */
  lemma MirrorEffect(db: Db, task: TaskId, dst: TaskState)
    requires dst in {COMPLETE, FAILED, REVIEW_READY}
    ensures var db' := Mirror(db, task, dst);
            && db'.tickets == db.tickets && db'.deps == db.deps && db'.audit == db.audit
            && db'.tasks == if task in db.tasks && db.tasks[task] !in TERMINAL_STATES then db.tasks[task := dst] else db.tasks
  {
    if task in db.tasks {
      MirrorReach(db.tasks[task], dst);
      if db.tasks[task] == dst {
        assert db.tasks[task := dst] == db.tasks;
      }
    }
  }

  function LinkedMirror(db: Db, task: Option<TaskId>, dst: TaskState): Db {
    if task.Some? then Mirror(db, task.value, dst) else db
  }

  lemma LinkedMirrorKeepsTickets(db: Db, task: Option<TaskId>, dst: TaskState)
    requires dst in {COMPLETE, FAILED, REVIEW_READY}
    ensures LinkedMirror(db, task, dst).tickets == db.tickets && LinkedMirror(db, task, dst).deps == db.deps
  {
  }

  /** The two commits that fail one dependent and its task. */
  ghost function FailOne(db: Db, c: TicketId): Db
    requires c in db.tickets
  {
    var db1 := SetRow(db, c, db.tickets[c].status, CascadedRow(db.tickets[c]));
    if db.tickets[c].taskId.Some? then Mirror(db1, db.tickets[c].taskId.value, FAILED) else db1
  }

  lemma FailOneMore(db0: Db, failed: set<TicketId>, db: Db, c: TicketId)
    requires FailsExactly(db0, failed, db)
    requires c in db0.tickets && c !in failed
    ensures c in db.tickets && db.tickets[c] == db0.tickets[c]
    ensures FailsExactly(db0, failed + {c}, FailOne(db, c))
  {
    var t := db0.tickets[c];
    var db1 := SetRow(db, c, t.status, CascadedRow(t));
    var db' := FailOne(db, c);
    if t.taskId.Some? {
      MirrorEffect(db1, t.taskId.value, FAILED);
    }
    FailOneMoreTasks(db0, failed, db, c);
    assert db'.tickets == CascadedTickets(db0.tickets, failed + {c});
    assert db'.audit == db.audit + [AuditRow(c, t.status, Failed)];
    assert db'.audit[|db0.audit|..] == db.audit[|db0.audit|..] + [AuditRow(c, t.status, Failed)];
  }

  lemma FailOneMoreTasks(db0: Db, failed: set<TicketId>, db: Db, c: TicketId)
    requires c in db0.tickets && c !in failed && c in db.tickets && db.tickets[c] == db0.tickets[c]
    requires db.tasks == CascadedTasks(db0, failed)
    ensures FailOne(db, c).tasks == CascadedTasks(db0, failed + {c})
  {
    var t := db0.tickets[c];
    var db1 := SetRow(db, c, t.status, CascadedRow(t));
    var db' := FailOne(db, c);
    if t.taskId.Some? {
      MirrorEffect(db1, t.taskId.value, FAILED);
    }
    forall k | k in db0.tasks
      ensures k in db'.tasks && db'.tasks[k] == CascadedTasks(db0, failed + {c})[k]
    {
      var more := failed + {c};
      if t.taskId == Some(k) {
        assert c in more;
      } else {
        assert (exists d :: d in more && d in db0.tickets && db0.tickets[d].taskId == Some(k))
          <==> (exists d :: d in failed && d in db0.tickets && db0.tickets[d].taskId == Some(k));
      }
    }
  }

  /** A set of tickets reached from the root that is closed under live dependents is the
      whole fallout. */
  lemma ClosedIsFallout(db: Db, root: TicketId, failed: set<TicketId>)
    requires forall c :: c in failed ==> c in db.tickets && ReachProper(LiveEdges(db), root, c)
    requires forall a, c :: (a == root || a in failed) && (a, c) in LiveEdges(db) ==> c in failed
    ensures failed == FalloutOf(db, root)
  {
    forall c | c in FalloutOf(db, root)
      ensures c in failed
    {
      var z :| (root, z) in LiveEdges(db) && Reach(LiveEdges(db), z, c);
      ClosedContainsReach(LiveEdges(db), failed, z, c);
    }
  }

  lemma ReachProperStep(g: Edges, root: Node, a: Node, c: Node)
    requires a == root || ReachProper(g, root, a)
    requires (a, c) in g
    ensures ReachProper(g, root, c)
  {
    if a == root {
      ReachRefl(g, c);
    } else {
      var z :| (root, z) in g && Reach(g, z, a);
      ReachExtend(g, z, a, c);
    }
  }

  /** Everything in the fallout was live, and its dependents are in the fallout or were
      terminal. */
  lemma FalloutIsLive(db: Db, root: TicketId, c: TicketId)
    requires c in FalloutOf(db, root)
    ensures LiveRow(db, c)
  {
    var z :| (root, z) in LiveEdges(db) && Reach(LiveEdges(db), z, c);
    var p :| IsPath(LiveEdges(db), p, z, c);
    if |p| > 1 {
      LastEdge(LiveEdges(db), p, |p| - 2);
      assert (p[|p| - 2], p[|p| - 1]) in LiveEdges(db);
    }
  }

  lemma FalloutIsClosed(db: Db, root: TicketId, a: TicketId, c: TicketId)
    requires a == root || a in FalloutOf(db, root)
    requires (c, a) in db.deps && LiveRow(db, c)
    ensures c in FalloutOf(db, root)
  {
    assert (a, c) in LiveEdges(db);
    ReachProperStep(LiveEdges(db), root, a, c);
  }
}
