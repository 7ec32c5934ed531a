/** Cascades from several roots, and what one pass of the reaper restores. */
module Reaping {
  import opened Options
  import opened TaskStates
  import opened DependencyGraph
  import opened TicketStore
  import opened Fallout

  /** What the reaper restores: nothing live depends on anything dead, the task of every
      done or failed ticket has ended, and no lease is overdue. */
  ghost predicate NothingStranded(db: Db) {
    forall e :: e in db.deps && e.0 in db.tickets && e.1 in db.tickets && Dead(db.tickets[e.1]) ==> Terminal(db.tickets[e.0].status)
  }

  predicate MirrorsSettled(db: Db) {
    forall k :: k in db.tickets ==> !Desynced(db, k)
  }

  /** A done or failed ticket whose task has not ended. */
  predicate Desynced(db: Db, k: TicketId) {
    && k in db.tickets && db.tickets[k].status in {Done, Failed}
    && db.tickets[k].taskId.Some? && db.tickets[k].taskId.value in db.tasks
    && db.tasks[db.tickets[k].taskId.value] !in TERMINAL_STATES
  }

  predicate NoOverdueLease(db: Db, now: Time) {
    forall k :: k in db.tickets ==> !ReapGuard(db, k, now)
  }

  /** Everything the dead tickets `roots` drag down. */
  ghost function Doomed(db: Db, roots: set<TicketId>): set<TicketId> {
    set c | c in db.tickets && exists r :: r in roots && c in FalloutOf(db, r)
  }

  function DeadTickets(db: Db): set<TicketId> {
    set k | k in db.tickets && Dead(db.tickets[k])
  }

  /** The tickets table after the two UPDATEs of the reaper. */
  function ReapedTickets(db: Db, now: Time): map<TicketId, Ticket> {
    map k | k in db.tickets :: if ReapGuard(db, k, now) then ReapedRow(db.tickets[k]) else db.tickets[k]
  }

  /** `db` is `db0` with some of what `roots` doom failed, and nothing else done to the
      queue. */
  ghost predicate PartlyFailed(db0: Db, roots: set<TicketId>, failed: set<TicketId>, db: Db) {
    && failed <= Doomed(db0, roots)
    && db.deps == db0.deps
    && db.tickets == CascadedTickets(db0.tickets, failed)
  }

  /** A cascade from a root, or from what has been failed already, fails only doomed
      tickets, and each of them once. */
  lemma CascadeFailsDoomed(db0: Db, roots: set<TicketId>, failed: set<TicketId>, db: Db, root: TicketId, db': Db)
    requires PartlyFailed(db0, roots, failed, db)
    requires root in roots || root in failed
    requires CascadeOf(db, root, db')
    ensures FalloutOf(db, root) !! failed
    ensures PartlyFailed(db0, roots, failed + FalloutOf(db, root), db')
  {
    forall c | c in FalloutOf(db, root)
      ensures c in Doomed(db0, roots) && c !in failed
    {
      FalloutIsDoomed(db0, roots, failed, db, root, c);
    }
    var more := FalloutOf(db, root);
    CascadeTwice(db0.tickets, failed, more);
  }

  lemma CascadeTwice(tickets: map<TicketId, Ticket>, a: set<TicketId>, b: set<TicketId>)
    requires a !! b
    ensures CascadedTickets(CascadedTickets(tickets, a), b) == CascadedTickets(tickets, a + b)
  {
  }

  lemma FalloutIsDoomed(db0: Db, roots: set<TicketId>, failed: set<TicketId>, db: Db, root: TicketId, c: TicketId)
    requires PartlyFailed(db0, roots, failed, db)
    requires root in roots || root in failed
    requires c in FalloutOf(db, root)
    ensures c in Doomed(db0, roots) && c !in failed
  {
    FalloutIsLive(db, root, c);
    assert LiveEdges(db) <= LiveEdges(db0);
    var z :| (root, z) in LiveEdges(db) && Reach(LiveEdges(db), z, c);
    ReachMono(LiveEdges(db), LiveEdges(db0), z, c);
    assert ReachProper(LiveEdges(db0), root, c);
    if root in failed {
      var r :| r in roots && root in FalloutOf(db0, r);
      FalloutChains(db0, r, root, c);
    } else {
      assert c in FalloutOf(db0, root);
    }
  }

  lemma FalloutChains(db: Db, r: TicketId, a: TicketId, c: TicketId)
    requires a in FalloutOf(db, r) && c in db.tickets && ReachProper(LiveEdges(db), a, c)
    ensures c in FalloutOf(db, r)
  {
    var g := LiveEdges(db);
    var z :| (r, z) in g && Reach(g, z, a);
    var y :| (a, y) in g && Reach(g, y, c);
    ReachStep(g, a, y, c);
    ReachTrans(g, z, a, c);
  }

  /** After a cascade, whoever still strands a dependent did so before, and is neither the
      root nor one of the tickets just failed. */
  lemma CascadeSettles(db: Db, root: TicketId, db': Db, child: TicketId, parent: TicketId)
    requires CascadeOf(db, root, db')
    requires (child, parent) in db'.deps && LiveRow(db', child)
    ensures LiveRow(db, child)
    ensures parent != root && parent !in FalloutOf(db, root)
    ensures parent in db'.tickets ==> db'.tickets[parent] == db.tickets[parent]
  {
    if parent == root || parent in FalloutOf(db, root) {
      FalloutIsClosed(db, root, parent, child);
    }
  }

  /** A part of the doomed tickets whose failing leaves no root and no failed ticket with
      a live dependent is all that is doomed. */
  lemma ClosedIsDoomed(db0: Db, roots: set<TicketId>, failed: set<TicketId>, db: Db)
    requires PartlyFailed(db0, roots, failed, db)
    requires forall e :: e in db.deps && (e.1 in roots || e.1 in failed) ==> !LiveRow(db, e.0)
    ensures failed == Doomed(db0, roots)
  {
    forall c | c in Doomed(db0, roots)
      ensures c in failed
    {
      var r :| r in roots && c in FalloutOf(db0, r);
      var g := LiveEdges(db0);
      forall a, d | (a == r || a in failed) && (a, d) in g
        ensures d in failed
      {
        assert (d, a) in db.deps && LiveRow(db0, d);
      }
      var z :| (r, z) in g && Reach(g, z, c);
      ClosedContainsReach(g, failed, z, c);
    }
  }

  /** Two cascading phases in a row: what the second dooms was doomed from the start. */
  lemma PhasesCompose(db0: Db, roots: set<TicketId>, failed: set<TicketId>, db: Db, more: set<TicketId>, db': Db)
    requires PartlyFailed(db0, roots, failed, db)
    requires more <= roots + failed
    requires PartlyFailed(db, more, Doomed(db, more), db')
    ensures PartlyFailed(db0, roots, failed + Doomed(db, more), db')
  {
    forall c | c in Doomed(db, more)
      ensures c in Doomed(db0, roots) && c !in failed
    {
      var r :| r in more && c in FalloutOf(db, r);
      FalloutIsDoomed(db0, roots, failed, db, r, c);
    }
    CascadeTwice(db0.tickets, failed, Doomed(db, more));
  }

  lemma DoomedMono(db: Db, roots: set<TicketId>, more: set<TicketId>)
    requires roots <= more
    ensures Doomed(db, roots) <= Doomed(db, more)
  {
  }

  // ---------------------------------------------------------- linked tasks

  /** The outcome the queue mirrors for a settled ticket. */
  predicate EndsAs(t: Ticket, s: TaskState) {
    (t.status == Done && s == COMPLETE) || (t.status == Failed && s == FAILED)
  }

  /** A ticket that accounts for its task ending in `s`: it is done or failed, or it is one
      of those just parked as exhausted. */
  predicate Accounts(parked: set<TicketId>, db: Db, k: TicketId, task: TaskId, s: TaskState) {
    k in db.tickets && db.tickets[k].taskId == Some(task) && (EndsAs(db.tickets[k], s) || (k in parked && s == FAILED))
  }

  /** A task kept its state, or was live and took the outcome of a ticket that accounts for it. */
  ghost predicate TaskMove(tasks: map<TaskId, TaskState>, parked: set<TicketId>, db': Db, t: TaskId) {
    && (t in tasks <==> t in db'.tasks)
    && (t in tasks && db'.tasks[t] != tasks[t] ==>
          tasks[t] !in TERMINAL_STATES && exists k :: Accounts(parked, db', k, t, db'.tasks[t]))
  }

  ghost predicate TaskMoves(tasks: map<TaskId, TaskState>, parked: set<TicketId>, db': Db) {
    forall t: TaskId :: TaskMove(tasks, parked, db', t)
  }

  /** Tickets stay, with their tasks, and settled ones stay as they are. */
  ghost predicate OutcomesKept(tickets: map<TicketId, Ticket>, tickets': map<TicketId, Ticket>) {
    forall k :: k in tickets ==>
      && k in tickets' && tickets'[k].taskId == tickets[k].taskId
      && (tickets[k].status == Done || tickets[k].status == Failed ==> tickets'[k].status == tickets[k].status)
  }

  lemma TaskMovesTrans(tasks: map<TaskId, TaskState>, parked: set<TicketId>, db: Db, db': Db)
    requires TaskMoves(tasks, parked, db) && TaskMoves(db.tasks, parked, db') && OutcomesKept(db.tickets, db'.tickets)
    ensures TaskMoves(tasks, parked, db')
  {
    forall t: TaskId
      ensures TaskMove(tasks, parked, db', t)
    {
      assert TaskMove(tasks, parked, db, t) && TaskMove(db.tasks, parked, db', t);
      if t in tasks && db.tasks[t] != tasks[t] {
        var k :| Accounts(parked, db, k, t, db.tasks[t]);
        assert Accounts(parked, db', k, t, db.tasks[t]);
        assert db.tasks[t] in TERMINAL_STATES;
      }
    }
  }

  lemma CascadeMovesTasks(db: Db, parked: set<TicketId>, failed: set<TicketId>, db': Db)
    requires FailsExactly(db, failed, db')
    requires forall c :: c in failed ==> LiveRow(db, c)
    ensures TaskMoves(db.tasks, parked, db') && OutcomesKept(db.tickets, db'.tickets)
  {
    forall t: TaskId
      ensures TaskMove(db.tasks, parked, db', t)
    {
      if t in db.tasks && db'.tasks[t] != db.tasks[t] {
        var c :| c in failed && c in db.tickets && db.tickets[c].taskId == Some(t);
        assert Accounts(parked, db', c, t, db'.tasks[t]);
      }
    }
  }

  lemma MirrorMovesTasks(db: Db, parked: set<TicketId>, k: TicketId, task: TaskId, dst: TaskState)
    requires dst in {COMPLETE, FAILED, REVIEW_READY} && Accounts(parked, db, k, task, dst)
    ensures TaskMoves(db.tasks, parked, Mirror(db, task, dst)) && OutcomesKept(db.tickets, Mirror(db, task, dst).tickets)
  {
    MirrorEffect(db, task, dst);
    var db' := Mirror(db, task, dst);
    forall t: TaskId
      ensures TaskMove(db.tasks, parked, db', t)
    {
      if t == task && t in db.tasks && db'.tasks[t] != db.tasks[t] {
        assert Accounts(parked, db', k, t, db'.tasks[t]);
      }
    }
  }

  // --------------------------------------- cascading from several roots

  /** The cascades from the first `n` roots have been run, with or without their mirrors. */
  ghost predicate EachSoFar(db0: Db, parked: set<TicketId>, roots: seq<TicketId>, n: nat, failed: set<TicketId>, db: Db)
    requires n <= |roots|
  {
    && PartlyFailed(db0, Elements(roots), failed, db)
    && (forall e :: e in db.deps && LiveRow(db, e.0) ==> e.1 !in roots[..n] && e.1 !in failed)
    && TaskMoves(db0.tasks, parked, db)
    && OutcomesKept(db0.tickets, db.tickets)
  }

  lemma EachStart(db: Db, parked: set<TicketId>, roots: seq<TicketId>)
    ensures EachSoFar(db, parked, roots, 0, {}, db)
  {
    assert CascadedTickets(db.tickets, {}) == db.tickets;
    assert forall t: TaskId :: TaskMove(db.tasks, parked, db, t);
  }

  /** The mirror that may precede a cascade. */
  lemma EachMirrored(db0: Db, parked: set<TicketId>, roots: seq<TicketId>, n: nat, failed: set<TicketId>, db: Db)
    requires n < |roots| && EachSoFar(db0, parked, roots, n, failed, db) && TasksEnded(db, roots[..n])
    requires roots[n] in db.tickets && roots[n] in parked
    requires forall r :: r in roots ==> r in db.tickets
    ensures var db' := LinkedMirror(db, db.tickets[roots[n]].taskId, FAILED);
            && EachSoFar(db0, parked, roots, n, failed, db')
            && TasksEnded(db', roots[..n + 1])
            && db'.tickets == db.tickets
  {
    var t := db.tickets[roots[n]];
    if t.taskId.Some? {
      var db' := Mirror(db, t.taskId.value, FAILED);
      MirrorEffect(db, t.taskId.value, FAILED);
      MirrorMovesTasks(db, parked, roots[n], t.taskId.value, FAILED);
      TaskMovesTrans(db0.tasks, parked, db, db');
      TasksStayEnded(db, parked, roots[..n], db');
    }
    assert roots[..n + 1] == roots[..n] + [roots[n]];
  }

  lemma EachOneMore(db0: Db, parked: set<TicketId>, roots: seq<TicketId>, n: nat, failed: set<TicketId>, db: Db, db': Db)
    requires n < |roots| && EachSoFar(db0, parked, roots, n, failed, db)
    requires CascadeOf(db, roots[n], db')
    ensures EachSoFar(db0, parked, roots, n + 1, failed + FalloutOf(db, roots[n]), db')
    ensures TaskMoves(db.tasks, parked, db')
  {
    var root := roots[n];
    assert root in Elements(roots);
    CascadeFailsDoomed(db0, Elements(roots), failed, db, root, db');
    assert roots[..n + 1] == roots[..n] + [root];
    forall e | e in db'.deps && LiveRow(db', e.0)
      ensures e.1 !in roots[..n + 1] && e.1 !in failed + FalloutOf(db, root)
    {
      assert (e.0, e.1) in db'.deps;
      CascadeSettles(db, root, db', e.0, e.1);
    }
    forall c | c in FalloutOf(db, root)
      ensures LiveRow(db, c)
    {
      FalloutIsLive(db, root, c);
    }
    CascadeMovesTasks(db, parked, FalloutOf(db, root), db');
    TaskMovesTrans(db0.tasks, parked, db, db');
  }

  /** The tasks after two cascades: those of everything failed by either. */
  lemma CascadedTasksTwice(db0: Db, failed: set<TicketId>, db: Db, more: set<TicketId>)
    requires db.tickets == CascadedTickets(db0.tickets, failed) && db.tasks == CascadedTasks(db0, failed)
    ensures CascadedTasks(db, more) == CascadedTasks(db0, failed + more)
  {
    forall t | t in db0.tasks
      ensures CascadedTasks(db, more)[t] == CascadedTasks(db0, failed + more)[t]
    {
      if c :| c in failed && c in db0.tickets && db0.tickets[c].taskId == Some(t) {
        assert c in failed + more;
      } else if c :| c in more && c in db.tickets && db.tickets[c].taskId == Some(t) {
        assert c in failed + more && db0.tickets[c].taskId == Some(t);
      }
    }
  }

  lemma CascadeKeepsEnded(db: Db, parked: set<TicketId>, root: TicketId, db': Db, ids: seq<TicketId>)
    requires CascadeOf(db, root, db') && TaskMoves(db.tasks, parked, db')
    requires TasksEnded(db, ids) && forall k :: k in ids ==> k in db.tickets
    ensures TasksEnded(db', ids)
  {
    TasksStayEnded(db, parked, ids, db');
  }

  /** When all have been run, everything the roots doom has been failed. */
  lemma EachDone(db0: Db, parked: set<TicketId>, roots: seq<TicketId>, failed: set<TicketId>, db: Db)
    requires EachSoFar(db0, parked, roots, |roots|, failed, db)
    ensures failed == Doomed(db0, Elements(roots))
  {
    assert roots[..|roots|] == roots;
    ClosedIsDoomed(db0, Elements(roots), failed, db);
  }

  lemma RootStaysDead(db0: Db, roots: set<TicketId>, failed: set<TicketId>, db: Db, root: TicketId)
    requires PartlyFailed(db0, roots, failed, db) && root in db0.tickets && Dead(db0.tickets[root])
    ensures root in db.tickets && Dead(db.tickets[root])
    ensures db.tickets[root].taskId == db0.tickets[root].taskId
  {
  }

  /** The reaper's phases put together: the tickets just parked with their cascades, then
      every dead ticket that still strands a dependent. */
  lemma ReaperPhases(mid: Db, parked: set<TicketId>, roots: seq<TicketId>, db1: Db, stranded: seq<TicketId>, db2: Db)
    requires forall k :: k in roots ==> k in mid.tickets && Dead(mid.tickets[k])
    requires EachSoFar(mid, parked, roots, |roots|, Doomed(mid, Elements(roots)), db1)
    requires forall k :: k in stranded <==> Strands(db1, k)
    requires EachSoFar(db1, parked, stranded, |stranded|, Doomed(db1, Elements(stranded)), db2)
    ensures PartlyFailed(mid, DeadTickets(mid), Doomed(mid, DeadTickets(mid)), db2)
    ensures NothingStranded(db2)
    ensures TaskMoves(mid.tasks, parked, db2)
  {
    TaskMovesTrans(mid.tasks, parked, db1, db2);
    var dead := DeadTickets(mid);
    var f1 := Doomed(mid, Elements(roots));
    var f2 := Doomed(db1, Elements(stranded));
    DoomedMono(mid, Elements(roots), dead);
    assert PartlyFailed(mid, dead, f1, db1);
    assert Elements(stranded) <= dead + f1;
    PhasesCompose(mid, dead, f1, db1, Elements(stranded), db2);
    forall e | e in db2.deps && e.1 in db2.tickets && Dead(db2.tickets[e.1])
      ensures !LiveRow(db2, e.0)
    {
      if LiveRow(db2, e.0) {
        WasStranding(db1, parked, stranded, db2, e);
      }
    }
    forall e | e in db2.deps && (e.1 in dead || e.1 in f1 + f2)
      ensures !LiveRow(db2, e.0)
    {
      assert Dead(db2.tickets[e.1]);
    }
    ClosedIsDoomed(mid, dead, f1 + f2, db2);
  }

  /** A dead ticket with a dependent that is not terminal. */
  predicate Strands(db: Db, k: TicketId) {
    && k in db.tickets && Dead(db.tickets[k])
    && exists e :: e in db.deps && e.1 == k && LiveRow(db, e.0)
  }

  lemma WasStranding(db1: Db, parked: set<TicketId>, stranded: seq<TicketId>, db2: Db, e: (TicketId, TicketId))
    requires EachSoFar(db1, parked, stranded, |stranded|, Doomed(db1, Elements(stranded)), db2)
    requires e in db2.deps && LiveRow(db2, e.0) && e.1 in db2.tickets && Dead(db2.tickets[e.1])
    ensures Strands(db1, e.1) && e.1 !in stranded
  {
    assert stranded[..|stranded|] == stranded;
    assert LiveRow(db1, e.0);
    assert e.1 !in Doomed(db1, Elements(stranded));
    assert e in db1.deps && e.1 == e.1;
  }

  /** The existing tasks of these tickets have ended. */
  ghost predicate TasksEnded(db: Db, ids: seq<TicketId>) {
    forall k :: k in ids && k in db.tickets && db.tickets[k].taskId.Some? && db.tickets[k].taskId.value in db.tasks ==>
      db.tasks[db.tickets[k].taskId.value] in TERMINAL_STATES
  }

  lemma TasksStayEnded(db: Db, parked: set<TicketId>, ids: seq<TicketId>, db': Db)
    requires TasksEnded(db, ids) && TaskMoves(db.tasks, parked, db')
    requires forall k :: k in ids ==> k in db.tickets && k in db'.tickets && db'.tickets[k].taskId == db.tickets[k].taskId
    ensures TasksEnded(db', ids)
  {
    forall k | k in ids && db'.tickets[k].taskId.Some? && db'.tickets[k].taskId.value in db'.tasks
      ensures db'.tasks[db'.tickets[k].taskId.value] in TERMINAL_STATES
    {
      assert TaskMove(db.tasks, parked, db', db'.tickets[k].taskId.value);
    }
  }

  lemma EachKeepsTickets(db0: Db, parked: set<TicketId>, roots: seq<TicketId>, db: Db)
    requires EachSoFar(db0, parked, roots, |roots|, Doomed(db0, Elements(roots)), db)
    ensures db.tickets.Keys == db0.tickets.Keys
  {
  }

  lemma EachKeepsEnded(db0: Db, parked: set<TicketId>, roots: seq<TicketId>, db: Db, ids: seq<TicketId>)
    requires EachSoFar(db0, parked, roots, |roots|, Doomed(db0, Elements(roots)), db)
    requires TasksEnded(db0, ids) && forall k :: k in ids ==> k in db0.tickets
    ensures TasksEnded(db, ids)
  {
    TasksStayEnded(db0, parked, ids, db);
  }

  // ------------------------------------------------------------ one pass

  /** The overdue leases whose tickets have no attempt left. */
  function ParkedNow(db: Db, now: Time): set<TicketId> {
    set k | k in db.tickets && ReapGuard(db, k, now) && db.tickets[k].attempts >= db.tickets[k].maxAttempts
  }

  /** The exact effect on the tasks: an ended task keeps its state; a live one ends exactly
      when a ticket linked to it is done or failed by now or was parked in this pass, and
      then as such a ticket has it; otherwise it keeps its state. */
  ghost predicate TasksSettled(tasks: map<TaskId, TaskState>, parked: set<TicketId>, db': Db) {
    && db'.tasks.Keys == tasks.Keys
    && (forall t :: t in tasks && tasks[t] in TERMINAL_STATES ==> db'.tasks[t] == tasks[t])
    && (forall t :: t in tasks && tasks[t] !in TERMINAL_STATES ==>
          (db'.tasks[t] in TERMINAL_STATES <==> exists k :: Settles(parked, db', k, t)))
    && (forall t :: t in tasks && db'.tasks[t] != tasks[t] ==> exists k :: Accounts(parked, db', k, t, db'.tasks[t]))
  }

  predicate Settles(parked: set<TicketId>, db: Db, k: TicketId, t: TaskId) {
    k in db.tickets && db.tickets[k].taskId == Some(t) && (db.tickets[k].status in {Done, Failed} || k in parked)
  }

  /** What one pass of the reaper does: overdue leases are reaped, everything that dead
      tickets doom is failed, and nothing else is done to the queue; tasks settle; and
      after it nothing live depends on anything dead, no mirror is open, no lease overdue. */
  ghost predicate ReaperPass(db: Db, now: Time, db': Db) {
    var mid := db.(tickets := ReapedTickets(db, now));
    && db'.deps == db.deps
    && db'.tickets == CascadedTickets(mid.tickets, Doomed(mid, DeadTickets(mid)))
    && TasksSettled(db.tasks, ParkedNow(db, now), db')
    && NothingStranded(db') && MirrorsSettled(db') && NoOverdueLease(db', now)
  }

  lemma SameTicketsSameDoom(db: Db, db': Db, roots: set<TicketId>)
    requires db.tickets == db'.tickets && db.deps == db'.deps
    ensures Doomed(db, roots) == Doomed(db', roots)
  {
    assert LiveEdges(db) == LiveEdges(db');
  }

  lemma MovedIsSettled(tasks: map<TaskId, TaskState>, parked: seq<TicketId>, db': Db)
    requires TaskMoves(tasks, Elements(parked), db') && MirrorsSettled(db') && TasksEnded(db', parked)
    ensures TasksSettled(tasks, Elements(parked), db')
  {
    forall t: TaskId
      ensures t in tasks <==> t in db'.tasks
      ensures t in tasks && tasks[t] in TERMINAL_STATES ==> db'.tasks[t] == tasks[t]
      ensures t in tasks && db'.tasks[t] != tasks[t] ==> exists k :: Accounts(Elements(parked), db', k, t, db'.tasks[t])
      ensures t in tasks && tasks[t] !in TERMINAL_STATES ==>
                (db'.tasks[t] in TERMINAL_STATES <==> exists k :: Settles(Elements(parked), db', k, t))
    {
      assert TaskMove(tasks, Elements(parked), db', t);
      if t in tasks && db'.tasks[t] != tasks[t] {
        var k :| Accounts(Elements(parked), db', k, t, db'.tasks[t]);
        assert Settles(Elements(parked), db', k, t);
      }
      if k :| t in tasks && Settles(Elements(parked), db', k, t) {
        assert !Desynced(db', k);
      }
    }
  }

  lemma ReaperRecovers(db: Db, now: Time, mid: Db, parked: seq<TicketId>, swept: Db, db': Db)
    requires mid.tickets == ReapedTickets(db, now) && mid.deps == db.deps && mid.tasks == db.tasks
    requires Elements(parked) == ParkedNow(db, now)
    requires PartlyFailed(mid, DeadTickets(mid), Doomed(mid, DeadTickets(mid)), swept)
    requires NothingStranded(swept) && TaskMoves(mid.tasks, Elements(parked), swept)
    requires db'.tickets == swept.tickets && db'.deps == swept.deps && TaskMoves(swept.tasks, Elements(parked), db')
    requires MirrorsSettled(db') && TasksEnded(swept, parked) && forall k :: k in parked ==> k in swept.tickets
    ensures ReaperPass(db, now, db')
  {
    TasksStayEnded(swept, Elements(parked), parked, db');
    TaskMovesTrans(mid.tasks, Elements(parked), swept, db');
    MovedIsSettled(db.tasks, parked, db');
    var mid0 := db.(tickets := ReapedTickets(db, now));
    SameTicketsSameDoom(mid, mid0, DeadTickets(mid));
    assert DeadTickets(mid) == DeadTickets(mid0);
  }
}
