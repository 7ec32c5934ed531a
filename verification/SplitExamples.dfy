/** Two runs of the split system that show the stale readings really arise: a cascade
    that takes a live lease away from a ticket whose parent is done, and a rejection
    that reopens a ticket whose attempts are used up. */
module SplitExamples {
  import opened Options
  import opened Privacy
  import opened TicketStore
  import opened QueueHistories
  import opened SplitSteps
  import opened SplitRuns
  import opened SplitHistories

  function Spec(pc: PrivacyClass, task: Option<TaskId>): NewTicket {
    NewTicket(None, task, pc, {}, "normal", None, 2, true)
  }

  function Base(routing: Routing, pc: PrivacyClass, task: Option<TaskId>, rowid: nat): Ticket {
    NewRow(routing, Spec(pc, task), rowid, 0.0)
  }

  function Live(token: Token): Lease {
    Lease("w", LOCAL_ONLY, token, 9.0)
  }

  lemma AddReadOne(routing: Routing, w: World, p: Process, id: TicketId, n: NewTicket, parents: set<TicketId>) returns (w': World)
    requires Reachable(routing, w) && p !in w.pending && AddChecks(routing, w.db, n, parents)
    ensures Reachable(routing, w')
    ensures w' == w.(pending := w.pending[p := Adding(id, n, parents, 0.0)])
  {
    w' := Exec(routing, w, AddRead(p, id, n, parents, 0.0));
    StepReachable(routing, w, AddRead(p, id, n, parents, 0.0));
  }

  lemma AddWriteOne(routing: Routing, w: World, p: Process) returns (w': World)
    requires Reachable(routing, w) && p in w.pending && w.pending[p].Adding?
    requires KeysFree(w.db, w.pending[p].id, w.pending[p].spec)
    ensures Reachable(routing, w')
    ensures var q := w.pending[p];
            w' == World(w.db.(tickets := w.db.tickets[q.id := NewRow(routing, q.spec, |w.db.tickets|, q.now)],
                              deps := w.db.deps + set x | x in q.parents :: (q.id, x)),
                        w.pending - {p}, w.minted)
  {
    w' := Exec(routing, w, AddWrite(p));
    StepReachable(routing, w, AddWrite(p));
  }

  lemma AddOne(routing: Routing, w: World, p: Process, id: TicketId, n: NewTicket, parents: set<TicketId>) returns (w': World)
    requires Reachable(routing, w) && p !in w.pending && AddChecks(routing, w.db, n, parents) && KeysFree(w.db, id, n)
    ensures Reachable(routing, w')
    ensures w'.db.tickets == w.db.tickets[id := NewRow(routing, n, |w.db.tickets|, 0.0)]
    ensures w'.db.deps == w.db.deps + set x | x in parents :: (id, x)
    ensures w'.db.tasks == w.db.tasks
    ensures w'.pending == w.pending && w'.minted == w.minted
  {
    var w1 := AddReadOne(routing, w, p, id, n, parents);
    w' := AddWriteOne(routing, w1, p);
    assert w.pending[p := Adding(id, n, parents, 0.0)] - {p} == w.pending;
  }

  lemma RejectReadOne(routing: Routing, w: World, p: Process, id: TicketId) returns (w': World)
    requires Reachable(routing, w) && p !in w.pending
    requires id in w.db.tickets && w.db.tickets[id].status == InReview
    ensures Reachable(routing, w')
    ensures w' == w.(pending := w.pending[p := Rejecting(id, w.db.tickets[id].attempts, w.db.tickets[id].maxAttempts)])
  {
    w' := Exec(routing, w, RejectRead(p, id, Some(LOCAL_ONLY)));
    StepReachable(routing, w, RejectRead(p, id, Some(LOCAL_ONLY)));
  }

  lemma RejectWriteOne(routing: Routing, w: World, p: Process, id: TicketId) returns (w': World)
    requires Reachable(routing, w) && p in w.pending && w.pending[p] == Rejecting(id, 1, 2)
    requires id in w.db.tickets && w.db.tickets[id].status == InReview
    ensures Reachable(routing, w')
    ensures w' == World(SetRow(w.db, id, InReview, RejectedRow(w.db.tickets[id], true)), w.pending - {p}, w.minted)
  {
    w' := Exec(routing, w, RejectWrite(p));
    StepReachable(routing, w, RejectWrite(p));
  }

  lemma CancelReadOne(routing: Routing, w: World, p: Process, task: TaskId, id: TicketId) returns (w': World)
    requires Reachable(routing, w) && p !in w.pending
    requires id in w.db.tickets && w.db.tickets[id].taskId == Some(task) && !Terminal(w.db.tickets[id].status)
    requires forall k :: k in w.db.tickets && k != id ==> w.db.tickets[k].taskId != Some(task)
    ensures Reachable(routing, w')
    ensures w'.db == w.db && w'.minted == w.minted
    ensures w'.pending == w.pending[p := Cancelling(task, map[id := w.db.tickets[id].status], {})]
  {
    w' := Exec(routing, w, CancelRead(p, task));
    StepReachable(routing, w, CancelRead(p, task));
    assert w'.pending[p].todo == map[id := w.db.tickets[id].status];
  }

  lemma CancelWriteOne(routing: Routing, w: World, p: Process, parent: TicketId) returns (w': World)
    requires Reachable(routing, w)
    requires p in w.pending && w.pending[p].Cancelling? && w.pending[p].todo.Keys == {parent}
    requires parent in w.db.tickets && w.db.tickets[parent].status == Done
    ensures Reachable(routing, w')
    ensures w'.db.tickets == w.db.tickets && w'.db.deps == w.db.deps
    ensures p in w'.pending && w'.pending[p] == Cascading(w.pending[p].written + {parent}, None)
  {
    StaleCancelStarts(routing, w, p, parent);
    var w1 := Exec(routing, w, CancelWrite(p, parent));
    StepReachable(routing, w, CancelWrite(p, parent));
    w' := Exec(routing, w1, CancelDone(p));
    StepReachable(routing, w1, CancelDone(p));
  }

  lemma CascadeReadOne(routing: Routing, w: World, p: Process, parent: TicketId, child: TicketId) returns (w': World)
    requires Reachable(routing, w) && p in w.pending && w.pending[p].Cascading? && parent in w.pending[p].stack
    requires (child, parent) in w.db.deps && LiveRow(w.db, child)
    ensures Reachable(routing, w') && w'.db == w.db && Ready(routing, w', CascadeWrite(p))
    ensures w'.pending[p].next.value.child == child
  {
    w' := Exec(routing, w, CascadeRead(p, child, parent));
    StepReachable(routing, w, CascadeRead(p, child, parent));
  }

  lemma ClaimOne(routing: Routing, w: World, id: TicketId, token: Token, pc: PrivacyClass) returns (w': World)
    requires Reachable(routing, w) && token !in w.minted && Plain(routing, pc)
    requires id in w.db.tickets && w.db.tickets[id].status == Open && w.db.tickets[id].privacyClass == pc
    requires DepsDone(w.db, id) && w.db.tasks == map[]
    ensures Reachable(routing, w')
    ensures w'.db.tickets == w.db.tickets[id := ClaimedRow(w.db.tickets[id], Live(token))]
    ensures w'.db.deps == w.db.deps && w'.db.tasks == w.db.tasks
    ensures w'.pending == w.pending && w'.minted == w.minted + {token}
  {
    var s := Direct(Claim(id, "w", Some(LOCAL_ONLY), token, 9.0));
    assert ClaimGuard(routing, w.db, id, Some(LOCAL_ONLY));
    w' := Exec(routing, w, s);
    StepReachable(routing, w, s);
  }

  lemma ReportOne(routing: Routing, w: World, p: Process, id: TicketId, reporter: Option<Tier>) returns (w': World)
    requires Reachable(routing, w) && p !in w.pending
    requires id in w.db.tickets && w.db.tickets[id].status == Claimed && w.db.tickets[id].lease.Some?
    requires w.db.tickets[id].lease.value == Live(w.db.tickets[id].lease.value.token)
    ensures Reachable(routing, w')
    ensures w'.db.tickets == w.db.tickets[id := ReportedRow(w.db.tickets[id], true, if reporter == Some(LOCAL_ONLY) then Done else InReview)]
    ensures w'.db.deps == w.db.deps && w'.db.tasks == w.db.tasks
    ensures w'.pending == w.pending && w'.minted == w.minted
  {
    var token := w.db.tickets[id].lease.value.token;
    var s := ReportRead(p, id, "w", reporter, token, true, 1.0);
    var w1 := Exec(routing, w, s);
    StepReachable(routing, w, s);
    var t := w.db.tickets[id];
    assert w1.pending[p] == Reporting(id, "w", reporter, token, true, 1.0, LOCAL_ONLY, t.attempts, t.maxAttempts);
    w' := Exec(routing, w1, ReportWrite(p));
    StepReachable(routing, w1, ReportWrite(p));
    assert w'.pending == w.pending;
  }

  /** One open ticket, never claimed, alone in the store. */
  lemma FirstTicket(routing: Routing, pc: PrivacyClass, task: Option<TaskId>) returns (w: World)
    requires Plain(routing, pc)
    ensures Reachable(routing, w) && w.pending == map[] && w.minted == {} && w.db.deps == {} && w.db.tasks == map[]
    ensures w.db.tickets == map[0 := Base(routing, pc, task, 0)]
  {
    StartReachable(routing);
    w := AddOne(routing, START, 0, 0, Spec(pc, task), {});
  }

  /** What matters of a fresh plain row. */
  lemma BaseRow(routing: Routing, pc: PrivacyClass, task: Option<TaskId>, rowid: nat)
    requires Plain(routing, pc)
    ensures var t := Base(routing, pc, task, rowid);
            t.status == Open && t.privacyClass == pc && t.attempts == 0 && t.maxAttempts == 2 && t.taskId == task
  {
  }

  /** Ticket 1 depends on ticket 0; both are open. */
  lemma TwoTickets(routing: Routing, pc: PrivacyClass) returns (w: World)
    requires Plain(routing, pc)
    ensures Reachable(routing, w) && w.minted == {} && w.db.tasks == map[] && w.pending == map[]
    ensures forall e :: e in w.db.deps <==> e == (1, 0)
    ensures w.db.tickets == map[0 := Base(routing, pc, Some(5), 0), 1 := Base(routing, pc, None, 1)]
  {
    BaseRow(routing, pc, Some(5), 0);
    BaseRow(routing, pc, None, 1);
    var w1 := FirstTicket(routing, pc, Some(5));
    w := AddOne(routing, w1, 0, 1, Spec(pc, None), {0});
    assert w.db.tickets[1] == Base(routing, pc, None, 1);
    assert (1, 0) in w.db.deps && forall e :: e in w.db.deps ==> e == (1, 0);
  }

  /** Ticket 1 depends on ticket 0, which is claimed while process 7 is about to cancel
      the task of ticket 0. */
  lemma CancelSetup(routing: Routing, pc: PrivacyClass) returns (w: World)
    requires Plain(routing, pc)
    ensures Reachable(routing, w) && w.minted == {100} && w.db.tasks == map[]
    ensures w.pending == map[7 := Cancelling(5, map[0 := Claimed], {})]
    ensures forall e :: e in w.db.deps <==> e == (1, 0)
    ensures w.db.tickets.Keys == {0, 1}
    ensures w.db.tickets[0].status == Claimed && w.db.tickets[0].lease == Some(Live(100))
    ensures w.db.tickets[1].status == Open && w.db.tickets[1].privacyClass == pc
  {
    BaseRow(routing, pc, Some(5), 0);
    BaseRow(routing, pc, None, 1);
    var w2 := TwoTickets(routing, pc);
    var w3 := ClaimOne(routing, w2, 0, 100, pc);
    w := CancelReadOne(routing, w3, 7, 5, 0);
  }

  /** A reachable world in which a cascade is about to clear the lease of a claimed
      ticket whose only parent is done: cascade safety is false of the split system. */
  lemma StaleCancelReachable(routing: Routing, pc: PrivacyClass)
    requires Plain(routing, pc)
    ensures exists w, p :: Reachable(routing, w) && Ready(routing, w, CascadeWrite(p))
              && InFlight(w.db.tickets[w.pending[p].next.value.child].status)
  {
    var w4 := CancelSetup(routing, pc);
    var w5 := ReportOne(routing, w4, 0, 0, Some(LOCAL_ONLY));
    assert w5.db.tickets[0].status == Done && w5.db.tickets[1] == w4.db.tickets[1];
    var w6 := ClaimOne(routing, w5, 1, 101, pc);
    var w7 := CancelWriteOne(routing, w6, 7, 0);
    var w8 := CascadeReadOne(routing, w7, 7, 0, 1);
    assert InFlight(w8.db.tickets[w8.pending[7].next.value.child].status);
  }

  /** A run after which the audit chain of a ticket is broken: it was claimed when a cancel
      read it, done when the cancel wrote, and the audit says claimed to cancelled. */
  lemma StaleAuditReachable(routing: Routing, pc: PrivacyClass) returns (ws: seq<World>, ss: seq<Step>, i: nat)
    requires Plain(routing, pc)
    ensures IsRun(routing, ws, ss) && i < |ss|
    ensures 0 !in ws[i].db.tickets && 0 in ws[i + 1].db.tickets
    ensures !Replays(ws[|ss|].db, 0, ws[i + 1].db.tickets[0].status)
    ensures 0 in ws[|ss|].db.tickets && ws[|ss|].db.tickets[0].status == Done
    ensures ws[|ss|].db.audit != [] && ws[|ss|].db.audit[|ws[|ss|].db.audit| - 1] == AuditRow(0, Claimed, Cancelled)
  {
    var w4 := CancelSetup(routing, pc);
    var w5 := ReportOne(routing, w4, 0, 0, Some(LOCAL_ONLY));
    assert w5.db.tickets[0].status == Done && w5.pending[7] == Cancelling(5, map[0 := Claimed], {});
    ws, ss, i := StaleAuditBreaksChain(routing, w5, CancelWrite(7, 0), 0);
  }

  /** A ticket claimed once and under review, with two reviewers about to reject it. */
  lemma RejectSetup(routing: Routing, pc: PrivacyClass) returns (w: World)
    requires Plain(routing, pc)
    ensures Reachable(routing, w) && w.minted == {100} && w.db.tasks == map[] && w.db.deps == {}
    ensures w.pending == map[1 := Rejecting(0, 1, 2), 2 := Rejecting(0, 1, 2)]
    ensures w.db.tickets.Keys == {0} && w.db.tickets[0].status == InReview
    ensures w.db.tickets[0].attempts == 1 && w.db.tickets[0].maxAttempts == 2 && w.db.tickets[0].privacyClass == pc
  {
    BaseRow(routing, pc, None, 0);
    var w1 := FirstTicket(routing, pc, None);
    var w2 := ClaimOne(routing, w1, 0, 100, pc);
    var w3 := ReportOne(routing, w2, 0, 0, None);
    var w4 := RejectReadOne(routing, w3, 1, 0);
    w := RejectReadOne(routing, w4, 2, 0);
  }

  /** A reachable world in which a ticket is open although every attempt is used: two
      reviewers rejected the same result, and one of them wrote an attempt too late. */
  lemma StaleRejectReachable(routing: Routing, pc: PrivacyClass)
    requires Plain(routing, pc)
    ensures exists w, id :: Reachable(routing, w) && id in w.db.tickets && !AttemptsOk(w.db.tickets[id])
  {
    var w5 := RejectSetup(routing, pc);
    var w6 := RejectWriteOne(routing, w5, 2, 0);
    var w7 := ClaimOne(routing, w6, 0, 101, pc);
    var w8 := ReportOne(routing, w7, 0, 0, None);
    var w9 := RejectWriteOne(routing, w8, 1, 0);
    assert 0 in w9.db.tickets && !AttemptsOk(w9.db.tickets[0]);
  }
}
