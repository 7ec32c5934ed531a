/** Three short histories that reach what the theorems leave open: a done ticket over an
    unfinished parent, a ready ticket nobody can claim, and an exhausted ticket whose task
    no pass of the reaper ends. */
module HistoryExamples {
  import opened Options
  import opened Privacy
  import opened TaskStates
  import opened DependencyGraph
  import opened Transitions
  import opened TicketStore
  import opened QueueInvariants
  import opened Fallout
  import opened Reaping

  function Spec(pc: PrivacyClass, task: Option<TaskId>): NewTicket {
    NewTicket(None, task, pc, {}, "normal", None, 1, true)
  }

  function Row(routing: Routing, pc: PrivacyClass, task: Option<TaskId>, rowid: nat): Ticket {
    NewRow(routing, Spec(pc, task), rowid, 0.0)
  }

  lemma RowIsOpen(routing: Routing, pc: PrivacyClass, task: Option<TaskId>, rowid: nat)
    requires Plain(routing, pc)
    ensures var t := Row(routing, pc, task, rowid);
            && t.status == Open && t.privacyClass == pc && t.taskId == task && t.lease == None
            && t.attempts == 0 && t.maxAttempts == 1
  {
  }

  lemma InsertOne(routing: Routing, h: seq<Commit>, id: TicketId, pc: PrivacyClass, task: Option<TaskId>) returns (h': seq<Commit>)
    requires id !in After(routing, h).tickets
    ensures var db := After(routing, h);
            After(routing, h') == db.(tickets := db.tickets[id := Row(routing, pc, task, |db.tickets|)])
  {
    var c := Insert(id, Spec(pc, task), {}, 0.0);
    h' := h + [c];
    AfterSnoc(routing, h, c);
    var none: set<TicketId> := {};
    assert After(routing, h).deps + (set p | p in none :: (id, p)) == After(routing, h).deps;
  }

  lemma ClaimOne(routing: Routing, h: seq<Commit>, id: TicketId, pc: PrivacyClass) returns (h': seq<Commit>)
    requires Plain(routing, pc)
    requires var db := After(routing, h);
             && id in db.tickets && db.tickets[id].status == Open && db.tickets[id].privacyClass == pc
             && DepsDone(db, id) && !LinkedTaskCancelled(db, db.tickets[id])
    ensures var db := After(routing, h);
            After(routing, h') == SetRow(db, id, Open, ClaimedRow(db.tickets[id], Lease("w", LOCAL_ONLY, 7, 9.0)))
  {
    var c := Claim(id, "w", Some(LOCAL_ONLY), 7, 9.0);
    h' := h + [c];
    AfterSnoc(routing, h, c);
    assert ClaimGuard(routing, After(routing, h), id, Some(LOCAL_ONLY));
  }

  /** A done ticket over a parent that is not: link after the fact. */
  lemma DoneOverOpenReachable(routing: Routing, pc: PrivacyClass) returns (h: seq<Commit>)
    requires Plain(routing, pc)
    ensures var db := After(routing, h);
            && (0, 1) in db.deps && 0 in db.tickets && 1 in db.tickets
            && db.tickets[0].status == Done && db.tickets[1].status == Open
            && !DoneOverDone(db)
  {
    RowIsOpen(routing, pc, None, 0);
    RowIsOpen(routing, pc, None, 1);
    var h1 := InsertOne(routing, [], 0, pc, None);
    var h2 := ClaimOne(routing, h1, 0, pc);
    var h3 := ReportOne(routing, h2);
    var h4 := InsertOne(routing, h3, 1, pc, None);
    h := LinkOne(routing, h4);
    assert (0, 1) in After(routing, h).deps;
  }

  lemma ReportOne(routing: Routing, h: seq<Commit>) returns (h': seq<Commit>)
    requires var db := After(routing, h);
             0 in db.tickets && db.tickets[0].status == Claimed && db.tickets[0].lease == Some(Lease("w", LOCAL_ONLY, 7, 9.0))
    ensures var db := After(routing, h);
            After(routing, h') == SetRow(db, 0, Claimed, ReportedRow(db.tickets[0], true, Done))
  {
    var c := Report(0, "w", Some(LOCAL_ONLY), 7, true, 1.0);
    h' := h + [c];
    AfterSnoc(routing, h, c);
    assert LeaseGuard(After(routing, h), 0, "w", 7, 1.0);
  }

  lemma LinkOne(routing: Routing, h: seq<Commit>) returns (h': seq<Commit>)
    requires var db := After(routing, h);
             && db.deps == {} && 0 in db.tickets && 1 in db.tickets
             && db.tickets[0].status == Done && db.tickets[0].privacyClass == db.tickets[1].privacyClass
    ensures After(routing, h') == After(routing, h).(deps := {(0, 1)})
  {
    var c := Link(0, 1);
    h' := h + [c];
    AfterSnoc(routing, h, c);
    var db := After(routing, h);
    if Reach(db.deps, 1, 0) {
      NoEntry(db.deps, 1, 0);
    }
    assert db.deps + {(0, 1)} == {(0, 1)};
  }

  lemma TaskOne(routing: Routing) returns (h: seq<Commit>)
    ensures After(routing, h) == EMPTY_DB.(tasks := map[5 := CREATED])
  {
    h := [] + [CreateTask(5)];
    AfterSnoc(routing, [], CreateTask(5));
    assert After(routing, []) == EMPTY_DB;
    assert EMPTY_DB.tasks[5 := CREATED] == map[5 := CREATED];
  }

  /** A ready ticket that no tier can claim: its task was cancelled and the queue never told. */
  lemma WaitingTicketReachable(routing: Routing, pc: PrivacyClass) returns (h: seq<Commit>)
    requires Plain(routing, pc)
    ensures var db := After(routing, h);
            && 0 in db.tickets && db.tickets[0].status == Open && DepsDone(db, 0)
            && LinkedTaskCancelled(db, db.tickets[0])
            && forall tier :: !ClaimGuard(routing, db, 0, tier)
  {
    RowIsOpen(routing, pc, Some(5), 0);
    var h1 := TaskOne(routing);
    var h2 := InsertOne(routing, h1, 0, pc, Some(5));
    var c := TaskVerb(5, Transitions.Cancel(CANCELLED));
    h := h2 + [c];
    AfterSnoc(routing, h2, c);
    var db := After(routing, h2);
    assert db.tasks[5] == CREATED;
    assert Decide(TASK_VOCAB, Transitions.Cancel(CANCELLED), TaskRow(db, 5)) == Write(CANCELLED);
  }

  /** An exhausted ticket whose task stays live whatever the reaper does: the reaper parked
      it and crashed before the mirror, and no later pass comes back to it. */
  lemma ForgottenMirrorReachable(routing: Routing, pc: PrivacyClass) returns (h: seq<Commit>)
    requires Plain(routing, pc)
    ensures var db := After(routing, h);
            && 0 in db.tickets && db.tickets[0].status == Parked && db.tickets[0].parkReason == Some(AttemptsExhausted)
            && db.tickets[0].taskId == Some(5) && 5 in db.tasks && db.tasks[5] == CREATED
            && forall now, db' :: ReaperPass(db, now, db') ==> db'.tickets == db.tickets && db'.tasks[5] == CREATED
  {
    RowIsOpen(routing, pc, Some(5), 0);
    var h1 := TaskOne(routing);
    var h2 := InsertOne(routing, h1, 0, pc, Some(5));
    var h3 := ClaimOne(routing, h2, 0, pc);
    h := ReapOne(routing, h3);
    var db := After(routing, h);
    assert db.tickets.Keys == {0} && db.deps == {};
    forall now, db' | ReaperPass(db, now, db')
      ensures db'.tickets == db.tickets && db'.tasks[5] == CREATED
    {
      NothingToReap(db, now, db');
    }
  }

  lemma ReapOne(routing: Routing, h: seq<Commit>) returns (h': seq<Commit>)
    requires var db := After(routing, h);
             && 0 in db.tickets && db.tickets[0].status == Claimed && db.tickets[0].lease.Some?
             && db.tickets[0].lease.value.expires < 10.0 && db.tickets[0].attempts >= db.tickets[0].maxAttempts
    ensures var db := After(routing, h);
            After(routing, h') == SetRow(db, 0, Claimed, ReapedRow(db.tickets[0]))
  {
    var c := Reap(0, 10.0);
    h' := h + [c];
    AfterSnoc(routing, h, c);
    assert ReapGuard(After(routing, h), 0, 10.0);
  }

  /** A pass over one exhausted ticket without dependents changes nothing. */
  lemma NothingToReap(db: Db, now: Time, db': Db)
    requires db.tickets.Keys == {0} && db.deps == {}
    requires db.tickets[0].status == Parked && 5 in db.tasks && db.tasks[5] == CREATED
    requires ReaperPass(db, now, db')
    ensures db'.tickets == db.tickets && db'.tasks[5] == CREATED
  {
    var mid := db.(tickets := ReapedTickets(db, now));
    assert mid.tickets == db.tickets;
    assert LiveEdges(mid) == {};
    assert Doomed(mid, DeadTickets(mid)) == {};
    assert CascadedTickets(mid.tickets, {}) == mid.tickets;
    assert ParkedNow(db, now) == {};
    assert forall k :: !Settles({}, db', k, 5);
  }
}
