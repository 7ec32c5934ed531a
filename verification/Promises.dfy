/** What the operations promise, written over the columns of the tables alone. No statement
    of the queue is built from anything in this module: it is what they are held against. */
module Promises {
  import opened Options
  import opened Privacy
  import opened TaskStates
  import opened DependencyGraph
  import opened TicketStore
  import opened Fallout
  import opened Reaping
  import opened QueueInvariants

  // ---------------------------------------------------------- single rows

  /** The tiers a class admits, as a set. */
  ghost function TiersOf(routing: Routing, pc: PrivacyClass): set<Tier> {
    if pc in routing.classes then set t | t in routing.classes[pc] else {}
  }

  /** A ticket that can no longer change. */
  ghost predicate Ended(t: Ticket) {
    t.status in {Done, Failed, Cancelled}
  }

  /** A ticket that can never become done. */
  ghost predicate Lost(t: Ticket) {
    t.status in {Failed, Cancelled} || (t.status == Parked && t.parkReason == Some(AttemptsExhausted))
  }

  /** The worker of this tier may have the ticket now. */
  ghost predicate Claimable(routing: Routing, db: Db, id: TicketId, tier: Option<Tier>) {
    && id in db.tickets && db.tickets[id].status == Open
    && tier.Some? && tier.value in TiersOf(routing, db.tickets[id].privacyClass)
    && (forall parent :: (id, parent) in db.deps ==> parent in db.tickets && db.tickets[parent].status == Done)
    && (db.tickets[id].taskId.Some? && db.tickets[id].taskId.value in db.tasks ==> db.tasks[db.tickets[id].taskId.value] != CANCELLED)
  }

  /** The identity holds the ticket under this token, and its lease has not run out. */
  ghost predicate Fenced(db: Db, id: TicketId, identity: Identity, token: Token, now: Time) {
    && id in db.tickets && db.tickets[id].status == Claimed && db.tickets[id].lease.Some?
    && db.tickets[id].lease.value.holder == identity && db.tickets[id].lease.value.token == token
    && now < db.tickets[id].lease.value.expires
  }

  /** A ticket of this class may depend on the other: it exists, and no tier sees the
      dependent that may not see it. */
  ghost predicate MayDepend(routing: Routing, tickets: map<TicketId, Ticket>, pc: PrivacyClass, dep: TicketId) {
    dep in tickets && TiersOf(routing, pc) <= TiersOf(routing, tickets[dep].privacyClass)
  }

  ghost predicate FirstRefused(routing: Routing, tickets: map<TicketId, Ticket>, pc: PrivacyClass, dependsOn: seq<TicketId>, i: int) {
    && 0 <= i < |dependsOn| && !MayDepend(routing, tickets, pc, dependsOn[i])
    && forall j :: 0 <= j < i ==> MayDepend(routing, tickets, pc, dependsOn[j])
  }

  /** A worker has the ticket and its lease has run out. */
  ghost predicate Overdue(t: Ticket, now: Time) {
    t.status == Claimed && t.lease.Some? && t.lease.value.expires < now
  }

  /** Handed out before: urgent first, low last, anything else between, then the older. */
  ghost predicate GoesFirst(t: Ticket, u: Ticket) {
    && (u.priority == "urgent" ==> t.priority == "urgent")
    && (t.priority == "low" ==> u.priority == "low")
    && ((t.priority == "urgent" <==> u.priority == "urgent") && (t.priority == "low" <==> u.priority == "low") ==>
          t.createdAt < u.createdAt || (t.createdAt == u.createdAt && t.rowid < u.rowid))
  }

  /** The row of a ticket that has just been added. */
  ghost predicate Added(routing: Routing, spec: NewTicket, now: Time, t: Ticket) {
    && t.dedupKey == spec.dedupKey && t.taskId == spec.taskId && t.privacyClass == spec.privacyClass
    && t.capabilities == spec.capabilities && t.priority == spec.priority && t.payloadRef == spec.payloadRef
    && t.maxAttempts == spec.maxAttempts && t.createdAt == now
    && t.attempts == 0 && t.lease == None && t.resultStatus == None
    && (forall tier :: tier in t.cachedTiers <==> tier in TiersOf(routing, spec.privacyClass))
    && (t.status == Parked && t.parkReason == Some(SecretNotPullable) <==> TiersOf(routing, spec.privacyClass) == {})
    && (t.status == Parked && t.parkReason == Some(RedactionRequired) <==>
          TiersOf(routing, spec.privacyClass) != {} && spec.privacyClass in routing.requireRedaction && !spec.cloudSafe)
    && (t.status == Open && t.parkReason == None <==>
          TiersOf(routing, spec.privacyClass) != {} && (spec.privacyClass in routing.requireRedaction ==> spec.cloudSafe))
  }

  // ------------------------------------------------------------- the tables

  /** Nothing but the tickets differs, and of these only one. */
  ghost predicate OnlyRow(db: Db, id: TicketId, row: Ticket, db': Db) {
    && db'.tickets == db.tickets[id := row] && db'.deps == db.deps && db'.tasks == db.tasks && db'.taskLog == db.taskLog
  }

  /** The ticket is a worker's, under this lease and with one more attempt spent. */
  ghost predicate Taken(db: Db, id: TicketId, lease: Lease, db': Db) {
    && id in db.tickets
    && OnlyRow(db, id, db.tickets[id].(status := Claimed, attempts := db.tickets[id].attempts + 1, lease := Some(lease)), db')
    && db'.audit == db.audit + [AuditRow(id, Open, Claimed)]
  }

  /** The tasks after an outcome: the linked one takes it if it exists and is still live. */
  ghost function TasksWith(tasks: map<TaskId, TaskState>, task: Option<TaskId>, s: TaskState): map<TaskId, TaskState> {
    if task.Some? && task.value in tasks && tasks[task.value] !in {COMPLETE, CANCELLED, FAILED} then tasks[task.value := s] else tasks
  }

  /** A ticket failed because something it depends on is lost. */
  ghost predicate Dragged(t: Ticket, u: Ticket) {
    && !Ended(t)
    && u == t.(status := Failed, resultStatus := Some(LostDependency), parkReason := Some(DependencyFailed), lease := None)
  }

  /** A cascade from lost tickets: whatever it changes it fails, because it depends on one
      of them; and it leaves nothing live behind one of them or behind what it failed. */
  ghost predicate Cascaded(tickets: map<TicketId, Ticket>, deps: Edges, roots: set<TicketId>, tickets': map<TicketId, Ticket>) {
    && tickets'.Keys == tickets.Keys
    && (forall k :: k in tickets && tickets'[k] != tickets[k] ==>
          Dragged(tickets[k], tickets'[k]) && exists r :: r in roots && Reach(deps, k, r))
    && (forall child, parent :: (child, parent) in deps && child in tickets && parent in tickets ==>
          (parent in roots || tickets'[parent] != tickets[parent] ==> Ended(tickets'[child])))
  }

  /** The tasks of the tickets a cascade failed fail with them. */
  ghost predicate TasksCascaded(tickets: map<TicketId, Ticket>, tasks: map<TaskId, TaskState>,
                                tickets': map<TicketId, Ticket>, tasks': map<TaskId, TaskState>) {
    && tasks'.Keys == tasks.Keys
    && (forall t :: t in tasks && tasks'[t] != tasks[t] ==>
          tasks[t] !in {COMPLETE, CANCELLED, FAILED} && tasks'[t] == FAILED
          && exists k :: k in tickets && k in tickets' && tickets'[k] != tickets[k] && tickets[k].taskId == Some(t))
    && (forall k :: k in tickets && k in tickets' && tickets'[k] != tickets[k] ==>
          (tickets[k].taskId.Some? && tickets[k].taskId.value in tasks ==>
             tasks'[tickets[k].taskId.value] in {COMPLETE, CANCELLED, FAILED}))
  }

  /** The live tickets of a task are cancelled, and a cascade follows from them. */
  ghost predicate CancelShown(db: Db, task: TaskId, cancelled: seq<TicketId>, db': Db) {
    var tickets := map k | k in db.tickets :: if Cancels(db.tickets[k], task) then
      db.tickets[k].(status := Cancelled, resultStatus := Some(CancelledResult), parkReason := Some(TaskCancelled), lease := None)
      else db.tickets[k];
    && (forall k :: k in cancelled <==> k in db.tickets && Cancels(db.tickets[k], task))
    && db'.deps == db.deps
    && Cascaded(tickets, db.deps, Elements(cancelled), db'.tickets)
    && TasksCascaded(tickets, db.tasks, db'.tickets, db'.tasks)
  }

  ghost predicate Cancels(t: Ticket, task: TaskId) {
    !Ended(t) && t.taskId == Some(task)
  }

  ghost predicate CascadeShown(db: Db, roots: set<TicketId>, db': Db) {
    && db'.deps == db.deps
    && Cascaded(db.tickets, db.deps, roots, db'.tickets)
    && TasksCascaded(db.tickets, db.tasks, db'.tickets, db'.tasks)
  }

  /** One pass of the reaper: every overdue lease is taken away and every lease left is good,
      whatever else changes is failed because of a lost ticket, and nothing is left over. */
  ghost predicate PassShown(db: Db, now: Time, db': Db) {
    && db'.deps == db.deps && db'.tickets.Keys == db.tickets.Keys
    && LeasesTaken(db, now, db') && OnlyDragged(db, now, db') && NothingLeftOver(db')
  }

  /** An overdue ticket is open again while attempts remain, else parked as exhausted. */
  ghost predicate LeasesTaken(db: Db, now: Time, db': Db) {
    && (forall k :: k in db.tickets && Overdue(db.tickets[k], now) ==> k in db'.tickets && TakenAway(db.tickets[k], db'.tickets[k]))
    && (forall k :: k in db'.tickets && db'.tickets[k].status == Claimed ==>
          db'.tickets[k].lease.Some? && db'.tickets[k].lease.value.expires >= now)
  }

  ghost predicate OnlyDragged(db: Db, now: Time, db': Db) {
    forall k :: k in db.tickets && k in db'.tickets && !Overdue(db.tickets[k], now) && db'.tickets[k] != db.tickets[k] ==>
      Dragged(db.tickets[k], db'.tickets[k]) && exists r :: LostNow(db, now, r) && Reach(db.deps, k, r)
  }

  /** No live ticket depends on a lost one, and no done or failed ticket has a live task. */
  ghost predicate NothingLeftOver(db: Db) {
    && (forall child, parent :: (child, parent) in db.deps && child in db.tickets && parent in db.tickets ==>
          (Lost(db.tickets[parent]) ==> Ended(db.tickets[child])))
    && (forall k :: k in db.tickets && db.tickets[k].status in {Done, Failed} ==>
          (db.tickets[k].taskId.Some? && db.tickets[k].taskId.value in db.tasks ==>
             db.tasks[db.tickets[k].taskId.value] in {COMPLETE, CANCELLED, FAILED}))
  }

  /** The two UPDATEs of a pass: which leases are overdue, and what becomes of their tickets. */
  ghost predicate LeasesReaped(tickets: map<TicketId, Ticket>, now: Time, requeued: seq<TicketId>, parked: seq<TicketId>,
                               tickets': map<TicketId, Ticket>) {
    && tickets'.Keys == tickets.Keys
    && (forall k :: k in requeued <==> k in tickets && Overdue(tickets[k], now) && tickets[k].attempts < tickets[k].maxAttempts)
    && (forall k :: k in parked <==> k in tickets && Overdue(tickets[k], now) && tickets[k].attempts >= tickets[k].maxAttempts)
    && (forall k :: k in tickets ==> if Overdue(tickets[k], now) then TakenAway(tickets[k], tickets'[k]) else tickets'[k] == tickets[k])
  }

  ghost predicate TakenAway(t: Ticket, u: Ticket) {
    && (t.attempts < t.maxAttempts ==> u == t.(status := Open, lease := None))
    && (t.attempts >= t.maxAttempts ==> u == t.(status := Parked, parkReason := Some(AttemptsExhausted), lease := None))
  }

  /** A ticket that was lost, or is now because its last attempt ran out. */
  ghost predicate LostNow(db: Db, now: Time, id: TicketId) {
    && id in db.tickets
    && (Lost(db.tickets[id]) || (Overdue(db.tickets[id], now) && db.tickets[id].attempts >= db.tickets[id].maxAttempts))
  }

  // ------------------------------- the statements keep what is promised

  lemma ClaimGuardIsClaimable(routing: Routing, db: Db, id: TicketId, tier: Option<Tier>)
    ensures ClaimGuard(routing, db, id, tier) <==> Claimable(routing, db, id, tier)
  {
    if id in db.tickets {
      assert forall e :: e in db.deps ==> e == (e.0, e.1);
    }
  }

  lemma NoDowngradeIsSubset(routing: Routing, child: PrivacyClass, parent: PrivacyClass)
    ensures NoDowngrade(routing, child, parent) <==> TiersOf(routing, child) <= TiersOf(routing, parent)
  {
    if NoDowngrade(routing, child, parent) {
      forall t | t in TiersOf(routing, child)
        ensures t in TiersOf(routing, parent)
      {
        assert t in AllowedTiers(routing, child);
      }
    } else {
      var t :| t in AllowedTiers(routing, child) && t !in AllowedTiers(routing, parent);
      assert t in TiersOf(routing, child);
    }
  }

  lemma NewRowIsAdded(routing: Routing, spec: NewTicket, rowid: nat, now: Time)
    ensures Added(routing, spec, now, NewRow(routing, spec, rowid, now))
  {
    var tiers := AllowedTiers(routing, spec.privacyClass);
    assert tiers != [] ==> tiers[0] in TiersOf(routing, spec.privacyClass);
  }

  /** Everything in a cascade's fallout depends on its root. */
  lemma FalloutDepends(db: Db, root: TicketId, c: TicketId)
    requires c in FalloutOf(db, root)
    ensures Reach(db.deps, c, root)
  {
    var z :| (root, z) in LiveEdges(db) && Reach(LiveEdges(db), z, c);
    ReachReversed(LiveEdges(db), db.deps, z, c);
    ReachExtend(db.deps, c, z, root);
  }

  lemma ReachReversed(g: Edges, h: Edges, x: Node, y: Node)
    requires forall a, b :: (a, b) in g ==> (b, a) in h
    requires Reach(g, x, y)
    ensures Reach(h, y, x)
  {
    var p :| IsPath(g, p, x, y);
    PathReversed(g, h, p, |p| - 1);
  }

  lemma {:induction false} PathReversed(g: Edges, h: Edges, p: seq<Node>, k: nat)
    requires forall a, b :: (a, b) in g ==> (b, a) in h
    requires k < |p| && forall i :: 0 <= i < |p| - 1 ==> (p[i], p[i + 1]) in g
    ensures Reach(h, p[k], p[0])
  {
    if k == 0 {
      ReachRefl(h, p[0]);
    } else {
      PathReversed(g, h, p, k - 1);
      assert (p[k - 1], p[k - 1 + 1]) in g;
      ReachStep(h, p[k], p[k - 1], p[0]);
    }
  }

  /** Failing what some roots doom, and leaving no live dependent behind, is a cascade. */
  lemma DoomIsShown(db: Db, roots: set<TicketId>, db': Db)
    requires PartlyFailed(db, roots, Doomed(db, roots), db')
    requires forall e :: e in db'.deps && LiveRow(db', e.0) ==> e.1 !in roots && e.1 !in Doomed(db, roots)
    ensures Cascaded(db.tickets, db.deps, roots, db'.tickets)
  {
    forall k | k in db.tickets && db'.tickets[k] != db.tickets[k]
      ensures Dragged(db.tickets[k], db'.tickets[k]) && exists r :: r in roots && Reach(db.deps, k, r)
    {
      var r :| r in roots && k in FalloutOf(db, r);
      FalloutIsLive(db, r, k);
      FalloutDepends(db, r, k);
    }
    forall child, parent | (child, parent) in db.deps && child in db.tickets && parent in db.tickets
      ensures parent in roots || db'.tickets[parent] != db.tickets[parent] ==> Ended(db'.tickets[child])
    {
      assert (child, parent) in db'.deps;
    }
  }

  /** The fallout of one root is a cascade in terms of the columns, and so are its tasks. */
  lemma CascadeIsShown(db: Db, root: TicketId, db': Db)
    requires CascadeOf(db, root, db')
    ensures CascadeShown(db, {root}, db')
  {
    OneRootDooms(db, root);
    forall e | e in db'.deps && LiveRow(db', e.0)
      ensures e.1 !in {root} && e.1 !in FalloutOf(db, root)
    {
      assert (e.0, e.1) in db'.deps;
      CascadeSettles(db, root, db', e.0, e.1);
    }
    DoomIsShown(db, {root}, db');
    FailedChange(db, root, db');
    TasksAreShown(db, FalloutOf(db, root), db');
  }

  lemma OneRootDooms(db: Db, root: TicketId)
    ensures Doomed(db, {root}) == FalloutOf(db, root)
  {
  }

  lemma FailedChange(db: Db, root: TicketId, db': Db)
    requires CascadeOf(db, root, db')
    ensures forall k :: k in db.tickets ==> (db'.tickets[k] != db.tickets[k] <==> k in FalloutOf(db, root))
  {
    forall k | k in FalloutOf(db, root)
      ensures db'.tickets[k] != db.tickets[k]
    {
      FalloutIsLive(db, root, k);
    }
  }

  lemma CancelIsShown(db: Db, task: TaskId, cancelled: seq<TicketId>, mid: Db, db': Db)
    requires forall k :: k in cancelled <==> LiveRow(db, k) && db.tickets[k].taskId == Some(task)
    requires mid.tickets == (map k | k in db.tickets :: if k in cancelled then CancelledRow(db.tickets[k]) else db.tickets[k])
    requires mid.deps == db.deps && mid.tasks == db.tasks
    requires PartlyFailed(mid, Elements(cancelled), Doomed(mid, Elements(cancelled)), db')
    requires db'.tasks == CascadedTasks(mid, Doomed(mid, Elements(cancelled)))
    requires forall e :: e in db'.deps && LiveRow(db', e.0) ==> e.1 !in Elements(cancelled) && e.1 !in Doomed(mid, Elements(cancelled))
    ensures CancelShown(db, task, cancelled, db')
  {
    var failed := Doomed(mid, Elements(cancelled));
    DoomIsShown(mid, Elements(cancelled), db');
    DoomChange(mid, Elements(cancelled), db');
    TasksAreShown(mid, failed, db');
    assert mid.tickets == map k | k in db.tickets :: if Cancels(db.tickets[k], task) then
      db.tickets[k].(status := Cancelled, resultStatus := Some(CancelledResult), parkReason := Some(TaskCancelled), lease := None)
      else db.tickets[k];
  }

  lemma DoomChange(db: Db, roots: set<TicketId>, db': Db)
    requires PartlyFailed(db, roots, Doomed(db, roots), db')
    ensures forall k :: k in db.tickets ==> (db'.tickets[k] != db.tickets[k] <==> k in Doomed(db, roots))
  {
    forall k | k in Doomed(db, roots)
      ensures db'.tickets[k] != db.tickets[k]
    {
      var r :| r in roots && k in FalloutOf(db, r);
      FalloutIsLive(db, r, k);
    }
  }

  lemma TasksAreShown(db: Db, failed: set<TicketId>, db': Db)
    requires failed <= db.tickets.Keys && db'.tickets.Keys == db.tickets.Keys
    requires forall k :: k in db.tickets ==> (db'.tickets[k] != db.tickets[k] <==> k in failed)
    requires db'.tasks == CascadedTasks(db, failed)
    ensures TasksCascaded(db.tickets, db.tasks, db'.tickets, db'.tasks)
  {
  }

  lemma PassIsShown(routing: Routing, db: Db, now: Time, db': Db)
    requires Inv(routing, db) && ReaperPass(db, now, db')
    ensures PassShown(db, now, db')
  {
    var mid := db.(tickets := ReapedTickets(db, now));
    var failed := Doomed(mid, DeadTickets(mid));
    HeldAreNotDoomed(routing, db, now, failed);
    PassTakesLeases(db, now, failed, db');
    PassDrags(db, now, failed, db');
    PassSettles(db, now, db');
  }

  lemma HeldAreNotDoomed(routing: Routing, db: Db, now: Time, failed: set<TicketId>)
    requires Inv(routing, db)
    requires var mid := db.(tickets := ReapedTickets(db, now));
             failed == Doomed(mid, DeadTickets(mid))
    ensures forall k :: k in db.tickets && db.tickets[k].status == Claimed ==> db.tickets[k].lease.Some? && k !in failed
  {
    forall k | k in db.tickets && db.tickets[k].status == Claimed
      ensures db.tickets[k].lease.Some? && k !in failed
    {
      HeldIsNotDoomed(routing, db, now, k);
      assert RowOk(routing, db.tickets[k]);
    }
  }

  lemma PassTakesLeases(db: Db, now: Time, failed: set<TicketId>, db': Db)
    requires db'.tickets == CascadedTickets(ReapedTickets(db, now), failed)
    requires forall k :: k in db.tickets && db.tickets[k].status == Claimed ==> db.tickets[k].lease.Some? && k !in failed
    ensures LeasesTaken(db, now, db')
  {
  }

  lemma PassDrags(db: Db, now: Time, failed: set<TicketId>, db': Db)
    requires db'.tickets == CascadedTickets(ReapedTickets(db, now), failed)
    requires var mid := db.(tickets := ReapedTickets(db, now));
             failed == Doomed(mid, DeadTickets(mid))
    ensures OnlyDragged(db, now, db')
  {
    var mid := db.(tickets := ReapedTickets(db, now));
    forall k | k in db.tickets && !Overdue(db.tickets[k], now) && db'.tickets[k] != db.tickets[k]
      ensures Dragged(db.tickets[k], db'.tickets[k]) && exists r :: LostNow(db, now, r) && Reach(db.deps, k, r)
    {
      var r :| r in DeadTickets(mid) && k in FalloutOf(mid, r);
      FalloutIsLive(mid, r, k);
      FalloutDepends(mid, r, k);
      assert LostNow(db, now, r);
    }
  }

  lemma PassSettles(db: Db, now: Time, db': Db)
    requires ReaperPass(db, now, db')
    ensures NothingLeftOver(db') && db'.tickets.Keys == db.tickets.Keys
  {
    forall child, parent | (child, parent) in db'.deps && child in db'.tickets && parent in db'.tickets && Lost(db'.tickets[parent])
      ensures Ended(db'.tickets[child])
    {
      assert (child, parent) in db'.deps;
    }
    assert forall k :: k in db'.tickets ==> !Desynced(db', k);
  }

  /** A ticket in a worker's hands has done dependencies only, so no lost one drags it. */
  lemma HeldIsNotDoomed(routing: Routing, db: Db, now: Time, k: TicketId)
    requires Inv(routing, db) && k in db.tickets && db.tickets[k].status == Claimed
    ensures var mid := db.(tickets := ReapedTickets(db, now));
            k !in Doomed(mid, DeadTickets(mid))
  {
    var mid := db.(tickets := ReapedTickets(db, now));
    assert forall e :: e in db.deps && e.0 == k ==> e.1 in db.tickets && mid.tickets[e.1].status == Done;
    if r :| r in DeadTickets(mid) && k in FalloutOf(mid, r) {
      var a := LastCause(mid, r, k);
      assert false;
    }
  }

  /** The ticket through which a cascade reaches another. */
  lemma LastCause(db: Db, root: TicketId, c: TicketId) returns (a: TicketId)
    requires c in FalloutOf(db, root)
    ensures (c, a) in db.deps && (a == root || LiveRow(db, a))
  {
    var g := LiveEdges(db);
    var z :| (root, z) in g && Reach(g, z, c);
    var p :| IsPath(g, p, z, c);
    a := root;
    if |p| > 1 {
      a := p[|p| - 2];
      LastEdge(g, p, |p| - 2);
      if |p| > 2 {
        LastEdge(g, p, |p| - 3);
      }
    }
  }
}
