/** What every commit keeps: the base invariant of the queue, whatever commits come in
    whatever order, so also after a crash between any two of them. */
module QueueInvariants {
  import opened Options
  import opened Privacy
  import opened TaskStates
  import opened DependencyGraph
  import opened TicketStore

  /** One row on its own. */
  ghost predicate RowOk(routing: Routing, t: Ticket) {
    && (InFlight(t.status) || t.status == Done ==>
          t.lease.Some? && t.lease.value.tier in AllowedTiers(routing, t.privacyClass))
    && (!InFlight(t.status) && t.status != Done ==> t.lease == None)
    && (AllowedTiers(routing, t.privacyClass) == [] ==> t.status == Parked || t.status == Failed || t.status == Cancelled)
    && (t.status == Parked ==>
          t.parkReason == Some(SecretNotPullable) || t.parkReason == Some(RedactionRequired) || t.parkReason == Some(AttemptsExhausted))
  }

  /** Both ends of every edge exist, no edge leads to a less restricted class, no cycle. */
  ghost predicate EdgesOk(routing: Routing, db: Db) {
    && (forall e :: e in db.deps ==> e.0 in db.tickets && e.1 in db.tickets)
    && (forall e :: e in db.deps ==> NoDowngrade(routing, db.tickets[e.0].privacyClass, db.tickets[e.1].privacyClass))
    && Acyclic(db.deps)
  }

  /** A ticket is in a worker's hands only over finished parents. */
  ghost predicate ParentsDone(db: Db) {
    forall e :: e in db.deps && e.0 in db.tickets && InFlight(db.tickets[e.0].status) ==>
      e.1 in db.tickets && db.tickets[e.1].status == Done
  }

  ghost predicate KeysUnique(db: Db) {
    && (forall i, j :: i in db.tickets && j in db.tickets && i != j ==> db.tickets[i].rowid != db.tickets[j].rowid)
    && (forall i :: i in db.tickets ==> db.tickets[i].rowid < |db.tickets|)
    && (forall i, j :: i in db.tickets && j in db.tickets && i != j && db.tickets[i].dedupKey.Some? ==>
          db.tickets[i].dedupKey != db.tickets[j].dedupKey)
  }

  ghost predicate Inv(routing: Routing, db: Db) {
    && (forall id :: id in db.tickets ==> RowOk(routing, db.tickets[id]))
    && EdgesOk(routing, db)
    && ParentsDone(db)
    && KeysUnique(db)
  }

  /** The columns no statement of the queue ever writes after the insert. */
  predicate SameColumns(t: Ticket, u: Ticket) {
    && u.rowid == t.rowid && u.dedupKey == t.dedupKey && u.taskId == t.taskId
    && u.privacyClass == t.privacyClass && u.cachedTiers == t.cachedTiers && u.capabilities == t.capabilities
    && u.priority == t.priority && u.payloadRef == t.payloadRef && u.createdAt == t.createdAt
    && u.maxAttempts == t.maxAttempts
  }

  /** The real step relation of a ticket row, read off the UPDATE statements. `ready`
      says whether all its dependencies are done. */
  ghost predicate RowStep(routing: Routing, ready: bool, t: Ticket, u: Ticket) {
    && SameColumns(t, u)
    && (|| (t.status == Open && u.status == Claimed && ready && u.attempts == t.attempts + 1
            && u.lease.Some? && u.lease.value.tier in AllowedTiers(routing, t.privacyClass))
        || (t.status == Claimed && u.status == Claimed && u.attempts == t.attempts
            && t.lease.Some? && u.lease.Some? && u.lease.value.tier == t.lease.value.tier && u.lease.value.token == t.lease.value.token)
        || (t.status == Claimed && (u.status == InReview || u.status == Done) && u.attempts == t.attempts && u.lease == t.lease)
        || (t.status == InReview && u.status == Done && u.attempts == t.attempts && u.lease == t.lease)
        || (InFlight(t.status) && u.status == Open && u.attempts == t.attempts && u.lease == None)
        || (t.status == Claimed && u.status == Parked && u.attempts == t.attempts && u.lease == None && u.parkReason == Some(AttemptsExhausted))
        || (!Terminal(t.status) && (u.status == Failed || u.status == Cancelled) && u.attempts == t.attempts && u.lease == None))
  }

  /** `db'` differs from `db` in the one row `id`, and perhaps in logs and tasks. */
  ghost predicate OneRow(db: Db, db': Db, id: TicketId, u: Ticket) {
    && id in db.tickets
    && db'.tickets == db.tickets[id := u]
    && db'.deps == db.deps
  }

  lemma OneRowKeepsRows(routing: Routing, db: Db, db': Db, id: TicketId, u: Ticket)
    requires Inv(routing, db) && OneRow(db, db', id, u)
    requires RowStep(routing, DepsDone(db, id), db.tickets[id], u)
    ensures forall k :: k in db'.tickets ==> RowOk(routing, db'.tickets[k])
    ensures KeysUnique(db')
  {
    RowStepKeepsRow(routing, DepsDone(db, id), db.tickets[id], u);
    SameColumnsKeepKeys(db, db', id, u);
  }

  lemma SameColumnsKeepKeys(db: Db, db': Db, id: TicketId, u: Ticket)
    requires KeysUnique(db) && OneRow(db, db', id, u) && SameColumns(db.tickets[id], u)
    ensures KeysUnique(db')
  {
    SameSize(db.tickets, id, u);
  }

  lemma SameSize(tickets: map<TicketId, Ticket>, id: TicketId, u: Ticket)
    requires id in tickets
    ensures |tickets[id := u]| == |tickets| && tickets[id := u].Keys == tickets.Keys
  {
    assert tickets[id := u].Keys == tickets.Keys;
    assert |tickets[id := u].Keys| == |tickets[id := u]| && |tickets.Keys| == |tickets|;
  }

  lemma RowStepKeepsRow(routing: Routing, ready: bool, t: Ticket, u: Ticket)
    requires RowStep(routing, ready, t, u) && RowOk(routing, t)
    ensures RowOk(routing, u) && SameColumns(t, u)
  {
  }

  lemma OneRowKeepsEdges(routing: Routing, db: Db, db': Db, id: TicketId, u: Ticket)
    requires Inv(routing, db) && OneRow(db, db', id, u)
    requires RowStep(routing, DepsDone(db, id), db.tickets[id], u)
    ensures EdgesOk(routing, db') && ParentsDone(db')
  {
    var t := db.tickets[id];
    forall e | e in db'.deps && e.0 in db'.tickets && InFlight(db'.tickets[e.0].status)
      ensures e.1 in db'.tickets && db'.tickets[e.1].status == Done
    {
      if e.0 == id {
        assert InFlight(t.status) || DepsDone(db, id);
      }
      assert db.tickets[e.1].status == Done;
      assert t.status == Done ==> u.status == Done;
    }
  }

  lemma OneRowKeepsInv(routing: Routing, db: Db, db': Db, id: TicketId, u: Ticket)
    requires Inv(routing, db) && OneRow(db, db', id, u)
    requires RowStep(routing, DepsDone(db, id), db.tickets[id], u)
    ensures Inv(routing, db')
  {
    OneRowKeepsRows(routing, db, db', id, u);
    OneRowKeepsEdges(routing, db, db', id, u);
  }

  /** The row a commit writes, if it writes one. */
  ghost function RowOf(c: Commit): Option<TicketId> {
    match c
    case Claim(id, _, _, _, _) => Some(id)
    case Renew(id, _, _, _, _) => Some(id)
    case Report(id, _, _, _, _, _) => Some(id)
    case Approve(id, _) => Some(id)
    case Reject(id, _) => Some(id)
    case CancelTicket(id, _) => Some(id)
    case Reap(id, _) => Some(id)
    case CascadeTo(child, _) => Some(child)
    case _ => None
  }

  /** `db'` is `db` with row `id` moved by one row step and that move audited; only a
      lease renewal, which leaves the status alone, goes without an audit row. */
  ghost predicate RowWritten(routing: Routing, db: Db, db': Db, id: TicketId) {
    && id in db.tickets && id in db'.tickets
    && OneRow(db, db', id, db'.tickets[id])
    && RowStep(routing, DepsDone(db, id), db.tickets[id], db'.tickets[id])
    && (if db'.tickets[id].status == db.tickets[id].status then db'.audit == db.audit
        else db'.audit == db.audit + [AuditRow(id, db.tickets[id].status, db'.tickets[id].status)])
  }

  /** `db'` has every ticket of `db` unchanged, perhaps a new one, and the same audit. */
  ghost predicate Quiet(db: Db, db': Db) {
    && db'.audit == db.audit
    && forall k :: k in db.tickets ==> k in db'.tickets && db'.tickets[k] == db.tickets[k]
  }

  /** A requeue that was decided on the row it updates leaves an attempt. */
  predicate Timely(t: Ticket, u: Ticket) {
    InFlight(t.status) && u.status == Open ==> t.attempts < t.maxAttempts
  }

  /** Every row update of every commit is an audited, timely step of the real step relation. */
  lemma CommitIsRowStep(routing: Routing, db: Db, c: Commit)
    requires Inv(routing, db) && Enabled(routing, db, c) && RowOf(c).Some?
    ensures RowWritten(routing, db, Do(routing, db, c), RowOf(c).value)
    ensures Timely(db.tickets[RowOf(c).value], Do(routing, db, c).tickets[RowOf(c).value])
  {
    assert RowOk(routing, db.tickets[RowOf(c).value]);
    if c.Claim? || c.Renew? || c.Report? {
      LeaseCommitIsRowStep(routing, db, c);
    } else {
      EndingCommitIsRowStep(routing, db, c);
    }
  }

  lemma LeaseCommitIsRowStep(routing: Routing, db: Db, c: Commit)
    requires Enabled(routing, db, c) && RowOf(c).Some? && RowOk(routing, db.tickets[RowOf(c).value])
    requires c.Claim? || c.Renew? || c.Report?
    ensures RowWritten(routing, db, Do(routing, db, c), RowOf(c).value)
    ensures Timely(db.tickets[RowOf(c).value], Do(routing, db, c).tickets[RowOf(c).value])
  {
  }

  lemma EndingCommitIsRowStep(routing: Routing, db: Db, c: Commit)
    requires Enabled(routing, db, c) && RowOf(c).Some? && RowOk(routing, db.tickets[RowOf(c).value])
    requires !c.Claim? && !c.Renew? && !c.Report?
    ensures RowWritten(routing, db, Do(routing, db, c), RowOf(c).value)
    ensures Timely(db.tickets[RowOf(c).value], Do(routing, db, c).tickets[RowOf(c).value])
  {
  }

  /** Every commit writes one row in that way or leaves the existing rows alone. */
  lemma CommitEffect(routing: Routing, db: Db, c: Commit)
    requires Inv(routing, db)
    ensures if Enabled(routing, db, c) && RowOf(c).Some?
            then RowWritten(routing, db, Do(routing, db, c), RowOf(c).value)
                 && Timely(db.tickets[RowOf(c).value], Do(routing, db, c).tickets[RowOf(c).value])
            else Quiet(db, Do(routing, db, c))
  {
    if Enabled(routing, db, c) {
      if RowOf(c).Some? {
        CommitIsRowStep(routing, db, c);
      } else {
        OtherCommitIsQuiet(routing, db, c);
      }
    }
  }

  lemma OtherCommitIsQuiet(routing: Routing, db: Db, c: Commit)
    requires Enabled(routing, db, c) && RowOf(c).None?
    ensures Quiet(db, Do(routing, db, c))
  {
  }

  /** Which commits bring a row into which status. */
  lemma CommitMoves(routing: Routing, db: Db, c: Commit)
    requires Enabled(routing, db, c) && RowOf(c).Some?
    ensures RowOf(c).value in db.tickets && RowOf(c).value in Do(routing, db, c).tickets
    ensures var u := Do(routing, db, c).tickets[RowOf(c).value];
            && (u.status == Claimed ==> c.Claim? || c.Renew?)
            && (u.status == InReview ==> c.Report?)
            && (u.status == Done ==> c.Report? || c == Approve(RowOf(c).value, Some(LOCAL_ONLY)))
            && (c.Renew? ==> u.status == db.tickets[RowOf(c).value].status)
  {
  }

  /** The status vocabulary the source declares beside the UPDATE statements. */
  const TICKET_STATUS_VOCAB: Vocabulary<Status> :=
    Vocabulary(map[Open := {Claimed},
                   Claimed := {Open, InReview, Done, Failed},
                   InReview := {Open, Done, Failed},
                   Parked := {Open, Failed},
                   Done := {}, Failed := {}, Cancelled := {}],
               {Done, Failed, Cancelled}, {Cancelled})

  /** The declared vocabulary is not the step relation: the audit row of a status change
      carries the out-of-vocabulary warning exactly when the reaper parks a claimed ticket
      or a cascade fails an open one, and the declared step from parked to open never
      happens. */
  lemma WarnedSteps(routing: Routing, db: Db, c: Commit, id: TicketId)
    requires Inv(routing, db) && Enabled(routing, db, c) && RowOf(c) == Some(id)
    ensures id in db.tickets && id in Do(routing, db, c).tickets
    ensures var src, dst := db.tickets[id].status, Do(routing, db, c).tickets[id].status;
            && (src != dst ==> (Warned(src, dst) <==> (src == Claimed && dst == Parked) || (src == Open && dst == Failed)))
            && !(src == Parked && dst == Open)
  {
    CommitIsRowStep(routing, db, c);
    WarnedRowStep(routing, DepsDone(db, id), db.tickets[id], Do(routing, db, c).tickets[id]);
  }

  predicate Warned(src: Status, dst: Status) {
    dst !in Allowed(TICKET_STATUS_VOCAB, src, map[])
  }

  lemma WarnedRowStep(routing: Routing, ready: bool, t: Ticket, u: Ticket)
    requires RowStep(routing, ready, t, u)
    ensures t.status != u.status ==>
              (Warned(t.status, u.status) <==> (t.status == Claimed && u.status == Parked) || (t.status == Open && u.status == Failed))
    ensures !(t.status == Parked && u.status == Open)
  {
  }

  lemma InsertKeepsInv(routing: Routing, db: Db, id: TicketId, n: NewTicket, parents: set<TicketId>, now: Time)
    requires Inv(routing, db) && InsertGuard(routing, db, id, n, parents)
    ensures Inv(routing, Do(routing, db, Insert(id, n, parents, now)))
  {
    var db' := Do(routing, db, Insert(id, n, parents, now));
    var row := NewRow(routing, n, |db.tickets|, now);
    assert RowOk(routing, row);
    AddSourceAcyclic(db.deps, id, parents);
    assert |db'.tickets| == |db.tickets| + 1;
    forall e | e in db'.deps
      ensures e.0 in db'.tickets && e.1 in db'.tickets
      ensures NoDowngrade(routing, db'.tickets[e.0].privacyClass, db'.tickets[e.1].privacyClass)
      ensures InFlight(db'.tickets[e.0].status) ==> db'.tickets[e.1].status == Done
    {
      if e in db.deps {
        assert e.0 != id && e.1 != id;
      } else {
        assert e.0 == id && e.1 in parents;
      }
    }
    assert EdgesOk(routing, db');
    InsertKeepsKeys(routing, db, id, n, parents, now);
  }

  lemma InsertKeepsKeys(routing: Routing, db: Db, id: TicketId, n: NewTicket, parents: set<TicketId>, now: Time)
    requires KeysUnique(db) && InsertGuard(routing, db, id, n, parents)
    ensures KeysUnique(Do(routing, db, Insert(id, n, parents, now)))
  {
    var row := NewRow(routing, n, |db.tickets|, now);
    assert Do(routing, db, Insert(id, n, parents, now)).tickets == db.tickets[id := row];
    assert |db.tickets[id := row]| == |db.tickets| + 1;
    NewRowKeepsKeys(db, db.(tickets := db.tickets[id := row]), id);
  }

  lemma NewRowKeepsKeys(db: Db, db': Db, id: TicketId)
    requires KeysUnique(db) && id !in db.tickets && id in db'.tickets && db'.tickets == db.tickets[id := db'.tickets[id]]
    requires |db'.tickets| == |db.tickets| + 1 && db'.tickets[id].rowid == |db.tickets|
    requires db'.tickets[id].dedupKey.Some? ==> forall k :: k in db.tickets ==> db.tickets[k].dedupKey != db'.tickets[id].dedupKey
    ensures KeysUnique(db')
  {
  }

  lemma LinkKeepsInv(routing: Routing, db: Db, child: TicketId, parent: TicketId)
    requires Inv(routing, db)
    requires LinkChecks(routing, db, child, parent) && LinkGuard(db, child, parent)
    ensures Inv(routing, Do(routing, db, Link(child, parent)))
  {
    AddEdgeAcyclic(db.deps, child, parent);
  }

  /** The base invariant is kept by every commit. */
  lemma CommitKeepsInv(routing: Routing, db: Db, c: Commit)
    requires Inv(routing, db)
    ensures Inv(routing, Do(routing, db, c))
  {
    if Enabled(routing, db, c) {
      if RowOf(c).Some? {
        CommitIsRowStep(routing, db, c);
        OneRowKeepsInv(routing, db, Do(routing, db, c), RowOf(c).value, Do(routing, db, c).tickets[RowOf(c).value]);
      } else if c.Insert? {
        InsertKeepsInv(routing, db, c.id, c.spec, c.parents, c.now);
      } else if c.Link? {
        LinkKeepsInv(routing, db, c.child, c.parent);
      } else {
        OtherCommitKeepsInv(routing, db, c);
      }
    }
  }

  lemma OtherCommitKeepsInv(routing: Routing, db: Db, c: Commit)
    requires Inv(routing, db)
    requires RowOf(c).None? && !c.Insert? && !c.Link?
    ensures Inv(routing, Do(routing, db, c))
  {
    TaskCommitLeavesQueue(routing, db, c);
    UntouchedKeepsInv(routing, db, Do(routing, db, c));
  }

  lemma TaskCommitLeavesQueue(routing: Routing, db: Db, c: Commit)
    requires RowOf(c).None? && !c.Insert? && !c.Link?
    ensures Do(routing, db, c).tickets == db.tickets && Do(routing, db, c).deps == db.deps
  {
  }

  lemma UntouchedKeepsInv(routing: Routing, db: Db, db': Db)
    requires Inv(routing, db) && db'.tickets == db.tickets && db'.deps == db.deps
    ensures Inv(routing, db')
  {
  }

  /** From any store with the base invariant, after any history of commits, cut off anywhere
      by a crash, the base invariant holds. */
  lemma {:induction false} AnyHistoryFromKeepsInv(routing: Routing, start: Db, history: seq<Commit>)
    requires Inv(routing, start)
    ensures Inv(routing, AfterFrom(routing, start, history))
  {
    if history != [] {
      AnyHistoryFromKeepsInv(routing, start, history[..|history| - 1]);
      CommitKeepsInv(routing, AfterFrom(routing, start, history[..|history| - 1]), history[|history| - 1]);
    }
  }

  lemma AnyHistoryKeepsInv(routing: Routing, history: seq<Commit>)
    ensures Inv(routing, After(routing, history))
  {
    assert Inv(routing, EMPTY_DB);
    AnyHistoryFromKeepsInv(routing, EMPTY_DB, history);
  }

  /** The n-th commit of a history, and the invariant before it. */
  lemma HistoryStep(routing: Routing, history: seq<Commit>, n: nat)
    requires n < |history|
    ensures After(routing, history[..n + 1]) == Do(routing, After(routing, history[..n]), history[n])
    ensures Inv(routing, After(routing, history[..n]))
  {
    assert history[..n + 1] == history[..n] + [history[n]];
    AfterSnoc(routing, history[..n], history[n]);
    AnyHistoryKeepsInv(routing, history[..n]);
  }

  // -------------------------------------------------- consequences in a state

  /** Along a dependency path the classes only get less restricted towards the ancestor. */
  lemma {:induction false} PathNoDowngrade(routing: Routing, db: Db, path: seq<TicketId>, x: TicketId, y: TicketId)
    requires EdgesOk(routing, db) && IsPath(db.deps, path, x, y) && x in db.tickets
    ensures y in db.tickets
    ensures NoDowngrade(routing, db.tickets[x].privacyClass, db.tickets[y].privacyClass)
    decreases |path|
  {
    if |path| > 1 {
      assert (path[0], path[0 + 1]) in db.deps;
      assert IsPath(db.deps, path[1..], path[1], y);
      PathNoDowngrade(routing, db, path[1..], path[1], y);
    }
  }

  /** No laundering: the tier that holds or held a ticket under lease is admitted for the
      class of that ticket and of every ticket it transitively depends on, whatever the
      cached tier column says. */
  lemma NoLaundering(routing: Routing, db: Db, id: TicketId, ancestor: TicketId)
    requires Inv(routing, db)
    requires id in db.tickets && (InFlight(db.tickets[id].status) || db.tickets[id].status == Done)
    requires Reach(db.deps, id, ancestor)
    ensures ancestor in db.tickets && db.tickets[id].lease.Some?
    ensures Admits(routing, Some(db.tickets[id].lease.value.tier), db.tickets[ancestor].privacyClass)
  {
    var path :| IsPath(db.deps, path, id, ancestor);
    PathNoDowngrade(routing, db, path, id, ancestor);
    assert RowOk(routing, db.tickets[id]);
  }

  /** Cascade safety: a dependent of a dead ticket is never in flight, so failing it
      never takes a live lease or a result under review away from anyone. */
  lemma CascadeNeverHitsLease(routing: Routing, db: Db, child: TicketId, cause: TicketId)
    requires Inv(routing, db)
    requires Enabled(routing, db, CascadeTo(child, cause))
    ensures db.tickets[child].status == Open || db.tickets[child].status == Parked
    ensures db.tickets[child].lease == None
  {
    assert RowOk(routing, db.tickets[child]);
  }

  // --------------------------------------- what is not kept, and when it is

  /** The parents of done tickets are done too. */
  ghost predicate DoneOverDone(db: Db) {
    forall e :: e in db.deps && e.0 in db.tickets && db.tickets[e.0].status == Done ==>
      e.1 in db.tickets && db.tickets[e.1].status == Done
  }

  /** A link that `link` lets through: from a child that is done to a parent that is not. */
  ghost predicate LinksDoneOverUndone(routing: Routing, db: Db, c: Commit) {
    && c.Link? && Enabled(routing, db, c)
    && db.tickets[c.child].status == Done && db.tickets[c.parent].status != Done
  }

  /** What holds of tickets in flight does not extend to done ones, for one reason only:
      a commit takes a done ticket without an unfinished parent to one with such a parent
      exactly when it is a link from a done child to an unfinished parent. */
  lemma LinkBreaksDoneOverDoneIff(routing: Routing, db: Db, c: Commit)
    requires Inv(routing, db) && DoneOverDone(db)
    ensures DoneOverDone(Do(routing, db, c)) <==> !LinksDoneOverUndone(routing, db, c)
  {
    var db' := Do(routing, db, c);
    if LinksDoneOverUndone(routing, db, c) {
      assert (c.child, c.parent) in db'.deps;
    } else if Enabled(routing, db, c) && RowOf(c).Some? {
      CommitIsRowStep(routing, db, c);
      OneRowKeepsDoneOverDone(routing, db, db', RowOf(c).value, db'.tickets[RowOf(c).value]);
    } else if c.Insert? && Enabled(routing, db, c) {
      InsertKeepsDoneOverDone(routing, db, c);
    } else if c.Link? && Enabled(routing, db, c) {
      LinkKeepsDoneOverDone(db, c.child, c.parent);
      assert db' == db.(deps := db.deps + {(c.child, c.parent)});
    } else if Enabled(routing, db, c) {
      TaskCommitLeavesQueue(routing, db, c);
    }
  }

  lemma OneRowKeepsDoneOverDone(routing: Routing, db: Db, db': Db, id: TicketId, u: Ticket)
    requires ParentsDone(db) && DoneOverDone(db) && OneRow(db, db', id, u)
    requires RowStep(routing, DepsDone(db, id), db.tickets[id], u)
    ensures DoneOverDone(db')
  {
  }

  lemma LinkKeepsDoneOverDone(db: Db, child: TicketId, parent: TicketId)
    requires DoneOverDone(db) && child in db.tickets && parent in db.tickets
    requires db.tickets[child].status == Done ==> db.tickets[parent].status == Done
    ensures DoneOverDone(db.(deps := db.deps + {(child, parent)}))
  {
  }

  lemma InsertKeepsDoneOverDone(routing: Routing, db: Db, c: Commit)
    requires EdgesOk(routing, db) && DoneOverDone(db) && c.Insert? && Enabled(routing, db, c)
    ensures DoneOverDone(Do(routing, db, c))
  {
  }

  /** At every point of the history the parents of done tickets were done. */
  ghost predicate AlwaysDoneOverDone(routing: Routing, history: seq<Commit>) {
    DoneOverDone(After(routing, history)) && (history == [] || AlwaysDoneOverDone(routing, history[..|history| - 1]))
  }

  /** No commit of the history linked a done child to an unfinished parent. */
  ghost predicate NeverLinksDoneOverUndone(routing: Routing, history: seq<Commit>) {
    history == [] ||
    (&& NeverLinksDoneOverUndone(routing, history[..|history| - 1])
     && !LinksDoneOverUndone(routing, After(routing, history[..|history| - 1]), history[|history| - 1]))
  }

  /** Over whole histories: the one thing held throughout if and only if the other did. */
  lemma {:induction false} DoneOverDoneIff(routing: Routing, history: seq<Commit>)
    ensures AlwaysDoneOverDone(routing, history) <==> NeverLinksDoneOverUndone(routing, history)
  {
    if history != [] {
      var front, c := history[..|history| - 1], history[|history| - 1];
      DoneOverDoneIff(routing, front);
      if AlwaysDoneOverDone(routing, front) {
        AnyHistoryKeepsInv(routing, front);
        LinkBreaksDoneOverDoneIff(routing, After(routing, front), c);
      }
    }
  }
}
