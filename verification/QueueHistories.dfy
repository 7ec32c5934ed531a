/** Facts about whole histories of commits: how often a ticket can be claimed, that
    every history of one ticket is finite, that the logs replay to the stored states,
    and that terminal and policy-parked tickets stay where they are. */
module QueueHistories {
  import opened Options
  import opened Privacy
  import opened TaskStates
  import opened Transitions
  import opened TicketStore
  import opened QueueInvariants

  // ------------------------------------------------------ audit of one step

  /** The audit did not grow and no status changed; or it grew by one row, which names the
      one change exactly. */
  ghost predicate AuditMatches(db: Db, db': Db) {
    if db'.audit == db.audit
    then forall k :: k in db.tickets ==> k in db'.tickets && db'.tickets[k].status == db.tickets[k].status
    else exists id :: id in db.tickets && id in db'.tickets
           && db'.audit == db.audit + [AuditRow(id, db.tickets[id].status, db'.tickets[id].status)]
           && db'.tickets[id].status != db.tickets[id].status
           && forall k :: k in db.tickets && k != id ==> k in db'.tickets && db'.tickets[k] == db.tickets[k]
  }

  /** No status write commits without its audit row, and no audit row without its
      status write. */
  lemma AuditIsExact(routing: Routing, db: Db, c: Commit)
    requires Inv(routing, db)
    ensures AuditMatches(db, Do(routing, db, c))
  {
    CommitEffect(routing, db, c);
    if Enabled(routing, db, c) && RowOf(c).Some? {
      RowWrittenIsExact(routing, db, Do(routing, db, c), RowOf(c).value);
    } else {
      QuietIsExact(db, Do(routing, db, c));
    }
  }

  lemma QuietIsExact(db: Db, db': Db)
    requires Quiet(db, db')
    ensures AuditMatches(db, db')
  {
  }

  lemma RowWrittenIsExact(routing: Routing, db: Db, db': Db, id: TicketId)
    requires RowWritten(routing, db, db', id)
    ensures AuditMatches(db, db')
  {
    assert forall k :: k in db.tickets && k != id ==> k in db'.tickets && db'.tickets[k] == db.tickets[k];
  }

  /** What a commit does to one ticket: nothing, or a step of the real step relation. */
  lemma TicketStep(routing: Routing, db: Db, c: Commit, id: TicketId)
    requires Inv(routing, db) && id in db.tickets
    ensures var db' := Do(routing, db, c);
            && id in db'.tickets
            && (db'.tickets[id] == db.tickets[id] ||
                (RowStep(routing, DepsDone(db, id), db.tickets[id], db'.tickets[id]) && Timely(db.tickets[id], db'.tickets[id])))
  {
    CommitEffect(routing, db, c);
  }

  // --------------------------------------------------- attempts and measure

  /** An open ticket has an attempt left; one that was claimed has used at least one
      and at most its budget. */
  predicate AttemptsOk(t: Ticket) {
    && t.attempts <= Budget(t)
    && (t.status == Open ==> t.attempts < Budget(t))
    && (InFlight(t.status) ==> 1 <= t.attempts)
  }

  /** Strictly decreases on every status change. */
  function Measure(t: Ticket): nat
    requires t.attempts <= Budget(t)
  {
    var left := 3 * (Budget(t) - t.attempts);
    match t.status
    case Open => left
    case Claimed => left + 2
    case InReview => left + 1
    case Parked => 1
    case _ => 0
  }

  /** A timely row step keeps the attempts within the budget and lowers the measure
      whenever it changes the status. */
  lemma StepKeepsAttempts(routing: Routing, ready: bool, t: Ticket, u: Ticket)
    requires RowStep(routing, ready, t, u) && Timely(t, u) && AttemptsOk(t)
    ensures AttemptsOk(u) && Budget(u) == Budget(t)
    ensures if u.status == t.status then Measure(u) == Measure(t) else Measure(u) < Measure(t)
    ensures u.attempts == t.attempts + if u.status == Claimed && t.status != Claimed then 1 else 0
  {
  }

  /** The audit rows of one ticket, oldest first. */
  function RowsOf(audit: seq<AuditRow>, id: TicketId): seq<AuditRow> {
    if audit == [] then []
    else RowsOf(audit[..|audit| - 1], id) + (if audit[|audit| - 1].ticket == id then [audit[|audit| - 1]] else [])
  }

  lemma RowsOfSnoc(audit: seq<AuditRow>, r: AuditRow, id: TicketId)
    ensures RowsOf(audit + [r], id) == RowsOf(audit, id) + (if r.ticket == id then [r] else [])
  {
    assert (audit + [r])[..|audit|] == audit;
  }

  /** How many of the rows record a claim. */
  function Claims(rows: seq<AuditRow>): nat {
    if rows == [] then 0
    else Claims(rows[..|rows| - 1]) + (if rows[|rows| - 1].dst == Claimed then 1 else 0)
  }

  lemma ClaimsSnoc(rows: seq<AuditRow>, r: AuditRow)
    ensures Claims(rows + [r]) == Claims(rows) + (if r.dst == Claimed then 1 else 0)
  {
    assert (rows + [r])[..|rows|] == rows;
  }

  lemma NoRowsBeforeInsert(audit: seq<AuditRow>, id: TicketId)
    requires forall r :: r in audit ==> r.ticket != id
    ensures RowsOf(audit, id) == []
  {
    if audit != [] {
      assert audit[|audit| - 1] in audit;
      NoRowsBeforeInsert(audit[..|audit| - 1], id);
    }
  }

  /** The ledger of one ticket balances: attempts counts its claims, and the changes it
      has made plus the changes it can still make stay within three per claim allowed. */
  predicate Balanced(db: Db, id: TicketId) {
    id in db.tickets ==>
      && AttemptsOk(db.tickets[id])
      && db.tickets[id].attempts == Claims(RowsOf(db.audit, id))
      && |RowsOf(db.audit, id)| + Measure(db.tickets[id]) <= 3 * Budget(db.tickets[id])
  }

  predicate AuditKnown(db: Db) {
    forall r :: r in db.audit ==> r.ticket in db.tickets
  }

  lemma WriteKeepsBalance(routing: Routing, db: Db, db': Db, written: TicketId, id: TicketId)
    requires RowWritten(routing, db, db', written) && Timely(db.tickets[written], db'.tickets[written])
    requires id in db.tickets && Balanced(db, id)
    ensures Balanced(db', id)
  {
    if db'.audit != db.audit {
      AuditGrows(db.audit, db'.audit[|db'.audit| - 1], id);
    }
    if written == id {
      StepKeepsAttempts(routing, DepsDone(db, id), db.tickets[id], db'.tickets[id]);
    }
  }

  lemma AuditGrows(audit: seq<AuditRow>, r: AuditRow, id: TicketId)
    ensures r.ticket != id ==> RowsOf(audit + [r], id) == RowsOf(audit, id)
    ensures r.ticket == id ==> |RowsOf(audit + [r], id)| == |RowsOf(audit, id)| + 1
    ensures r.ticket == id ==> Claims(RowsOf(audit + [r], id)) == Claims(RowsOf(audit, id)) + (if r.dst == Claimed then 1 else 0)
  {
    RowsOfSnoc(audit, r, id);
    ClaimsSnoc(RowsOf(audit, id), r);
    assert RowsOf(audit, id) + [] == RowsOf(audit, id);
  }

  lemma CommitKeepsBalance(routing: Routing, db: Db, c: Commit, id: TicketId)
    requires Inv(routing, db) && AuditKnown(db) && Balanced(db, id)
    ensures Balanced(Do(routing, db, c), id)
  {
    CommitEffect(routing, db, c);
    if id !in db.tickets {
      NewRowIsBalanced(routing, db, c, id);
    } else if Enabled(routing, db, c) && RowOf(c).Some? {
      WriteKeepsBalance(routing, db, Do(routing, db, c), RowOf(c).value, id);
    } else {
      QuietKeepsBalance(db, Do(routing, db, c), id);
    }
  }

  lemma QuietKeepsBalance(db: Db, db': Db, id: TicketId)
    requires Quiet(db, db') && id in db.tickets && Balanced(db, id)
    ensures Balanced(db', id)
  {
  }

  lemma NewRowIsBalanced(routing: Routing, db: Db, c: Commit, id: TicketId)
    requires AuditKnown(db) && id !in db.tickets
    ensures Balanced(Do(routing, db, c), id)
  {
    if id in Do(routing, db, c).tickets {
      NoRowsBeforeInsert(db.audit, id);
    }
  }

  lemma CommitKeepsKnown(routing: Routing, db: Db, c: Commit)
    requires Inv(routing, db) && AuditKnown(db)
    ensures AuditKnown(Do(routing, db, c))
  {
    CommitEffect(routing, db, c);
  }

  lemma {:induction false} AnyHistoryKnown(routing: Routing, history: seq<Commit>)
    ensures AuditKnown(After(routing, history))
  {
    if history != [] {
      var before := history[..|history| - 1];
      AnyHistoryKnown(routing, before);
      AnyHistoryKeepsInv(routing, before);
      CommitKeepsKnown(routing, After(routing, before), history[|history| - 1]);
    }
  }

  lemma {:induction false} AnyHistoryBalanced(routing: Routing, history: seq<Commit>, id: TicketId)
    ensures Balanced(After(routing, history), id)
  {
    if history != [] {
      var before := history[..|history| - 1];
      AnyHistoryBalanced(routing, before, id);
      AnyHistoryKnown(routing, before);
      AnyHistoryKeepsInv(routing, before);
      CommitKeepsBalance(routing, After(routing, before), history[|history| - 1], id);
    }
  }

  /** Whole-history bound: over any history a ticket is claimed at most
      max(1, max_attempts) times and changes status at most three times as often. */
  lemma BoundedLife(routing: Routing, history: seq<Commit>, id: TicketId)
    requires id in After(routing, history).tickets
    ensures var db := After(routing, history);
            var allowed := if db.tickets[id].maxAttempts < 1 then 1 else db.tickets[id].maxAttempts;
            && Claims(RowsOf(db.audit, id)) == db.tickets[id].attempts <= allowed
            && |RowsOf(db.audit, id)| <= 3 * allowed
            && (db.tickets[id].status == Open ==> db.tickets[id].attempts < allowed)
            && (InFlight(db.tickets[id].status) ==> 1 <= db.tickets[id].attempts)
  {
    AnyHistoryBalanced(routing, history, id);
  }

  // ----------------------------------------------------------- audit replay

  /** Replaying status changes from a start status. */
  function ReplayStatus(start: Status, rows: seq<AuditRow>): Option<Status> {
    if rows == [] then Some(start)
    else
      var last := rows[|rows| - 1];
      if ReplayStatus(start, rows[..|rows| - 1]) == Some(last.src) then Some(last.dst) else None
  }

  lemma ReplayStatusSnoc(start: Status, rows: seq<AuditRow>, r: AuditRow)
    ensures ReplayStatus(start, rows + [r]) == (if ReplayStatus(start, rows) == Some(r.src) then Some(r.dst) else None)
  {
    assert (rows + [r])[..|rows|] == rows;
  }

  ghost predicate Replays(db: Db, id: TicketId, start: Status) {
    id in db.tickets && ReplayStatus(start, RowsOf(db.audit, id)) == Some(db.tickets[id].status)
  }

  /** What a commit adds to the audit rows of one ticket: one for a change of its status. */
  lemma CommitAudit(routing: Routing, db: Db, c: Commit, id: TicketId)
    requires Inv(routing, db) && id in db.tickets
    ensures id in Do(routing, db, c).tickets
    ensures var src, dst := db.tickets[id].status, Do(routing, db, c).tickets[id].status;
            RowsOf(Do(routing, db, c).audit, id) == RowsOf(db.audit, id) + (if src == dst then [] else [AuditRow(id, src, dst)])
  {
    CommitEffect(routing, db, c);
    if Enabled(routing, db, c) && RowOf(c).Some? {
      WrittenAudit(routing, db, Do(routing, db, c), RowOf(c).value, id);
    }
  }

  lemma WrittenAudit(routing: Routing, db: Db, db': Db, written: TicketId, id: TicketId)
    requires RowWritten(routing, db, db', written) && id in db.tickets
    ensures id in db'.tickets
    ensures var src, dst := db.tickets[id].status, db'.tickets[id].status;
            RowsOf(db'.audit, id) == RowsOf(db.audit, id) + (if src == dst then [] else [AuditRow(id, src, dst)])
  {
    if db'.audit != db.audit {
      RowsOfSnoc(db.audit, AuditRow(written, db.tickets[written].status, db'.tickets[written].status), id);
    }
  }

  lemma CommitKeepsReplay(routing: Routing, db: Db, c: Commit, id: TicketId, start: Status)
    requires Inv(routing, db) && Replays(db, id, start)
    ensures Replays(Do(routing, db, c), id, start)
  {
    CommitAudit(routing, db, c, id);
    RowsReplay(start, RowsOf(db.audit, id), id, db.tickets[id].status, Do(routing, db, c).tickets[id].status);
  }

  lemma RowsReplay(start: Status, rows: seq<AuditRow>, id: TicketId, src: Status, dst: Status)
    requires ReplayStatus(start, rows) == Some(src)
    ensures ReplayStatus(start, rows + (if src == dst then [] else [AuditRow(id, src, dst)])) == Some(dst)
  {
    if src == dst {
      assert rows + [] == rows;
    } else {
      ReplayStatusSnoc(start, rows, AuditRow(id, src, dst));
    }
  }

  /** Audit replay: at every commit point after the insert of a ticket, its audit rows
      form a chain from the status it was inserted with to the status it has. */
  lemma AuditReplays(routing: Routing, history: seq<Commit>, k: nat, n: nat)
    requires k < n <= |history|
    requires history[k].Insert? && Enabled(routing, After(routing, history[..k]), history[k])
    ensures Replays(After(routing, history[..n]), history[k].id,
                    NewRow(routing, history[k].spec, |After(routing, history[..k]).tickets|, history[k].now).status)
  {
    HistoryStep(routing, history, k);
    AnyHistoryKnown(routing, history[..k]);
    InsertStartsReplay(routing, After(routing, history[..k]), history[k]);
    ReplaysOnwards(routing, history, k + 1, n, history[k].id,
                   NewRow(routing, history[k].spec, |After(routing, history[..k]).tickets|, history[k].now).status);
  }

  lemma {:induction false} ReplaysOnwards(routing: Routing, history: seq<Commit>, m: nat, n: nat, id: TicketId, start: Status)
    requires m <= n <= |history| && Replays(After(routing, history[..m]), id, start)
    ensures Replays(After(routing, history[..n]), id, start)
    decreases n
  {
    if m < n {
      ReplaysOnwards(routing, history, m, n - 1, id, start);
      ReplaysOn(routing, history, n - 1, id, start);
    }
  }

  lemma ReplaysOn(routing: Routing, history: seq<Commit>, n: nat, id: TicketId, start: Status)
    requires n < |history| && Replays(After(routing, history[..n]), id, start)
    ensures Replays(After(routing, history[..n + 1]), id, start)
  {
    HistoryStep(routing, history, n);
    CommitKeepsReplay(routing, After(routing, history[..n]), history[n], id, start);
  }

  lemma InsertStartsReplay(routing: Routing, db: Db, c: Commit)
    requires AuditKnown(db) && c.Insert? && Enabled(routing, db, c)
    ensures Replays(Do(routing, db, c), c.id, NewRow(routing, c.spec, |db.tickets|, c.now).status)
  {
    NoRowsBeforeInsert(db.audit, c.id);
  }

  // ------------------------------------------------------- task log replay

  /** The authority's records about one task, oldest first. */
  function RecordsOf(log: seq<(TaskId, Record<TaskState>)>, task: TaskId): seq<Record<TaskState>> {
    if log == [] then []
    else RecordsOf(log[..|log| - 1], task) + (if log[|log| - 1].0 == task then [log[|log| - 1].1] else [])
  }

  lemma RecordsOfSnoc(log: seq<(TaskId, Record<TaskState>)>, e: (TaskId, Record<TaskState>), task: TaskId)
    ensures RecordsOf(log + [e], task) == RecordsOf(log, task) + (if e.0 == task then [e.1] else [])
  {
    assert (log + [e])[..|log|] == log;
  }

  /** The applied records of a task lead from CREATED to its stored state; a task that
      does not exist has no records. */
  ghost predicate TaskReplays(db: Db, task: TaskId) {
    if task in db.tasks then Replay(Some(CREATED), Moves(RecordsOf(db.taskLog, task))) == Some(Some(db.tasks[task]))
    else RecordsOf(db.taskLog, task) == []
  }

  lemma LoggedKeepsReplay(db: Db, db': Db, target: TaskId, r: Record<TaskState>, task: TaskId)
    requires TaskReplays(db, task) && target in db.tasks
    requires db'.taskLog == db.taskLog + [(target, r)]
    requires db'.tasks == if r.outcome == Applied then db.tasks[target := r.dst] else db.tasks
    requires r.outcome == Applied ==> r.src == db.tasks[target]
    ensures TaskReplays(db', task)
  {
    RecordsOfSnoc(db.taskLog, (target, r), task);
    var before := RecordsOf(db.taskLog, task);
    assert before + [] == before;
    MovesAppend(before, r);
    assert Moves(before) + [] == Moves(before);
    ReplayAppend(Some(CREATED), Moves(before), (r.src, r.dst));
  }

  lemma AuthorityKeepsReplay(db: Db, target: TaskId, verb: Verb<TaskState>, task: TaskId)
    requires TaskReplays(db, task)
    ensures TaskReplays(Authority(db, target, verb), task)
  {
    match Decide(TASK_VOCAB, verb, TaskRow(db, target)) {
      case Hold(None) =>
      case Hold(Some(r)) => LoggedKeepsReplay(db, Authority(db, target, verb), target, r, task);
      case Illegal =>
      case Write(dst) => LoggedKeepsReplay(db, Authority(db, target, verb), target, Record(db.tasks[target], dst, Applied), task);
    }
  }

  lemma CommitKeepsTaskReplay(routing: Routing, db: Db, c: Commit, task: TaskId)
    requires TaskReplays(db, task)
    ensures TaskReplays(Do(routing, db, c), task)
  {
    if Enabled(routing, db, c) {
      match c {
        case MirrorTask(target, dst) => AuthorityKeepsReplay(db, target, Converge(dst, MIRROR_EDGES), task);
        case TaskVerb(target, verb) => AuthorityKeepsReplay(db, target, verb, task);
        case CreateTask(target) =>
        case _ =>
          assert Do(routing, db, c).taskLog == db.taskLog && Do(routing, db, c).tasks == db.tasks;
      }
    }
  }

  /** Task audit replay: after any history the applied records of every task lead from
      its creation to its stored state. */
  lemma {:induction false} TaskAuditReplays(routing: Routing, history: seq<Commit>, task: TaskId)
    ensures TaskReplays(After(routing, history), task)
  {
    if history != [] {
      TaskAuditReplays(routing, history[..|history| - 1], task);
      CommitKeepsTaskReplay(routing, After(routing, history[..|history| - 1]), history[|history| - 1], task);
    }
  }

  // --------------------------------------------------------------- finality

  /** Where a ticket may be later, given where it is now. */
  predicate StaysIn(now: Status, later: Status) {
    && (Terminal(now) ==> later == now)
    && (now == Parked ==> later == Parked || later == Failed || later == Cancelled)
  }

  /** A terminal ticket keeps its status for ever; a parked ticket is never served: it
      stays parked or ends failed or cancelled, whatever is committed. Since dead
      tickets are terminal or parked, dead is for ever too. */
  lemma {:induction false} ParkedAndTerminalAreFinal(routing: Routing, history: seq<Commit>, i: nat, n: nat, id: TicketId)
    requires i <= n <= |history|
    requires id in After(routing, history[..i]).tickets
    ensures id in After(routing, history[..n]).tickets
    ensures StaysIn(After(routing, history[..i]).tickets[id].status, After(routing, history[..n]).tickets[id].status)
    ensures Dead(After(routing, history[..i]).tickets[id]) ==> Dead(After(routing, history[..n]).tickets[id])
  {
    if i < n {
      ParkedAndTerminalAreFinal(routing, history, i, n - 1, id);
      StaysOn(routing, history, n - 1, id, After(routing, history[..i]).tickets[id]);
    }
  }

  lemma StaysOn(routing: Routing, history: seq<Commit>, n: nat, id: TicketId, t: Ticket)
    requires n < |history| && id in After(routing, history[..n]).tickets
    requires StaysIn(t.status, After(routing, history[..n]).tickets[id].status)
    requires Dead(t) ==> Dead(After(routing, history[..n]).tickets[id])
    ensures id in After(routing, history[..n + 1]).tickets
    ensures StaysIn(t.status, After(routing, history[..n + 1]).tickets[id].status)
    ensures Dead(t) ==> Dead(After(routing, history[..n + 1]).tickets[id])
  {
    HistoryStep(routing, history, n);
    StepStaysIn(routing, After(routing, history[..n]), history[n], id);
  }

  lemma StepStaysIn(routing: Routing, db: Db, c: Commit, id: TicketId)
    requires Inv(routing, db) && id in db.tickets
    ensures id in Do(routing, db, c).tickets
    ensures StaysIn(db.tickets[id].status, Do(routing, db, c).tickets[id].status)
    ensures Dead(db.tickets[id]) ==> Dead(Do(routing, db, c).tickets[id])
  {
    TicketStep(routing, db, c, id);
  }

  /** A ticket added un-redacted in a class that requires redaction never gets to a worker:
      ever after it is parked, failed or cancelled, and under no lease. */
  lemma UnredactedIsNeverHeld(routing: Routing, history: seq<Commit>, i: nat, n: nat, id: TicketId, spec: NewTicket,
                              parents: set<TicketId>, now: Time)
    requires i < n <= |history| && history[i] == Insert(id, spec, parents, now)
    requires id !in After(routing, history[..i]).tickets && id in After(routing, history[..i + 1]).tickets
    requires spec.privacyClass in routing.requireRedaction && !spec.cloudSafe
    ensures id in After(routing, history[..n]).tickets
    ensures After(routing, history[..n]).tickets[id].status in {Parked, Failed, Cancelled}
    ensures After(routing, history[..n]).tickets[id].lease == None
  {
    HistoryStep(routing, history, i);
    ParkedAndTerminalAreFinal(routing, history, i + 1, n, id);
    AnyHistoryKeepsInv(routing, history[..n]);
    assert RowOk(routing, After(routing, history[..n]).tickets[id]);
  }

  /** A terminal task state is overwritten by no commit of any engine. */
  lemma TerminalTaskIsFinal(routing: Routing, db: Db, c: Commit, task: TaskId)
    requires task in db.tasks && db.tasks[task] in TERMINAL_STATES
    ensures task in Do(routing, db, c).tasks && Do(routing, db, c).tasks[task] == db.tasks[task]
  {
    if Enabled(routing, db, c) && (c.MirrorTask? || c.TaskVerb?) {
      var verb := if c.TaskVerb? then c.verb else Converge(c.dst, MIRROR_EDGES);
      if Decide(TASK_VOCAB, verb, TaskRow(db, c.task)).Write? {
        DecideWrites(TASK_VOCAB, verb, TaskRow(db, c.task), Decide(TASK_VOCAB, verb, TaskRow(db, c.task)).dst);
      }
    }
  }
}
