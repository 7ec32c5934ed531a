/** The queue's tables as a value, and every guarded statement that writes them as a
    function from store to store. A statement whose guard fails changes nothing. */
module TicketStore {
  import opened Options
  import opened Privacy
  import opened TaskStates
  import opened DependencyGraph
  import opened Transitions

  type TicketId = Node
  type TaskId = nat
  type Token = nat
  type Identity = string
  type Time = real

  datatype Status = Open | Claimed | InReview | Parked | Done | Failed | Cancelled

  datatype ParkReason = SecretNotPullable | RedactionRequired | AttemptsExhausted | DependencyFailed | TaskCancelled

  datatype ResultStatus = PendingReview | ApprovedResult | RejectedResult | FailedResult | LostDependency | CancelledResult

  /** The four lease columns, which are always set and cleared together. */
  datatype Lease = Lease(holder: Identity, tier: Tier, token: Token, expires: Time)

  datatype Ticket = Ticket(
    rowid: nat,
    dedupKey: Option<string>,
    taskId: Option<TaskId>,
    privacyClass: PrivacyClass,
    cachedTiers: seq<Tier>,
    capabilities: set<string>,
    priority: string,
    payloadRef: Option<nat>,
    createdAt: Time,
    maxAttempts: int,
    status: Status,
    lease: Option<Lease>,
    attempts: nat,
    resultStatus: Option<ResultStatus>,
    parkReason: Option<ParkReason>)

  /** What the caller of `add` supplies. */
  datatype NewTicket = NewTicket(
    dedupKey: Option<string>,
    taskId: Option<TaskId>,
    privacyClass: PrivacyClass,
    capabilities: set<string>,
    priority: string,
    payloadRef: Option<nat>,
    maxAttempts: int,
    cloudSafe: bool)

  /** One ticket_status line of the log table. */
  datatype AuditRow = AuditRow(ticket: TicketId, src: Status, dst: Status)

  datatype Db = Db(
    tickets: map<TicketId, Ticket>,
    deps: Edges,
    tasks: map<TaskId, TaskState>,
    audit: seq<AuditRow>,
    taskLog: seq<(TaskId, Record<TaskState>)>)

  const EMPTY_DB: Db := Db(map[], {}, map[], [], [])

  predicate Terminal(s: Status) {
    s == Done || s == Failed || s == Cancelled
  }

  /** The ticket is in a worker's hands or awaits review of its result. */
  predicate InFlight(s: Status) {
    s == Claimed || s == InReview
  }

  /** The ticket can never become done: what a cascade and the reaper start from. */
  predicate Dead(t: Ticket) {
    || t.status == Failed
    || t.status == Cancelled
    || (t.status == Parked && t.parkReason == Some(AttemptsExhausted))
  }

  /** Every dependency names an existing ticket that is done: the claim gate. */
  predicate DepsDone(db: Db, id: TicketId) {
    forall e :: e in db.deps && e.0 == id ==> e.1 in db.tickets && db.tickets[e.1].status == Done
  }

  predicate LinkedTaskCancelled(db: Db, t: Ticket) {
    t.taskId.Some? && t.taskId.value in db.tasks && db.tasks[t.taskId.value] == CANCELLED
  }

  /** The number of claims a ticket may ever see: the source never checks that
      max_attempts is positive, and a first claim is always possible. */
  function Budget(t: Ticket): nat {
    if t.maxAttempts < 1 then 1 else t.maxAttempts
  }

  // ---------------------------------------------------------- rows written

  /** An UPDATE of one row together with its audit row, in one commit. */
  function SetRow(db: Db, id: TicketId, src: Status, row: Ticket): Db {
    db.(tickets := db.tickets[id := row], audit := db.audit + [AuditRow(id, src, row.status)])
  }

  function NewRow(routing: Routing, n: NewTicket, rowid: nat, now: Time): Ticket {
    var tiers := AllowedTiers(routing, n.privacyClass);
    var park :=
      if tiers == [] then Some(SecretNotPullable)
      else if n.privacyClass in routing.requireRedaction && !n.cloudSafe then Some(RedactionRequired)
      else None;
    Ticket(rowid, n.dedupKey, n.taskId, n.privacyClass, tiers, n.capabilities, n.priority, n.payloadRef, now,
           n.maxAttempts, if park.Some? then Parked else Open, None, 0, None, park)
  }

  function ClaimedRow(t: Ticket, lease: Lease): Ticket {
    t.(status := Claimed, lease := Some(lease), attempts := t.attempts + 1)
  }

  function ReportedRow(t: Ticket, completed: bool, target: Status): Ticket {
    var u := t.(status := target,
                resultStatus := Some(if !completed then FailedResult else if target == Done then ApprovedResult else PendingReview));
    if completed then u else u.(lease := None)
  }

  function RejectedRow(t: Ticket, requeue: bool): Ticket {
    t.(status := if requeue then Open else Failed, resultStatus := Some(RejectedResult), lease := None)
  }

  function CancelledRow(t: Ticket): Ticket {
    t.(status := Cancelled, resultStatus := Some(CancelledResult), parkReason := Some(TaskCancelled), lease := None)
  }

  function CascadedRow(t: Ticket): Ticket {
    t.(status := Failed, resultStatus := Some(LostDependency), parkReason := Some(DependencyFailed), lease := None)
  }

  function ReapedRow(t: Ticket): Ticket {
    if t.attempts < t.maxAttempts then t.(status := Open, lease := None)
    else t.(status := Parked, parkReason := Some(AttemptsExhausted), lease := None)
  }

  /** Where a report sends its ticket: failures requeue while attempts remain, and a
      success is truth only when lease tier and reporting tier are both trusted. */
  function ReportTarget(completed: bool, reporter: Option<Tier>, leaseTier: Tier, attempts: nat, maxAttempts: int): Status {
    if !completed then (if attempts < maxAttempts then Open else Failed)
    else if reporter == Some(LOCAL_ONLY) && leaseTier == LOCAL_ONLY then Done
    else InReview
  }

  // --------------------------------------------------------- guards (WHERE)

  predicate InsertGuard(routing: Routing, db: Db, id: TicketId, n: NewTicket, parents: set<TicketId>) {
    && id !in db.tickets
    && (n.dedupKey.Some? ==> forall k :: k in db.tickets ==> db.tickets[k].dedupKey != n.dedupKey)
    && forall p :: p in parents ==> p in db.tickets && NoDowngrade(routing, n.privacyClass, db.tickets[p].privacyClass)
  }

  predicate ClaimGuard(routing: Routing, db: Db, id: TicketId, tier: Option<Tier>) {
    && id in db.tickets
    && db.tickets[id].status == Open
    && Admits(routing, tier, db.tickets[id].privacyClass)
    && DepsDone(db, id)
    && !LinkedTaskCancelled(db, db.tickets[id])
  }

  /** The fence: a live, unexpired lease held by this identity under this token. */
  predicate LeaseGuard(db: Db, id: TicketId, identity: Identity, token: Token, now: Time) {
    && id in db.tickets
    && db.tickets[id].status == Claimed
    && db.tickets[id].lease.Some?
    && db.tickets[id].lease.value.holder == identity
    && db.tickets[id].lease.value.token == token
    && db.tickets[id].lease.value.expires > now
  }

  predicate LinkChecks(routing: Routing, db: Db, child: TicketId, parent: TicketId) {
    && child in db.tickets && parent in db.tickets && child != parent
    && !InFlight(db.tickets[child].status)
    && NoDowngrade(routing, db.tickets[child].privacyClass, db.tickets[parent].privacyClass)
  }

  /** The guard folded into the INSERT: no path back, and the child not in flight. */
  ghost predicate LinkGuard(db: Db, child: TicketId, parent: TicketId) {
    && child in db.tickets && !InFlight(db.tickets[child].status)
    && !Reach(db.deps, parent, child)
  }

  predicate ReapGuard(db: Db, id: TicketId, now: Time) {
    && id in db.tickets
    && db.tickets[id].status == Claimed
    && db.tickets[id].lease.Some?
    && db.tickets[id].lease.value.expires < now
  }

  predicate LiveRow(db: Db, id: TicketId) {
    id in db.tickets && !Terminal(db.tickets[id].status)
  }

  // -------------------------------------------------------- whole commits

  function TaskRow(db: Db, task: TaskId): Option<TaskState> {
    if task in db.tasks then Some(db.tasks[task]) else None
  }

  /** One call of the transition authority on the task table, with nobody in between. */
  function Authority(db: Db, task: TaskId, verb: Verb<TaskState>): Db {
    match Decide(TASK_VOCAB, verb, TaskRow(db, task))
    case Hold(None) => db
    case Hold(Some(r)) => db.(taskLog := db.taskLog + [(task, r)])
    case Illegal => db
    case Write(dst) =>
      db.(tasks := db.tasks[task := dst], taskLog := db.taskLog + [(task, Record(db.tasks[task], dst, Applied))])
  }

  function Mirror(db: Db, task: TaskId, dst: TaskState): Db {
    Authority(db, task, Converge(dst, MIRROR_EDGES))
  }

  /** The commits of the queue and of the engines it shares the task table with. Each is
      one guarded write and its audit row; a crash may fall between any two of them. */
  datatype Commit =
    | Insert(id: TicketId, spec: NewTicket, parents: set<TicketId>, now: Time)
    | Claim(id: TicketId, identity: Identity, tier: Option<Tier>, token: Token, expires: Time)
    | Renew(id: TicketId, identity: Identity, token: Token, now: Time, expires: Time)
    | Report(id: TicketId, identity: Identity, tier: Option<Tier>, token: Token, completed: bool, now: Time)
    | Approve(id: TicketId, reviewer: Option<Tier>)
    | Reject(id: TicketId, reviewer: Option<Tier>)
    | Link(child: TicketId, parent: TicketId)
    | CancelTicket(id: TicketId, task: TaskId)
    | Reap(id: TicketId, now: Time)
    | CascadeTo(child: TicketId, cause: TicketId)
    | MirrorTask(task: TaskId, dst: TaskState)
    | CreateTask(task: TaskId)
    | TaskVerb(task: TaskId, verb: Verb<TaskState>)

  /** Whether the commit's guard holds, so that it writes. */
  ghost predicate Enabled(routing: Routing, db: Db, c: Commit) {
    match c
    case Insert(id, n, parents, _) => InsertGuard(routing, db, id, n, parents)
    case Claim(id, _, tier, _, _) => ClaimGuard(routing, db, id, tier)
    case Renew(id, identity, token, now, expires) => LeaseGuard(db, id, identity, token, now) && expires > now
    case Report(id, identity, _, token, _, now) => LeaseGuard(db, id, identity, token, now)
    case Approve(id, reviewer) => reviewer == Some(LOCAL_ONLY) && id in db.tickets && db.tickets[id].status == InReview
    case Reject(id, reviewer) => reviewer == Some(LOCAL_ONLY) && id in db.tickets && db.tickets[id].status == InReview
    case Link(child, parent) => LinkChecks(routing, db, child, parent) && LinkGuard(db, child, parent)
    case CancelTicket(id, task) => LiveRow(db, id) && db.tickets[id].taskId == Some(task)
    case Reap(id, now) => ReapGuard(db, id, now)
    case CascadeTo(child, cause) => (child, cause) in db.deps && LiveRow(db, child) && cause in db.tickets && Dead(db.tickets[cause])
    case MirrorTask(_, dst) => dst in {COMPLETE, FAILED, REVIEW_READY}
    case CreateTask(task) => task !in db.tasks
    case TaskVerb(_, _) => true
  }

  /** The store after the commit. */
  ghost function Do(routing: Routing, db: Db, c: Commit): Db {
    if !Enabled(routing, db, c) then db else
      match c
      case Insert(id, n, parents, now) =>
        db.(tickets := db.tickets[id := NewRow(routing, n, |db.tickets|, now)],
            deps := db.deps + set p | p in parents :: (id, p))
      case Claim(id, identity, tier, token, expires) =>
        SetRow(db, id, Open, ClaimedRow(db.tickets[id], Lease(identity, tier.value, token, expires)))
      case Renew(id, identity, token, now, expires) =>
        var t := db.tickets[id];
        db.(tickets := db.tickets[id := t.(lease := Some(t.lease.value.(expires := expires)))])
      case Report(id, identity, tier, token, completed, now) =>
        var t := db.tickets[id];
        SetRow(db, id, Claimed,
               ReportedRow(t, completed, ReportTarget(completed, tier, t.lease.value.tier, t.attempts, t.maxAttempts)))
      case Approve(id, _) =>
        SetRow(db, id, InReview, db.tickets[id].(status := Done, resultStatus := Some(ApprovedResult)))
      case Reject(id, _) =>
        SetRow(db, id, InReview, RejectedRow(db.tickets[id], db.tickets[id].attempts < db.tickets[id].maxAttempts))
      case Link(child, parent) => db.(deps := db.deps + {(child, parent)})
      case CancelTicket(id, _) => SetRow(db, id, db.tickets[id].status, CancelledRow(db.tickets[id]))
      case Reap(id, _) => SetRow(db, id, Claimed, ReapedRow(db.tickets[id]))
      case CascadeTo(child, _) => SetRow(db, child, db.tickets[child].status, CascadedRow(db.tickets[child]))
      case MirrorTask(task, dst) => Mirror(db, task, dst)
      case CreateTask(task) => db.(tasks := db.tasks[task := CREATED])
      case TaskVerb(task, verb) => Authority(db, task, verb)
  }

  /** The store after a history of commits, from a given store. */
  ghost function AfterFrom(routing: Routing, start: Db, history: seq<Commit>): Db {
    if history == [] then start
    else Do(routing, AfterFrom(routing, start, history[..|history| - 1]), history[|history| - 1])
  }

  /** From the empty store. */
  ghost function After(routing: Routing, history: seq<Commit>): Db {
    AfterFrom(routing, EMPTY_DB, history)
  }

  lemma AfterFromSnoc(routing: Routing, start: Db, history: seq<Commit>, c: Commit)
    ensures AfterFrom(routing, start, history + [c]) == Do(routing, AfterFrom(routing, start, history), c)
  {
    assert (history + [c])[..|history|] == history;
  }

  lemma AfterSnoc(routing: Routing, history: seq<Commit>, c: Commit)
    ensures After(routing, history + [c]) == Do(routing, After(routing, history), c)
  {
    AfterFromSnoc(routing, EMPTY_DB, history, c);
  }

  /** Outside the queue's own retries the authority behaves as one undisturbed call. */
  lemma AuthorityIsUndisturbed(db: Db, task: TaskId, verb: Verb<TaskState>)
    ensures var row := TaskRow(db, task);
            var call := Drive(TASK_VOCAB, verb, row, [row, row, row], row);
            && TaskRow(Authority(db, task, verb), task) == call.row
            && Authority(db, task, verb).taskLog == db.taskLog + Tagged(task, call.records)
  {
    UndisturbedCall(TASK_VOCAB, verb, TaskRow(db, task));
    assert db.taskLog + [] == db.taskLog;
  }
}
