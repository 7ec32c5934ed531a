/** The queue as several broker processes run it at once. An operation whose statement
    re-checks everything it needs is one step; every other operation is split into its
    read and its guarded write, with any steps of other processes in between. */
module SplitSteps {
  import opened Options
  import opened Privacy
  import opened TicketStore
  import opened QueueInvariants

  type Process = nat

  /** What a process carries from its read to its write. */
  datatype Pending =
    | Adding(id: TicketId, spec: NewTicket, parents: set<TicketId>, now: Time)
    | Reporting(id: TicketId, identity: Identity, tier: Option<Tier>, token: Token, completed: bool, now: Time,
                leaseTier: Tier, attempts: nat, maxAttempts: int)
    | Rejecting(id: TicketId, attempts: nat, maxAttempts: int)
    | Linking(child: TicketId, parent: TicketId)
    | Cancelling(task: TaskId, todo: map<TicketId, Status>, written: set<TicketId>)
    | Cascading(stack: set<TicketId>, next: Option<Hit>)

  /** A dependent a cascade is about to fail, with the status it was read with. */
  datatype Hit = Hit(child: TicketId, cause: TicketId, status: Status)

  datatype World = World(db: Db, pending: map<Process, Pending>, minted: set<Token>)

  const START: World := World(EMPTY_DB, map[], {})

  datatype Step =
    | Direct(c: Commit)
    | PayloadRead(id: TicketId, identity: Identity, token: Token, now: Time)
    | AddRead(p: Process, id: TicketId, spec: NewTicket, parents: set<TicketId>, now: Time)
    | AddWrite(p: Process)
    | ReportRead(p: Process, id: TicketId, identity: Identity, tier: Option<Tier>, token: Token, completed: bool, now: Time)
    | ReportWrite(p: Process)
    | RejectRead(p: Process, id: TicketId, reviewer: Option<Tier>)
    | RejectWrite(p: Process)
    | LinkRead(p: Process, child: TicketId, parent: TicketId)
    | LinkWrite(p: Process)
    | CancelRead(p: Process, task: TaskId)
    | CancelWrite(p: Process, id: TicketId)
    | CancelDone(p: Process)
    | CascadeStart(p: Process, root: TicketId)
    | CascadeRead(p: Process, child: TicketId, cause: TicketId)
    | CascadeWrite(p: Process)
    | Crash(p: Process)

  /** The commits whose one statement re-checks all they rely on. */
  predicate SelfGuarded(c: Commit) {
    c.Claim? || c.Renew? || c.Approve? || c.Reap? || c.MirrorTask? || c.CreateTask? || c.TaskVerb?
  }

  predicate AddChecks(routing: Routing, db: Db, n: NewTicket, parents: set<TicketId>) {
    forall p :: p in parents ==> p in db.tickets && NoDowngrade(routing, n.privacyClass, db.tickets[p].privacyClass)
  }

  /** What the unique indexes check when the row is inserted. */
  predicate KeysFree(db: Db, id: TicketId, n: NewTicket) {
    && id !in db.tickets
    && (n.dedupKey.Some? ==> forall k :: k in db.tickets ==> db.tickets[k].dedupKey != n.dedupKey)
  }

  /** Whether process p is between the read and the write of the wanted kind. */
  ghost predicate Ready(routing: Routing, w: World, s: Step) {
    match s
    case Direct(c) => SelfGuarded(c) && Enabled(routing, w.db, c)
    case PayloadRead(id, identity, token, now) => LeaseGuard(w.db, id, identity, token, now)
    case AddRead(p, _, n, parents, _) => p !in w.pending && AddChecks(routing, w.db, n, parents)
    case AddWrite(p) => p in w.pending && w.pending[p].Adding? && KeysFree(w.db, w.pending[p].id, w.pending[p].spec)
    case ReportRead(p, id, identity, _, token, _, now) => p !in w.pending && LeaseGuard(w.db, id, identity, token, now)
    case ReportWrite(p) =>
      p in w.pending && w.pending[p].Reporting? &&
      LeaseGuard(w.db, w.pending[p].id, w.pending[p].identity, w.pending[p].token, w.pending[p].now)
    case RejectRead(p, id, reviewer) =>
      p !in w.pending && reviewer == Some(LOCAL_ONLY) && id in w.db.tickets && w.db.tickets[id].status == InReview
    case RejectWrite(p) =>
      p in w.pending && w.pending[p].Rejecting? &&
      w.pending[p].id in w.db.tickets && w.db.tickets[w.pending[p].id].status == InReview
    case LinkRead(p, child, parent) => p !in w.pending && LinkChecks(routing, w.db, child, parent)
    case LinkWrite(p) => p in w.pending && w.pending[p].Linking? && LinkGuard(w.db, w.pending[p].child, w.pending[p].parent)
    case CancelRead(p, _) => p !in w.pending
    case CancelWrite(p, id) => p in w.pending && w.pending[p].Cancelling? && id in w.pending[p].todo && id in w.db.tickets
    case CancelDone(p) => p in w.pending && w.pending[p].Cancelling? && w.pending[p].todo == map[]
    case CascadeStart(p, root) => p !in w.pending && root in w.db.tickets && Dead(w.db.tickets[root])
    case CascadeRead(p, child, cause) =>
      p in w.pending && w.pending[p].Cascading? && cause in w.pending[p].stack && (child, cause) in w.db.deps && LiveRow(w.db, child)
    case CascadeWrite(p) =>
      p in w.pending && w.pending[p].Cascading? && w.pending[p].next.Some? && LiveRow(w.db, w.pending[p].next.value.child)
    case Crash(p) => p in w.pending
  }

  /** One step; a step that is not ready changes nothing (except that a process whose
      write found its guard false gives up). */
  ghost function Exec(routing: Routing, w: World, s: Step): World {
    if !Ready(routing, w, s) then
      (if (s.AddWrite? || s.ReportWrite? || s.RejectWrite? || s.LinkWrite?) && s.p in w.pending && !w.pending[s.p].Cascading? && !w.pending[s.p].Cancelling?
       then w.(pending := w.pending - {s.p}) else w)
    else
      match s
      case Direct(c) => w.(db := Do(routing, w.db, c), minted := if c.Claim? then w.minted + {c.token} else w.minted)
      case PayloadRead(_, _, _, _) => w
      case AddRead(p, id, n, parents, now) => w.(pending := w.pending[p := Adding(id, n, parents, now)])
      case AddWrite(p) =>
        var q := w.pending[p];
        w.(db := w.db.(tickets := w.db.tickets[q.id := NewRow(routing, q.spec, |w.db.tickets|, q.now)],
                       deps := w.db.deps + set x | x in q.parents :: (q.id, x)),
           pending := w.pending - {p})
      case ReportRead(p, id, identity, tier, token, completed, now) =>
        var t := w.db.tickets[id];
        w.(pending := w.pending[p := Reporting(id, identity, tier, token, completed, now, t.lease.value.tier, t.attempts, t.maxAttempts)])
      case ReportWrite(p) =>
        var q := w.pending[p];
        w.(db := SetRow(w.db, q.id, Claimed,
                        ReportedRow(w.db.tickets[q.id], q.completed, ReportTarget(q.completed, q.tier, q.leaseTier, q.attempts, q.maxAttempts))),
           pending := w.pending - {p})
      case RejectRead(p, id, _) =>
        w.(pending := w.pending[p := Rejecting(id, w.db.tickets[id].attempts, w.db.tickets[id].maxAttempts)])
      case RejectWrite(p) =>
        var q := w.pending[p];
        w.(db := SetRow(w.db, q.id, InReview, RejectedRow(w.db.tickets[q.id], q.attempts < q.maxAttempts)), pending := w.pending - {p})
      case LinkRead(p, child, parent) => w.(pending := w.pending[p := Linking(child, parent)])
      case LinkWrite(p) =>
        var q := w.pending[p];
        w.(db := w.db.(deps := w.db.deps + {(q.child, q.parent)}), pending := w.pending - {p})
      case CancelRead(p, task) =>
        var rows := map id | id in w.db.tickets && w.db.tickets[id].taskId == Some(task) && !Terminal(w.db.tickets[id].status)
                      :: w.db.tickets[id].status;
        w.(pending := w.pending[p := Cancelling(task, rows, {})])
      case CancelWrite(p, id) =>
        // the UPDATE is guarded, the audit row and the list of cancelled tickets are not
        var q := w.pending[p];
        var row := if Terminal(w.db.tickets[id].status) then w.db.tickets[id] else CancelledRow(w.db.tickets[id]);
        World(w.db.(tickets := w.db.tickets[id := row], audit := w.db.audit + [AuditRow(id, q.todo[id], Cancelled)]),
              w.pending[p := Cancelling(q.task, q.todo - {id}, q.written + {id})], w.minted)
      case CancelDone(p) => w.(pending := w.pending[p := Cascading(w.pending[p].written, None)])
      case CascadeStart(p, root) => w.(pending := w.pending[p := Cascading({root}, None)])
      case CascadeRead(p, child, cause) =>
        w.(pending := w.pending[p := Cascading(w.pending[p].stack, Some(Hit(child, cause, w.db.tickets[child].status)))])
      case CascadeWrite(p) =>
        var q := w.pending[p];
        var hit := q.next.value;
        w.(db := SetRow(w.db, hit.child, hit.status, CascadedRow(w.db.tickets[hit.child])),
           pending := w.pending[p := Cascading(q.stack + {hit.child}, None)])
      case Crash(p) => w.(pending := w.pending - {p})
  }

  /** Every claim mints a token never minted before. */
  predicate TokenFresh(w: World, s: Step) {
    s.Direct? && s.c.Claim? ==> s.c.token !in w.minted
  }

  ghost predicate NextAt(routing: Routing, ws: seq<World>, ss: seq<Step>, i: nat)
    requires i < |ss| && i + 1 < |ws|
  {
    TokenFresh(ws[i], ss[i]) && ws[i + 1] == Exec(routing, ws[i], ss[i])
  }

  /** The worlds a schedule of steps passes through. */
  ghost predicate IsRun(routing: Routing, ws: seq<World>, ss: seq<Step>) {
    && |ws| == |ss| + 1
    && ws[0] == START
    && forall i :: 0 <= i < |ss| ==> NextAt(routing, ws, ss, i)
  }

  // ------------------------------------------------------------- invariant

  /** Every lease carries a minted token, and no two tickets carry the same. */
  ghost predicate TokensOk(w: World) {
    && (forall id :: id in w.db.tickets && w.db.tickets[id].lease.Some? ==> w.db.tickets[id].lease.value.token in w.minted)
    && (forall i, j ::
          (i in w.db.tickets && j in w.db.tickets && i != j && w.db.tickets[i].lease.Some? && w.db.tickets[j].lease.Some?) ==>
            w.db.tickets[i].lease.value.token != w.db.tickets[j].lease.value.token)
  }

  /** A stale reading that its write can still rely on. For a report: as long as the row
      carries the token that was read, it carries the lease tier and attempts that were
      read. For a rejection: the attempts read
      are at most those the row has now. A cascade works off tickets that are dead, or done
      if a cancel was stale. */
  ghost predicate PendingOk(routing: Routing, w: World, q: Pending) {
    match q
    case Adding(_, n, parents, _) => AddChecks(routing, w.db, n, parents)
    case Reporting(id, _, _, token, _, _, leaseTier, attempts, maxAttempts) =>
      && id in w.db.tickets && token in w.minted
      && w.db.tickets[id].maxAttempts == maxAttempts
      && (w.db.tickets[id].lease.Some? && w.db.tickets[id].lease.value.token == token ==>
            w.db.tickets[id].lease.value.tier == leaseTier && w.db.tickets[id].attempts == attempts)
    case Rejecting(id, attempts, maxAttempts) =>
      id in w.db.tickets && w.db.tickets[id].maxAttempts == maxAttempts && attempts <= w.db.tickets[id].attempts
    case Linking(child, parent) =>
      && child in w.db.tickets && parent in w.db.tickets && child != parent
      && NoDowngrade(routing, w.db.tickets[child].privacyClass, w.db.tickets[parent].privacyClass)
    case Cancelling(_, todo, written) =>
      && (forall id :: id in todo ==> id in w.db.tickets && !Terminal(todo[id]))
      && (forall id :: id in written ==> id in w.db.tickets && Terminal(w.db.tickets[id].status))
    case Cascading(stack, next) =>
      && (forall id :: id in stack ==> id in w.db.tickets && (Dead(w.db.tickets[id]) || w.db.tickets[id].status == Done))
      && (next.Some? ==> next.value.cause in stack && (next.value.child, next.value.cause) in w.db.deps && !Terminal(next.value.status))
  }

  ghost predicate PendingsOk(routing: Routing, w: World) {
    forall p :: p in w.pending ==> PendingOk(routing, w, w.pending[p])
  }

  ghost predicate WInv(routing: Routing, w: World) {
    Inv(routing, w.db) && TokensOk(w) && PendingsOk(routing, w)
  }

  // --------------------------------------------- what a step does to the rows

  /** Between two stores: tickets stay, each row unchanged or moved by a row step, edges
      stay. `minted` are the tokens minted before; a new lease carries a new token. */
  ghost predicate Evolves(routing: Routing, db: Db, db': Db, minted: set<Token>) {
    && db.deps <= db'.deps
    && forall id :: id in db.tickets ==>
         && id in db'.tickets
         && RowEvolves(routing, DepsDone(db, id), db.tickets[id], db'.tickets[id], minted)
  }

  ghost predicate RowEvolves(routing: Routing, ready: bool, t: Ticket, u: Ticket, minted: set<Token>) {
    || u == t
    || (RowStep(routing, ready, t, u) && (t.status == Open && u.status == Claimed ==> u.lease.value.token !in minted))
  }

  /** What evolving keeps of one row, whatever else happens to it. */
  lemma RowEvolvesKeeps(routing: Routing, ready: bool, t: Ticket, u: Ticket, minted: set<Token>)
    requires RowEvolves(routing, ready, t, u, minted) && RowOk(routing, t)
    ensures SameColumns(t, u)
    ensures Terminal(t.status) ==> u.status == t.status
    ensures Dead(t) ==> Dead(u)
    ensures t.attempts <= u.attempts
    ensures u.lease.Some? && u.lease.value.token in minted ==>
              t.lease.Some? && t.lease.value.token == u.lease.value.token
              && t.lease.value.tier == u.lease.value.tier && t.attempts == u.attempts
  {
  }

  lemma ReportingStaysOk(routing: Routing, w: World, w': World, q: Pending)
    requires Inv(routing, w.db) && PendingOk(routing, w, q) && q.Reporting?
    requires Evolves(routing, w.db, w'.db, w.minted) && w.minted <= w'.minted
    ensures PendingOk(routing, w', q)
  {
    RowEvolvesKeeps(routing, DepsDone(w.db, q.id), w.db.tickets[q.id], w'.db.tickets[q.id], w.minted);
  }

  /** A pending reading stays reliable while rows evolve. */
  lemma PendingStaysOk(routing: Routing, w: World, w': World, q: Pending)
    requires Inv(routing, w.db) && PendingOk(routing, w, q)
    requires Evolves(routing, w.db, w'.db, w.minted) && w.minted <= w'.minted
    ensures PendingOk(routing, w', q)
  {
    forall id | id in w.db.tickets
      ensures id in w'.db.tickets && SameColumns(w.db.tickets[id], w'.db.tickets[id])
      ensures Terminal(w.db.tickets[id].status) ==> w'.db.tickets[id].status == w.db.tickets[id].status
      ensures Dead(w.db.tickets[id]) ==> Dead(w'.db.tickets[id])
      ensures w.db.tickets[id].attempts <= w'.db.tickets[id].attempts
    {
      RowEvolvesKeeps(routing, DepsDone(w.db, id), w.db.tickets[id], w'.db.tickets[id], w.minted);
    }
    if q.Reporting? {
      ReportingStaysOk(routing, w, w', q);
    }
  }

  /** What a step did to the rows: the commit it stands for, or one of the two writes
      that differ from every atomic commit. */
  ghost predicate IsOneRow(routing: Routing, w: World, w': World, id: TicketId) {
    && id in w.db.tickets && id in w'.db.tickets
    && OneRow(w.db, w'.db, id, w'.db.tickets[id])
    && RowStep(routing, DepsDone(w.db, id), w.db.tickets[id], w'.db.tickets[id])
    && !(w.db.tickets[id].status == Open && w'.db.tickets[id].status == Claimed)
  }

  lemma OneRowEvolves(routing: Routing, w: World, w': World, id: TicketId)
    requires Inv(routing, w.db) && IsOneRow(routing, w, w', id)
    ensures Evolves(routing, w.db, w'.db, w.minted) && Inv(routing, w'.db)
  {
    OneRowKeepsInv(routing, w.db, w'.db, id, w'.db.tickets[id]);
  }

  /** A report written from a stale reading is the atomic report: the token in the
      WHERE clause makes the reading good. */
  lemma SplitReportIsAtomic(routing: Routing, w: World, p: Process)
    requires WInv(routing, w) && Ready(routing, w, ReportWrite(p))
    ensures var q := w.pending[p];
            Exec(routing, w, ReportWrite(p)).db == Do(routing, w.db, Report(q.id, q.identity, q.tier, q.token, q.completed, q.now))
  {
    assert PendingOk(routing, w, w.pending[p]);
  }

  /** An insert whose dependency checks were done earlier is the atomic insert. */
  lemma SplitAddIsAtomic(routing: Routing, w: World, p: Process)
    requires WInv(routing, w) && Ready(routing, w, AddWrite(p))
    ensures var q := w.pending[p];
            && Enabled(routing, w.db, Insert(q.id, q.spec, q.parents, q.now))
            && Exec(routing, w, AddWrite(p)).db == Do(routing, w.db, Insert(q.id, q.spec, q.parents, q.now))
  {
    assert PendingOk(routing, w, w.pending[p]);
  }

  /** A link whose checks were done earlier is the atomic link: what its statement does
      not re-check cannot have changed. */
  lemma SplitLinkIsAtomic(routing: Routing, w: World, p: Process)
    requires WInv(routing, w) && Ready(routing, w, LinkWrite(p))
    ensures var q := w.pending[p];
            && Enabled(routing, w.db, Link(q.child, q.parent))
            && Exec(routing, w, LinkWrite(p)).db == Do(routing, w.db, Link(q.child, q.parent))
  {
    assert PendingOk(routing, w, w.pending[p]);
  }

  // ---------------------------------------------------- every step keeps WInv

  /** No ticket gained a lease token: each lease of `w'` continues one of `w`. */
  ghost predicate NoNewToken(w: World, w': World) {
    forall id :: id in w'.db.tickets && w'.db.tickets[id].lease.Some? ==>
      && id in w.db.tickets && w.db.tickets[id].lease.Some?
      && w.db.tickets[id].lease.value.token == w'.db.tickets[id].lease.value.token
  }

  lemma TokensStayOk(w: World, w': World)
    requires TokensOk(w) && NoNewToken(w, w') && w.minted <= w'.minted
    ensures TokensOk(w')
  {
  }

  lemma OneRowNoNewToken(routing: Routing, w: World, w': World, id: TicketId)
    requires Inv(routing, w.db) && IsOneRow(routing, w, w', id)
    ensures NoNewToken(w, w')
  {
    assert RowOk(routing, w.db.tickets[id]);
  }

  ghost predicate StoreStep(routing: Routing, w: World, w': World) {
    && Inv(routing, w'.db) && TokensOk(w')
    && Evolves(routing, w.db, w'.db, w.minted) && w.minted <= w'.minted
  }

  lemma OneRowStoreStep(routing: Routing, w: World, w': World, id: TicketId)
    requires WInv(routing, w) && IsOneRow(routing, w, w', id) && w.minted <= w'.minted
    ensures StoreStep(routing, w, w')
  {
    OneRowEvolves(routing, w, w', id);
    OneRowNoNewToken(routing, w, w', id);
    TokensStayOk(w, w');
  }

  lemma UntouchedStoreStep(routing: Routing, w: World, w': World)
    requires WInv(routing, w) && w'.db.tickets == w.db.tickets && w'.db.deps == w.db.deps && w'.minted == w.minted
    ensures StoreStep(routing, w, w')
  {
  }

  lemma ClaimStoreStep(routing: Routing, w: World, c: Commit)
    requires WInv(routing, w) && c.Claim? && Enabled(routing, w.db, c) && c.token !in w.minted
    ensures StoreStep(routing, w, Exec(routing, w, Direct(c)))
  {
    CommitKeepsInv(routing, w.db, c);
    CommitEffect(routing, w.db, c);
  }

  lemma DirectStoreStep(routing: Routing, w: World, c: Commit)
    requires WInv(routing, w) && TokenFresh(w, Direct(c))
    ensures StoreStep(routing, w, Exec(routing, w, Direct(c)))
  {
    var w' := Exec(routing, w, Direct(c));
    if Ready(routing, w, Direct(c)) {
      if c.Claim? {
        ClaimStoreStep(routing, w, c);
      } else if RowOf(c).Some? {
        CommitEffect(routing, w.db, c);
        NotAClaim(routing, w.db, c);
        OneRowStoreStep(routing, w, w', RowOf(c).value);
      } else {
        assert c.MirrorTask? || c.CreateTask? || c.TaskVerb?;
        OtherStoreStep(routing, w, c);
      }
    } else {
      UntouchedStoreStep(routing, w, w');
    }
  }

  lemma OtherStoreStep(routing: Routing, w: World, c: Commit)
    requires WInv(routing, w) && (c.MirrorTask? || c.CreateTask? || c.TaskVerb?)
    ensures StoreStep(routing, w, Exec(routing, w, Direct(c)))
  {
    OtherDirect(routing, w, c);
    UntouchedStoreStep(routing, w, Exec(routing, w, Direct(c)));
  }

  lemma OtherDirect(routing: Routing, w: World, c: Commit)
    requires c.MirrorTask? || c.CreateTask? || c.TaskVerb?
    ensures var w' := Exec(routing, w, Direct(c));
            w'.db.tickets == w.db.tickets && w'.db.deps == w.db.deps && w'.minted == w.minted
  {
    TaskCommitLeavesQueue(routing, w.db, c);
  }

  lemma NotAClaim(routing: Routing, db: Db, c: Commit)
    requires Inv(routing, db) && Enabled(routing, db, c) && RowOf(c).Some? && !c.Claim?
    ensures var id := RowOf(c).value;
            id in db.tickets && id in Do(routing, db, c).tickets &&
            !(db.tickets[id].status == Open && Do(routing, db, c).tickets[id].status == Claimed)
  {
    CommitEffect(routing, db, c);
  }

  lemma AddStoreStep(routing: Routing, w: World, p: Process)
    requires WInv(routing, w) && Ready(routing, w, AddWrite(p))
    ensures StoreStep(routing, w, Exec(routing, w, AddWrite(p)))
  {
    var q := w.pending[p];
    var w' := Exec(routing, w, AddWrite(p));
    SplitAddIsAtomic(routing, w, p);
    CommitKeepsInv(routing, w.db, Insert(q.id, q.spec, q.parents, q.now));
    InsertEvolves(routing, w, w', q.id);
    TokensStayOk(w, w');
  }

  /** A new row without a lease leaves the others as they are. */
  lemma InsertEvolves(routing: Routing, w: World, w': World, id: TicketId)
    requires id !in w.db.tickets && id in w'.db.tickets && w'.db.tickets[id].lease.None?
    requires w'.db.tickets == w.db.tickets[id := w'.db.tickets[id]] && w.db.deps <= w'.db.deps && w'.minted == w.minted
    ensures NoNewToken(w, w') && Evolves(routing, w.db, w'.db, w.minted)
  {
  }

  lemma ReportStoreStep(routing: Routing, w: World, p: Process)
    requires WInv(routing, w) && Ready(routing, w, ReportWrite(p))
    ensures StoreStep(routing, w, Exec(routing, w, ReportWrite(p)))
  {
    var q := w.pending[p];
    var c := Report(q.id, q.identity, q.tier, q.token, q.completed, q.now);
    SplitReportIsAtomic(routing, w, p);
    CommitEffect(routing, w.db, c);
    OneRowStoreStep(routing, w, Exec(routing, w, ReportWrite(p)), q.id);
  }

  lemma LinkStoreStep(routing: Routing, w: World, p: Process)
    requires WInv(routing, w) && Ready(routing, w, LinkWrite(p))
    ensures StoreStep(routing, w, Exec(routing, w, LinkWrite(p)))
  {
    var q := w.pending[p];
    SplitLinkIsAtomic(routing, w, p);
    CommitKeepsInv(routing, w.db, Link(q.child, q.parent));
  }

  lemma RejectStoreStep(routing: Routing, w: World, p: Process)
    requires WInv(routing, w) && Ready(routing, w, RejectWrite(p))
    ensures StoreStep(routing, w, Exec(routing, w, RejectWrite(p)))
  {
    OneRowStoreStep(routing, w, Exec(routing, w, RejectWrite(p)), w.pending[p].id);
  }

  lemma CancelStoreStep(routing: Routing, w: World, p: Process, id: TicketId)
    requires WInv(routing, w) && Ready(routing, w, CancelWrite(p, id))
    ensures StoreStep(routing, w, Exec(routing, w, CancelWrite(p, id)))
  {
    var w' := Exec(routing, w, CancelWrite(p, id));
    if Terminal(w.db.tickets[id].status) {
      assert w.db.tickets[id := w.db.tickets[id]] == w.db.tickets;
      UntouchedStoreStep(routing, w, w');
    } else {
      OneRowStoreStep(routing, w, w', id);
    }
  }

  lemma CascadeStoreStep(routing: Routing, w: World, p: Process)
    requires WInv(routing, w) && Ready(routing, w, CascadeWrite(p))
    ensures StoreStep(routing, w, Exec(routing, w, CascadeWrite(p)))
  {
    OneRowStoreStep(routing, w, Exec(routing, w, CascadeWrite(p)), w.pending[p].next.value.child);
  }

  lemma EveryStoreStep(routing: Routing, w: World, s: Step)
    requires WInv(routing, w) && TokenFresh(w, s)
    ensures StoreStep(routing, w, Exec(routing, w, s))
  {
    if s.Direct? {
      DirectStoreStep(routing, w, s.c);
    } else if Ready(routing, w, s) && s.AddWrite? {
      AddStoreStep(routing, w, s.p);
    } else if Ready(routing, w, s) && s.ReportWrite? {
      ReportStoreStep(routing, w, s.p);
    } else if Ready(routing, w, s) && s.LinkWrite? {
      LinkStoreStep(routing, w, s.p);
    } else if Ready(routing, w, s) && s.RejectWrite? {
      RejectStoreStep(routing, w, s.p);
    } else if Ready(routing, w, s) && s.CancelWrite? {
      CancelStoreStep(routing, w, s.p, s.id);
    } else if Ready(routing, w, s) && s.CascadeWrite? {
      CascadeStoreStep(routing, w, s.p);
    } else {
      ReadsLeaveStore(routing, w, s);
      UntouchedStoreStep(routing, w, Exec(routing, w, s));
    }
  }

  /** Steps that are not the guarded write of anything leave the store alone. */
  lemma ReadsLeaveStore(routing: Routing, w: World, s: Step)
    requires !s.Direct?
    requires Ready(routing, w, s) ==>
               !s.AddWrite? && !s.ReportWrite? && !s.RejectWrite? && !s.LinkWrite? && !s.CancelWrite? && !s.CascadeWrite?
    ensures Exec(routing, w, s).db == w.db && Exec(routing, w, s).minted == w.minted
  {
  }

  /** Of the split steps only the insert makes a ticket, and it writes no audit row. */
  lemma OnlyAddWriteAdds(routing: Routing, w: World, s: Step, id: TicketId)
    requires !s.Direct? && id !in w.db.tickets && id in Exec(routing, w, s).db.tickets
    ensures s.AddWrite? && Ready(routing, w, s) && id == w.pending[s.p].id
    ensures Exec(routing, w, s).db.tickets[id] == NewRow(routing, w.pending[s.p].spec, |w.db.tickets|, w.pending[s.p].now)
    ensures Exec(routing, w, s).db.audit == w.db.audit
  {
    if !Ready(routing, w, s) || !s.AddWrite? {
      WritesKeepKeys(routing, w, s);
    }
  }

  lemma WritesKeepKeys(routing: Routing, w: World, s: Step)
    requires !s.Direct? && (Ready(routing, w, s) ==> !s.AddWrite?)
    ensures Exec(routing, w, s).db.tickets.Keys <= w.db.tickets.Keys
  {
  }

  /** Only the process that takes a step changes what that process carries. */
  ghost function Actor(s: Step): Option<Process> {
    match s
    case Direct(_) => None
    case PayloadRead(_, _, _, _) => None
    case _ => Some(s.p)
  }

  lemma OthersKeepPending(routing: Routing, w: World, s: Step, p: Process)
    requires Actor(s) != Some(p)
    ensures p in Exec(routing, w, s).pending <==> p in w.pending
    ensures p in w.pending ==> Exec(routing, w, s).pending[p] == w.pending[p]
  {
  }

  /** What the acting process carries afterwards is a reliable reading. */
  lemma ActorPendingOk(routing: Routing, w: World, s: Step, p: Process)
    requires WInv(routing, w) && TokenFresh(w, s) && Actor(s) == Some(p)
    requires p in Exec(routing, w, s).pending
    ensures PendingOk(routing, Exec(routing, w, s), Exec(routing, w, s).pending[p])
  {
    var w' := Exec(routing, w, s);
    EveryStoreStep(routing, w, s);
    if p in w.pending {
      PendingStaysOk(routing, w, w', w.pending[p]);
    }
    if Ready(routing, w, s) {
      ReadyActorPendingOk(routing, w, s, p);
    }
  }

  lemma ReadyActorPendingOk(routing: Routing, w: World, s: Step, p: Process)
    requires WInv(routing, w) && Actor(s) == Some(p) && Ready(routing, w, s)
    requires StoreStep(routing, w, Exec(routing, w, s))
    requires p in Exec(routing, w, s).pending
    requires p in w.pending ==> PendingOk(routing, Exec(routing, w, s), w.pending[p])
    ensures PendingOk(routing, Exec(routing, w, s), Exec(routing, w, s).pending[p])
  {
    match s {
      case ReportRead(_, _, _, _, _, _, _) => FreshReportPendingOk(routing, w, s);
      case CancelWrite(_, id) => WrittenCancelPendingOk(routing, w, p, id);
      case CancelDone(_) => DoneCancelPendingOk(routing, w, p);
      case CascadeWrite(_) => WrittenCascadePendingOk(routing, w, p);
      case _ => OtherActorPendingOk(routing, w, s, p);
    }
  }

  lemma OtherActorPendingOk(routing: Routing, w: World, s: Step, p: Process)
    requires Actor(s) == Some(p) && Ready(routing, w, s)
    requires !s.ReportRead? && !s.CancelWrite? && !s.CancelDone? && !s.CascadeWrite?
    requires p in Exec(routing, w, s).pending
    requires p in w.pending ==> PendingOk(routing, Exec(routing, w, s), w.pending[p])
    ensures PendingOk(routing, Exec(routing, w, s), Exec(routing, w, s).pending[p])
  {
  }

  lemma FreshReportPendingOk(routing: Routing, w: World, s: Step)
    requires WInv(routing, w) && s.ReportRead? && Ready(routing, w, s)
    ensures PendingOk(routing, Exec(routing, w, s), Exec(routing, w, s).pending[s.p])
  {
  }

  lemma WrittenCancelPendingOk(routing: Routing, w: World, p: Process, id: TicketId)
    requires WInv(routing, w) && Ready(routing, w, CancelWrite(p, id))
    requires PendingOk(routing, Exec(routing, w, CancelWrite(p, id)), w.pending[p])
    ensures PendingOk(routing, Exec(routing, w, CancelWrite(p, id)), Exec(routing, w, CancelWrite(p, id)).pending[p])
  {
    var q := w.pending[p];
    var w' := Exec(routing, w, CancelWrite(p, id));
    assert w'.pending[p] == Cancelling(q.task, q.todo - {id}, q.written + {id});
    assert Terminal(w'.db.tickets[id].status);
  }

  lemma WrittenCascadePendingOk(routing: Routing, w: World, p: Process)
    requires WInv(routing, w) && Ready(routing, w, CascadeWrite(p))
    requires PendingOk(routing, Exec(routing, w, CascadeWrite(p)), w.pending[p])
    ensures PendingOk(routing, Exec(routing, w, CascadeWrite(p)), Exec(routing, w, CascadeWrite(p)).pending[p])
  {
    var q := w.pending[p];
    var w' := Exec(routing, w, CascadeWrite(p));
    assert w'.pending[p] == Cascading(q.stack + {q.next.value.child}, None);
    assert Dead(w'.db.tickets[q.next.value.child]);
  }

  lemma DoneCancelPendingOk(routing: Routing, w: World, p: Process)
    requires WInv(routing, w) && Ready(routing, w, CancelDone(p))
    ensures PendingOk(routing, Exec(routing, w, CancelDone(p)), Cascading(w.pending[p].written, None))
  {
    assert PendingOk(routing, w, w.pending[p]);
  }

  /** Every step of every process keeps the invariant of the split system. */
  lemma StepKeepsWInv(routing: Routing, w: World, s: Step)
    requires WInv(routing, w) && TokenFresh(w, s)
    ensures WInv(routing, Exec(routing, w, s))
  {
    var w' := Exec(routing, w, s);
    EveryStoreStep(routing, w, s);
    forall p | p in w'.pending
      ensures PendingOk(routing, w', w'.pending[p])
    {
      if Actor(s) == Some(p) {
        ActorPendingOk(routing, w, s, p);
      } else {
        OthersKeepPending(routing, w, s, p);
        PendingStaysOk(routing, w, w', w.pending[p]);
      }
    }
  }

  /** Over any interleaving of any number of broker processes, with crashes anywhere:
      the dependency graph stays acyclic with both ends of every edge present, no edge
      downgrades, tickets in flight have finished parents and an admitted lease tier. */
  lemma {:induction false} RunKeepsWInv(routing: Routing, ws: seq<World>, ss: seq<Step>, n: nat)
    requires IsRun(routing, ws, ss) && n < |ws|
    ensures WInv(routing, ws[n])
  {
    if n > 0 {
      RunKeepsWInv(routing, ws, ss, n - 1);
      assert NextAt(routing, ws, ss, n - 1);
      StepKeepsWInv(routing, ws[n - 1], ss[n - 1]);
    }
  }
}
