/** The queue object. Every method is one public operation (or one private step) of the
    queue run under the store lock, one guarded write and audit row per commit; the ghost
    history lists the commits, so every theorem about histories is about this object. */
module WorkQueues {
  import opened Options
  import opened Privacy
  import opened TaskStates
  import opened DependencyGraph
  import opened Transitions
  import opened TicketStore
  import opened QueueInvariants
  import opened Fallout
  import opened Reaping
  import opened Promises
  import opened Outcomes
  import opened ClaimOrder
  import opened Progress
  import opened Worklist
  import SplitRefinement
  import SplitRuns

  datatype Error =
    | UnknownDependency(dep: TicketId)
    | PrivacyDowngrade(dep: TicketId)
    | UnknownTicket
    | NotAuthorized
    | NotClaimable
    | InvalidExtendSeconds
    | LeaseLost
    | NoPayload
    | TicketCancelled
    | AlreadyReported
    | ReviewerNotAuthorized
    | NotInReview
    | SelfDependency
    | ChildNotLinkable
    | DependencyCycle

  datatype Result<T> = Ok(value: T) | Err(error: Error)

  /** What a worker is told about a ticket it has claimed; the linked task is not in it. */
  datatype Grant = Grant(ticket: TicketId, payloadRef: Option<nat>, privacyClass: PrivacyClass,
                         token: Token, expires: Time, attempts: nat)

  /** Ceiling on one lease renewal, in seconds. */
  const MAX_LEASE_EXTEND: Time := 3600.0

  ghost predicate TokensBelow(history: seq<Commit>, n: nat) {
    forall c :: c in history && c.Claim? ==> c.token < n
  }

  ghost predicate TokenUnused(history: seq<Commit>, token: Token) {
    forall c :: c in history && c.Claim? ==> c.token != token
  }

  ghost predicate TokenNotLeased(db: Db, token: Token) {
    forall k :: k in db.tickets && db.tickets[k].lease.Some? ==> db.tickets[k].lease.value.token != token
  }

  /** No id or token that is about to be minted is in use. */
  ghost predicate FreshFrom(db: Db, n: nat) {
    && (forall k :: k in db.tickets ==> k < n && (db.tickets[k].lease.Some? ==> db.tickets[k].lease.value.token < n))
    && forall t :: t in db.tasks ==> t < n
  }

  /** `db` is what the commits of `history` have made of a sound store. */
  ghost predicate Journal(routing: Routing, origin: Db, history: seq<Commit>, n: nat, db: Db) {
    && Inv(routing, origin)
    && db == AfterFrom(routing, origin, history)
    && SplitRefinement.TokensDistinct(history)
    && TokensBelow(history, n)
    && FreshFrom(db, n)
  }

  /** One more commit. */
  lemma JournalMore(routing: Routing, origin: Db, history: seq<Commit>, n: nat, db: Db, c: Commit, m: nat, db': Db)
    requires Journal(routing, origin, history, n, db)
    requires db' == Do(routing, db, c) && n <= m && FreshFrom(db', m)
    requires c.Claim? ==> TokenUnused(history, c.token) && c.token < m
    ensures Journal(routing, origin, history + [c], m, db')
  {
    AfterFromSnoc(routing, origin, history, c);
    var h := history + [c];
    forall i, j | 0 <= i < j < |h| && h[i].Claim? && h[j].Claim?
      ensures h[i].token != h[j].token
    {
      assert h[i] == history[i] && history[i] in history;
    }
  }

  lemma SetRowIsFresh(db: Db, id: TicketId, src: Status, row: Ticket, n: nat)
    requires FreshFrom(db, n) && id < n && (row.lease.Some? ==> row.lease.value.token < n)
    ensures FreshFrom(SetRow(db, id, src, row), n)
  {
  }

  lemma AuthorityIsFresh(db: Db, task: TaskId, verb: Verb<TaskState>, n: nat)
    requires FreshFrom(db, n)
    ensures FreshFrom(Authority(db, task, verb), n)
  {
  }

  /** Why one dependency named by `add` is refused, if it is. */
  function DepRefusal(routing: Routing, tickets: map<TicketId, Ticket>, pc: PrivacyClass, dep: TicketId): Option<Error> {
    if dep !in tickets then Some(UnknownDependency(dep))
    else if !NoDowngrade(routing, pc, tickets[dep].privacyClass) then Some(PrivacyDowngrade(dep))
    else None
  }

  lemma DepRefusalIsExact(routing: Routing, tickets: map<TicketId, Ticket>, pc: PrivacyClass, dep: TicketId)
    ensures DepRefusal(routing, tickets, pc, dep) ==
            if MayDepend(routing, tickets, pc, dep) then None
            else Some(if dep in tickets then PrivacyDowngrade(dep) else UnknownDependency(dep))
  {
    if dep in tickets {
      NoDowngradeIsSubset(routing, pc, tickets[dep].privacyClass);
    }
  }

  lemma ParentsAreSafe(routing: Routing, tickets: map<TicketId, Ticket>, pc: PrivacyClass, dependsOn: seq<TicketId>)
    requires forall d :: d in dependsOn ==> MayDepend(routing, tickets, pc, d)
    ensures forall p :: p in Elements(dependsOn) ==> p in tickets && NoDowngrade(routing, pc, tickets[p].privacyClass)
  {
    forall p | p in Elements(dependsOn)
      ensures p in tickets && NoDowngrade(routing, pc, tickets[p].privacyClass)
    {
      NoDowngradeIsSubset(routing, pc, tickets[p].privacyClass);
    }
  }

  /** What `report` answers, and what a repeated `report` repairs, when the ticket is not claimed. */
  function ReportRefusal(s: Status): Error {
    match s
    case Cancelled => TicketCancelled
    case InReview => AlreadyReported
    case Done => AlreadyReported
    case Failed => AlreadyReported
    case _ => NotClaimable
  }

  class WorkQueue {
    const routing: Routing
    const defaultLease: Time
    var tickets: map<TicketId, Ticket>
    var deps: Edges
    var tasks: map<TaskId, TaskState>
    var audit: seq<AuditRow>
    var taskLog: seq<(TaskId, Record<TaskState>)>
    var nonce: nat
    ghost const origin: Db
    ghost var history: seq<Commit>

    function State(): Db
      reads this
    {
      Db(tickets, deps, tasks, audit, taskLog)
    }

    ghost predicate IsHistory(h: seq<Commit>)
      reads this
    {
      h == history
    }

    /** The fields are the store that the commits of this object have made of the store it
        was opened on. (Said of any equal history, so that it is looked into only by name.) */
    ghost predicate Valid()
      reads this
    {
      forall h :: IsHistory(h) ==> Journal(routing, origin, h, nonce, State())
    }

    constructor (routing: Routing, defaultLease: Time)
      ensures Valid() && State() == EMPTY_DB && origin == EMPTY_DB && history == []
      ensures this.routing == routing && this.defaultLease == defaultLease
    {
      this.routing, this.defaultLease := routing, defaultLease;
      tickets, deps, tasks, audit, taskLog := map[], {}, map[], [], [];
      nonce := 0;
      origin := EMPTY_DB;
      history := [];
    }

    /** Opens a queue on any store with the base invariant: one that other brokers have
        left, or one that a crash has cut off. */
    constructor OnStore(routing: Routing, defaultLease: Time, store: Db, nonce: nat)
      requires Inv(routing, store)
      requires FreshFrom(store, nonce)
      ensures Valid() && State() == store && origin == store && history == []
      ensures this.routing == routing && this.defaultLease == defaultLease
    {
      this.routing, this.defaultLease := routing, defaultLease;
      tickets, deps, tasks, audit, taskLog := store.tickets, store.deps, store.tasks, store.audit, store.taskLog;
      this.nonce := nonce;
      origin := store;
      history := [];
    }

    /** The base invariant holds in every state of the object. */
    lemma BaseInvariant()
      requires Valid()
      ensures Inv(routing, State())
    {
      assert IsHistory(history);
      AnyHistoryFromKeepsInv(routing, origin, history);
    }

    /** Every state of an object opened on the empty store is one that interleaved processes can also reach, so
        every theorem about runs of the split system holds of it. */
    lemma ValidIsReachable()
      requires Valid() && origin == EMPTY_DB
      ensures exists w :: SplitRuns.Reachable(routing, w) && w.db == State()
    {
      assert IsHistory(history);
      var w := SplitRefinement.HistoryIsARun(routing, history);
    }

    // -------------------------------------------------- single commits

    /** One fenced UPDATE with its audit row, committed together. */
    method Update(id: TicketId, row: Ticket, ghost c: Commit)
      requires Valid() && Enabled(routing, State(), c) && id in tickets
      requires Do(routing, State(), c) == SetRow(State(), id, tickets[id].status, row)
      requires c.Claim? ==> TokenUnused(history, c.token) && c.token < nonce
      requires row.lease.Some? && row.lease != tickets[id].lease ==> row.lease.value.token < nonce
      modifies this`tickets, this`audit, this`history
      ensures Valid() && history == old(history) + [c]
      ensures State() == SetRow(old(State()), id, old(tickets[id]).status, row)
    {
      assert IsHistory(history);
      SetRowIsFresh(State(), id, tickets[id].status, row, nonce);
      JournalMore(routing, origin, history, nonce, State(), c, nonce, SetRow(State(), id, tickets[id].status, row));
      audit := audit + [AuditRow(id, tickets[id].status, row.status)];
      tickets := tickets[id := row];
      history := history + [c];
    }

    lemma AuthorityIsJournaled(task: TaskId, verb: Verb<TaskState>, c: Commit)
      requires Valid()
      requires Do(routing, State(), c) == Authority(State(), task, verb) && !c.Claim?
      ensures Journal(routing, origin, history + [c], nonce, Authority(State(), task, verb))
    {
      assert IsHistory(history);
      AuthorityIsFresh(State(), task, verb, nonce);
      JournalMore(routing, origin, history, nonce, State(), c, nonce, Authority(State(), task, verb));
    }

    /** One call of the transition authority on a task. */
    method Transition(task: TaskId, verb: Verb<TaskState>, ghost c: Commit)
      requires Valid()
      requires Do(routing, State(), c) == Authority(State(), task, verb) && !c.Claim?
      modifies this`tasks, this`taskLog, this`history
      ensures Valid() && history == old(history) + [c]
      ensures State() == Authority(old(State()), task, verb)
    {
      AuthorityIsJournaled(task, verb, c);
      var row := if task in tasks then Some(tasks[task]) else None;
      var decision := Decide(TASK_VOCAB, verb, row);
      match decision {
        case Hold(None) =>
        case Hold(Some(r)) => taskLog := taskLog + [(task, r)];
        case Illegal =>
        case Write(dst) =>
          taskLog := taskLog + [(task, Record(tasks[task], dst, Applied))];
          tasks := tasks[task := dst];
      }
      history := history + [c];
    }

    method MirrorTaskState(task: TaskId, dst: TaskState)
      requires Valid() && dst in {COMPLETE, FAILED, REVIEW_READY}
      modifies this`tasks, this`taskLog, this`history
      ensures Valid() && old(history) <= history
      ensures State() == Mirror(old(State()), task, dst)
      ensures tasks == TasksWith(old(tasks), Some(task), dst)
    {
      MirrorEffect(State(), task, dst);
      Transition(task, Converge(dst, MIRROR_EDGES), MirrorTask(task, dst));
    }

    method MirrorLinked(task: Option<TaskId>, dst: TaskState)
      requires Valid() && dst in {COMPLETE, FAILED, REVIEW_READY}
      modifies this`tasks, this`taskLog, this`history
      ensures Valid() && old(history) <= history
      ensures State() == LinkedMirror(old(State()), task, dst)
    {
      if task.Some? {
        MirrorTaskState(task.value, dst);
      }
    }

    /** The router's side of the shared task table: a new task, and its four verbs. */
    method CreateTask() returns (task: TaskId)
      requires Valid()
      modifies this`tasks, this`nonce, this`history
      ensures Valid() && old(history) <= history
      ensures task !in old(tasks) && tasks == old(tasks)[task := CREATED]
    {
      task := nonce;
      assert IsHistory(history);
      CreateDoes(routing, State(), task);
      ghost var c := Commit.CreateTask(task);
      JournalMore(routing, origin, history, nonce, State(), c, nonce + 1, State().(tasks := tasks[task := CREATED]));
      nonce := nonce + 1;
      tasks := tasks[task := CREATED];
      history := history + [c];
    }

    method DriveTask(task: TaskId, verb: Verb<TaskState>)
      requires Valid()
      modifies this`tasks, this`taskLog, this`history
      ensures Valid() && old(history) <= history
      ensures State() == Authority(old(State()), task, verb)
      ensures var row := if task in old(tasks) then Some(old(tasks)[task]) else None;
              if AsksLegal(TASK_VOCAB, verb, row)
              then
                && tasks == old(tasks)[task := verb.dst]
                && taskLog == old(taskLog) + [(task, Record(row.value, verb.dst, Applied))]
              else tasks == old(tasks) && taskLog == old(taskLog) + Tagged(task, Leaves(TASK_VOCAB, verb, row))
    {
      Transition(task, verb, TaskVerb(task, verb));
    }

    // --------------------------------------------------------------- add

    /** Enqueues a ticket; idempotent on the dedup key. The first bad dependency is
        reported and nothing is written. */
    method Add(spec: NewTicket, dependsOn: seq<TicketId>, now: Time) returns (r: Result<TicketId>)
      requires Valid()
      modifies this
      ensures Valid() && old(history) <= history
      ensures (spec.dedupKey.Some? && exists k :: k in old(tickets) && old(tickets)[k].dedupKey == spec.dedupKey) ==>
                && r.Ok? && r.value in old(tickets) && old(tickets)[r.value].dedupKey == spec.dedupKey
                && State() == old(State())
      ensures !(spec.dedupKey.Some? && exists k :: k in old(tickets) && old(tickets)[k].dedupKey == spec.dedupKey) ==>
                if forall d :: d in dependsOn ==> MayDepend(routing, old(tickets), spec.privacyClass, d)
                then
                  && r.Ok? && r.value !in old(tickets)
                  && tickets == old(tickets)[r.value := NewRow(routing, spec, |old(tickets)|, now)]
                  && Added(routing, spec, now, tickets[r.value])
                  && (forall k :: k in old(tickets) ==> old(tickets)[k].rowid < tickets[r.value].rowid)
                  && deps == old(deps) + (set d | d in Elements(dependsOn) :: (r.value, d))
                  && tasks == old(tasks) && audit == old(audit) && taskLog == old(taskLog)
                else
                  && r.Err? && State() == old(State())
                  && exists i :: FirstRefused(routing, old(tickets), spec.privacyClass, dependsOn, i)
                       && r.error == if dependsOn[i] in old(tickets) then PrivacyDowngrade(dependsOn[i])
                                     else UnknownDependency(dependsOn[i])
    {
      if spec.dedupKey.Some? {
        var same := set k | k in tickets && tickets[k].dedupKey == spec.dedupKey;
        if same != {} {
          var k :| k in same;
          return Ok(k);
        }
        assert forall k :: k in tickets && tickets[k].dedupKey == spec.dedupKey ==> k in same;
      }
      var i := 0;
      while i < |dependsOn|
        invariant 0 <= i <= |dependsOn|
        invariant Valid() && State() == old(State()) && history == old(history)
        invariant forall j :: 0 <= j < i ==> MayDepend(routing, tickets, spec.privacyClass, dependsOn[j])
      {
        var refusal := DepRefusal(routing, tickets, spec.privacyClass, dependsOn[i]);
        DepRefusalIsExact(routing, tickets, spec.privacyClass, dependsOn[i]);
        if refusal.Some? {
          assert dependsOn[i] in dependsOn;
          assert FirstRefused(routing, tickets, spec.privacyClass, dependsOn, i);
          return Err(refusal.value);
        }
        i := i + 1;
      }
      var parents := Elements(dependsOn);
      ParentsAreSafe(routing, tickets, spec.privacyClass, dependsOn);
      RowIdsGrow();
      NewRowIsAdded(routing, spec, |tickets|, now);
      var id := InsertRow(spec, parents, now);
      r := Ok(id);
    }

    lemma RowIdsDiffer()
      requires Valid()
      ensures forall i, j :: i in tickets && j in tickets && i != j ==> tickets[i].rowid != tickets[j].rowid
    {
      BaseInvariant();
    }

    lemma RowIdsGrow()
      requires Valid()
      ensures forall k :: k in tickets ==> tickets[k].rowid < |tickets|
    {
      BaseInvariant();
    }

    /** The INSERT of a ticket with its dependency edges, in one commit. */
    method InsertRow(spec: NewTicket, parents: set<TicketId>, now: Time) returns (id: TicketId)
      requires Valid()
      requires spec.dedupKey.Some? ==> forall k :: k in tickets ==> tickets[k].dedupKey != spec.dedupKey
      requires forall p :: p in parents ==> p in tickets && NoDowngrade(routing, spec.privacyClass, tickets[p].privacyClass)
      modifies this`tickets, this`deps, this`nonce, this`history
      ensures Valid() && old(history) <= history
      ensures id !in old(tickets)
      ensures tickets == old(tickets)[id := NewRow(routing, spec, |old(tickets)|, now)]
      ensures deps == old(deps) + set p | p in parents :: (id, p)
    {
      id := nonce;
      assert IsHistory(history);
      ghost var c := Insert(id, spec, parents, now);
      assert InsertGuard(routing, State(), id, spec, parents);
      JournalMore(routing, origin, history, nonce, State(), c, nonce + 1, Do(routing, State(), c));
      nonce := nonce + 1;
      tickets := tickets[id := NewRow(routing, spec, |tickets|, now)];
      deps := deps + set p | p in parents :: (id, p);
      history := history + [c];
    }

    // ------------------------------------------------------------- claim

    /** The single guarded UPDATE. It wins exactly when the claim guard holds. */
    method TryClaim(id: TicketId, identity: Identity, tier: Option<Tier>, leaseSeconds: Option<Time>, now: Time)
      returns (won: Option<Grant>)
      requires Valid()
      modifies this
      ensures Valid() && old(history) <= history
      ensures won.Some? <==> ClaimGuard(routing, old(State()), id, tier)
      ensures won.None? ==> State() == old(State())
      ensures won.Some? ==>
                var g := won.value;
                && TokenUnused(old(history), g.token) && TokenNotLeased(old(State()), g.token)
                && g.ticket == id && id in tickets && IsGrant(g, tickets[id])
                && State() == SetRow(old(State()), id, Open,
                     ClaimedRow(old(tickets)[id], Lease(identity, tier.value, g.token, Expiry(leaseSeconds, now))))
      ensures won.Some? <==> Claimable(routing, old(State()), id, tier)
      ensures won.Some? ==>
                Taken(old(State()), id, Lease(identity, tier.value, won.value.token,
                        now + if leaseSeconds.Some? then leaseSeconds.value else defaultLease), State())
    {
      ClaimGuardIsClaimable(routing, State(), id, tier);
      if !ClaimGuard(routing, State(), id, tier) {
        return None;
      }
      var token := Mint();
      var lease := Lease(identity, tier.value, token, Expiry(leaseSeconds, now));
      ClaimIsTaking(State(), id, lease);
      Update(id, ClaimedRow(tickets[id], lease), Claim(id, identity, tier, token, lease.expires));
      var t := tickets[id];
      won := Some(Grant(id, t.payloadRef, t.privacyClass, token, lease.expires, t.attempts));
    }

    /** A token never used before, and never handed out again. */
    method Mint() returns (token: Token)
      requires Valid()
      modifies this`nonce
      ensures Valid() && token < nonce
      ensures TokenUnused(history, token) && TokenNotLeased(State(), token)
    {
      assert IsHistory(history);
      token := nonce;
      nonce := nonce + 1;
    }

    function Expiry(leaseSeconds: Option<Time>, now: Time): Time {
      now + if leaseSeconds.Some? then leaseSeconds.value else defaultLease
    }

    /** Targeted claim of one ticket. */
    method ClaimOne(identity: Identity, tier: Option<Tier>, id: TicketId, leaseSeconds: Option<Time>, now: Time)
      returns (r: Result<Grant>)
      requires Valid()
      modifies this
      ensures Valid() && old(history) <= history
      ensures r.Err? ==> State() == old(State())
      ensures r == Err(UnknownTicket) <==> id !in old(tickets)
      ensures r == Err(NotAuthorized) <==> id in old(tickets) && !Admits(routing, tier, old(tickets)[id].privacyClass)
      ensures r.Ok? <==> ClaimGuard(routing, old(State()), id, tier)
      ensures r.Err? ==> r.error in {UnknownTicket, NotAuthorized, NotClaimable}
      ensures r.Ok? ==>
                && TokenUnused(old(history), r.value.token) && TokenNotLeased(old(State()), r.value.token)
                && r.value.ticket == id && id in tickets && IsGrant(r.value, tickets[id])
                && State() == SetRow(old(State()), id, Open,
                     ClaimedRow(old(tickets)[id], Lease(identity, tier.value, r.value.token, Expiry(leaseSeconds, now))))
      ensures r == Err(NotAuthorized) <==>
                id in old(tickets) && !(tier.Some? && tier.value in TiersOf(routing, old(tickets)[id].privacyClass))
      ensures r.Ok? <==> Claimable(routing, old(State()), id, tier)
      ensures r.Ok? ==>
                Taken(old(State()), id, Lease(identity, tier.value, r.value.token,
                        now + if leaseSeconds.Some? then leaseSeconds.value else defaultLease), State())
    {
      var admissible := AdmissibleClasses(routing, tier);
      if id !in tickets {
        return Err(UnknownTicket);
      }
      if tickets[id].privacyClass !in admissible {
        return Err(NotAuthorized);
      }
      var won := TryClaim(id, identity, tier, leaseSeconds, now);
      r := if won.Some? then Ok(won.value) else Err(NotClaimable);
    }

    /** One round of the batch claim: offer the open tickets in order, win the first
        eligible one. */
    method ClaimFirst(admissible: set<PrivacyClass>, identity: Identity, tier: Option<Tier>, caps: set<string>,
                      leaseSeconds: Option<Time>, now: Time)
      returns (won: Option<Grant>)
      requires Valid()
      requires admissible == AdmissibleClasses(routing, tier)
      modifies this
      ensures Valid() && old(history) <= history
      ensures won.None? ==> State() == old(State()) && NoneEligible(routing, State(), tier, caps)
      ensures won.Some? ==>
                && FirstEligible(routing, old(State()), tier, caps, won.value.ticket)
                && won.value.ticket in tickets && IsGrant(won.value, tickets[won.value.ticket])
                && State() == SetRow(old(State()), won.value.ticket, Open,
                     ClaimedRow(old(tickets)[won.value.ticket], Lease(identity, tier.value, won.value.token, Expiry(leaseSeconds, now))))
    {
      RowIdsDiffer();
      ghost var db := State();
      var rows := SelectOpen(tickets, admissible);
      EligibleAreListed(routing, db, tier, caps, admissible, rows);
      var i := 0;
      while i < |rows|
        invariant 0 <= i <= |rows|
        invariant Valid() && old(history) <= history && State() == db
        invariant forall j :: 0 <= j < i ==> !Eligible(routing, db, tier, caps, rows[j])
      {
        assert rows[i] in rows;
        if tickets[rows[i]].capabilities <= caps {
          FirstInOrder(routing, db, tier, caps, rows, i);
          won := TryClaim(rows[i], identity, tier, leaseSeconds, now);
          if won.Some? {
            return;
          }
        }
        i := i + 1;
      }
      won := None;
    }

    /** Claims up to `max` tickets. The result is the batch: the first min(max, 50)
        eligible tickets in order, and a short result means nothing eligible is left. */
    method ClaimNext(identity: Identity, tier: Option<Tier>, caps: set<string>, max: int, leaseSeconds: Option<Time>, now: Time)
      returns (claimed: seq<Grant>)
      requires Valid()
      modifies this
      ensures Valid() && old(history) <= history
      ensures IsBatch(routing, old(State()), tier, caps, max, Ids(claimed))
      ensures |claimed| < BatchSize(max) ==> NoneEligible(routing, State(), tier, caps)
      ensures RightfulBatch(routing, old(State()), tier, caps, max, Ids(claimed))
      ensures Handed(old(State()), identity, tier, now + if leaseSeconds.Some? then leaseSeconds.value else defaultLease, claimed, State())
    {
      var admissible := AdmissibleClasses(routing, tier);
      if admissible == {} {
        NothingForTier(routing, State(), tier, caps);
        HandingStarts(routing, State(), identity, tier, caps, now + if leaseSeconds.Some? then leaseSeconds.value else defaultLease);
        claimed := [];
      } else {
        claimed := ClaimBatch(admissible, identity, tier, caps, if max <= MAX_CLAIM_BATCH then max else MAX_CLAIM_BATCH, leaseSeconds, now);
      }
      HandingEnds(routing, old(State()), identity, tier, caps, now + if leaseSeconds.Some? then leaseSeconds.value else defaultLease,
                  max, claimed, State());
    }

    /** The rounds of the batch claim, until the bound is met or a round wins nothing. */
    method ClaimBatch(admissible: set<PrivacyClass>, identity: Identity, tier: Option<Tier>, caps: set<string>, bound: int,
                      leaseSeconds: Option<Time>, now: Time)
      returns (claimed: seq<Grant>)
      requires Valid()
      requires admissible == AdmissibleClasses(routing, tier)
      modifies this
      ensures Valid() && old(history) <= history
      ensures claimed == [] || |claimed| <= bound
      ensures |claimed| < bound ==> NoneEligible(routing, State(), tier, caps)
      ensures Handing(routing, old(State()), identity, tier, caps,
                      now + if leaseSeconds.Some? then leaseSeconds.value else defaultLease, claimed, State())
    {
      claimed := [];
      ghost var db0 := State();
      ghost var expires := now + if leaseSeconds.Some? then leaseSeconds.value else defaultLease;
      HandingStarts(routing, db0, identity, tier, caps, expires);
      var more := true;
      while more && |claimed| < bound
        invariant Valid() && old(history) <= history
        invariant claimed == [] || |claimed| <= bound
        invariant Handing(routing, db0, identity, tier, caps, expires, claimed, State())
        invariant !more ==> NoneEligible(routing, State(), tier, caps)
        decreases bound - |claimed|, more
      {
        ghost var db := State();
        var won := ClaimFirst(admissible, identity, tier, caps, leaseSeconds, now);
        if won.None? {
          more := false;
        } else {
          GrantOneMore(routing, db0, identity, tier, caps, expires, claimed, db, won.value, State());
          claimed := claimed + [won.value];
        }
      }
    }

    // ---------------------------------------------------------- heartbeat

    /** Extends a live lease by at most an hour; refuses a non-positive extension. */
    method RenewLease(identity: Identity, id: TicketId, token: Token, extendSeconds: Option<Time>, now: Time)
      returns (r: Result<Time>)
      requires Valid()
      modifies this
      ensures Valid() && old(history) <= history
      ensures var extend := if extendSeconds.Some? then extendSeconds.value else defaultLease;
              if extend <= 0.0 then r == Err(InvalidExtendSeconds) && State() == old(State())
              else if !Fenced(old(State()), id, identity, token, now) then r == Err(LeaseLost) && State() == old(State())
              else
                && r.Ok? && now < r.value <= now + 3600.0
                && (extend <= 3600.0 ==> r.value == now + extend)
                && (extend > 3600.0 ==> r.value == now + 3600.0)
                && tickets == old(tickets)[id := old(tickets)[id].(lease := Some(old(tickets)[id].lease.value.(expires := r.value)))]
                && deps == old(deps) && tasks == old(tasks) && audit == old(audit) && taskLog == old(taskLog)
    {
      var extend := if extendSeconds.Some? then extendSeconds.value else defaultLease;
      if extend <= 0.0 {
        return Err(InvalidExtendSeconds);
      }
      extend := if extend <= MAX_LEASE_EXTEND then extend else MAX_LEASE_EXTEND;
      var expires := now + extend;
      if !LeaseGuard(State(), id, identity, token, now) {
        return Err(LeaseLost);
      }
      assert IsHistory(history);
      ghost var c := Commit.Renew(id, identity, token, now, expires);
      JournalMore(routing, origin, history, nonce, State(), c, nonce, Do(routing, State(), c));
      var t := tickets[id];
      tickets := tickets[id := t.(lease := Some(t.lease.value.(expires := expires)))];
      history := history + [c];
      r := Ok(expires);
    }

    // ------------------------------------------------------------ payload

    /** The payload reference, to the current lease holder only. */
    method PayloadFor(identity: Identity, id: TicketId, token: Token, tier: Option<Tier>, now: Time)
      returns (r: Result<nat>)
      requires Valid()
      ensures r == Err(UnknownTicket) <==> id !in tickets
      ensures r == Err(LeaseLost) <==> id in tickets && !Fenced(State(), id, identity, token, now)
      ensures r == Err(NotAuthorized) <==>
                Fenced(State(), id, identity, token, now) && tier.Some? && tier.value !in TiersOf(routing, tickets[id].privacyClass)
      ensures r.Ok? ==> Fenced(State(), id, identity, token, now) && tickets[id].payloadRef == Some(r.value)
      ensures r.Err? ==> r.error in {UnknownTicket, LeaseLost, NotAuthorized, NoPayload}
      ensures r == Err(NoPayload) ==> id in tickets && tickets[id].payloadRef == None
    {
      if id !in tickets {
        return Err(UnknownTicket);
      }
      var t := tickets[id];
      if t.status != Claimed || t.lease.None? || t.lease.value.holder != identity
         || t.lease.value.token != token || t.lease.value.expires <= now {
        return Err(LeaseLost);
      }
      if tier.Some? && !Admits(routing, tier, t.privacyClass) {
        return Err(NotAuthorized);
      }
      if t.payloadRef.None? {
        return Err(NoPayload);
      }
      r := Ok(t.payloadRef.value);
    }

    // ------------------------------------------------------------- report

    /** What follows a status write of a ticket in transactions of their own: the mirror
        of the outcome and, for a failure, the cascade. */
    method Settle(id: TicketId, task: Option<TaskId>, target: Status)
      requires Valid() && id in tickets && (target == Failed ==> tickets[id].status == Failed)
      modifies this`tickets, this`audit, this`tasks, this`taskLog, this`history
      ensures Valid() && old(history) <= history
      ensures Settled(old(State()), id, task, target, State())
    {
      if target == Failed {
        LinkedMirrorKeepsTickets(State(), task, FAILED);
        MirrorLinked(task, FAILED);
        var _ := CascadeFailure(id);
      } else if target == Done {
        MirrorLinked(task, COMPLETE);
      } else if target == InReview {
        MirrorLinked(task, REVIEW_READY);
      }
    }

    /** Reports a result under the fence. A refused repeat repairs what a crash may have
        cut off behind the terminal write. */
    method ReportResult(identity: Identity, tier: Option<Tier>, id: TicketId, token: Token, completed: bool, now: Time)
      returns (r: Result<Status>)
      requires Valid()
      modifies this
      ensures Valid() && old(history) <= history
      ensures id !in old(tickets) ==> r == Err(UnknownTicket) && State() == old(State())
      ensures id in old(tickets) && old(tickets)[id].status != Claimed ==>
                r == Err(ReportRefusal(old(tickets)[id].status)) && Healed(old(State()), id, State())
      ensures id in old(tickets) && old(tickets)[id].status == Claimed && !LeaseGuard(old(State()), id, identity, token, now) ==>
                r == Err(LeaseLost) && State() == old(State())
      ensures LeaseGuard(old(State()), id, identity, token, now) ==>
                var t := old(tickets)[id];
                var target := ReportTarget(completed, tier, t.lease.value.tier, t.attempts, t.maxAttempts);
                && r == Ok(target)
                && Settled(SetRow(old(State()), id, Claimed, ReportedRow(t, completed, target)), id, t.taskId, target, State())
      ensures id in old(tickets) && old(tickets)[id].status in {Open, Parked} ==> r == Err(NotClaimable) && State() == old(State())
      ensures id in old(tickets) && old(tickets)[id].status == Cancelled ==> r == Err(TicketCancelled) && State() == old(State())
      ensures id in old(tickets) && old(tickets)[id].status in {InReview, Done, Failed} ==>
                r == Err(AlreadyReported) && Repaired(old(State()), id, State())
      ensures id in old(tickets) && old(tickets)[id].status == Claimed && !Fenced(old(State()), id, identity, token, now) ==>
                r == Err(LeaseLost) && State() == old(State())
      ensures Fenced(old(State()), id, identity, token, now) && !completed ==>
                var t := old(tickets)[id];
                && r == Ok(if t.attempts < t.maxAttempts then Open else Failed)
                && Lands(old(State()), id, t.(status := r.value, resultStatus := Some(FailedResult), lease := None), State())
      ensures Fenced(old(State()), id, identity, token, now) && completed ==>
                var t := old(tickets)[id];
                && r == Ok(if tier == Some("local_only") && t.lease.value.tier == "local_only" then Done else InReview)
                && Lands(old(State()), id,
                     t.(status := r.value, resultStatus := Some(if r.value == Done then ApprovedResult else PendingReview)), State())
    {
      if id !in tickets {
        return Err(UnknownTicket);
      }
      var t := tickets[id];
      if t.status != Claimed {
        if t.status == Failed {
          var _ := CascadeFailure(id);
          MirrorLinked(t.taskId, FAILED);
        } else if t.status == Done {
          MirrorLinked(t.taskId, COMPLETE);
        } else if t.status == InReview {
          MirrorLinked(t.taskId, REVIEW_READY);
        }
        HealedIsRepaired(old(State()), id, State());
        return Err(ReportRefusal(t.status));
      }
      if !LeaseGuard(State(), id, identity, token, now) {
        return Err(LeaseLost);
      }
      var target: Status;
      if !completed {
        target := if t.attempts < t.maxAttempts then Open else Failed;
      } else if tier == Some(LOCAL_ONLY) && t.lease.value.tier == LOCAL_ONLY {
        target := Done;
      } else {
        target := InReview;
      }
      Update(id, ReportedRow(t, completed, target), Report(id, identity, tier, token, completed, now));
      Settle(id, t.taskId, target);
      SettledLands(old(State()), id, ReportedRow(t, completed, target), State());
      r := Ok(target);
    }

    // -------------------------------------------------------- review gate

    method ApproveResult(reviewer: Option<Tier>, id: TicketId) returns (r: Result<Status>)
      requires Valid()
      modifies this
      ensures Valid() && old(history) <= history
      ensures r == ReviewRefusal(old(State()), reviewer, id, Done)
      ensures r.Err? ==> State() == old(State())
      ensures r.Ok? ==>
                var t := old(tickets)[id];
                Settled(SetRow(old(State()), id, InReview, t.(status := Done, resultStatus := Some(ApprovedResult))),
                        id, t.taskId, Done, State())
      ensures reviewer == Some("local_only") && id in old(tickets) && old(tickets)[id].status == InReview ==>
                r == Ok(Done)
                && Lands(old(State()), id, old(tickets)[id].(status := Done, resultStatus := Some(ApprovedResult)), State())
      ensures !(reviewer == Some("local_only") && id in old(tickets) && old(tickets)[id].status == InReview) ==>
                r.Err? && State() == old(State())
    {
      if reviewer != Some(LOCAL_ONLY) {
        return Err(ReviewerNotAuthorized);
      }
      if id !in tickets {
        return Err(UnknownTicket);
      }
      var t := tickets[id];
      if t.status != InReview {
        return Err(NotInReview);
      }
      Update(id, t.(status := Done, resultStatus := Some(ApprovedResult)), Approve(id, reviewer));
      Settle(id, t.taskId, Done);
      SettledLands(old(State()), id, t.(status := Done, resultStatus := Some(ApprovedResult)), State());
      r := Ok(Done);
    }

    /** Rejects a result: requeue while attempts remain, else fail and cascade. */
    method RejectResult(reviewer: Option<Tier>, id: TicketId) returns (r: Result<Status>)
      requires Valid()
      modifies this
      ensures Valid() && old(history) <= history
      ensures r == ReviewRefusal(old(State()), reviewer, id, RejectTarget(old(State()), id))
      ensures r.Err? ==>
                if reviewer == Some(LOCAL_ONLY) && id in old(tickets) && old(tickets)[id].status == Failed
                then CascadedThenMirrored(old(State()), id, State())
                else State() == old(State())
      ensures r.Ok? ==>
                var t := old(tickets)[id];
                Settled(SetRow(old(State()), id, InReview, RejectedRow(t, t.attempts < t.maxAttempts)),
                        id, t.taskId, r.value, State())
      ensures reviewer == Some("local_only") && id in old(tickets) && old(tickets)[id].status == InReview ==>
                var t := old(tickets)[id];
                && r == Ok(if t.attempts < t.maxAttempts then Open else Failed)
                && Lands(old(State()), id, t.(status := r.value, resultStatus := Some(RejectedResult), lease := None), State())
      ensures reviewer == Some("local_only") && id in old(tickets) && old(tickets)[id].status == Failed ==>
                r == Err(NotInReview) && Repaired(old(State()), id, State())
    {
      if reviewer != Some(LOCAL_ONLY) {
        return Err(ReviewerNotAuthorized);
      }
      if id !in tickets {
        return Err(UnknownTicket);
      }
      var t := tickets[id];
      if t.status != InReview {
        if t.status == Failed {
          var _ := CascadeFailure(id);
          MirrorLinked(t.taskId, FAILED);
          HealedIsRepaired(old(State()), id, State());
        }
        return Err(NotInReview);
      }
      var requeue := t.attempts < t.maxAttempts;
      Update(id, RejectedRow(t, requeue), Reject(id, reviewer));
      if requeue {
        SettledLands(old(State()), id, RejectedRow(t, requeue), State());
        return Ok(Open);
      }
      Settle(id, t.taskId, Failed);
      SettledLands(old(State()), id, RejectedRow(t, requeue), State());
      r := Ok(Failed);
    }

    // --------------------------------------------------------------- link

    /** Adds a dependency edge, or says why not. The cycle answer is exact. */
    method LinkTickets(id: TicketId, dependsOn: TicketId) returns (r: Result<()>)
      requires Valid()
      modifies this
      ensures Valid() && old(history) <= history
      ensures r == LinkAnswer(routing, old(State()), id, dependsOn)
      ensures tickets == old(tickets) && tasks == old(tasks) && audit == old(audit) && taskLog == old(taskLog)
      ensures deps == if r.Ok? then old(deps) + {(id, dependsOn)} else old(deps)
    {
      if id !in tickets || dependsOn !in tickets {
        return Err(UnknownTicket);
      }
      if id == dependsOn {
        return Err(SelfDependency);
      }
      if InFlight(tickets[id].status) {
        return Err(ChildNotLinkable);
      }
      NoDowngradeIsSubset(routing, tickets[id].privacyClass, tickets[dependsOn].privacyClass);
      if !NoDowngrade(routing, tickets[id].privacyClass, tickets[dependsOn].privacyClass) {
        return Err(PrivacyDowngrade(dependsOn));
      }
      NewEdgeIsSafeIff(id, dependsOn);
      if (id, dependsOn) in deps {
        return Ok(());
      }
      var back := DependsTransitively(deps, dependsOn, id);
      if back {
        return Err(DependencyCycle);
      }
      InsertEdge(id, dependsOn);
      r := Ok(());
    }

    /** The acyclicity guard folded into the INSERT is exact, and an edge that is there
        already passes it. */
    lemma NewEdgeIsSafeIff(child: TicketId, parent: TicketId)
      requires Valid()
      ensures Acyclic(deps + {(child, parent)}) <==> !Reach(deps, parent, child)
      ensures (child, parent) in deps ==> Acyclic(deps + {(child, parent)}) && deps + {(child, parent)} == deps
    {
      BaseInvariant();
      AddEdgeAcyclic(deps, child, parent);
      if (child, parent) in deps {
        assert deps + {(child, parent)} == deps;
      }
    }

    method InsertEdge(child: TicketId, parent: TicketId)
      requires Valid() && LinkChecks(routing, State(), child, parent) && LinkGuard(State(), child, parent)
      modifies this`deps, this`history
      ensures Valid() && old(history) <= history
      ensures deps == old(deps) + {(child, parent)}
    {
      assert IsHistory(history);
      ghost var c := Commit.Link(child, parent);
      JournalMore(routing, origin, history, nonce, State(), c, nonce, State().(deps := deps + {(child, parent)}));
      deps := deps + {(child, parent)};
      history := history + [c];
    }

    // ------------------------------------------------------------ cascade

    /** Fails one live dependent of a dead ticket, and its task. */
    method FailDependent(child: TicketId, cause: TicketId)
      requires Valid() && (child, cause) in deps && LiveRow(State(), child)
      requires cause in tickets && Dead(tickets[cause])
      modifies this`tickets, this`audit, this`tasks, this`taskLog, this`history
      ensures Valid() && old(history) <= history
      ensures State() == FailOne(old(State()), child)
    {
      var t := tickets[child];
      Update(child, CascadedRow(t), CascadeTo(child, cause));
      MirrorLinked(t.taskId, FAILED);
    }

    ghost predicate IsStore(db: Db)
      reads this
    {
      db == State()
    }

    /** Where the worklist of a cascade from `root` in `db0` stands, said of the present store. */
    ghost predicate Working(db0: Db, root: TicketId, cascaded: seq<TicketId>, seen: set<TicketId>, stack: seq<TicketId>)
      reads this
    {
      deps == db0.deps && forall db :: IsStore(db) ==> Cascading(db0, root, db, cascaded, seen, stack)
    }

    lemma Work(db0: Db, root: TicketId, cascaded: seq<TicketId>, seen: set<TicketId>, stack: seq<TicketId>)
      requires Working(db0, root, cascaded, seen, stack)
      ensures Cascading(db0, root, State(), cascaded, seen, stack)
    {
      assert IsStore(State());
    }

    lemma SeenIsSettled(db0: Db, root: TicketId, cascaded: seq<TicketId>, seen: set<TicketId>, stack: seq<TicketId>, child: TicketId)
      requires Working(db0, root, cascaded, seen, stack) && child in seen
      ensures child in cascaded || !LiveRow(db0, child)
    {
      Work(db0, root, cascaded, seen, stack);
    }

    lemma Bounded(db0: Db, root: TicketId, cascaded: seq<TicketId>, seen: set<TicketId>, stack: seq<TicketId>)
      requires Working(db0, root, cascaded, seen, stack) && Distinct(cascaded)
      ensures |cascaded| <= |db0.tickets|
    {
      Work(db0, root, cascaded, seen, stack);
      NoMoreThanTickets(db0, cascaded);
    }

    lemma Pop(db0: Db, root: TicketId, cascaded: seq<TicketId>, seen: set<TicketId>, stack: seq<TicketId>)
      requires Working(db0, root, cascaded, seen, stack) && stack != []
      ensures Working(db0, root, cascaded, seen, stack[..|stack| - 1])
      ensures stack[|stack| - 1] == root || stack[|stack| - 1] in cascaded
    {
      Work(db0, root, cascaded, seen, stack);
      Popped(db0, root, State(), cascaded, seen, stack);
    }

    /** One dependent met for the first time: failed unless it is gone or terminal. */
    method Visit(child: TicketId, parent: TicketId, ghost db0: Db, ghost root: TicketId,
                 ghost cascaded: seq<TicketId>, ghost seen: set<TicketId>, ghost stack: seq<TicketId>) returns (hit: bool)
      requires Valid() && Working(db0, root, cascaded, seen, stack)
      requires (parent == root || parent in cascaded) && (child, parent) in deps && child !in seen
      modifies this`tickets, this`audit, this`tasks, this`taskLog, this`history
      ensures Valid() && old(history) <= history
      ensures hit ==> Working(db0, root, cascaded + [child], seen + {child}, stack + [child]) && child !in cascaded
      ensures !hit ==> Working(db0, root, cascaded, seen + {child}, stack) && (parent, child) !in LiveEdges(db0)
    {
      hit := LiveRow(State(), child);
      Work(db0, root, cascaded, seen, stack);
      VisitIsSound(db0, root, State(), cascaded, seen, stack, parent, child);
      if hit {
        FailDependent(child, parent);
      }
    }

    /** The inner loop of the cascade: all the dependents of one failed ticket. */
    method VisitDependents(parent: TicketId, seen0: set<TicketId>, stack0: seq<TicketId>, cascaded0: seq<TicketId>,
                           ghost db0: Db, ghost root: TicketId)
      returns (seen: set<TicketId>, stack: seq<TicketId>, cascaded: seq<TicketId>)
      requires Valid() && Working(db0, root, cascaded0, seen0, stack0)
      requires parent == root || parent in cascaded0
      modifies this`tickets, this`audit, this`tasks, this`taskLog, this`history
      ensures Valid() && old(history) <= history
      ensures Working(db0, root, cascaded, seen, stack)
      ensures Grown(cascaded0, stack0, cascaded, stack)
      ensures forall c :: (parent, c) in LiveEdges(db0) ==> c in cascaded
    {
      seen, stack, cascaded := seen0, stack0, cascaded0;
      var children := Rows(Predecessors(deps, parent));
      ghost var g := LiveEdges(db0);
      GrownNot(cascaded, stack);
      DependentsAreAll(db0, deps, parent, children);
      assert Tended(g, parent, children[..0], cascaded);
      var i := 0;
      while i < |children|
        invariant 0 <= i <= |children|
        invariant Valid() && old(history) <= history
        invariant Working(db0, root, cascaded, seen, stack)
        invariant Grown(cascaded0, stack0, cascaded, stack)
        invariant Tended(g, parent, children[..i], cascaded)
      {
        var child := children[i];
        assert child in children;
        ghost var cascaded1 := cascaded;
        if child !in seen {
          var hit := Visit(child, parent, db0, root, cascaded, seen, stack);
          seen := seen + {child};
          if hit {
            GrownMore(cascaded0, stack0, cascaded, stack, child);
            cascaded := cascaded + [child];
            stack := stack + [child];
          }
        } else {
          SeenIsSettled(db0, root, cascaded, seen, stack, child);
        }
        TendedMore(g, parent, children, i, cascaded1, cascaded);
        i := i + 1;
      }
      assert children[..i] == children;
    }

    /** The worklist: from a dead ticket to every live ticket that depends on it,
        directly or through live tickets, each failed once. */
    method CascadeFailure(root: TicketId) returns (cascaded: seq<TicketId>)
      requires Valid() && root in tickets && Dead(tickets[root])
      modifies this`tickets, this`audit, this`tasks, this`taskLog, this`history
      ensures Valid() && old(history) <= history
      ensures CascadeOf(old(State()), root, State())
      ensures forall c :: c in cascaded <==> c in FalloutOf(old(State()), root)
      ensures Distinct(cascaded)
      ensures CascadeShown(old(State()), {root}, State())
      ensures forall c :: c in cascaded <==> c in old(tickets) && c in tickets && tickets[c] != old(tickets)[c]
    {
      ghost var db0 := State();
      FailsNothing(db0);
      cascaded := [];
      assert Elements(cascaded) == {};
      NoMoreThanTickets(db0, cascaded);
      var seen: set<TicketId> := {};
      var stack := [root];
      while stack != []
        invariant Valid() && old(history) <= history
        invariant Working(db0, root, cascaded, seen, stack)
        invariant Covered(LiveEdges(db0), root, cascaded, stack)
        invariant Distinct(cascaded) && |cascaded| <= |db0.tickets|
        decreases |db0.tickets| - |cascaded|, |stack|
      {
        var parent := stack[|stack| - 1];
        ghost var cascaded0, stack0 := cascaded, stack;
        Pop(db0, root, cascaded, seen, stack);
        seen, stack, cascaded := VisitDependents(parent, seen, stack[..|stack| - 1], cascaded, db0, root);
        CoverMore(LiveEdges(db0), root, cascaded0, stack0, cascaded, stack);
        Bounded(db0, root, cascaded, seen, stack);
      }
      Work(db0, root, cascaded, seen, stack);
      ClosedIsFallout(db0, root, Elements(cascaded));
      CascadeIsShown(db0, root, State());
      FailedChange(db0, root, State());
    }

    /** The mirror of one dead ticket, where asked for, and its cascade. */
    method CascadeOne(root: TicketId, mirrored: bool) returns (ghost db: Db)
      requires Valid() && root in tickets && Dead(tickets[root])
      modifies this`tickets, this`audit, this`tasks, this`taskLog, this`history
      ensures Valid() && old(history) <= history
      ensures db == (if mirrored then LinkedMirror(old(State()), old(tickets)[root].taskId, FAILED) else old(State()))
      ensures CascadeOf(db, root, State())
    {
      if mirrored {
        LinkedMirrorKeepsTickets(State(), tickets[root].taskId, FAILED);
        MirrorLinked(tickets[root].taskId, FAILED);
      }
      db := State();
      var _ := CascadeFailure(root);
    }

    /** Cascades from each of the given dead tickets in turn, first mirroring the failure
        to the ticket's own task where asked to. */
    method CascadeEach(roots: seq<TicketId>, mirrored: bool, ghost parked: set<TicketId>)
      requires Valid()
      requires forall r :: r in roots ==> r in tickets && Dead(tickets[r]) && (mirrored ==> r in parked)
      modifies this`tickets, this`audit, this`tasks, this`taskLog, this`history
      ensures Valid() && old(history) <= history
      ensures EachSoFar(old(State()), parked, roots, |roots|, Doomed(old(State()), Elements(roots)), State())
      ensures mirrored ==> TasksEnded(State(), roots)
      ensures !mirrored ==> tasks == CascadedTasks(old(State()), Doomed(old(State()), Elements(roots)))
    {
      ghost var db0 := State();
      FailsNothing(db0);
      ghost var failed: set<TicketId> := {};
      EachStart(db0, parked, roots);
      var i := 0;
      while i < |roots|
        invariant 0 <= i <= |roots|
        invariant Valid() && old(history) <= history
        invariant EachSoFar(db0, parked, roots, i, failed, State())
        invariant mirrored ==> TasksEnded(State(), roots[..i])
        invariant !mirrored ==> tasks == CascadedTasks(db0, failed)
      {
        var root := roots[i];
        assert root in roots;
        ghost var before := State();
        RootStaysDead(db0, Elements(roots), failed, before, root);
        if mirrored {
          EachMirrored(db0, parked, roots, i, failed, before);
        }
        ghost var db := CascadeOne(root, mirrored);
        EachOneMore(db0, parked, roots, i, failed, db, State());
        if mirrored {
          CascadeKeepsEnded(db, parked, root, State(), roots[..i + 1]);
        } else {
          CascadedTasksTwice(db0, failed, db, FalloutOf(db, root));
        }
        failed := failed + FalloutOf(db, root);
        i := i + 1;
      }
      assert roots[..i] == roots;
      EachDone(db0, parked, roots, failed, State());
    }

    // ------------------------------------------------------------- cancel

    /** Cancels every live ticket of a task, then fails what depended on them. */
    method CancelForTask(task: TaskId) returns (cancelled: seq<TicketId>)
      requires Valid()
      modifies this`tickets, this`audit, this`tasks, this`taskLog, this`history
      ensures Valid() && old(history) <= history
      ensures Distinct(cancelled)
      ensures var mid := old(State()).(tickets := CancelledTickets(old(tickets), Elements(cancelled)));
              && tickets == CascadedTickets(mid.tickets, Doomed(mid, Elements(cancelled)))
              && TaskMoves(old(tasks), {}, State())
      ensures CancelShown(old(State()), task, cancelled, State())
    {
      cancelled := Rows(set k | k in tickets && !Terminal(tickets[k].status) && tickets[k].taskId == Some(task));
      CancelRows(cancelled, task);
      ghost var mid := State();
      CascadeEach(cancelled, false, {});
      CancelEnds(old(State()), task, cancelled, mid, State());
    }

    method CancelRows(rows: seq<TicketId>, task: TaskId)
      requires Valid() && Distinct(rows)
      requires forall k :: k in rows ==> LiveRow(State(), k) && tickets[k].taskId == Some(task)
      modifies this`tickets, this`audit, this`history
      ensures Valid() && old(history) <= history
      ensures tickets == CancelledTickets(old(tickets), Elements(rows))
    {
      var i := 0;
      assert CancelledTickets(tickets, Elements(rows[..0])) == tickets;
      while i < |rows|
        invariant 0 <= i <= |rows|
        invariant Valid() && old(history) <= history
        invariant tickets == CancelledTickets(old(tickets), Elements(rows[..i]))
      {
        var id := rows[i];
        assert id in rows && id !in rows[..i];
        Update(id, CancelledRow(tickets[id]), CancelTicket(id, task));
        assert Elements(rows[..i + 1]) == Elements(rows[..i]) + {id};
        i := i + 1;
      }
      assert rows[..i] == rows;
    }

    // ------------------------------------------------------------- reaper

    /** Takes overdue leases away: back to open while attempts remain, else parked. */
    method ReapRows(rows: seq<TicketId>, now: Time)
      requires Valid() && Distinct(rows)
      requires forall k :: k in rows ==> ReapGuard(State(), k, now)
      modifies this`tickets, this`audit, this`history
      ensures Valid() && old(history) <= history
      ensures tickets == ReapSome(old(tickets), Elements(rows))
    {
      var i := 0;
      assert ReapSome(tickets, Elements(rows[..0])) == tickets;
      while i < |rows|
        invariant 0 <= i <= |rows|
        invariant Valid() && old(history) <= history
        invariant tickets == ReapSome(old(tickets), Elements(rows[..i]))
      {
        var id := rows[i];
        assert id in rows && id !in rows[..i];
        Update(id, ReapedRow(tickets[id]), Reap(id, now));
        assert Elements(rows[..i + 1]) == Elements(rows[..i]) + {id};
        i := i + 1;
      }
      assert rows[..i] == rows;
    }

    /** One pass of the reaper, from any state a crash may have left behind. */
    method ReapExpired(now: Time) returns (requeued: seq<TicketId>, parked: seq<TicketId>)
      requires Valid()
      modifies this`tickets, this`audit, this`tasks, this`taskLog, this`history
      ensures Valid() && old(history) <= history
      ensures forall k :: k in requeued <==>
                k in old(tickets) && Overdue(old(tickets)[k], now) && old(tickets)[k].attempts < old(tickets)[k].maxAttempts
      ensures forall k :: k in parked <==>
                k in old(tickets) && Overdue(old(tickets)[k], now) && old(tickets)[k].attempts >= old(tickets)[k].maxAttempts
      ensures ReaperPass(old(State()), now, State())
      ensures PassShown(old(State()), now, State())
      ensures forall id :: id in tickets && tickets[id].status == Open ==>
                exists a :: Reach(deps, id, a) && NotStuck(State(), a)
    {
      PassesAreShown(now);
      requeued, parked := ReapLeases(now);
      ghost var mid := State();
      SweepDead(parked);
      ghost var swept := State();
      HealMirrors(Elements(parked));
      ReaperRecovers(old(State()), now, mid, parked, swept, State());
      OpenMoves();
    }

    lemma PassesAreShown(now: Time)
      requires Valid()
      ensures forall db :: ReaperPass(State(), now, db) ==> PassShown(State(), now, db)
    {
      BaseInvariant();
      forall db | ReaperPass(State(), now, db)
        ensures PassShown(State(), now, db)
      {
        PassIsShown(routing, State(), now, db);
      }
    }

    lemma OpenMoves()
      requires Valid() && NothingStranded(State())
      ensures forall id :: id in tickets && tickets[id].status == Open ==>
                exists a :: Reach(deps, id, a) && NotStuck(State(), a)
    {
      BaseInvariant();
      forall id | id in tickets && tickets[id].status == Open
        ensures exists a :: Reach(deps, id, a) && NotStuck(State(), a)
      {
        SomethingCanMove(routing, State(), id);
      }
    }

    /** Cascades from the tickets just parked, then from every dead ticket that still has
        a live dependent, whoever left it so. */
    method SweepDead(parked: seq<TicketId>)
      requires Valid()
      requires forall k :: k in parked ==> k in tickets && Dead(tickets[k])
      modifies this`tickets, this`audit, this`tasks, this`taskLog, this`history
      ensures Valid() && old(history) <= history
      ensures PartlyFailed(old(State()), DeadTickets(old(State())), Doomed(old(State()), DeadTickets(old(State()))), State())
      ensures NothingStranded(State()) && TaskMoves(old(tasks), Elements(parked), State()) && TasksEnded(State(), parked)
    {
      CascadeEach(parked, true, Elements(parked));
      ghost var db1 := State();
      EachKeepsTickets(old(State()), Elements(parked), parked, db1);
      var stranded := Rows(set k | k in tickets && Strands(State(), k));
      CascadeEach(stranded, false, Elements(parked));
      ReaperPhases(old(State()), Elements(parked), parked, db1, stranded, State());
      EachKeepsEnded(db1, Elements(parked), stranded, State(), parked);
    }

    /** The two UPDATEs of the reaper. */
    method ReapLeases(now: Time) returns (requeued: seq<TicketId>, parked: seq<TicketId>)
      requires Valid()
      modifies this`tickets, this`audit, this`history
      ensures Valid() && old(history) <= history
      ensures LeasesReaped(old(tickets), now, requeued, parked, tickets)
      ensures tickets == ReapedTickets(old(State()), now) && Elements(parked) == ParkedNow(old(State()), now)
    {
      requeued := Rows(set k | k in tickets && ReapGuard(State(), k, now) && tickets[k].attempts < tickets[k].maxAttempts);
      ReapRows(requeued, now);
      StillOverdue(old(State()), now, requeued, State());
      parked := Rows(set k | k in tickets && ReapGuard(State(), k, now) && tickets[k].attempts >= tickets[k].maxAttempts);
      ReapRows(parked, now);
      ReapedBoth(old(State()), now, requeued, parked);
    }

    /** Mirrors again every done or failed ticket whose task has not ended. */
    method HealMirrors(ghost parked: set<TicketId>)
      requires Valid()
      modifies this`tasks, this`taskLog, this`history
      ensures Valid() && old(history) <= history
      ensures MirrorsSettled(State())
      ensures TaskMoves(old(tasks), parked, State())
    {
      var rows := Rows(set k | k in tickets && Desynced(State(), k));
      assert forall t: TaskId :: TaskMove(tasks, parked, State(), t);
      assert rows[0..] == rows;
      var i := 0;
      while i < |rows|
        invariant 0 <= i <= |rows|
        invariant Valid() && old(history) <= history
        invariant forall k :: Desynced(State(), k) ==> k in rows[i..]
        invariant forall k :: k in rows ==> k in tickets && tickets[k].taskId.Some? && tickets[k].status in {Done, Failed}
        invariant TaskMoves(old(tasks), parked, State())
      {
        var id := rows[i];
        assert id in rows && rows[i..] == [id] + rows[i + 1..];
        ghost var db := State();
        HealOne(old(tasks), parked, db, id);
        MirrorTaskState(tickets[id].taskId.value, if tickets[id].status == Done then COMPLETE else FAILED);
        i := i + 1;
        forall k | Desynced(State(), k)
          ensures k in rows[i..]
        {
          assert Desynced(db, k) && k != id;
        }
      }
    }

    /** Whether some dependency has no parent that is done: the claim gate, negated. */
    method IsBlocked(id: TicketId) returns (blocked: bool)
      requires Valid()
      ensures blocked <==> exists parent :: (id, parent) in deps && !(parent in tickets && tickets[parent].status == Done)
      ensures blocked <==> !DepsDone(State(), id)
    {
      blocked := exists d :: d in deps && d.0 == id && !(d.1 in tickets && tickets[d.1].status == Done);
      assert forall d :: d in deps ==> d == (d.0, d.1);
    }
  }

  lemma ClaimIsTaking(db: Db, id: TicketId, lease: Lease)
    requires id in db.tickets
    ensures Taken(db, id, lease, SetRow(db, id, Open, ClaimedRow(db.tickets[id], lease)))
  {
  }

  lemma CreateDoes(routing: Routing, db: Db, task: TaskId)
    requires task !in db.tasks
    ensures Do(routing, db, CreateTask(task)) == db.(tasks := db.tasks[task := CREATED])
  {
  }

  predicate IsGrant(g: Grant, t: Ticket) {
    && t.status == Claimed && t.lease.Some?
    && g.payloadRef == t.payloadRef && g.privacyClass == t.privacyClass
    && g.token == t.lease.value.token && g.expires == t.lease.value.expires && g.attempts == t.attempts
  }

  function ReviewRefusal(db: Db, reviewer: Option<Tier>, id: TicketId, verdict: Status): Result<Status> {
    if reviewer != Some(LOCAL_ONLY) then Err(ReviewerNotAuthorized)
    else if id !in db.tickets then Err(UnknownTicket)
    else if db.tickets[id].status != InReview then Err(NotInReview)
    else Ok(verdict)
  }

  function RejectTarget(db: Db, id: TicketId): Status {
    if id in db.tickets && db.tickets[id].attempts < db.tickets[id].maxAttempts then Open else Failed
  }

  /** The answer of `link`, the cycle refusal stated as what it is for: with the edge
      the dependencies would have a cycle. */
  ghost function LinkAnswer(routing: Routing, db: Db, child: TicketId, parent: TicketId): Result<()> {
    if child !in db.tickets || parent !in db.tickets then Err(UnknownTicket)
    else if child == parent then Err(SelfDependency)
    else if db.tickets[child].status in {Claimed, InReview} then Err(ChildNotLinkable)
    else if !(TiersOf(routing, db.tickets[child].privacyClass) <= TiersOf(routing, db.tickets[parent].privacyClass))
      then Err(PrivacyDowngrade(parent))
    else if !Acyclic(db.deps + {(child, parent)}) then Err(DependencyCycle)
    else Ok(())
  }

  function Ids(claimed: seq<Grant>): seq<TicketId> {
    seq(|claimed|, i requires 0 <= i < |claimed| => claimed[i].ticket)
  }

  /** `db` is `db0` with exactly these tickets handed to the worker, in this order. */
  ghost predicate Handed(db0: Db, identity: Identity, tier: Option<Tier>, expires: Time, claimed: seq<Grant>, db: Db) {
    && (claimed != [] ==> tier.Some?)
    && db.deps == db0.deps && db.tasks == db0.tasks && db.taskLog == db0.taskLog
    && db.tickets.Keys == db0.tickets.Keys
    && (forall k :: k in db0.tickets && k !in Ids(claimed) ==> db.tickets[k] == db0.tickets[k])
    && (forall i :: 0 <= i < |claimed| ==>
          && claimed[i].ticket in db0.tickets
          && (var t := db0.tickets[claimed[i].ticket];
              db.tickets[claimed[i].ticket] ==
                t.(status := Claimed, attempts := t.attempts + 1, lease := Some(Lease(identity, tier.value, claimed[i].token, expires))))
          && IsGrant(claimed[i], db.tickets[claimed[i].ticket]))
    && db.audit == db0.audit + seq(|claimed|, i requires 0 <= i < |claimed| => AuditRow(claimed[i].ticket, Open, Claimed))
  }

  lemma HandOneMore(db0: Db, identity: Identity, tier: Option<Tier>, expires: Time, claimed: seq<Grant>, db: Db, g: Grant, db': Db)
    requires Handed(db0, identity, tier, expires, claimed, db)
    requires g.ticket in db.tickets && g.ticket !in Ids(claimed) && tier.Some?
    requires db' == SetRow(db, g.ticket, Open, ClaimedRow(db.tickets[g.ticket], Lease(identity, tier.value, g.token, expires)))
    requires IsGrant(g, db'.tickets[g.ticket])
    ensures Handed(db0, identity, tier, expires, claimed + [g], db')
  {
    var more := claimed + [g];
    assert Ids(more) == Ids(claimed) + [g.ticket];
    forall i | 0 <= i < |claimed|
      ensures more[i].ticket != g.ticket
    {
      assert Ids(claimed)[i] in Ids(claimed);
    }
  }

  ghost predicate IsDb(x: Db, db: Db) {
    x == db
  }

  /** Where a batch claim stands. (Said of any equal store, so that it is looked into only
      by name.) */
  ghost predicate Handing(routing: Routing, db0: Db, identity: Identity, tier: Option<Tier>, caps: set<string>, expires: Time,
                          claimed: seq<Grant>, db: Db) {
    forall x :: IsDb(x, db) ==> Handed(db0, identity, tier, expires, claimed, x) && BatchSoFar(routing, db0, tier, caps, Ids(claimed), x)
  }

  lemma HandingStarts(routing: Routing, db: Db, identity: Identity, tier: Option<Tier>, caps: set<string>, expires: Time)
    ensures Handing(routing, db, identity, tier, caps, expires, [], db)
  {
  }

  lemma EligibleAreListed(routing: Routing, db: Db, tier: Option<Tier>, caps: set<string>, admissible: set<PrivacyClass>, rows: seq<TicketId>)
    requires admissible == AdmissibleClasses(routing, tier)
    requires forall k :: k in rows <==> k in db.tickets && db.tickets[k].status == Open && db.tickets[k].privacyClass in admissible
    ensures forall k :: Eligible(routing, db, tier, caps, k) ==> k in rows
  {
  }

  lemma NothingForTier(routing: Routing, db: Db, tier: Option<Tier>, caps: set<string>)
    requires AdmissibleClasses(routing, tier) == {}
    ensures NoneEligible(routing, db, tier, caps)
  {
  }

  lemma GrantOneMore(routing: Routing, db0: Db, identity: Identity, tier: Option<Tier>, caps: set<string>, expires: Time,
                     claimed: seq<Grant>, db: Db, g: Grant, db': Db)
    requires Handing(routing, db0, identity, tier, caps, expires, claimed, db)
    requires FirstEligible(routing, db, tier, caps, g.ticket)
    requires db' == SetRow(db, g.ticket, Open, ClaimedRow(db.tickets[g.ticket], Lease(identity, tier.value, g.token, expires)))
    requires IsGrant(g, db'.tickets[g.ticket])
    ensures Handing(routing, db0, identity, tier, caps, expires, claimed + [g], db')
  {
    assert IsDb(db, db);
    HandOneMore(db0, identity, tier, expires, claimed, db, g, db');
    BatchGrows(routing, db0, tier, caps, Ids(claimed), db, g.ticket, Lease(identity, tier.value, g.token, expires));
    assert Ids(claimed + [g]) == Ids(claimed) + [g.ticket];
  }

  lemma HandingEnds(routing: Routing, db0: Db, identity: Identity, tier: Option<Tier>, caps: set<string>, expires: Time,
                    max: int, claimed: seq<Grant>, db: Db)
    requires Handing(routing, db0, identity, tier, caps, expires, claimed, db)
    requires |claimed| <= BatchSize(max)
    requires |claimed| < BatchSize(max) ==> NoneEligible(routing, db, tier, caps)
    ensures Handed(db0, identity, tier, expires, claimed, db)
    ensures IsBatch(routing, db0, tier, caps, max, Ids(claimed))
    ensures RightfulBatch(routing, db0, tier, caps, max, Ids(claimed))
  {
    assert IsDb(db, db);
    BatchDone(routing, db0, tier, caps, max, Ids(claimed), db);
    BatchIsRightful(routing, db0, tier, caps, max, Ids(claimed));
  }

  function CancelledTickets(tickets: map<TicketId, Ticket>, ids: set<TicketId>): map<TicketId, Ticket> {
    map k | k in tickets :: if k in ids then CancelledRow(tickets[k]) else tickets[k]
  }

  lemma CancelEnds(db: Db, task: TaskId, cancelled: seq<TicketId>, mid: Db, db': Db)
    requires forall k :: k in cancelled <==> LiveRow(db, k) && db.tickets[k].taskId == Some(task)
    requires mid.tickets == CancelledTickets(db.tickets, Elements(cancelled)) && mid.deps == db.deps && mid.tasks == db.tasks
    requires EachSoFar(mid, {}, cancelled, |cancelled|, Doomed(mid, Elements(cancelled)), db')
    requires db'.tasks == CascadedTasks(mid, Doomed(mid, Elements(cancelled)))
    ensures CancelShown(db, task, cancelled, db') && TaskMoves(db.tasks, {}, db')
    ensures db'.tickets == CascadedTickets(mid.tickets, Doomed(db.(tickets := mid.tickets), Elements(cancelled)))
  {
    assert cancelled[..|cancelled|] == cancelled;
    SameTicketsSameDoom(mid, db.(tickets := mid.tickets), Elements(cancelled));
    CancelIsShown(db, task, cancelled, mid, db');
  }

  function ReapSome(tickets: map<TicketId, Ticket>, ids: set<TicketId>): map<TicketId, Ticket> {
    map k | k in tickets :: if k in ids then ReapedRow(tickets[k]) else tickets[k]
  }

  /** Requeueing some of the overdue tickets leaves the others overdue, and only those. */
  lemma StillOverdue(db: Db, now: Time, rows: seq<TicketId>, db': Db)
    requires forall k :: k in rows ==> ReapGuard(db, k, now) && db.tickets[k].attempts < db.tickets[k].maxAttempts
    requires db'.tickets == ReapSome(db.tickets, Elements(rows))
    ensures forall k :: k in db'.tickets && ReapGuard(db', k, now) && db'.tickets[k].attempts >= db'.tickets[k].maxAttempts <==>
                        k in db.tickets && ReapGuard(db, k, now) && db.tickets[k].attempts >= db.tickets[k].maxAttempts
  {
  }

  lemma ReapedBoth(db: Db, now: Time, requeued: seq<TicketId>, parked: seq<TicketId>)
    requires forall k :: k in requeued <==> k in db.tickets && ReapGuard(db, k, now) && db.tickets[k].attempts < db.tickets[k].maxAttempts
    requires forall k :: k in parked <==> k in db.tickets && ReapGuard(db, k, now) && db.tickets[k].attempts >= db.tickets[k].maxAttempts
    ensures ReapSome(ReapSome(db.tickets, Elements(requeued)), Elements(parked)) == ReapedTickets(db, now)
    ensures LeasesReaped(db.tickets, now, requeued, parked, ReapedTickets(db, now))
    ensures Elements(parked) == ParkedNow(db, now)
  {
  }

  /** One mirror of the healing loop. */
  lemma HealOne(tasks0: map<TaskId, TaskState>, parked: set<TicketId>, db: Db, k: TicketId)
    requires TaskMoves(tasks0, parked, db)
    requires k in db.tickets && db.tickets[k].taskId.Some? && db.tickets[k].status in {Done, Failed}
    ensures var db' := Mirror(db, db.tickets[k].taskId.value, if db.tickets[k].status == Done then COMPLETE else FAILED);
            && db'.tickets == db.tickets && db'.deps == db.deps && db'.audit == db.audit
            && TaskMoves(tasks0, parked, db')
            && !Desynced(db', k)
            && forall j :: Desynced(db', j) ==> Desynced(db, j)
  {
    var dst := if db.tickets[k].status == Done then COMPLETE else FAILED;
    var task := db.tickets[k].taskId.value;
    MirrorEffect(db, task, dst);
    MirrorMovesTasks(db, parked, k, task, dst);
    TaskMovesTrans(tasks0, parked, db, Mirror(db, task, dst));
  }
}
