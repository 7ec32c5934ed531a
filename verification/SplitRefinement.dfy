/** The atomic queue is the split queue run by one process at a time: every history of
    atomic commits is the store of some run. So whatever holds of all runs of the split
    system holds of all histories, and of every state the work queue object can be in. */
module SplitRefinement {
  import opened Options
  import opened Privacy
  import opened TicketStore
  import opened SplitSteps
  import opened SplitRuns

  /** No two claims of the history mint the same token. */
  ghost predicate TokensDistinct(history: seq<Commit>) {
    forall i, j :: 0 <= i < j < |history| && history[i].Claim? && history[j].Claim? ==> history[i].token != history[j].token
  }

  ghost predicate Idle(w: World) {
    w.pending == map[]
  }

  /** What one atomic commit must become: a stretch of a run that ends idle in the same store. */
  ghost predicate Simulates(routing: Routing, w: World, c: Commit, w': World) {
    && Reachable(routing, w') && Idle(w')
    && w'.db == Do(routing, w.db, c)
    && w'.minted <= w.minted + (if c.Claim? then {c.token} else {})
  }

  lemma One(routing: Routing, w: World, s: Step) returns (w': World)
    requires Reachable(routing, w) && TokenFresh(w, s)
    ensures w' == Exec(routing, w, s) && Reachable(routing, w')
  {
    w' := Exec(routing, w, s);
    StepReachable(routing, w, s);
  }

  lemma SimulateInsert(routing: Routing, w: World, c: Commit) returns (w': World)
    requires Reachable(routing, w) && Idle(w) && c.Insert? && Enabled(routing, w.db, c)
    ensures Simulates(routing, w, c, w')
  {
    var w1 := One(routing, w, AddRead(0, c.id, c.spec, c.parents, c.now));
    assert w1.db == w.db && w1.pending[0] == Adding(c.id, c.spec, c.parents, c.now);
    w' := One(routing, w1, AddWrite(0));
    assert w1.pending - {0} == map[];
  }

  lemma SimulateReport(routing: Routing, w: World, c: Commit) returns (w': World)
    requires Reachable(routing, w) && Idle(w) && c.Report? && Enabled(routing, w.db, c)
    ensures Simulates(routing, w, c, w')
  {
    var t := w.db.tickets[c.id];
    var w1 := One(routing, w, ReportRead(0, c.id, c.identity, c.tier, c.token, c.completed, c.now));
    assert w1.db == w.db && w1.pending[0] ==
      Reporting(c.id, c.identity, c.tier, c.token, c.completed, c.now, t.lease.value.tier, t.attempts, t.maxAttempts);
    w' := One(routing, w1, ReportWrite(0));
    assert w1.pending - {0} == map[];
  }

  lemma SimulateReject(routing: Routing, w: World, c: Commit) returns (w': World)
    requires Reachable(routing, w) && Idle(w) && c.Reject? && Enabled(routing, w.db, c)
    ensures Simulates(routing, w, c, w')
  {
    var t := w.db.tickets[c.id];
    var w1 := One(routing, w, RejectRead(0, c.id, c.reviewer));
    assert w1.db == w.db && w1.pending[0] == Rejecting(c.id, t.attempts, t.maxAttempts);
    w' := One(routing, w1, RejectWrite(0));
    assert w1.pending - {0} == map[];
  }

  lemma SimulateLink(routing: Routing, w: World, c: Commit) returns (w': World)
    requires Reachable(routing, w) && Idle(w) && c.Link? && Enabled(routing, w.db, c)
    ensures Simulates(routing, w, c, w')
  {
    var w1 := One(routing, w, LinkRead(0, c.child, c.parent));
    assert w1.db == w.db && w1.pending[0] == Linking(c.child, c.parent);
    w' := One(routing, w1, LinkWrite(0));
    assert w1.pending - {0} == map[];
  }

  lemma AboutToCancel(routing: Routing, w: World, c: Commit) returns (w': World)
    requires Reachable(routing, w) && Idle(w) && c.CancelTicket? && Enabled(routing, w.db, c)
    ensures Reachable(routing, w') && w'.db == w.db && w'.minted == w.minted
    ensures w'.pending.Keys == {0} && w'.pending[0].Cancelling?
    ensures c.id in w'.pending[0].todo && w'.pending[0].todo[c.id] == w.db.tickets[c.id].status
  {
    w' := One(routing, w, CancelRead(0, c.task));
  }

  lemma SimulateCancel(routing: Routing, w: World, c: Commit) returns (w': World)
    requires Reachable(routing, w) && Idle(w) && c.CancelTicket? && Enabled(routing, w.db, c)
    ensures Simulates(routing, w, c, w')
  {
    var w1 := AboutToCancel(routing, w, c);
    var w2 := One(routing, w1, CancelWrite(0, c.id));
    assert w2.db == SetRow(w.db, c.id, w.db.tickets[c.id].status, CancelledRow(w.db.tickets[c.id]));
    assert w2.minted == w.minted && w2.pending.Keys == {0};
    w' := Abandon(routing, w2);
  }

  lemma AboutToCascade(routing: Routing, w: World, c: Commit) returns (w': World)
    requires Reachable(routing, w) && Idle(w) && c.CascadeTo? && Enabled(routing, w.db, c)
    ensures Reachable(routing, w') && w'.db == w.db && w'.minted == w.minted
    ensures w'.pending == map[0 := Cascading({c.cause}, Some(Hit(c.child, c.cause, w.db.tickets[c.child].status)))]
  {
    var w1 := One(routing, w, CascadeStart(0, c.cause));
    assert w1 == w.(pending := map[0 := Cascading({c.cause}, None)]);
    w' := One(routing, w1, CascadeRead(0, c.child, c.cause));
  }

  lemma SimulateCascade(routing: Routing, w: World, c: Commit) returns (w': World)
    requires Reachable(routing, w) && Idle(w) && c.CascadeTo? && Enabled(routing, w.db, c)
    ensures Simulates(routing, w, c, w')
  {
    var w2 := AboutToCascade(routing, w, c);
    var w3 := FailChild(routing, w2, c.child);
    w' := Abandon(routing, w3);
  }

  lemma FailChild(routing: Routing, w: World, child: TicketId) returns (w': World)
    requires Reachable(routing, w) && LiveRow(w.db, child) && w.pending.Keys == {0}
    requires w.pending[0].Cascading? && w.pending[0].next.Some?
    requires w.pending[0].next.value.child == child && w.pending[0].next.value.status == w.db.tickets[child].status
    ensures Reachable(routing, w') && w'.pending.Keys == {0} && w'.minted == w.minted
    ensures w'.db == SetRow(w.db, child, w.db.tickets[child].status, CascadedRow(w.db.tickets[child]))
  {
    w' := One(routing, w, CascadeWrite(0));
  }

  /** The one process at work stops. */
  lemma Abandon(routing: Routing, w: World) returns (w': World)
    requires Reachable(routing, w) && w.pending.Keys == {0}
    ensures Reachable(routing, w') && Idle(w') && w'.db == w.db && w'.minted == w.minted
  {
    w' := One(routing, w, Crash(0));
    assert w.pending - {0} == map[];
  }

  lemma SimulateCommit(routing: Routing, w: World, c: Commit) returns (w': World)
    requires Reachable(routing, w) && Idle(w) && (c.Claim? ==> c.token !in w.minted)
    ensures Simulates(routing, w, c, w')
  {
    if !Enabled(routing, w.db, c) {
      w' := w;
    } else {
      match c {
        case Insert(_, _, _, _) => w' := SimulateInsert(routing, w, c);
        case Report(_, _, _, _, _, _) => w' := SimulateReport(routing, w, c);
        case Reject(_, _) => w' := SimulateReject(routing, w, c);
        case Link(_, _) => w' := SimulateLink(routing, w, c);
        case CancelTicket(_, _) => w' := SimulateCancel(routing, w, c);
        case CascadeTo(_, _) => w' := SimulateCascade(routing, w, c);
        case _ => w' := One(routing, w, Direct(c));
      }
    }
  }

  ghost function TokensOf(history: seq<Commit>): set<Token> {
    set i | 0 <= i < |history| && history[i].Claim? :: history[i].token
  }

  /** Every history of atomic commits is the store of a run of the split system. */
  lemma {:induction false} HistoryIsARun(routing: Routing, history: seq<Commit>) returns (w: World)
    requires TokensDistinct(history)
    ensures Reachable(routing, w) && Idle(w)
    ensures w.db == After(routing, history)
    ensures w.minted <= TokensOf(history)
  {
    if history == [] {
      w := START;
      StartReachable(routing);
    } else {
      var c := history[|history| - 1];
      var before := history[..|history| - 1];
      var v := HistoryIsARun(routing, before);
      w := SimulateCommit(routing, v, c);
      assert TokensOf(before) <= TokensOf(history) by {
        forall t | t in TokensOf(before)
          ensures t in TokensOf(history)
        {
          var i :| 0 <= i < |before| && before[i].Claim? && before[i].token == t;
          assert history[i].Claim? && history[i].token == t;
        }
      }
      assert c.Claim? ==> c.token in TokensOf(history);
    }
  }
}
