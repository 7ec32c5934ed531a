/** No deadlock: in any store the reaper leaves, work that waits waits for something. */
module Progress {
  import opened Options
  import opened Privacy
  import opened DependencyGraph
  import opened TicketStore
  import opened QueueInvariants
  import opened QueueHistories
  import opened Reaping

  /** Ready to be claimed, in a worker's hands, under review, or held by policy. */
  ghost predicate NotStuck(db: Db, a: TicketId) {
    && a in db.tickets
    && (|| (db.tickets[a].status == Open && DepsDone(db, a))
        || InFlight(db.tickets[a].status)
        || (db.tickets[a].status == Parked &&
            (db.tickets[a].parkReason == Some(SecretNotPullable) || db.tickets[a].parkReason == Some(RedactionRequired))))
  }

  ghost function Ancestors(db: Db, id: TicketId): set<TicketId> {
    set a | a in db.tickets && ReachProper(db.deps, id, a)
  }

  lemma FewerAncestors(routing: Routing, db: Db, id: TicketId, parent: TicketId)
    requires EdgesOk(routing, db) && (id, parent) in db.deps
    ensures Ancestors(db, parent) < Ancestors(db, id)
  {
    ReachRefl(db.deps, parent);
    assert ReachProper(db.deps, id, parent);
    forall a | a in Ancestors(db, parent)
      ensures a in Ancestors(db, id)
    {
      var z :| (parent, z) in db.deps && Reach(db.deps, z, a);
      ReachStep(db.deps, parent, z, a);
      assert ReachProper(db.deps, id, a);
    }
    assert parent in Ancestors(db, id) && parent !in Ancestors(db, parent);
  }

  /** If a ticket is open and nothing live depends on anything dead, then the ticket or
      one of its transitive dependencies is ready, in flight, or held by policy. The
      descent is well-founded because the graph is acyclic and nothing dangles. */
  lemma {:induction false} SomethingCanMove(routing: Routing, db: Db, id: TicketId)
    requires Inv(routing, db) && NothingStranded(db)
    requires id in db.tickets && db.tickets[id].status == Open
    ensures exists a :: Reach(db.deps, id, a) && NotStuck(db, a)
    decreases |Ancestors(db, id)|
  {
    ReachRefl(db.deps, id);
    if !DepsDone(db, id) {
      var e :| e in db.deps && e.0 == id && !(e.1 in db.tickets && db.tickets[e.1].status == Done);
      var parent := e.1;
      assert (id, parent) in db.deps && parent in db.tickets;
      assert !Dead(db.tickets[parent]);
      ReachRefl(db.deps, parent);
      ReachStep(db.deps, id, parent, parent);
      if db.tickets[parent].status == Open {
        FewerAncestors(routing, db, id, parent);
        Smaller(Ancestors(db, parent), Ancestors(db, id));
        SomethingCanMove(routing, db, parent);
        var a :| Reach(db.deps, parent, a) && NotStuck(db, a);
        ReachStep(db.deps, id, parent, a);
      } else {
        assert RowOk(routing, db.tickets[parent]);
        assert NotStuck(db, parent);
      }
    } else {
      assert NotStuck(db, id);
    }
  }

  /** An open ticket can be claimed by some tier if and only if its dependencies are done
      and its task was not cancelled behind the queue's back. */
  lemma OpenIsClaimableIff(routing: Routing, db: Db, id: TicketId)
    requires Inv(routing, db) && id in db.tickets && db.tickets[id].status == Open
    ensures (exists tier :: ClaimGuard(routing, db, id, tier)) <==> DepsDone(db, id) && !LinkedTaskCancelled(db, db.tickets[id])
  {
    assert RowOk(routing, db.tickets[id]);
    var tiers := AllowedTiers(routing, db.tickets[id].privacyClass);
    assert tiers[0] in tiers;
    assert DepsDone(db, id) && !LinkedTaskCancelled(db, db.tickets[id]) ==> ClaimGuard(routing, db, id, Some(tiers[0]));
  }

  /** The commit is a cancel of the ticket or a cascade to it, and goes through. */
  ghost predicate Ends(routing: Routing, db: Db, c: Commit, id: TicketId) {
    Enabled(routing, db, c) && ((c.CancelTicket? && c.id == id) || (c.CascadeTo? && c.child == id))
  }

  /** An open ticket whose task is cancelled: a commit changes it if and only if it ends it. */
  lemma TicketOfCancelledTaskWaits(routing: Routing, db: Db, c: Commit, id: TicketId)
    requires Inv(routing, db)
    requires id in db.tickets && db.tickets[id].status == Open && LinkedTaskCancelled(db, db.tickets[id])
    ensures id in Do(routing, db, c).tickets
    ensures Do(routing, db, c).tickets[id] == db.tickets[id] <==> !Ends(routing, db, c, id)
    ensures Ends(routing, db, c, id) ==> Terminal(Do(routing, db, c).tickets[id].status)
    ensures Do(routing, db, c).tickets[id] == db.tickets[id] ==> LinkedTaskCancelled(Do(routing, db, c), db.tickets[id])
  {
    TerminalTaskIsFinal(routing, db, c, db.tickets[id].taskId.value);
    if Enabled(routing, db, c) && RowOf(c) == Some(id) {
      OnlyEndsMoveIt(routing, db, c, id);
    } else {
      OthersLeaveIt(routing, db, c, id);
    }
  }

  lemma OthersLeaveIt(routing: Routing, db: Db, c: Commit, id: TicketId)
    requires Inv(routing, db) && id in db.tickets && !(Enabled(routing, db, c) && RowOf(c) == Some(id))
    ensures id in Do(routing, db, c).tickets && Do(routing, db, c).tickets[id] == db.tickets[id]
    ensures !Ends(routing, db, c, id)
  {
    CommitEffect(routing, db, c);
  }

  lemma OnlyEndsMoveIt(routing: Routing, db: Db, c: Commit, id: TicketId)
    requires Enabled(routing, db, c) && RowOf(c) == Some(id)
    requires id in db.tickets && db.tickets[id].status == Open && LinkedTaskCancelled(db, db.tickets[id])
    ensures Ends(routing, db, c, id)
    ensures id in Do(routing, db, c).tickets && Terminal(Do(routing, db, c).tickets[id].status)
  {
  }

  /** No commit from point i up to point n ended the ticket. */
  ghost predicate NeverEnded(routing: Routing, history: seq<Commit>, i: nat, n: nat, id: TicketId)
    requires i <= n <= |history|
    decreases n
  {
    i == n || (NeverEnded(routing, history, i, n - 1, id) && !Ends(routing, After(routing, history[..n - 1]), history[n - 1], id))
  }

  /** The one way a ready ticket can still wait for ever. Over whole histories: an open
      ticket whose task was cancelled is as it was, and no tier can claim it, if and only
      if no cancel of it and no cascade to it has been committed since; no claim, no
      reaper and nothing else moves it. */
  lemma {:induction false} TicketWaitsIff(routing: Routing, history: seq<Commit>, i: nat, n: nat, id: TicketId)
    requires i <= n <= |history| && id in After(routing, history[..i]).tickets
    requires var db := After(routing, history[..i]);
             db.tickets[id].status == Open && LinkedTaskCancelled(db, db.tickets[id])
    ensures Waits(routing, After(routing, history[..i]), After(routing, history[..n]), id, NeverEnded(routing, history, i, n, id))
    decreases n
  {
    if i < n {
      TicketWaitsIff(routing, history, i, n - 1, id);
      WaitsLonger(routing, After(routing, history[..i]), history, n - 1, id, NeverEnded(routing, history, i, n - 1, id));
    }
  }

  lemma WaitsLonger(routing: Routing, start: Db, history: seq<Commit>, n: nat, id: TicketId, untouched: bool)
    requires n < |history| && Waits(routing, start, After(routing, history[..n]), id, untouched) && start.tickets[id].status == Open
    ensures Waits(routing, start, After(routing, history[..n + 1]), id, untouched && !Ends(routing, After(routing, history[..n]), history[n], id))
  {
    HistoryStep(routing, history, n);
    WaitsOn(routing, start, After(routing, history[..n]), id, untouched, history[n]);
  }

  /** Untouched, the ticket is as it was in `start` and unclaimable; otherwise it has ended. */
  ghost predicate Waits(routing: Routing, start: Db, db: Db, id: TicketId, untouched: bool) {
    && id in start.tickets && id in db.tickets
    && (db.tickets[id] == start.tickets[id] <==> untouched)
    && (untouched ==> LinkedTaskCancelled(db, db.tickets[id]) && forall tier :: !ClaimGuard(routing, db, id, tier))
    && (!untouched ==> Terminal(db.tickets[id].status))
  }

  lemma WaitsOn(routing: Routing, start: Db, db: Db, id: TicketId, untouched: bool, c: Commit)
    requires Inv(routing, db) && Waits(routing, start, db, id, untouched) && start.tickets[id].status == Open
    ensures Waits(routing, start, Do(routing, db, c), id, untouched && !Ends(routing, db, c, id))
  {
    if untouched {
      TicketOfCancelledTaskWaits(routing, db, c, id);
    } else {
      TicketStep(routing, db, c, id);
    }
  }
}
