/** Whole runs of the split system, ticket by ticket: what of the audit and of the claim
    budget survives stale readings, and the exact condition under which it does. */
module SplitHistories {
  import opened Options
  import opened Privacy
  import opened TicketStore
  import opened QueueInvariants
  import opened QueueHistories
  import opened SplitSteps
  import opened SplitRuns

  // -------------------------------------------------------------- the audit

  /** A cancel or a cascade writes its audit row from a reading of the ticket that is out
      of date. */
  ghost predicate StaleAudit(routing: Routing, w: World, s: Step, id: TicketId) {
    && Ready(routing, w, s)
    && (|| (s.CancelWrite? && s.id == id && w.pending[s.p].todo[id] != w.db.tickets[id].status)
        || (s.CascadeWrite? && w.pending[s.p].next.value.child == id
            && w.pending[s.p].next.value.status != w.db.tickets[id].status))
  }

  /** What one step does to the audit rows of one ticket: unless its reading was stale, a
      row exactly for a status change, naming it; if it was, a row that leaves from a
      status the ticket does not have. */
  ghost predicate AuditStep(w: World, w': World, id: TicketId, stale: bool) {
    && id in w.db.tickets && id in w'.db.tickets
    && var src, dst := w.db.tickets[id].status, w'.db.tickets[id].status;
       var rows, rows' := RowsOf(w.db.audit, id), RowsOf(w'.db.audit, id);
       if stale then exists r :: rows' == rows + [r] && r.src != src
       else if src == dst then rows' == rows
       else rows' == rows + [AuditRow(id, src, dst)]
  }

  lemma DirectAudit(routing: Routing, w: World, c: Commit, id: TicketId)
    requires Inv(routing, w.db) && id in w.db.tickets && Ready(routing, w, Direct(c))
    ensures AuditStep(w, Exec(routing, w, Direct(c)), id, false)
  {
    CommitAudit(routing, w.db, c, id);
  }

  lemma SetRowAudit(db: Db, written: TicketId, src: Status, row: Ticket, id: TicketId)
    ensures RowsOf(SetRow(db, written, src, row).audit, id)
              == RowsOf(db.audit, id) + (if id == written then [AuditRow(id, src, row.status)] else [])
  {
    RowsOfSnoc(db.audit, AuditRow(written, src, row.status), id);
  }

  lemma ReportAudit(routing: Routing, w: World, s: Step, id: TicketId)
    requires id in w.db.tickets && (s.ReportWrite? || s.RejectWrite?) && Ready(routing, w, s)
    ensures AuditStep(w, Exec(routing, w, s), id, false)
  {
    var q := w.pending[s.p];
    var w' := Exec(routing, w, s);
    SetRowAudit(w.db, q.id, w.db.tickets[q.id].status, w'.db.tickets[q.id], id);
    assert w'.db.tickets[q.id].status != w.db.tickets[q.id].status;
  }

  lemma CascadeAudit(routing: Routing, w: World, s: Step, id: TicketId)
    requires id in w.db.tickets && s.CascadeWrite? && Ready(routing, w, s)
    ensures AuditStep(w, Exec(routing, w, s), id, StaleAudit(routing, w, s, id))
  {
    var hit := w.pending[s.p].next.value;
    SetRowAudit(w.db, hit.child, hit.status, CascadedRow(w.db.tickets[hit.child]), id);
  }

  lemma CancelAudit(routing: Routing, w: World, s: Step, id: TicketId)
    requires WInv(routing, w)
    requires id in w.db.tickets && s.CancelWrite? && Ready(routing, w, s)
    ensures AuditStep(w, Exec(routing, w, s), id, StaleAudit(routing, w, s, id))
  {
    assert PendingOk(routing, w, w.pending[s.p]);
    RowsOfSnoc(w.db.audit, AuditRow(s.id, w.pending[s.p].todo[s.id], Cancelled), id);
    CancelWriteEffect(routing, w, s);
  }

  lemma CancelWriteEffect(routing: Routing, w: World, s: Step)
    requires s.CancelWrite? && Ready(routing, w, s)
    ensures var db' := Exec(routing, w, s).db;
            && db'.audit == w.db.audit + [AuditRow(s.id, w.pending[s.p].todo[s.id], Cancelled)]
            && (forall k :: k in w.db.tickets && k != s.id ==> k in db'.tickets && db'.tickets[k] == w.db.tickets[k])
            && s.id in db'.tickets
            && db'.tickets[s.id].status == if Terminal(w.db.tickets[s.id].status) then w.db.tickets[s.id].status else Cancelled
  {
  }

  /** Steps that neither move a row nor write the audit. */
  lemma SilentAudit(routing: Routing, w: World, s: Step, id: TicketId)
    requires id in w.db.tickets && !s.Direct? && !s.ReportWrite? && !s.RejectWrite? && !s.CancelWrite? && !s.CascadeWrite?
    ensures AuditStep(w, Exec(routing, w, s), id, false)
  {
  }

  lemma StepAudit(routing: Routing, w: World, s: Step, id: TicketId)
    requires WInv(routing, w) && id in w.db.tickets
    ensures AuditStep(w, Exec(routing, w, s), id, StaleAudit(routing, w, s, id))
  {
    if s.Direct? && Ready(routing, w, s) {
      DirectAudit(routing, w, s.c, id);
    } else if s.CancelWrite? && Ready(routing, w, s) {
      CancelAudit(routing, w, s, id);
    } else {
      OtherStepAudit(routing, w, s, id);
    }
  }

  lemma OtherStepAudit(routing: Routing, w: World, s: Step, id: TicketId)
    requires id in w.db.tickets && (Ready(routing, w, s) ==> !s.Direct? && !s.CancelWrite?)
    ensures AuditStep(w, Exec(routing, w, s), id, StaleAudit(routing, w, s, id))
  {
    if !Ready(routing, w, s) {
      assert Exec(routing, w, s).db == w.db;
    } else if s.ReportWrite? || s.RejectWrite? {
      ReportAudit(routing, w, s, id);
    } else if s.CascadeWrite? {
      CascadeAudit(routing, w, s, id);
    } else {
      SilentAudit(routing, w, s, id);
    }
  }

  /** No audit row of a ticket precedes the ticket. */
  lemma {:induction false} RunAuditKnown(routing: Routing, ws: seq<World>, ss: seq<Step>, n: nat)
    requires IsRun(routing, ws, ss) && n < |ws|
    ensures AuditKnown(ws[n].db)
  {
    if n > 0 {
      RunAuditKnown(routing, ws, ss, n - 1);
      RunKeepsWInv(routing, ws, ss, n - 1);
      assert NextAt(routing, ws, ss, n - 1);
      StepKeepsKnown(routing, ws[n - 1], ss[n - 1]);
    }
  }

  lemma StepKeepsKnown(routing: Routing, w: World, s: Step)
    requires WInv(routing, w) && AuditKnown(w.db)
    ensures AuditKnown(Exec(routing, w, s).db)
  {
    if s.Direct? {
      CommitKeepsKnown(routing, w.db, s.c);
      assert Exec(routing, w, s).db == w.db || Exec(routing, w, s).db == Do(routing, w.db, s.c);
    } else {
      OtherStepKeepsKnown(routing, w, s);
    }
  }

  lemma OtherStepKeepsKnown(routing: Routing, w: World, s: Step)
    requires AuditKnown(w.db) && !s.Direct?
    ensures AuditKnown(Exec(routing, w, s).db)
  {
  }

  /** From step i on up to step n no audit row of the ticket was written from a stale reading. */
  ghost predicate AuditedFresh(routing: Routing, ws: seq<World>, ss: seq<Step>, i: nat, n: nat, id: TicketId)
    requires n < |ws| == |ss| + 1
  {
    forall k :: i < k < n ==> !StaleAudit(routing, ws[k], ss[k], id)
  }

  lemma AuditInRun(routing: Routing, ws: seq<World>, ss: seq<Step>, n: nat, id: TicketId)
    requires IsRun(routing, ws, ss) && n < |ss| && id in ws[n].db.tickets
    ensures AuditStep(ws[n], ws[n + 1], id, StaleAudit(routing, ws[n], ss[n], id))
  {
    RunKeepsWInv(routing, ws, ss, n);
    assert NextAt(routing, ws, ss, n);
    StepAudit(routing, ws[n], ss[n], id);
  }

  lemma InsertInRun(routing: Routing, ws: seq<World>, ss: seq<Step>, i: nat, id: TicketId)
    requires IsRun(routing, ws, ss) && i < |ss|
    requires id !in ws[i].db.tickets && id in ws[i + 1].db.tickets
    ensures RowsOf(ws[i + 1].db.audit, id) == []
  {
    RunAuditKnown(routing, ws, ss, i);
    assert NextAt(routing, ws, ss, i);
    InsertedUnaudited(routing, ws[i], ss[i], id);
  }

  lemma AuditedMore(routing: Routing, ws: seq<World>, ss: seq<Step>, i: nat, n: nat, id: TicketId)
    requires i < n < |ss| && |ws| == |ss| + 1
    ensures AuditedFresh(routing, ws, ss, i, n + 1, id) <==>
            (AuditedFresh(routing, ws, ss, i, n, id) && !StaleAudit(routing, ws[n], ss[n], id))
  {
  }

  /** The rows of the ticket either lead to its status or no longer lead anywhere. */
  ghost predicate Tracks(w: World, id: TicketId, start: Status) {
    && id in w.db.tickets
    && (ReplayStatus(start, RowsOf(w.db.audit, id)) == None || Replays(w.db, id, start))
  }

  lemma ReplayInRun(routing: Routing, ws: seq<World>, ss: seq<Step>, n: nat, id: TicketId, start: Status)
    requires IsRun(routing, ws, ss) && n < |ss| && Tracks(ws[n], id, start)
    ensures Tracks(ws[n + 1], id, start)
    ensures Replays(ws[n + 1].db, id, start) <==> Replays(ws[n].db, id, start) && !StaleAudit(routing, ws[n], ss[n], id)
  {
    AuditInRun(routing, ws, ss, n, id);
    ReplayStep(ws[n], ws[n + 1], id, start, StaleAudit(routing, ws[n], ss[n], id));
  }

  /** Audit replay over whole runs, with its exact condition: at every point of every run
      the audit rows of a ticket replay from its insert-time status to its stored status
      if and only if no cancel and no cascade has written one from a stale reading. So
      the first stale one breaks the chain, and nothing mends it. */
  lemma {:induction false} SplitAuditReplaysIff(routing: Routing, ws: seq<World>, ss: seq<Step>, i: nat, n: nat, id: TicketId)
    requires IsRun(routing, ws, ss) && i < n < |ws|
    requires id !in ws[i].db.tickets && id in ws[i + 1].db.tickets
    ensures Tracks(ws[n], id, ws[i + 1].db.tickets[id].status)
    ensures Replays(ws[n].db, id, ws[i + 1].db.tickets[id].status) <==> AuditedFresh(routing, ws, ss, i, n, id)
  {
    if n == i + 1 {
      InsertInRun(routing, ws, ss, i, id);
    } else {
      SplitAuditReplaysIff(routing, ws, ss, i, n - 1, id);
      ReplayInRun(routing, ws, ss, n - 1, id, ws[i + 1].db.tickets[id].status);
      AuditedMore(routing, ws, ss, i, n - 1, id);
    }
  }

  lemma InsertedUnaudited(routing: Routing, w: World, s: Step, id: TicketId)
    requires AuditKnown(w.db) && id !in w.db.tickets && id in Exec(routing, w, s).db.tickets
    ensures RowsOf(Exec(routing, w, s).db.audit, id) == []
  {
    if s.Direct? {
      OnlyInsertsAddRows(routing, w.db, s.c);
    } else {
      OnlyAddWriteAdds(routing, w, s, id);
    }
    NoRowsBeforeInsert(w.db.audit, id);
  }

  lemma ReplayStep(w: World, w': World, id: TicketId, start: Status, stale: bool)
    requires AuditStep(w, w', id, stale)
    requires Tracks(w, id, start)
    ensures ReplayStatus(start, RowsOf(w'.db.audit, id)) ==
              if stale || ReplayStatus(start, RowsOf(w.db.audit, id)) == None then None else Some(w'.db.tickets[id].status)
  {
    var rows := RowsOf(w.db.audit, id);
    if stale {
      var r :| RowsOf(w'.db.audit, id) == rows + [r] && r.src != w.db.tickets[id].status;
      ReplayStatusSnoc(start, rows, r);
    } else if w.db.tickets[id].status != w'.db.tickets[id].status {
      ReplayStatusSnoc(start, rows, AuditRow(id, w.db.tickets[id].status, w'.db.tickets[id].status));
    }
  }

  lemma {:induction false} FindInsert(routing: Routing, ws: seq<World>, ss: seq<Step>, n: nat, id: TicketId) returns (i: nat)
    requires IsRun(routing, ws, ss) && n < |ws| && id in ws[n].db.tickets
    ensures i < n && id !in ws[i].db.tickets && id in ws[i + 1].db.tickets
  {
    if id in ws[n - 1].db.tickets {
      i := FindInsert(routing, ws, ss, n - 1, id);
    } else {
      i := n - 1;
    }
  }

  /** So where a stale reading can be reached, a run with a broken audit chain can. */
  lemma StaleAuditBreaksChain(routing: Routing, w: World, s: Step, id: TicketId)
    returns (ws: seq<World>, ss: seq<Step>, i: nat)
    requires Reachable(routing, w) && StaleAudit(routing, w, s, id) && id in w.db.tickets
    ensures IsRun(routing, ws, ss) && i < |ss| && ws[|ss|] == Exec(routing, w, s)
    ensures id !in ws[i].db.tickets && id in ws[i + 1].db.tickets
    ensures !Replays(ws[|ss|].db, id, ws[i + 1].db.tickets[id].status)
  {
    var ws0, ss0 :| IsRun(routing, ws0, ss0) && ws0[|ss0|] == w;
    i := FindInsert(routing, ws0, ss0, |ss0|, id);
    ws, ss := ws0 + [Exec(routing, w, s)], ss0 + [s];
    RunGrows(routing, ws0, ss0, s);
    SplitAuditReplaysIff(routing, ws, ss, i, |ss|, id);
    assert StaleAudit(routing, ws[|ss0|], ss[|ss0|], id);
  }

  // -------------------------------------------------------- the claim budget

  ghost predicate ClaimsOn(routing: Routing, w: World, s: Step, id: TicketId) {
    s.Direct? && s.c.Claim? && s.c.id == id && Ready(routing, w, s)
  }

  /** What one step does to the row of one ticket: nothing, or a step of the real relation
      that leaves an attempt when it requeues, unless it is a stale requeue. */
  ghost predicate LifeStep(routing: Routing, ready: bool, t: Ticket, u: Ticket, stale: bool, claims: bool) {
    && (u == t || RowStep(routing, ready, t, u))
    && (if stale then t.status == InReview && u.status == Open && t.attempts >= t.maxAttempts else Timely(t, u))
    && (claims <==> t.status != Claimed && u.status == Claimed)
  }

  lemma DirectLife(routing: Routing, w: World, c: Commit, id: TicketId)
    requires Inv(routing, w.db) && id in w.db.tickets && Ready(routing, w, Direct(c))
    ensures id in Do(routing, w.db, c).tickets
    ensures LifeStep(routing, DepsDone(w.db, id), w.db.tickets[id], Do(routing, w.db, c).tickets[id], false, c.Claim? && c.id == id)
  {
    TicketStep(routing, w.db, c, id);
    OnlyOwnRow(routing, w.db, c, id);
    if RowOf(c) == Some(id) {
      CommitMoves(routing, w.db, c);
    }
  }

  lemma ReportRow(routing: Routing, w: World, s: Step, id: TicketId)
    requires s.ReportWrite? && id in w.db.tickets
    ensures id in Exec(routing, w, s).db.tickets
    ensures Exec(routing, w, s).db.tickets[id] ==
              if Ready(routing, w, s) && w.pending[s.p].id == id
              then ReportedRow(w.db.tickets[id], w.pending[s.p].completed,
                               ReportTarget(w.pending[s.p].completed, w.pending[s.p].tier, w.pending[s.p].leaseTier,
                                            w.pending[s.p].attempts, w.pending[s.p].maxAttempts))
              else w.db.tickets[id]
  {
  }

  lemma ReportLife(routing: Routing, w: World, s: Step, id: TicketId)
    requires WInv(routing, w) && TokenFresh(w, s) && id in w.db.tickets && s.ReportWrite?
    ensures id in Exec(routing, w, s).db.tickets
    ensures LifeStep(routing, DepsDone(w.db, id), w.db.tickets[id], Exec(routing, w, s).db.tickets[id], false, false)
  {
    ReportRow(routing, w, s, id);
    RowEvolvesAt(routing, w, s, id);
    if Ready(routing, w, s) && w.pending[s.p].id == id {
      assert PendingOk(routing, w, w.pending[s.p]);
    }
  }

  lemma RejectRow(routing: Routing, w: World, s: Step, id: TicketId)
    requires s.RejectWrite? && id in w.db.tickets
    ensures id in Exec(routing, w, s).db.tickets
    ensures Exec(routing, w, s).db.tickets[id] ==
              if Ready(routing, w, s) && w.pending[s.p].id == id
              then RejectedRow(w.db.tickets[id], w.pending[s.p].attempts < w.pending[s.p].maxAttempts)
              else w.db.tickets[id]
  {
  }

  lemma RejectLife(routing: Routing, w: World, s: Step, id: TicketId)
    requires WInv(routing, w) && TokenFresh(w, s) && id in w.db.tickets && s.RejectWrite?
    ensures id in Exec(routing, w, s).db.tickets
    ensures LifeStep(routing, DepsDone(w.db, id), w.db.tickets[id], Exec(routing, w, s).db.tickets[id], StaleRequeue(routing, w, s, id), false)
  {
    RejectRow(routing, w, s, id);
    RowEvolvesAt(routing, w, s, id);
    if Ready(routing, w, s) && w.pending[s.p].id == id {
      assert PendingOk(routing, w, w.pending[s.p]);
    }
  }

  /** Every other step leaves the row, or cancels or fails it. */
  lemma OtherLife(routing: Routing, w: World, s: Step, id: TicketId)
    requires WInv(routing, w) && TokenFresh(w, s) && id in w.db.tickets
    requires (Ready(routing, w, s) ==> !s.Direct?) && !s.ReportWrite? && !s.RejectWrite?
    ensures id in Exec(routing, w, s).db.tickets
    ensures LifeStep(routing, DepsDone(w.db, id), w.db.tickets[id], Exec(routing, w, s).db.tickets[id], false, false)
  {
    RowEvolvesAt(routing, w, s, id);
    OtherRow(routing, w, s, id);
  }

  lemma OtherRow(routing: Routing, w: World, s: Step, id: TicketId)
    requires id in w.db.tickets
    requires (Ready(routing, w, s) ==> !s.Direct?) && !s.ReportWrite? && !s.RejectWrite?
    ensures id in Exec(routing, w, s).db.tickets
    ensures var u := Exec(routing, w, s).db.tickets[id];
            u == w.db.tickets[id] || u.status == Cancelled || u.status == Failed
  {
  }

  lemma StepLife(routing: Routing, w: World, s: Step, id: TicketId)
    requires WInv(routing, w) && TokenFresh(w, s) && id in w.db.tickets
    ensures id in Exec(routing, w, s).db.tickets
    ensures LifeStep(routing, DepsDone(w.db, id), w.db.tickets[id], Exec(routing, w, s).db.tickets[id],
                     StaleRequeue(routing, w, s, id), ClaimsOn(routing, w, s, id))
  {
    if s.Direct? && Ready(routing, w, s) {
      DirectLife(routing, w, s.c, id);
    } else if s.ReportWrite? {
      ReportLife(routing, w, s, id);
    } else if s.RejectWrite? {
      RejectLife(routing, w, s, id);
    } else {
      OtherLife(routing, w, s, id);
    }
  }

  lemma LifeInRun(routing: Routing, ws: seq<World>, ss: seq<Step>, n: nat, id: TicketId)
    requires IsRun(routing, ws, ss) && n < |ss| && id in ws[n].db.tickets
    ensures id in ws[n + 1].db.tickets
    ensures LifeStep(routing, DepsDone(ws[n].db, id), ws[n].db.tickets[id], ws[n + 1].db.tickets[id],
                     StaleRequeue(routing, ws[n], ss[n], id), ClaimsOn(routing, ws[n], ss[n], id))
  {
    RunKeepsWInv(routing, ws, ss, n);
    assert NextAt(routing, ws, ss, n);
    StepLife(routing, ws[n], ss[n], id);
  }

  /** A step within the budget stays within it exactly unless it is a stale requeue. */
  lemma LifeStepBudget(routing: Routing, ready: bool, t: Ticket, u: Ticket, stale: bool, claims: bool)
    requires LifeStep(routing, ready, t, u, stale, claims)
    ensures Budget(u) == Budget(t) && u.attempts == t.attempts + (if claims then 1 else 0)
    ensures AttemptsOk(t) ==> (AttemptsOk(u) <==> !stale)
    ensures AttemptsOk(t) && !stale ==> Measure(u) + (if u.status == t.status then 0 else 1) <= Measure(t)
  {
    if u != t && AttemptsOk(t) && !stale {
      StepKeepsAttempts(routing, ready, t, u);
    }
  }

  /** The claims of the ticket among the steps before n, and the changes of its status. */
  ghost function ClaimCount(routing: Routing, ws: seq<World>, ss: seq<Step>, n: nat, id: TicketId): nat
    requires n < |ws| == |ss| + 1
  {
    if n == 0 then 0 else ClaimCount(routing, ws, ss, n - 1, id) + (if ClaimsOn(routing, ws[n - 1], ss[n - 1], id) then 1 else 0)
  }

  ghost function ChangeCount(ws: seq<World>, n: nat, id: TicketId): nat
    requires n < |ws|
  {
    if n == 0 then 0
    else ChangeCount(ws, n - 1, id)
         + (if id in ws[n - 1].db.tickets && id in ws[n].db.tickets && ws[n - 1].db.tickets[id].status != ws[n].db.tickets[id].status
            then 1 else 0)
  }

  /** No rejection before step n was a stale requeue of the ticket. */
  ghost predicate RequeuedFresh(routing: Routing, ws: seq<World>, ss: seq<Step>, n: nat, id: TicketId)
    requires n < |ws| == |ss| + 1
  {
    forall k :: 0 <= k < n ==> !StaleRequeue(routing, ws[k], ss[k], id)
  }

  lemma RequeuedMore(routing: Routing, ws: seq<World>, ss: seq<Step>, n: nat, id: TicketId)
    requires n < |ss| && |ws| == |ss| + 1
    ensures RequeuedFresh(routing, ws, ss, n + 1, id) <==> (RequeuedFresh(routing, ws, ss, n, id) && !StaleRequeue(routing, ws[n], ss[n], id))
  {
  }

  /** Attempts count claims in every run; and as long as no requeue was stale the ticket is
      within its budget and its measure pays for every change of status. */
  lemma {:induction false} SplitLife(routing: Routing, ws: seq<World>, ss: seq<Step>, n: nat, id: TicketId)
    requires IsRun(routing, ws, ss) && n < |ws|
    ensures id !in ws[n].db.tickets ==>
              ClaimCount(routing, ws, ss, n, id) == 0 && ChangeCount(ws, n, id) == 0 && RequeuedFresh(routing, ws, ss, n, id)
    ensures id in ws[n].db.tickets ==> ClaimCount(routing, ws, ss, n, id) == ws[n].db.tickets[id].attempts
    ensures id in ws[n].db.tickets && RequeuedFresh(routing, ws, ss, n, id) ==>
              && AttemptsOk(ws[n].db.tickets[id])
              && ChangeCount(ws, n, id) + Measure(ws[n].db.tickets[id]) <= 3 * Budget(ws[n].db.tickets[id])
  {
    if n > 0 {
      SplitLife(routing, ws, ss, n - 1, id);
      RequeuedMore(routing, ws, ss, n - 1, id);
      if id in ws[n - 1].db.tickets {
        LifeInRun(routing, ws, ss, n - 1, id);
        LifeStepBudget(routing, DepsDone(ws[n - 1].db, id), ws[n - 1].db.tickets[id], ws[n].db.tickets[id],
                       StaleRequeue(routing, ws[n - 1], ss[n - 1], id), ClaimsOn(routing, ws[n - 1], ss[n - 1], id));
      } else {
        FreshRowInRun(routing, ws, ss, n - 1, id);
      }
    }
  }

  lemma FreshRowInRun(routing: Routing, ws: seq<World>, ss: seq<Step>, n: nat, id: TicketId)
    requires IsRun(routing, ws, ss) && n < |ss| && id !in ws[n].db.tickets
    ensures !ClaimsOn(routing, ws[n], ss[n], id) && !StaleRequeue(routing, ws[n], ss[n], id)
    ensures id in ws[n + 1].db.tickets ==>
              var t := ws[n + 1].db.tickets[id];
              t.attempts == 0 && (t.status == Open || t.status == Parked)
  {
    assert NextAt(routing, ws, ss, n);
    if ss[n].Direct? && Ready(routing, ws[n], ss[n]) {
      OnlyInsertsAddRows(routing, ws[n].db, ss[n].c);
    }
  }

  /** In every world up to the n-th the ticket was within its budget, if it was there. */
  ghost predicate AlwaysInBudget(ws: seq<World>, n: nat, id: TicketId)
    requires n < |ws|
  {
    (id in ws[n].db.tickets ==> AttemptsOk(ws[n].db.tickets[id])) && (n == 0 || AlwaysInBudget(ws, n - 1, id))
  }

  /** The claim bound over whole runs, with its exact condition: in every world up to step
      n the ticket is within its budget if and only if no rejection before was a stale
      requeue of it. Then it has been claimed at most max(1, max_attempts) times, and has
      changed its status at most three times that often. */
  lemma {:induction false} SplitBudgetIff(routing: Routing, ws: seq<World>, ss: seq<Step>, n: nat, id: TicketId)
    requires IsRun(routing, ws, ss) && n < |ws|
    ensures AlwaysInBudget(ws, n, id) <==> RequeuedFresh(routing, ws, ss, n, id)
    ensures id in ws[n].db.tickets && RequeuedFresh(routing, ws, ss, n, id) ==>
              var allowed := if ws[n].db.tickets[id].maxAttempts < 1 then 1 else ws[n].db.tickets[id].maxAttempts;
              ClaimCount(routing, ws, ss, n, id) <= allowed && ChangeCount(ws, n, id) <= 3 * allowed
  {
    SplitLife(routing, ws, ss, n, id);
    if n > 0 {
      SplitBudgetIff(routing, ws, ss, n - 1, id);
      RequeuedMore(routing, ws, ss, n - 1, id);
      if StaleRequeue(routing, ws[n - 1], ss[n - 1], id) {
        StaleRequeueOverspends(routing, ws, ss, n - 1, id);
      }
    }
  }

  lemma StaleRequeueOverspends(routing: Routing, ws: seq<World>, ss: seq<Step>, n: nat, id: TicketId)
    requires IsRun(routing, ws, ss) && n < |ss| && StaleRequeue(routing, ws[n], ss[n], id)
    ensures id in ws[n].db.tickets && id in ws[n + 1].db.tickets
    ensures !(AttemptsOk(ws[n].db.tickets[id]) && AttemptsOk(ws[n + 1].db.tickets[id]))
  {
    LifeInRun(routing, ws, ss, n, id);
    LifeStepBudget(routing, DepsDone(ws[n].db, id), ws[n].db.tickets[id], ws[n + 1].db.tickets[id], true, ClaimsOn(routing, ws[n], ss[n], id));
  }
}
