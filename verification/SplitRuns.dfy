/** Properties of whole runs of the split system: fencing, the verification gate,
    cascade safety and what stale readings can and cannot do. */
module SplitRuns {
  import opened Options
  import opened Privacy
  import opened DependencyGraph
  import opened TicketStore
  import opened QueueInvariants
  import opened QueueHistories
  import opened SplitSteps

  /** The world is the last of some run. */
  ghost predicate Reachable(routing: Routing, w: World) {
    exists ws, ss :: IsRun(routing, ws, ss) && ws[|ss|] == w
  }

  lemma StartReachable(routing: Routing)
    ensures Reachable(routing, START)
  {
    var ws, ss: seq<Step> := [START], [];
    assert IsRun(routing, ws, ss) && ws[|ss|] == START;
  }

  lemma StepReachable(routing: Routing, w: World, s: Step)
    requires Reachable(routing, w) && TokenFresh(w, s)
    ensures Reachable(routing, Exec(routing, w, s))
  {
    var ws, ss :| IsRun(routing, ws, ss) && ws[|ss|] == w;
    RunGrows(routing, ws, ss, s);
  }

  /** A run goes on with any step that mints no old token. */
  lemma RunGrows(routing: Routing, ws: seq<World>, ss: seq<Step>, s: Step)
    requires IsRun(routing, ws, ss) && TokenFresh(ws[|ss|], s)
    ensures IsRun(routing, ws + [Exec(routing, ws[|ss|], s)], ss + [s])
    ensures (ws + [Exec(routing, ws[|ss|], s)])[|ss + [s]|] == Exec(routing, ws[|ss|], s)
  {
    var ws', ss' := ws + [Exec(routing, ws[|ss|], s)], ss + [s];
    forall i | 0 <= i < |ss'|
      ensures NextAt(routing, ws', ss', i)
    {
      if i < |ss| {
        assert NextAt(routing, ws, ss, i);
      }
    }
  }

  /** The step is a successful claim of the ticket that mints this token. */
  ghost predicate ClaimsAt(routing: Routing, w: World, s: Step, id: TicketId, token: Token) {
    s.Direct? && s.c.Claim? && s.c.id == id && s.c.token == token && Ready(routing, w, s)
  }

  /** The step is a report on the ticket whose guarded write lands. */
  ghost predicate ReportsOn(routing: Routing, w: World, s: Step, id: TicketId) {
    s.ReportWrite? && Ready(routing, w, s) && w.pending[s.p].id == id
  }

  /** The same, under this token. */
  ghost predicate ReportsAt(routing: Routing, w: World, s: Step, id: TicketId, token: Token) {
    ReportsOn(routing, w, s, id) && w.pending[s.p].token == token
  }

  /** The step is an operation under a lease token that succeeds: a renewal, a payload
      read, the accepting read or the landing write of a report. */
  ghost predicate UsesAt(routing: Routing, w: World, s: Step, id: TicketId, token: Token) {
    && Ready(routing, w, s)
    && (|| (s.Direct? && s.c.Renew? && s.c.id == id && s.c.token == token)
        || (s.PayloadRead? && s.id == id && s.token == token)
        || (s.ReportRead? && s.id == id && s.token == token)
        || ReportsAt(routing, w, s, id, token))
  }

  predicate HeldUnder(w: World, id: TicketId, token: Token) {
    && id in w.db.tickets && w.db.tickets[id].status == Claimed
    && w.db.tickets[id].lease.Some? && w.db.tickets[id].lease.value.token == token
  }

  lemma UseNeedsLease(routing: Routing, w: World, s: Step, id: TicketId, token: Token)
    requires UsesAt(routing, w, s, id, token)
    ensures HeldUnder(w, id, token)
  {
  }

  // -------------------------------------------------- which step moves a status

  /** Which steps can give a ticket which new status. */
  ghost predicate Explains(routing: Routing, w: World, s: Step, id: TicketId, now: Status) {
    match now
    case Claimed => s.Direct? && s.c.Claim? && s.c.id == id && Ready(routing, w, s)
    case InReview => ReportsOn(routing, w, s, id)
    case Done =>
      || ReportsOn(routing, w, s, id)
      || (s == Direct(Approve(id, Some(LOCAL_ONLY))) && Ready(routing, w, s))
    case _ => true
  }

  /** All that the run proofs need to know of what one step does to one ticket. */
  ghost predicate RowFact(routing: Routing, w: World, s: Step, w': World, id: TicketId) {
    && (id in w.db.tickets ==>
          && id in w'.db.tickets
          && RowEvolves(routing, DepsDone(w.db, id), w.db.tickets[id], w'.db.tickets[id], w.minted)
          && RowOk(routing, w.db.tickets[id])
          && (w'.db.tickets[id].status != w.db.tickets[id].status ==> Explains(routing, w, s, id, w'.db.tickets[id].status)))
    && (id !in w.db.tickets && id in w'.db.tickets ==>
          w'.db.tickets[id].status == Open || w'.db.tickets[id].status == Parked)
  }

  /** The part of a row's facts that the invariant proof of the step already gives. */
  lemma RowEvolvesAt(routing: Routing, w: World, s: Step, id: TicketId)
    requires WInv(routing, w) && TokenFresh(w, s) && id in w.db.tickets
    ensures id in Exec(routing, w, s).db.tickets
    ensures RowEvolves(routing, DepsDone(w.db, id), w.db.tickets[id], Exec(routing, w, s).db.tickets[id], w.minted)
    ensures RowOk(routing, w.db.tickets[id])
  {
    EveryStoreStep(routing, w, s);
  }

  lemma OnlyInsertsAddRows(routing: Routing, db: Db, c: Commit)
    requires !c.Insert?
    ensures Do(routing, db, c).tickets.Keys == db.tickets.Keys
  {
  }

  lemma OnlyOwnRow(routing: Routing, db: Db, c: Commit, id: TicketId)
    requires !c.Insert? && id in db.tickets
    ensures id in Do(routing, db, c).tickets
    ensures Do(routing, db, c).tickets[id] != db.tickets[id] ==> Enabled(routing, db, c) && RowOf(c) == Some(id)
  {
  }

  lemma DirectExplains(routing: Routing, w: World, c: Commit, id: TicketId)
    requires SelfGuarded(c) && Enabled(routing, w.db, c) && id in w.db.tickets
    ensures id in Do(routing, w.db, c).tickets
    ensures var u := Do(routing, w.db, c).tickets[id];
            u.status != w.db.tickets[id].status ==> Explains(routing, w, Direct(c), id, u.status)
  {
    OnlyOwnRow(routing, w.db, c, id);
    if RowOf(c) == Some(id) {
      CommitMoves(routing, w.db, c);
    }
  }

  lemma WriteExplains(routing: Routing, w: World, s: Step, id: TicketId)
    requires !s.Direct? && id in w.db.tickets && id in Exec(routing, w, s).db.tickets
    ensures var u := Exec(routing, w, s).db.tickets[id];
            u.status != w.db.tickets[id].status ==> Explains(routing, w, s, id, u.status)
  {
  }

  /** A ticket that appears in a step appears open or parked. */
  lemma AppearsIdle(routing: Routing, w: World, s: Step, id: TicketId)
    requires id !in w.db.tickets && id in Exec(routing, w, s).db.tickets
    ensures Exec(routing, w, s).db.tickets[id].status == Open || Exec(routing, w, s).db.tickets[id].status == Parked
  {
    if s.Direct? {
      OnlyInsertsAddRows(routing, w.db, s.c);
    } else {
      OnlyAddWriteAdds(routing, w, s, id);
    }
  }

  lemma StepRowFact(routing: Routing, w: World, s: Step, id: TicketId)
    requires WInv(routing, w) && TokenFresh(w, s)
    ensures RowFact(routing, w, s, Exec(routing, w, s), id)
  {
    if id in w.db.tickets {
      RowEvolvesAt(routing, w, s, id);
      StepExplains(routing, w, s, id);
    } else if id in Exec(routing, w, s).db.tickets {
      AppearsIdle(routing, w, s, id);
    }
  }

  lemma StepExplains(routing: Routing, w: World, s: Step, id: TicketId)
    requires id in w.db.tickets && id in Exec(routing, w, s).db.tickets
    ensures var u := Exec(routing, w, s).db.tickets[id];
            u.status != w.db.tickets[id].status ==> Explains(routing, w, s, id, u.status)
  {
    if !s.Direct? {
      WriteExplains(routing, w, s, id);
    } else if Ready(routing, w, s) {
      DirectExplains(routing, w, s.c, id);
    }
  }

  /** What step n of a run does to a ticket. */
  lemma RowInRun(routing: Routing, ws: seq<World>, ss: seq<Step>, n: nat, id: TicketId)
    requires IsRun(routing, ws, ss) && n < |ss|
    ensures RowFact(routing, ws[n], ss[n], ws[n + 1], id)
  {
    RunKeepsWInv(routing, ws, ss, n);
    assert NextAt(routing, ws, ss, n);
    StepRowFact(routing, ws[n], ss[n], id);
  }

  lemma MintedStep(routing: Routing, w: World, s: Step)
    ensures w.minted <= Exec(routing, w, s).minted
  {
  }

  lemma {:induction false} MintedGrows(routing: Routing, ws: seq<World>, ss: seq<Step>, i: nat, n: nat)
    requires IsRun(routing, ws, ss) && i <= n < |ws|
    ensures ws[i].minted <= ws[n].minted
  {
    if i < n {
      MintedGrows(routing, ws, ss, i, n - 1);
      assert NextAt(routing, ws, ss, n - 1);
      MintedStep(routing, ws[n - 1], ss[n - 1]);
    }
  }

  // ---------------------------------------------------------------- fencing

  /** A lease held after a step was held before it, or is the one the step claimed. */
  lemma HeldStep(routing: Routing, w: World, s: Step, w': World, id: TicketId, token: Token)
    requires RowFact(routing, w, s, w', id)
    requires HeldUnder(w', id, token)
    ensures HeldUnder(w, id, token) || (s.Direct? && s.c.Claim? && s.c.id == id && Ready(routing, w, s))
    ensures HeldUnder(w, id, token) ==> w.db.tickets[id].lease.value.tier == w'.db.tickets[id].lease.value.tier
  {
  }

  /** The lease a claim leaves behind. */
  lemma ClaimLease(routing: Routing, ws: seq<World>, ss: seq<Step>, n: nat, id: TicketId)
    requires IsRun(routing, ws, ss) && n < |ss|
    requires ss[n].Direct? && ss[n].c.Claim? && ss[n].c.id == id && Ready(routing, ws[n], ss[n])
    ensures HeldUnder(ws[n + 1], id, ss[n].c.token) && ss[n].c.token in ws[n + 1].minted && ss[n].c.token !in ws[n].minted
    ensures ss[n].c.tier == Some(ws[n + 1].db.tickets[id].lease.value.tier)
    ensures forall token :: !HeldUnder(ws[n], id, token)
  {
    assert NextAt(routing, ws, ss, n);
  }

  /** A claimed ticket has been claimed once and held under that one token ever since. */
  lemma {:induction false} ClaimInterval(routing: Routing, ws: seq<World>, ss: seq<Step>, n: nat, id: TicketId, token: Token)
    returns (c: nat)
    requires IsRun(routing, ws, ss) && n < |ws| && HeldUnder(ws[n], id, token)
    ensures c < n && ClaimsAt(routing, ws[c], ss[c], id, token)
    ensures forall k :: c < k <= n ==> HeldUnder(ws[k], id, token)
    ensures ss[c].c.tier == Some(ws[n].db.tickets[id].lease.value.tier)
  {
    RowInRun(routing, ws, ss, n - 1, id);
    HeldStep(routing, ws[n - 1], ss[n - 1], ws[n], id, token);
    if HeldUnder(ws[n - 1], id, token) {
      c := ClaimInterval(routing, ws, ss, n - 1, id, token);
    } else {
      ClaimLease(routing, ws, ss, n - 1, id);
      c := n - 1;
    }
  }

  lemma LaterClaimDiffers(routing: Routing, ws: seq<World>, ss: seq<Step>, i: nat, j: nat, a: TicketId, b: TicketId, t1: Token, t2: Token)
    requires IsRun(routing, ws, ss) && i < j < |ss|
    requires ClaimsAt(routing, ws[i], ss[i], a, t1) && ClaimsAt(routing, ws[j], ss[j], b, t2)
    ensures t1 != t2
  {
    ClaimLease(routing, ws, ss, i, a);
    ClaimLease(routing, ws, ss, j, b);
    MintedGrows(routing, ws, ss, i + 1, j);
  }

  /** A token is minted by one claim only. */
  lemma OneClaimPerToken(routing: Routing, ws: seq<World>, ss: seq<Step>, i: nat, j: nat, a: TicketId, b: TicketId, token: Token)
    requires IsRun(routing, ws, ss) && i < |ss| && j < |ss|
    requires ClaimsAt(routing, ws[i], ss[i], a, token) && ClaimsAt(routing, ws[j], ss[j], b, token)
    ensures i == j
  {
    if i < j {
      LaterClaimDiffers(routing, ws, ss, i, j, a, b, token, token);
    } else if j < i {
      LaterClaimDiffers(routing, ws, ss, j, i, b, a, token, token);
    }
  }

  /** Fencing: once a ticket has been claimed again, nothing succeeds under the old
      token: no report, no renewal, no payload read, whoever presents it. */
  lemma OldTokenRefused(routing: Routing, ws: seq<World>, ss: seq<Step>, c1: nat, c2: nat, j: nat, id: TicketId, t1: Token, t2: Token)
    requires IsRun(routing, ws, ss) && c1 < c2 < j < |ss|
    requires ClaimsAt(routing, ws[c1], ss[c1], id, t1) && ClaimsAt(routing, ws[c2], ss[c2], id, t2)
    ensures !UsesAt(routing, ws[j], ss[j], id, t1)
  {
    if UsesAt(routing, ws[j], ss[j], id, t1) {
      UseNeedsLease(routing, ws[j], ss[j], id, t1);
      var c := ClaimInterval(routing, ws, ss, j, id, t1);
      OneClaimPerToken(routing, ws, ss, c, c1, id, id, t1);
      ClaimLease(routing, ws, ss, c2, id);
    }
  }

  /** Each token yields at most one accepted report. */
  lemma OneReportPerToken(routing: Routing, ws: seq<World>, ss: seq<Step>, i: nat, j: nat, a: TicketId, b: TicketId, token: Token)
    requires IsRun(routing, ws, ss) && i <= j < |ss|
    requires ReportsAt(routing, ws[i], ss[i], a, token) && ReportsAt(routing, ws[j], ss[j], b, token)
    ensures i == j && a == b
  {
    var ci := ClaimInterval(routing, ws, ss, i, a, token);
    var cj := ClaimInterval(routing, ws, ss, j, b, token);
    OneClaimPerToken(routing, ws, ss, ci, cj, a, b, token);
    if i < j {
      ReportLeavesClaimed(routing, ws, ss, i, a, token);
    }
  }

  lemma ReportLeavesClaimed(routing: Routing, ws: seq<World>, ss: seq<Step>, i: nat, id: TicketId, token: Token)
    requires IsRun(routing, ws, ss) && i < |ss| && ReportsAt(routing, ws[i], ss[i], id, token)
    ensures !HeldUnder(ws[i + 1], id, token)
  {
    assert NextAt(routing, ws, ss, i);
  }

  predicate Served(w: World, id: TicketId) {
    id in w.db.tickets && (InFlight(w.db.tickets[id].status) || w.db.tickets[id].status == Open)
  }

  predicate Reopened(w: World, w': World, id: TicketId) {
    && id in w.db.tickets && InFlight(w.db.tickets[id].status)
    && id in w'.db.tickets && w'.db.tickets[id].status == Open
  }

  /** A ticket still to be served after a step was so before it, if it existed. */
  lemma ServedBefore(routing: Routing, w: World, s: Step, w': World, id: TicketId)
    requires RowFact(routing, w, s, w', id) && id in w.db.tickets && Served(w', id)
    ensures Served(w, id)
  {
  }

  /** A ticket in flight at i and open at n was put back to open somewhere between. */
  lemma {:induction false} FindReopening(routing: Routing, ws: seq<World>, ss: seq<Step>, i: nat, n: nat, id: TicketId)
    returns (k: nat)
    requires IsRun(routing, ws, ss) && i <= n < |ws|
    requires id in ws[i].db.tickets && InFlight(ws[i].db.tickets[id].status)
    requires id in ws[n].db.tickets && ws[n].db.tickets[id].status == Open
    ensures i <= k < n && Reopened(ws[k], ws[k + 1], id)
    decreases n - i
  {
    TicketsStay(routing, ws, ss, i, n - 1, id);
    RowInRun(routing, ws, ss, n - 1, id);
    ServedBefore(routing, ws[n - 1], ss[n - 1], ws[n], id);
    if InFlight(ws[n - 1].db.tickets[id].status) {
      k := n - 1;
    } else {
      k := FindReopening(routing, ws, ss, i, n - 1, id);
    }
  }

  lemma {:induction false} TicketsStay(routing: Routing, ws: seq<World>, ss: seq<Step>, i: nat, n: nat, id: TicketId)
    requires IsRun(routing, ws, ss) && i <= n < |ws| && id in ws[i].db.tickets
    ensures id in ws[n].db.tickets
  {
    if i < n {
      TicketsStay(routing, ws, ss, i, n - 1, id);
      RowInRun(routing, ws, ss, n - 1, id);
    }
  }

  /** Between two claims of a ticket it was put back to open: out of a worker's hands or
      out of review, by a failed report, a rejection or the reaper. */
  lemma RequeueBetweenClaims(routing: Routing, ws: seq<World>, ss: seq<Step>, c1: nat, c2: nat, id: TicketId, t1: Token, t2: Token)
    returns (k: nat)
    requires IsRun(routing, ws, ss) && c1 < c2 < |ss|
    requires ClaimsAt(routing, ws[c1], ss[c1], id, t1) && ClaimsAt(routing, ws[c2], ss[c2], id, t2)
    ensures c1 < k < c2 && Reopened(ws[k], ws[k + 1], id)
  {
    ClaimLease(routing, ws, ss, c1, id);
    k := FindReopening(routing, ws, ss, c1 + 1, c2, id);
  }

  /** At one instant a lease is never both usable by its holder and ripe for the reaper. */
  lemma NeverReportableAndReapable(db: Db, id: TicketId, identity: Identity, token: Token, now: Time)
    ensures !(LeaseGuard(db, id, identity, token, now) && ReapGuard(db, id, now))
  {
  }

  // ------------------------------------------------------ verification gate

  /** Report i on the ticket was accepted, said "completed", and is the last accepted
      report on it before n. */
  ghost predicate LastReport(routing: Routing, ws: seq<World>, ss: seq<Step>, n: nat, id: TicketId, i: nat)
    requires IsRun(routing, ws, ss) && n < |ws|
  {
    && i < n
    && ReportsOn(routing, ws[i], ss[i], id)
    && ws[i].pending[ss[i].p].completed
    && forall k :: i < k < n ==> !ReportsOn(routing, ws[k], ss[k], id)
  }

  /** The report was made by a trusted reporter under a lease claimed by a trusted tier. */
  ghost predicate TrustedReport(routing: Routing, w: World, s: Step, id: TicketId) {
    && ReportsOn(routing, w, s, id)
    && w.pending[s.p].tier == Some("local_only")
    && w.db.tickets[id].lease.value.tier == "local_only"
  }

  /** A trusted reviewer took the ticket from review to done. */
  ghost predicate Approves(routing: Routing, w: World, s: Step, id: TicketId) {
    s == Direct(Approve(id, Some(LOCAL_ONLY))) && Ready(routing, w, s)
  }

  /** The gate: what stands behind a result that awaits review or counts as truth. */
  ghost predicate Vouched(routing: Routing, ws: seq<World>, ss: seq<Step>, n: nat, id: TicketId, i: nat)
    requires IsRun(routing, ws, ss) && n < |ws| && id in ws[n].db.tickets
  {
    && LastReport(routing, ws, ss, n, id, i)
    && (ws[n].db.tickets[id].status == Done ==>
          || TrustedReport(routing, ws[i], ss[i], id)
          || exists j :: i < j < n && Approves(routing, ws[j], ss[j], id))
  }

  predicate Reported(w: World, id: TicketId) {
    id in w.db.tickets && (w.db.tickets[id].status == Done || w.db.tickets[id].status == InReview)
  }

  /** A report that leaves its ticket reported said "completed", and one that made it
      done was trusted on both sides. */
  lemma ReportPassesGate(routing: Routing, w: World, s: Step, id: TicketId)
    requires WInv(routing, w) && ReportsOn(routing, w, s, id) && Reported(Exec(routing, w, s), id)
    ensures w.pending[s.p].completed
    ensures Exec(routing, w, s).db.tickets[id].status == Done ==> TrustedReport(routing, w, s, id)
  {
    assert PendingOk(routing, w, w.pending[s.p]);
  }

  lemma ReportInRunPassesGate(routing: Routing, ws: seq<World>, ss: seq<Step>, i: nat, id: TicketId)
    requires IsRun(routing, ws, ss) && i < |ss| && ReportsOn(routing, ws[i], ss[i], id) && Reported(ws[i + 1], id)
    ensures ws[i].pending[ss[i].p].completed
    ensures ws[i + 1].db.tickets[id].status == Done ==> TrustedReport(routing, ws[i], ss[i], id)
  {
    RunKeepsWInv(routing, ws, ss, i);
    assert NextAt(routing, ws, ss, i);
    ReportPassesGate(routing, ws[i], ss[i], id);
  }

  /** Any other step that leaves a ticket reported found it so, or approved it. */
  lemma OtherStepPassesGate(routing: Routing, w: World, s: Step, w': World, id: TicketId)
    requires RowFact(routing, w, s, w', id) && !ReportsOn(routing, w, s, id) && Reported(w', id)
    ensures Reported(w, id)
    ensures w.db.tickets[id].status != w'.db.tickets[id].status ==>
              w'.db.tickets[id].status == Done && Approves(routing, w, s, id)
  {
  }

  /** Verification gate over whole runs: behind every done ticket stands a last accepted
      report that said "completed", and either that report and the lease it was made
      under were both local_only, or a local_only reviewer approved it afterwards. So a
      failed result never becomes done on any path. */
  lemma {:induction false} VerificationGate(routing: Routing, ws: seq<World>, ss: seq<Step>, n: nat, id: TicketId)
    returns (i: nat)
    requires IsRun(routing, ws, ss) && n < |ws| && Reported(ws[n], id)
    ensures Vouched(routing, ws, ss, n, id, i)
  {
    if ReportsOn(routing, ws[n - 1], ss[n - 1], id) {
      i := n - 1;
      ReportInRunPassesGate(routing, ws, ss, i, id);
    } else {
      RowInRun(routing, ws, ss, n - 1, id);
      OtherStepPassesGate(routing, ws[n - 1], ss[n - 1], ws[n], id);
      i := VerificationGate(routing, ws, ss, n - 1, id);
    }
  }

  // -------------------------------------------------- cascades and cancels

  /** A cancel whose UPDATE finds the row it read as live already done: the UPDATE
      matches nothing, but the ticket is still recorded as cancelled. */
  ghost predicate StaleCancel(routing: Routing, w: World, s: Step) {
    s.CancelWrite? && Ready(routing, w, s) && w.db.tickets[s.id].status == Done
  }

  /** Everything any process will cascade from is dead. */
  ghost predicate CascadesFromDead(w: World) {
    forall p, id :: id in Roots(w, p) ==> id in w.db.tickets && Dead(w.db.tickets[id])
  }

  /** A ticket that a cancel records as cancelled can never become done exactly when it
      was not done already at the UPDATE: one more look at the row count would tell. */
  lemma RecordedCancelIsDeadIff(routing: Routing, w: World, p: Process, id: TicketId)
    requires WInv(routing, w) && Ready(routing, w, CancelWrite(p, id))
    ensures var w' := Exec(routing, w, CancelWrite(p, id));
            && id in w'.pending[p].written && id in w'.db.tickets
            && (Dead(w'.db.tickets[id]) <==> !StaleCancel(routing, w, CancelWrite(p, id)))
  {
  }

  /** The tickets a process will cascade from. */
  ghost function Roots(w: World, p: Process): set<TicketId> {
    if p !in w.pending then {}
    else if w.pending[p].Cascading? then w.pending[p].stack
    else if w.pending[p].Cancelling? then w.pending[p].written
    else {}
  }

  /** Where a new root comes from: a recorded cancel, a dead root read, or a ticket the
      cascade itself failed. */
  lemma RootOrigin(routing: Routing, w: World, s: Step, p: Process, id: TicketId)
    requires id in Roots(Exec(routing, w, s), p) && id !in Roots(w, p)
    ensures Ready(routing, w, s)
    ensures || (s == CancelWrite(p, id))
            || (s == CascadeStart(p, id))
            || (s == CascadeWrite(p) && id == w.pending[p].next.value.child)
  {
  }

  /** A step adds to what its process cascades from only a ticket that is dead then,
      unless it is a stale cancel. */
  lemma NewRootsAreDead(routing: Routing, w: World, s: Step, p: Process, id: TicketId)
    requires WInv(routing, w) && !StaleCancel(routing, w, s)
    requires id in Roots(Exec(routing, w, s), p) && id !in Roots(w, p)
    ensures id in Exec(routing, w, s).db.tickets && Dead(Exec(routing, w, s).db.tickets[id])
  {
    RootOrigin(routing, w, s, p, id);
    if s.CancelWrite? {
      RecordedCancelIsDeadIff(routing, w, p, id);
    }
  }

  lemma DeadStaysDead(routing: Routing, w: World, s: Step, id: TicketId)
    requires WInv(routing, w) && TokenFresh(w, s) && id in w.db.tickets && Dead(w.db.tickets[id])
    ensures id in Exec(routing, w, s).db.tickets && Dead(Exec(routing, w, s).db.tickets[id])
  {
    RowEvolvesAt(routing, w, s, id);
    RowEvolvesKeeps(routing, DepsDone(w.db, id), w.db.tickets[id], Exec(routing, w, s).db.tickets[id], w.minted);
  }

  lemma StepKeepsCascadesDead(routing: Routing, w: World, s: Step)
    requires WInv(routing, w) && TokenFresh(w, s) && CascadesFromDead(w) && !StaleCancel(routing, w, s)
    ensures CascadesFromDead(Exec(routing, w, s))
  {
    forall p, id | id in Roots(Exec(routing, w, s), p)
      ensures id in Exec(routing, w, s).db.tickets && Dead(Exec(routing, w, s).db.tickets[id])
    {
      if id in Roots(w, p) {
        DeadStaysDead(routing, w, s, id);
      } else {
        NewRootsAreDead(routing, w, s, p, id);
      }
    }
  }

  lemma {:induction false} RunKeepsCascadesDead(routing: Routing, ws: seq<World>, ss: seq<Step>, n: nat)
    requires IsRun(routing, ws, ss) && n < |ws|
    requires forall i :: 0 <= i < n ==> !StaleCancel(routing, ws[i], ss[i])
    ensures CascadesFromDead(ws[n])
  {
    if n > 0 {
      RunKeepsCascadesDead(routing, ws, ss, n - 1);
      CascadesStayDead(routing, ws, ss, n - 1);
    }
  }

  lemma CascadesStayDead(routing: Routing, ws: seq<World>, ss: seq<Step>, n: nat)
    requires IsRun(routing, ws, ss) && n < |ss|
    requires CascadesFromDead(ws[n]) && !StaleCancel(routing, ws[n], ss[n])
    ensures CascadesFromDead(ws[n + 1])
  {
    RunKeepsWInv(routing, ws, ss, n);
    assert NextAt(routing, ws, ss, n);
    StepKeepsCascadesDead(routing, ws[n], ss[n]);
  }

  /** Cascade safety over whole runs: as long as no cancel was stale, a cascade fails
      only open and parked tickets and never takes a lease or a reported result away. */
  lemma SplitCascadeSafety(routing: Routing, ws: seq<World>, ss: seq<Step>, n: nat)
    requires IsRun(routing, ws, ss) && n < |ss|
    requires forall i :: 0 <= i < n ==> !StaleCancel(routing, ws[i], ss[i])
    requires ss[n].CascadeWrite? && Ready(routing, ws[n], ss[n])
    ensures var t := ws[n].db.tickets[ws[n].pending[ss[n].p].next.value.child];
            (t.status == Open || t.status == Parked) && t.lease == None
  {
    RunKeepsCascadesDead(routing, ws, ss, n);
    RunKeepsWInv(routing, ws, ss, n);
    DeadCauseIsSafe(routing, ws[n], ss[n].p);
  }

  lemma DeadCauseIsSafe(routing: Routing, w: World, p: Process)
    requires WInv(routing, w) && CascadesFromDead(w) && Ready(routing, w, CascadeWrite(p))
    ensures var t := w.db.tickets[w.pending[p].next.value.child];
            (t.status == Open || t.status == Parked) && t.lease == None
  {
    var hit := w.pending[p].next.value;
    assert PendingOk(routing, w, w.pending[p]);
    assert hit.cause in Roots(w, p);
    assert (hit.child, hit.cause) in w.db.deps;
    assert RowOk(routing, w.db.tickets[hit.child]);
  }

  /** In every reachable world the only cause from which a cascade can hit a ticket in
      flight is one that is done, that is, one a stale cancel recorded. */
  lemma OnlyDoneCauseHitsLease(routing: Routing, w: World, p: Process)
    requires WInv(routing, w) && Ready(routing, w, CascadeWrite(p))
    requires InFlight(w.db.tickets[w.pending[p].next.value.child].status)
    ensures w.pending[p].next.value.cause in w.db.tickets && w.db.tickets[w.pending[p].next.value.cause].status == Done
  {
    assert PendingOk(routing, w, w.pending[p]);
    assert (w.pending[p].next.value.child, w.pending[p].next.value.cause) in w.db.deps;
  }

  /** A cascade that has `cause` on its stack fails any live dependent of it. */
  lemma CascadeHits(routing: Routing, w: World, p: Process, child: TicketId, cause: TicketId)
    requires p in w.pending && w.pending[p].Cascading? && cause in w.pending[p].stack
    requires (child, cause) in w.db.deps && LiveRow(w.db, child)
    ensures var w1 := Exec(routing, w, CascadeRead(p, child, cause));
            Exec(routing, w1, CascadeWrite(p)).db.tickets == w.db.tickets[child := CascadedRow(w.db.tickets[child])]
  {
    var w1 := Exec(routing, w, CascadeRead(p, child, cause));
    assert w1.db == w.db && w1.pending[p] == Cascading(w.pending[p].stack, Some(Hit(child, cause, w.db.tickets[child].status)));
  }

  /** What a cancel does that finds the one row it read already done. */
  lemma StaleCancelStarts(routing: Routing, w: World, p: Process, parent: TicketId)
    requires p in w.pending && w.pending[p].Cancelling? && w.pending[p].todo.Keys == {parent}
    requires parent in w.db.tickets && w.db.tickets[parent].status == Done
    ensures var w1 := Exec(routing, w, CancelWrite(p, parent));
            var w2 := Exec(routing, w1, CancelDone(p));
            && StaleCancel(routing, w, CancelWrite(p, parent))
            && w2.db.tickets == w.db.tickets && w2.db.deps == w.db.deps
            && p in w2.pending && w2.pending[p] == Cascading(w.pending[p].written + {parent}, None)
  {
    var w1 := Exec(routing, w, CancelWrite(p, parent));
    assert w.db.tickets[parent := w.db.tickets[parent]] == w.db.tickets;
    assert w.pending[p].todo - {parent} == map[];
    assert w1.pending[p] == Cancelling(w.pending[p].task, map[], w.pending[p].written + {parent});
  }

  /** What a stale cancel leads to, from any world in which process p is cancelling a
      task, its ticket `parent` is done by now, and a dependent is in flight: four steps
      later the dependent has failed and its lease is gone, though its parent is done. */
  lemma StaleCancelClearsLease(routing: Routing, w: World, p: Process, parent: TicketId, child: TicketId)
    requires WInv(routing, w)
    requires p in w.pending && w.pending[p].Cancelling? && w.pending[p].todo.Keys == {parent}
    requires parent in w.db.tickets && w.db.tickets[parent].status == Done
    requires (child, parent) in w.db.deps && child in w.db.tickets && InFlight(w.db.tickets[child].status)
    ensures var w1 := Exec(routing, w, CancelWrite(p, parent));
            var w2 := Exec(routing, w1, CancelDone(p));
            var w3 := Exec(routing, w2, CascadeRead(p, child, parent));
            var w4 := Exec(routing, w3, CascadeWrite(p));
            && w.db.tickets[child].lease.Some?
            && child in w4.db.tickets && w4.db.tickets[child].status == Failed && w4.db.tickets[child].lease == None
            && parent in w4.db.tickets && w4.db.tickets[parent].status == Done
  {
    InFlightHasLease(routing, w, child);
    StaleCancelStarts(routing, w, p, parent);
    var w2 := Exec(routing, Exec(routing, w, CancelWrite(p, parent)), CancelDone(p));
    assert LiveRow(w2.db, child) && parent != child;
    CascadeHits(routing, w2, p, child, parent);
  }

  lemma InFlightHasLease(routing: Routing, w: World, id: TicketId)
    requires WInv(routing, w) && id in w.db.tickets && InFlight(w.db.tickets[id].status)
    ensures w.db.tickets[id].lease.Some?
  {
    assert RowOk(routing, w.db.tickets[id]);
  }

  /** What is done, failed or cancelled stays so, and a parked ticket can only become failed
      or cancelled, in every run: so a ticket parked for its class or for missing redaction
      never gets to a worker. */
  lemma {:induction false} SplitParkedAndTerminalAreFinal(routing: Routing, ws: seq<World>, ss: seq<Step>, i: nat, n: nat, id: TicketId)
    requires IsRun(routing, ws, ss) && i <= n < |ws| && id in ws[i].db.tickets
    ensures id in ws[n].db.tickets
    ensures StaysIn(ws[i].db.tickets[id].status, ws[n].db.tickets[id].status)
    ensures Dead(ws[i].db.tickets[id]) ==> Dead(ws[n].db.tickets[id])
  {
    if i < n {
      SplitParkedAndTerminalAreFinal(routing, ws, ss, i, n - 1, id);
      RowInRun(routing, ws, ss, n - 1, id);
    }
  }

  /** A ticket inserted un-redacted in a class that requires redaction is parked, failed or
      cancelled in every later world of every run, under no lease, and no claim of it wins. */
  lemma SplitUnredactedIsNeverHeld(routing: Routing, ws: seq<World>, ss: seq<Step>, i: nat, n: nat)
    requires IsRun(routing, ws, ss) && i < n < |ws|
    requires ss[i].AddWrite? && Ready(routing, ws[i], ss[i])
    requires var spec := ws[i].pending[ss[i].p].spec;
             spec.privacyClass in routing.requireRedaction && !spec.cloudSafe
    ensures Shelved(routing, ws, ss, n, ws[i].pending[ss[i].p].id)
  {
    UnredactedIsParked(routing, ws, ss, i);
    SplitParkedAndTerminalAreFinal(routing, ws, ss, i + 1, n, ws[i].pending[ss[i].p].id);
    ShelvedInWorld(routing, ws, ss, n, ws[i].pending[ss[i].p].id);
  }

  /** The ticket is parked, failed or cancelled, under no lease, and cannot be claimed. */
  ghost predicate Shelved(routing: Routing, ws: seq<World>, ss: seq<Step>, n: nat, id: TicketId)
    requires n < |ws|
  {
    && id in ws[n].db.tickets && ws[n].db.tickets[id].status in {Parked, Failed, Cancelled} && ws[n].db.tickets[id].lease == None
    && (n < |ss| && ss[n].Direct? && ss[n].c.Claim? && ss[n].c.id == id ==> !Ready(routing, ws[n], ss[n]))
  }

  lemma UnredactedIsParked(routing: Routing, ws: seq<World>, ss: seq<Step>, i: nat)
    requires IsRun(routing, ws, ss) && i < |ss| && ss[i].AddWrite? && Ready(routing, ws[i], ss[i])
    requires var spec := ws[i].pending[ss[i].p].spec;
             spec.privacyClass in routing.requireRedaction && !spec.cloudSafe
    ensures ws[i].pending[ss[i].p].id in ws[i + 1].db.tickets
    ensures ws[i + 1].db.tickets[ws[i].pending[ss[i].p].id].status == Parked
  {
    assert NextAt(routing, ws, ss, i);
    OnlyAddWriteAdds(routing, ws[i], ss[i], ws[i].pending[ss[i].p].id);
  }

  lemma ShelvedInWorld(routing: Routing, ws: seq<World>, ss: seq<Step>, n: nat, id: TicketId)
    requires IsRun(routing, ws, ss) && n < |ws|
    requires id in ws[n].db.tickets && ws[n].db.tickets[id].status in {Parked, Failed, Cancelled}
    ensures Shelved(routing, ws, ss, n, id)
  {
    RunKeepsWInv(routing, ws, ss, n);
    assert RowOk(routing, ws[n].db.tickets[id]);
  }

  /** A class that admits no tier: its tickets are parked, failed or cancelled in every
      world of every run, whatever the cached tier column says. */
  lemma SplitNotPullable(routing: Routing, ws: seq<World>, ss: seq<Step>, n: nat, id: TicketId)
    requires IsRun(routing, ws, ss) && n < |ws| && id in ws[n].db.tickets
    requires AllowedTiers(routing, ws[n].db.tickets[id].privacyClass) == []
    ensures ws[n].db.tickets[id].status in {Parked, Failed, Cancelled}
  {
    RunKeepsWInv(routing, ws, ss, n);
    assert RowOk(routing, ws[n].db.tickets[id]);
  }

  /** Acyclicity, endpoints, no downgrade and no laundering hold in every world of every
      run: the tier of a lease is admitted for all transitive ancestors of its ticket. */
  lemma SplitNoLaundering(routing: Routing, ws: seq<World>, ss: seq<Step>, n: nat, id: TicketId, ancestor: TicketId)
    requires IsRun(routing, ws, ss) && n < |ws|
    requires id in ws[n].db.tickets && (InFlight(ws[n].db.tickets[id].status) || ws[n].db.tickets[id].status == Done)
    requires Reach(ws[n].db.deps, id, ancestor)
    ensures Acyclic(ws[n].db.deps)
    ensures ancestor in ws[n].db.tickets && ws[n].db.tickets[id].lease.Some?
    ensures Admits(routing, Some(ws[n].db.tickets[id].lease.value.tier), ws[n].db.tickets[ancestor].privacyClass)
  {
    RunKeepsWInv(routing, ws, ss, n);
    NoLaundering(routing, ws[n].db, id, ancestor);
  }

  // -------------------------------------------- what stale readings can break

  /** A rejection that requeues by the attempts it read although the ticket, under review
      again by now, has used its attempts up. */
  ghost predicate StaleRequeue(routing: Routing, w: World, s: Step, id: TicketId) {
    && s.RejectWrite? && Ready(routing, w, s) && w.pending[s.p].id == id
    && w.pending[s.p].attempts < w.pending[s.p].maxAttempts <= w.db.tickets[id].attempts
  }

  /** A rejection written from an older reading is the atomic rejection of that moment
      exactly unless it is such a stale requeue: it can only err towards requeueing. */
  lemma SplitRejectIsAtomicIff(routing: Routing, w: World, p: Process)
    requires WInv(routing, w) && Ready(routing, w, RejectWrite(p))
    ensures var id := w.pending[p].id;
            Exec(routing, w, RejectWrite(p)).db == Do(routing, w.db, Reject(id, Some(LOCAL_ONLY)))
            <==> !StaleRequeue(routing, w, RejectWrite(p), id)
    ensures w.pending[p].attempts >= w.pending[p].maxAttempts ==>
              w.db.tickets[w.pending[p].id].attempts >= w.db.tickets[w.pending[p].id].maxAttempts
  {
    var q := w.pending[p];
    var t := w.db.tickets[q.id];
    assert PendingOk(routing, w, q);
    RejectIsSetRow(routing, w, p);
    DifferentRows(w.db, q.id, RejectedRow(t, q.attempts < q.maxAttempts), RejectedRow(t, t.attempts < t.maxAttempts));
  }

  lemma RejectIsSetRow(routing: Routing, w: World, p: Process)
    requires Ready(routing, w, RejectWrite(p))
    ensures var q := w.pending[p];
            var t := w.db.tickets[q.id];
            && Exec(routing, w, RejectWrite(p)).db == SetRow(w.db, q.id, InReview, RejectedRow(t, q.attempts < q.maxAttempts))
            && Do(routing, w.db, Reject(q.id, Some(LOCAL_ONLY))) == SetRow(w.db, q.id, InReview, RejectedRow(t, t.attempts < t.maxAttempts))
  {
  }

  lemma DifferentRows(db: Db, id: TicketId, t: Ticket, u: Ticket)
    requires id in db.tickets
    ensures SetRow(db, id, InReview, t) == SetRow(db, id, InReview, u) <==> t == u
  {
    assert SetRow(db, id, InReview, t).tickets[id] == t && SetRow(db, id, InReview, u).tickets[id] == u;
  }
}
