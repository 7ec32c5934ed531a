/** The order in which tickets are offered, and what a batch claim must return. */
module ClaimOrder {
  import opened Options
  import opened Privacy
  import opened DependencyGraph
  import opened TicketStore
  import opened Promises

  /** Ceiling on one batch. */
  const MAX_CLAIM_BATCH: int := 50

  function Rank(priority: string): nat {
    if priority == "urgent" then 0
    else if priority == "normal" then 1
    else if priority == "low" then 2
    else 1
  }

  /** ORDER BY priority rank, created_at; ties in insertion order. */
  predicate Before(t: Ticket, u: Ticket) {
    || Rank(t.priority) < Rank(u.priority)
    || (Rank(t.priority) == Rank(u.priority) && t.createdAt < u.createdAt)
    || (Rank(t.priority) == Rank(u.priority) && t.createdAt == u.createdAt && t.rowid < u.rowid)
  }

  ghost predicate Sorted(tickets: map<TicketId, Ticket>, q: seq<TicketId>) {
    && (forall k :: k in q ==> k in tickets)
    && forall i, j :: 0 <= i < j < |q| ==> Before(tickets[q[i]], tickets[q[j]])
  }

  /** What a worker may be given: claimable by its tier, within its capabilities. */
  predicate Eligible(routing: Routing, db: Db, tier: Option<Tier>, caps: set<string>, id: TicketId) {
    ClaimGuard(routing, db, id, tier) && db.tickets[id].capabilities <= caps
  }

  ghost predicate NoneEligible(routing: Routing, db: Db, tier: Option<Tier>, caps: set<string>) {
    forall k :: !Eligible(routing, db, tier, caps, k)
  }

  function BatchSize(max: int): nat {
    var m := if max <= MAX_CLAIM_BATCH then max else MAX_CLAIM_BATCH;
    if m < 0 then 0 else m
  }

  /** `q` is the first min(max, 50) of the eligible tickets in order. */
  ghost predicate IsBatch(routing: Routing, db: Db, tier: Option<Tier>, caps: set<string>, max: int, q: seq<TicketId>) {
    && |q| <= BatchSize(max)
    && Sorted(db.tickets, q)
    && (forall k :: k in q ==> Eligible(routing, db, tier, caps, k))
    && forall k :: Eligible(routing, db, tier, caps, k) && k !in q ==>
         |q| == BatchSize(max) && forall w :: w in q ==> Before(db.tickets[w], db.tickets[k])
  }

  /** The ticket is claimable by the tier and asks for no more than the capabilities. */
  ghost predicate Fits(routing: Routing, db: Db, tier: Option<Tier>, caps: set<string>, id: TicketId) {
    Claimable(routing, db, id, tier) && db.tickets[id].capabilities <= caps
  }

  /** A batch in terms of the columns alone: at most fifty and at most `max` fitting
      tickets, in the order urgent, other, low and within it by age; and one that is left
      out is left out because the batch is full of tickets that go first. */
  ghost predicate RightfulBatch(routing: Routing, db: Db, tier: Option<Tier>, caps: set<string>, max: int, q: seq<TicketId>) {
    && |q| <= 50 && (|q| <= max || q == [])
    && (forall k :: k in q ==> k in db.tickets && Fits(routing, db, tier, caps, k))
    && (forall i, j :: 0 <= i < j < |q| ==>
          q[i] in db.tickets && q[j] in db.tickets && GoesFirst(db.tickets[q[i]], db.tickets[q[j]]))
    && forall k :: Fits(routing, db, tier, caps, k) && k !in q ==>
         k in db.tickets && (|q| == 50 || |q| >= max) && forall w :: w in q ==> GoesFirst(db.tickets[w], db.tickets[k])
  }

  lemma FitsIffEligible(routing: Routing, db: Db, tier: Option<Tier>, caps: set<string>, id: TicketId)
    ensures Fits(routing, db, tier, caps, id) <==> Eligible(routing, db, tier, caps, id)
    ensures Eligible(routing, db, tier, caps, id) ==> id in db.tickets
  {
    ClaimGuardIsClaimable(routing, db, id, tier);
  }

  lemma BatchIsRightful(routing: Routing, db: Db, tier: Option<Tier>, caps: set<string>, max: int, q: seq<TicketId>)
    requires IsBatch(routing, db, tier, caps, max, q)
    ensures RightfulBatch(routing, db, tier, caps, max, q)
  {
    forall k
      ensures Fits(routing, db, tier, caps, k) <==> Eligible(routing, db, tier, caps, k)
      ensures Fits(routing, db, tier, caps, k) ==> k in db.tickets
    {
      FitsIffEligible(routing, db, tier, caps, k);
    }
    BatchGoesFirst(routing, db, tier, caps, max, q);
  }

  lemma BatchGoesFirst(routing: Routing, db: Db, tier: Option<Tier>, caps: set<string>, max: int, q: seq<TicketId>)
    requires IsBatch(routing, db, tier, caps, max, q)
    ensures forall i, j :: 0 <= i < j < |q| ==>
              q[i] in db.tickets && q[j] in db.tickets && GoesFirst(db.tickets[q[i]], db.tickets[q[j]])
    ensures forall k, w :: Eligible(routing, db, tier, caps, k) && k !in q && w in q ==>
              w in db.tickets && k in db.tickets && GoesFirst(db.tickets[w], db.tickets[k])
  {
  }

  lemma BeforeIsStrict(t: Ticket, u: Ticket)
    ensures !(Before(t, u) && Before(u, t))
    ensures t.rowid != u.rowid ==> Before(t, u) || Before(u, t)
  {
  }

  lemma SortedIsDistinct(tickets: map<TicketId, Ticket>, q: seq<TicketId>)
    requires Sorted(tickets, q)
    ensures forall i, j :: 0 <= i < j < |q| ==> q[i] != q[j]
  {
  }

  /** Two sorted sequences of the same tickets are equal. */
  lemma {:induction false} SortedIsUnique(tickets: map<TicketId, Ticket>, p: seq<TicketId>, q: seq<TicketId>)
    requires Sorted(tickets, p) && Sorted(tickets, q)
    requires forall k :: k in p <==> k in q
    ensures p == q
    decreases |p|
  {
    assert |q| > 0 ==> q[0] in p;
    if p != [] {
      assert p[0] in q;
      HeadIsFirst(tickets, p, q[0]);
      HeadIsFirst(tickets, q, p[0]);
      BeforeIsStrict(tickets[p[0]], tickets[q[0]]);
      SortedIsDistinct(tickets, p);
      SortedIsDistinct(tickets, q);
      TailMembers(p, q);
      TailMembers(q, p);
      SortedIsUnique(tickets, p[1..], q[1..]);
    }
  }

  lemma HeadIsFirst(tickets: map<TicketId, Ticket>, q: seq<TicketId>, k: TicketId)
    requires Sorted(tickets, q) && k in q
    ensures q[0] == k || Before(tickets[q[0]], tickets[k])
  {
    var i :| 0 <= i < |q| && q[i] == k;
  }

  lemma TailMembers(p: seq<TicketId>, q: seq<TicketId>)
    requires p != [] && q != [] && p[0] == q[0]
    requires forall i, j :: 0 <= i < j < |p| ==> p[i] != p[j]
    requires forall k :: k in p ==> k in q
    ensures forall k :: k in p[1..] ==> k in q[1..]
  {
    forall k | k in p[1..]
      ensures k in q[1..]
    {
      var i :| 0 <= i < |p| - 1 && p[1..][i] == k;
      assert p[0] != p[i + 1];
      assert k in p && q == [q[0]] + q[1..];
    }
  }

  lemma {:induction false} DistinctCount(q: seq<TicketId>)
    requires forall i, j :: 0 <= i < j < |q| ==> q[i] != q[j]
    ensures |Elements(q)| == |q|
    decreases |q|
  {
    if q != [] {
      DistinctCount(q[1..]);
      assert Elements(q) == {q[0]} + Elements(q[1..]);
      assert q[0] !in Elements(q[1..]);
    }
  }

  /** A batch is determined by the store, the worker and the bound. */
  lemma BatchIsDetermined(routing: Routing, db: Db, tier: Option<Tier>, caps: set<string>, max: int, p: seq<TicketId>, q: seq<TicketId>)
    requires IsBatch(routing, db, tier, caps, max, p) && IsBatch(routing, db, tier, caps, max, q)
    ensures p == q
  {
    BatchContained(routing, db, tier, caps, max, p, q);
    BatchContained(routing, db, tier, caps, max, q, p);
    SortedIsUnique(db.tickets, p, q);
  }

  lemma BatchContained(routing: Routing, db: Db, tier: Option<Tier>, caps: set<string>, max: int, p: seq<TicketId>, q: seq<TicketId>)
    requires IsBatch(routing, db, tier, caps, max, p) && IsBatch(routing, db, tier, caps, max, q)
    ensures forall k :: k in p ==> k in q
  {
    SortedIsDistinct(db.tickets, p);
    SortedIsDistinct(db.tickets, q);
    DistinctCount(p);
    DistinctCount(q);
    forall k | k in p
      ensures k in q
    {
      if k !in q {
        if Elements(q) <= Elements(p) {
          assert k in Elements(p) && k !in Elements(q);
          Smaller(Elements(q), Elements(p));
        }
        var y :| y in Elements(q) && y !in Elements(p);
        BeforeIsStrict(db.tickets[y], db.tickets[k]);
      }
    }
  }

  /** SELECT of the open tickets of the given classes, in claim order. */
  method SelectOpen(tickets: map<TicketId, Ticket>, classes: set<PrivacyClass>) returns (rows: seq<TicketId>)
    requires forall i, j :: i in tickets && j in tickets && i != j ==> tickets[i].rowid != tickets[j].rowid
    ensures Sorted(tickets, rows)
    ensures forall i, j :: 0 <= i < j < |rows| ==> GoesFirst(tickets[rows[i]], tickets[rows[j]])
    ensures forall k :: k in rows <==> k in tickets && tickets[k].status == Open && tickets[k].privacyClass in classes
  {
    rows := [];
    var rest := set k | k in tickets && tickets[k].status == Open && tickets[k].privacyClass in classes;
    while rest != {}
      invariant rest <= tickets.Keys
      invariant Sorted(tickets, rows)
      invariant forall k :: k in rows || k in rest <==> k in tickets && tickets[k].status == Open && tickets[k].privacyClass in classes
      invariant forall k :: k in rows ==> k !in rest
      decreases |rest|
    {
      var k :| k in rest;
      rest := rest - {k};
      var i := 0;
      while i < |rows| && Before(tickets[rows[i]], tickets[k])
        invariant 0 <= i <= |rows|
        invariant forall j :: 0 <= j < i ==> Before(tickets[rows[j]], tickets[k])
      {
        i := i + 1;
      }
      InsertSorted(tickets, rows, i, k);
      rows := rows[..i] + [k] + rows[i..];
    }
  }

  lemma ComesBeforeRest(tickets: map<TicketId, Ticket>, rows: seq<TicketId>, i: nat, j: nat, k: TicketId)
    requires Sorted(tickets, rows) && i <= j < |rows| && k in tickets
    requires tickets[k].rowid != tickets[rows[i]].rowid && !Before(tickets[rows[i]], tickets[k])
    ensures Before(tickets[k], tickets[rows[j]])
  {
    BeforeIsStrict(tickets[k], tickets[rows[i]]);
    assert j > i ==> Before(tickets[rows[i]], tickets[rows[j]]);
  }

  lemma InsertSorted(tickets: map<TicketId, Ticket>, rows: seq<TicketId>, i: nat, k: TicketId)
    requires Sorted(tickets, rows) && i <= |rows| && k in tickets && k !in rows
    requires forall a, b :: a in tickets && b in tickets && a != b ==> tickets[a].rowid != tickets[b].rowid
    requires forall j :: 0 <= j < i ==> Before(tickets[rows[j]], tickets[k])
    requires i < |rows| ==> !Before(tickets[rows[i]], tickets[k])
    ensures Sorted(tickets, rows[..i] + [k] + rows[i..])
    ensures forall x :: x in rows[..i] + [k] + rows[i..] <==> x in rows || x == k
  {
    InsertMembers(rows, i, k);
    forall j | i <= j < |rows|
      ensures Before(tickets[k], tickets[rows[j]])
    {
      assert rows[i] in rows;
      ComesBeforeRest(tickets, rows, i, j, k);
    }
    InsertPairs(tickets, rows, i, k);
  }

  lemma InsertMembers(rows: seq<TicketId>, i: nat, k: TicketId)
    requires i <= |rows|
    ensures forall x :: x in rows[..i] + [k] + rows[i..] <==> x in rows || x == k
  {
    assert rows == rows[..i] + rows[i..];
  }

  lemma InsertPairs(tickets: map<TicketId, Ticket>, rows: seq<TicketId>, i: nat, k: TicketId)
    requires Sorted(tickets, rows) && i <= |rows| && k in tickets
    requires forall j :: 0 <= j < i ==> Before(tickets[rows[j]], tickets[k])
    requires forall j :: i <= j < |rows| ==> Before(tickets[k], tickets[rows[j]])
    ensures var q := rows[..i] + [k] + rows[i..];
            forall a, b :: 0 <= a < b < |q| ==> q[a] in tickets && q[b] in tickets && Before(tickets[q[a]], tickets[q[b]])
  {
    var q := rows[..i] + [k] + rows[i..];
    forall a, b | 0 <= a < b < |q|
      ensures q[a] in tickets && q[b] in tickets && Before(tickets[q[a]], tickets[q[b]])
    {
      assert q[a] == if a < i then rows[a] else if a == i then k else rows[a - 1];
      assert q[b] == if b < i then rows[b] else if b == i then k else rows[b - 1];
    }
  }

  /** Claiming one ticket takes exactly that ticket out of what is eligible. */
  lemma ClaimKeepsOthersEligible(routing: Routing, db: Db, tier: Option<Tier>, caps: set<string>, id: TicketId, lease: Lease, k: TicketId)
    requires ClaimGuard(routing, db, id, tier)
    ensures var db' := SetRow(db, id, Open, ClaimedRow(db.tickets[id], lease));
            Eligible(routing, db', tier, caps, k) <==> Eligible(routing, db, tier, caps, k) && k != id
  {
    var db' := SetRow(db, id, Open, ClaimedRow(db.tickets[id], lease));
    if k in db.tickets && k != id {
      assert db'.tickets[k] == db.tickets[k];
      assert DepsDone(db', k) <==> DepsDone(db, k);
    }
  }

  // -------------------------------------------------------- the claim loop

  /** `id` is what an eligible worker is offered first. */
  ghost predicate FirstEligible(routing: Routing, db: Db, tier: Option<Tier>, caps: set<string>, id: TicketId) {
    && Eligible(routing, db, tier, caps, id)
    && forall k :: Eligible(routing, db, tier, caps, k) && k != id ==> Before(db.tickets[id], db.tickets[k])
  }

  /** In the sorted rows of open tickets, an eligible one with no eligible one before it. */
  lemma FirstInOrder(routing: Routing, db: Db, tier: Option<Tier>, caps: set<string>, rows: seq<TicketId>, i: nat)
    requires Sorted(db.tickets, rows) && i < |rows|
    requires forall k :: Eligible(routing, db, tier, caps, k) ==> k in rows
    requires forall j :: 0 <= j < i ==> !Eligible(routing, db, tier, caps, rows[j])
    ensures Eligible(routing, db, tier, caps, rows[i]) ==> FirstEligible(routing, db, tier, caps, rows[i])
  {
    forall k | Eligible(routing, db, tier, caps, k) && k != rows[i]
      ensures Before(db.tickets[rows[i]], db.tickets[k])
    {
      var j :| 0 <= j < |rows| && rows[j] == k;
    }
  }

  /** Claiming has gone on in order: what is taken comes before what is left. */
  ghost predicate BatchSoFar(routing: Routing, db0: Db, tier: Option<Tier>, caps: set<string>, q: seq<TicketId>, db: Db) {
    && Sorted(db0.tickets, q)
    && (forall k :: k in q ==> Eligible(routing, db0, tier, caps, k))
    && (forall k :: Eligible(routing, db, tier, caps, k) <==> Eligible(routing, db0, tier, caps, k) && k !in q)
    && (forall k :: Eligible(routing, db, tier, caps, k) ==> db.tickets[k] == db0.tickets[k])
    && forall w, k :: w in q && Eligible(routing, db, tier, caps, k) ==> Before(db0.tickets[w], db0.tickets[k])
  }

  lemma BatchGrows(routing: Routing, db0: Db, tier: Option<Tier>, caps: set<string>, q: seq<TicketId>, db: Db, id: TicketId, lease: Lease)
    requires BatchSoFar(routing, db0, tier, caps, q, db)
    requires FirstEligible(routing, db, tier, caps, id)
    ensures BatchSoFar(routing, db0, tier, caps, q + [id], SetRow(db, id, Open, ClaimedRow(db.tickets[id], lease)))
  {
    var db' := SetRow(db, id, Open, ClaimedRow(db.tickets[id], lease));
    forall k
      ensures Eligible(routing, db', tier, caps, k) <==> Eligible(routing, db, tier, caps, k) && k != id
    {
      ClaimKeepsOthersEligible(routing, db, tier, caps, id, lease, k);
    }
    var p := q + [id];
    forall i, j | 0 <= i < j < |p|
      ensures Before(db0.tickets[p[i]], db0.tickets[p[j]])
    {
      if j == |q| {
        assert q[i] in q;
      }
    }
  }

  lemma BatchDone(routing: Routing, db0: Db, tier: Option<Tier>, caps: set<string>, max: int, q: seq<TicketId>, db: Db)
    requires BatchSoFar(routing, db0, tier, caps, q, db) && |q| <= BatchSize(max)
    requires |q| < BatchSize(max) ==> NoneEligible(routing, db, tier, caps)
    ensures IsBatch(routing, db0, tier, caps, max, q)
  {
  }
}
