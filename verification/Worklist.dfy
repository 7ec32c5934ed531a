/** The bookkeeping of the cascade's worklist: a stack of failed tickets whose dependents
    have not been visited, the set of tickets seen, and the list of tickets failed. */
module Worklist {
  import opened DependencyGraph
  import opened TicketStore
  import opened Fallout
  import opened ClaimOrder

  /** Every successor of what has been reached is reached, or its source still waits. */
  ghost predicate Covered(g: Edges, root: TicketId, reached: seq<TicketId>, stack: seq<TicketId>) {
    forall a, c :: (a == root || a in reached) && (a, c) in g ==> c in reached || a in stack
  }

  /** The same tickets, each for the first time, were put on the list and on the stack. */
  ghost predicate Grown(list: seq<TicketId>, stack: seq<TicketId>, list': seq<TicketId>, stack': seq<TicketId>) {
    exists hits :: GrownBy(list, stack, list', stack', hits)
  }

  ghost predicate GrownBy(list: seq<TicketId>, stack: seq<TicketId>, list': seq<TicketId>, stack': seq<TicketId>, hits: seq<TicketId>) {
    && list' == list + hits
    && stack' == stack + hits
    && Distinct(hits)
    && forall c :: c in hits ==> c !in list
  }

  lemma GrownNot(list: seq<TicketId>, stack: seq<TicketId>)
    ensures Grown(list, stack, list, stack)
  {
    assert GrownBy(list, stack, list, stack, []);
  }

  lemma GrownMore(list: seq<TicketId>, stack: seq<TicketId>, list': seq<TicketId>, stack': seq<TicketId>, c: TicketId)
    requires Grown(list, stack, list', stack') && c !in list'
    ensures Grown(list, stack, list' + [c], stack' + [c])
  {
    var hits :| GrownBy(list, stack, list', stack', hits);
    assert GrownBy(list, stack, list' + [c], stack' + [c], hits + [c]);
  }

  ghost predicate Tended(g: Edges, parent: TicketId, children: seq<TicketId>, list: seq<TicketId>) {
    forall c :: c in children && (parent, c) in g ==> c in list
  }

  lemma TendedMore(g: Edges, parent: TicketId, children: seq<TicketId>, i: nat, list: seq<TicketId>, list': seq<TicketId>)
    requires i < |children| && Tended(g, parent, children[..i], list) && list <= list'
    requires (parent, children[i]) in g ==> children[i] in list'
    ensures Tended(g, parent, children[..i + 1], list')
  {
    assert children[..i + 1] == children[..i] + [children[i]];
  }

  lemma Popped(db0: Db, root: TicketId, db: Db, cascaded: seq<TicketId>, seen: set<TicketId>, stack: seq<TicketId>)
    requires Cascading(db0, root, db, cascaded, seen, stack) && stack != []
    ensures Cascading(db0, root, db, cascaded, seen, stack[..|stack| - 1])
    ensures stack[|stack| - 1] == root || stack[|stack| - 1] in cascaded
  {
  }

  lemma CoverMore(g: Edges, root: TicketId, list: seq<TicketId>, stack: seq<TicketId>, list': seq<TicketId>, stack': seq<TicketId>)
    requires stack != [] && Covered(g, root, list, stack) && Distinct(list)
    requires Grown(list, stack[..|stack| - 1], list', stack')
    requires forall c :: (stack[|stack| - 1], c) in g ==> c in list'
    ensures Covered(g, root, list', stack') && Distinct(list')
    ensures |list'| > |list| || (list' == list && |stack'| < |stack|)
  {
    var parent := stack[|stack| - 1];
    assert forall x :: x in stack <==> x in stack[..|stack| - 1] || x == parent;
    var hits :| GrownBy(list, stack[..|stack| - 1], list', stack', hits);
    DistinctConcat(list, hits);
  }

  lemma DistinctConcat(p: seq<TicketId>, q: seq<TicketId>)
    requires Distinct(p) && Distinct(q) && forall c :: c in q ==> c !in p
    ensures Distinct(p + q)
  {
    var r := p + q;
    forall i, j | 0 <= i < j < |r|
      ensures r[i] != r[j]
    {
      if i < |p| <= j {
        assert r[j] == q[j - |p|] && r[j] in q && r[i] in p;
      }
    }
  }

  lemma NoMoreThanTickets(db: Db, q: seq<TicketId>)
    requires Distinct(q) && Elements(q) <= db.tickets.Keys
    ensures |q| <= |db.tickets|
  {
    DistinctCount(q);
    if |db.tickets| < |q| {
      assert Elements(q) != db.tickets.Keys;
      Smaller(Elements(q), db.tickets.Keys);
    }
  }

  /** Where the cascade's worklist stands. */
  ghost predicate Cascading(db0: Db, root: TicketId, db: Db, cascaded: seq<TicketId>, seen: set<TicketId>, stack: seq<TicketId>) {
    && root in db0.tickets && Dead(db0.tickets[root])
    && FailsExactly(db0, Elements(cascaded), db)
    && (forall x :: x in cascaded ==> x in seen)
    && (forall x :: x in seen ==> x in cascaded || !LiveRow(db0, x))
    && (forall c :: c in cascaded ==> LiveRow(db0, c) && ReachProper(LiveEdges(db0), root, c))
    && forall x :: x in stack ==> x == root || x in cascaded
  }

  /** What visiting an unseen dependent does to the worklist. */
  lemma VisitIsSound(db0: Db, root: TicketId, db: Db, cascaded: seq<TicketId>, seen: set<TicketId>, stack: seq<TicketId>,
                     parent: TicketId, child: TicketId)
    requires Cascading(db0, root, db, cascaded, seen, stack)
    requires (parent == root || parent in cascaded) && (child, parent) in db.deps && child !in seen
    ensures child !in cascaded
    ensures parent in db.tickets && Dead(db.tickets[parent])
    ensures if LiveRow(db, child)
            then Cascading(db0, root, FailOne(db, child), cascaded + [child], seen + {child}, stack + [child])
            else Cascading(db0, root, db, cascaded, seen + {child}, stack) && (parent, child) !in LiveEdges(db0)
  {
    CauseIsDead(db0, root, db, cascaded, parent);
    if LiveRow(db, child) {
      assert LiveRow(db0, child);
      assert (parent, child) in LiveEdges(db0);
      ReachProperStep(LiveEdges(db0), root, parent, child);
      VisitFails(db0, db, cascaded, child);
    }
  }

  lemma CauseIsDead(db0: Db, root: TicketId, db: Db, cascaded: seq<TicketId>, parent: TicketId)
    requires root in db0.tickets && Dead(db0.tickets[root]) && FailsExactly(db0, Elements(cascaded), db)
    requires parent == root || parent in cascaded
    ensures parent in db.tickets && Dead(db.tickets[parent])
  {
  }

  lemma VisitFails(db0: Db, db: Db, cascaded: seq<TicketId>, child: TicketId)
    requires FailsExactly(db0, Elements(cascaded), db)
    requires child in db.tickets && child !in cascaded
    ensures FailsExactly(db0, Elements(cascaded + [child]), FailOne(db, child))
  {
    ElementsSnoc(cascaded, child);
    FailOneMore(db0, Elements(cascaded), db, child);
  }

  lemma DependentsAreAll(db: Db, deps: Edges, parent: TicketId, children: seq<TicketId>)
    requires db.deps == deps && forall c :: c in children <==> (c, parent) in deps
    ensures forall c :: (parent, c) in LiveEdges(db) ==> c in children
  {
  }
}
