/** Quota callers whose steps interleave: how far usage and reservations can pass a cap, and
    exactly which steps take them over it. */
module QuotaRuns {
  import opened Options
  import opened Quota

  type Process = nat

  /** What a caller holds between its two steps: capacity found free but not yet reserved,
      or what a reservation it took out still covered when it did. */
  datatype Held = Held(provider: Provider, amount: Amount, checked: bool)

  /** The ledger's tables, the steps under way, the clock, and as accounting beside the
      records: of each record, the part its reservation covered and the part it did not. */
  datatype Books = Books(reservations: map<nat, Reservation>, nonce: nat, records: seq<Usage>,
                         covered: seq<Usage>, late: seq<Usage>, held: map<Process, Held>, now: Time)

  const EMPTY_BOOKS: Books := Books(map[], 0, [], [], [], map[], 0.0)

  const NOTHING: Amount := Amount(0, 0, 0.0)

  /** `reserve` checks and then inserts, `reconcile` pops and then commits; the lock is
      free in between. Every step reads the clock. */
  datatype Step =
    | Check(proc: Process, p: Provider, inTokens: int, outTokens: int, now: Time)
    | Insert(proc: Process, ttl: Time, now: Time)
    | Pop(proc: Process, p: Provider, id: nat, now: Time)
    | Commit(proc: Process, actual: Amount, now: Time)
    | Release(id: nat, now: Time)
    | Crash(proc: Process, now: Time)

  function UsedIn(b: Books, p: Provider, rule: Rule, d: Dim): real {
    Used(b.records, p, WindowStart(b.now, rule), d)
  }

  function ReservedIn(b: Books, p: Provider, d: Dim): real {
    Reserved(b.reservations, b.nonce, p, b.now, d)
  }

  /** Usage in the window that no live reservation covered when it was committed: late
      reconciles, and what went beyond an estimate. */
  function LateIn(b: Books, p: Provider, rule: Rule, d: Dim): real {
    Used(b.late, p, WindowStart(b.now, rule), d)
  }

  function CoveredIn(b: Books, p: Provider, rule: Rule, d: Dim): real {
    Used(b.covered, p, WindowStart(b.now, rule), d)
  }

  /** The amounts of one provider held by the first `n` callers. */
  function HeldBy(held: map<Process, Held>, n: nat, p: Provider, d: Dim): real {
    if n == 0 then 0.0
    else HeldBy(held, n - 1, p, d) + (if n - 1 in held && held[n - 1].provider == p then Of(d, held[n - 1].amount) else 0.0)
  }

  /** What a reservation still covers for a provider when it is taken out. */
  function StillCovers(b: Books, p: Provider, id: nat, now: Time): Amount {
    if id in b.reservations && b.reservations[id].expires > now && b.reservations[id].provider == p
    then b.reservations[id].amount else NOTHING
  }

  function Lesser(a: Amount, b: Amount): Amount {
    Amount(if a.requests < b.requests then a.requests else b.requests,
           if a.tokens < b.tokens then a.tokens else b.tokens,
           if a.cost < b.cost then a.cost else b.cost)
  }

  function Minus(a: Amount, b: Amount): Amount {
    Amount(a.requests - b.requests, a.tokens - b.tokens, a.cost - b.cost)
  }

  function Apply(rules: map<Provider, Rule>, b0: Books, s: Step): Books {
    var b := b0.(now := s.now);
    match s
    case Check(proc, p, inTokens, outTokens, now) =>
      if p in rules && Fits(rules[p], d => UsedIn(b, p, rules[p], d), d => ReservedIn(b, p, d), Estimate(rules[p], inTokens, outTokens))
      then b.(reservations := Live(b.reservations, now), held := b.held[proc := Held(p, Estimate(rules[p], inTokens, outTokens), true)])
      else b.(reservations := Live(b.reservations, now))
    case Insert(proc, ttl, now) =>
      if proc in b.held && b.held[proc].checked
      then b.(reservations := b.reservations[b.nonce := Reservation(b.held[proc].provider, b.held[proc].amount, now + ttl)],
              nonce := b.nonce + 1, held := b.held - {proc})
      else b
    case Pop(proc, p, id, now) =>
      b.(reservations := b.reservations - {id}, held := b.held[proc := Held(p, StillCovers(b, p, id, now), false)])
    case Commit(proc, actual, now) =>
      if proc in b.held && !b.held[proc].checked
      then
        var h := b.held[proc];
        b.(records := b.records + [Usage(h.provider, actual, now)],
           covered := b.covered + [Usage(h.provider, Lesser(actual, h.amount), now)],
           late := b.late + [Usage(h.provider, Minus(actual, Lesser(actual, h.amount)), now)],
           held := b.held - {proc})
      else b
    case Release(id, now) => b.(reservations := b.reservations - {id})
    case Crash(proc, now) => b.(held := b.held - {proc})
  }

  /** What is asked of the callers: the clock does not go back, a caller has one call open
      at a time, no amount is negative, no estimate for the provider is above `most`. */
  ghost predicate Proper(rules: map<Provider, Rule>, p: Provider, d: Dim, callers: nat, most: real, b: Books, s: Step) {
    && s.now >= b.now
    && match s {
         case Check(proc, q, inTokens, outTokens, _) =>
           && proc < callers && proc !in b.held
           && (q in rules ==> NonNegative(Estimate(rules[q], inTokens, outTokens)))
           && (q == p && q in rules ==> Of(d, Estimate(rules[q], inTokens, outTokens)) <= most)
         case Pop(proc, _, _, _) => proc < callers && proc !in b.held
         case Commit(_, actual, _) => NonNegative(actual)
         case _ => true
       }
  }

  /** Every record is accounted for, by a covered and a late part that are not negative. */
  ghost predicate Accounted(b: Books) {
    && |b.covered| == |b.records| == |b.late|
    && forall i :: 0 <= i < |b.records| ==> AccountedAt(b, i)
  }

  ghost predicate AccountedAt(b: Books, i: nat)
    requires i < |b.records| == |b.covered| == |b.late|
  {
    && b.covered[i].provider == b.records[i].provider == b.late[i].provider
    && b.covered[i].createdAt == b.records[i].createdAt == b.late[i].createdAt
    && NonNegative(b.covered[i].amount) && NonNegative(b.late[i].amount)
    && forall d :: Of(d, b.records[i].amount) == Of(d, b.covered[i].amount) + Of(d, b.late[i].amount)
  }

  ghost predicate AmountsOk(b: Books, callers: nat) {
    && Accounted(b)
    && (forall k :: k in b.reservations ==> k < b.nonce && NonNegative(b.reservations[k].amount))
    && (forall i :: i in b.held ==> i < callers && NonNegative(b.held[i].amount))
  }

  ghost predicate AtMost(b: Books, p: Provider, d: Dim, most: real) {
    && (forall k :: k in b.reservations && b.reservations[k].provider == p ==> Of(d, b.reservations[k].amount) <= most)
    && (forall i :: i in b.held && b.held[i].provider == p ==> Of(d, b.held[i].amount) <= most)
  }

  /** The amounts in the books are proper, and the provider's covered usage, reservations
      and amounts held never add up to more than the cap and one estimate for every caller
      but one. */
  ghost predicate Conserved(rules: map<Provider, Rule>, p: Provider, d: Dim, callers: nat, most: real, b: Books)
    requires p in rules
  {
    && AmountsOk(b, callers)
    && AtMost(b, p, d, most)
    && Total(b, p, rules[p], d, callers) <= Bound(rules[p], d, callers, most)
  }

  function Total(b: Books, p: Provider, rule: Rule, d: Dim, callers: nat): real {
    CoveredIn(b, p, rule, d) + ReservedIn(b, p, d) + HeldBy(b.held, callers, p, d)
  }

  function Limit(rule: Rule, d: Dim): real {
    AtLeastZero(if Cap(d, rule).Some? then Cap(d, rule).value else 0.0)
  }

  function Bound(rule: Rule, d: Dim, callers: nat, most: real): real {
    Limit(rule, d) + Slack(callers, most)
  }

  /** One estimate for every caller but one. */
  function Slack(callers: nat, most: real): real {
    if callers <= 1 then 0.0 else Slack(callers - 1, most) + most
  }

  lemma {:induction false} SlackIsProduct(others: nat, most: real)
    ensures Slack(others + 1, most) == others as real * most
  {
    if others > 0 {
      SlackIsProduct(others - 1, most);
      var n := (others - 1) as real;
      Distributes(n, most);
      assert others as real == n + 1.0;
      assert n * most + most == others as real * most;
    }
  }

  lemma {:induction false} UsedShrinks(records: seq<Usage>, p: Provider, since: Time, later: Time, d: Dim)
    requires since <= later
    requires forall i :: 0 <= i < |records| ==> NonNegative(records[i].amount)
    ensures 0.0 <= Used(records, p, later, d) <= Used(records, p, since, d)
  {
    if records != [] {
      UsedShrinks(records[..|records| - 1], p, since, later, d);
    }
  }

  lemma {:induction false} ReservedShrinks(a: map<nat, Reservation>, b: map<nat, Reservation>, n: nat, p: Provider, now: Time, later: Time, d: Dim)
    requires now <= later
    requires forall k :: k in b ==> k in a && a[k] == b[k]
    requires forall k :: k in a ==> NonNegative(a[k].amount)
    ensures 0.0 <= Reserved(b, n, p, later, d) <= Reserved(a, n, p, now, d)
  {
    if n > 0 {
      ReservedShrinks(a, b, n - 1, p, now, later, d);
    }
  }

  lemma {:induction false} ReservedWithout(a: map<nat, Reservation>, id: nat, n: nat, p: Provider, now: Time, d: Dim)
    requires id in a && a[id].expires > now
    ensures Reserved(a, n, p, now, d) ==
              Reserved(a - {id}, n, p, now, d) + (if id < n && a[id].provider == p then Of(d, a[id].amount) else 0.0)
  {
    if n > 0 {
      ReservedWithout(a, id, n - 1, p, now, d);
    }
  }

  lemma {:induction false} ReservedBelow(a: map<nat, Reservation>, id: nat, r: Reservation, n: nat, p: Provider, now: Time, d: Dim)
    requires n <= id
    ensures Reserved(a[id := r], n, p, now, d) == Reserved(a, n, p, now, d)
  {
    if n > 0 {
      ReservedBelow(a, id, r, n - 1, p, now, d);
    }
  }

  lemma {:induction false} HeldWithout(held: map<Process, Held>, proc: Process, n: nat, p: Provider, d: Dim)
    requires proc in held
    ensures HeldBy(held, n, p, d) ==
              HeldBy(held - {proc}, n, p, d) + (if proc < n && held[proc].provider == p then Of(d, held[proc].amount) else 0.0)
  {
    if n > 0 {
      HeldWithout(held, proc, n - 1, p, d);
    }
  }

  /** A caller that holds nothing leaves at most one estimate to each of the others. */
  lemma {:induction false} OthersHold(held: map<Process, Held>, proc: Process, n: nat, p: Provider, d: Dim, most: real)
    requires proc !in held && most >= 0.0
    requires forall i :: i in held && held[i].provider == p ==> Of(d, held[i].amount) <= most
    ensures HeldBy(held, n, p, d) <= if proc < n then Slack(n, most) else Slack(n + 1, most)
  {
    if n > 0 {
      OthersHold(held, proc, n - 1, p, d, most);
    }
  }

  /** Used is covered and late. */
  lemma {:induction false} UsedSplits(b: Books, n: nat, p: Provider, since: Time, d: Dim)
    requires Accounted(b) && n <= |b.records|
    ensures Used(b.records[..n], p, since, d) == Used(b.covered[..n], p, since, d) + Used(b.late[..n], p, since, d)
    ensures Used(b.late[..n], p, since, d) >= 0.0 && Used(b.covered[..n], p, since, d) >= 0.0
  {
    if n > 0 {
      UsedSplits(b, n - 1, p, since, d);
      assert AccountedAt(b, n - 1);
      assert b.records[..n][..n - 1] == b.records[..n - 1];
      assert b.covered[..n][..n - 1] == b.covered[..n - 1];
      assert b.late[..n][..n - 1] == b.late[..n - 1];
    }
  }

  lemma UsedIsCoveredAndLate(b: Books, p: Provider, rule: Rule, d: Dim)
    requires Accounted(b)
    ensures UsedIn(b, p, rule, d) == CoveredIn(b, p, rule, d) + LateIn(b, p, rule, d)
    ensures LateIn(b, p, rule, d) >= 0.0 && CoveredIn(b, p, rule, d) >= 0.0
  {
    UsedSplits(b, |b.records|, p, WindowStart(b.now, rule), d);
    assert b.records[..|b.records|] == b.records && b.covered[..|b.records|] == b.covered && b.late[..|b.records|] == b.late;
  }

  /** Time passing frees capacity and never takes any. */
  lemma ClockKeeps(rules: map<Provider, Rule>, p: Provider, d: Dim, callers: nat, most: real, b: Books, now: Time)
    requires p in rules && Conserved(rules, p, d, callers, most, b) && now >= b.now
    ensures Conserved(rules, p, d, callers, most, b.(now := now))
  {
    WindowStartMonotone(b.now, now, rules[p]);
    SameRecordsAccounted(b, b.(now := now));
    RecordsNotNegative(b);
    UsedShrinks(b.covered, p, WindowStart(b.now, rules[p]), WindowStart(now, rules[p]), d);
    ReservedShrinks(b.reservations, b.reservations, b.nonce, p, b.now, now, d);
  }

  lemma SameRecordsAccounted(b: Books, b': Books)
    requires Accounted(b) && b'.records == b.records && b'.covered == b.covered && b'.late == b.late
    ensures Accounted(b')
  {
    forall i | 0 <= i < |b'.records|
      ensures AccountedAt(b', i)
    {
      assert AccountedAt(b, i);
    }
  }

  lemma CheckKeeps(rules: map<Provider, Rule>, p: Provider, d: Dim, callers: nat, most: real, b: Books, s: Step)
    requires p in rules && rules[p].limited && Cap(d, rules[p]).Some? && most >= 0.0
    requires Conserved(rules, p, d, callers, most, b) && s.Check? && s.now == b.now && Proper(rules, p, d, callers, most, b, s)
    ensures Conserved(rules, p, d, callers, most, Apply(rules, b, s))
  {
    SameLiveSameSum(b.reservations, Live(b.reservations, b.now), b.nonce, p, b.now, d);
    SameRecordsAccounted(b, Apply(rules, b, s));
    if Apply(rules, b, s).held != b.held {
      Admitted(rules, d, b, s);
      HeldStaysProper(rules, p, d, callers, most, b, s.proc, Held(s.p, Estimate(rules[s.p], s.inTokens, s.outTokens), true));
    } else {
      assert Apply(rules, b, s) == b.(reservations := Live(b.reservations, b.now));
    }
  }

  /** One more caller comes to hold an amount that fits beside what is used and reserved. */
  lemma HeldStaysProper(rules: map<Provider, Rule>, p: Provider, d: Dim, callers: nat, most: real, b: Books, proc: Process, h: Held)
    requires p in rules && Cap(d, rules[p]).Some? && most >= 0.0 && Conserved(rules, p, d, callers, most, b)
    requires proc < callers && proc !in b.held && NonNegative(h.amount)
    requires h.provider == p ==>
               && Of(d, h.amount) <= most
               && Covers(Cap(d, rules[p]).value, UsedIn(b, p, rules[p], d), ReservedIn(b, p, d), Of(d, h.amount))
    requires Reserved(Live(b.reservations, b.now), b.nonce, p, b.now, d) == ReservedIn(b, p, d)
    ensures Conserved(rules, p, d, callers, most, b.(reservations := Live(b.reservations, b.now), held := b.held[proc := h]))
  {
    SameRecordsAccounted(b, b.(reservations := Live(b.reservations, b.now), held := b.held[proc := h]));
    UsedIsCoveredAndLate(b, p, rules[p], d);
    OthersHold(b.held, proc, callers, p, d, most);
    HoldMore(b.held, proc, h, callers, p, d);
    if h.provider == p {
      FitsAnyway(CoveredIn(b, p, rules[p], d) + ReservedIn(b, p, d), HeldBy(b.held, callers, p, d),
                 Of(d, h.amount), Cap(d, rules[p]).value, Slack(callers, most));
    }
  }

  lemma FitsAnyway(taken: real, others: real, more: real, cap: real, slack: real)
    requires others <= slack && taken + others <= AtLeastZero(cap) + slack
    requires more <= AtLeastZero(cap - taken)
    ensures taken + others + more <= AtLeastZero(cap) + slack
  {
  }

  lemma HoldMore(held: map<Process, Held>, proc: Process, h: Held, n: nat, p: Provider, d: Dim)
    requires proc !in held
    ensures HeldBy(held[proc := h], n, p, d) == HeldBy(held, n, p, d) + (if proc < n && h.provider == p then Of(d, h.amount) else 0.0)
  {
    HeldWithout(held[proc := h], proc, n, p, d);
    assert held[proc := h] - {proc} == held;
  }

  /** What a passed check says about one capped quantity. */
  lemma Admitted(rules: map<Provider, Rule>, d: Dim, b: Books, s: Step)
    requires s.Check? && s.now == b.now && Apply(rules, b, s).held != b.held
    ensures s.p in rules
    ensures var rule := rules[s.p];
            var a := Estimate(rule, s.inTokens, s.outTokens);
            && Apply(rules, b, s) == b.(reservations := Live(b.reservations, b.now), held := b.held[s.proc := Held(s.p, a, true)])
            && (rule.limited && Cap(d, rule).Some? ==>
                  Covers(Cap(d, rule).value, UsedIn(b, s.p, rule, d), ReservedIn(b, s.p, d), Of(d, a)))
  {
    assert b.(now := s.now) == b;
  }

  lemma InsertKeeps(rules: map<Provider, Rule>, p: Provider, d: Dim, callers: nat, most: real, b: Books, s: Step)
    requires p in rules
    requires Conserved(rules, p, d, callers, most, b) && s.Insert? && s.now == b.now
    ensures Conserved(rules, p, d, callers, most, Apply(rules, b, s))
  {
    SameRecordsAccounted(b, Apply(rules, b, s));
    if s.proc in b.held && b.held[s.proc].checked {
      HeldWithout(b.held, s.proc, callers, p, d);
      InsertReserves(rules, b, s, p, d);
    }
  }

  /** An insert reserves what is held, if the reservation is not dead on arrival. */
  lemma InsertReserves(rules: map<Provider, Rule>, b: Books, s: Step, p: Provider, d: Dim)
    requires s.Insert? && s.now == b.now && s.proc in b.held && b.held[s.proc].checked
    ensures ReservedIn(Apply(rules, b, s), p, d) ==
              ReservedIn(b, p, d) + (if b.held[s.proc].provider == p && s.ttl > 0.0 then Of(d, b.held[s.proc].amount) else 0.0)
  {
    ReservedBelow(b.reservations, b.nonce, Reservation(b.held[s.proc].provider, b.held[s.proc].amount, s.now + s.ttl), b.nonce, p, b.now, d);
  }

  lemma PopKeeps(rules: map<Provider, Rule>, p: Provider, d: Dim, callers: nat, most: real, b: Books, s: Step)
    requires p in rules && most >= 0.0
    requires Conserved(rules, p, d, callers, most, b) && s.Pop? && s.now == b.now && Proper(rules, p, d, callers, most, b, s)
    ensures Conserved(rules, p, d, callers, most, Apply(rules, b, s))
  {
    SameRecordsAccounted(b, Apply(rules, b, s));
    HoldMore(b.held, s.proc, Held(s.p, StillCovers(b, s.p, s.id, s.now), false), callers, p, d);
    PopReleases(b, s.p, s.id, p, d);
  }

  /** Taking a reservation out frees at least what it still covers. */
  lemma PopReleases(b: Books, q: Provider, id: nat, p: Provider, d: Dim)
    requires forall k :: k in b.reservations ==> k < b.nonce && NonNegative(b.reservations[k].amount)
    ensures Reserved(b.reservations - {id}, b.nonce, p, b.now, d) + (if q == p then Of(d, StillCovers(b, q, id, b.now)) else 0.0)
              <= ReservedIn(b, p, d)
    ensures NonNegative(StillCovers(b, q, id, b.now))
  {
    if id in b.reservations && b.reservations[id].expires > b.now {
      ReservedWithout(b.reservations, id, b.nonce, p, b.now, d);
    } else {
      ReservedShrinks(b.reservations, b.reservations - {id}, b.nonce, p, b.now, b.now, d);
    }
  }

  lemma CommitKeeps(rules: map<Provider, Rule>, p: Provider, d: Dim, callers: nat, most: real, b: Books, s: Step)
    requires p in rules
    requires Conserved(rules, p, d, callers, most, b) && s.Commit? && s.now == b.now && Proper(rules, p, d, callers, most, b, s)
    ensures Conserved(rules, p, d, callers, most, Apply(rules, b, s))
  {
    if s.proc in b.held && !b.held[s.proc].checked {
      CommitAccounts(rules, b, s, callers);
      HeldWithout(b.held, s.proc, callers, p, d);
      WindowStartMonotone(b.now, b.now, rules[p]);
      var h := b.held[s.proc];
      UsedMore(b.covered, Usage(h.provider, Lesser(s.actual, h.amount), s.now), p, WindowStart(b.now, rules[p]), d);
      LesserParts(s.actual, h.amount, d);
    } else {
      assert Apply(rules, b, s) == b;
    }
  }

  lemma LesserParts(a: Amount, b: Amount, d: Dim)
    ensures Of(d, a) == Of(d, Lesser(a, b)) + Of(d, Minus(a, Lesser(a, b)))
    ensures Of(d, Lesser(a, b)) <= Of(d, b) && Of(d, Lesser(a, b)) <= Of(d, a)
  {
  }

  lemma CommitAccounts(rules: map<Provider, Rule>, b: Books, s: Step, callers: nat)
    requires AmountsOk(b, callers) && s.Commit? && s.proc in b.held && !b.held[s.proc].checked && NonNegative(s.actual)
    ensures Accounted(Apply(rules, b, s))
  {
    var b' := Apply(rules, b, s);
    forall i | 0 <= i < |b'.records|
      ensures AccountedAt(b', i)
    {
      if i < |b.records| {
        assert AccountedAt(b, i);
      } else {
        forall d
          ensures Of(d, b'.records[i].amount) == Of(d, b'.covered[i].amount) + Of(d, b'.late[i].amount)
        {
          LesserParts(s.actual, b.held[s.proc].amount, d);
        }
      }
    }
  }

  lemma UsedMore(records: seq<Usage>, r: Usage, p: Provider, since: Time, d: Dim)
    ensures Used(records + [r], p, since, d)
              == Used(records, p, since, d) + (if r.provider == p && r.createdAt >= since then Of(d, r.amount) else 0.0)
  {
    assert (records + [r])[..|records|] == records;
  }

  lemma DropKeeps(rules: map<Provider, Rule>, p: Provider, d: Dim, callers: nat, most: real, b: Books, s: Step)
    requires p in rules
    requires Conserved(rules, p, d, callers, most, b) && (s.Release? || s.Crash?) && s.now == b.now
    ensures Conserved(rules, p, d, callers, most, Apply(rules, b, s))
  {
    SameRecordsAccounted(b, Apply(rules, b, s));
    if s.Release? {
      ReservedShrinks(b.reservations, b.reservations - {s.id}, b.nonce, p, b.now, b.now, d);
    } else if s.proc in b.held {
      HeldWithout(b.held, s.proc, callers, p, d);
    } else {
      assert b.held - {s.proc} == b.held;
    }
  }

  lemma StepKeepsConserved(rules: map<Provider, Rule>, p: Provider, d: Dim, callers: nat, most: real, b: Books, s: Step)
    requires p in rules && rules[p].limited && Cap(d, rules[p]).Some? && most >= 0.0
    requires Conserved(rules, p, d, callers, most, b) && Proper(rules, p, d, callers, most, b, s)
    ensures Conserved(rules, p, d, callers, most, Apply(rules, b, s))
  {
    ClockKeeps(rules, p, d, callers, most, b, s.now);
    var b1 := b.(now := s.now);
    assert Apply(rules, b, s) == Apply(rules, b1, s);
    match s {
      case Check(_, _, _, _, _) => CheckKeeps(rules, p, d, callers, most, b1, s);
      case Insert(_, _, _) => InsertKeeps(rules, p, d, callers, most, b1, s);
      case Pop(_, _, _, _) => PopKeeps(rules, p, d, callers, most, b1, s);
      case Commit(_, _, _) => CommitKeeps(rules, p, d, callers, most, b1, s);
      case _ => DropKeeps(rules, p, d, callers, most, b1, s);
    }
  }

  ghost predicate IsRun(rules: map<Provider, Rule>, p: Provider, d: Dim, callers: nat, most: real, bs: seq<Books>, ss: seq<Step>) {
    && |bs| == |ss| + 1
    && bs[0] == EMPTY_BOOKS.(now := bs[0].now)
    && forall i :: 0 <= i < |ss| ==> Proper(rules, p, d, callers, most, bs[i], ss[i]) && bs[i + 1] == Apply(rules, bs[i], ss[i])
  }

  lemma {:induction false} RunKeepsConserved(rules: map<Provider, Rule>, p: Provider, d: Dim, callers: nat, most: real,
                                             bs: seq<Books>, ss: seq<Step>, n: nat)
    requires p in rules && rules[p].limited && Cap(d, rules[p]).Some? && most >= 0.0
    requires IsRun(rules, p, d, callers, most, bs, ss) && n < |bs|
    ensures Conserved(rules, p, d, callers, most, bs[n])
  {
    if n == 0 {
      NothingHeld(map[], callers, p, d);
      SlackNotNegative(callers, most);
    } else {
      RunKeepsConserved(rules, p, d, callers, most, bs, ss, n - 1);
      StepKeepsConserved(rules, p, d, callers, most, bs[n - 1], ss[n - 1]);
    }
  }

  /** Conservation over every run. With `callers` callers whose steps interleave, what a
      provider has committed in its window and holds reserved never passes the cap by more
      than one estimate for every caller but one and what was committed late, that is,
      after its reservation had gone or beyond its estimate. */
  lemma OverspendIsBounded(rules: map<Provider, Rule>, p: Provider, d: Dim, callers: nat, most: real,
                           bs: seq<Books>, ss: seq<Step>, n: nat)
    requires p in rules && rules[p].limited && Cap(d, rules[p]).Some? && most >= 0.0 && callers >= 1
    requires IsRun(rules, p, d, callers, most, bs, ss) && n < |bs|
    ensures UsedIn(bs[n], p, rules[p], d) + ReservedIn(bs[n], p, d)
              <= Limit(rules[p], d) + (callers - 1) as real * most + LateIn(bs[n], p, rules[p], d)
  {
    RunKeepsConserved(rules, p, d, callers, most, bs, ss, n);
    HeldNotNegative(bs[n].held, callers, p, d);
    UsedIsCoveredAndLate(bs[n], p, rules[p], d);
    SlackIsProduct(callers - 1, most);
  }

  /** With calls that do not overlap the cap is kept but for what was committed late, across
      expiry and moving windows; with nothing late it is kept exactly. */
  lemma ConservedWithoutOverlap(rules: map<Provider, Rule>, p: Provider, d: Dim, most: real, bs: seq<Books>, ss: seq<Step>, n: nat)
    requires p in rules && rules[p].limited && Cap(d, rules[p]).Some? && most >= 0.0
    requires IsRun(rules, p, d, 1, most, bs, ss) && n < |bs|
    ensures UsedIn(bs[n], p, rules[p], d) + ReservedIn(bs[n], p, d) <= Limit(rules[p], d) + LateIn(bs[n], p, rules[p], d)
  {
    OverspendIsBounded(rules, p, d, 1, most, bs, ss, n);
  }

  lemma {:induction false} SlackNotNegative(callers: nat, most: real)
    requires most >= 0.0
    ensures Slack(callers, most) >= 0.0
  {
    if callers > 1 {
      SlackNotNegative(callers - 1, most);
    }
  }

  lemma {:induction false} NothingHeld(held: map<Process, Held>, n: nat, p: Provider, d: Dim)
    requires held == map[]
    ensures HeldBy(held, n, p, d) == 0.0
  {
    if n > 0 {
      NothingHeld(held, n - 1, p, d);
    }
  }

  lemma {:induction false} HeldNotNegative(held: map<Process, Held>, n: nat, p: Provider, d: Dim)
    requires forall i :: i in held ==> NonNegative(held[i].amount)
    ensures HeldBy(held, n, p, d) >= 0.0
  {
    if n > 0 {
      HeldNotNegative(held, n - 1, p, d);
    }
  }

  // ----------------------------------------------- the steps that overspend

  ghost predicate WithinCap(b: Books, p: Provider, rule: Rule, d: Dim) {
    UsedIn(b, p, rule, d) + ReservedIn(b, p, d) <= Limit(rule, d)
  }

  /** The step inserts a reservation, or commits a usage, that the admission check would
      not let through any more: between the check, or the expiry, and now the headroom it
      relied on has gone. */
  ghost predicate Overshoots(rules: map<Provider, Rule>, p: Provider, d: Dim, b0: Books, s: Step)
    requires p in rules && Cap(d, rules[p]).Some?
  {
    var b := b0.(now := s.now);
    var cap, used, reserved := Cap(d, rules[p]).value, UsedIn(b, p, rules[p], d), ReservedIn(b, p, d);
    && (s.Insert? || s.Commit?) && s.proc in b.held && b.held[s.proc].provider == p
    && (if s.Insert? then b.held[s.proc].checked && s.ttl > 0.0 && !Covers(cap, used, reserved, Of(d, b.held[s.proc].amount))
        else !b.held[s.proc].checked && !Covers(cap, used, reserved, Of(d, s.actual)))
  }

  /** The exact condition: a step takes books that are within the cap over it if and only
      if it overshoots. */
  lemma StepExceedsIff(rules: map<Provider, Rule>, p: Provider, d: Dim, callers: nat, most: real, b: Books, s: Step)
    requires p in rules && Cap(d, rules[p]).Some? && AmountsOk(b, callers)
    requires Proper(rules, p, d, callers, most, b, s) && WithinCap(b, p, rules[p], d)
    ensures AmountsOk(Apply(rules, b, s), callers)
    ensures WithinCap(Apply(rules, b, s), p, rules[p], d) <==> !Overshoots(rules, p, d, b, s)
  {
    var b1 := b.(now := s.now);
    ClockWithinCap(b, p, rules[p], d, s.now, callers);
    assert Apply(rules, b, s) == Apply(rules, b1, s);
    StepAmounts(rules, p, d, callers, most, b1, s);
    match s {
      case Check(_, _, _, _, _) => SameLiveSameSum(b1.reservations, Live(b1.reservations, b1.now), b1.nonce, p, b1.now, d);
      case Insert(_, _, _) => InsertExceedsIff(rules, p, d, callers, b1, s);
      case Pop(_, _, id, _) => PopReleases(b1, s.p, id, p, d);
      case Commit(_, _, _) => CommitExceedsIff(rules, p, d, callers, b1, s);
      case _ => DropWithinCap(rules, p, d, callers, b1, s);
    }
  }

  lemma ClockWithinCap(b: Books, p: Provider, rule: Rule, d: Dim, now: Time, callers: nat)
    requires AmountsOk(b, callers) && WithinCap(b, p, rule, d) && now >= b.now
    ensures AmountsOk(b.(now := now), callers) && WithinCap(b.(now := now), p, rule, d)
  {
    WindowStartMonotone(b.now, now, rule);
    SameRecordsAccounted(b, b.(now := now));
    RecordsNotNegative(b);
    UsedShrinks(b.records, p, WindowStart(b.now, rule), WindowStart(now, rule), d);
    ReservedShrinks(b.reservations, b.reservations, b.nonce, p, b.now, now, d);
  }

  lemma RecordsNotNegative(b: Books)
    requires Accounted(b)
    ensures forall i :: 0 <= i < |b.records| ==> NonNegative(b.records[i].amount)
    ensures forall i :: 0 <= i < |b.covered| ==> NonNegative(b.covered[i].amount)
  {
    forall i | 0 <= i < |b.records|
      ensures NonNegative(b.records[i].amount) && NonNegative(b.covered[i].amount)
    {
      assert AccountedAt(b, i);
      assert Of(Requests, b.records[i].amount) >= 0.0 && Of(Tokens, b.records[i].amount) >= 0.0 && Of(Spend, b.records[i].amount) >= 0.0;
    }
  }

  /** Amounts stay proper whatever the step. */
  lemma StepAmounts(rules: map<Provider, Rule>, p: Provider, d: Dim, callers: nat, most: real, b: Books, s: Step)
    requires AmountsOk(b, callers) && s.now == b.now && Proper(rules, p, d, callers, most, b, s)
    ensures AmountsOk(Apply(rules, b, s), callers)
  {
    if s.Commit? && s.proc in b.held && !b.held[s.proc].checked {
      CommitAccounts(rules, b, s, callers);
    } else {
      SameRecordsAccounted(b, Apply(rules, b, s));
    }
  }

  lemma TakenNotNegative(b: Books, p: Provider, rule: Rule, d: Dim, callers: nat)
    requires AmountsOk(b, callers)
    ensures UsedIn(b, p, rule, d) >= 0.0 && ReservedIn(b, p, d) >= 0.0
  {
    UsedIsCoveredAndLate(b, p, rule, d);
    ReservedShrinks(b.reservations, b.reservations, b.nonce, p, b.now, b.now, d);
  }

  lemma InsertExceedsIff(rules: map<Provider, Rule>, p: Provider, d: Dim, callers: nat, b: Books, s: Step)
    requires p in rules && Cap(d, rules[p]).Some? && AmountsOk(b, callers) && WithinCap(b, p, rules[p], d)
    requires s.Insert? && s.now == b.now
    ensures WithinCap(Apply(rules, b, s), p, rules[p], d) <==> !Overshoots(rules, p, d, b, s)
  {
    TakenNotNegative(b, p, rules[p], d, callers);
    assert b.(now := s.now) == b;
    if s.proc in b.held && b.held[s.proc].checked {
      InsertReserves(rules, b, s, p, d);
    }
  }

  lemma CommitExceedsIff(rules: map<Provider, Rule>, p: Provider, d: Dim, callers: nat, b: Books, s: Step)
    requires p in rules && Cap(d, rules[p]).Some? && AmountsOk(b, callers) && WithinCap(b, p, rules[p], d)
    requires s.Commit? && s.now == b.now && NonNegative(s.actual)
    ensures WithinCap(Apply(rules, b, s), p, rules[p], d) <==> !Overshoots(rules, p, d, b, s)
  {
    TakenNotNegative(b, p, rules[p], d, callers);
    assert b.(now := s.now) == b;
    if s.proc in b.held && !b.held[s.proc].checked {
      WindowStartMonotone(b.now, b.now, rules[p]);
      UsedMore(b.records, Usage(b.held[s.proc].provider, s.actual, s.now), p, WindowStart(b.now, rules[p]), d);
    }
  }

  lemma DropWithinCap(rules: map<Provider, Rule>, p: Provider, d: Dim, callers: nat, b: Books, s: Step)
    requires p in rules && AmountsOk(b, callers) && WithinCap(b, p, rules[p], d)
    requires (s.Release? || s.Crash?) && s.now == b.now
    ensures WithinCap(Apply(rules, b, s), p, rules[p], d)
  {
    if s.Release? {
      ReservedShrinks(b.reservations, b.reservations - {s.id}, b.nonce, p, b.now, b.now, d);
    }
  }

  ghost predicate AlwaysWithinCap(bs: seq<Books>, n: nat, p: Provider, rule: Rule, d: Dim)
    requires n < |bs|
  {
    WithinCap(bs[n], p, rule, d) && (n == 0 || AlwaysWithinCap(bs, n - 1, p, rule, d))
  }

  ghost predicate NeverOvershoots(rules: map<Provider, Rule>, p: Provider, d: Dim, bs: seq<Books>, ss: seq<Step>, n: nat)
    requires p in rules && Cap(d, rules[p]).Some? && n < |bs| == |ss| + 1
  {
    n == 0 || (NeverOvershoots(rules, p, d, bs, ss, n - 1) && !Overshoots(rules, p, d, bs[n - 1], ss[n - 1]))
  }

  /** Over whole runs, whatever the callers and their estimates: the cap is kept at every
      point if and only if no step overshoots. */
  lemma {:induction false} RunWithinCapIff(rules: map<Provider, Rule>, p: Provider, d: Dim, callers: nat, most: real,
                                           bs: seq<Books>, ss: seq<Step>, n: nat)
    requires p in rules && Cap(d, rules[p]).Some?
    requires IsRun(rules, p, d, callers, most, bs, ss) && n < |bs|
    ensures AmountsOk(bs[n], callers)
    ensures AlwaysWithinCap(bs, n, p, rules[p], d) <==> NeverOvershoots(rules, p, d, bs, ss, n)
  {
    if n > 0 {
      RunWithinCapIff(rules, p, d, callers, most, bs, ss, n - 1);
      StepKeepsAmounts(rules, p, d, callers, most, bs[n - 1], ss[n - 1]);
      if WithinCap(bs[n - 1], p, rules[p], d) {
        StepExceedsIff(rules, p, d, callers, most, bs[n - 1], ss[n - 1]);
      }
    }
  }

  lemma StepKeepsAmounts(rules: map<Provider, Rule>, p: Provider, d: Dim, callers: nat, most: real, b: Books, s: Step)
    requires AmountsOk(b, callers) && Proper(rules, p, d, callers, most, b, s)
    ensures AmountsOk(Apply(rules, b, s), callers)
  {
    var b1 := b.(now := s.now);
    SameRecordsAccounted(b, b1);
    assert Apply(rules, b, s) == Apply(rules, b1, s);
    StepAmounts(rules, p, d, callers, most, b1, s);
  }

  /** An undisturbed `reserve` is its check and its insert, and does what the method does. */
  lemma ReserveIsItsSteps(rules: map<Provider, Rule>, b: Books, proc: Process, p: Provider, inTokens: int, outTokens: int,
                          ttl: Time, now: Time, later: Time)
    requires p in rules && proc !in b.held
    ensures var rule := rules[p];
            var a := Estimate(rule, inTokens, outTokens);
            var after := Apply(rules, Apply(rules, b, Check(proc, p, inTokens, outTokens, now)), Insert(proc, ttl, later));
            && after.records == b.records && after.held == b.held
            && after.reservations ==
                 if Fits(rule, d => Used(b.records, p, WindowStart(now, rule), d), d => Reserved(b.reservations, b.nonce, p, now, d), a)
                 then Live(b.reservations, now)[b.nonce := Reservation(p, a, later + ttl)]
                 else Live(b.reservations, now)
  {
    var rule := rules[p];
    var b1 := b.(now := now);
    var a := Estimate(rule, inTokens, outTokens);
    var mid := Apply(rules, b, Check(proc, p, inTokens, outTokens, now));
    assert Fits(rule, d => UsedIn(b1, p, rule, d), d => ReservedIn(b1, p, d), a)
      <==> Fits(rule, d => Used(b.records, p, WindowStart(now, rule), d), d => Reserved(b.reservations, b.nonce, p, now, d), a);
    if proc in mid.held {
      assert mid.held - {proc} == b.held;
    }
  }

  /** An undisturbed `reconcile` is its pop and its commit, and does what the method does,
      whether or not the reservation is still there. */
  lemma ReconcileIsItsSteps(rules: map<Provider, Rule>, b: Books, proc: Process, p: Provider, id: nat, actual: Amount, now: Time, later: Time)
    requires proc !in b.held
    ensures var after := Apply(rules, Apply(rules, b, Pop(proc, p, id, now)), Commit(proc, actual, later));
            && after.reservations == b.reservations - {id} && after.held == b.held
            && after.records == b.records + [Usage(p, actual, later)]
  {
    var mid := Apply(rules, b, Pop(proc, p, id, now));
    assert mid.held - {proc} == b.held;
  }

  /** A reconcile whose reservation has expired or is gone: it takes books within the cap
      over it if and only if the headroom of that moment does not cover the actual usage. */
  lemma LateReconcileExceedsIff(rules: map<Provider, Rule>, d: Dim, callers: nat, b: Books, proc: Process, p: Provider, id: nat,
                                actual: Amount, now: Time)
    requires p in rules && Cap(d, rules[p]).Some? && AmountsOk(b, callers) && WithinCap(b, p, rules[p], d)
    requires proc < callers && proc !in b.held && NonNegative(actual) && now == b.now
    requires id in b.reservations ==> b.reservations[id].expires <= now
    ensures var after := Apply(rules, Apply(rules, b, Pop(proc, p, id, now)), Commit(proc, actual, now));
            WithinCap(after, p, rules[p], d) <==>
              Covers(Cap(d, rules[p]).value, UsedIn(b, p, rules[p], d), ReservedIn(b, p, d), Of(d, actual))
  {
    var mid := Apply(rules, b, Pop(proc, p, id, now));
    StepExceedsIff(rules, p, d, callers, 0.0, b, Pop(proc, p, id, now));
    SameLiveSameSum(b.reservations, b.reservations - {id}, b.nonce, p, now, d);
    StepExceedsIff(rules, p, d, callers, 0.0, mid, Commit(proc, actual, now));
  }

  // ------------------------------------------------------- the bound is met

  /** A provider with one request, and what its callers check for, hold and reserve. */
  const ONE_REQUEST: Rule := Rule(true, None, false, Some(1), None, None, 0.0, 0.0)
  const ONE: Amount := Amount(1, 0, 0.0)

  /** The same value under every key from `low` on below `high`. */
  function Uniform<T>(low: nat, high: nat, x: T): (m: map<nat, T>)
    ensures forall i :: i in m <==> low <= i < high
    ensures forall i :: i in m ==> m[i] == x
    decreases high
  {
    if high <= low then map[] else Uniform(low, high - 1, x)[high - 1 := x]
  }

  /** After `k` callers have checked, and after `j` of them have inserted. */
  function Checked(k: nat): Books {
    Books(map[], 0, [], [], [], Uniform(0, k, Held("p", ONE, true)), 1.0)
  }

  function Inserted(callers: nat, j: nat): Books {
    Books(Uniform(0, j, Reservation("p", ONE, 121.0)), j, [], [], [], Uniform(j, callers, Held("p", ONE, true)), 1.0)
  }

  function OverlapSteps(callers: nat): seq<Step> {
    seq(callers, i requires 0 <= i < callers => Check(i, "p", 0, 0, 1.0)) +
    seq(callers, i requires 0 <= i < callers => Insert(i, 120.0, 1.0))
  }

  function OverlapBooks(callers: nat): seq<Books> {
    seq(callers, i requires 0 <= i < callers => Checked(i)) +
    seq(callers + 1, j requires 0 <= j <= callers => Inserted(callers, j))
  }

  lemma CheckOne(k: nat)
    ensures Apply(map["p" := ONE_REQUEST], Checked(k), Check(k, "p", 0, 0, 1.0)) == Checked(k + 1)
  {
    var b := Checked(k);
    var rules := map["p" := ONE_REQUEST];
    assert Live(map[], 1.0) == map[];
    assert Estimate(ONE_REQUEST, 0, 0) == ONE;
    assert Fits(ONE_REQUEST, d => UsedIn(b, "p", ONE_REQUEST, d), d => ReservedIn(b, "p", d), ONE);
    assert Checked(k + 1).held == b.held[k := Held("p", ONE, true)];
  }

  lemma InsertOne(callers: nat, j: nat)
    requires j < callers
    ensures Apply(map["p" := ONE_REQUEST], Inserted(callers, j), Insert(j, 120.0, 1.0)) == Inserted(callers, j + 1)
  {
    var b := Inserted(callers, j);
    assert Inserted(callers, j + 1).held == b.held - {j};
    assert Inserted(callers, j + 1).reservations == b.reservations[j := Reservation("p", ONE, 121.0)];
  }

  lemma {:induction false} AllReserved(callers: nat, n: nat)
    requires n <= callers
    ensures Reserved(Inserted(callers, callers).reservations, n, "p", 1.0, Requests) == n as real
  {
    if n > 0 {
      AllReserved(callers, n - 1);
    }
  }

  /** The bound is met, for any number of callers: all check before any inserts, all are
      granted the one request left, and reservations stand at the bound exactly. */
  lemma OverlapReachesBound(callers: nat)
    requires callers >= 1
    ensures var rules := map["p" := ONE_REQUEST];
            var bs, ss := OverlapBooks(callers), OverlapSteps(callers);
            && IsRun(rules, "p", Requests, callers, 1.0, bs, ss)
            && UsedIn(bs[|ss|], "p", ONE_REQUEST, Requests) + ReservedIn(bs[|ss|], "p", Requests)
                 == Bound(ONE_REQUEST, Requests, callers, 1.0) == callers as real
  {
    var rules := map["p" := ONE_REQUEST];
    var bs, ss := OverlapBooks(callers), OverlapSteps(callers);
    assert Checked(callers) == Inserted(callers, 0) by {
      assert Checked(callers).held == Inserted(callers, 0).held;
    }
    assert Checked(0).held == map[];
    assert Estimate(ONE_REQUEST, 0, 0) == ONE;
    forall i | 0 <= i < |ss|
      ensures Proper(rules, "p", Requests, callers, 1.0, bs[i], ss[i]) && bs[i + 1] == Apply(rules, bs[i], ss[i])
    {
      if i < callers {
        CheckOne(i);
      } else {
        InsertOne(callers, i - callers);
      }
    }
    AllReserved(callers, callers);
    SlackIsProduct(callers - 1, 1.0);
  }
}
