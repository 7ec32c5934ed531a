/** Quota reservation: capacity is reserved before a provider call and reconciled with the
    actual usage after it. The ledger object is proved against sums over its tables; the
    conservation law is then proved for any number of callers whose steps interleave. */
module Quota {
  import opened Options

  type Provider = string
  type Time = real
  type Process = nat

  const DAY: Time := 86400.0

  // ------------------------------------------------------------- windows

  /** The part of a provider's quota block that is read here. */
  datatype Rule = Rule(limited: bool, window: Option<Time>, rolling: bool,
                       maxRequests: Option<int>, maxTokens: Option<int>, maxSpend: Option<real>,
                       priceIn: real, priceOut: real)

  /** The last multiple of `w` at or before `now`. */
  function Aligned(now: Time, w: Time): Time
    requires w > 0.0
  {
    (now / w).Floor as real * w
  }

  function WindowStart(now: Time, rule: Rule): Time {
    if rule.window.None? || rule.window.value <= 0.0 then Aligned(now, DAY)
    else if rule.rolling then now - rule.window.value
    else Aligned(now, rule.window.value)
  }

  lemma AlignedIsLastBoundary(now: Time, w: Time)
    requires w > 0.0
    ensures Aligned(now, w) <= now < Aligned(now, w) + w
  {
    var q := now / w;
    Divided(now, w);
    Between(q.Floor as real, q, now, w);
  }

  ghost predicate IsMultiple(k: int, w: Time, t: Time) {
    t == k as real * w
  }

  /** Where the accounting window of a rule starts: at the last UTC midnight without a
      window length, a length ago for a rolling one, else at the last multiple of it. */
  ghost predicate StartsAt(now: Time, rule: Rule, t: Time) {
    if rule.window.None? || rule.window.value <= 0.0 then t <= now < t + 86400.0 && exists k :: IsMultiple(k, 86400.0, t)
    else if rule.rolling then t == now - rule.window.value
    else t <= now < t + rule.window.value && exists k :: IsMultiple(k, rule.window.value, t)
  }

  lemma WindowStartIsRight(now: Time, rule: Rule)
    ensures StartsAt(now, rule, WindowStart(now, rule))
  {
    var w := if rule.window.None? || rule.window.value <= 0.0 then 86400.0 else rule.window.value;
    AlignedIsLastBoundary(now, w);
    assert IsMultiple((now / w).Floor, w, Aligned(now, w));
  }

  lemma Between(n: real, q: real, x: real, w: real)
    requires w > 0.0 && n <= q < n + 1.0 && q * w == x
    ensures n * w <= x < n * w + w
  {
    var r := q - n;
    var rw := r * w;
    Scaled(r, 1.0, w);
    assert rw < w;
    assert x - n * w == rw;
  }

  lemma Divided(x: real, w: real)
    requires w > 0.0
    ensures x / w * w == x
  {
  }

  lemma Distributes(n: real, w: real)
    ensures (n + 1.0) * w == n * w + w
  {
  }

  lemma Scaled(x: real, y: real, w: real)
    requires w > 0.0 && x <= y
    ensures x * w <= y * w && (x < y ==> x * w < y * w)
  {
  }

  /** As time goes on the window never starts earlier, and it never starts in the future. */
  lemma WindowStartMonotone(now: Time, later: Time, rule: Rule)
    requires now <= later
    ensures WindowStart(now, rule) <= WindowStart(later, rule)
    ensures WindowStart(now, rule) <= now
  {
    var w := if rule.window.None? || rule.window.value <= 0.0 then DAY else rule.window.value;
    AlignedIsLastBoundary(now, w);
    AlignedMonotone(now, later, w);
  }

  lemma AlignedMonotone(now: Time, later: Time, w: Time)
    requires w > 0.0 && now <= later
    ensures Aligned(now, w) <= Aligned(later, w)
  {
    assert now / w <= later / w;
    var m, n := (now / w).Floor as real, (later / w).Floor as real;
    assert m <= n;
    assert m * w <= n * w;
  }

  // --------------------------------------------------------------- sums

  datatype Amount = Amount(requests: int, tokens: int, cost: real)

  datatype Reservation = Reservation(provider: Provider, amount: Amount, expires: Time)

  datatype Usage = Usage(provider: Provider, amount: Amount, createdAt: Time)

  /** The three quantities a provider may be capped in. */
  datatype Dim = Requests | Tokens | Spend

  function Of(d: Dim, a: Amount): real {
    match d
    case Requests => a.requests as real
    case Tokens => a.tokens as real
    case Spend => a.cost
  }

  function Cap(d: Dim, rule: Rule): Option<real> {
    match d
    case Requests => if rule.maxRequests.Some? then Some(rule.maxRequests.value as real) else None
    case Tokens => if rule.maxTokens.Some? then Some(rule.maxTokens.value as real) else None
    case Spend => rule.maxSpend
  }

  predicate NonNegative(a: Amount) {
    a.requests >= 0 && a.tokens >= 0 && a.cost >= 0.0
  }

  function AtLeastZero(x: real): real {
    if x < 0.0 then 0.0 else x
  }

  /** Usage committed for the provider since the window started. */
  function Used(records: seq<Usage>, p: Provider, since: Time, d: Dim): real {
    if records == [] then 0.0
    else
      var r := records[|records| - 1];
      Used(records[..|records| - 1], p, since, d) + (if r.provider == p && r.createdAt >= since then Of(d, r.amount) else 0.0)
  }

  /** The provider's reservations among the first `n` minted that are still live. */
  function Reserved(reservations: map<nat, Reservation>, n: nat, p: Provider, now: Time, d: Dim): real {
    if n == 0 then 0.0
    else
      Reserved(reservations, n - 1, p, now, d)
      + (if n - 1 in reservations && reservations[n - 1].provider == p && reservations[n - 1].expires > now
         then Of(d, reservations[n - 1].amount) else 0.0)
  }

  function Estimate(rule: Rule, inTokens: int, outTokens: int): Amount {
    Amount(1, inTokens + outTokens, inTokens as real / 1000.0 * rule.priceIn + outTokens as real / 1000.0 * rule.priceOut)
  }

  /** In one capped quantity the headroom, never counted below zero, covers the amount. */
  predicate Covers(cap: real, used: real, reserved: real, amount: real) {
    AtLeastZero(cap - used - reserved) >= amount
  }

  /** The admission rule: the headroom covers the amount in every capped quantity. */
  predicate Fits(rule: Rule, used: Dim -> real, reserved: Dim -> real, a: Amount) {
    !rule.limited || forall d: Dim :: Cap(d, rule).Some? ==> Covers(Cap(d, rule).value, used(d), reserved(d), Of(d, a))
  }

  /** An amount as it is priced: the tokens of both directions, each at its price per thousand. */
  ghost predicate Priced(rule: Rule, requests: int, inTokens: int, outTokens: int, a: Amount) {
    && a.requests == requests && a.tokens == inTokens + outTokens
    && a.cost == inTokens as real * rule.priceIn / 1000.0 + outTokens as real * rule.priceOut / 1000.0
  }

  /** A cap leaves room for an amount; what is not positive always has room. */
  ghost predicate HasRoom(cap: Option<real>, used: real, reserved: real, amount: real) {
    cap.Some? ==> used + reserved + amount <= cap.value || amount <= 0.0
  }

  /** There is room for one request, for the tokens and for their price. */
  ghost predicate Admitted(rule: Rule, used: Dim -> real, reserved: Dim -> real, inTokens: int, outTokens: int) {
    rule.limited ==>
      && (rule.maxRequests.Some? ==> used(Requests) + reserved(Requests) + 1.0 <= rule.maxRequests.value as real)
      && HasRoom(if rule.maxTokens.Some? then Some(rule.maxTokens.value as real) else None, used(Tokens), reserved(Tokens),
                 (inTokens + outTokens) as real)
      && HasRoom(rule.maxSpend, used(Spend), reserved(Spend),
                 inTokens as real * rule.priceIn / 1000.0 + outTokens as real * rule.priceOut / 1000.0)
  }

  lemma EstimateIsPriced(rule: Rule, inTokens: int, outTokens: int)
    ensures Priced(rule, 1, inTokens, outTokens, Estimate(rule, inTokens, outTokens))
  {
    PerThousand(inTokens as real, rule.priceIn);
    PerThousand(outTokens as real, rule.priceOut);
  }

  lemma PerThousand(x: real, price: real)
    ensures x / 1000.0 * price == x * price / 1000.0
  {
  }

  lemma FitsIsAdmitted(rule: Rule, used: Dim -> real, reserved: Dim -> real, inTokens: int, outTokens: int)
    ensures Fits(rule, used, reserved, Estimate(rule, inTokens, outTokens)) <==> Admitted(rule, used, reserved, inTokens, outTokens)
  {
    EstimateIsPriced(rule, inTokens, outTokens);
    var a := Estimate(rule, inTokens, outTokens);
    var fits := d => Cap(d, rule).Some? ==> Covers(Cap(d, rule).value, used(d), reserved(d), Of(d, a));
    assert Fits(rule, used, reserved, a) <==> (rule.limited ==> fits(Requests) && fits(Tokens) && fits(Spend)) by {
      if fits(Requests) && fits(Tokens) && fits(Spend) {
        forall d: Dim
          ensures fits(d)
        {
          match d case Requests => case Tokens => case Spend =>
        }
      }
    }
  }

  // ----------------------------------------------------------- the ledger

  /** Headroom per capped quantity; None where there is no cap. */
  datatype Headroom = Unlimited | Headroom(requests: Option<int>, tokens: Option<int>, spend: Option<real>)

  function Left(d: Dim, h: Headroom): Option<real> {
    if h.Unlimited? then None else
      match d
      case Requests => if h.requests.Some? then Some(h.requests.value as real) else None
      case Tokens => if h.tokens.Some? then Some(h.tokens.value as real) else None
      case Spend => h.spend
  }

  class QuotaLedger {
    var reservations: map<nat, Reservation>
    var records: seq<Usage>
    var nonce: nat

    ghost predicate Valid()
      reads this
    {
      forall k :: k in reservations ==> k < nonce
    }

    ghost function UsedBy(p: Provider, rule: Rule, now: Time): Dim -> real
      reads this
    {
      var rs := records;
      d => Used(rs, p, WindowStart(now, rule), d)
    }

    ghost function ReservedBy(p: Provider, now: Time): Dim -> real
      reads this
    {
      var rs, n := reservations, nonce;
      d => Reserved(rs, n, p, now, d)
    }

    constructor ()
      ensures Valid() && reservations == map[] && records == []
    {
      reservations, records, nonce := map[], [], 0;
    }

    /** Drops what has expired, and so changes no sum from now on. */
    method Expire(now: Time)
      requires Valid()
      modifies this`reservations
      ensures Valid()
      ensures reservations == Live(old(reservations), now)
      ensures forall p, t, d :: t >= now ==> Reserved(reservations, nonce, p, t, d) == Reserved(old(reservations), nonce, p, t, d)
    {
      reservations := Live(reservations, now);
      forall p, t, d | t >= now
        ensures Reserved(reservations, nonce, p, t, d) == Reserved(old(reservations), nonce, p, t, d)
      {
        SameLiveSameSum(reservations, old(reservations), nonce, p, t, d);
      }
    }

    method ReservedTotals(p: Provider, now: Time) returns (sum: Amount)
      requires forall k :: k in reservations ==> reservations[k].expires > now
      ensures forall d :: Of(d, sum) == Reserved(reservations, nonce, p, now, d)
    {
      sum := Amount(0, 0, 0.0);
      var i := 0;
      while i < nonce
        invariant 0 <= i <= nonce
        invariant forall d :: Of(d, sum) == Reserved(reservations, i, p, now, d)
      {
        if i in reservations && reservations[i].provider == p {
          var a := reservations[i].amount;
          sum := Amount(sum.requests + a.requests, sum.tokens + a.tokens, sum.cost + a.cost);
        }
        i := i + 1;
      }
    }

    method UsageSince(p: Provider, since: Time) returns (sum: Amount)
      ensures forall d :: Of(d, sum) == Used(records, p, since, d)
    {
      sum := Amount(0, 0, 0.0);
      var i := 0;
      while i < |records|
        invariant 0 <= i <= |records|
        invariant forall d :: Of(d, sum) == Used(records[..i], p, since, d)
      {
        var r := records[i];
        assert records[..i + 1][..i] == records[..i];
        if r.provider == p && r.createdAt >= since {
          sum := Amount(sum.requests + r.amount.requests, sum.tokens + r.amount.tokens, sum.cost + r.amount.cost);
        }
        i := i + 1;
      }
      assert records[..i] == records;
    }

    method Remaining(p: Provider, rule: Rule, now: Time) returns (h: Headroom)
      requires Valid()
      modifies this`reservations
      ensures Valid() && reservations == Live(old(reservations), now)
      ensures h.Unlimited? <==> !rule.limited
      ensures !h.Unlimited? ==> forall d: Dim ::
                && (Left(d, h).Some? <==> Cap(d, rule).Some?)
                && (Cap(d, rule).Some? ==>
                      Left(d, h).value == AtLeastZero(Cap(d, rule).value - UsedBy(p, rule, now)(d) - ReservedBy(p, now)(d)))
      ensures forall d: Dim :: ReservedBy(p, now)(d) == old(ReservedBy(p, now)(d))
    {
      Expire(now);
      var reserved := ReservedTotals(p, now);
      if !rule.limited {
        return Unlimited;
      }
      var used := UsageSince(p, WindowStart(now, rule));
      var requests, tokens, spend := None, None, None;
      if rule.maxRequests.Some? {
        var left := rule.maxRequests.value - used.requests - reserved.requests;
        requests := Some(if left < 0 then 0 else left);
      }
      if rule.maxTokens.Some? {
        var left := rule.maxTokens.value - used.tokens - reserved.tokens;
        tokens := Some(if left < 0 then 0 else left);
      }
      if rule.maxSpend.Some? {
        spend := Some(AtLeastZero(rule.maxSpend.value - used.cost - reserved.cost));
      }
      h := Headroom.Headroom(requests, tokens, spend);
      forall d: Dim
        ensures Left(d, h).Some? <==> Cap(d, rule).Some?
        ensures Cap(d, rule).Some? ==> Left(d, h).value == AtLeastZero(Cap(d, rule).value - Of(d, used) - Of(d, reserved))
      {
        match d case Requests => case Tokens => case Spend =>
      }
    }

    method CanReserve(p: Provider, rule: Rule, inTokens: int, outTokens: int, now: Time) returns (ok: bool)
      requires Valid()
      modifies this`reservations
      ensures Valid() && reservations == Live(old(reservations), now)
      ensures ok <==> Fits(rule, old(UsedBy(p, rule, now)), old(ReservedBy(p, now)), Estimate(rule, inTokens, outTokens))
      ensures ok <==> Admitted(rule, old(UsedBy(p, rule, now)), old(ReservedBy(p, now)), inTokens, outTokens)
    {
      FitsIsAdmitted(rule, UsedBy(p, rule, now), ReservedBy(p, now), inTokens, outTokens);
      var h := Remaining(p, rule, now);
      if h.Unlimited? {
        return true;
      }
      var a := Estimate(rule, inTokens, outTokens);
      ghost var used, reserved := old(UsedBy(p, rule, now)), old(ReservedBy(p, now));
      if h.requests.Some? && h.requests.value < 1 {
        assert Cap(Requests, rule).Some? && Left(Requests, h).value < Of(Requests, a);
        return false;
      }
      if h.tokens.Some? && h.tokens.value < inTokens + outTokens {
        assert Cap(Tokens, rule).Some? && Left(Tokens, h).value < Of(Tokens, a);
        return false;
      }
      if h.spend.Some? && h.spend.value < a.cost {
        assert Cap(Spend, rule).Some? && Left(Spend, h).value < Of(Spend, a);
        return false;
      }
      forall d: Dim | Cap(d, rule).Some?
        ensures Covers(Cap(d, rule).value, used(d), reserved(d), Of(d, a))
      {
        assert Left(d, h).Some?;
        match d case Requests => case Tokens => case Spend =>
      }
      ok := true;
    }

    /** Grants exactly when the estimate fits, and then holds the estimate under a fresh id. */
    method Reserve(p: Provider, rule: Rule, inTokens: int, outTokens: int, ttl: Time, now: Time, later: Time) returns (id: Option<nat>)
      requires Valid()
      modifies this
      ensures Valid() && records == old(records)
      ensures id.Some? <==> Fits(rule, old(UsedBy(p, rule, now)), old(ReservedBy(p, now)), Estimate(rule, inTokens, outTokens))
      ensures id.Some? ==> id.value !in old(reservations)
      ensures reservations == if id.None? then Live(old(reservations), now)
                              else Live(old(reservations), now)[id.value := Reservation(p, Estimate(rule, inTokens, outTokens), later + ttl)]
      ensures id.Some? <==> Admitted(rule, old(UsedBy(p, rule, now)), old(ReservedBy(p, now)), inTokens, outTokens)
      ensures id.Some? ==>
                && id.value in reservations && reservations[id.value].provider == p && reservations[id.value].expires == later + ttl
                && Priced(rule, 1, inTokens, outTokens, reservations[id.value].amount)
      ensures forall k :: k in reservations && Some(k) != id <==> k in old(reservations) && old(reservations)[k].expires > now
    {
      EstimateIsPriced(rule, inTokens, outTokens);
      var ok := CanReserve(p, rule, inTokens, outTokens, now);
      if !ok {
        return None;
      }
      id := Some(nonce);
      nonce := nonce + 1;
      reservations := reservations[id.value := Reservation(p, Estimate(rule, inTokens, outTokens), later + ttl)];
    }

    /** Drops the reservation, if it is still there, and commits the actual usage; only a
        completed call counts as a request. */
    method Reconcile(id: nat, p: Provider, rule: Rule, actIn: int, actOut: int, completed: bool, now: Time)
      requires Valid()
      modifies this`reservations, this`records
      ensures Valid() && reservations == old(reservations) - {id}
      ensures records == old(records) + [Usage(p, Actual(rule, actIn, actOut, completed), now)]
      ensures Priced(rule, if completed then 1 else 0, actIn, actOut, records[|old(records)|].amount)
    {
      EstimateIsPriced(rule, actIn, actOut);
      reservations := reservations - {id};
      records := records + [Usage(p, Actual(rule, actIn, actOut, completed), now)];
    }

    method Release(id: nat)
      requires Valid()
      modifies this`reservations
      ensures Valid() && reservations == old(reservations) - {id}
    {
      reservations := reservations - {id};
    }
  }

  function Actual(rule: Rule, actIn: int, actOut: int, completed: bool): Amount {
    Estimate(rule, actIn, actOut).(requests := if completed then 1 else 0)
  }

  /** The reservations that have not expired. */
  function Live(reservations: map<nat, Reservation>, now: Time): map<nat, Reservation> {
    map k | k in reservations && reservations[k].expires > now :: reservations[k]
  }

  lemma {:induction false} SameLiveSameSum(a: map<nat, Reservation>, b: map<nat, Reservation>, n: nat, p: Provider, now: Time, d: Dim)
    requires forall k :: k in a && a[k].expires > now <==> k in b && b[k].expires > now
    requires forall k :: k in a && a[k].expires > now ==> a[k] == b[k]
    ensures Reserved(a, n, p, now, d) == Reserved(b, n, p, now, d)
  {
    if n > 0 {
      SameLiveSameSum(a, b, n - 1, p, now, d);
    }
  }
}
