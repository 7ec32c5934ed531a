/** The append-only event log and the resumable tail that is served from it. */
module EventLog {
  import opened Options

  datatype Row = Row(seqno: nat, eventId: string, kind: string, source: string, task: Option<string>, outcome: Option<string>, payload: nat)

  /** What a publisher supplies; the log supplies the sequence number. */
  datatype Event = Event(eventId: string, kind: string, source: string, task: Option<string>, outcome: Option<string>, payload: nat)

  /** Empty sets and absent values do not filter. */
  datatype Filter = Filter(kinds: set<string>, sources: set<string>, task: Option<string>, outcome: Option<string>)

  predicate Matches(f: Filter, r: Row) {
    && (f.kinds != {} ==> r.kind in f.kinds)
    && (f.sources != {} ==> r.source in f.sources)
    && (f.task.Some? && f.task != Some("") ==> r.task == f.task)
    && (f.outcome.Some? && f.outcome != Some("") ==> r.outcome == f.outcome)
  }

  /** No filter that is set shuts the row out. */
  ghost predicate Wanted(f: Filter, r: Row) {
    && !(f.kinds != {} && r.kind !in f.kinds)
    && !(f.sources != {} && r.source !in f.sources)
    && !(f.task.Some? && f.task.value != "" && r.task != Some(f.task.value))
    && !(f.outcome.Some? && f.outcome.value != "" && r.outcome != Some(f.outcome.value))
  }

  /** The rows a reader at `since` is still owed, in order. */
  function Owed(rows: seq<Row>, since: int, f: Filter): seq<Row> {
    if rows == [] then []
    else
      var r := rows[|rows| - 1];
      Owed(rows[..|rows| - 1], since, f) + (if r.seqno > since && Matches(f, r) then [r] else [])
  }

  ghost predicate Ascending(rows: seq<Row>) {
    forall i, j :: 0 <= i < j < |rows| ==> rows[i].seqno < rows[j].seqno
  }

  function Clamp(limit: int): nat {
    var m := if limit < 500 then limit else 500;
    if m < 1 then 1 else m
  }

  function Stored(e: Event, seqno: nat): Row {
    Row(seqno, e.eventId, e.kind, e.source, e.task, e.outcome, e.payload)
  }

  class Log {
    var rows: seq<Row>
    var last: nat

    ghost predicate Valid()
      reads this
    {
      && Ascending(rows)
      && (forall i :: 0 <= i < |rows| ==> rows[i].seqno <= last)
      && forall i, j :: 0 <= i < j < |rows| ==> rows[i].eventId != rows[j].eventId
    }

    constructor ()
      ensures Valid() && rows == []
    {
      rows, last := [], 0;
    }

    /** Appends under a sequence number above all earlier ones, not necessarily the next;
        an event id that is already there leaves the log as it is. */
    method Append(e: Event, gap: nat) returns (seqno: Option<nat>)
      requires Valid()
      modifies this
      ensures Valid()
      ensures seqno == None <==> exists i :: 0 <= i < |old(rows)| && old(rows)[i].eventId == e.eventId
      ensures seqno == None ==> rows == old(rows) && last == old(last)
      ensures seqno.Some? ==>
                && seqno.value > old(last) && last == seqno.value
                && rows == old(rows) + [Row(seqno.value, e.eventId, e.kind, e.source, e.task, e.outcome, e.payload)]
    {
      if exists i :: 0 <= i < |rows| && rows[i].eventId == e.eventId {
        return None;
      }
      last := last + 1 + gap;
      rows := rows + [Stored(e, last)];
      seqno := Some(last);
    }

    /** The first rows after `since` that match, at most `limit` of them. */
    method List(since: int, limit: int, f: Filter) returns (out: seq<Row>)
      requires Valid()
      ensures out <= Owed(rows, since, f)
      ensures |out| <= Clamp(limit)
      ensures |out| < Clamp(limit) ==> out == Owed(rows, since, f)
      ensures Listed(rows, since, limit, f, out)
    {
      out := [];
      var i := 0;
      while i < |rows| && |out| < Clamp(limit)
        invariant 0 <= i <= |rows|
        invariant |out| <= Clamp(limit)
        invariant out == Owed(rows[..i], since, f)
      {
        assert rows[..i + 1][..i] == rows[..i];
        if rows[i].seqno > since && Matches(f, rows[i]) {
          out := out + [rows[i]];
        }
        i := i + 1;
      }
      assert rows == rows[..i] + rows[i..];
      OwedConcat(rows[..i], rows[i..], since, f);
      if i == |rows| {
        assert rows[..i] == rows;
      }
      PrefixIsListed(rows, i, since, limit, f);
    }
  }

  lemma {:induction false} OwedConcat(a: seq<Row>, b: seq<Row>, since: int, f: Filter)
    ensures Owed(a + b, since, f) == Owed(a, since, f) + Owed(b, since, f)
    decreases |b|
  {
    if b == [] {
      assert a + b == a;
    } else {
      var last := |b| - 1;
      assert (a + b)[..|a + b| - 1] == a + b[..last];
      OwedConcat(a, b[..last], since, f);
    }
  }

  /** Exactly the rows after `since` that match are owed, each once, in ascending order. */
  lemma {:induction false} OwedIsExact(rows: seq<Row>, since: int, f: Filter)
    requires Ascending(rows)
    ensures Ascending(Owed(rows, since, f))
    ensures forall r :: r in Owed(rows, since, f) <==> r in rows && r.seqno > since && Wanted(f, r)
    decreases |rows|
  {
    if rows != [] {
      var n := |rows| - 1;
      OwedIsExact(rows[..n], since, f);
      assert rows == rows[..n] + [rows[n]];
      var p := Owed(rows[..n], since, f);
      forall i | 0 <= i < |p|
        ensures p[i].seqno < rows[n].seqno
      {
        assert p[i] in rows[..n];
      }
    }
  }

  /** A page: at most `limit` of the wanted rows after the cursor, within 1 and 500, in
      ascending order, and full of earlier ones if it leaves any out. */
  ghost predicate Listed(rows: seq<Row>, since: int, limit: int, f: Filter, out: seq<Row>) {
    && |out| <= 500 && |out| <= (if limit < 1 then 1 else limit)
    && Ascending(out)
    && (forall r :: r in out ==> r in rows && r.seqno > since && Wanted(f, r))
    && (forall r :: r in rows && r.seqno > since && Wanted(f, r) && r !in out ==>
          (|out| == 500 || |out| >= limit) && |out| >= 1 && forall q :: q in out ==> q.seqno < r.seqno)
  }

  /** What is owed of the first rows is such a page once it fills up or the rows end. */
  lemma PrefixIsListed(rows: seq<Row>, i: nat, since: int, limit: int, f: Filter)
    requires Ascending(rows) && i <= |rows| && |Owed(rows[..i], since, f)| <= Clamp(limit)
    requires i < |rows| ==> |Owed(rows[..i], since, f)| == Clamp(limit)
    ensures Listed(rows, since, limit, f, Owed(rows[..i], since, f))
  {
    OwedIsExact(rows[..i], since, f);
    assert forall k :: 0 <= k < i ==> rows[k] in rows[..i];
    forall r | r in rows && r.seqno > since && Wanted(f, r) && r !in Owed(rows[..i], since, f)
      ensures i < |rows| && forall q :: q in Owed(rows[..i], since, f) ==> q.seqno < r.seqno
    {
      var k :| 0 <= k < |rows| && rows[k] == r;
    }
  }

  // ---------------------------------------------------------------- the tail

  const KEEPALIVE_EVERY: nat := 15
  const TAIL_BATCH: int := 200

  datatype Frame = Retry | Data(row: Row) | Keepalive

  function Frames(rows: seq<Row>): seq<Frame> {
    seq(|rows|, i requires 0 <= i < |rows| => Data(rows[i]))
  }

  /** The rows of the data frames. */
  function Sent(frames: seq<Frame>): seq<Row> {
    if frames == [] then []
    else Sent(frames[..|frames| - 1]) + (if frames[|frames| - 1].Data? then [frames[|frames| - 1].row] else [])
  }

  lemma {:induction false} SentConcat(a: seq<Frame>, b: seq<Frame>)
    ensures Sent(a + b) == Sent(a) + Sent(b)
    decreases |b|
  {
    if b == [] {
      assert a + b == a;
    } else {
      assert (a + b)[..|a + b| - 1] == a + b[..|b| - 1];
      SentConcat(a, b[..|b| - 1]);
    }
  }

  lemma {:induction false} SentFrames(rows: seq<Row>)
    ensures Sent(Frames(rows)) == rows
    decreases |rows|
  {
    if rows != [] {
      var n := |rows| - 1;
      assert Frames(rows)[..n] == Frames(rows[..n]);
      SentFrames(rows[..n]);
      assert rows == rows[..n] + [rows[n]];
    }
  }

  /** How many polls have come back empty since the last data or keepalive frame. */
  function IdleAfter(polls: seq<seq<Row>>): nat {
    if polls == [] then 0
    else if polls[|polls| - 1] != [] then 0
    else (IdleAfter(polls[..|polls| - 1]) + 1) % KEEPALIVE_EVERY
  }

  /** The stream as a function of what the polls returned. */
  function Stream(polls: seq<seq<Row>>): seq<Frame> {
    if polls == [] then [Retry]
    else
      var rest := polls[..|polls| - 1];
      Stream(rest)
      + (if polls[|polls| - 1] != [] then Frames(polls[|polls| - 1])
         else if IdleAfter(rest) + 1 >= KEEPALIVE_EVERY then [Keepalive] else [])
  }

  function Repeated<T>(x: T, n: nat): seq<T> {
    if n == 0 then [] else Repeated(x, n - 1) + [x]
  }

  /** Keepalives sent in the first `n` of a stretch of empty polls. */
  function KeepalivesIn(n: nat): nat {
    if n == 0 then 0 else KeepalivesIn(n - 1) + (if n % KEEPALIVE_EVERY == 0 then 1 else 0)
  }

  lemma {:induction false} OneInFifteen(n: nat)
    ensures KeepalivesIn(n) == n / KEEPALIVE_EVERY
  {
    if n > 0 {
      OneInFifteen(n - 1);
    }
  }

  lemma IdleIsSmall(polls: seq<seq<Row>>)
    ensures IdleAfter(polls) < KEEPALIVE_EVERY
  {
  }

  /** The poll before the last `|polls| - busy` ones was not empty, these were. */
  predicate QuietFrom(polls: seq<seq<Row>>, busy: nat)
    requires busy <= |polls|
    decreases |polls|
  {
    if busy == |polls| then IdleAfter(polls) == 0
    else polls[|polls| - 1] == [] && QuietFrom(polls[..|polls| - 1], busy)
  }

  lemma {:induction false} QuietIdle(polls: seq<seq<Row>>, busy: nat)
    requires busy <= |polls| && QuietFrom(polls, busy)
    ensures IdleAfter(polls) == (|polls| - busy) % KEEPALIVE_EVERY
    decreases |polls|
  {
    if busy < |polls| {
      QuietIdle(polls[..|polls| - 1], busy);
    }
  }

  lemma StreamOfEmptyPoll(polls: seq<seq<Row>>)
    requires polls != [] && polls[|polls| - 1] == []
    ensures var before := polls[..|polls| - 1];
            Stream(polls) == Stream(before) + (if IdleAfter(before) + 1 >= KEEPALIVE_EVERY then [Keepalive] else [])
  {
  }

  lemma NextKeepalive(base: seq<Frame>, n: nat)
    requires n > 0
    ensures base + Repeated(Keepalive, KeepalivesIn(n - 1))
              + (if (n - 1) % KEEPALIVE_EVERY + 1 >= KEEPALIVE_EVERY then [Keepalive] else [])
              == base + Repeated(Keepalive, KeepalivesIn(n))
  {
    assert (n - 1) % KEEPALIVE_EVERY + 1 >= KEEPALIVE_EVERY <==> n % KEEPALIVE_EVERY == 0;
    RepeatedMore(base, Keepalive, KeepalivesIn(n - 1));
  }

  lemma {:induction false} QuietFrames(polls: seq<seq<Row>>, busy: nat, base: seq<Frame>)
    requires busy <= |polls| && QuietFrom(polls, busy) && Stream(polls[..busy]) == base
    ensures Stream(polls) == base + Repeated(Keepalive, KeepalivesIn(|polls| - busy))
    decreases |polls|
  {
    if busy == |polls| {
      assert polls[..busy] == polls;
    } else {
      var before := polls[..|polls| - 1];
      assert before[..busy] == polls[..busy];
      QuietFrames(before, busy, base);
      QuietIdle(before, busy);
      StreamOfEmptyPoll(polls);
      NextKeepalive(base, |polls| - busy);
    }
  }

  /** A stretch of empty polls, after the last that was not, gives one keepalive for every
      fifteen, and nothing else. */
  lemma QuietStretch(polls: seq<seq<Row>>, busy: nat)
    requires busy <= |polls| && QuietFrom(polls, busy)
    ensures Stream(polls) == Stream(polls[..busy]) + Repeated(Keepalive, (|polls| - busy) / 15)
  {
    QuietFrames(polls, busy, Stream(polls[..busy]));
    OneInFifteen(|polls| - busy);
  }

  lemma RepeatedMore<T>(front: seq<T>, x: T, n: nat)
    ensures (front + Repeated(x, n)) + [x] == front + Repeated(x, n + 1)
    ensures (front + Repeated(x, n)) + [] == front + Repeated(x, n)
  {
  }

  /** A reader at `cursor` that started at `start` has been sent exactly what lies between. */
  ghost predicate CaughtUpTo(rows: seq<Row>, last: nat, start: int, cursor: int, f: Filter, sent: seq<Row>) {
    && Owed(rows, start, f) == sent + Owed(rows, cursor, f)
    && cursor == (if sent == [] then start else sent[|sent| - 1].seqno)
    && (sent != [] ==> start < cursor <= last)
  }

  lemma {:induction false} NothingOwed(rows: seq<Row>, since: int, f: Filter)
    requires forall i :: 0 <= i < |rows| ==> rows[i].seqno <= since
    ensures Owed(rows, since, f) == []
    decreases |rows|
  {
    if rows != [] {
      NothingOwed(rows[..|rows| - 1], since, f);
    }
  }

  /** Resuming: a reader that was sent any number of the rows owed to it, and comes back
      with the last sequence number it saw, is owed exactly the others. */
  lemma {:induction false} ResumeAnywhere(rows: seq<Row>, since: int, f: Filter, k: nat)
    requires Ascending(rows) && 0 < k <= |Owed(rows, since, f)|
    ensures var owed := Owed(rows, since, f);
            && owed[k - 1].seqno > since
            && owed == owed[..k] + Owed(rows, owed[k - 1].seqno, f)
    decreases |rows|
  {
    var n := |rows| - 1;
    var before := Owed(rows[..n], since, f);
    if k <= |before| {
      ResumeAnywhere(rows[..n], since, f, k);
      OwedFrom(rows[..n], since, f, before[k - 1]);
      ResumeOneMore(rows, since, f, before, k);
    } else {
      NothingOwed(rows, rows[n].seqno, f);
      assert Owed(rows, since, f) == before + [rows[n]];
    }
  }

  lemma ResumeOneMore(rows: seq<Row>, since: int, f: Filter, before: seq<Row>, k: nat)
    requires rows != [] && before == Owed(rows[..|rows| - 1], since, f) && 0 < k <= |before|
    requires var c := before[k - 1].seqno;
             since < c < rows[|rows| - 1].seqno && before == before[..k] + Owed(rows[..|rows| - 1], c, f)
    ensures var owed := Owed(rows, since, f);
            k <= |owed| && owed[k - 1] == before[k - 1] && owed == owed[..k] + Owed(rows, before[k - 1].seqno, f)
  {
    var r := rows[|rows| - 1];
    var x := if Matches(f, r) then [r] else [];
    var c := before[k - 1].seqno;
    var rest := Owed(rows[..|rows| - 1], c, f);
    assert Owed(rows, since, f) == before + x;
    assert Owed(rows, c, f) == rest + x;
    assert (before + x)[..k] == before[..k];
    assert before + x == before[..k] + (rest + x);
  }

  lemma OwedFrom(rows: seq<Row>, since: int, f: Filter, r: Row)
    requires Ascending(rows) && r in Owed(rows, since, f)
    ensures r in rows && r.seqno > since
  {
    OwedIsExact(rows, since, f);
  }

  /** One batch sent. */
  lemma BatchSent(rows: seq<Row>, last: nat, start: int, cursor: int, f: Filter, sent: seq<Row>, batch: seq<Row>)
    requires Ascending(rows) && forall i :: 0 <= i < |rows| ==> rows[i].seqno <= last
    requires CaughtUpTo(rows, last, start, cursor, f, sent)
    requires batch != [] && batch <= Owed(rows, cursor, f)
    ensures CaughtUpTo(rows, last, start, batch[|batch| - 1].seqno, f, sent + batch)
  {
    var c := batch[|batch| - 1].seqno;
    BatchResumes(rows, last, cursor, f, batch);
    Rejoin(Owed(rows, start, f), sent, Owed(rows, cursor, f), batch, Owed(rows, c, f));
  }

  lemma BatchResumes(rows: seq<Row>, last: nat, cursor: int, f: Filter, batch: seq<Row>)
    requires Ascending(rows) && forall i :: 0 <= i < |rows| ==> rows[i].seqno <= last
    requires batch != [] && batch <= Owed(rows, cursor, f)
    ensures cursor < batch[|batch| - 1].seqno <= last
    ensures Owed(rows, cursor, f) == batch + Owed(rows, batch[|batch| - 1].seqno, f)
  {
    var owed := Owed(rows, cursor, f);
    ResumeAnywhere(rows, cursor, f, |batch|);
    OwedFrom(rows, cursor, f, owed[|batch| - 1]);
  }

  lemma Rejoin(all: seq<Row>, sent: seq<Row>, owed: seq<Row>, batch: seq<Row>, rest: seq<Row>)
    requires all == sent + owed && owed == batch + rest && batch != []
    ensures all == (sent + batch) + rest
    ensures (sent + batch)[|sent + batch| - 1] == batch[|batch| - 1]
  {
  }

  lemma LastBatch(rows: seq<Row>, cursor: int, f: Filter, batch: seq<Row>)
    requires Ascending(rows) && batch != [] && batch == Owed(rows, cursor, f)
    ensures Owed(rows, batch[|batch| - 1].seqno, f) == []
  {
    ResumeAnywhere(rows, cursor, f, |batch|);
    assert batch[..|batch|] == batch;
  }

  /** Rows that arrive later are owed on top. */
  lemma MoreArrived(rows: seq<Row>, last: nat, more: seq<Row>, last': nat, start: int, cursor: int, f: Filter, sent: seq<Row>)
    requires CaughtUpTo(rows, last, start, cursor, f, sent)
    requires last <= last' && forall i :: 0 <= i < |more| ==> more[i].seqno > last
    ensures CaughtUpTo(rows + more, last', start, cursor, f, sent)
  {
    OwedConcat(rows, more, start, f);
    OwedConcat(rows, more, cursor, f);
    if sent != [] {
      SameOwed(more, start, cursor, f);
    }
  }

  lemma {:induction false} SameOwed(rows: seq<Row>, a: int, b: int, f: Filter)
    requires forall i :: 0 <= i < |rows| ==> rows[i].seqno > a && rows[i].seqno > b
    ensures Owed(rows, a, f) == Owed(rows, b, f)
    decreases |rows|
  {
    if rows != [] {
      SameOwed(rows[..|rows| - 1], a, b, f);
    }
  }

  /** What being caught up means: the rows sent are, in order and once each, the matching
      rows after the start and up to the cursor. */
  lemma ExactlyOnce(rows: seq<Row>, last: nat, start: int, cursor: int, f: Filter, sent: seq<Row>)
    requires Ascending(rows) && CaughtUpTo(rows, last, start, cursor, f, sent)
    ensures Ascending(sent)
    ensures forall r :: r in sent <==> r in rows && start < r.seqno <= cursor && Wanted(f, r)
  {
    var owed := Owed(rows, start, f);
    var rest := Owed(rows, cursor, f);
    OwedIsExact(rows, start, f);
    OwedIsExact(rows, cursor, f);
    assert owed == sent + rest;
    assert forall i :: 0 <= i < |sent| ==> sent[i] == owed[i];
    forall r | r in sent
      ensures r in owed && r.seqno <= cursor
    {
      var i :| 0 <= i < |sent| && sent[i] == r;
      assert i < |sent| - 1 ==> owed[i].seqno < owed[|sent| - 1].seqno;
    }
  }

  /** Whatever anybody publishes while the tail sleeps. */
  method Publish(log: Log, events: seq<(Event, nat)>)
    requires log.Valid()
    modifies log
    ensures log.Valid() && old(log.last) <= log.last
    ensures old(log.rows) <= log.rows
    ensures forall i :: |old(log.rows)| <= i < |log.rows| ==> log.rows[i].seqno > old(log.last)
  {
    var i := 0;
    while i < |events|
      invariant 0 <= i <= |events|
      invariant log.Valid() && old(log.last) <= log.last
      invariant old(log.rows) <= log.rows
      invariant forall i :: |old(log.rows)| <= i < |log.rows| ==> log.rows[i].seqno > old(log.last)
    {
      var _ := log.Append(events[i].0, events[i].1);
      i := i + 1;
    }
  }

  /** One poll of the tail: the next batch that the reader is owed. */
  method Poll(log: Log, cursor: int, f: Filter) returns (rows: seq<Row>)
    requires log.Valid()
    ensures rows <= Owed(log.rows, cursor, f)
    ensures |rows| < TAIL_BATCH ==> rows == Owed(log.rows, cursor, f)
  {
    rows := log.List(cursor, TAIL_BATCH, f);
  }

  /** The tail, stopped after as many polls as there are entries in `arrivals`, which says
      what is published before each. Its data frames are exactly what lies between the
      start and the last sequence number sent: no gap, no duplicate, in order. */
  method SseLines(log: Log, start: int, f: Filter, arrivals: seq<seq<(Event, nat)>>)
    returns (frames: seq<Frame>, cursor: int, ghost polls: seq<seq<Row>>)
    requires log.Valid()
    modifies log
    ensures log.Valid() && old(log.rows) <= log.rows
    ensures CaughtUpTo(log.rows, log.last, start, cursor, f, Sent(frames))
    ensures |polls| == |arrivals| && frames == Stream(polls)
    ensures polls != [] && |polls[|polls| - 1]| < 200 ==> Owed(log.rows, cursor, f) == []
  {
    frames, cursor, polls := [Retry], start, [];
    var idle := 0;
    var n := 0;
    ServingStarts(log.rows, log.last, start, f);
    while n < |arrivals|
      invariant 0 <= n <= |arrivals| && |polls| == n
      invariant log.Valid() && old(log.rows) <= log.rows
      invariant Serving(log.rows, log.last, start, cursor, f, frames, polls, idle)
    {
      ghost var rows0, last0 := log.rows, log.last;
      Publish(log, arrivals[n]);
      var rows := Poll(log, cursor, f);
      ServeMore(rows0, last0, log.rows, log.last, start, cursor, f, frames, polls, idle, rows);
      if rows != [] {
        idle := 0;
        cursor := rows[|rows| - 1].seqno;
        frames := frames + Frames(rows);
      } else {
        idle := idle + 1;
        if idle >= KEEPALIVE_EVERY {
          idle := 0;
          frames := frames + [Keepalive];
        }
      }
      polls := polls + [rows];
      n := n + 1;
    }
    assert IsFrames(frames, frames);
  }

  predicate IsFrames(x: seq<Frame>, frames: seq<Frame>) {
    x == frames
  }

  /** Where the tail stands. (Said of any equal stream, so that it is looked into only by name.) */
  ghost predicate Serving(rows: seq<Row>, last: nat, start: int, cursor: int, f: Filter,
                          frames: seq<Frame>, polls: seq<seq<Row>>, idle: nat) {
    forall x :: IsFrames(x, frames) ==>
      && CaughtUpTo(rows, last, start, cursor, f, Sent(x))
      && x == Stream(polls) && idle == IdleAfter(polls)
      && (polls != [] && |polls[|polls| - 1]| < TAIL_BATCH ==> Owed(rows, cursor, f) == [])
  }

  lemma ServingStarts(rows: seq<Row>, last: nat, start: int, f: Filter)
    ensures Serving(rows, last, start, start, f, [Retry], [], 0)
  {
  }

  /** One round: more is published, one poll is made, its rows or a keepalive are sent. */
  lemma ServeMore(rows0: seq<Row>, last0: nat, rows: seq<Row>, last: nat, start: int, cursor: int, f: Filter,
                  frames: seq<Frame>, polls: seq<seq<Row>>, idle: nat, batch: seq<Row>)
    requires Serving(rows0, last0, start, cursor, f, frames, polls, idle)
    requires rows0 <= rows && last0 <= last && Ascending(rows)
    requires forall i :: |rows0| <= i < |rows| ==> rows[i].seqno > last0
    requires forall i :: 0 <= i < |rows| ==> rows[i].seqno <= last
    requires batch <= Owed(rows, cursor, f) && (|batch| < TAIL_BATCH ==> batch == Owed(rows, cursor, f))
    ensures batch != [] ==>
              Serving(rows, last, start, batch[|batch| - 1].seqno, f, frames + Frames(batch), polls + [batch], 0)
    ensures batch == [] && idle + 1 >= KEEPALIVE_EVERY ==>
              Serving(rows, last, start, cursor, f, frames + [Keepalive], polls + [batch], 0)
    ensures batch == [] && idle + 1 < KEEPALIVE_EVERY ==>
              Serving(rows, last, start, cursor, f, frames, polls + [batch], idle + 1)
  {
    assert IsFrames(frames, frames);
    assert rows == rows0 + rows[|rows0|..];
    MoreArrived(rows0, last0, rows[|rows0|..], last, start, cursor, f, Sent(frames));
    StreamMore(polls, batch);
    BatchKeeps(rows, last, start, cursor, f, frames, batch);
  }

  lemma StreamMore(polls: seq<seq<Row>>, rows: seq<Row>)
    ensures var more := polls + [rows];
            && Stream(more) == Stream(polls) + (if rows != [] then Frames(rows) else if IdleAfter(polls) + 1 >= KEEPALIVE_EVERY then [Keepalive] else [])
            && IdleAfter(more) == (if rows != [] || IdleAfter(polls) + 1 >= KEEPALIVE_EVERY then 0 else IdleAfter(polls) + 1)
  {
    assert (polls + [rows])[..|polls|] == polls;
    IdleIsSmall(polls);
  }

  lemma BatchKeeps(rows: seq<Row>, last: nat, start: int, cursor: int, f: Filter, frames: seq<Frame>, batch: seq<Row>)
    requires Ascending(rows) && forall i :: 0 <= i < |rows| ==> rows[i].seqno <= last
    requires CaughtUpTo(rows, last, start, cursor, f, Sent(frames))
    requires batch <= Owed(rows, cursor, f)
    ensures batch != [] ==> CaughtUpTo(rows, last, start, batch[|batch| - 1].seqno, f, Sent(frames + Frames(batch)))
    ensures batch != [] && batch == Owed(rows, cursor, f) ==> Owed(rows, batch[|batch| - 1].seqno, f) == []
    ensures Sent(frames + [Keepalive]) == Sent(frames)
  {
    SentConcat(frames, [Keepalive]);
    if batch != [] {
      BatchSent(rows, last, start, cursor, f, Sent(frames), batch);
      SentConcat(frames, Frames(batch));
      SentFrames(batch);
      if batch == Owed(rows, cursor, f) {
        LastBatch(rows, cursor, f, batch);
      }
    }
  }
}
