/** The transition authority: four verbs decide on a freshly read value, a locked
    writer applies the decision with a compare-and-set and audits it. */
module Transitions {
  import opened Options
  import opened TaskStates

  datatype Outcome = Applied | Refused | Noop

  datatype Record<E> = Record(src: E, dst: E, outcome: Outcome)

  datatype Verb<E> =
    | Transition(dst: E)
    | Advance(dst: E, onlyFrom: set<E>)
    | Converge(dst: E, overlay: map<E, set<E>>)
    | Cancel(dst: E)

  /** What `decide` answers: write (with its applied record), hold (perhaps
      auditing a refusal or a no-op), or raise IllegalTransition. */
  datatype Decision<E> = Write(dst: E) | Hold(record: Option<Record<E>>) | Illegal

  function Decide<E(==)>(v: Vocabulary<E>, verb: Verb<E>, current: Option<E>): Decision<E> {
    match current
    case None => Hold(None)
    case Some(cur) =>
      match verb {
        case Transition(dst) =>
          if cur == dst then Hold(Some(Record(cur, dst, Noop)))
          else if cur in v.terminal then Hold(Some(Record(cur, dst, Refused)))
          else if dst !in Allowed(v, cur, map[]) then Illegal
          else Write(dst)
        case Advance(dst, onlyFrom) =>
          if cur == dst || cur in v.terminal || cur !in onlyFrom then Hold(Some(Record(cur, dst, Noop)))
          else Write(dst)
        case Converge(dst, overlay) =>
          if cur == dst then Hold(None)
          else if cur in v.terminal then Hold(Some(Record(cur, dst, Refused)))
          else if dst !in Allowed(v, cur, overlay) then Hold(Some(Record(cur, dst, Refused)))
          else Write(dst)
        case Cancel(dst) =>
          if cur == dst || cur in v.terminal then Hold(Some(Record(cur, dst, Noop)))
          else Write(dst)
      }
  }

  /** The moves a verb is entitled to make. */
  predicate Entitled<E(==)>(v: Vocabulary<E>, verb: Verb<E>, src: E, dst: E) {
    && src !in v.terminal
    && src != dst
    && match verb {
         case Transition(d) => dst == d && dst in Allowed(v, src, map[])
         case Advance(d, onlyFrom) => dst == d && src in onlyFrom
         case Converge(d, overlay) => dst == d && dst in Allowed(v, src, overlay)
         case Cancel(d) => dst == d
       }
  }

  /** A decision to write is made exactly for the entitled moves. */
  lemma DecideWrites<E>(v: Vocabulary<E>, verb: Verb<E>, current: Option<E>, dst: E)
    ensures Decide(v, verb, current) == Write(dst) <==> current.Some? && Entitled(v, verb, current.value, dst)
  {
  }

  // ------------------------------------------------------------ one call

  /** Number of times a compare-and-set miss is retried before giving up. */
  const MAX_TRIES: nat := 3

  /** One call of the locked writer: whether it wrote, the value it reports, the row
      and the records it leaves behind, and the value its last `decide` saw. */
  datatype Call<E> = Call(applied: bool, stored: Option<E>, illegal: bool, missed: bool,
                          row: Option<E>, records: seq<Record<E>>, seen: Option<E>)

  /** The call as a function of the row it starts from, of `foreign`, the content of the
      row at each compare-and-set (other processes may have written anything between the
      read and the write), and of `last`, its content at the read after the final miss. */
  function Drive<E(==)>(v: Vocabulary<E>, verb: Verb<E>, row: Option<E>, foreign: seq<Option<E>>, last: Option<E>): Call<E>
    decreases |foreign|
  {
    if foreign == [] then Call(false, last, false, true, last, [], None)
    else
      match Decide(v, verb, row)
      case Hold(None) => Call(false, row, false, false, row, [], row)
      case Hold(Some(r)) => Call(false, row, false, false, row, [r], row)
      case Illegal => Call(false, row, true, false, row, [], row)
      case Write(dst) =>
        if foreign[0] == row then
          Call(true, Some(dst), false, false, Some(dst), [Record(row.value, dst, Applied)], row)
        else Drive(v, verb, foreign[0], foreign[1..], last)
  }

  /** An applied call overwrote exactly the value its decision saw, that value was not
      terminal, the move was one the verb is entitled to, and it left one audit record
      of exactly that move. A call that did not apply left the row as the other
      processes had it and no applied record. */
  lemma {:induction false} CallIsSound<E>(v: Vocabulary<E>, verb: Verb<E>, row: Option<E>, foreign: seq<Option<E>>, last: Option<E>)
    ensures var c := Drive(v, verb, row, foreign, last);
            && (c.applied ==>
                  && c.seen.Some? && c.row.Some? && c.stored == c.row
                  && Entitled(v, verb, c.seen.value, c.row.value)
                  && c.records == [Record(c.seen.value, c.row.value, Applied)]
                  && c.seen in foreign)
            && (!c.applied ==>
                  && c.stored == c.row
                  && (c.row == row || c.row == last || c.row in foreign)
                  && forall r :: r in c.records ==> r.outcome != Applied)
    decreases |foreign|
  {
    if foreign != [] && Decide(v, verb, row).Write? && foreign[0] != row {
      CallIsSound(v, verb, foreign[0], foreign[1..], last);
    }
  }

  /** The result of the cancel verb, as it is handed to the caller. */
  datatype CancelReport<E> = EntityNotFound | CancelReport(applied: bool, state: E, alreadyTerminal: bool)

  function ReportCancel<E>(c: Call<E>, cancelled: E): CancelReport<E> {
    if c.stored == None then EntityNotFound
    else if c.applied then CancelReport(true, cancelled, false)
    else CancelReport(false, c.stored.value, true)
  }

  /** Each read found a value to write over, and each time it had changed by the write. */
  ghost predicate AllMiss<E>(v: Vocabulary<E>, verb: Verb<E>, row: Option<E>, foreign: seq<Option<E>>) {
    var read := [row] + foreign;
    forall i :: 0 <= i < |foreign| ==> Decide(v, verb, read[i]).Write? && read[i + 1] != read[i]
  }

  lemma {:induction false} MissedIffAllMiss<E>(v: Vocabulary<E>, verb: Verb<E>, row: Option<E>, foreign: seq<Option<E>>, last: Option<E>)
    ensures Drive(v, verb, row, foreign, last).missed <==> AllMiss(v, verb, row, foreign)
    decreases |foreign|
  {
    var f := [row] + foreign;
    if foreign != [] {
      assert f[0] == row && f[0 + 1] == foreign[0];
      if Decide(v, verb, row).Write? && foreign[0] != row {
        MissedIffAllMiss(v, verb, foreign[0], foreign[1..], last);
        var g := [foreign[0]] + foreign[1..];
        assert forall i :: 0 <= i < |g| ==> g[i] == f[i + 1];
        if AllMiss(v, verb, foreign[0], foreign[1..]) {
          forall i | 0 <= i < |foreign|
            ensures Decide(v, verb, f[i]).Write? && f[i + 1] != f[i]
          {
            if i > 0 {
              assert g[i - 1] == f[i] && g[i - 1 + 1] == f[i + 1];
            }
          }
        } else {
          var i :| 0 <= i < |foreign[1..]| && !(Decide(v, verb, g[i]).Write? && g[i + 1] != g[i]);
          assert f[i + 1] == g[i] && f[i + 1 + 1] == g[i + 1];
        }
      }
    }
  }

  /** When a cancel that reports "already terminal" tells the truth: always, except that
      it lies precisely when all compare-and-sets missed and the value read after the
      last miss is still live. */
  lemma {:induction false} AlreadyTerminalIsExact<E>(v: Vocabulary<E>, cancelled: E, row: Option<E>, foreign: seq<Option<E>>, last: Option<E>)
    requires cancelled in v.terminal
    ensures var r := ReportCancel(Drive(v, Cancel(cancelled), row, foreign, last), cancelled);
            r.CancelReport? && r.alreadyTerminal ==>
              (r.state !in v.terminal <==>
                 AllMiss(v, Cancel(cancelled), row, foreign) && last.Some? && last.value !in v.terminal)
    decreases |foreign|
  {
    MissedIffAllMiss(v, Cancel(cancelled), row, foreign, last);
    if foreign != [] && Decide(v, Cancel(cancelled), row).Write? && foreign[0] != row {
      AlreadyTerminalIsExact(v, cancelled, foreign[0], foreign[1..], last);
      MissedIffAllMiss(v, Cancel(cancelled), foreign[0], foreign[1..], last);
    }
  }

  // ------------------------------------- what a call answers, verb by verb

  /** The value has the edge, or the destination is one every live value may go to, or the
      overlay adds it. */
  ghost predicate Leads<E>(v: Vocabulary<E>, overlay: map<E, set<E>>, src: E, dst: E) {
    || (src in v.edges && dst in v.edges[src])
    || dst in v.universal
    || (src in overlay && dst in overlay[src])
  }

  /** The call is a strict transition of a live value to another it does not lead to. */
  ghost predicate AsksIllegal<E>(v: Vocabulary<E>, verb: Verb<E>, value: Option<E>) {
    && verb.Transition? && value.Some? && value.value !in v.terminal && value.value != verb.dst
    && !Leads(v, map[], value.value, verb.dst)
  }

  /** The call may write over this value. */
  ghost predicate AsksLegal<E>(v: Vocabulary<E>, verb: Verb<E>, value: Option<E>) {
    && value.Some? && value.value !in v.terminal && value.value != verb.dst
    && (verb.Transition? ==> Leads(v, map[], value.value, verb.dst))
    && (verb.Advance? ==> value.value in verb.onlyFrom)
    && (verb.Converge? ==> Leads(v, verb.overlay, value.value, verb.dst))
  }

  /** The record left beside a value that is not written over: none for a missing row or an
      illegal edge, none where a mirror is there already, a refusal where a strict or a
      mirrored write meets a terminal value or a mirror meets no edge, else a no-op. */
  ghost function Leaves<E>(v: Vocabulary<E>, verb: Verb<E>, value: Option<E>): seq<Record<E>> {
    if value.None? || AsksIllegal(v, verb, value) || (verb.Converge? && value.value == verb.dst) then []
    else if value.value != verb.dst && (verb.Converge? || (verb.Transition? && value.value in v.terminal))
      then [Record(value.value, verb.dst, Refused)]
    else [Record(value.value, verb.dst, Noop)]
  }

  /** The answer of an undisturbed call: illegal exactly for an illegal edge, applied exactly
      for a legal one, with the record of its move, and otherwise the row as it was and the
      record its verb leaves. */
  lemma UndisturbedAnswer<E>(v: Vocabulary<E>, verb: Verb<E>, row: Option<E>, foreign: seq<Option<E>>, last: Option<E>)
    requires foreign != [] && foreign[0] == row
    ensures var c := Drive(v, verb, row, foreign, last);
            && (c.illegal <==> AsksIllegal(v, verb, row))
            && (c.applied <==> AsksLegal(v, verb, row))
            && (c.applied ==> c.row == Some(verb.dst) && c.stored == c.row && c.records == [Record(row.value, verb.dst, Applied)])
            && (!c.applied ==> c.row == row && c.stored == row && c.records == Leaves(v, verb, row))
  {
  }

  /** Under interference: an illegal answer is about the value last read, which the row
      still has when the call returns, and so are the records of any call that gave up
      before its writes ran out. */
  lemma {:induction false} DisturbedAnswer<E>(v: Vocabulary<E>, verb: Verb<E>, row: Option<E>, foreign: seq<Option<E>>, last: Option<E>)
    ensures var c := Drive(v, verb, row, foreign, last);
            && c.stored == c.row
            && (c.illegal ==> AsksIllegal(v, verb, c.seen) && !c.applied && !c.missed)
            && (c.applied ==> AsksLegal(v, verb, c.seen) && c.row == Some(verb.dst))
            && (!c.applied && !c.missed ==>
                  && c.row == c.seen && c.records == Leaves(v, verb, c.seen)
                  && !AsksLegal(v, verb, c.seen) && (AsksIllegal(v, verb, c.seen) ==> c.illegal))
            && (c.missed ==> !c.applied && !c.illegal && c.records == [] && c.row == last)
    decreases |foreign|
  {
    if foreign != [] && Decide(v, verb, row).Write? && foreign[0] != row {
      DisturbedAnswer(v, verb, foreign[0], foreign[1..], last);
    }
  }

  /** And it does lie: a task that other processes walk on between every read and write,
      and once more after the last miss, is reported terminal while its checks have run. */
  lemma AlreadyTerminalCanBeFalse()
    ensures var c := Drive(TASK_VOCAB, Cancel(CANCELLED), Some(QUEUED), [Some(DISPATCHED), Some(RUNNING), Some(ARTIFACTS_WRITTEN)], Some(CHECKS_RUN));
            && ReportCancel(c, CANCELLED) == CancelReport(false, CHECKS_RUN, true)
            && c.records == [] && CHECKS_RUN !in TERMINAL_STATES
    ensures CanTransition(QUEUED, DISPATCHED) && CanTransition(DISPATCHED, RUNNING)
            && CanTransition(RUNNING, ARTIFACTS_WRITTEN) && CanTransition(ARTIFACTS_WRITTEN, CHECKS_RUN)
  {
    var v, verb, last := TASK_VOCAB, Verb.Cancel(CANCELLED), Some(CHECKS_RUN);
    var f := [Some(DISPATCHED), Some(RUNNING), Some(ARTIFACTS_WRITTEN)];
    assert f[1..] == [Some(RUNNING), Some(ARTIFACTS_WRITTEN)] && f[1..][1..] == [Some(ARTIFACTS_WRITTEN)];
    assert Drive(v, verb, Some(ARTIFACTS_WRITTEN), [], last).stored == last;
    assert Drive(v, verb, Some(RUNNING), [Some(ARTIFACTS_WRITTEN)], last).stored == last;
    assert Drive(v, verb, Some(DISPATCHED), f[1..], last).stored == last;
  }

  /** Without other processes a call decides once and its decision lands. */
  lemma UndisturbedCall<E>(v: Vocabulary<E>, verb: Verb<E>, row: Option<E>)
    ensures var c := Drive(v, verb, row, [row, row, row], row);
            && !c.missed
            && c.seen == row
            && (c.applied <==> Decide(v, verb, row).Write?)
            && c.row == (if c.applied then Some(Decide(v, verb, row).dst) else row)
  {
  }

  /** What a caller of the strict verb is told. */
  datatype Answer<E> = Missing | Reached(state: E) | RefusedAt(state: E) | IllegalEdge(state: E)

  /** The state column of one table, its audit sink, and the locked writer over both. */
  class StateTable {
    var states: map<nat, TaskState>
    var log: seq<(nat, Record<TaskState>)>

    function Row(id: nat): Option<TaskState>
      reads this
    {
      if id in states then Some(states[id]) else None
    }

    /** Other processes leave the row with the given content. */
    method Interfere(id: nat, content: Option<TaskState>)
      modifies this`states
      ensures Row(id) == content
      ensures forall k :: k != id ==> (k in states <==> k in old(states)) && (k in states ==> states[k] == old(states)[k])
    {
      match content {
        case None => states := states - {id};
        case Some(s) => states := states[id := s];
      }
    }

    /** The locked writer: what it answers and leaves behind, whatever others write meanwhile. */
    method TransitionTask(v: Vocabulary<TaskState>, id: nat, verb: Verb<TaskState>,
                          foreign: seq<Option<TaskState>>, last: Option<TaskState>)
      returns (applied: bool, stored: Option<TaskState>, illegal: bool)
      requires |foreign| == 3
      modifies this
      ensures var c := Drive(v, verb, old(Row(id)), foreign, last);
              && applied == c.applied && stored == c.stored && illegal == c.illegal
              && Row(id) == c.row
              && log == old(log) + Tagged(id, c.records)
      ensures foreign[0] == old(Row(id)) ==>
                && (illegal <==> AsksIllegal(v, verb, old(Row(id))))
                && (applied <==> AsksLegal(v, verb, old(Row(id))))
                && Row(id) == stored == (if applied then Some(verb.dst) else old(Row(id)))
                && log == old(log) + Tagged(id, if applied then [Record(old(Row(id)).value, verb.dst, Applied)]
                                                else Leaves(v, verb, old(Row(id))))
      ensures illegal ==> AsksIllegal(v, verb, stored) && log == old(log)
      ensures applied ==> exists src :: AsksLegal(v, verb, Some(src)) && log == old(log) + [(id, Record(src, verb.dst, Applied))]
      ensures forall k :: k != id ==> (k in states <==> k in old(states)) && (k in states ==> states[k] == old(states)[k])
    {
      ghost var row := Row(id);
      CallIsSound(v, verb, row, foreign, last);
      DisturbedAnswer(v, verb, row, foreign, last);
      if foreign[0] == row {
        UndisturbedAnswer(v, verb, row, foreign, last);
      }
      applied, stored, illegal := Retry(v, id, verb, foreign, last);
    }

    /** Reads, decides, compares-and-sets, retries on a miss, and after the third
        miss gives up, reporting the latest observed value. */
    method Retry(v: Vocabulary<TaskState>, id: nat, verb: Verb<TaskState>, foreign: seq<Option<TaskState>>, last: Option<TaskState>)
      returns (applied: bool, stored: Option<TaskState>, illegal: bool)
      requires |foreign| == 3
      modifies this
      ensures var c := Drive(v, verb, old(Row(id)), foreign, last);
              && applied == c.applied && stored == c.stored && illegal == c.illegal
              && Row(id) == c.row
              && log == old(log) + Tagged(id, c.records)
      ensures forall k :: k != id ==> (k in states <==> k in old(states)) && (k in states ==> states[k] == old(states)[k])
    {
      var attempt := 0;
      while attempt < MAX_TRIES
        invariant 0 <= attempt <= MAX_TRIES
        invariant log == old(log)
        invariant Drive(v, verb, old(Row(id)), foreign, last) == Drive(v, verb, Row(id), foreign[attempt..], last)
        invariant forall k :: k != id ==> (k in states <==> k in old(states)) && (k in states ==> states[k] == old(states)[k])
      {
        var current := Row(id);
        match Decide(v, verb, current) {
          case Hold(None) =>
            return false, current, false;
          case Hold(Some(r)) =>
            log := log + [(id, r)];
            return false, current, false;
          case Illegal =>
            return false, current, true;
          case Write(dst) =>
            Interfere(id, foreign[attempt]);
            if Row(id) == current {
              states := states[id := dst];
              log := log + [(id, Record(current.value, dst, Applied))];
              return true, Some(dst), false;
            }
            assert foreign[attempt..][1..] == foreign[attempt + 1..];
            attempt := attempt + 1;
        }
      }
      Interfere(id, last);
      return false, Row(id), false;
    }

    /** The strict verb as its caller sees it: an illegal edge and a refusal are errors. */
    method StrictTransition(v: Vocabulary<TaskState>, id: nat, dst: TaskState, foreign: seq<Option<TaskState>>, last: Option<TaskState>)
      returns (answer: Answer<TaskState>)
      requires |foreign| == 3
      modifies this
      ensures foreign[0] == old(Row(id)) ==>
                answer == match old(Row(id))
                          case None => Missing
                          case Some(s) =>
                            if s == dst then Reached(dst)
                            else if s in v.terminal then RefusedAt(s)
                            else if Leads(v, map[], s, dst) then Reached(dst)
                            else IllegalEdge(s)
      ensures answer.Reached? ==> Row(id) == Some(dst) && answer.state == dst
      ensures answer.IllegalEdge? ==> Row(id) == Some(answer.state) && AsksIllegal(v, Verb.Transition(dst), Row(id))
      ensures answer.RefusedAt? ==>
                && Row(id) == Some(answer.state) && answer.state != dst
                && (answer.state in v.terminal || AllMiss(v, Verb.Transition(dst), old(Row(id)), foreign))
    {
      ghost var row := Row(id);
      MissedIffAllMiss(v, Verb.Transition(dst), row, foreign, last);
      DisturbedAnswer(v, Verb.Transition(dst), row, foreign, last);
      var applied, stored, illegal := TransitionTask(v, id, Verb.Transition(dst), foreign, last);
      if illegal {
        return IllegalEdge(stored.value);
      }
      if stored.None? {
        return Missing;
      }
      answer := if applied || stored.value == dst then Reached(stored.value) else RefusedAt(stored.value);
    }
  }

  function Tagged<E>(id: nat, records: seq<Record<E>>): seq<(nat, Record<E>)> {
    seq(|records|, i requires 0 <= i < |records| => (id, records[i]))
  }

  // ------------------------------------------------- many processes at once

  type Process = nat

  /** A process between its read and its compare-and-set. */
  datatype Pending<E> = Pending(verb: Verb<E>, seen: Option<E>, tries: nat)

  /** One entity as all processes share it. */
  datatype Cell<E> = Cell(row: Option<E>, log: seq<Record<E>>, pending: map<Process, Pending<E>>)

  datatype Act<E> =
    | Begin(p: Process, verb: Verb<E>)  // read and decide
    | Cas(p: Process)                   // compare-and-set, and on a miss read again
    | Crash(p: Process)
    | Foreign(content: Option<E>)       // a writer outside the authority

  /** The fresh read: hold, raise, or go on to the compare-and-set. */
  function ReadAndDecide<E(==)>(v: Vocabulary<E>, c: Cell<E>, p: Process, verb: Verb<E>, tries: nat): Cell<E> {
    match Decide(v, verb, c.row)
    case Hold(None) => c.(pending := c.pending - {p})
    case Hold(Some(r)) => c.(log := c.log + [r], pending := c.pending - {p})
    case Illegal => c.(pending := c.pending - {p})
    case Write(_) => c.(pending := c.pending[p := Pending(verb, c.row, tries)])
  }

  function Exec<E(==)>(v: Vocabulary<E>, c: Cell<E>, a: Act<E>): Cell<E> {
    match a
    case Begin(p, verb) => if p in c.pending then c else ReadAndDecide(v, c, p, verb, 0)
    case Cas(p) =>
      if p !in c.pending then c
      else
        var q := c.pending[p];
        var d := Decide(v, q.verb, q.seen);
        if !d.Write? then c.(pending := c.pending - {p})
        else if c.row == q.seen then
          Cell(Some(d.dst), c.log + [Record(q.seen.value, d.dst, Applied)], c.pending - {p})
        else if q.tries + 1 >= MAX_TRIES then c.(pending := c.pending - {p})
        else ReadAndDecide(v, c, p, q.verb, q.tries + 1)
    case Crash(p) => c.(pending := c.pending - {p})
    case Foreign(content) => c.(row := content)
  }

  /** The cells a schedule passes through, from an idle cell holding `start`. */
  ghost predicate IsRun<E>(v: Vocabulary<E>, start: Option<E>, acts: seq<Act<E>>, cells: seq<Cell<E>>) {
    && |cells| == |acts| + 1
    && cells[0] == Cell(start, [], map[])
    && forall i :: 0 <= i < |acts| ==> cells[i + 1] == Exec(v, cells[i], acts[i])
  }

  /** The verb of every act is one whose writes stay inside v plus `overlay`. */
  ghost predicate Disciplined<E>(v: Vocabulary<E>, overlay: map<E, set<E>>, acts: seq<Act<E>>) {
    forall i :: 0 <= i < |acts| ==> !acts[i].Foreign? && (acts[i].Begin? ==> VerbWithin(v, overlay, acts[i].verb))
  }

  predicate VerbWithin<E(==)>(v: Vocabulary<E>, overlay: map<E, set<E>>, verb: Verb<E>) {
    match verb
    case Transition(_) => true
    case Advance(_, _) => false
    case Converge(_, o) => o == overlay || o == map[]
    case Cancel(d) => d in v.universal
  }

  /** In any interleaving, with writers outside the authority in between: when a
      compare-and-set lands, the row held exactly the value the decision saw, that
      value was not terminal, and the move was one the verb is entitled to. */
  lemma LandedWriteIsEntitled<E>(v: Vocabulary<E>, c: Cell<E>, a: Act<E>)
    ensures var d := Exec(v, c, a);
            !a.Foreign? && d.row != c.row ==>
              && a.Cas? && a.p in c.pending
              && c.row == c.pending[a.p].seen && c.row.Some? && d.row.Some?
              && c.row.value !in v.terminal
              && Entitled(v, c.pending[a.p].verb, c.row.value, d.row.value)
              && d.log == c.log + [Record(c.row.value, d.row.value, Applied)]
  {
    if a.Cas? && a.p in c.pending {
      var q := c.pending[a.p];
      var d := Decide(v, q.verb, q.seen);
      if d.Write? {
        DecideWrites(v, q.verb, q.seen, d.dst);
      }
    }
  }

  /** The applied records of a log, as the moves they describe. */
  function Moves<E>(log: seq<Record<E>>): seq<(E, E)> {
    if log == [] then []
    else Moves(log[..|log| - 1]) +
         (if log[|log| - 1].outcome == Applied then [(log[|log| - 1].src, log[|log| - 1].dst)] else [])
  }

  /** Replaying moves from a start value: each must leave from where the last arrived. */
  function Replay<E(==)>(start: Option<E>, moves: seq<(E, E)>): (end: Option<Option<E>>) {
    if moves == [] then Some(start)
    else
      var last := moves[|moves| - 1];
      match Replay(start, moves[..|moves| - 1])
      case Some(Some(s)) => if s == last.0 then Some(Some(last.1)) else None
      case _ => None
  }

  lemma MovesAppend<E>(log: seq<Record<E>>, r: Record<E>)
    ensures Moves(log + [r]) == Moves(log) + (if r.outcome == Applied then [(r.src, r.dst)] else [])
  {
    assert (log + [r])[..|log|] == log;
  }

  lemma ReplayAppend<E>(start: Option<E>, moves: seq<(E, E)>, m: (E, E))
    ensures Replay(start, moves + [m]) ==
              match Replay(start, moves) {
                case Some(Some(s)) => if s == m.0 then Some(Some(m.1)) else None
                case _ => None
              }
  {
    assert (moves + [m])[..|moves|] == moves;
  }

  ghost predicate PendingWithin<E>(v: Vocabulary<E>, overlay: map<E, set<E>>, c: Cell<E>) {
    forall p :: p in c.pending ==> VerbWithin(v, overlay, c.pending[p].verb)
  }

  /** One act of a disciplined process keeps the log a replay of the row, keeps a
      terminal row, and moves only along v, the overlay or a cancellation. */
  lemma DisciplinedAct<E>(v: Vocabulary<E>, overlay: map<E, set<E>>, start: Option<E>, c: Cell<E>, a: Act<E>)
    requires !a.Foreign? && (a.Begin? ==> VerbWithin(v, overlay, a.verb))
    requires PendingWithin(v, overlay, c)
    requires Replay(start, Moves(c.log)) == Some(c.row)
    ensures PendingWithin(v, overlay, Exec(v, c, a))
    ensures Replay(start, Moves(Exec(v, c, a).log)) == Some(Exec(v, c, a).row)
    ensures Exec(v, c, a).row != c.row ==>
              && c.row.Some? && Exec(v, c, a).row.Some? && c.row.value !in v.terminal
              && Exec(v, c, a).row.value in Allowed(v, c.row.value, overlay)
  {
    PendingStaysWithin(v, overlay, c, a);
    ActReplays(v, start, c, a);
    ActMovesWithin(v, overlay, c, a);
  }

  lemma PendingStaysWithin<E>(v: Vocabulary<E>, overlay: map<E, set<E>>, c: Cell<E>, a: Act<E>)
    requires (a.Begin? ==> VerbWithin(v, overlay, a.verb)) && PendingWithin(v, overlay, c)
    ensures PendingWithin(v, overlay, Exec(v, c, a))
  {
  }

  lemma ActReplays<E>(v: Vocabulary<E>, start: Option<E>, c: Cell<E>, a: Act<E>)
    requires !a.Foreign? && Replay(start, Moves(c.log)) == Some(c.row)
    ensures Replay(start, Moves(Exec(v, c, a).log)) == Some(Exec(v, c, a).row)
  {
    var d := Exec(v, c, a);
    if d.row != c.row {
      LandedWriteIsEntitled(v, c, a);
      LogMore(start, c.log, Record(c.row.value, d.row.value, Applied));
    } else if d.log != c.log {
      HeldRecord(v, c, a);
      LogMore(start, c.log, d.log[|d.log| - 1]);
    }
  }

  /** What one more record does to the replay of a log. */
  lemma LogMore<E>(start: Option<E>, log: seq<Record<E>>, r: Record<E>)
    requires Replay(start, Moves(log)).Some?
    ensures r.outcome != Applied ==> Replay(start, Moves(log + [r])) == Replay(start, Moves(log))
    ensures r.outcome == Applied && Replay(start, Moves(log)) == Some(Some(r.src)) ==> Replay(start, Moves(log + [r])) == Some(Some(r.dst))
  {
    MovesAppend(log, r);
    if r.outcome == Applied {
      ReplayAppend(start, Moves(log), (r.src, r.dst));
    } else {
      assert Moves(log) + [] == Moves(log);
    }
  }

  lemma ActMovesWithin<E>(v: Vocabulary<E>, overlay: map<E, set<E>>, c: Cell<E>, a: Act<E>)
    requires !a.Foreign? && PendingWithin(v, overlay, c)
    ensures Exec(v, c, a).row != c.row ==>
              && c.row.Some? && Exec(v, c, a).row.Some? && c.row.value !in v.terminal
              && Exec(v, c, a).row.value in Allowed(v, c.row.value, overlay)
  {
    if Exec(v, c, a).row != c.row {
      LandedWriteIsEntitled(v, c, a);
      EntitledWithin(v, overlay, c.pending[a.p].verb, c.row.value, Exec(v, c, a).row.value);
    }
  }

  /** A verb within the discipline is entitled to moves along v, the overlay or a cancellation only. */
  lemma EntitledWithin<E>(v: Vocabulary<E>, overlay: map<E, set<E>>, verb: Verb<E>, src: E, dst: E)
    requires VerbWithin(v, overlay, verb) && Entitled(v, verb, src, dst)
    ensures src !in v.terminal && dst in Allowed(v, src, overlay)
  {
  }

  /** A record written without moving the row is a refusal or a no-op. */
  lemma HeldRecord<E>(v: Vocabulary<E>, c: Cell<E>, a: Act<E>)
    requires !a.Foreign?
    ensures var d := Exec(v, c, a);
            d.row == c.row && d.log != c.log ==>
              d.log != [] && d.log[..|d.log| - 1] == c.log && d.log == c.log + [d.log[|d.log| - 1]] && d.log[|d.log| - 1].outcome != Applied
  {
    if a.Cas? && a.p in c.pending {
      var q := c.pending[a.p];
      var e := Decide(v, q.verb, q.seen);
      if e.Write? {
        DecideWrites(v, q.verb, q.seen, e.dst);
      }
    }
  }

  /** Whole-run theorem. However the processes interleave, if every writer uses
      transition, converge or cancel then (1) the audit log replays from the start value
      to the stored value at every point, (2) the successive values are a walk in the
      vocabulary, the overlay and the cancel edge, and (3) a terminal value, once
      stored, stays. */
  lemma {:induction false} DisciplinedRun<E>(v: Vocabulary<E>, overlay: map<E, set<E>>, start: Option<E>,
                                             acts: seq<Act<E>>, cells: seq<Cell<E>>, n: nat)
    requires IsRun(v, start, acts, cells) && Disciplined(v, overlay, acts)
    requires n < |cells|
    ensures PendingWithin(v, overlay, cells[n])
    ensures Replay(start, Moves(cells[n].log)) == Some(cells[n].row)
    ensures forall i :: 0 <= i < n && cells[i + 1].row != cells[i].row ==>
              && cells[i].row.Some? && cells[i + 1].row.Some?
              && cells[i + 1].row.value in Allowed(v, cells[i].row.value, overlay)
    ensures forall i :: 0 <= i <= n && cells[i].row.Some? && cells[i].row.value in v.terminal ==> cells[n].row == cells[i].row
  {
    if n > 0 {
      DisciplinedRun(v, overlay, start, acts, cells, n - 1);
      DisciplinedAct(v, overlay, start, cells[n - 1], acts[n - 1]);
    }
  }
}
