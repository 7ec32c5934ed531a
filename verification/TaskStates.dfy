/** Vocabularies (finite state machines as data) and the task state machine. */
module TaskStates {

  datatype Vocabulary<E> = Vocabulary(edges: map<E, set<E>>, terminal: set<E>, universal: set<E>)

  /** The destinations open to `src`: its own edges, and for a non-terminal source
      also the universal members and whatever an overlay adds. */
  function Allowed<E(==)>(v: Vocabulary<E>, src: E, overlay: map<E, set<E>>): set<E> {
    (if src in v.edges then v.edges[src] else {}) +
    (if src in v.terminal then {} else
       v.universal + (if src in overlay then overlay[src] else {}))
  }

  datatype TaskState =
    | CREATED | CLASSIFIED | PRIVACY_CHECKED | ELIGIBLE_PROVIDERS_COMPUTED | QUEUED
    | DISPATCHED | RUNNING | ARTIFACTS_WRITTEN | CHECKS_RUN | REVIEW_READY
    | APPROVED | REJECTED | RETRY | COMPLETE | CANCELLED | FAILED

  const TERMINAL_STATES: set<TaskState> := {COMPLETE, CANCELLED, FAILED}

  const TASK_EDGES: map<TaskState, set<TaskState>> :=
    map[CREATED := {CLASSIFIED},
        CLASSIFIED := {PRIVACY_CHECKED},
        PRIVACY_CHECKED := {ELIGIBLE_PROVIDERS_COMPUTED, REJECTED},
        ELIGIBLE_PROVIDERS_COMPUTED := {QUEUED, REJECTED},
        QUEUED := {DISPATCHED},
        DISPATCHED := {RUNNING},
        RUNNING := {ARTIFACTS_WRITTEN, FAILED},
        ARTIFACTS_WRITTEN := {CHECKS_RUN},
        CHECKS_RUN := {REVIEW_READY},
        REVIEW_READY := {APPROVED, REJECTED, RETRY},
        APPROVED := {COMPLETE},
        REJECTED := {COMPLETE, RETRY},
        RETRY := {QUEUED},
        COMPLETE := {},
        CANCELLED := {},
        FAILED := {}]

  const TASK_VOCAB: Vocabulary<TaskState> := Vocabulary(TASK_EDGES, TERMINAL_STATES, {CANCELLED})

  /** The overlay only the queue's mirror uses: any live task may jump to an outcome. */
  const MIRROR_EDGES: map<TaskState, set<TaskState>> :=
    map s: TaskState | s !in TERMINAL_STATES :: {COMPLETE, FAILED, REVIEW_READY}

  /** From every live state the mirror may write each ticket outcome; from a
      terminal state nothing at all may be written. */
  lemma MirrorReach(src: TaskState, dst: TaskState)
    requires dst in {COMPLETE, FAILED, REVIEW_READY}
    ensures dst in Allowed(TASK_VOCAB, src, MIRROR_EDGES) <==> src !in TERMINAL_STATES
    ensures src in TERMINAL_STATES ==> Allowed(TASK_VOCAB, src, MIRROR_EDGES) == {}
  {
    if src in TERMINAL_STATES {
      assert TASK_EDGES[src] == {};
    }
  }

  predicate CanTransition(src: TaskState, dst: TaskState) {
    dst in Allowed(TASK_VOCAB, src, map[])
  }

  /** Every state of `history` follows from the one before along an edge of v (with overlay). */
  ghost predicate IsWalk<E>(v: Vocabulary<E>, overlay: map<E, set<E>>, history: seq<E>) {
    forall i :: 0 <= i < |history| - 1 ==> history[i + 1] in Allowed(v, history[i], overlay)
  }

  /** If every edge out of some states leads back into them or to the gate, then a walk that
      starts in one of them and has left them has passed the gate. */
  lemma {:induction false} PassesGate(inner: set<TaskState>, gate: TaskState, walk: seq<TaskState>, n: nat) returns (i: nat)
    requires IsWalk(TASK_VOCAB, map[], walk) && n < |walk|
    requires walk[0] in inner && walk[n] !in inner
    requires forall s, d :: s in inner && CanTransition(s, d) ==> d in inner || d == gate
    ensures i <= n && walk[i] == gate
  {
    assert CanTransition(walk[n - 1], walk[n - 1 + 1]);
    if walk[n - 1] in inner {
      i := n;
    } else {
      i := PassesGate(inner, gate, walk, n - 1);
    }
  }

  /** Before its privacy check a task goes nowhere but to its cancellation; and none comes to
      review or approval before its checks have run, though a rejected one may complete. */
  lemma PrivacyCheckFirst(walk: seq<TaskState>, n: nat) returns (i: nat)
    requires IsWalk(TASK_VOCAB, map[], walk) && n < |walk| && walk[0] == CREATED
    requires walk[n] !in {CREATED, CLASSIFIED, CANCELLED}
    ensures i <= n && walk[i] == PRIVACY_CHECKED
  {
    i := PassesGate({CREATED, CLASSIFIED, CANCELLED}, PRIVACY_CHECKED, walk, n);
  }

  lemma ChecksBeforeReview(walk: seq<TaskState>, n: nat) returns (i: nat)
    requires IsWalk(TASK_VOCAB, map[], walk) && n < |walk| && walk[0] == CREATED
    requires walk[n] in {REVIEW_READY, APPROVED}
    ensures i <= n && walk[i] == CHECKS_RUN
  {
    i := PassesGate({CREATED, CLASSIFIED, PRIVACY_CHECKED, ELIGIBLE_PROVIDERS_COMPUTED, QUEUED, DISPATCHED, RUNNING,
                     ARTIFACTS_WRITTEN, REJECTED, RETRY, COMPLETE, CANCELLED, FAILED}, CHECKS_RUN, walk, n);
  }

  /** The stateful wrapper that drives one task through the machine. */
  class TaskFSM {
    var state: TaskState
    var history: seq<TaskState>

    ghost predicate Valid()
      reads this
    {
      && history != []
      && history[|history| - 1] == state
      && IsWalk(TASK_VOCAB, map[], history)
    }

    constructor (start: TaskState)
      ensures Valid() && state == start && history == [start]
    {
      state := start;
      history := [start];
    }

    /** Moves along an edge, or leaves everything as it was (the source raises). */
    method To(dst: TaskState) returns (legal: bool)
      requires Valid()
      modifies this
      ensures Valid()
      ensures legal <==> CanTransition(old(state), dst)
      ensures legal ==> state == dst && history == old(history) + [dst]
      ensures !legal ==> state == old(state) && history == old(history)
    {
      legal := CanTransition(state, dst);
      if legal {
        state := dst;
        history := history + [dst];
      }
    }
  }
}
