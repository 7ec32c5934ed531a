/** The hash-chained ledger of execution records. */
module ExecutionLedger {
  import opened Options

  type Hash = string

  /** A record; `body` stands for the fields nothing here looks at. */
  datatype Record = Record(id: string, task: string, body: seq<string>, prevHash: Option<Hash>, recordHash: Hash)

  /** What is hashed: every field except the hash itself. */
  datatype Content = Content(id: string, task: string, body: seq<string>, prevHash: Option<Hash>)

  /** The digest of the canonical form, taken to be injective and never empty. */
  type Digest = Content -> Hash

  ghost predicate Sound(digest: Digest) {
    && (forall a, b :: digest(a) == digest(b) ==> a == b)
    && forall a :: digest(a) != ""
  }

  function Hashable(r: Record): Content {
    Content(r.id, r.task, r.body, r.prevHash)
  }

  function Seal(digest: Digest, r: Record): Record {
    r.(recordHash := digest(Hashable(r)))
  }

  predicate Verifies(digest: Digest, r: Record) {
    r.recordHash != "" && r.recordHash == digest(Hashable(r))
  }

  function WithPrevHash(digest: Digest, r: Record, prev: Option<Hash>): Record {
    Seal(digest, r.(prevHash := prev))
  }

  /** Sealing makes a record verify, changes nothing when it verified before, and no other
      hash would do. */
  lemma SealVerifies(digest: Digest, r: Record)
    requires Sound(digest)
    ensures Verifies(digest, Seal(digest, r))
    ensures Verifies(digest, r) <==> Seal(digest, r) == r
    ensures forall s :: Hashable(s) == Hashable(r) && Verifies(digest, s) ==> s == Seal(digest, r)
  {
  }

  /** An absent and an empty hash are the same to the verifier. */
  function Named(h: Option<Hash>): Option<Hash> {
    if h == Some("") then None else h
  }

  function HeadBefore(chain: seq<Record>, i: nat): Option<Hash>
    requires i <= |chain|
  {
    if i == 0 then None else Some(chain[i - 1].recordHash)
  }

  /** The i-th record names its predecessor and carries its own seal. */
  predicate Linked(digest: Digest, chain: seq<Record>, i: nat)
    requires i < |chain|
  {
    Named(chain[i].prevHash) == HeadBefore(chain, i) && Verifies(digest, chain[i])
  }

  predicate Intact(digest: Digest, chain: seq<Record>) {
    forall i :: 0 <= i < |chain| ==> Linked(digest, chain, i)
  }

  /** The same of the stored fields alone: every record hashes to its own hash, which is not
      empty, the first names no predecessor, and every other names the hash before it. */
  ghost predicate Unbroken(digest: Digest, chain: seq<Record>) {
    forall i :: 0 <= i < |chain| ==> NamesPredecessor(chain, i) && HashesToItself(digest, chain[i])
  }

  ghost predicate HashesToItself(digest: Digest, r: Record) {
    r.recordHash != "" && r.recordHash == digest(Content(r.id, r.task, r.body, r.prevHash))
  }

  ghost predicate NamesPredecessor(chain: seq<Record>, i: nat)
    requires i < |chain|
  {
    if i == 0 then chain[0].prevHash in {None, Some("")} else chain[i].prevHash == Some(chain[i - 1].recordHash)
  }

  lemma IntactIsUnbroken(digest: Digest, chain: seq<Record>)
    ensures Intact(digest, chain) <==> Unbroken(digest, chain)
  {
    forall i | 0 <= i < |chain| && HashesToItself(digest, chain[i]) && (i > 0 ==> HashesToItself(digest, chain[i - 1]))
      ensures Linked(digest, chain, i) <==> NamesPredecessor(chain, i)
    {
    }
    if Intact(digest, chain) {
      forall i | 0 <= i < |chain|
        ensures NamesPredecessor(chain, i) && HashesToItself(digest, chain[i])
      {
        assert Linked(digest, chain, i) && (i > 0 ==> Linked(digest, chain, i - 1));
      }
    }
  }

  datatype BreakReason = PrevHashMismatch | FirstCarriesPrevHash | SealDoesNotVerify

  datatype ChainVerification = ChainVerification(ok: bool, checked: nat, breakId: Option<string>, reason: Option<BreakReason>)

  datatype Answer = Chained(record: Record) | NotFound | PolicyViolation | DuplicateId

  class Ledger {
    const digest: Digest
    var tasks: set<string>
    var chain: seq<Record>

    ghost predicate Valid()
      reads this
    {
      Sound(digest) && Intact(digest, chain)
    }

    constructor (digest: Digest)
      requires Sound(digest)
      ensures Valid() && chain == [] && tasks == {} && this.digest == digest
    {
      this.digest := digest;
      tasks, chain := {}, [];
    }

    method CreateTask(task: string)
      requires Valid()
      modifies this`tasks
      ensures Valid() && tasks == old(tasks) + {task}
    {
      tasks := tasks + {task};
    }

    /** Chains a sealed record of a known task to the head, whatever predecessor the
        caller claimed; anything else is refused and nothing is stored. */
    method Record(r: Record) returns (a: Answer)
      requires Valid()
      modifies this`chain
      ensures Valid()
      ensures a == NotFound <==> r.task !in tasks
      ensures a == PolicyViolation <==> r.task in tasks && !Verifies(digest, r)
      ensures a == DuplicateId <==> r.task in tasks && Verifies(digest, r) && exists i :: 0 <= i < |old(chain)| && old(chain)[i].id == r.id
      ensures !a.Chained? ==> chain == old(chain)
      ensures a.Chained? ==>
                && chain == old(chain) + [a.record]
                && a.record.id == r.id && a.record.task == r.task && a.record.body == r.body
                && Named(a.record.prevHash) == HeadBefore(old(chain), |old(chain)|)
                && Verifies(digest, a.record)
      ensures Unbroken(digest, chain)
      ensures r.task in tasks && !HashesToItself(digest, r) ==> a == PolicyViolation
    {
      IntactIsUnbroken(digest, chain);
      if r.task !in tasks {
        return NotFound;
      }
      if !Verifies(digest, r) {
        return PolicyViolation;
      }
      var head := if |chain| == 0 then None else Some(chain[|chain| - 1].recordHash);
      var chained := WithPrevHash(digest, r, head);
      if exists i :: 0 <= i < |chain| && chain[i].id == r.id {
        return DuplicateId;
      }
      IntactSnoc(digest, chain, chained);
      IntactIsUnbroken(digest, chain + [chained]);
      chain := chain + [chained];
      a := Chained(chained);
    }

    /** Walks the chain and stops at the first break, on any stored content. */
    method VerifyChain() returns (v: ChainVerification)
      ensures v.ok <==> Intact(digest, chain)
      ensures v.ok <==> Unbroken(digest, chain)
      ensures v.ok ==> v.checked == |chain| && v.breakId == None && v.reason == None
      ensures v.checked <= |chain| && Intact(digest, chain[..v.checked])
      ensures !v.ok ==>
                && v.checked < |chain| && v.breakId == Some(chain[v.checked].id)
                && !Intact(digest, chain[..v.checked + 1])
                && (v.reason == Some(SealDoesNotVerify) <==> Named(chain[v.checked].prevHash) == HeadBefore(chain, v.checked))
                && (v.reason == Some(FirstCarriesPrevHash) ==> v.checked == 0)
    {
      IntactIsUnbroken(digest, chain);
      var prev: Option<Hash> := None;
      var checked := 0;
      while checked < |chain|
        invariant 0 <= checked <= |chain|
        invariant prev == HeadBefore(chain, checked)
        invariant forall i :: 0 <= i < checked ==> Linked(digest, chain, i)
      {
        var r := chain[checked];
        if Named(r.prevHash) != prev {
          BreakHere(digest, chain, checked);
          return ChainVerification(false, checked, Some(r.id), Some(if checked > 0 then PrevHashMismatch else FirstCarriesPrevHash));
        }
        if !Verifies(digest, r) {
          BreakHere(digest, chain, checked);
          return ChainVerification(false, checked, Some(r.id), Some(SealDoesNotVerify));
        }
        prev := Some(r.recordHash);
        checked := checked + 1;
      }
      assert chain[..checked] == chain;
      v := ChainVerification(true, checked, None, None);
    }
  }

  lemma IntactSnoc(digest: Digest, chain: seq<Record>, r: Record)
    requires Intact(digest, chain) && Verifies(digest, r)
    requires r.prevHash == HeadBefore(chain, |chain|)
    ensures Intact(digest, chain + [r])
    ensures Named(r.prevHash) == r.prevHash
  {
    var more := chain + [r];
    forall i | 0 <= i < |more|
      ensures Linked(digest, more, i)
    {
      if i < |chain| {
        assert Linked(digest, chain, i);
      }
      if 0 < i {
        assert Linked(digest, chain, i - 1);
      }
    }
    if chain != [] {
      assert Linked(digest, chain, |chain| - 1);
    }
  }

  lemma BreakHere(digest: Digest, chain: seq<Record>, n: nat)
    requires n < |chain| && !Linked(digest, chain, n)
    requires forall i :: 0 <= i < n ==> Linked(digest, chain, i)
    ensures !Intact(digest, chain) && Intact(digest, chain[..n]) && !Intact(digest, chain[..n + 1])
  {
    assert !Linked(digest, chain[..n + 1], n);
    forall i | 0 <= i < n
      ensures Linked(digest, chain[..n], i)
    {
      assert Linked(digest, chain, i);
    }
  }

  /** Two intact, non-empty ledgers with the same last hash are equal record by record. */
  lemma {:induction false} TailDeterminesLedger(digest: Digest, a: seq<Record>, b: seq<Record>)
    requires Sound(digest) && Intact(digest, a) && Intact(digest, b)
    requires a != [] && b != [] && a[|a| - 1].recordHash == b[|b| - 1].recordHash
    ensures a == b
    decreases |a|
  {
    var m, n := |a| - 1, |b| - 1;
    assert Linked(digest, a, m) && Linked(digest, b, n);
    assert Hashable(a[m]) == Hashable(b[n]);
    assert a[m] == b[n];
    if m > 0 && n > 0 {
      PrefixIntact(digest, a, m);
      PrefixIntact(digest, b, n);
      TailDeterminesLedger(digest, a[..m], b[..n]);
    }
    assert a == a[..m] + [a[m]] && b == b[..n] + [b[n]];
  }

  /** So of all ledgers that end in a given intact ledger's tail record the verifier
      accepts that one alone: any rewrite or deletion before the tail is caught. */
  lemma TamperingIsCaught(digest: Digest, ledger: seq<Record>, tampered: seq<Record>)
    requires Sound(digest) && Intact(digest, ledger) && ledger != [] && tampered != []
    requires tampered[|tampered| - 1] == ledger[|ledger| - 1]
    ensures Intact(digest, tampered) <==> tampered == ledger
  {
    if Intact(digest, tampered) {
      TailDeterminesLedger(digest, ledger, tampered);
    }
  }

  /** What the chain cannot show: any truncation at the tail is intact. */
  lemma PrefixIntact(digest: Digest, chain: seq<Record>, n: nat)
    requires Intact(digest, chain) && n <= |chain|
    ensures Intact(digest, chain[..n])
  {
    forall i | 0 <= i < n
      ensures Linked(digest, chain[..n], i)
    {
      assert Linked(digest, chain, i);
    }
  }

  /** The records chained and sealed afresh from the first on. */
  function Resealed(digest: Digest, records: seq<Record>): (chain: seq<Record>)
    ensures |chain| == |records|
  {
    if records == [] then []
    else
      var before := Resealed(digest, records[..|records| - 1]);
      before + [WithPrevHash(digest, records[|records| - 1], HeadBefore(before, |before|))]
  }

  /** And what it cannot show either, although the documentation of the walk says so: a
      rewrite of any record whose successors are sealed again passes. Such a ledger is
      caught exactly by its tail hash, which cannot be the old one. */
  lemma {:induction false} ResealedIsIntact(digest: Digest, records: seq<Record>)
    requires Sound(digest)
    ensures Intact(digest, Resealed(digest, records))
    ensures forall i :: 0 <= i < |records| ==>
              var r := Resealed(digest, records)[i];
              r.id == records[i].id && r.task == records[i].task && r.body == records[i].body
  {
    if records != [] {
      var n := |records| - 1;
      ResealedIsIntact(digest, records[..n]);
      var before := Resealed(digest, records[..n]);
      IntactSnoc(digest, before, WithPrevHash(digest, records[n], HeadBefore(before, |before|)));
    }
  }

  lemma RewriteShowsInTail(digest: Digest, ledger: seq<Record>, records: seq<Record>)
    requires Sound(digest) && Intact(digest, ledger) && ledger != [] && records != []
    ensures (Resealed(digest, records)[|records| - 1].recordHash == ledger[|ledger| - 1].recordHash)
              <==> (Resealed(digest, records) == ledger)
  {
    ResealedIsIntact(digest, records);
    if Resealed(digest, records)[|records| - 1].recordHash == ledger[|ledger| - 1].recordHash {
      TailDeterminesLedger(digest, Resealed(digest, records), ledger);
    }
  }
}
