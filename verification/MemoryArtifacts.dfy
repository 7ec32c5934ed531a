/** Payload bodies kept in the shared store and read back in character chunks. */
module MemoryArtifacts {
  import opened Options

  /** The slice `s[start:end]` for a start that is not negative: a negative end counts
      from the back, and both are cut to the length. */
  function Slice(s: string, start: nat, end: int): string {
    var e := if end < 0 then end + |s| else end;
    var stop := if e > |s| then |s| else e;
    if start < stop then s[start..stop] else ""
  }

  datatype Chunk = Chunk(offset: nat, content: string, total: nat, next: Option<nat>)

  const FULL_READ: int := 65536

  class Artifacts {
    var bodies: map<nat, string>
    var nonce: nat

    ghost predicate Valid()
      reads this
    {
      forall k :: k in bodies ==> k < nonce
    }

    constructor ()
      ensures Valid() && bodies == map[]
    {
      bodies, nonce := map[], 0;
    }

    method PutArtifact(content: string) returns (id: nat)
      requires Valid()
      modifies this
      ensures Valid() && id !in old(bodies) && bodies == old(bodies)[id := content]
    {
      id := nonce;
      nonce := nonce + 1;
      bodies := bodies[id := content];
    }

    /** A chunk is the characters from the offset on. With a positive bound it has as many
        as the bound or the body allows, and the next offset, given exactly while something
        is left, moves on; with a bound of zero it never does. */
    method ReadArtifactChunk(id: nat, offset: int, maxChars: int) returns (c: Option<Chunk>)
      ensures c.None? <==> id !in bodies
      ensures c.Some? ==>
                var body, from := bodies[id], if offset < 0 then 0 else offset;
                && c.value.offset == from && c.value.total == |body|
                && (from <= |body| ==> c.value.content <= body[from..])
                && (from > |body| ==> c.value.content == "")
                && (c.value.next.Some? <==> from + |c.value.content| < |body|)
                && (c.value.next.Some? ==> c.value.next.value == from + |c.value.content|)
                && (maxChars > 0 ==> |c.value.content| <= maxChars
                                     && (c.value.next.Some? ==> |c.value.content| == maxChars))
                && (maxChars == 0 ==> c.value.content == "")
                && (maxChars < 0 ==>
                      c.value.content == if from + maxChars < 0 && from < |body| + from + maxChars
                                         then body[from..|body| + from + maxChars] else "")
    {
      if id !in bodies {
        return None;
      }
      var body := bodies[id];
      var from := if offset < 0 then 0 else offset;
      var chunk := Slice(body, from, from + maxChars);
      var next := from + |chunk|;
      c := Some(Chunk(from, chunk, |body|, if next < |body| then Some(next) else None));
    }

    /** The reassembly loop terminates and returns the whole body, or nothing for an
        unknown id. */
    method ReadArtifactFull(id: nat) returns (content: string)
      ensures content == if id in bodies then bodies[id] else ""
    {
      content := "";
      var offset := 0;
      while true
        invariant id in bodies ==> 0 <= offset <= |bodies[id]| && content == bodies[id][..offset]
        invariant id !in bodies ==> content == ""
        decreases if id in bodies then |bodies[id]| - offset else 0
      {
        var c := ReadArtifactChunk(id, offset, FULL_READ);
        if c.None? {
          break;
        }
        content := content + c.value.content;
        if c.value.next.None? {
          break;
        }
        offset := c.value.next.value;
      }
    }
  }
}
