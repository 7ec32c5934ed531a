/** Stored bodies are UTF-8 bytes, read in bounded chunks by byte offset. */
module Utf8Paging {
  import opened Options

  type Byte = b: int | 0 <= b < 256

  /** A Unicode scalar value: what a text that encodes at all is made of. */
  type Scalar = c: int | 0 <= c < 0xD800 || 0xE000 <= c < 0x11_0000

  /** Max continuation bytes of one character. */
  const MAX_UTF8_TAIL: int := 3

  predicate IsContinuation(b: Byte) {
    0x80 <= b < 0xC0
  }

  // -------------------------------------------- sections 3 and 4 of RFC 3629

  function Width(c: Scalar): nat {
    if c < 0x80 then 1 else if c < 0x800 then 2 else if c < 0x1_0000 then 3 else 4
  }

  function EncodeChar(c: Scalar): (s: seq<Byte>)
    ensures |s| == Width(c)
  {
    var d0, q1 := c % 64, c / 64;
    var d1, q2 := q1 % 64, q1 / 64;
    var d2, q3 := q2 % 64, q2 / 64;
    if c < 0x80 then [c]
    else if c < 0x800 then [0xC0 + q1, 0x80 + d0]
    else if c < 0x1_0000 then [0xE0 + q2, 0x80 + d1, 0x80 + d0]
    else [0xF0 + q3, 0x80 + d2, 0x80 + d1, 0x80 + d0]
  }

  function Encode(text: seq<Scalar>): seq<Byte> {
    if text == [] then [] else EncodeChar(text[0]) + Encode(text[1..])
  }

  /** The number a lead byte and its continuation bytes spell. */
  function Spelled(lead: int, d2: int, d1: int, d0: int): int {
    ((lead * 64 + d2) * 64 + d1) * 64 + d0
  }

  /** The first character of `s` under strict decoding: shortest form only, no
      surrogates, nothing above the last code point. */
  function DecodeFirst(s: seq<Byte>): Option<Scalar> {
    if s == [] then None
    else if s[0] < 0x80 then Some(s[0])
    else if |s| >= 2 && 0xC2 <= s[0] <= 0xDF && IsContinuation(s[1]) then
      Some(Spelled(0, 0, s[0] as int - 0xC0, s[1] as int - 0x80))
    else if |s| >= 3 && 0xE0 <= s[0] <= 0xEF && IsContinuation(s[1]) && IsContinuation(s[2]) then
      var c := Spelled(0, s[0] as int - 0xE0, s[1] as int - 0x80, s[2] as int - 0x80);
      if c >= 0x800 && !(0xD800 <= c < 0xE000) then Some(c) else None
    else if |s| >= 4 && 0xF0 <= s[0] <= 0xF4 && IsContinuation(s[1]) && IsContinuation(s[2]) && IsContinuation(s[3]) then
      var c := Spelled(s[0] as int - 0xF0, s[1] as int - 0x80, s[2] as int - 0x80, s[3] as int - 0x80);
      if 0x1_0000 <= c < 0x11_0000 then Some(c) else None
    else None
  }

  /** The table of section 3 of the RFC: how many bytes, in which ranges, and which number
      they spell. */
  ghost predicate SpellsOut(s: seq<Byte>, c: Scalar) {
    && (forall i :: 0 < i < |s| ==> 0x80 <= s[i] <= 0xBF)
    && match |s| {
         case 1 => c <= 0x7F && s[0] == c
         case 2 => 0x80 <= c <= 0x7FF && 0xC0 <= s[0] <= 0xDF
           && c == (s[0] as int - 0xC0) * 0x40 + (s[1] as int - 0x80)
         case 3 => 0x800 <= c <= 0xFFFF && 0xE0 <= s[0] <= 0xEF
           && c == (s[0] as int - 0xE0) * 0x1000 + (s[1] as int - 0x80) * 0x40 + (s[2] as int - 0x80)
         case 4 => 0x1_0000 <= c <= 0x10_FFFF && 0xF0 <= s[0] <= 0xF7
           && c == (s[0] as int - 0xF0) * 0x4_0000 + (s[1] as int - 0x80) * 0x1000 + (s[2] as int - 0x80) * 0x40 + (s[3] as int - 0x80)
         case _ => false
       }
  }

  lemma EncodeCharSpells(c: Scalar)
    ensures SpellsOut(EncodeChar(c), c)
  {
    assert c == 64 * (c / 64) + c % 64;
    assert c / 64 == 64 * (c / 64 / 64) + c / 64 % 64;
    assert c / 64 / 64 == 64 * (c / 64 / 64 / 64) + c / 64 / 64 % 64;
  }

  lemma DecodeFirstFits(s: seq<Byte>)
    requires DecodeFirst(s).Some?
    ensures Width(DecodeFirst(s).value) <= |s|
  {
  }

  /** Strict decoding of a whole byte string. */
  function Decode(s: seq<Byte>): Option<seq<Scalar>>
    decreases |s|
  {
    if s == [] then Some([])
    else
      match DecodeFirst(s)
      case None => None
      case Some(c) =>
        DecodeFirstFits(s);
        match Decode(s[Width(c)..])
        case None => None
        case Some(t) => Some([c] + t)
  }

  lemma DecodeEncodedChar(c: Scalar, rest: seq<Byte>)
    ensures DecodeFirst(EncodeChar(c) + rest) == Some(c)
  {
    var s := EncodeChar(c) + rest;
    assert forall k :: 0 <= k < Width(c) ==> s[k] == EncodeChar(c)[k];
  }

  /** Strict decoding accepts the encoding of a character only. */
  lemma EncodeDecodedChar(s: seq<Byte>)
    requires DecodeFirst(s).Some?
    ensures Width(DecodeFirst(s).value) <= |s|
    ensures s[..Width(DecodeFirst(s).value)] == EncodeChar(DecodeFirst(s).value)
  {
    var c := DecodeFirst(s).value;
    if s[0] >= 0xF0 {
      Digits(s[0] - 0xF0, s[1] as int - 0x80, s[2] as int - 0x80, s[3] as int - 0x80);
      assert s[..4] == EncodeChar(c);
    } else if s[0] >= 0xE0 {
      Digits(0, s[0] as int - 0xE0, s[1] as int - 0x80, s[2] as int - 0x80);
      assert s[..3] == EncodeChar(c);
    } else if s[0] >= 0x80 {
      Digits(0, 0, s[0] as int - 0xC0, s[1] as int - 0x80);
      assert s[..2] == EncodeChar(c);
    }
  }

  lemma Digits(lead: nat, d2: nat, d1: nat, d0: nat)
    requires d2 < 64 && d1 < 64 && d0 < 64
    ensures var c := Spelled(lead, d2, d1, d0);
            && c % 64 == d0 && c / 64 % 64 == d1 && c / 64 / 64 % 64 == d2 && c / 64 / 64 / 64 == lead
  {
    var c := Spelled(lead, d2, d1, d0);
    assert c / 64 == (lead * 64 + d2) * 64 + d1;
    assert c / 64 / 64 == lead * 64 + d2;
  }

  /** Round trip, text first. */
  lemma {:induction false} DecodeEncode(text: seq<Scalar>)
    ensures Decode(Encode(text)) == Some(text)
    decreases |text|
  {
    if text != [] {
      var rest := Encode(text[1..]);
      DecodeEncodedChar(text[0], rest);
      DecodeEncode(text[1..]);
      var s := Encode(text);
      assert s == EncodeChar(text[0]) + rest;
      assert s[Width(text[0])..] == rest;
      assert [text[0]] + text[1..] == text;
    }
  }

  /** Round trip, bytes first: the strict decoder accepts nothing but encodings. */
  lemma {:induction false} EncodeDecode(s: seq<Byte>)
    requires Decode(s).Some?
    ensures Encode(Decode(s).value) == s
    decreases |s|
  {
    if s != [] {
      var c := DecodeFirst(s).value;
      EncodeDecodedChar(s);
      EncodeDecode(s[Width(c)..]);
      assert s == s[..Width(c)] + s[Width(c)..];
      assert ([c] + Decode(s[Width(c)..]).value)[1..] == Decode(s[Width(c)..]).value;
    }
  }

  /** A character cut short does not decode, whatever whole characters precede it. */
  lemma {:induction false} CutCharRefused(text: seq<Scalar>, c: Scalar, n: nat)
    requires 0 < n < Width(c)
    ensures Decode(Encode(text) + EncodeChar(c)[..n]) == None
    decreases |text|
  {
    var s := Encode(text) + EncodeChar(c)[..n];
    if text != [] {
      var rest := Encode(text[1..]) + EncodeChar(c)[..n];
      assert s == EncodeChar(text[0]) + rest;
      DecodeEncodedChar(text[0], rest);
      CutCharRefused(text[1..], c, n);
      assert s[Width(text[0])..] == rest;
    } else {
      assert s == EncodeChar(c)[..n];
      assert s[0] == EncodeChar(c)[0];
    }
  }

  lemma {:induction false} EncodeConcat(a: seq<Scalar>, b: seq<Scalar>)
    ensures Encode(a + b) == Encode(a) + Encode(b)
    decreases |a|
  {
    if a == [] {
      assert a + b == b;
    } else {
      assert (a + b)[1..] == a[1..] + b;
      EncodeConcat(a[1..], b);
    }
  }

  // --------------------------------------------------- where characters are

  /** The byte offset of the i-th character. */
  function OffsetOf(text: seq<Scalar>, i: nat): nat
    requires i <= |text|
  {
    |Encode(text[..i])|
  }

  /** The first character that starts at or after the byte offset. */
  function CharFrom(text: seq<Scalar>, offset: int): (i: nat)
    ensures i <= |text|
  {
    if text == [] || offset <= 0 then 0 else 1 + CharFrom(text[1..], offset - Width(text[0]))
  }

  /** How many whole characters fit into `limit` bytes. */
  function Fit(text: seq<Scalar>, limit: int): (n: nat)
    ensures n <= |text|
  {
    if text == [] || Width(text[0]) > limit then 0 else 1 + Fit(text[1..], limit - Width(text[0]))
  }

  /** How many characters one read delivers: those that fit, and at least one. */
  function Delivered(text: seq<Scalar>, limit: int): (n: nat)
    ensures n <= |text|
  {
    if text == [] then 0 else if Fit(text, limit) == 0 then 1 else Fit(text, limit)
  }

  lemma {:induction false} OffsetSplit(text: seq<Scalar>, i: nat)
    requires i <= |text|
    ensures Encode(text) == Encode(text[..i]) + Encode(text[i..])
    ensures Encode(text)[OffsetOf(text, i)..] == Encode(text[i..])
  {
    assert text == text[..i] + text[i..];
    EncodeConcat(text[..i], text[i..]);
  }

  lemma {:induction false} OffsetTail(text: seq<Scalar>, i: nat)
    requires 0 < i <= |text|
    ensures OffsetOf(text, i) == Width(text[0]) + OffsetOf(text[1..], i - 1)
  {
    assert text[..i] == [text[0]] + text[1..][..i - 1];
    EncodeConcat([text[0]], text[1..][..i - 1]);
  }

  /** `Fit` is the largest number of characters within the limit. */
  lemma {:induction false} FitIsLargest(text: seq<Scalar>, limit: nat)
    ensures OffsetOf(text, Fit(text, limit)) <= limit
    ensures Fit(text, limit) < |text| ==> OffsetOf(text, Fit(text, limit) + 1) > limit
    ensures Fit(text, limit) < |text| ==>
              OffsetOf(text, Fit(text, limit) + 1) == OffsetOf(text, Fit(text, limit)) + Width(text[Fit(text, limit)])
    decreases |text|
  {
    if text != [] && Width(text[0]) <= limit {
      var n := Fit(text, limit);
      FitIsLargest(text[1..], limit - Width(text[0]));
      OffsetTail(text, n);
      if n < |text| {
        OffsetTail(text, n + 1);
      }
    } else if text != [] {
      OffsetTail(text, 1);
    }
  }

  /** From an offset to the next boundary there are at most three bytes, all of them
      continuation bytes; at a boundary there is none. */
  lemma {:induction false} Boundaries(text: seq<Scalar>, offset: nat)
    requires offset <= |Encode(text)|
    ensures var b := OffsetOf(text, CharFrom(text, offset));
            && offset <= b <= |Encode(text)| && b <= offset + 3
            && (forall k :: offset <= k < b ==> 0x80 <= Encode(text)[k] <= 0xBF)
            && (b < |Encode(text)| ==> !(0x80 <= Encode(text)[b] <= 0xBF))
    decreases |text|
  {
    if text != [] {
      var w := Width(text[0]);
      CharBytes(text[0]);
      EncodeCons(text);
      if offset >= w {
        Boundaries(text[1..], offset - w);
        OffsetTail(text, CharFrom(text, offset));
      } else if offset > 0 {
        OffsetTail(text, 1);
        Boundaries(text[1..], 0);
        assert CharFrom(text, offset) == 1;
      }
    }
  }

  lemma CharBytes(c: Scalar)
    ensures !IsContinuation(EncodeChar(c)[0])
    ensures forall k :: 0 < k < Width(c) ==> IsContinuation(EncodeChar(c)[k])
  {
  }

  /** Cutting encoded text anywhere leaves the characters that fit and the head of one. */
  lemma CutText(text: seq<Scalar>, limit: nat)
    requires limit < |Encode(text)|
    ensures var n := Fit(text, limit);
            && n < |text|
            && limit - OffsetOf(text, n) < Width(text[n])
            && OffsetOf(text, n) <= limit
            && Encode(text)[..limit] == Encode(text[..n]) + EncodeChar(text[n])[..limit - OffsetOf(text, n)]
  {
    var n := Fit(text, limit);
    FitIsLargest(text, limit);
    assert text[..|text|] == text;
    if n < |text| {
      SplitAt(text, n);
      CutConcat(Encode(text[..n]), EncodeChar(text[n]), Encode(text[n + 1..]), limit);
    }
  }

  lemma SplitAt(text: seq<Scalar>, n: nat)
    requires n < |text|
    ensures Encode(text) == Encode(text[..n]) + (EncodeChar(text[n]) + Encode(text[n + 1..]))
  {
    OffsetSplit(text, n);
    EncodeCons(text[n..]);
    assert text[n..][0] == text[n] && text[n..][1..] == text[n + 1..];
  }

  lemma EncodeCons(text: seq<Scalar>)
    requires text != []
    ensures Encode(text) == EncodeChar(text[0]) + Encode(text[1..])
    ensures |Encode(text)| == Width(text[0]) + |Encode(text[1..])|
  {
  }

  lemma CutConcat(a: seq<Byte>, b: seq<Byte>, c: seq<Byte>, n: nat)
    requires |a| <= n < |a| + |b|
    ensures (a + (b + c))[..n] == a + b[..n - |a|]
  {
  }

  // ------------------------------------------------------------ the reader

  /** One bounded read. `text` is None when the strict decoder refuses the bytes, so that
      the source puts replacement characters in. */
  datatype Chunk = Chunk(raw: seq<Byte>, text: Option<seq<Scalar>>, next: Option<nat>, eof: bool, size: nat)

  /** The lengths the trimming loop tries: from the whole chunk down to three bytes less. */
  predicate Tried(chunk: seq<Byte>, length: int) {
    0 <= length && |chunk| - 3 <= length <= |chunk|
  }

  method ValidPrefixLen(chunk: seq<Byte>) returns (keep: nat)
    ensures keep <= |chunk|
    ensures forall m :: Tried(chunk, m) && m > keep ==> Decode(chunk[..m]).None?
    ensures (exists m :: Tried(chunk, m) && Decode(chunk[..m]).Some?) ==> Tried(chunk, keep) && Decode(chunk[..keep]).Some?
    ensures (forall m :: Tried(chunk, m) ==> Decode(chunk[..m]).None?) ==> keep == |chunk|
  {
    var length := |chunk|;
    var stop := if |chunk| - MAX_UTF8_TAIL - 1 > -1 then |chunk| - MAX_UTF8_TAIL - 1 else -1;
    while length > stop
      invariant stop <= length <= |chunk|
      invariant forall m :: Tried(chunk, m) && m > length ==> Decode(chunk[..m]).None?
    {
      if Decode(chunk[..length]).Some? {
        return length;
      }
      length := length - 1;
    }
    return |chunk|;
  }

  method FirstCharLen(chunk: seq<Byte>) returns (keep: nat)
    ensures keep <= |chunk| && (chunk != [] ==> keep >= 1)
    ensures forall m :: 1 <= m <= |chunk| && m <= 4 && Decode(chunk[..m]).Some? ==> keep <= m && Decode(chunk[..keep]).Some?
  {
    var length := 1;
    var stop := if |chunk| < 4 then |chunk| else 4;
    while length <= stop
      invariant 1 <= length <= stop + 1
      invariant forall m :: 1 <= m < length ==> Decode(chunk[..m]).None?
    {
      if Decode(chunk[..length]).Some? {
        return length;
      }
      length := length + 1;
    }
    return |chunk|;
  }

  /** Moves an offset off continuation bytes, at most four bytes on. */
  method AlignStart(data: seq<Byte>, offset: nat) returns (start: nat)
    requires offset < |data|
    ensures offset <= start <= |data| && start <= offset + 4
    ensures forall k :: offset <= k < start ==> 0x80 <= data[k] <= 0xBF
    ensures start == |data| || data[start] < 0x80 || data[start] > 0xBF || start == offset + 4
  {
    var pos := offset;
    while pos < |data| && pos - offset <= MAX_UTF8_TAIL
      invariant offset <= pos <= |data| && pos <= offset + MAX_UTF8_TAIL + 1
      invariant forall k :: offset <= k < pos ==> IsContinuation(data[k])
    {
      if !IsContinuation(data[pos]) {
        return pos;
      }
      pos := pos + 1;
    }
    return pos;
  }

  function AtLeast(low: int, x: int): int {
    if x < low then low else x
  }

  /** What a read of the stored encoding of `text` at any offset and limit must return:
      the characters from the next boundary on, as many as fit and at least one. */
  predicate Reads(text: seq<Scalar>, offset: int, limit: int, c: Chunk) {
    var from := CharFrom(text, offset);
    var to := from + Delivered(text[from..], AtLeast(1, limit));
    && c.raw == Encode(text[from..to])
    && c.text == Some(text[from..to])
    && c.eof == (to == |text|)
    && c.next == (if c.eof then None else Some(OffsetOf(text, to)))
    && c.size == |Encode(text)|
  }

  /** The same of the stored bytes alone: the chunk is the text between two characters, the
      first of them the first to start at or after the offset, and the chunk as long as
      its bytes stay within the limit, except that it has one character at least. */
  ghost predicate RightChunk(text: seq<Scalar>, offset: int, limit: int, c: Chunk) {
    && c.size == |Encode(text)|
    && exists from: nat, to: nat :: Spans(text, offset, limit, from, to)
         && c.raw == Encode(text[from..to]) && c.text == Some(text[from..to])
         && (c.eof <==> to == |text|)
         && (to < |text| ==> c.next == Some(|Encode(text[..to])|)) && (to == |text| ==> c.next == None)
  }

  ghost predicate Spans(text: seq<Scalar>, offset: int, limit: int, from: nat, to: nat) {
    && from <= to <= |text|
    && (from < |text| ==> offset <= |Encode(text[..from])| && from < to)
    && (from > 0 ==> |Encode(text[..from - 1])| < offset)
    && (|Encode(text[from..to])| <= limit || to <= from + 1)
    && (to < |text| ==> |Encode(text[from..to + 1])| > limit)
  }

  lemma ReadsIsRight(text: seq<Scalar>, offset: int, limit: int, c: Chunk)
    requires Reads(text, offset, limit, c)
    ensures RightChunk(text, offset, limit, c)
  {
    SpansAreRead(text, offset, limit);
  }

  lemma SpansAreRead(text: seq<Scalar>, offset: int, limit: int)
    ensures var from := CharFrom(text, offset);
            Spans(text, offset, limit, from, from + Delivered(text[from..], AtLeast(1, limit)))
  {
    var from := CharFrom(text, offset);
    CharFromIsFirst(text, offset);
    DeliveredIsMost(text[from..], limit);
    SpansFrom(text, offset, limit, from, Delivered(text[from..], AtLeast(1, limit)));
  }

  lemma SpansFrom(text: seq<Scalar>, offset: int, limit: int, from: nat, n: nat)
    requires from + n <= |text|
    requires from < |text| ==> offset <= OffsetOf(text, from) && n > 0
    requires from > 0 ==> OffsetOf(text, from - 1) < offset
    requires |Encode(text[from..][..n])| <= limit || n <= 1
    requires n < |text[from..]| ==> |Encode(text[from..][..n + 1])| > limit
    ensures Spans(text, offset, limit, from, from + n)
  {
    assert text[from..][..n] == text[from..from + n];
    if n < |text[from..]| {
      assert text[from..][..n + 1] == text[from..from + n + 1];
    }
  }

  lemma {:induction false} CharFromIsFirst(text: seq<Scalar>, offset: int)
    ensures var i := CharFrom(text, offset);
            && (i < |text| ==> offset <= OffsetOf(text, i))
            && (i > 0 ==> OffsetOf(text, i - 1) < offset)
    decreases |text|
  {
    if text != [] && offset > 0 {
      CharFromIsFirst(text[1..], offset - Width(text[0]));
      var i := CharFrom(text, offset);
      OffsetTail(text, i);
      if i > 1 {
        OffsetTail(text, i - 1);
      }
    }
  }

  lemma DeliveredIsMost(text: seq<Scalar>, limit: int)
    ensures var n := Delivered(text, AtLeast(1, limit));
            && (text != [] ==> n > 0)
            && (|Encode(text[..n])| <= limit || n <= 1)
            && (n < |text| ==> |Encode(text[..n + 1])| > limit)
  {
    FitIsLargest(text, AtLeast(1, limit));
    if text != [] {
      OffsetTail(text, 1);
      if |text| > 1 {
        OffsetTail(text, 2);
      }
    }
  }

  /** What every read keeps, whatever the bytes are: a chunk is a contiguous piece that
      starts at most four bytes after the offset, and paging moves on. */
  ghost predicate Progresses(data: seq<Byte>, offset: int, limit: int, c: Chunk) {
    && c.size == |data|
    && (c.eof <==> c.next == None)
    && (AtLeast(0, offset) >= |data| ==> c.eof && c.raw == [])
    && (AtLeast(0, offset) < |data| ==>
          exists start: nat, end: nat ::
            && AtLeast(0, offset) <= start <= end <= |data| && start <= AtLeast(0, offset) + 4
            && c.raw == data[start..end]
            && |c.raw| <= AtLeast(1, limit) + 3
            && (c.eof <==> end == |data|)
            && (!c.eof ==> c.next == Some(end) && end > AtLeast(0, offset) && c.raw != []))
  }

  predicate Stores(data: seq<Byte>, text: seq<Scalar>) {
    data == Encode(text)
  }

  class ArtifactStore {
    var files: map<string, seq<Byte>>

    constructor ()
      ensures files == map[]
    {
      files := map[];
    }

    method Write(path: string, content: seq<Scalar>) returns (size: nat)
      modifies this
      ensures files == old(files)[path := Encode(content)] && size == |Encode(content)|
    {
      var data := Encode(content);
      files := files[path := data];
      size := |data|;
    }

    method ReadChunk(path: string, offset: int, limit: int) returns (c: Chunk)
      ensures path !in files ==> c == Chunk([], Some([]), None, true, 0)
      ensures path in files ==> Progresses(files[path], offset, limit, c) && c.text == Decode(c.raw)
      ensures forall text :: path in files && Stores(files[path], text) ==> Reads(text, offset, limit, c)
      ensures forall text :: path in files && Stores(files[path], text) ==> RightChunk(text, offset, limit, c)
    {
      if path !in files {
        return Chunk([], Some([]), None, true, 0);
      }
      c := ReadBytes(files[path], offset, limit);
      forall text | Stores(files[path], text)
        ensures RightChunk(text, offset, limit, c)
      {
        ReadsIsRight(text, offset, limit, c);
      }
    }
  }

  method ReadBytes(data: seq<Byte>, offset0: int, limit0: int) returns (c: Chunk)
    ensures Progresses(data, offset0, limit0, c) && c.text == Decode(c.raw)
    ensures forall text :: Stores(data, text) ==> Reads(text, offset0, limit0, c)
  {
    var size := |data|;
    var offset := AtLeast(0, offset0);
    var limit := AtLeast(1, limit0);
    if offset >= size {
      forall text | Stores(data, text)
        ensures Reads(text, offset0, limit0, Chunk([], Some([]), None, true, size))
      {
        PastTheEnd(text, offset0, limit0);
      }
      return Chunk([], Some([]), None, true, size);
    }
    var start := AlignStart(data, offset);
    var raw := data[start..if start + limit <= size then start + limit else size];
    var atEof := start + |raw| >= size;
    if !atEof {
      raw := TrimChunk(data, offset0, limit, start, raw);
    }
    forall text | Stores(data, text)
      ensures Reads(text, offset0, limit0, ChunkAt(data, start, raw))
    {
      AlignedStart(text, offset0, start);
      if atEof {
        LastRead(text, offset0, limit, start, raw);
      }
      DeliveredRead(text, offset0, limit0, raw);
    }
    c := ChunkAt(data, start, raw);
    ChunkProgresses(data, offset0, limit0, start, raw);
  }

  function ChunkAt(data: seq<Byte>, start: nat, raw: seq<Byte>): Chunk {
    var next := start + |raw|;
    var eof := next >= |data|;
    Chunk(raw, Decode(raw), if eof then None else Some(next), eof, |data|)
  }

  lemma ChunkProgresses(data: seq<Byte>, offset: int, limit: int, start: nat, raw: seq<Byte>)
    requires AtLeast(0, offset) < |data|
    requires AtLeast(0, offset) <= start && start + |raw| <= |data| && start <= AtLeast(0, offset) + MAX_UTF8_TAIL + 1
    requires raw == data[start..start + |raw|] && |raw| <= AtLeast(1, limit) + MAX_UTF8_TAIL
    requires raw != [] || start == |data|
    ensures Progresses(data, offset, limit, ChunkAt(data, start, raw))
  {
    var end: nat := start + |raw|;
    assert raw == data[start..end];
  }

  /** Trims a chunk that ends inside the data to whole characters, reading on when it is
      the head of a single one. */
  method TrimChunk(data: seq<Byte>, ghost offset: int, limit: nat, start: nat, cut: seq<Byte>) returns (raw: seq<Byte>)
    requires limit >= 1 && start + limit < |data| && cut == data[start..start + limit]
    ensures 1 <= |raw| <= limit + MAX_UTF8_TAIL && start + |raw| <= |data| && raw == data[start..start + |raw|]
    ensures forall text :: Stores(data, text) && start == OffsetOf(text, CharFrom(text, offset)) ==>
              raw == Encode(Due(text, offset, limit))
  {
    var keep := ValidPrefixLen(cut);
    ghost var kept := keep;
    raw := cut;
    if keep == 0 {
      var more := start + |cut| + MAX_UTF8_TAIL;
      raw := cut + data[start + |cut|..if more <= |data| then more else |data|];
      JoinSlices(data, start, start + |cut|, start + |raw|);
      keep := FirstCharLen(raw);
    }
    assert raw == data[start..start + |raw|];
    CutReads(data, offset, limit, start, cut, kept, raw, keep);
    JoinSlices(data, start, start + keep, start + |raw|);
    raw := raw[..keep];
  }

  lemma JoinSlices(data: seq<Byte>, a: nat, b: nat, c: nat)
    requires a <= b <= c <= |data|
    ensures data[a..b] + data[b..c] == data[a..c]
    ensures data[a..c][..b - a] == data[a..b]
  {
  }

  /** The characters a read has to deliver. */
  function Due(text: seq<Scalar>, offset: int, limit: int): seq<Scalar> {
    text[CharFrom(text, offset)..][..Delivered(text[CharFrom(text, offset)..], limit)]
  }

  lemma LastRead(text: seq<Scalar>, offset: int, limit: int, start: nat, raw: seq<Byte>)
    requires start == OffsetOf(text, CharFrom(text, offset)) <= |Encode(text)|
    requires raw == Encode(text)[start..] && |raw| <= limit
    ensures raw == Encode(Due(text, offset, limit))
  {
    var from := CharFrom(text, offset);
    OffsetSplit(text, from);
    FitAll(text[from..], limit);
    assert Due(text, offset, limit) == text[from..];
  }

  lemma CutReads(data: seq<Byte>, offset: int, limit: int, start: nat, cut: seq<Byte>, kept: nat, raw: seq<Byte>, keep: nat)
    requires limit >= 1 && start + limit < |data| && cut == data[start..start + limit] && kept <= |cut|
    requires forall m :: Tried(cut, m) && m > kept ==> Decode(cut[..m]).None?
    requires (exists m :: Tried(cut, m) && Decode(cut[..m]).Some?) ==> Tried(cut, kept) && Decode(cut[..kept]).Some?
    requires kept > 0 ==> raw == cut && keep == kept
    requires kept == 0 ==>
               && raw == data[start..if start + limit + MAX_UTF8_TAIL <= |data| then start + limit + MAX_UTF8_TAIL else |data|]
               && 1 <= keep <= |raw|
               && forall m :: 1 <= m <= |raw| && m <= 4 && Decode(raw[..m]).Some? ==> keep <= m && Decode(raw[..keep]).Some?
    ensures forall text :: Stores(data, text) && start == OffsetOf(text, CharFrom(text, offset)) ==>
              keep <= |raw| && raw[..keep] == Encode(Due(text, offset, limit))
  {
    forall text | Stores(data, text) && start == OffsetOf(text, CharFrom(text, offset))
      ensures keep <= |raw| && raw[..keep] == Encode(Due(text, offset, limit))
    {
      CutRead(text, offset, limit, start, cut, kept, raw, keep);
    }
  }

  lemma CutRead(text: seq<Scalar>, offset: int, limit: int, start: nat, cut: seq<Byte>, kept: nat, raw: seq<Byte>, keep: nat)
    requires limit >= 1 && start == OffsetOf(text, CharFrom(text, offset)) && start + limit < |Encode(text)|
    requires cut == Encode(text)[start..start + limit] && kept <= |cut|
    requires forall m :: Tried(cut, m) && m > kept ==> Decode(cut[..m]).None?
    requires (exists m :: Tried(cut, m) && Decode(cut[..m]).Some?) ==> Tried(cut, kept) && Decode(cut[..kept]).Some?
    requires kept > 0 ==> raw == cut && keep == kept
    requires kept == 0 ==>
               && raw == Encode(text)[start..if start + limit + MAX_UTF8_TAIL <= |Encode(text)| then start + limit + MAX_UTF8_TAIL else |Encode(text)|]
               && 1 <= keep <= |raw|
               && forall m :: 1 <= m <= |raw| && m <= 4 && Decode(raw[..m]).Some? ==> keep <= m && Decode(raw[..keep]).Some?
    ensures keep <= |raw| && raw[..keep] == Encode(Due(text, offset, limit))
  {
    var from := CharFrom(text, offset);
    var rest := text[from..];
    OffsetSplit(text, from);
    assert cut == Encode(rest)[..limit];
    KeptPrefix(rest, limit, cut, kept);
    if kept == 0 {
      NothingFits(rest, limit);
      assert raw <= Encode(rest);
      EncodeCons(rest);
      KeptFirst(rest, raw, keep);
    }
  }

  lemma NothingFits(rest: seq<Scalar>, limit: nat)
    requires 1 <= limit < |Encode(rest)| && OffsetOf(rest, Fit(rest, limit)) == 0
    ensures rest != [] && Fit(rest, limit) == 0
  {
    if Fit(rest, limit) > 0 {
      EncodeCons(rest[..Fit(rest, limit)]);
    }
  }

  lemma PastTheEnd(text: seq<Scalar>, offset: int, limit: int)
    requires AtLeast(0, offset) >= |Encode(text)|
    ensures CharFrom(text, offset) == |text|
    ensures Reads(text, offset, limit, Chunk([], Some([]), None, true, |Encode(text)|))
    decreases |text|
  {
    if text != [] {
      EncodeCons(text);
      PastTheEnd(text[1..], offset - Width(text[0]), limit);
    }
  }

  lemma {:induction false} FitAll(text: seq<Scalar>, limit: int)
    requires |Encode(text)| <= limit
    ensures Fit(text, limit) == |text|
    decreases |text|
  {
    if text != [] {
      EncodeCons(text);
      FitAll(text[1..], limit - Width(text[0]));
    }
  }

  /** Where the aligning loop stops on encoded text. */
  lemma AlignedStart(text: seq<Scalar>, offset0: int, start: nat)
    requires var data, offset := Encode(text), AtLeast(0, offset0);
             && offset <= start <= |data| && start <= offset + MAX_UTF8_TAIL + 1
             && (forall k :: offset <= k < start ==> IsContinuation(data[k]))
             && (start == |data| || !IsContinuation(data[start]) || start == offset + MAX_UTF8_TAIL + 1)
    ensures start == OffsetOf(text, CharFrom(text, offset0))
  {
    var offset := AtLeast(0, offset0);
    assert CharFrom(text, offset0) == CharFrom(text, offset);
    Boundaries(text, offset);
  }

  lemma LongerRefused(text: seq<Scalar>, c: Scalar, raw: seq<Byte>, m: nat)
    requires |Encode(text)| < m <= |raw| && m < |Encode(text)| + Width(c)
    requires raw[..m] == Encode(text) + EncodeChar(c)[..m - |Encode(text)|]
    ensures Decode(raw[..m]).None?
  {
    CutCharRefused(text, c, m - |Encode(text)|);
  }

  /** What the trimming loop keeps of encoded text cut anywhere. */
  lemma KeptPrefix(rest: seq<Scalar>, limit: nat, raw: seq<Byte>, keep: nat)
    requires limit < |Encode(rest)| && raw == Encode(rest)[..limit] && keep <= |raw|
    requires forall m :: Tried(raw, m) && m > keep ==> Decode(raw[..m]).None?
    requires (exists m :: Tried(raw, m) && Decode(raw[..m]).Some?) ==> Tried(raw, keep) && Decode(raw[..keep]).Some?
    ensures keep == OffsetOf(rest, Fit(rest, limit))
    ensures raw[..keep] == Encode(rest[..Fit(rest, limit)])
  {
    var n := Fit(rest, limit);
    var off := OffsetOf(rest, n);
    CutText(rest, limit);
    assert raw[..off] == Encode(rest[..n]);
    DecodeEncode(rest[..n]);
    assert Tried(raw, off);
    if keep > off {
      LongerRefused(rest[..n], rest[n], raw, keep);
    }
  }

  /** What the over-reading branch keeps: the first character, whole and alone. */
  lemma KeptFirst(rest: seq<Scalar>, raw: seq<Byte>, keep: nat)
    requires rest != [] && raw <= Encode(rest) && Width(rest[0]) <= |raw| && 1 <= keep <= |raw|
    requires forall m :: 1 <= m <= |raw| && m <= 4 && Decode(raw[..m]).Some? ==> keep <= m && Decode(raw[..keep]).Some?
    ensures raw[..keep] == Encode(rest[..1])
  {
    var w := Width(rest[0]);
    EncodeCons(rest);
    assert raw[..w] == EncodeChar(rest[0]);
    DecodeEncodedChar(rest[0], []);
    assert EncodeChar(rest[0]) + [] == EncodeChar(rest[0]);
    assert Encode(rest[..1]) == EncodeChar(rest[0]);
    DecodeEncode(rest[..1]);
    var c := rest[0];
    if keep < w {
      LongerRefused([], c, raw, keep);
    }
  }

  /** A read that ends after the `n` characters it must deliver is the required one. */
  lemma DeliveredRead(text: seq<Scalar>, offset: int, limit: int, raw: seq<Byte>)
    requires raw == Encode(Due(text, offset, AtLeast(1, limit)))
    ensures Reads(text, offset, limit, ChunkAt(Encode(text), OffsetOf(text, CharFrom(text, offset)), raw))
  {
    var from := CharFrom(text, offset);
    var to := from + Delivered(text[from..], AtLeast(1, limit));
    assert Due(text, offset, AtLeast(1, limit)) == text[from..to];
    DecodeEncode(text[from..to]);
    NextOffset(text, from, to);
    ReadsAt(text, offset, limit, raw, from, to);
  }

  lemma ReadsAt(text: seq<Scalar>, offset: int, limit: int, raw: seq<Byte>, from: nat, to: nat)
    requires from == CharFrom(text, offset) && to == from + Delivered(text[from..], AtLeast(1, limit)) <= |text|
    requires raw == Encode(text[from..to]) && Decode(raw) == Some(text[from..to])
    requires OffsetOf(text, to) == OffsetOf(text, from) + |raw|
    requires OffsetOf(text, to) >= |Encode(text)| <==> to == |text|
    ensures Reads(text, offset, limit, ChunkAt(Encode(text), OffsetOf(text, from), raw))
  {
  }

  lemma NextOffset(text: seq<Scalar>, from: nat, to: nat)
    requires from <= to <= |text|
    ensures OffsetOf(text, to) == OffsetOf(text, from) + |Encode(text[from..to])|
    ensures OffsetOf(text, to) >= |Encode(text)| <==> to == |text|
  {
    assert text[..to] == text[..from] + text[from..to];
    EncodeConcat(text[..from], text[from..to]);
    OffsetSplit(text, to);
    if to < |text| {
      EncodeCons(text[to..]);
    }
  }

  // ------------------------------------------------------- paging to the end

  /** A chunk overruns its limit exactly when its first character alone does, and is then
      that one character; otherwise one more character would not have fitted. */
  lemma ChunkWidth(text: seq<Scalar>, offset: int, limit: int, c: Chunk)
    requires Reads(text, offset, limit, c)
    ensures var from, bound := CharFrom(text, offset), AtLeast(1, limit);
            && (|c.raw| > bound <==> from < |text| && Width(text[from]) > bound)
            && (|c.raw| > bound ==> c.raw == EncodeChar(text[from]) && c.text == Some([text[from]]))
            && (!c.eof && |c.raw| <= bound ==>
                  |c.raw| + Width(text[from + |c.text.value|]) > bound)
  {
    var from, bound := CharFrom(text, offset), AtLeast(1, limit);
    assert text[from..from + Delivered(text[from..], bound)] == text[from..][..Delivered(text[from..], bound)];
    DeliveredWidth(text[from..], bound);
  }

  lemma DeliveredWidth(rest: seq<Scalar>, bound: nat)
    requires bound >= 1
    ensures var n := Delivered(rest, bound);
            && (|Encode(rest[..n])| > bound <==> rest != [] && Width(rest[0]) > bound)
            && (|Encode(rest[..n])| > bound ==> rest[..n] == [rest[0]] && Encode(rest[..n]) == EncodeChar(rest[0]))
            && (n < |rest| && |Encode(rest[..n])| <= bound ==> |Encode(rest[..n])| + Width(rest[n]) > bound)
  {
    FitIsLargest(rest, bound);
    if rest != [] && Width(rest[0]) > bound {
      assert rest[..1] == [rest[0]];
      EncodeCons([rest[0]]);
    }
  }

  lemma {:induction false} BoundaryIsExact(text: seq<Scalar>, i: nat)
    requires i <= |text|
    ensures CharFrom(text, OffsetOf(text, i)) == i
  {
    if i > 0 {
      OffsetTail(text, i);
      BoundaryIsExact(text[1..], i - 1);
    }
  }

  /** Reads that follow one another, each from where the last one said to go on, each
      with a limit of its own. */
  ghost predicate IsPaging(text: seq<Scalar>, limits: seq<int>, offsets: seq<nat>, chunks: seq<Chunk>) {
    && 0 < |chunks| == |limits| == |offsets|
    && offsets[0] == 0
    && (forall k :: 0 <= k < |chunks| ==> Reads(text, offsets[k], limits[k], chunks[k]))
    && forall k :: 0 < k < |chunks| ==> chunks[k - 1].next == Some(offsets[k])
  }

  function JoinedText(chunks: seq<Chunk>): seq<Scalar> {
    if chunks == [] then []
    else JoinedText(chunks[..|chunks| - 1]) + (if chunks[|chunks| - 1].text.Some? then chunks[|chunks| - 1].text.value else [])
  }

  function JoinedRaw(chunks: seq<Chunk>): seq<Byte> {
    if chunks == [] then [] else JoinedRaw(chunks[..|chunks| - 1]) + chunks[|chunks| - 1].raw
  }

  lemma {:induction false} PagedSoFar(text: seq<Scalar>, limits: seq<int>, offsets: seq<nat>, chunks: seq<Chunk>, n: nat)
    requires IsPaging(text, limits, offsets, chunks) && n < |chunks|
    ensures var i := CharFrom(text, offsets[n]);
            && offsets[n] == OffsetOf(text, i)
            && n <= i
            && JoinedText(chunks[..n]) == text[..i]
            && JoinedRaw(chunks[..n]) == Encode(text[..i])
    ensures n > 0 ==> offsets[n - 1] < offsets[n]
  {
    if n > 0 {
      PagedSoFar(text, limits, offsets, chunks, n - 1);
      assert chunks[..n][..n - 1] == chunks[..n - 1];
      assert chunks[n - 1].next == Some(offsets[n]);
      OnePage(text, offsets[n - 1], limits[n - 1], chunks[n - 1], offsets[n]);
    }
  }

  lemma OnePage(text: seq<Scalar>, offset: nat, limit: int, c: Chunk, next: nat)
    requires Reads(text, offset, limit, c) && c.next == Some(next) && offset == OffsetOf(text, CharFrom(text, offset))
    ensures var i, j := CharFrom(text, offset), CharFrom(text, next);
            && i < j <= |text| && next == OffsetOf(text, j) && offset < next
            && c.text == Some(text[i..j]) && text[..i] + text[i..j] == text[..j]
            && Encode(text[..i]) + c.raw == Encode(text[..j])
  {
    var i := CharFrom(text, offset);
    var j := i + Delivered(text[i..], AtLeast(1, limit));
    BoundaryIsExact(text, j);
    assert text[..i] + text[i..j] == text[..j];
    EncodeConcat(text[..i], text[i..j]);
    EncodeCons(text[i..j]);
  }

  /** Paging round trip: whatever the text and whatever the limits, the offsets strictly
      increase, there are no more reads than characters, what has been read is always a
      prefix of whole characters, and when a read says it is the last it is all of it. */
  lemma PagingRoundTrip(text: seq<Scalar>, limits: seq<int>, offsets: seq<nat>, chunks: seq<Chunk>)
    requires IsPaging(text, limits, offsets, chunks)
    ensures forall k :: 0 < k < |chunks| ==> offsets[k - 1] < offsets[k]
    ensures |chunks| <= |text| || |chunks| == 1
    ensures JoinedText(chunks) <= text
    ensures chunks[|chunks| - 1].eof ==> JoinedText(chunks) == text && JoinedRaw(chunks) == Encode(text)
    ensures !chunks[|chunks| - 1].eof ==> chunks[|chunks| - 1].next.Some?
  {
    forall k | 0 < k < |chunks|
      ensures offsets[k - 1] < offsets[k]
    {
      PagedSoFar(text, limits, offsets, chunks, k);
    }
    var n := |chunks| - 1;
    PagedSoFar(text, limits, offsets, chunks, n);
    LastPage(text, offsets[n], limits[n], chunks[n]);
    if n > 0 {
      NotPastLast(text, offsets[n - 1], limits[n - 1], chunks[n - 1], offsets[n]);
    }
  }

  lemma LastPage(text: seq<Scalar>, offset: nat, limit: int, c: Chunk)
    requires Reads(text, offset, limit, c)
    ensures var i := CharFrom(text, offset);
            && c.text.Some?
            && text[..i] + c.text.value <= text
            && (c.eof ==> text[..i] + c.text.value == text && Encode(text[..i]) + c.raw == Encode(text))
  {
    var i := CharFrom(text, offset);
    var j := i + Delivered(text[i..], AtLeast(1, limit));
    assert text[..i] + text[i..j] == text[..j];
    EncodeConcat(text[..i], text[i..j]);
    assert text[..|text|] == text;
  }

  lemma NotPastLast(text: seq<Scalar>, offset: nat, limit: int, c: Chunk, next: nat)
    requires Reads(text, offset, limit, c) && c.next == Some(next)
    ensures CharFrom(text, next) < |text|
  {
    var i := CharFrom(text, offset);
    BoundaryIsExact(text, i + Delivered(text[i..], AtLeast(1, limit)));
  }

  /** Paging ends on any bytes, corrupt ones included. */
  lemma {:induction false} AnyBytesEnd(data: seq<Byte>, limits: seq<int>, offsets: seq<nat>, chunks: seq<Chunk>, n: nat)
    requires |chunks| == |limits| == |offsets|
    requires forall k :: 0 <= k < |chunks| ==> Progresses(data, offsets[k], limits[k], chunks[k])
    requires forall k :: 0 < k < |chunks| ==> chunks[k - 1].next == Some(offsets[k])
    requires n < |chunks|
    ensures n <= offsets[n] && (n > 0 ==> offsets[n - 1] < offsets[n] <= |data|)
  {
    if n > 0 {
      AnyBytesEnd(data, limits, offsets, chunks, n - 1);
      assert Progresses(data, offsets[n - 1], limits[n - 1], chunks[n - 1]);
      assert chunks[n - 1].next == Some(offsets[n]);
    }
  }
}
