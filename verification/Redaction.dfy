/** Replacing the spans of overlapping findings by markers. */
module Redaction {

  datatype Finding = Finding(start: int, end: int, category: string, ruleId: string)

  /** A merged span and the finding that names it. */
  datatype Span = Span(start: int, end: int, first: Finding)

  predicate Inside(text: string, findings: seq<Finding>) {
    forall f :: f in findings ==> 0 <= f.start && f.end <= |text|
  }

  /** The sort key (start, -end). */
  predicate Precedes(f: Finding, g: Finding) {
    f.start < g.start || (f.start == g.start && f.end >= g.end)
  }

  ghost predicate Ordered(q: seq<Finding>) {
    forall i, j :: 0 <= i < j < |q| ==> Precedes(q[i], q[j])
  }

  predicate Covers(f: Finding, k: int) {
    f.start <= k < f.end
  }

  ghost predicate Covered(findings: seq<Finding>, k: int) {
    exists i :: 0 <= i < |findings| && Covers(findings[i], k)
  }

  ghost predicate InSpan(spans: seq<Span>, k: int) {
    exists i :: 0 <= i < |spans| && spans[i].start <= k < spans[i].end
  }

  /** Non-empty, left to right, none reaching into the next. */
  ghost predicate Disjoint(spans: seq<Span>) {
    && (forall i :: 0 <= i < |spans| ==> spans[i].start < spans[i].end)
    && forall i, j :: 0 <= i < j < |spans| ==> spans[i].end <= spans[j].start
  }

  /** A span is in one piece: between any two neighbouring characters of it some finding
      reaches across, so findings that only touch are not joined. */
  ghost predicate Joined(findings: seq<Finding>, s: Span) {
    forall k :: s.start < k < s.end ==> Crossed(findings, k)
  }

  ghost predicate Crossed(findings: seq<Finding>, k: int) {
    exists f :: f in findings && f.start < k < f.end
  }

  /** No span ends inside a finding. */
  ghost predicate Uncut(findings: seq<Finding>, spans: seq<Span>) {
    forall f :: f in findings && f.start < f.end ==> Contained(spans, f)
  }

  ghost predicate Contained(spans: seq<Span>, f: Finding) {
    exists i :: 0 <= i < |spans| && spans[i].start <= f.start && f.end <= spans[i].end
  }

  /** The findings with exactly this span, in the order given. */
  function SameKey(findings: seq<Finding>, f: Finding): seq<Finding> {
    if findings == [] then []
    else
      var last := findings[|findings| - 1];
      SameKey(findings[..|findings| - 1], f) + (if last.start == f.start && last.end == f.end then [last] else [])
  }

  /** The span is named by a longest finding that starts where the span starts, and among
      those by the first reported. */
  ghost predicate NamedByFirst(findings: seq<Finding>, s: Span) {
    && s.first in findings && s.first.start == s.start && s.first.start < s.first.end <= s.end
    && (forall f :: f in findings && f.start == s.start ==> f.end <= s.first.end)
    && SameKey(findings, s.first) != [] && SameKey(findings, s.first)[0] == s.first
  }

  lemma {:induction false} SameKeyConcat(a: seq<Finding>, b: seq<Finding>, f: Finding)
    ensures SameKey(a + b, f) == SameKey(a, f) + SameKey(b, f)
    decreases |b|
  {
    if b == [] {
      assert a + b == a;
    } else {
      assert (a + b)[..|a + b| - 1] == a + b[..|b| - 1];
      SameKeyConcat(a, b[..|b| - 1], f);
    }
  }

  lemma {:induction false} NoneWithKey(q: seq<Finding>, f: Finding)
    requires forall g :: g in q ==> g.start != f.start || g.end != f.end
    ensures SameKey(q, f) == []
  {
    if q != [] {
      NoneWithKey(q[..|q| - 1], f);
    }
  }

  /** Inserting behind everything that does not come later keeps reports of one span in order. */
  lemma InsertStable(a: seq<Finding>, b: seq<Finding>, f: Finding, g: Finding)
    requires forall h :: h in b ==> !Precedes(h, f)
    ensures SameKey(a + [f] + b, g) == SameKey(a + b, g) + SameKey([f], g)
  {
    SameKeyConcat(a, b, g);
    SameKeyConcat(a + [f], b, g);
    SameKeyConcat(a, [f], g);
    if f.start == g.start && f.end == g.end {
      NoneWithKey(b, g);
    } else {
      NoneWithKey([f], g);
    }
    Commute(SameKey(a, g), SameKey([f], g), SameKey(b, g));
  }

  lemma Commute(x: seq<Finding>, y: seq<Finding>, z: seq<Finding>)
    requires y == [] || z == []
    ensures (x + y) + z == (x + z) + y
  {
  }

  /** A stable sort by the key. */
  method SortFindings(findings: seq<Finding>) returns (q: seq<Finding>)
    ensures Ordered(q) && multiset(q) == multiset(findings)
    ensures forall g :: SameKey(q, g) == SameKey(findings, g)
  {
    q := [];
    var i := 0;
    while i < |findings|
      invariant 0 <= i <= |findings|
      invariant Ordered(q) && multiset(q) == multiset(findings[..i])
      invariant forall g :: SameKey(q, g) == SameKey(findings[..i], g)
    {
      var f := findings[i];
      var j := |q|;
      while j > 0 && !Precedes(q[j - 1], f)
        invariant 0 <= j <= |q|
        invariant forall k :: j <= k < |q| ==> !Precedes(q[k], f)
      {
        j := j - 1;
      }
      InsertOrdered(q, j, f);
      InsertMultiset(q, j, f);
      assert findings[..i + 1] == findings[..i] + [f];
      forall g
        ensures SameKey(q[..j] + [f] + q[j..], g) == SameKey(findings[..i + 1], g)
      {
        assert q == q[..j] + q[j..];
        InsertStable(q[..j], q[j..], f, g);
        SameKeyConcat(findings[..i], [f], g);
      }
      q := q[..j] + [f] + q[j..];
      i := i + 1;
    }
    assert findings[..i] == findings;
  }

  lemma InsertOrdered(q: seq<Finding>, j: nat, f: Finding)
    requires Ordered(q) && j <= |q|
    requires forall k :: j <= k < |q| ==> !Precedes(q[k], f)
    requires j > 0 ==> Precedes(q[j - 1], f)
    ensures Ordered(q[..j] + [f] + q[j..])
  {
    var p := q[..j] + [f] + q[j..];
    forall a, b | 0 <= a < b < |p|
      ensures Precedes(p[a], p[b])
    {
      assert p[a] == if a < j then q[a] else if a == j then f else q[a - 1];
      assert p[b] == if b < j then q[b] else if b == j then f else q[b - 1];
      if b == j {
        assert a < j - 1 ==> Precedes(q[a], q[j - 1]);
      }
    }
  }

  lemma InsertMultiset(q: seq<Finding>, j: nat, f: Finding)
    requires j <= |q|
    ensures multiset(q[..j] + [f] + q[j..]) == multiset(q) + multiset{f}
  {
    assert q == q[..j] + q[j..];
  }

  method MergeSpans(findings: seq<Finding>) returns (merged: seq<Span>)
    ensures Disjoint(merged)
    ensures forall k :: InSpan(merged, k) <==> Covered(findings, k)
    ensures forall i :: 0 <= i < |merged| ==> NamedByFirst(findings, merged[i])
    ensures Runs(findings, merged)
  {
    var ordered := SortFindings(findings);
    merged := [];
    var i := 0;
    while i < |ordered|
      invariant 0 <= i <= |ordered|
      invariant Merging(ordered[..i], merged)
    {
      var f := ordered[i];
      Seen(ordered, i);
      if f.end <= f.start {
        MergeSkips(ordered[..i], merged, f);
      } else if |merged| > 0 && f.start < merged[|merged| - 1].end {
        var last := merged[|merged| - 1];
        var end := if last.end < f.end then f.end else last.end;
        MergeExtends(ordered[..i], merged, f);
        merged := merged[..|merged| - 1] + [Span(last.start, end, last.first)];
      } else {
        MergeAppends(ordered[..i], merged, f);
        merged := merged + [Span(f.start, f.end, f)];
      }
      i := i + 1;
    }
    assert ordered[..i] == ordered;
    MergeEnds(findings, ordered, merged);
  }

  ghost predicate IsSpans(x: seq<Span>, merged: seq<Span>) {
    x == merged
  }

  /** Where the merge stands. (Said of any equal spans, so that it is looked into only by name.) */
  ghost predicate Merging(seen: seq<Finding>, merged: seq<Span>) {
    forall x :: IsSpans(x, merged) ==> MergedSoFar(seen, x) && Runs(seen, x)
  }

  lemma MergeSkips(seen: seq<Finding>, merged: seq<Span>, f: Finding)
    requires Merging(seen, merged) && f.end <= f.start
    ensures Merging(seen + [f], merged)
  {
    assert IsSpans(merged, merged);
    SkipEmpty(seen, merged, f);
    RunsSkip(seen, merged, f);
  }

  lemma MergeExtends(seen: seq<Finding>, merged: seq<Span>, f: Finding)
    requires Merging(seen, merged) && ComesLast(seen, f)
    requires f.start < f.end && merged != [] && f.start < merged[|merged| - 1].end
    ensures var last := merged[|merged| - 1];
            Merging(seen + [f], merged[..|merged| - 1] + [Span(last.start, if last.end < f.end then f.end else last.end, last.first)])
  {
    assert IsSpans(merged, merged);
    var last := merged[|merged| - 1];
    ExtendLast(seen, merged, f);
    LastStartsBefore(seen, merged, f);
    RunsMore(seen, merged, f, merged[..|merged| - 1], Span(last.start, if last.end < f.end then f.end else last.end, last.first));
  }

  lemma LastStartsBefore(seen: seq<Finding>, merged: seq<Span>, f: Finding)
    requires MergedSoFar(seen, merged) && ComesLast(seen, f) && merged != []
    ensures merged[|merged| - 1].start <= f.start
  {
    var last := merged[|merged| - 1];
    assert NamedByFirst(seen, last) && Precedes(last.first, f);
  }

  lemma MergeAppends(seen: seq<Finding>, merged: seq<Span>, f: Finding)
    requires Merging(seen, merged) && ComesLast(seen, f)
    requires f.start < f.end && (merged != [] ==> merged[|merged| - 1].end <= f.start)
    ensures Merging(seen + [f], merged + [Span(f.start, f.end, f)])
  {
    assert IsSpans(merged, merged);
    AppendSpan(seen, merged, f);
    RunsMore(seen, merged, f, merged, Span(f.start, f.end, f));
  }

  lemma MergeEnds(findings: seq<Finding>, ordered: seq<Finding>, merged: seq<Span>)
    requires Merging(ordered, merged) && multiset(ordered) == multiset(findings)
    requires forall g :: SameKey(ordered, g) == SameKey(findings, g)
    ensures Disjoint(merged)
    ensures forall k :: InSpan(merged, k) <==> Covered(findings, k)
    ensures forall i :: 0 <= i < |merged| ==> NamedByFirst(findings, merged[i])
    ensures Runs(findings, merged)
  {
    assert IsSpans(merged, merged);
    SameMembers(findings, ordered, merged);
    SameRuns(findings, ordered, merged);
  }

  ghost predicate MergedSoFar(seen: seq<Finding>, merged: seq<Span>) {
    && Disjoint(merged)
    && (forall k :: InSpan(merged, k) <==> Covered(seen, k))
    && forall i :: 0 <= i < |merged| ==> NamedByFirst(seen, merged[i])
  }

  /** The spans are the connected runs of the findings. */
  ghost predicate Runs(seen: seq<Finding>, merged: seq<Span>) {
    (forall i :: 0 <= i < |merged| ==> Joined(seen, merged[i])) && Uncut(seen, merged)
  }

  lemma JoinedMore(seen: seq<Finding>, f: Finding, s: Span)
    requires Joined(seen, s)
    ensures Joined(seen + [f], s)
  {
    forall k | s.start < k < s.end
      ensures Crossed(seen + [f], k)
    {
      assert Crossed(seen, k);
      var g :| g in seen && g.start < k < g.end;
      assert g in seen + [f];
    }
  }

  /** The run of a finding that overlaps the last span, or follows it, or is empty. */
  lemma RunsMore(seen: seq<Finding>, merged: seq<Span>, f: Finding, rest: seq<Span>, s: Span)
    requires Runs(seen, merged)
    requires (rest == merged && s == Span(f.start, f.end, f))
          || (merged != [] && rest == merged[..|merged| - 1] && s.start == merged[|merged| - 1].start
              && merged[|merged| - 1].end <= s.end && f.end <= s.end && s.start <= f.start
              && (s.end > merged[|merged| - 1].end ==> f.start < merged[|merged| - 1].end && s.end == f.end))
    ensures Runs(seen + [f], rest + [s])
  {
    var more := rest + [s];
    forall i | 0 <= i < |rest|
      ensures Joined(seen + [f], rest[i])
    {
      JoinedMore(seen, f, merged[i]);
    }
    assert f in seen + [f];
    forall k | s.start < k < s.end
      ensures Crossed(seen + [f], k)
    {
      if !(f.start < k < f.end) {
        assert Joined(seen, merged[|merged| - 1]) && Crossed(seen, k);
        var g :| g in seen && g.start < k < g.end;
        assert g in seen + [f];
      }
    }
    forall g | g in seen + [f] && g.start < g.end
      ensures Contained(more, g)
    {
      if g in seen {
        assert Contained(merged, g);
        var i :| 0 <= i < |merged| && merged[i].start <= g.start && g.end <= merged[i].end;
        assert more[i].start <= g.start && g.end <= more[i].end;
      } else {
        assert more[|rest|] == s;
      }
    }
  }

  lemma RunsSkip(seen: seq<Finding>, merged: seq<Span>, f: Finding)
    requires Runs(seen, merged) && f.end <= f.start
    ensures Runs(seen + [f], merged)
  {
    forall i | 0 <= i < |merged|
      ensures Joined(seen + [f], merged[i])
    {
      JoinedMore(seen, f, merged[i]);
    }
  }

  lemma SameRuns(findings: seq<Finding>, ordered: seq<Finding>, merged: seq<Span>)
    requires multiset(ordered) == multiset(findings) && Runs(ordered, merged)
    ensures Runs(findings, merged)
  {
    assert forall f :: f in findings <==> f in multiset(findings);
    assert forall f :: f in ordered <==> f in multiset(ordered);
    forall i, k | 0 <= i < |merged| && merged[i].start < k < merged[i].end
      ensures Crossed(findings, k)
    {
      assert Joined(ordered, merged[i]) && Crossed(ordered, k);
    }
  }

  /** The next finding comes after all that have been seen. */
  ghost predicate ComesLast(seen: seq<Finding>, f: Finding) {
    forall g :: g in seen ==> Precedes(g, f)
  }

  lemma Seen(ordered: seq<Finding>, i: nat)
    requires Ordered(ordered) && i < |ordered|
    ensures ComesLast(ordered[..i], ordered[i])
    ensures ordered[..i + 1] == ordered[..i] + [ordered[i]]
  {
  }

  lemma CoveredMore(seen: seq<Finding>, f: Finding, k: int)
    ensures Covered(seen + [f], k) <==> Covered(seen, k) || Covers(f, k)
  {
    var more := seen + [f];
    if Covered(seen, k) {
      var i :| 0 <= i < |seen| && Covers(seen[i], k);
      assert Covers(more[i], k);
    }
    if Covers(f, k) {
      assert Covers(more[|seen|], k);
    }
  }

  lemma SkipEmpty(seen: seq<Finding>, merged: seq<Span>, f: Finding)
    requires MergedSoFar(seen, merged) && f.end <= f.start
    ensures MergedSoFar(seen + [f], merged)
  {
    forall k
      ensures InSpan(merged, k) <==> Covered(seen + [f], k)
    {
      CoveredMore(seen, f, k);
    }
    forall i | 0 <= i < |merged|
      ensures NamedByFirst(seen + [f], merged[i])
    {
      assert NamedByFirst(seen, merged[i]);
      SameKeyConcat(seen, [f], merged[i].first);
    }
  }

  lemma InSpanMore(spans: seq<Span>, s: Span, k: int)
    ensures InSpan(spans + [s], k) <==> InSpan(spans, k) || s.start <= k < s.end
  {
    var more := spans + [s];
    if InSpan(spans, k) {
      var i :| 0 <= i < |spans| && spans[i].start <= k < spans[i].end;
      assert more[i].start <= k < more[i].end;
    }
    if s.start <= k < s.end {
      assert more[|spans|].start <= k < more[|spans|].end;
    }
  }

  lemma ExtendLast(seen: seq<Finding>, merged: seq<Span>, f: Finding)
    requires MergedSoFar(seen, merged) && ComesLast(seen, f)
    requires f.start < f.end && merged != [] && f.start < merged[|merged| - 1].end
    ensures var last := merged[|merged| - 1];
            MergedSoFar(seen + [f], merged[..|merged| - 1] + [Span(last.start, if last.end < f.end then f.end else last.end, last.first)])
  {
    var n := |merged| - 1;
    var last := merged[n];
    var longer := Span(last.start, if last.end < f.end then f.end else last.end, last.first);
    assert NamedByFirst(seen, last);
    assert merged == merged[..n] + [last];
    forall k
      ensures InSpan(merged[..n] + [longer], k) <==> Covered(seen + [f], k)
    {
      CoveredMore(seen, f, k);
      InSpanMore(merged[..n], last, k);
      InSpanMore(merged[..n], longer, k);
    }
    var q := merged[..n] + [longer];
    forall i | 0 <= i < |q|
      ensures NamedByFirst(seen + [f], q[i])
    {
      assert NamedByFirst(seen, merged[i]);
      SameKeyConcat(seen, [f], merged[i].first);
    }
  }

  lemma AppendSpan(seen: seq<Finding>, merged: seq<Span>, f: Finding)
    requires MergedSoFar(seen, merged) && ComesLast(seen, f)
    requires f.start < f.end && (merged != [] ==> merged[|merged| - 1].end <= f.start)
    ensures MergedSoFar(seen + [f], merged + [Span(f.start, f.end, f)])
  {
    var s := Span(f.start, f.end, f);
    forall k
      ensures InSpan(merged + [s], k) <==> Covered(seen + [f], k)
    {
      CoveredMore(seen, f, k);
      InSpanMore(merged, s, k);
    }
    forall i | 0 <= i < |merged|
      ensures merged[i].end <= f.start && merged[i].start < f.start && NamedByFirst(seen + [f], merged[i])
    {
      assert NamedByFirst(seen, merged[i]);
      SameKeyConcat(seen, [f], merged[i].first);
    }
    NamesItself(seen, merged, f);
  }

  lemma NamesItself(seen: seq<Finding>, merged: seq<Span>, f: Finding)
    requires MergedSoFar(seen, merged) && f.start < f.end
    requires forall i :: 0 <= i < |merged| ==> merged[i].end <= f.start
    ensures NamedByFirst(seen + [f], Span(f.start, f.end, f))
  {
    forall g | g in seen && g.start == f.start
      ensures g.end <= g.start
    {
      NotYetCovered(seen, merged, g, f.start);
    }
    NoneWithKey(seen, f);
    SameKeyConcat(seen, [f], f);
    assert SameKey([f], f) == [f];
  }

  lemma NotYetCovered(seen: seq<Finding>, merged: seq<Span>, g: Finding, start: int)
    requires MergedSoFar(seen, merged) && g in seen && g.start == start
    requires forall i :: 0 <= i < |merged| ==> merged[i].end <= start
    ensures g.end <= g.start
  {
    assert !InSpan(merged, start);
    var i :| 0 <= i < |seen| && seen[i] == g;
    assert !Covers(seen[i], start);
  }

  lemma SameMembers(findings: seq<Finding>, ordered: seq<Finding>, merged: seq<Span>)
    requires multiset(ordered) == multiset(findings) && MergedSoFar(ordered, merged)
    requires forall g :: SameKey(ordered, g) == SameKey(findings, g)
    ensures forall k :: InSpan(merged, k) <==> Covered(findings, k)
    ensures forall i :: 0 <= i < |merged| ==> NamedByFirst(findings, merged[i])
  {
    assert forall f :: f in findings <==> f in multiset(findings);
    assert forall f :: f in ordered <==> f in multiset(ordered);
    forall k
      ensures Covered(ordered, k) <==> Covered(findings, k)
    {
      CoveredByMember(ordered, k);
      CoveredByMember(findings, k);
    }
    forall i | 0 <= i < |merged|
      ensures NamedByFirst(findings, merged[i])
    {
      assert NamedByFirst(ordered, merged[i]);
    }
  }

  lemma CoveredByMember(findings: seq<Finding>, k: int)
    ensures Covered(findings, k) <==> exists f :: f in findings && Covers(f, k)
  {
    if f :| f in findings && Covers(f, k) {
      var i :| 0 <= i < |findings| && findings[i] == f;
      assert Covers(findings[i], k);
    }
  }

  // ------------------------------------------------------------- redacting

  datatype Piece = Kept(text: string) | Marker(category: string, ruleId: string)

  /** The characters that survive, in order. */
  function KeptText(out: seq<Piece>): string {
    if out == [] then ""
    else (if out[0].Kept? then out[0].text else "") + KeptText(out[1..])
  }

  function Markers(out: seq<Piece>): seq<Piece> {
    if out == [] then [] else (if out[0].Marker? then [out[0]] else []) + Markers(out[1..])
  }

  /** The characters at or after `k` that no finding covers. */
  ghost function Uncovered(text: string, findings: seq<Finding>, k: nat): string
    requires k <= |text|
    decreases |text| - k
  {
    if k == |text| then ""
    else (if Covered(findings, k) then "" else [text[k]]) + Uncovered(text, findings, k + 1)
  }

  function MarkerOf(s: Span): Piece {
    Marker(s.first.category, s.first.ruleId)
  }

  ghost predicate Within(text: string, spans: seq<Span>, from: int) {
    && Disjoint(spans)
    && forall i :: 0 <= i < |spans| ==> from <= spans[i].start && spans[i].end <= |text|
  }

  /** The pieces between, and the markers of, the spans from `from` on. */
  function Pieces(text: string, spans: seq<Span>, from: nat): seq<Piece>
    requires from <= |text|
    requires forall i :: 0 <= i < |spans| ==> from <= spans[i].start < spans[i].end <= |text|
    requires forall i, j :: 0 <= i < j < |spans| ==> spans[i].end <= spans[j].start
    decreases |spans|
  {
    if spans == [] then [Kept(text[from..])]
    else [Kept(text[from..spans[0].start]), MarkerOf(spans[0])] + Pieces(text, spans[1..], spans[0].end)
  }

  /** The text before the i-th span, or after the last. */
  ghost function Gap(text: string, spans: seq<Span>, from: nat, i: nat): string
    requires i <= |spans| && from <= |text| && Within(text, spans, from)
  {
    text[(if i == 0 then from else spans[i - 1].end)..(if i == |spans| then |text| else spans[i].start)]
  }

  /** Text and markers take turns: the i-th marker names the i-th span, and around the
      markers stands the text around their spans. */
  ghost predicate Alternate(text: string, spans: seq<Span>, from: nat, out: seq<Piece>)
    requires from <= |text| && Within(text, spans, from)
  {
    && |out| == 2 * |spans| + 1
    && (forall i :: 0 <= i <= |spans| ==> out[2 * i] == Kept(Gap(text, spans, from, i)))
    && (forall i :: 0 <= i < |spans| ==> out[2 * i + 1] == Marker(spans[i].first.category, spans[i].first.ruleId))
  }

  lemma {:induction false} PiecesAlternate(text: string, spans: seq<Span>, from: nat)
    requires from <= |text| && Within(text, spans, from)
    ensures Alternate(text, spans, from, Pieces(text, spans, from))
    decreases |spans|
  {
    var out := Pieces(text, spans, from);
    if spans == [] {
      assert text[from..] == text[from..|text|];
    } else {
      var rest := Pieces(text, spans[1..], spans[0].end);
      PiecesAlternate(text, spans[1..], spans[0].end);
      forall i | 0 <= i <= |spans|
        ensures out[2 * i] == Kept(Gap(text, spans, from, i))
      {
        if i > 0 {
          assert out[2 * i] == rest[2 * (i - 1)];
        }
      }
      forall i | 0 <= i < |spans|
        ensures out[2 * i + 1] == Marker(spans[i].first.category, spans[i].first.ruleId)
      {
        if i > 0 {
          assert out[2 * i + 1] == rest[2 * (i - 1) + 1];
        }
      }
    }
  }

  /** Each span leaves one marker, in order. */
  lemma {:induction false} PiecesMarkSpans(text: string, spans: seq<Span>, from: nat)
    requires from <= |text| && Within(text, spans, from)
    ensures Markers(Pieces(text, spans, from)) == seq(|spans|, i requires 0 <= i < |spans| => MarkerOf(spans[i]))
    decreases |spans|
  {
    if spans == [] {
      assert Pieces(text, spans, from)[1..] == [];
    } else {
      PiecesMarkSpans(text, spans[1..], spans[0].end);
      TwoPieces(text[from..spans[0].start], MarkerOf(spans[0]), Pieces(text, spans[1..], spans[0].end));
    }
  }

  /** What is kept is exactly what no finding covers. */
  lemma {:induction false} PiecesKeepUncovered(text: string, findings: seq<Finding>, spans: seq<Span>, from: nat)
    requires from <= |text| && Within(text, spans, from)
    requires forall k :: from <= k ==> (InSpan(spans, k) <==> Covered(findings, k))
    ensures KeptText(Pieces(text, spans, from)) == Uncovered(text, findings, from)
    decreases |spans|
  {
    if spans == [] {
      KeptRun(text, findings, from, |text|);
      assert text[from..|text|] == text[from..];
      assert Pieces(text, spans, from)[1..] == [];
    } else {
      var s := spans[0];
      HeadSpan(text, findings, spans, from);
      PiecesKeepUncovered(text, findings, spans[1..], s.end);
      TwoPieces(text[from..s.start], MarkerOf(s), Pieces(text, spans[1..], s.end));
    }
  }

  /** Up to the first span everything is kept, in it nothing, and the rest is as before. */
  lemma HeadSpan(text: string, findings: seq<Finding>, spans: seq<Span>, from: nat)
    requires from <= |text| && Within(text, spans, from) && spans != []
    requires forall k :: from <= k ==> (InSpan(spans, k) <==> Covered(findings, k))
    ensures Uncovered(text, findings, from) == text[from..spans[0].start] + Uncovered(text, findings, spans[0].end)
    ensures forall k :: spans[0].end <= k ==> (InSpan(spans[1..], k) <==> Covered(findings, k))
  {
    var s := spans[0];
    forall k | from <= k < s.start
      ensures !InSpan(spans, k)
    {
    }
    KeptRun(text, findings, from, s.start);
    forall k | s.start <= k < s.end
      ensures InSpan(spans, k)
    {
      assert spans[0].start <= k < spans[0].end;
    }
    CoveredRun(text, findings, s.start, s.end);
    forall k | s.end <= k
      ensures InSpan(spans[1..], k) <==> Covered(findings, k)
    {
      TailSpans(spans, k);
    }
  }

  lemma TailSpans(spans: seq<Span>, k: int)
    requires spans != [] && spans[0].end <= k
    ensures InSpan(spans[1..], k) <==> InSpan(spans, k)
  {
    if InSpan(spans, k) {
      var i :| 0 <= i < |spans| && spans[i].start <= k < spans[i].end;
      assert spans[1..][i - 1].start <= k < spans[1..][i - 1].end;
    }
    if InSpan(spans[1..], k) {
      var i :| 0 <= i < |spans[1..]| && spans[1..][i].start <= k < spans[1..][i].end;
      assert spans[i + 1].start <= k < spans[i + 1].end;
    }
  }

  lemma TwoPieces(kept: string, m: Piece, rest: seq<Piece>)
    requires m.Marker?
    ensures KeptText([Kept(kept), m] + rest) == kept + KeptText(rest)
    ensures Markers([Kept(kept), m] + rest) == [m] + Markers(rest)
  {
    var out := [Kept(kept), m] + rest;
    assert out[1..] == [m] + rest;
    assert ([m] + rest)[1..] == rest;
  }

  lemma {:induction false} KeptRun(text: string, findings: seq<Finding>, from: nat, to: nat)
    requires from <= to <= |text| && forall k :: from <= k < to ==> !Covered(findings, k)
    ensures Uncovered(text, findings, from) == text[from..to] + Uncovered(text, findings, to)
    decreases |text| - from
  {
    if from < to {
      KeptRun(text, findings, from + 1, to);
      assert !Covered(findings, from);
      var rest := Uncovered(text, findings, from + 1);
      assert Uncovered(text, findings, from) == [text[from]] + rest;
      assert text[from..to] == [text[from]] + text[from + 1..to];
    }
  }

  lemma {:induction false} CoveredRun(text: string, findings: seq<Finding>, from: nat, to: nat)
    requires from <= to <= |text| && forall k :: from <= k < to ==> Covered(findings, k)
    ensures Uncovered(text, findings, from) == Uncovered(text, findings, to)
    decreases |text| - from
  {
    if from < to {
      CoveredRun(text, findings, from + 1, to);
    }
  }

  /** The redacted text as its pieces: every uncovered character survives in order, no
      covered one does, and each merged span leaves the one marker that names it. */
  method Redact(text: string, findings: seq<Finding>) returns (out: seq<Piece>, ghost merged: seq<Span>)
    requires Inside(text, findings)
    ensures Within(text, merged, 0) && forall k :: InSpan(merged, k) <==> Covered(findings, k)
    ensures Runs(findings, merged) && forall i :: 0 <= i < |merged| ==> NamedByFirst(findings, merged[i])
    ensures out == Pieces(text, merged, 0)
    ensures KeptText(out) == Uncovered(text, findings, 0)
    ensures Markers(out) == seq(|merged|, i requires 0 <= i < |merged| => MarkerOf(merged[i]))
    ensures Alternate(text, merged, 0, out)
  {
    if findings == [] {
      merged := [];
      PiecesKeepUncovered(text, findings, merged, 0);
      PiecesMarkSpans(text, merged, 0);
      return [Kept(text)], merged;
    }
    var spans := MergeSpans(findings);
    merged := spans;
    SpansInside(text, findings, spans);
    out := Rebuild(text, spans);
    PiecesKeepUncovered(text, findings, spans, 0);
    PiecesMarkSpans(text, spans, 0);
    PiecesAlternate(text, spans, 0);
  }

  /** The loop over the merged spans. Its guard against a span that begins before the
      cursor never fires. */
  method Rebuild(text: string, spans: seq<Span>) returns (out: seq<Piece>)
    requires Within(text, spans, 0)
    ensures out == Pieces(text, spans, 0)
  {
    out := [];
    var cursor := 0;
    var i := 0;
    assert spans[0..] == spans;
    while i < |spans|
      invariant 0 <= i <= |spans| && 0 <= cursor <= |text|
      invariant Within(text, spans[i..], cursor)
      invariant out + Pieces(text, spans[i..], cursor) == Pieces(text, spans, 0)
    {
      var s := spans[i];
      assert spans[i..][0] == s && spans[i..][1..] == spans[i + 1..];
      if s.start < cursor {
        assert false;
      }
      NextPieces(text, out, spans[i..], cursor);
      out := out + [Kept(text[cursor..s.start])] + [MarkerOf(s)];
      cursor := s.end;
      i := i + 1;
    }
    out := out + [Kept(text[cursor..])];
  }

  lemma NextPieces(text: string, out: seq<Piece>, spans: seq<Span>, cursor: nat)
    requires cursor <= |text| && Within(text, spans, cursor) && spans != []
    ensures spans[0].end <= |text| && cursor <= spans[0].start && Within(text, spans[1..], spans[0].end)
    ensures (out + [Kept(text[cursor..spans[0].start])] + [MarkerOf(spans[0])]) + Pieces(text, spans[1..], spans[0].end)
              == out + Pieces(text, spans, cursor)
  {
  }

  lemma SpansInside(text: string, findings: seq<Finding>, spans: seq<Span>)
    requires Inside(text, findings) && Disjoint(spans)
    requires forall k :: InSpan(spans, k) <==> Covered(findings, k)
    ensures Within(text, spans, 0)
  {
    forall i | 0 <= i < |spans|
      ensures 0 <= spans[i].start && spans[i].end <= |text|
    {
      assert InSpan(spans, spans[i].start);
      var j :| 0 <= j < |findings| && Covers(findings[j], spans[i].start);
      assert spans[i].start <= spans[i].end - 1 < spans[i].end;
      assert InSpan(spans, spans[i].end - 1);
      var m :| 0 <= m < |findings| && Covers(findings[m], spans[i].end - 1);
    }
  }
}
