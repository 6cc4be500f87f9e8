/** The list of staged byte ranges of an inode (src/smoothfs/file.c). */
module Ranges {
  datatype Range = Range(start: int, end: int)

  /** Sorted, no empty range, and a gap of at least one byte between neighbours. */
  predicate Separated(rs: seq<Range>)
  {
    && (forall i :: 0 <= i < |rs| ==> 0 <= rs[i].start < rs[i].end)
    && (forall i, j :: 0 <= i < j < |rs| ==> rs[i].end < rs[j].start)
  }

  predicate Covers(rs: seq<Range>, p: int)
  {
    exists i :: 0 <= i < |rs| && rs[i].start <= p < rs[i].end
  }

  function LastEnd(rs: seq<Range>): int
  {
    if rs == [] then 0 else rs[|rs| - 1].end
  }

  lemma LastEndBounds(rs: seq<Range>)
    requires Separated(rs)
    ensures 0 <= LastEnd(rs)
    ensures forall p :: Covers(rs, p) ==> p < LastEnd(rs)
    ensures rs != [] ==> Covers(rs, LastEnd(rs) - 1)
  {
    if rs != [] { assert rs[|rs| - 1].start <= LastEnd(rs) - 1 < rs[|rs| - 1].end; }
  }

  /** The sum the kernel computes by walking the list. */
  function StagedBytes(rs: seq<Range>): int
  {
    if rs == [] then 0 else StagedBytes(rs[..|rs| - 1]) + rs[|rs| - 1].end - rs[|rs| - 1].start
  }

  /** The positions from `a` up to `b`. */
  function Interval(a: int, b: int): (s: set<int>)
    ensures forall p :: p in s <==> a <= p < b
    ensures |s| == if a < b then b - a else 0
    decreases b - a
  {
    if a >= b then {} else Interval(a, b - 1) + {b - 1}
  }

  /** The covered positions as a set. */
  function Covered(rs: seq<Range>): set<int>
  {
    if rs == [] then {} else Covered(rs[..|rs| - 1]) + Interval(rs[|rs| - 1].start, rs[|rs| - 1].end)
  }

  lemma CoversOneMore(rs: seq<Range>, i: nat, p: int)
    requires i < |rs|
    ensures Covers(rs[..i + 1], p) <==> Covers(rs[..i], p) || rs[i].start <= p < rs[i].end
  {
    if Covers(rs[..i], p) {
      var j :| 0 <= j < i && rs[..i][j].start <= p < rs[..i][j].end;
      assert rs[..i + 1][j] == rs[j];
    }
    if rs[i].start <= p < rs[i].end { assert rs[..i + 1][i] == rs[i]; }
    if Covers(rs[..i + 1], p) {
      var j :| 0 <= j < i + 1 && rs[..i + 1][j].start <= p < rs[..i + 1][j].end;
      if j < i { assert rs[..i][j] == rs[j]; }
    }
  }

  lemma {:induction false} CoveredIff(rs: seq<Range>, p: int)
    ensures p in Covered(rs) <==> Covers(rs, p)
  {
    if rs == [] {
    } else {
      var n := |rs| - 1;
      CoversOneMore(rs, n, p);
      assert rs[..n + 1] == rs;
      hide Covers;
      CoveredIff(rs[..n], p);
    }
  }

  /** Walking the list counts every covered byte once. */
  lemma {:induction false} BytesCountsCovered(rs: seq<Range>)
    requires Separated(rs)
    ensures StagedBytes(rs) == |Covered(rs)|
  {
    if rs == [] {
    } else {
      var front, last := rs[..|rs| - 1], rs[|rs| - 1];
      BytesCountsCovered(front);
      forall p | p in Covered(front) ensures p !in Interval(last.start, last.end) {
        CoveredIff(front, p);
      }
      assert Covered(front) !! Interval(last.start, last.end);
    }
  }

  /** A separated list is determined by what it covers: there is only one right answer. */
  lemma {:induction false} SeparatedIsCanonical(a: seq<Range>, b: seq<Range>)
    requires Separated(a) && Separated(b)
    requires forall p :: Covers(a, p) <==> Covers(b, p)
    ensures a == b
  {
    hide Covers;
    if a == [] {
      NothingCovered(a, b);
    } else if b == [] {
      NothingCovered(b, a);
    } else {
      SameFirst(a, b);
      forall p ensures Covers(a[1..], p) <==> Covers(b[1..], p) {
        CoversTail(a, p);
        CoversTail(b, p);
      }
      SeparatedIsCanonical(a[1..], b[1..]);
      assert a == [a[0]] + a[1..] && b == [b[0]] + b[1..];
    }
  }

  lemma NothingCovered(a: seq<Range>, b: seq<Range>)
    requires a == [] && Separated(b) && forall p :: Covers(a, p) <==> Covers(b, p)
    ensures b == []
  {
    if b != [] { StartsAt(b); }
  }

  lemma CoversTail(rs: seq<Range>, p: int)
    requires Separated(rs) && rs != []
    ensures Covers(rs[1..], p) <==> Covers(rs, p) && p >= rs[0].end
  {
    if Covers(rs[1..], p) {
      var i :| 0 <= i < |rs[1..]| && rs[1..][i].start <= p < rs[1..][i].end;
      assert rs[i + 1] == rs[1..][i];
    }
    if Covers(rs, p) && p >= rs[0].end {
      var i :| 0 <= i < |rs| && rs[i].start <= p < rs[i].end;
      assert rs[1..][i - 1] == rs[i];
    }
  }

  // The first range starts where coverage starts and ends at the first gap.
  lemma SameFirst(a: seq<Range>, b: seq<Range>)
    requires Separated(a) && Separated(b) && a != [] && b != []
    requires forall p :: Covers(a, p) <==> Covers(b, p)
    ensures a[0] == b[0]
  {
    StartsAt(a);
    StartsAt(b);
    assert a[0].start == b[0].start;
    assert !Covers(b, a[0].end) && !Covers(a, b[0].end);
  }

  lemma StartsAt(rs: seq<Range>)
    requires Separated(rs) && rs != []
    ensures Covers(rs, rs[0].start) && !Covers(rs, rs[0].end)
    ensures forall p :: Covers(rs, p) ==> rs[0].start <= p
  {
  }

  /** `out` is `rs` with the bytes from `start` up to `end` covered as well. */
  ghost predicate Extends(rs: seq<Range>, start: int, end: int, out: seq<Range>)
  {
    && Separated(out)
    && (forall p :: Covers(out, p) <==> Covers(rs, p) || start <= p < end)
    && LastEnd(out) == if start < end && end > LastEnd(rs) then end else LastEnd(rs)
  }

  /** The byte count grows by exactly the newly covered bytes. */
  ghost predicate CountsNew(rs: seq<Range>, start: int, end: int, out: seq<Range>)
  {
    StagedBytes(out) - StagedBytes(rs) == |Interval(start, end) - Covered(rs)|
  }

  /** smoothfs_range_stage_record_locked: one pass that absorbs every range the new one
      overlaps or touches. */
  method Record(rs: seq<Range>, newStart: int, newEnd: int) returns (out: seq<Range>)
    requires Separated(rs) && 0 <= newStart
    ensures Extends(rs, newStart, newEnd, out)
    ensures CountsNew(rs, newStart, newEnd, out) && StagedBytes(out) >= StagedBytes(rs)
  {
    if newEnd <= newStart {
      assert Interval(newStart, newEnd) - Covered(rs) == {};
      return rs;
    }
    hide Covers, Covered, Interval, LastEnd, StagedBytes, Extends, CountsNew;
    var start, end := newStart, newEnd;
    var before, i := 0, 0;
    while i < |rs|
      invariant 0 <= before <= i <= |rs|
      invariant 0 <= start <= newStart && newEnd <= end
      invariant forall k :: 0 <= k < before ==> rs[k].end < start
      invariant forall k :: before <= k < i ==> start <= rs[k].start && rs[k].end <= end
      invariant start < newStart ==> before < i && rs[before].start == start && newStart <= rs[before].end
      invariant end > newEnd ==> before < i && rs[i - 1].start <= newEnd && rs[i - 1].end == end
    {
      if end < rs[i].start { break; }
      assert i > 0 ==> rs[i - 1].start < rs[i - 1].end < rs[i].start < rs[i].end;
      if start > rs[i].end {
        assert before == i;
        before := before + 1;
      } else {
        if rs[i].start < start { start := rs[i].start; }
        if rs[i].end > end { end := rs[i].end; }
      }
      i := i + 1;
    }
    out := rs[..before] + [Range(start, end)] + rs[i..];
    SplicedIsRight(rs, before, i, Range(start, end), newStart, newEnd);
    NewBytes(rs, out, newStart, newEnd);
  }

  // What Record promises, from where its loop stops: the shape first, then the coverage.
  lemma SplicedSeparated(rs: seq<Range>, before: nat, i: nat, r: Range)
    requires Separated(rs) && before <= i <= |rs| && 0 <= r.start < r.end
    requires forall k :: 0 <= k < before ==> rs[k].end < r.start
    requires i < |rs| ==> r.end < rs[i].start
    ensures Separated(rs[..before] + [r] + rs[i..])
  {
    var out := rs[..before] + [r] + rs[i..];
    forall j | 0 <= j < |out| ensures 0 <= out[j].start < out[j].end {
      SplicedAt(rs, before, i, r, j);
    }
    hide Separated;
    forall j, k | 0 <= j < k < |out| ensures out[j].end < out[k].start {
      SplicedApart(rs, before, i, r, j, k);
    }
    assert Separated(out) by { SeparatedIf(out); }
  }

  lemma SplicedAt(rs: seq<Range>, before: nat, i: nat, r: Range, k: nat)
    requires before <= i <= |rs| && k <= before + |rs| - i
    ensures (rs[..before] + [r] + rs[i..])[k] == if k < before then rs[k] else if k == before then r else rs[k + i - before - 1]
  {
  }

  lemma SplicedApart(rs: seq<Range>, before: nat, i: nat, r: Range, j: nat, k: nat)
    requires Separated(rs) && before <= i <= |rs| && j < k <= before + |rs| - i
    requires before > 0 ==> rs[before - 1].end < r.start
    requires 0 <= r.start < r.end && (i < |rs| ==> r.end < rs[i].start)
    ensures var out := rs[..before] + [r] + rs[i..]; out[j].end < out[k].start
  {
    SplicedAt(rs, before, i, r, j);
    SplicedAt(rs, before, i, r, k);
    if j < before { assert j < before - 1 ==> rs[j].end < rs[before - 1].start; }
    if k > before { assert rs[i].start <= rs[k + i - before - 1].start; }
  }

  lemma SeparatedIf(rs: seq<Range>)
    requires forall j :: 0 <= j < |rs| ==> 0 <= rs[j].start < rs[j].end
    requires forall j, k :: 0 <= j < k < |rs| ==> rs[j].end < rs[k].start
    ensures Separated(rs)
  {
  }

  lemma SplicedIsRight(rs: seq<Range>, before: nat, i: nat, r: Range, newStart: int, newEnd: int)
    requires Separated(rs) && before <= i <= |rs| && 0 <= r.start <= newStart < newEnd <= r.end
    requires forall k :: 0 <= k < before ==> rs[k].end < r.start
    requires forall k :: before <= k < i ==> r.start <= rs[k].start && rs[k].end <= r.end
    requires i < |rs| ==> r.end < rs[i].start
    requires r.start < newStart ==> before < i && rs[before].start == r.start && newStart <= rs[before].end
    requires r.end > newEnd ==> before < i && rs[i - 1].start <= newEnd && rs[i - 1].end == r.end
    ensures Extends(rs, newStart, newEnd, rs[..before] + [r] + rs[i..])
  {
    var out := rs[..before] + [r] + rs[i..];
    SplicedSeparated(rs, before, i, r);
    assert LastEnd(out) == if i < |rs| then LastEnd(rs) else r.end;
    forall p ensures Covers(out, p) <==> Covers(rs, p) || newStart <= p < newEnd {
      SplicedCovers(rs, before, i, r, p);
      if r.start <= p < newStart { assert rs[before].start <= p < rs[before].end; }
      if newEnd <= p < r.end { assert rs[i - 1].start <= p < rs[i - 1].end; }
    }
  }

  lemma SplicedCovers(rs: seq<Range>, before: nat, i: nat, r: Range, p: int)
    requires before <= i <= |rs|
    requires forall k :: before <= k < i ==> r.start <= rs[k].start && rs[k].end <= r.end
    ensures Covers(rs[..before] + [r] + rs[i..], p) ==> Covers(rs, p) || r.start <= p < r.end
    ensures Covers(rs, p) || r.start <= p < r.end ==> Covers(rs[..before] + [r] + rs[i..], p)
  {
    var out := rs[..before] + [r] + rs[i..];
    var shift := i - before - 1;
    assert out[before] == r;
    if Covers(out, p) {
      var k :| 0 <= k < |out| && out[k].start <= p < out[k].end;
      if k > before { assert out[k] == rs[k + shift]; }
    }
    if Covers(rs, p) {
      var k :| 0 <= k < |rs| && rs[k].start <= p < rs[k].end;
      if k >= i { assert out[k - shift] == rs[k]; }
      if k < before { assert out[k] == rs[k]; }
    }
  }

  lemma NewBytes(rs: seq<Range>, out: seq<Range>, newStart: int, newEnd: int)
    requires Separated(rs) && Extends(rs, newStart, newEnd, out)
    ensures CountsNew(rs, newStart, newEnd, out) && StagedBytes(out) >= StagedBytes(rs)
  {
    BytesCountsCovered(rs);
    BytesCountsCovered(out);
    forall p ensures p in Covered(out) <==> p in Covered(rs) + (Interval(newStart, newEnd) - Covered(rs)) {
      CoveredIff(out, p);
      CoveredIff(rs, p);
    }
    assert Covered(out) == Covered(rs) + (Interval(newStart, newEnd) - Covered(rs));
  }
}
