/** A base file seen through its staged ranges, as values. */
module Overlay {
  import opened Bytes
  import opened Ranges

  /** The length clients see: a staged range may end past the base file. */
  function Length(base: Content, rs: seq<Range>): nat
  {
    if LastEnd(rs) > |base| then LastEnd(rs) else |base|
  }

  ghost function ByteAt(base: Content, stage: Content, rs: seq<Range>, p: nat): Byte
  {
    if Covers(rs, p) && p < |stage| then stage[p] else if p < |base| then base[p] else 0
  }

  /** The first `n` bytes clients see. */
  ghost function View(base: Content, stage: Content, rs: seq<Range>, n: nat): (v: Content)
    ensures |v| == n && forall p :: 0 <= p < n ==> v[p] == ByteAt(base, stage, rs, p)
  {
    seq(n, p requires 0 <= p < n => ByteAt(base, stage, rs, p))
  }

  ghost function Whole(base: Content, stage: Content, rs: seq<Range>): Content
  {
    View(base, stage, rs, Length(base, rs))
  }

  /** Every staged byte is in the stage file. */
  ghost predicate Fits(stage: Content, rs: seq<Range>)
  {
    Separated(rs) && LastEnd(rs) <= |stage|
  }

  /** `base'` is `base` with some of the staged bytes already copied back; what it has grown by
      is complete. */
  ghost predicate PartDrained(base: Content, base': Content, stage: Content, rs: seq<Range>)
  {
    && |base| <= |base'| <= Length(base, rs)
    && forall p :: 0 <= p < |base'| ==>
         (p < |base| && base'[p] == base[p]) || base'[p] == ByteAt(base, stage, rs, p)
  }

  /** Every staged byte before `q` has been copied back. */
  ghost predicate DrainedTo(base': Content, stage: Content, rs: seq<Range>, q: int)
  {
    forall p: nat :: Covers(rs, p) && p < q ==> p < |base'| && p < |stage| && base'[p] == stage[p]
  }

  lemma NothingStaged(base: Content, stage: Content)
    ensures Whole(base, stage, []) == base
  {
  }

  /** A write into the stage file plus its range is a write into the file clients see. */
  lemma StagedWrite(base: Content, stage: Content, rs: seq<Range>, pos: nat, data: Content, rs': seq<Range>)
    requires Fits(stage, rs) && data != [] && Extends(rs, pos, pos + |data|, rs')
    ensures Fits(WriteAt(stage, pos, data), rs')
    ensures Whole(base, WriteAt(stage, pos, data), rs') == WriteAt(Whole(base, stage, rs), pos, data)
  {
    var stage', text := WriteAt(stage, pos, data), Whole(base, stage, rs);
    WriteAtByte(stage, pos, data);
    WriteAtByte(text, pos, data);
    LastEndBounds(rs);
    var got, want := Whole(base, stage', rs'), WriteAt(text, pos, data);
    assert |got| == |want|;
    forall p | 0 <= p < |got| ensures got[p] == want[p] {
      assert got[p] == ByteAt(base, stage', rs', p);
      if p < |text| { assert text[p] == ByteAt(base, stage, rs, p); }
    }
  }

  /** Copying staged bytes back is invisible, wherever it stops. */
  lemma PartDrainInvisible(base: Content, base': Content, stage: Content, rs: seq<Range>)
    requires Fits(stage, rs) && PartDrained(base, base', stage, rs)
    ensures Length(base', rs) == Length(base, rs)
    ensures Whole(base', stage, rs) == Whole(base, stage, rs)
  {
    LastEndBounds(rs);
    var a, b := Whole(base, stage, rs), Whole(base', stage, rs);
    forall p | 0 <= p < |a| ensures a[p] == b[p] {
      assert a[p] == ByteAt(base, stage, rs, p) && b[p] == ByteAt(base', stage, rs, p);
    }
  }

  /** Once everything is copied back the base file is what clients see. */
  lemma FullDrain(base: Content, base': Content, stage: Content, rs: seq<Range>)
    requires Fits(stage, rs) && PartDrained(base, base', stage, rs) && DrainedTo(base', stage, rs, LastEnd(rs))
    ensures base' == Whole(base, stage, rs)
  {
    LastEndBounds(rs);
    var text := Whole(base, stage, rs);
    if rs != [] { assert Covers(rs, LastEnd(rs) - 1); }
    assert |base'| == |text|;
    forall p | 0 <= p < |text| ensures base'[p] == text[p] {
      assert text[p] == ByteAt(base, stage, rs, p);
    }
  }

  /** Partial drains compose: a retry that starts from a partial result ends where an
      uninterrupted drain ends. */
  lemma DrainAfterPartDrain(base: Content, mid: Content, base': Content, stage: Content, rs: seq<Range>)
    requires Fits(stage, rs) && PartDrained(base, mid, stage, rs)
    requires PartDrained(mid, base', stage, rs) && DrainedTo(base', stage, rs, LastEnd(rs))
    ensures base' == Whole(base, stage, rs)
  {
    PartDrainInvisible(base, mid, stage, rs);
    FullDrain(mid, base', stage, rs);
  }

  /** Copying one more stretch of a range back keeps the drain's invariant. */
  lemma CopyStretch(base: Content, mid: Content, stage: Content, rs: seq<Range>, pos: nat, k: nat)
    requires Fits(stage, rs) && PartDrained(base, mid, stage, rs) && pos + k <= |stage|
    requires forall p :: pos <= p < pos + k ==> Covers(rs, p)
    requires DrainedTo(mid, stage, rs, pos)
    ensures PartDrained(base, WriteAt(mid, pos, stage[pos..pos + k]), stage, rs)
    ensures DrainedTo(WriteAt(mid, pos, stage[pos..pos + k]), stage, rs, pos + k)
  {
    if k > 0 {
      WriteAtByte(mid, pos, stage[pos..pos + k]);
      LastEndBounds(rs);
      assert Covers(rs, pos + k - 1);
    }
  }

  /** Nothing is staged between two neighbouring ranges. */
  lemma SkipGap(base': Content, stage: Content, rs: seq<Range>, i: nat)
    requires Separated(rs) && i < |rs|
    requires DrainedTo(base', stage, rs, if i == 0 then 0 else rs[i - 1].end)
    ensures DrainedTo(base', stage, rs, rs[i].start)
  {
    forall p: nat | Covers(rs, p) && p < rs[i].start ensures p < (if i == 0 then 0 else rs[i - 1].end) {
      var j :| 0 <= j < |rs| && rs[j].start <= p < rs[j].end;
    }
  }

  // ---- what a crash would leave ------------------------------------------------

  /** `rs` names no byte that `all` does not. */
  ghost predicate Within(rs: seq<Range>, all: seq<Range>)
  {
    Separated(rs) && forall p :: Covers(rs, p) ==> Covers(all, p)
  }

  /** From `saved` on the way to `text`: every byte is one of the two, and what it has grown by
      is of `text`. */
  ghost predicate Between(saved: Content, text: Content, saved': Content)
  {
    && |saved| <= |saved'| <= |text|
    && forall p :: 0 <= p < |saved'| ==> saved'[p] == text[p] || (p < |saved| && saved'[p] == saved[p])
  }

  lemma BetweenTrans(a: Content, text: Content, b: Content, c: Content)
    requires Between(a, text, b) && Between(b, text, c)
    ensures Between(a, text, c)
  {
  }

  lemma BetweenSame(text: Content, saved: Content)
    requires Between(text, text, saved)
    ensures saved == text
  {
  }

  lemma WithinFits(stage: Content, rs: seq<Range>, rec: seq<Range>)
    requires Fits(stage, rs) && Within(rec, rs)
    ensures Fits(stage, rec) && LastEnd(rec) <= LastEnd(rs)
    ensures rs == [] ==> rec == []
  {
    LastEndBounds(rs);
    LastEndBounds(rec);
  }

  lemma SavedShorter(base: Content, stage: Content, rs: seq<Range>, rec: seq<Range>)
    requires Fits(stage, rs) && Within(rec, rs)
    ensures Between(Whole(base, stage, rec), Whole(base, stage, rs), Whole(base, stage, rec))
    ensures Between(Whole(base, stage, rec), Whole(base, stage, rs), Whole(base, stage, rs))
  {
    WithinFits(stage, rs, rec);
    var saved, text := Whole(base, stage, rec), Whole(base, stage, rs);
    forall p | 0 <= p < |saved| ensures saved[p] == ByteAt(base, stage, rec, p) {}
  }

  /** A drain stopped part way, with only some ranges on record: a crash now leaves bytes of
      what it would have left before, and bytes clients wrote. */
  lemma SavedAfterPartDrain(base: Content, base': Content, stage: Content, rs: seq<Range>, rec: seq<Range>)
    requires Fits(stage, rs) && Within(rec, rs) && PartDrained(base, base', stage, rs)
    ensures Between(Whole(base, stage, rec), Whole(base, stage, rs), Whole(base', stage, rec))
  {
    WithinFits(stage, rs, rec);
    LastEndBounds(rec);
    var saved, text, saved' := Whole(base, stage, rec), Whole(base, stage, rs), Whole(base', stage, rec);
    forall p | 0 <= p < |saved'| ensures saved'[p] == text[p] || (p < |saved| && saved'[p] == saved[p]) {
      assert saved'[p] == ByteAt(base', stage, rec, p) && text[p] == ByteAt(base, stage, rs, p);
      if p < |saved| { assert saved[p] == ByteAt(base, stage, rec, p); }
    }
  }

  /** A staged write that did not get on record: likewise. */
  lemma SavedAfterStagedWrite(base: Content, stage: Content, rs: seq<Range>, rec: seq<Range>, pos: nat, data: Content, rs': seq<Range>)
    requires Fits(stage, rs) && Within(rec, rs) && data != [] && Extends(rs, pos, pos + |data|, rs')
    ensures Within(rec, rs')
    ensures Between(Whole(base, stage, rec), WriteAt(Whole(base, stage, rs), pos, data), Whole(base, WriteAt(stage, pos, data), rec))
  {
    var stage' := WriteAt(stage, pos, data);
    WithinFits(stage, rs, rec);
    LastEndBounds(rec);
    WriteAtByte(stage, pos, data);
    WriteAtByte(Whole(base, stage, rs), pos, data);
    var saved, text, saved' := Whole(base, stage, rec), WriteAt(Whole(base, stage, rs), pos, data), Whole(base, stage', rec);
    forall p | 0 <= p < |saved'| ensures saved'[p] == text[p] || (p < |saved| && saved'[p] == saved[p]) {
      assert saved'[p] == ByteAt(base, stage', rec, p) && saved[p] == ByteAt(base, stage, rec, p);
    }
  }

  /** A write changes no byte that is on record. */
  ghost predicate Harmless(text: Content, rec: seq<Range>, pos: nat, data: Content)
  {
    forall p :: pos <= p < pos + |data| && Covers(rec, p) ==> p < |text| && data[p - pos] == text[p]
  }

  /** A sidecar and a stage file that outlive their drain: replayed over a newer write to the
      base file they are harmless exactly when that write changed no recorded byte. */
  lemma StaleRecordIff(base: Content, stage: Content, rs: seq<Range>, pos: nat, data: Content)
    requires Fits(stage, rs) && base == Whole(base, stage, rs)
    ensures Whole(WriteAt(base, pos, data), stage, rs) == WriteAt(base, pos, data) <==> Harmless(base, rs, pos, data)
  {
    LastEndBounds(rs);
    WriteAtByte(base, pos, data);
    var newer := WriteAt(base, pos, data);
    var replayed := Whole(newer, stage, rs);
    forall p: nat | Covers(rs, p) ensures p < |base| && p < |stage| && base[p] == stage[p] {
      assert Whole(base, stage, rs)[p] == ByteAt(base, stage, rs, p);
    }
    assert |replayed| == |newer|;
    forall p: nat | p < |newer| ensures replayed[p] == if Covers(rs, p) then stage[p] else newer[p] {
      assert replayed[p] == ByteAt(newer, stage, rs, p);
    }
    if replayed == newer {
      forall p | pos <= p < pos + |data| && Covers(rs, p) ensures p < |base| && data[p - pos] == base[p] {
        assert newer[p] == data[p - pos];
      }
    }
  }

  /** The base file has every recorded byte of the stage file. */
  ghost predicate Agrees(base: Content, stage: Content, rs: seq<Range>)
  {
    LastEnd(rs) <= |base| && forall p: nat :: Covers(rs, p) && p < |stage| && p < |base| ==> base[p] == stage[p]
  }

  /** For any base file, whatever has become of it since: replaying a record over it is harmless
      exactly when it is not shorter than the record and agrees with the stage file there. */
  lemma RecordHarmlessIff(base: Content, stage: Content, rs: seq<Range>)
    requires Separated(rs)
    ensures Whole(base, stage, rs) == base <==> Agrees(base, stage, rs)
  {
    LastEndBounds(rs);
    var replayed := Whole(base, stage, rs);
    if Agrees(base, stage, rs) {
      forall p | 0 <= p < |base| ensures replayed[p] == base[p] {
        assert replayed[p] == ByteAt(base, stage, rs, p);
      }
    }
    if replayed == base {
      forall p: nat | Covers(rs, p) && p < |stage| && p < |base| ensures base[p] == stage[p] {
        assert replayed[p] == ByteAt(base, stage, rs, p);
      }
    }
  }
}
