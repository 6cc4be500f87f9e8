/** A regular file of a cache-mode pool: the base file on the slowest tier, byte ranges of
    newer data staged on the fastest tier, and a disposable replica of base chunks that
    serves reads (src/smoothfs/file.c, src/smoothfs/super.c).

    Each operation is one atomic step. What may go wrong in it is an argument: `fault` lets any
    open, copy or sync fail or fall short at any point, and without it the operation has to
    succeed. `Abs` is the plain file that every operation is proved to be an operation on. */
module CacheFile {
  import opened Bytes
  import opened Ranges
  import opened Overlay
  import Sidecar

  const CHUNK: nat := 256 * 1024

  /** What goes wrong in a call: anything that reads, writes or syncs; the unlink of the stage
      file when a drain is over; the removal of the sidecar after it, which the code does not
      look at. */
  datatype Io = Io(fault: bool, unlinkFails: bool, clearFails: bool)
  {
    predicate Good() { !fault && !unlinkFails }
  }

  /** Whether a write can be staged: staging may be off or the fastest tier near its limit, or
      it may turn out full when the bytes are to be written. */
  datatype Room = NotStaged | Full | Roomy

  datatype Status = Done | Fault | NoSpace

  /** A plain file: what clients have written, the size of its inode, what a crash now would
      leave of it, whether part of it is staged or mapped, and two lengths on disk: the base
      file's, and where the recorded ranges end. */
  datatype Plain = Plain(text: Content, size: nat, saved: Content, staged: bool, mapped: bool, base: nat, recorded: int)

  /** How the lengths hang together. */
  predicate Sized(p: Plain)
  {
    && p.size <= |p.text| && p.base <= |p.text| && (!p.staged ==> p.base == |p.text|)
    && |p.saved| == if p.recorded > p.base then p.recorded else p.base
  }

  /** Reads end at the inode's size while anything is staged, at the file's end otherwise. */
  function Seen(p: Plain): Content
  {
    if p.staged && p.size <= |p.text| then p.text[..p.size] else p.text
  }

  /** A step that at most copies staged bytes back. */
  ghost predicate Drained(p: Plain, p': Plain, ok: bool)
  {
    && p'.text == p.text && p'.size == p.size && p'.mapped == p.mapped && (p'.staged ==> p.staged)
    && p.base <= p'.base && (ok ==> !p'.staged)
  }

  /** What such a step leaves for a crash. */
  ghost predicate DrainSaves(p: Plain, p': Plain, ok: bool)
  {
    Between(p.saved, p'.text, p'.saved) && (ok ==> p'.saved == p'.text)
  }

  /** Where a write goes. */
  function WritePos(p: Plain, pos: nat, append: bool, onStage: bool): nat
  {
    if !append then pos else if onStage then p.size else |p.text|
  }

  /** A write of which `n` bytes landed. */
  ghost predicate Wrote(p: Plain, p': Plain, at: nat, data: Content, n: nat, onStage: bool)
  {
    && n <= |data|
    && p'.text == WriteAt(p.text, at, data[..n]) && p'.mapped == p.mapped
    && p'.size == (if n == 0 then p.size
                   else if !onStage then |p'.text|
                   else if at + n > p.size then at + n else p.size)
    && (n == 0 ==> (p'.staged ==> p.staged))
    && (n > 0 && !onStage ==> !p'.staged)
  }

  /** What a write leaves for a crash: all of it if it was acknowledged or is in the base file. */
  ghost predicate WriteSaves(p: Plain, p': Plain, n: nat, safe: bool)
  {
    Between(p.saved, p'.text, p'.saved) && (n > 0 && safe ==> p'.saved == p'.text)
  }

  /** Whether a write is staged. */
  predicate OnStage(p: Plain, direct: bool, room: Room)
  {
    room == Roomy && !direct && !p.mapped
  }

  /** What a write may answer and do. */
  ghost predicate WriteReply(p: Plain, p': Plain, pos: nat, data: Content, append: bool, direct: bool, sync: bool, room: Room,
                             ok: bool, landed: nat)
  {
    var on := OnStage(p, direct, room);
    && Wrote(p, p', WritePos(p, pos, append, on), data, landed, on)
    && (landed > 0 && on && !sync ==> p'.staged)
    && (landed > 0 && sync && ok ==> !p'.staged)
    && (p.staged && direct ==> !ok && landed == 0 && p' == p)
  }

  /** A write to the base file, of which `n` bytes landed; the inode's size has yet to follow. */
  ghost predicate BaseWrote(p: Plain, p': Plain, at: nat, data: Content, n: nat)
  {
    && n <= |data| && p'.text == WriteAt(p.text, at, data[..n]) && p'.size == p.size && p'.mapped == p.mapped
    && (p'.staged ==> p.staged) && (n > 0 ==> !p'.staged)
  }

  /** The pool-wide counter of staged bytes. */
  class StagingPool {
    var rangeStagedBytes: int

    constructor ()
      ensures rangeStagedBytes == 0
    {
      rangeStagedBytes := 0;
    }

    /** smoothfs_write_staging_note_range_write. */
    method Add(bytes: int)
      modifies this
      ensures rangeStagedBytes == old(rangeStagedBytes) + if bytes < 0 then 0 else bytes
    {
      if bytes < 0 { return; }
      rangeStagedBytes := rangeStagedBytes + bytes;
    }
  }

  /** Every chunk the replica vouches for is the base file's chunk, whole. */
  ghost predicate Coherent(base: Content, replica: Content, chunks: map<nat, nat>)
  {
    forall i :: i in chunks ==>
      && ReadAt(base, i * CHUNK, CHUNK) != []
      && chunks[i] == |ReadAt(base, i * CHUNK, CHUNK)|
      && ReadAt(replica, i * CHUNK, chunks[i]) == ReadAt(base, i * CHUNK, CHUNK)
  }

  class File {
    const pool: StagingPool
    var base: Content
    var stage: Content           // the stage file; only its staged ranges are read
    var stageThere: bool         // whether the stage file has a name
    var ranges: seq<Range>
    var staged: bool
    var size: nat                // the inode's own size
    var writeSeq: nat
    var replica: Content
    var chunks: map<nat, nat>    // chunk index to valid length
    var cacheSeq: nat
    var gen: nat                 // counts cutovers to this base file
    var cacheGen: nat
    var mapped: bool             // a writable shared mapping of the base file exists
    var sidecar: Option<seq<Range>>

    ghost predicate StageOk()
      reads this`base, this`stage, this`stageThere, this`ranges, this`staged, this`size, this`mapped
    {
      && Fits(stage, ranges)
      && (staged <==> ranges != []) && (staged ==> stageThere)
      && size <= Length(base, ranges)
      && (mapped ==> !staged)
    }

    /** While anything is staged the replica must be out of date or empty, because a drain
        will rewrite the base file without a new write sequence. */
    ghost predicate CacheOk()
      reads this`base, this`staged, this`mapped, this`writeSeq, this`replica, this`chunks, this`cacheSeq, this`gen, this`cacheGen
    {
      && cacheSeq <= writeSeq && cacheGen <= gen
      && (mapped || (staged && cacheSeq == writeSeq && cacheGen == gen) ==> chunks == map[])
      && (!staged && !mapped && cacheSeq == writeSeq && cacheGen == gen ==> Coherent(base, replica, chunks))
    }

    /** What of it does not speak of the base file's bytes. */
    ghost predicate CacheBound()
      reads this`mapped, this`writeSeq, this`chunks, this`cacheSeq, this`gen, this`cacheGen
    {
      cacheSeq <= writeSeq && cacheGen <= gen && (mapped ==> chunks == map[])
    }

    ghost predicate SidecarOk()
      reads this`sidecar
    {
      sidecar.Some? ==> sidecar.value != [] && Separated(sidecar.value)
    }

    ghost predicate Sound()
      reads this
    {
      StageOk() && CacheOk() && SidecarOk()
    }

    /** The sidecar names no byte that is not staged. */
    ghost predicate Live()
      reads this`sidecar, this`ranges
    {
      sidecar.Some? ==> Within(sidecar.value, ranges)
    }

    /** The ranges a replay would find: none without the stage file. */
    ghost function Recorded(): seq<Range>
      reads this`sidecar, this`stageThere
    {
      if sidecar.Some? && stageThere then sidecar.value else []
    }

    lemma RecordedWithin()
      requires SidecarOk() && Live()
      ensures Within(Recorded(), ranges)
    {
    }

    ghost function Text(): Content
      reads this`base, this`stage, this`ranges
    {
      Whole(base, stage, ranges)
    }

    /** What a crash now and the replay after it would leave. */
    ghost function Saved(): Content
      reads this`base, this`stage, this`stageThere, this`sidecar
    {
      Whole(base, stage, Recorded())
    }

    ghost function Abs(): Plain
      reads this`base, this`stage, this`stageThere, this`ranges, this`staged, this`size, this`mapped, this`sidecar
    {
      Plain(Text(), size, Saved(), staged, mapped, |base|, LastEnd(Recorded()))
    }

    /** What of it is on the fastest tier's disk. */
    ghost function Disk(): (Content, bool, Option<seq<Range>>)
      reads this`stage, this`stageThere, this`sidecar
    {
      (stage, stageThere, sidecar)
    }

    lemma SizedNow()
      requires StageOk()
      ensures Sized(Abs())
    {
      WholeLength(base, stage, ranges);
      WholeLength(base, stage, Recorded());
    }

    constructor (pool: StagingPool, base: Content)
      ensures this.pool == pool && Sound() && Live() && ranges == []
      ensures Abs() == Plain(base, |base|, base, false, false, |base|, 0)
    {
      this.pool, this.base := pool, base;
      stage, stageThere, ranges, staged, size, writeSeq := [], false, [], false, |base|, 0;
      replica, chunks, cacheSeq, gen, cacheGen, mapped, sidecar := [], map[], 0, 0, 0, false, None;
      new;
      NothingStaged(base, []);
    }

    // ---- draining ----------------------------------------------------------

    /** smoothfs_write_full: repeated short writes, any of which may fail. */
    method WriteFull(pos: nat, data: Content, fault: bool) returns (ok: bool, done: nat)
      modifies this`base
      ensures done <= |data| && (ok ==> done == |data|) && (!fault ==> ok)
      ensures base == WriteAt(old(base), pos, data[..done])
    {
      ghost var f := base;
      WriteNothing(f, pos, data);
      hide WriteAt;
      done := 0;
      while done < |data|
        invariant done <= |data| && base == WriteAt(f, pos, data[..done])
      {
        var fails := *;
        if fault && fails { return false, done; }
        var n: nat :| done < n <= |data|;
        WriteTwice(f, pos, data, done, n);
        base, done := WriteAt(base, pos + done, data[done..n]), n;
      }
      ok := true;
    }

    /** The inner loop of smoothfs_write_staging_drain_one_range: one range, in chunks. */
    method CopyRange(i: nat, ghost base0: Content, fault: bool) returns (ok: bool, copied: nat)
      requires Fits(stage, ranges) && i < |ranges|
      requires PartDrained(base0, base, stage, ranges) && DrainedTo(base, stage, ranges, ranges[i].start)
      modifies this`base
      ensures PartDrained(base0, base, stage, ranges) && (!fault ==> ok)
      ensures ok ==> DrainedTo(base, stage, ranges, ranges[i].end) && copied == ranges[i].end - ranges[i].start
    {
      hide PartDrained, DrainedTo, Covers, WriteAt;
      copied := 0;
      var r := ranges[i];
      var pos: nat := r.start;
      InLast(ranges, i);
      while pos < r.end
        invariant r.start <= pos <= r.end
        invariant PartDrained(base0, base, stage, ranges)
        invariant DrainedTo(base, stage, ranges, pos)
        invariant copied == pos - r.start
      {
        var fails := *;
        if fault && fails { return false, copied; }
        var want := if r.end - pos < CHUNK then r.end - pos else CHUNK;
        var n: nat :| 0 < n <= want;
        ghost var before := base;
        var done;
        ok, done := WriteFull(pos, stage[pos..pos + n], fault);
        assert stage[pos..pos + n][..done] == stage[pos..pos + done];
        CopyStretch(base0, before, stage, ranges, pos, done);
        if !ok { return; }
        pos, copied := pos + n, copied + n;
      }
      ok := true;
    }

    /** Its outer loop: every range, in order. */
    method CopyBack(fault: bool) returns (ok: bool, drained: nat)
      requires Fits(stage, ranges)
      modifies this`base
      ensures PartDrained(old(base), base, stage, ranges) && (!fault ==> ok)
      ensures ok ==> DrainedTo(base, stage, ranges, LastEnd(ranges)) && drained == StagedBytes(ranges)
    {
      drained := 0;
      assert PartDrained(base, base, stage, ranges) && DrainedTo(base, stage, ranges, 0);
      hide PartDrained, DrainedTo, Covers;
      var i := 0;
      while i < |ranges|
        invariant 0 <= i <= |ranges|
        invariant PartDrained(old(base), base, stage, ranges)
        invariant DrainedTo(base, stage, ranges, if i == 0 then 0 else ranges[i - 1].end)
        invariant drained == StagedBytes(ranges[..i])
      {
        assert ranges[..i + 1][..i] == ranges[..i];
        SkipGap(base, stage, ranges, i);
        var copied;
        ok, copied := CopyRange(i, old(base), fault);
        if !ok { return; }
        drained := drained + copied;
        i := i + 1;
      }
      assert ranges[..i] == ranges;
      ok := true;
    }

    /** The copies and their sync, on a file with staged ranges. */
    method CopyAndSync(fault: bool) returns (ok: bool, drained: nat)
      requires Sound() && staged
      modifies this`base
      ensures Sound() && Text() == old(Text()) && |old(base)| <= |base| && (!fault ==> ok)
      ensures ok ==> base == Text() && drained == StagedBytes(ranges)
      ensures Live() ==> Between(old(Saved()), Text(), Saved())
    {
      if Live() { RecordedWithin(); SavedShorter(base, stage, ranges, Recorded()); }
      hide Covers, Separated, Coherent, StagedBytes, Whole, Between, PartDrained, DrainedTo, Within;
      drained := 0;
      var fails := *;
      if fault && fails { return false, 0; }
      ok, drained := CopyBack(fault);
      PartDrainInvisible(old(base), base, stage, ranges);
      PartDrainGrows(old(base), base, stage, ranges);
      if Live() { SavedAfterPartDrain(old(base), base, stage, ranges, Recorded()); }
      if ok { FullDrain(old(base), base, stage, ranges); }
      fails := *;
      if fault && fails { ok := false; }
    }

    /** The end of a drain: the ranges go, then the stage file, then the sidecar. */
    method Clear(drained: nat, io: Io) returns (ok: bool)
      requires Sound() && staged && base == Text() && drained == StagedBytes(ranges)
      modifies this`stage, this`stageThere, this`ranges, this`staged, this`sidecar, pool
      ensures Sound() && ranges == [] && Text() == base
      ensures ok == !io.unlinkFails
      ensures sidecar == if io.clearFails then old(sidecar) else None
      ensures io.unlinkFails ==> stage == old(stage) && stageThere
      ensures !io.clearFails ==> Live() && Saved() == base
      ensures pool.rangeStagedBytes - StagedBytes(ranges) == old(pool.rangeStagedBytes - StagedBytes(ranges))
    {
      hide Covers, Coherent;
      ranges, staged := [], false;
      ok := !io.unlinkFails;
      if ok { stage, stageThere := [], false; }
      if !io.clearFails { sidecar := None; }
      NothingStaged(base, stage);
      NoChunks(base, replica);
      pool.rangeStagedBytes := pool.rangeStagedBytes - drained;
    }

    /** smoothfs_write_staging_drain_inode, for any sound file, whatever its inode's size: what
        clients have written stays, complete or not. */
    method Drain(io: Io) returns (ok: bool)
      requires Sound()
      modifies this`base, this`stage, this`stageThere, this`ranges, this`staged, this`sidecar, pool
      ensures Sound() && Drained(old(Abs()), Abs(), ok) && (io.Good() ==> ok)
      ensures ok ==> ranges == [] && base == Text()
      ensures old(Live()) && !io.clearFails ==> Live() && DrainSaves(old(Abs()), Abs(), ok)
      ensures !old(staged) ==> ok && !staged && Abs() == old(Abs()) && Disk() == old(Disk())
      ensures old(staged) && !io.fault ==> ranges == [] && (io.unlinkFails ==> stage == old(stage) && stageThere)
      ensures old(staged) && !io.fault && io.clearFails ==> sidecar == old(sidecar)
      ensures pool.rangeStagedBytes - StagedBytes(ranges) == old(pool.rangeStagedBytes - StagedBytes(ranges))
    {
      if !staged {
        NothingStaged(base, stage);
        if Live() { NothingRecorded(); }
        return true;
      }
      if Live() { RecordedWithin(); SavedShorter(base, stage, ranges, Recorded()); }
      hide StageOk, CacheOk, SidecarOk, StagedBytes, Whole, Between, Within;
      var drained;
      ok, drained := CopyAndSync(io.fault);
      if !ok { return; }
      BetweenText(Text());
      ok := Clear(drained, io);
    }

    /** With nothing staged, a live sidecar records nothing: a crash leaves the file as it is. */
    lemma NothingRecorded()
      requires StageOk() && SidecarOk() && Live() && !staged
      ensures Recorded() == [] && Saved() == Text() == base && Between(Saved(), Text(), Saved())
    {
      RecordedWithin();
      WithinFits(stage, ranges, Recorded());
      NothingStaged(base, stage);
    }

    // ---- writing -----------------------------------------------------------

    /** The bytes are in the stage file: record their range, the size and the counter. */
    method NoteStaged(at: nat, data: Content)
      requires StageOk() && SidecarOk() && stageThere && !mapped && data != []
      modifies this`stage, this`ranges, this`staged, this`size, pool
      ensures StageOk() && SidecarOk() && staged
      ensures Text() == WriteAt(old(Text()), at, data)
      ensures size == if at + |data| > old(size) then at + |data| else old(size)
      ensures old(Live()) ==> Live() && Between(old(Saved()), Text(), Saved())
      ensures pool.rangeStagedBytes - StagedBytes(ranges) == old(pool.rangeStagedBytes - StagedBytes(ranges))
    {
      hide WriteAt, Whole, Covers, Separated, StagedBytes, Between, Within, Extends, CountsNew, Fits, Length;
      FitsSeparated(stage, ranges);
      WholeLength(base, stage, ranges);
      if Live() { RecordedWithin(); }
      ghost var rec := Recorded();
      var before := ranges;
      ranges := Record(ranges, at, at + |data|);
      StagedAll(base, stage, before, rec, at, data, ranges);
      stage := WriteAt(stage, at, data);
      staged := true;
      size := if at + |data| > size then at + |data| else size;
      pool.Add(StagedBytes(ranges) - StagedBytes(before));
    }

    /** smoothfs_range_staging_persist, whose bytes are in Sidecar. */
    method Persist(fault: bool) returns (ok: bool)
      requires StageOk() && staged
      modifies this`sidecar
      ensures sidecar == if ok then Some(ranges) else old(sidecar)
      ensures |ranges| > Sidecar.MAX_RANGES ==> !ok
      ensures !ok ==> fault || |ranges| > Sidecar.MAX_RANGES
      ensures old(SidecarOk()) ==> SidecarOk()
      ensures ok ==> Live() && Saved() == Text()
    {
      if |ranges| > Sidecar.MAX_RANGES { return false; }
      var fails := *;
      if fault && fails { return false; }
      sidecar := Some(ranges);
      ok := true;
    }

    /** The part of smoothfs_range_stage_write after bytes have reached the stage file. A write
        that could not be recorded in the sidecar keeps its range and gets a write sequence. */
    method StageBytes(at: nat, data: Content, fault: bool) returns (ok: bool)
      requires StageOk() && SidecarOk() && CacheBound() && stageThere && !mapped && data != []
      modifies this`stage, this`ranges, this`staged, this`size, this`writeSeq, this`sidecar, pool
      ensures StageOk() && SidecarOk() && CacheBound() && (!ok ==> CacheOk())
      ensures staged && Text() == WriteAt(old(Text()), at, data)
      ensures size == if at + |data| > old(size) then at + |data| else old(size)
      ensures !ok ==> fault || |ranges| > Sidecar.MAX_RANGES
      ensures writeSeq == if ok then old(writeSeq) else old(writeSeq) + 1
      ensures old(Live()) ==> Live() && Between(old(Saved()), Text(), Saved())
      ensures ok ==> Saved() == Text()
      ensures pool.rangeStagedBytes - StagedBytes(ranges) == old(pool.rangeStagedBytes - StagedBytes(ranges))
    {
      hide WriteAt, Whole, Fits, StagedBytes, Between, Within;
      NoteStaged(at, data);
      ghost var saved := Saved();
      ok := Persist(fault);
      if ok {
        if old(Live()) { BetweenEnd(old(Saved()), Text(), saved); }
      } else {
        writeSeq := writeSeq + 1;
      }
    }

    /** smoothfs_range_stage_write. An append goes to the inode's size. The caller gives a write
        that succeeds its write sequence. */
    method StageWrite(pos: nat, data: Content, append: bool, full: bool, fault: bool) returns (status: Status, n: nat)
      requires Sound() && !mapped
      modifies this`stage, this`stageThere, this`ranges, this`staged, this`size, this`writeSeq, this`sidecar, pool
      ensures StageOk() && SidecarOk() && CacheBound()
      ensures (n == 0 || status == Fault ==> Sound()) && (n > 0 ==> staged)
      ensures Wrote(old(Abs()), Abs(), WritePos(old(Abs()), pos, append, true), data, n, true)
      ensures status == NoSpace ==> n == 0 && full
      ensures full ==> n == 0
      ensures full && !fault ==> status == NoSpace
      ensures !full && !fault ==> n == |data| && (status == Done || |ranges| > Sidecar.MAX_RANGES)
      ensures writeSeq == if status == Fault && n > 0 then old(writeSeq) + 1 else old(writeSeq)
      ensures old(Live()) ==> Live() && WriteSaves(old(Abs()), Abs(), n, status == Done)
      ensures n == 0 ==> staged == old(staged)
      ensures pool.rangeStagedBytes - StagedBytes(ranges) == old(pool.rangeStagedBytes - StagedBytes(ranges))
    {
      hide WriteAt, Whole, Fits, Coherent, StagedBytes, Between, Within, Separated, CacheOk;
      SavedNow();
      CacheBounded();
      var at := if append then size else pos;
      WriteNothing(Text(), at, data);
      var there;
      there, status, n := StageAttempt(|data|, full, fault);
      if there { OpenStage(); }
      if n == 0 { return; }
      hide Live, Saved, Text, SidecarOk, StageOk, CacheOk;
      var ok := StageBytes(at, data[..n], fault);
      if !ok { status := Fault; }
    }

    /** How far opening and writing the stage file gets. */
    method StageAttempt(len: nat, full: bool, fault: bool) returns (there: bool, status: Status, n: nat)
      ensures n <= len && (n > 0 ==> there && status == Done) && (full ==> n == 0)
      ensures status == NoSpace ==> full
      ensures !fault ==> there && (if full then status == NoSpace else status == Done && n == len)
    {
      var fails := *;
      if fault && fails { return false, Fault, 0; }
      fails := *;
      if fault && fails { return true, Fault, 0; }
      if full { return true, NoSpace, 0; }
      n := len;
      if fault { n :| 0 <= n <= len; }
      return true, Done, n;
    }

    /** smoothfs_range_stage_open_locked. */
    method OpenStage()
      requires Sound()
      modifies this`stageThere
      ensures Sound() && stageThere && Text() == old(Text())
      ensures old(Live()) ==> Live() && Saved() == old(Saved())
    {
      if Live() && !staged { NothingRecorded(); }
      stageThere := true;
      if Live() && !staged { NothingRecorded(); }
    }

    /** A write to the base file; it may fail or fall short. */
    method BaseWrite(pos: nat, data: Content, append: bool, fault: bool) returns (status: Status, n: nat)
      modifies this`base
      ensures n <= |data| && (status != Done ==> n == 0) && status != NoSpace && (!fault ==> status == Done && n == |data|)
      ensures base == WriteAt(old(base), if append then |old(base)| else pos, data[..n])
    {
      n := 0;
      WriteNothing(base, if append then |base| else pos, data);
      var fails := *;
      if fault && fails { return Fault, 0; }
      n := |data|;
      if fault { n :| 0 <= n <= |data|; }
      base := WriteAt(base, if append then |base| else pos, data[..n]);
      status := Done;
    }

    lemma BaseIsText()
      requires StageOk() && !staged
      ensures base == Text()
    {
      NothingStaged(base, stage);
    }

    /** Drain, then write the base file. The caller gives the write its sequence and its size. */
    method DrainAndWrite(pos: nat, data: Content, append: bool, io: Io) returns (status: Status, n: nat)
      requires Sound()
      modifies this`base, this`stage, this`stageThere, this`ranges, this`staged, this`sidecar, pool
      ensures (if status == Done then !staged else n == 0) && (io.Good() ==> status == Done && n == |data|)
      ensures StageOk() && SidecarOk() && CacheBound() && (n == 0 ==> Sound())
      ensures BaseWrote(old(Abs()), Abs(), WritePos(old(Abs()), pos, append, false), data, n)
      ensures !old(staged) ==> Disk() == old(Disk()) && !staged
      ensures old(Live()) && !io.clearFails ==> Live() && WriteSaves(old(Abs()), Abs(), n, true)
      ensures pool.rangeStagedBytes - StagedBytes(ranges) == old(pool.rangeStagedBytes - StagedBytes(ranges))
    {
      hide WriteAt, Whole, Fits, Separated, Coherent, StagedBytes, Between, Within;
      n := 0;
      ghost var text, saved := Text(), Saved();
      WriteNothing(text, if append then |text| else pos, data);
      var drained := Drain(io);
      if !drained { return Fault, 0; }
      ghost var mid := Saved();
      status, n := BaseWrite(pos, data, append, io.fault);
      WriteGrows(text, if append then |text| else pos, data[..n]);
      NothingStaged(base, stage);
      NothingFits(stage);
      if old(Live()) && !io.clearFails {
        NothingRecorded();
        BetweenGrow(saved, text, mid, Text());
      }
    }

    /** A write that is not staged, or cannot be because the fastest tier is full. */
    method FullWrite(pos: nat, data: Content, append: bool, full: bool, io: Io) returns (status: Status, n: nat)
      requires Sound() && (full ==> !mapped)
      modifies this`base, this`stage, this`stageThere, this`ranges, this`staged, this`size, this`writeSeq, this`sidecar, pool
      ensures (status != Done ==> n == 0) && (io.Good() ==> status == Done && n == |data|)
      ensures StageOk() && SidecarOk() && CacheBound() && (n == 0 ==> Sound())
      ensures BaseWrote(old(Abs()), Abs(), WritePos(old(Abs()), pos, append, false), data, n)
      ensures !old(staged) && !full ==> Disk() == old(Disk()) && !staged
      ensures old(Live()) && !io.clearFails ==> Live() && WriteSaves(old(Abs()), Abs(), n, true)
      ensures pool.rangeStagedBytes - StagedBytes(ranges) == old(pool.rangeStagedBytes - StagedBytes(ranges))
    {
      hide Sound, StageOk, SidecarOk, CacheOk, CacheBound, Live, Abs, Wrote, BaseWrote, WriteSaves, StagedBytes;
      ghost var p := Abs();
      if !full {
        status, n := DrainAndWrite(pos, data, append, io);
        return;
      }
      status, n := StageWrite(pos, data, append, true, io.fault);
      ghost var q := Abs();
      NoneStaged(p, q, pos, append, data, status);
      if status != NoSpace { return Fault, 0; }
      status, n := DrainAndWrite(pos, data, append, io);
      NoneStagedThen(p, q, Abs(), pos, append, data, n);
    }

    /** The drain and sync of a synchronous write. */
    method SyncNow(io: Io) returns (ok: bool)
      requires Sound()
      modifies this`base, this`stage, this`stageThere, this`ranges, this`staged, this`sidecar, pool
      ensures Sound() && Drained(old(Abs()), Abs(), ok) && (io.Good() ==> ok)
      ensures !old(staged) ==> Abs() == old(Abs()) && Disk() == old(Disk()) && !staged
      ensures old(Live()) && !io.clearFails ==> Live() && DrainSaves(old(Abs()), Abs(), ok)
      ensures pool.rangeStagedBytes - StagedBytes(ranges) == old(pool.rangeStagedBytes - StagedBytes(ranges))
    {
      hide Sound, Live, Abs, Between, StagedBytes;
      ok := Drain(io);
      var fails := *;
      if io.fault && fails { ok := false; }
    }

    lemma SavedNow()
      requires Sound()
      ensures Live() ==> WriteSaves(Abs(), Abs(), 0, true)
    {
      if Live() { RecordedWithin(); SavedShorter(base, stage, ranges, Recorded()); }
    }

    /** A write that landed gets its write sequence, and a size if it is in the base file. */
    method Acknowledge()
      requires StageOk() && SidecarOk() && CacheBound()
      modifies this`writeSeq, this`size
      ensures Sound() && Abs() == old(Abs()).(size := if staged then old(size) else |old(Text())|)
    {
      hide Whole, Fits, Coherent, Separated;
      writeSeq := writeSeq + 1;
      if !staged {
        BaseIsText();
        size := |base|;
      }
    }

    /** smoothfs_write_iter. `landed` is how much of the data is in the file afterwards, and
        the count the caller gets unless the reply is an error. */
    method Write(pos: nat, data: Content, append: bool, direct: bool, sync: bool, room: Room, io: Io)
      returns (ok: bool, landed: nat)
      requires Sound()
      modifies this`base, this`stage, this`stageThere, this`ranges, this`staged, this`size, this`writeSeq, this`sidecar, pool
      ensures Sound()
      ensures WriteReply(old(Abs()), Abs(), pos, data, append, direct, sync, room, ok, landed)
      ensures old(Live()) && !io.clearFails ==>
                Live() && WriteSaves(old(Abs()), Abs(), landed, ok || !OnStage(old(Abs()), direct, room))
      ensures !old(staged) && room == NotStaged ==> Disk() == old(Disk()) && !staged
      ensures io.Good() && !(old(staged) && direct) ==> landed == |data| && (ok || |ranges| > Sidecar.MAX_RANGES)
      ensures pool.rangeStagedBytes - StagedBytes(ranges) == old(pool.rangeStagedBytes - StagedBytes(ranges))
    {
      hide Sound, StageOk, SidecarOk, CacheOk, CacheBound, Live, Text, Saved, Wrote, BaseWrote, WriteSaves, StagedBytes, WriteReply,
           Drained, DrainSaves;
      ghost var p := Abs();
      if staged && direct {
        RefusedReply(p, pos, data, append, sync, room);
        SavedNow();
        return false, 0;
      }
      var status;
      if room == Roomy && !direct && !mapped {
        status, landed := StageWrite(pos, data, append, false, io.fault);
      } else {
        status, landed := FullWrite(pos, data, append, room == Full && !direct && !mapped, io);
      }
      ok := status == Done;
      ghost var q := Abs();
      if ok && landed > 0 { Acknowledge(); }
      ghost var r := Abs();
      if ok && landed > 0 && sync { ok := SyncNow(io); }
      WriteComposes(p, q, r, Abs(), pos, data, append, direct, sync, room, status == Done, ok, landed);
      if old(Live()) && !io.clearFails { WriteComposesSaves(p, q, r, Abs(), landed, status == Done, ok, direct, sync, room); }
    }

    /** A size change through smoothfs_setattr: drain, resize the base file, take its size. */
    method Truncate(n: nat, io: Io) returns (ok: bool)
      requires Sound()
      modifies this`base, this`stage, this`stageThere, this`ranges, this`staged, this`size, this`writeSeq, this`sidecar, pool
      ensures Sound() && (io.Good() ==> ok)
      ensures !ok ==> Drained(old(Abs()), Abs(), false)
      ensures !old(staged) ==> Disk() == old(Disk())
      ensures ok ==> Text() == Resize(old(Text()), n) && size == n && !staged && mapped == old(mapped)
      ensures old(Live()) && !io.clearFails ==>
                Live() && if ok then Saved() == Text() else DrainSaves(old(Abs()), Abs(), false)
      ensures pool.rangeStagedBytes - StagedBytes(ranges) == old(pool.rangeStagedBytes - StagedBytes(ranges))
    {
      hide Whole, Fits, Separated, Coherent, StagedBytes, Between, Within;
      ok := Drain(io);
      if !ok { return; }
      var fails := *;
      if io.fault && fails { return false; }
      base := Resize(base, n);
      size := |base|;
      writeSeq := writeSeq + 1;
      NothingStaged(base, stage);
      NothingFits(stage);
      if old(Live()) && !io.clearFails { NothingRecorded(); }
    }

    /** smoothfs_fsync. */
    method Fsync(io: Io) returns (ok: bool)
      requires Sound()
      modifies this`base, this`stage, this`stageThere, this`ranges, this`staged, this`sidecar, pool
      ensures Sound() && Drained(old(Abs()), Abs(), ok) && (ok ==> base == Text()) && (io.Good() ==> ok)
      ensures old(Live()) && !io.clearFails ==> Live() && DrainSaves(old(Abs()), Abs(), ok)
      ensures pool.rangeStagedBytes - StagedBytes(ranges) == old(pool.rangeStagedBytes - StagedBytes(ranges))
    {
      hide Sound, Live, Abs, Between, StagedBytes;
      ok := Drain(io);
      var fails := *;
      if io.fault && fails { ok := false; }
    }

    /** A cutover that commits: the base file is another one with the same bytes. A movement of
        a file with staged ranges does not get this far. */
    method Cutover()
      requires Sound() && !staged && !mapped
      modifies this`gen
      ensures Sound() && cacheGen < gen
    {
      gen := gen + 1;
    }

    // ---- mappings ----------------------------------------------------------

    /** smoothfs_mmap of a shared, writable mapping. */
    method MapShared(io: Io) returns (ok: bool)
      requires Sound()
      modifies this`base, this`stage, this`stageThere, this`ranges, this`staged, this`sidecar, this`mapped, this`replica, this`chunks, pool
      ensures Sound() && (io.Good() ==> ok)
      ensures Drained(old(Abs()), Abs().(mapped := old(mapped)), ok) && mapped == (ok || old(mapped))
      ensures old(Live()) && !io.clearFails ==> Live() && DrainSaves(old(Abs()), Abs(), ok)
      ensures pool.rangeStagedBytes - StagedBytes(ranges) == old(pool.rangeStagedBytes - StagedBytes(ranges))
    {
      hide Whole, Fits, Separated, Coherent, StagedBytes, Between, Within;
      ok := Drain(io);
      if !ok { return; }
      var fails := *;
      if io.fault && fails { return false; }
      if staged { return false; }
      ClearCache();
      fails := *;
      if io.fault && fails { return false; }
      mapped := true;
    }

    /** A store through the mapping, inside the file. */
    method Store(pos: nat, data: Content)
      requires Sound() && mapped && pos + |data| <= |base|
      modifies this`base
      ensures Sound() && Text() == WriteAt(old(Text()), pos, data) && |base| == |old(base)|
      ensures old(Live()) ==> Live() && Saved() == Text()
    {
      hide Fits, Separated, Coherent;
      NothingStaged(base, stage);
      WriteAtByte(base, pos, data);
      base := WriteAt(base, pos, data);
      NothingStaged(base, stage);
      if Live() { NothingRecorded(); }
    }

    /** The last writable mapping goes away. */
    method Unmap()
      requires Sound()
      modifies this`mapped
      ensures Sound() && !mapped
    {
      NoChunks(base, replica);
      hide Coherent;
      mapped := false;
    }

    // ---- reading -----------------------------------------------------------

    /** smoothfs_read_cache_clear. */
    method ClearCache()
      requires Sound()
      modifies this`replica, this`chunks
      ensures Sound() && chunks == map[]
    {
      NoChunks(base, []);
      hide Coherent;
      replica, chunks := [], map[];
    }

    /** smoothfs_range_stage_overlay_locked: staged bytes over what `buf` holds of the file
        from `pos` on. */
    method OverlayStaged(buf: array<Byte>, pos: nat, fault: bool) returns (ok: bool)
      requires Fits(stage, ranges)
      modifies buf
      ensures !fault ==> ok
      ensures ok ==> forall k :: 0 <= k < buf.Length ==>
                       buf[k] == if Covers(ranges, pos + k) then stage[pos + k] else old(buf[k])
    {
      ghost var was := buf[..];
      var i := 0;
      while i < |ranges|
        invariant 0 <= i <= |ranges|
        invariant forall k :: 0 <= k < buf.Length ==>
                    buf[k] == if Covers(ranges[..i], pos + k) && pos + k < |stage| then stage[pos + k] else was[k]
      {
        var r := ranges[i];
        ghost var had := buf[..];
        if r.start >= pos + buf.Length { break; }
        if r.end > pos {
          var fails := *;
          if fault && fails { return false; }
          InLast(ranges, i);
          forall k | 0 <= k < buf.Length && r.start <= pos + k < r.end { buf[k] := stage[pos + k]; }
        }
        forall p | pos <= p < pos + buf.Length
          ensures Covers(ranges[..i + 1], p) <==> Covers(ranges[..i], p) || r.start <= p < r.end
        {
          CoversOneMore(ranges, i, p);
        }
        i := i + 1;
      }
      forall p | pos <= p < pos + buf.Length ensures Covers(ranges, p) <==> Covers(ranges[..i], p) {
        CoversPrefix(ranges, i, p);
      }
      LastEndBounds(ranges);
      ok := true;
    }

    lemma SizeFits()
      requires StageOk()
      ensures size <= |Text()|
    {
      WholeLength(base, stage, ranges);
    }

    /** smoothfs_range_stage_read_iter: chunk by chunk, the base file under the overlay, up to
        the inode's size. */
    method ReadStaged(pos: nat, len: nat, fault: bool) returns (ok: bool, out: Content)
      requires StageOk()
      ensures size <= |Text()| && (!fault ==> ok)
      ensures out <= ReadAt(Text()[..size], pos, len) && (ok ==> out == ReadAt(Text()[..size], pos, len))
    {
      hide Whole, Fits, Length;
      SizeFits();
      out := [];
      while |out| < len && pos + |out| < size
        invariant out <= ReadAt(Text()[..size], pos, len)
        decreases len - |out|
      {
        var at := pos + |out|;
        var want := if len - |out| < CHUNK then len - |out| else CHUNK;
        var avail := if want < size - at then want else size - at;
        var fails := *;
        if fault && fails { return false, out; }
        var lower := base;
        var buf := new Byte[avail](k requires 0 <= k < avail => if at + k < |lower| then lower[at + k] else 0);
        fails := *;
        if fault && fails { return false, out; }
        var good := OverlayStaged(buf, at, fault);
        if !good { return false, out; }
        var n: nat := avail;
        if fault { n :| n <= avail; }
        ReadOn(base, stage, ranges, size, pos, len, out, buf[..], n);
        out := out + buf[..n];
        if n < avail { return false, out; }
      }
      ok := true;
    }

    /** The body of smoothfs_cached_read_iter's loop up to the copy-out: chunk `index` of the
        base file, from the replica if it vouches for it, else from the base file, which
        refreshes the replica if the fastest tier has room. */
    method FetchChunk(index: nat, fault: bool) returns (ok: bool, buf: Content)
      requires Sound() && !staged
      modifies this`replica, this`chunks, this`cacheSeq, this`cacheGen
      ensures Sound() && (ok ==> buf == ReadAt(base, index * CHUNK, CHUNK)) && (!fault ==> ok)
    {
      NoChunks(base, []);
      hide StageOk, SidecarOk, ReadAt, WriteAt;
      if mapped || cacheSeq != writeSeq || cacheGen != gen {
        replica, chunks := [], map[];
        cacheSeq, cacheGen := writeSeq, gen;
      }
      if index in chunks {
        var hit := *;
        if hit {
          buf := ReadAt(replica, index * CHUNK, chunks[index]);
          if |buf| == chunks[index] { return true, buf; }
        }
      }
      var fails := *;
      if fault && fails { return false, []; }
      buf := ReadAt(base, index * CHUNK, CHUNK);
      var store := *;
      if buf != [] && !mapped && store {
        chunks := chunks - {index};
        var n: nat :| n <= |buf|;
        var kept := *;
        StoreChunk(base, replica, chunks, index, buf[..n], n == |buf| && kept);
        replica := WriteAt(replica, index * CHUNK, buf[..n]);
        if n == |buf| && kept { chunks := chunks[index := n]; }
      }
      ok := true;
    }

    /** smoothfs_cached_read_iter. */
    method ReadCached(pos: nat, len: nat, fault: bool) returns (ok: bool, out: Content)
      requires Sound() && !staged
      modifies this`replica, this`chunks, this`cacheSeq, this`cacheGen
      ensures Sound() && (!fault ==> ok)
      ensures out <= ReadAt(base, pos, len) && (ok ==> out == ReadAt(base, pos, len))
    {
      var memory := *;
      if !memory { return true, ReadAt(base, pos, len); }
      hide Sound, ReadAt;
      out := [];
      while |out| < len
        invariant Sound() && out <= ReadAt(base, pos, len) && |out| <= len
        decreases len - |out|
      {
        var index := (pos + |out|) / CHUNK;
        var offset := pos + |out| - index * CHUNK;
        var good, buf := FetchChunk(index, fault);
        if !good { return false, out; }
        ReadPastChunk(base, pos, len, out, index * CHUNK);
        if |buf| <= offset { return true, out; }
        var most := if |buf| - offset < len - |out| then |buf| - offset else len - |out|;
        var n: nat := most;
        if fault { n :| n <= most; }
        ReadChunkOn(base, pos, len, out, index * CHUNK, n);
        out := out + buf[offset..offset + n];
        if n == 0 { return false, out; }
      }
      ReadAll(base, pos, len, out);
      ok := true;
    }

    /** smoothfs_read_iter. */
    method Read(pos: nat, len: nat, direct: bool, fault: bool) returns (ok: bool, out: Content)
      requires Sound()
      modifies this`replica, this`chunks, this`cacheSeq, this`cacheGen
      ensures Sound()
      ensures out <= ReadAt(Seen(Abs()), pos, len) && (ok ==> out == ReadAt(Seen(Abs()), pos, len))
      ensures staged && direct ==> !ok
      ensures !fault && !(staged && direct) ==> ok
    {
      hide Whole, Fits, Coherent, ReadAt;
      if staged && direct { return false, []; }
      if staged {
        ok, out := ReadStaged(pos, len, fault);
      } else {
        NothingStaged(base, stage);
        if !direct {
          ok, out := ReadCached(pos, len, fault);
        } else {
          ok, out := true, ReadAt(base, pos, len);
        }
      }
    }

    // ---- what does not keep the inode's size --------------------------------

    /** smoothfs_splice_write: the base file may grow, the inode's size does not follow. */
    method SpliceWrite(pos: nat, data: Content, io: Io) returns (ok: bool, n: nat)
      requires Sound()
      modifies this`base, this`stage, this`stageThere, this`ranges, this`staged, this`writeSeq, this`sidecar, pool
      ensures Sound() && BaseWrote(old(Abs()), Abs(), pos, data, n)
      ensures (!ok ==> n == 0) && (ok ==> !staged) && (io.Good() ==> ok && n == |data|)
      ensures old(Live()) && !io.clearFails ==> Live() && WriteSaves(old(Abs()), Abs(), n, true)
      ensures pool.rangeStagedBytes - StagedBytes(ranges) == old(pool.rangeStagedBytes - StagedBytes(ranges))
    {
      hide Sound, StageOk, SidecarOk, CacheOk, CacheBound, Live, Abs, BaseWrote, WriteSaves, StagedBytes;
      var status;
      status, n := DrainAndWrite(pos, data, false, io);
      ok := status == Done;
      if n > 0 { NoteDataChange(); }
    }

    /** smoothfs_note_data_change. */
    method NoteDataChange()
      requires StageOk() && SidecarOk() && CacheBound()
      modifies this`writeSeq
      ensures Sound()
    {
      hide StageOk, SidecarOk, Coherent;
      writeSeq := writeSeq + 1;
    }

    /** smoothfs_copy_attrs after link(2) or setting an ACL: the inode takes the base file's
        size, and nothing has been drained first. */
    method CopyAttrs()
      requires Sound()
      modifies this`size
      ensures Sound() && Abs() == old(Abs()).(size := old(Abs()).base)
    {
      hide Whole, Fits;
      size := |base|;
    }

    // ---- crash and remount -------------------------------------------------

    /** The fields of a fresh inode that a replay does not fill in. */
    method FreshInode()
      modifies this`size, this`writeSeq, this`replica, this`chunks, this`cacheSeq, this`gen, this`cacheGen, this`mapped
      ensures CacheOk() && !mapped && size == |base|
    {
      size := |base|;
      writeSeq, replica, chunks, cacheSeq, gen, cacheGen, mapped := 0, [], map[], 0, 0, 0, false;
    }

    /** smoothfs_range_replay_one on a fresh inode: everything in memory is gone, the ranges come
        back from the sidecar if the stage file is there, the size comes from the base file
        alone. What is then in the file is what was saved. */
    method Replay() returns (recovered: int)
      requires Sound()
      modifies this`ranges, this`staged, this`size, this`writeSeq, this`replica, this`chunks, this`cacheSeq, this`gen, this`cacheGen, this`mapped
      ensures ranges == old(Recorded()) && recovered == StagedBytes(ranges)
      ensures Text() == old(Saved()) && Saved() == old(Saved()) && size == |base| && !mapped
      ensures size == |Text()| <==> LastEnd(old(Recorded())) <= |base|
      ensures old(Live()) ==> Live()
      ensures staged <==> old(Recorded()) != []
      ensures Fits(stage, old(Recorded())) ==> Sound()
    {
      if Live() { LiveFound(); }
      hide Covers, Separated, StagedBytes, Coherent, CacheOk, Whole;
      var found := sidecar.Some? && stageThere;
      ranges, staged := if found then sidecar.value else [], found;
      FreshInode();
      recovered := StagedBytes(ranges);
      ReplayLive(ranges);
      WholeLength(base, stage, ranges);
    }

    /** A crash, the replay, and a drain that may fail and be tried again: whatever happens the
        file holds what was saved, and once a drain succeeds it is all in the base file. */
    method RemountAndDrain(io: Io) returns (ok: bool)
      requires Sound() && Live() && pool.rangeStagedBytes == StagedBytes(ranges)
      modifies this, pool
      ensures Sound() && (io.Good() ==> ok)
      ensures Text() == old(Saved()) && (ok ==> base == old(Saved()) && !staged)
      ensures !io.clearFails ==> Live() && Saved() == old(Saved())
      ensures pool.rangeStagedBytes == StagedBytes(ranges)
    {
      LiveFits();
      hide Separated, StagedBytes, Coherent, Whole, Fits, Between, Within;
      ghost var saved := Saved();
      var recovered := Replay();
      pool.rangeStagedBytes := recovered;
      ok := Drain(io);
      if !io.clearFails { BetweenSame(saved, Saved()); }
    }

    lemma LiveFound()
      requires StageOk() && SidecarOk() && Live()
      ensures sidecar.Some? ==> stageThere
    {
      if sidecar.Some? { WithinFits(stage, ranges, sidecar.value); }
    }

    lemma LiveFits()
      requires StageOk() && SidecarOk() && Live()
      ensures Fits(stage, Recorded())
    {
      RecordedWithin();
      WithinFits(stage, ranges, Recorded());
    }

    /** A drain can remove neither the stage file nor the sidecar, and a newer write goes to the
        base file: what a crash would leave is still the file exactly when that write changed no
        byte the sidecar records. */
    method WriteAfterFailedRemoval(pos: nat, data: Content)
      requires Sound() && Live() && staged
      modifies this`base, this`stage, this`stageThere, this`ranges, this`staged, this`writeSeq, this`sidecar, pool
      ensures Sound() && Text() == WriteAt(old(Text()), pos, data)
      ensures Saved() == Text() <==> Harmless(old(Text()), old(Recorded()), pos, data)
    {
      hide Covers, Whole, Fits, Separated, Coherent, StagedBytes, Between, Within, WriteAt, CacheOk, Harmless, Drained, DrainSaves;
      ghost var text, rec := Text(), Recorded();
      LiveFits();
      RecordedWithin();
      LiveFound();
      RecordedDrained(base, stage, ranges, rec);
      StaleRecordIff(text, stage, rec, pos, data);
      WriteGrows(text, pos, data);
      NothingFits(stage);
      var ok := Drain(Io(false, true, true));
      SameText(old(Abs()), Abs(), ok);
      NothingStaged(base, stage);
      CacheBounded();
      var status, landed := BaseWrite(pos, data, false, false);
      assert data[..|data|] == data;
      NothingStaged(base, stage);
      NoteDataChange();
    }

    lemma CacheBounded()
      requires CacheOk()
      ensures CacheBound()
    {
    }

    /** With nothing staged, a crash leaves the file right exactly when the base file has every
        byte on record, whatever the record is a record of. */
    lemma SavedIsTextIff()
      requires StageOk() && SidecarOk() && !staged
      ensures Saved() == Text() <==> Agrees(base, stage, Recorded())
    {
      NothingFits(stage);
      NothingStaged(base, stage);
      RecordHarmlessIff(base, stage, Recorded());
    }

    /** Any writes and size changes of the base file. */
    method Edit(edits: seq<Change>)
      requires Sound() && !staged
      modifies this`base, this`stage, this`stageThere, this`ranges, this`staged, this`size, this`writeSeq, this`sidecar, pool
      ensures Sound() && !staged && Text() == Edited(old(Text()), edits) && Disk() == old(Disk())
    {
      hide Sound, Whole, WriteAt, Resize, StagedBytes, WriteReply;
      var io := Io(false, false, false);
      for i := 0 to |edits|
        invariant Sound() && !staged && Text() == Edited(old(Text()), edits[..i]) && Disk() == old(Disk())
      {
        assert edits[..i + 1][..i] == edits[..i];
        match edits[i] {
          case Put(pos, data) =>
            ghost var p := Abs();
            var ok, landed := Write(pos, data, false, false, false, NotStaged, io);
            PlainWrite(p, Abs(), pos, data, ok, landed);
          case Cut(n) => var ok := Truncate(n, io);
        }
      }
      assert edits[..|edits|] == edits;
    }

    /** A drain can remove neither the stage file nor the sidecar, the base file is changed in any
        way, and the system crashes: the replay is right exactly when the base file then still has
        every byte on record. */
    method CrashAfterFailedRemoval(edits: seq<Change>)
      requires Sound() && Live() && staged
      modifies this, pool
      ensures var text := Edited(old(Text()), edits);
              Text() == text <==> Agrees(text, old(stage), old(Recorded()))
    {
      LiveFound();
      hide Whole, Agrees, Edited, Fits, CacheOk, StagedBytes, Between, Within, WriteAt, Drained, DrainSaves;
      ghost var p := Abs();
      var ok := Drain(Io(false, true, true));
      SameText(p, Abs(), ok);
      Edit(edits);
      BaseIsText();
      SavedIsTextIff();
      var recovered := Replay();
    }
  }

  // A position no later range reaches is covered by the ranges before, or not at all.
  lemma CoversPrefix(rs: seq<Range>, i: nat, p: int)
    requires Separated(rs) && i <= |rs| && (i < |rs| ==> p < rs[i].start)
    ensures Covers(rs, p) <==> Covers(rs[..i], p)
  {
    if Covers(rs, p) {
      var j :| 0 <= j < |rs| && rs[j].start <= p < rs[j].end;
      assert rs[..i][j] == rs[j];
    }
    if Covers(rs[..i], p) {
      var j :| 0 <= j < i && rs[..i][j].start <= p < rs[..i][j].end;
      assert rs[j] == rs[..i][j];
    }
  }

  /** A filled buffer continues the bytes read so far. */
  lemma ReadOn(base: Content, stage: Content, rs: seq<Range>, size: nat, pos: nat, len: nat, out: Content, buf: Content, n: nat)
    requires Fits(stage, rs) && size <= |Whole(base, stage, rs)| && out <= ReadAt(Whole(base, stage, rs)[..size], pos, len)
    requires n <= |buf| && |out| + |buf| <= len && pos + |out| + |buf| <= size
    requires forall k :: 0 <= k < |buf| ==>
               buf[k] == if Covers(rs, pos + |out| + k) then stage[pos + |out| + k]
                         else if pos + |out| + k < |base| then base[pos + |out| + k] else 0
    ensures out + buf[..n] <= ReadAt(Whole(base, stage, rs)[..size], pos, len)
  {
    LastEndBounds(rs);
    var text := Whole(base, stage, rs);
    forall k | 0 <= k < n ensures buf[k] == text[pos + |out| + k] {
      assert text[pos + |out| + k] == ByteAt(base, stage, rs, pos + |out| + k);
    }
  }

  lemma ReadAtIs(f: Content, pos: nat, len: nat)
    ensures |ReadAt(f, pos, len)| == if pos >= |f| then 0 else if len < |f| - pos then len else |f| - pos
    ensures forall k :: 0 <= k < |ReadAt(f, pos, len)| ==> ReadAt(f, pos, len)[k] == f[pos + k]
  {
  }

  /** A chunk that ends before the next byte wanted means the file ends there. */
  lemma ReadPastChunk(f: Content, pos: nat, len: nat, out: Content, start: nat)
    requires out <= ReadAt(f, pos, len) && |out| < len && start <= pos + |out| < start + CHUNK
    ensures |ReadAt(f, start, CHUNK)| <= pos + |out| - start ==> out == ReadAt(f, pos, len)
  {
    ReadAtIs(f, pos, len);
    ReadAtIs(f, start, CHUNK);
    hide ReadAt;
  }

  /** The rest of a chunk continues the bytes read so far. */
  lemma ReadChunkOn(f: Content, pos: nat, len: nat, out: Content, start: nat, n: nat)
    requires out <= ReadAt(f, pos, len) && start <= pos + |out|
    requires pos + |out| - start + n <= |ReadAt(f, start, CHUNK)| && |out| + n <= len
    ensures var offset := pos + |out| - start;
            out + ReadAt(f, start, CHUNK)[offset..offset + n] <= ReadAt(f, pos, len)
  {
    ReadAtIs(f, pos, len);
    ReadAtIs(f, start, CHUNK);
    hide ReadAt;
    var offset, chunk, want := pos + |out| - start, ReadAt(f, start, CHUNK), ReadAt(f, pos, len);
    var more := out + chunk[offset..offset + n];
    assert |more| <= |want|;
    forall k | 0 <= k < |more| ensures more[k] == want[k] {
      if k >= |out| { assert more[k] == chunk[offset + k - |out|] == f[pos + k]; }
    }
  }

  lemma ReadAll(f: Content, pos: nat, len: nat, out: Content)
    requires out <= ReadAt(f, pos, len) && |out| == len
    ensures out == ReadAt(f, pos, len)
  {
  }

  /** A write outside a stretch that lies within the file leaves the stretch. */
  lemma WriteElsewhere(f: Content, at: nat, data: Content, pos: nat, len: nat)
    requires pos + len <= |f| && (at + |data| <= pos || pos + len <= at)
    ensures ReadAt(WriteAt(f, at, data), pos, len) == ReadAt(f, pos, len)
  {
    var g := WriteAt(f, at, data);
    WriteAtByte(f, at, data);
    ReadAtIs(f, pos, len);
    ReadAtIs(g, pos, len);
    if data != [] {
      hide ReadAt, WriteAt;
      assert forall p :: pos <= p < pos + len ==> g[p] == f[p];
    }
  }

  lemma WriteHere(f: Content, at: nat, data: Content)
    ensures ReadAt(WriteAt(f, at, data), at, |data|) == data
  {
    WriteAtByte(f, at, data);
    ReadAtIs(WriteAt(f, at, data), at, |data|);
    var got := ReadAt(WriteAt(f, at, data), at, |data|);
    assert |got| == |data|;
    hide ReadAt;
    assert forall k :: 0 <= k < |got| ==> got[k] == data[k];
  }

  /** Refreshing one chunk of the replica leaves its other chunks good. */
  lemma StoreChunk(base: Content, replica: Content, chunks: map<nat, nat>, index: nat, buf: Content, whole: bool)
    requires Coherent(base, replica, chunks) && index !in chunks
    requires ReadAt(base, index * CHUNK, CHUNK) != [] && buf <= ReadAt(base, index * CHUNK, CHUNK)
    requires whole ==> buf == ReadAt(base, index * CHUNK, CHUNK)
    ensures Coherent(base, WriteAt(replica, index * CHUNK, buf), if whole then chunks[index := |buf|] else chunks)
  {
    var replica', chunks' := WriteAt(replica, index * CHUNK, buf), if whole then chunks[index := |buf|] else chunks;
    WriteHere(replica, index * CHUNK, buf);
    ReadAtIs(base, index * CHUNK, CHUNK);
    forall i | i in chunks'
      ensures ReadAt(replica', i * CHUNK, chunks'[i]) == ReadAt(base, i * CHUNK, CHUNK)
    {
      if i != index {
        ReadAtIs(base, i * CHUNK, CHUNK);
        ReadAtIs(replica, i * CHUNK, chunks[i]);
        Apart(i, index);
        WriteElsewhere(replica, index * CHUNK, buf, i * CHUNK, chunks[i]);
      }
    }
    hide ReadAt, WriteAt;
  }

  lemma Apart(i: nat, j: nat)
    requires i != j
    ensures i * CHUNK + CHUNK <= j * CHUNK || j * CHUNK + CHUNK <= i * CHUNK
  {
  }

  /** What the inode serves after a replay, its size being the base file's, is what clients
      had written exactly when nothing was staged past the end of the base file. */
  lemma ReplayServes(base: Content, stage: Content, rs: seq<Range>)
    requires Fits(stage, rs)
    ensures View(base, stage, rs, |base|) == Whole(base, stage, rs) <==> LastEnd(rs) <= |base|
  {
  }

  lemma WholeLength(base: Content, stage: Content, rs: seq<Range>)
    ensures |Whole(base, stage, rs)| == Length(base, rs)
  {
  }

  lemma BetweenEnd(a: Content, text: Content, b: Content)
    requires Between(a, text, b)
    ensures Between(a, text, text)
  {
  }

  lemma NoneStaged(p: Plain, q: Plain, pos: nat, append: bool, data: Content, status: Status)
    requires Wrote(p, q, WritePos(p, pos, append, true), data, 0, true)
    ensures BaseWrote(p, q, WritePos(p, pos, append, false), data, 0) && q.text == p.text
    ensures WriteSaves(p, q, 0, status == Done) ==> WriteSaves(p, q, 0, true)
  {
    WriteNothing(p.text, WritePos(p, pos, append, true), data);
    WriteNothing(p.text, WritePos(p, pos, append, false), data);
  }

  lemma NoneStagedThen(p: Plain, q: Plain, r: Plain, pos: nat, append: bool, data: Content, n: nat)
    requires BaseWrote(p, q, WritePos(p, pos, append, false), data, 0) && q.text == p.text
    requires BaseWrote(q, r, WritePos(q, pos, append, false), data, n)
    ensures BaseWrote(p, r, WritePos(p, pos, append, false), data, n)
    ensures WriteSaves(p, q, 0, true) && WriteSaves(q, r, n, true) ==> WriteSaves(p, r, n, true)
  {
    var at := WritePos(p, pos, append, false);
    WriteGrows(p.text, at, data[..n]);
    WriteNothing(p.text, at, data);
    hide WriteAt, Between;
    if WriteSaves(p, q, 0, true) && WriteSaves(q, r, n, true) {
      if n == 0 { BetweenTrans(p.saved, p.text, q.saved, r.saved); } else { BetweenGrow(p.saved, p.text, q.saved, r.text); }
    }
  }

  lemma RefusedReply(p: Plain, pos: nat, data: Content, append: bool, sync: bool, room: Room)
    requires p.staged
    ensures WriteReply(p, p, pos, data, append, true, sync, room, false, 0)
  {
    WriteNothing(p.text, WritePos(p, pos, append, false), data);
  }

  /** The parts of a write make a write: what lands, the acknowledgement, the sync. */
  lemma WriteComposes(p: Plain, q: Plain, r: Plain, p': Plain, pos: nat, data: Content, append: bool, direct: bool,
                      sync: bool, room: Room, done: bool, ok: bool, n: nat)
    requires !(p.staged && direct)
    requires var on := OnStage(p, direct, room);
             if on then Wrote(p, q, WritePos(p, pos, append, true), data, n, true) && (n > 0 ==> q.staged)
             else BaseWrote(p, q, WritePos(p, pos, append, false), data, n) && (!done ==> n == 0)
    requires r == if done && n > 0 then q.(size := if q.staged then q.size else |q.text|) else q
    requires if done && n > 0 && sync then Drained(r, p', ok) else p' == r && ok == done
    ensures WriteReply(p, p', pos, data, append, direct, sync, room, ok, n)
  {
    hide WriteAt;
  }

  lemma WriteComposesSaves(p: Plain, q: Plain, r: Plain, p': Plain, n: nat, done: bool, ok: bool, direct: bool, sync: bool, room: Room)
    requires WriteSaves(p, q, n, done || !OnStage(p, direct, room))
    requires r == if done && n > 0 then q.(size := r.size) else q
    requires if done && n > 0 && sync then DrainSaves(r, p', ok) && Drained(r, p', ok) else p' == r && ok == done
    ensures WriteSaves(p, p', n, ok || !OnStage(p, direct, room))
  {
    hide Between;
    if done && n > 0 && sync {
      BetweenTrans(p.saved, q.text, q.saved, p'.saved);
      BetweenSame(q.text, p'.saved);
    }
  }

  lemma BetweenGrow(a: Content, text: Content, b: Content, text': Content)
    requires Between(a, text, b) && |text| <= |text'|
    ensures Between(a, text', text')
  {
  }

  lemma WriteGrows(f: Content, pos: nat, data: Content)
    ensures |WriteAt(f, pos, data)| >= |f|
  {
    WriteAtByte(f, pos, data);
  }

  lemma NothingFits(stage: Content)
    ensures Fits(stage, []) && Separated([])
  {
  }

  lemma ReplayLive(rs: seq<Range>)
    requires rs != [] ==> Separated(rs)
    ensures Within(rs, rs)
  {
  }

  lemma RecordedDrained(base: Content, stage: Content, rs: seq<Range>, rec: seq<Range>)
    requires Fits(stage, rs) && Within(rec, rs)
    ensures var text := Whole(base, stage, rs); Whole(text, stage, rec) == text
  {
    WithinFits(stage, rs, rec);
    LastEndBounds(rec);
    var text := Whole(base, stage, rs);
    var again := Whole(text, stage, rec);
    forall p | 0 <= p < |text| ensures again[p] == text[p] {
      assert again[p] == ByteAt(text, stage, rec, p) && text[p] == ByteAt(base, stage, rs, p);
    }
  }

  lemma SameText(p: Plain, p': Plain, ok: bool)
    requires Drained(p, p', ok)
    ensures p'.text == p.text && p'.size == p.size
  {
  }

  lemma PartDrainGrows(base: Content, base': Content, stage: Content, rs: seq<Range>)
    requires PartDrained(base, base', stage, rs)
    ensures |base| <= |base'|
  {
  }

  /** A change of the base file. */
  datatype Change = Put(pos: nat, data: Content) | Cut(n: nat)

  function Edited(text: Content, edits: seq<Change>): Content
  {
    if edits == [] then text
    else
      var before := Edited(text, edits[..|edits| - 1]);
      match edits[|edits| - 1]
      case Put(pos, data) => WriteAt(before, pos, data)
      case Cut(n) => Resize(before, n)
  }

  lemma PlainWrite(p: Plain, p': Plain, pos: nat, data: Content, ok: bool, landed: nat)
    requires WriteReply(p, p', pos, data, false, false, false, NotStaged, ok, landed) && landed == |data|
    ensures p'.text == WriteAt(p.text, pos, data)
  {
    hide WriteAt;
    assert data[..|data|] == data;
  }

  lemma NoChunks(base: Content, replica: Content)
    ensures Coherent(base, replica, map[])
  {
  }

  lemma BetweenText(text: Content)
    ensures Between(text, text, text)
  {
  }

  lemma StagedAll(base: Content, stage: Content, rs: seq<Range>, rec: seq<Range>, at: nat, data: Content, rs': seq<Range>)
    requires Fits(stage, rs) && data != [] && Extends(rs, at, at + |data|, rs')
    ensures var stage', text := WriteAt(stage, at, data), Whole(base, stage, rs);
            && rs' != [] && Fits(stage', rs') && Whole(base, stage', rs') == WriteAt(text, at, data)
            && Length(base, rs') >= |text| && Length(base, rs') >= at + |data|
            && (Within(rec, rs) ==>
                  Within(rec, rs') && Between(Whole(base, stage, rec), WriteAt(text, at, data), Whole(base, stage', rec)))
  {
    assert Covers(rs', at);
    WholeLength(base, stage, rs);
    StagedWrite(base, stage, rs, at, data, rs');
    if Within(rec, rs) { SavedAfterStagedWrite(base, stage, rs, rec, at, data, rs'); }
  }

  lemma FitsSeparated(stage: Content, rs: seq<Range>)
    requires Fits(stage, rs)
    ensures Separated(rs)
  {
  }

  lemma WriteNothing(f: Content, pos: nat, data: Content)
    ensures WriteAt(f, pos, data[..0]) == f
  {
  }

  lemma WriteTwice(f: Content, pos: nat, data: Content, a: nat, b: nat)
    requires a < b <= |data|
    ensures WriteAt(WriteAt(f, pos, data[..a]), pos + a, data[a..b]) == WriteAt(f, pos, data[..b])
  {
    WriteAtByte(f, pos, data[..a]);
    WriteAtByte(f, pos, data[..b]);
    WriteAtByte(WriteAt(f, pos, data[..a]), pos + a, data[a..b]);
  }

  lemma InLast(rs: seq<Range>, i: nat)
    requires Separated(rs) && i < |rs|
    ensures rs[i].end <= LastEnd(rs)
    ensures forall p :: rs[i].start <= p < rs[i].end ==> Covers(rs, p)
  {
  }
}
