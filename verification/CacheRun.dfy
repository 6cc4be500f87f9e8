/** Whole runs over the files of a cache-mode pool, crashes and remounts included.

    Every run of the class is a trace of plain files (`Plain`: text, inode size, what a crash
    would leave), step by step, and the pool's counter is the number of staged bytes. What runs
    mean for clients is then proved of traces: when a file is a plain byte array, when a crash
    loses nothing, and what a size left behind costs. */
module CacheRun {
  import opened Bytes
  import opened Ranges
  import opened Overlay
  import opened CacheFile

  datatype Op =
    | Read(pos: nat, len: nat, direct: bool)
    | Write(pos: nat, data: Content, append: bool, direct: bool, sync: bool, room: Room)
    | Truncate(n: nat)
    | Fsync
    | Drain
    | DropCache
    | MapShared
    | Store(pos: nat, data: Content)
    | Unmap
    | Cutover
    | Splice(pos: nat, data: Content)
    | CopyAttrs

  /** What came back: an error or not, the bytes read, the bytes that are now in the file. */
  datatype Reply = Reply(ok: bool, bytes: Content, landed: nat)

  /** What an operation may answer and make of a plain file. Without a fault it must succeed,
      except where a file with staged ranges refuses direct I/O. */
  ghost predicate Does(p: Plain, op: Op, io: Io, r: Reply, p': Plain)
  {
    match op
    case Read(pos, len, direct) =>
      && p' == p && r.bytes <= ReadAt(Seen(p), pos, len) && (r.ok ==> r.bytes == ReadAt(Seen(p), pos, len))
      && (!io.fault && !(p.staged && direct) ==> r.ok)
    case Write(pos, data, append, direct, sync, room) =>
      && WriteReply(p, p', pos, data, append, direct, sync, room, r.ok, r.landed)
      && (io.Good() && !(p.staged && direct) ==> r.landed == |data|)
    case Truncate(n) =>
      && (io.Good() ==> r.ok)
      && if r.ok then p'.text == Resize(p.text, n) && p'.size == n && !p'.staged && p'.mapped == p.mapped
         else Drained(p, p', false)
    case Fsync => Drained(p, p', r.ok) && (io.Good() ==> r.ok)
    case Drain => Drained(p, p', r.ok) && (io.Good() ==> r.ok)
    case DropCache => p' == p
    case MapShared =>
      Drained(p, p'.(mapped := p.mapped), r.ok) && p'.mapped == (r.ok || p.mapped) && (io.Good() ==> r.ok)
    case Store(pos, data) =>
      if r.ok then p.mapped && pos + |data| <= |p.text| && p' == p.(text := WriteAt(p.text, pos, data), saved := p'.saved)
      else p' == p && !(p.mapped && pos + |data| <= |p.text|)
    case Unmap => p' == p.(mapped := false)
    case CopyAttrs => p' == p.(size := p.base)
    case Cutover => p' == p
    case Splice(pos, data) =>
      && BaseWrote(p, p', pos, data, r.landed) && (!r.ok ==> r.landed == 0)
      && (io.Good() ==> r.ok && r.landed == |data|)
  }

  /** What it may leave for a crash. */
  ghost predicate Saves(p: Plain, op: Op, r: Reply, p': Plain)
  {
    match op
    case Write(_, _, _, direct, _, room) => WriteSaves(p, p', r.landed, r.ok || !OnStage(p, direct, room))
    case Truncate(_) => if r.ok then p'.saved == p'.text else DrainSaves(p, p', false)
    case Fsync => DrainSaves(p, p', r.ok)
    case Drain => DrainSaves(p, p', r.ok)
    case MapShared => DrainSaves(p, p', r.ok)
    case Store(_, _) => if r.ok then p'.saved == p'.text else p'.saved == p.saved
    case Splice(_, _) => WriteSaves(p, p', r.landed, true)
    case _ => p'.saved == p.saved
  }

  /** A crash and the replay: what was saved is the file now, and its size is the base file's. */
  ghost predicate Remounted(p: Plain, p': Plain)
  {
    && p'.text == p.saved && p'.saved == p.saved && !p'.mapped && p'.size == p.base
    && p'.base == p.base && p'.recorded == p.recorded
  }

  /** An operation on one file, or a crash of the whole pool. */
  datatype Call = On(file: nat, op: Op, io: Io) | Remount

  /** A call that names a file there is, and in which the sidecar's removal does not fail. */
  predicate CallOk(c: Call, n: nat)
  {
    c.On? ==> c.file < n && !c.io.clearFails
  }

  ghost predicate Steps(ps: seq<Plain>, c: Call, r: Reply, ps': seq<Plain>)
  {
    && |ps'| == |ps|
    && match c
       case On(f, op, io) =>
         && f < |ps| && Does(ps[f], op, io, r, ps'[f]) && Saves(ps[f], op, r, ps'[f])
         && forall i :: 0 <= i < |ps| && i != f ==> ps'[i] == ps[i]
       case Remount => forall i :: 0 <= i < |ps| ==> Remounted(ps[i], ps'[i])
  }

  /** The plain files from before the run to after it. */
  ghost predicate Trace(trace: seq<seq<Plain>>, calls: seq<Call>, replies: seq<Reply>)
  {
    && |trace| == |calls| + 1 && |replies| == |calls|
    && (forall i :: 0 <= i < |trace| ==> |trace[i]| == |trace[0]|)
    && (forall i, f :: 0 <= i < |trace| && 0 <= f < |trace[i]| ==> Sized(trace[i][f]))
    && forall i :: 0 <= i < |calls| ==> Steps(trace[i], calls[i], replies[i], trace[i + 1])
  }

  // ---- one call ------------------------------------------------------------------

  /** One operation on one file. A store without a mapping, or past the end, faults. */
  method Apply(f: File, op: Op, io: Io) returns (r: Reply)
    requires f.Sound() && f.Live() && !io.clearFails
    modifies f, f.pool
    ensures f.Sound() && f.Live()
    ensures Does(old(f.Abs()), op, io, r, f.Abs()) && Saves(old(f.Abs()), op, r, f.Abs())
    ensures op.Write? && io.Good() && !(old(f.staged) && op.direct) && !r.ok ==> |f.ranges| > Sidecar.MAX_RANGES
    ensures f.pool.rangeStagedBytes - StagedBytes(f.ranges) == old(f.pool.rangeStagedBytes - StagedBytes(f.ranges))
  {
    hide f.Sound, f.Live, Whole, StagedBytes, Resize, ReadAt, Seen, WriteReply, BaseWrote, Drained, DrainSaves, WriteSaves;
    r := Reply(true, [], 0);
    match op
    case Read(pos, len, direct) =>
      var ok, out := f.Read(pos, len, direct, io.fault);
      r := Reply(ok, out, 0);
    case Write(pos, data, append, direct, sync, room) =>
      var ok, landed := f.Write(pos, data, append, direct, sync, room, io);
      r := Reply(ok, [], landed);
    case Truncate(n) =>
      var ok := f.Truncate(n, io);
      r := Reply(ok, [], 0);
    case Fsync =>
      var ok := f.Fsync(io);
      r := Reply(ok, [], 0);
    case Drain =>
      var ok := f.Drain(io);
      r := Reply(ok, [], 0);
    case DropCache => f.ClearCache();
    case MapShared =>
      var ok := f.MapShared(io);
      r := Reply(ok, [], 0);
    case Store(pos, data) => r := ApplyStore(f, pos, data);
    case Unmap => f.Unmap();
    case CopyAttrs => f.CopyAttrs();
    case Cutover => ApplyCutover(f);
    case Splice(pos, data) =>
      var ok, landed := f.SpliceWrite(pos, data, io);
      r := Reply(ok, [], landed);
  }

  method ApplyStore(f: File, pos: nat, data: Content) returns (r: Reply)
    requires f.Sound() && f.Live()
    modifies f`base
    ensures f.Sound() && f.Live() && r.bytes == [] && r.landed == 0
    ensures Does(old(f.Abs()), Store(pos, data), Io(false, false, false), r, f.Abs()) && Saves(old(f.Abs()), Store(pos, data), r, f.Abs())
  {
    hide Whole, Fits, Coherent, Separated, Within;
    r := Reply(false, [], 0);
    if f.mapped {
      f.BaseIsText();
      if pos + |data| <= |f.base| {
        f.Store(pos, data);
        r := Reply(true, [], 0);
      }
    }
  }

  method ApplyCutover(f: File)
    requires f.Sound()
    modifies f`gen
    ensures f.Sound()
  {
    if !f.staged && !f.mapped { f.Cutover(); }
  }

  // ---- many files, one pool --------------------------------------------------------

  /** Distinct files in order, all of one pool. */
  ghost predicate PoolOk(pool: StagingPool, files: seq<File>)
    reads files
  {
    && (forall i :: 0 <= i < |files| ==> files[i].pool == pool && files[i].Sound() && files[i].Live())
    && (forall i, j :: 0 <= i < j < |files| ==> files[i] != files[j])
  }

  ghost function Plains(files: seq<File>): (t: seq<Plain>)
    reads files
    ensures |t| == |files| && forall i :: 0 <= i < |t| ==> t[i] == files[i].Abs()
  {
    seq(|files|, i requires 0 <= i < |files| reads files => files[i].Abs())
  }

  ghost function RangesOf(files: seq<File>): (t: seq<seq<Range>>)
    reads files
    ensures |t| == |files| && forall i :: 0 <= i < |t| ==> t[i] == files[i].ranges
  {
    seq(|files|, i requires 0 <= i < |files| reads files => files[i].ranges)
  }

  /** The staged bytes of all files. */
  function Total(lists: seq<seq<Range>>): int
  {
    if lists == [] then 0 else Total(lists[..|lists| - 1]) + StagedBytes(lists[|lists| - 1])
  }

  lemma TotalNone()
    ensures Total([]) == 0
  {
  }

  lemma TotalMore(lists: seq<seq<Range>>, rs: seq<Range>)
    ensures Total(lists + [rs]) == Total(lists) + StagedBytes(rs)
  {
    assert (lists + [rs])[..|lists|] == lists;
  }

  lemma {:induction false} TotalChange(lists: seq<seq<Range>>, i: nat, rs: seq<Range>)
    requires i < |lists|
    ensures Total(lists[i := rs]) - Total(lists) == StagedBytes(rs) - StagedBytes(lists[i])
  {
    var n := |lists| - 1;
    if i == n {
      assert lists[i := rs][..n] == lists[..n];
    } else {
      assert lists[i := rs][..n] == lists[..n][i := rs];
      TotalChange(lists[..n], i, rs);
    }
  }

  method OneOp(pool: StagingPool, files: seq<File>, f: nat, op: Op, io: Io) returns (r: Reply)
    requires PoolOk(pool, files) && f < |files| && !io.clearFails
    modifies files, pool
    ensures PoolOk(pool, files) && Steps(old(Plains(files)), On(f, op, io), r, Plains(files))
    ensures pool.rangeStagedBytes - Total(RangesOf(files)) == old(pool.rangeStagedBytes - Total(RangesOf(files)))
  {
    hide Does, Saves, File.Sound, File.Live, Whole, StagedBytes, Total;
    ghost var lists := RangesOf(files);
    r := Apply(files[f], op, io);
    TotalChange(lists, f, files[f].ranges);
    assert RangesOf(files) == lists[f := files[f].ranges];
  }

  /** One file's part of a remount. */
  method RemountOne(f: File) returns (recovered: int)
    requires f.Sound() && f.Live()
    modifies f
    ensures f.Sound() && f.Live() && Remounted(old(f.Abs()), f.Abs()) && recovered == StagedBytes(f.ranges)
  {
    f.LiveFits();
    hide Whole, Fits, Coherent, Separated, Within, StagedBytes;
    recovered := f.Replay();
  }

  /** smoothfs_range_staging_replay over the files of a fresh mount: the counter starts at zero
      and ends at the number of staged bytes, and every file is what was saved of it. */
  method ReplayAll(pool: StagingPool, files: seq<File>)
    requires PoolOk(pool, files)
    modifies files, pool
    ensures PoolOk(pool, files) && pool.rangeStagedBytes == Total(RangesOf(files))
    ensures forall i :: 0 <= i < |files| ==> Remounted(old(Plains(files))[i], Plains(files)[i])
  {
    hide File.Sound, File.Live, File.Abs, Remounted, StagedBytes, Total;
    TotalNone();
    ghost var was, lists: seq<seq<Range>> := Plains(files), [];
    var recovered := 0;
    for i := 0 to |files|
      invariant forall j :: 0 <= j < |files| ==> files[j].Sound() && files[j].Live()
      invariant forall j :: i <= j < |files| ==> files[j].Abs() == was[j]
      invariant |lists| == i && forall j :: 0 <= j < i ==> Remounted(was[j], files[j].Abs()) && files[j].ranges == lists[j]
      invariant recovered == Total(lists)
    {
      var n := RemountOne(files[i]);
      recovered := recovered + n;
      TotalMore(lists, files[i].ranges);
      lists := lists + [files[i].ranges];
    }
    pool.rangeStagedBytes := recovered;
    assert RangesOf(files) == lists;
  }

  /** Any run of operations on any files of the pool, with any faults, failed drains and crashes:
      it is a trace of plain files, reply by reply, the counter is the number of staged bytes, and
      a file with nothing staged is all in its base file. */
  method Run(pool: StagingPool, files: seq<File>, calls: seq<Call>) returns (replies: seq<Reply>, ghost trace: seq<seq<Plain>>)
    requires PoolOk(pool, files) && pool.rangeStagedBytes == Total(RangesOf(files))
    requires forall c :: c in calls ==> CallOk(c, |files|)
    modifies files, pool
    ensures PoolOk(pool, files) && pool.rangeStagedBytes == Total(RangesOf(files))
    ensures Trace(trace, calls, replies) && trace[0] == old(Plains(files)) && trace[|calls|] == Plains(files)
    ensures forall i :: 0 <= i < |files| && !files[i].staged ==> files[i].base == trace[|calls|][i].text
  {
    hide PoolOk, Total, Steps, Sized;
    AllSized(pool, files);
    replies, trace := [], [Plains(files)];
    for i := 0 to |calls|
      invariant PoolOk(pool, files) && pool.rangeStagedBytes == Total(RangesOf(files))
      invariant Trace(trace, calls[..i], replies) && trace[0] == old(Plains(files)) && trace[i] == Plains(files)
    {
      var r := OneCall(pool, files, calls[i]);
      AllSized(pool, files);
      Extended(trace, calls, replies, i, r, Plains(files));
      replies, trace := replies + [r], trace + [Plains(files)];
    }
    assert calls[..|calls|] == calls;
    AllInBase(pool, files);
  }

  method OneCall(pool: StagingPool, files: seq<File>, c: Call) returns (r: Reply)
    requires PoolOk(pool, files) && pool.rangeStagedBytes == Total(RangesOf(files)) && CallOk(c, |files|)
    modifies files, pool
    ensures PoolOk(pool, files) && pool.rangeStagedBytes == Total(RangesOf(files))
    ensures Steps(old(Plains(files)), c, r, Plains(files))
  {
    hide PoolOk, Total, Remounted, Does, Saves;
    match c
    case On(f, op, io) => r := OneOp(pool, files, f, op, io);
    case Remount =>
      ReplayAll(pool, files);
      r := Reply(true, [], 0);
  }

  lemma Extended(trace: seq<seq<Plain>>, calls: seq<Call>, replies: seq<Reply>, i: nat, r: Reply, ps: seq<Plain>)
    requires i < |calls| && Trace(trace, calls[..i], replies) && Steps(trace[i], calls[i], r, ps) && |ps| == |trace[0]|
    requires forall f :: 0 <= f < |ps| ==> Sized(ps[f])
    ensures Trace(trace + [ps], calls[..i + 1], replies + [r])
  {
    hide Steps;
    var t, rs := trace + [ps], replies + [r];
    forall k | 0 <= k < i + 1 ensures Steps(t[k], calls[..i + 1][k], rs[k], t[k + 1]) {
      if k < i { assert Steps(trace[k], calls[..i][k], replies[k], trace[k + 1]); }
    }
  }

  lemma AllSized(pool: StagingPool, files: seq<File>)
    requires PoolOk(pool, files)
    ensures forall i :: 0 <= i < |files| ==> Sized(Plains(files)[i])
  {
    hide Sized;
    forall i | 0 <= i < |files| ensures Sized(Plains(files)[i]) {
      files[i].SizedNow();
    }
  }

  lemma AllInBase(pool: StagingPool, files: seq<File>)
    requires PoolOk(pool, files)
    ensures forall i :: 0 <= i < |files| && !files[i].staged ==> files[i].base == files[i].Text()
  {
    forall i | 0 <= i < |files| && !files[i].staged ensures files[i].base == files[i].Text() {
      files[i].BaseIsText();
    }
  }
}
