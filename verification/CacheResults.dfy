/** What the traces of a cache-mode pool mean for clients. */
module CacheResults {
  import opened Bytes
  import opened Overlay
  import opened CacheFile
  import opened CacheRun

  /** The inode's size is the file's length. */
  predicate InOrder(p: Plain)
  {
    p.size == |p.text|
  }

  /** A crash now would lose nothing. */
  predicate Safe(p: Plain)
  {
    p.saved == p.text
  }

  // ---- plain byte arrays -----------------------------------------------------------

  /** What an operation makes of a byte array. */
  function ArrayOp(text: Content, op: Op, r: Reply): Content
  {
    match op
    case Write(pos, data, append, _, _, _) =>
      if r.landed <= |data| then WriteAt(text, if append then |text| else pos, data[..r.landed]) else text
    case Splice(pos, data) => if r.landed <= |data| then WriteAt(text, pos, data[..r.landed]) else text
    case Truncate(n) => if r.ok then Resize(text, n) else text
    case Store(pos, data) => if r.ok then WriteAt(text, pos, data) else text
    case _ => text
  }

  /** What it may answer on one. */
  predicate ArrayReply(text: Content, op: Op, r: Reply)
  {
    match op
    case Read(pos, len, _) => r.bytes <= ReadAt(text, pos, len) && (r.ok ==> r.bytes == ReadAt(text, pos, len))
    case Write(_, data, _, _, _, _) => r.landed <= |data|
    case Splice(_, data) => r.landed <= |data|
    case _ => true
  }

  /** The operations that leave the inode's size short: a splice that ends past the file, and
      taking the base file's attributes while the file is staged past it. */
  predicate Outgrows(p: Plain, op: Op, r: Reply)
  {
    || (op.Splice? && r.landed > 0 && op.pos + r.landed > |p.text|)
    || (op.CopyAttrs? && p.base < |p.text|)
  }

  /** On a file in order every operation is that operation on its byte array, and the file stays
      in order exactly when the operation is not one that leaves the size short. */
  lemma InOrderStep(p: Plain, op: Op, io: Io, r: Reply, p': Plain)
    requires InOrder(p) && Sized(p) && Does(p, op, io, r, p')
    ensures ArrayReply(p.text, op, r) && p'.text == ArrayOp(p.text, op, r)
    ensures InOrder(p') <==> !Outgrows(p, op, r)
  {
    match op
    case Read(pos, len, direct) =>
      assert p.text[..p.size] == p.text;
    case Write(pos, data, append, direct, sync, room) =>
      WriteAtByte(p.text, WritePos(p, pos, append, OnStage(p, direct, room)), data[..r.landed]);
      WriteNothing(p.text, WritePos(p, pos, append, OnStage(p, direct, room)), data);
    case Splice(pos, data) =>
      WriteAtByte(p.text, pos, data[..r.landed]);
      WriteNothing(p.text, pos, data);
    case Store(pos, data) => WriteAtByte(p.text, pos, data);
    case _ =>
  }

  /** File `f`'s byte array after the calls. */
  function ArrayRun(text: Content, f: nat, calls: seq<Call>, replies: seq<Reply>): Content
    requires |replies| == |calls|
  {
    if calls == [] then text else
    var n := |calls| - 1;
    var before := ArrayRun(text, f, calls[..n], replies[..n]);
    if calls[n].On? && calls[n].file == f then ArrayOp(before, calls[n].op, replies[n]) else before
  }

  /** Whether call `i` is on file `f`. */
  predicate Touches(calls: seq<Call>, i: nat, f: nat)
    requires i < |calls|
  {
    calls[i].On? && calls[i].file == f
  }

  /** Until the first operation that leaves its size short, a file that is in order is a byte
      array: every text is the one the byte array has, and every reply one it could give. Whatever
      else happens in the pool, drains that fail half way, full tiers, and crashes that come when
      the file is safe and nothing recorded reaches past its base file. */
  lemma {:induction false} RunIsArray(trace: seq<seq<Plain>>, calls: seq<Call>, replies: seq<Reply>, f: nat, n: nat)
    requires Trace(trace, calls, replies) && n <= |calls| && f < |trace[0]| && InOrder(trace[0][f])
    requires forall i :: 0 <= i < n && calls[i] == Remount ==> Safe(trace[i][f]) && trace[i][f].recorded <= trace[i][f].base
    requires forall i :: 0 <= i < n && Touches(calls, i, f) ==> !Outgrows(trace[i][f], calls[i].op, replies[i])
    ensures InOrder(trace[n][f])
    ensures trace[n][f].text == ArrayRun(trace[0][f].text, f, calls[..n], replies[..n])
    ensures forall i :: 0 <= i < n && Touches(calls, i, f) ==> ArrayReply(trace[i][f].text, calls[i].op, replies[i])
  {
    if n == 0 {
    } else {
      var m := n - 1;
      RunIsArray(trace, calls, replies, f, m);
      assert Steps(trace[m], calls[m], replies[m], trace[m + 1]);
      assert calls[..n][..m] == calls[..m] && replies[..n][..m] == replies[..m];
      hide Does;
      if Touches(calls, m, f) {
        InOrderStep(trace[m][f], calls[m].op, calls[m].io, replies[m], trace[n][f]);
      }
    }
  }

  // ---- crashes ---------------------------------------------------------------------

  /** A staged write whose record could not be written: it was answered with an error. */
  predicate Unacknowledged(p: Plain, op: Op, r: Reply)
  {
    op.Write? && OnStage(p, op.direct, op.room) && r.landed > 0 && !r.ok
  }

  lemma SafeStep(p: Plain, op: Op, io: Io, r: Reply, p': Plain)
    requires Safe(p) && Does(p, op, io, r, p') && Saves(p, op, r, p') && !Unacknowledged(p, op, r)
    ensures Safe(p')
  {
    hide Between, Resize, ReadAt;
    match op
    case Write(pos, data, append, direct, sync, room) =>
      WriteNothing(p.text, WritePos(p, pos, append, OnStage(p, direct, room)), data);
      hide WriteAt;
      if r.landed == 0 { BetweenSame(p.text, p'.saved); }
    case Splice(pos, data) =>
      WriteNothing(p.text, pos, data);
      hide WriteAt;
      if r.landed == 0 { BetweenSame(p.text, p'.saved); }
    case Truncate(n) => if !r.ok { BetweenSame(p.text, p'.saved); }
    case Fsync => BetweenSame(p.text, p'.saved);
    case Drain => BetweenSame(p.text, p'.saved);
    case MapShared => BetweenSame(p.text, p'.saved);
    case _ =>
  }

  /** As long as no staged write goes unacknowledged, a crash at any moment loses nothing of a
      file, after any number of crashes, failed drains and drains tried again. */
  lemma {:induction false} CrashesLoseNothing(trace: seq<seq<Plain>>, calls: seq<Call>, replies: seq<Reply>, f: nat, n: nat)
    requires Trace(trace, calls, replies) && n <= |calls| && f < |trace[0]| && Safe(trace[0][f])
    requires forall i :: 0 <= i < n && Touches(calls, i, f) ==> !Unacknowledged(trace[i][f], calls[i].op, replies[i])
    ensures Safe(trace[n][f])
    ensures forall i :: 0 <= i < n && calls[i] == Remount ==> trace[i + 1][f].text == trace[i][f].text
  {
    if n == 0 {
    } else {
      var m := n - 1;
      CrashesLoseNothing(trace, calls, replies, f, m);
      assert Steps(trace[m], calls[m], replies[m], trace[m + 1]);
      hide Does, Saves;
      if calls[m].On? && calls[m].file == f {
        SafeStep(trace[m][f], calls[m].op, calls[m].io, replies[m], trace[n][f]);
      }
    }
  }

  /** One write that is not acknowledged, then a crash: each byte is what it was before the write,
      or what the write made of it. */
  lemma UnacknowledgedCrash(p: Plain, op: Op, io: Io, r: Reply, q: Plain, p': Plain)
    requires Safe(p) && op.Write? && Does(p, op, io, r, q) && Saves(p, op, r, q) && Remounted(q, p')
    ensures Between(p.text, q.text, p'.text)
  {
    hide Between;
  }

  // ---- a size left behind ------------------------------------------------------------

  /** A staged append lands at the end of the file exactly when the file is in order. */
  lemma StagedAppendIff(p: Plain, data: Content, sync: bool, io: Io, r: Reply, p': Plain)
    requires p.size <= |p.text| && !p.mapped && r.landed > 0
    requires Does(p, Write(0, data, true, false, sync, Roomy), io, r, p')
    ensures p'.text == WriteAt(p.text, |p.text|, data[..r.landed]) <==> InOrder(p)
  {
    WriteAtByte(p.text, p.size, data[..r.landed]);
    WriteAtByte(p.text, |p.text|, data[..r.landed]);
    hide WriteAt;
  }

  /** A splice, then a staged append: the append lands at the end exactly when the splice did not
      end past the file. */
  lemma SpliceThenAppendIff(p: Plain, pos: nat, data: Content, io1: Io, r1: Reply, q: Plain,
                            more: Content, sync: bool, io2: Io, r2: Reply, p': Plain)
    requires InOrder(p) && Sized(p) && !p.mapped && r2.landed > 0
    requires Does(p, Splice(pos, data), io1, r1, q)
    requires Does(q, Write(0, more, true, false, sync, Roomy), io2, r2, p')
    ensures p'.text == WriteAt(q.text, |q.text|, more[..r2.landed]) <==> !Outgrows(p, Splice(pos, data), r1)
  {
    InOrderStep(p, Splice(pos, data), io1, r1, q);
    WriteGrows(p.text, pos, data[..r1.landed]);
    StagedAppendIff(q, more, sync, io2, r2, p');
  }

  /** Reads see the whole file exactly when it is in order or has nothing staged. */
  lemma SeesAllIff(p: Plain)
    requires p.size <= |p.text|
    ensures Seen(p) == p.text <==> !p.staged || InOrder(p)
  {
    if p.staged { assert |p.text[..p.size]| == p.size; }
    assert p.text[..|p.text|] == p.text;
  }

  /** A crash leaves a file in order exactly when nothing on record reached past the base file. */
  lemma RemountInOrderIff(p: Plain, q: Plain)
    requires Sized(p) && Remounted(p, q)
    ensures InOrder(q) <==> p.recorded <= p.base
  {
  }

  /** So a staged append after a crash lands at the end exactly then. */
  lemma RemountThenAppendIff(p: Plain, q: Plain, data: Content, sync: bool, io: Io, r: Reply, p': Plain)
    requires Sized(p) && Remounted(p, q) && r.landed > 0
    requires Does(q, Write(0, data, true, false, sync, Roomy), io, r, p')
    ensures p'.text == WriteAt(p.saved, |p.saved|, data[..r.landed]) <==> p.recorded <= p.base
  {
    RemountInOrderIff(p, q);
    StagedAppendIff(q, data, sync, io, r, p');
  }

  /** Taking the base file's attributes, then a staged append: it lands at the end exactly when the
      file was not staged past its base file. */
  lemma CopyAttrsThenAppendIff(p: Plain, io1: Io, r1: Reply, q: Plain, data: Content, sync: bool, io2: Io, r2: Reply, p': Plain)
    requires Sized(p) && !p.mapped && r2.landed > 0
    requires Does(p, CopyAttrs, io1, r1, q)
    requires Does(q, Write(0, data, true, false, sync, Roomy), io2, r2, p')
    ensures p'.text == WriteAt(p.text, |p.text|, data[..r2.landed]) <==> p.base == |p.text|
  {
    StagedAppendIff(q, data, sync, io2, r2, p');
  }
}
