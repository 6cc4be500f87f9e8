/** The invariant of the movement protocol and what it gives over every run. */
module ProtocolSafety {
  import opened Kernel
  import opened Bytes
  import opened Recovery
  import opened Ranges
  import opened Overlay
  import opened Protocol
  import KernelRun

  predicate Waiting(pc: Pc) { (pc.Queued? || pc.Looked?) }

  predicate BeforeCut(pc: Pc)
  {
    (pc.Planned? || pc.Statted? || pc.Copying? || pc.Copied? || pc.DstChecked? || pc.SrcChecked? || pc.SrcHashed? || pc.Ready?)
  }

  predicate CopyWhole(pc: Pc) { (pc.Copied? || pc.DstChecked? || pc.SrcChecked? || pc.SrcHashed? || pc.Ready?) }

  /** A transaction is open and can still be rolled back. */
  predicate Revocable(st: MoveState) { (st.PlanAccepted? || st.CopyVerified? || st.Failed?) }

  predicate Sound(st: MoveState) { Revocable(st) || (st.Placed? || st.CutoverInProgress? || st.Switched?) }

  /** The copies: the current tier has one, under what is staged it is what clients wrote, and no
      tier outside the open movement has any. */
  ghost predicate CopiesInv(c: Core)
  {
    var k, files := c.env.k, c.env.files;
    && Sound(k.state)
    && k.current in files
    && Merged(files[k.current], c.over) == c.truth && (c.over.Some? ==> Fits(c.over.value.stage, c.over.value.ranges))
    && (k.state == Placed ==> files.Keys == {k.current} && k.intended == k.current)
    && (k.state == Switched ==> k.intended == k.current && c.origin != k.current && files.Keys <= {k.current, c.origin})
    && (Revocable(k.state) || k.state == CutoverInProgress ==>
          k.intended != k.current && c.origin == k.current && files.Keys <= {k.current, k.intended})
  }

  /** A cutover call that has marked the inode, whether or not its caller still lives. */
  ghost predicate PendInv(c: Core)
  {
    var k, row := c.env.k, c.env.row;
    && (c.pend.Some? <==> k.state == CutoverInProgress)
    && (c.pend.Some? ==>
          && c.pend.value.txn == k.txn && c.pend.value.check
          && row.txn == k.txn && row.intended == Some(k.intended) && row.cur == k.current && !Claimable(row.state)
          && (k.writeSeq == c.pend.value.expected ==>
                c.over.None? && k.intended in c.env.files && c.env.files[k.intended] == c.truth))
  }

  /** Row and kernel, when the kernel has no open transaction. */
  ghost predicate SettledInv(c: Core)
  {
    var k, row := c.env.k, c.env.row;
    && row.state != CleanupComplete && row.state != Stale
    && (row.state == Failed ==> row.intended == None)
    && (row.state == Placed ==> k.state == Placed && row.cur == k.current)
    && (k.state == Placed && row.state == Failed ==> row.cur == k.current)
    && (k.state == Placed ==> row.cur == k.current || row.intended == Some(k.current))
  }

  /** Row and log, when the kernel's open transaction is the row's. */
  ghost predicate RouteInv(c: Core)
  {
    var k, row, log := c.env.k, c.env.row, c.env.log;
    k.state != Placed && row.txn == k.txn ==>
      if k.state == Switched then
        || (row.intended == Some(k.current) && row.cur == c.origin)
        || (row.intended == None && row.cur == k.current && row.txn in log && log[row.txn] == Route(c.origin, k.current))
      else
        || (row.intended == Some(k.intended) && row.cur == k.current)
        || (row.intended == None && row.cur == k.current && row.txn in log && log[row.txn].dst == k.intended)
  }

  ghost predicate CoreInv(c: Core)
  {
    CopiesInv(c) && PendInv(c) && SettledInv(c) && RouteInv(c)
  }

  /** The process: its transaction numbers are its own. */
  ghost predicate ProcessInv(c: Core, p: Proc)
  {
    && (p.booting ==> p.offered == {})
    && (p.offered == {} ==> p.plans == map[])
    && p.workers.Keys <= p.plans.Keys
    && (forall q :: q in p.plans ==> q <= p.issued)
    && (p.offered != {} && c.env.k.state != Placed ==> c.env.k.txn in p.plans)
    && (p.offered != {} && c.env.row.state != Placed ==> c.env.row.txn in p.plans)
  }

  /** A worker that has not claimed the row: nothing open is its own. */
  ghost predicate WaitInv(c: Core, q: nat)
  {
    && (c.env.k.state != Placed ==> c.env.k.txn != q)
    && (c.env.row.state != Placed ==> c.env.row.txn != q)
  }

  /** What a worker past the intent knows about its row. */
  ghost predicate HoldsRow(c: Core, q: nat, p: Plan)
  {
    var row := c.env.row;
    && row.txn == q && !Claimable(row.state) && row.intended == Some(p.dst)
    && q in c.env.log && c.env.log[q] == Route(p.src, p.dst)
  }

  /** The copy in progress: what has been copied is what clients wrote, unless a write since
      the worker's first look has moved the write sequence on. */
  ghost predicate CopyInv(c: Core, w: Worker)
  {
    var files := c.env.files;
    && (w.pc.Planned? || w.pc.Statted? ==> files.Keys == {c.env.k.current})
    && (w.pc.Copying? || CopyWhole(w.pc) ==> w.plan.dst in files && files[w.plan.dst] == w.stream)
    && (c.env.k.writeSeq == w.expected ==>
          && (w.pc.Copying? ==> w.stream <= c.truth && w.copySize == |c.truth|)
          && (CopyWhole(w.pc) ==> w.stream == c.truth))
  }

  /** The stage a worker past its intent is at. */
  ghost predicate StageInv(c: Core, q: nat, w: Worker)
  {
    var p, k, row := w.plan, c.env.k, c.env.row;
    match w.pc
    case Queued => false
    case Looked => false
    case Intent => if k.state == Placed then row.cur == k.current else k.txn != q
    case InCutover =>
      && k.state == CutoverInProgress && k.txn == q && k.intended == p.dst && p.src == k.current
      && c.pend == Some(KernelRun.Call(q, w.expected, true))
    case Cut => AfterCut(c, q, p)
    case SrcRemoved => AfterCut(c, q, p) && p.src !in c.env.files
    case SrcSynced => AfterCut(c, q, p) && p.src !in c.env.files
    case Completed => k.state == Placed && k.current == p.dst
    case CleanupFailed => (k.state == Placed && k.current == p.dst) || AfterCut(c, q, p)
    case Undo => Revocable(k.state) && k.txn == q && k.intended == p.dst && row.cur == k.current
    case Aborting =>
      if k.state == Placed then row.cur == k.current
      else k.txn == q ==> Revocable(k.state) && k.intended == p.dst && row.cur == k.current
    case _ =>
      && k.state == PlanAccepted && k.txn == q && k.intended == p.dst && row.cur == k.current
      && (w.pc.Planned? || p.src == k.current)
      && CopyInv(c, w)
  }

  ghost predicate AfterCut(c: Core, q: nat, p: Plan)
  {
    var k := c.env.k;
    k.state == Switched && k.txn == q && k.current == p.dst && c.env.row.cur == c.origin && p.src == c.origin
  }

  ghost predicate WorkerInv(c: Core, q: nat, w: Worker)
  {
    && (!w.pc.Queued? ==>
          w.expected <= c.env.k.writeSeq && (c.env.k.writeSeq == w.expected ==> c.over.None?))
    && if Waiting(w.pc) then WaitInv(c, q) else HoldsRow(c, q, w.plan) && StageInv(c, q, w)
  }

  ghost predicate WorkersInv(s: Sys)
  {
    forall q :: q in s.proc.workers ==> s.proc.workers[q].plan.txn == q && WorkerInv(s.core, q, s.proc.workers[q])
  }

  /** The kernel's answer is still true, apart from writes that came in since. */
  ghost predicate StillTrue(ins: Inode, k: Inode)
  {
    ins.(writeSeq := k.writeSeq) == k
  }

  ghost predicate RecInv(c: Core, p: Proc)
  {
    p.rec.Idle? || (p.booting && RecStage(c.env, p.rec))
  }

  ghost predicate RecStage(e: Env, r: Rec)
  {
    match r
    case Idle => true
    case Finished => true
    case Scanned(p) => p == e.row && Unsettled(p.state)
    case Inspected(p, ins) =>
      && p == e.row && Unsettled(p.state)
      && (ins.state == CutoverInProgress || (StillTrue(ins, e.k) && (e.k.state == Placed || e.k.txn == p.txn)))
    case Decided(p, ins, other, present) =>
      && p == e.row && Unsettled(p.state) && StillTrue(ins, e.k) && e.k.state != CutoverInProgress
      && (e.k.state == Placed || e.k.txn == p.txn)
      && (present <==> other in e.files) && other != e.k.current && e.files.Keys <= {e.k.current, other}
    case Removed(p, ins) => Swept(e, p, ins)
    case Synced(p, ins) => Swept(e, p, ins)
    case Acked(p, ins) => p == e.row && Unsettled(p.state) && e.k.state == Placed && e.k.current == ins.current
    case Confirmed(p, ins) => p == e.row && Unsettled(p.state) && e.k.state == Placed && e.k.current == ins.current
  }

  ghost predicate Swept(e: Env, p: Row, ins: Inode)
  {
    && p == e.row && Unsettled(p.state) && StillTrue(ins, e.k) && e.k.state != CutoverInProgress
    && (e.k.state == Placed || e.k.txn == p.txn)
    && e.files.Keys == {e.k.current}
  }

  ghost predicate Inv(s: Sys)
  {
    CoreInv(s.core) && ProcessInv(s.core, s.proc) && WorkersInv(s) && RecInv(s.core, s.proc)
  }

  lemma InitialInv(s: Sys)
    requires Initial(s)
    ensures Inv(s)
  {
  }

  // At most one worker is past its intent: it is the one the row names.
  lemma OneHolder(s: Sys, q: nat, v: nat)
    requires WorkersInv(s) && q in s.proc.workers && v in s.proc.workers && v != q
    requires !Waiting(s.proc.workers[q].pc)
    ensures Waiting(s.proc.workers[v].pc)
  {
    assert WorkerInv(s.core, q, s.proc.workers[q]) && WorkerInv(s.core, v, s.proc.workers[v]);
  }

  /** A step of the worker past its intent: it is enough to look at the durable state and at
      that worker; `w` is what becomes of it, or nothing if it exits. */
  lemma HolderStep(s: Sys, c: Core, q: nat, w: Option<Worker>)
    requires Inv(s) && q in s.proc.workers && !Waiting(s.proc.workers[q].pc)
    requires c.over == s.core.over && c.env.k.writeSeq == s.core.env.k.writeSeq
    requires c.env.k.state != Placed ==> c.env.k.txn == q || c.env.k == s.core.env.k
    requires c.env.row.txn == q
    requires CoreInv(c)
    requires w.Some? ==> w.value.plan == s.proc.workers[q].plan && WorkerInv(c, q, w.value)
    ensures Inv(if w.Some? then To(s, c, q, w.value) else Exit(s, c, q))
  {
    var s' := if w.Some? then To(s, c, q, w.value) else Exit(s, c, q);
    assert WorkerInv(s.core, q, s.proc.workers[q]);
    assert q in s.proc.plans;
    forall v | v in s'.proc.workers
      ensures s'.proc.workers[v].plan.txn == v && WorkerInv(s'.core, v, s'.proc.workers[v])
    {
      if v != q {
        OneHolder(s, q, v);
        assert WorkerInv(s.core, v, s.proc.workers[v]);
      }
    }
  }

  // ---- clients -------------------------------------------------------------

  lemma WriteSeqMoves(s: Sys, c: Core)
    requires Inv(s) && CoreInv(c)
    requires c.env.row == s.core.env.row && c.env.log == s.core.env.log && c.pend == s.core.pend && c.origin == s.core.origin
    requires c.env.k == s.core.env.k.(writeSeq := s.core.env.k.writeSeq + 1)
    requires c.env.files.Keys == s.core.env.files.Keys && s.core.env.k.state != CutoverInProgress
    requires forall t :: t in c.env.files && t != c.env.k.current ==> c.env.files[t] == s.core.env.files[t]
    ensures Inv(s.(core := c))
  {
    forall q | q in s.proc.workers
      ensures WorkerInv(c, q, s.proc.workers[q])
    {
      assert WorkerInv(s.core, q, s.proc.workers[q]);
    }
  }

  lemma ClientWriteKeeps(s: Sys, data: Content)
    requires Inv(s)
    ensures Inv(s.(core := DoClientWrite(s.core, data)))
  {
    var c := DoClientWrite(s.core, data);
    if c != s.core {
      assert c.env.files.Keys == s.core.env.files.Keys;
      WriteSeqMoves(s, c);
    }
  }

  lemma StageWriteKeeps(s: Sys, pos: nat, data: Content, ranges: seq<Range>)
    requires Inv(s)
    ensures Inv(s.(core := DoStageWrite(s.core, pos, data, ranges)))
  {
    var c := DoStageWrite(s.core, pos, data, ranges);
    if c != s.core {
      var base, st := s.core.env.files[s.core.env.k.current], Staged(s.core);
      NothingStaged(base, []);
      StagedWrite(base, st.stage, st.ranges, pos, data, ranges);
      hide Whole, Fits, Extends, WriteAt;
      assert CopiesInv(c);
      WriteSeqMoves(s, c);
    }
  }

  // A drain only runs while staged, and then every worker's look is out of date.
  lemma DrainChanges(s: Sys, c: Core, data: Content)
    requires Inv(s) && s.core.over.Some?
    requires c == WithFiles(s.core, s.core.env.files[s.core.env.k.current := data]).(over := c.over)
    requires Merged(data, c.over) == s.core.truth && (c.over.Some? ==> c.over == s.core.over)
    ensures Inv(s.(core := c))
  {
    hide Merged, Fits;
    assert c.env.files.Keys == s.core.env.files.Keys;
    forall q | q in s.proc.workers
      ensures WorkerInv(c, q, s.proc.workers[q])
    {
      assert WorkerInv(s.core, q, s.proc.workers[q]);
    }
  }

  lemma DrainPartKeeps(s: Sys, data: Content)
    requires Inv(s)
    ensures Inv(s.(core := DoDrainPart(s.core, data)))
  {
    var c := DoDrainPart(s.core, data);
    if c != s.core {
      var st := s.core.over.value;
      PartDrainInvisible(s.core.env.files[s.core.env.k.current], data, st.stage, st.ranges);
      hide Inv, Whole, PartDrained;
      DrainChanges(s, c, data);
    }
  }

  lemma DrainDoneKeeps(s: Sys, data: Content)
    requires Inv(s)
    ensures Inv(s.(core := DoDrainDone(s.core, data)))
  {
    var c := DoDrainDone(s.core, data);
    if c != s.core {
      var st := s.core.over.value;
      FullDrain(s.core.env.files[s.core.env.k.current], data, st.stage, st.ranges);
      hide Inv, Whole, PartDrained, DrainedTo;
      DrainChanges(s, c, data);
    }
  }

  // ---- planner and the way to the intent -----------------------------------

  lemma PlannerKeeps(s: Sys, src: Tier, dst: Tier, lun: bool)
    requires Inv(s)
    ensures Inv(DoNotice(s))
    ensures Inv(DoEmit(s, src, dst, lun))
  {
    var s' := DoEmit(s, src, dst, lun);
    forall q | q in s'.proc.workers
      ensures s'.proc.workers[q].plan.txn == q && WorkerInv(s.core, q, s'.proc.workers[q])
    {
      if q in s.proc.workers && q != s.proc.issued + 1 { assert WorkerInv(s.core, q, s.proc.workers[q]); }
    }
  }

  lemma LookKeeps(s: Sys, q: nat)
    requires Inv(s) && At(s, q, Queued)
    ensures Inv(DoLook(s, q))
  {
    assert WorkerInv(s.core, q, s.proc.workers[q]);
  }

  lemma TakeIntentKeeps(s: Sys, q: nat, ok: bool)
    requires Inv(s) && At(s, q, Looked)
    ensures Inv(DoTakeIntent(s, q, ok))
  {
    var s' := DoTakeIntent(s, q, ok);
    assert WorkerInv(s.core, q, s.proc.workers[q]);
    if s'.core != s.core {
      assert CoreInv(s'.core);
      forall v | v in s'.proc.workers
        ensures WorkerInv(s'.core, v, s'.proc.workers[v])
      {
        assert WorkerInv(s.core, v, s.proc.workers[v]);
      }
    }
  }

  // ---- the worker past its intent ------------------------------------------

  lemma MovePlanKeeps(s: Sys, q: nat, pool: Pool, g: Gate, ok: bool)
    requires Inv(s) && At(s, q, Intent)
    ensures Inv(DoMovePlan(s, q, pool, g, ok))
  {
    var s' := DoMovePlan(s, q, pool, g, ok);
    var w := s.proc.workers[q];
    assert WorkerInv(s.core, q, w);
    HolderStep(s, s'.core, q, Some(s'.proc.workers[q]));
  }

  lemma StatSrcKeeps(s: Sys, q: nat)
    requires Inv(s) && At(s, q, Planned)
    ensures Inv(DoStatSrc(s, q))
  {
    var s' := DoStatSrc(s, q);
    assert WorkerInv(s.core, q, s.proc.workers[q]);
    HolderStep(s, s'.core, q, Some(s'.proc.workers[q]));
  }

  lemma OpenDstKeeps(s: Sys, q: nat)
    requires Inv(s) && At(s, q, Statted)
    ensures Inv(DoOpenDst(s, q))
  {
    var s' := DoOpenDst(s, q);
    assert WorkerInv(s.core, q, s.proc.workers[q]);
    HolderStep(s, s'.core, q, Some(s'.proc.workers[q]));
  }

  // A chunk more at the destination: the durable state and the worker, without the process.
  lemma ChunkCopied(c: Core, q: nat, w: Worker, n: nat)
    requires CoreInv(c) && WorkerInv(c, q, w) && w.pc == Copying && w.plan.src in c.env.files && w.plan.dst in c.env.files
    ensures var chunk := ReadAt(c.env.files[w.plan.src], |w.stream|, n);
            var c' := WithFiles(c, c.env.files[w.plan.dst := c.env.files[w.plan.dst] + chunk]);
            CoreInv(c') && WorkerInv(c', q, w.(stream := w.stream + chunk))
  {
    var src := c.env.files[w.plan.src];
    var chunk := ReadAt(src, |w.stream|, n);
    if w.stream <= c.truth && src == c.truth { assert w.stream + chunk <= c.truth; }
    hide ReadAt, Whole, Fits;
  }

  lemma CopyChunkKeeps(s: Sys, q: nat, n: nat)
    requires Inv(s) && At(s, q, Copying)
    ensures Inv(DoCopyChunk(s, q, n))
  {
    var s', w := DoCopyChunk(s, q, n), s.proc.workers[q];
    assert WorkerInv(s.core, q, w);
    if w.plan.src !in s.core.env.files || w.plan.dst !in s.core.env.files {
      OnwardKeeps(s, q, Undo);
    } else {
      ChunkCopied(s.core, q, w, n);
      hide CoreInv, WorkerInv, ReadAt;
      HolderStep(s, s'.core, q, Some(s'.proc.workers[q]));
    }
  }

  lemma CopyEndKeeps(s: Sys, q: nat)
    requires Inv(s) && At(s, q, Copying)
    ensures Inv(DoCopyEnd(s, q))
  {
    var s' := DoCopyEnd(s, q);
    assert WorkerInv(s.core, q, s.proc.workers[q]);
    HolderStep(s, s'.core, q, Some(s'.proc.workers[q]));
  }

  // Checks and failures before the cutover only move the worker on or to its undo.
  lemma OnwardWorker(c: Core, q: nat, w: Worker, pc: Pc)
    requires CoreInv(c) && WorkerInv(c, q, w) && BeforeCut(w.pc)
    requires pc.Undo? || pc.Aborting? || (CopyWhole(w.pc) && CopyWhole(pc))
    ensures WorkerInv(c, q, w.(pc := pc)) && c.env.row.txn == q
  {
    hide Merged, RouteInv, SettledInv;
  }

  lemma OnwardKeeps(s: Sys, q: nat, pc: Pc)
    requires Inv(s) && q in s.proc.workers && BeforeCut(s.proc.workers[q].pc)
    requires pc.Undo? || pc.Aborting? || (CopyWhole(s.proc.workers[q].pc) && CopyWhole(pc))
    ensures Inv(Goto(s, s.core, q, pc))
  {
    var w := s.proc.workers[q];
    assert WorkerInv(s.core, q, w);
    OnwardWorker(s.core, q, w, pc);
    hide CoreInv, WorkerInv;
    HolderStep(s, s.core, q, Some(w.(pc := pc)));
  }

  lemma CutMarkKeeps(s: Sys, q: nat, pool: Pool, mapped: bool)
    requires Inv(s) && At(s, q, Ready)
    ensures Inv(DoCutMark(s, q, pool, mapped))
  {
    var s' := DoCutMark(s, q, pool, mapped);
    assert WorkerInv(s.core, q, s.proc.workers[q]);
    HolderStep(s, s'.core, q, Some(s'.proc.workers[q]));
  }

  // While a cutover call is pending, the only worker past its intent is its caller.
  lemma PendingCaller(s: Sys, q: nat)
    requires Inv(s) && s.core.pend.Some? && q in s.proc.workers && !Waiting(s.proc.workers[q].pc)
    ensures q == s.core.pend.value.txn && s.proc.workers[q].pc == InCutover
  {
    assert WorkerInv(s.core, q, s.proc.workers[q]);
  }

  lemma CallReturns(s: Sys, c: Core, pc: Pc)
    requires Inv(s) && s.core.pend.Some? && CoreInv(c)
    requires c.over == s.core.over && c.env.k.writeSeq == s.core.env.k.writeSeq
    requires c.env.row == s.core.env.row && c.env.log == s.core.env.log && c.env.k.txn == s.core.env.k.txn
    requires c.env.k.state != Placed
    requires At(s, s.core.pend.value.txn, InCutover) ==>
               WorkerInv(c, s.core.pend.value.txn, s.proc.workers[s.core.pend.value.txn].(pc := pc))
    ensures Inv(Return(s, c, s.core.pend.value.txn, pc))
  {
    var q := s.core.pend.value.txn;
    var s' := Return(s, c, q, pc);
    if At(s, q, InCutover) {
      HolderStep(s, c, q, Some(s.proc.workers[q].(pc := pc)));
    } else {
      forall v | v in s.proc.workers
        ensures WorkerInv(c, v, s.proc.workers[v])
      {
        assert WorkerInv(s.core, v, s.proc.workers[v]);
        if !Waiting(s.proc.workers[v].pc) { PendingCaller(s, v); }
      }
      assert RecInv(c, s.proc);
    }
  }

  lemma CutTimeoutKeeps(s: Sys)
    requires Inv(s)
    ensures Inv(DoCutTimeout(s))
  {
    if s.core.pend.Some? {
      var c := WithKernel(s.core, TimeoutApply(s.core.env.k)).(pend := None);
      var q := s.core.pend.value.txn;
      if At(s, q, InCutover) { assert WorkerInv(s.core, q, s.proc.workers[q]); }
      CallReturns(s, c, Undo);
    }
  }

  // The commit, as far as the durable state and its caller go.
  lemma Committed(c: Core, other: Errno)
    requires CoreInv(c) && c.pend.Some?
    ensures var call, dest := c.pend.value, DestReply(c.env, other);
            var c' := WithKernel(c, CommitApply(c.env.k, call.expected, call.check, dest)).(pend := None);
            CoreInv(c') && c'.env.k.txn == c.env.k.txn && c'.env.k.writeSeq == c.env.k.writeSeq && c'.env.k.state != Placed
  {
    hide Whole, Fits;
  }

  lemma CommittedWorker(c: Core, other: Errno, w: Worker)
    requires CoreInv(c) && c.pend.Some? && w.pc == InCutover && WorkerInv(c, c.pend.value.txn, w)
    ensures var call, dest := c.pend.value, DestReply(c.env, other);
            var c' := WithKernel(c, CommitApply(c.env.k, call.expected, call.check, dest)).(pend := None);
            WorkerInv(c', call.txn, w.(pc := if CommitReply(c.env.k, call.expected, call.check, dest) == Ok then Cut else Undo))
  {
    hide Merged, RouteInv, SettledInv;
  }

  lemma CutCommitKeeps(s: Sys, other: Errno)
    requires Inv(s)
    ensures Inv(DoCutCommit(s, other))
  {
    if s.core.pend.Some? {
      var c0, call := s.core, s.core.pend.value;
      var dest := DestReply(c0.env, other);
      var c := WithKernel(c0, CommitApply(c0.env.k, call.expected, call.check, dest)).(pend := None);
      var pc := if CommitReply(c0.env.k, call.expected, call.check, dest) == Ok then Cut else Undo;
      Committed(c0, other);
      if At(s, call.txn, InCutover) {
        assert WorkerInv(c0, call.txn, s.proc.workers[call.txn]);
        CommittedWorker(c0, other, s.proc.workers[call.txn]);
      }
      hide Inv, CoreInv, WorkerInv, CommitApply, CommitReply, DestReply;
      CallReturns(s, c, pc);
    }
  }

  lemma RemoveSrcKeeps(s: Sys, q: nat)
    requires Inv(s) && At(s, q, Cut)
    ensures Inv(DoRemoveSrc(s, q))
  {
    var s' := DoRemoveSrc(s, q);
    assert WorkerInv(s.core, q, s.proc.workers[q]);
    HolderStep(s, s'.core, q, Some(s'.proc.workers[q]));
  }

  lemma CleanupKeeps(s: Sys, q: nat, pc: Pc)
    requires Inv(s) && q in s.proc.workers
    requires var at := s.proc.workers[q].pc;
             || (at.SrcRemoved? && pc.SrcSynced?)
             || ((at.Cut? || at.SrcRemoved? || at.SrcSynced?) && pc.CleanupFailed?)
    ensures Inv(Goto(s, s.core, q, pc))
  {
    var w := s.proc.workers[q];
    assert WorkerInv(s.core, q, w);
    HolderStep(s, s.core, q, Some(w.(pc := pc)));
  }

  lemma CleanupExitKeeps(s: Sys, q: nat)
    requires Inv(s) && At(s, q, CleanupFailed)
    ensures Inv(Exit(s, s.core, q))
  {
    assert WorkerInv(s.core, q, s.proc.workers[q]);
    HolderStep(s, s.core, q, None);
  }

  lemma MoveCompleteKeeps(s: Sys, q: nat, ok: bool)
    requires Inv(s) && At(s, q, SrcSynced)
    ensures Inv(DoMoveComplete(s, q, ok))
  {
    var s' := DoMoveComplete(s, q, ok);
    assert WorkerInv(s.core, q, s.proc.workers[q]);
    assert s.core.env.files.Keys == {s.core.env.k.current};
    HolderStep(s, s'.core, q, Some(s'.proc.workers[q]));
  }

  lemma FinalizeKeeps(s: Sys, q: nat, ok: bool)
    requires Inv(s) && At(s, q, Completed)
    ensures Inv(DoFinalize(s, q, ok))
  {
    assert WorkerInv(s.core, q, s.proc.workers[q]);
    HolderStep(s, DoFinalize(s, q, ok).core, q, None);
  }

  lemma FailAfterSwitchKeeps(s: Sys, q: nat, ok: bool)
    requires Inv(s) && At(s, q, Cut)
    ensures Inv(DoFailAfterSwitch(s, q, ok))
  {
    assert WorkerInv(s.core, q, s.proc.workers[q]);
    HolderStep(s, DoFailAfterSwitch(s, q, ok).core, q, None);
  }

  lemma UndoDstKeeps(s: Sys, q: nat, ok: bool)
    requires Inv(s) && At(s, q, Undo)
    ensures Inv(DoUndoDst(s, q, ok))
  {
    var s' := DoUndoDst(s, q, ok);
    assert WorkerInv(s.core, q, s.proc.workers[q]);
    HolderStep(s, s'.core, q, Some(s'.proc.workers[q]));
  }

  lemma AbortRowKeeps(s: Sys, q: nat, ok: bool)
    requires Inv(s) && At(s, q, Aborting)
    ensures Inv(DoAbortRow(s, q, ok))
  {
    assert WorkerInv(s.core, q, s.proc.workers[q]);
    HolderStep(s, DoAbortRow(s, q, ok).core, q, None);
  }

  // A row write that only follows the worker's own progress.
  lemma PersistedRow(c: Core, q: nat, w: Worker, st: MoveState)
    requires CoreInv(c) && WorkerInv(c, q, w) && Persists(w.pc, st)
    ensures var c' := WithRow(c, c.env.row.(state := st, intended := Some(w.plan.dst), txn := q));
            CoreInv(c') && WorkerInv(c', q, w)
  {
  }

  lemma PersistKeeps(s: Sys, q: nat, st: MoveState)
    requires Inv(s) && q in s.proc.workers
    ensures Inv(DoPersist(s, q, st))
  {
    var w := s.proc.workers[q];
    if Persists(w.pc, st) {
      assert WorkerInv(s.core, q, w);
      PersistedRow(s.core, q, w, st);
      hide CoreInv, WorkerInv;
      var s' := DoPersist(s, q, st);
      HolderStep(s, s'.core, q, Some(w));
      assert s' == To(s, s'.core, q, w);
    }
  }

  lemma LogEntryKeeps(s: Sys, q: nat)
    requires Inv(s) && q in s.proc.workers
    ensures Inv(DoLogEntry(s, q))
  {
    var c := DoLogEntry(s, q).core;
    assert WorkerInv(s.core, q, s.proc.workers[q]);
    forall v | v in s.proc.workers
      ensures WorkerInv(c, v, s.proc.workers[v])
    {
      assert WorkerInv(s.core, v, s.proc.workers[v]);
    }
  }

  // ---- the process ---------------------------------------------------------

  lemma CrashKeeps(s: Sys)
    requires Inv(s)
    ensures Inv(DoCrash(s))
  {
  }

  // The tier recovery picks is the one the open movement leaves behind.
  lemma RightTarget(c: Core, p: Row, ins: Inode)
    requires CoreInv(c) && RecStage(c.env, Inspected(p, ins)) && ins.state != CutoverInProgress
    requires Target(p, ins, c.env.files, c.env.log).Some?
    ensures var other := Target(p, ins, c.env.files, c.env.log).value;
            other != c.env.k.current && c.env.files.Keys <= {c.env.k.current, other}
  {
  }

  // Each effect of a recovery leaves the durable state in order and the call on its way.
  lemma RecEffect(c: Core, r: Rec)
    requires CoreInv(c) && RecStage(c.env, r) && !r.Inspected?
    ensures CoreInv(c.(env := Next(r, c.env).1)) && RecStage(Next(r, c.env).1, Next(r, c.env).0)
  {
  }

  lemma RecDecision(c: Core, p: Row, ins: Inode)
    requires CoreInv(c) && RecStage(c.env, Inspected(p, ins))
    ensures var (r', e') := Next(Inspected(p, ins), c.env); e' == c.env && RecStage(e', r')
  {
    if ins.state != CutoverInProgress && Target(p, ins, c.env.files, c.env.log).Some? { RightTarget(c, p, ins); }
  }

  lemma RecNextKeeps(s: Sys, ok: bool)
    requires Inv(s)
    ensures Inv(DoRecNext(s, ok))
  {
    var c, r := s.core, s.proc.rec;
    if !r.Idle? && !r.Finished? {
      assert s.proc.workers == map[] by { assert s.proc.workers.Keys <= s.proc.plans.Keys; }
      if r.Inspected? { RecDecision(c, r.p, r.ins); } else { RecEffect(c, r); }
      hide Next, CoreInv, RecStage;
    }
  }

  lemma BootKeeps(s: Sys)
    requires Inv(s)
    ensures Inv(DoBoot(s)) && Inv(DoScan(s)) && Inv(s.(proc := s.proc.(rec := Idle)))
  {
  }

  lemma CopyStepKeeps(h: Hash, s: Sys, a: Action)
    requires Inv(s)
    requires a.StatSrc? || a.OpenDst? || a.CopyChunk? || a.CopyEnd? || a.CheckDst? || a.CheckSrc? || a.HashSrc? || a.LookAgain?
    ensures Inv(Step(h, s, a))
  {
    hide Inv, DoStatSrc, DoOpenDst, DoCopyChunk, DoCopyEnd;
    match a
    case StatSrc(q) => if At(s, q, Planned) { StatSrcKeeps(s, q); }
    case OpenDst(q) => if At(s, q, Statted) { OpenDstKeeps(s, q); }
    case CopyChunk(q, n) => if At(s, q, Copying) { CopyChunkKeeps(s, q, n); }
    case CopyEnd(q) => if At(s, q, Copying) { CopyEndKeeps(s, q); }
    case CheckDst(q) => if At(s, q, Copied) { OnwardKeeps(s, q, WorkerOf(DoCheckDst(h, s, q), q).pc); }
    case CheckSrc(q) => if At(s, q, DstChecked) { OnwardKeeps(s, q, WorkerOf(DoCheckSrc(s, q), q).pc); }
    case HashSrc(q) => if At(s, q, SrcChecked) { OnwardKeeps(s, q, WorkerOf(DoHashSrc(h, s, q), q).pc); }
    case LookAgain(q) => if At(s, q, SrcHashed) { OnwardKeeps(s, q, WorkerOf(DoLookAgain(s, q), q).pc); }
  }

  lemma CutStepKeeps(h: Hash, s: Sys, a: Action)
    requires Inv(s)
    requires a.CutMark? || a.RemoveSrc? || a.SyncSrc? || a.CleanupGiveUp? || a.CleanupExit? || a.MoveComplete?
             || a.CutTimeout? || a.CutCommit?
    ensures Inv(Step(h, s, a))
  {
    hide Inv, DoCutMark, DoRemoveSrc, DoMoveComplete, DoCutTimeout, DoCutCommit;
    match a
    case CutMark(q, pool, mapped) => if At(s, q, Ready) { CutMarkKeeps(s, q, pool, mapped); }
    case RemoveSrc(q) => if At(s, q, Cut) { RemoveSrcKeeps(s, q); }
    case SyncSrc(q) => if At(s, q, SrcRemoved) { CleanupKeeps(s, q, SrcSynced); }
    case CleanupGiveUp(q) =>
      if At(s, q, Cut) || At(s, q, SrcRemoved) || At(s, q, SrcSynced) { CleanupKeeps(s, q, CleanupFailed); }
    case CleanupExit(q) => if At(s, q, CleanupFailed) { CleanupExitKeeps(s, q); }
    case MoveComplete(q, ok) => if At(s, q, SrcSynced) { MoveCompleteKeeps(s, q, ok); }
    case CutTimeout => CutTimeoutKeeps(s);
    case CutCommit(other) => CutCommitKeeps(s, other);
  }

  lemma RowStepKeeps(h: Hash, s: Sys, a: Action)
    requires Inv(s)
    requires a.Look? || a.TakeIntent? || a.MovePlan? || a.Finalize? || a.FailAfterSwitch? || a.GiveUp?
             || a.UndoDst? || a.AbortRow? || a.Persist? || a.LogEntry?
    ensures Inv(Step(h, s, a))
  {
    hide Inv, DoLook, DoTakeIntent, DoMovePlan, DoFinalize, DoFailAfterSwitch, DoUndoDst, DoAbortRow, DoPersist, DoLogEntry;
    match a
    case Look(q) => if At(s, q, Queued) { LookKeeps(s, q); }
    case TakeIntent(q, ok) => if At(s, q, Looked) { TakeIntentKeeps(s, q, ok); }
    case MovePlan(q, pool, g, ok) => if At(s, q, Intent) { MovePlanKeeps(s, q, pool, g, ok); }
    case Finalize(q, ok) => if At(s, q, Completed) { FinalizeKeeps(s, q, ok); }
    case FailAfterSwitch(q, ok) => if At(s, q, Cut) { FailAfterSwitchKeeps(s, q, ok); }
    case GiveUp(q, sweep) =>
      if q in s.proc.workers && BeforeCut(s.proc.workers[q].pc) {
        OnwardKeeps(s, q, WorkerOf(DoGiveUp(s, q, sweep), q).pc);
      }
    case UndoDst(q, ok) => if At(s, q, Undo) { UndoDstKeeps(s, q, ok); }
    case AbortRow(q, ok) => if At(s, q, Aborting) { AbortRowKeeps(s, q, ok); }
    case Persist(q, st) => if q in s.proc.workers { PersistKeeps(s, q, st); }
    case LogEntry(q) => if q in s.proc.workers { LogEntryKeeps(s, q); }
  }

  lemma ClientStepKeeps(h: Hash, s: Sys, a: Action)
    requires Inv(s)
    requires a.ClientWrite? || a.StageWrite? || a.DrainPart? || a.DrainDone? || a.Notice? || a.Emit?
    ensures Inv(Step(h, s, a))
  {
    hide Inv, DoClientWrite, DoStageWrite, DoDrainPart, DoDrainDone, DoNotice, DoEmit;
    match a
    case ClientWrite(data) => ClientWriteKeeps(s, data);
    case StageWrite(pos, data, ranges) => StageWriteKeeps(s, pos, data, ranges);
    case DrainPart(data) => DrainPartKeeps(s, data);
    case DrainDone(data) => DrainDoneKeeps(s, data);
    case Notice => PlannerKeeps(s, 0, 0, false);
    case Emit(src, dst, lun) => PlannerKeeps(s, src, dst, lun);
  }

  lemma ProcessStepKeeps(h: Hash, s: Sys, a: Action)
    requires Inv(s)
    requires a.Crash? || a.Scan? || a.RecNext? || a.RecFail? || a.Boot?
    ensures Inv(Step(h, s, a))
  {
    hide Inv, DoCrash, DoRecNext, DoScan, DoBoot;
    match a
    case Crash => CrashKeeps(s);
    case RecNext(ok) => RecNextKeeps(s, ok);
    case Scan => BootKeeps(s);
    case RecFail => BootKeeps(s);
    case Boot => BootKeeps(s);
  }

  lemma StepKeeps(h: Hash, s: Sys, a: Action)
    requires Inv(s)
    ensures Inv(Step(h, s, a))
  {
    if a.StatSrc? || a.OpenDst? || a.CopyChunk? || a.CopyEnd? || a.CheckDst? || a.CheckSrc? || a.HashSrc? || a.LookAgain? {
      CopyStepKeeps(h, s, a);
    } else if a.CutMark? || a.RemoveSrc? || a.SyncSrc? || a.CleanupGiveUp? || a.CleanupExit? || a.MoveComplete?
              || a.CutTimeout? || a.CutCommit? {
      CutStepKeeps(h, s, a);
    } else if a.Look? || a.TakeIntent? || a.MovePlan? || a.Finalize? || a.FailAfterSwitch? || a.GiveUp?
              || a.UndoDst? || a.AbortRow? || a.Persist? || a.LogEntry? {
      RowStepKeeps(h, s, a);
    } else if a.Crash? || a.Scan? || a.RecNext? || a.RecFail? || a.Boot? {
      ProcessStepKeeps(h, s, a);
    } else {
      ClientStepKeeps(h, s, a);
    }
  }

  lemma {:induction false} EveryRun(h: Hash, s: Sys, acts: seq<Action>)
    requires Initial(s)
    ensures Inv(Run(h, s, acts))
  {
    if acts == [] {
      InitialInv(s);
    } else {
      EveryRun(h, s, acts[..|acts| - 1]);
      StepKeeps(h, Run(h, s, acts[..|acts| - 1]), acts[|acts| - 1]);
    }
  }
}
