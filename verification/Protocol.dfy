/** The movement protocol of one object as a step system: the kernel inode, the SQL row,
    the copies on the tiers, any number of workers with plans that may be stale, client
    writes between any two steps, and process death at any step
    (controlplane/worker.go, controlplane/recovery_live.go, src/smoothfs/movement.c).

    A run is any sequence of actions; an action that is not enabled changes nothing. Checks
    of the worker that can only make it give up more often (modification times, LUN
    preconditions) are left free to pass. */
module Protocol {
  import opened Kernel
  import opened Bytes
  import opened Recovery
  import opened Ranges
  import opened Overlay
  import KernelRun

  type Hash = Content -> int

  datatype Plan = Plan(src: Tier, dst: Tier, txn: nat, lun: bool)

  /** How far a worker has got with `execute`. */
  datatype Pc =
    | Queued       // the plan waits in the channel
    | Looked       // inspected, and found placed and not range-staged
    | Intent       // the intent row is committed
    | Planned      // the kernel accepted the plan
    | Statted
    | Copying
    | Copied
    | DstChecked
    | SrcChecked
    | SrcHashed
    | Ready        // inspected again: same write sequence, not range-staged
    | InCutover    // between the two halves of the kernel's cutover
    | Cut
    | SrcRemoved
    | SrcSynced
    | Completed
    | CleanupFailed
    | Undo         // about to remove the destination
    | Aborting     // about to mark the row failed

  datatype Worker = Worker(plan: Plan, pc: Pc, expected: nat, size: nat, copySize: nat, stream: Content)

  /** A stage file and the ranges of it that are newer than the current tier's copy. */
  datatype Patch = Patch(stage: Content, ranges: seq<Range>)

  /** What clients read: the copy, under what is staged. */
  ghost function Merged(base: Content, over: Option<Patch>): Content
  {
    if over.None? then base else Whole(base, over.value.stage, over.value.ranges)
  }

  /** What survives the control-plane process. `truth` is what clients have written; `over` is
      what of it is staged; `pend` is a cutover call between its halves; `origin` remembers the
      tier the last accepted plan left. */
  datatype Core = Core(env: Env, pend: Option<KernelRun.Call>, truth: Content, over: Option<Patch>, origin: Tier)

  /** The control-plane process: recovery while it boots, then the planner and workers. */
  datatype Proc = Proc(booting: bool, rec: Rec, offered: set<Tier>,
                       plans: map<nat, Plan>, issued: nat, workers: map<nat, Worker>)

  datatype Sys = Sys(core: Core, proc: Proc)

  datatype Action =
    // clients
    | ClientWrite(data: Content)
    | StageWrite(pos: nat, data: Content, ranges: seq<Range>)
    | DrainPart(data: Content)
    | DrainDone(data: Content)
    // planner
    | Notice
    | Emit(src: Tier, dst: Tier, lun: bool)
    // worker
    | Look(q: nat)
    | TakeIntent(q: nat, ok: bool)
    | MovePlan(q: nat, pool: Pool, g: Gate, ok: bool)
    | StatSrc(q: nat)
    | OpenDst(q: nat)
    | CopyChunk(q: nat, n: nat)
    | CopyEnd(q: nat)
    | CheckDst(q: nat)
    | CheckSrc(q: nat)
    | HashSrc(q: nat)
    | LookAgain(q: nat)
    | CutMark(q: nat, pool: Pool, mapped: bool)
    | RemoveSrc(q: nat)
    | SyncSrc(q: nat)
    | MoveComplete(q: nat, ok: bool)
    | Finalize(q: nat, ok: bool)
    | FailAfterSwitch(q: nat, ok: bool)
    | GiveUp(q: nat, sweep: bool)
    | UndoDst(q: nat, ok: bool)
    | AbortRow(q: nat, ok: bool)
    | CleanupGiveUp(q: nat)
    | CleanupExit(q: nat)
    | Persist(q: nat, st: MoveState)
    | LogEntry(q: nat)
    // the kernel's half of a cutover call, which outlives the caller
    | CutTimeout
    | CutCommit(other: Errno)
    // the process
    | Crash
    | Scan
    | RecNext(ok: bool)
    | RecFail
    | Boot

  predicate At(s: Sys, q: nat, pc: Pc)
  {
    q in s.proc.workers && s.proc.workers[q].pc == pc
  }

  function WorkerOf(s: Sys, q: nat): Worker
    requires q in s.proc.workers
  {
    s.proc.workers[q]
  }

  /** A worker's step: the durable state becomes `c`, the worker becomes `w`. */
  function To(s: Sys, c: Core, q: nat, w: Worker): Sys
  {
    Sys(c, s.proc.(workers := s.proc.workers[q := w]))
  }

  function Goto(s: Sys, c: Core, q: nat, pc: Pc): Sys
    requires q in s.proc.workers
  {
    To(s, c, q, s.proc.workers[q].(pc := pc))
  }

  function Exit(s: Sys, c: Core, q: nat): Sys
  {
    Sys(c, s.proc.(workers := s.proc.workers - {q}))
  }

  function WithKernel(c: Core, k: Inode): Core { c.(env := c.env.(k := k)) }

  function WithFiles(c: Core, files: map<Tier, Content>): Core { c.(env := c.env.(files := files)) }

  function WithRow(c: Core, row: Row): Core { c.(env := c.env.(row := row)) }

  /** The row states persistIntent may claim. */
  predicate Claimable(st: MoveState)
  {
    st == Placed || st == CleanupComplete || st == Failed
  }

  /** Which states a worker writes to its row with persistObject, and where. */
  predicate Persists(pc: Pc, st: MoveState)
  {
    || (pc == Planned && st == DestinationReserved)
    || (pc == Copied && st == CopyInProgress)
    || (pc == Ready && st == CopyVerified)
    || (pc == Cut && st == Switched)
    || (pc == CleanupFailed && st == CleanupInProgress)
  }

  function DoClientWrite(c: Core, data: Content): Core
  {
    var k := c.env.k;
    if k.state == CutoverInProgress || c.over.Some? then c else
    c.(truth := data, env := c.env.(k := k.(writeSeq := k.writeSeq + 1), files := c.env.files[k.current := data]))
  }

  function Staged(c: Core): Patch
  {
    if c.over.Some? then c.over.value else Patch([], [])
  }

  /** A staged write; `ranges` is what recording its range makes of the list. */
  ghost function DoStageWrite(c: Core, pos: nat, data: Content, ranges: seq<Range>): Core
  {
    var k, st := c.env.k, Staged(c);
    if k.state == CutoverInProgress || data == [] || !Extends(st.ranges, pos, pos + |data|, ranges) then c else
    c.(truth := WriteAt(c.truth, pos, data), over := Some(Patch(WriteAt(st.stage, pos, data), ranges)),
       env := c.env.(k := k.(writeSeq := k.writeSeq + 1)))
  }

  /** A drain rewrites the lower file without a new write sequence; `data` is how far it gets. */
  ghost function DoDrainPart(c: Core, data: Content): Core
  {
    var k, st := c.env.k, Staged(c);
    if c.over.None? || k.current !in c.env.files || !PartDrained(c.env.files[k.current], data, st.stage, st.ranges) then c
    else WithFiles(c, c.env.files[k.current := data])
  }

  ghost function DoDrainDone(c: Core, data: Content): Core
  {
    var c', st := DoDrainPart(c, data), Staged(c);
    if c.over.None? || c.env.k.current !in c.env.files
       || !PartDrained(c.env.files[c.env.k.current], data, st.stage, st.ranges)
       || !DrainedTo(data, st.stage, st.ranges, LastEnd(st.ranges)) then c
    else c'.(over := None)
  }

  /** The planner reads the row; what it plans from it may be queued much later. */
  function DoNotice(s: Sys): Sys
  {
    var row := s.core.env.row;
    if s.proc.booting || row.state != Placed then s
    else s.(proc := s.proc.(offered := s.proc.offered + {row.cur}))
  }

  function DoEmit(s: Sys, src: Tier, dst: Tier, lun: bool): Sys
  {
    if s.proc.booting || src !in s.proc.offered then s else
    var q := s.proc.issued + 1;
    var p := Plan(src, dst, q, lun);
    s.(proc := s.proc.(issued := q, plans := s.proc.plans[q := p],
                       workers := s.proc.workers[q := Worker(p, Queued, 0, 0, 0, [])]))
  }

  function DoLook(s: Sys, q: nat): Sys
    requires At(s, q, Queued)
  {
    var c, k := s.core, s.core.env.k;
    if k.state != Placed || c.over.Some? || k.pin == PinLun then Exit(s, c, q)
    else To(s, c, q, WorkerOf(s, q).(pc := Looked, expected := k.writeSeq))
  }

  function DoTakeIntent(s: Sys, q: nat, ok: bool): Sys
    requires At(s, q, Looked)
  {
    var c, p := s.core, WorkerOf(s, q).plan;
    if !ok || !Claimable(c.env.row.state) then Exit(s, c, q)
    else Goto(s, c.(env := c.env.(row := c.env.row.(state := PlanAccepted, intended := Some(p.dst), txn := q),
                                  log := c.env.log[q := Route(p.src, p.dst)])), q, Intent)
  }

  function DoMovePlan(s: Sys, q: nat, pool: Pool, g: Gate, ok: bool): Sys
    requires At(s, q, Intent)
  {
    var c, dst := s.core, WorkerOf(s, q).plan.dst;
    if PlanReply(pool, c.env.k, dst, g) != Ok then Goto(s, c, q, Aborting)
    else Goto(s, WithKernel(c, PlanApply(pool, c.env.k, dst, q, g)).(origin := c.env.k.current), q,
              if ok then Planned else Aborting)
  }

  function DoStatSrc(s: Sys, q: nat): Sys
    requires At(s, q, Planned)
  {
    var c, w := s.core, WorkerOf(s, q);
    if w.plan.src !in c.env.files then Goto(s, c, q, Undo)
    else To(s, c, q, w.(pc := Statted, size := |c.env.files[w.plan.src]|))
  }

  function DoOpenDst(s: Sys, q: nat): Sys
    requires At(s, q, Statted)
  {
    var c, w := s.core, WorkerOf(s, q);
    if w.plan.src !in c.env.files then Goto(s, c, q, Undo)
    else To(s, WithFiles(c, c.env.files[w.plan.dst := []]), q,
            w.(pc := Copying, copySize := |c.env.files[w.plan.src]|, stream := []))
  }

  function DoCopyChunk(s: Sys, q: nat, n: nat): Sys
    requires At(s, q, Copying)
  {
    var c, w := s.core, WorkerOf(s, q);
    if w.plan.src !in c.env.files || w.plan.dst !in c.env.files then Goto(s, c, q, Undo) else
    var chunk := ReadAt(c.env.files[w.plan.src], |w.stream|, n);
    To(s, WithFiles(c, c.env.files[w.plan.dst := c.env.files[w.plan.dst] + chunk]), q,
       w.(stream := w.stream + chunk))
  }

  function DoCopyEnd(s: Sys, q: nat): Sys
    requires At(s, q, Copying)
  {
    var c, w := s.core, WorkerOf(s, q);
    Goto(s, c, q,
         if w.plan.src in c.env.files && |w.stream| >= |c.env.files[w.plan.src]| && |w.stream| == w.copySize
         then Copied else Undo)
  }

  function DoCheckDst(h: Hash, s: Sys, q: nat): Sys
    requires At(s, q, Copied)
  {
    var c, w := s.core, WorkerOf(s, q);
    Goto(s, c, q, if w.plan.dst in c.env.files && h(c.env.files[w.plan.dst]) == h(w.stream) then DstChecked else Undo)
  }

  function DoCheckSrc(s: Sys, q: nat): Sys
    requires At(s, q, DstChecked)
  {
    var c, w := s.core, WorkerOf(s, q);
    Goto(s, c, q, if w.plan.src in c.env.files && |c.env.files[w.plan.src]| == w.size then SrcChecked else Undo)
  }

  function DoHashSrc(h: Hash, s: Sys, q: nat): Sys
    requires At(s, q, SrcChecked)
  {
    var c, w := s.core, WorkerOf(s, q);
    Goto(s, c, q, if w.plan.src in c.env.files && h(c.env.files[w.plan.src]) == h(w.stream) then SrcHashed else Undo)
  }

  function DoLookAgain(s: Sys, q: nat): Sys
    requires At(s, q, SrcHashed)
  {
    var c := s.core;
    Goto(s, c, q, if c.env.k.writeSeq == WorkerOf(s, q).expected && c.over.None? then Ready else Undo)
  }

  function DoCutMark(s: Sys, q: nat, pool: Pool, mapped: bool): Sys
    requires At(s, q, Ready)
  {
    var c := s.core;
    if MarkReply(pool, c.env.k, q, mapped) != Ok then Goto(s, c, q, Undo)
    else Goto(s, WithKernel(c, MarkApply(pool, c.env.k, q, mapped))
                 .(pend := Some(KernelRun.Call(q, WorkerOf(s, q).expected, true))), q, InCutover)
  }

  /** The reply reaches the worker if it is still there. */
  function Return(s: Sys, c: Core, q: nat, pc: Pc): Sys
  {
    if At(s, q, InCutover) then Goto(s, c, q, pc) else s.(core := c)
  }

  function DoCutTimeout(s: Sys): Sys
  {
    var c := s.core;
    if c.pend.None? then s else
    Return(s, WithKernel(c, TimeoutApply(c.env.k)).(pend := None), c.pend.value.txn, Undo)
  }

  /** What the destination amounts to at commit; `other` is any later failure. */
  function DestReply(e: Env, other: Errno): Errno
  {
    if e.k.intended !in e.files then ENoEnt
    else if e.k.current in e.files && |e.files[e.k.intended]| < |e.files[e.k.current]| then EAgain
    else other
  }

  function DoCutCommit(s: Sys, other: Errno): Sys
  {
    var c := s.core;
    if c.pend.None? then s else
    var call, dest := c.pend.value, DestReply(c.env, other);
    Return(s, WithKernel(c, CommitApply(c.env.k, call.expected, call.check, dest)).(pend := None), call.txn,
           if CommitReply(c.env.k, call.expected, call.check, dest) == Ok then Cut else Undo)
  }

  function DoRemoveSrc(s: Sys, q: nat): Sys
    requires At(s, q, Cut)
  {
    Goto(s, WithFiles(s.core, s.core.env.files - {WorkerOf(s, q).plan.src}), q, SrcRemoved)
  }

  function DoMoveComplete(s: Sys, q: nat, ok: bool): Sys
    requires At(s, q, SrcSynced)
  {
    var c := s.core;
    if CompleteReply(c.env.k, q, Ok) != Ok then Goto(s, c, q, CleanupFailed)
    else Goto(s, WithKernel(c, CompleteApply(c.env.k, q, Ok)), q, if ok then Completed else CleanupFailed)
  }

  function DoFinalize(s: Sys, q: nat, ok: bool): Sys
    requires At(s, q, Completed)
  {
    var c := s.core;
    Exit(s, if ok then WithRow(c, c.env.row.(state := Placed, cur := WorkerOf(s, q).plan.dst, intended := None))
            else c, q)
  }

  function DoFailAfterSwitch(s: Sys, q: nat, ok: bool): Sys
    requires At(s, q, Cut)
  {
    var c := s.core;
    Exit(s, if ok then WithRow(c, c.env.row.(state := Failed, cur := WorkerOf(s, q).plan.dst, intended := None))
            else c, q)
  }

  /** Any failure before the cutover. Only a failed mkdir leaves the destination alone. */
  function DoGiveUp(s: Sys, q: nat, sweep: bool): Sys
    requires q in s.proc.workers
  {
    var pc := WorkerOf(s, q).pc;
    if pc == Planned then Goto(s, s.core, q, if sweep then Undo else Aborting)
    else if pc.Statted? || pc.Copying? || pc.Copied? || pc.DstChecked? || pc.SrcChecked? || pc.SrcHashed? || pc.Ready?
    then Goto(s, s.core, q, Undo)
    else s
  }

  function DoUndoDst(s: Sys, q: nat, ok: bool): Sys
    requires At(s, q, Undo)
  {
    var c := s.core;
    Goto(s, if ok then WithFiles(c, c.env.files - {WorkerOf(s, q).plan.dst}) else c, q, Aborting)
  }

  function DoAbortRow(s: Sys, q: nat, ok: bool): Sys
    requires At(s, q, Aborting)
  {
    var c := s.core;
    Exit(s, if ok then WithRow(c, c.env.row.(state := Failed, intended := None)) else c, q)
  }

  function DoCleanupGiveUp(s: Sys, q: nat): Sys
    requires q in s.proc.workers
  {
    var pc := WorkerOf(s, q).pc;
    if pc.Cut? || pc.SrcRemoved? || pc.SrcSynced? then Goto(s, s.core, q, CleanupFailed) else s
  }

  function DoPersist(s: Sys, q: nat, st: MoveState): Sys
    requires q in s.proc.workers
  {
    var c, w := s.core, WorkerOf(s, q);
    if !Persists(w.pc, st) then s
    else s.(core := WithRow(c, c.env.row.(state := st, intended := Some(w.plan.dst), txn := q)))
  }

  function DoLogEntry(s: Sys, q: nat): Sys
    requires q in s.proc.workers
  {
    var c, p := s.core, WorkerOf(s, q).plan;
    s.(core := c.(env := c.env.(log := c.env.log[q := Route(p.src, p.dst)])))
  }

  function DoCrash(s: Sys): Sys
  {
    s.(proc := Proc(true, Idle, {}, map[], 0, map[]))
  }

  function DoScan(s: Sys): Sys
  {
    var row, p := s.core.env.row, s.proc;
    if !p.booting || !Unsettled(row.state) || !(p.rec.Idle? || p.rec.Finished?) then s
    else s.(proc := p.(rec := Scanned(row)))
  }

  function DoRecNext(s: Sys, ok: bool): Sys
  {
    var (r, e) := Next(s.proc.rec, s.core.env);
    Sys(s.core.(env := e), s.proc.(rec := if ok then r else Idle))
  }

  function DoBoot(s: Sys): Sys
  {
    var p := s.proc;
    if p.rec.Idle? || p.rec.Finished? then s.(proc := p.(booting := false, rec := Idle)) else s
  }

  ghost function Step(h: Hash, s: Sys, a: Action): Sys
  {
    match a
    case ClientWrite(data) => s.(core := DoClientWrite(s.core, data))
    case StageWrite(pos, data, ranges) => s.(core := DoStageWrite(s.core, pos, data, ranges))
    case DrainPart(data) => s.(core := DoDrainPart(s.core, data))
    case DrainDone(data) => s.(core := DoDrainDone(s.core, data))
    case Notice => DoNotice(s)
    case Emit(src, dst, lun) => DoEmit(s, src, dst, lun)
    case Look(q) => if At(s, q, Queued) then DoLook(s, q) else s
    case TakeIntent(q, ok) => if At(s, q, Looked) then DoTakeIntent(s, q, ok) else s
    case MovePlan(q, pool, g, ok) => if At(s, q, Intent) then DoMovePlan(s, q, pool, g, ok) else s
    case StatSrc(q) => if At(s, q, Planned) then DoStatSrc(s, q) else s
    case OpenDst(q) => if At(s, q, Statted) then DoOpenDst(s, q) else s
    case CopyChunk(q, n) => if At(s, q, Copying) then DoCopyChunk(s, q, n) else s
    case CopyEnd(q) => if At(s, q, Copying) then DoCopyEnd(s, q) else s
    case CheckDst(q) => if At(s, q, Copied) then DoCheckDst(h, s, q) else s
    case CheckSrc(q) => if At(s, q, DstChecked) then DoCheckSrc(s, q) else s
    case HashSrc(q) => if At(s, q, SrcChecked) then DoHashSrc(h, s, q) else s
    case LookAgain(q) => if At(s, q, SrcHashed) then DoLookAgain(s, q) else s
    case CutMark(q, pool, mapped) => if At(s, q, Ready) then DoCutMark(s, q, pool, mapped) else s
    case RemoveSrc(q) => if At(s, q, Cut) then DoRemoveSrc(s, q) else s
    case SyncSrc(q) => if At(s, q, SrcRemoved) then Goto(s, s.core, q, SrcSynced) else s
    case MoveComplete(q, ok) => if At(s, q, SrcSynced) then DoMoveComplete(s, q, ok) else s
    case Finalize(q, ok) => if At(s, q, Completed) then DoFinalize(s, q, ok) else s
    case FailAfterSwitch(q, ok) => if At(s, q, Cut) then DoFailAfterSwitch(s, q, ok) else s
    case GiveUp(q, sweep) => if q in s.proc.workers then DoGiveUp(s, q, sweep) else s
    case UndoDst(q, ok) => if At(s, q, Undo) then DoUndoDst(s, q, ok) else s
    case AbortRow(q, ok) => if At(s, q, Aborting) then DoAbortRow(s, q, ok) else s
    case CleanupGiveUp(q) => if q in s.proc.workers then DoCleanupGiveUp(s, q) else s
    case CleanupExit(q) => if At(s, q, CleanupFailed) then Exit(s, s.core, q) else s
    case Persist(q, st) => if q in s.proc.workers then DoPersist(s, q, st) else s
    case LogEntry(q) => if q in s.proc.workers then DoLogEntry(s, q) else s
    case CutTimeout => DoCutTimeout(s)
    case CutCommit(other) => DoCutCommit(s, other)
    case Crash => DoCrash(s)
    case Scan => DoScan(s)
    case RecNext(ok) => DoRecNext(s, ok)
    case RecFail => s.(proc := s.proc.(rec := Idle))
    case Boot => DoBoot(s)
  }

  ghost function Run(h: Hash, s: Sys, acts: seq<Action>): Sys
  {
    if acts == [] then s else Step(h, Run(h, s, acts[..|acts| - 1]), acts[|acts| - 1])
  }

  /** One placed copy, the row agrees, the process is about to start. */
  predicate Initial(s: Sys)
  {
    var c, k := s.core, s.core.env.k;
    && k.state == Placed && k.intended == k.current
    && c.env.files == map[k.current := c.truth]
    && c.env.row == Row(Placed, k.current, None, k.txn, c.env.row.lun)
    && c.pend == None && c.over == None
    && s.proc == Proc(true, Idle, {}, map[], 0, map[])
  }
}
