/** Where recovery stops short: the states from which no recovery ever succeeds, exactly, and
    three ways to get there. */
module ProtocolStuck {
  import opened Kernel
  import opened Bytes
  import opened Recovery
  import opened Ranges
  import opened Overlay
  import opened Protocol
  import opened ProtocolSafety

  /** Between two processes: an unsettled row, no cutover in progress, no recovery past its
      checks. */
  ghost predicate Resting(s: Sys)
  {
    && Inv(s) && s.proc.offered == {}
    && Unsettled(s.core.env.row.state) && s.core.env.k.state != CutoverInProgress
    && (s.proc.rec.Idle? || s.proc.rec.Scanned? || s.proc.rec.Inspected? || s.proc.rec.Finished?)
  }

  /** The kernel and the row have come apart. */
  ghost predicate Stuck(s: Sys)
  {
    Resting(s) && !Settleable(s.core.env)
  }

  predicate ByClient(a: Action)
  {
    a.ClientWrite? || a.StageWrite? || a.DrainPart? || a.DrainDone?
  }

  predicate ByProcess(a: Action)
  {
    a.Crash? || a.Scan? || a.RecNext? || a.RecFail? || a.Boot?
  }

  // Without workers, offers or a pending cutover nobody else can do anything.
  lemma NobodyElse(h: Hash, s: Sys, a: Action)
    requires s.proc.workers == map[] && s.proc.offered == {} && s.core.pend.None? && s.core.env.row.state != Placed
    requires !ByClient(a) && !ByProcess(a)
    ensures Step(h, s, a) == s
  {
  }

  lemma ClientsChange(h: Hash, s: Sys, a: Action)
    requires ByClient(a)
    ensures var s' := Step(h, s, a); var e, e' := s.core.env, s'.core.env;
            && s'.proc == s.proc && e'.row == e.row && e'.log == e.log && StillTrue(e.k, e'.k)
            && (e.k.current in e.files ==> e'.files.Keys == e.files.Keys)
  {
    hide Extends, PartDrained, DrainedTo, WriteAt;
  }

  lemma ProcessChanges(h: Hash, s: Sys, a: Action)
    requires Stuck(s) && ByProcess(a)
    ensures var s' := Step(h, s, a);
            && s'.core == s.core && s'.proc.offered == {}
            && (s'.proc.rec.Idle? || s'.proc.rec.Scanned? || s'.proc.rec.Inspected? || s'.proc.rec.Finished?)
  {
    hide CoreInv, WorkersInv, ProcessInv;
  }

  lemma StuckStep(h: Hash, s: Sys, a: Action)
    requires Stuck(s)
    ensures Stuck(Step(h, s, a))
    ensures var e, e' := s.core.env, Step(h, s, a).core.env;
            e'.row == e.row && StillTrue(e.k, e'.k)
  {
    hide Step, WorkersInv, RecInv, SettledInv, RouteInv, Merged;
    StepKeeps(h, s, a);
    assert s.proc.workers == map[] by { assert s.proc.workers.Keys <= s.proc.plans.Keys; }
    assert s.core.pend.None?;
    if ByClient(a) { ClientsChange(h, s, a); } else if ByProcess(a) { ProcessChanges(h, s, a); } else { NobodyElse(h, s, a); }
  }

  /** From there no run, however long and with however many recoveries, changes the kernel's
      transaction or the row again, and every recovery refuses. */
  lemma {:induction false} StuckStays(h: Hash, s: Sys, acts: seq<Action>)
    requires Stuck(s)
    ensures Stuck(Run(h, s, acts)) && Recover(Run(h, s, acts).core.env) == (Idle, Run(h, s, acts).core.env)
    ensures var e, e' := s.core.env, Run(h, s, acts).core.env;
            e'.row == e.row && StillTrue(e.k, e'.k)
  {
    hide Step, Inv;
    if acts == [] {
    } else {
      StuckStays(h, s, acts[..|acts| - 1]);
      StuckStep(h, Run(h, s, acts[..|acts| - 1]), acts[|acts| - 1]);
    }
    RefusalChangesNothing(Run(h, s, acts).core.env, 0);
  }

  // ---- exactly when a recovery can succeed ------------------------------------------

  function RecSteps(n: nat): seq<Action>
  {
    if n == 0 then [] else RecSteps(n - 1) + [RecNext(true)]
  }

  /** Undisturbed, the effects of a recovery follow each other. */
  lemma {:induction false} RecoveryRuns(h: Hash, s: Sys, n: nat)
    ensures Run(h, s, RecSteps(n)).core.env == Iterate(s.proc.rec, s.core.env, n).1
    ensures Run(h, s, RecSteps(n)).proc.rec == Iterate(s.proc.rec, s.core.env, n).0
  {
    hide Next, Step, Iterate;
    if n == 0 {
      IterateNone(s.proc.rec, s.core.env);
    } else {
      RecoveryRuns(h, s, n - 1);
      RecStep(h, Run(h, s, RecSteps(n - 1)));
      var acts := RecSteps(n);
      assert acts[..|acts| - 1] == RecSteps(n - 1) && acts[|acts| - 1] == RecNext(true);
      IterateMore(s.proc.rec, s.core.env, n - 1);
    }
  }

  lemma RecStep(h: Hash, s: Sys)
    ensures Step(h, s, RecNext(true)) == DoRecNext(s, true)
  {
  }

  lemma IterateNone(r: Rec, e: Env)
    ensures Iterate(r, e, 0) == (r, e)
  {
  }

  lemma {:induction false} IterateMore(r: Rec, e: Env, n: nat)
    ensures Iterate(r, e, n + 1) == Next(Iterate(r, e, n).0, Iterate(r, e, n).1)
    decreases n
  {
    hide Next;
    var (r', e') := Next(r, e);
    if n > 0 {
      IterateMore(r', e', n - 1);
      assert Iterate(r, e, n) == Iterate(r', e', n - 1);
      assert Iterate(r, e, n + 1) == Iterate(r', e', n);
    } else {
      assert Iterate(r', e', 0) == (r', e');
    }
  }

  /** The process ends, boots, scans the row and recovers. */
  function RecoverActs(): seq<Action>
  {
    [Crash, Scan] + RecSteps(EFFECTS)
  }

  lemma RecoverActsRecover(h: Hash, s: Sys)
    requires Unsettled(s.core.env.row.state)
    ensures Run(h, s, RecoverActs()).core.env == Recover(s.core.env).1
  {
    hide Run, Step, Iterate, RecSteps;
    RunConcat(h, s, [Crash, Scan], RecSteps(EFFECTS));
    CrashAndScan(h, s);
    RecoveryRuns(h, Run(h, s, [Crash, Scan]), EFFECTS);
  }

  lemma ProcessSteps(h: Hash, s: Sys)
    ensures Step(h, s, Crash) == DoCrash(s) && Step(h, s, Scan) == DoScan(s)
  {
  }

  lemma CrashAndScan(h: Hash, s: Sys)
    requires Unsettled(s.core.env.row.state)
    ensures var s' := Run(h, s, [Crash, Scan]); s'.core == s.core && s'.proc.rec == Scanned(s.core.env.row)
  {
    hide Run, Step;
    ProcessSteps(h, s);
    ProcessSteps(h, DoCrash(s));
    RunTwo(h, s, Crash, DoCrash(s), Scan);
  }

  /** The row of a resting object can ever be settled exactly when it can be settled now: when
      the kernel's transaction is the row's or over, and the kernel is at the end of the recorded
      route that its phase says. A LUN's failed row keeps saying failed, so it is set apart. */
  lemma RecoverableIff(h: Hash, s: Sys)
    requires Resting(s) && !(s.core.env.row.lun && s.core.env.row.state == Failed)
    ensures (exists acts :: !Unsettled(Run(h, s, acts).core.env.row.state)) <==> Settleable(s.core.env)
  {
    hide Run, Step, Inv;
    if Settleable(s.core.env) {
      SettlesExactlyWhen(s.core.env);
      RecoverActsRecover(h, s);
      assert !Unsettled(Run(h, s, RecoverActs()).core.env.row.state);
    } else {
      forall acts ensures Unsettled(Run(h, s, acts).core.env.row.state) {
        StuckStays(h, s, acts);
      }
    }
  }

  /** Runs compose. */
  lemma {:induction false} RunConcat(h: Hash, s: Sys, a: seq<Action>, b: seq<Action>)
    ensures Run(h, s, a + b) == Run(h, Run(h, s, a), b)
  {
    hide Step;
    if b == [] {
      assert a + b == a;
    } else {
      assert (a + b)[..|a + b| - 1] == a + b[..|b| - 1];
      RunConcat(h, s, a, b[..|b| - 1]);
    }
  }

  lemma RunTwo(h: Hash, s: Sys, a: Action, s1: Sys, b: Action)
    requires Step(h, s, a) == s1
    ensures Run(h, s, [a, b]) == Step(h, s1, b)
  {
    hide Step;
    assert [a, b][..1] == [a] && [a][..0] == [];
    assert Run(h, s, [a]) == s1;
  }

  // ---- three ways there ----------------------------------------------------------------

  const MOVABLE := Gate(false, 1, false, true)

  predicate CanGo(pool: Pool, dst: Tier)
  {
    dst < pool.ntiers && !pool.cacheMode && !pool.quiesced
  }

  /** Workers 1 and 2 are where `pc` and `pc2` say, with plans from `t` to `dst` and `dst2`, and
      nothing is staged or pinned. */
  predicate Two(s: Sys, pc: Pc, pc2: Pc, t: Tier, dst: Tier, dst2: Tier)
  {
    && At(s, 1, pc) && WorkerOf(s, 1).plan.src == t && WorkerOf(s, 1).plan.dst == dst
    && At(s, 2, pc2) && WorkerOf(s, 2).plan.src == t && WorkerOf(s, 2).plan.dst == dst2
    && s.core.over.None? && s.core.pend.None? && s.core.env.k.pin == PinNone
  }

  /** Two plans are made for the same tier. */
  function TwoPlans(t: Tier, dst: Tier, dst2: Tier): seq<Action>
  {
    [Boot, Notice] + [Emit(t, dst, false), Emit(t, dst2, false)]
  }

  lemma PlansMade(h: Hash, s: Sys, dst: Tier, dst2: Tier)
    requires Initial(s) && s.core.env.k.pin == PinNone
    ensures var t := s.core.env.k.current; var s' := Run(h, s, TwoPlans(t, dst, dst2));
            s'.core == s.core && Two(s', Queued, Queued, t, dst, dst2)
  {
    var t := s.core.env.k.current;
    hide Run, Step;
    RunConcat(h, s, [Boot, Notice], [Emit(t, dst, false), Emit(t, dst2, false)]);
    BootSteps(h, s);
    BootSteps(h, DoBoot(s));
    RunTwo(h, s, Boot, DoBoot(s), Notice);
    Emits(h, DoNotice(DoBoot(s)), t, dst, dst2);
  }

  lemma BootSteps(h: Hash, s: Sys)
    ensures Step(h, s, Boot) == DoBoot(s) && Step(h, s, Notice) == DoNotice(s)
  {
  }

  lemma Emits(h: Hash, s: Sys, t: Tier, dst: Tier, dst2: Tier)
    requires !s.proc.booting && t in s.proc.offered && s.proc.issued == 0
    requires s.core.over.None? && s.core.pend.None? && s.core.env.k.pin == PinNone
    ensures var s' := Run(h, s, [Emit(t, dst, false), Emit(t, dst2, false)]);
            s'.core == s.core && Two(s', Queued, Queued, t, dst, dst2)
  {
    hide Run;
    RunTwo(h, s, Emit(t, dst, false), DoEmit(s, t, dst, false), Emit(t, dst2, false));
  }

  // -- the first plan fails after the second has looked: its transaction is forgotten

  function OvertakenPlan(t: Tier, dst: Tier, pool: Pool): seq<Action>
  {
    TwoPlans(t, dst, dst) + [Look(1), Look(2)] + [TakeIntent(1, true), MovePlan(1, pool, MOVABLE, true)]
    + [GiveUp(1, false), AbortRow(1, true)] + [TakeIntent(2, true), MovePlan(2, pool, MOVABLE, true)] + [AbortRow(2, true), Crash]
  }

  lemma TwoLooks(h: Hash, s: Sys, t: Tier, dst: Tier)
    requires s.core.env.k.state == Placed && Two(s, Queued, Queued, t, dst, dst)
    ensures var s' := Run(h, s, [Look(1), Look(2)]); s'.core == s.core && Two(s', Looked, Looked, t, dst, dst)
  {
    hide Run;
    RunTwo(h, s, Look(1), DoLook(s, 1), Look(2));
  }

  lemma ClaimSteps(h: Hash, s: Sys, q: nat, pool: Pool)
    ensures At(s, q, Looked) ==> Step(h, s, TakeIntent(q, true)) == DoTakeIntent(s, q, true)
    ensures At(s, q, Intent) ==> Step(h, s, MovePlan(q, pool, MOVABLE, true)) == DoMovePlan(s, q, pool, MOVABLE, true)
  {
    hide DoTakeIntent, DoMovePlan;
  }

  lemma FirstAccepted(h: Hash, s: Sys, t: Tier, dst: Tier, pool: Pool)
    requires Two(s, Looked, Looked, t, dst, dst) && s.core.env.row.state == Placed && PlanReply(pool, s.core.env.k, dst, MOVABLE) == Ok
    ensures var s' := Run(h, s, [TakeIntent(1, true), MovePlan(1, pool, MOVABLE, true)]);
            At(s', 1, Planned) && At(s', 2, Looked) && s'.core.env.k.state == PlanAccepted && s'.core.env.k.txn == 1
  {
    hide Run, Step;
    ClaimSteps(h, s, 1, pool);
    ClaimSteps(h, DoTakeIntent(s, 1, true), 1, pool);
    RunTwo(h, s, TakeIntent(1, true), DoTakeIntent(s, 1, true), MovePlan(1, pool, MOVABLE, true));
  }

  lemma FirstFails(h: Hash, s: Sys)
    requires At(s, 1, Planned) && At(s, 2, Looked)
    ensures var s' := Run(h, s, [GiveUp(1, false), AbortRow(1, true)]);
            At(s', 2, Looked) && s'.core.env.k == s.core.env.k && s'.core.env.row.state == Failed
  {
    hide Run;
    RunTwo(h, s, GiveUp(1, false), DoGiveUp(s, 1, false), AbortRow(1, true));
  }

  lemma SecondClaims(h: Hash, s: Sys, pool: Pool)
    requires At(s, 2, Looked) && s.core.env.row.state == Failed && s.core.env.k.state == PlanAccepted
    ensures var s' := Run(h, s, [TakeIntent(2, true), MovePlan(2, pool, MOVABLE, true)]);
            At(s', 2, Aborting) && s'.core.env.k == s.core.env.k && s'.core.env.row.txn == 2
  {
    hide Run, Step;
    ClaimSteps(h, s, 2, pool);
    ClaimSteps(h, DoTakeIntent(s, 2, true), 2, pool);
    RunTwo(h, s, TakeIntent(2, true), DoTakeIntent(s, 2, true), MovePlan(2, pool, MOVABLE, true));
  }

  lemma EndSteps(h: Hash, s: Sys)
    requires At(s, 2, Aborting)
    ensures Step(h, s, AbortRow(2, true)) == DoAbortRow(s, 2, true)
  {
  }

  lemma AbortAndEnd(h: Hash, s: Sys)
    requires At(s, 2, Aborting)
    ensures var s' := Run(h, s, [AbortRow(2, true), Crash]);
            && s'.core.env == s.core.env.(row := s.core.env.row.(state := Failed, intended := None))
            && s'.proc == Proc(true, Idle, {}, map[], 0, map[])
  {
    hide Run, Step;
    EndSteps(h, s);
    ProcessSteps(h, DoAbortRow(s, 2, true));
    RunTwo(h, s, AbortRow(2, true), DoAbortRow(s, 2, true), Crash);
  }

  /** The second worker claims the failed row; the kernel still holds the first transaction. */
  lemma OvertakenPlanSticks(h: Hash, s: Sys, dst: Tier, pool: Pool)
    requires Initial(s) && s.core.env.k.pin == PinNone && dst != s.core.env.k.current && CanGo(pool, dst)
    ensures Stuck(Run(h, s, OvertakenPlan(s.core.env.k.current, dst, pool)))
  {
    var t := s.core.env.k.current;
    EveryRun(h, s, OvertakenPlan(t, dst, pool));
    hide Run, Step, Inv, Settleable;
    var acts := TwoPlans(t, dst, dst);
    PlansMade(h, s, dst, dst);
    TwoLooks(h, Run(h, s, acts), t, dst);
    RunConcat(h, s, acts, [Look(1), Look(2)]);
    acts := acts + [Look(1), Look(2)];
    FirstAccepted(h, Run(h, s, acts), t, dst, pool);
    RunConcat(h, s, acts, [TakeIntent(1, true), MovePlan(1, pool, MOVABLE, true)]);
    acts := acts + [TakeIntent(1, true), MovePlan(1, pool, MOVABLE, true)];
    FirstFails(h, Run(h, s, acts));
    RunConcat(h, s, acts, [GiveUp(1, false), AbortRow(1, true)]);
    acts := acts + [GiveUp(1, false), AbortRow(1, true)];
    SecondClaims(h, Run(h, s, acts), pool);
    RunConcat(h, s, acts, [TakeIntent(2, true), MovePlan(2, pool, MOVABLE, true)]);
    acts := acts + [TakeIntent(2, true), MovePlan(2, pool, MOVABLE, true)];
    AbortAndEnd(h, Run(h, s, acts));
    RunConcat(h, s, acts, [AbortRow(2, true), Crash]);
    Forgotten(Run(h, s, acts + [AbortRow(2, true), Crash]).core.env);
  }

  lemma Forgotten(e: Env)
    requires e.k.state != Placed && e.k.txn != e.row.txn
    ensures !Settleable(e)
  {
  }

  // -- the first plan moves the object, the second finds it gone

  /** The whole movement of worker 1, then worker 2 looks. */
  function FirstMoves(dst: Tier, pool: Pool, n: nat): seq<Action>
  {
    [Look(1), TakeIntent(1, true)] + [MovePlan(1, pool, MOVABLE, true), StatSrc(1)] + [OpenDst(1), CopyChunk(1, n)]
    + [CopyEnd(1), CheckDst(1)] + [CheckSrc(1), HashSrc(1)] + [LookAgain(1), CutMark(1, pool, false)]
    + [CutCommit(Ok), RemoveSrc(1)] + [SyncSrc(1), MoveComplete(1, true)] + [Finalize(1, true), Look(2)]
  }

  /** Worker 1 is on its way from `t` to `dst`, undisturbed. */
  predicate OnTheWay(s: Sys, pc: Pc, t: Tier, dst: Tier, dst2: Tier)
  {
    var c, k := s.core, s.core.env.k;
    && Two(s, pc, Queued, t, dst, dst2) && WorkerOf(s, 1).expected == k.writeSeq
    && k.state == PlanAccepted && k.current == t && k.intended == dst && k.txn == 1
    && t in c.env.files && WorkerOf(s, 1).size == |c.env.files[t]|
  }

  /** And has copied everything. */
  predicate CopyMade(s: Sys, t: Tier, dst: Tier)
  {
    var c := s.core;
    && 1 in s.proc.workers && t in c.env.files && dst in c.env.files
    && c.env.files[dst] == c.env.files[t] == WorkerOf(s, 1).stream && WorkerOf(s, 1).copySize == |c.env.files[t]|
  }

  lemma FirstIntends(h: Hash, s: Sys, t: Tier, dst: Tier, dst2: Tier)
    requires Two(s, Queued, Queued, t, dst, dst2) && s.core.env.k.state == Placed && s.core.env.row.state == Placed
    ensures var s' := Run(h, s, [Look(1), TakeIntent(1, true)]);
            && Two(s', Intent, Queued, t, dst, dst2) && WorkerOf(s', 1).expected == s'.core.env.k.writeSeq
            && s'.core.env.k == s.core.env.k && s'.core.env.files == s.core.env.files
  {
    hide Run;
    RunTwo(h, s, Look(1), DoLook(s, 1), TakeIntent(1, true));
  }

  lemma FirstPlans(h: Hash, s: Sys, t: Tier, dst: Tier, dst2: Tier, pool: Pool)
    requires Two(s, Intent, Queued, t, dst, dst2) && WorkerOf(s, 1).expected == s.core.env.k.writeSeq
    requires s.core.env.k.state == Placed && s.core.env.k.current == t && t != dst && CanGo(pool, dst) && t in s.core.env.files
    ensures var s' := Run(h, s, [MovePlan(1, pool, MOVABLE, true), StatSrc(1)]);
            OnTheWay(s', Statted, t, dst, dst2) && s'.core.env.files == s.core.env.files
  {
    hide Run;
    RunTwo(h, s, MovePlan(1, pool, MOVABLE, true), DoMovePlan(s, 1, pool, MOVABLE, true), StatSrc(1));
  }

  lemma CopySteps(h: Hash, s: Sys, n: nat)
    ensures At(s, 1, Statted) ==> Step(h, s, OpenDst(1)) == DoOpenDst(s, 1)
    ensures At(s, 1, Copying) ==> Step(h, s, CopyChunk(1, n)) == DoCopyChunk(s, 1, n)
  {
    hide DoOpenDst, DoCopyChunk;
  }

  lemma FirstCopies(h: Hash, s: Sys, t: Tier, dst: Tier, dst2: Tier)
    requires OnTheWay(s, Statted, t, dst, dst2) && t != dst
    ensures var s' := Run(h, s, [OpenDst(1), CopyChunk(1, |s.core.env.files[t]|)]);
            OnTheWay(s', Copying, t, dst, dst2) && CopyMade(s', t, dst)
  {
    hide Run, Step;
    var n := |s.core.env.files[t]|;
    CopySteps(h, s, n);
    CopySteps(h, DoOpenDst(s, 1), n);
    RunTwo(h, s, OpenDst(1), DoOpenDst(s, 1), CopyChunk(1, n));
    assert ReadAt(s.core.env.files[t], 0, n) == s.core.env.files[t];
  }

  lemma FirstChecks(h: Hash, s: Sys, t: Tier, dst: Tier, dst2: Tier)
    requires OnTheWay(s, Copying, t, dst, dst2) && CopyMade(s, t, dst)
    ensures var s' := Run(h, s, [CopyEnd(1), CheckDst(1)]); OnTheWay(s', DstChecked, t, dst, dst2) && CopyMade(s', t, dst)
  {
    hide Run;
    RunTwo(h, s, CopyEnd(1), DoCopyEnd(s, 1), CheckDst(1));
  }

  lemma FirstRechecks(h: Hash, s: Sys, t: Tier, dst: Tier, dst2: Tier)
    requires OnTheWay(s, DstChecked, t, dst, dst2) && CopyMade(s, t, dst)
    ensures var s' := Run(h, s, [CheckSrc(1), HashSrc(1)]); OnTheWay(s', SrcHashed, t, dst, dst2) && CopyMade(s', t, dst)
  {
    hide Run;
    RunTwo(h, s, CheckSrc(1), DoCheckSrc(s, 1), HashSrc(1));
  }

  lemma MarkSteps(h: Hash, s: Sys, pool: Pool)
    ensures At(s, 1, SrcHashed) ==> Step(h, s, LookAgain(1)) == DoLookAgain(s, 1)
    ensures At(s, 1, Ready) ==> Step(h, s, CutMark(1, pool, false)) == DoCutMark(s, 1, pool, false)
  {
    hide DoLookAgain, DoCutMark;
  }

  lemma FirstMarks(h: Hash, s: Sys, t: Tier, dst: Tier, dst2: Tier, pool: Pool)
    requires OnTheWay(s, SrcHashed, t, dst, dst2) && CopyMade(s, t, dst) && CanGo(pool, dst)
    ensures var s' := Run(h, s, [LookAgain(1), CutMark(1, pool, false)]);
            && At(s', 1, InCutover) && s'.core.pend.Some? && s'.core.pend.value.txn == 1
            && s'.core.pend.value.expected == s'.core.env.k.writeSeq
            && s'.core.env == s.core.env.(k := s.core.env.k.(state := CutoverInProgress)) && s'.core.over == s.core.over
            && s'.proc.workers == s.proc.workers[1 := WorkerOf(s, 1).(pc := InCutover)]
  {
    hide Run, Step;
    MarkSteps(h, s, pool);
    MarkSteps(h, DoLookAgain(s, 1), pool);
    RunTwo(h, s, LookAgain(1), DoLookAgain(s, 1), CutMark(1, pool, false));
  }

  /** Worker 1 is done with the source, worker 2 still waits. */
  predicate Switched1(s: Sys, pc: Pc, t: Tier, dst: Tier, dst2: Tier)
  {
    var c, k := s.core, s.core.env.k;
    && Two(s, pc, Queued, t, dst, dst2) && k.state == Switched && k.current == dst && k.txn == 1 && t !in c.env.files
  }

  lemma FirstSwitches(h: Hash, s: Sys, t: Tier, dst: Tier, dst2: Tier)
    requires Two(s.(core := s.core.(pend := None)), InCutover, Queued, t, dst, dst2) && t != dst
    requires s.core.pend.Some? && s.core.pend.value.txn == 1 && s.core.pend.value.expected == s.core.env.k.writeSeq
    requires var k := s.core.env.k; k.state == CutoverInProgress && k.txn == 1 && k.current == t && k.intended == dst
    requires CopyMade(s, t, dst)
    ensures Switched1(Run(h, s, [CutCommit(Ok), RemoveSrc(1)]), SrcRemoved, t, dst, dst2)
  {
    hide Run, Step, DoCutCommit, CopyMade;
    var s1 := DoCutCommit(s, Ok);
    FirstCuts(s, t, dst, dst2);
    CommitStep(h, s);
    RemoveStep(h, s1);
    RunTwo(h, s, CutCommit(Ok), s1, RemoveSrc(1));
  }

  lemma CommitStep(h: Hash, s: Sys)
    ensures Step(h, s, CutCommit(Ok)) == DoCutCommit(s, Ok)
  {
  }

  lemma RemoveStep(h: Hash, s: Sys)
    requires At(s, 1, Cut)
    ensures Step(h, s, RemoveSrc(1)) == DoRemoveSrc(s, 1)
  {
  }

  lemma FirstCuts(s: Sys, t: Tier, dst: Tier, dst2: Tier)
    requires Two(s.(core := s.core.(pend := None)), InCutover, Queued, t, dst, dst2) && t != dst
    requires s.core.pend.Some? && s.core.pend.value.txn == 1 && s.core.pend.value.expected == s.core.env.k.writeSeq
    requires var k := s.core.env.k; k.state == CutoverInProgress && k.txn == 1 && k.current == t && k.intended == dst
    requires CopyMade(s, t, dst)
    ensures var s' := DoCutCommit(s, Ok);
            && Two(s', Cut, Queued, t, dst, dst2)
            && s'.core.env.k.state == Switched && s'.core.env.k.current == dst && s'.core.env.k.txn == 1
  {
  }

  lemma FirstCompletes(h: Hash, s: Sys, t: Tier, dst: Tier, dst2: Tier)
    requires Switched1(s, SrcRemoved, t, dst, dst2)
    ensures var s' := Run(h, s, [SyncSrc(1), MoveComplete(1, true)]);
            && Two(s', Completed, Queued, t, dst, dst2) && s'.core.env.k.state == Placed && s'.core.env.k.current == dst
            && t !in s'.core.env.files
  {
    hide Run;
    RunTwo(h, s, SyncSrc(1), Goto(s, s.core, 1, SrcSynced), MoveComplete(1, true));
  }

  /** The object is on `dst`, and worker 2 has looked with a plan from `t` to `dst2`. */
  predicate Moved(s: Sys, t: Tier, dst: Tier, dst2: Tier)
  {
    && At(s, 2, Looked) && WorkerOf(s, 2).plan.src == t && WorkerOf(s, 2).plan.dst == dst2
    && s.core.env.k.state == Placed && s.core.env.k.current == dst && s.core.env.k.pin == PinNone
    && s.core.env.row.state == Placed && s.core.env.row.cur == dst && t !in s.core.env.files
  }

  lemma FirstEnds(h: Hash, s: Sys, t: Tier, dst: Tier, dst2: Tier)
    requires Two(s, Completed, Queued, t, dst, dst2) && s.core.env.k.state == Placed && s.core.env.k.current == dst
    requires t !in s.core.env.files
    ensures Moved(Run(h, s, [Finalize(1, true), Look(2)]), t, dst, dst2)
  {
    hide Run;
    RunTwo(h, s, Finalize(1, true), DoFinalize(s, 1, true), Look(2));
  }

  lemma ObjectMoves(h: Hash, s: Sys, dst: Tier, dst2: Tier, pool: Pool)
    requires Initial(s) && s.core.env.k.pin == PinNone && dst != s.core.env.k.current && CanGo(pool, dst)
    ensures var t := s.core.env.k.current;
            Moved(Run(h, s, TwoPlans(t, dst, dst2) + FirstMoves(dst, pool, |s.core.truth|)), t, dst, dst2)
  {
    var t, n := s.core.env.k.current, |s.core.truth|;
    hide Run, Step;
    PlansMade(h, s, dst, dst2);
    var s0 := Run(h, s, TwoPlans(t, dst, dst2));
    RunConcat(h, s, TwoPlans(t, dst, dst2), FirstMoves(dst, pool, n));
    var acts := [Look(1), TakeIntent(1, true)];
    FirstIntends(h, s0, t, dst, dst2);
    FirstPlans(h, Run(h, s0, acts), t, dst, dst2, pool);
    RunConcat(h, s0, acts, [MovePlan(1, pool, MOVABLE, true), StatSrc(1)]);
    acts := acts + [MovePlan(1, pool, MOVABLE, true), StatSrc(1)];
    FirstCopies(h, Run(h, s0, acts), t, dst, dst2);
    RunConcat(h, s0, acts, [OpenDst(1), CopyChunk(1, n)]);
    acts := acts + [OpenDst(1), CopyChunk(1, n)];
    FirstChecks(h, Run(h, s0, acts), t, dst, dst2);
    RunConcat(h, s0, acts, [CopyEnd(1), CheckDst(1)]);
    acts := acts + [CopyEnd(1), CheckDst(1)];
    FirstRechecks(h, Run(h, s0, acts), t, dst, dst2);
    RunConcat(h, s0, acts, [CheckSrc(1), HashSrc(1)]);
    acts := acts + [CheckSrc(1), HashSrc(1)];
    FirstMarks(h, Run(h, s0, acts), t, dst, dst2, pool);
    RunConcat(h, s0, acts, [LookAgain(1), CutMark(1, pool, false)]);
    acts := acts + [LookAgain(1), CutMark(1, pool, false)];
    FirstSwitches(h, Run(h, s0, acts), t, dst, dst2);
    RunConcat(h, s0, acts, [CutCommit(Ok), RemoveSrc(1)]);
    acts := acts + [CutCommit(Ok), RemoveSrc(1)];
    FirstCompletes(h, Run(h, s0, acts), t, dst, dst2);
    RunConcat(h, s0, acts, [SyncSrc(1), MoveComplete(1, true)]);
    acts := acts + [SyncSrc(1), MoveComplete(1, true)];
    FirstEnds(h, Run(h, s0, acts), t, dst, dst2);
    RunConcat(h, s0, acts, [Finalize(1, true), Look(2)]);
  }

  /** The plan was queued twice. The second time it is claimed, the process ends: the row says the
      object is to go where it is. */
  function DuplicatePlan(t: Tier, dst: Tier, pool: Pool, n: nat): seq<Action>
  {
    TwoPlans(t, dst, dst) + FirstMoves(dst, pool, n) + [TakeIntent(2, true), Crash]
  }

  lemma ClaimAndEnd(h: Hash, s: Sys, t: Tier, dst: Tier)
    requires Moved(s, t, dst, dst)
    ensures var s' := Run(h, s, [TakeIntent(2, true), Crash]);
            && s'.core.env.k == s.core.env.k && s'.core.env.row.state == PlanAccepted
            && s'.core.env.row.cur == dst && s'.core.env.row.intended == Some(dst)
            && s'.proc == Proc(true, Idle, {}, map[], 0, map[])
  {
    hide Run;
    RunTwo(h, s, TakeIntent(2, true), DoTakeIntent(s, 2, true), Crash);
  }

  lemma DuplicatePlanSticks(h: Hash, s: Sys, dst: Tier, pool: Pool)
    requires Initial(s) && s.core.env.k.pin == PinNone && dst != s.core.env.k.current && CanGo(pool, dst)
    ensures Stuck(Run(h, s, DuplicatePlan(s.core.env.k.current, dst, pool, |s.core.truth|)))
  {
    var t, n := s.core.env.k.current, |s.core.truth|;
    EveryRun(h, s, DuplicatePlan(t, dst, pool, n));
    hide Run, Step, Inv, FirstMoves, TwoPlans;
    ObjectMoves(h, s, dst, dst, pool);
    ClaimAndEnd(h, Run(h, s, TwoPlans(t, dst, dst) + FirstMoves(dst, pool, n)), t, dst);
    RunConcat(h, s, TwoPlans(t, dst, dst) + FirstMoves(dst, pool, n), [TakeIntent(2, true), Crash]);
  }

  /** The second plan leads elsewhere. The kernel accepts it, its source is gone, the worker gives
      up, the process ends: the log's route does not touch the tier the object is on. */
  function MissedObject(t: Tier, dst: Tier, dst2: Tier, pool: Pool, n: nat): seq<Action>
  {
    TwoPlans(t, dst, dst2) + FirstMoves(dst, pool, n) + [TakeIntent(2, true), MovePlan(2, pool, MOVABLE, true)]
    + [StatSrc(2), UndoDst(2, true)] + [AbortRow(2, true), Crash]
  }

  lemma SecondAccepted(h: Hash, s: Sys, t: Tier, dst: Tier, dst2: Tier, pool: Pool)
    requires Moved(s, t, dst, dst2) && dst2 != dst && CanGo(pool, dst2)
    ensures var s' := Run(h, s, [TakeIntent(2, true), MovePlan(2, pool, MOVABLE, true)]);
            && At(s', 2, Planned) && WorkerOf(s', 2).plan.src == t && WorkerOf(s', 2).plan.dst == dst2
            && s'.core.env.k.state == PlanAccepted && s'.core.env.k.txn == 2 && s'.core.env.k.current == dst
            && s'.core.env.row.txn == 2 && s'.core.env.log == s.core.env.log[2 := Route(t, dst2)] && t !in s'.core.env.files
  {
    hide Run, Step;
    ClaimSteps(h, s, 2, pool);
    ClaimSteps(h, DoTakeIntent(s, 2, true), 2, pool);
    RunTwo(h, s, TakeIntent(2, true), DoTakeIntent(s, 2, true), MovePlan(2, pool, MOVABLE, true));
  }

  lemma MissSteps(h: Hash, s: Sys)
    ensures At(s, 2, Planned) ==> Step(h, s, StatSrc(2)) == DoStatSrc(s, 2)
    ensures At(s, 2, Undo) ==> Step(h, s, UndoDst(2, true)) == DoUndoDst(s, 2, true)
  {
    hide DoStatSrc, DoUndoDst;
  }

  lemma SecondMisses(h: Hash, s: Sys, t: Tier)
    requires At(s, 2, Planned) && WorkerOf(s, 2).plan.src == t && t !in s.core.env.files
    ensures var s' := Run(h, s, [StatSrc(2), UndoDst(2, true)]);
            At(s', 2, Aborting) && s'.core.env.k == s.core.env.k && s'.core.env.row == s.core.env.row && s'.core.env.log == s.core.env.log
  {
    hide Run, Step;
    MissSteps(h, s);
    MissSteps(h, DoStatSrc(s, 2));
    RunTwo(h, s, StatSrc(2), DoStatSrc(s, 2), UndoDst(2, true));
  }

  lemma MissedObjectSticks(h: Hash, s: Sys, dst: Tier, dst2: Tier, pool: Pool)
    requires Initial(s) && s.core.env.k.pin == PinNone && dst != s.core.env.k.current && CanGo(pool, dst)
    requires dst2 != dst && CanGo(pool, dst2)
    ensures Stuck(Run(h, s, MissedObject(s.core.env.k.current, dst, dst2, pool, |s.core.truth|)))
  {
    var t, n := s.core.env.k.current, |s.core.truth|;
    EveryRun(h, s, MissedObject(t, dst, dst2, pool, n));
    hide Run, Step, Inv, FirstMoves, TwoPlans, Settleable;
    var acts := TwoPlans(t, dst, dst2) + FirstMoves(dst, pool, n);
    ObjectMoves(h, s, dst, dst2, pool);
    SecondAccepted(h, Run(h, s, acts), t, dst, dst2, pool);
    RunConcat(h, s, acts, [TakeIntent(2, true), MovePlan(2, pool, MOVABLE, true)]);
    acts := acts + [TakeIntent(2, true), MovePlan(2, pool, MOVABLE, true)];
    SecondMisses(h, Run(h, s, acts), t);
    RunConcat(h, s, acts, [StatSrc(2), UndoDst(2, true)]);
    acts := acts + [StatSrc(2), UndoDst(2, true)];
    AbortAndEnd(h, Run(h, s, acts));
    RunConcat(h, s, acts, [AbortRow(2, true), Crash]);
    RouteMisses(Run(h, s, acts + [AbortRow(2, true), Crash]).core.env, t, dst, dst2);
  }

  lemma RouteMisses(e: Env, t: Tier, dst: Tier, dst2: Tier)
    requires e.row.intended == None && e.row.txn in e.log && e.log[e.row.txn] == Route(t, dst2)
    requires e.k.current == dst && dst != t && dst != dst2
    ensures !Settleable(e)
  {
  }
}
