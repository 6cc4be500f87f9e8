/** What the movement protocol guarantees over every run, and where it stops short. */
module ProtocolResults {
  import opened Kernel
  import opened Bytes
  import opened Recovery
  import opened Ranges
  import opened Protocol
  import opened ProtocolSafety
  import KernelRun

  /** In every state of every run the kernel's tier holds, under what is staged over it, what
      clients wrote; a placed object has no other copy anywhere; and a row that says placed is
      right. */
  lemma CurrentCopyIsSafe(h: Hash, s: Sys, acts: seq<Action>)
    requires Initial(s)
    ensures var c := Run(h, s, acts).core; var k := c.env.k;
            && k.current in c.env.files
            && Merged(c.env.files[k.current], c.over) == c.truth
            && (k.state == Placed ==> c.env.files.Keys == {k.current})
            && (c.env.row.state == Placed ==> k.state == Placed && c.env.row.cur == k.current)
  {
    EveryRun(h, s, acts);
  }

  /** At most one worker is past its intent, in any run with any number of stale plans. */
  lemma OneMoverAtATime(h: Hash, s: Sys, acts: seq<Action>, q: nat, v: nat)
    requires Initial(s)
    requires q in Run(h, s, acts).proc.workers && v in Run(h, s, acts).proc.workers
    requires !Waiting(Run(h, s, acts).proc.workers[q].pc) && !Waiting(Run(h, s, acts).proc.workers[v].pc)
    ensures q == v
  {
    EveryRun(h, s, acts);
    if q != v { OneHolder(Run(h, s, acts), q, v); }
  }

  /** A commit switches tiers exactly when no write came since the caller's first look and
      the destination resolves; then both copies are what clients read, before and after.
      Otherwise the tier, the copies and what clients read stay as they were. */
  lemma CutoverIsInvisible(h: Hash, s: Sys, acts: seq<Action>, other: Errno)
    requires Initial(s) && Run(h, s, acts).core.pend.Some?
    ensures var c := Run(h, s, acts).core; var c' := DoCutCommit(Run(h, s, acts), other).core;
            var raced := c.env.k.writeSeq != c.pend.value.expected;
            && c'.truth == c.truth && c'.over == c.over && c'.env.files == c.env.files
            && (c'.env.k.current != c.env.k.current <==> !raced && other == Ok)
            && (c'.env.k.current != c.env.k.current ==>
                  && c.over.None?
                  && c.env.k.current in c.env.files && c.env.files[c.env.k.current] == c.truth
                  && c'.env.k.current in c.env.files && c.env.files[c'.env.k.current] == c.truth)
            && (c'.env.k.current == c.env.k.current ==> c'.env.k.state == Failed && c'.env.k.gen == c.env.k.gen)
  {
    EveryRun(h, s, acts);
  }

  /** Number `q` has been given out, and its worker, if it still runs, has looked at the object
      when its write sequence was `expected`. */
  ghost predicate Later(p: Proc, q: nat, expected: nat)
  {
    && q <= p.issued
    && (q in p.workers ==> !p.workers[q].pc.Queued? && p.workers[q].expected == expected)
  }

  lemma WriteSeqGrows(h: Hash, s: Sys, a: Action)
    ensures Step(h, s, a).core.env.k.writeSeq >= s.core.env.k.writeSeq
  {
    hide PlanReply, MarkReply, CommitReply, CompleteReply, RollbackReply, DestReply, Target, At;
  }

  predicate Copies(a: Action)
  {
    || a.StatSrc? || a.OpenDst? || a.CopyChunk? || a.CopyEnd? || a.CheckDst? || a.CheckSrc? || a.HashSrc? || a.LookAgain?
  }

  lemma LaterCopyStep(h: Hash, s: Sys, a: Action, q: nat, expected: nat)
    requires Later(s.proc, q, expected) && Copies(a)
    ensures Later(Step(h, s, a).proc, q, expected)
  {
    hide ReadAt, WithKernel, WithFiles, WithRow;
  }

  lemma LaterOtherStep(h: Hash, s: Sys, a: Action, q: nat, expected: nat)
    requires Later(s.proc, q, expected) && !a.Crash? && !Copies(a)
    requires forall v :: v in s.proc.workers ==> v <= s.proc.issued
    ensures Later(Step(h, s, a).proc, q, expected)
  {
    hide PlanReply, PlanApply, MarkReply, MarkApply, Claimable, CommitReply, CommitApply, TimeoutApply, CompleteReply, CompleteApply, DestReply, Persists, Next, WithKernel, WithFiles, WithRow;
  }

  lemma {:induction false} LaterRun(h: Hash, s: Sys, acts: seq<Action>, q: nat, expected: nat)
    requires Inv(s) && Later(s.proc, q, expected)
    requires forall a :: a in acts ==> !a.Crash?
    ensures Inv(Run(h, s, acts)) && Later(Run(h, s, acts).proc, q, expected)
    ensures Run(h, s, acts).core.env.k.writeSeq >= s.core.env.k.writeSeq
  {
    if acts == [] {
    } else {
      var mid := Run(h, s, acts[..|acts| - 1]);
      LaterRun(h, s, acts[..|acts| - 1], q, expected);
      forall v | v in mid.proc.workers ensures v <= mid.proc.issued {
        assert v in mid.proc.plans;
      }
      var a := acts[|acts| - 1];
      hide Step, Later;
      if Copies(a) { LaterCopyStep(h, mid, a, q, expected); } else { LaterOtherStep(h, mid, a, q, expected); }
      WriteSeqGrows(h, mid, a);
      StepKeeps(h, mid, a);
    }
  }

  /** A write that lands anywhere between a worker's first look and its commit makes that
      commit fail: the source stays authoritative with the write in it. */
  lemma RacedWriteWins(h: Hash, s: Sys, before: seq<Action>, w: Action, after: seq<Action>, q: nat, other: Errno)
    requires Initial(s) && (w.ClientWrite? || w.StageWrite?)
    requires forall a :: a in after ==> !a.Crash?
    requires var s1 := Run(h, s, before);
             && q in s1.proc.workers && !s1.proc.workers[q].pc.Queued?
    requires var s1 := Run(h, s, before);
             var s2 := Run(h, Step(h, s1, w), after);
             && Step(h, s1, w) != s1
             && q in s2.proc.workers && s2.proc.workers[q].pc == InCutover
    ensures var s2 := Run(h, Step(h, Run(h, s, before), w), after);
            DoCutCommit(s2, other).core.env.k == s2.core.env.k.(state := Failed)
  {
    EveryRun(h, s, before);
    var s1 := Run(h, s, before);
    var e := s1.proc.workers[q].expected;
    assert q in s1.proc.plans;
    assert WorkerInv(s1.core, q, s1.proc.workers[q]);
    StepKeeps(h, s1, w);
    WriteMoves(h, s1, w);
    LaterRun(h, Step(h, s1, w), after, q, e);
    var s2 := Run(h, Step(h, s1, w), after);
    hide Step, Run, Merged;
    assert WorkerInv(s2.core, q, s2.proc.workers[q]);
  }

  lemma WriteMoves(h: Hash, s: Sys, w: Action)
    requires (w.ClientWrite? || w.StageWrite?) && Step(h, s, w) != s
    ensures Step(h, s, w).core.env.k.writeSeq == s.core.env.k.writeSeq + 1 && Step(h, s, w).proc == s.proc
  {
    hide Extends, WriteAt;
  }

  /** Recovery of a reachable state goes through exactly when the kernel's transaction is the
      row's or is over, and the recorded route has two ends of which the kernel is on one.
      The rest of what recoverObject checks cannot fail. */
  lemma RecoveryOutcome(h: Hash, s: Sys, acts: seq<Action>)
    requires Initial(s)
    requires Run(h, s, acts).core.env.k.state != CutoverInProgress
    ensures var e := Run(h, s, acts).core.env;
            Recover(e).0.Finished? <==>
              && (e.k.state == Placed || e.k.txn == e.row.txn)
              && RouteOf(e.row, e.log).Some?
              && var r := RouteOf(e.row, e.log).value;
                 r.src != r.dst && (e.k.current == r.src || e.k.current == r.dst)
  {
    EveryRun(h, s, acts);
    SettlesExactlyWhen(Run(h, s, acts).core.env);
  }
}
