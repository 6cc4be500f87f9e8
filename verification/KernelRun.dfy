/** Every run of the kernel movement automaton: any number of callers, in any order, with
    any arguments, and with cutover calls that drop the inode lock half way. */
module KernelRun {
  import opened Kernel

  /** A cutover call between the two halves of smoothfs_movement_cutover. */
  datatype Call = Call(txn: nat, expected: nat, check: bool)

  /** What an observer of the placement records sees. */
  datatype Event =
    | Accepted(txn: nat, from: Tier, to: Tier)
    | Moved(txn: nat, from: Tier, to: Tier)
    | Settled(tier: Tier)
    | Dropped

  datatype World = World(i: Inode, calls: map<nat, Call>, log: seq<Event>)

  datatype Op =
    | Plan(pool: Pool, dest: Tier, t: nat, g: Gate)
    | Mark(id: nat, pool: Pool, call: Call, mapped: bool)
    | Timeout(id: nat)
    | Commit(id: nat, resolved: Errno)
    | Complete(t: nat, record: Errno)
    | Rollback(t: nat, record: Errno)
    | Abort(t: nat)
    | DataChange

  function Step(w: World, op: Op): World
  {
    match op
    case Plan(pool, dest, t, g) =>
      if PlanReply(pool, w.i, dest, g) == Ok
      then w.(i := PlanApply(pool, w.i, dest, t, g), log := w.log + [Accepted(t, w.i.current, dest)])
      else w
    case Mark(id, pool, call, mapped) =>
      if id !in w.calls && MarkReply(pool, w.i, call.txn, mapped) == Ok
      then w.(i := MarkApply(pool, w.i, call.txn, mapped), calls := w.calls[id := call])
      else w
    case Timeout(id) =>
      if id in w.calls then w.(i := TimeoutApply(w.i), calls := w.calls - {id}) else w
    case Commit(id, dest) =>
      if id !in w.calls then w else
      var c := w.calls[id];
      w.(i := CommitApply(w.i, c.expected, c.check, dest),
         calls := w.calls - {id},
         log := if CommitReply(w.i, c.expected, c.check, dest) == Ok
                then w.log + [Moved(c.txn, w.i.current, w.i.intended)] else w.log)
    case Complete(t, record) =>
      if CompleteReply(w.i, t, record) == Ok && w.i.state != Placed
      then w.(i := CompleteApply(w.i, t, record), log := w.log + [Settled(w.i.current)])
      else w
    case Rollback(t, record) =>
      if RollbackReply(w.i, t, record) == Ok && w.i.state != Placed
      then w.(i := RollbackApply(w.i, t, record), log := w.log + [Settled(w.i.current)])
      else w
    case Abort(t) =>
      if AbortReply(w.i, t) == Ok
      then w.(i := AbortApply(w.i, t), log := w.log + [Dropped])
      else w
    case DataChange =>
      // a write, truncate or the like; it waits while a cutover is in progress
      if w.i.state == CutoverInProgress then w else w.(i := w.i.(writeSeq := w.i.writeSeq + 1))
  }

  function Start(home: Tier): World
  {
    World(Inode(Placed, home, home, 0, 0, 0, PinNone), map[], [])
  }

  function Run(w: World, ops: seq<Op>): World
  {
    if ops == [] then w else Step(Run(w, ops[..|ops| - 1]), ops[|ops| - 1])
  }

  /** The life of an object as its event log tells it; independent of the automaton. */
  datatype Phase = Idle(at: Tier) | Flight(txn: nat, at: Tier, to: Tier) | Done(at: Tier) | Dead(at: Tier) | Bad

  function Advance(p: Phase, e: Event): Phase
  {
    match (p, e)
    case (Idle(at), Accepted(t, from, to)) => if from == at && to != at then Flight(t, at, to) else Bad
    case (Flight(t, at, to), Moved(t', from, to')) => if t' == t && from == at && to' == to then Done(to) else Bad
    case (Flight(t, at, to), Settled(tier)) => if tier == at then Idle(at) else Bad
    case (Flight(t, at, to), Dropped) => Dead(at)
    case (Done(at), Settled(tier)) => if tier == at then Idle(at) else Bad
    case (Dead(at), Settled(tier)) => if tier == at then Idle(at) else Bad
    case _ => Bad
  }

  function Track(home: Tier, log: seq<Event>): Phase
  {
    if log == [] then Idle(home) else Advance(Track(home, log[..|log| - 1]), log[|log| - 1])
  }

  function Moves(log: seq<Event>): nat
  {
    if log == [] then 0 else Moves(log[..|log| - 1]) + if log[|log| - 1].Moved? then 1 else 0
  }

  ghost predicate Matches(p: Phase, i: Inode)
  {
    match p
    case Idle(at) => i.state == Placed && i.current == at && i.intended == at
    case Flight(t, at, to) =>
      && (PreCutover(i.state) || i.state == CutoverInProgress || i.state == Failed)
      && i.txn == t && i.current == at && i.intended == to && at != to
    case Done(at) => i.state == Switched && i.current == at && i.intended == at
    case Dead(at) => i.state == Failed && i.current == at && i.intended == at
    case Bad => false
  }

  ghost predicate Inv(home: Tier, w: World)
  {
    && Matches(Track(home, w.log), w.i)
    && w.i.gen == Moves(w.log)
    && (w.i.state == CutoverInProgress <==> w.calls != map[])
    && (forall id :: id in w.calls ==> w.calls[id].txn == w.i.txn)
    && (forall a, b :: a in w.calls && b in w.calls ==> a == b)
  }

  lemma Appended(home: Tier, log: seq<Event>, e: Event)
    ensures Track(home, log + [e]) == Advance(Track(home, log), e)
    ensures Moves(log + [e]) == Moves(log) + if e.Moved? then 1 else 0
  {
    assert (log + [e])[..|log + [e]| - 1] == log;
  }

  lemma PlanKeepsInv(home: Tier, w: World, pool: Pool, dest: Tier, t: nat, g: Gate)
    requires Inv(home, w)
    ensures Inv(home, Step(w, Plan(pool, dest, t, g)))
  {
    Appended(home, w.log, Accepted(t, w.i.current, dest));
    hide Track, Moves;
  }

  lemma MarkKeepsInv(home: Tier, w: World, id: nat, pool: Pool, call: Call, mapped: bool)
    requires Inv(home, w)
    ensures Inv(home, Step(w, Mark(id, pool, call, mapped)))
  {
    var w' := Step(w, Mark(id, pool, call, mapped));
    if w' != w { assert id in w'.calls; }
  }

  lemma ReturnKeepsInv(home: Tier, w: World, id: nat, dest: Errno)
    requires Inv(home, w)
    ensures Inv(home, Step(w, Timeout(id))) && Inv(home, Step(w, Commit(id, dest)))
  {
    if id in w.calls {
      assert w.calls - {id} == map[];
      Appended(home, w.log, Moved(w.calls[id].txn, w.i.current, w.i.intended));
      hide Track, Moves;
    }
  }

  lemma SettleKeepsInv(home: Tier, w: World, t: nat, record: Errno)
    requires Inv(home, w)
    ensures Inv(home, Step(w, Complete(t, record))) && Inv(home, Step(w, Rollback(t, record)))
  {
    Appended(home, w.log, Settled(w.i.current));
    hide Track, Moves;
  }

  lemma AbortKeepsInv(home: Tier, w: World, t: nat)
    requires Inv(home, w)
    ensures Inv(home, Step(w, Abort(t)))
  {
    Appended(home, w.log, Dropped);
    hide Track, Moves;
  }

  lemma WriteKeepsInv(home: Tier, w: World)
    requires Inv(home, w)
    ensures Inv(home, Step(w, DataChange))
  {
  }

  lemma StepKeepsInv(home: Tier, w: World, op: Op)
    requires Inv(home, w)
    ensures Inv(home, Step(w, op))
  {
    hide Inv, Step;
    match op
    case Plan(pool, dest, t, g) => PlanKeepsInv(home, w, pool, dest, t, g);
    case Mark(id, pool, call, mapped) => MarkKeepsInv(home, w, id, pool, call, mapped);
    case Timeout(id) => ReturnKeepsInv(home, w, id, Ok);
    case Commit(id, dest) => ReturnKeepsInv(home, w, id, dest);
    case Complete(t, record) => SettleKeepsInv(home, w, t, record);
    case Rollback(t, record) => SettleKeepsInv(home, w, t, record);
    case Abort(t) => AbortKeepsInv(home, w, t);
    case DataChange => WriteKeepsInv(home, w);
  }

  /** The log of every run is a life: accept, then move or settle or drop, then settle.
      The fields of the inode agree with it at every moment, at most one cutover call is
      between its halves and it is the accepted plan's, and `gen` counts the moves. */
  lemma {:induction false} EveryRun(home: Tier, ops: seq<Op>)
    ensures Inv(home, Run(Start(home), ops))
  {
    if ops == [] {
    } else {
      EveryRun(home, ops[..|ops| - 1]);
      StepKeepsInv(home, Run(Start(home), ops[..|ops| - 1]), ops[|ops| - 1]);
    }
  }

  /** The "another path raced us" branch of the cutover never runs, and whichever way the
      second half of a cutover goes, the inode leaves CutoverInProgress. */
  lemma CutoverCallOwnsTheState(home: Tier, ops: seq<Op>, id: nat, dest: Errno)
    requires id in Run(Start(home), ops).calls
    ensures Run(Start(home), ops).i.state == CutoverInProgress
    ensures Step(Run(Start(home), ops), Timeout(id)).i.state == CopyVerified
    ensures Step(Run(Start(home), ops), Commit(id, dest)).i.state in {Switched, Failed}
  {
    EveryRun(home, ops);
  }

  /** The tier and the generation change only when a commit succeeds, the transaction that
      commits is the accepted one, and the tier becomes the accepted destination. */
  lemma OnlyCommitMoves(home: Tier, ops: seq<Op>, op: Op)
    ensures var w := Run(Start(home), ops); var w' := Step(w, op);
            (w'.i.current != w.i.current || w'.i.gen != w.i.gen) ==>
              && op.Commit? && op.id in w.calls && w.calls[op.id].txn == w.i.txn
              && Track(home, w.log) == Flight(w.i.txn, w.i.current, w'.i.current)
              && w'.i.gen == w.i.gen + 1 && w'.i.state == Switched
    ensures var w := Run(Start(home), ops); var w' := Step(w, op);
            w.i.state == Switched && w'.i.state != Switched ==>
              op.Complete? && op.t == w.i.txn && w'.i.state == Placed && w'.i.current == w.i.current
    ensures var w := Run(Start(home), ops); var w' := Step(w, op);
            w'.i.state == Placed ==> w'.i.intended == w'.i.current
    ensures var w := Run(Start(home), ops); var w' := Step(w, op);
            w.i.state != Placed && w'.i.txn != w.i.txn ==> op.Abort?
  {
    EveryRun(home, ops);
    hide Run, Start;
    MovesOneStep(home, Run(Start(home), ops), op);
  }

  lemma MovesOneStep(home: Tier, w: World, op: Op)
    requires Inv(home, w)
    ensures var w' := Step(w, op);
            && ((w'.i.current != w.i.current || w'.i.gen != w.i.gen) ==>
                  && op.Commit? && op.id in w.calls && w.calls[op.id].txn == w.i.txn
                  && Track(home, w.log) == Flight(w.i.txn, w.i.current, w'.i.current)
                  && w'.i.gen == w.i.gen + 1 && w'.i.state == Switched)
            && (w.i.state == Switched && w'.i.state != Switched ==>
                  op.Complete? && op.t == w.i.txn && w'.i.state == Placed && w'.i.current == w.i.current)
            && (w'.i.state == Placed ==> w'.i.intended == w'.i.current)
            && (w.i.state != Placed && w'.i.txn != w.i.txn ==> op.Abort?)
  {
    hide Track, Moves, Advance;
  }

  /** One accepted plan moves the object at most once: between two moves in the log of any
      run there is the acceptance of the later one. */
  lemma MovesNeedPlans(home: Tier, ops: seq<Op>, a: nat, b: nat)
    requires a < b < |Run(Start(home), ops).log|
    requires Run(Start(home), ops).log[a].Moved? && Run(Start(home), ops).log[b].Moved?
    ensures var log := Run(Start(home), ops).log;
            exists k :: a < k < b && log[k] == Accepted(log[b].txn, log[b].from, log[b].to)
  {
    EveryRun(home, ops);
    hide Run, Start;
    MoveWasAccepted(home, Run(Start(home), ops).log, a, b);
  }

  lemma MoveWasAccepted(home: Tier, log: seq<Event>, a: nat, b: nat)
    requires Track(home, log) != Bad && a < b < |log| && log[a].Moved? && log[b].Moved?
    ensures exists k :: a < k < b && log[k] == Accepted(log[b].txn, log[b].from, log[b].to)
  {
    GoodPrefix(home, log, b + 1);
    GoodPrefix(home, log, a + 1);
    assert log[..b + 1][..b] == log[..b] && log[..a + 1][..a] == log[..a];
    FlightWasAccepted(home, log[..b], a + 1);
    assert log[..b][..a + 1] == log[..a + 1];
  }

  lemma {:induction false} GoodPrefix(home: Tier, log: seq<Event>, n: nat)
    requires n <= |log| && Track(home, log) != Bad
    ensures Track(home, log[..n]) != Bad
    decreases |log| - n
  {
    if n == |log| {
      assert log[..n] == log;
    } else {
      GoodPrefix(home, log, n + 1);
      assert log[..n + 1][..n] == log[..n];
    }
  }

  /** A log that is in flight at its end, and was not at `from`, accepted that plan in between. */
  lemma {:induction false} FlightWasAccepted(home: Tier, log: seq<Event>, from: nat)
    requires from <= |log|
    requires !Track(home, log[..from]).Flight?
    requires Track(home, log).Flight?
    ensures var p := Track(home, log);
            exists k :: from <= k < |log| && log[k] == Accepted(p.txn, p.at, p.to)
  {
    assert log[..|log|] == log;
    var last := |log| - 1;
    assert log[last].Accepted?;
  }

  // ---- the inode object itself --------------------------------------------------

  /** One call on the object: what it leaves and what is noted is the step of the automaton. The
      notes are taken from the replies alone. */
  method Perform(i: InodeInfo, calls: map<nat, Call>, log: seq<Event>, op: Op)
    returns (calls': map<nat, Call>, log': seq<Event>)
    modifies i
    ensures World(i.Value(), calls', log') == Step(World(old(i.Value()), calls, log), op)
  {
    calls', log' := calls, log;
    var from, wasPlaced := i.current, i.state == Placed;
    match op
    case Plan(pool, dest, t, g) =>
      var err := i.Plan(pool, dest, t, g);
      if err == Ok { log' := log + [Accepted(t, from, i.intended)]; }
    case Mark(id, pool, call, mapped) =>
      if id !in calls {
        var err := i.CutoverMark(pool, call.txn, mapped);
        if err == Ok { calls' := calls[id := call]; }
      }
    case Timeout(id) =>
      if id in calls {
        var err := i.CutoverTimeout();
        calls' := calls - {id};
      }
    case Commit(id, dest) =>
      if id in calls {
        var err := i.CutoverCommit(calls[id].expected, calls[id].check, dest);
        calls' := calls - {id};
        if err == Ok { log' := log + [Moved(calls[id].txn, from, i.current)]; }
      }
    case Complete(t, record) =>
      var err := i.Complete(t, record);
      if err == Ok && !wasPlaced { log' := log + [Settled(i.current)]; }
    case Rollback(t, record) =>
      var err := i.Rollback(t, record);
      if err == Ok && !wasPlaced { log' := log + [Settled(i.current)]; }
    case Abort(t) =>
      var err := i.Abort(t);
      if err == Ok { log' := log + [Dropped]; }
    case DataChange =>
      if i.state != CutoverInProgress { i.NoteDataChange(); }
  }

  /** Any sequence of calls on an inode object, cutovers interleaved with everything else: the
      notes taken from the replies are a legal life of the object, its fields are where that life
      says, and the generation counts its moves. */
  method Serve(home: Tier, ops: seq<Op>) returns (i: InodeInfo, log: seq<Event>)
    ensures i.Value() == Run(Start(home), ops).i && log == Run(Start(home), ops).log
    ensures Matches(Track(home, log), i.Value()) && i.gen == Moves(log)
  {
    hide Step;
    i := new InodeInfo(home);
    var calls: map<nat, Call> := map[];
    log := [];
    for n := 0 to |ops|
      invariant fresh(i) && World(i.Value(), calls, log) == Run(Start(home), ops[..n])
    {
      assert ops[..n + 1][..n] == ops[..n];
      calls, log := Perform(i, calls, log, ops[n]);
    }
    assert ops[..|ops|] == ops;
    EveryRun(home, ops);
  }
}
