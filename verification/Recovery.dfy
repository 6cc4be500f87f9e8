/** Recovery of one interrupted movement (controlplane/recovery_live.go).

    The object's durable state is an `Env`: the kernel inode, the copies on the tiers, the
    SQL row and, per transaction, the newest movement-log entry. `Next` is one effect of
    `recoverObject`; class `Host` holds the state and its method performs the same effects
    in the order of the Go code, free to stop after any of them. */
module Recovery {
  import opened Kernel
  import opened Bytes

  datatype Row = Row(state: MoveState, cur: Tier, intended: Option<Tier>, txn: nat, lun: bool)

  datatype Route = Route(src: Tier, dst: Tier)

  datatype Env = Env(k: Inode, files: map<Tier, Content>, row: Row, log: map<nat, Route>)

  predicate Unsettled(st: MoveState)
  {
    st != Placed && st != CleanupComplete && st != Stale
  }

  /** Where a call of recoverObject has got to. `p` is the row as scanned and `ins` the
      kernel's answer; every later decision uses these two, not fresh reads. */
  datatype Rec =
    | Idle
    | Scanned(p: Row)
    | Inspected(p: Row, ins: Inode)
    | Decided(p: Row, ins: Inode, other: Tier, present: bool)
    | Removed(p: Row, ins: Inode)
    | Synced(p: Row, ins: Inode)
    | Acked(p: Row, ins: Inode)
    | Confirmed(p: Row, ins: Inode)
    | Finished

  /** The recorded movement: from the row, or from the log once `intended` was cleared. */
  function RouteOf(p: Row, log: map<nat, Route>): Option<Route>
  {
    if p.intended.Some? then Some(Route(p.cur, p.intended.value))
    else if p.txn in log then Some(log[p.txn])
    else None
  }

  predicate PhaseAllows(st: MoveState, current: Tier, r: Route)
  {
    if st == Switched then current == r.dst
    else if PreCutover(st) || st == Failed then current == r.src
    else st == Placed
  }

  /** The tier whose copy is to be cleaned up, or a refusal. */
  function Target(p: Row, ins: Inode, files: map<Tier, Content>, log: map<nat, Route>): Option<Tier>
  {
    match RouteOf(p, log)
    case None => None
    case Some(r) =>
      if r.src == r.dst then None
      else if ins.current != r.src && ins.current != r.dst then None
      else if ins.current !in files then None
      else if !PhaseAllows(ins.state, ins.current, r) then None
      else Some(if ins.current == r.dst then r.src else r.dst)
  }

  function Ack(k: Inode, ins: Inode): (Errno, Inode)
  {
    if ins.state == Switched then (CompleteReply(k, ins.txn, Ok), CompleteApply(k, ins.txn, Ok))
    else if ins.state == Placed then (Ok, k)
    else (RollbackReply(k, ins.txn, Ok), RollbackApply(k, ins.txn, Ok))
  }

  function SettledRow(row: Row, p: Row, ins: Inode): Row
  {
    row.(cur := ins.current, intended := None,
         state := if p.lun && p.state == Failed then Failed else Placed)
  }

  /** The next effect, or `Idle` where the Go code returns an error. */
  function Next(r: Rec, e: Env): (Rec, Env)
  {
    match r
    case Idle => (Idle, e)
    case Scanned(p) =>
      if e.k.state != Placed && e.k.txn != p.txn then (Idle, e) else (Inspected(p, e.k), e)
    case Inspected(p, ins) =>
      (match Target(p, ins, e.files, e.log)
       case None => (Idle, e)
       case Some(other) => (Decided(p, ins, other, other in e.files), e))
    case Decided(p, ins, other, present) =>
      if !present then (Removed(p, ins), e)
      else if other !in e.files then (Idle, e)
      else (Removed(p, ins), e.(files := e.files - {other}))
    case Removed(p, ins) => (Synced(p, ins), e)
    case Synced(p, ins) =>
      var (err, k) := Ack(e.k, ins);
      (if err == Ok then Acked(p, ins) else Idle, e.(k := k))
    case Acked(p, ins) =>
      if e.k.state == Placed && e.k.current == ins.current then (Confirmed(p, ins), e) else (Idle, e)
    case Confirmed(p, ins) => (Finished, e.(row := SettledRow(e.row, p, ins)))
    case Finished => (Finished, e)
  }

  function Iterate(r: Rec, e: Env, n: nat): (Rec, Env)
    decreases n
  {
    if n == 0 then (r, e) else var (r', e') := Next(r, e); Iterate(r', e', n - 1)
  }

  /** The effects of an uninterrupted call that succeeds. */
  const EFFECTS: nat := 7

  function Recover(e: Env): (Rec, Env)
  {
    Iterate(Scanned(e.row), e, EFFECTS)
  }

  /** The state an interruption after `n` effects leaves behind. */
  function CutShort(e: Env, n: nat): Env
  {
    Iterate(Scanned(e.row), e, n).1
  }

  predicate Settleable(e: Env)
  {
    && (e.k.state == Placed || e.k.txn == e.row.txn)
    && Target(e.row, e.k, e.files, e.log).Some?
  }

  // One unrolling of the whole call; everything below follows from it.
  lemma Unrolled(e: Env)
    requires Settleable(e)
    ensures var other := Target(e.row, e.k, e.files, e.log).value;
            var swept := e.(files := e.files - {other});
            var settled := swept.(k := Ack(e.k, e.k).1);
            && other != e.k.current && e.k.current in e.files
            && (forall n :: 0 <= n <= 2 ==> CutShort(e, n) == e)
            && (forall n :: 3 <= n <= 4 ==> CutShort(e, n) == swept)
            && (forall n :: 5 <= n <= 6 ==> CutShort(e, n) == settled)
            && settled.k.state == Placed && settled.k.current == e.k.current
            && settled.k.txn == e.k.txn
            && Recover(e) == (Finished, settled.(row := SettledRow(e.row, e.row, e.k)))
  {
    var p, ins := e.row, e.k;
    var other := Target(p, ins, e.files, e.log).value;
    var swept := e.(files := e.files - {other});
    var settled := swept.(k := Ack(ins, ins).1);
    var present := other in e.files;
    assert !present ==> e.files - {other} == e.files;
    assert Next(Scanned(p), e) == (Inspected(p, ins), e);
    assert Next(Inspected(p, ins), e) == (Decided(p, ins, other, present), e);
    assert Next(Decided(p, ins, other, present), e) == (Removed(p, ins), swept);
    assert Next(Removed(p, ins), swept) == (Synced(p, ins), swept);
    assert Next(Synced(p, ins), swept) == (Acked(p, ins), settled);
    assert Next(Acked(p, ins), settled) == (Confirmed(p, ins), settled);
    assert Iterate(Confirmed(p, ins), settled, 1) == Next(Confirmed(p, ins), settled);
    assert Iterate(Acked(p, ins), settled, 2) == Iterate(Confirmed(p, ins), settled, 1);
    assert Iterate(Synced(p, ins), swept, 3) == Iterate(Acked(p, ins), settled, 2);
    assert Iterate(Removed(p, ins), swept, 4) == Iterate(Synced(p, ins), swept, 3);
    assert Iterate(Decided(p, ins, other, present), e, 5) == Iterate(Removed(p, ins), swept, 4);
    assert Iterate(Inspected(p, ins), e, 6) == Iterate(Decided(p, ins, other, present), e, 5);
    forall n: nat | n <= 6 ensures CutShort(e, n) == if n <= 2 then e else if n <= 4 then swept else settled
    {
      assert Iterate(Scanned(p), e, 0).1 == e;
      if n >= 1 { assert CutShort(e, n) == Iterate(Inspected(p, ins), e, n - 1).1; }
      if n >= 2 { assert CutShort(e, n) == Iterate(Decided(p, ins, other, present), e, n - 2).1; }
      if n >= 3 { assert CutShort(e, n) == Iterate(Removed(p, ins), swept, n - 3).1; }
      if n >= 4 { assert CutShort(e, n) == Iterate(Synced(p, ins), swept, n - 4).1; }
      if n >= 5 { assert CutShort(e, n) == Iterate(Acked(p, ins), settled, n - 5).1; }
      if n >= 6 { assert CutShort(e, n) == Iterate(Confirmed(p, ins), settled, n - 6).1; }
    }
  }

  /** A call that may not settle touches nothing at all. */
  lemma RefusalChangesNothing(e: Env, n: nat)
    requires !Settleable(e)
    ensures CutShort(e, n) == e
    ensures Recover(e) == (Idle, e)
  {
    RefusalIsEarly(e, n);
    RefusalIsEarly(e, EFFECTS);
  }

  lemma RefusalIsEarly(e: Env, n: nat)
    requires !Settleable(e)
    ensures Iterate(Scanned(e.row), e, n).1 == e
    ensures n >= 2 ==> Iterate(Scanned(e.row), e, n).0 == Idle
  {
    if n >= 1 {
      var (r, e') := Next(Scanned(e.row), e);
      assert Iterate(Scanned(e.row), e, n) == Iterate(r, e', n - 1);
      if r == Idle {
        IdleStays(e, n - 1);
      } else if n >= 2 {
        assert Next(r, e') == (Idle, e);
        assert Iterate(r, e', n - 1) == Iterate(Idle, e, n - 2);
        IdleStays(e, n - 2);
      }
    }
  }

  lemma {:induction false} IdleStays(e: Env, n: nat)
    ensures Iterate(Idle, e, n) == (Idle, e)
  {
    if n == 0 {
    } else {
      IdleStays(e, n - 1);
    }
  }

  /** For any row and any kernel answer: at most one copy goes, it is on a tier the kernel
      is not using, the copy the kernel uses was confirmed to exist and is untouched, and
      the kernel's tier never changes, wherever the call stops. */
  lemma RemovesOnlyTheOtherCopy(e: Env, n: nat)
    requires n <= EFFECTS
    ensures var e' := CutShort(e, n);
            && e'.k.current == e.k.current
            && e'.log == e.log
            && (e'.files == e.files ||
                (exists other :: other != e.k.current && e.k.current in e.files && other in e.files
                   && e'.files == e.files - {other}))
  {
    if !Settleable(e) {
      RefusalChangesNothing(e, n);
    } else {
      Unrolled(e);
      var other := Target(e.row, e.k, e.files, e.log).value;
      if other !in e.files { assert e.files - {other} == e.files; }
      assert CutShort(e, EFFECTS) == Recover(e).1;
    }
  }

  /** The call succeeds exactly when the kernel's transaction is the recorded one, or is
      over, and the kernel sits on the recorded route at the end its phase says. */
  lemma SettlesExactlyWhen(e: Env)
    ensures Recover(e).0.Finished? <==> Settleable(e)
    ensures Settleable(e) ==>
              var e' := Recover(e).1;
              && e'.k.state == Placed && e'.k.current == e.k.current
              && e'.row.cur == e.k.current && e'.row.intended == None
              && (e'.row.state == Placed || (e'.row.state == Failed && e.row.lun && e.row.state == Failed))
  {
    if Settleable(e) { Unrolled(e); } else { RefusalChangesNothing(e, 0); }
  }

  /** Stopped after any effect short of the last and run again, the call ends where it
      would have ended uninterrupted. */
  lemma RetryConverges(e: Env, n: nat)
    requires n < EFFECTS
    ensures Recover(CutShort(e, n)) == Recover(e)
  {
    if !Settleable(e) {
      RefusalChangesNothing(e, n);
    } else {
      Unrolled(e);
      var e' := CutShort(e, n);
      var other := Target(e.row, e.k, e.files, e.log).value;
      assert Target(e'.row, e'.k, e'.files, e'.log) == Some(other);
      Unrolled(e');
      assert e'.files - {other} == e.files - {other};
    }
  }

  /** The host side of one object, as recoverObject works on it. */
  class Host {
    const inode: InodeInfo
    var files: map<Tier, Content>
    var row: Row
    var log: map<nat, Route>

    constructor (inode: InodeInfo, files: map<Tier, Content>, row: Row, log: map<nat, Route>)
      ensures this.inode == inode && this.files == files && this.row == row && this.log == log
    {
      this.inode, this.files, this.row, this.log := inode, files, row, log;
    }

    function Durable(): Env
      reads this, inode
    {
      Env(inode.Value(), files, row, log)
    }

    /** recoverObject. With `fault` an I/O error, or the process ending, may stop it anywhere;
        without, it settles exactly what can be settled. */
    method RecoverObject(fault: bool) returns (ok: bool)
      modifies this, inode
      ensures !fault ==> (ok <==> Settleable(old(Durable())))
      ensures ok ==> Recover(old(Durable())) == (Finished, Durable())
      ensures !ok ==> exists n: nat :: n < EFFECTS && Durable() == CutShort(old(Durable()), n)
    {
      ghost var e := Durable();
      var p := row;
      var stop := *;
      if fault && stop { assert Durable() == CutShort(e, 0); return false; }
      var ins := inode.Value();
      if ins.state != Placed && ins.txn != p.txn { assert Durable() == CutShort(e, 0); return false; }
      var route := RouteOf(p, log);
      if route.None? || route.value.src == route.value.dst { RefusalChangesNothing(e, 0); return false; }
      var src, dst := route.value.src, route.value.dst;
      if ins.current != src && ins.current != dst { assert Durable() == CutShort(e, 0); return false; }
      if ins.current !in files { assert Durable() == CutShort(e, 0); return false; }
      var other := if ins.current == dst then src else dst;
      var present := other in files;
      if !PhaseAllows(ins.state, ins.current, route.value) { assert Durable() == CutShort(e, 0); return false; }
      assert Settleable(e);
      Unrolled(e);
      stop := *;
      if fault && stop { assert Durable() == CutShort(e, 0); return false; }
      if present { files := files - {other}; }
      assert files == e.files - {other};
      assert Durable() == CutShort(e, 3);
      stop := *;
      if fault && stop { return false; }
      if ins.state == Switched {
        var err := inode.Complete(ins.txn, Ok);
        assert err == Ok;
      } else if ins.state != Placed {
        var err := inode.Rollback(ins.txn, Ok);
        assert err == Ok;
      }
      assert Durable() == CutShort(e, 5);
      stop := *;
      if fault && stop { return false; }
      if inode.state != Placed || inode.current != ins.current { assert false; }
      stop := *;
      if fault && stop { return false; }
      row := row.(cur := ins.current, intended := None,
                  state := if p.lun && p.state == Failed then Failed else Placed);
      ok := true;
    }
  }

  /** What a call of RecoverObject may leave of a durable state. */
  ghost predicate Outcome(e: Env, e': Env, ok: bool)
  {
    if ok then Recover(e) == (Finished, e')
    else exists n: nat :: n < EFFECTS && e' == CutShort(e, n)
  }

  ghost predicate Separate(hosts: seq<Host>)
    reads hosts
  {
    forall i, j :: 0 <= i < j < |hosts| ==> hosts[i] != hosts[j] && hosts[i].inode != hosts[j].inode
  }

  /** recoverLive: every unsettled object gets its call, whatever became of the others; settled
      ones are not touched. An object without a fault fails exactly when it cannot be settled. */
  method RecoverLive(hosts: seq<Host>, faulty: set<nat>) returns (failures: seq<nat>)
    requires Separate(hosts)
    modifies hosts, set h | h in hosts :: h.inode
    ensures forall i :: 0 <= i < |hosts| ==>
              Live(old(hosts[i].Durable()), hosts[i].Durable(), i in faulty, i in failures)
  {
    hide Recover, CutShort, Settleable;
    failures := [];
    for i := 0 to |hosts|
      invariant forall j :: i <= j < |hosts| ==> hosts[j].Durable() == old(hosts[j].Durable()) && j !in failures
      invariant forall j :: 0 <= j < i ==>
                  Live(old(hosts[j].Durable()), hosts[j].Durable(), j in faulty, j in failures)
    {
      assert hosts[i] in hosts;
      assert hosts[i].row == hosts[i].Durable().row;
      if Unsettled(hosts[i].row.state) {
        var ok := hosts[i].RecoverObject(i in faulty);
        if !ok { failures := failures + [i]; }
      }
    }
  }

  /** What recoverLive makes of one object. */
  ghost predicate Live(e: Env, e': Env, faulty: bool, failed: bool)
  {
    if !Unsettled(e.row.state) then e' == e && !failed
    else Outcome(e, e', !failed) && (!faulty ==> (failed <==> !Settleable(e)))
  }
}
