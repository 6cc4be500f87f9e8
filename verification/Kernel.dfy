/** The movement automaton of one kernel inode (src/smoothfs/movement.c).

    `Inode` is the value of the movement fields of a `smoothfs_inode_info`. One function
    per kernel entry point gives the reply and the new value; class `InodeInfo` holds the
    fields themselves, and its methods follow the C functions branch by branch and are
    proved to do what those functions say. What holds over every run is in KernelRun. */
module Kernel {
  type Tier = nat

  datatype MoveState =
    | Placed
    | PlanAccepted
    | DestinationReserved
    | CopyInProgress
    | CopyComplete
    | CopyVerified
    | CutoverInProgress
    | Switched
    | CleanupInProgress
    | CleanupComplete
    | Failed
    | Stale

  datatype Pin = PinNone | PinHot | PinCold | PinHardlink | PinLease | PinLun

  datatype Errno = Ok | EAgain | EInval | EBusy | EAlready | EStale | ENoEnt | EIo

  datatype Inode = Inode(state: MoveState, current: Tier, intended: Tier, txn: nat,
                         gen: nat, writeSeq: nat, pin: Pin)

  datatype Pool = Pool(ntiers: nat, cacheMode: bool, quiesced: bool)

  /** Everything `smoothfs_can_move` looks at besides the inode's own fields. */
  datatype Gate = Gate(force: bool, nlink: nat, mapped: bool, regular: bool)

  predicate CanMove(pin: Pin, g: Gate)
  {
    && (pin == PinNone || (g.force && pin == PinLease))
    && g.nlink <= 1
    && !g.mapped
    && g.regular
  }

  /** The states in which a cutover may begin and from which a rollback may settle,
      the latter together with `Failed`. */
  predicate PreCutover(st: MoveState)
  {
    st == PlanAccepted || st == DestinationReserved || st == CopyInProgress || st == CopyComplete || st == CopyVerified
  }

  // smoothfs_movement_plan
  function PlanReply(pool: Pool, i: Inode, dest: Tier, g: Gate): Errno
  {
    if pool.quiesced then EAgain
    else if dest >= pool.ntiers then EInval
    else if pool.cacheMode && dest != pool.ntiers - 1 then EInval
    else if i.state != Placed then EBusy
    else if dest == i.current then EAlready
    else if !CanMove(i.pin, g) then EBusy
    else Ok
  }

  function PlanApply(pool: Pool, i: Inode, dest: Tier, t: nat, g: Gate): Inode
  {
    if PlanReply(pool, i, dest, g) == Ok
    then i.(intended := dest, state := PlanAccepted, txn := t)
    else i
  }

  // smoothfs_movement_cutover up to the point where the inode lock is dropped
  function MarkReply(pool: Pool, i: Inode, t: nat, mapped: bool): Errno
  {
    if pool.quiesced then EAgain
    else if i.intended >= pool.ntiers then EInval
    else if !PreCutover(i.state) then EBusy
    else if i.txn != t then EStale
    else if mapped then EBusy
    else Ok
  }

  function MarkApply(pool: Pool, i: Inode, t: nat, mapped: bool): Inode
  {
    if MarkReply(pool, i, t, mapped) == Ok then i.(state := CutoverInProgress) else i
  }

  // smoothfs_movement_cutover when draining the writers timed out
  function TimeoutApply(i: Inode): Inode
  {
    if i.state == CutoverInProgress then i.(state := CopyVerified) else i
  }

  /** smoothfs_movement_cutover after the inode lock is taken again. `dest` is what
      resolving the destination, comparing sizes and stamping identity came to. */
  function CommitReply(i: Inode, expected: nat, check: bool, dest: Errno): Errno
  {
    if i.state != CutoverInProgress then EBusy
    else if check && i.writeSeq != expected then EStale
    else dest
  }

  function CommitApply(i: Inode, expected: nat, check: bool, dest: Errno): Inode
  {
    if i.state != CutoverInProgress then i.(state := CopyVerified)
    else if CommitReply(i, expected, check, dest) != Ok then i.(state := Failed)
    else i.(current := i.intended, gen := i.gen + 1, state := Switched,
            pin := if i.pin == PinLease then PinNone else i.pin)
  }

  // smoothfs_movement_complete; `record` is the reply of the placement log
  function CompleteReply(i: Inode, t: nat, record: Errno): Errno
  {
    if i.txn != t then EStale
    else if i.state == Placed then Ok
    else if i.state != Switched then EBusy
    else record
  }

  function CompleteApply(i: Inode, t: nat, record: Errno): Inode
  {
    if i.state == Switched && CompleteReply(i, t, record) == Ok
    then i.(state := Placed, intended := i.current)
    else i
  }

  // smoothfs_movement_rollback
  function RollbackReply(i: Inode, t: nat, record: Errno): Errno
  {
    if i.txn != t then EStale
    else if i.state == Placed then Ok
    else if !PreCutover(i.state) && i.state != Failed then EBusy
    else record
  }

  function RollbackApply(i: Inode, t: nat, record: Errno): Inode
  {
    if RollbackReply(i, t, record) == Ok
    then i.(state := Placed, intended := if i.state == Placed then i.intended else i.current)
    else i
  }

  // smoothfs_movement_abort
  function AbortReply(i: Inode, t: nat): Errno
  {
    if i.txn != t then EStale
    else if PreCutover(i.state) then Ok
    else EBusy
  }

  function AbortApply(i: Inode, t: nat): Inode
  {
    if AbortReply(i, t) == Ok
    then i.(state := Failed, intended := i.current, txn := 0)
    else i
  }

  /** The movement fields of `smoothfs_inode_info`, updated in place. */
  class InodeInfo {
    var state: MoveState
    var current: Tier
    var intended: Tier
    var txn: nat
    var gen: nat
    var writeSeq: nat
    var pin: Pin

    constructor (tier: Tier)
      ensures Value() == Inode(Placed, tier, tier, 0, 0, 0, PinNone)
    {
      state, current, intended, txn, gen, writeSeq, pin := Placed, tier, tier, 0, 0, 0, PinNone;
    }

    function Value(): Inode
      reads this
    {
      Inode(state, current, intended, txn, gen, writeSeq, pin)
    }

    /** smoothfs_note_data_change. */
    method NoteDataChange()
      modifies this`writeSeq
      ensures writeSeq == old(writeSeq) + 1
    {
      writeSeq := writeSeq + 1;
    }

    method Plan(pool: Pool, dest: Tier, t: nat, g: Gate) returns (err: Errno)
      modifies this
      ensures err == PlanReply(pool, old(Value()), dest, g)
      ensures Value() == PlanApply(pool, old(Value()), dest, t, g)
      ensures err == Ok ==> old(state) == Placed && dest < pool.ntiers && dest != current && intended == dest && txn == t
      ensures err != Ok ==> Value() == old(Value())
      ensures current == old(current) && gen == old(gen) && writeSeq == old(writeSeq)
    {
      if pool.quiesced { return EAgain; }
      if dest >= pool.ntiers { return EInval; }
      if pool.cacheMode && dest != pool.ntiers - 1 { return EInval; }
      if state != Placed { return EBusy; }
      if dest == current { return EAlready; }
      if !CanMove(pin, g) { return EBusy; }
      intended := dest;
      state := PlanAccepted;
      txn := t;
      return Ok;
    }

    method CutoverMark(pool: Pool, t: nat, mapped: bool) returns (err: Errno)
      modifies this
      ensures err == MarkReply(pool, old(Value()), t, mapped)
      ensures Value() == MarkApply(pool, old(Value()), t, mapped)
      ensures err == Ok ==> PreCutover(old(state)) && txn == t && intended < pool.ntiers && state == CutoverInProgress
      ensures Value() == if err == Ok then old(Value()).(state := CutoverInProgress) else old(Value())
    {
      if pool.quiesced { return EAgain; }
      if intended >= pool.ntiers { return EInval; }
      if state != PlanAccepted {
        match state
        case DestinationReserved =>
        case CopyInProgress =>
        case CopyComplete =>
        case CopyVerified =>
        case _ => return EBusy;
      }
      if txn != t { return EStale; }
      if mapped { return EBusy; }
      state := CutoverInProgress;
      return Ok;
    }

    method CutoverTimeout() returns (err: Errno)
      modifies this
      ensures err == EBusy
      ensures Value() == TimeoutApply(old(Value()))
      ensures state != CutoverInProgress && Value() == old(Value()).(state := state)
    {
      if state == CutoverInProgress { state := CopyVerified; }
      return EBusy;
    }

    method CutoverCommit(expected: nat, check: bool, dest: Errno) returns (err: Errno)
      modifies this
      ensures err == CommitReply(old(Value()), expected, check, dest)
      ensures Value() == CommitApply(old(Value()), expected, check, dest)
      ensures state != CutoverInProgress && writeSeq == old(writeSeq) && txn == old(txn) && intended == old(intended)
      ensures err == Ok ==> current == old(intended) && gen == old(gen) + 1 && (check ==> writeSeq == expected)
      ensures err != Ok ==> current == old(current) && gen == old(gen) && state != Switched
    {
      if state != CutoverInProgress {
        state := CopyVerified;
        return EBusy;
      }
      if check && writeSeq != expected {
        state := Failed;
        return EStale;
      }
      if dest != Ok {
        state := Failed;
        return dest;
      }
      current := intended;
      gen := gen + 1;
      state := Switched;
      if pin == PinLease { pin := PinNone; }
      return Ok;
    }

    method Complete(t: nat, record: Errno) returns (err: Errno)
      modifies this
      ensures err == CompleteReply(old(Value()), t, record)
      ensures Value() == CompleteApply(old(Value()), t, record)
      ensures err == Ok ==> state == Placed && txn == t && (old(state) == Placed || old(state) == Switched)
      ensures err == Ok && old(state) != Placed ==> intended == current && record == Ok
      ensures err != Ok ==> Value() == old(Value())
      ensures current == old(current) && gen == old(gen) && writeSeq == old(writeSeq)
    {
      if txn != t { return EStale; }
      if state == Placed { return Ok; }
      if state != Switched { return EBusy; }
      if record != Ok { return record; }
      state := Placed;
      intended := current;
      return Ok;
    }

    method Rollback(t: nat, record: Errno) returns (err: Errno)
      modifies this
      ensures err == RollbackReply(old(Value()), t, record)
      ensures Value() == RollbackApply(old(Value()), t, record)
      ensures err == Ok ==> state == Placed && txn == t && old(state) != Switched && old(state) != CutoverInProgress
      ensures err == Ok && old(state) != Placed ==> intended == current && record == Ok
      ensures err != Ok ==> Value() == old(Value())
      ensures current == old(current) && gen == old(gen) && writeSeq == old(writeSeq)
    {
      if txn != t { return EStale; }
      if state == Placed { return Ok; }
      if !PreCutover(state) && state != Failed { return EBusy; }
      if record != Ok { return record; }
      state := Placed;
      intended := current;
      return Ok;
    }

    method Abort(t: nat) returns (err: Errno)
      modifies this
      ensures err == AbortReply(old(Value()), t)
      ensures Value() == AbortApply(old(Value()), t)
      ensures err == Ok ==> PreCutover(old(state)) && state == Failed && intended == current
      ensures err != Ok ==> Value() == old(Value())
      ensures current == old(current) && gen == old(gen) && writeSeq == old(writeSeq)
    {
      if txn != t { return EStale; }
      if !PreCutover(state) { return EBusy; }
      state := Failed;
      intended := current;
      txn := 0;
      return Ok;
    }
  }
}
