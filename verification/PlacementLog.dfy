/** The placement log: numbered records queued in memory, appended to a file by a worker, and
    replayed after a mount (src/smoothfs/placement.c).

    A crash keeps any prefix of the file and nothing of the queue. The write of a record may
    fail, which the worker only warns about. */
module PlacementLog {
  import opened Bytes

  type Oid = nat

  datatype Where = Where(state: nat, current: nat, intended: nat)

  datatype Rec = Rec(txn: nat, oid: Oid, place: Where)

  /** The file, the records the worker has taken over, those still queued, and the number
      of the last record. */
  datatype Log = Log(file: seq<Rec>, taken: seq<Rec>, pending: seq<Rec>, counter: nat)

  datatype Op =
    | Record(oid: Oid, place: Where)
    | Splice
    | Append(ok: bool)
    | Remount(kept: nat)

  function Step(s: Log, op: Op): Log
  {
    match op
    case Record(oid, place) =>
      s.(counter := s.counter + 1, pending := s.pending + [Rec(s.counter + 1, oid, place)])
    case Splice => if s.taken != [] then s else s.(taken := s.pending, pending := [])
    case Append(ok) =>
      if s.taken == [] then s
      else s.(file := if ok then s.file + [s.taken[0]] else s.file, taken := s.taken[1..])
    case Remount(kept) =>
      var file := if kept < |s.file| then s.file[..kept] else s.file;
      Log(file, [], [], |file|)
  }

  function Run(s: Log, ops: seq<Op>): Log
  {
    if ops == [] then s else Step(Run(s, ops[..|ops| - 1]), ops[|ops| - 1])
  }

  const EMPTY := Log([], [], [], 0)

  /** The i-th record has number i + 1. */
  predicate Gapless(file: seq<Rec>)
  {
    forall i :: 0 <= i < |file| ==> file[i].txn == i + 1
  }

  /** Records that got a number since the mount and will never be in the file. */
  function Missing(s: Log): int
  {
    s.counter - |s.file| - |s.taken| - |s.pending|
  }

  /** The step that makes a gap: a record is appended after one that was lost. */
  predicate AppendsOverGap(s: Log, op: Op)
  {
    op == Append(true) && s.taken != [] && Missing(s) > 0
  }

  predicate NeverOverGap(s: Log, ops: seq<Op>)
  {
    forall n :: 0 <= n < |ops| ==> !AppendsOverGap(Run(s, ops[..n]), ops[n])
  }

  predicate AlwaysGapless(s: Log, ops: seq<Op>)
  {
    forall n :: 0 <= n <= |ops| ==> Gapless(Run(s, ops[..n]).file)
  }

  /** The queue holds the last numbers given out, in order, whatever has been lost. */
  predicate Inv(s: Log)
  {
    && Missing(s) >= 0
    && forall i :: 0 <= i < |s.taken + s.pending| ==>
         (s.taken + s.pending)[i].txn == s.counter - |s.taken + s.pending| + 1 + i
  }

  lemma StepKeepsInv(s: Log, op: Op)
    requires Inv(s)
    ensures Inv(Step(s, op))
  {
    var s', q, q' := Step(s, op), s.taken + s.pending, Step(s, op).taken + Step(s, op).pending;
    match op
    case Record(oid, place) =>
      assert q' == q + s'.pending[|s.pending|..];
    case Splice =>
      assert q' == q;
    case Append(ok) =>
      if s.taken != [] { assert q' == q[1..]; }
    case Remount(kept) =>
  }

  /** One step keeps the numbering exactly when it does not append over a gap. */
  lemma StepGaplessIff(s: Log, op: Op)
    requires Inv(s) && Gapless(s.file)
    ensures Gapless(Step(s, op).file) <==> !AppendsOverGap(s, op)
  {
    if op == Append(true) && s.taken != [] {
      var file := Step(s, op).file;
      assert (s.taken + s.pending)[0] == s.taken[0];
      assert file[|s.file|].txn == |s.file| + 1 + Missing(s);
    }
  }

  lemma {:induction false} RunKeepsInv(ops: seq<Op>)
    ensures Inv(Run(EMPTY, ops))
  {
    if ops == [] {
    } else {
      RunKeepsInv(ops[..|ops| - 1]);
      StepKeepsInv(Run(EMPTY, ops[..|ops| - 1]), ops[|ops| - 1]);
    }
  }

  lemma RunStep(s: Log, ops: seq<Op>, n: nat)
    requires n < |ops|
    ensures Run(s, ops[..n + 1]) == Step(Run(s, ops[..n]), ops[n])
  {
    assert ops[..n + 1][..n] == ops[..n];
  }

  /** Over any run with any number of crashes and remounts: the file is gapless all along
      exactly when no record was ever appended after a lost one. */
  lemma GaplessIff(ops: seq<Op>)
    ensures AlwaysGapless(EMPTY, ops) <==> NeverOverGap(EMPTY, ops)
  {
    if AlwaysGapless(EMPTY, ops) {
      forall n | 0 <= n < |ops| ensures !AppendsOverGap(Run(EMPTY, ops[..n]), ops[n]) {
        RunKeepsInv(ops[..n]);
        RunStep(EMPTY, ops, n);
        StepGaplessIff(Run(EMPTY, ops[..n]), ops[n]);
        assert Gapless(Run(EMPTY, ops[..n + 1]).file);
      }
    }
    if NeverOverGap(EMPTY, ops) {
      forall n | 0 <= n <= |ops| ensures Gapless(Run(EMPTY, ops[..n]).file) { GaplessTo(ops, n); }
    }
  }

  lemma {:induction false} GaplessTo(ops: seq<Op>, n: nat)
    requires NeverOverGap(EMPTY, ops) && n <= |ops|
    ensures Gapless(Run(EMPTY, ops[..n]).file)
  {
    if n == 0 {
    } else {
      GaplessTo(ops, n - 1);
      RunKeepsInv(ops[..n - 1]);
      RunStep(EMPTY, ops, n - 1);
      StepGaplessIff(Run(EMPTY, ops[..n - 1]), ops[n - 1]);
    }
  }

  /** If no write fails there is no gap to append over, however often the system crashes. */
  lemma NoFailureNoGap(ops: seq<Op>)
    requires forall i :: 0 <= i < |ops| ==> ops[i] != Append(false)
    ensures AlwaysGapless(EMPTY, ops)
  {
    forall n | 0 <= n < |ops| ensures !AppendsOverGap(Run(EMPTY, ops[..n]), ops[n]) {
      NothingMissing(ops[..n]);
    }
    GaplessIff(ops);
  }

  lemma {:induction false} NothingMissing(ops: seq<Op>)
    requires forall i :: 0 <= i < |ops| ==> ops[i] != Append(false)
    ensures Missing(Run(EMPTY, ops)) == 0
  {
    if ops == [] {
    } else {
      NothingMissing(ops[..|ops| - 1]);
    }
  }

  // ---- replay ---------------------------------------------------------------

  /** The last record of an object in the file. */
  function Last(file: seq<Rec>, oid: Oid): Option<Rec>
  {
    if file == [] then None
    else if file[|file| - 1].oid == oid then Some(file[|file| - 1])
    else Last(file[..|file| - 1], oid)
  }

  function Reply(m: map<Oid, Rec>, oid: Oid): Option<Rec>
  {
    if oid in m then Some(m[oid]) else None
  }

  /** One record of the replay loop. An object not met before starts at number 0. */
  function Load(m: map<Oid, Rec>, r: Rec): map<Oid, Rec>
  {
    if r.txn < (if r.oid in m then m[r.oid].txn else 0) then m else m[r.oid := r]
  }

  function LoadAll(file: seq<Rec>): map<Oid, Rec>
  {
    if file == [] then map[] else Load(LoadAll(file[..|file| - 1]), file[|file| - 1])
  }

  /** smoothfs_replay_load_log. */
  method Replay(file: seq<Rec>) returns (m: map<Oid, Rec>)
    ensures m == LoadAll(file)
  {
    m := map[];
    for i := 0 to |file|
      invariant m == LoadAll(file[..i])
    {
      assert file[..i + 1][..i] == file[..i];
      var r := file[i];
      var had := if r.oid in m then m[r.oid].txn else 0;
      if r.txn < had { continue; }
      m := m[r.oid := r];
    }
    assert file[..|file|] == file;
  }

  /** Of a gapless file the replay keeps, for every object, its last record. */
  lemma {:induction false} ReplayKeepsLast(file: seq<Rec>, oid: Oid)
    requires Gapless(file)
    ensures Reply(LoadAll(file), oid) == Last(file, oid)
    ensures Last(file, oid).Some? ==> Last(file, oid).value in file
  {
    if file == [] {
    } else {
      var front, r := file[..|file| - 1], file[|file| - 1];
      ReplayKeepsLast(front, oid);
      ReplayKeepsLast(front, r.oid);
      if Last(front, r.oid).Some? {
        var i :| 0 <= i < |front| && front[i] == Last(front, r.oid).value;
        assert front[i].txn == i + 1;
      }
    }
  }

  /** Whether the replay of this file finds every object's last record. */
  ghost predicate Right(file: seq<Rec>)
  {
    forall oid :: Reply(LoadAll(file), oid) == Last(file, oid)
  }

  /** No record of an object has a higher number than its last one. */
  ghost predicate LastIsHighest(file: seq<Rec>, oid: Oid)
  {
    forall i :: 0 <= i < |file| && file[i].oid == oid ==>
      Last(file, oid).Some? && file[i].txn <= Last(file, oid).value.txn
  }

  /** What the replay holds of an object: one of its records, none with a higher number. */
  lemma {:induction false} ReplayHolds(file: seq<Rec>, oid: Oid)
    ensures var r := Reply(LoadAll(file), oid);
            && (r.Some? ==> r.value in file && r.value.oid == oid)
            && (forall i :: 0 <= i < |file| && file[i].oid == oid ==> r.Some? && file[i].txn <= r.value.txn)
  {
    if file == [] {
    } else {
      var front := file[..|file| - 1];
      ReplayHolds(front, oid);
      forall i | 0 <= i < |front| ensures front[i] == file[i] {}
    }
  }

  /** For any file and object: the replay is right exactly when no record of the object has a
      higher number than its last one. */
  lemma {:induction false} ReplayRightIff(file: seq<Rec>, oid: Oid)
    ensures Reply(LoadAll(file), oid) == Last(file, oid) <==> LastIsHighest(file, oid)
  {
    ReplayHolds(file, oid);
    LastIsThere(file, oid);
    if LastIsHighest(file, oid) { HighestLastWins(file, oid); }
  }

  lemma {:induction false} LastIsThere(file: seq<Rec>, oid: Oid)
    ensures Last(file, oid).Some? ==> Last(file, oid).value in file && Last(file, oid).value.oid == oid
    ensures forall i :: 0 <= i < |file| && file[i].oid == oid ==> Last(file, oid).Some?
  {
    if file == [] {
    } else {
      var front := file[..|file| - 1];
      LastIsThere(front, oid);
      forall i | 0 <= i < |front| ensures front[i] == file[i] {}
    }
  }

  lemma {:induction false} HighestLastWins(file: seq<Rec>, oid: Oid)
    requires LastIsHighest(file, oid)
    ensures Reply(LoadAll(file), oid) == Last(file, oid)
  {
    if file == [] {
    } else {
      var front, r := file[..|file| - 1], file[|file| - 1];
      if r.oid == oid {
        ReplayHolds(front, oid);
        if Reply(LoadAll(front), oid).Some? {
          var had := LoadAll(front)[oid];
          var i :| 0 <= i < |front| && front[i] == had;
          assert file[i].txn <= r.txn;
        }
      } else {
        assert LastIsHighest(front, oid) by {
          forall i | 0 <= i < |front| && front[i].oid == oid ensures front[i].txn <= Last(front, oid).value.txn {
            assert file[i] == front[i];
          }
          LastIsThere(front, oid);
        }
        HighestLastWins(front, oid);
      }
    }
  }

  /** Whatever prefix a crash leaves of this file, its replay is right. */
  ghost predicate Crashproof(file: seq<Rec>)
  {
    forall k :: 0 <= k <= |file| ==> Right(file[..k])
  }

  /** The step that spoils the replay: a record is appended whose number is below the one the
      replay already holds for its object. */
  predicate AppendsStale(s: Log, op: Op)
  {
    && op == Append(true) && s.taken != []
    && var m := LoadAll(s.file); s.taken[0].oid in m && s.taken[0].txn < m[s.taken[0].oid].txn
  }

  ghost predicate AlwaysCrashproof(s: Log, ops: seq<Op>)
  {
    forall n :: 0 <= n <= |ops| ==> Crashproof(Run(s, ops[..n]).file)
  }

  predicate NeverStale(s: Log, ops: seq<Op>)
  {
    forall n :: 0 <= n < |ops| ==> !AppendsStale(Run(s, ops[..n]), ops[n])
  }

  lemma AppendRightIff(file: seq<Rec>, r: Rec)
    requires Right(file)
    ensures Right(file + [r]) <==> !(r.oid in LoadAll(file) && r.txn < LoadAll(file)[r.oid].txn)
  {
    var file' := file + [r];
    assert file'[..|file|] == file;
    forall oid ensures oid != r.oid ==> Reply(LoadAll(file'), oid) == Last(file', oid) {
      assert Reply(LoadAll(file), oid) == Last(file, oid);
    }
    assert Last(file', r.oid) == Some(r);
    if r.oid in LoadAll(file) && r.txn < LoadAll(file)[r.oid].txn {
      assert Reply(LoadAll(file'), r.oid) != Last(file', r.oid);
    }
  }

  /** One step leaves the file crashproof exactly when it does not append a stale record. */
  lemma StepCrashproofIff(s: Log, op: Op)
    requires Crashproof(s.file)
    ensures Crashproof(Step(s, op).file) <==> !AppendsStale(s, op)
  {
    hide Right;
    var file, file' := s.file, Step(s, op).file;
    assert file[..|file|] == file;
    if op == Append(true) && s.taken != [] {
      AppendRightIff(file, s.taken[0]);
      assert file'[..|file'|] == file';
      forall k | 0 <= k <= |file| ensures file'[..k] == file[..k] {}
    } else {
      forall k | 0 <= k <= |file'| ensures file'[..k] == file[..k] {}
    }
  }

  /** Over any run with any crashes, remounts and failed writes: a crash at any moment, whatever
      prefix of the file it leaves, is followed by a right replay, exactly when no stale record
      was ever appended. */
  lemma ReplayAfterAnyRunIff(ops: seq<Op>)
    ensures AlwaysCrashproof(EMPTY, ops) <==> NeverStale(EMPTY, ops)
  {
    hide Crashproof, Step;
    if AlwaysCrashproof(EMPTY, ops) {
      forall n | 0 <= n < |ops| ensures !AppendsStale(Run(EMPTY, ops[..n]), ops[n]) {
        RunStep(EMPTY, ops, n);
        assert Crashproof(Run(EMPTY, ops[..n + 1]).file);
        StepCrashproofIff(Run(EMPTY, ops[..n]), ops[n]);
      }
    }
    if NeverStale(EMPTY, ops) {
      forall n | 0 <= n <= |ops| ensures Crashproof(Run(EMPTY, ops[..n]).file) { CrashproofTo(ops, n); }
    }
  }

  lemma {:induction false} CrashproofTo(ops: seq<Op>, n: nat)
    requires NeverStale(EMPTY, ops) && n <= |ops|
    ensures Crashproof(Run(EMPTY, ops[..n]).file)
  {
    if n == 0 {
    } else {
      CrashproofTo(ops, n - 1);
      RunStep(EMPTY, ops, n - 1);
      StepCrashproofIff(Run(EMPTY, ops[..n - 1]), ops[n - 1]);
    }
  }

  /** A run that never appends over a gap never appends a stale record; the converse fails, since
      a gap alone does no harm until a remount counts from the shorter file. */
  lemma NoGapNoStale(ops: seq<Op>)
    requires NeverOverGap(EMPTY, ops)
    ensures NeverStale(EMPTY, ops)
  {
    forall n | 0 <= n <= |ops| ensures Crashproof(Run(EMPTY, ops[..n]).file) {
      GaplessTo(ops, n);
      var file := Run(EMPTY, ops[..n]).file;
      forall k, oid | 0 <= k <= |file| ensures Reply(LoadAll(file[..k]), oid) == Last(file[..k], oid) {
        ReplayKeepsLast(file[..k], oid);
      }
    }
    ReplayAfterAnyRunIff(ops);
  }

  lemma GapWithoutHarm(oid: Oid, place: Where)
    ensures var s := Log([], [Rec(2, oid, place)], [], 2);
            && s == Step(Step(Step(Step(EMPTY, Record(oid, place)), Record(oid, place)), Splice), Append(false))
            && AppendsOverGap(s, Append(true)) && !AppendsStale(s, Append(true))
  {
    var r1, r2 := Rec(1, oid, place), Rec(2, oid, place);
    assert [r1, r2][1..] == [r2];
  }

  /** What a record means between crashes: file, taken and queued together are one list that
      a record extends, the worker does not change, and a crash cuts. */
  lemma StepRefinesList(s: Log, op: Op)
    requires Inv(s) && Missing(s) == 0 && op != Append(false)
    ensures var all, all' := s.file + s.taken + s.pending, Step(s, op).file + Step(s, op).taken + Step(s, op).pending;
            match op
            case Record(oid, place) => all' == all + [Rec(|all| + 1, oid, place)]
            case Remount(kept) => all' <= all && |all'| == if kept < |s.file| then kept else |s.file|
            case _ => all' == all
  {
  }

  lemma {:induction false} RunConcat(s: Log, a: seq<Op>, b: seq<Op>)
    ensures Run(s, a + b) == Run(Run(s, a), b)
  {
    hide Step;
    if b == [] {
      assert a + b == a;
    } else {
      assert (a + b)[..|a + b| - 1] == a + b[..|b| - 1];
      RunConcat(s, a, b[..|b| - 1]);
    }
  }

  lemma RunFour(s: Log, a: Op, b: Op, c: Op, d: Op)
    ensures Run(s, [a, b, c, d]) == Step(Step(Step(Step(s, a), b), c), d)
  {
    hide Step;
    assert [a, b, c, d][..3] == [a, b, c] && [a, b, c][..2] == [a, b] && [a, b][..1] == [a] && [a][..0] == [];
    assert Run(s, [a]) == Step(s, a);
    assert Run(s, [a, b]) == Step(Step(s, a), b);
  }

  /** Two lost writes, a crash, and the object moves again: the replay keeps the record from
      before the crash. */
  function LostWrites(oid: Oid, before: Where, after: Where): seq<Op>
  {
    [Record(oid, before), Record(oid, before), Record(oid, before), Splice]
    + [Append(false), Append(false), Append(true), Remount(1)]
    + [Record(oid, after), Splice, Append(true), Splice]
  }

  lemma LostWritesReplayStale(oid: Oid, before: Where, after: Where)
    ensures var file := Run(EMPTY, LostWrites(oid, before, after)).file;
            && Last(file, oid) == Some(Rec(2, oid, after))
            && Reply(LoadAll(file), oid) == Some(Rec(3, oid, before))
  {
    hide Run;
    var r1, r2, r3, r4 := Rec(1, oid, before), Rec(2, oid, before), Rec(3, oid, before), Rec(2, oid, after);
    var a := [Record(oid, before), Record(oid, before), Record(oid, before), Splice];
    var b := [Append(false), Append(false), Append(true), Remount(1)];
    var c := [Record(oid, after), Splice, Append(true), Splice];
    RunFour(EMPTY, a[0], a[1], a[2], a[3]);
    assert Run(EMPTY, a) == Log([], [r1, r2, r3], [], 3);
    LosesTwo(r1, r2, r3);
    RunConcat(EMPTY, a, b);
    RunFour(Log([r3], [], [], 1), c[0], c[1], c[2], c[3]);
    RunConcat(EMPTY, a + b, c);
    assert Run(EMPTY, a + b + c).file == [r3, r4];
    assert [r3, r4][..1] == [r3] && [r3][..0] == [];
    assert LoadAll([r3]) == map[oid := r3];
  }

  lemma LosesTwo(r1: Rec, r2: Rec, r3: Rec)
    ensures Run(Log([], [r1, r2, r3], [], 3), [Append(false), Append(false), Append(true), Remount(1)])
            == Log([r3], [], [], 1)
  {
    hide Run;
    RunFour(Log([], [r1, r2, r3], [], 3), Append(false), Append(false), Append(true), Remount(1));
    assert [r1, r2, r3][1..] == [r2, r3] && [r2, r3][1..] == [r3] && [r3][1..] == [];
  }

  // ---- the mounted log --------------------------------------------------------

  /** The records of a queue whose write does not fail. */
  function Kept(q: seq<Rec>, fails: set<nat>): seq<Rec>
  {
    if q == [] then [] else (if q[0].txn in fails then [] else [q[0]]) + Kept(q[1..], fails)
  }

  function Appends(q: seq<Rec>, fails: set<nat>): seq<Op>
  {
    if q == [] then [] else [Append(q[0].txn !in fails)] + Appends(q[1..], fails)
  }

  /** The appends of a flush add what does not fail, in order. */
  lemma {:induction false} AppendsRun(s: Log, fails: set<nat>)
    ensures Run(s, Appends(s.taken, fails)) == s.(file := s.file + Kept(s.taken, fails), taken := [])
    decreases |s.taken|
  {
    if s.taken == [] {
    } else {
      var op, rest := Append(s.taken[0].txn !in fails), Appends(s.taken[1..], fails);
      var s' := Step(s, op);
      AppendsRun(s', fails);
      RunConcat(s, [op], rest);
      RunOne(s, op);
      assert s'.file + Kept(s'.taken, fails) == s.file + Kept(s.taken, fails);
    }
  }

  lemma RunOne(s: Log, op: Op)
    ensures Run(s, [op]) == Step(s, op)
  {
    assert [op][..0] == [];
    assert Run(s, [op][..0]) == s;
  }

  /** What happens to a log: records, worker runs in which some writes fail, crashes. */
  datatype Request = Put(oid: Oid, place: Where) | Flush(fails: set<nat>) | Crash(kept: nat)

  function OpsOf(s: Log, r: Request): seq<Op>
  {
    match r
    case Put(oid, place) => [Record(oid, place)]
    case Flush(fails) => [Splice] + Appends(s.pending, fails)
    case Crash(kept) => [Remount(kept)]
  }

  function AllOps(reqs: seq<Request>): seq<Op>
  {
    if reqs == [] then []
    else AllOps(reqs[..|reqs| - 1]) + OpsOf(Run(EMPTY, AllOps(reqs[..|reqs| - 1])), reqs[|reqs| - 1])
  }

  /** The log of a mounted pool, as the kernel's functions update it. */
  class Writeback {
    var file: seq<Rec>
    var taken: seq<Rec>
    var pending: seq<Rec>
    var counter: nat

    ghost predicate Valid()
      reads this
    {
      Inv(Value()) && taken == []
    }

    function Value(): Log
      reads this
    {
      Log(file, taken, pending, counter)
    }

    /** smoothfs_placement_open: numbering goes on where the file's length says. */
    constructor (file: seq<Rec>)
      ensures Valid() && this.file == file && pending == [] && Missing(Value()) == 0
    {
      this.file, taken, pending, counter := file, [], [], |file|;
    }

    /** smoothfs_placement_record: the record's number is above every queued one's, and what
        is missing from the file stays the same. */
    method Add(oid: Oid, place: Where)
      requires Valid()
      modifies this
      ensures Valid() && Value() == Run(old(Value()), [Record(oid, place)])
      ensures Missing(Value()) == old(Missing(Value()))
      ensures pending != [] && pending[..|pending| - 1] == old(pending)
      ensures forall r :: r in old(pending) ==> r.txn < pending[|pending| - 1].txn
    {
      RunOne(Value(), Record(oid, place));
      StepKeepsInv(Value(), Record(oid, place));
      assert taken + pending == pending;
      counter := counter + 1;
      pending := pending + [Rec(counter, oid, place)];
    }

    /** smoothfs_placement_wb_worker, one run of it: it takes the whole queue over and appends
        what does not fail to be written, in order; what fails is missing from then on. */
    method WriteBack(fails: set<nat>)
      requires Valid()
      modifies this
      ensures Valid() && pending == [] && file == old(file) + Kept(old(pending), fails)
      ensures Value() == Run(old(Value()), [Splice] + Appends(old(pending), fails))
      ensures Missing(Value()) == old(Missing(Value())) + |old(pending)| - |Kept(old(pending), fails)|
    {
      ghost var s := Value();
      FlushRun(s, fails);
      hide Run, Appends;
      taken, pending := pending, [];
      while taken != []
        invariant pending == [] && counter == s.counter
        invariant file + Kept(taken, fails) == s.file + Kept(s.pending, fails)
        decreases |taken|
      {
        ghost var before := file + Kept(taken, fails);
        if taken[0].txn !in fails { file := file + [taken[0]]; }
        taken := taken[1..];
        assert file + Kept(taken, fails) == before;
      }
    }
  }

  lemma FlushRun(s: Log, fails: set<nat>)
    requires Inv(s) && s.taken == []
    ensures Run(s, [Splice] + Appends(s.pending, fails)) == Log(s.file + Kept(s.pending, fails), [], [], s.counter)
    ensures |Kept(s.pending, fails)| <= |s.pending|
  {
    RunOne(s, Splice);
    RunConcat(s, [Splice], Appends(s.pending, fails));
    AppendsRun(Step(s, Splice), fails);
    KeptFewer(s.pending, fails);
  }

  lemma {:induction false} KeptFewer(q: seq<Rec>, fails: set<nat>)
    ensures |Kept(q, fails)| <= |q|
  {
    if q == [] {
    } else {
      KeptFewer(q[1..], fails);
    }
  }

  /** A log's life over any records, worker runs and crashes is a run of the steps above, so all
      that is proved of runs holds of it; at its end it is replayed. */
  method Life(reqs: seq<Request>) returns (w: Writeback, m: map<Oid, Rec>)
    ensures w.Valid() && w.Value() == Run(EMPTY, AllOps(reqs))
    ensures m == LoadAll(w.file)
    ensures NeverStale(EMPTY, AllOps(reqs)) ==> forall oid :: Reply(m, oid) == Last(w.file, oid)
  {
    w := new Writeback([]);
    hide Run, LoadAll;
    AllOpsNone();
    for i := 0 to |reqs|
      invariant fresh(w) && w.Valid() && w.Value() == Run(EMPTY, AllOps(reqs[..i]))
    {
      OneMore(reqs, i);
      w := Serve(w, reqs[i]);
    }
    assert reqs[..|reqs|] == reqs;
    m := Replay(w.file);
    if NeverStale(EMPTY, AllOps(reqs)) { NeverStaleRight(AllOps(reqs)); }
  }

  method Serve(w: Writeback, r: Request) returns (w': Writeback)
    requires w.Valid()
    modifies w
    ensures w'.Valid() && (w' == w || fresh(w')) && w'.Value() == Run(old(w.Value()), OpsOf(old(w.Value()), r))
  {
    hide Run;
    w' := w;
    match r {
      case Put(oid, place) => w.Add(oid, place);
      case Flush(fails) => w.WriteBack(fails);
      case Crash(kept) =>
        RunOne(w.Value(), Remount(kept));
        w' := new Writeback(if kept < |w.file| then w.file[..kept] else w.file);
    }
  }

  lemma AllOpsNone()
    ensures Run(EMPTY, AllOps([])) == EMPTY
  {
  }

  lemma OneMore(reqs: seq<Request>, i: nat)
    requires i < |reqs|
    ensures var s := Run(EMPTY, AllOps(reqs[..i])); Run(EMPTY, AllOps(reqs[..i + 1])) == Run(s, OpsOf(s, reqs[i]))
  {
    assert reqs[..i + 1][..i] == reqs[..i];
    RunConcat(EMPTY, AllOps(reqs[..i]), OpsOf(Run(EMPTY, AllOps(reqs[..i])), reqs[i]));
  }

  lemma NeverStaleRight(ops: seq<Op>)
    requires NeverStale(EMPTY, ops)
    ensures Right(Run(EMPTY, ops).file)
  {
    CrashproofTo(ops, |ops|);
    var file := Run(EMPTY, ops).file;
    assert ops[..|ops|] == ops && file[..|file|] == file;
  }
}
