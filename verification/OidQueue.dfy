/** The identity of lower files: an OID is minted in memory at create and reaches the file's
    xattr later, through a queue (src/smoothfs/super.c).

    A lower inode is named by a number that is never used again; `next` stands for the OID
    allocator, whose values do not repeat. */
module OidQueue {
  import opened Bytes

  type Ino = nat
  type Oid = nat

  datatype Entry = Entry(ino: Ino, oid: Oid)

  /** Link counts of the lower files that ever existed, their xattrs, the inodes in memory,
      the writeback queue, the part of it a running flush has taken over. */
  datatype Ids = Ids(nlink: map<Ino, nat>, xattr: map<Ino, Oid>, core: map<Ino, Oid>,
                     pending: seq<Entry>, flight: seq<Entry>, next: Oid)

  datatype Op =
    | Create(ino: Ino, queued: bool)
    | Lookup(ino: Ino, bad: set<Ino>, queued: bool)
    | Evict(ino: Ino)
    | Link(ino: Ino)
    | Unlink(ino: Ino)
    | Splice
    | WriteOne(ok: bool)

  predicate Linked(s: Ids, ino: Ino)
  {
    ino in s.nlink && s.nlink[ino] > 0
  }

  /** The oldest entry of a queue for an inode. */
  function Oldest(q: seq<Entry>, ino: Ino): Option<Oid>
  {
    if q == [] then None else if q[0].ino == ino then Some(q[0].oid) else Oldest(q[1..], ino)
  }

  function Without(q: seq<Entry>, ino: Ino): seq<Entry>
  {
    if q == [] then []
    else Without(q[..|q| - 1], ino) + if q[|q| - 1].ino == ino then [] else [q[|q| - 1]]
  }

  /** A create-only xattr write. */
  function Put(xattr: map<Ino, Oid>, e: Entry): map<Ino, Oid>
  {
    if e.ino in xattr then xattr else xattr[e.ino := e.oid]
  }

  function PutAll(xattr: map<Ino, Oid>, q: seq<Entry>, bad: set<Ino>): map<Ino, Oid>
  {
    if q == [] then xattr
    else
      var x := PutAll(xattr, q[..|q| - 1], bad);
      if q[|q| - 1].ino in bad then x else Put(x, q[|q| - 1])
  }

  /** Flush what is in flight, then everything queued. */
  function Drain(s: Ids, bad: set<Ino>): Ids
  {
    s.(xattr := PutAll(s.xattr, s.flight + s.pending, bad), flight := [], pending := [])
  }

  /** Mint an OID and queue it; without memory for the entry the operation fails. */
  function Mint(s: Ids, ino: Ino, queued: bool): Ids
  {
    var t := s.(next := s.next + 1);
    if !queued then t else t.(pending := s.pending + [Entry(ino, s.next)], core := s.core[ino := s.next])
  }

  /** Whether a lookup has to wait for the queue: no inode in memory, no xattr, no entry
      still queued. */
  predicate Waits(s: Ids, ino: Ino)
  {
    Linked(s, ino) && ino !in s.core && ino !in s.xattr && Oldest(s.pending, ino).None?
  }

  /** The identity part of smoothfs_iget. */
  function Iget(s: Ids, ino: Ino, bad: set<Ino>, queued: bool): Ids
  {
    if !Linked(s, ino) || ino in s.core then s
    else if ino in s.xattr then s.(core := s.core[ino := s.xattr[ino]])
    else if Oldest(s.pending, ino).Some? then s.(core := s.core[ino := Oldest(s.pending, ino).value])
    else
      var d := Drain(s, bad);
      if ino in d.xattr then d.(core := d.core[ino := d.xattr[ino]]) else Mint(d, ino, queued)
  }

  function Step(s: Ids, op: Op): Ids
  {
    match op
    case Create(ino, queued) => if ino in s.nlink then s else Mint(s.(nlink := s.nlink[ino := 1]), ino, queued)
    case Lookup(ino, bad, queued) => Iget(s, ino, bad, queued)
    case Evict(ino) => s.(core := s.core - {ino})
    case Link(ino) => if Linked(s, ino) then s.(nlink := s.nlink[ino := s.nlink[ino] + 1]) else s
    case Unlink(ino) =>
      if !Linked(s, ino) then s else
      var t := s.(nlink := s.nlink[ino := s.nlink[ino] - 1]);
      if Linked(t, ino) then t else t.(pending := Without(s.pending, ino))
    case Splice => if s.flight != [] then s else s.(flight := s.pending, pending := [])
    case WriteOne(ok) =>
      if s.flight == [] then s
      else s.(xattr := if ok then Put(s.xattr, s.flight[0]) else s.xattr, flight := s.flight[1..])
  }

  function Run(s: Ids, ops: seq<Op>): Ids
  {
    if ops == [] then s else Step(Run(s, ops[..|ops| - 1]), ops[|ops| - 1])
  }

  /** A mount: nothing in memory, nothing queued. */
  predicate Mounted(s: Ids)
  {
    && s.core == map[] && s.pending == [] && s.flight == []
    && forall ino :: ino in s.xattr ==> ino in s.nlink && s.xattr[ino] < s.next
  }

  predicate In(q: seq<Entry>, ino: Ino)
  {
    exists i :: 0 <= i < |q| && q[i].ino == ino
  }

  /** The identity a lower file has at the moment, wherever it is kept. */
  function Identity(s: Ids, ino: Ino): Option<Oid>
  {
    if ino in s.core then Some(s.core[ino])
    else if ino in s.xattr then Some(s.xattr[ino])
    else Oldest(s.flight + s.pending, ino)
  }

  predicate Distinct(q: seq<Entry>)
  {
    forall i, j :: 0 <= i < j < |q| ==> q[i].ino != q[j].ino
  }

  /** A queue entry is of a file that exists and has no xattr yet; memory agrees with it. */
  predicate EntryOk(s: Ids, e: Entry)
  {
    e.ino in s.nlink && e.ino !in s.xattr && (e.ino in s.core ==> s.core[e.ino] == e.oid) && e.oid < s.next
  }

  ghost predicate MemoryOk(s: Ids)
  {
    && (forall ino :: ino in s.xattr ==> ino in s.nlink && s.xattr[ino] < s.next)
    && (forall ino :: ino in s.core ==> ino in s.nlink && s.core[ino] < s.next)
    && (forall ino :: ino in s.xattr && ino in s.core ==> s.core[ino] == s.xattr[ino])
  }

  /** No file is queued twice, or queued with an xattr; memory agrees with both. */
  ghost predicate Inv(s: Ids)
  {
    && Distinct(s.flight + s.pending)
    && (forall e :: e in s.flight + s.pending ==> EntryOk(s, e))
    && MemoryOk(s)
  }

  /** Every file in memory is also in its xattr or in the queue; true as long as no xattr
      write fails. */
  ghost predicate Backed(s: Ids)
  {
    forall ino :: ino in s.core && Linked(s, ino) ==> ino in s.xattr || In(s.flight + s.pending, ino)
  }

  lemma {:induction false} OldestIff(q: seq<Entry>, ino: Ino)
    ensures Oldest(q, ino).Some? <==> In(q, ino)
    ensures Oldest(q, ino).Some? ==> Entry(ino, Oldest(q, ino).value) in q
  {
    if q == [] {
    } else {
      OldestIff(q[1..], ino);
      if In(q[1..], ino) {
        var i :| 0 <= i < |q[1..]| && q[1..][i].ino == ino;
        assert q[i + 1].ino == ino;
      }
      if In(q, ino) && q[0].ino != ino {
        var i :| 0 <= i < |q| && q[i].ino == ino;
        assert q[1..][i - 1].ino == ino;
      }
    }
  }

  /** In a queue without repeats an entry is its inode's oldest. */
  lemma OldestIs(q: seq<Entry>, i: nat)
    requires i < |q| && Distinct(q)
    ensures Oldest(q, q[i].ino) == Some(q[i].oid)
  {
    OldestIff(q, q[i].ino);
  }

  lemma {:induction false} OldestConcat(a: seq<Entry>, b: seq<Entry>, ino: Ino)
    ensures Oldest(a + b, ino) == if Oldest(a, ino).Some? then Oldest(a, ino) else Oldest(b, ino)
  {
    if a == [] {
      assert a + b == b;
    } else {
      OldestConcat(a[1..], b, ino);
      assert (a + b)[1..] == a[1..] + b;
    }
  }

  lemma {:induction false} WithoutKeeps(q: seq<Entry>, gone: Ino, ino: Ino)
    ensures !In(Without(q, gone), gone)
    ensures ino != gone ==> Oldest(Without(q, gone), ino) == Oldest(q, ino)
    ensures forall e :: e in Without(q, gone) ==> e in q
  {
    if q == [] {
    } else {
      var front, last := q[..|q| - 1], q[|q| - 1];
      WithoutKeeps(front, gone, ino);
      OldestConcat(front, [last], ino);
      assert q == front + [last];
      OldestConcat(Without(front, gone), if last.ino == gone then [] else [last], ino);
    }
  }

  lemma {:induction false} WithoutSeparate(q: seq<Entry>, gone: Ino)
    requires Distinct(q)
    ensures Distinct(Without(q, gone))
  {
    if q == [] {
    } else {
      var front := q[..|q| - 1];
      WithoutSeparate(front, gone);
      WithoutKeeps(front, gone, gone);
      forall e | e in Without(front, gone) ensures e.ino != q[|q| - 1].ino {
        var i :| 0 <= i < |front| && front[i] == e;
        assert q[i] == e;
      }
    }
  }

  /** A flush writes exactly the queued identities of files whose write does not fail. */
  lemma {:induction false} PutAllIs(xattr: map<Ino, Oid>, q: seq<Entry>, bad: set<Ino>, ino: Ino)
    requires Distinct(q)
    ensures var x := PutAll(xattr, q, bad);
            && (ino in xattr ==> ino in x && x[ino] == xattr[ino])
            && (ino !in xattr ==> (ino in x <==> In(q, ino) && ino !in bad))
            && (ino !in xattr && ino in x ==> Oldest(q, ino) == Some(x[ino]))
  {
    if q == [] {
    } else {
      var front, last := q[..|q| - 1], q[|q| - 1];
      PutAllIs(xattr, front, bad, ino);
      assert q == front + [last];
      OldestConcat(front, [last], ino);
      OldestIff(front, ino);
      OldestIff(q, ino);
      OldestIff([last], ino);
    }
  }

  // ---- every step keeps the invariant -----------------------------------------

  lemma DrainKeeps(s: Ids, bad: set<Ino>)
    requires Inv(s)
    ensures Inv(Drain(s, bad))
    ensures forall ino :: ino in s.xattr ==> ino in Drain(s, bad).xattr && Drain(s, bad).xattr[ino] == s.xattr[ino]
  {
    var q, d := s.flight + s.pending, Drain(s, bad);
    assert d.flight + d.pending == [];
    forall ino ensures ino in s.xattr ==> ino in d.xattr && d.xattr[ino] == s.xattr[ino]
      ensures ino in d.xattr && ino !in s.xattr ==> Entry(ino, d.xattr[ino]) in q
    {
      PutAllIs(s.xattr, q, bad, ino);
      OldestIff(q, ino);
    }
  }

  lemma MintKeeps(s: Ids, ino: Ino, queued: bool)
    requires Inv(s) && ino in s.nlink && ino !in s.xattr && ino !in s.core && !In(s.flight + s.pending, ino)
    ensures Inv(Mint(s, ino, queued))
  {
    if queued {
      var t, q := Mint(s, ino, queued), s.flight + s.pending;
      assert t.flight + t.pending == q + [Entry(ino, s.next)];
      forall e | e in q ensures e.ino != ino {
        var i :| 0 <= i < |q| && q[i] == e;
      }
    }
  }

  /** Memory takes an identity over from the xattr or the queue. */
  lemma AdoptKeeps(s: Ids, ino: Ino, o: Oid)
    requires Inv(s) && ino !in s.core && ino in s.nlink
    requires (ino in s.xattr && s.xattr[ino] == o) || Entry(ino, o) in s.flight + s.pending
    ensures Inv(s.(core := s.core[ino := o]))
  {
    var q := s.flight + s.pending;
    forall e | e in q && e.ino == ino ensures e.oid == o {
      assert EntryOk(s, e);
      var i :| 0 <= i < |q| && q[i] == e;
      var j :| 0 <= j < |q| && q[j] == Entry(ino, o);
    }
  }

  lemma IgetKeeps(s: Ids, ino: Ino, bad: set<Ino>, queued: bool)
    requires Inv(s)
    ensures Inv(Iget(s, ino, bad, queued))
  {
    hide Inv;
    if !Linked(s, ino) || ino in s.core {
    } else if ino in s.xattr {
      AdoptKeeps(s, ino, s.xattr[ino]);
    } else {
      OldestIff(s.pending, ino);
      if Oldest(s.pending, ino).Some? {
        AdoptKeeps(s, ino, Oldest(s.pending, ino).value);
      } else {
        DrainKeeps(s, bad);
        var d := Drain(s, bad);
        if ino in d.xattr { AdoptKeeps(d, ino, d.xattr[ino]); } else { MintKeeps(d, ino, queued); }
      }
    }
  }

  lemma {:induction false} DistinctConcat(a: seq<Entry>, b: seq<Entry>)
    ensures Distinct(a + b) <==> Distinct(a) && Distinct(b) && forall e, f :: e in a && f in b ==> e.ino != f.ino
  {
    var q := a + b;
    assert forall i :: 0 <= i < |a| ==> q[i] == a[i];
    assert forall i :: 0 <= i < |b| ==> q[|a| + i] == b[i];
    if Distinct(q) {
      forall e, f | e in a && f in b ensures e.ino != f.ino {
        var i :| 0 <= i < |a| && a[i] == e;
        var j :| 0 <= j < |b| && b[j] == f;
        assert q[i].ino != q[|a| + j].ino;
      }
      forall i, j | 0 <= i < j < |b| ensures b[i].ino != b[j].ino {
        assert q[|a| + i].ino != q[|a| + j].ino;
      }
    }
  }

  lemma UnlinkKeeps(s: Ids, ino: Ino)
    requires Inv(s)
    ensures Inv(Step(s, Unlink(ino)))
  {
    var s' := Step(s, Unlink(ino));
    DistinctConcat(s.flight, s.pending);
    WithoutSeparate(s.pending, ino);
    WithoutKeeps(s.pending, ino, ino);
    DistinctConcat(s'.flight, s'.pending);
    forall e | e in s'.flight + s'.pending ensures EntryOk(s', e) {
      assert e in s.flight + s.pending;
    }
  }

  lemma QueuedExists(s: Ids, ino: Ino)
    requires Inv(s) && In(s.flight + s.pending, ino)
    ensures ino in s.nlink && ino !in s.xattr
  {
    var q := s.flight + s.pending;
    var i :| 0 <= i < |q| && q[i].ino == ino;
    assert EntryOk(s, q[i]);
  }

  lemma StepKeepsInv(s: Ids, op: Op)
    requires Inv(s)
    ensures Inv(Step(s, op))
  {
    var s', q := Step(s, op), s.flight + s.pending;
    match op
    case Create(ino, queued) =>
      if ino !in s.nlink {
        var t := s.(nlink := s.nlink[ino := 1]);
        assert !In(q, ino) by { if In(q, ino) { QueuedExists(s, ino); } }
        assert Inv(t) by { assert forall e :: e in q ==> EntryOk(s, e); }
        MintKeeps(t, ino, queued);
      }
    case Lookup(ino, bad, queued) => IgetKeeps(s, ino, bad, queued);
    case Evict(ino) =>
    case Link(ino) =>
    case Unlink(ino) => UnlinkKeeps(s, ino);
    case Splice =>
      if s.flight == [] { assert s'.flight + s'.pending == q; }
    case WriteOne(ok) =>
      if s.flight != [] { WriteOneKeeps(s, ok); }
  }

  lemma WriteOneKeeps(s: Ids, ok: bool)
    requires Inv(s) && s.flight != []
    ensures Inv(Step(s, WriteOne(ok)))
  {
    var s', q := Step(s, WriteOne(ok)), s.flight + s.pending;
    assert s'.flight + s'.pending == q[1..] && q[0] == s.flight[0];
    assert EntryOk(s, q[0]);
    forall e | e in q[1..] ensures EntryOk(s', e) {
      var i :| 0 < i < |q| && q[i] == e;
      assert EntryOk(s, q[i]);
    }
  }

  // ---- what becomes of one file's identity ------------------------------------

  /** The steps that lose the identity of a file: its only record is a queue entry whose write
      fails, or it leaves memory after that happened. */
  predicate Loses(s: Ids, op: Op, ino: Ino)
  {
    match op
    case Evict(i) => i == ino && ino in s.core && ino !in s.xattr && !In(s.flight + s.pending, ino)
    case WriteOne(ok) => !ok && s.flight != [] && s.flight[0].ino == ino && ino !in s.core
    case Lookup(i, bad, _) => Waits(s, i) && ino in bad && ino !in s.core && ino !in s.xattr && In(s.flight + s.pending, ino)
    case _ => false
  }

  lemma DrainIdentity(s: Ids, bad: set<Ino>, ino: Ino)
    requires Inv(s)
    ensures Identity(Drain(s, bad), ino)
            == if ino !in s.core && ino !in s.xattr && ino in bad then None else Identity(s, ino)
  {
    PutAllIs(s.xattr, s.flight + s.pending, bad, ino);
    OldestIff(s.flight + s.pending, ino);
  }

  lemma IgetIdentity(s: Ids, i: Ino, bad: set<Ino>, queued: bool, ino: Ino)
    requires Inv(s) && Identity(s, ino).Some?
    ensures var s' := Iget(s, i, bad, queued);
            if Loses(s, Lookup(i, bad, queued), ino) then Identity(s', ino).None? || Identity(s', ino) == Some(s.next)
            else Identity(s', ino) == Identity(s, ino)
  {
    hide Inv;
    OldestIff(s.flight + s.pending, ino);
    if Waits(s, i) {
      WaitsIdentity(s, i, bad, queued, ino);
    } else if Linked(s, i) && i !in s.core && i !in s.xattr {
      OldestIff(s.pending, i);
      PendingIsOldest(s, i);
    }
  }

  lemma PendingIsOldest(s: Ids, ino: Ino)
    requires Inv(s) && Oldest(s.pending, ino).Some?
    ensures Oldest(s.flight + s.pending, ino) == Oldest(s.pending, ino)
  {
    OldestIff(s.pending, ino);
    var k :| 0 <= k < |s.pending| && s.pending[k] == Entry(ino, Oldest(s.pending, ino).value);
    assert (s.flight + s.pending)[|s.flight| + k] == s.pending[k];
    OldestIs(s.flight + s.pending, |s.flight| + k);
  }

  lemma WaitsIdentity(s: Ids, i: Ino, bad: set<Ino>, queued: bool, ino: Ino)
    requires Inv(s) && Identity(s, ino).Some? && Waits(s, i)
    ensures var s' := Iget(s, i, bad, queued);
            if ino in bad && ino !in s.core && ino !in s.xattr then Identity(s', ino).None? || Identity(s', ino) == Some(s.next)
            else Identity(s', ino) == Identity(s, ino)
  {
    var d := Drain(s, bad);
    DrainIdentity(s, bad, ino);
    if i !in d.xattr && queued {
      var t := Mint(d, i, queued);
      assert t.flight + t.pending == [Entry(i, s.next)];
      OldestIff([Entry(i, s.next)], ino);
    }
  }

  /** One step keeps the identity of a linked file exactly when it does not lose it. */
  lemma StepIdentityIff(s: Ids, op: Op, ino: Ino)
    requires Inv(s) && Identity(s, ino).Some? && Linked(Step(s, op), ino)
    ensures Identity(Step(s, op), ino) == Identity(s, ino) <==> !Loses(s, op, ino)
  {
    var s', q := Step(s, op), s.flight + s.pending;
    OldestIff(q, ino);
    IdentityBelow(s, ino);
    match op
    case Create(i, queued) =>
      if i !in s.nlink && queued {
        assert s'.flight + s'.pending == q + [Entry(i, s.next)];
        OldestConcat(q, [Entry(i, s.next)], ino);
        if In(q, ino) { QueuedExists(s, ino); }
      }
    case Lookup(i, bad, queued) => IgetIdentity(s, i, bad, queued, ino);
    case Evict(i) => EvictIdentity(s, i, ino);
    case Link(i) =>
    case Unlink(i) =>
      OldestConcat(s.flight, s.pending, ino);
      WithoutKeeps(s.pending, i, ino);
      OldestConcat(s'.flight, s'.pending, ino);
    case Splice =>
      if s.flight == [] { assert s'.flight + s'.pending == q; }
    case WriteOne(ok) => WriteIdentity(s, ok, ino);
  }

  lemma IdentityBelow(s: Ids, ino: Ino)
    requires Inv(s) && Identity(s, ino).Some?
    ensures Identity(s, ino).value < s.next
  {
    OldestIff(s.flight + s.pending, ino);
    if ino !in s.core && ino !in s.xattr {
      assert EntryOk(s, Entry(ino, Oldest(s.flight + s.pending, ino).value));
    }
  }

  lemma EvictIdentity(s: Ids, i: Ino, ino: Ino)
    requires Inv(s) && Identity(s, ino).Some?
    ensures Identity(Step(s, Evict(i)), ino) == Identity(s, ino) <==> !Loses(s, Evict(i), ino)
  {
    var q := s.flight + s.pending;
    OldestIff(q, ino);
    if ino in s.core && ino !in s.xattr && In(q, ino) { assert EntryOk(s, Entry(ino, Oldest(q, ino).value)); }
  }

  lemma WriteIdentity(s: Ids, ok: bool, ino: Ino)
    requires Inv(s) && Identity(s, ino).Some?
    ensures Identity(Step(s, WriteOne(ok)), ino) == Identity(s, ino) <==> !Loses(s, WriteOne(ok), ino)
  {
    var s', q := Step(s, WriteOne(ok)), s.flight + s.pending;
    if s.flight != [] {
      assert q[0] == s.flight[0] && s'.flight + s'.pending == q[1..];
      assert EntryOk(s, q[0]);
      OldestIs(q, 0);
      OldestIff(q[1..], ino);
    }
  }

  // ---- runs -------------------------------------------------------------------

  lemma {:induction false} RunKeepsInv(s: Ids, ops: seq<Op>)
    requires Inv(s)
    ensures Inv(Run(s, ops))
  {
    if ops == [] {
    } else {
      RunKeepsInv(s, ops[..|ops| - 1]);
      StepKeepsInv(Run(s, ops[..|ops| - 1]), ops[|ops| - 1]);
    }
  }

  /** A file whose last name goes never gets one back. */
  lemma {:induction false} StaysUnlinked(s: Ids, ops: seq<Op>, ino: Ino)
    requires ino in s.nlink && s.nlink[ino] == 0
    ensures var s' := Run(s, ops); ino in s'.nlink && s'.nlink[ino] == 0
  {
    hide Step;
    if ops == [] {
    } else {
      StaysUnlinked(s, ops[..|ops| - 1], ino);
      StepKeepsFile(Run(s, ops[..|ops| - 1]), ops[|ops| - 1], ino);
    }
  }

  lemma LinkedBefore(s: Ids, op: Op, ino: Ino)
    requires Linked(Step(s, op), ino) && ino in s.nlink
    ensures Linked(s, ino)
  {
  }

  predicate Known(s: Ids, ino: Ino)
  {
    ino in s.nlink && Identity(s, ino).Some?
  }

  predicate LosesOn(s: Ids, ops: seq<Op>, ino: Ino)
  {
    exists n :: 0 <= n < |ops| && Loses(Run(s, ops[..n]), ops[n], ino)
  }

  /** Once a file has an identity it keeps it for as long as it has a name, over any order of
      creates, lookups, evictions, unlinks and split flushes, unless a step loses it. */
  lemma {:induction false} IdentityKept(s: Ids, ops: seq<Op>, ino: Ino)
    requires Inv(s) && Known(s, ino) && Linked(Run(s, ops), ino) && !LosesOn(s, ops, ino)
    ensures Known(Run(s, ops), ino) && Identity(Run(s, ops), ino) == Identity(s, ino)
  {
    if ops == [] {
    } else {
      var n := |ops| - 1;
      var mid := Run(s, ops[..n]);
      assert !LosesOn(s, ops[..n], ino) by {
        forall m | 0 <= m < n ensures !Loses(Run(s, ops[..n][..m]), ops[..n][m], ino) {
          assert ops[..n][..m] == ops[..m];
        }
      }
      StillThere(s, ops[..n], ino);
      LinkedBefore(mid, ops[n], ino);
      IdentityKept(s, ops[..n], ino);
      RunKeepsInv(s, ops[..n]);
      StepIdentityIff(mid, ops[n], ino);
      assert !Loses(mid, ops[n], ino);
    }
  }

  /** Some record of the file, in memory, in its xattr or queued, is `o`. */
  predicate Holds(s: Ids, ino: Ino, o: Oid)
  {
    (ino in s.core && s.core[ino] == o) || (ino in s.xattr && s.xattr[ino] == o) || Entry(ino, o) in s.flight + s.pending
  }

  lemma HoldsIff(s: Ids, ino: Ino, o: Oid)
    requires Inv(s)
    ensures Identity(s, ino) == Some(o) <==> Holds(s, ino, o)
  {
    var q := s.flight + s.pending;
    OldestIff(q, ino);
    if Entry(ino, o) in q {
      assert EntryOk(s, Entry(ino, o));
      var i :| 0 <= i < |q| && q[i] == Entry(ino, o);
      OldestIs(q, i);
    }
  }

  lemma DrainInventsNothing(s: Ids, bad: set<Ino>, ino: Ino, o: Oid)
    requires Inv(s) && Holds(Drain(s, bad), ino, o)
    ensures Holds(s, ino, o)
  {
    PutAllIs(s.xattr, s.flight + s.pending, bad, ino);
    OldestIff(s.flight + s.pending, ino);
  }

  lemma LookupInventsNothing(s: Ids, i: Ino, bad: set<Ino>, queued: bool, ino: Ino, o: Oid)
    requires Inv(s) && Holds(Iget(s, i, bad, queued), ino, o) && o != s.next
    ensures Holds(s, ino, o)
  {
    if Waits(s, i) {
      if Holds(Drain(s, bad), ino, o) { DrainInventsNothing(s, bad, ino, o); }
    } else if Linked(s, i) && i !in s.core && i !in s.xattr {
      OldestIff(s.pending, i);
    }
  }

  /** The only identity a step can bring in is a new one. */
  lemma StepInventsNothing(s: Ids, op: Op, ino: Ino, o: Oid)
    requires Inv(s) && Holds(Step(s, op), ino, o) && o != s.next
    ensures Holds(s, ino, o)
  {
    match op
    case Create(i, queued) =>
    case Lookup(i, bad, queued) => LookupInventsNothing(s, i, bad, queued, ino, o);
    case Evict(i) =>
    case Link(i) =>
    case Unlink(i) => WithoutKeeps(s.pending, i, ino);
    case Splice =>
    case WriteOne(ok) =>
  }

  /** An identity once gone does not come back. */
  lemma {:induction false} NotRegained(s: Ids, ops: seq<Op>, ino: Ino, o: Oid)
    requires Inv(s) && o < s.next && Identity(s, ino) != Some(o)
    ensures o < Run(s, ops).next && Identity(Run(s, ops), ino) != Some(o)
  {
    if ops == [] {
    } else {
      hide Inv, Holds, Identity, Step;
      var n := |ops| - 1;
      var mid, op := Run(s, ops[..n]), ops[n];
      NotRegained(s, ops[..n], ino, o);
      RunKeepsInv(s, ops[..n]);
      NextGrows(s, ops);
      HoldsIff(mid, ino, o);
      StepKeepsInv(mid, op);
      HoldsIff(Step(mid, op), ino, o);
      if Holds(Step(mid, op), ino, o) { StepInventsNothing(mid, op, ino, o); }
    }
  }

  /** Over any run, a file that still has a name has kept its identity exactly when no step of
      the run lost it. */
  lemma IdentityKeptIff(s: Ids, ops: seq<Op>, ino: Ino)
    requires Inv(s) && Known(s, ino) && Linked(Run(s, ops), ino)
    ensures Identity(Run(s, ops), ino) == Identity(s, ino) <==> !LosesOn(s, ops, ino)
  {
    if !LosesOn(s, ops, ino) {
      IdentityKept(s, ops, ino);
    } else {
      var n :| 0 <= n < |ops| && Loses(Run(s, ops[..n]), ops[n], ino);
      LostForGood(s, ops, n, ino);
    }
  }

  lemma LostForGood(s: Ids, ops: seq<Op>, n: nat, ino: Ino)
    requires Inv(s) && Known(s, ino) && Linked(Run(s, ops), ino)
    requires n < |ops| && Loses(Run(s, ops[..n]), ops[n], ino)
    ensures Identity(Run(s, ops), ino) != Identity(s, ino)
  {
    hide Step, Loses;
    var o, mid, after := Identity(s, ino).value, Run(s, ops[..n]), Run(s, ops[..n + 1]);
    assert ops[..n + 1][..n] == ops[..n] && ops[..n + 1] + ops[n + 1..] == ops;
    RunKeepsInv(s, ops[..n]);
    RunKeepsInv(s, ops[..n + 1]);
    RunConcat(s, ops[..n + 1], ops[n + 1..]);
    IdentityBelow(s, ino);
    NextGrows(s, ops[..n + 1]);
    LinkedThroughout(s, ops[..n + 1], ops[n + 1..], ino);
    if Identity(mid, ino) == Some(o) {
      StepIdentityIff(mid, ops[n], ino);
    } else {
      NextGrows(s, ops[..n]);
      NotRegained(mid, [ops[n]], ino, o);
      RunConcat(s, ops[..n], [ops[n]]);
      assert ops[..n] + [ops[n]] == ops[..n + 1];
    }
    NotRegained(after, ops[n + 1..], ino, o);
  }

  lemma {:induction false} NextGrows(s: Ids, ops: seq<Op>)
    ensures s.next <= Run(s, ops).next
  {
    if ops == [] {
    } else {
      NextGrows(s, ops[..|ops| - 1]);
    }
  }

  lemma StepKeepsFile(s: Ids, op: Op, ino: Ino)
    requires ino in s.nlink
    ensures ino in Step(s, op).nlink
    ensures s.nlink[ino] == 0 ==> Step(s, op).nlink[ino] == 0
  {
    hide Oldest, PutAll, Without, Put;
  }

  lemma {:induction false} StillThere(s: Ids, ops: seq<Op>, ino: Ino)
    requires ino in s.nlink
    ensures ino in Run(s, ops).nlink
  {
    hide Step;
    if ops == [] {
    } else {
      StillThere(s, ops[..|ops| - 1], ino);
      StepKeepsFile(Run(s, ops[..|ops| - 1]), ops[|ops| - 1], ino);
    }
  }

  /** A lookup answers with the file's identity, and mints one exactly when it has none. */
  lemma LookupAnswers(s: Ids, ino: Ino, queued: bool)
    requires Inv(s) && Linked(s, ino)
    ensures var s' := Iget(s, ino, {}, queued);
            && (Identity(s, ino).Some? ==> s'.next == s.next && ino in s'.core && s'.core[ino] == Identity(s, ino).value)
            && (Identity(s, ino).None? ==> s'.next == s.next + 1 && (queued ==> ino in s'.core && s'.core[ino] == s.next))
  {
    OldestIff(s.flight + s.pending, ino);
    OldestIff(s.pending, ino);
    if Waits(s, ino) {
      DrainIdentity(s, {}, ino);
    } else if ino !in s.core && ino !in s.xattr {
      PendingIsOldest(s, ino);
    }
  }

  predicate WritesFail(op: Op)
  {
    match op
    case WriteOne(ok) => !ok
    case Lookup(_, bad, _) => bad != {}
    case _ => false
  }

  predicate NoWriteFails(ops: seq<Op>)
  {
    forall n :: 0 <= n < |ops| ==> !WritesFail(ops[n])
  }

  /** Without a failed xattr write every identity in memory is backed. */
  lemma BackedStep(s: Ids, op: Op)
    requires Inv(s) && Backed(s) && !WritesFail(op)
    ensures Backed(Step(s, op))
  {
    var s' := Step(s, op);
    forall ino | ino in s'.core && Linked(s', ino) ensures ino in s'.xattr || In(s'.flight + s'.pending, ino) {
      if ino in s.core && ino in s.nlink { LinkedBefore(s, op, ino); }
      BackedOne(s, op, ino);
    }
  }

  lemma BackedOne(s: Ids, op: Op, ino: Ino)
    requires Inv(s) && !WritesFail(op) && ino in Step(s, op).core && Linked(Step(s, op), ino)
    requires ino in s.core ==> ino in s.xattr || In(s.flight + s.pending, ino)
    ensures var s' := Step(s, op); ino in s'.xattr || In(s'.flight + s'.pending, ino)
  {
    hide Inv, In;
    var s', q := Step(s, op), s.flight + s.pending;
    var q' := s'.flight + s'.pending;
    OldestIff(q, ino);
    OldestIff(q', ino);
    match op
    case Create(i, queued) =>
      if i !in s.nlink && queued {
        assert q' == q + [Entry(i, s.next)];
        OldestConcat(q, [Entry(i, s.next)], ino);
      }
    case Lookup(i, bad, queued) => BackedLookup(s, i, queued, ino);
    case Evict(i) =>
    case Link(i) =>
    case Unlink(i) =>
      OldestConcat(s.flight, s.pending, ino);
      WithoutKeeps(s.pending, i, ino);
      OldestConcat(s'.flight, s'.pending, ino);
    case Splice =>
      if s.flight == [] { assert q' == q; }
    case WriteOne(ok) =>
      if s.flight != [] { assert q' == q[1..] && q[0] == s.flight[0]; }
  }

  lemma BackedLookup(s: Ids, i: Ino, queued: bool, ino: Ino)
    requires Inv(s) && ino in Iget(s, i, {}, queued).core
    requires ino in s.core ==> ino in s.xattr || In(s.flight + s.pending, ino)
    ensures var s' := Iget(s, i, {}, queued); ino in s'.xattr || In(s'.flight + s'.pending, ino)
  {
    var s', q := Iget(s, i, {}, queued), s.flight + s.pending;
    if Waits(s, i) {
      var d := Drain(s, {});
      PutAllIs(s.xattr, q, {}, ino);
      if i !in d.xattr && queued { assert (s'.flight + s'.pending)[0].ino == i; }
    } else {
      OldestIff(s.pending, i);
      OldestIff(q, ino);
      OldestConcat(s.flight, s.pending, ino);
    }
  }

  /** No step loses an identity unless an xattr write fails, now or before. */
  lemma NothingLost(s: Ids, op: Op, ino: Ino)
    requires Inv(s) && Backed(s) && !WritesFail(op) && Linked(s, ino)
    ensures !Loses(s, op, ino)
  {
  }

  /** The deferred writeback is invisible: in any run from a mount in which no xattr write
      fails, a file that is looked up twice answers with the same OID both times, whatever
      happened in between, and the second lookup mints nothing. */
  lemma SameAnswer(s: Ids, ops: seq<Op>, more: seq<Op>, ino: Ino, queued: bool)
    requires Mounted(s) && NoWriteFails(ops) && NoWriteFails(more)
    requires Known(Run(s, ops), ino) && Linked(Run(Run(s, ops), more), ino)
    ensures var s1 := Run(s, ops); var s2 := Run(s1, more); var s3 := Iget(s2, ino, {}, queued);
            ino in s3.core && Identity(s1, ino) == Some(s3.core[ino]) && s3.next == s2.next
  {
    var s1 := Run(s, ops);
    BackedFrom(s, ops);
    forall n | 0 <= n < |more| ensures !Loses(Run(s1, more[..n]), more[n], ino) {
      BackedFrom(s1, more[..n]);
      assert more[..n] + more[n..] == more;
      LinkedThroughout(s1, more[..n], more[n..], ino);
      NothingLost(Run(s1, more[..n]), more[n], ino);
    }
    IdentityKept(s1, more, ino);
    RunKeepsInv(s1, more);
    LookupAnswers(Run(s1, more), ino, queued);
  }

  lemma LinkedThroughout(s: Ids, a: seq<Op>, b: seq<Op>, ino: Ino)
    requires ino in s.nlink && Linked(Run(s, a + b), ino)
    ensures Linked(Run(s, a), ino)
  {
    StillThere(s, a, ino);
    RunConcat(s, a, b);
    if !Linked(Run(s, a), ino) { StaysUnlinked(Run(s, a), b, ino); }
  }

  lemma {:induction false} BackedFrom(s: Ids, ops: seq<Op>)
    requires Inv(s) && Backed(s) && NoWriteFails(ops)
    ensures Inv(Run(s, ops)) && Backed(Run(s, ops))
  {
    if ops == [] {
    } else {
      var n := |ops| - 1;
      BackedFrom(s, ops[..n]);
      BackedStep(Run(s, ops[..n]), ops[n]);
      StepKeepsInv(Run(s, ops[..n]), ops[n]);
    }
  }

  lemma {:induction false} RunConcat(s: Ids, a: seq<Op>, b: seq<Op>)
    ensures Run(s, a + b) == Run(Run(s, a), b)
  {
    hide Step;
    if b == [] {
      assert a + b == a;
    } else {
      assert (a + b)[..|a + b| - 1] == a + b[..|b| - 1];
      RunConcat(s, a, b[..|b| - 1]);
    }
  }

  /** With a failed write it is not invisible: created, written in vain, evicted, and the file
      is minted a second identity. */
  lemma FailedWriteMintsTwice(ino: Ino)
    ensures var s1 := Step(Ids(map[], map[], map[], [], [], 0), Create(ino, true));
            var s2 := Step(Step(Step(s1, Splice), WriteOne(false)), Evict(ino));
            var s3 := Iget(s2, ino, {}, true);
            Identity(s1, ino) == Some(0) && ino in s3.core && s3.core[ino] == 1
  {
    var s1 := Step(Ids(map[], map[], map[], [], [], 0), Create(ino, true));
    assert s1.pending == [Entry(ino, 0)];
    var s2 := Step(Step(Step(s1, Splice), WriteOne(false)), Evict(ino));
    assert s2.flight == [] && s2.pending == [] && ino !in s2.core && Linked(s2, ino);
  }

  /** The queue and the tables of a mounted pool, as the kernel's functions update them. */
  class Pool {
    var nlink: map<Ino, nat>
    var xattr: map<Ino, Oid>
    var core: map<Ino, Oid>
    var pending: seq<Entry>
    var flight: seq<Entry>
    var next: Oid

    function Value(): Ids
      reads this
    {
      Ids(nlink, xattr, core, pending, flight, next)
    }

    constructor (nlink: map<Ino, nat>, xattr: map<Ino, Oid>, next: Oid)
      ensures Value() == Ids(nlink, xattr, map[], [], [], next)
    {
      this.nlink, this.xattr, core, pending, flight, this.next := nlink, xattr, map[], [], [], next;
    }

    /** smoothfs_oid_wb_peek: the walk stops at the first entry of the inode. */
    method Peek(ino: Ino) returns (r: Option<Oid>)
      ensures r == Oldest(pending, ino)
    {
      var i := 0;
      assert pending[0..] == pending;
      while i < |pending|
        invariant 0 <= i <= |pending|
        invariant Oldest(pending, ino) == Oldest(pending[i..], ino)
      {
        if pending[i].ino == ino { return Some(pending[i].oid); }
        assert pending[i..][1..] == pending[i + 1..];
        i := i + 1;
      }
      return None;
    }

    /** smoothfs_oid_wb_forget. */
    method Forget(ino: Ino)
      modifies this`pending
      ensures pending == if ino in nlink && nlink[ino] == 0 then Without(old(pending), ino) else old(pending)
    {
      if ino !in nlink || nlink[ino] > 0 { return; }
      var kept: seq<Entry> := [];
      for i := 0 to |pending|
        invariant kept == Without(pending[..i], ino) && pending == old(pending)
      {
        assert pending[..i + 1][..i] == pending[..i];
        if pending[i].ino != ino { kept := kept + [pending[i]]; }
      }
      assert pending[..|pending|] == pending;
      pending := kept;
    }

    /** The write of one entry by smoothfs_oid_wb_worker. */
    method WriteEntry(ok: bool)
      modifies this`xattr, this`flight
      ensures Value() == Step(old(Value()), WriteOne(ok))
    {
      if flight == [] { return; }
      var e := flight[0];
      if ok && e.ino !in xattr { xattr := xattr[e.ino := e.oid]; }
      flight := flight[1..];
    }

    /** smoothfs_oid_wb_drain: the running flush ends, then one more takes the whole queue. */
    method DrainQueue(bad: set<Ino>)
      modifies this`xattr, this`flight, this`pending
      ensures Value() == Drain(old(Value()), bad)
    {
      ghost var q, x := flight + pending, xattr;
      ghost var done := 0;
      var round := 0;
      assert q[..0] == [];
      while flight != [] || round == 0
        invariant 0 <= round <= 1 && 0 <= done <= |q|
        invariant q[done..] == flight + pending && (round == 1 ==> pending == [])
        invariant xattr == PutAll(x, q[..done], bad)
        decreases 1 - round, |flight|
      {
        if flight == [] {
          flight, pending, round := pending, [], 1;
        } else {
          assert q[done] == flight[0] && q[..done + 1][..done] == q[..done];
          assert q[done + 1..] == q[done..][1..] == flight[1..] + pending;
          WriteEntry(flight[0].ino !in bad);
          done := done + 1;
        }
      }
      assert q[..done] == q;
    }

    /** The identity part of smoothfs_iget for a file that has a name. */
    method LookupOid(ino: Ino, bad: set<Ino>, queued: bool) returns (r: Option<Oid>)
      requires ino in nlink && nlink[ino] > 0
      modifies this
      ensures Value() == Iget(old(Value()), ino, bad, queued)
      ensures r == if ino in core then Some(core[ino]) else None
    {
      if ino in core { return Some(core[ino]); }
      if ino in xattr {
        r := Some(xattr[ino]);
      } else {
        r := Peek(ino);
        if r.None? {
          DrainQueue(bad);
          if ino in xattr { r := Some(xattr[ino]); }
        }
      }
      if r.None? {
        next := next + 1;
        if !queued { return; }
        pending := pending + [Entry(ino, next - 1)];
        r := Some(next - 1);
      }
      core := core[ino := r.value];
    }
  }
}
