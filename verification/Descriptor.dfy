/** Open descriptors across cutovers (src/smoothfs/lower.c).

    Every cutover installs a new lower file; the n-th one is called n. The generation that
    tells a descriptor to reopen has 32 bits and wraps. */
module Descriptor {
  import opened Bytes

  const GENERATIONS: nat := 0x1_0000_0000

  /** What an inode's cutovers leave for its descriptors. */
  class Backing {
    var lower: nat
    var gen: nat

    ghost predicate Valid()
      reads this
    {
      gen == lower % GENERATIONS
    }

    constructor ()
      ensures Valid() && lower == 0
    {
      lower, gen := 0, 0;
    }

    /** smoothfs_swap_lower_path and the new generation, at the commit of a cutover. */
    method Cutover()
      requires Valid()
      modifies this
      ensures Valid() && lower == old(lower) + 1
    {
      NextGeneration(lower);
      lower := lower + 1;
      gen := (gen + 1) % GENERATIONS;
    }
  }

  lemma NextGeneration(n: nat)
    ensures (n % GENERATIONS + 1) % GENERATIONS == (n + 1) % GENERATIONS
  {
  }

  /** The private data of an open file. */
  class Descriptor {
    const backing: Backing
    var lower: nat
    var gen: nat

    ghost predicate Valid()
      reads this, backing
    {
      backing.Valid() && lower <= backing.lower && gen == lower % GENERATIONS
    }

    /** smoothfs_open_lower. */
    constructor (backing: Backing)
      requires backing.Valid()
      ensures Valid() && this.backing == backing && lower == backing.lower
    {
      this.backing := backing;
      lower, gen := backing.lower, backing.gen;
    }

    /** smoothfs_reissue_lower; `reopens` says whether the current lower file can be opened. */
    method Reissue(reopens: bool) returns (ok: bool)
      requires Valid()
      modifies this
      ensures Valid()
      ensures ok <==> reopens || old(gen) == backing.gen
      ensures gen == backing.gen || !ok
      ensures !ok ==> lower == old(lower) && gen == old(gen) && gen != backing.gen
      ensures ok ==> lower == if old(gen) == backing.gen then old(lower) else backing.lower
    {
      if gen == backing.gen { return true; }
      var current := backing.gen;
      if !reopens { return false; }
      lower, gen := backing.lower, current;
      ok := true;
    }

    /** smoothfs_lower_file: an error leaves the descriptor as it was, so the next call tries
        again; otherwise the file returned is the inode's current one exactly when the cutovers
        since this descriptor last opened its own are not a positive multiple of 2^32. */
    method LowerFile(reopens: bool) returns (r: Option<nat>)
      requires Valid()
      modifies this
      ensures Valid()
      ensures reopens ==> r.Some?
      ensures r.None? ==> lower == old(lower) && gen == old(gen) && old(lower) != backing.lower
      ensures r.Some? ==> r.value == lower && (backing.lower - lower) % GENERATIONS == 0
      ensures r.Some? ==> (r.value == backing.lower <==> Fresh(old(lower), backing.lower))
    {
      SameGeneration(lower, backing.lower);
      var ok := Reissue(reopens);
      if !ok { return None; }
      SameGeneration(lower, backing.lower);
      return Some(lower);
    }
  }

  /** The descriptor's generation is telling: it is the inode's own, or differs from it. */
  predicate Fresh(mine: nat, current: nat)
  {
    mine == current || mine % GENERATIONS != current % GENERATIONS
  }

  lemma SameGeneration(mine: nat, current: nat)
    requires mine <= current
    ensures mine % GENERATIONS == current % GENERATIONS <==> (current - mine) % GENERATIONS == 0
    ensures current - mine < GENERATIONS ==> Fresh(mine, current)
    ensures !Fresh(mine, current) <==> exists k: nat :: k > 0 && current == mine + k * GENERATIONS
  {
    var k := (current - mine) / GENERATIONS;
    assert current - mine == k * GENERATIONS + (current - mine) % GENERATIONS;
    if !Fresh(mine, current) { assert k > 0 && current == mine + k * GENERATIONS; }
  }

  // ---- runs -----------------------------------------------------------------

  datatype Op = Open | Cutover | Use(fd: nat, reopens: bool)

  /** A lower file that is the current one as far as its generation tells. */
  predicate Tells(r: Option<nat>, current: nat)
  {
    r.Some? ==> r.value <= current && (current - r.value) % GENERATIONS == 0
  }

  /** A use of an open descriptor that is able to reopen. */
  predicate MustAnswer(ops: seq<Op>, i: nat)
    requires i < |ops|
  {
    ops[i].Use? && ops[i].reopens && ops[i].fd < Opens(ops[..i])
  }

  method Perform(backing: Backing, fds: seq<Descriptor>, op: Op) returns (fds': seq<Descriptor>, r: Option<nat>)
    requires backing.Valid() && forall d :: d in fds ==> d.backing == backing && d.Valid()
    modifies backing, set d | d in fds
    ensures backing.Valid() && forall d :: d in fds' ==> d.backing == backing && d.Valid() && (d in fds || fresh(d))
    ensures backing.lower == old(backing.lower) + if op.Cutover? then 1 else 0
    ensures |fds'| == |fds| + if op.Open? then 1 else 0
    ensures Tells(r, old(backing.lower)) && (op.Use? && op.reopens && op.fd < |fds| ==> r.Some?)
  {
    fds', r := fds, None;
    match op
    case Open =>
      var d := new Descriptor(backing);
      fds' := fds + [d];
    case Cutover => backing.Cutover();
    case Use(fd, reopens) =>
      if fd < |fds| {
        assert fds[fd] in fds;
        r := fds[fd].LowerFile(reopens);
      }
  }

  /** Any number of descriptors, opens, cutovers and uses: no use returns a superseded lower
      file while fewer than 2^32 cutovers have happened in all, and a use that can reopen
      succeeds. */
  method Run(backing: Backing, ops: seq<Op>) returns (replies: seq<Option<nat>>)
    requires backing.Valid() && backing.lower == 0
    modifies backing
    ensures |replies| == |ops|
    ensures forall i :: 0 <= i < |ops| ==> Tells(replies[i], Cutovers(ops[..i])) && (MustAnswer(ops, i) ==> replies[i].Some?)
    ensures forall i :: 0 <= i < |ops| && replies[i].Some? && Cutovers(ops) < GENERATIONS ==>
              replies[i].value == Cutovers(ops[..i])
  {
    var fds: seq<Descriptor> := [];
    replies := [];
    for i := 0 to |ops|
      invariant backing.Valid() && backing.lower == Cutovers(ops[..i])
      invariant forall d :: d in fds ==> d.backing == backing && d.Valid() && fresh(d)
      invariant |replies| == i && |fds| == Opens(ops[..i])
      invariant forall k :: 0 <= k < i ==> Tells(replies[k], Cutovers(ops[..k])) && (MustAnswer(ops, k) ==> replies[k].Some?)
    {
      hide Tells;
      assert ops[..i + 1][..i] == ops[..i];
      var r;
      fds, r := Perform(backing, fds, ops[i]);
      replies := replies + [r];
    }
    assert ops[..|ops|] == ops;
    forall i | 0 <= i < |ops| && replies[i].Some? && Cutovers(ops) < GENERATIONS ensures replies[i].value == Cutovers(ops[..i]) {
      CutoversGrow(ops, i);
      assert Tells(replies[i], Cutovers(ops[..i]));
    }
  }

  function Opens(ops: seq<Op>): nat
  {
    if ops == [] then 0 else Opens(ops[..|ops| - 1]) + if ops[|ops| - 1].Open? then 1 else 0
  }

  function Cutovers(ops: seq<Op>): nat
  {
    if ops == [] then 0 else Cutovers(ops[..|ops| - 1]) + if ops[|ops| - 1].Cutover? then 1 else 0
  }

  lemma {:induction false} CutoversGrow(ops: seq<Op>, i: nat)
    requires i <= |ops|
    ensures Cutovers(ops[..i]) <= Cutovers(ops)
  {
    if i == |ops| {
      assert ops[..i] == ops;
    } else {
      CutoversGrow(ops[..|ops| - 1], i);
      assert ops[..|ops| - 1][..i] == ops[..i];
    }
  }
}
