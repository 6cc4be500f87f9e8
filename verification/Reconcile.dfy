/** Removing empty duplicates of directories from the slower tiers (controlplane/reconcile.go).

    A tier is its directories and its other entries, named by path; the root is the empty
    path. `Faults` says which directories of a tier cannot be read, so that nothing below them
    is visited either, and which cannot be removed. */
module Reconcile {
  type Name = string
  type Path = seq<Name>

  const META: Name := ".smoothfs"

  datatype Tree = Tree(dirs: set<Path>, files: set<Path>)

  datatype Faults = Faults(unreadable: set<Path>, undeletable: set<Path>)
  {
    /** At or below a directory that cannot be read: the walk does not go there. */
    predicate Hidden(d: Path) { exists k :: 0 <= k <= |d| && d[..k] in unreadable }

    predicate Hit(d: Path) { Hidden(d) || d in undeletable }
  }

  /** The parent of every entry is a directory of the tier or its root. */
  ghost predicate Rooted(t: Tree)
  {
    forall p :: p in t.dirs || p in t.files ==> p != [] && (|p| == 1 || p[..|p| - 1] in t.dirs)
  }

  predicate ChildOf(d: Path, p: Path)
  {
    |p| == |d| + 1 && p[..|d|] == d
  }

  ghost predicate Empty(t: Tree, d: Path)
  {
    forall p :: p in t.dirs || p in t.files ==> !ChildOf(d, p)
  }

  /** What the walk reports: nothing at or below a directory named like the metadata one. */
  predicate Walked(d: Path)
  {
    META !in d
  }

  /** fasterTierHasDir. */
  method FasterHasDir(tiers: seq<Tree>, slow: nat, d: Path) returns (r: bool)
    requires slow <= |tiers|
    ensures r <==> Duplicated(tiers, slow, d)
  {
    for i := 0 to slow
      invariant forall j :: 0 <= j < i ==> d !in tiers[j].dirs
    {
      if d in tiers[i].dirs { return true; }
    }
    return false;
  }

  predicate Duplicated(tiers: seq<Tree>, slow: nat, d: Path)
    requires slow <= |tiers|
  {
    exists i :: 0 <= i < slow && d in tiers[i].dirs
  }

  ghost function Union(tiers: seq<Tree>): set<Path>
  {
    if tiers == [] then {} else Union(tiers[..|tiers| - 1]) + tiers[|tiers| - 1].dirs
  }

  lemma {:induction false} UnionIff(tiers: seq<Tree>, d: Path)
    ensures d in Union(tiers) <==> Duplicated(tiers, |tiers|, d)
  {
    if tiers == [] {
    } else {
      var n := |tiers| - 1;
      UnionIff(tiers[..n], d);
      if Duplicated(tiers[..n], n, d) {
        var i :| 0 <= i < n && d in tiers[..n][i].dirs;
        assert d in tiers[i].dirs;
      }
      if Duplicated(tiers, n + 1, d) && d !in tiers[n].dirs {
        var i :| 0 <= i < n + 1 && d in tiers[i].dirs;
        assert d in tiers[..n][i].dirs;
      }
    }
  }

  /** A directory that should be gone from tier `i`: walked, empty, and on a faster tier too. */
  ghost predicate Leftover(tiers: seq<Tree>, i: nat, d: Path)
    requires i < |tiers|
  {
    Walked(d) && d in tiers[i].dirs && Empty(tiers[i], d) && Duplicated(tiers, i, d)
  }

  /** What a removal takes away: directories only, one tier at a time, each still on a faster
      tier. Such changes add up. */
  ghost predicate Thinned(before: seq<Tree>, after: seq<Tree>)
  {
    && |after| == |before|
    && (forall i :: 0 <= i < |after| ==> after[i].files == before[i].files && after[i].dirs <= before[i].dirs)
    && (forall d :: Duplicated(before, |before|, d) ==> Duplicated(after, |after|, d))
  }

  lemma ThinnedTwice(a: seq<Tree>, b: seq<Tree>, c: seq<Tree>)
    requires Thinned(a, b) && Thinned(b, c)
    ensures Thinned(a, c)
  {
    forall i | 0 <= i < |c| ensures c[i].files == a[i].files && c[i].dirs <= a[i].dirs {
      assert b[i].dirs <= a[i].dirs && c[i].dirs <= b[i].dirs;
    }
  }

  function RemoveAt(tiers: seq<Tree>, slow: nat, d: Path): seq<Tree>
    requires slow < |tiers|
  {
    tiers[slow := Tree(tiers[slow].dirs - {d}, tiers[slow].files)]
  }

  lemma RemovalThins(tiers: seq<Tree>, slow: nat, d: Path)
    requires slow < |tiers| && Duplicated(tiers, slow, d)
    ensures Thinned(tiers, RemoveAt(tiers, slow, d))
  {
    var after := RemoveAt(tiers, slow, d);
    forall p | Duplicated(tiers, |tiers|, p) ensures Duplicated(after, |after|, p) {
      var i :| 0 <= i < |tiers| && p in tiers[i].dirs;
      if i == slow && p == d {
        var j :| 0 <= j < slow && d in tiers[j].dirs;
        assert p in after[j].dirs;
      } else {
        assert p in after[i].dirs;
      }
    }
  }

  lemma RemovalKeepsRooted(t: Tree, d: Path)
    requires Rooted(t) && Empty(t, d)
    ensures Rooted(Tree(t.dirs - {d}, t.files))
  {
    forall p | (p in t.dirs || p in t.files) && |p| > 1 ensures p[..|p| - 1] != d {
      assert !ChildOf(d, p);
    }
  }

  /** Nothing the pass has done with is left over, apart from what cannot be helped. */
  ghost predicate Settled(tiers: seq<Tree>, slow: nat, todo: set<Path>, faults: Faults)
    requires slow < |tiers|
  {
    forall d :: Leftover(tiers, slow, d) ==> d in todo || faults.Hit(d)
  }

  /** Only walked directories without a fault have gone. */
  ghost predicate OnlyDue(before: Tree, after: Tree, faults: Faults)
  {
    forall d :: d in before.dirs && d !in after.dirs ==> Walked(d) && !faults.Hit(d)
  }

  /** Taking a deepest directory next never empties one that has been dealt with. */
  lemma RemovalSettles(tiers: seq<Tree>, slow: nat, todo: set<Path>, faults: Faults, d: Path)
    requires slow < |tiers| && Settled(tiers, slow, todo, faults)
    requires d in todo && d in tiers[slow].dirs
    requires Rooted(tiers[slow])
    requires forall e :: e in tiers[slow].dirs && Walked(e) && |e| < |d| ==> e in todo || faults.Hit(e)
    ensures Settled(RemoveAt(tiers, slow, d), slow, todo - {d}, faults)
  {
    var after := RemoveAt(tiers, slow, d);
    forall e | Leftover(after, slow, e) ensures e in todo - {d} || faults.Hit(e) {
      assert Duplicated(tiers, slow, e) by {
        var i :| 0 <= i < slow && e in after[i].dirs;
        assert e in tiers[i].dirs;
      }
      if !Empty(tiers[slow], e) {
        var p :| (p in tiers[slow].dirs || p in tiers[slow].files) && ChildOf(e, p);
        assert p == d;
      } else {
        assert Leftover(tiers, slow, e);
      }
    }
  }

  lemma {:induction false} DeepestExists(todo: set<Path>) returns (d: Path)
    requires todo != {}
    ensures d in todo && forall e :: e in todo ==> |e| <= |d|
  {
    var x :| x in todo;
    if todo == {x} {
      d := x;
    } else {
      var y := DeepestExists(todo - {x});
      d := if |x| > |y| then x else y;
      assert forall e :: e in todo ==> e == x || e in todo - {x};
    }
  }

  class Pool {
    var tiers: seq<Tree>

    constructor (tiers: seq<Tree>)
      ensures this.tiers == tiers
    {
      this.tiers := tiers;
    }

    /** What is still to come includes every walked directory above one that is to come, but
        for those with a fault. */
    ghost predicate Pending(slow: nat, todo: set<Path>, faults: Faults)
      requires slow < |tiers|
      reads this
    {
      && todo <= tiers[slow].dirs
      && (forall d :: d in todo ==> Walked(d) && !faults.Hidden(d))
      && (forall d, e :: d in todo && e in tiers[slow].dirs && Walked(e) && |e| < |d| ==> e in todo || faults.Hit(e))
      && Settled(tiers, slow, todo, faults)
    }

    /** One directory of the walk, a deepest one of those left. */
    method Visit(slow: nat, d: Path, ghost todo: set<Path>, faults: Faults)
      requires slow < |tiers| && Rooted(tiers[slow]) && Pending(slow, todo, faults)
      requires d in todo && forall e :: e in todo ==> |e| <= |d|
      modifies this
      ensures tiers == if old(Empty(tiers[slow], d)) && Duplicated(old(tiers), slow, d) && d !in faults.undeletable
                       then RemoveAt(old(tiers), slow, d) else old(tiers)
      ensures Rooted(tiers[slow]) && Thinned(old(tiers), tiers) && OnlyDue(old(tiers)[slow], tiers[slow], faults)
      ensures Pending(slow, todo - {d}, faults)
    {
      assert Thinned(tiers, tiers);
      hide Thinned, Rooted, Duplicated;
      if !IsEmpty(d, slow) { return; }
      var has := FasterHasDir(tiers, slow, d);
      if !has { return; }
      if d in faults.undeletable { return; }
      RemovalThins(tiers, slow, d);
      RemovalKeepsRooted(tiers[slow], d);
      RemovalSettles(tiers, slow, todo, faults, d);
      hide Settled;
      tiers := tiers[slow := Tree(tiers[slow].dirs - {d}, tiers[slow].files)];
    }

    /** One tier's turn. The directories are taken deepest first; the order among equals, which
        the code fixes by name, does not matter. */
    method ReconcileTier(slow: nat, faults: Faults)
      requires slow < |tiers| && forall i :: 0 <= i < |tiers| ==> Rooted(tiers[i])
      modifies this
      ensures Thinned(old(tiers), tiers) && forall i :: 0 <= i < |tiers| ==> Rooted(tiers[i])
      ensures forall i :: 0 <= i < |tiers| && i != slow ==> tiers[i] == old(tiers[i])
      ensures OnlyDue(old(tiers)[slow], tiers[slow], faults)
      ensures Settled(tiers, slow, {}, faults)
    {
      var todo := set d | d in tiers[slow].dirs && Walked(d) && !faults.Hidden(d);
      assert Thinned(tiers, tiers) && Pending(slow, todo, faults);
      hide Rooted, Settled;
      while todo != {}
        invariant Thinned(old(tiers), tiers) && Rooted(tiers[slow]) && Pending(slow, todo, faults)
        invariant OnlyDue(old(tiers)[slow], tiers[slow], faults)
        invariant forall i :: 0 <= i < |tiers| && i != slow ==> tiers[i] == old(tiers[i])
        decreases todo
      {
        ghost var deepest := DeepestExists(todo);
        var d :| d in todo && forall e :: e in todo ==> |e| <= |d|;
        ghost var before := tiers;
        Visit(slow, d, todo, faults);
        ThinnedTwice(old(tiers), before, tiers);
        todo := todo - {d};
      }
    }

    /** isEmptyDir. */
    predicate IsEmpty(d: Path, slow: nat)
      requires slow < |tiers|
      reads this
      ensures IsEmpty(d, slow) <==> Empty(tiers[slow], d)
    {
      (forall p :: p in tiers[slow].dirs ==> !ChildOf(d, p)) && (forall p :: p in tiers[slow].files ==> !ChildOf(d, p))
    }

    /** ReconcilePoolSubtrees: the slowest tier first. Every file stays, every directory stays
        on some tier, only walked directories without a fault go, and what is left over anywhere
        is a directory with a fault: without faults nothing is left over. */
    method ReconcilePool(faults: seq<Faults>)
      requires |faults| == |tiers| && forall i :: 0 <= i < |tiers| ==> Rooted(tiers[i])
      modifies this
      ensures |tiers| == |old(tiers)| && forall i :: 0 <= i < |tiers| ==> Rooted(tiers[i])
      ensures forall i :: 0 <= i < |tiers| ==> tiers[i].files == old(tiers[i].files) && tiers[i].dirs <= old(tiers[i].dirs)
      ensures forall i :: 0 <= i < |tiers| ==> OnlyDue(old(tiers)[i], tiers[i], faults[i])
      ensures Union(tiers) == Union(old(tiers))
      ensures forall i, d :: 0 <= i < |tiers| && Leftover(tiers, i, d) ==> faults[i].Hit(d)
    {
      var slow: nat := |tiers|;
      assert Thinned(tiers, tiers);
      while slow > 1
        invariant 0 <= slow <= |tiers|
        invariant Thinned(old(tiers), tiers) && forall i :: 0 <= i < |tiers| ==> Rooted(tiers[i])
        invariant forall i :: 0 <= i < slow ==> tiers[i] == old(tiers[i])
        invariant forall i :: slow <= i < |tiers| ==>
                    Settled(tiers, i, {}, faults[i]) && OnlyDue(old(tiers)[i], tiers[i], faults[i])
      {
        slow := slow - 1;
        ghost var before := tiers;
        ReconcileTier(slow, faults[slow]);
        ThinnedTwice(old(tiers), before, tiers);
        forall i | slow < i < |tiers| ensures Settled(tiers, i, {}, faults[i]) {
          StaysSettled(before, tiers, slow, i, faults[i]);
        }
      }
      SameUnion(old(tiers), tiers);
      forall i, d | 0 <= i < |tiers| && Leftover(tiers, i, d) ensures faults[i].Hit(d) {
        assert i >= slow;
        assert Settled(tiers, i, {}, faults[i]);
      }
    }
  }

  /** A later turn of a faster tier leaves no new work on a slower one. */
  lemma StaysSettled(before: seq<Tree>, after: seq<Tree>, slow: nat, i: nat, faults: Faults)
    requires slow < i < |before| && Thinned(before, after) && after[i] == before[i]
    requires Settled(before, i, {}, faults)
    ensures Settled(after, i, {}, faults)
  {
    forall d | Leftover(after, i, d) ensures faults.Hit(d) {
      var j :| 0 <= j < i && d in after[j].dirs;
      assert d in before[j].dirs;
      assert Leftover(before, i, d);
    }
  }

  lemma SameUnion(before: seq<Tree>, after: seq<Tree>)
    requires Thinned(before, after)
    ensures Union(after) == Union(before)
  {
    forall d ensures d in Union(after) <==> d in Union(before) {
      UnionIff(before, d);
      UnionIff(after, d);
      if Duplicated(after, |after|, d) {
        var i :| 0 <= i < |after| && d in after[i].dirs;
        assert d in before[i].dirs;
      }
    }
  }
}
