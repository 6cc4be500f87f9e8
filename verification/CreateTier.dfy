/** Which tier a new file goes to (src/smoothfs/inode.c). */
module CreateTier {
  import opened Bytes

  /** What statfs says of a tier; `ok` is false if it failed. */
  datatype Stat = Stat(ok: bool, blocks: nat, avail: nat)

  const U64: nat := 0x1_0000_0000_0000_0000
  const DEFAULT_FULL_PCT: nat := 98

  predicate Usable(st: Stat)
  {
    st.ok && st.blocks != 0
  }

  /** smoothfs_tier_near_enospc, in 64-bit arithmetic. */
  predicate NearFull(st: Stat, pct: nat)
  {
    var p := if pct == 0 || pct > 100 then DEFAULT_FULL_PCT else pct;
    Usable(st) && (st.blocks - st.avail) % U64 * 100 % U64 >= st.blocks * p % U64
  }

  /** Whether a tier is near full is asked again in every pass of the high-water search; this
      is the answer at a water level. */
  type Asked = (nat, nat) -> bool

  /** A tier the search may stop at, at this water level. The slowest one always counts. */
  predicate Eligible(stats: seq<Stat>, near: Asked, water: nat, t: nat)
    requires t < |stats|
  {
    Usable(stats[t]) && (t == |stats| - 1 || !near(water, t))
  }

  /** A tier that is eligible at every level. */
  ghost predicate Steady(stats: seq<Stat>, near: Asked, t: nat)
    requires t < |stats|
  {
    Usable(stats[t]) && forall water: nat :: Eligible(stats, near, water, t)
  }

  /** No tier has more free blocks than blocks. */
  predicate Sane(stats: seq<Stat>)
  {
    forall t :: 0 <= t < |stats| ==> stats[t].avail <= stats[t].blocks
  }

  /** The first loop: the largest size and the freest tier. */
  method Survey(stats: seq<Stat>, fastest: nat) returns (largest: nat, best: nat)
    requires fastest < |stats|
    ensures best < |stats|
    ensures forall t :: 0 <= t < |stats| && Usable(stats[t]) ==> stats[t].blocks <= largest
    ensures largest == 0 || exists t :: 0 <= t < |stats| && Usable(stats[t]) && stats[t].blocks == largest
    ensures Freest(stats, fastest, best)
  {
    largest, best := 0, fastest;
    var most := 0;
    for t := 0 to |stats|
      invariant best < |stats|
      invariant forall u :: 0 <= u < t && Usable(stats[u]) ==> stats[u].blocks <= largest && stats[u].avail <= most
      invariant largest == 0 || exists u :: 0 <= u < t && Usable(stats[u]) && stats[u].blocks == largest
      invariant if most == 0 then best == fastest else best < t && Usable(stats[best]) && stats[best].avail == most
      invariant most > 0 ==> forall u :: 0 <= u < best && Usable(stats[u]) ==> stats[u].avail < most
    {
      if !Usable(stats[t]) { continue; }
      if stats[t].blocks > largest { largest := stats[t].blocks; }
      if stats[t].avail > most { most, best := stats[t].avail, t; }
    }
  }

  /** The first of the tiers with the most free blocks; the fastest if none has any. */
  predicate Freest(stats: seq<Stat>, fastest: nat, best: nat)
    requires fastest < |stats|
  {
    && best < |stats|
    && if forall t :: 0 <= t < |stats| && Usable(stats[t]) ==> stats[t].avail == 0 then best == fastest
       else && Usable(stats[best])
            && (forall t :: 0 <= t < |stats| && Usable(stats[t]) ==> stats[t].avail <= stats[best].avail)
            && (forall t :: 0 <= t < best && Usable(stats[t]) ==> stats[t].avail < stats[best].avail)
  }

  /** The search stopped at `tier`: it was eligible and above the water, and it has more than half
      the free blocks of every steady tier. */
  ghost predicate Found(stats: seq<Stat>, near: Asked, tier: nat)
  {
    && tier < |stats|
    && (exists water: nat :: 0 < water < stats[tier].avail && Eligible(stats, near, water, tier))
    && (Sane(stats) ==> forall t :: 0 <= t < |stats| && Steady(stats, near, t) ==> stats[t].avail < 2 * stats[tier].avail)
  }

  /** The search found nothing: no steady tier has more than one free block, and the freest tier
      of all, near-full ones included, is taken. */
  ghost predicate NoneFound(stats: seq<Stat>, near: Asked, fastest: nat, tier: nat)
    requires fastest < |stats|
  {
    && Freest(stats, fastest, tier)
    && (Sane(stats) ==> forall t :: 0 <= t < |stats| && Steady(stats, near, t) ==> stats[t].avail <= 1)
  }

  /** smoothfs_select_high_water_tier: it finds a tier by halving, or takes the freest; if no tier
      is eligible with more than one free block at any level, the freest. Without memory for the
      answers, the fastest. */
  method HighWater(stats: seq<Stat>, near: Asked, fastest: nat, memory: bool) returns (tier: nat)
    requires fastest < |stats|
    ensures tier < |stats|
    ensures !memory ==> tier == fastest
    ensures memory ==> Found(stats, near, tier) || NoneFound(stats, near, fastest, tier)
    ensures memory && (forall t, water: nat :: 0 <= t < |stats| && water > 0 && Eligible(stats, near, water, t) ==> stats[t].avail <= 1) ==>
              NoneFound(stats, near, fastest, tier)
  {
    if !memory { return fastest; }
    var largest, best := Survey(stats, fastest);
    hide Freest;
    var water := largest / 2;
    while water > 0
      invariant Sane(stats) ==> forall t :: 0 <= t < |stats| && Steady(stats, near, t) ==> stats[t].avail <= 2 * water + 1
    {
      for t := 0 to |stats|
        invariant forall u :: 0 <= u < t && Eligible(stats, near, water, u) ==> stats[u].avail <= water
      {
        if Eligible(stats, near, water, t) && stats[t].avail > water { return t; }
      }
      water := water / 2;
    }
    return best;
  }

  /** smoothfs_select_create_tier. Under the fastest-first policy: the fastest tier that is not
      near full, or the slowest. */
  method Select(stats: seq<Stat>, pct: nat, near: Asked, fastest: nat, cacheMode: bool, highWater: bool, memory: bool)
    returns (tier: nat)
    requires fastest < |stats|
    ensures tier < |stats|
    ensures cacheMode ==> tier == |stats| - 1
    ensures !cacheMode && !highWater && |stats| > 1 ==>
              && (forall t :: 0 <= t < tier ==> NearFull(stats[t], pct))
              && (tier == |stats| - 1 || !NearFull(stats[tier], pct))
  {
    if cacheMode { return |stats| - 1; }
    if |stats| <= 1 { return fastest; }
    if highWater {
      tier := HighWater(stats, near, fastest, memory);
      return;
    }
    for t := 0 to |stats|
      invariant t < |stats|
      invariant forall u :: 0 <= u < t ==> NearFull(stats[u], pct)
    {
      if t == |stats| - 1 { return t; }
      if !NearFull(stats[t], pct) { return t; }
    }
    return fastest;
  }

  // ---- the create loop --------------------------------------------------------

  /** What creating the file on a tier comes to, its directory there included. */
  datatype Outcome = Created | NoSpace | Error

  datatype Result = Placed(tier: nat) | OutOfSpace | Failed(tier: nat)

  function At(start: nat, attempt: nat, n: nat): (t: nat)
    requires n > 0
    ensures t < n
  {
    (start + attempt) % n
  }

  /** A tier the loop goes past. */
  predicate Passed(skip: seq<bool>, outcome: seq<Outcome>, t: nat)
    requires t < |skip| == |outcome|
  {
    (skip[t] && t != |skip| - 1) || outcome[t] == NoSpace
  }

  predicate FirstNotPassed(skip: seq<bool>, outcome: seq<Outcome>, start: nat, k: nat, t: nat)
    requires 0 < |skip| == |outcome|
  {
    t == At(start, k, |skip|) && forall j :: 0 <= j < k ==> Passed(skip, outcome, At(start, j, |skip|))
  }

  /** The retry loop of smoothfs_create_inner: the first tier from `start` on, cyclically, that
      is not passed over decides; running out of tiers means that every tier was passed. */
  method Create(skip: seq<bool>, outcome: seq<Outcome>, start: nat, cacheMode: bool) returns (r: Result)
    requires 0 < |skip| == |outcome| && start < |skip|
    requires cacheMode ==> start == |skip| - 1
    ensures match r
            case Placed(t) => t < |skip| && !Passed(skip, outcome, t) && outcome[t] == Created
            case Failed(t) => t < |skip| && !Passed(skip, outcome, t) && outcome[t] == Error
            case OutOfSpace =>
              if cacheMode then outcome[start] == NoSpace
              else forall t :: 0 <= t < |skip| ==> Passed(skip, outcome, t)
    ensures !r.OutOfSpace? ==> exists k :: 0 <= k < |skip| && FirstNotPassed(skip, outcome, start, k, r.tier)
    ensures cacheMode && !r.OutOfSpace? ==> r.tier == |skip| - 1
  {
    var n := |skip|;
    Reaches(start, start, n);
    hide At;
    var attempts := if cacheMode then 1 else n;
    for attempt := 0 to attempts
      invariant forall j :: 0 <= j < attempt ==> Passed(skip, outcome, At(start, j, n))
    {
      var tier := At(start, attempt, n);
      if tier != n - 1 && skip[tier] { continue; }
      match outcome[tier]
      case NoSpace =>
      case Created =>
        assert FirstNotPassed(skip, outcome, start, attempt, tier);
        return Placed(tier);
      case Error =>
        assert FirstNotPassed(skip, outcome, start, attempt, tier);
        return Failed(tier);
    }
    if cacheMode {
      assert Passed(skip, outcome, At(start, 0, n));
    } else {
      forall t | 0 <= t < n ensures Passed(skip, outcome, t) {
        Reaches(start, t, n);
      }
    }
    return OutOfSpace;
  }

  /** Counting round from any tier meets every tier. */
  lemma Reaches(start: nat, t: nat, n: nat)
    requires start < n && t < n
    ensures var k := if t >= start then t - start else t + n - start; 0 <= k < n && At(start, k, n) == t
  {
  }
}
