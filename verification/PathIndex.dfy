/** The path index: where each object's file is, so that a mount need not walk the tiers
    (src/smoothfs/placement.c). */
module PathIndex {
  import opened Bytes
  import opened Codec

  const MAGIC: nat := 0x534D46504944580A
  const HEADER: nat := 48
  const ENTRY_HEADER: nat := 20
  const PATH_MAX: nat := 4096
  const U16_MAX: nat := 65535
  const MAX_COUNT: nat := 50000000

  type Id = s: Content | |s| == 16 witness Zeros(16)

  /** A path has no zero byte; it is stored with one at its end. */
  datatype Entry = Entry(oid: Id, tier: Byte, path: Content)

  predicate Named(e: Entry)
  {
    forall i :: 0 <= i < |e.path| ==> e.path[i] != 0
  }

  predicate Fits(e: Entry)
  {
    |e.path| + 1 <= PATH_MAX
  }

  function HeaderBytes(uuid: Id, count: nat, ntiers: nat): (s: Content)
    ensures |s| == HEADER
  {
    LE(MAGIC, 8) + uuid + LE(count, 8) + LE(ntiers, 8) + Zeros(8)
  }

  function EntryBytes(e: Entry): (s: Content)
    ensures |s| == ENTRY_HEADER + |e.path| + 1
  {
    e.oid + [e.tier, 0] + LE(|e.path| + 1, 2) + e.path + [0]
  }

  function Body(es: seq<Entry>): Content
  {
    if es == [] then [] else EntryBytes(es[0]) + Body(es[1..])
  }

  /** A record of the scan; only one with a chosen path goes into the index. */
  datatype Scanned = Scanned(oid: Id, chosen: Option<Place>)

  datatype Place = Place(tier: Byte, path: Content)

  function EntryOf(r: Scanned): Entry
    requires r.chosen.Some?
  {
    Entry(r.oid, r.chosen.value.tier, r.chosen.value.path)
  }

  function Chosen(recs: seq<Scanned>): seq<Entry>
  {
    if recs == [] then []
    else Chosen(recs[..|recs| - 1]) + (if recs[|recs| - 1].chosen.Some? then [EntryOf(recs[|recs| - 1])] else [])
  }

  /** What the writer does not leave out. */
  function Written(es: seq<Entry>): seq<Entry>
  {
    if es == [] then []
    else Written(es[..|es| - 1]) + (if |es[|es| - 1].path| + 1 > U16_MAX then [] else [es[|es| - 1]])
  }

  function Image(uuid: Id, ntiers: nat, es: seq<Entry>): Content
  {
    HeaderBytes(uuid, |es|, ntiers) + Body(Written(es)) + LE(MAGIC, 8)
  }

  lemma {:induction false} BodyAppend(es: seq<Entry>, e: Entry)
    ensures Body(es + [e]) == Body(es) + EntryBytes(e)
  {
    hide EntryBytes;
    if es == [] {
      assert ([e])[1..] == [];
      assert es + [e] == [e];
    } else {
      BodyAppend(es[1..], e);
      assert (es + [e])[1..] == es[1..] + [e];
      assert EntryBytes(es[0]) + (Body(es[1..]) + EntryBytes(e)) == (EntryBytes(es[0]) + Body(es[1..])) + EntryBytes(e);
    }
  }

  /** What one more record adds to the index. */
  function Added(r: Scanned): Content
  {
    if r.chosen.Some? && |r.chosen.value.path| + 1 <= U16_MAX then EntryBytes(EntryOf(r)) else []
  }

  lemma OneMore(recs: seq<Scanned>, i: nat)
    requires i < |recs|
    ensures |Chosen(recs[..i + 1])| == |Chosen(recs[..i])| + if recs[i].chosen.Some? then 1 else 0
    ensures Body(Written(Chosen(recs[..i + 1]))) == Body(Written(Chosen(recs[..i]))) + Added(recs[i])
  {
    hide EntryBytes, Body;
    assert recs[..i + 1][..i] == recs[..i];
    var es := Chosen(recs[..i]);
    if recs[i].chosen.Some? {
      var e := EntryOf(recs[i]);
      assert (es + [e])[..|es|] == es;
      BodyAppend(Written(es), e);
      assert Written(es) + [] == Written(es);
    } else {
      assert es + [] == es;
    }
  }

  /** The first pass of the writer. */
  method Count(recs: seq<Scanned>) returns (count: nat)
    ensures count == |Chosen(recs)|
  {
    count := 0;
    for i := 0 to |recs|
      invariant count == |Chosen(recs[..i])|
    {
      OneMore(recs, i);
      if recs[i].chosen.Some? { count := count + 1; }
    }
    assert recs[..|recs|] == recs;
  }

  /** What the index holds of the first `i` records. */
  function BodyTo(recs: seq<Scanned>, i: nat): Content
    requires i <= |recs|
  {
    Body(Written(Chosen(recs[..i])))
  }

  lemma BodyGrows(recs: seq<Scanned>, i: nat, header: Content)
    requires i < |recs|
    ensures header + BodyTo(recs, i + 1) == header + BodyTo(recs, i) + Added(recs[i])
  {
    hide Body, Written, Chosen, Added;
    OneMore(recs, i);
    Regroup(header, BodyTo(recs, i), Added(recs[i]));
  }

  lemma Regroup(a: Content, b: Content, c: Content)
    ensures a + (b + c) == a + b + c
  {
  }

  lemma BodyEnds(recs: seq<Scanned>, header: Content)
    ensures header + BodyTo(recs, 0) == header && BodyTo(recs, |recs|) == Body(Written(Chosen(recs)))
  {
    WrittenNone();
    assert recs[..|recs|] == recs && recs[..0] == [];
  }

  /** smoothfs_path_index_write: one pass counts, the next writes. */
  method Write(uuid: Id, ntiers: nat, recs: seq<Scanned>) returns (f: Content)
    ensures f == Image(uuid, ntiers, Chosen(recs))
  {
    hide HeaderBytes, EntryBytes, LE, BodyTo;
    var count := Count(recs);
    var header := HeaderBytes(uuid, count, ntiers);
    BodyEnds(recs, header);
    f := header;
    for i := 0 to |recs|
      invariant f == header + BodyTo(recs, i)
    {
      BodyGrows(recs, i, header);
      if recs[i].chosen.Some? && |recs[i].chosen.value.path| + 1 <= U16_MAX {
        f := f + EntryBytes(EntryOf(recs[i]));
      } else {
        assert f + [] == f;
      }
    }
    f := f + LE(MAGIC, 8);
  }

  lemma WrittenNone()
    ensures Body(Written([])) == []
  {
  }

  // ---- reading --------------------------------------------------------------

  /** The string a C reader sees: up to the first zero byte. */
  function CString(s: Content): Content
  {
    if s == [] || s[0] == 0 then [] else [s[0]] + CString(s[1..])
  }

  /** The next `n` entries from `pos` and where they end. */
  function Entries(f: Content, pos: nat, n: nat): Option<(seq<Entry>, nat)>
    requires pos <= |f|
    decreases n
  {
    if n == 0 then Some(([], pos))
    else if !EntryThere(f, pos) then None
    else
      match Entries(f, EntryEnd(f, pos), n - 1)
      case None => None
      case Some(rest) => Some(([EntryAt(f, pos)] + rest.0, rest.1))
  }

  function PathLen(f: Content, pos: nat): nat
    requires pos + ENTRY_HEADER <= |f|
  {
    FromLE(f[pos + 18..pos + 20])
  }

  predicate EntryThere(f: Content, pos: nat)
    requires pos <= |f|
  {
    && pos + ENTRY_HEADER <= |f|
    && 0 < PathLen(f, pos) <= PATH_MAX
    && pos + ENTRY_HEADER + PathLen(f, pos) <= |f|
  }

  function EntryEnd(f: Content, pos: nat): (end: nat)
    requires pos <= |f| && EntryThere(f, pos)
    ensures pos < end <= |f|
  {
    pos + ENTRY_HEADER + PathLen(f, pos)
  }

  function EntryAt(f: Content, pos: nat): Entry
    requires pos <= |f| && EntryThere(f, pos)
  {
    Entry(f[pos..pos + 16], f[pos + 16], CString(f[pos + ENTRY_HEADER..EntryEnd(f, pos) - 1]))
  }

  predicate HeaderGood(f: Content, uuid: Id, ntiers: nat)
  {
    && |f| >= HEADER
    && FromLE(f[0..8]) == MAGIC && f[8..24] == uuid
    && FromLE(f[32..40]) == ntiers && FromLE(f[24..32]) <= MAX_COUNT
  }

  predicate FooterGood(f: Content, pos: nat)
  {
    pos + 8 <= |f| && FromLE(f[pos..pos + 8]) == MAGIC
  }

  /** The entries of an acceptable file. */
  function Parse(f: Content, uuid: Id, ntiers: nat): Option<seq<Entry>>
  {
    if !HeaderGood(f, uuid, ntiers) then None else
    match Entries(f, HEADER, FromLE(f[24..32]))
    case None => None
    case Some(got) => if FooterGood(f, got.1) then Some(got.0) else None
  }

  /** A replay record: the tier the placement log says, and the paths found so far. */
  datatype Found = Found(logged: Option<Byte>, chosen: Option<Place>, fallback: Option<Place>)

  /** The effect of one entry on the replay records. */
  function Take(m: map<Id, Found>, e: Entry, ntiers: nat): map<Id, Found>
  {
    if e.tier >= ntiers then m else
    var r := if e.oid in m then m[e.oid] else Found(None, None, None);
    var here := Place(e.tier, e.path);
    m[e.oid := Found(r.logged,
                     if r.chosen.None? && (r.logged.None? || r.logged == Some(e.tier)) then Some(here) else r.chosen,
                     if r.fallback.None? then Some(here) else r.fallback)]
  }

  function TakeAll(m: map<Id, Found>, es: seq<Entry>, ntiers: nat): map<Id, Found>
    decreases |es|
  {
    if es == [] then m else TakeAll(Take(m, es[0], ntiers), es[1..], ntiers)
  }

  /** smoothfs_path_index_read. On an error the records are thrown away by the caller. */
  method Read(f: Content, uuid: Id, ntiers: nat, records: map<Id, Found>) returns (r: Option<map<Id, Found>>)
    ensures r == match Parse(f, uuid, ntiers)
                 case None => None
                 case Some(es) => Some(TakeAll(records, es, ntiers))
  {
    hide FromLE, Take, CString;
    if |f| < HEADER { return None; }
    if FromLE(f[0..8]) != MAGIC || f[8..24] != uuid || FromLE(f[32..40]) != ntiers || FromLE(f[24..32]) > MAX_COUNT {
      return None;
    }
    var count := FromLE(f[24..32]);
    var pos, m := HEADER, records;
    for i := 0 to count
      invariant HEADER <= pos <= |f|
      invariant Entries(f, HEADER, count).Some? <==> Entries(f, pos, count - i).Some?
      invariant Entries(f, HEADER, count).Some? ==>
                  && Entries(f, HEADER, count).value.1 == Entries(f, pos, count - i).value.1
                  && TakeAll(records, Entries(f, HEADER, count).value.0, ntiers)
                     == TakeAll(m, Entries(f, pos, count - i).value.0, ntiers)
    {
      if !EntryThere(f, pos) { return None; }
      var e := EntryAt(f, pos);
      ghost var rest := Entries(f, EntryEnd(f, pos), count - i - 1);
      if rest.Some? { assert ([e] + rest.value.0)[1..] == rest.value.0; }
      m := Take(m, e, ntiers);
      pos := EntryEnd(f, pos);
    }
    if !FooterGood(f, pos) { return None; }
    return Some(m);
  }

  // ---- what is written is read back ------------------------------------------

  lemma {:induction false} CStringWhole(s: Content)
    requires forall i :: 0 <= i < |s| ==> s[i] != 0
    ensures CString(s) == s
  {
    if s == [] {
    } else {
      CStringWhole(s[1..]);
    }
  }

  /** An entry that fits is found where it was written. */
  lemma OneEntry(pre: Content, e: Entry, post: Content)
    requires Named(e) && |e.path| + 1 <= U16_MAX
    ensures var f := pre + EntryBytes(e) + post;
            && PathLen(f, |pre|) == |e.path| + 1
            && (EntryThere(f, |pre|) <==> Fits(e))
            && (Fits(e) ==> EntryEnd(f, |pre|) == |pre| + |EntryBytes(e)| && EntryAt(f, |pre|) == e)
  {
    hide LE, FromLE, Pow256, CString;
    var f, at, b := pre + EntryBytes(e) + post, |pre|, EntryBytes(e);
    assert f[at..at + |b|] == b;
    assert f[at + 18..at + 20] == b[18..20] == LE(|e.path| + 1, 2);
    Widths();
    LERoundTrip(|e.path| + 1, 2);
    assert f[at..at + 16] == b[..16] == e.oid;
    assert f[at + 16] == b[16] == e.tier;
    assert f[at + 20..at + |b| - 1] == b[20..|b| - 1] == e.path;
    CStringWhole(e.path);
  }

  predicate AllNamed(es: seq<Entry>)
  {
    forall i :: 0 <= i < |es| ==> Named(es[i])
  }

  predicate AllFit(es: seq<Entry>)
  {
    forall i :: 0 <= i < |es| ==> Fits(es[i])
  }

  lemma {:induction false} BodyParses(pre: Content, es: seq<Entry>, post: Content)
    requires AllNamed(es) && AllFit(es)
    ensures Entries(pre + Body(es) + post, |pre|, |es|) == Some((es, |pre| + |Body(es)|))
    decreases |es|
  {
    hide EntryBytes, EntryThere, EntryEnd, EntryAt, PathLen, Named;
    if es == [] {
    } else {
      var f, pre', rest := pre + Body(es) + post, pre + EntryBytes(es[0]), es[1..];
      assert f == pre + EntryBytes(es[0]) + (Body(rest) + post);
      OneEntry(pre, es[0], Body(rest) + post);
      assert f == pre' + Body(rest) + post;
      BodyParses(pre', rest, post);
      assert [es[0]] + rest == es;
    }
  }

  /** Asking for more entries than there are, or for one that is too long, fails: what is
      left after the last entry is too short to be one. */
  lemma {:induction false} BodyRejected(pre: Content, es: seq<Entry>, post: Content, n: nat)
    requires AllNamed(es) && (forall i :: 0 <= i < |es| ==> |es[i].path| + 1 <= U16_MAX)
    requires |post| < ENTRY_HEADER && |es| <= n && (|es| < n || !AllFit(es))
    ensures Entries(pre + Body(es) + post, |pre|, n) == None
    decreases |es|
  {
    hide EntryBytes, EntryEnd, EntryAt, PathLen;
    var f := pre + Body(es) + post;
    if es == [] {
    } else {
      var pre', rest := pre + EntryBytes(es[0]), es[1..];
      assert f == pre + EntryBytes(es[0]) + (Body(rest) + post);
      OneEntry(pre, es[0], Body(rest) + post);
      if Fits(es[0]) {
        assert f == pre' + Body(rest) + post;
        assert AllFit(rest) ==> AllFit(es) by {
          forall i | AllFit(rest) && 0 < i < |es| ensures Fits(es[i]) { assert es[i] == rest[i - 1]; }
        }
        BodyRejected(pre', rest, post, n - 1);
      }
    }
  }

  lemma HeaderRoundTrip(uuid: Id, ntiers: nat, count: nat, post: Content)
    requires count < 0x1_0000_0000_0000_0000 && ntiers < 0x1_0000_0000_0000_0000
    ensures var f := HeaderBytes(uuid, count, ntiers) + post;
            FromLE(f[24..32]) == count && (HeaderGood(f, uuid, ntiers) <==> count <= MAX_COUNT)
  {
    hide LE, FromLE, Pow256;
    var h := HeaderBytes(uuid, count, ntiers);
    var f := h + post;
    assert f[0..8] == h[0..8] == LE(MAGIC, 8);
    assert f[8..24] == h[8..24] == uuid;
    assert f[24..32] == h[24..32] == LE(count, 8);
    assert f[32..40] == h[32..40] == LE(ntiers, 8);
    Widths();
    LERoundTrip(MAGIC, 8);
    LERoundTrip(count, 8);
    LERoundTrip(ntiers, 8);
  }

  lemma {:induction false} WrittenFacts(es: seq<Entry>)
    requires AllNamed(es)
    ensures AllNamed(Written(es)) && |Written(es)| <= |es|
    ensures forall i :: 0 <= i < |Written(es)| ==> |Written(es)[i].path| + 1 <= U16_MAX
    ensures AllFit(es) ==> Written(es) == es
    ensures |Written(es)| == |es| ==> Written(es) == es
  {
    if es == [] {
    } else {
      WrittenFacts(es[..|es| - 1]);
      assert es == es[..|es| - 1] + [es[|es| - 1]];
    }
  }

  /** The index reads back exactly when no path is longer than a path may be and there are
      not too many; then it gives every entry back, in order. */
  lemma ReadsBackIff(uuid: Id, ntiers: nat, es: seq<Entry>)
    requires AllNamed(es) && |es| < 0x1_0000_0000_0000_0000 && ntiers < 0x1_0000_0000_0000_0000
    ensures Parse(Image(uuid, ntiers, es), uuid, ntiers)
            == if AllFit(es) && |es| <= MAX_COUNT then Some(es) else None
  {
    hide HeaderBytes, Body, LE, FromLE, Written, Pow256, AllFit, AllNamed, HeaderGood;
    var f, h, body, tail := Image(uuid, ntiers, es), HeaderBytes(uuid, |es|, ntiers), Body(Written(es)), LE(MAGIC, 8);
    assert f == h + (body + tail) && f == h + body + tail;
    HeaderRoundTrip(uuid, ntiers, |es|, body + tail);
    WrittenFacts(es);
    if AllFit(es) {
      BodyParses(h, es, tail);
      assert f[|h| + |body|..|h| + |body| + 8] == tail;
      Widths();
      LERoundTrip(MAGIC, 8);
    } else {
      BodyRejected(h, Written(es), tail, |es|);
    }
  }

  /** What can be parsed of a prefix is what can be parsed of the whole. */
  lemma {:induction false} PrefixParses(f: Content, n: nat, pos: nat, count: nat)
    requires pos <= n <= |f|
    ensures Entries(f[..n], pos, count).Some? ==> Entries(f, pos, count) == Entries(f[..n], pos, count)
    ensures Entries(f[..n], pos, count).Some? ==> Entries(f, pos, count).value.1 <= n
    decreases count
  {
    var g := f[..n];
    if count > 0 && EntryThere(g, pos) {
      assert g[pos + 18..pos + 20] == f[pos + 18..pos + 20];
      assert g[pos + ENTRY_HEADER..EntryEnd(g, pos) - 1] == f[pos + ENTRY_HEADER..EntryEnd(f, pos) - 1];
      assert g[pos..pos + 16] == f[pos..pos + 16];
      assert EntryAt(g, pos) == EntryAt(f, pos);
      PrefixParses(f, n, EntryEnd(g, pos), count - 1);
    }
  }

  /** An index cut short anywhere is rejected: the footer is what commits it. */
  lemma PrefixRejected(uuid: Id, ntiers: nat, es: seq<Entry>, n: nat)
    requires AllNamed(es) && |es| < 0x1_0000_0000_0000_0000 && ntiers < 0x1_0000_0000_0000_0000
    ensures n < |Image(uuid, ntiers, es)| ==> Parse(Image(uuid, ntiers, es)[..n], uuid, ntiers) == None
  {
    hide HeaderBytes, Body, LE, FromLE, Written, Pow256, AllFit, AllNamed;
    var f, h, body, tail := Image(uuid, ntiers, es), HeaderBytes(uuid, |es|, ntiers), Body(Written(es)), LE(MAGIC, 8);
    assert f == h + (body + tail) && f == h + body + tail;
    if HEADER <= n < |f| {
      var g := f[..n];
      assert g[24..32] == f[24..32];
      HeaderRoundTrip(uuid, ntiers, |es|, body + tail);
      PrefixParses(f, n, HEADER, |es|);
      WrittenFacts(es);
      if AllFit(es) { BodyParses(h, es, tail); } else { BodyRejected(h, Written(es), tail, |es|); }
    }
  }

  /** Each object once, on a tier of the pool. */
  predicate Sound(es: seq<Entry>, ntiers: nat)
  {
    && (forall i :: 0 <= i < |es| ==> es[i].tier < ntiers)
    && (forall i, j :: 0 <= i < j < |es| ==> es[i].oid != es[j].oid)
  }

  /** Every object of the index is placed: on its indexed tier if the placement log does not
      know it or agrees, and always with that tier to fall back to. Other records stay. */
  lemma {:induction false} TakeAllRestores(m: map<Id, Found>, es: seq<Entry>, ntiers: nat, oid: Id)
    requires Sound(es, ntiers)
    requires oid in m ==> m[oid].chosen.None? && m[oid].fallback.None?
    ensures var m' := TakeAll(m, es, ntiers);
            && (forall i :: 0 <= i < |es| && es[i].oid == oid ==>
                  && oid in m'
                  && var here, logged := Some(Place(es[i].tier, es[i].path)), if oid in m then m[oid].logged else None;
                     m'[oid] == Found(logged, if logged.None? || logged == Some(es[i].tier) then here else None, here))
            && ((forall i :: 0 <= i < |es| ==> es[i].oid != oid) ==>
                  (oid in m' <==> oid in m) && (oid in m ==> m'[oid] == m[oid]))
    decreases |es|
  {
    if es == [] {
    } else {
      var m1, rest := Take(m, es[0], ntiers), es[1..];
      if es[0].oid != oid {
        TakeAllRestores(m1, rest, ntiers, oid);
        forall i | 0 < i < |es| ensures es[i] == rest[i - 1] {}
      } else {
        TakeAllElsewhere(m1, rest, ntiers, oid);
      }
    }
  }

  lemma {:induction false} TakeAllElsewhere(m: map<Id, Found>, es: seq<Entry>, ntiers: nat, oid: Id)
    requires forall i :: 0 <= i < |es| ==> es[i].oid != oid
    requires oid in m
    ensures oid in TakeAll(m, es, ntiers) && TakeAll(m, es, ntiers)[oid] == m[oid]
    decreases |es|
  {
    if es == [] {
    } else {
      TakeAllElsewhere(Take(m, es[0], ntiers), es[1..], ntiers, oid);
    }
  }

  // ---- a mount after a scan ----------------------------------------------------

  /** What a scan leaves: each object once, its path a path, on a tier of the pool. */
  predicate ScanOk(recs: seq<Scanned>, ntiers: nat)
  {
    && (forall i, j :: 0 <= i < j < |recs| ==> recs[i].oid != recs[j].oid)
    && (forall i :: 0 <= i < |recs| && recs[i].chosen.Some? ==> Named(EntryOf(recs[i])) && recs[i].chosen.value.tier < ntiers)
  }

  predicate Picks(recs: seq<Scanned>, i: nat, e: Entry)
  {
    i < |recs| && recs[i].chosen.Some? && EntryOf(recs[i]) == e
  }

  lemma {:induction false} ChosenIff(recs: seq<Scanned>, e: Entry)
    ensures e in Chosen(recs) <==> exists i: nat :: Picks(recs, i, e)
  {
    if recs == [] {
    } else {
      var n := |recs| - 1;
      ChosenIff(recs[..n], e);
      if e in Chosen(recs[..n]) {
        var i: nat :| Picks(recs[..n], i, e);
        assert Picks(recs, i, e);
      }
      if recs[n].chosen.Some? && EntryOf(recs[n]) == e { assert Picks(recs, n, e); }
      forall i: nat | Picks(recs, i, e) ensures i == n || Picks(recs[..n], i, e) {}
    }
  }

  lemma {:induction false} ChosenSound(recs: seq<Scanned>, ntiers: nat)
    requires ScanOk(recs, ntiers)
    ensures Sound(Chosen(recs), ntiers) && AllNamed(Chosen(recs))
  {
    hide Named;
    if recs == [] {
    } else {
      var n := |recs| - 1;
      var front := recs[..n];
      ChosenSound(front, ntiers);
      forall e | e in Chosen(front) ensures e.oid != recs[n].oid {
        OtherOid(recs, e);
      }
    }
  }

  lemma OtherOid(recs: seq<Scanned>, e: Entry)
    requires recs != [] && (forall i, j :: 0 <= i < j < |recs| ==> recs[i].oid != recs[j].oid)
    requires e in Chosen(recs[..|recs| - 1])
    ensures e.oid != recs[|recs| - 1].oid
  {
    var front := recs[..|recs| - 1];
    ChosenIff(front, e);
    var i: nat :| Picks(front, i, e);
    assert front[i] == recs[i];
  }

  /** The index of a scan, read back by a mount that knows nothing else: it is accepted exactly
      when every path fits and there are not too many, and then every object is where the scan
      chose it to be, and no other object is there. */
  method Remount(uuid: Id, ntiers: nat, recs: seq<Scanned>) returns (r: Option<map<Id, Found>>)
    requires ScanOk(recs, ntiers) && |recs| < 0x1_0000_0000_0000_0000 && ntiers < 0x1_0000_0000_0000_0000
    ensures r.Some? <==> AllFit(Chosen(recs)) && |Chosen(recs)| <= MAX_COUNT
    ensures r.Some? ==> forall i :: 0 <= i < |recs| && recs[i].chosen.Some? ==>
              recs[i].oid in r.value && r.value[recs[i].oid].chosen == recs[i].chosen
    ensures r.Some? ==> forall oid :: oid in r.value ==>
              exists i :: 0 <= i < |recs| && recs[i].oid == oid && recs[i].chosen.Some?
  {
    hide Image, Parse, Chosen, TakeAll;
    var f := Write(uuid, ntiers, recs);
    r := Read(f, uuid, ntiers, map[]);
    ghost var es := Chosen(recs);
    ChosenSound(recs, ntiers);
    ChosenFewer(recs);
    ReadsBackIff(uuid, ntiers, es);
    if r.Some? {
      forall i | 0 <= i < |recs| && recs[i].chosen.Some?
        ensures recs[i].oid in r.value && r.value[recs[i].oid].chosen == recs[i].chosen
      {
        assert Picks(recs, i, EntryOf(recs[i]));
        ChosenIff(recs, EntryOf(recs[i]));
        TakeAllRestores(map[], es, ntiers, recs[i].oid);
        var k :| 0 <= k < |es| && es[k] == EntryOf(recs[i]);
      }
      forall oid | oid in r.value
        ensures exists i :: 0 <= i < |recs| && recs[i].oid == oid && recs[i].chosen.Some?
      {
        TakeAllRestores(map[], es, ntiers, oid);
        var k :| 0 <= k < |es| && es[k].oid == oid;
        ChosenIff(recs, es[k]);
        var i: nat :| Picks(recs, i, es[k]);
        assert recs[i].oid == oid;
      }
    }
  }

  lemma {:induction false} ChosenFewer(recs: seq<Scanned>)
    ensures |Chosen(recs)| <= |recs|
  {
    if recs == [] {
    } else {
      ChosenFewer(recs[..|recs| - 1]);
    }
  }
}
