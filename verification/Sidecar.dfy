/** The range sidecar: the file that lets staged ranges survive a crash, and its name
    (src/smoothfs/range_staging.c). */
module Sidecar {
  import opened Bytes
  import opened Ranges
  import opened Codec

  const MAGIC: nat := 0x534D46525352454C
  const VERSION: nat := 1
  const HEADER: nat := 32
  const ENTRY: nat := 16
  const MAX_RANGES: nat := 65536

  datatype Record = Record(tier: Byte, ns: nat, ranges: seq<Range>)

  /** What the kernel has to record: a byte-sized tier, a 64-bit time, 63-bit offsets. */
  predicate Recordable(rec: Record)
  {
    && rec.ns < 0x1_0000_0000_0000_0000
    && forall i :: 0 <= i < |rec.ranges| ==> 0 <= rec.ranges[i].start < rec.ranges[i].end < 0x8000_0000_0000_0000
  }

  function HeaderBytes(tier: Byte, ns: nat, count: nat): (s: Content)
    ensures |s| == HEADER
  {
    LE(MAGIC, 8) + LE(VERSION, 4) + [tier, 0, 0, 0] + LE(ns, 8) + LE(count, 4) + [0, 0, 0, 0]
  }

  function EntryBytes(r: Range): (s: Content)
    requires 0 <= r.start < r.end
    ensures |s| == ENTRY
  {
    LE(r.start, 8) + LE(r.end, 8)
  }

  function EntriesBytes(rs: seq<Range>): (s: Content)
    requires forall i :: 0 <= i < |rs| ==> 0 <= rs[i].start < rs[i].end
    ensures |s| == ENTRY * |rs|
  {
    if rs == [] then [] else EntriesBytes(rs[..|rs| - 1]) + EntryBytes(rs[|rs| - 1])
  }

  function Image(rec: Record): (s: Content)
    requires Recordable(rec)
    ensures |s| == HEADER + ENTRY * |rec.ranges|
  {
    HeaderBytes(rec.tier, rec.ns, |rec.ranges|) + EntriesBytes(rec.ranges)
  }

  /** smoothfs_range_staging_persist: the bytes it writes, or its refusal of a list that is
      too long. */
  method Persist(rec: Record) returns (image: Option<Content>)
    requires Recordable(rec)
    ensures image == if |rec.ranges| > MAX_RANGES then None else Some(Image(rec))
  {
    hide HeaderBytes, EntryBytes;
    var count := 0;
    while count < |rec.ranges|
      invariant count <= |rec.ranges| && count <= MAX_RANGES
    {
      if count >= MAX_RANGES { return None; }
      count := count + 1;
    }
    var f := HeaderBytes(rec.tier, rec.ns, count);
    for i := 0 to |rec.ranges|
      invariant f == HeaderBytes(rec.tier, rec.ns, |rec.ranges|) + EntriesBytes(rec.ranges[..i])
    {
      assert rec.ranges[..i + 1][..i] == rec.ranges[..i];
      f := f + EntryBytes(rec.ranges[i]);
    }
    assert rec.ranges[..|rec.ranges|] == rec.ranges;
    return Some(f);
  }

  /** Field by field, where each lies in the file. */
  function Field(f: Content, at: nat, w: nat): nat
    requires at + w <= |f|
  {
    FromLE(f[at..at + w])
  }

  function RangeAt(f: Content, i: nat): Range
    requires HEADER + ENTRY * (i + 1) <= |f|
  {
    Range(Signed(Field(f, HEADER + ENTRY * i, 8)), Signed(Field(f, HEADER + ENTRY * i + 8, 8)))
  }

  predicate HeaderGood(f: Content, ntiers: nat)
  {
    && |f| >= HEADER
    && Field(f, 0, 8) == MAGIC && Field(f, 8, 4) == VERSION
    && Field(f, 24, 4) <= MAX_RANGES && f[12] < ntiers
  }

  /** The record a file holds: the header is good and every range it counts is there and
      not empty. Anything after the last range is not looked at. */
  ghost predicate Holds(f: Content, ntiers: nat, rec: Record)
  {
    && HeaderGood(f, ntiers)
    && rec.tier == f[12] && rec.ns == Field(f, 16, 8) && |rec.ranges| == Field(f, 24, 4)
    && |f| >= HEADER + ENTRY * |rec.ranges|
    && (forall i :: 0 <= i < |rec.ranges| ==> rec.ranges[i] == RangeAt(f, i))
    && (forall i :: 0 <= i < |rec.ranges| ==> rec.ranges[i].start < rec.ranges[i].end)
  }

  /** smoothfs_range_replay_one's reading of the file. */
  method Replay(f: Content, ntiers: nat) returns (r: Option<Record>)
    ensures r.Some? ==> Holds(f, ntiers, r.value)
    ensures r.None? ==> forall rec :: !Holds(f, ntiers, rec)
  {
    if |f| < HEADER { return None; }
    var magic, version, count := Field(f, 0, 8), Field(f, 8, 4), Field(f, 24, 4);
    if magic != MAGIC || version != VERSION || count > MAX_RANGES || f[12] >= ntiers { return None; }
    var ranges: seq<Range> := [];
    var pos := HEADER;
    for i := 0 to count
      invariant pos == HEADER + ENTRY * i && |ranges| == i && pos <= |f|
      invariant forall k :: 0 <= k < i ==> ranges[k] == RangeAt(f, k) && ranges[k].start < ranges[k].end
    {
      if |f| - pos < ENTRY { return None; }
      var r := Range(Signed(Field(f, pos, 8)), Signed(Field(f, pos + 8, 8)));
      assert r == RangeAt(f, i);
      if r.end <= r.start { return None; }
      ranges := ranges + [r];
      pos := pos + ENTRY;
    }
    return Some(Record(f[12], Field(f, 16, 8), ranges));
  }

  lemma {:induction false} EntryAt(rs: seq<Range>, i: nat)
    requires i < |rs| && forall k :: 0 <= k < |rs| ==> 0 <= rs[k].start < rs[k].end
    ensures EntriesBytes(rs)[ENTRY * i..ENTRY * (i + 1)] == EntryBytes(rs[i])
  {
    hide EntryBytes;
    var front := rs[..|rs| - 1];
    var head, s := EntriesBytes(front), EntriesBytes(rs);
    if i < |front| {
      EntryAt(front, i);
      assert s[ENTRY * i..ENTRY * (i + 1)] == head[ENTRY * i..ENTRY * (i + 1)];
    } else {
      assert s[|head|..] == EntryBytes(rs[i]);
    }
  }

  lemma RangeRoundTrip(rec: Record, i: nat)
    requires Recordable(rec) && i < |rec.ranges|
    ensures RangeAt(Image(rec), i) == rec.ranges[i]
  {
    hide LE, FromLE, EntriesBytes, HeaderBytes, Pow256;
    var f, r, at := Image(rec), rec.ranges[i], HEADER + ENTRY * i;
    EntryAt(rec.ranges, i);
    var entries := EntriesBytes(rec.ranges);
    var e := entries[ENTRY * i..ENTRY * (i + 1)];
    assert f[at..at + 8] == e[..8] == LE(r.start, 8);
    assert f[at + 8..at + 16] == e[8..] == LE(r.end, 8);
    Widths();
    LERoundTrip(r.start, 8);
    LERoundTrip(r.end, 8);
  }

  lemma HeaderRoundTrip(rec: Record, ntiers: nat)
    requires Recordable(rec) && |rec.ranges| <= MAX_RANGES && rec.tier < ntiers
    ensures var f := Image(rec);
            HeaderGood(f, ntiers) && f[12] == rec.tier && Field(f, 16, 8) == rec.ns && Field(f, 24, 4) == |rec.ranges|
  {
    hide LE, FromLE, EntriesBytes, Pow256;
    var f, h := Image(rec), HeaderBytes(rec.tier, rec.ns, |rec.ranges|);
    assert f[0..8] == h[0..8] == LE(MAGIC, 8);
    assert f[8..12] == h[8..12] == LE(VERSION, 4);
    assert f[16..24] == h[16..24] == LE(rec.ns, 8);
    assert f[24..28] == h[24..28] == LE(|rec.ranges|, 4);
    Widths();
    LERoundTrip(MAGIC, 8);
    LERoundTrip(VERSION, 4);
    LERoundTrip(rec.ns, 8);
    LERoundTrip(|rec.ranges|, 4);
  }

  /** What persist writes, replay reads back, and nothing else can be read from it. */
  lemma RoundTrip(rec: Record, ntiers: nat, got: Record)
    requires Recordable(rec) && |rec.ranges| <= MAX_RANGES && rec.tier < ntiers
    ensures Holds(Image(rec), ntiers, got) <==> got == rec
  {
    hide LE, FromLE, HeaderBytes, EntriesBytes, Pow256, Image, RangeAt;
    HeaderRoundTrip(rec, ntiers);
    forall i | 0 <= i < |rec.ranges| ensures RangeAt(Image(rec), i) == rec.ranges[i] {
      RangeRoundTrip(rec, i);
    }
    if Holds(Image(rec), ntiers, got) { assert got.ranges == rec.ranges; }
  }

  /** A sidecar cut short anywhere is not read at all. */
  lemma PrefixRejected(rec: Record, ntiers: nat, n: nat, got: Record)
    requires Recordable(rec) && |rec.ranges| <= MAX_RANGES && rec.tier < ntiers
    ensures n < |Image(rec)| ==> !Holds(Image(rec)[..n], ntiers, got)
  {
    hide LE, FromLE, HeaderBytes, EntriesBytes, Pow256, RangeAt;
    HeaderRoundTrip(rec, ntiers);
    if HEADER <= n < |Image(rec)| { assert Image(rec)[..n][24..28] == Image(rec)[24..28]; }
  }

  // ---- file names -----------------------------------------------------------

  const PREFIX := "range-"
  const META := ".meta"
  const META_TMP := ".meta.tmp"
  const STAGE := ".stage"
  const OID_LEN: nat := 16

  function Digit(v: nat): char
    requires v < 16
  {
    "0123456789abcdef"[v]
  }

  function DigitValue(c: char): Option<nat>
  {
    if '0' <= c <= '9' then Some(c as nat - '0' as nat)
    else if 'a' <= c <= 'f' then Some(c as nat - 'a' as nat + 10)
    else if 'A' <= c <= 'F' then Some(c as nat - 'A' as nat + 10)
    else None
  }

  function Hex(oid: Content): (s: string)
    ensures |s| == 2 * |oid|
  {
    if oid == [] then "" else Hex(oid[..|oid| - 1]) + [Digit(oid[|oid| - 1] / 16), Digit(oid[|oid| - 1] % 16)]
  }

  function Name(oid: Content, suffix: string): string
  {
    PREFIX + Hex(oid) + suffix
  }

  /** smoothfs_range_actor: the directory entries a replay looks at. */
  predicate IsSidecar(name: string)
  {
    |name| >= |PREFIX| + |META| && PREFIX <= name && name[|name| - |META|..] == META
  }

  /** smoothfs_range_parse_oid. */
  method ParseOid(name: string) returns (r: Option<Content>)
    ensures r.Some? <==> NamesAnOid(name)
    ensures r.Some? ==> |r.value| == OID_LEN && forall i :: 0 <= i < OID_LEN ==> r.value[i] == ByteNamed(name, i)
  {
    if |name| != |PREFIX| + 2 * OID_LEN + |META| { return None; }
    var oid: Content := [];
    for i := 0 to OID_LEN
      invariant |oid| == i
      invariant forall k :: 0 <= k < i ==> DigitsAt(name, k) && oid[k] == ByteNamed(name, k)
    {
      var hi, lo := DigitValue(name[|PREFIX| + 2 * i]), DigitValue(name[|PREFIX| + 2 * i + 1]);
      if hi.None? || lo.None? {
        assert !DigitsAt(name, i);
        return None;
      }
      oid := oid + [16 * hi.value + lo.value];
    }
    return Some(oid);
  }

  predicate DigitsAt(name: string, i: nat)
    requires |name| == |PREFIX| + 2 * OID_LEN + |META| && i < OID_LEN
  {
    DigitValue(name[|PREFIX| + 2 * i]).Some? && DigitValue(name[|PREFIX| + 2 * i + 1]).Some?
  }

  predicate NamesAnOid(name: string)
  {
    |name| == |PREFIX| + 2 * OID_LEN + |META| && forall i :: 0 <= i < OID_LEN ==> DigitsAt(name, i)
  }

  function ByteNamed(name: string, i: nat): nat
    requires |name| == |PREFIX| + 2 * OID_LEN + |META| && i < OID_LEN && DigitsAt(name, i)
  {
    16 * DigitValue(name[|PREFIX| + 2 * i]).value + DigitValue(name[|PREFIX| + 2 * i + 1]).value
  }

  lemma {:induction false} HexAt(oid: Content, i: nat)
    requires i < |oid|
    ensures Hex(oid)[2 * i] == Digit(oid[i] / 16) && Hex(oid)[2 * i + 1] == Digit(oid[i] % 16)
  {
    if i < |oid| - 1 { HexAt(oid[..|oid| - 1], i); }
  }

  /** The file name gives the OID back. */
  lemma NameRoundTrip(oid: Content)
    requires |oid| == OID_LEN
    ensures IsSidecar(Name(oid, META)) && NamesAnOid(Name(oid, META))
    ensures forall i :: 0 <= i < OID_LEN ==> ByteNamed(Name(oid, META), i) == oid[i]
  {
    hide Hex;
    var name, hex := Name(oid, META), Hex(oid);
    assert name[|name| - |META|..] == META;
    assert forall k :: 0 <= k < |hex| ==> name[|PREFIX| + k] == hex[k];
    hide Name;
    forall i | 0 <= i < OID_LEN ensures DigitsAt(name, i) && ByteNamed(name, i) == oid[i] {
      HexAt(oid, i);
      DigitRoundTrip(oid[i] / 16);
      DigitRoundTrip(oid[i] % 16);
    }
  }

  lemma DigitRoundTrip(v: nat)
    requires v < 16
    ensures DigitValue(Digit(v)) == Some(v)
  {
  }

  /** Neither a half-written sidecar nor a stage file is taken for a sidecar. */
  lemma OthersAreNotSidecars(oid: Content)
    ensures !IsSidecar(Name(oid, META_TMP)) && !IsSidecar(Name(oid, STAGE))
  {
    var tmp, stage := Name(oid, META_TMP), Name(oid, STAGE);
    assert tmp[|tmp| - |META|..] == "a.tmp" && "a.tmp"[0] != META[0];
    assert stage[|stage| - |META|..] == "stage" && "stage"[0] != META[0];
  }
}
