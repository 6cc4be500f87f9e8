/** Byte strings and the plain files made of them. */
module Bytes {
  type Byte = x: int | 0 <= x < 256

  type Content = seq<Byte>

  datatype Option<+T> = None | Some(value: T)

  function Zeros(n: nat): Content
  {
    seq(n, _ => 0)
  }

  /** The bytes a read of `len` at `pos` returns: short at the end of the file. */
  function ReadAt(f: Content, pos: nat, len: nat): Content
  {
    if pos >= |f| then []
    else if len < |f| - pos then f[pos..pos + len]
    else f[pos..]
  }

  /** A write at `pos`: a gap before it reads as zeros, a write of nothing changes nothing. */
  function WriteAt(f: Content, pos: nat, data: Content): Content
  {
    if data == [] then f
    else if pos >= |f| then f + Zeros(pos - |f|) + data
    else if pos + |data| >= |f| then f[..pos] + data
    else f[..pos] + data + f[pos + |data|..]
  }

  function Resize(f: Content, n: nat): Content
  {
    if n <= |f| then f[..n] else f + Zeros(n - |f|)
  }

  /** What a byte of the file is after a write: the characterisation the proofs use. */
  lemma WriteAtByte(f: Content, pos: nat, data: Content)
    ensures data != [] ==>
              |WriteAt(f, pos, data)| == if pos + |data| > |f| then pos + |data| else |f|
    ensures forall p {:trigger WriteAt(f, pos, data)[p]} :: 0 <= p < |WriteAt(f, pos, data)| ==>
              WriteAt(f, pos, data)[p] ==
              if pos <= p < pos + |data| then data[p - pos] else if p < |f| then f[p] else 0
  {
  }
}
