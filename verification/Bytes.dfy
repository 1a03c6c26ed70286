/** Bytes and the one memory operation the read path uses: copying a run of bytes into a block. */
module Bytes {

  type Byte = b: int | 0 <= b < 256

  datatype Option<+T> = None | Some(value: T)

  /** The bytes of `block` in the interval [pos, pos + len). */
  function Cut(block: seq<Byte>, pos: nat, len: nat): (r: seq<Byte>)
    requires pos + len <= |block|
  {
    block[pos..pos + len]
  }

  /** `block` after `memcpy(block + pos, bytes, |bytes|)`. */
  function Splice(block: seq<Byte>, pos: nat, bytes: seq<Byte>): (r: seq<Byte>)
    requires pos + |bytes| <= |block|
    ensures |r| == |block|
  {
    block[..pos] + bytes + block[pos + |bytes|..]
  }

  lemma SpliceHit(block: seq<Byte>, pos: nat, bytes: seq<Byte>)
    requires pos + |bytes| <= |block|
    ensures Cut(Splice(block, pos, bytes), pos, |bytes|) == bytes
  {
  }

  lemma SpliceMiss(block: seq<Byte>, pos: nat, bytes: seq<Byte>, p: nat, len: nat)
    requires pos + |bytes| <= |block|
    requires p + len <= |block|
    requires p + len <= pos || pos + |bytes| <= p
    ensures Cut(Splice(block, pos, bytes), p, len) == Cut(block, p, len)
  {
  }
}
