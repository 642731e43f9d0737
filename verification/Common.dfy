/** Shared vocabulary: bytes, optional values, results, and the chunk grid laid over a blob. */
module Common {

  type byte = b: int | 0 <= b < 256

  datatype Option<+T> = None | Some(value: T)

  datatype Result<+T> = Ok(value: T) | Err

  function Min(x: int, y: int): int { if x < y then x else y }

  function Max(x: int, y: int): int { if x > y then x else y }

  /** `n` zero bytes: a freshly allocated buffer, or the hole a write beyond the end leaves. */
  function Zeros(n: nat): (z: seq<byte>)
    ensures |z| == n
    ensures forall k :: 0 <= k < n ==> z[k] == 0
  {
    seq(n, _ => 0)
  }

  /** The chunk of `blob` that starts at `off`, on a grid of `block` bytes. */
  function Chunk(blob: seq<byte>, off: nat, block: int): seq<byte>
    requires block > 0 && off <= |blob|
  {
    blob[off..Min(off + block, |blob|)]
  }

  /** Writing at a position beyond the end leaves a hole of zeros. */
  function WriteAt(content: seq<byte>, pos: nat, buf: seq<byte>): seq<byte> {
    if buf == [] then content
    else
      (if pos <= |content| then content[..pos] else content + Zeros(pos - |content|))
      + buf
      + (if pos + |buf| <= |content| then content[pos + |buf|..] else [])
  }
}
