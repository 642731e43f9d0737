/** pkg/cache/item.go: one cached chunk, an open file whose handle keeps its own position. */
module Items {
  import opened Common

  /** Byte by byte: the buffer where it was written, what was there elsewhere, zeros in a hole. */
  lemma WriteAtExactly(content: seq<byte>, pos: nat, buf: seq<byte>, k: nat)
    requires buf != []
    ensures |WriteAt(content, pos, buf)| == Max(|content|, pos + |buf|)
    ensures k < |WriteAt(content, pos, buf)| ==>
              WriteAt(content, pos, buf)[k] ==
              if pos <= k < pos + |buf| then buf[k - pos] else if k < |content| then content[k] else 0
  {
  }

  /** Writing a buffer over a truncated file without rewinding leaves that buffer exactly when the
      handle stood at the start; from anywhere else the file does not even have the right length, so
      a later length check cannot take it for the chunk. */
  lemma RewriteExactly(pos: nat, buf: seq<byte>)
    requires buf != []
    ensures WriteAt([], pos, buf) == buf <==> pos == 0
    ensures |WriteAt([], pos, buf)| == |buf| <==> pos == 0
  {
  }

  /** That needs writes to be all or nothing: two writes cut short can make up the right length with
      the wrong bytes. */
  lemma PartialWritesMislead(chunk: seq<byte>, k: nat)
    requires 0 < k < |chunk| && chunk[0] != 0
    ensures |WriteAt([], k, chunk[..|chunk| - k])| == |chunk|
    ensures WriteAt([], k, chunk[..|chunk| - k]) != chunk
  {
  }

  datatype ChunkId = ChunkId(name: string, off: int)

  class Item {
    const key: ChunkId
    var open: bool
    var linked: bool   // the path still leads to the file
    var content: seq<byte>
    var pos: nat

    /** Unfilled at the start of a file that is not mistaken for the chunk, or filled with it. */
    ghost predicate Good(chunk: seq<byte>)
      reads this
    {
      && open
      && ((pos == 0 && (|content| == |chunk| ==> content == chunk)) || (pos == |chunk| && content == chunk))
    }

    /** newItem: opens or creates the file, without truncating what is there. */
    constructor (key: ChunkId, existing: seq<byte>)
      ensures this.key == key && open && linked && content == existing && pos == 0
    {
      this.key, open, linked, content, pos := key, true, true, existing, 0;
    }

    /** A write that fails takes the path away, but not a truncation that fails. */
    method WriteAll(buff: seq<byte>, truncates: bool, writes: bool) returns (r: Result<nat>)
      requires open
      modifies this
      ensures open
      ensures truncates && writes ==>
                r == Ok(|buff|) && content == WriteAt([], old(pos), buff) && pos == old(pos) + |buff|
      ensures !(truncates && writes) ==>
                r == Err && pos == old(pos) && content == if truncates then [] else old(content)
      ensures linked == (old(linked) && (truncates ==> writes))
    {
      if !truncates {
        return Err;
      }
      content := [];
      if !writes {
        linked := false;
        return Err;
      }
      content, pos := WriteAt(content, pos, buff), pos + |buff|;
      return Ok(|buff|);
    }

    /** os.File.ReadAt: fills the rest of the buffer, or stops early with an error. */
    method ReadAt(buf: array<byte>, from: nat, fault: Option<nat>) returns (l: nat, failed: bool)
      requires from <= buf.Length
      modifies buf
      ensures l == Min(Max(Min(buf.Length, |content|) - from, 0), if fault.Some? then fault.value else buf.Length)
      ensures failed <==> fault.Some? || l < buf.Length - from
      ensures forall k :: from <= k < from + l ==> buf[k] == content[k]
      ensures forall k :: 0 <= k < from ==> buf[k] == old(buf[k])
    {
      l := Min(Max(Min(buf.Length, |content|) - from, 0), if fault.Some? then fault.value else buf.Length);
      var n := 0;
      while n < l
        invariant n <= l
        invariant forall k :: from <= k < from + n ==> buf[k] == content[k]
        invariant forall k :: 0 <= k < from ==> buf[k] == old(buf[k])
      {
        buf[from + n] := content[from + n];
        n := n + 1;
      }
      failed := fault.Some? || l < buf.Length - from;
    }

    /** readFromStart, and the nil that bytes makes of its errors. */
    method Bytes(fault: Option<nat>) returns (b: seq<byte>)
      requires open
      ensures b == if fault.None? || content == [] then content else []
    {
      var fileSize := |content|;
      var fileContent := new byte[fileSize];
      var offset, failed := 0, false;
      while offset < fileSize && !failed
        invariant offset <= fileSize && (offset < fileSize && fault.None? ==> !failed)
        invariant forall k :: 0 <= k < offset ==> fileContent[k] == content[k]
        invariant failed ==> fault.Some?
        invariant fault.Some? && offset > 0 ==> failed
        decreases fileSize - offset, !failed
      {
        var l;
        l, failed := ReadAt(fileContent, offset, fault);
        offset := offset + l;
      }
      if failed || offset != fileSize {
        return [];
      }
      return fileContent[..offset];
    }

    /** The path goes with the handle; what the handle held stays for those who have it in hand. */
    method Drop()
      requires open
      modifies this
      ensures !open && !linked && content == old(content) && pos == old(pos)
    {
      open, linked := false, false;
    }
  }
}
