/** Whole runs over a file: draining it with bounded reads, as serving a range does, and arbitrary
    sequences of seeks and reads against a seekable stream over the blob. Before every read, any entries
    of the cache and any sizes may have been lost. */
module Streams {
  import opened Common
  import opened Items
  import opened FileCaches
  import opened FileViews
  import Segments
  import Routing

  /** What the world does: the answers to turn `i` about the chunk around an offset, and what the
      cache has lost by then. */
  datatype World = World(answer: (nat, int) -> Env, lost: nat -> (seq<ChunkId>, seq<string>))

  ghost predicate FairWorld(f: File, w: World)
    requires f.name in f.cache.blobs && f.cache.block > 0
  {
    forall i: nat, off: int :: 0 <= off <= |f.Blob()| ==> f.Fair(w.answer(i, off), off)
  }

  /** A world in which nothing fails. */
  ghost predicate WorkingWorld(f: File, w: World)
    requires f.name in f.cache.blobs && f.cache.block > 0
  {
    f.chunkOffset == 0 && forall i: nat, off: int :: 0 <= off <= |f.Blob()| ==> f.Works(w.answer(i, off), off)
  }

  /** One turn: losses, then a read. */
  method ReadAfterLosses(f: File, p: array<byte>, router: Routing.Router, w: World, turn: nat)
      returns (n: int, err: ReadError)
    requires f.Valid() && 0 <= f.cur <= |f.Blob()| && FairWorld(f, w)
    modifies f, f.cache, f.cache.metadata, f.cache.repr, router, p
    ensures f.Valid() && fresh(f.cache.repr - old(f.cache.repr))
    ensures err == NoError || err == EOF ==> Delivered(f.Blob(), f.cache.block, old(f.cur), old(p[..]), p[..], n, err)
    ensures f.cur == if err == NoError then old(f.cur) + n else old(f.cur)
    ensures WorkingWorld(f, w) && !old(f.statLocked) ==> (err == NoError || err == EOF) && !f.statLocked
    ensures err != NoStat && err != NeverReturns ==> f.size == |f.Blob()|
  {
    var (evicted, forgotten) := w.lost(turn);
    f.cache.Churn(evicted, forgotten);
    assert f.Valid();
    n, err := f.Read(p, router, w.answer(turn, f.cur));
  }

  // ---------------------------------------------------------------- the stream

  datatype Op = SeekTo(offset: int, whence: Whence) | ReadBytes(len: nat)

  datatype Seen = SeenSeek(pos: int) | SeenRead(bytes: seq<byte>, err: ReadError)

  /** Bytes of `blob` from the cursor on, at least one if there is one and it was asked for. */
  ghost predicate Brings(blob: seq<byte>, cur: int, len: nat, bytes: seq<byte>) {
    && |bytes| <= len && 0 <= cur && cur + |bytes| <= |blob| && bytes == blob[cur..cur + |bytes|]
    && (cur < |blob| && len > 0 ==> bytes != [])
  }

  /** The read brought bytes, or the end of the file, and no other error. */
  predicate Delivers(seen: Seen) { seen.SeenRead? && (seen.err == NoError || seen.err == EOF) }

  /** A seekable stream over `blob`, as io.Reader and io.Seeker have it: seeks go where they say, the
      cursor moves by what was read, and the end is reported at the end only, and there always. */
  ghost predicate StreamStep(blob: seq<byte>, cur: int, op: Op, seen: Seen, cur': int) {
    match op
    case SeekTo(offset, whence) =>
      && cur' == (match whence case Start => offset case Current => cur + offset case End => |blob| + offset)
      && seen == SeenSeek(cur')
    case ReadBytes(len) =>
      && seen.SeenRead?
      && if Delivers(seen) then
           && Brings(blob, cur, len, seen.bytes) && cur' == cur + |seen.bytes|
           && (seen.err == EOF ==> cur' == |blob|) && (cur == |blob| && len > 0 ==> seen.err == EOF)
         else seen.bytes == [] && cur' == cur
  }

  /** What the file does: a seek from the end goes to the end; a read whose buffer reaches past the end
      of the file reports it, whatever it brought, and leaves the cursor where it is. */
  ghost predicate FileStep(blob: seq<byte>, cur: int, op: Op, seen: Seen, cur': int) {
    match op
    case SeekTo(offset, whence) =>
      && cur' == (match whence case Start => offset case Current => cur + offset case End => |blob|)
      && seen == SeenSeek(cur')
    case ReadBytes(len) =>
      && seen.SeenRead?
      && if Delivers(seen) then
           && Brings(blob, cur, len, seen.bytes) && (seen.err == EOF <==> cur + len > |blob|)
           && cur' == if seen.err == NoError then cur + |seen.bytes| else cur
         else seen.bytes == [] && cur' == cur
  }

  /** One read of a fresh buffer is one step of the file. */
  method ReadOnce(f: File, len: nat, router: Routing.Router, w: World, turn: nat) returns (s: Seen)
    requires f.Valid() && 0 <= f.cur <= |f.Blob()| && FairWorld(f, w)
    modifies f, f.cache, f.cache.metadata, f.cache.repr, router
    ensures f.Valid() && fresh(f.cache.repr - old(f.cache.repr))
    ensures s.SeenRead? && FileStep(f.Blob(), old(f.cur), ReadBytes(len), s, f.cur)
    ensures WorkingWorld(f, w) && !old(f.statLocked) ==> s.err in {NoError, EOF} && !f.statLocked
    ensures s.err != NoStat && s.err != NeverReturns ==> f.size == |f.Blob()|
  {
    var p := new byte[len](_ => 0);
    ghost var before, at := p[..], f.cur;
    var n, err := ReadAfterLosses(f, p, router, w, turn);
    if err == NoError || err == EOF {
      DeliveryProgress(f.Blob(), f.cache.block, at, before, p[..], n, err);
      assert p[..n] == f.Blob()[at..at + n];
      s := SeenRead(p[..n], err);
    } else {
      s := SeenRead([], err);
    }
  }

  /** io.CopyN over the file, as serving a range does: reads no longer than what remains, until `len`
      bytes are out. Whatever happens, what is out is the blob from the start, every turn that does not
      end the copy adds at least a byte, the end of the file is never reported, and the copy is
      complete exactly when no read failed. */
  method Drain(f: File, len: nat, bufSize: nat, router: Routing.Router, w: World)
      returns (out: seq<byte>, err: ReadError, turns: nat)
    requires f.Valid() && 0 <= f.cur && f.cur + len <= |f.Blob()| && bufSize > 0 && FairWorld(f, w)
    modifies f, f.cache, f.cache.metadata, f.cache.repr, router
    ensures f.Valid() && f.cur == old(f.cur) + |out| && |out| <= len
    ensures out == f.Blob()[old(f.cur)..old(f.cur) + |out|]
    ensures err == NoError <==> |out| == len
    ensures err != EOF
    ensures turns <= |out| + 1 && (err == NoError ==> turns <= len)
    ensures WorkingWorld(f, w) && !old(f.statLocked) ==> err == NoError
  {
    out, err, turns := [], NoError, 0;
    while |out| < len
      invariant f.Valid() && fresh(f.cache.repr - old(f.cache.repr))
      invariant |out| <= len && f.cur == old(f.cur) + |out| && turns <= |out|
      invariant out == f.Blob()[old(f.cur)..old(f.cur) + |out|]
      invariant WorkingWorld(f, w) && !old(f.statLocked) ==> !f.statLocked
      decreases len - |out|
    {
      var s := ReadOnce(f, Min(bufSize, len - |out|), router, w, turns);
      turns := turns + 1;
      if s.err != NoError {
        err := s.err;
        return;
      }
      out := out + s.bytes;
    }
  }

  ghost predicate StreamRun(blob: seq<byte>, curs: seq<int>, ops: seq<Op>, seen: seq<Seen>) {
    && |seen| <= |ops| && |curs| == |seen| + 1
    && forall i :: 0 <= i < |seen| ==> StreamStep(blob, curs[i], ops[i], seen[i], curs[i + 1])
  }

  ghost predicate FileRun(blob: seq<byte>, curs: seq<int>, ops: seq<Op>, seen: seq<Seen>) {
    && |seen| <= |ops| && |curs| == |seen| + 1
    && forall i :: 0 <= i < |seen| ==> FileStep(blob, curs[i], ops[i], seen[i], curs[i + 1])
  }

  lemma FileRunGrows(blob: seq<byte>, curs: seq<int>, ops: seq<Op>, seen: seq<Seen>, s: Seen, c: int)
    requires FileRun(blob, curs, ops, seen) && |seen| < |ops|
    requires FileStep(blob, curs[|seen|], ops[|seen|], s, c)
    ensures FileRun(blob, curs + [c], ops, seen + [s])
  {
  }

  /** Operation `i` is one in which file and stream agree: no seek from the end by an offset, and no
      read that brings something and whose buffer reaches past the end of the file. */
  ghost predicate Agrees(blob: seq<byte>, cur: int, op: Op, seen: Seen) {
    match op
    case SeekTo(offset, whence) => whence == End ==> offset == 0
    case ReadBytes(len) => Delivers(seen) ==> cur == |blob| || cur + len <= |blob|
  }

  ghost predicate AllAgree(blob: seq<byte>, curs: seq<int>, ops: seq<Op>, seen: seq<Seen>)
    requires |seen| <= |ops| && |curs| == |seen| + 1
  {
    forall i :: 0 <= i < |seen| ==> Agrees(blob, curs[i], ops[i], seen[i])
  }

  lemma StepRefinesExactly(blob: seq<byte>, cur: int, op: Op, seen: Seen, cur': int)
    requires FileStep(blob, cur, op, seen, cur')
    ensures StreamStep(blob, cur, op, seen, cur') <==> Agrees(blob, cur, op, seen)
  {
  }

  /** What a file does is what a stream does if and only if no seek from the end has an offset, and every
      read that brings something starts at the end or fits in what remains. */
  lemma RefinesExactly(blob: seq<byte>, curs: seq<int>, ops: seq<Op>, seen: seq<Seen>)
    requires FileRun(blob, curs, ops, seen)
    ensures StreamRun(blob, curs, ops, seen) <==> AllAgree(blob, curs, ops, seen)
  {
    if StreamRun(blob, curs, ops, seen) {
      forall i | 0 <= i < |seen| ensures Agrees(blob, curs[i], ops[i], seen[i]) {
        assert StreamStep(blob, curs[i], ops[i], seen[i], curs[i + 1]);
        StepRefinesExactly(blob, curs[i], ops[i], seen[i], curs[i + 1]);
      }
    }
    if AllAgree(blob, curs, ops, seen) {
      forall i | 0 <= i < |seen| ensures StreamStep(blob, curs[i], ops[i], seen[i], curs[i + 1]) {
        assert Agrees(blob, curs[i], ops[i], seen[i]);
        StepRefinesExactly(blob, curs[i], ops[i], seen[i], curs[i + 1]);
      }
    }
  }

  lemma NotTwice(a: int, b: int, c: int)
    ensures var op, seen := ReadBytes(2), SeenRead([7], EOF);
            !(StreamStep([7], a, op, seen, b) && StreamStep([7], b, op, seen, c))
  {
  }

  /** A file of one byte read twice with room for two: the byte and the end, both times. No stream, from
      wherever it starts, shows that. */
  lemma EndTwice()
    ensures var ops := [ReadBytes(2), ReadBytes(2)];
            var seen := [SeenRead([7], EOF), SeenRead([7], EOF)];
            FileRun([7], [0, 0, 0], ops, seen) && forall curs :: !StreamRun([7], curs, ops, seen)
  {
    var blob: seq<byte> := [7];
    var ops, seen := [ReadBytes(2), ReadBytes(2)], [SeenRead([7], EOF), SeenRead([7], EOF)];
    assert blob[0..1] == [7];
    forall curs ensures !StreamRun(blob, curs, ops, seen) {
      if |curs| == 3 { NotTwice(curs[0], curs[1], curs[2]); }
    }
  }

  /** The file performs any sequence of seeks and reads, for as long as the reads start inside the file
      and their stats succeed; and it does so as the stream does if and only if the operations are ones
      in which the two agree. */
  method Perform(f: File, ops: seq<Op>, router: Routing.Router, w: World)
      returns (seen: seq<Seen>, ghost curs: seq<int>)
    requires f.Valid() && f.size == |f.Blob()| && FairWorld(f, w)
    modifies f, f.cache, f.cache.metadata, f.cache.repr, router
    ensures f.Valid() && FileRun(f.Blob(), curs, ops, seen)
    ensures StreamRun(f.Blob(), curs, ops, seen) <==> AllAgree(f.Blob(), curs, ops, seen)
    ensures curs[0] == old(f.cur) && curs[|seen|] == f.cur
    ensures |seen| < |ops| ==>
              || (ops[|seen|].ReadBytes? && !(0 <= f.cur <= |f.Blob()|))
              || (|seen| > 0 && seen[|seen| - 1].SeenRead? && seen[|seen| - 1].err in {NoStat, NeverReturns})
  {
    seen, curs := [], [f.cur];
    while |seen| < |ops|
      invariant f.Valid() && fresh(f.cache.repr - old(f.cache.repr)) && f.size == |f.Blob()|
      invariant FileRun(f.Blob(), curs, ops, seen) && curs[0] == old(f.cur) && curs[|seen|] == f.cur
      decreases |ops| - |seen|
    {
      match ops[|seen|] {
        case SeekTo(offset, whence) =>
          var pos := f.Seek(offset, whence);
          FileRunGrows(f.Blob(), curs, ops, seen, SeenSeek(pos), f.cur);
          seen, curs := seen + [SeenSeek(pos)], curs + [f.cur];
        case ReadBytes(len) =>
          if !(0 <= f.cur <= f.size) {
            break;
          }
          var s := ReadOnce(f, len, router, w, |seen|);
          FileRunGrows(f.Blob(), curs, ops, seen, s, f.cur);
          seen, curs := seen + [s], curs + [f.cur];
          if s.err == NoStat || s.err == NeverReturns {
            break;
          }
      }
    }
    RefinesExactly(f.Blob(), curs, ops, seen);
  }

  // ---------------------------------------------------------------- consequences for readers

  function Concat(seen: seq<Seen>): seq<byte> {
    if seen == [] then []
    else Concat(seen[..|seen| - 1]) + (if seen[|seen| - 1].SeenRead? then seen[|seen| - 1].bytes else [])
  }

  /** Reads that all succeed, one after the other and of any lengths, add up to the blob between the
      first and the last cursor, whatever chunk boundaries lie between. */
  lemma {:induction false} ReadsConcatenate(blob: seq<byte>, curs: seq<int>, ops: seq<Op>, seen: seq<Seen>)
    requires FileRun(blob, curs, ops, seen) && 0 <= curs[0] <= |blob|
    requires forall i :: 0 <= i < |seen| ==> ops[i].ReadBytes? && seen[i].SeenRead? && seen[i].err == NoError
    ensures curs[0] <= curs[|seen|] <= |blob| && Concat(seen) == blob[curs[0]..curs[|seen|]]
    decreases |seen|
  {
    if seen != [] {
      var m := |seen| - 1;
      var curs', seen' := curs[..m + 1], seen[..m];
      ReadsConcatenate(blob, curs', ops, seen');
      assert FileStep(blob, curs[m], ops[m], seen[m], curs[m + 1]);
      ReadBrings(blob, curs[m], ops[m].len, seen[m], curs[m + 1]);
      Adjacent(blob, curs[0], curs[m], curs[m + 1]);
    }
  }

  lemma ReadBrings(blob: seq<byte>, cur: int, len: nat, seen: Seen, cur': int)
    requires FileStep(blob, cur, ReadBytes(len), seen, cur') && seen.err == NoError
    ensures 0 <= cur <= cur' <= |blob| && seen.bytes == blob[cur..cur']
  {
  }

  lemma Adjacent(blob: seq<byte>, a: nat, b: nat, c: nat)
    requires a <= b <= c <= |blob|
    ensures blob[a..b] + blob[b..c] == blob[a..c]
  {
  }

  /** A read that reports the end of the file has delivered everything up to it if and only if the file
      ends in the chunk it read. A reader that takes the report at its word loses the chunks after it. */
  lemma EndIsTheEnd(blob: seq<byte>, block: int, offset: nat, before: seq<byte>, after: seq<byte>, n: int)
    requires block > 0 && Delivered(blob, block, offset, before, after, n, EOF)
    ensures offset + n == |blob| <==> |blob| <= Segments.AlignDown(offset, block) + block
  {
    Segments.AlignDownBlock(offset, block);
  }

  /** Two one-byte chunks and a buffer of three: one byte, and the end of the file. */
  lemma EndTooSoon()
    ensures Delivered([7, 8], 1, 0, [0, 0, 0], [7, 0, 0], 1, EOF)
  {
  }
}
