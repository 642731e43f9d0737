/** pkg/files/store/file.go: a file read chunk by chunk through the cache. Against one byte sequence,
    the blob, it is a seekable stream. */
module FileViews {
  import opened Common
  import opened Items
  import opened FileCaches
  import opened Keys
  import opened Text
  import Int64
  import Segments
  import Routing

  datatype Stat = Size(n: int) | StatFailed | Blocked

  datatype ReadError = NoError | EOF | OnlySingleChunk | NoStat | NoData | NeverReturns

  datatype Whence = Start | Current | End

  /** How the world answers one read: the stat, the disk, the peers and the origin. */
  datatype Env = Env(stat: Option<StatResponse>, disk: Disk, net: Net)

  /** A stat response that says what it should: the length of a 200, or the complete length of a 206
      (section 14.4 of RFC 9110). Other statuses say nothing. */
  predicate Declares(r: StatResponse, size: nat) {
    && (r.status == 200 ==> r.contentLength == size)
    && (r.status == 206 ==> r.contentRange == ContentRange(0, 0, Decimal(size)))
  }

  lemma DeclaredSize(r: StatResponse, size: nat)
    requires Declares(r, size) && Int64.Is(size)
    ensures FstatSize(r) == if r.status == 200 || r.status == 206 then Ok(size) else Err
  {
    if r.status == 206 {
      ContentRangeSize(0, 0, size, r.contentLength);
      assert r == StatResponse(206, r.contentLength, ContentRange(0, 0, Decimal(size)));
    }
  }

  /** What a read at `offset` of a file of `size` bytes asks the cache for. */
  function ReadCount(size: nat, offset: nat, block: int): int
    requires block > 0
  {
    Min(block, size - Segments.AlignDown(offset, block))
  }

  /** That is the length of the chunk, for every offset in it. */
  lemma ReadCountIsChunk(blob: seq<byte>, offset: nat, block: int)
    requires block > 0 && offset <= |blob|
    ensures var a := Segments.AlignDown(offset, block);
            && 0 <= a <= offset && a % block == 0
            && ReadCount(|blob|, offset, block) == |Chunk(blob, a, block)|
            && offset - a <= |Chunk(blob, a, block)|
            && (offset < |blob| ==> offset - a < |Chunk(blob, a, block)|)
  {
    Segments.AlignDownBlock(offset, block);
  }

  function OrZero(o: Option<int>): int { if o.Some? then o.value else 0 }

  /** A read of a buffer at `offset` that brought `n` bytes: up to the end of the chunk or of the
      buffer, straight from the blob, the rest of the buffer as it was. It reports the end of the file
      when the buffer reaches past it, even if only an earlier chunk was delivered. */
  ghost predicate Delivered(blob: seq<byte>, block: int, offset: nat, before: seq<byte>, after: seq<byte>, n: int,
                            err: ReadError)
    requires block > 0
  {
    && offset <= |blob|
    && n == Min(|before|, Segments.AlignDown(offset, block) + ReadCount(|blob|, offset, block) - offset)
    && 0 <= n <= |before| && offset + n <= |blob|
    && after == blob[offset..offset + n] + before[n..]
    && err == if offset + |before| > |blob| then EOF else NoError
  }

  lemma PieceOfChunk(blob: seq<byte>, a: nat, offset: nat, block: int, n: nat)
    requires block > 0 && a <= offset <= |blob| && offset - a + n <= |Chunk(blob, a, block)|
    ensures offset + n <= |blob| && Chunk(blob, a, block)[offset - a..offset - a + n] == blob[offset..offset + n]
  {
  }

  /** Whether Go's `make`, `buff[:ret]` and `data[pos:pos+ret]` of a read at `offset` are in range, for
      `data` of the length that was asked for. */
  predicate Survives(size: nat, offset: int, block: int, len: nat)
    requires block > 0
  {
    var aligned := Segments.AlignDown(offset, block);
    var count := Min(block, size - aligned);
    var pos := offset - aligned;
    var ret := Min(len, count - pos);
    0 <= count && 0 <= ret <= len && 0 <= pos && pos + ret <= count
  }

  /** ReadAt checks no offset. It survives exactly the offsets in the file or at its end, and the
      negative ones that are aligned, for which it asks peers and origin for a range before the start. */
  lemma SurvivesExactly(size: nat, offset: int, block: int, len: nat)
    requires block > 0
    ensures Survives(size, offset, block, len) <==> 0 <= offset <= size || (offset < 0 && offset % block == 0)
  {
    Segments.AlignDownGoesDown(offset, block);
    if offset >= 0 {
      Segments.AlignDownBlock(offset, block);
    } else {
      Segments.AlignDownNegative(offset, block);
    }
  }

  /** Lines 135-141: the part of the chunk that lies in the buffer. */
  method Deliver(buff: array<byte>, data: seq<byte>, offset: nat, alignedOffset: nat, fileSize: int,
                 ghost blob: seq<byte>, ghost block: int)
      returns (n: int, err: ReadError)
    requires block > 0 && offset <= |blob| && fileSize == |blob|
    requires alignedOffset == Segments.AlignDown(offset, block) && alignedOffset <= offset
    requires data == Chunk(blob, alignedOffset, block)
    modifies buff
    ensures Delivered(blob, block, offset, old(buff[..]), buff[..], n, err)
  {
    ReadCountIsChunk(blob, offset, block);
    var pos := offset - alignedOffset;
    n := Min(buff.Length, |data| - pos);
    PieceOfChunk(blob, alignedOffset, offset, block, n);
    Copy(buff, data, pos, n);
    err := if offset + buff.Length > fileSize then EOF else NoError;
  }

  /** A read inside the file makes progress. */
  lemma DeliveryProgress(blob: seq<byte>, block: int, offset: nat, before: seq<byte>, after: seq<byte>, n: int,
                         err: ReadError)
    requires block > 0 && Delivered(blob, block, offset, before, after, n, err)
    ensures before != [] && offset < |blob| ==> n > 0
    ensures err == NoError && before != [] ==> n > 0
  {
    Segments.AlignDownBlock(offset, block);
  }

  class File {
    const name: string
    const chunkOffset: int   // zero: no restriction
    const asker: Asker
    const cache: FileCache
    var cur: int
    var size: int
    var statLocked: bool

    ghost predicate Valid()
      reads this, cache, cache.metadata, cache.repr
    {
      cache.Valid() && name in cache.blobs && Int64.Is(|cache.blobs[name]|)
    }

    ghost function Blob(): seq<byte>
      requires name in cache.blobs
    {
      cache.blobs[name]
    }

    ghost function Aligned(offset: int): ChunkId
      requires cache.block > 0
    {
      ChunkId(name, Segments.AlignDown(offset, cache.block))
    }

    /** The world is sound for the chunk around `offset`. */
    ghost predicate Fair(env: Env, offset: int)
      requires name in cache.blobs && cache.block > 0 && 0 <= offset <= |Blob()|
    {
      ReadCountIsChunk(Blob(), offset, cache.block);
      var want := Chunk(Blob(), Segments.AlignDown(offset, cache.block), cache.block);
      && (env.stat.Some? ==> Declares(env.stat.value, |Blob()|))
      && (|env.disk.leftover| == |want| ==> env.disk.leftover == want)
      && Sound(env.net, want)
    }

    /** Nothing fails in this world, and the stat, if one is needed, answers. */
    ghost predicate Works(env: Env, offset: int)
      requires name in cache.blobs && cache.block > 0 && 0 <= offset
    {
      && env.stat.Some? && FstatSize(env.stat.value).Ok?
      && ReadCount(|Blob()|, offset, cache.block) >= 0
      && Working(env.disk, env.net, ReadCount(|Blob()|, offset, cache.block))
    }

    /** The file may be read at `offset`: a file opened for one chunk refuses the others. */
    ghost predicate Open(offset: int)
      requires cache.block > 0
    {
      chunkOffset == 0 || Aligned(offset).off == chunkOffset
    }

    constructor (name: string, chunkOffset: int, asker: Asker, cache: FileCache)
      ensures this.name == name && this.chunkOffset == chunkOffset && this.asker == asker && this.cache == cache
      ensures cur == 0 && size == 0 && !statLocked
    {
      this.name, this.chunkOffset, this.asker, this.cache := name, chunkOffset, asker, cache;
      cur, size, statLocked := 0, 0, false;
    }

    /** A stat comes to a size: the metadata has it, or the origin can be asked and says it. */
    ghost predicate Stats(stat: Option<StatResponse>)
      reads this, cache, cache.metadata
    {
      Meta(name) in cache.metadata.entries || (!statLocked && stat.Some? && FstatSize(stat.value).Ok?)
    }

    /** Sets the cursor; from the end, the offset is ignored. */
    method Seek(offset: int, whence: Whence) returns (pos: int)
      modifies this`cur
      ensures pos == cur
      ensures cur == match whence case Start => offset case Current => old(cur) + offset case End => size
    {
      match whence {
        case Current => cur := cur + offset;
        case Start => cur := offset;
        case End => cur := size;
      }
      return cur;
    }

    /** The size comes from the metadata or from the origin, and either way is the blob's. A failed
        stat returns with the lock held; after that, a stat that misses the metadata never returns. */
    method Fstat(stat: Option<StatResponse>) returns (r: Stat)
      requires Valid() && (stat.Some? ==> Declares(stat.value, |Blob()|))
      modifies this`size, this`statLocked, cache.metadata
      ensures Valid()
      ensures var hit := Meta(name) in old(cache.metadata.entries);
              && (r.Size? <==> old(Stats(stat)))
              && (r.Blocked? <==> !hit && old(statLocked))
              && (hit ==> cache.metadata.entries == old(cache.metadata.entries))
      ensures r.Size? ==>
                && r.n == |Blob()| && size == |Blob()| && statLocked == old(statLocked)
                && Meta(name) in cache.metadata.entries
      ensures r.StatFailed? || r.Blocked? ==> statLocked && Meta(name) !in cache.metadata.entries
    {
      var hit := cache.Size(name);
      size := OrZero(hit);
      if hit.None? {
        if statLocked {
          return Blocked;
        }
        statLocked := true;
        hit := cache.Size(name);
        size := OrZero(hit);
        if hit.None? {
          if stat.None? || FstatSize(stat.value).Err? {
            size := 0;
            return StatFailed;
          }
          DeclaredSize(stat.value, |Blob()|);
          size := FstatSize(stat.value).value;
          cache.PutSize(name, size);
        }
        statLocked := false;
      }
      return Size(size);
    }

    /** The chunk around `offset` is cached, or can be. */
    ghost predicate There(offset: int, env: Env)
      requires cache.block > 0
      reads cache
    {
      Aligned(offset) in cache.entries || (env.disk.makes && env.disk.opens && env.disk.inserts)
    }

    /** The read succeeds as the cache's call for the chunk around `offset` does. */
    ghost predicate ReadComes(offset: int, env: Env, there: bool, was: seq<byte>, before: map<string, int>,
                              after: map<string, int>, ok: bool)
      requires name in cache.blobs && cache.block > 0 && 0 <= offset <= |Blob()|
    {
      ReadCountIsChunk(Blob(), offset, cache.block);
      var want := Chunk(Blob(), Segments.AlignDown(offset, cache.block), cache.block);
      Comes(was, want, there, env.disk, asker, env.net, before, after, if ok then Ok(want) else Err)
    }

    method ReadAt(buff: array<byte>, offset: int, router: Routing.Router, env: Env) returns (n: int, err: ReadError)
      requires Valid() && 0 <= offset <= |Blob()| && Fair(env, offset)
      modifies this`size, this`statLocked, cache, cache.metadata, cache.repr, router, buff
      ensures Valid() && fresh(cache.repr - old(cache.repr))
      ensures err == NoError || err == EOF ==> Delivered(Blob(), cache.block, offset, old(buff[..]), buff[..], n, err)
      ensures err != NoError && err != EOF ==> n <= 0 && buff[..] == old(buff[..])
      ensures err in {NoStat, NeverReturns} <==> !old(Stats(env.stat))
      ensures err == OnlySingleChunk <==> old(Stats(env.stat)) && !Open(offset)
      ensures old(Stats(env.stat)) && Open(offset) ==>
                ReadComes(offset, env, old(There(offset, env)), old(cache.Was(Aligned(offset), env.disk)),
                          old(router.lookupCache), router.lookupCache, err == NoError || err == EOF)
      ensures Open(offset) && !old(statLocked) && Works(env, offset) ==> (err == NoError || err == EOF) && !statLocked
      ensures err != NoStat && err != NeverReturns ==> size == |Blob()|
      ensures Remembers(asker, old(router.lookupCache), router.lookupCache)
    {
      var stat := Fstat(env.stat);
      if stat.Blocked? {
        return 0, NeverReturns;
      }
      if stat.StatFailed? {
        return 0, NoStat;
      }
      var fileSize := stat.n;
      var alignedOffset := Segments.AlignDown(offset, cache.block);
      ReadCountIsChunk(Blob(), offset, cache.block);
      if chunkOffset != 0 && alignedOffset != chunkOffset {
        return -1, OnlySingleChunk;
      }
      var data := ReadChunk(offset, alignedOffset, fileSize, router, env);
      if data.Err? {
        return 0, NoData;
      }
      n, err := Deliver(buff, data.value, offset, alignedOffset, fileSize, Blob(), cache.block);
    }

    /** Lines 125-133. */
    method ReadChunk(ghost offset: int, alignedOffset: int, fileSize: int, router: Routing.Router, env: Env)
        returns (data: Result<seq<byte>>)
      requires Valid() && 0 <= offset <= |Blob()| && Fair(env, offset) && fileSize == |Blob()|
      requires alignedOffset == Segments.AlignDown(offset, cache.block)
      modifies cache, cache.repr, router
      ensures Valid() && fresh(cache.repr - old(cache.repr))
      ensures data.Ok? ==> 0 <= alignedOffset <= |Blob()| && data.value == Chunk(Blob(), alignedOffset, cache.block)
      ensures ReadComes(offset, env, old(There(offset, env)), old(cache.Was(Aligned(offset), env.disk)),
                        old(router.lookupCache), router.lookupCache, data.Ok?)
    {
      ReadCountIsChunk(Blob(), offset, cache.block);
      var count := Min(cache.block, fileSize - alignedOffset);
      data := cache.GetOrCreate(ChunkId(name, alignedOffset), count, env.disk, router, asker, env.net);
    }

    /** Moves the cursor by what was read, on success only. */
    method Read(p: array<byte>, router: Routing.Router, env: Env) returns (n: int, err: ReadError)
      requires Valid() && 0 <= cur <= |Blob()| && Fair(env, cur)
      modifies this, cache, cache.metadata, cache.repr, router, p
      ensures Valid() && fresh(cache.repr - old(cache.repr))
      ensures err == NoError || err == EOF ==> Delivered(Blob(), cache.block, old(cur), old(p[..]), p[..], n, err)
      ensures cur == if err == NoError then old(cur) + n else old(cur)
      ensures err != NoError && err != EOF ==> n <= 0
      ensures Open(old(cur)) && !old(statLocked) && Works(env, old(cur)) ==>
                (err == NoError || err == EOF) && !statLocked
      ensures err != NoStat && err != NeverReturns ==> size == |Blob()|
      ensures Remembers(asker, old(router.lookupCache), router.lookupCache)
    {
      n, err := ReadAt(p, cur, router, env);
      if err == NoError {
        cur := cur + n;
      }
    }
  }

  /** copy(buff[:n], data[pos:pos+n]). */
  method Copy(buff: array<byte>, data: seq<byte>, pos: nat, n: nat)
    requires n <= buff.Length && pos + n <= |data|
    modifies buff
    ensures buff[..] == data[pos..pos + n] + old(buff[..])[n..]
  {
    var k := 0;
    while k < n
      invariant k <= n
      invariant forall j :: 0 <= j < k ==> buff[j] == data[pos + j]
      invariant forall j :: k <= j < buff.Length ==> buff[j] == old(buff[j])
    {
      buff[k] := data[pos + k];
      k := k + 1;
    }
  }
}
