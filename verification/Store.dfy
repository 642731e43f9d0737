/** pkg/files/store/store.go and the prefetch of file.go: deriving keys, admitting peers, queueing the
    chunks of an opened file, and advertising what has been fetched. */
module Stores {
  import opened Common
  import opened Items
  import opened FileCaches
  import opened FileViews
  import opened Keys
  import opened Text
  import Context
  import Int64
  import Segments
  import Routing

  // ---------------------------------------------------------------- keys

  /** A GET's range replaces the digest's parse error; other methods start at zero and keep it. */
  function Key(isGet: bool, digest: string, badDigest: bool, range: string, block: int): Result<string>
    requires block > 0
  {
    if isGet then
      match RangeStartIndex(range)
      case Err => Err
      case Ok(start) => Ok(FileChunkKey(digest, start, block))
    else if badDigest then Err
    else Ok(FileChunkKey(digest, 0, block))
  }

  /** No range gives a negative start: a dash separates, so it cannot be a sign. */
  lemma RangeStartNonNegative(range: string)
    ensures RangeStartIndex(range).Ok? ==> RangeStartIndex(range).value >= 0
  {
    if RangeStartIndex(range).Ok? {
      var ranges := Split(Split(range, '=')[1], '-');
      FirstPieceClean(Split(range, '=')[1], '-');
      if ranges[0] != "" { assert ranges[0][0] in ranges[0]; }
    }
  }

  /** A key made for a name without the separator opens as that name and an aligned offset in range. */
  lemma KeyOpens(isGet: bool, digest: string, badDigest: bool, range: string, block: int)
    requires block > 0 && SEP !in digest && Key(isGet, digest, badDigest, range, block).Ok?
    ensures var o := OpenKey(Key(isGet, digest, badDigest, range, block).value);
            o.Some? && o.value.0 == digest && o.value.1 >= 0 && o.value.1 % block == 0
    ensures isGet ==> OpenKey(Key(isGet, digest, badDigest, range, block).value).value.1
                      == Segments.AlignDown(RangeStartIndex(range).value, block)
    ensures !isGet ==> OpenKey(Key(isGet, digest, badDigest, range, block).value).value.1 == 0
  {
    var start := if isGet then RangeStartIndex(range).value else 0;
    if isGet { RangeStartNonNegative(range); StartFits(range); }
    ChunkKeyRoundTrip(digest, start, block);
    Segments.AlignDownBlock(start, block);
  }

  /** A GET gets a key exactly if its range parses, even with a digest that did not; another method exactly
      if its digest did, whatever its range. */
  lemma KeyExactly(isGet: bool, digest: string, badDigest: bool, range: string, block: int)
    requires block > 0
    ensures isGet ==> (Key(isGet, digest, badDigest, range, block).Ok? <==> exists n :: IsRangeFrom(range, n))
    ensures !isGet ==> (Key(isGet, digest, badDigest, range, block).Ok? <==> !badDigest)
  {
    forall n ensures RangeStartIndex(range) == Ok(n) <==> IsRangeFrom(range, n) { RangeParsesExactly(range, n); }
    if RangeStartIndex(range).Ok? { assert IsRangeFrom(range, RangeStartIndex(range).value); }
  }

  lemma StartFits(range: string)
    ensures RangeStartIndex(range).Ok? ==> Int64.Is(RangeStartIndex(range).value)
  {
  }

  // ---------------------------------------------------------------- the store

  /** A chunk to fetch ahead of its readers, on behalf of whoever opened the file. */
  datatype Prefetchable = Prefetchable(name: string, offset: int, count: int, asker: Asker)

  /** Nothing fails for the entry's chunk. */
  predicate Gettable(p: Prefetchable, env: Env) { p.count >= 0 && Working(env.disk, env.net, p.count) }

  /** The queue entries prefetch makes of segments: index and count, not the offset in the block. */
  function Queued(name: string, asker: Asker, segs: seq<Segments.Segment>): seq<Prefetchable> {
    seq(|segs|, i requires 0 <= i < |segs| => Prefetchable(name, segs[i].index, segs[i].count, asker))
  }

  datatype OpenError = NotExist | StatError

  class Store {
    const cache: FileCache
    const prefetchable: bool
    var prefetchChan: seq<Prefetchable>
    var blobsChan: seq<string>
    /** Prefetch goroutines waiting for a lock nobody will release. */
    var stuck: nat

    /** The entry names a whole chunk of a blob. */
    ghost predicate Proper(p: Prefetchable) {
      cache.InBlob(ChunkId(p.name, p.offset)) && p.count == |cache.Want(ChunkId(p.name, p.offset))|
    }

    ghost predicate Valid()
      reads this, cache, cache.metadata, cache.repr
    {
      && cache.Valid() && Int64.Is(cache.block)
      && (forall n :: n in cache.blobs ==> |cache.blobs[n]| <= Int64.TWO63 - cache.block)
      && (forall i :: 0 <= i < |prefetchChan| ==> Proper(prefetchChan[i]))
    }

    constructor (cache: FileCache, prefetchable: bool)
      requires cache.Valid() && Int64.Is(cache.block)
      requires forall n :: n in cache.blobs ==> |cache.blobs[n]| <= Int64.TWO63 - cache.block
      ensures Valid() && this.cache == cache && this.prefetchable == prefetchable
      ensures prefetchChan == [] && blobsChan == [] && stuck == 0
    {
      this.cache, this.prefetchable := cache, prefetchable;
      prefetchChan, blobsChan, stuck := [], [], 0;
    }

    /** Segments of the whole file are whole chunks of it. */
    lemma SegmentsAreProper(name: string, asker: Asker, segs: seq<Segments.Segment>, count: int)
      requires name in cache.blobs && cache.block > 0 && (count == 0 || count == |cache.blobs[name]|)
      requires Segments.IsPartition(segs, 0, count, cache.block)
      ensures forall i :: 0 <= i < |segs| ==> Proper(Queued(name, asker, segs)[i])
    {
      var size := |cache.blobs[name]|;
      forall i | 0 <= i < |segs| ensures Proper(Queued(name, asker, segs)[i]) {
        Segments.SegmentShape(segs, 0, size, cache.block, i);
        var o := segs[i].Start();
        assert Segments.Holds(segs[i], o);
        Segments.PrefetchAgreesWithRead(segs, 0, size, size, cache.block);
        assert Segments.AsReadWould(segs[i], size, cache.block, o);
        ReadCountIsChunk(cache.blobs[name], o, cache.block);
      }
    }

    /** file.go:38-60, from the start of the file for `count` bytes, which is what Open asks for: its
        size, or zero after a failed stat. The queue gains the chunks of the file, each as a read of
        any byte in it would ask for it; a block size that is not a power of two gains nothing; and a
        goroutine that finds the stat's lock left behind waits for ever. */
    method Prefetch(f: File, count: int, stat: Option<StatResponse>)
        returns (r: Stat, ghost segs: seq<Segments.Segment>)
      requires Valid() && f.cache == cache && f.Valid() && (stat.Some? ==> Declares(stat.value, |f.Blob()|))
      requires count == 0 || count == |f.Blob()|
      modifies this, f`size, f`statLocked, cache.metadata
      ensures Valid() && f.Valid() && blobsChan == old(blobsChan)
      ensures prefetchChan == old(prefetchChan) + Queued(f.name, f.asker, segs)
      ensures r.Blocked? <==> Meta(f.name) !in old(cache.metadata.entries) && old(f.statLocked)
      ensures stuck == old(stuck) + if r.Blocked? then 1 else 0
      ensures r.Size? && Int64.IsPow2(cache.block) ==> Segments.IsPartition(segs, 0, count, cache.block)
      ensures !r.Size? || !Int64.IsPow2(cache.block) ==> segs == []
      ensures Meta(f.name) in old(cache.metadata.entries) ==> r.Size?
      ensures r.Size? ==> f.size == |f.Blob()| && f.statLocked == old(f.statLocked)
      ensures !r.Size? ==> f.statLocked
    {
      segs := [];
      r := f.Fstat(stat);
      if r.Blocked? {
        stuck := stuck + 1;
        return;
      }
      if r.StatFailed? {
        return;
      }
      var made := Segments.NewSegments(0, cache.block, count, r.n);
      if made.Err? {
        return;
      }
      Segments.AlignDownBlock(0, cache.block);
      var all := Segments.All(made.value);
      segs := all;
      SegmentsAreProper(f.name, f.asker, all, count);
      Send(f.name, f.asker, all);
    }

    /** file.go:51-58. */
    method Send(name: string, asker: Asker, all: seq<Segments.Segment>)
      requires Valid() && forall i :: 0 <= i < |all| ==> Proper(Queued(name, asker, all)[i])
      modifies this`prefetchChan
      ensures Valid() && prefetchChan == old(prefetchChan) + Queued(name, asker, all)
    {
      var i := 0;
      while i < |all|
        invariant i <= |all| && Valid()
        invariant prefetchChan == old(prefetchChan) + Queued(name, asker, all)[..i]
      {
        assert Proper(Queued(name, asker, all)[i]);
        prefetchChan := prefetchChan + [Prefetchable(name, all[i].index, all[i].count, asker)];
        i := i + 1;
      }
    }

    /** Lines 102-122. A stat that fails leaves its lock held, and the prefetch started all the same
        stuck behind it. */
    method OpenFile(name: string, chunkOffset: int, asker: Asker, stat: Option<StatResponse>,
                    again: Option<StatResponse>)
        returns (f: File, ok: bool, ghost segs: seq<Segments.Segment>)
      requires Valid() && name in cache.blobs
      requires (stat.Some? ==> Declares(stat.value, |cache.blobs[name]|))
      requires (again.Some? ==> Declares(again.value, |cache.blobs[name]|))
      modifies this, cache.metadata
      ensures Valid() && fresh(f) && f.Valid()
      ensures f.name == name && f.cache == cache && f.asker == asker && f.cur == 0 && f.chunkOffset == chunkOffset
      ensures ok <==> Meta(name) in old(cache.metadata.entries) || (stat.Some? && FstatSize(stat.value).Ok?)
      ensures ok ==> f.size == |cache.blobs[name]| && !f.statLocked && stuck == old(stuck)
      ensures !ok ==> f.statLocked && stuck == old(stuck) + if prefetchable then 1 else 0
      ensures prefetchChan == old(prefetchChan) + Queued(name, asker, segs)
      ensures ok && prefetchable && Int64.IsPow2(cache.block) ==>
                Segments.IsPartition(segs, 0, |cache.blobs[name]|, cache.block)
      ensures !(ok && prefetchable && Int64.IsPow2(cache.block)) ==> segs == []
    {
      f := new File(name, chunkOffset, asker, cache);
      var r := f.Fstat(stat);
      ok, segs := r.Size?, [];
      if prefetchable {
        var _, made := Prefetch(f, if ok then r.n else 0, again);
        segs := made;
      }
    }

    /** A peer is admitted only for a chunk this node holds some of, and to that chunk only; the first
        chunk's offset is zero, which restricts nothing. Anybody else gets the whole file. */
    method Open(headers: Context.Headers, chunkKey: string, stat: Option<StatResponse>, again: Option<StatResponse>)
        returns (f: File?, err: Option<OpenError>)
      requires Valid() && OpenKey(chunkKey).Some?
      requires var name := OpenKey(chunkKey).value.0;
               && name in cache.blobs && (stat.Some? ==> Declares(stat.value, |cache.blobs[name]|))
               && (again.Some? ==> Declares(again.value, |cache.blobs[name]|))
      modifies this, cache.metadata
      ensures Valid()
      ensures var id := ChunkId(OpenKey(chunkKey).value.0, OpenKey(chunkKey).value.1);
              err == Some(NotExist) <==>
                Context.IsRequestFromAPeer(headers) && !(id in cache.entries && cache.entries[id].content != [])
      ensures f == null <==> err == Some(NotExist)
      ensures f != null ==> f.Valid() && f.cache == cache && f.name == OpenKey(chunkKey).value.0 && f.cur == 0
      ensures f != null ==> f.asker == Asker(Context.IsRequestFromAPeer(headers), chunkKey)
      ensures f != null ==>
                f.chunkOffset == if Context.IsRequestFromAPeer(headers) then OpenKey(chunkKey).value.1 else 0
      ensures var hit := f != null && Meta(f.name) in old(cache.metadata.entries);
              f != null ==> (err == None <==> hit || (stat.Some? && FstatSize(stat.value).Ok?))
      ensures err == None ==> f.size == |f.Blob()| && !f.statLocked
      ensures err == Some(StatError) ==> f.statLocked && (prefetchable ==> stuck == old(stuck) + 1)
    {
      var (name, alignedOff) := OpenKey(chunkKey).value;
      var fromPeer := Context.IsRequestFromAPeer(headers);
      if fromPeer {
        var ok := cache.Exists(ChunkId(name, alignedOff));
        if !ok {
          return null, Some(NotExist);
        }
      }
      var file, ok, _ := OpenFile(name, if fromPeer then alignedOff else 0, Asker(fromPeer, chunkKey), stat, again);
      return file, if ok then None else Some(StatError);
    }

    /** The worker, run until the queue is empty: of the entries, in order, exactly those whose chunk it
        could get are advertised. */
    method Work(ghost all: seq<Prefetchable>, router: Routing.Router, answer: nat -> Env) returns (oks: seq<bool>)
      requires Valid() && prefetchChan == all && FairAll(all, answer)
      modifies this, cache, cache.repr, router
      ensures Valid() && prefetchChan == []
      ensures |oks| == |all| && blobsChan == old(blobsChan) + Advertised(all, oks, cache.block)
      ensures forall i :: 0 <= i < |all| && Gettable(all[i], answer(i)) ==> oks[i]
    {
      oks := [];
      while prefetchChan != []
        invariant Valid() && fresh(cache.repr - old(cache.repr))
        invariant |oks| <= |all| && prefetchChan == all[|oks|..]
        invariant blobsChan == old(blobsChan) + Advertised(all, oks, cache.block)
        invariant forall i :: 0 <= i < |oks| && Gettable(all[i], answer(i)) ==> oks[i]
        decreases |prefetchChan|
      {
        assert FairFor(answer(|oks|), all[|oks|]);
        var _, ok := WorkOne(router, answer(|oks|));
        AdvertisedMore(all, oks, ok, cache.block);
        oks := oks + [ok];
      }
    }

    ghost predicate FairAll(all: seq<Prefetchable>, answer: nat -> Env) {
      forall i :: 0 <= i < |all| ==> FairFor(answer(i), all[i])
    }

    /** The worker's call of GetOrCreate. */
    method Get(p: Prefetchable, router: Routing.Router, env: Env) returns (ok: bool)
      requires Valid() && Proper(p) && FairFor(env, p)
      modifies cache, cache.repr, router
      ensures Valid() && fresh(cache.repr - old(cache.repr))
      ensures ok ==> cache.Full(ChunkId(p.name, p.offset))
      ensures Working(env.disk, env.net, p.count) ==> ok
      ensures Remembers(p.asker, old(router.lookupCache), router.lookupCache)
    {
      var r := cache.GetOrCreate(ChunkId(p.name, p.offset), p.count, env.disk, router, p.asker, env.net);
      ok := r.Ok?;
    }

    /** One turn of the worker. */
    method WorkOne(router: Routing.Router, env: Env) returns (p: Prefetchable, ok: bool)
      requires Valid() && prefetchChan != [] && FairFor(env, prefetchChan[0])
      modifies this, cache, cache.repr, router
      ensures Valid() && fresh(cache.repr - old(cache.repr))
      ensures p == old(prefetchChan)[0] && prefetchChan == old(prefetchChan)[1..]
      ensures blobsChan == old(blobsChan) + if ok then [FileChunkKey(p.name, p.offset, cache.block)] else []
      ensures ok ==> cache.InBlob(ChunkId(p.name, p.offset)) && cache.Full(ChunkId(p.name, p.offset))
      ensures Working(env.disk, env.net, p.count) ==> ok
      ensures Remembers(p.asker, old(router.lookupCache), router.lookupCache)
    {
      p := prefetchChan[0];
      assert Proper(p);
      prefetchChan := prefetchChan[1..];
      ok := Get(p, router, env);
      if ok {
        blobsChan := blobsChan + [FileChunkKey(p.name, p.offset, cache.block)];
      }
    }

    ghost predicate FairFor(env: Env, p: Prefetchable) {
      var id := ChunkId(p.name, p.offset);
      cache.InBlob(id) ==>
        && (|env.disk.leftover| == |cache.Want(id)| ==> env.disk.leftover == cache.Want(id))
        && Sound(env.net, cache.Want(id))
    }
  }

  /** The keys of the entries that were got. */
  function Advertised(all: seq<Prefetchable>, oks: seq<bool>, block: int): seq<string>
    requires block > 0 && |oks| <= |all|
  {
    if oks == [] then []
    else
      var m := |oks| - 1;
      Advertised(all, oks[..m], block) + if oks[m] then [FileChunkKey(all[m].name, all[m].offset, block)] else []
  }

  lemma AdvertisedMore(all: seq<Prefetchable>, oks: seq<bool>, ok: bool, block: int)
    requires block > 0 && |oks| < |all|
    ensures Advertised(all, oks + [ok], block)
            == Advertised(all, oks, block)
               + if ok then [FileChunkKey(all[|oks|].name, all[|oks|].offset, block)] else []
  {
  }

  /** Every advertised key opens as the name and offset of an entry that was got. */
  lemma {:induction false} AdvertisedOpens(all: seq<Prefetchable>, oks: seq<bool>, block: int, key: string)
    requires block > 0 && |oks| <= |all| && key in Advertised(all, oks, block)
    requires forall i :: 0 <= i < |all| ==>
               SEP !in all[i].name && 0 <= all[i].offset && Int64.Is(all[i].offset) && all[i].offset % block == 0
    ensures exists i :: 0 <= i < |oks| && oks[i] && OpenKey(key) == Some((all[i].name, all[i].offset))
    decreases |oks|
  {
    var m := |oks| - 1;
    if key in Advertised(all, oks[..m], block) {
      AdvertisedOpens(all, oks[..m], block, key);
      var i :| 0 <= i < m && oks[..m][i] && OpenKey(key) == Some((all[i].name, all[i].offset));
      assert oks[i];
    } else {
      ChunkKeyRoundTrip(all[m].name, all[m].offset, block);
      Segments.AlignDownBlock(all[m].offset, block);
      assert oks[m];
    }
  }
}
