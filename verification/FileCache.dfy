/** pkg/cache/filecache.go, one caller at a time: the chunk cache and the sizes of files. The same code
    under concurrency is in `ConcurrentCache`. */
module FileCaches {
  import opened Common
  import opened SyncMaps
  import opened Items
  import opened Reader
  import Routing

  /** The disk's answers to one call: can the directory be made, does the file open and with what in it,
      does the foreign cache take the item, do truncating and writing succeed, and does reading fail
      after some bytes. */
  datatype Disk = Disk(
    makes: bool, opens: bool, leftover: seq<byte>, inserts: bool, truncates: bool, writes: bool, fault: Option<nat>)

  /** The network's answers to one fetch. */
  datatype Net = Net(now: int, later: int, res: Resolution, origin: Http)

  /** On whose behalf a reader reads: a peer or a client, and the key of the original request. */
  datatype Asker = Asker(fromPeer: bool, key: string)

  /** Peers and origin honour the range, and the origin does not accept a request to send nothing. */
  ghost predicate Sound(net: Net, want: seq<byte>) {
    && AllHonest(net.res.events, want) && Honest(net.origin, want)
    && !(want != [] && Accepted(net.origin) && net.origin.body == [])
  }

  /** The disk does what it is asked. */
  predicate DiskWorks(disk: Disk) {
    disk.makes && disk.opens && disk.inserts && disk.truncates && disk.writes && disk.fault.None?
  }

  /** Nothing fails: the disk works and the origin has the bytes. */
  predicate Working(disk: Disk, net: Net, count: nat) { DiskWorks(disk) && Fills(net.origin, count) }

  /** A peer's request for which the origin has nothing: nobody else may be asked. */
  predicate Unaided(asker: Asker, net: Net) { asker.fromPeer && !Accepted(net.origin) }

  /** What a fetch may do to the memory of failed lookups: nothing on behalf of a peer, and otherwise
      nothing to other keys than the asker's. */
  predicate Remembers(asker: Asker, before: map<string, int>, after: map<string, int>) {
    (asker.fromPeer ==> after == before) && after - {asker.key} == before - {asker.key}
  }

  /** What a call comes to, over a file that held `was`, if it could be opened at all: only ever the chunk;
      without asking anybody if the file was whole; with success if nothing fails, or if the disk works
      and a peer has the chunk; and without, if nobody may be asked. */
  ghost predicate Comes(was: seq<byte>, want: seq<byte>, there: bool, disk: Disk, asker: Asker, net: Net,
                        before: map<string, int>, after: map<string, int>, r: Result<seq<byte>>)
  {
    && (r.Ok? ==> r.value == want && there)
    && (|was| == |want| ==> after == before && (there && disk.fault.None? ==> r.Ok?))
    && (Working(disk, net, |want|) ==> r.Ok?)
    && (|was| != |want| && Unaided(asker, net) ==> r.Err?)
    && (DiskWorks(disk) && PeerHas(asker.fromPeer, asker.key, before, net.res, |want|) ==> r.Ok?)
    && Remembers(asker, before, after)
  }

  lemma SoundFetch(net: Net, asks: bool, want: seq<byte>)
    requires Sound(net, want)
    ensures var r := Fetched(asks, net.res.events, net.origin, |want|);
            (r.Ok? ==> r == Ok(want)) && (Fills(net.origin, |want|) ==> r.Ok?)
  {
    FetchedExactly(asks, net.res.events, net.origin, want);
    SingleSource(asks, net.res.events, net.origin, Zeros(|want|));
  }

  function Meta(name: string): string { name + "/metainfo" }

  lemma MetaInjective(a: string, b: string)
    requires Meta(a) == Meta(b)
    ensures a == b
  {
    assert a == Meta(a)[..|Meta(a)| - 9] && b == Meta(b)[..|Meta(b)| - 9];
  }

  lemma Grows<K, V>(m: map<K, V>, k: K, v: V)
    requires k !in m
    ensures |m[k := v]| == |m| + 1
  {
  }

  class FileCache {
    var entries: map<ChunkId, Item>
    const metadata: SyncMap<int>
    const block: int
    var fdCnt: int
    /** Opens that failed and insertions that were refused, which nothing gives back. */
    ghost var stray: int
    /** The items the cache may change. */
    ghost var repr: set<Item>
    /** The content each name stands for. */
    ghost const blobs: map<string, seq<byte>>

    ghost predicate InBlob(id: ChunkId) {
      id.name in blobs && block > 0 && 0 <= id.off <= |blobs[id.name]| && id.off % block == 0
    }

    ghost function Want(id: ChunkId): seq<byte>
      requires InBlob(id)
    {
      Chunk(blobs[id.name], id.off, block)
    }

    ghost predicate SizesGood()
      reads metadata
    {
      metadata.Valid() && forall n :: n in blobs && Meta(n) in metadata.entries ==>
          metadata.entries[Meta(n)] == |blobs[n]|
    }

    ghost predicate EntriesGood()
      reads this, repr
    {
      forall id :: id in entries ==>
          InBlob(id) && entries[id] in repr && entries[id].key == id && entries[id].Good(Want(id))
    }

    ghost predicate Valid()
      reads this, metadata, repr
    {
      block > 0 && SizesGood() && EntriesGood()
    }

    /** Descriptors are counted right, up to the ones that strayed. */
    ghost predicate Counted()
      reads this
    {
      fdCnt == |entries| + stray
    }

    constructor (block: int, ghost blobs: map<string, seq<byte>>)
      requires block > 0
      ensures Valid() && Counted() && entries == map[] && this.block == block && this.blobs == blobs && fresh(metadata)
      ensures repr == {} && metadata.entries == map[] && metadata.capacity == 10000000
    {
      this.block, this.blobs, entries, fdCnt, stray, repr := block, blobs, map[], 0, 0, {};
      metadata := new SyncMap(10000000);
    }

    method Size(name: string) returns (r: Option<int>)
      requires Valid()
      ensures r == if Meta(name) in metadata.entries then Some(metadata.entries[Meta(name)]) else None
      ensures r.Some? && name in blobs ==> r.value == |blobs[name]|
    {
      r := metadata.Get(Meta(name));
    }

    method PutSize(name: string, len: int)
      requires Valid() && name in blobs && len == |blobs[name]|
      modifies metadata
      ensures Valid() && Meta(name) in metadata.entries
    {
      ghost var before := metadata.entries;
      metadata.Set(Meta(name), len);
      forall n | n in blobs && Meta(n) in metadata.entries ensures metadata.entries[Meta(n)] == |blobs[n]| {
        if Meta(n) == Meta(name) { MetaInjective(n, name); }
      }
    }

    method Exists(id: ChunkId) returns (r: bool)
      requires Valid()
      ensures r <==> id in entries && entries[id].content != []
    {
      if id in entries {
        var item := entries[id];
        if !item.open {
          return false;
        }
        return |item.content| > 0;
      }
      return false;
    }

    /** The foreign cache loses an entry and drops its value. */
    method Evict(id: ChunkId)
      requires Valid()
      modifies this, repr
      ensures Valid() && entries == old(entries) - {id} && (old(Counted()) ==> Counted()) && repr == old(repr)
      ensures forall j :: j in entries ==> entries[j].content == old(entries[j].content)
      ensures id in old(entries) ==> var item := old(entries[id]); !item.open && !item.linked
    {
      if id in entries {
        var item := entries[id];
        fdCnt := fdCnt - 1;
        item.Drop();
        assert (entries - {id}).Keys == entries.Keys - {id};
        entries := entries - {id};
      } else {
        assert entries - {id} == entries;
      }
    }

    /** Any entries and sizes may go between two calls. */
    method Churn(evicted: seq<ChunkId>, forgotten: seq<string>)
      requires Valid()
      modifies this, repr, metadata
      ensures Valid() && (old(Counted()) ==> Counted()) && repr == old(repr)
    {
      for n := 0 to |evicted|
        invariant Valid() && (old(Counted()) ==> Counted()) && repr == old(repr)
      {
        Evict(evicted[n]);
      }
      for n := 0 to |forgotten|
        invariant Valid() && (old(Counted()) ==> Counted()) && repr == old(repr)
      {
        Forget(forgotten[n]);
      }
    }

    method Forget(name: string)
      requires Valid()
      modifies metadata
      ensures Valid() && Meta(name) !in metadata.entries
    {
      metadata.Delete(Meta(name));
    }

    /** The entry holds the whole chunk, so a call needs neither disk writes nor the network. */
    ghost predicate Full(id: ChunkId)
      requires InBlob(id)
      reads this, repr
    {
      id in entries && entries[id] in repr && |entries[id].content| == |Want(id)|
    }

    /** What is in the chunk's file: the cached item's, or what is found on disk. */
    ghost function Was(id: ChunkId, disk: Disk): seq<byte>
      reads this, repr
    {
      if id in entries && entries[id] in repr then entries[id].content else disk.leftover
    }

    method Insert(id: ChunkId, item: Item)
      requires Valid() && InBlob(id) && id !in entries && item.key == id && item.Good(Want(id))
      modifies this`entries, this`repr
      ensures Valid() && entries == old(entries)[id := item] && repr == old(repr) + {item}
      ensures |entries| == |old(entries)| + 1
    {
      Grows(entries, id, item);
      entries, repr := entries[id := item], repr + {item};
    }

    /** Lines 51-75: the item of the chunk, made and inserted if there is none. */
    method GetItem(id: ChunkId, disk: Disk) returns (r: Option<Item>)
      requires Valid() && InBlob(id)
      requires |disk.leftover| == |Want(id)| ==> disk.leftover == Want(id)
      modifies this
      ensures Valid() && (old(Counted()) ==> Counted()) && fresh(repr - old(repr))
      ensures r.Some? <==> id in entries
      ensures r.Some? ==> r.value == entries[id] && r.value.content == old(Was(id, disk))
      ensures r.Some? <==> id in old(entries) || (disk.makes && disk.opens && disk.inserts)
      ensures entries == old(entries) || (id !in old(entries) && r.Some? && entries == old(entries)[id := r.value])
      ensures stray == old(stray) + if r.None? && disk.makes then 1 else 0
    {
      if id in entries {
        return Some(entries[id]);
      }
      if !disk.makes {
        return None;
      }
      fdCnt := fdCnt + 1;
      if !disk.opens {
        stray := stray + 1;
        return None;
      }
      var item := new Item(id, disk.leftover);
      if !disk.inserts {
        stray := stray + 1;
        return None;
      }
      Insert(id, item);
      return Some(item);
    }

    /** Every caller's fetch is FetchFile on the same chunk, so the reader is the parameter. Success is
        the chunk, whatever was cached, left on disk or lost on the way; a chunk already cached is
        returned without asking anybody; and the entries of other chunks are left alone. */
    method GetOrCreate(id: ChunkId, count: nat, disk: Disk, router: Routing.Router, asker: Asker, net: Net)
        returns (r: Result<seq<byte>>)
      requires Valid() && InBlob(id) && count == |Want(id)|
      requires |disk.leftover| == |Want(id)| ==> disk.leftover == Want(id)
      requires Sound(net, Want(id))
      modifies this, repr, router
      ensures Valid() && (old(Counted()) ==> Counted()) && fresh(repr - old(repr))
      ensures Comes(old(Was(id, disk)), Want(id), id in old(entries) || (disk.makes && disk.opens && disk.inserts),
                    disk, asker, net, old(router.lookupCache), router.lookupCache, r)
      ensures r.Ok? || old(Full(id)) ==> Full(id)
      ensures forall j :: j in old(entries) && j != id ==>
                j in entries && entries[j] == old(entries[j]) && entries[j].content == old(entries[j].content)
      ensures entries.Keys <= old(entries).Keys + {id}
    {
      var found := GetItem(id, disk);
      if found.None? {
        return Err;
      }
      ghost var want := Want(id);
      r := ReadThrough(found.value, want, count, disk, router, asker, net);
    }
  }

  /** item.go:56-66, with the fetch every caller passes in. */
  method Fill(item: Item, ghost want: seq<byte>, count: nat, disk: Disk, router: Routing.Router, asker: Asker, net: Net)
      returns (r: Result<nat>)
    requires item.Good(want) && |item.content| != |want| && count == |want| && Sound(net, want)
    modifies item, router
    ensures item.Good(want)
    ensures r.Ok? ==> r.value == count && item.content == want && item.linked == old(item.linked)
    ensures r.Err? && disk.truncates ==> !item.linked
    ensures Working(disk, net, count) ==> r.Ok?
    ensures Unaided(asker, net) ==> r.Err?
    ensures DiskWorks(disk) && PeerHas(asker.fromPeer, asker.key, old(router.lookupCache), net.res, count) ==> r.Ok?
    ensures Remembers(asker, old(router.lookupCache), router.lookupCache)
  {
    var buffer := FetchFile(router, asker.key, net.now, net.later, asker.fromPeer, net.res, net.origin, count);
    ghost var refused := Routing.RefusedAt(old(router.lookupCache), asker.key, net.now);
    SoundFetch(net, Asks(asker.fromPeer, refused, net.res), want);
    if buffer.Err? {
      item.linked := false;
      return Err;
    }
    r := item.WriteAll(buffer.value, disk.truncates, disk.writes);
    assert WriteAt([], 0, want) == want;
  }

  /** Lines 77-120: fill the item if its length is wrong, then read it back. */
  method ReadThrough(item: Item, ghost want: seq<byte>, count: nat, disk: Disk, router: Routing.Router, asker: Asker,
                     net: Net)
      returns (r: Result<seq<byte>>)
    requires item.Good(want) && count == |want| && Sound(net, want)
    modifies item, router
    ensures item.Good(want)
    ensures Comes(old(item.content), want, true, disk, asker, net, old(router.lookupCache), router.lookupCache, r)
    ensures r.Ok? || old(|item.content|) == count ==> item.content == want
  {
    if !item.open {
      return Err;
    }
    if |item.content| != count {
      var n := Fill(item, want, count, disk, router, asker, net);
      if n.Err? {
        return Err;
      }
      if n.value != count {
        return Err;
      }
    }
    var result := item.Bytes(disk.fault);
    if |result| != count {
      return Err;
    }
    return Ok(result);
  }
}
