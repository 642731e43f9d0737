# Chunked reads in a peer-to-peer cache, modelled and proved

peerd serves files from the nodes of a cluster. A file is named by its digest and cut into chunks of
one block; every node caches chunks on disk, fetches the missing ones from other nodes or, failing
that, from the origin, and tells the cluster which chunks it has. This project models that read path
in Dafny and proves that every layer of it agrees with one simple thing, the origin's blob as a
sequence of bytes.

`dafny verify dfyconfig.toml` checks the whole project.

## How the layers build on each other

| file | models |
|---|---|
| `Common.dfy`, `Int64.dfy`, `Text.dfy`, `Reachability.dfy` | bytes, chunks, Go's 64-bit integers, the parts of `strings` and `strconv` the headers go through, runs in general |
| `Segments.dfy` | `pkg/math/segments.go`: aligning and cutting a range into segments |
| `Keys.dfy`, `Context.dfy` | range headers, chunk keys, Content-Range, cache paths, the mark of a peer's request |
| `SyncMap.dfy` | `pkg/cache/syncmap.go`: the bounded map that holds file sizes |
| `Item.dfy`, `FileCache.dfy` | `pkg/cache/item.go` and `pkg/cache/filecache.go`, one caller at a time, as classes |
| `ConcurrentCache.dfy`, `ConcurrentLocks.dfy`, `ConcurrentExact.dfy` | the same code under every interleaving of any number of callers: the steps, the locks, the bytes |
| `ConcurrentCrash.dfy` | exactly which calls crash, and exactly which writers they shut out |
| `ConcurrentReturns.dfy` | exactly which calls can still return |
| `ConcurrentStages.dfy`, `ConcurrentScenes.dfy`, `ConcurrentZeros.dfy`, `ConcurrentRace.dfy` | exactly which step costs calls their exactness, for which chunks, and how |
| `Router.dfy`, `Reader.dfy` | `pkg/discovery/routing/router.go`, `pkg/discovery/content/reader/reader.go` and `FetchFile`: whom to ask, the peer loop, the origin |
| `FileView.dfy`, `Streams.dfy` | `pkg/files/store/file.go`: reads, seeks and stats, one by one and in whole runs |
| `Store.dfy` | `pkg/files/store/store.go`: keys, admission of peers, prefetching, advertising |
| `Cluster.dfy` | any number of nodes, requests, files and calls as one state machine |
| `ClusterHops.dfy`, `ClusterPrefetch.dfy`, `ClusterExact.dfy` | its three invariants |
| `ClusterTheorems.dfy` | what follows for every run |
| `ClusterServes.dfy`, `ClusterClients.dfy`, `ClusterDrains.dfy` | what can follow every run: chunks reach other nodes, clients are served, prefetching completes |
| `ClusterJoint.dfy`, `ClusterConcurrent.dfy`, `ClusterReturns.dfy` | the cluster with the concurrent caches inside, its refinement of the cluster, and exactly which of its calls can still return |

The argument runs bottom up. The size map forgets but never lies (`HistoryRefines`), so every size is
the blob's (`Fstat`). One size makes one count for a chunk, whoever asks: readers and the prefetcher
agree (`PrefetchAgreesWithRead`). With one count an item is filled once and from position zero
(`FilledOnceFromZero`), and only then is a write that does not rewind right (`RewriteExactly`). So
calls of GetOrCreate return the chunk (`ReturnsExact`, `GetOrCreate`), a file is a seekable stream
over the blob (`Perform`, `Drain`), nodes send each other beginnings of chunks (`PeersAgreeOnChunk`),
a fetch from such peers brings the chunk (`FetchedExactly`), and all caches in the cluster stay exact
(`ClusterSafe`). There a call of GetOrCreate is one step. In the joint machine it takes all its steps,
interleaved with those of other calls and other nodes, and writes what its own fetch brought; every
careful run of that machine is a run of the cluster (`JointRefinesCluster`), and so as safe
(`JointSafe`).

That nothing goes wrong would also hold if nothing went at all. So each machine is shown to do its work
too, from every state it can come to. A call of GetOrCreate can still return its chunk if and only if its
item has not been dropped (`ReturnsUnlessDropped`, and `JointReturnsUnlessDropped` with the fetch and the
other nodes around it). A client can get the last byte of its range and leave the node holding what it
got (`NewClientIsServed`); from there a chunk can reach the other nodes without the origin
(`ChunkTravels`). A node's prefetch pipeline can drain (`PipelineDrains`), and an opened file can come to
be advertised, each of its chunks (`PrefetchCompletes`). A lookup is refused for half a second after it has failed
(`FailuresAreRemembered`), and for no other reason (`RefusalsExplained`).

## What is assumed

- A name stands for fixed content, its digest parsed, and it contains no `_`. (`Key` lets a GET's range
  overwrite the digest's parse error.)
- Origin and peers honour byte ranges (sections 14.1.2, 14.2 and 15.3.7 of RFC 9110), and the origin
  does not accept a request for bytes of the file and send an empty body. In the cluster nothing is
  assumed of peers: their answers are what the model makes them send.
- A stat is answered with the file's length: as Content-Length if the status is 200, as the complete
  length of a Content-Range if it is 206. (A 200 without a length gives a size of -1, and a 206 without a
  Content-Range the length of the one byte asked for.)
- The block size is positive, and no blob is longer than 2^63 minus one block.
- A disk write happens as a whole or not at all. A file found on disk when an item opens it is not as
  long as its chunk, or is the chunk.
- The foreign cache may lose any entry at any time, never answers with another key's value, and keeps
  what was set until it loses it.
- Header names are already canonical, path components already clean, and time is counted in
  milliseconds.

## Where the code and its promises part

Each of these is kept as the code has it; the lemma or contract named says exactly when it matters.

- A call that outlives its evicted item can share the file with the item's successor, and then some
  call can return zeros as a success. The step to blame is opening again a file that is in use and not
  yet whole. Runs without it are exact (`ReturnsExact`); after any such run, a call's next move can be
  followed to wrong bytes for its key, without another such step, if and only if it is one and the chunk
  is not all zeros (`WrongExactlyWhenCareless`). Opening again a whole file does no harm, and a chunk of
  zeros is returned right in every run (`ZeroChunksExact`). `ZerosReturned` gives a run for every other
  chunk.
- An item dropped after its fill and before the reading that follows crashes the call, which uses the
  dropped file's name in its log line. A finished call has crashed if and only if that happened to it
  (`CrashedExactly`; a run in `DropCrashes`). The unlocking after the log line is not deferred, so the
  call keeps its read lock: when all calls have finished, locks are held exactly by those that crashed
  (`LeftLocked`). A call waiting to write to an item can still get in if and only if nobody has crashed
  on the item, and nobody who holds its read lock is about to (`WriterGetsInExactly`; a run in which it
  cannot, for every chunk, in `WriterShutOut`). In a request the panic is recovered and the process lives
  on with that lock; in a prefetch worker it ends the process.
- A file opened for a peer's chunk refuses other chunks (`OneChunkForPeers`), but the offset that says which
  chunk also says that there is no restriction if it is zero: a peer let in to the first chunk can read on
  to the end of its range (`Open`).
- A dropped item costs every call that is still on it its success: such a call never returns, whatever
  follows, and every other unfinished call can (`ReturnsUnlessDropped`).
- `FetchFile` takes EOF for success. When no peer fills the buffer and the origin accepts and sends
  nothing, it returns what the peers left, padded with zeros (`FetchedExactly`, `EmptyOriginExample`).
- `ReadAt` reports the end of the file whenever the buffer reaches past it, even if it has delivered
  only an earlier chunk (`EndIsTheEnd`, `EndTooSoon`); and `Read` then leaves the cursor in front of the
  bytes it delivered, so that it delivers them again (`EndTwice`).
- `Fstat` keeps its lock when the remote stat fails. A later stat of that file that misses the size map
  never returns, and `Open` starts one at once when prefetching is on (`Fstat`, `OpenFile`).
- `Seek` from the end ignores its offset. With that and the cursor that stays put, a sequence of
  operations goes as on a seekable stream if and only if no seek from the end has an offset, and every
  read that delivers something starts at the end or fits in what remains (`Perform`, `RefinesExactly`).
- `ReadAt` checks no offset. It survives exactly those in the file or at its end, and the negative ones
  that are aligned (`SurvivesExactly`).
- `NewSegments` refuses only positive steps that are not powers of two; zero and negative steps pass
  (`PowerOfTwoGuard`). Its loop never ends when the end lies beyond 2^63 minus one step
  (`LoopEndsExactly`).
- `AlignDown` rounds unaligned negative offsets up (`AlignDownGoesDown`).
- `prefetch` sends a segment's block and count and forgets where in the block it starts, which is right
  for ranges that start on a block and end on one or at the end of the file, and for no others
  (`PrefetchAgreesWithRead`).
- A Content-Range that withholds the complete length with `*` is taken for a length of zero, which is
  right if and only if the blob is empty (`UnknownSizeIsZero`).
- The descriptor count is not given back when opening a file or inserting an item fails (`GetItem`).

## Model

| member | source | states |
|---|---|---|
| Int64.LowestBitCleared | pkg/math/segments.go:23 | clearing the lowest set bit of a positive number leaves nothing exactly for powers of two |
| Int64.PowerOfTwoGuard | pkg/math/segments.go:22-27 | for every int64 step, the guard fires exactly on positive steps that are not powers of two |
| Segments.AlignDownFits | pkg/math/segments.go:32-34 | the product never leaves int64 |
| Segments.AlignDownBlock | pkg/math/segments.go:32-34 | on non-negative offsets it is the start of the enclosing block |
| Segments.AlignDownGoesDown | pkg/math/segments.go:29-34 | it goes down exactly on offsets that are non-negative or already aligned |
| Segments.NewSegments | pkg/math/segments.go:22-27 | accepts exactly non-positive steps and powers of two; the end is at most the size and offset+count |
| Segments.All | pkg/math/segments.go:37-51 | emits the partition of the range on the grid, with int64 arithmetic, whenever the counter fits |
| Segments.SegmentShape | pkg/math/segments.go:41-43 | every segment is its block cut to the range, and not empty |
| Segments.PartitionUnique | pkg/math/segments.go:37-51 | the partition is the only sequence that meets its specification |
| Segments.PartitionTotal | pkg/math/segments.go:37-51 | the counts sum to the length of the range, or to zero if it is empty |
| Segments.PartitionCovers | pkg/math/segments.go:37-51 | a position is in the range if and only if a segment holds it, and then only one does |
| Segments.LoopEndsExactly | pkg/math/segments.go:40-43 | the wrapping loop ends if and only if no turn is needed or the end is at most 2^63 - step, and then without overflow |
| Segments.PrefetchAgreesWithRead | pkg/files/store/file.go:45-58 | (Index, Count) is what ReadAt computes for every byte of every segment, if and only if the range starts on a block and ends on one or at the end of the file |
| Text.DecimalRoundTrip | pkg/context/context.go:133 | a printed number is parsed back |
| Text.ParsesExactly | pkg/context/context.go:133 | exactly digits after at most one sign are parsed, if only as out of range |
| Keys.RangeRoundTrip | pkg/context/context.go:115-139 | a printed range parses to its start if and only if it is not the empty range at zero |
| Keys.RangeParsesExactly | pkg/context/context.go:115-139 | a header parses to a start if and only if it is `bytes=`, a number, one dash and anything without another dash or equals sign |
| Keys.EmptyRangeRefused | pkg/context/context.go:126-130 | a range ending before zero is refused because of its second dash |
| Keys.RangeCovers | pkg/discovery/content/reader/reader.go:281 | the printed inclusive range covers exactly len(buf) bytes |
| Keys.ChunkKeyRoundTrip | pkg/files/store/store.go:88-91 | Open recovers the name from a chunk key if and only if the name has no separator, and then the aligned offset too |
| Keys.CrossNodeKey | pkg/files/store/store.go:126-145 | range printed by one node, parsed, keyed and taken apart by another gives the same chunk |
| Keys.SameChunkSameKey | pkg/files/files.go:21-23 | two offsets have one key if and only if they are in one chunk |
| Keys.ContentRangeSize | pkg/discovery/content/reader/reader.go:202-220 | the complete length is recovered whatever range precedes it |
| Keys.UnknownSizeIsZero | pkg/discovery/content/reader/reader.go:217 | an unknown complete length gives a size that is right if and only if the blob is empty |
| Keys.GetKeyInjective | pkg/cache/filecache.go:142-144 | different chunks have different paths |
| Context.RemoteRequest | pkg/discovery/content/reader/reader.go:269-285 | copies the caller's headers, then sets the range and the mandatory headers |
| Context.OutboundIsMarked | pkg/context/context.go:73-91 | whatever the caller sent, what goes out is marked, asks for the reader's range, names correlation and node each in its own header, and keeps every other header |
| Context.MarkedExactly | pkg/context/context.go:73-77 | a request is taken for a peer's if and only if the first value of that one header is `true` |
| SyncMaps.SyncMap.constructor | pkg/cache/syncmap.go:66-74 | empty, with a capacity of at least one |
| SyncMaps.AnswersAgree | pkg/cache/syncmap.go:21-26 | on every run the answer to a key is none or the unbounded map's, and right after a set it is what was set |
| SyncMaps.SyncMap.Set | pkg/cache/syncmap.go:32-54 | at capacity a new key evicts exactly max(1, n*5/100) entries; the others keep their values |
| SyncMaps.EvictsOneInTwenty | pkg/cache/syncmap.go:36-41 | the number evicted is a twentieth of the entries, rounded down, and at least one |
| SyncMaps.SyncMap.Delete | pkg/cache/syncmap.go:58-62 | removes that key only |
| SyncMaps.HistoryRefines | pkg/cache/syncmap.go:21-62 | on every run the entries are among those of an unbounded map, within capacity, and what was just set is there |
| Items.RewriteExactly | pkg/cache/item.go:100-116 | a write without rewinding leaves the buffer, and even its length, if and only if the handle stood at zero |
| Items.WriteAtExactly | pkg/cache/item.go:107 | byte by byte, a write leaves the buffer where it was written, zeros in a hole before it, and the rest as it was |
| Items.PartialWritesMislead | pkg/cache/item.go:107-113 | if writes could be cut short, full length would not mean the chunk |
| Items.Item.WriteAll | pkg/cache/item.go:100-116 | truncates, writes at the position it stood at, and moves by what it wrote; the path goes exactly if the write fails |
| Items.Item.Bytes | pkg/cache/item.go:45-97 | the content from the start, or nothing after a read error |
| FileCaches.SoundFetch | pkg/files/files.go:26-39 | a fetch over sound servers returns the chunk if it succeeds, and succeeds if the origin has it |
| FileCaches.FileCache.Size | pkg/cache/filecache.go:124-132 | a hit is the blob's length |
| FileCaches.FileCache.PutSize | pkg/cache/filecache.go:135-140 | the size is there, and all sizes stay right whatever is evicted |
| FileCaches.FileCache.Exists | pkg/cache/filecache.go:32-47 | exactly when the entry is there with something in it |
| FileCaches.FileCache.Evict | pkg/cache/filecache.go:173-176 | removes one entry, drops its item, gives back its descriptor and keeps the others |
| FileCaches.FileCache.GetItem | pkg/cache/filecache.go:51-75 | finds or makes the chunk's item, over what is on disk, exactly if it is cached or directory, file and insertion succeed; a failed open or insertion strays one descriptor, a directory that cannot be made none |
| FileCaches.Fill | pkg/cache/item.go:56-66 | success leaves exactly the chunk in the file; a failed fetch or write takes the path away; on behalf of a peer nobody but the origin helps and no failure is remembered; else a peer that has the chunk is enough, and a failure is remembered under the asker's key only |
| FileCaches.ReadThrough | pkg/cache/filecache.go:77-120 | success returns the chunk; a full item is returned without asking anybody; one that is not is filled for the asker as Fill does |
| FileCaches.FileCache.GetOrCreate | pkg/cache/filecache.go:50-121 | success is the chunk whatever was cached, left or lost; it succeeds if nothing fails, or if the disk works and a peer may be asked and has it; it fails for a peer whom the origin does not answer; other entries are untouched |
| ConcurrentLocks.RunKeepsLocks | pkg/cache/filecache.go:50-121 | in every interleaving the locks are held exactly by the calls inside their sections |
| ConcurrentLocks.SectionsExclude | pkg/cache/filecache.go:79-114 | readers and the writer of an item exclude each other; so do holders of the cache's lock |
| ConcurrentLocks.LeftLocked | pkg/cache/filecache.go:54-114 | when all calls have finished, the cache's lock and all write locks are free, an item's readers are exactly the calls that crashed on it, and all is free if and only if none crashed |
| ConcurrentExact.RunKeepsInv | pkg/cache/filecache.go:50-121 | the invariant over names, handles, contents and program points holds in every reachable state |
| ConcurrentExact.ReturnsExact | pkg/cache/filecache.go:50-121 | in every run that opens no file again while it is in use and not whole, every call that returns, returns its chunk, under every interleaving, failure, eviction and drop |
| ConcurrentExact.FilledOnceFromZero | pkg/cache/item.go:56-116 | no item is filled twice; a live item stands at zero or at the end of its exact chunk; every write starts at zero over an empty file |
| ConcurrentExact.PathsExactly | pkg/cache/item.go:26-66 | in every step, which paths appear, with an empty file, and which go: those of a failed fetch or write or of a dropped item, but not of a failed truncation |
| ConcurrentReturns.HitReturns | pkg/cache/filecache.go:80-120 | a call that finds its item's file as long as the chunk returns what is in it, by three moves of its own |
| ConcurrentReturns.ReturnsUnlessDropped | pkg/cache/filecache.go:50-121 | in every careful run an unfinished call can come to return its chunk, with everybody careful, if and only if the item it is on has not been dropped; and if it has, no continuation at all makes it return |
| ConcurrentCrash.StepDooms | pkg/cache/item.go:26-50 | nothing dooms a call but a drop of its item while it waits to read, and nothing saves it |
| ConcurrentCrash.CrashedExactly | pkg/cache/item.go:45-50 | in every run a finished call has crashed if and only if its item was dropped between its fill or second look and its reading |
| ConcurrentCrash.WriterGetsInExactly | pkg/cache/filecache.go:79-114 | in every run a call waiting to write to an item can come to get in if and only if nobody has crashed on it or is about to with its read lock held; else it waits in every continuation |
| ConcurrentCrash.DropDeadlocks | pkg/cache/filecache.go:110-114 | from every state with a call about to read and one about to write an uncached item, a drop leads to a crash and a writer that never gets in |
| ConcurrentZeros.ZeroChunksExact | pkg/cache/filecache.go:50-121 | in every run, careless or not, calls for a chunk of zeros return the chunk |
| ConcurrentRace.CarelessEndsWrong | pkg/cache/filecache.go:58-75 | opening again a file in use that is not whole can be followed, with care, to wrong bytes, whatever the other calls are doing, unless the chunk is all zeros |
| ConcurrentRace.WrongExactlyWhenCareless | pkg/cache/filecache.go:50-121 | after every careful run a call's move can be followed, with care, to wrong bytes for its key if and only if it is such an opening and the chunk is not all zeros |
| ConcurrentRace.CarelessHappens | pkg/cache/filecache.go:50-75 | for every chunk a careful run comes to where such an opening is possible |
| ConcurrentRace.ZerosReturned | pkg/cache/filecache.go:77-120 | for every chunk that is not all zeros a run with one such opening returns wrong bytes without an error |
| ConcurrentRace.DropCrashes | pkg/cache/item.go:45-50 | for every chunk a run in which a drop between fill and reading crashes the call |
| ConcurrentRace.WriterShutOut | pkg/cache/filecache.go:90-113 | for every chunk a run comes to where one call has crashed and another waits for its write lock for ever |
| Routing.Resolve | pkg/discovery/routing/router.go:182-211 | the loop passes on the usable providers in order |
| Routing.PeersExactly | pkg/discovery/routing/router.go:182-211 | a peer is offered if and only if a provider with that one address stands behind it, and it is not the node itself unless that is allowed |
| Routing.RefusalsExplained | pkg/discovery/routing/router.go:159-169 | in every timed run a refusal comes after a failed lookup of the same key, within the time to live; a key that never failed is never refused |
| Routing.FailuresAreRemembered | pkg/discovery/routing/router.go:159-169 | for 500 ms after a lookup of a key has failed, whatever happens short of the foreign cache forgetting it, a lookup of the key is refused and none is started |
| Routing.OthersAreStarted | pkg/discovery/routing/router.go:159-169 | a lookup that is not refused is started, and nothing else changes |
| Reader.ReadFull | pkg/discovery/content/reader/reader.go:255 | overlays what arrived; EOF exactly for an empty body, failure for a short one |
| Reader.PreadOne | pkg/discovery/content/reader/reader.go:227-256 | succeeds exactly when a body that came with 200 or 206 fills the buffer |
| Reader.DoP2p | pkg/discovery/content/reader/reader.go:101-183 | a marked or refused lookup touches nothing; else the loop ends at the first peer that fills, or calls back once |
| Reader.LookupIsRun | pkg/discovery/routing/router.go:159-169 | what a lookup does to the router's cache is a run of the negative cache's machine, which logs a refusal exactly when the lookup is refused and a failure exactly when it is called back |
| Reader.PreadRemote | pkg/discovery/content/reader/reader.go:51-76 | buffer, error and negative cache are those of the specification |
| Reader.LoopFindsFirst | pkg/discovery/content/reader/reader.go:123-179 | the loop succeeds if and only if some event fills the buffer before one ends the search, with the first such |
| Reader.SingleSource | pkg/discovery/content/reader/reader.go:51-183 | success fills the whole buffer from one source; the origin is asked exactly when no peer succeeded; one callback exactly when a started lookup ends without a peer |
| Reader.PreadExact | pkg/discovery/content/reader/reader.go:51-76 | from servers that honour the range, success is the range, whatever junk earlier answers left |
| Reader.FetchFile | pkg/files/files.go:26-39 | the fixed-length fetch, EOF included; for a peer it asks no peer and remembers nothing; for anybody else a peer that fills is enough, and a search without one is remembered for 500 ms under that key only |
| Reader.EndsWithEOF | pkg/discovery/content/reader/reader.go:51-76 | a read ends with EOF if and only if it is of some bytes, no peer fills it, and the origin accepts and sends nothing |
| Reader.FetchedExactly | pkg/files/files.go:26-39 | exact except when no peer fills the buffer and the origin accepts and sends nothing; then the longest peer body padded with zeros, right if and only if the rest is zeros |
| Reader.EmptyOriginExample | pkg/files/files.go:32 | half a chunk of zeros taken for the rest of it |
| FileViews.DeclaredSize | pkg/discovery/content/reader/reader.go:202-220 | a stat answered as it should be gives the blob's length if the status is 200 or 206, and an error otherwise |
| FileViews.ReadCountIsChunk | pkg/files/store/file.go:118-125 | for every offset, aligned offset and count are those of the chunk around it |
| FileViews.SurvivesExactly | pkg/files/store/file.go:118-137 | the slices of a read are in range exactly for offsets in the file or at its end and for negative aligned ones |
| FileViews.File.Fstat | pkg/files/store/file.go:77-100 | every size returned is the blob's length; a failed stat keeps the lock, and then a miss never returns |
| FileViews.Deliver | pkg/files/store/file.go:135-143 | the bytes of the blob at the offset, up to the end of chunk or buffer; the end reported when the buffer reaches past it |
| FileViews.DeliveryProgress | pkg/files/store/file.go:135-143 | a read inside the file makes progress |
| FileViews.File.ReadAt | pkg/files/store/file.go:112-144 | delivers or leaves the buffer alone; fails for want of a size exactly if the stat does; refuses exactly the other chunks of a file opened for one; else succeeds as GetOrCreate does, cached chunks without anybody's help |
| FileViews.File.Read | pkg/files/store/file.go:103-109 | moves the cursor by what was read, and only on success |
| Streams.Drain | pkg/files/store/file.go:103-144 | reads no longer than what remains concatenate to exactly the range, progress each time and end, whatever the cache loses in between |
| Streams.Perform | pkg/files/store/file.go:63-144 | any sequence of seeks and reads goes as on a seekable stream over the blob if and only if no seek from the end has an offset and every delivering read starts at the end or fits in what remains |
| Streams.RefinesExactly | pkg/files/store/file.go:63-109 | the same of every run the file's steps can make |
| Streams.EndTwice | pkg/files/store/file.go:103-109 | the same byte and the end of the file shown twice, which no stream shows |
| Streams.ReadsConcatenate | pkg/files/store/file.go:103-144 | successful reads of any lengths add up to the blob between the first and the last cursor |
| Streams.EndIsTheEnd | pkg/files/store/file.go:139-141 | a reported end is the end if and only if the file ends in the chunk that was read |
| Streams.EndTooSoon | pkg/files/store/file.go:139-141 | a read that reports the end one byte early |
| Stores.RangeStartNonNegative | pkg/context/context.go:126-138 | no range parses to a negative start |
| Stores.KeyOpens | pkg/files/store/store.go:126-145 | every key that is made opens as its digest and the start of the range's chunk, or of the first chunk if the method is not GET |
| Stores.KeyExactly | pkg/files/store/store.go:126-145 | a GET gets a key if and only if its range parses, even with a bad digest; another method if and only if its digest does |
| Stores.Store.Prefetch | pkg/files/store/file.go:38-60 | queues the partition of the file into whole chunks, or nothing; blocks exactly behind a lock left held |
| Stores.Store.Send | pkg/files/store/file.go:51-58 | the queue gains the segments in order |
| Stores.Store.OpenFile | pkg/files/store/store.go:102-122 | succeeds exactly if the size is known or the origin says it; then the file has the blob's size and its chunks are queued; a failed stat leaves the lock held and a prefetch stuck |
| Stores.Store.Open | pkg/files/store/store.go:86-123 | a peer is refused exactly when the chunk has nothing in it here, and else restricted to that chunk |
| Stores.Store.WorkOne | pkg/files/store/store.go:150-158 | advertises exactly a chunk it got, which the cache then holds whole |
| Stores.Store.Work | pkg/files/store/store.go:149-160 | of the queue, in order, exactly the entries that were got are advertised, among them all for which nothing fails |
| Stores.AdvertisedOpens | pkg/files/store/store.go:157 | every advertised key opens as an entry that was got |
| ClusterHops.RunKeepsHops | pkg/discovery/content/reader/reader.go:269-285 | in every run a request between nodes is marked, comes from an earlier unmarked one on another node, and asks for its call's range |
| ClusterHops.HopBound | pkg/discovery/content/reader/reader.go:101-105 | every path of requests has at most one hop, to another node, prefetch traffic included; a marked request causes none |
| ClusterHops.RunInTurn | pkg/discovery/content/reader/reader.go:123-179 | in every run a call asks one peer after the other and nobody after an answer that filled the buffer, a timeout or the last peer |
| ClusterHops.SkippedExactly | pkg/discovery/content/reader/reader.go:123-140 | after a peer that could not be asked the search goes on; a timeout or the last peer ends it |
| ClusterHops.AnsweredExactly | pkg/discovery/content/reader/reader.go:140-179 | the search goes on if and only if the answer did not fill the buffer |
| ClusterPrefetch.RunKeepsPipeline | pkg/files/store/store.go:149-160 | in every run nodes conserve their segments, and reported results are those of the workers' calls |
| ClusterExact.AdmissionOk | pkg/files/store/store.go:86-114 | the file opened is the one asked for, from the parsed start, restricted to that chunk for a peer |
| ClusterExact.AdmissionExactly | pkg/files/store/store.go:86-145 | a request is let in if and only if its range parses and, if it is marked, something of the chunk around its start is here; a peer to that chunk, anybody else to the file |
| ClusterExact.ChildServes | pkg/files/store/store.go:86-145 | what a node sends another is a beginning of the chunk the other's call is for |
| ClusterExact.FillExact | pkg/files/files.go:26-39 | a fetch from exact peers and an honest origin brings the chunk |
| ClusterExact.StepKeepsInv | pkg/cache/filecache.go:50-121 | every step of every node keeps every cache, size, file, call and answer exact |
| ClusterExact.RunKeepsInv | pkg/files/store/store.go:86-160 | so does every run |
| ClusterTheorems.ClusterSafe | pkg/files/store/store.go:86-160 | in every run whole chunks and sizes are the blob's, bytes sent are the blob's from the range's start, and calls that succeed return their chunk, through however many caches |
| ClusterTheorems.PeersAgreeOnChunk | pkg/files/store/store.go:86-145 | in every run the chunk a peer opens is the one it was asked for, derived from the text alone |
| ClusterTheorems.OneChunkForPeers | pkg/files/store/file.go:118-123 | in every run whoever comes as a peer, whatever range it asks for, gets bytes of one chunk only, the one around the start of the range, unless that is the first |
| ClusterTheorems.PrefetchConserves | pkg/files/store/store.go:149-160 | segments made = being sent + queued + in hand + failed + advertised, as multisets |
| ClusterTheorems.AdvertisedWasGot | pkg/files/store/store.go:151-157 | an advertised key names a chunk that GetOrCreate has returned on that node |
| ClusterTheorems.DrainedIsComplete | pkg/files/store/file.go:38-60 | once a node's pipeline has drained, the chunk around every byte of every prefetched file is advertised or has failed |
| ClusterConcurrent.PathsFit | pkg/cache/filecache.go:142-144 | the paths of getKey tell chunks apart as the joint machine needs |
| ClusterConcurrent.BroughtIsStep | pkg/files/files.go:26-39 | what a call's own fetch brings, peers and origin together, is the chunk its cache takes it for |
| ClusterConcurrent.StepFollows | pkg/cache/filecache.go:50-121 | every careful step of the joint machine is matched by steps of the cluster |
| ClusterConcurrent.OuterIsStep | pkg/discovery/content/reader/reader.go:123-179 | what is no cache's business happens in the joint machine as in the cluster, but peers are asked only for calls that are fetching |
| ClusterConcurrent.JointRefinesCluster | pkg/cache/filecache.go:50-121 | the cluster part of every careful joint run, over any number of nodes, with peers asked and calls interleaved step by step, is a run of the cluster |
| ClusterConcurrent.JointSafe | pkg/files/store/store.go:86-160 | in every careful joint run caches, sizes, answers and returned chunks are exact on every node |
| ClusterConcurrent.EveryCallStands | pkg/cache/filecache.go:50-121 | in every careful joint run each call of the cluster is a call of its node and has come to what that has come to, and the node shows what its cache holds |
| ClusterServes.ChunkTravels | pkg/discovery/content/reader/reader.go:123-179 | from every reachable state a chunk held by another node can reach a call that may ask, without a byte from the origin |
| ClusterClients.ClientIsServed | pkg/handlers/files/handler.go:23-60 | from every reachable state a client's `bytes=a-b`, however far it has been answered, can be answered to its last byte in the file, with exactly these bytes, the node then holding what it sent |
| ClusterClients.NewClientIsServed | pkg/handlers/files/handler.go:23-77 | from every reachable state a client can come to any node, get exactly its range, and leave the node holding the range's chunks and the file's size |
| ClusterDrains.PipelineDrains | pkg/files/store/store.go:149-160 | from every reachable state a node can come to have nothing left to prefetch, with nothing failed that had not failed by then |
| ClusterDrains.RunIsBounded | pkg/files/store/store.go:30-51 | in every run no more jobs are queued or in hand than there are workers, and none are made without workers |
| ClusterDrains.PrefetchCompletes | pkg/files/store/file.go:38-60 | from every reachable state an open file, not yet prefetched or with none of its jobs failed, can come to have the chunk around each of its bytes advertised |
| ClusterReturns.JointReturnsUnlessDropped | pkg/cache/filecache.go:50-121 | in every careful joint run an unfinished call of a node can come to return its chunk, fetched by itself and known to the cluster, if and only if the item it is on has not been dropped |

## Left out

- Ristretto, libp2p and Kademlia, TLS, gin and `http.ServeContent`: foreign code. Serving a range is
  modelled as the bounded reads it performs.
- `pkg/urlparser`: matching URLs is left to a regular expression library; a parsed digest is the input.
- `pkg/k8s`, election, events, metrics, `cmd/proxy`, the root handler and logging: plumbing.
- `pkg/discovery/content/provider`: forwards advertised keys to the network, one by one.
- `tests/`, the mocks and `pkg/math/compare.go`: nothing of their own to prove.
- Partial disk writes and blobs whose length changes: exactness is false there, see
  `PartialWritesMislead`.
- Errors of closing and removing files, which the code only logs.
- The unsynchronised sharing of a file's size between a request and its prefetch: a stat is one step.
- Fairness and writer preference of locks, and so the question whether a call that can get its turn does;
  exclusion, release, exactly which writers can never get theirs, and exactly which calls can never
  return are proved. Readers that arrive
  after such a writer wait too, because of writer preference; the model lets them in.
- `Resolve` never closes its channel, so a lookup ends by a peer or by its timeout; both ends are in the
  model of the loop, but not when each happens.
- Conditional headers of a client, such as If-Range, are passed on to the origin; the assumption that
  the origin honours the range covers them.
- FileViews.File.ReadAt: not for offsets below zero or beyond the end of the file, which the code does not
  guard against; SurvivesExactly says which of them it survives.
- FileViews.File.Read: not for a cursor that a seek has put there, for the same reason.
- ClusterConcurrent.JointSafe: not for runs of the caches with the careless opening described above, for
  which it is false, as ZerosReturned shows.
- ClusterTheorems.ClusterSafe: takes a call as one step, and covers interleaved calls by way of JointSafe.
- ClusterServes.ChunkTravels: says that the steps exist, not that the scheduler takes them.
- ClusterClients.ClientIsServed, ClusterDrains.PrefetchCompletes and ConcurrentReturns.ReturnsUnlessDropped
  say that the steps exist, too.
