/** What every run of the cluster guarantees. */
module ClusterTheorems {
  import opened Common
  import opened Items
  import opened Keys
  import opened Reader
  import opened Cluster
  import opened ClusterExact
  import ClusterHops
  import ClusterPrefetch
  import Segments

  // ---------------------------------------------------------------- safety

  /** Every whole chunk in every cache is that slice of the blob, and every size the blob's length. */
  ghost predicate CachesExact(cfg: Config, node: Node) {
    && (forall id :: id in node.chunks && OnGrid(cfg, id) && |node.chunks[id]| == |Want(cfg, id)| ==>
          node.chunks[id] == Want(cfg, id))
    && (forall id :: id in node.chunks ==> OnGrid(cfg, id))
    && (forall name :: name in node.sizes ==> name in cfg.blobs && node.sizes[name] == |cfg.blobs[name]|)
  }

  /** The bytes sent for a request are the blob's, in order, from the first byte its range asks for. */
  ghost predicate AnswerExact(cfg: Config, r: Request, s: Serving) {
    s.Opened? && s.sent != [] ==>
      && r.name in cfg.blobs && RangeStartIndex(Range(r)).Ok?
      && var blob, start := cfg.blobs[r.name], RangeStartIndex(Range(r)).value;
         && 0 <= start && start + |s.sent| <= RangeEnd(Range(r), |blob|)
         && start + |s.sent| <= |blob| && s.sent == blob[start..start + |s.sent|]
  }

  ghost predicate Safe(cfg: Config, st: State) {
    && (forall n :: 0 <= n < |st.nodes| ==> CachesExact(cfg, st.nodes[n]))
    && (forall q :: q in st.serving ==> q < |st.requests| && AnswerExact(cfg, st.requests[q], st.serving[q]))
    && |st.progress| == |st.calls|
    && (forall c :: 0 <= c < |st.calls| && st.progress[c].result.Some? && st.progress[c].result.value.Ok? ==>
          OnGrid(cfg, st.calls[c].id) && st.progress[c].result.value.value == Want(cfg, st.calls[c].id))
  }

  /** In every run, over any number of nodes: caches are exact, answers are exact, and every call of
      GetOrCreate that succeeds returns exactly its chunk, whether the bytes came from the origin or
      through other nodes' caches. */
  lemma ClusterSafe(cfg: Config, nodes: nat, acts: seq<Action>)
    requires Sensible(cfg)
    ensures Safe(cfg, Run(cfg, nodes, acts))
  {
    RunKeepsInv(cfg, nodes, acts);
    var st := Run(cfg, nodes, acts);
    forall n: nat | n < |st.nodes| ensures CachesExact(cfg, st.nodes[n]) {
      assert NodeOk(cfg, st.requests, n, st.nodes[n]);
    }
    forall c: nat | c < |st.calls| && st.progress[c].result.Some? && st.progress[c].result.value.Ok?
      ensures OnGrid(cfg, st.calls[c].id) && st.progress[c].result.value.value == Want(cfg, st.calls[c].id)
    {
      assert CallExact(cfg, st.requests, st.calls[c]);
      assert ProgressExact(cfg, st.requests, c, st.calls[c], st.progress[c]);
    }
  }

  /** In every run, a request between nodes opens at the receiver the very chunk the sender's call is
      for, by way of the printed range and the key made from it, and that chunk only unless it is the
      first; what has been sent back is the beginning of it. */
  lemma PeersAgreeOnChunk(cfg: Config, nodes: nat, acts: seq<Action>, q: nat)
    requires Sensible(cfg)
    requires var st := Run(cfg, nodes, acts);
             q < |st.requests| && st.requests[q].parent.Some? && q in st.serving && st.serving[q].Opened?
    ensures var st := Run(cfg, nodes, acts);
            var c := st.requests[q].parent.value;
            && c < |st.calls| && OnGrid(cfg, st.calls[c].id)
            && RangeStartIndex(Range(st.requests[q])).Ok?
            && OpenKey(FileChunkKey(st.requests[q].name, RangeStartIndex(Range(st.requests[q])).value, cfg.block))
               == Some((st.calls[c].id.name, st.calls[c].id.off))
            && st.serving[q].file == st.calls[c].id.name && st.serving[q].chunkOffset == st.calls[c].id.off
            && st.serving[q].sent <= Want(cfg, st.calls[c].id)
  {
    RunKeepsInv(cfg, nodes, acts);
    ClusterHops.RunKeepsHops(cfg, nodes, acts);
    var st := Run(cfg, nodes, acts);
    assert ClusterHops.RequestOk(st.requests, st.calls, q);
    var c := st.requests[q].parent.value;
    ChildServes(cfg, st, q, c);
    assert ServingOk(cfg, st.requests[q], st.serving[q]);
    KeyOfChunk(cfg, st.calls[c].id);
  }

  /** A chunk's key opens as the chunk. */
  lemma KeyOfChunk(cfg: Config, id: ChunkId)
    requires Sensible(cfg) && OnGrid(cfg, id)
    ensures OpenKey(FileChunkKey(id.name, id.off, cfg.block)) == Some((id.name, id.off))
  {
    ChunkKeyRoundTrip(id.name, id.off, cfg.block);
    Segments.AlignDownBlock(id.off, cfg.block);
  }

  // ---------------------------------------------------------------- one chunk for a peer

  /** A file opened for one chunk, other than the first, has been sent nothing beyond it. */
  predicate Confined(cfg: Config, s: Serving) {
    s.Opened? && s.chunkOffset != 0 && s.sent != [] ==> s.start + |s.sent| <= s.chunkOffset + cfg.block
  }

  /** Reads of such a file are of its chunk. */
  predicate ReadConfined(st: State, call: Call) {
    call.at.Some? ==>
      && call.session in st.serving && st.serving[call.session].Opened?
      && (st.serving[call.session].chunkOffset != 0 ==> call.id.off == st.serving[call.session].chunkOffset)
  }

  ghost predicate AllConfined(cfg: Config, st: State) {
    && (forall q :: q in st.serving ==> Confined(cfg, st.serving[q]))
    && (forall c :: 0 <= c < |st.calls| ==> ReadConfined(st, st.calls[c]))
  }

  lemma DeliverConfined(cfg: Config, st: State, c: nat, n: nat)
    requires Inv(cfg, st) && AllConfined(cfg, st) && CanDeliver(st, c, n)
    ensures Confined(cfg, DoDeliver(st, c, n).serving[st.calls[c].session])
  {
    assert CallExact(cfg, st.requests, st.calls[c]);
    assert ProgressExact(cfg, st.requests, c, st.calls[c], st.progress[c]);
    assert ReadConfined(st, st.calls[c]);
  }

  lemma FilesConfined(cfg: Config, st: State, a: Action, q: nat)
    requires cfg.block > 0 && Inv(cfg, st) && AllConfined(cfg, st) && q in Step(cfg, st, a).serving
    ensures Confined(cfg, Step(cfg, st, a).serving[q])
  {
    if a.Deliver? && CanDeliver(st, a.c, a.n) { DeliverConfined(cfg, st, a.c, a.n); }
  }

  lemma OffsetsStay(cfg: Config, st: State, a: Action, q: nat)
    requires cfg.block > 0 && q in st.serving && st.serving[q].Opened?
    ensures var st' := Step(cfg, st, a);
            q in st'.serving && st'.serving[q].Opened? && st'.serving[q].chunkOffset == st.serving[q].chunkOffset
  {
  }

  lemma NewReadConfined(cfg: Config, st: State, a: Action)
    requires cfg.block > 0 && |st.calls| < |Step(cfg, st, a).calls|
    ensures ReadConfined(Step(cfg, st, a), Step(cfg, st, a).calls[|st.calls|])
  {
  }

  lemma CallsStay(cfg: Config, st: State, a: Action)
    requires cfg.block > 0
    ensures st.calls <= Step(cfg, st, a).calls && |Step(cfg, st, a).calls| <= |st.calls| + 1
  {
  }

  lemma StepConfined(cfg: Config, st: State, a: Action)
    requires cfg.block > 0 && Inv(cfg, st) && AllConfined(cfg, st)
    ensures AllConfined(cfg, Step(cfg, st, a))
  {
    var st' := Step(cfg, st, a);
    forall q | q in st'.serving ensures Confined(cfg, st'.serving[q]) { FilesConfined(cfg, st, a, q); }
    CallsStay(cfg, st, a);
    if |st.calls| < |st'.calls| { NewReadConfined(cfg, st, a); }
    forall c | 0 <= c < |st'.calls| ensures ReadConfined(st', st'.calls[c]) {
      if c < |st.calls| && st.calls[c].at.Some? { OffsetsStay(cfg, st, a, st.calls[c].session); }
    }
  }

  lemma {:induction false} RunConfined(cfg: Config, nodes: nat, acts: seq<Action>)
    requires Sensible(cfg)
    ensures AllConfined(cfg, Run(cfg, nodes, acts))
    decreases |acts|
  {
    if acts != [] {
      var before := acts[..|acts| - 1];
      RunConfined(cfg, nodes, before);
      RunKeepsInv(cfg, nodes, before);
      StepConfined(cfg, Run(cfg, nodes, before), acts[|acts| - 1]);
    }
  }

  /** In every run, whoever comes as a peer, and whatever range he asks for, gets bytes of one chunk only,
      the one around the start of the range, unless that is the first. */
  lemma OneChunkForPeers(cfg: Config, nodes: nat, acts: seq<Action>, q: nat)
    requires Sensible(cfg)
    requires var st := Run(cfg, nodes, acts); IsOpen(st, q) && Marked(st.requests[q])
    ensures var st := Run(cfg, nodes, acts);
            var s := st.serving[q];
            var off := Segments.AlignDown(s.start, cfg.block);
            RangeStartIndex(Range(st.requests[q])) == Ok(s.start)
            && (off != 0 && s.sent != [] ==> off <= s.start && s.start + |s.sent| <= off + cfg.block)
  {
    RunConfined(cfg, nodes, acts);
    RunKeepsInv(cfg, nodes, acts);
    var st := Run(cfg, nodes, acts);
    assert ServingOk(cfg, st.requests[q], st.serving[q]) && Confined(cfg, st.serving[q]);
    Segments.AlignDownBlock(st.serving[q].start, cfg.block);
  }

  // ---------------------------------------------------------------- prefetching

  /** In every run and with any number of workers, the segments a node has made are those being sent,
      queued, in a worker's hands, failed and advertised, each as often as it was made. */
  lemma PrefetchConserves(cfg: Config, nodes: nat, acts: seq<Action>, n: nat)
    requires cfg.block > 0 && n < |Run(cfg, nodes, acts).nodes|
    ensures var node := Run(cfg, nodes, acts).nodes[n];
            node.made == node.sending + multiset(node.queue) + ClusterPrefetch.Jobs(node.hands)
                         + ClusterPrefetch.Jobs(node.failed) + ClusterPrefetch.Jobs(node.advertised)
  {
    ClusterPrefetch.RunKeepsPipeline(cfg, nodes, acts);
    assert ClusterPrefetch.Conserved(Run(cfg, nodes, acts).nodes[n]);
  }

  /** In every run, an advertised key names a chunk that a call of GetOrCreate on that node has
      returned, exactly. */
  lemma AdvertisedWasGot(cfg: Config, nodes: nat, acts: seq<Action>, n: nat, h: Hand)
    requires Sensible(cfg)
    requires n < |Run(cfg, nodes, acts).nodes| && h in Run(cfg, nodes, acts).nodes[n].advertised
    ensures var st := Run(cfg, nodes, acts);
            && OnGrid(cfg, h.job.id)
            && OpenKey(FileChunkKey(h.job.id.name, h.job.id.off, cfg.block)) == Some((h.job.id.name, h.job.id.off))
            && h.call < |st.calls| == |st.progress| && st.calls[h.call].id == h.job.id
            && st.calls[h.call].session < |st.requests| && st.requests[st.calls[h.call].session].node == n
            && st.progress[h.call].result == Some(Ok(Want(cfg, h.job.id)))
  {
    RunKeepsInv(cfg, nodes, acts);
    ClusterPrefetch.RunKeepsPipeline(cfg, nodes, acts);
    var st := Run(cfg, nodes, acts);
    var node := st.nodes[n];
    assert ClusterPrefetch.Conserved(node) && ClusterPrefetch.HandsOk(node, st.calls, st.progress);
    AdvertisedWasMade(node, h);
    assert NodeOk(cfg, st.requests, n, node);
    assert JobOk(cfg, st.requests, n, h.job);
    assert ClusterPrefetch.HandOk(st.calls, h) && ClusterPrefetch.Returned(st.progress, h, true);
    assert ProgressExact(cfg, st.requests, h.call, st.calls[h.call], st.progress[h.call]);
    KeyOfChunk(cfg, h.job.id);
  }

  lemma AdvertisedWasMade(node: Node, h: Hand)
    requires ClusterPrefetch.Conserved(node) && h in node.advertised
    ensures h.job in node.made
  {
    var i :| 0 <= i < |node.advertised| && node.advertised[i] == h;
    ClusterPrefetch.JobsLess(node.advertised, i);
  }

  // ---------------------------------------------------------------- a drained pipeline

  /** The job that prefetches the chunk around byte `o` for session `q`. */
  function JobAt(cfg: Config, q: nat, name: string, o: nat): Job
    requires cfg.block > 0 && name in cfg.blobs
  {
    var off := Segments.AlignDown(o, cfg.block);
    Job(q, ChunkId(name, off), Min(cfg.block, |cfg.blobs[name]| - off))
  }

  ghost predicate MadeFor(cfg: Config, st: State, q: nat) {
    && cfg.block > 0 && IsOpen(st, q) && st.serving[q].file in cfg.blobs
    && forall o: nat :: o < |cfg.blobs[st.serving[q].file]| ==>
         JobAt(cfg, q, st.serving[q].file, o) in st.nodes[st.requests[q].node].made
  }

  ghost predicate AllMade(cfg: Config, st: State) {
    forall q :: q in st.serving && st.serving[q].Opened? && st.serving[q].prefetched ==> MadeFor(cfg, st, q)
  }

  lemma PrefetchMakesAll(cfg: Config, q: nat, name: string, segs: seq<Segments.Segment>, o: nat)
    requires cfg.block > 0 && name in cfg.blobs && o < |cfg.blobs[name]|
    requires Segments.IsPartition(segs, 0, |cfg.blobs[name]|, cfg.block)
    ensures JobAt(cfg, q, name, o) in multiset(JobsOf(q, name, segs))
  {
    var size := |cfg.blobs[name]|;
    var k := Segments.SomeSegmentHolds(segs, 0, size, cfg.block, o);
    Segments.AgreeingSegment(segs, 0, size, size, cfg.block, k, o);
    assert JobsOf(q, name, segs)[k] == JobAt(cfg, q, name, o);
  }

  ghost predicate NodesGrow(was: seq<Node>, nodes: seq<Node>) {
    |nodes| == |was| && forall n :: 0 <= n < |was| ==> was[n].made <= nodes[n].made
  }

  /** Of an opened file, only what it has sent, its size and whether it was prefetched ever change. */
  ghost predicate FilesGrow(was: map<nat, Serving>, serving: map<nat, Serving>) {
    forall q :: q in was && was[q].Opened? ==> q in serving && serving[q].Opened? && serving[q].file == was[q].file
  }

  ghost predicate SamePrefetched(was: map<nat, Serving>, serving: map<nat, Serving>) {
    forall q :: q in serving && serving[q].Opened? && serving[q].prefetched ==>
        q in was && was[q].Opened? && was[q].prefetched
  }

  lemma NodesStep(cfg: Config, st: State, a: Action)
    requires cfg.block > 0
    ensures NodesGrow(st.nodes, Step(cfg, st, a).nodes)
  {
  }

  lemma RequestsStep(cfg: Config, st: State, a: Action)
    requires cfg.block > 0
    ensures st.requests <= Step(cfg, st, a).requests
  {
  }

  lemma FilesStep(cfg: Config, st: State, a: Action)
    requires cfg.block > 0
    ensures FilesGrow(st.serving, Step(cfg, st, a).serving)
  {
  }

  lemma PrefetchedStep(cfg: Config, st: State, a: Action)
    requires cfg.block > 0 && !a.Prefetch?
    ensures SamePrefetched(st.serving, Step(cfg, st, a).serving)
  {
  }

  lemma StaysMade(cfg: Config, st: State, st': State, q: nat)
    requires MadeFor(cfg, st, q) && NodesGrow(st.nodes, st'.nodes) && FilesGrow(st.serving, st'.serving)
    requires st.requests <= st'.requests
    ensures MadeFor(cfg, st', q)
  {
  }

  lemma StepStaysMade(cfg: Config, st: State, a: Action, q: nat)
    requires MadeFor(cfg, st, q)
    ensures MadeFor(cfg, Step(cfg, st, a), q)
  {
    var st' := Step(cfg, st, a);
    NodesStep(cfg, st, a);
    RequestsStep(cfg, st, a);
    FilesStep(cfg, st, a);
    StaysMade(cfg, st, st', q);
  }

  lemma PrefetchAllMade(cfg: Config, st: State, q: nat, segs: seq<Segments.Segment>)
    requires cfg.block > 0 && Inv(cfg, st) && AllMade(cfg, st)
    ensures AllMade(cfg, DoPrefetch(cfg, st, q, segs))
  {
    var st' := DoPrefetch(cfg, st, q, segs);
    if st' != st {
      assert ServingOk(cfg, st.requests[q], st.serving[q]);
      var name := st.serving[q].file;
      forall o: nat | o < |cfg.blobs[name]| ensures JobAt(cfg, q, name, o) in st'.nodes[st.requests[q].node].made {
        PrefetchMakesAll(cfg, q, name, segs, o);
      }
      forall r | r in st'.serving && st'.serving[r].Opened? && st'.serving[r].prefetched ensures MadeFor(cfg, st', r) {
        if r != q { StepStaysMade(cfg, st, Prefetch(q, segs), r); }
      }
    }
  }

  lemma StepAllMade(cfg: Config, st: State, a: Action)
    requires cfg.block > 0 && Inv(cfg, st) && AllMade(cfg, st)
    ensures AllMade(cfg, Step(cfg, st, a))
  {
    if a.Prefetch? {
      PrefetchAllMade(cfg, st, a.q, a.segs);
    } else {
      var st' := Step(cfg, st, a);
      PrefetchedStep(cfg, st, a);
      forall q | q in st'.serving && st'.serving[q].Opened? && st'.serving[q].prefetched ensures MadeFor(cfg, st', q) {
        assert MadeFor(cfg, st, q);
        StepStaysMade(cfg, st, a, q);
      }
    }
  }

  lemma {:induction false} RunAllMade(cfg: Config, nodes: nat, acts: seq<Action>)
    requires Sensible(cfg)
    ensures AllMade(cfg, Run(cfg, nodes, acts))
    decreases |acts|
  {
    if acts != [] {
      var before := acts[..|acts| - 1];
      RunAllMade(cfg, nodes, before);
      RunKeepsInv(cfg, nodes, before);
      StepAllMade(cfg, Run(cfg, nodes, before), acts[|acts| - 1]);
    }
  }

  /** Nothing of the node's prefetching is left to do. */
  predicate Drained(node: Node) { node.sending == multiset{} && node.queue == [] && node.hands == [] }

  ghost predicate Has(hands: seq<Hand>, job: Job) { exists h :: h in hands && h.job == job }

  lemma JobsHas(hands: seq<Hand>, job: Job)
    requires job in ClusterPrefetch.Jobs(hands)
    ensures Has(hands, job)
  {
  }

  /** In every run, once a node's pipeline has drained, the chunk around each byte of each file it
      prefetched has been advertised, or its job has failed. */
  lemma DrainedIsComplete(cfg: Config, nodes: nat, acts: seq<Action>, q: nat, o: nat)
    requires Sensible(cfg)
    requires var st := Run(cfg, nodes, acts);
             && IsOpen(st, q) && st.serving[q].prefetched && Drained(st.nodes[st.requests[q].node])
             && st.requests[q].name in cfg.blobs && o < |cfg.blobs[st.requests[q].name]|
    ensures var st := Run(cfg, nodes, acts);
            var job := JobAt(cfg, q, st.requests[q].name, o);
            Has(st.nodes[st.requests[q].node].advertised, job) || Has(st.nodes[st.requests[q].node].failed, job)
  {
    var st := Run(cfg, nodes, acts);
    RunAllMade(cfg, nodes, acts);
    RunKeepsInv(cfg, nodes, acts);
    ClusterPrefetch.RunKeepsPipeline(cfg, nodes, acts);
    assert ServingOk(cfg, st.requests[q], st.serving[q]) && MadeFor(cfg, st, q);
    var node, job := st.nodes[st.requests[q].node], JobAt(cfg, q, st.requests[q].name, o);
    assert ClusterPrefetch.Conserved(node) && job in node.made;
    NoHands(node);
    if job in ClusterPrefetch.Jobs(node.advertised) {
      JobsHas(node.advertised, job);
    } else {
      JobsHas(node.failed, job);
    }
  }

  lemma NoHands(node: Node)
    requires node.hands == []
    ensures ClusterPrefetch.Jobs(node.hands) == multiset{}
  {
  }
}
