/** The exactness of every cache and every answer in every run of the cluster. */
module ClusterExact {
  import opened Common
  import opened Items
  import opened Keys
  import opened Reader
  import opened Cluster
  import ClusterHops
  import ClusterPrefetch
  import Context
  import FileCaches
  import FileViews
  import Segments
  import Stores

  // ---------------------------------------------------------------- the invariant

  /** A cached file is the chunk, or its length gives away that it is not. */
  ghost predicate ChunksExact(cfg: Config, chunks: map<ChunkId, seq<byte>>) {
    forall id :: id in chunks ==> OnGrid(cfg, id) && (|chunks[id]| == |Want(cfg, id)| ==> chunks[id] == Want(cfg, id))
  }

  ghost predicate SizesExact(cfg: Config, sizes: map<string, int>) {
    forall name :: name in sizes ==> name in cfg.blobs && sizes[name] == |cfg.blobs[name]|
  }

  /** A whole chunk of the file that was opened for a session on this node. */
  ghost predicate JobOk(cfg: Config, requests: seq<Request>, n: nat, j: Job) {
    && j.session < |requests| && requests[j.session].node == n && requests[j.session].name == j.id.name
    && OnGrid(cfg, j.id) && j.count == |Want(cfg, j.id)|
  }

  ghost predicate NodeOk(cfg: Config, requests: seq<Request>, n: nat, node: Node) {
    && ChunksExact(cfg, node.chunks) && SizesExact(cfg, node.sizes)
    && forall j :: j in node.made ==> JobOk(cfg, requests, n, j)
  }

  /** Bytes of `blob`, in order, from `start` on. */
  ghost predicate Piece(blob: seq<byte>, start: int, sent: seq<byte>) {
    sent == [] || (0 <= start && start + |sent| <= |blob| && sent == blob[start..start + |sent|])
  }

  ghost predicate ServingOk(cfg: Config, r: Request, s: Serving) {
    s.Opened? ==>
      && r.name in cfg.blobs && cfg.block > 0 && s.file == r.name
      && RangeStartIndex(Range(r)) == Ok(s.start) && s.start >= 0
      && s.chunkOffset == (if Marked(r) then Segments.AlignDown(s.start, cfg.block) else 0)
      && (s.size.Some? ==> s.size.value == |cfg.blobs[r.name]|)
      && Piece(cfg.blobs[r.name], s.start, s.sent)
      && (s.sent != [] ==> s.start + |s.sent| <= RangeEnd(Range(r), |cfg.blobs[r.name]|))
  }

  /** A call for a whole chunk of its session's file, around the byte to be read. */
  ghost predicate CallExact(cfg: Config, requests: seq<Request>, call: Call) {
    && call.session < |requests| && requests[call.session].name == call.id.name
    && OnGrid(cfg, call.id) && call.count == |Want(cfg, call.id)|
    && (call.at.Some? ==> call.id.off <= call.at.value < call.id.off + call.count)
  }

  ghost predicate ProgressExact(cfg: Config, requests: seq<Request>, c: nat, call: Call, p: Progress) {
    OnGrid(cfg, call.id) ==>
      && AllHonest(p.events, Want(cfg, call.id))
      && (p.waiting.Some? ==> p.waiting.value < |requests| && requests[p.waiting.value].parent == Some(c))
      && (p.result.Some? && p.result.value.Ok? ==> p.result.value.value == Want(cfg, call.id))
  }

  ghost predicate NodesOk(cfg: Config, st: State) {
    forall n: nat :: n < |st.nodes| ==> NodeOk(cfg, st.requests, n, st.nodes[n])
  }

  ghost predicate NamesOk(cfg: Config, requests: seq<Request>) {
    forall q :: 0 <= q < |requests| ==> requests[q].name in cfg.blobs
  }

  ghost predicate ServingsOk(cfg: Config, st: State) {
    forall q :: q in st.serving ==> q < |st.requests| && ServingOk(cfg, st.requests[q], st.serving[q])
  }

  ghost predicate CallsOk(cfg: Config, requests: seq<Request>, calls: seq<Call>) {
    forall c :: 0 <= c < |calls| ==> CallExact(cfg, requests, calls[c])
  }

  ghost predicate ProgressOk(cfg: Config, st: State) {
    |st.progress| == |st.calls| && forall c: nat :: c < |st.calls| ==>
        ProgressExact(cfg, st.requests, c, st.calls[c], st.progress[c])
  }

  ghost predicate Inv(cfg: Config, st: State) {
    && NodesOk(cfg, st) && NamesOk(cfg, st.requests) && ServingsOk(cfg, st)
    && CallsOk(cfg, st.requests, st.calls) && ProgressOk(cfg, st)
  }

  // ---------------------------------------------------------------- frames

  lemma MoreRequests(cfg: Config, st: State, r: Request)
    requires Inv(cfg, st) && r.name in cfg.blobs
    ensures Inv(cfg, st.(requests := st.requests + [r]))
  {
  }

  lemma NodeChanges(cfg: Config, st: State, n: nat, node: Node)
    requires Inv(cfg, st) && n < |st.nodes| && NodeOk(cfg, st.requests, n, node)
    ensures Inv(cfg, WithNode(st, n, node))
  {
  }

  lemma ServingChanges(cfg: Config, st: State, q: nat, s: Serving)
    requires Inv(cfg, st) && q < |st.requests| && ServingOk(cfg, st.requests[q], s)
    ensures Inv(cfg, st.(serving := st.serving[q := s]))
  {
  }

  lemma ProgressChanges(cfg: Config, st: State, c: nat, p: Progress)
    requires Inv(cfg, st) && c < |st.calls| && ProgressExact(cfg, st.requests, c, st.calls[c], p)
    ensures Inv(cfg, WithProgress(st, c, p))
  {
  }

  lemma CallComes(cfg: Config, st: State, call: Call)
    requires Inv(cfg, st) && CallExact(cfg, st.requests, call)
    ensures Inv(cfg, WithCall(st, call))
  {
  }

  // ---------------------------------------------------------------- requests

  /** The file opened is the one asked for, and a peer's is opened for the chunk of its range. */
  lemma AdmissionOk(cfg: Config, r: Request, node: Node)
    requires Sensible(cfg) && r.name in cfg.blobs
    ensures ServingOk(cfg, r, Admission(cfg, r, node))
  {
    if Stores.Key(true, r.name, false, Range(r), cfg.block).Ok? {
      Stores.KeyOpens(true, r.name, false, Range(r), cfg.block);
      Stores.RangeStartNonNegative(Range(r));
    }
  }

  /** Exactly who is let in: whoever sends a range that parses, and, of those who come as peers, whoever
      asks for a chunk of which something is here; and to what. */
  lemma AdmissionExactly(cfg: Config, r: Request, node: Node, start: int)
    requires Sensible(cfg) && r.name in cfg.blobs
    ensures var s := Admission(cfg, r, node);
            && (s.Opened? ==> RangeStartIndex(Range(r)).Ok?)
            && (RangeStartIndex(Range(r)) == Ok(start) ==>
                  var id := ChunkId(r.name, Segments.AlignDown(start, cfg.block));
                  && (s.Opened? <==> !Marked(r) || (id in node.chunks && node.chunks[id] != []))
                  && (s.Opened? ==> s == Opened(r.name, if Marked(r) then id.off else 0, start, None, false, [])))
  {
    if Stores.Key(true, r.name, false, Range(r), cfg.block).Ok? {
      Stores.KeyOpens(true, r.name, false, Range(r), cfg.block);
    }
  }

  lemma ClientKeeps(cfg: Config, st: State, node: nat, name: string, headers: Context.Headers)
    requires cfg.block > 0 && Inv(cfg, st)
    ensures Inv(cfg, Step(cfg, st, Client(node, name, headers)))
  {
    if name in cfg.blobs { MoreRequests(cfg, st, Request(node, name, headers, None)); }
  }

  lemma AdmitKeeps(cfg: Config, st: State, q: nat)
    requires Sensible(cfg) && Inv(cfg, st)
    ensures Inv(cfg, Step(cfg, st, Admit(q)))
  {
    if DoAdmit(cfg, st, q) != st {
      AdmissionOk(cfg, st.requests[q], st.nodes[st.requests[q].node]);
      ServingChanges(cfg, st, q, DoAdmit(cfg, st, q).serving[q]);
    }
  }

  lemma StatKeeps(cfg: Config, st: State, q: nat, response: StatResponse)
    requires Sensible(cfg) && Inv(cfg, st)
    ensures Inv(cfg, Step(cfg, st, Stat(q, response)))
  {
    var st' := DoStat(cfg, st, q, response);
    if st' != st {
      var n, s := st.requests[q].node, st.serving[q];
      assert NodeOk(cfg, st.requests, n, st.nodes[n]);
      assert ServingOk(cfg, st.requests[q], s);
      if s.file !in st.nodes[n].sizes { FileViews.DeclaredSize(response, |cfg.blobs[s.file]|); }
      ServingChanges(cfg, st, q, st'.serving[q]);
      var mid := st.(serving := st.serving[q := st'.serving[q]]);
      if st'.nodes != st.nodes { NodeChanges(cfg, mid, n, st'.nodes[n]); }
    }
  }

  // ---------------------------------------------------------------- caches

  lemma ForgetKeeps(cfg: Config, st: State, n: nat, name: string)
    requires cfg.block > 0 && Inv(cfg, st)
    ensures Inv(cfg, Step(cfg, st, Forget(n, name)))
  {
    if n < |st.nodes| {
      assert NodeOk(cfg, st.requests, n, st.nodes[n]);
      NodeChanges(cfg, st, n, DoForget(st, n, name).nodes[n]);
    }
  }

  lemma EvictKeeps(cfg: Config, st: State, n: nat, id: ChunkId)
    requires cfg.block > 0 && Inv(cfg, st)
    ensures Inv(cfg, Step(cfg, st, Evict(n, id)))
  {
    if n < |st.nodes| {
      assert NodeOk(cfg, st.requests, n, st.nodes[n]);
      NodeChanges(cfg, st, n, DoEvict(st, n, id).nodes[n]);
    }
  }

  lemma LandKeeps(cfg: Config, st: State, n: nat, id: ChunkId, content: seq<byte>)
    requires cfg.block > 0 && Inv(cfg, st)
    ensures Inv(cfg, Step(cfg, st, Land(n, id, content)))
  {
    if DoLand(cfg, st, n, id, content) != st {
      assert NodeOk(cfg, st.requests, n, st.nodes[n]);
      NodeChanges(cfg, st, n, DoLand(cfg, st, n, id, content).nodes[n]);
    }
  }

  // ---------------------------------------------------------------- prefetching

  lemma JobOfSegment(cfg: Config, q: nat, name: string, segs: seq<Segments.Segment>, i: nat)
    requires cfg.block > 0 && name in cfg.blobs && i < |segs|
    requires Segments.IsPartition(segs, 0, |cfg.blobs[name]|, cfg.block)
    ensures var j := JobsOf(q, name, segs)[i]; OnGrid(cfg, j.id) && j.count == |Want(cfg, j.id)|
    ensures segs[i].offset == 0
  {
    var size := |cfg.blobs[name]|;
    Segments.SegmentShape(segs, 0, size, cfg.block, i);
    var o := segs[i].Start();
    assert Segments.Holds(segs[i], o);
    Segments.AgreeingSegment(segs, 0, size, size, cfg.block, i, o);
    FileViews.ReadCountIsChunk(cfg.blobs[name], o, cfg.block);
    Segments.AlignDownBlock(0, cfg.block);
    if i == 0 { Segments.AlignDownBlock(o, cfg.block); }
  }

  lemma PrefetchKeeps(cfg: Config, st: State, q: nat, segs: seq<Segments.Segment>)
    requires cfg.block > 0 && Inv(cfg, st)
    ensures Inv(cfg, Step(cfg, st, Prefetch(q, segs)))
  {
    var st' := DoPrefetch(cfg, st, q, segs);
    if st' != st {
      var n, s := st.requests[q].node, st.serving[q];
      assert ServingOk(cfg, st.requests[q], s);
      assert NodeOk(cfg, st.requests, n, st.nodes[n]);
      var jobs := JobsOf(q, s.file, segs);
      forall j | j in jobs ensures JobOk(cfg, st.requests, n, j) {
        var i :| 0 <= i < |jobs| && jobs[i] == j;
        JobOfSegment(cfg, q, s.file, segs, i);
      }
      ServingChanges(cfg, st, q, st'.serving[q]);
      NodeChanges(cfg, st.(serving := st'.serving), n, st'.nodes[n]);
    }
  }

  lemma SendKeeps(cfg: Config, st: State, n: nat, job: Job)
    requires cfg.block > 0 && Inv(cfg, st)
    ensures Inv(cfg, Step(cfg, st, Send(n, job)))
  {
  }

  lemma ReportKeeps(cfg: Config, st: State, n: nat, w: nat)
    requires cfg.block > 0 && Inv(cfg, st)
    ensures Inv(cfg, Step(cfg, st, Report(n, w)))
  {
  }

  lemma TakeKeeps(cfg: Config, st: State, n: nat, asks: bool)
    requires cfg.block > 0 && Inv(cfg, st) && (n < |st.nodes| ==> ClusterPrefetch.Conserved(st.nodes[n]))
    ensures Inv(cfg, Step(cfg, st, Take(n, asks)))
  {
    var st' := DoTake(cfg, st, n, asks);
    if st' != st {
      var node, job := st.nodes[n], st.nodes[n].queue[0];
      assert NodeOk(cfg, st.requests, n, node);
      assert job in multiset(node.queue);
      assert JobOk(cfg, st.requests, n, job);
      NodeChanges(cfg, st, n, st'.nodes[n]);
      CallComes(cfg, WithNode(st, n, st'.nodes[n]), st'.calls[|st.calls|]);
    }
  }

  // ---------------------------------------------------------------- reading

  lemma ReadKeeps(cfg: Config, st: State, q: nat, asks: bool)
    requires cfg.block > 0 && Inv(cfg, st)
    ensures Inv(cfg, Step(cfg, st, Read(q, asks)))
  {
    var st' := DoRead(cfg, st, q, asks);
    if st' != st {
      var s := st.serving[q];
      assert ServingOk(cfg, st.requests[q], s);
      FileViews.ReadCountIsChunk(cfg.blobs[s.file], s.start + |s.sent|, cfg.block);
      CallComes(cfg, st, st'.calls[|st.calls|]);
    }
  }

  lemma PieceGrows(blob: seq<byte>, start: int, sent: seq<byte>, off: nat, block: int, n: nat)
    requires block > 0 && Piece(blob, start, sent) && 0 <= start && off <= |blob| && n > 0
    requires off <= start + |sent| && start + |sent| - off + n <= |Chunk(blob, off, block)|
    ensures var pos := start + |sent| - off; Piece(blob, start, sent + Chunk(blob, off, block)[pos..pos + n])
  {
    var pos := start + |sent| - off;
    var next := Chunk(blob, off, block)[pos..pos + n];
    FileViews.PieceOfChunk(blob, off, start + |sent|, block, n);
    assert next == blob[start + |sent|..start + |sent| + n];
    assert sent + next == blob[start..start + |sent| + n];
  }

  lemma DeliverKeeps(cfg: Config, st: State, c: nat, n: nat)
    requires cfg.block > 0 && Inv(cfg, st)
    ensures Inv(cfg, Step(cfg, st, Deliver(c, n)))
  {
    if CanDeliver(st, c, n) {
      var call, p := st.calls[c], st.progress[c];
      var q := call.session;
      var s := st.serving[q];
      assert CallExact(cfg, st.requests, call) && ProgressExact(cfg, st.requests, c, call, p);
      assert ServingOk(cfg, st.requests[q], s);
      PieceGrows(cfg.blobs[s.file], s.start, s.sent, call.id.off, cfg.block, n);
      ServingChanges(cfg, st, q, DoDeliver(st, c, n).serving[q]);
    }
  }

  // ---------------------------------------------------------------- the network

  lemma AskKeeps(cfg: Config, st: State, c: nat, peer: nat, correlation: string, sender: string)
    requires cfg.block > 0 && Inv(cfg, st)
    ensures Inv(cfg, Step(cfg, st, Ask(c, peer, correlation, sender)))
  {
  }

  /** The chunk a peer was asked for is the chunk it derives from the text it received. */
  lemma ChildServes(cfg: Config, st: State, q: nat, c: nat)
    requires Sensible(cfg) && Inv(cfg, st) && ClusterHops.Hops(st.requests, st.calls)
    requires q < |st.requests| && c < |st.calls| && st.requests[q].parent == Some(c) && q in st.serving
    requires st.serving[q].Opened?
    ensures var id := st.calls[c].id;
            && st.serving[q].file == id.name && st.serving[q].chunkOffset == st.serving[q].start == id.off
            && OnGrid(cfg, id) && st.serving[q].sent <= Want(cfg, id)
  {
    var s, call := st.serving[q], st.calls[c];
    assert ServingOk(cfg, st.requests[q], s) && CallExact(cfg, st.requests, call);
    assert ClusterHops.RequestOk(st.requests, st.calls, q);
    RangeServes(cfg, st.requests[q], s, call.id, call.count);
  }

  lemma RangeServes(cfg: Config, r: Request, s: Serving, id: ChunkId, count: int)
    requires Sensible(cfg) && ServingOk(cfg, r, s) && s.Opened? && OnGrid(cfg, id) && count == |Want(cfg, id)|
    requires r.name == id.name && Marked(r) && Range(r) == RangeHeader(id.off, id.off + count - 1)
    ensures s.chunkOffset == s.start == id.off && s.sent <= Want(cfg, id)
  {
    CrossNodeKey(id.name, id.off, count, cfg.block);
    Segments.AlignDownBlock(id.off, cfg.block);
  }

  lemma AnsweredKeeps(cfg: Config, st: State, c: nat, lost: bool)
    requires Sensible(cfg) && Inv(cfg, st) && ClusterHops.Hops(st.requests, st.calls)
    ensures Inv(cfg, Step(cfg, st, Answered(c, lost)))
  {
    if Active(st, c) && st.progress[c].waiting.Some? {
      var p := st.progress[c];
      var q := p.waiting.value;
      assert CallExact(cfg, st.requests, st.calls[c]);
      assert ProgressExact(cfg, st.requests, c, st.calls[c], p);
      if q in st.serving && st.serving[q].Opened? { ChildServes(cfg, st, q, c); }
      ProgressChanges(cfg, st, c, DoAnswered(st, c, lost).progress[c]);
    }
  }

  lemma SkipKeeps(cfg: Config, st: State, c: nat, event: Event)
    requires cfg.block > 0 && Inv(cfg, st)
    ensures Inv(cfg, Step(cfg, st, Skip(c, event)))
  {
  }

  lemma HitKeeps(cfg: Config, st: State, c: nat)
    requires cfg.block > 0 && Inv(cfg, st)
    ensures Inv(cfg, Step(cfg, st, Hit(c)))
  {
  }

  lemma BreakKeeps(cfg: Config, st: State, c: nat)
    requires cfg.block > 0 && Inv(cfg, st)
    ensures Inv(cfg, Step(cfg, st, Break(c)))
  {
  }

  lemma OriginServes(asks: bool, events: seq<Event>, want: seq<byte>)
    requires want != [] && AllHonest(events, want)
    ensures Fetched(asks, events, Response(206, want), |want|) == Ok(want)
  {
    FileCaches.SoundFetch(FileCaches.Net(0, 0, Resolution(false, events), Response(206, want)), asks, want);
  }

  /** What a fetch from such an origin and exact peers brings is the chunk. */
  lemma FillExact(cfg: Config, call: Call, events: seq<Event>, origin: Http)
    requires OnGrid(cfg, call.id) && call.count == |Want(cfg, call.id)| && AllHonest(events, Want(cfg, call.id))
    requires OriginHonours(cfg.blobs[call.id.name], call.id.off, call.count, origin)
    ensures var r := Fetched(call.asks, events, origin, call.count); r.Ok? ==> r.value == Want(cfg, call.id)
  {
    var net := FileCaches.Net(0, 0, Resolution(false, events), origin);
    FileCaches.SoundFetch(net, call.asks, Want(cfg, call.id));
  }

  lemma FillKeeps(cfg: Config, st: State, c: nat, origin: Http, kept: bool)
    requires cfg.block > 0 && Inv(cfg, st)
    ensures Inv(cfg, Step(cfg, st, Fill(c, origin, kept)))
  {
    var st' := DoFill(cfg, st, c, origin, kept);
    if st' != st {
      var n := NodeOf(st, c);
      assert CallExact(cfg, st.requests, st.calls[c]);
      assert ProgressExact(cfg, st.requests, c, st.calls[c], st.progress[c]);
      assert NodeOk(cfg, st.requests, n, st.nodes[n]);
      FillExact(cfg, st.calls[c], st.progress[c].events, origin);
      ProgressChanges(cfg, st, c, st'.progress[c]);
      if st'.nodes != st.nodes { NodeChanges(cfg, WithProgress(st, c, st'.progress[c]), n, st'.nodes[n]); }
    }
  }

  // ---------------------------------------------------------------- runs

  lemma StepKeepsInv(cfg: Config, st: State, a: Action)
    requires Sensible(cfg) && Inv(cfg, st) && ClusterHops.Hops(st.requests, st.calls) && ClusterPrefetch.Pipeline(st)
    ensures Inv(cfg, Step(cfg, st, a))
  {
    match a
    case Client(node, name, headers) => ClientKeeps(cfg, st, node, name, headers);
    case Admit(q) => AdmitKeeps(cfg, st, q);
    case Stat(q, response) => StatKeeps(cfg, st, q, response);
    case Forget(node, name) => ForgetKeeps(cfg, st, node, name);
    case Evict(node, id) => EvictKeeps(cfg, st, node, id);
    case Land(node, id, content) => LandKeeps(cfg, st, node, id, content);
    case Prefetch(q, segs) => PrefetchKeeps(cfg, st, q, segs);
    case Send(node, job) => SendKeeps(cfg, st, node, job);
    case Take(node, asks) => TakeKeeps(cfg, st, node, asks);
    case Report(node, worker) => ReportKeeps(cfg, st, node, worker);
    case Read(q, asks) => ReadKeeps(cfg, st, q, asks);
    case Deliver(c, n) => DeliverKeeps(cfg, st, c, n);
    case Ask(c, peer, correlation, sender) => AskKeeps(cfg, st, c, peer, correlation, sender);
    case Answered(c, lost) => AnsweredKeeps(cfg, st, c, lost);
    case Skip(c, event) => SkipKeeps(cfg, st, c, event);
    case Hit(c) => HitKeeps(cfg, st, c);
    case Fill(c, origin, kept) => FillKeeps(cfg, st, c, origin, kept);
    case Break(c) => BreakKeeps(cfg, st, c);
  }

  lemma {:induction false} RunKeepsInv(cfg: Config, nodes: nat, acts: seq<Action>)
    requires Sensible(cfg)
    ensures Inv(cfg, Run(cfg, nodes, acts))
    decreases |acts|
  {
    if acts != [] {
      var before := acts[..|acts| - 1];
      RunKeepsInv(cfg, nodes, before);
      ClusterHops.RunKeepsHops(cfg, nodes, before);
      ClusterPrefetch.RunKeepsPipeline(cfg, nodes, before);
      StepKeepsInv(cfg, Run(cfg, nodes, before), acts[|acts| - 1]);
    }
  }
}
